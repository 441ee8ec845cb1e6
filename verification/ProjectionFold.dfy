/** Publishing the projections: render everything, send one packet per changed target through an
    admission gate, read every target back.  Calls may fail, and other programs may write the targets
    at any step; a failing file write has no effect. */
module ProjectionFold {
  import C = Continuity
  import G = ContinuityGates
  import opened P = Projection
  import S = Sentinels

  datatype Outcome = Completed | NotAttempted | Ambiguous | Error

  datatype Loaded = Unreadable | Missing | Present(text: string)

  datatype Applied = Written | Denied(why: G.Denial) | Refusal

  /** A file that was replaced, and the packet that did it. */
  datatype Write = Write(target: Target, content: string, packet: nat)

  datatype FoldRequest = FoldRequest(task: string, candidate: string, merge: C.Option<string>)

  function PathOf(t: Target): string {
    match t
    case CurrentWork => "CURRENT-WORK.md"
    case Handoff => "handoff.md"
    case Collab => "COLLAB.md"
  }

  function Prior(files: map<Target, string>, t: Target): S.Option<string> {
    if t in files then S.Some(files[t]) else S.None
  }

  function Lower(s: string): string {
    seq(|s|, i requires 0 <= i < |s| => if 'A' <= s[i] <= 'Z' then (s[i] as int + 32) as char else s[i])
  }

  /** Every target holds what rendering the facts over `before` gives. */
  predicate Published(targets: seq<Target>, f: Facts, before: map<Target, string>, after: map<Target, string>) {
    forall i :: 0 <= i < |targets| ==>
      targets[i] in after && Render(targets[i], f, Prior(before, targets[i])) == Doc(after[targets[i]])
  }

  predicate AreRenders(targets: seq<Target>, f: Facts, before: map<Target, string>, rendered: seq<string>) {
    && |rendered| == |targets|
    && forall i :: 0 <= i < |targets| ==> Render(targets[i], f, Prior(before, targets[i])) == Doc(rendered[i])
  }

  /** Each file is as before, or, for a target, as rendered over what was before. */
  predicate OldOrRendered(targets: seq<Target>, f: Facts, before: map<Target, string>, after: map<Target, string>) {
    forall t: Target {:trigger Prior(after, t)} ::
      Prior(after, t) == Prior(before, t) || (t in targets && t in after && Render(t, f, Prior(before, t)) == Doc(after[t]))
  }

  /** The head that packets carry when the adapter was given none. */
  const UNKNOWN_HEAD := "0000000000000000000000000000000000000000"

  predicate Distinct(targets: seq<Target>) {
    forall i, j :: 0 <= i < j < |targets| ==> targets[i] != targets[j]
  }

  predicate AllRender(targets: seq<Target>, f: Facts, files: map<Target, string>) {
    forall i :: 0 <= i < |targets| ==> Render(targets[i], f, Prior(files, targets[i])).Doc?
  }

  class FoldAdapter {
    const site: G.Site
    const session: string
    const task: string
    const head: string
    const targets: seq<Target>
    const sha: string -> string
    /** The authorities' answers while a packet is applied: the healthy lease, if there is one, and the
        trusted provider's snapshot for a request, if it has one. */
    const leases: nat -> C.Option<G.WorkerLease>
    const snapshots: (nat, G.Request) -> C.Option<C.Snapshot>
    var files: map<Target, string>
    var packets: nat
    ghost var writes: seq<Write>
    ghost var outside: nat
    ghost var faults: nat

    constructor (site: G.Site, session: string, task: string, head: string, targets: seq<Target>, sha: string -> string,
                 leases: nat -> C.Option<G.WorkerLease>, snapshots: (nat, G.Request) -> C.Option<C.Snapshot>,
                 files: map<Target, string>)
      ensures this.files == files && packets == 0 && writes == [] && outside == 0 && faults == 0
      ensures this.targets == targets && this.session == session && this.task == task && this.site == site && this.sha == sha
      ensures this.head == if head == "" then UNKNOWN_HEAD else Lower(head)
      ensures this.leases == leases && this.snapshots == snapshots
    {
      this.site, this.session, this.task, this.targets, this.sha, this.files := site, session, task, targets, sha, files;
      this.head := if head == "" then UNKNOWN_HEAD else Lower(head);
      this.leases, this.snapshots := leases, snapshots;
      packets, writes, outside, faults := 0, [], 0, 0;
    }

    /** The lease is this session's, for this task, this worktree and this head. */
    predicate Serves(lease: G.WorkerLease) {
      && lease.session == session && lease.task == task
      && site.seams.key(site.root).Some? && site.seams.key(lease.worktree) == site.seams.key(site.root)
      && Lower(lease.expectedHead) == head
    }

    /** The continuity request of a packet that changes exactly `t`. */
    function RequestFor(lease: G.WorkerLease, t: Target): G.Request {
      G.Request(session, task, Lower(lease.expectedHead), head, [PathOf(t)])
    }

    /** What the gate says to packet `n`: the typed one for a named merge, the generic one otherwise. */
    function Gate(n: nat, lease: G.WorkerLease, t: Target, commit: C.Option<string>): C.Option<G.Denial> {
      var request := RequestFor(lease, t);
      var snapshot := snapshots(n, request);
      if snapshot.None? then C.Some(G.ContinuityUnavailable)
      else if commit.None? then G.GenericGate(site, lease, request, snapshot.value)
      else G.TypedGate(site, lease, request, commit.value, snapshot.value)
    }

    predicate InScope(lease: G.WorkerLease, t: Target) {
      !G.Matches(site, PathOf(t), lease.forbiddenScope) && G.Matches(site, PathOf(t), lease.mutableScope)
    }

    /** Packet `n` may change `t`: its lease serves this adapter, the gate is open for exactly this change,
        and the lease's scope covers it. */
    predicate Admits(n: nat, t: Target, commit: C.Option<string>) {
      && leases(n).Some? && Serves(leases(n).value)
      && Gate(n, leases(n).value, t, commit) == C.None
      && InScope(leases(n).value, t)
    }

    /** The typed gate refused packet `n` because no fold is owed. */
    predicate NothingOwed(n: nat, t: Target, commit: string) {
      && leases(n).Some? && Serves(leases(n).value)
      && Gate(n, leases(n).value, t, C.Some(commit)) == C.Some(G.ClassificationDenied)
    }

    /** Whenever a packet for `t` is sent from now on, a gate it may use is open. */
    ghost predicate Welcomes(since: nat, t: Target, merge: C.Option<string>) {
      match merge
      case None => forall n: nat :: n >= since ==> Admits(n, t, C.None)
      case Some(commit) =>
        || (forall n: nat :: n >= since ==> Admits(n, t, merge))
        || (forall n: nat :: n >= since ==> NothingOwed(n, t, commit) && Admits(n, t, C.None))
    }

    function HashOf(files: map<Target, string>, t: Target): C.Option<string> {
      if t in files then C.Some(sha(files[t])) else C.None
    }

    /** Packet `n` went through the gate it had to: the generic one when no merge is named; when one is, the
        typed one, or the generic one right after the typed one found no fold owed. */
    predicate Sanctioned(since: nat, n: nat, t: Target, merge: C.Option<string>) {
      match merge
      case None => Admits(n, t, C.None)
      case Some(commit) => Admits(n, t, merge) || (n > since && NothingOwed(n - 1, t, commit) && Admits(n, t, C.None))
    }

    /** Every write from number `k` on was to a target, by a packet sent since, through its gate. */
    ghost predicate AllSanctioned(k: nat, since: nat, merge: C.Option<string>)
      reads this
    {
      forall j :: k <= j < |writes| ==>
        && writes[j].target in targets && since <= writes[j].packet < packets
        && Sanctioned(since, writes[j].packet, writes[j].target, merge)
    }

    /** Nothing was sent or written here; others may have written. */
    twostate predicate Idle()
      reads this
    {
      && packets == old(packets) && writes == old(writes) && outside >= old(outside)
      && (outside == old(outside) ==> files == old(files))
    }

    /** No call has failed since, and nobody else has written. */
    twostate predicate Quiet()
      reads this
    {
      faults == old(faults) && outside == old(outside)
    }

    method Others()
      modifies this`files, this`outside, this`faults
      ensures Idle() && faults == old(faults)
    {
      var write: bool := *;
      if write {
        files := *;
        outside := outside + 1;
      }
    }

    method Load(t: Target) returns (r: Loaded)
      modifies this`files, this`outside, this`faults
      ensures Idle() && faults == old(faults) + if r.Unreadable? then 1 else 0
      ensures r.Present? ==> t in files && files[t] == r.text
      ensures r.Missing? ==> t !in files
    {
      Others();
      var fails: bool := *;
      faults := faults + if fails then 1 else 0;
      r := if fails then Unreadable else if t in files then Present(files[t]) else Missing;
    }

    /** One packet: lease, gate, scope, content precondition, atomic write. */
    method Apply(t: Target, content: string, expected: C.Option<string>, commit: C.Option<string>) returns (r: Applied)
      modifies this
      ensures packets == old(packets) + 1 && outside >= old(outside) && faults >= old(faults)
      ensures !r.Written? ==> writes == old(writes) && (outside == old(outside) ==> files == old(files))
      ensures r.Written? ==> writes == old(writes) + [Write(t, content, old(packets))] && Admits(old(packets), t, commit)
      ensures r.Written? && outside == old(outside) ==>
                && files == old(files)[t := content]
                && expected == if t in old(files) then C.Some(sha(old(files)[t])) else C.None
      ensures r.Denied? ==> leases(old(packets)).Some? && Serves(leases(old(packets)).value)
                            && Gate(old(packets), leases(old(packets)).value, t, commit) == C.Some(r.why)
      // An admitted packet that nothing disturbs is written, and the gate's own denial is reported as such.
      ensures Quiet() && Admits(old(packets), t, commit) && expected == HashOf(old(files), t) ==> r.Written?
      ensures Quiet() && commit.Some? && NothingOwed(old(packets), t, commit.value) ==> r == Denied(G.ClassificationDenied)
    {
      hide Gate, Serves, InScope;
      var n := packets;
      packets := packets + 1;
      Others();
      var lease := leases(n);
      if lease.None? || !Serves(lease.value) || (commit.Some? && PathOf(t) !in G.TARGETS) {
        return Refusal;
      }
      var e := Gate(n, lease.value, t, commit);
      if e.Some? {
        return Denied(e.value);
      }
      Others();
      if !InScope(lease.value, t) {
        return Refusal;
      }
      var writeFails: bool := *;
      faults := faults + if writeFails then 1 else 0;
      if expected != HashOf(files, t) || writeFails {
        return Refusal;
      }
      files := files[t := content];
      writes := writes + [Write(t, content, n)];
      r := Written;
    }

    /** The typed admission first when a merge is named, the generic one only when it found no fold owed. */
    method Publish(t: Target, content: string, expected: C.Option<string>, merge: C.Option<string>) returns (ok: bool)
      modifies this
      ensures packets > old(packets) && outside >= old(outside) && faults >= old(faults)
      ensures !ok ==> writes == old(writes) && (outside == old(outside) ==> files == old(files))
      ensures ok ==> writes == old(writes) + [Write(t, content, packets - 1)]
                     && Sanctioned(old(packets), packets - 1, t, merge)
      ensures ok && outside == old(outside) ==>
                && files == old(files)[t := content]
                && expected == if t in old(files) then C.Some(sha(old(files)[t])) else C.None
      ensures Quiet() && expected == HashOf(old(files), t) && Welcomes(old(packets), t, merge) ==> ok
    {
      hide Gate, Serves, InScope;
      if merge.None? {
        var r := Apply(t, content, expected, C.None);
        return r.Written?;
      }
      var r := Apply(t, content, expected, merge);
      if r == Denied(G.ClassificationDenied) {
        r := Apply(t, content, expected, C.None);
      }
      ok := r.Written?;
    }

    lemma Later(since: nat, later: nat, n: nat, t: Target, merge: C.Option<string>)
      requires since <= later && Sanctioned(later, n, t, merge)
      ensures Sanctioned(since, n, t, merge)
    {
      hide Gate, Serves, InScope;
    }

    predicate Accepts(f: Facts, request: FoldRequest) {
      && f.task == task && request.task == task
      && f.candidate != "" && Lower(request.candidate) == f.candidate
      && (request.merge.Some? ==> f.merge == S.Some(Lower(request.merge.value)))
    }

    /** Renders every target before anything is sent. */
    method RenderAll(f: Facts) returns (rendered: seq<string>, ok: bool)
      modifies this`files, this`outside, this`faults
      ensures Idle()
      ensures faults >= old(faults)
      ensures Quiet() ==> (ok <==> AllRender(targets, f, old(files)))
      ensures ok ==> |rendered| == |targets|
      ensures ok && outside == old(outside) ==> AreRenders(targets, f, files, rendered)
    {
      hide Render;
      rendered, ok := [], true;
      for i := 0 to |targets|
        invariant Idle() && |rendered| == i && faults >= old(faults)
        invariant outside == old(outside) ==>
          forall k :: 0 <= k < i ==> Render(targets[k], f, Prior(files, targets[k])) == Doc(rendered[k])
      {
        var prior := Load(targets[i]);
        if prior.Unreadable? {
          return rendered, false;
        }
        var r := Render(targets[i], f, if prior.Present? then S.Some(prior.text) else S.None);
        if r.Refused? {
          return rendered, false;
        }
        rendered := rendered + [r.text];
      }
    }

    /** The targets whose bytes differ from their render, with the hash each must still have. */
    method Pending(rendered: seq<string>) returns (pending: seq<(nat, C.Option<string>)>, ok: bool)
      requires |rendered| == |targets|
      modifies this`files, this`outside, this`faults
      ensures Idle()
      ensures forall k :: 0 <= k < |pending| ==> pending[k].0 < |targets|
      ensures forall k, l :: 0 <= k < l < |pending| ==> pending[k].0 < pending[l].0
      ensures outside == old(outside) ==> Hashed(pending, files)
      ensures faults >= old(faults) && (Quiet() ==> ok)
      ensures ok && outside == old(outside) ==>
                forall i :: 0 <= i < |targets| ==>
                  (Prior(files, targets[i]) == S.Some(rendered[i]) || exists k :: 0 <= k < |pending| && pending[k].0 == i)
      ensures outside == old(outside) && (forall i :: 0 <= i < |targets| ==> Prior(files, targets[i]) == S.Some(rendered[i]))
              ==> pending == []
    {
      pending, ok := [], true;
      for i := 0 to |targets|
        invariant Idle() && faults >= old(faults)
        invariant forall k :: 0 <= k < |pending| ==> pending[k].0 < i
        invariant forall k, l :: 0 <= k < l < |pending| ==> pending[k].0 < pending[l].0
        invariant outside == old(outside) ==> Hashed(pending, files)
        invariant outside == old(outside) ==>
          forall j :: 0 <= j < i ==>
            (Prior(files, targets[j]) == S.Some(rendered[j]) || exists k :: 0 <= k < |pending| && pending[k].0 == j)
        invariant outside == old(outside) && (forall i :: 0 <= i < |targets| ==> Prior(files, targets[i]) == S.Some(rendered[i]))
                  ==> pending == []
      {
        var current := Load(targets[i]);
        if current.Unreadable? {
          return pending, false;
        }
        if current != Present(rendered[i]) {
          var expected := if current.Present? then C.Some(sha(current.text)) else C.None;
          ghost var was := pending;
          pending := pending + [(i, expected)];
          assert forall k :: 0 <= k < |was| ==> pending[k] == was[k];
          assert pending[|was|].0 == i;
        }
      }
    }

    predicate Apart(pending: seq<(nat, C.Option<string>)>)
      requires forall k :: 0 <= k < |pending| ==> pending[k].0 < |targets|
    {
      forall k, l :: 0 <= k < l < |pending| ==> targets[pending[k].0] != targets[pending[l].0]
    }

    predicate Hashed(pending: seq<(nat, C.Option<string>)>, before: map<Target, string>)
      requires forall k :: 0 <= k < |pending| ==> pending[k].0 < |targets|
    {
      forall k :: 0 <= k < |pending| ==> pending[k].1 == HashOf(before, targets[pending[k].0])
    }

    ghost predicate AllWelcome(since: nat, merge: C.Option<string>) {
      forall i :: 0 <= i < |targets| ==> Welcomes(since, targets[i], merge)
    }

    /** The first `n` pending targets hold their renders. */
    ghost predicate Landed(pending: seq<(nat, C.Option<string>)>, rendered: seq<string>, n: nat)
      requires forall k :: 0 <= k < |pending| ==> pending[k].0 < |targets|
      requires |rendered| == |targets| && n <= |pending|
      reads this`files
    {
      forall k :: 0 <= k < n ==> Prior(files, targets[pending[k].0]) == S.Some(rendered[pending[k].0])
    }

    /** The others are as they were. */
    ghost predicate Untouched(pending: seq<(nat, C.Option<string>)>, n: nat, before: map<Target, string>)
      requires forall k :: 0 <= k < |pending| ==> pending[k].0 < |targets|
      reads this`files
    {
      forall k :: n <= k < |pending| ==> Prior(files, targets[pending[k].0]) == Prior(before, targets[pending[k].0])
    }

    ghost predicate Elsewhere(pending: seq<(nat, C.Option<string>)>, before: map<Target, string>)
      requires forall k :: 0 <= k < |pending| ==> pending[k].0 < |targets|
      reads this`files
    {
      forall t: Target {:trigger Prior(files, t)} ::
        (forall k :: 0 <= k < |pending| ==> targets[pending[k].0] != t) ==> Prior(files, t) == Prior(before, t)
    }

    lemma StillWelcome(since: nat, later: nat, t: Target, merge: C.Option<string>)
      requires since <= later && t in targets && AllWelcome(since, merge)
      ensures Welcomes(later, t, merge)
    {
      hide Admits, NothingOwed;
      var i :| 0 <= i < |targets| && targets[i] == t;
      assert Welcomes(since, targets[i], merge);
    }

    /** One packet per pending target. */
    method PublishAll(f: Facts, rendered: seq<string>, pending: seq<(nat, C.Option<string>)>, merge: C.Option<string>)
        returns (ok: bool, wrote: bool)
      requires |rendered| == |targets| && forall k :: 0 <= k < |pending| ==> pending[k].0 < |targets|
      modifies this
      ensures outside >= old(outside) && old(writes) <= writes && packets >= old(packets) && faults >= old(faults)
      // Undisturbed, with the hashes as they are and the gates open, every pending target gets its render.
      ensures Quiet() && Apart(pending) && Hashed(pending, old(files)) && AllWelcome(old(packets), merge) ==> ok
      ensures ok && Apart(pending) && outside == old(outside) ==> Landed(pending, rendered, |pending|)
      ensures outside == old(outside) ==> Elsewhere(pending, old(files))
      ensures pending == [] ==> packets == old(packets) && ok && !wrote
      ensures !ok ==> packets > old(packets)
      ensures !wrote ==> writes == old(writes) && (outside == old(outside) ==> files == old(files))
      ensures AllSanctioned(|old(writes)|, old(packets), merge)
      ensures outside == old(outside) && AreRenders(targets, f, old(files), rendered)
              ==> OldOrRendered(targets, f, old(files), files)
    {
      hide Render, Gate, Serves, InScope, Admits, NothingOwed, Welcomes, Sanctioned;
      ok, wrote := true, false;
      for k := 0 to |pending|
        invariant outside >= old(outside) && old(writes) <= writes && packets >= old(packets)
        invariant faults >= old(faults)
        invariant outside == old(outside) && Apart(pending) ==> Landed(pending, rendered, k) && Untouched(pending, k, old(files))
        invariant outside == old(outside) ==> Elsewhere(pending, old(files))
        invariant k == 0 ==> packets == old(packets) && !wrote
        invariant !wrote ==> writes == old(writes) && (outside == old(outside) ==> files == old(files))
        invariant AllSanctioned(|old(writes)|, old(packets), merge)
        invariant outside == old(outside) && AreRenders(targets, f, old(files), rendered)
                  ==> OldOrRendered(targets, f, old(files), files)
      {
        var i := pending[k].0;
        ghost var was := files;
        ghost var before, sofar := writes, packets;
        if AllWelcome(old(packets), merge) {
          StillWelcome(old(packets), sofar, targets[i], merge);
        }
        var sent := Publish(targets[i], rendered[i], pending[k].1, merge);
        if !sent {
          return false, wrote;
        }
        wrote := true;
        assert forall j :: 0 <= j < |before| ==> writes[j] == before[j];
        Later(old(packets), sofar, packets - 1, targets[i], merge);
        if outside == old(outside) {
          assert forall t: Target :: t != targets[i] ==> Prior(files, t) == Prior(was, t);
        }
      }
    }

    /** Every target must read back as it was rendered. */
    method ReadBack(rendered: seq<string>) returns (ok: bool)
      requires |rendered| == |targets|
      modifies this`files, this`outside, this`faults
      ensures Idle() && faults >= old(faults)
      ensures Quiet() ==> (ok <==> forall i :: 0 <= i < |targets| ==> Prior(old(files), targets[i]) == S.Some(rendered[i]))
      ensures ok && outside == old(outside) ==>
                forall i :: 0 <= i < |targets| ==> targets[i] in files && files[targets[i]] == rendered[i]
    {
      for i := 0 to |targets|
        invariant Idle() && faults >= old(faults)
        invariant outside == old(outside) ==>
          forall k :: 0 <= k < i ==> targets[k] in files && files[targets[k]] == rendered[k]
      {
        var after := Load(targets[i]);
        if after != Present(rendered[i]) {
          return false;
        }
      }
      ok := true;
    }

    lemma PendingApart(pending: seq<(nat, C.Option<string>)>)
      requires Distinct(targets)
      requires forall k :: 0 <= k < |pending| ==> pending[k].0 < |targets|
      requires forall k, l :: 0 <= k < l < |pending| ==> pending[k].0 < pending[l].0
      ensures Apart(pending)
    {
    }

    /** Targets that were pending hold their renders now; the others did already. */
    lemma AllLanded(rendered: seq<string>, pending: seq<(nat, C.Option<string>)>, before: map<Target, string>)
      requires |rendered| == |targets| && Distinct(targets)
      requires forall k :: 0 <= k < |pending| ==> pending[k].0 < |targets|
      requires Landed(pending, rendered, |pending|) && Elsewhere(pending, before)
      requires forall i :: 0 <= i < |targets| ==>
                 (Prior(before, targets[i]) == S.Some(rendered[i]) || exists k :: 0 <= k < |pending| && pending[k].0 == i)
      ensures forall i :: 0 <= i < |targets| ==> Prior(files, targets[i]) == S.Some(rendered[i])
    {
      forall i | 0 <= i < |targets| ensures Prior(files, targets[i]) == S.Some(rendered[i]) {
        if k :| 0 <= k < |pending| && pending[k].0 == i {
        } else {
          assert forall k :: 0 <= k < |pending| ==> targets[pending[k].0] != targets[i];
        }
      }
    }

    /** One fold of the given facts.  `Error` is a raised error, `Ambiguous` an unknown outcome. */
    method Fold(f: Facts, request: FoldRequest) returns (o: Outcome)
      modifies this
      ensures outside >= old(outside) && old(writes) <= writes && packets >= old(packets)
      // Errors and refusals leave everything as it was.
      ensures o.Error? ==> packets == old(packets)
      ensures o.NotAttempted? ==> packets > old(packets)
      ensures o.Error? || o.NotAttempted? ==> writes == old(writes) && (outside == old(outside) ==> files == old(files))
      // Completed: every target holds its render over what was there before, and nothing else changed.
      ensures o.Completed? && outside == old(outside) ==> Published(targets, f, old(files), files)
      ensures o.Completed? ==> Accepts(f, request)
      // Whatever happens, each file is old or rendered, and each write passed the gate that its packet had to.
      ensures outside == old(outside) ==> OldOrRendered(targets, f, old(files), files)
      ensures AllSanctioned(|old(writes)|, old(packets), request.merge)
      // With no failing call and no other writer it is an error exactly when the facts do not bind or a target
      // cannot be rendered; and with the gates open to every packet it completes.
      ensures faults >= old(faults)
      ensures Quiet() ==> (o.Error? <==> !Accepts(f, request) || !AllRender(targets, f, old(files)))
      ensures Quiet() && !o.Error? && Distinct(targets) && AllWelcome(old(packets), request.merge) ==> o.Completed?
      ensures Quiet() && Accepts(f, request) && Settled(targets, f, old(files)) ==> o.Completed?
      // Targets that already equal their render are not sent.
      ensures outside == old(outside) && Settled(targets, f, old(files)) ==> packets == old(packets) && files == old(files)
    {
      hide Render, Sanctioned, Welcomes, AllWelcome;
      if !Accepts(f, request) {
        return Error;
      }
      var rendered, renders := RenderAll(f);
      if !renders {
        return Error;
      }
      var pending, readable := Pending(rendered);
      if !readable {
        return Error;
      }
      if outside == old(outside) && Settled(targets, f, old(files)) {
        assert forall i :: 0 <= i < |targets| ==> Prior(files, targets[i]) == S.Some(rendered[i]);
        assert pending == [];
      }
      ghost var hashed := files;
      if Distinct(targets) {
        PendingApart(pending);
      }
      label Sending:
      var sent, wrote := PublishAll(f, rendered, pending, request.merge);
      if !sent {
        return if wrote then Ambiguous else NotAttempted;
      }
      if outside == old(outside) && Distinct(targets) {
        assert forall i :: 0 <= i < |targets| ==> Prior(files, targets[i]) == S.Some(rendered[i]) by {
          AllLanded(rendered, pending, hashed);
        }
      }
      var same := ReadBack(rendered);
      if !same {
        return Ambiguous;
      }
      o := Completed;
    }

    /** An immediate second fold of the same facts sends nothing. */
    method FoldTwice(f: Facts, request: FoldRequest) returns (first: Outcome, second: Outcome, ghost sent: nat)
      requires P.SentinelFree(f)
      modifies this
      ensures first.Completed? && outside == old(outside) ==>
                && packets == sent && Published(targets, f, old(files), files)
                && (second.Completed? || second.Ambiguous? || second.Error?)
      ensures first.Completed? && Quiet() ==> second.Completed?
    {
      hide Render, SentinelFree;
      first := Fold(f, request);
      sent := packets;
      label Between:
      if first.Completed? && outside == old(outside) {
        PublishedSettles(targets, f, old(files), files);
      }
      second := Fold(f, request);
    }
  }

  /** Every target is there and equals its own render. */
  predicate Settled(targets: seq<Target>, f: Facts, files: map<Target, string>) {
    forall i :: 0 <= i < |targets| ==>
      targets[i] in files && Render(targets[i], f, Prior(files, targets[i])) == Doc(files[targets[i]])
  }

  /** Published targets are settled: rendering is idempotent. */
  lemma PublishedSettles(targets: seq<Target>, f: Facts, before: map<Target, string>, after: map<Target, string>)
    requires Published(targets, f, before, after) && P.SentinelFree(f)
    ensures Settled(targets, f, after)
  {
    hide Render, SentinelFree;
    forall i | 0 <= i < |targets|
      ensures targets[i] in after && Render(targets[i], f, Prior(after, targets[i])) == Doc(after[targets[i]])
    {
      RenderIdempotent(targets[i], f, Prior(before, targets[i]));
    }
  }
}
