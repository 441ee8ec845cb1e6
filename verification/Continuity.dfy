/** The continuity classifier: one factual snapshot in, one fail-closed verdict out. */
module Continuity {

  datatype Option<T> = None | Some(value: T)

  datatype Kind =
    | Fresh | StaleLocal | HeadDrift | Dirty | ClaimConflict | SsotDrift | MergedNotFolded | ReconcileRequired | Unknown

  datatype LeaseState = Active | Released | Quarantined | Stale | UnknownState

  datatype JobState = Live | RecoveryNeeded | Complete | Failed | Cancelled

  datatype DirtyState = Clean | Changed | DirtyUnknown

  datatype Finding = Finding(kind: Kind, reason: string, detail: string)

  datatype Lease = Lease(id: string, session: string, task: string, worktree: string, scope: seq<string>, state: LeaseState)

  datatype Job = Job(id: string, state: Option<JobState>)

  datatype MergeFold = MergeFold(commit: string, folded: Option<bool>, released: Option<bool>)

  datatype Claim = Claim(source: string, head: Option<string>, branch: Option<string>, leases: Option<seq<string>>)

  datatype Snapshot = Snapshot(
    worktree: string,
    branch: string,
    session: string,
    task: string,
    expectedHead: Option<string>,
    localHead: Option<string>,
    remoteHead: Option<string>,
    dirty: Option<DirtyState>,
    ownershipKnown: bool,
    scope: seq<string>,
    leases: seq<Lease>,
    job: Option<Job>,
    mergeFold: Option<MergeFold>,
    claims: seq<Claim>)

  /** The seams the classifier is given: canonical worktree keys (`None` where the path has none) and
      write-set overlap. */
  datatype Seams = Seams(key: string -> Option<string>, overlap: (seq<string>, seq<string>) -> bool)

  /** `Raised` is the error of a foreign active lease whose worktree has no key. */
  datatype Verdict = Raised | Verdict(kind: Kind, safe: bool, findings: set<Finding>, actions: seq<Kind>)

  /** Most severe first; each kind's reconciliation action is named after it. */
  const PRECEDENCE := [Unknown, ClaimConflict, Dirty, HeadDrift, StaleLocal, MergedNotFolded, SsotDrift, ReconcileRequired]

  // ---------------------------------------------------------------- findings, group by group

  function Text(o: Option<string>): string {
    if o.Some? then o.value else ""
  }

  function HeadFindings(s: Snapshot): seq<Finding> {
    (if s.expectedHead.None? then [Finding(Unknown, "EXPECTED_HEAD_UNKNOWN", "expected_head")] else [])
    + (if s.localHead.None? then [Finding(Unknown, "LOCAL_HEAD_UNKNOWN", "local_head")] else [])
    + (if s.remoteHead.None? then [Finding(Unknown, "REMOTE_HEAD_UNKNOWN", "remote_head")] else [])
    + (if s.job.Some? && s.job.value.state.None?
       then [Finding(Unknown, "JOB_STATE_UNKNOWN", "job " + s.job.value.id)] else [])
    + (if s.localHead.Some? && s.expectedHead.Some? && s.localHead != s.expectedHead
       then [Finding(HeadDrift, "LOCAL_HEAD_NOT_EXPECTED",
                     "local " + Text(s.localHead) + " expected " + Text(s.expectedHead))] else [])
    + (if s.localHead.Some? && s.remoteHead.Some? && s.localHead != s.remoteHead
       then [Finding(StaleLocal, "LOCAL_HEAD_NOT_REMOTE",
                     "local " + Text(s.localHead) + " remote " + Text(s.remoteHead))] else [])
  }

  function StateFindings(s: Snapshot): seq<Finding> {
    (if s.dirty == None || s.dirty == Some(DirtyUnknown) then [Finding(Dirty, "DIRTY_STATE_UNKNOWN", "dirty_state")]
     else if s.dirty == Some(Changed) then [Finding(Dirty, "WORKTREE_DIRTY", "dirty_state")]
     else [])
    + (if !s.ownershipKnown then [Finding(Unknown, "OWNERSHIP_UNKNOWN", "ownership_known")] else [])
  }

  predicate Own(s: Snapshot, l: Lease) {
    l.session == s.session && l.task == s.task
  }

  predicate Keyed(c: Seams, s: Snapshot, l: Lease) {
    c.key(s.worktree).Some? && c.key(l.worktree).Some?
  }

  predicate SameWorktree(c: Seams, s: Snapshot, l: Lease) {
    Keyed(c, s, l) && c.key(s.worktree) == c.key(l.worktree)
  }

  /** A lease without a worktree key fences: unknown places are treated as this one. */
  predicate Fences(c: Seams, s: Snapshot, l: Lease) {
    !Keyed(c, s, l) || SameWorktree(c, s, l) || c.overlap(s.scope, l.scope)
  }

  predicate LeaseRaises(c: Seams, s: Snapshot, l: Lease) {
    l.state.Active? && !Own(s, l) && !Keyed(c, s, l)
  }

  function LeaseFindings(c: Seams, s: Snapshot, l: Lease): seq<Finding> {
    match l.state
    case Released => []
    case UnknownState =>
      if Own(s, l) || Fences(c, s, l) then [Finding(Unknown, "LEASE_STATE_UNKNOWN", "lease " + l.id)] else []
    case Active =>
      if Own(s, l) || !Fences(c, s, l) then []
      else if SameWorktree(c, s, l) then [Finding(ClaimConflict, "LEASE_OWNER_CONFLICT", "lease " + l.id)]
      else [Finding(ClaimConflict, "MUTABLE_SCOPE_OVERLAP", "lease " + l.id)]
    case Stale | Quarantined =>
      if Own(s, l) || Fences(c, s, l) then [Finding(ReconcileRequired, "LEASE_RECONCILIATION_REQUIRED", "lease " + l.id)]
      else []
  }

  function StateName(t: JobState): string {
    match t
    case Live => "LIVE"
    case RecoveryNeeded => "RECOVERY_NEEDED"
    case Complete => "COMPLETE"
    case Failed => "FAILED"
    case Cancelled => "CANCELLED"
  }

  function JobFindings(s: Snapshot): seq<Finding> {
    if s.job.None? || s.job.value.state.None? then []
    else
      match s.job.value.state.value
      case Live => []
      case RecoveryNeeded => [Finding(ReconcileRequired, "RECOVERY_TRANSITION_REQUIRED", "job " + s.job.value.id)]
      case t => [Finding(ClaimConflict, "JOB_TERMINAL", "job " + s.job.value.id + " " + StateName(t))]
  }

  function FoldFindings(s: Snapshot): seq<Finding> {
    if s.mergeFold.None? then []
    else
      var f := s.mergeFold.value;
      (if f.folded.None? then [Finding(MergedNotFolded, "FOLD_STATUS_UNKNOWN", "fold_complete")]
       else if !f.folded.value then [Finding(MergedNotFolded, "FOLD_NOT_COMPLETE", "fold_complete")]
       else [])
      + (if f.released.None? then [Finding(MergedNotFolded, "RELEASE_STATUS_UNKNOWN", "release_complete")]
         else if !f.released.value then [Finding(MergedNotFolded, "RELEASE_NOT_COMPLETE", "release_complete")]
         else [])
  }

  function ActiveLeases(s: Snapshot): set<string> {
    set l | l in s.leases && l.state.Active? :: l.id
  }

  function Ids(ids: seq<string>): set<string> {
    set i | i in ids
  }

  function ClaimFindings(s: Snapshot, c: Claim): seq<Finding> {
    (if c.head.Some? && s.localHead.Some? && c.head != s.localHead
     then [Finding(SsotDrift, "PROJECTION_HEAD_CONTRADICTS_FACTS", "projection " + c.source)] else [])
    + (if c.branch.Some? && c.branch.value != s.branch
       then [Finding(SsotDrift, "PROJECTION_BRANCH_CONTRADICTS_FACTS", "projection " + c.source)] else [])
    + (if c.leases.Some? && Ids(c.leases.value) != ActiveLeases(s)
       then [Finding(SsotDrift, "PROJECTION_CLAIMS_CONTRADICTS_FACTS", "projection " + c.source)] else [])
  }

  // ---------------------------------------------------------------- the verdict

  function AllLeases(c: Seams, s: Snapshot, leases: seq<Lease>): seq<Finding> {
    if leases == [] then []
    else AllLeases(c, s, leases[..|leases| - 1]) + LeaseFindings(c, s, leases[|leases| - 1])
  }

  function AllClaims(s: Snapshot, claims: seq<Claim>): seq<Finding> {
    if claims == [] then []
    else AllClaims(s, claims[..|claims| - 1]) + ClaimFindings(s, claims[|claims| - 1])
  }

  /** Every finding of a snapshot, in the order they are made. */
  function Findings(c: Seams, s: Snapshot): seq<Finding> {
    HeadFindings(s) + StateFindings(s) + AllLeases(c, s, s.leases) + JobFindings(s) + FoldFindings(s)
    + AllClaims(s, s.claims)
  }

  predicate Has(findings: seq<Finding>, kind: Kind) {
    exists i :: 0 <= i < |findings| && findings[i].kind == kind
  }

  function KindsPresent(findings: seq<Finding>, order: seq<Kind>): seq<Kind> {
    if order == [] then []
    else (if Has(findings, order[0]) then [order[0]] else []) + KindsPresent(findings, order[1..])
  }

  predicate Raises(c: Seams, s: Snapshot) {
    exists l :: l in s.leases && LeaseRaises(c, s, l)
  }

  function VerdictOf(findings: seq<Finding>): Verdict {
    var kinds := KindsPresent(findings, PRECEDENCE);
    var kind := if kinds == [] then Fresh else kinds[0];
    Verdict(kind, kind == Fresh, SetOf(findings), kinds)
  }

  function Classify(c: Seams, s: Snapshot): Verdict {
    if Raises(c, s) then Raised else VerdictOf(Findings(c, s))
  }

  function SetOf(findings: seq<Finding>): set<Finding> {
    set f | f in findings
  }

  // ---------------------------------------------------------------- the classifier's loops

  method ClassifyLeases(c: Seams, s: Snapshot) returns (findings: seq<Finding>, raised: bool)
    ensures raised <==> Raises(c, s)
    ensures !raised ==> findings == AllLeases(c, s, s.leases)
  {
    hide LeaseFindings;
    findings, raised := [], false;
    for i := 0 to |s.leases|
      invariant forall k :: 0 <= k < i ==> !LeaseRaises(c, s, s.leases[k])
      invariant findings == AllLeases(c, s, s.leases[..i])
    {
      if LeaseRaises(c, s, s.leases[i]) {
        return findings, true;
      }
      assert s.leases[..i + 1][..i] == s.leases[..i];
      findings := findings + LeaseFindings(c, s, s.leases[i]);
    }
    assert s.leases[..|s.leases|] == s.leases;
  }

  method ClassifyClaims(s: Snapshot) returns (findings: seq<Finding>)
    ensures findings == AllClaims(s, s.claims)
  {
    hide ClaimFindings;
    findings := [];
    for i := 0 to |s.claims|
      invariant findings == AllClaims(s, s.claims[..i])
    {
      assert s.claims[..i + 1][..i] == s.claims[..i];
      findings := findings + ClaimFindings(s, s.claims[i]);
    }
    assert s.claims[..|s.claims|] == s.claims;
  }

  method KindsIn(findings: seq<Finding>, order: seq<Kind>) returns (kinds: seq<Kind>)
    ensures kinds == KindsPresent(findings, order)
  {
    hide Has;
    kinds := [];
    assert order[0..] == order;
    for i := 0 to |order|
      invariant kinds + KindsPresent(findings, order[i..]) == KindsPresent(findings, order)
    {
      assert order[i..][1..] == order[i + 1..];
      if Has(findings, order[i]) {
        kinds := kinds + [order[i]];
      }
    }
    assert order[|order|..] == [];
  }

  method ClassifyContinuity(c: Seams, s: Snapshot) returns (v: Verdict)
    ensures v == Classify(c, s)
  {
    hide LeaseFindings, ClaimFindings, HeadFindings, StateFindings, JobFindings, FoldFindings, AllLeases, AllClaims,
         KindsPresent, Raises;
    var findings := HeadFindings(s) + StateFindings(s);
    var leases, raised := ClassifyLeases(c, s);
    if raised {
      return Raised;
    }
    findings := findings + leases + JobFindings(s) + FoldFindings(s);
    var claims := ClassifyClaims(s);
    findings := findings + claims;
    var kinds := KindsIn(findings, PRECEDENCE);
    var kind := if kinds == [] then Fresh else kinds[0];
    v := Verdict(kind, kind == Fresh, SetOf(findings), kinds);
  }

  // ---------------------------------------------------------------- what the verdict means

  predicate Harmless(c: Seams, s: Snapshot, l: Lease) {
    l.state.Released? || (l.state.Active? && Own(s, l)) || (!Own(s, l) && !Fences(c, s, l))
  }

  predicate Agrees(s: Snapshot, c: Claim) {
    && (c.head.Some? && s.localHead.Some? ==> c.head == s.localHead)
    && (c.branch.Some? ==> c.branch.value == s.branch)
    && (c.leases.Some? ==> Ids(c.leases.value) == ActiveLeases(s))
  }

  predicate Done(o: Option<bool>) {
    o.Some? && o.value
  }

  predicate FoldDone(s: Snapshot) {
    s.mergeFold.None? || (Done(s.mergeFold.value.folded) && Done(s.mergeFold.value.released))
  }

  /** Everything about the lane but the merge fold and the projections is in order. */
  predicate LaneInOrder(c: Seams, s: Snapshot) {
    && s.localHead.Some? && s.localHead == s.expectedHead == s.remoteHead
    && s.dirty == Some(Clean) && s.ownershipKnown
    && (s.job.Some? ==> s.job.value.state == Some(Live))
    && (forall l :: l in s.leases ==> Harmless(c, s, l))
  }

  lemma VerdictKinds(findings: seq<Finding>)
    ensures forall k :: k in KindsPresent(findings, PRECEDENCE) <==> k != Fresh && Has(findings, k)
  {
    hide Has;
    OrderedKinds(findings, PRECEDENCE);
    var o := PRECEDENCE;
    assert forall k :: k in o <==> k != Fresh by {
      assert o[0] == Unknown && o[1] == ClaimConflict && o[2] == Dirty && o[3] == HeadDrift && o[4] == StaleLocal
          && o[5] == MergedNotFolded && o[6] == SsotDrift && o[7] == ReconcileRequired;
    }
  }

  lemma {:induction false} OrderedKinds(findings: seq<Finding>, order: seq<Kind>)
    ensures forall k :: k in KindsPresent(findings, order) <==> k in order && Has(findings, k)
  {
    hide Has;
    if order != [] {
      OrderedKinds(findings, order[1..]);
      assert order == [order[0]] + order[1..];
    }
  }

  lemma {:induction false} LeaseKinds(c: Seams, s: Snapshot, leases: seq<Lease>)
    ensures forall f :: f in AllLeases(c, s, leases) ==> f.kind != Fresh
  {
    if leases != [] {
      LeaseKinds(c, s, leases[..|leases| - 1]);
    }
  }

  lemma {:induction false} ClaimKinds(s: Snapshot, claims: seq<Claim>)
    ensures forall f :: f in AllClaims(s, claims) ==> f.kind == SsotDrift
  {
    if claims != [] {
      ClaimKinds(s, claims[..|claims| - 1]);
    }
  }

  lemma GroupKinds(s: Snapshot, f: Finding)
    ensures f in HeadFindings(s) || f in StateFindings(s) || f in JobFindings(s) || f in FoldFindings(s) ==> f.kind != Fresh
  {
  }

  lemma FindingKinds(c: Seams, s: Snapshot)
    ensures forall f :: f in Findings(c, s) ==> f.kind != Fresh
  {
    hide HeadFindings, StateFindings, JobFindings, FoldFindings, AllLeases, AllClaims;
    LeaseKinds(c, s, s.leases);
    ClaimKinds(s, s.claims);
    forall f | f in Findings(c, s) ensures f.kind != Fresh {
      GroupKinds(s, f);
    }
  }

  lemma FreshIsEmpty(c: Seams, s: Snapshot)
    ensures VerdictOf(Findings(c, s)).kind == Fresh <==> Findings(c, s) == []
  {
    hide Findings, KindsPresent;
    FindingKinds(c, s);
    var fs := Findings(c, s);
    VerdictKinds(fs);
    var kinds := KindsPresent(fs, PRECEDENCE);
    if fs != [] {
      assert fs[0] in fs && Has(fs, fs[0].kind);
      assert fs[0].kind in kinds;
    }
    if kinds != [] {
      assert kinds[0] in kinds;
    }
  }

  lemma LeaseQuiet(c: Seams, s: Snapshot, l: Lease)
    ensures Harmless(c, s, l) <==> LeaseFindings(c, s, l) == [] && !LeaseRaises(c, s, l)
  {
  }

  lemma ClaimQuiet(s: Snapshot, c: Claim)
    ensures Agrees(s, c) <==> ClaimFindings(s, c) == []
  {
  }

  lemma {:induction false} LeasesQuiet(c: Seams, s: Snapshot, leases: seq<Lease>)
    ensures (forall l :: l in leases ==> Harmless(c, s, l))
            <==> AllLeases(c, s, leases) == [] && (forall l :: l in leases ==> !LeaseRaises(c, s, l))
  {
    hide LeaseFindings, LeaseRaises, Harmless;
    if leases != [] {
      var n := |leases| - 1;
      LeasesQuiet(c, s, leases[..n]);
      LeaseQuiet(c, s, leases[n]);
      assert leases == leases[..n] + [leases[n]];
    }
  }

  lemma {:induction false} ClaimsQuiet(s: Snapshot, claims: seq<Claim>)
    ensures (forall p :: p in claims ==> Agrees(s, p)) <==> AllClaims(s, claims) == []
  {
    hide ClaimFindings, Agrees;
    if claims != [] {
      var n := |claims| - 1;
      ClaimsQuiet(s, claims[..n]);
      ClaimQuiet(s, claims[n]);
      assert claims == claims[..n] + [claims[n]];
    }
  }

  lemma HeadQuiet(s: Snapshot)
    ensures HeadFindings(s) == [] <==>
              && s.localHead.Some? && s.localHead == s.expectedHead == s.remoteHead
              && !(s.job.Some? && s.job.value.state.None?)
  {
    assert |HeadFindings(s)| ==
      (if s.expectedHead.None? then 1 else 0) + (if s.localHead.None? then 1 else 0)
      + (if s.remoteHead.None? then 1 else 0) + (if s.job.Some? && s.job.value.state.None? then 1 else 0)
      + (if s.localHead.Some? && s.expectedHead.Some? && s.localHead != s.expectedHead then 1 else 0)
      + (if s.localHead.Some? && s.remoteHead.Some? && s.localHead != s.remoteHead then 1 else 0);
  }

  lemma StateQuiet(s: Snapshot)
    ensures StateFindings(s) == [] <==> s.dirty == Some(Clean) && s.ownershipKnown
    ensures JobFindings(s) == [] && !(s.job.Some? && s.job.value.state.None?)
            <==> (s.job.Some? ==> s.job.value.state == Some(Live))
  {
    assert s.dirty.Some? && s.dirty.value == Changed ==> StateFindings(s)[0].kind == Dirty;
  }

  lemma FoldQuiet(s: Snapshot)
    ensures FoldFindings(s) == [] <==> FoldDone(s)
  {
    if s.mergeFold.Some? {
      var f := s.mergeFold.value;
      assert |FoldFindings(s)| == (if Done(f.folded) then 0 else 1) + (if Done(f.released) then 0 else 1);
    }
  }

  lemma FindingsEmpty(c: Seams, s: Snapshot)
    ensures Findings(c, s) == [] <==>
              && HeadFindings(s) == [] && StateFindings(s) == [] && JobFindings(s) == [] && FoldDone(s)
              && AllLeases(c, s, s.leases) == [] && AllClaims(s, s.claims) == []
  {
    hide HeadFindings, StateFindings, JobFindings, FoldFindings, AllLeases, AllClaims;
    FoldQuiet(s);
    assert |Findings(c, s)| == |HeadFindings(s)| + |StateFindings(s)| + |AllLeases(c, s, s.leases)| + |JobFindings(s)|
                               + |FoldFindings(s)| + |AllClaims(s, s.claims)|;
  }

  lemma LaneQuiet(c: Seams, s: Snapshot)
    ensures LaneInOrder(c, s) <==>
              && HeadFindings(s) == [] && StateFindings(s) == [] && JobFindings(s) == []
              && AllLeases(c, s, s.leases) == [] && !Raises(c, s)
  {
    hide AllLeases, LeaseRaises, Harmless, HeadFindings, StateFindings, JobFindings;
    LeasesQuiet(c, s, s.leases);
    HeadQuiet(s);
    StateQuiet(s);
  }

  /** FRESH, and so safe to mutate, means exactly: heads known and equal, worktree clean, ownership known,
      no terminal or recovering job, no lease in the way, any merge folded and released, and every
      projection in agreement with the facts. */
  lemma FreshMeans(c: Seams, s: Snapshot)
    ensures Classify(c, s) == Verdict(Fresh, true, {}, []) <==>
              LaneInOrder(c, s) && FoldDone(s) && (forall p :: p in s.claims ==> Agrees(s, p))
    ensures Classify(c, s).Verdict? ==> (Classify(c, s).safe <==> Classify(c, s).kind == Fresh)
    ensures Classify(c, s).Verdict? && Classify(c, s).kind == Fresh ==> Classify(c, s) == Verdict(Fresh, true, {}, [])
  {
    hide LaneInOrder, Agrees, HeadFindings, StateFindings, JobFindings, AllLeases, AllClaims, Raises, KindsPresent, Has, Findings,
         FoldDone;
    FreshIsEmpty(c, s);
    LaneQuiet(c, s);
    ClaimsQuiet(s, s.claims);
    EmptyKinds(PRECEDENCE);
    FindingsEmpty(c, s);
    assert SetOf([]) == {};
  }

  lemma {:induction false} EmptyKinds(order: seq<Kind>)
    ensures KindsPresent([], order) == []
  {
    if order != [] {
      EmptyKinds(order[1..]);
    }
  }

  // ---------------------------------------------------------------- order of listing

  lemma {:induction false} LeaseMembers(c: Seams, s: Snapshot, leases: seq<Lease>, f: Finding)
    ensures f in AllLeases(c, s, leases) <==> exists l :: l in leases && f in LeaseFindings(c, s, l)
  {
    hide LeaseFindings;
    if leases != [] {
      var n := |leases| - 1;
      LeaseMembers(c, s, leases[..n], f);
      assert leases == leases[..n] + [leases[n]];
    }
  }

  lemma {:induction false} ClaimMembers(s: Snapshot, claims: seq<Claim>, f: Finding)
    ensures f in AllClaims(s, claims) <==> exists p :: p in claims && f in ClaimFindings(s, p)
  {
    hide ClaimFindings;
    if claims != [] {
      var n := |claims| - 1;
      ClaimMembers(s, claims[..n], f);
      assert claims == claims[..n] + [claims[n]];
    }
  }

  /** Two snapshots that list the same leases and claims, in any order. */
  ghost predicate SameFacts(s: Snapshot, t: Snapshot) {
    && s == t.(leases := s.leases, claims := s.claims)
    && (forall l :: l in s.leases <==> l in t.leases) && (forall p :: p in s.claims <==> p in t.claims)
  }

  lemma SameLease(c: Seams, s: Snapshot, t: Snapshot, l: Lease)
    requires SameFacts(s, t)
    ensures LeaseFindings(c, s, l) == LeaseFindings(c, t, l) && (LeaseRaises(c, s, l) <==> LeaseRaises(c, t, l))
  {
  }

  lemma SameClaim(s: Snapshot, t: Snapshot, p: Claim)
    requires SameFacts(s, t)
    ensures ClaimFindings(s, p) == ClaimFindings(t, p)
  {
    hide Ids;
    assert ActiveLeases(s) == ActiveLeases(t);
  }

  lemma SameGroups(c: Seams, s: Snapshot, t: Snapshot)
    requires SameFacts(s, t)
    ensures HeadFindings(s) == HeadFindings(t) && StateFindings(s) == StateFindings(t)
         && JobFindings(s) == JobFindings(t) && FoldFindings(s) == FoldFindings(t)
    ensures forall l :: LeaseFindings(c, s, l) == LeaseFindings(c, t, l) && (LeaseRaises(c, s, l) <==> LeaseRaises(c, t, l))
    ensures forall p :: ClaimFindings(s, p) == ClaimFindings(t, p)
  {
    hide LeaseFindings, LeaseRaises, ClaimFindings;
    forall l ensures LeaseFindings(c, s, l) == LeaseFindings(c, t, l) && (LeaseRaises(c, s, l) <==> LeaseRaises(c, t, l)) {
      SameLease(c, s, t, l);
    }
    forall p ensures ClaimFindings(s, p) == ClaimFindings(t, p) {
      SameClaim(s, t, p);
    }
  }

  lemma SameFindings(c: Seams, s: Snapshot, t: Snapshot, f: Finding)
    requires SameFacts(s, t)
    ensures f in Findings(c, s) <==> f in Findings(c, t)
  {
    hide HeadFindings, StateFindings, JobFindings, FoldFindings, LeaseFindings, ClaimFindings, AllLeases, AllClaims;
    SameGroups(c, s, t);
    LeaseMembers(c, s, s.leases, f);
    LeaseMembers(c, t, t.leases, f);
    ClaimMembers(s, s.claims, f);
    ClaimMembers(t, t.claims, f);
  }

  lemma SameHas(a: seq<Finding>, b: seq<Finding>, k: Kind)
    requires forall f :: f in a <==> f in b
    ensures Has(a, k) <==> Has(b, k)
  {
    assert forall i :: 0 <= i < |a| ==> a[i] in b;
    assert forall i :: 0 <= i < |b| ==> b[i] in a;
  }

  lemma {:induction false} SameKinds(a: seq<Finding>, b: seq<Finding>, order: seq<Kind>)
    requires forall f :: f in a <==> f in b
    ensures KindsPresent(a, order) == KindsPresent(b, order)
  {
    hide Has;
    if order != [] {
      SameHas(a, b, order[0]);
      SameKinds(a, b, order[1..]);
    }
  }

  /** The verdict does not depend on the order in which leases and projections are listed. */
  lemma OrderIndependent(c: Seams, s: Snapshot, t: Snapshot)
    requires SameFacts(s, t)
    ensures Classify(c, s) == Classify(c, t)
  {
    hide Findings, KindsPresent, LeaseRaises, LeaseFindings, ClaimFindings;
    SameGroups(c, s, t);
    var a, b := Findings(c, s), Findings(c, t);
    forall f ensures f in a <==> f in b {
      SameFindings(c, s, t, f);
    }
    SameKinds(a, b, PRECEDENCE);
    assert SetOf(a) == SetOf(b);
  }
}
