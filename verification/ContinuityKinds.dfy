/** Which kind a snapshot gets, from its facts: what shows each kind, and which one names the verdict. */
module ContinuityKinds {
  import opened Continuity

  // ---------------------------------------------------------------- facts

  /** The lease bears on this lane: it is the lane's own, or covers this worktree, one that has no key, or an
      overlapping scope. */
  predicate Bears(c: Seams, s: Snapshot, l: Lease) {
    || (l.session == s.session && l.task == s.task)
    || Foreign(c, s, l)
  }

  predicate Foreign(c: Seams, s: Snapshot, l: Lease) {
    c.key(s.worktree).None? || c.key(l.worktree).None? || c.key(s.worktree) == c.key(l.worktree) || c.overlap(s.scope, l.scope)
  }

  ghost predicate Contradicts(s: Snapshot, p: Claim) {
    || (p.head.Some? && s.localHead.Some? && p.head != s.localHead)
    || (p.branch.Some? && p.branch != Some(s.branch))
    || (p.leases.Some? && exists id: string ::
          (id in p.leases.value) != (exists l :: l in s.leases && l.state.Active? && l.id == id))
  }

  predicate JobIn(s: Snapshot, states: set<JobState>) {
    s.job.Some? && s.job.value.state.Some? && s.job.value.state.value in states
  }

  /** What shows each kind. */
  ghost predicate Shows(c: Seams, s: Snapshot, k: Kind) {
    match k
    case Fresh => false
    case Unknown =>
      || s.expectedHead.None? || s.localHead.None? || s.remoteHead.None? || !s.ownershipKnown
      || (s.job.Some? && s.job.value.state.None?)
      || exists l :: l in s.leases && l.state.UnknownState? && Bears(c, s, l)
    case ClaimConflict =>
      || JobIn(s, {Complete, Failed, Cancelled})
      || exists l :: l in s.leases && l.state.Active? && !Own(s, l) && Foreign(c, s, l)
    case Dirty => s.dirty != Some(Clean)
    case HeadDrift => s.localHead.Some? && s.expectedHead.Some? && s.localHead != s.expectedHead
    case StaleLocal => s.localHead.Some? && s.remoteHead.Some? && s.localHead != s.remoteHead
    case MergedNotFolded =>
      s.mergeFold.Some? && (s.mergeFold.value.folded != Some(true) || s.mergeFold.value.released != Some(true))
    case SsotDrift => exists p :: p in s.claims && Contradicts(s, p)
    case ReconcileRequired =>
      || JobIn(s, {RecoveryNeeded})
      || exists l :: l in s.leases && (l.state.Stale? || l.state.Quarantined?) && Bears(c, s, l)
  }

  /** A live lease of somebody else whose place, or this one, is unknown. */
  predicate Unplaceable(c: Seams, s: Snapshot) {
    exists l :: l in s.leases && l.state.Active? && !Own(s, l) && (c.key(s.worktree).None? || c.key(l.worktree).None?)
  }

  /** How severe: the lower, the sooner it names the verdict. */
  function Rank(k: Kind): nat {
    match k
    case Unknown => 0
    case ClaimConflict => 1
    case Dirty => 2
    case HeadDrift => 3
    case StaleLocal => 4
    case MergedNotFolded => 5
    case SsotDrift => 6
    case ReconcileRequired => 7
    case Fresh => 8
  }

  // ---------------------------------------------------------------- findings of each group

  predicate Finds(findings: seq<Finding>, k: Kind) {
    exists f :: f in findings && f.kind == k
  }

  lemma HasFinds(findings: seq<Finding>, k: Kind)
    ensures Has(findings, k) <==> Finds(findings, k)
  {
    if Finds(findings, k) {
      var f :| f in findings && f.kind == k;
      var i :| 0 <= i < |findings| && findings[i] == f;
    }
  }

  lemma FindsConcat(a: seq<Finding>, b: seq<Finding>, k: Kind)
    ensures Finds(a + b, k) <==> Finds(a, k) || Finds(b, k)
  {
    if Finds(a, k) {
      var f :| f in a && f.kind == k;
      assert f in a + b;
    }
    if Finds(b, k) {
      var f :| f in b && f.kind == k;
      assert f in a + b;
    }
  }

  function One(present: bool, f: Finding): seq<Finding> {
    if present then [f] else []
  }

  lemma OneFinds(present: bool, f: Finding, k: Kind)
    ensures Finds(One(present, f), k) <==> present && f.kind == k
  {
    if present && f.kind == k {
      assert f in One(present, f);
    }
  }

  /** The heads' part of each kind. */
  predicate HeadShows(s: Snapshot, k: Kind) {
    match k
    case Unknown =>
      s.expectedHead.None? || s.localHead.None? || s.remoteHead.None? || (s.job.Some? && s.job.value.state.None?)
    case HeadDrift => s.localHead.Some? && s.expectedHead.Some? && s.localHead != s.expectedHead
    case StaleLocal => s.localHead.Some? && s.remoteHead.Some? && s.localHead != s.remoteHead
    case _ => false
  }

  lemma HeadKinds(s: Snapshot, k: Kind)
    ensures Finds(HeadFindings(s), k) <==> HeadShows(s, k)
  {
    hide Finds;
    var job := if s.job.Some? then "job " + s.job.value.id else "";
    var a := One(s.expectedHead.None?, Finding(Unknown, "EXPECTED_HEAD_UNKNOWN", "expected_head"));
    var b := One(s.localHead.None?, Finding(Unknown, "LOCAL_HEAD_UNKNOWN", "local_head"));
    var d := One(s.remoteHead.None?, Finding(Unknown, "REMOTE_HEAD_UNKNOWN", "remote_head"));
    var e := One(s.job.Some? && s.job.value.state.None?, Finding(Unknown, "JOB_STATE_UNKNOWN", job));
    var f := One(s.localHead.Some? && s.expectedHead.Some? && s.localHead != s.expectedHead,
                 Finding(HeadDrift, "LOCAL_HEAD_NOT_EXPECTED", "local " + Text(s.localHead) + " expected " + Text(s.expectedHead)));
    var g := One(s.localHead.Some? && s.remoteHead.Some? && s.localHead != s.remoteHead,
                 Finding(StaleLocal, "LOCAL_HEAD_NOT_REMOTE", "local " + Text(s.localHead) + " remote " + Text(s.remoteHead)));
    assert HeadFindings(s) == a + b + d + e + f + g;
    FindsConcat(a + b + d + e + f, g, k);
    FindsConcat(a + b + d + e, f, k);
    FindsConcat(a + b + d, e, k);
    FindsConcat(a + b, d, k);
    FindsConcat(a, b, k);
    OneFinds(s.expectedHead.None?, Finding(Unknown, "EXPECTED_HEAD_UNKNOWN", "expected_head"), k);
    OneFinds(s.localHead.None?, Finding(Unknown, "LOCAL_HEAD_UNKNOWN", "local_head"), k);
    OneFinds(s.remoteHead.None?, Finding(Unknown, "REMOTE_HEAD_UNKNOWN", "remote_head"), k);
    OneFinds(s.job.Some? && s.job.value.state.None?, Finding(Unknown, "JOB_STATE_UNKNOWN", job), k);
    OneFinds(s.localHead.Some? && s.expectedHead.Some? && s.localHead != s.expectedHead,
             Finding(HeadDrift, "LOCAL_HEAD_NOT_EXPECTED", "local " + Text(s.localHead) + " expected " + Text(s.expectedHead)), k);
    OneFinds(s.localHead.Some? && s.remoteHead.Some? && s.localHead != s.remoteHead,
             Finding(StaleLocal, "LOCAL_HEAD_NOT_REMOTE", "local " + Text(s.localHead) + " remote " + Text(s.remoteHead)), k);
  }

  lemma StateKinds(s: Snapshot, k: Kind)
    ensures Finds(StateFindings(s), k) <==> (k.Dirty? && s.dirty != Some(Clean)) || (k.Unknown? && !s.ownershipKnown)
  {
    var unknown, dirty := s.dirty == None || s.dirty == Some(DirtyUnknown), s.dirty != Some(Clean);
    var f := if unknown then Finding(Dirty, "DIRTY_STATE_UNKNOWN", "dirty_state") else Finding(Dirty, "WORKTREE_DIRTY", "dirty_state");
    var g := Finding(Unknown, "OWNERSHIP_UNKNOWN", "ownership_known");
    match s.dirty {
      case None =>
      case Some(Clean) =>
      case Some(Changed) =>
      case Some(DirtyUnknown) =>
    }
    assert StateFindings(s) == One(dirty, f) + One(!s.ownershipKnown, g);
    FindsConcat(One(dirty, f), One(!s.ownershipKnown, g), k);
    OneFinds(dirty, f, k);
    OneFinds(!s.ownershipKnown, g, k);
  }

  lemma JobKinds(s: Snapshot, k: Kind)
    ensures Finds(JobFindings(s), k) <==>
              (k.ReconcileRequired? && JobIn(s, {RecoveryNeeded})) || (k.ClaimConflict? && JobIn(s, {Complete, Failed, Cancelled}))
  {
    if JobFindings(s) != [] {
      var f := JobFindings(s)[0];
      assert JobFindings(s) == One(true, f);
      OneFinds(true, f, k);
    }
  }

  lemma FoldKinds(s: Snapshot, k: Kind)
    ensures Finds(FoldFindings(s), k) <==> k.MergedNotFolded? && Shows(Seams(x => None, (x, y) => false), s, k)
  {
    forall f | f in FoldFindings(s) ensures f.kind == MergedNotFolded {
    }
    FoldQuiet(s);
    if FoldFindings(s) != [] {
      assert FoldFindings(s)[0] in FoldFindings(s);
    }
  }

  predicate LeaseShows(c: Seams, s: Snapshot, l: Lease, k: Kind) {
    || (k.Unknown? && l.state.UnknownState? && Bears(c, s, l))
    || (k.ClaimConflict? && l.state.Active? && !Own(s, l) && Foreign(c, s, l))
    || (k.ReconcileRequired? && (l.state.Stale? || l.state.Quarantined?) && Bears(c, s, l))
  }

  lemma LeaseKind(c: Seams, s: Snapshot, l: Lease, k: Kind)
    ensures Finds(LeaseFindings(c, s, l), k) <==> LeaseShows(c, s, l, k)
  {
    if LeaseFindings(c, s, l) != [] {
      var f := LeaseFindings(c, s, l)[0];
      assert LeaseFindings(c, s, l) == One(true, f);
      OneFinds(true, f, k);
    }
  }

  lemma {:induction false} LeasesKind(c: Seams, s: Snapshot, leases: seq<Lease>, k: Kind)
    ensures Finds(AllLeases(c, s, leases), k) <==> exists l :: l in leases && LeaseShows(c, s, l, k)
  {
    hide LeaseFindings, LeaseShows, Finds;
    if leases == [] {
      NoFindings(k);
    } else {
      var n := |leases| - 1;
      LeasesKind(c, s, leases[..n], k);
      LeaseKind(c, s, leases[n], k);
      FindsConcat(AllLeases(c, s, leases[..n]), LeaseFindings(c, s, leases[n]), k);
      assert leases == leases[..n] + [leases[n]];
    }
  }

  lemma NoFindings(k: Kind)
    ensures !Finds([], k)
  {
  }

  lemma SetsDiffer(ids: seq<string>, s: Snapshot)
    ensures Ids(ids) != ActiveLeases(s) <==>
              exists id: string :: (id in ids) != (exists l :: l in s.leases && l.state.Active? && l.id == id)
  {
    assert forall id :: id in Ids(ids) <==> id in ids;
    forall id ensures id in ActiveLeases(s) <==> exists l :: l in s.leases && l.state.Active? && l.id == id {
    }
    SetsMember(Ids(ids), ActiveLeases(s));
  }

  lemma SetsMember(a: set<string>, b: set<string>)
    ensures a != b <==> exists id :: (id in a) != (id in b)
  {
    if forall id :: id in a <==> id in b {
      assert a == b;
    }
  }

  lemma ClaimKind(s: Snapshot, p: Claim, k: Kind)
    ensures Finds(ClaimFindings(s, p), k) <==> k.SsotDrift? && Contradicts(s, p)
  {
    if p.leases.Some? {
      SetsDiffer(p.leases.value, s);
    }
    hide Ids, ActiveLeases;
    ClaimQuiet(s, p);
    forall f | f in ClaimFindings(s, p) ensures f.kind == SsotDrift {
    }
    if ClaimFindings(s, p) != [] {
      assert ClaimFindings(s, p)[0] in ClaimFindings(s, p);
    }
  }

  lemma {:induction false} ClaimsKind(s: Snapshot, claims: seq<Claim>, k: Kind)
    ensures Finds(AllClaims(s, claims), k) <==> k.SsotDrift? && exists p :: p in claims && Contradicts(s, p)
  {
    hide ClaimFindings, Contradicts, Finds;
    if claims == [] {
      NoFindings(k);
    } else {
      var n := |claims| - 1;
      ClaimsKind(s, claims[..n], k);
      ClaimKind(s, claims[n], k);
      FindsConcat(AllClaims(s, claims[..n]), ClaimFindings(s, claims[n]), k);
      assert claims == claims[..n] + [claims[n]];
    }
  }

  // ---------------------------------------------------------------- the verdict

  lemma FindingsShow(c: Seams, s: Snapshot, k: Kind)
    ensures Has(Findings(c, s), k) <==> Shows(c, s, k)
  {
    hide HeadFindings, StateFindings, AllLeases, JobFindings, FoldFindings, AllClaims, Finds, Bears, Foreign, Contradicts, JobIn;
    HasFinds(Findings(c, s), k);
    var a, b, d := HeadFindings(s), StateFindings(s), AllLeases(c, s, s.leases);
    var e, f, g := JobFindings(s), FoldFindings(s), AllClaims(s, s.claims);
    FindsConcat(a + b + d + e + f, g, k);
    FindsConcat(a + b + d + e, f, k);
    FindsConcat(a + b + d, e, k);
    FindsConcat(a + b, d, k);
    FindsConcat(a, b, k);
    HeadKinds(s, k);
    StateKinds(s, k);
    LeasesKind(c, s, s.leases, k);
    JobKinds(s, k);
    FoldKinds(s, k);
    ClaimsKind(s, s.claims, k);
  }

  lemma RaisesMeans(c: Seams, s: Snapshot)
    ensures Raises(c, s) <==> Unplaceable(c, s)
  {
  }

  lemma {:induction false} FirstPresent(fs: seq<Finding>, order: seq<Kind>)
    requires forall i, j :: 0 <= i < j < |order| ==> Rank(order[i]) < Rank(order[j])
    ensures var kinds := KindsPresent(fs, order);
            && (kinds != [] ==> forall k :: k in kinds ==> Rank(kinds[0]) <= Rank(k))
            && (forall i, j :: 0 <= i < j < |kinds| ==> Rank(kinds[i]) < Rank(kinds[j]))
            && (forall k :: k in kinds ==> k in order)
  {
    hide Has, Rank;
    if order != [] {
      var rest := order[1..];
      FirstPresent(fs, rest);
      forall i, j | 0 <= i < j < |rest| ensures Rank(rest[i]) < Rank(rest[j]) {
        assert rest[i] == order[i + 1] && rest[j] == order[j + 1];
      }
      forall k | k in rest ensures Rank(order[0]) < Rank(k) && k in order {
        var i :| 0 <= i < |rest| && rest[i] == k;
        assert order[i + 1] == k;
      }
    }
  }

  lemma RanksRise()
    ensures forall i, j :: 0 <= i < j < |PRECEDENCE| ==> Rank(PRECEDENCE[i]) < Rank(PRECEDENCE[j])
  {
    var o := PRECEDENCE;
    assert o[0] == Unknown && o[1] == ClaimConflict && o[2] == Dirty && o[3] == HeadDrift && o[4] == StaleLocal
        && o[5] == MergedNotFolded && o[6] == SsotDrift && o[7] == ReconcileRequired;
    assert forall i :: 0 <= i < |o| ==> Rank(o[i]) == i;
  }

  /** The verdict, from the facts: an error for an unplaceable live lease of somebody else; otherwise the
      actions are exactly the kinds that something shows, the most severe first, the verdict is named after
      the first of them, and it is FRESH and safe exactly when nothing shows any. */
  lemma VerdictMeans(c: Seams, s: Snapshot)
    ensures Classify(c, s).Raised? <==> Unplaceable(c, s)
    ensures Classify(c, s).Verdict? ==>
              var v := Classify(c, s);
              && (forall k :: k in v.actions <==> Shows(c, s, k))
              && (forall i, j :: 0 <= i < j < |v.actions| ==> Rank(v.actions[i]) < Rank(v.actions[j]))
              && (v.kind == Fresh <==> forall k :: !Shows(c, s, k)) && (v.safe <==> v.kind == Fresh)
              && (v.kind != Fresh ==> Shows(c, s, v.kind) && forall k :: Shows(c, s, k) ==> Rank(v.kind) <= Rank(k))
  {
    hide Findings, Raises, Has, KindsPresent, Shows, Unplaceable, Rank;
    RaisesMeans(c, s);
    var fs := Findings(c, s);
    VerdictKinds(fs);
    RanksRise();
    FirstPresent(fs, PRECEDENCE);
    forall k ensures Has(fs, k) <==> Shows(c, s, k) {
      FindingsShow(c, s, k);
    }
    FreshShowsNot(c, s);
    var kinds := KindsPresent(fs, PRECEDENCE);
    if kinds != [] {
      assert kinds[0] in kinds;
    }
  }

  lemma FreshShowsNot(c: Seams, s: Snapshot)
    ensures !Shows(c, s, Fresh)
  {
  }
}
