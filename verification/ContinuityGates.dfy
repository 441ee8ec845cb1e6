/** The two admission gates in front of a file change: the generic one, open only when the snapshot is
    FRESH, and the typed one, open only to complete a merge fold. */
module ContinuityGates {
  import opened Continuity

  /** The worktree the applier is confined to, and its pattern matcher. */
  datatype Site = Site(root: string, seams: Seams, glob: (string, string) -> bool)

  datatype WorkerLease = WorkerLease(
    session: string,
    task: string,
    worktree: string,
    branch: string,
    expectedHead: string,
    mutableScope: seq<string>,
    forbiddenScope: seq<string>)

  datatype Request = Request(session: string, task: string, expectedHead: string, actualHead: string, paths: seq<string>)

  datatype Denial =
    | ContinuityUnavailable | IdentityMismatch(field: string) | NotFresh | ClassifierRaised
    | ClassificationDenied | ReconcileResidue | MergeIdentityMismatch | DriftUnrelated

  const TARGETS: set<string> := {"CURRENT-WORK.md", "handoff.md", "COLLAB.md"}

  // ---------------------------------------------------------------- identity binding

  function Slashed(pattern: string): string {
    seq(|pattern|, i requires 0 <= i < |pattern| => if pattern[i] == '\\' then '/' else pattern[i])
  }

  predicate Matches(site: Site, path: string, patterns: seq<string>) {
    exists i :: 0 <= i < |patterns| && site.glob(path, Slashed(patterns[i]))
  }

  predicate IsPattern(expression: string) {
    exists i :: 0 <= i < |expression| && (expression[i] == '*' || expression[i] == '?' || expression[i] == '[')
  }

  /** A snapshot scope expression is provably inside the lease's scope. */
  predicate Authorized(site: Site, expression: string, allowed: seq<string>) {
    || expression in allowed
    || (!IsPattern(expression) && exists i :: 0 <= i < |allowed| && site.glob(expression, allowed[i]))
  }

  /** Every lease-authorized change path must be covered by the snapshot's scope. */
  predicate Covered(site: Site, lease: WorkerLease, scope: seq<string>, path: string) {
    Matches(site, path, lease.mutableScope) ==> Matches(site, path, scope)
  }

  /** The snapshot is about exactly this mutation; otherwise the reason it is refused. */
  function Bind(site: Site, lease: WorkerLease, r: Request, s: Snapshot): Option<Denial> {
    if s.session != r.session || lease.session != r.session then Some(IdentityMismatch("session_id"))
    else if s.task != r.task then Some(IdentityMismatch("task_id"))
    else if site.seams.key(site.root).None? then Some(ContinuityUnavailable)
    else if site.seams.key(s.worktree) != site.seams.key(site.root) then Some(IdentityMismatch("worktree"))
    else if s.branch != lease.branch then Some(IdentityMismatch("branch"))
    else if s.expectedHead != Some(r.expectedHead) then Some(IdentityMismatch("expected_head"))
    else if s.localHead != Some(r.actualHead) then Some(IdentityMismatch("local_head"))
    else if exists i :: 0 <= i < |s.scope| && !Authorized(site, s.scope[i], lease.mutableScope) then
      Some(IdentityMismatch("mutable_scope"))
    else if exists i :: 0 <= i < |r.paths| && !Covered(site, lease, s.scope, r.paths[i]) then
      Some(IdentityMismatch("mutable_scope_coverage"))
    else None
  }

  // ---------------------------------------------------------------- the gates

  function GenericGate(site: Site, lease: WorkerLease, r: Request, s: Snapshot): Option<Denial> {
    if Bind(site, lease, r, s).Some? then Bind(site, lease, r, s)
    else
      var v := Classify(site.seams, s);
      if v.Raised? then Some(ClassifierRaised)
      else if v.kind != Fresh || !v.safe then Some(NotFresh)
      else None
  }

  function TypedGate(site: Site, lease: WorkerLease, r: Request, commit: string, s: Snapshot): Option<Denial> {
    if Bind(site, lease, r, s).Some? then Bind(site, lease, r, s)
    else
      var v := Classify(site.seams, s);
      if v.Raised? then Some(ClassifierRaised)
      else if v.kind != MergedNotFolded then Some(ClassificationDenied)
      else if exists f :: f in v.findings && f.kind == ReconcileRequired then Some(ReconcileResidue)
      else if s.mergeFold.None? || s.mergeFold.value.commit != commit then Some(MergeIdentityMismatch)
      else if exists i :: 0 <= i < |s.claims| && !Agrees(s, s.claims[i]) && s.claims[i].source !in TARGETS then
        Some(DriftUnrelated)
      else None
  }

  /** The typed gate's loop over the projections. */
  method UnrelatedDrift(s: Snapshot) returns (drift: bool)
    ensures drift <==> exists i :: 0 <= i < |s.claims| && !Agrees(s, s.claims[i]) && s.claims[i].source !in TARGETS
  {
    hide Agrees;
    for i := 0 to |s.claims|
      invariant forall k :: 0 <= k < i ==> Agrees(s, s.claims[k]) || s.claims[k].source in TARGETS
    {
      if !Agrees(s, s.claims[i]) && s.claims[i].source !in TARGETS {
        return true;
      }
    }
    drift := false;
  }

  // ---------------------------------------------------------------- repair

  /** `t` is `s` with the merge folded and released and every claim from a fold target made to agree;
      nothing else differs. */
  predicate Repairs(s: Snapshot, t: Snapshot) {
    && s.mergeFold.Some?
    && t == s.(mergeFold := Some(MergeFold(s.mergeFold.value.commit, Some(true), Some(true))), claims := t.claims)
    && |t.claims| == |s.claims|
    && forall i :: 0 <= i < |s.claims| ==>
         && t.claims[i].source == s.claims[i].source
         && (if s.claims[i].source in TARGETS then Agrees(t, t.claims[i]) else t.claims[i] == s.claims[i])
  }

  /** The claims a completed fold would publish: what the facts say. */
  function Repaired(s: Snapshot): Snapshot
    requires s.mergeFold.Some?
  {
    s.(mergeFold := Some(MergeFold(s.mergeFold.value.commit, Some(true), Some(true))),
       claims := seq(|s.claims|, i requires 0 <= i < |s.claims| =>
         if s.claims[i].source in TARGETS then Claim(s.claims[i].source, s.localHead, Some(s.branch), None)
         else s.claims[i]))
  }

  lemma RepairedRepairs(s: Snapshot)
    requires s.mergeFold.Some?
    ensures Repairs(s, Repaired(s))
  {
  }

  // ---------------------------------------------------------------- which kinds are found

  lemma {:induction false} FirstKind(fs: seq<Finding>, order: seq<Kind>, i: nat)
    requires i < |order| && forall j, k :: 0 <= j < k < |order| ==> order[j] != order[k]
    ensures var kinds := KindsPresent(fs, order);
            (kinds != [] && kinds[0] == order[i]) <==> Has(fs, order[i]) && forall j :: 0 <= j < i ==> !Has(fs, order[j])
  {
    hide Has;
    var rest := order[1..];
    assert order == [order[0]] + rest;
    if i > 0 {
      FirstKind(fs, rest, i - 1);
      assert rest[i - 1] == order[i];
      assert forall j :: 0 <= j < i - 1 ==> rest[j] == order[j + 1];
    } else if !Has(fs, order[0]) {
      OrderedKinds(fs, rest);
      var kinds := KindsPresent(fs, rest);
      assert order[0] !in rest;
      assert kinds == KindsPresent(fs, order);
    }
  }

  /** The kinds found by the groups that a fold does not touch. */
  predicate OfLane(k: Kind) {
    k in {Unknown, ClaimConflict, Dirty, HeadDrift, StaleLocal, ReconcileRequired}
  }

  lemma GroupsOfLane(s: Snapshot, f: Finding)
    ensures f in HeadFindings(s) || f in StateFindings(s) || f in JobFindings(s) ==> OfLane(f.kind)
    ensures f in FoldFindings(s) ==> f.kind == MergedNotFolded
  {
  }

  lemma {:induction false} LeasesOfLane(c: Seams, s: Snapshot, leases: seq<Lease>, f: Finding)
    requires f in AllLeases(c, s, leases)
    ensures OfLane(f.kind)
  {
    if f !in LeaseFindings(c, s, leases[|leases| - 1]) {
      LeasesOfLane(c, s, leases[..|leases| - 1], f);
    }
  }

  /** The lane's own findings. */
  function LaneFindings(c: Seams, s: Snapshot): seq<Finding> {
    HeadFindings(s) + StateFindings(s) + AllLeases(c, s, s.leases) + JobFindings(s)
  }

  lemma KindsOf(c: Seams, s: Snapshot)
    ensures forall f :: f in LaneFindings(c, s) ==> OfLane(f.kind)
    ensures forall f :: f in FoldFindings(s) ==> f.kind == MergedNotFolded
    ensures forall f :: f in AllClaims(s, s.claims) ==> f.kind == SsotDrift
    ensures forall f :: f in Findings(c, s) <==> f in LaneFindings(c, s) || f in FoldFindings(s) || f in AllClaims(s, s.claims)
  {
    hide HeadFindings, StateFindings, JobFindings, FoldFindings, AllLeases, AllClaims, OfLane;
    ClaimKinds(s, s.claims);
    forall f | f in LaneFindings(c, s) ensures OfLane(f.kind) {
      GroupsOfLane(s, f);
      if f in AllLeases(c, s, s.leases) {
        LeasesOfLane(c, s, s.leases, f);
      }
    }
    forall f | f in FoldFindings(s) ensures f.kind == MergedNotFolded {
      GroupsOfLane(s, f);
    }
  }

  lemma HasMember(fs: seq<Finding>, k: Kind)
    ensures Has(fs, k) <==> exists f :: f in fs && f.kind == k
  {
    if f :| f in fs && f.kind == k {
      var i :| 0 <= i < |fs| && fs[i] == f;
      assert Has(fs, k);
    }
  }

  lemma MergeKindFound(c: Seams, s: Snapshot)
    ensures Has(Findings(c, s), MergedNotFolded) <==> FoldFindings(s) != []
  {
    hide Findings, LaneFindings, FoldFindings, AllClaims, Has;
    KindsOf(c, s);
    HasMember(Findings(c, s), MergedNotFolded);
    if FoldFindings(s) != [] {
      assert FoldFindings(s)[0] in FoldFindings(s);
    }
  }

  lemma LaneKindsFound(c: Seams, s: Snapshot)
    ensures (forall k :: OfLane(k) ==> !Has(Findings(c, s), k)) <==> LaneFindings(c, s) == []
  {
    hide Findings, LaneFindings, FoldFindings, AllClaims, Has;
    KindsOf(c, s);
    forall k ensures Has(Findings(c, s), k) <==> exists f :: f in Findings(c, s) && f.kind == k {
      HasMember(Findings(c, s), k);
    }
    if LaneFindings(c, s) != [] {
      var f := LaneFindings(c, s)[0];
      assert f in LaneFindings(c, s) && f in Findings(c, s);
      assert OfLane(f.kind) && Has(Findings(c, s), f.kind);
    }
  }

  /** Classified MERGED_NOT_FOLDED without reconcile residue: the lane is in order and a fold is owed. */
  lemma FoldIsAllThatIsOwed(c: Seams, s: Snapshot)
    ensures Classify(c, s).Verdict? && Classify(c, s).kind == MergedNotFolded
              && !(exists f :: f in Classify(c, s).findings && f.kind == ReconcileRequired)
            <==> LaneInOrder(c, s) && !FoldDone(s)
  {
    hide Findings, LaneFindings, FoldFindings, Has, KindsPresent, LaneInOrder, FoldDone, Raises;
    var fs := Findings(c, s);
    FoldQuiet(s);
    LaneQuiet(c, s);
    LaneEmpty(c, s);
    MergeKindFound(c, s);
    LaneKindsFound(c, s);
    HasMember(fs, ReconcileRequired);
    FirstKind(fs, PRECEDENCE, 5);
    OrderIs();
  }

  lemma OrderIs()
    ensures PRECEDENCE == [Unknown, ClaimConflict, Dirty, HeadDrift, StaleLocal, MergedNotFolded, SsotDrift, ReconcileRequired]
    ensures forall k :: OfLane(k) <==> k == ReconcileRequired || (exists j :: 0 <= j < 5 && PRECEDENCE[j] == k)
  {
    assert PRECEDENCE[0] == Unknown && PRECEDENCE[1] == ClaimConflict && PRECEDENCE[2] == Dirty
        && PRECEDENCE[3] == HeadDrift && PRECEDENCE[4] == StaleLocal;
  }

  lemma LaneEmpty(c: Seams, s: Snapshot)
    ensures LaneFindings(c, s) == [] <==>
              HeadFindings(s) == [] && StateFindings(s) == [] && JobFindings(s) == [] && AllLeases(c, s, s.leases) == []
  {
    hide HeadFindings, StateFindings, JobFindings, AllLeases;
    assert |LaneFindings(c, s)| == |HeadFindings(s)| + |StateFindings(s)| + |AllLeases(c, s, s.leases)| + |JobFindings(s)|;
  }

  // ---------------------------------------------------------------- the theorems

  lemma LaneSame(c: Seams, s: Snapshot, t: Snapshot)
    requires t == s.(mergeFold := t.mergeFold, claims := t.claims)
    ensures LaneInOrder(c, s) <==> LaneInOrder(c, t)
    ensures forall p :: Agrees(s, p) <==> Agrees(t, p)
  {
    assert ActiveLeases(s) == ActiveLeases(t);
    assert forall l :: Harmless(c, s, l) <==> Harmless(c, t, l);
  }

  lemma RepairedClaims(s: Snapshot, t: Snapshot)
    requires Repairs(s, t) && forall p :: Agrees(s, p) <==> Agrees(t, p)
    ensures (forall p :: p in t.claims ==> Agrees(t, p))
            <==> !(exists i :: 0 <= i < |s.claims| && !Agrees(s, s.claims[i]) && s.claims[i].source !in TARGETS)
  {
    hide Agrees;
    if exists i :: 0 <= i < |s.claims| && !Agrees(s, s.claims[i]) && s.claims[i].source !in TARGETS {
      var i :| 0 <= i < |s.claims| && !Agrees(s, s.claims[i]) && s.claims[i].source !in TARGETS;
      assert t.claims[i] in t.claims;
    }
  }

  /** Merge-fold admission is exact: for an identity-bound snapshot the typed gate opens if and only if
      the named merge is the snapshot's, an obligation of it is open, and folding, releasing and repairing
      only the claims of the fold targets, in whatever way, makes the snapshot FRESH. */
  lemma TypedAdmissionIsExact(site: Site, lease: WorkerLease, r: Request, commit: string, s: Snapshot, t: Snapshot)
    requires Bind(site, lease, r, s) == None
    requires s.mergeFold.Some? ==> Repairs(s, t)
    ensures TypedGate(site, lease, r, commit, s) == None <==>
              && s.mergeFold.Some? && s.mergeFold.value.commit == commit && !FoldDone(s)
              && Classify(site.seams, t) == Verdict(Fresh, true, {}, [])
  {
    hide Bind, Classify, LaneInOrder, Agrees;
    var c := site.seams;
    FoldIsAllThatIsOwed(c, s);
    if s.mergeFold.Some? {
      FreshMeans(c, t);
      LaneSame(c, s, t);
      RepairedClaims(s, t);
    }
  }

  /** One repair decides it: the claims a completed fold publishes. */
  lemma PublishedRepairDecides(site: Site, lease: WorkerLease, r: Request, commit: string, s: Snapshot)
    requires Bind(site, lease, r, s) == None
    ensures TypedGate(site, lease, r, commit, s) == None <==>
              && s.mergeFold.Some? && s.mergeFold.value.commit == commit && !FoldDone(s)
              && Classify(site.seams, Repaired(s)) == Verdict(Fresh, true, {}, [])
  {
    hide Bind, Classify, TypedGate, FoldDone, Repairs, Repaired;
    if s.mergeFold.Some? {
      RepairedRepairs(s);
    }
    TypedAdmissionIsExact(site, lease, r, commit, s, if s.mergeFold.Some? then Repaired(s) else s);
  }

  /** No snapshot passes both gates, whatever the two mutations are. */
  lemma GatesExclude(site: Site, lease: WorkerLease, r: Request, lease': WorkerLease, r': Request, commit: string, s: Snapshot)
    ensures !(GenericGate(site, lease, r, s) == None && TypedGate(site, lease', r', commit, s) == None)
  {
    hide Bind, Classify;
  }

  /** The repaired snapshot passes the generic gate: the typed admission leads back to the ordinary one. */
  lemma RepairReopensGenericGate(site: Site, lease: WorkerLease, r: Request, commit: string, s: Snapshot, t: Snapshot)
    requires TypedGate(site, lease, r, commit, s) == None && s.mergeFold.Some? && Repairs(s, t)
    ensures GenericGate(site, lease, r, t) == None
  {
    hide Classify, LaneInOrder, Agrees, Matches, Authorized, Covered;
    TypedAdmissionIsExact(site, lease, r, commit, s, t);
  }

  /** Completing the fold alone, without the release, is enough exactly when the release was complete. */
  lemma FoldAloneSuffices(site: Site, lease: WorkerLease, r: Request, commit: string, s: Snapshot, t: Snapshot)
    requires TypedGate(site, lease, r, commit, s) == None && s.mergeFold.Some? && Repairs(s, t)
    ensures var u := t.(mergeFold := Some(s.mergeFold.value.(folded := Some(true))));
            Classify(site.seams, u) == Verdict(Fresh, true, {}, []) <==> Done(s.mergeFold.value.released)
  {
    hide Bind, Classify, LaneInOrder, Agrees;
    var u := t.(mergeFold := Some(s.mergeFold.value.(folded := Some(true))));
    TypedAdmissionIsExact(site, lease, r, commit, s, t);
    FreshMeans(site.seams, t);
    FreshMeans(site.seams, u);
    LaneSame(site.seams, t, u);
  }

  /** The generic gate opens exactly for an identity-bound snapshot with nothing out of order. */
  lemma GenericAdmissionIsExact(site: Site, lease: WorkerLease, r: Request, s: Snapshot)
    ensures GenericGate(site, lease, r, s) == None <==>
              && Bind(site, lease, r, s) == None && LaneInOrder(site.seams, s) && FoldDone(s)
              && forall p :: p in s.claims ==> Agrees(s, p)
  {
    hide Bind, Classify, LaneInOrder, Agrees, FoldDone;
    FreshMeans(site.seams, s);
  }

  // ---------------------------------------------------------------- what an open gate stands on

  predicate MatchesAny(site: Site, path: string, patterns: seq<string>) {
    exists p :: p in patterns && site.glob(path, Slashed(p))
  }

  /** Session, task, worktree, branch and heads are those of this mutation. */
  predicate SameMutation(site: Site, lease: WorkerLease, r: Request, s: Snapshot) {
    && s.session == r.session && lease.session == r.session && s.task == r.task
    && site.seams.key(site.root).Some? && site.seams.key(s.worktree) == site.seams.key(site.root)
    && s.branch == lease.branch && s.expectedHead == Some(r.expectedHead) && s.localHead == Some(r.actualHead)
  }

  /** The snapshot's scope is inside the lease's. */
  predicate ScopeAuthorized(site: Site, lease: WorkerLease, s: Snapshot) {
    forall e :: e in s.scope ==>
      e in lease.mutableScope
      || ('*' !in e && '?' !in e && '[' !in e && exists p :: p in lease.mutableScope && site.glob(e, p))
  }

  /** And it covers every changed path that the lease allows. */
  predicate ScopeCovers(site: Site, lease: WorkerLease, r: Request, s: Snapshot) {
    forall path :: path in r.paths && MatchesAny(site, path, lease.mutableScope) ==> MatchesAny(site, path, s.scope)
  }

  lemma MatchesMembers(site: Site, path: string, patterns: seq<string>)
    ensures Matches(site, path, patterns) <==> MatchesAny(site, path, patterns)
  {
    if Matches(site, path, patterns) {
      var i :| 0 <= i < |patterns| && site.glob(path, Slashed(patterns[i]));
      assert patterns[i] in patterns;
    }
  }

  lemma AuthorizedMembers(site: Site, e: string, allowed: seq<string>)
    ensures Authorized(site, e, allowed) <==>
              e in allowed || ('*' !in e && '?' !in e && '[' !in e && exists p :: p in allowed && site.glob(e, p))
  {
    if exists i :: 0 <= i < |allowed| && site.glob(e, allowed[i]) {
      var i :| 0 <= i < |allowed| && site.glob(e, allowed[i]);
      assert allowed[i] in allowed;
    }
  }

  lemma ScopeMembers(site: Site, lease: WorkerLease, r: Request, s: Snapshot)
    ensures ScopeAuthorized(site, lease, s)
            <==> !exists i :: 0 <= i < |s.scope| && !Authorized(site, s.scope[i], lease.mutableScope)
    ensures ScopeCovers(site, lease, r, s)
            <==> !exists i :: 0 <= i < |r.paths| && !Covered(site, lease, s.scope, r.paths[i])
  {
    hide Authorized, Matches, MatchesAny;
    forall e | e in s.scope
      ensures Authorized(site, e, lease.mutableScope) <==>
                e in lease.mutableScope
                || ('*' !in e && '?' !in e && '[' !in e && exists p :: p in lease.mutableScope && site.glob(e, p))
    {
      AuthorizedMembers(site, e, lease.mutableScope);
    }
    forall path ensures Matches(site, path, lease.mutableScope) <==> MatchesAny(site, path, lease.mutableScope) {
      MatchesMembers(site, path, lease.mutableScope);
    }
    forall path ensures Matches(site, path, s.scope) <==> MatchesAny(site, path, s.scope) {
      MatchesMembers(site, path, s.scope);
    }
  }

  /** What a refused binding says is true, and the fields before it agree. */
  predicate Misfit(site: Site, lease: WorkerLease, r: Request, s: Snapshot, field: string) {
    || (field == "session_id" && (s.session != r.session || lease.session != r.session))
    || (field == "task_id" && s.task != r.task)
    || (field == "worktree" && site.seams.key(s.worktree) != site.seams.key(site.root))
    || (field == "branch" && s.branch != lease.branch)
    || (field == "expected_head" && s.expectedHead != Some(r.expectedHead))
    || (field == "local_head" && s.localHead != Some(r.actualHead))
    || (field == "mutable_scope" && SameMutation(site, lease, r, s) && !ScopeAuthorized(site, lease, s))
    || (field == "mutable_scope_coverage" && SameMutation(site, lease, r, s) && ScopeAuthorized(site, lease, s)
        && !ScopeCovers(site, lease, r, s))
  }

  /** The identity binding, from the fields: a snapshot is bound exactly when it is about this mutation, and
      its scope is inside the lease's and covers every changed path the lease allows. */
  lemma BindingMeans(site: Site, lease: WorkerLease, r: Request, s: Snapshot)
    ensures Bind(site, lease, r, s) == None <==>
              SameMutation(site, lease, r, s) && ScopeAuthorized(site, lease, s) && ScopeCovers(site, lease, r, s)
    ensures Bind(site, lease, r, s).Some? ==>
              match Bind(site, lease, r, s).value
              case IdentityMismatch(field) => Misfit(site, lease, r, s, field)
              case e => e == ContinuityUnavailable && site.seams.key(site.root).None?
  {
    hide Authorized, Covered, ScopeAuthorized, ScopeCovers;
    ScopeMembers(site, lease, r, s);
  }

  /** No other owner's live lease stands in the way: none in this worktree or in one without a key, and none
      elsewhere whose scope overlaps the snapshot's. */
  predicate NoForeignClaim(c: Seams, s: Snapshot) {
    forall l :: l in s.leases && l.state.Active? && (l.session != s.session || l.task != s.task) ==>
      && c.key(s.worktree).Some? && c.key(l.worktree).Some? && c.key(l.worktree) != c.key(s.worktree)
      && !c.overlap(s.scope, l.scope)
  }

  lemma OrderedLaneUnclaimed(c: Seams, s: Snapshot)
    requires LaneInOrder(c, s)
    ensures NoForeignClaim(c, s)
  {
    forall l | l in s.leases && l.state.Active? && !Own(s, l)
      ensures Keyed(c, s, l) && !SameWorktree(c, s, l) && !c.overlap(s.scope, l.scope)
    {
      assert Harmless(c, s, l);
    }
  }

  /** Either gate open: the snapshot is about exactly this mutation, its scope is authorized and covers every
      changed path the lease allows, and nobody else's live lease overlaps that scope. */
  lemma OpenGateStands(site: Site, lease: WorkerLease, r: Request, commit: string, s: Snapshot)
    requires GenericGate(site, lease, r, s) == None || TypedGate(site, lease, r, commit, s) == None
    ensures SameMutation(site, lease, r, s) && ScopeAuthorized(site, lease, s) && ScopeCovers(site, lease, r, s)
    ensures LaneInOrder(site.seams, s) && NoForeignClaim(site.seams, s)
  {
    hide LaneInOrder, SameMutation, ScopeAuthorized, ScopeCovers, Agrees, NoForeignClaim, FoldDone;
    BindingMeans(site, lease, r, s);
    if GenericGate(site, lease, r, s) == None {
      GenericAdmissionIsExact(site, lease, r, s);
    } else {
      TypedLane(site, lease, r, commit, s);
    }
    OrderedLaneUnclaimed(site.seams, s);
  }

  lemma TypedLane(site: Site, lease: WorkerLease, r: Request, commit: string, s: Snapshot)
    requires TypedGate(site, lease, r, commit, s) == None
    ensures LaneInOrder(site.seams, s)
  {
    hide LaneInOrder, Bind, Classify, Agrees;
    FoldIsAllThatIsOwed(site.seams, s);
  }

  /** The generic gate, from the facts alone. */
  lemma GenericGateMeans(site: Site, lease: WorkerLease, r: Request, s: Snapshot)
    ensures GenericGate(site, lease, r, s) == None <==>
              && SameMutation(site, lease, r, s) && ScopeAuthorized(site, lease, s) && ScopeCovers(site, lease, r, s)
              && LaneInOrder(site.seams, s) && FoldDone(s) && forall p :: p in s.claims ==> Agrees(s, p)
  {
    hide Bind, LaneInOrder, SameMutation, ScopeAuthorized, ScopeCovers, Agrees, FoldDone, GenericGate;
    BindingMeans(site, lease, r, s);
    GenericAdmissionIsExact(site, lease, r, s);
  }

  /** The typed gate, from the facts alone: the named merge is owed, everything else about the lane is in
      order, and only the fold targets may contradict the facts. */
  lemma TypedGateMeans(site: Site, lease: WorkerLease, r: Request, commit: string, s: Snapshot)
    ensures TypedGate(site, lease, r, commit, s) == None <==>
              && SameMutation(site, lease, r, s) && ScopeAuthorized(site, lease, s) && ScopeCovers(site, lease, r, s)
              && LaneInOrder(site.seams, s) && s.mergeFold.Some? && s.mergeFold.value.commit == commit && !FoldDone(s)
              && forall p :: p in s.claims && p.source !in TARGETS ==> Agrees(s, p)
  {
    hide Bind, LaneInOrder, SameMutation, ScopeAuthorized, ScopeCovers, Agrees, FoldDone, Classify;
    BindingMeans(site, lease, r, s);
    FoldIsAllThatIsOwed(site.seams, s);
    assert (forall p :: p in s.claims && p.source !in TARGETS ==> Agrees(s, p))
      <==> !exists i :: 0 <= i < |s.claims| && !Agrees(s, s.claims[i]) && s.claims[i].source !in TARGETS;
  }
}
