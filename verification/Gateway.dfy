/** The command gateway: admit one operator command with the exact evidence it was admitted on, or deny it. */
module Gateway {
  import Chars
  import opened Json
  import opened StringOrder
  import opened DexIdentity

  datatype Option<T> = None | Some(value: T)

  datatype Action =
    | Status | JobGet | JobEvents | JobCreate | JobReady | JobClaim | JobGate | JobCheckpoint | JobExecute

  datatype Intent = ReadOnly | Mutate

  datatype Inner = Inner(
    action: Action,
    jobId: Option<string>,
    operationRef: Option<string>,
    evidenceRef: Option<string>,
    checkpointRef: Option<string>,
    workOrderRef: Option<string>,
    projectId: Option<string>,
    workerId: Option<string>,
    expectedVersion: Option<int>,
    maxAttempts: Option<int>)

  datatype Request = Request(
    inner: Inner,
    repoRoot: string,
    worktree: string,
    branch: string,
    headSha: string,
    intent: Intent,
    taskRef: string,
    claimRef: string,
    fenceRef: string,
    scope: seq<string>)

  datatype LeaseEvidence = LeaseEvidence(taskRef: string, claimRef: string, scope: seq<string>, active: bool)

  datatype Observed = Observed(repoRoot: string, worktree: string, branch: string, headSha: string)

  datatype Dedupe = SafeToLaunch | AttachRunning | ReuseCompleted | BlockedUnknown

  datatype Fence = HeldHere | Open | Stale

  /** The answer of an authority; `Raised` is a callback that failed or gave hostile evidence. */
  datatype Answer<T> = Raised | Absent | Given(value: T)

  datatype Authorities = Authorities(lease: Answer<LeaseEvidence>, identity: Answer<Observed>, dedupe: Answer<Dedupe>,
                                     fence: Answer<Fence>)

  datatype Reason =
    | MalformedRequest | IntentEscalation | AuthorityError | ClaimMissing | ClaimStale | TaskMissing | ScopeDrift
    | IdentityDrift | DuplicateUnknown | FenceMissing | FenceStale

  datatype Admission = Admit(digest: string) | Deny(reason: Reason)

  // ---------------------------------------------------------------- shape

  predicate PlainRef(s: string) {
    && 0 < |s| <= 256 && !Chars.IsSpace(s[0]) && !Chars.IsSpace(s[|s| - 1])
    && forall i :: 0 <= i < |s| ==> s[i] as int >= 32 && s[i] as int != 0x7F
  }

  /** Components between slashes of either kind. */
  function Components(s: string): (parts: seq<string>)
    ensures parts != []
  {
    if s == "" then [""]
    else
      var init, last := Components(s[..|s| - 1]), s[|s| - 1];
      if last == '/' || last == '\\' then init + [""]
      else init[..|init| - 1] + [init[|init| - 1] + [last]]
  }

  predicate ScopeItemSafe(s: string) {
    && PlainRef(s) && s[0] != '/' && s[0] != '\\' && ':' !in s
    && forall i :: 0 <= i < |Components(s)| ==> Components(s)[i] !in {"", ".", ".."}
  }

  predicate Mutating(a: Action) {
    !(a.Status? || a.JobGet? || a.JobEvents?)
  }

  predicate RefOk(o: Option<string>) {
    o.Some? ==> PlainRef(o.value)
  }

  predicate CountOk(o: Option<int>) {
    o.Some? ==> o.value >= 1
  }

  predicate EmptyOrPlain(s: string) {
    s == "" || PlainRef(s)
  }

  function ShapeError(r: Request): Option<Reason> {
    var n := r.inner;
    if !(RefOk(n.jobId) && RefOk(n.operationRef) && RefOk(n.evidenceRef) && RefOk(n.checkpointRef) && RefOk(n.workOrderRef)
         && RefOk(n.projectId) && RefOk(n.workerId) && CountOk(n.expectedVersion) && CountOk(n.maxAttempts)) then Some(MalformedRequest)
    else if !(PlainRef(r.repoRoot) && PlainRef(r.worktree) && PlainRef(r.branch) && PlainRef(r.headSha)) then Some(MalformedRequest)
    else if exists i :: 0 <= i < |r.scope| && !ScopeItemSafe(r.scope[i]) then Some(MalformedRequest)
    else if Mutating(n.action) != r.intent.Mutate? then Some(IntentEscalation)
    else if r.intent.Mutate? then (if PlainRef(r.taskRef) && PlainRef(r.claimRef) then None else Some(MalformedRequest))
    else if EmptyOrPlain(r.taskRef) && EmptyOrPlain(r.claimRef) && EmptyOrPlain(r.fenceRef) then None
    else Some(MalformedRequest)
  }

  // ---------------------------------------------------------------- evidence

  function ActionName(a: Action): string {
    match a
    case Status => "status"
    case JobGet => "job.get"
    case JobEvents => "job.events"
    case JobCreate => "job.create"
    case JobReady => "job.ready"
    case JobClaim => "job.claim"
    case JobGate => "job.gate"
    case JobCheckpoint => "job.checkpoint"
    case JobExecute => "job.execute"
  }

  function Maybe(o: Option<string>): Json {
    if o.Some? then Str(o.value) else Null
  }

  function MaybeInt(o: Option<int>): Json {
    if o.Some? then Int(o.value) else Null
  }

  function EvidenceParts(r: Request, fenced: bool, leaseScope: seq<string>): (parts: seq<Json>)
    ensures |parts| == 22
  {
    [ Str("operator.v1"), Str(ActionName(r.inner.action)), Str(if r.intent.Mutate? then "MUTATE" else "READ_ONLY"),
      Str(r.repoRoot), Str(r.worktree), Str(r.branch), Str(r.headSha), Str(r.taskRef), Str(r.claimRef), Str(r.fenceRef),
      Maybe(r.inner.jobId), Maybe(r.inner.operationRef), Maybe(r.inner.evidenceRef), Maybe(r.inner.checkpointRef),
      Maybe(r.inner.workOrderRef), Maybe(r.inner.projectId), Maybe(r.inner.workerId),
      MaybeInt(r.inner.expectedVersion), MaybeInt(r.inner.maxAttempts),
      Arr(Strings(Sort(r.scope))), Arr(Strings(Sort(leaseScope))), Str(if fenced then "fence" else "nofence") ]
  }

  function Payload(r: Request, fenced: bool, leaseScope: seq<string>): string {
    Dumps(Arr(EvidenceParts(r, fenced, leaseScope)))
  }

  // ---------------------------------------------------------------- admission

  predicate EndsWith(s: string, tail: string) {
    |tail| <= |s| && s[|s| - |tail|..] == tail
  }

  /** A scope pattern covers itself and, when it ends in a double-star component, everything below it. */
  predicate Covers(pattern: string, item: string) {
    && ScopeItemSafe(pattern)
    && (pattern == item || (EndsWith(pattern, "/**") && pattern[..|pattern| - 2] <= item))
  }

  predicate Covered(scope: seq<string>, item: string) {
    exists i :: 0 <= i < |scope| && Covers(scope[i], item)
  }

  function Decide(r: Request, a: Authorities, sha: string -> string): Admission {
    if ShapeError(r).Some? then Deny(ShapeError(r).value)
    else if r.intent.ReadOnly? then Admit(sha(Payload(r, false, [])))
    else if a.lease.Raised? then Deny(AuthorityError)
    else if a.lease.Absent? then Deny(ClaimMissing)
    else
      var lease := a.lease.value;
      if !lease.active then Deny(ClaimStale)
      else if lease.taskRef != r.taskRef || lease.claimRef != r.claimRef then Deny(TaskMissing)
      else if exists i :: 0 <= i < |lease.scope| && !ScopeItemSafe(lease.scope[i]) then Deny(ScopeDrift)
      else if exists i :: 0 <= i < |r.scope| && !Covered(lease.scope, r.scope[i]) then Deny(ScopeDrift)
      else if a.identity.Raised? then Deny(AuthorityError)
      else if a.identity.Absent? || a.identity.value != Observed(r.repoRoot, r.worktree, r.branch, r.headSha) then
        Deny(IdentityDrift)
      else if a.dedupe.Raised? then Deny(AuthorityError)
      else if a.dedupe != Given(SafeToLaunch) then Deny(DuplicateUnknown)
      else if !PlainRef(r.fenceRef) then Deny(FenceMissing)
      else if a.fence.Raised? then Deny(AuthorityError)
      else if a.fence.Absent? then Deny(FenceMissing)
      else if a.fence.value != HeldHere then Deny(FenceStale)
      else Admit(sha(Payload(r, true, lease.scope)))
  }

  /** The lease scope that an admission binds: none for a read-only command. */
  function BoundScope(r: Request, a: Authorities): seq<string> {
    if r.intent.Mutate? && a.lease.Given? then a.lease.value.scope else []
  }

  // ---------------------------------------------------------------- digests bind the evidence

  lemma PartsWellFormed(r: Request, fenced: bool, leaseScope: seq<string>)
    ensures WellFormed(Arr(EvidenceParts(r, fenced, leaseScope)))
  {
    hide EvidenceParts, Sort, Strings;
    var p := EvidenceParts(r, fenced, leaseScope);
    StringsWellFormed(Sort(r.scope));
    StringsWellFormed(Sort(leaseScope));
    forall i | 0 <= i < |p| ensures WellFormed(p[i]) {
      if i != 19 && i != 20 {
        PartIsScalar(r, fenced, leaseScope, i);
        ScalarWellFormed(p[i]);
      } else {
        ScopeParts(r, fenced, leaseScope);
      }
    }
  }

  lemma ScalarWellFormed(v: Json)
    requires v.Str? || v.Null? || v.Int?
    ensures WellFormed(v)
  {
  }

  lemma PartIsScalar(r: Request, fenced: bool, leaseScope: seq<string>, i: nat)
    requires i < 22 && i != 19 && i != 20
    ensures var v := EvidenceParts(r, fenced, leaseScope)[i]; v.Str? || v.Null? || v.Int?
  {
    hide Sort, ActionName, Strings;
  }

  lemma ScopeParts(r: Request, fenced: bool, leaseScope: seq<string>)
    ensures EvidenceParts(r, fenced, leaseScope)[19] == Arr(Strings(Sort(r.scope)))
    ensures EvidenceParts(r, fenced, leaseScope)[20] == Arr(Strings(Sort(leaseScope)))
  {
    hide Sort, ActionName, Strings;
  }

  lemma StringsWellFormed(items: seq<string>)
    ensures WellFormed(Arr(Strings(items)))
  {
  }

  lemma {:induction false} ActionNamesDiffer(a: Action, b: Action)
    requires ActionName(a) == ActionName(b)
    ensures a == b
  {
    var n := |ActionName(a)|;
    assert n > 4 ==> ActionName(a)[4] == ActionName(b)[4];
    assert n > 6 ==> ActionName(a)[5] == ActionName(b)[5] && ActionName(a)[6] == ActionName(b)[6];
  }

  lemma ScopesInjective(a: seq<string>, b: seq<string>)
    requires Strings(Sort(a)) == Strings(Sort(b))
    ensures multiset(a) == multiset(b)
  {
    hide Sort;
    StringsInjective(Sort(a), Sort(b));
    SortIsCanonical(a, b);
  }

  /** Everything an admission binds, up to the order in which scopes are listed. */
  ghost predicate SameEvidence(r: Request, fenced: bool, scope: seq<string>, r': Request, fenced': bool, scope': seq<string>) {
    && r == r'.(scope := r.scope) && multiset(r.scope) == multiset(r'.scope)
    && fenced == fenced' && multiset(scope) == multiset(scope')
  }

  lemma PartsInjective(r: Request, fenced: bool, scope: seq<string>, r': Request, fenced': bool, scope': seq<string>)
    requires EvidenceParts(r, fenced, scope) == EvidenceParts(r', fenced', scope')
    ensures SameEvidence(r, fenced, scope, r', fenced', scope')
  {
    hide Sort, ActionName, Strings;
    var p, q := EvidenceParts(r, fenced, scope), EvidenceParts(r', fenced', scope');
    assert p[1] == q[1] && p[2] == q[2] && p[3] == q[3] && p[4] == q[4] && p[5] == q[5] && p[6] == q[6] && p[7] == q[7];
    assert p[8] == q[8] && p[9] == q[9] && p[10] == q[10] && p[11] == q[11] && p[12] == q[12] && p[13] == q[13];
    assert p[14] == q[14] && p[15] == q[15] && p[16] == q[16] && p[17] == q[17] && p[18] == q[18];
    assert p[19] == q[19] && p[20] == q[20] && p[21] == q[21];
    ActionNamesDiffer(r.inner.action, r'.inner.action);
    ScopesInjective(r.scope, r'.scope);
    ScopesInjective(scope, scope');
    assert |"fence"| != |"nofence"| && |"MUTATE"| != |"READ_ONLY"|;
  }

  /** The digested text determines the evidence, and the order of scopes is all it forgets. */
  lemma PayloadBindsEvidence(r: Request, fenced: bool, scope: seq<string>, r': Request, fenced': bool, scope': seq<string>)
    ensures Payload(r, fenced, scope) == Payload(r', fenced', scope') <==> SameEvidence(r, fenced, scope, r', fenced', scope')
  {
    hide EvidenceParts, Dumps;
    if Payload(r, fenced, scope) == Payload(r', fenced', scope') {
      PartsWellFormed(r, fenced, scope);
      PartsWellFormed(r', fenced', scope');
      DumpsInjective(Arr(EvidenceParts(r, fenced, scope)), Arr(EvidenceParts(r', fenced', scope')));
      PartsInjective(r, fenced, scope, r', fenced', scope');
    }
    if SameEvidence(r, fenced, scope, r', fenced', scope') {
      PartsSame(r, fenced, scope, r', fenced', scope');
    }
  }

  lemma PartsSame(r: Request, fenced: bool, scope: seq<string>, r': Request, fenced': bool, scope': seq<string>)
    requires SameEvidence(r, fenced, scope, r', fenced', scope')
    ensures EvidenceParts(r, fenced, scope) == EvidenceParts(r', fenced', scope')
  {
    hide Sort, ActionName, Strings;
    SortIsCanonical(r.scope, r'.scope);
    SortIsCanonical(scope, scope');
  }

  /** Under a collision-free hash two admissions carry the same digest exactly when they were made on the
      same evidence: request, fence and lease scope, up to the order of scope lists. */
  lemma DigestBindsEvidence(r: Request, a: Authorities, r': Request, a': Authorities, sha: string -> string)
    requires forall x, y :: sha(x) == sha(y) ==> x == y
    requires Decide(r, a, sha).Admit? && Decide(r', a', sha).Admit?
    ensures Decide(r, a, sha) == Decide(r', a', sha)
            <==> SameEvidence(r, r.intent.Mutate?, BoundScope(r, a), r', r'.intent.Mutate?, BoundScope(r', a'))
  {
    hide Payload, ShapeError, Covered, ScopeItemSafe, PlainRef, SameEvidence;
    PayloadBindsEvidence(r, r.intent.Mutate?, BoundScope(r, a), r', r'.intent.Mutate?, BoundScope(r', a'));
  }

  // ---------------------------------------------------------------- what a scope covers

  /** Components between forward slashes. */
  function Parts(s: string): (parts: seq<string>)
    ensures parts != []
  {
    if s == "" then [""]
    else
      var init, last := Parts(s[..|s| - 1]), s[|s| - 1];
      if last == '/' then init + [""] else init[..|init| - 1] + [init[|init| - 1] + [last]]
  }

  function Path(parts: seq<string>): string
    requires parts != []
  {
    if |parts| == 1 then parts[0] else Path(parts[..|parts| - 1]) + "/" + parts[|parts| - 1]
  }

  lemma {:induction false} PathOfParts(s: string)
    ensures Path(Parts(s)) == s
  {
    if s != "" {
      var n := |s| - 1;
      var init := Parts(s[..n]);
      PathOfParts(s[..n]);
      assert s == s[..n] + [s[n]];
      if s[n] == '/' {
        assert (init + [""])[..|init|] == init;
      } else {
        var k := |init| - 1;
        assert (init[..k] + [init[k] + [s[n]]])[..k] == init[..k];
      }
    }
  }

  /** The components after one more character. */
  function Extended(init: seq<string>, c: char): seq<string>
    requires init != []
  {
    if c == '/' then init + [""] else init[..|init| - 1] + [init[|init| - 1] + [c]]
  }

  lemma PartsNext(s: string, c: char)
    ensures Parts(s + [c]) == Extended(Parts(s), c)
  {
    assert (s + [c])[..|s|] == s;
  }

  lemma ExtendedBehind(p: seq<string>, q: seq<string>, c: char)
    requires q != []
    ensures Extended(p + q, c) == p + Extended(q, c)
  {
    assert (p + q)[..|p + q| - 1] == p + q[..|q| - 1];
  }

  lemma {:induction false} PartsOfJoin(a: string, b: string)
    ensures Parts(a + "/" + b) == Parts(a) + Parts(b)
  {
    hide Parts, Extended;
    if b == "" {
      assert a + "/" + b == a + ['/'];
      PartsNext(a, '/');
      PartsBase(Parts(a));
    } else {
      var n := |b| - 1;
      PartsOfJoin(a, b[..n]);
      assert b == b[..n] + [b[n]] && a + "/" + b == (a + "/" + b[..n]) + [b[n]];
      PartsNext(a + "/" + b[..n], b[n]);
      PartsNext(b[..n], b[n]);
      ExtendedBehind(Parts(a), Parts(b[..n]), b[n]);
    }
  }

  lemma PartsBase(p: seq<string>)
    requires p != []
    ensures Parts("") == [""] && Extended(p, '/') == p + [""]
  {
  }

  lemma {:induction false} PathOfJoin(p: seq<string>, q: seq<string>)
    requires p != [] && q != []
    ensures Path(p + q) == Path(p) + "/" + Path(q)
  {
    var n := |q| - 1;
    assert (p + q)[..|p + q| - 1] == p + q[..n];
    if n > 0 {
      PathOfJoin(p, q[..n]);
      assert Path(p) + "/" + Path(q[..n]) + "/" + q[n] == Path(p) + "/" + (Path(q[..n]) + "/" + q[n]);
    } else {
      assert p + q[..0] == p;
    }
  }

  /** `dir/` is a prefix of a path exactly when the components of `dir` are its first ones and more follow. */
  lemma PrefixIsByComponent(dir: string, item: string)
    ensures dir + "/" <= item <==> Parts(dir) < Parts(item)
  {
    hide Parts, Path;
    var p, q := Parts(dir), Parts(item);
    PathOfParts(dir);
    PathOfParts(item);
    if dir + "/" <= item {
      var rest := item[|dir| + 1..];
      assert item == dir + "/" + rest;
      PartsOfJoin(dir, rest);
    }
    if p < q {
      assert q == p + q[|p|..];
      PathOfJoin(p, q[|p|..]);
    }
  }

  /** A scope pattern covers an item by whole components: itself, or everything below its directory. */
  lemma CoversByComponent(pattern: string, item: string)
    requires ScopeItemSafe(pattern)
    ensures Covers(pattern, item) <==>
              pattern == item
              || (EndsWith(pattern, "/**") && Parts(pattern[..|pattern| - 3]) < Parts(item))
  {
    hide Parts, ScopeItemSafe;
    if EndsWith(pattern, "/**") {
      var dir := pattern[..|pattern| - 3];
      assert pattern[..|pattern| - 2] == dir + "/" by {
        assert pattern == dir + "/**";
      }
      PrefixIsByComponent(dir, item);
    }
  }

  /** Inside a lease scope, by whole components. */
  ghost predicate Inside(scope: seq<string>, item: string) {
    exists p :: p in scope && (p == item || (EndsWith(p, "/**") && Parts(p[..|p| - 3]) < Parts(item)))
  }

  /** A mutating action is admitted only under an active lease for its task and claim that holds every
      requested item, on the observed worktree, when it is safe to launch and its fence is held here;
      no label and no missing or failing authority gets around that. */
  lemma AdmittedMutation(r: Request, a: Authorities, sha: string -> string)
    requires Mutating(r.inner.action) && Decide(r, a, sha).Admit?
    ensures r.intent == Mutate
    ensures && a.lease.Given? && a.lease.value.active
            && a.lease.value.taskRef == r.taskRef && a.lease.value.claimRef == r.claimRef
            && (forall i :: 0 <= i < |r.scope| ==> Inside(a.lease.value.scope, r.scope[i]))
    ensures && a.identity == Given(Observed(r.repoRoot, r.worktree, r.branch, r.headSha))
            && a.dedupe == Given(SafeToLaunch) && a.fence == Given(HeldHere)
  {
    hide Payload, ScopeItemSafe, PlainRef, Parts, Covers;
    var scope := a.lease.value.scope;
    forall i | 0 <= i < |r.scope| ensures Inside(scope, r.scope[i]) {
      assert Covered(scope, r.scope[i]);
      var k :| 0 <= k < |scope| && Covers(scope[k], r.scope[i]);
      assert ScopeItemSafe(scope[k]);
      CoversByComponent(scope[k], r.scope[i]);
      assert scope[k] in scope;
    }
  }
}
