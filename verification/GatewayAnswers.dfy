/** What the gateway must answer: exactly when it admits, what each denial says, and which scope items are safe. */
module GatewayAnswers {
  import opened Gateway

  // ---------------------------------------------------------------- safe scope items

  predicate Separates(c: char) {
    c == '/' || c == '\\'
  }

  /** `p` is the text between two separators, or between one and an end of the item. */
  predicate Run(s: string, i: nat, j: nat, p: string) {
    && i <= j <= |s| && s[i..j] == p
    && (i == 0 || Separates(s[i - 1])) && (j == |s| || Separates(s[j]))
    && forall k :: i <= k < j ==> !Separates(s[k])
  }

  ghost predicate Inner(s: string, p: string) {
    exists i: nat, j: nat :: j < |s| && Run(s, i, j, p)
  }

  ghost predicate Last(s: string, p: string) {
    exists i: nat :: Run(s, i, |s|, p)
  }

  lemma RunBefore(s: string, c: char, i: nat, j: nat, p: string)
    requires j < |s|
    ensures Run(s + [c], i, j, p) <==> Run(s, i, j, p)
  {
    assert forall k :: 0 <= k < |s| ==> (s + [c])[k] == s[k];
    if i <= j {
      assert (s + [c])[i..j] == s[i..j];
    }
  }

  lemma RunToEnd(s: string, c: char, i: nat, p: string)
    ensures Separates(c) ==> (Run(s + [c], i, |s|, p) <==> Run(s, i, |s|, p))
    ensures !Separates(c) ==> !Run(s + [c], i, |s|, p)
  {
    if i <= |s| {
      assert (s + [c])[i..|s|] == s[i..];
      assert s[i..|s|] == s[i..];
    }
  }

  lemma RunPast(s: string, c: char, i: nat, p: string)
    ensures Separates(c) ==> (Run(s + [c], i, |s| + 1, p) <==> i == |s| + 1 && p == "")
    ensures !Separates(c) ==> (Run(s + [c], i, |s| + 1, p + [c]) <==> Run(s, i, |s|, p))
    ensures !Separates(c) && Run(s + [c], i, |s| + 1, p) ==> p != "" && p == p[..|p| - 1] + [c]
  {
    var t := s + [c];
    if i <= |s| {
      assert t[i..] == s[i..] + [c] && t[i..|s| + 1] == t[i..] && s[i..|s|] == s[i..];
      assert t[|s|] == c;
      if p + [c] == s[i..] + [c] {
        assert p == (p + [c])[..|p|] && s[i..] == (s[i..] + [c])[..|s| - i];
      }
    }
  }

  lemma InnerNext(s: string, c: char, p: string)
    ensures Inner(s + [c], p) <==> Inner(s, p) || (Separates(c) && Last(s, p))
  {
    hide Run;
    forall i: nat, j: nat | j < |s| ensures Run(s + [c], i, j, p) <==> Run(s, i, j, p) {
      RunBefore(s, c, i, j, p);
    }
    forall i: nat ensures Run(s + [c], i, |s|, p) <==> Separates(c) && Run(s, i, |s|, p) {
      RunToEnd(s, c, i, p);
    }
    if Inner(s + [c], p) {
      var i: nat, j: nat :| j < |s + [c]| && Run(s + [c], i, j, p);
      assert j < |s| || j == |s|;
    }
    if Inner(s, p) {
      var i: nat, j: nat :| j < |s| && Run(s, i, j, p);
      assert Run(s + [c], i, j, p);
    }
    if Separates(c) && Last(s, p) {
      var i: nat :| Run(s, i, |s|, p);
      assert Run(s + [c], i, |s|, p);
    }
  }

  lemma LastNext(s: string, c: char, p: string)
    ensures Separates(c) ==> (Last(s + [c], p) <==> p == "")
    ensures !Separates(c) ==> (Last(s + [c], p) <==> p != "" && p[|p| - 1] == c && Last(s, p[..|p| - 1]))
  {
    hide Run;
    assert |s + [c]| == |s| + 1;
    var init := if p != "" then p[..|p| - 1] else "";
    if Last(s + [c], p) {
      var i: nat :| Run(s + [c], i, |s| + 1, p);
      RunPast(s, c, i, p);
      RunPast(s, c, i, init);
    }
    if Separates(c) && p == "" {
      RunPast(s, c, |s| + 1, p);
      assert Run(s + [c], |s| + 1, |s| + 1, p);
    }
    if !Separates(c) && p != "" && p[|p| - 1] == c && Last(s, init) {
      var i: nat :| Run(s, i, |s|, init);
      RunPast(s, c, i, init);
      assert p == init + [c];
      assert Run(s + [c], i, |s| + 1, p);
    }
  }

  /** The components are the runs: the last one ends the item, the others end at a separator. */
  lemma {:induction false} ComponentsAreRuns(s: string, p: string)
    ensures var parts := Components(s);
            && (p in parts[..|parts| - 1] <==> Inner(s, p))
            && (p == parts[|parts| - 1] <==> Last(s, p))
  {
    hide Inner, Last, Run;
    if s == "" {
      EmptyRuns(p);
    } else {
      var n := |s| - 1;
      var init, c := s[..n], s[n];
      assert s == init + [c];
      var before := Components(init);
      ComponentsAreRuns(init, p);
      InnerNext(init, c, p);
      LastNext(init, c, p);
      if Separates(c) {
        assert before == before[..|before| - 1] + [before[|before| - 1]];
      } else if p != "" {
        ComponentsAreRuns(init, p[..|p| - 1]);
        assert p == p[..|p| - 1] + [p[|p| - 1]];
      }
    }
  }

  lemma EmptyRuns(p: string)
    ensures !Inner("", p) && (Last("", p) <==> p == "")
  {
    if p == "" {
      assert Run("", 0, 0, p);
    }
  }

  /** A scope item is safe when it is a plain reference without a colon, and nothing between its slashes of
      either kind is empty, a dot or two dots; so it is relative and does not climb. */
  lemma SafeItems(s: string)
    ensures ScopeItemSafe(s) <==>
              PlainRef(s) && ':' !in s
              && forall i: nat, j: nat, p: string :: Run(s, i, j, p) ==> Proper(p)
  {
    hide PlainRef, Run, Components, Proper;
    PartsProper(Components(s));
    forall p: string ensures p in Components(s) <==> exists i: nat, j: nat :: Run(s, i, j, p) {
      ComponentsAreRuns(s, p);
      var parts := Components(s);
      assert parts == parts[..|parts| - 1] + [parts[|parts| - 1]];
      forall i: nat, j: nat | Run(s, i, j, p) ensures Inner(s, p) || Last(s, p) {
        RunEnds(s, i, j, p);
      }
    }
    if PlainRef(s) {
      Nonempty(s);
      if Separates(s[0]) {
        FirstRun(s);
      }
    }
  }

  predicate Proper(p: string) {
    p != "" && p != "." && p != ".."
  }

  lemma PartsProper(parts: seq<string>)
    ensures (forall i :: 0 <= i < |parts| ==> parts[i] !in {"", ".", ".."}) <==> forall p :: p in parts ==> Proper(p)
    ensures !Proper("")
  {
    if forall p :: p in parts ==> Proper(p) {
      forall i | 0 <= i < |parts| ensures parts[i] !in {"", ".", ".."} {
        assert parts[i] in parts && Proper(parts[i]);
      }
    }
    if forall i :: 0 <= i < |parts| ==> parts[i] !in {"", ".", ".."} {
      forall p | p in parts ensures Proper(p) {
        var i :| 0 <= i < |parts| && parts[i] == p;
      }
    }
  }

  lemma RunEnds(s: string, i: nat, j: nat, p: string)
    requires Run(s, i, j, p)
    ensures j < |s| || j == |s|
  {
  }

  lemma FirstRun(s: string)
    requires s != "" && Separates(s[0])
    ensures Run(s, 0, 0, "")
  {
  }

  lemma Nonempty(s: string)
    requires PlainRef(s)
    ensures s != ""
  {
  }

  // ---------------------------------------------------------------- exact admission

  /** Every reference is plain or absent, every count positive, and the label is the action's own class. */
  predicate Shaped(r: Request) {
    && Fields(r)
    && (Mutating(r.inner.action) <==> r.intent.Mutate?)
    && (if r.intent.Mutate? then PlainRef(r.taskRef) && PlainRef(r.claimRef)
        else EmptyOrPlain(r.taskRef) && EmptyOrPlain(r.claimRef) && EmptyOrPlain(r.fenceRef))
  }

  function Refs(n: Inner): set<Option<string>> {
    {n.jobId, n.operationRef, n.evidenceRef, n.checkpointRef, n.workOrderRef, n.projectId, n.workerId}
  }

  predicate Fields(r: Request) {
    && (forall o :: o in Refs(r.inner) && o.Some? ==> PlainRef(o.value))
    && (r.inner.expectedVersion.Some? ==> r.inner.expectedVersion.value >= 1)
    && (r.inner.maxAttempts.Some? ==> r.inner.maxAttempts.value >= 1)
    && PlainRef(r.repoRoot) && PlainRef(r.worktree) && PlainRef(r.branch) && PlainRef(r.headSha)
    && forall item :: item in r.scope ==> ScopeItemSafe(item)
  }

  /** Everything a mutating command has to show. */
  ghost predicate Evidenced(r: Request, a: Authorities) {
    && a.lease.Given? && a.lease.value.active
    && a.lease.value.taskRef == r.taskRef && a.lease.value.claimRef == r.claimRef
    && (forall p :: p in a.lease.value.scope ==> ScopeItemSafe(p))
    && (forall item :: item in r.scope ==> Inside(a.lease.value.scope, item))
    && a.identity == Given(Observed(r.repoRoot, r.worktree, r.branch, r.headSha))
    && a.dedupe == Given(SafeToLaunch)
    && PlainRef(r.fenceRef) && a.fence == Given(HeldHere)
  }

  lemma ShapeMeans(r: Request)
    ensures ShapeError(r).None? <==> Shaped(r)
    ensures ShapeError(r) == Some(IntentEscalation) ==> Fields(r) && (Mutating(r.inner.action) != r.intent.Mutate?)
    ensures ShapeError(r).Some? && ShapeError(r).value != IntentEscalation ==> ShapeError(r).value == MalformedRequest && !Shaped(r)
    ensures Fields(r) && (Mutating(r.inner.action) != r.intent.Mutate?) ==> ShapeError(r) == Some(IntentEscalation)
  {
    hide PlainRef, ScopeItemSafe, Mutating;
    assert (forall item :: item in r.scope ==> ScopeItemSafe(item))
      <==> !exists i :: 0 <= i < |r.scope| && !ScopeItemSafe(r.scope[i]);
    FieldsMeans(r);
  }

  lemma FieldsMeans(r: Request)
    ensures var n := r.inner;
            (forall o :: o in Refs(n) && o.Some? ==> PlainRef(o.value))
            <==> RefOk(n.jobId) && RefOk(n.operationRef) && RefOk(n.evidenceRef) && RefOk(n.checkpointRef)
                 && RefOk(n.workOrderRef) && RefOk(n.projectId) && RefOk(n.workerId)
  {
    hide PlainRef;
  }

  lemma InsideMeans(scope: seq<string>, item: string)
    requires forall p :: p in scope ==> ScopeItemSafe(p)
    ensures Covered(scope, item) <==> Inside(scope, item)
  {
    hide ScopeItemSafe, Covers, Parts, EndsWith;
    forall p | p in scope
      ensures Covers(p, item) <==> p == item || Below(p, item)
    {
      BelowMeans(p, item);
      CoversByComponent(p, item);
    }
    forall p ensures Below(p, item) <==> EndsWith(p, "/**") && |p| >= 3 && Parts(p[..|p| - 3]) < Parts(item) {
      BelowMeans(p, item);
    }
    if Covered(scope, item) {
      var i :| 0 <= i < |scope| && Covers(scope[i], item);
      assert scope[i] in scope;
    }
    if exists p :: p in scope && (p == item || Below(p, item)) {
      var p :| p in scope && (p == item || Below(p, item));
      var i :| 0 <= i < |scope| && scope[i] == p;
      assert Covers(scope[i], item);
    }
    InsideBelow(scope, item);
  }

  /** The item lies below the directory of a double-star pattern. */
  predicate Below(p: string, item: string) {
    EndsWith(p, "/**") && Parts(p[..|p| - 3]) < Parts(item)
  }

  lemma BelowMeans(p: string, item: string)
    ensures Below(p, item) <==> EndsWith(p, "/**") && |p| >= 3 && Parts(p[..|p| - 3]) < Parts(item)
    ensures EndsWith(p, "/**") ==> |p| >= 3
  {
    hide Parts;
  }

  lemma InsideBelow(scope: seq<string>, item: string)
    ensures Inside(scope, item) <==> exists p :: p in scope && (p == item || Below(p, item))
  {
    hide Parts;
    if exists p :: p in scope && (p == item || Below(p, item)) {
      var p :| p in scope && (p == item || Below(p, item));
      assert p == item || (EndsWith(p, "/**") && Parts(p[..|p| - 3]) < Parts(item));
    }
  }

  /** Admitted exactly: a well-shaped request of its own class, and for a mutating one the whole evidence. */
  lemma AdmissionIsExact(r: Request, a: Authorities, sha: string -> string)
    ensures Decide(r, a, sha).Admit? <==> Shaped(r) && (r.intent.Mutate? ==> Evidenced(r, a))
    ensures Decide(r, a, sha).Admit? ==> Decide(r, a, sha).digest == sha(Payload(r, r.intent.Mutate?, BoundScope(r, a)))
  {
    hide ShapeError, Shaped, Payload, PlainRef, ScopeItemSafe, Covered, Inside;
    ShapeMeans(r);
    if a.lease.Given? {
      ScopesMean(r, a.lease.value.scope);
    }
  }

  lemma ScopesMean(r: Request, scope: seq<string>)
    ensures (forall p :: p in scope ==> ScopeItemSafe(p)) <==> !exists i :: 0 <= i < |scope| && !ScopeItemSafe(scope[i])
    ensures (forall p :: p in scope ==> ScopeItemSafe(p)) ==>
              ((forall item :: item in r.scope ==> Inside(scope, item)) <==> !exists i :: 0 <= i < |r.scope| && !Covered(scope, r.scope[i]))
  {
    hide ScopeItemSafe, Covered, Inside;
    if forall p :: p in scope ==> ScopeItemSafe(p) {
      forall item ensures Covered(scope, item) <==> Inside(scope, item) {
        InsideMeans(scope, item);
      }
    }
  }

  /** What each denial says. */
  ghost predicate Says(r: Request, a: Authorities, reason: Reason) {
    match reason
    case MalformedRequest => !Shaped(r)
    case IntentEscalation => Fields(r) && (Mutating(r.inner.action) != r.intent.Mutate?)
    case AuthorityError => a.lease.Raised? || a.identity.Raised? || a.dedupe.Raised? || a.fence.Raised?
    case ClaimMissing => a.lease.Absent?
    case ClaimStale => a.lease.Given? && !a.lease.value.active
    case TaskMissing => a.lease.Given? && (a.lease.value.taskRef != r.taskRef || a.lease.value.claimRef != r.claimRef)
    case ScopeDrift =>
      a.lease.Given? && ((exists p :: p in a.lease.value.scope && !ScopeItemSafe(p))
                         || exists item :: item in r.scope && !Inside(a.lease.value.scope, item))
    case IdentityDrift => !a.identity.Raised? && a.identity != Given(Observed(r.repoRoot, r.worktree, r.branch, r.headSha))
    case DuplicateUnknown => !a.dedupe.Raised? && a.dedupe != Given(SafeToLaunch)
    case FenceMissing => !PlainRef(r.fenceRef) || a.fence.Absent?
    case FenceStale => a.fence.Given? && a.fence.value != HeldHere
  }

  /** A denial is true of its request, and what is said about an authority is said of a mutating one only. */
  lemma DenialsAreTrue(r: Request, a: Authorities, sha: string -> string)
    requires Decide(r, a, sha).Deny?
    ensures Says(r, a, Decide(r, a, sha).reason)
    ensures Decide(r, a, sha).reason !in {MalformedRequest, IntentEscalation} ==> Mutating(r.inner.action) && Shaped(r)
  {
    hide ShapeError, Shaped, Fields, Mutating, Payload, PlainRef, ScopeItemSafe, Covered, Inside;
    ShapeMeans(r);
    ClassOf(r);
    if a.lease.Given? {
      ScopesMean(r, a.lease.value.scope);
    }
  }

  lemma ClassOf(r: Request)
    ensures Shaped(r) ==> (Mutating(r.inner.action) <==> r.intent.Mutate?)
  {
  }

  /** A mutating command whose evidence is in order but whose fence reference is not plain is refused for it. */
  lemma FenceIsRequired(r: Request, a: Authorities, sha: string -> string)
    requires Shaped(r) && r.intent.Mutate? && !PlainRef(r.fenceRef)
    requires exists ref: string :: Evidenced(r.(fenceRef := ref), a)
    ensures Decide(r, a, sha) == Deny(FenceMissing)
  {
    hide ShapeError, Shaped, Payload, PlainRef, ScopeItemSafe, Covered, Inside;
    ShapeMeans(r);
    ScopesMean(r, a.lease.value.scope);
  }
}
