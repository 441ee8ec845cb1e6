/** The elastic work-in-progress policy: how many borrowed lanes to park, resume or open. */
module ElasticWip {

  const ACTIVE_LIMIT := 3
  const BORROWED_LIMIT := 2
  const CLAIM_LIMIT := ACTIVE_LIMIT + BORROWED_LIMIT
  const REVIEW_LIMIT := 1

  datatype Gate = Ready | Blocked | Unknown

  datatype Facts = Facts(
    active: nat,
    waitingCi: nat,
    waitingApproval: nat,
    waitingGlm: nat,
    waitingJev: nat,
    waitingExternal: nat,
    cooldown: nat,
    glmActiveChildren: nat,
    glmUnknownChildren: nat,
    returning: nat,
    blocked: nat,
    human: nat,
    borrowedActive: nat,
    borrowedParked: nat,
    review: nat,
    candidates: nat,
    scopeGate: Gate,
    claimGate: Gate,
    runtimeGate: Gate)
  {
    function BaseClaimed(): nat {
      active + waitingCi + waitingApproval + waitingGlm + waitingJev + waitingExternal + cooldown + returning + blocked + human
    }

    function BorrowedClaimed(): nat {
      borrowedActive + borrowedParked
    }

    function BorrowableWaits(): int {
      waitingCi + waitingApproval + (waitingGlm - glmActiveChildren - glmUnknownChildren) + waitingJev + waitingExternal + cooldown
    }

    /** Children of unknown state count as active. */
    function ActiveBase(): nat {
      active + glmActiveChildren + glmUnknownChildren
    }

    /** What the constructor of the facts enforces. */
    predicate Constructed() {
      glmActiveChildren + glmUnknownChildren <= waitingGlm
    }

    predicate GatesReady() {
      scopeGate == Ready && claimGate == Ready && runtimeGate == Ready
    }
  }

  datatype WipError =
    | OvercommitBase | OvercommitBorrowed | OvercommitClaims | OvercommitReview | OvercommitActive
    | ContractionImpossible | ActiveAssertion | ClaimAssertion

  datatype Verdict = Verdict(
    park: nat,
    resume: nat,
    borrow: nat,
    activeAfterContraction: int,
    activeAfterRefill: int,
    claimedAfterRefill: nat,
    contraction: bool,
    blockers: seq<string>)

  datatype Result = Ok(verdict: Verdict) | Err(error: WipError)

  function Max(a: int, b: int): int { if a >= b then a else b }

  function Min(a: int, b: int): int { if a <= b then a else b }

  function Occupancy(f: Facts): seq<WipError> {
    if f.BaseClaimed() > ACTIVE_LIMIT then [OvercommitBase]
    else if f.BorrowedClaimed() > BORROWED_LIMIT then [OvercommitBorrowed]
    else if f.BaseClaimed() + f.BorrowedClaimed() > CLAIM_LIMIT then [OvercommitClaims]
    else if f.review > REVIEW_LIMIT then [OvercommitReview]
    else if f.ActiveBase() + f.borrowedActive > ACTIVE_LIMIT then [OvercommitActive]
    else []
  }

  function GateBlocker(name: string, g: Gate): seq<string> {
    match g
    case Ready => []
    case Blocked => [name + "_BLOCKED"]
    case Unknown => [name + "_UNKNOWN"]
  }

  function GateBlockers(f: Facts): seq<string> {
    GateBlocker("SCOPE_GATE", f.scopeGate) + GateBlocker("CLAIM_GATE", f.claimGate) + GateBlocker("RUNTIME_GATE", f.runtimeGate)
  }

  function Classify(f: Facts): Result {
    var occupancy := Occupancy(f);
    if occupancy != [] then Err(occupancy[0])
    else
      var projected := f.ActiveBase() + f.returning + f.borrowedActive;
      var park := Max(0, Max(projected - ACTIVE_LIMIT, f.borrowedActive - f.BorrowableWaits()));
      if park > f.borrowedActive then Err(ContractionImpossible)
      else
        var kept := f.borrowedActive - park;
        var contracted := f.ActiveBase() + f.returning + kept;
        var admitted := Min(ACTIVE_LIMIT - contracted, Max(0, f.BorrowableWaits() - kept));
        var gates := GateBlockers(f);
        var open := gates == [] && admitted > 0;
        var resume := if open then Min(f.borrowedParked, admitted) else 0;
        var free := BORROWED_LIMIT - f.BorrowedClaimed();
        var borrow := if open then Min(admitted - resume, Min(free, f.candidates)) else 0;
        var idle := f.candidates == 0 && admitted > 0 && (open ==> admitted - resume > 0 && free > 0);
        var blockers := gates
          + (if f.glmUnknownChildren > 0 then ["WAITING_GLM_CHILD_STATUS_UNKNOWN"] else [])
          + (if idle then ["NO_INDEPENDENT_READY_WORK"] else []);
        if contracted + resume + borrow > ACTIVE_LIMIT then Err(ActiveAssertion)
        else if f.BaseClaimed() + f.BorrowedClaimed() + borrow > CLAIM_LIMIT then Err(ClaimAssertion)
        else
          Ok(Verdict(park, resume, borrow, contracted, contracted + resume + borrow,
                     f.BaseClaimed() + f.BorrowedClaimed() + borrow, park > 0, blockers))
  }

  /** Facts the occupancy check lets through. */
  predicate Valid(f: Facts) {
    f.Constructed() && Occupancy(f) == []
  }

  lemma ReadyGates(f: Facts)
    ensures GateBlockers(f) == [] <==> f.GatesReady()
  {
    assert |GateBlockers(f)| == (if f.scopeGate == Ready then 0 else 1) + (if f.claimGate == Ready then 0 else 1)
                                + (if f.runtimeGate == Ready then 0 else 1);
  }

  /** On validated facts the contraction error and both assertions are unreachable, and the number to
      park is the number of active borrowed lanes no wait makes room for. */
  lemma ClassifySucceeds(f: Facts)
    requires f.Constructed()
    ensures Classify(f).Ok? <==> Valid(f)
    ensures Valid(f) ==> Classify(f).verdict.park == Max(0, f.borrowedActive - f.BorrowableWaits())
    ensures Classify(f).Err? ==> Classify(f).error in {OvercommitBase, OvercommitBorrowed, OvercommitReview, OvercommitActive}
  {
    hide GateBlockers;
  }

  /** The facts once a verdict has been carried out: returned lanes are active, parked and resumed lanes
      have changed places, and new borrows have used up candidates. */
  function Carried(f: Facts, v: Verdict): Facts
    requires v.park <= f.borrowedActive && v.resume <= f.borrowedParked + v.park && v.borrow <= f.candidates
  {
    f.(active := f.active + f.returning,
       returning := 0,
       borrowedActive := f.borrowedActive - v.park + v.resume + v.borrow,
       borrowedParked := f.borrowedParked + v.park - v.resume,
       candidates := f.candidates - v.borrow)
  }

  lemma CanBeCarried(f: Facts)
    requires Valid(f)
    ensures var v := Classify(f).verdict;
            Classify(f).Ok? && v.park <= f.borrowedActive && v.resume <= f.borrowedParked && v.borrow <= f.candidates
  {
    hide GateBlockers;
    ClassifySucceeds(f);
  }

  lemma CarriedShape(f: Facts)
    requires Valid(f)
    ensures Classify(f).Ok? && Classify(f).verdict.park <= f.borrowedActive
    ensures Classify(f).verdict.resume <= f.borrowedParked && Classify(f).verdict.borrow <= f.candidates
    ensures var v, g := Classify(f).verdict, Carried(f, Classify(f).verdict);
            && Valid(g)
            && g.borrowedActive <= Max(0, g.BorrowableWaits())
            && v.activeAfterRefill == g.ActiveBase() + g.borrowedActive
            && v.claimedAfterRefill == g.BaseClaimed() + g.BorrowedClaimed()
  {
    hide GateBlockers;
    CanBeCarried(f);
  }

  /** No borrowed lane can be added: the gates are shut, there is no room, or nothing is left to add. */
  predicate Exhausted(f: Facts) {
    || !f.GatesReady()
    || f.ActiveBase() + f.borrowedActive >= ACTIVE_LIMIT || f.borrowedActive >= f.BorrowableWaits()
    || (f.borrowedParked == 0 && (f.BorrowedClaimed() == BORROWED_LIMIT || f.candidates == 0))
  }

  lemma CarriedExhausts(f: Facts)
    requires Valid(f)
    ensures Classify(f).Ok? && Classify(f).verdict.park <= f.borrowedActive
    ensures Classify(f).verdict.resume <= f.borrowedParked && Classify(f).verdict.borrow <= f.candidates
    ensures Exhausted(Carried(f, Classify(f).verdict))
  {
    ReadyGates(f);
    hide GateBlockers;
    CanBeCarried(f);
  }

  lemma ExhaustedRests(f: Facts)
    requires Valid(f) && Exhausted(f) && f.returning == 0 && f.borrowedActive <= Max(0, f.BorrowableWaits())
    ensures Classify(f).Ok?
    ensures var v := Classify(f).verdict; v.park == 0 && v.resume == 0 && v.borrow == 0 && !v.contraction
    ensures Classify(f).verdict.activeAfterRefill == f.ActiveBase() + f.borrowedActive
  {
    ReadyGates(f);
    hide GateBlockers;
  }

  /** The policy converges in one step: carrying out a verdict leaves valid facts whose own verdict asks
      for no parking, no resumption and no new borrow. */
  lemma ConvergesInOneStep(f: Facts)
    requires Valid(f)
    ensures var r := Classify(f);
            && r.Ok? && r.verdict.park <= f.borrowedActive && r.verdict.resume <= f.borrowedParked
            && r.verdict.borrow <= f.candidates
            && Valid(Carried(f, r.verdict))
            && var again := Classify(Carried(f, r.verdict));
               && again.Ok? && again.verdict.park == 0 && again.verdict.resume == 0 && again.verdict.borrow == 0
               && !again.verdict.contraction
               && again.verdict.activeAfterRefill == r.verdict.activeAfterRefill
  {
    hide Classify, Exhausted, Occupancy;
    CarriedShape(f);
    CarriedExhausts(f);
    ExhaustedRests(Carried(f, Classify(f).verdict));
  }

  /** Another way to act on the facts that respects the same limits. */
  predicate Respects(f: Facts, park: nat, resume: nat, borrow: nat) {
    && park <= f.borrowedActive && resume <= f.borrowedParked && borrow <= f.candidates
    && f.ActiveBase() + f.returning + f.borrowedActive - park + resume + borrow <= ACTIVE_LIMIT
    && f.borrowedActive - park + resume + borrow <= Max(0, f.BorrowableWaits())
    && f.BorrowedClaimed() + borrow <= BORROWED_LIMIT
  }

  /** The verdict is the best one: it respects the limits, parks no more than any way that does, and with
      the gates ready leaves no fewer borrowed lanes active; parked lanes resume before new ones open. */
  lemma VerdictIsBest(f: Facts, park: nat, resume: nat, borrow: nat)
    requires Valid(f) && Respects(f, park, resume, borrow)
    ensures var v := Classify(f).verdict;
            && Classify(f).Ok?
            && Respects(f, v.park, v.resume, v.borrow)
            && v.park <= park
            && (f.GatesReady() ==> f.borrowedActive - v.park + v.resume + v.borrow >= f.borrowedActive - park + resume + borrow)
            && (v.borrow > 0 ==> v.resume == f.borrowedParked)
            && (!f.GatesReady() ==> v.resume == 0 && v.borrow == 0)
  {
    ClassifySucceeds(f);
    ReadyGates(f);
    hide GateBlockers;
  }
}
