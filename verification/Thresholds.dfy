/** Selecting the automatic-decision threshold of a confidence cascade, and the undecided band around 0.5. */
module Thresholds {

  datatype Option<T> = None | Some(value: T)

  /** One evaluated case.  Confidence and answer are `None` when absent, non-numeric or not finite. */
  datatype Outcome = Outcome(valid: bool, confidence: Option<real>, answer: Option<real>, correct: bool, expected: bool)

  datatype ChoiceSelection = ChoiceSelection(feasible: bool, threshold: real, auto: nat, falseAuto: nat)

  datatype NoulSelection = NoulSelection(feasible: bool, margin: real, band: (real, real), auto: nat, falseAuto: nat)

  // ---------------------------------------------------------------- choice thresholds

  predicate Usable(o: Outcome) {
    o.valid && o.confidence.Some?
  }

  predicate Auto(o: Outcome, t: real) {
    Usable(o) && o.confidence.value >= t
  }

  function AutoCount(os: seq<Outcome>, t: real): nat {
    if os == [] then 0
    else AutoCount(os[..|os| - 1], t) + if Auto(os[|os| - 1], t) then 1 else 0
  }

  function FalseCount(os: seq<Outcome>, t: real): nat {
    if os == [] then 0
    else FalseCount(os[..|os| - 1], t) + if Auto(os[|os| - 1], t) && !os[|os| - 1].correct then 1 else 0
  }

  /** Raising automation never loses cases: what is automatic at one threshold counts at another that
      covers it. */
  lemma {:induction false} AutoCovers(os: seq<Outcome>, t: real, u: real)
    requires forall i :: 0 <= i < |os| && Auto(os[i], t) ==> Auto(os[i], u)
    ensures AutoCount(os, t) <= AutoCount(os, u)
  {
    if os != [] {
      var n := |os| - 1;
      assert forall i :: 0 <= i < n ==> os[..n][i] == os[i];
      AutoCovers(os[..n], t, u);
    }
  }

  lemma {:induction false} FalseZero(os: seq<Outcome>, t: real)
    ensures FalseCount(os, t) == 0 <==> forall i :: 0 <= i < |os| && Auto(os[i], t) ==> os[i].correct
  {
    if os != [] {
      var n := |os| - 1;
      assert forall i :: 0 <= i < n ==> os[..n][i] == os[i];
      FalseZero(os[..n], t);
    }
  }

  lemma {:induction false} AutoZero(os: seq<Outcome>, t: real)
    ensures AutoCount(os, t) == 0 <==> forall i :: 0 <= i < |os| ==> !Auto(os[i], t)
  {
    if os != [] {
      var n := |os| - 1;
      assert forall i :: 0 <= i < n ==> os[..n][i] == os[i];
      AutoZero(os[..n], t);
    }
  }

  method MaxWrong(os: seq<Outcome>) returns (m: Option<real>)
    ensures m.None? ==> forall i :: 0 <= i < |os| && Usable(os[i]) ==> os[i].correct
    ensures m.Some? ==>
              && (exists i :: 0 <= i < |os| && Usable(os[i]) && !os[i].correct && os[i].confidence.value == m.value)
              && (forall i :: 0 <= i < |os| && Usable(os[i]) && !os[i].correct ==> os[i].confidence.value <= m.value)
  {
    m := None;
    for k := 0 to |os|
      invariant m.None? ==> forall i :: 0 <= i < k && Usable(os[i]) ==> os[i].correct
      invariant m.Some? ==>
                  && (exists i :: 0 <= i < k && Usable(os[i]) && !os[i].correct && os[i].confidence.value == m.value)
                  && (forall i :: 0 <= i < k && Usable(os[i]) && !os[i].correct ==> os[i].confidence.value <= m.value)
    {
      if Usable(os[k]) && !os[k].correct && (m.None? || os[k].confidence.value > m.value) {
        m := Some(os[k].confidence.value);
      }
    }
  }

  predicate Above(o: Outcome, bound: Option<real>) {
    Usable(o) && o.correct && (bound.Some? ==> o.confidence.value > bound.value)
  }

  /** Least confidence of a correct outcome above the bound. */
  method MinCorrect(os: seq<Outcome>, bound: Option<real>) returns (m: Option<real>)
    ensures m.None? ==> forall i :: 0 <= i < |os| ==> !Above(os[i], bound)
    ensures m.Some? ==>
              && (exists i :: 0 <= i < |os| && Above(os[i], bound) && os[i].confidence.value == m.value)
              && (forall i :: 0 <= i < |os| && Above(os[i], bound) ==> os[i].confidence.value >= m.value)
  {
    m := None;
    for k := 0 to |os|
      invariant m.None? ==> forall i :: 0 <= i < k ==> !Above(os[i], bound)
      invariant m.Some? ==>
                  && (exists i :: 0 <= i < k && Above(os[i], bound) && os[i].confidence.value == m.value)
                  && (forall i :: 0 <= i < k && Above(os[i], bound) ==> os[i].confidence.value >= m.value)
    {
      if Above(os[k], bound) && (m.None? || os[k].confidence.value < m.value) {
        m := Some(os[k].confidence.value);
      }
    }
  }

  method Stats(os: seq<Outcome>, t: real) returns (auto: nat, falseAuto: nat)
    ensures auto == AutoCount(os, t) && falseAuto == FalseCount(os, t)
  {
    auto, falseAuto := 0, 0;
    for k := 0 to |os|
      invariant auto == AutoCount(os[..k], t) && falseAuto == FalseCount(os[..k], t)
    {
      assert os[..k + 1][..k] == os[..k];
      if Auto(os[k], t) {
        auto := auto + 1;
        if !os[k].correct {
          falseAuto := falseAuto + 1;
        }
      }
    }
    assert os[..|os|] == os;
  }

  /** A feasible threshold decides nothing wrongly and as much as any threshold that decides nothing
      wrongly; when the result is infeasible, no threshold decides anything without a wrong decision. */
  method SelectChoiceThreshold(os: seq<Outcome>) returns (r: ChoiceSelection)
    ensures r.auto == AutoCount(os, r.threshold) && r.falseAuto == FalseCount(os, r.threshold)
    ensures r.feasible ==>
              && r.falseAuto == 0 && r.auto > 0
              && forall t: real :: FalseCount(os, t) == 0 ==> AutoCount(os, t) <= r.auto
    ensures !r.feasible ==> forall t: real :: FalseCount(os, t) == 0 ==> AutoCount(os, t) == 0
  {
    var wrong := MaxWrong(os);
    var nearest := MinCorrect(os, wrong);
    if nearest.None? {
      NothingSafe(os, wrong);
      var auto, falseAuto := Stats(os, 1.0);
      return ChoiceSelection(false, 1.0, auto, falseAuto);
    }
    var threshold := if wrong.None? then nearest.value else (wrong.value + nearest.value) / 2.0;
    var auto, falseAuto := Stats(os, threshold);
    SafeIsBest(os, wrong, nearest.value, threshold);
    r := ChoiceSelection(falseAuto == 0, threshold, auto, falseAuto);
  }

  /** What the scan for the greatest wrong confidence finds. */
  predicate IsMaxWrong(os: seq<Outcome>, wrong: Option<real>) {
    if wrong.None? then forall i :: 0 <= i < |os| && Usable(os[i]) ==> os[i].correct
    else
      && (exists i :: 0 <= i < |os| && Usable(os[i]) && !os[i].correct && os[i].confidence.value == wrong.value)
      && (forall i :: 0 <= i < |os| && Usable(os[i]) && !os[i].correct ==> os[i].confidence.value <= wrong.value)
  }

  lemma NothingSafe(os: seq<Outcome>, wrong: Option<real>)
    requires IsMaxWrong(os, wrong) && forall i :: 0 <= i < |os| ==> !Above(os[i], wrong)
    ensures forall t: real :: FalseCount(os, t) == 0 ==> AutoCount(os, t) == 0
  {
    forall t: real | FalseCount(os, t) == 0 ensures AutoCount(os, t) == 0 {
      FalseZero(os, t);
      AutoZero(os, t);
    }
  }

  lemma SafeIsBest(os: seq<Outcome>, wrong: Option<real>, nearest: real, threshold: real)
    requires IsMaxWrong(os, wrong)
    requires exists i :: 0 <= i < |os| && Above(os[i], wrong) && os[i].confidence.value == nearest
    requires forall i :: 0 <= i < |os| && Above(os[i], wrong) ==> os[i].confidence.value >= nearest
    requires threshold == if wrong.None? then nearest else (wrong.value + nearest) / 2.0
    ensures FalseCount(os, threshold) == 0 && AutoCount(os, threshold) > 0
    ensures forall t: real :: FalseCount(os, t) == 0 ==> AutoCount(os, t) <= AutoCount(os, threshold)
  {
    FalseZero(os, threshold);
    AutoZero(os, threshold);
    forall t: real | FalseCount(os, t) == 0 ensures AutoCount(os, t) <= AutoCount(os, threshold) {
      FalseZero(os, t);
      forall i | 0 <= i < |os| && Auto(os[i], t) ensures Auto(os[i], threshold) {
        assert os[i].correct;
      }
      AutoCovers(os, t, threshold);
    }
  }

  // ---------------------------------------------------------------- the undecided band

  predicate NoulUsable(o: Outcome) {
    o.valid && o.answer.Some?
  }

  /** Decided automatically: outside the band of this margin around 0.5. */
  predicate NoulAuto(o: Outcome, margin: real) {
    NoulUsable(o) && (o.answer.value < 0.5 - margin || o.answer.value > 0.5 + margin)
  }

  predicate NoulWrong(o: Outcome) {
    o.answer.Some? && (o.answer.value >= 0.5) != o.expected
  }

  function NoulCount(os: seq<Outcome>, margin: real): nat {
    if os == [] then 0
    else NoulCount(os[..|os| - 1], margin) + if NoulAuto(os[|os| - 1], margin) then 1 else 0
  }

  function NoulFalse(os: seq<Outcome>, margin: real): nat {
    if os == [] then 0
    else NoulFalse(os[..|os| - 1], margin) + if NoulAuto(os[|os| - 1], margin) && NoulWrong(os[|os| - 1]) then 1 else 0
  }

  function Grid(step: nat): real {
    step as real / 20.0
  }

  const STEPS := 11

  lemma {:induction false} NoulFalseZero(os: seq<Outcome>, m: real)
    ensures NoulFalse(os, m) == 0 <==> forall i :: 0 <= i < |os| && NoulAuto(os[i], m) ==> !NoulWrong(os[i])
  {
    if os != [] {
      var n := |os| - 1;
      assert forall i :: 0 <= i < n ==> os[..n][i] == os[i];
      NoulFalseZero(os[..n], m);
    }
  }

  /** A wider band decides no more, and what it decides wrongly the narrower one did too. */
  lemma {:induction false} WiderDecidesLess(os: seq<Outcome>, m: real, wider: real)
    requires m <= wider
    ensures NoulCount(os, wider) <= NoulCount(os, m) && NoulFalse(os, wider) <= NoulFalse(os, m)
  {
    if os != [] {
      WiderDecidesLess(os[..|os| - 1], m, wider);
    }
  }

  method NoulStats(os: seq<Outcome>, m: real) returns (auto: nat, falseAuto: nat)
    ensures auto == NoulCount(os, m) && falseAuto == NoulFalse(os, m)
  {
    auto, falseAuto := 0, 0;
    for k := 0 to |os|
      invariant auto == NoulCount(os[..k], m) && falseAuto == NoulFalse(os[..k], m)
    {
      assert os[..k + 1][..k] == os[..k];
      if NoulAuto(os[k], m) {
        auto := auto + 1;
        if NoulWrong(os[k]) {
          falseAuto := falseAuto + 1;
        }
      }
    }
    assert os[..|os|] == os;
  }

  /** A margin of the grid that decides nothing wrongly. */
  predicate Candidate(os: seq<Outcome>, step: nat) {
    step < STEPS && NoulFalse(os, Grid(step)) == 0
  }

  /** The widest grid margin that decides nothing wrongly and as much as any such margin.  Infeasible
      exactly when some usable answer outside [0, 1] is wrong. */
  method SelectNoulMargin(os: seq<Outcome>) returns (r: NoulSelection)
    ensures r.auto == NoulCount(os, r.margin) && r.falseAuto == NoulFalse(os, r.margin)
    ensures r.feasible ==>
              && (exists step: nat :: Candidate(os, step) && r.margin == Grid(step))
              && r.band == (0.5 - r.margin, 0.5 + r.margin)
              && (forall step: nat :: Candidate(os, step) ==> NoulCount(os, Grid(step)) <= r.auto)
              && (forall step: nat :: Candidate(os, step) && NoulCount(os, Grid(step)) == r.auto ==> Grid(step) <= r.margin)
    ensures !r.feasible ==> r.margin == 0.5 && r.falseAuto > 0
    ensures !r.feasible <==>
              exists i :: 0 <= i < |os| && NoulUsable(os[i]) && !(0.0 <= os[i].answer.value <= 1.0) && NoulWrong(os[i])
  {
    var found, best, at := false, 0, 0;
    for step := 0 to STEPS
      invariant !found ==> forall s: nat :: s < step ==> !Candidate(os, s)
      invariant found ==> at < step && Candidate(os, at) && best == NoulCount(os, Grid(at))
      invariant found ==> forall s: nat :: s < step && Candidate(os, s) ==>
                                             NoulCount(os, Grid(s)) <= best && (NoulCount(os, Grid(s)) == best ==> s <= at)
    {
      var auto, falseAuto := NoulStats(os, Grid(step));
      if falseAuto == 0 && (!found || auto >= best) {
        found, best, at := true, auto, step;
      }
    }
    Edge(os);
    if found {
      assert at <= 10;
      WiderDecidesLess(os, Grid(at), 0.5);
      var _, falseAuto := NoulStats(os, Grid(at));
      r := NoulSelection(true, Grid(at), (0.5 - Grid(at), 0.5 + Grid(at)), best, falseAuto);
    } else {
      var auto, falseAuto := NoulStats(os, 0.5);
      r := NoulSelection(false, 0.5, (0.0, 1.0), auto, falseAuto);
    }
  }

  /** The widest margin of the grid decides only what lies outside [0, 1]. */
  lemma Edge(os: seq<Outcome>)
    ensures Grid(10) == 0.5
    ensures NoulFalse(os, 0.5) > 0 <==>
              exists i :: 0 <= i < |os| && NoulUsable(os[i]) && !(0.0 <= os[i].answer.value <= 1.0) && NoulWrong(os[i])
    ensures Candidate(os, 10) <==> NoulFalse(os, 0.5) == 0
  {
    NoulFalseZero(os, 0.5);
  }

  /** For answers in [0, 1] the infeasible branch is dead. */
  lemma AnswersInRangeAreFeasible(os: seq<Outcome>)
    requires forall i :: 0 <= i < |os| && NoulUsable(os[i]) ==> 0.0 <= os[i].answer.value <= 1.0
    ensures Candidate(os, 10) && NoulCount(os, Grid(10)) == 0
  {
    Edge(os);
    NoneOutside(os);
  }

  lemma {:induction false} NoneOutside(os: seq<Outcome>)
    requires forall i :: 0 <= i < |os| && NoulUsable(os[i]) ==> 0.0 <= os[i].answer.value <= 1.0
    ensures NoulCount(os, 0.5) == 0
  {
    if os != [] {
      var n := |os| - 1;
      assert forall i :: 0 <= i < n ==> os[..n][i] == os[i];
      NoneOutside(os[..n]);
    }
  }
}
