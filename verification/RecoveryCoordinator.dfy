/** The coordinator as it runs: one stored snapshot and history, rewritten by each call. */
module RecoveryCoordinator {
  import opened Recovery
  import opened RecoveryRate
  import opened RecoveryStarts
  import RecoveryAnswers

  class Coordinator {
    const policy: Policy
    var record: Option<Record>
    var history: seq<Event>
    /** Times of the start calls made, and every step taken. */
    ghost var starts: seq<real>
    ghost var steps: seq<Step>

    ghost predicate Valid()
      reads this
    {
      && Sound(policy)
      && World(record, history) == Run(policy, EMPTY, steps)
      && starts == StartTimes(history)
    }

    constructor (c: Policy)
      requires Sound(c)
      ensures Valid() && policy == c && record == None && history == [] && starts == []
    {
      policy, record, history, starts, steps := c, None, [], [], [];
    }

    ghost function Durable(): World
      reads this
    {
      World(record, history)
    }

    /** The one durable write: snapshot and event together. */
    method SaveWith(current: Record, next: Record, kind: Kind, at: real, reason: Option<string>)
      modifies this`record, this`history
      ensures Durable() == Save(old(Durable()), current, next, kind, at, reason)
    {
      record := Some(next);
      history := history + [Event(kind, current.state, next.state, at, reason, next.restarts)];
    }

    method Load(now: real) returns (current: Record)
      ensures current == Current(record, now)
    {
      if record.Some? {
        current := record.value;
      } else {
        current := Record(Stopped, false, 0, None, 0, None, None, None, now);
      }
    }

    method Suppress(now: real)
      requires Valid()
      modifies this
      ensures Valid() && steps == old(steps) + [Step.Suppress(now)] && starts == old(starts)
      ensures Durable() == Apply(policy, old(Durable()), Step.Suppress(now))
    {
      if now >= 0.0 {
        var current := Load(now);
        SaveWith(current, current.(state := Stopped, suppressed := true, nextRetry := None, updatedAt := now),
                 Suppressed, now, None);
      }
      Took(policy, steps, Step.Suppress(now), old(history), history);
      steps := steps + [Step.Suppress(now)];
    }

    method ManualStart(now: real)
      requires Valid()
      modifies this
      ensures Valid() && steps == old(steps) + [Step.ManualStart(now)] && starts == old(starts)
      ensures Durable() == Apply(policy, old(Durable()), Step.ManualStart(now))
    {
      if now >= 0.0 {
        var current := Load(now);
        var next := current.(state := Stopped, suppressed := false, failures := 0, windowStart := None,
                             nextRetry := None, updatedAt := now);
        SaveWith(current, next, ManualStarted, now, None);
      }
      Took(policy, steps, Step.ManualStart(now), old(history), history);
      steps := steps + [Step.ManualStart(now)];
    }

    /** The launcher: called only once the start is on record, and free to end in any way. */
    method StartInstance(now: real) returns (launch: Launch)
      requires record.Some? && record.value.state == Recovering
      requires history != [] && history[|history| - 1].kind.RecoveryStarted? && history[|history| - 1].at == now
      modifies this`starts
      ensures starts == old(starts) + [now]
    {
      starts := starts + [now];
      launch := *;
    }

    method FailedAttempt(current: Record, now: real, code: string)
      requires Sound(policy)
      modifies this`record, this`history
      ensures Durable() == Fail(policy, old(Durable()), current, now, code)
    {
      if Reason(code).None? {
        return;
      }
      var start, failures := now, 1;
      if current.windowStart.Some? && now - current.windowStart.value <= policy.window {
        start, failures := current.windowStart.value, current.failures + 1;
      }
      var state, retry := Degraded, None;
      if failures < policy.limit {
        var last := |policy.backoff| - 1;
        state, retry := Recovering, Some(now + policy.backoff[if failures - 1 < last then failures - 1 else last]);
      }
      var next := current.(state := state, failures := failures, windowStart := Some(start), exitReason := Reason(code),
                           exitAt := Some(now), nextRetry := retry, updatedAt := now);
      SaveWith(current, next, RecoveryFailed, now, Reason(code));
    }

    /** One health observation.  The answers of the callbacks are unconstrained; the step returned says
        which they were. */
    method Observe(now: real, health: Health, reason: string) returns (ghost step: Step)
      requires Valid()
      modifies this
      ensures Valid() && steps == old(steps) + [step]
      ensures step.Observe? && step.now == now && step.health == health && step.reason == reason
      ensures Durable() == Apply(policy, old(Durable()), step)
      // The launcher is called exactly when the history calls for it.
      ensures starts == if RecoveryAnswers.Owes(policy, old(history), step) then old(starts) + [now] else old(starts)
    {
      HistoryReplays(policy, steps);
      var cancelledFirst: bool, cancelledLater: bool, autostart: bool, launch: Launch := *, *, *, Lost;
      if now >= 0.0 && !cancelledFirst {
        var current := Load(now);
        match health {
          case Up =>
            if !(current.state == Ready && current.failures == 0 && current.windowStart.None? && current.nextRetry.None?) {
              var next := current.(state := Ready, failures := 0, windowStart := None, nextRetry := None, updatedAt := now);
              SaveWith(current, next, ReadyObserved, now, None);
            }
          case Unknown =>
            if record.None? {
              SaveWith(current, current, UnknownObserved, now, None);
            }
          case Down =>
            launch := Outage(current, now, reason, cancelledLater, autostart);
        }
      }
      step := Step.Observe(now, health, reason, cancelledFirst, cancelledLater, autostart, launch);
      RecoveryAnswers.StartsWhenOwed(policy, old(Durable()), step);
      Took(policy, steps, step, old(history), history);
      steps := steps + [step];
    }

    /** An observed outage: recorded, ignored, or answered with a start. */
    method Outage(current: Record, now: real, text: string, cancelled: bool, autostart: bool) returns (launch: Launch)
      requires Sound(policy) && current == Current(record, now) && now >= 0.0
      modifies this`record, this`history, this`starts
      ensures var step := Step.Observe(now, Down, text, false, cancelled, autostart, launch);
              && Durable() == ObserveDown(policy, old(Durable()), step)
              && starts == old(starts) + if Starts(old(Durable()), step) then [now] else []
    {
      launch := Lost;
      var reason := Reason(text);
      if current.suppressed {
        if (current.state == Stopped && current.nextRetry.None?) || reason.None? {
          return;
        }
        SaveWith(current, current.(state := Stopped, nextRetry := None, updatedAt := now), OutageObserved, now, reason);
        return;
      }
      if !autostart {
        if reason.None? || (current.state == Stopped && current.nextRetry.None? && current.exitReason == reason) {
          return;
        }
        var next := current.(state := Stopped, nextRetry := None, exitReason := reason, exitAt := Some(now), updatedAt := now);
        SaveWith(current, next, OutageObserved, now, reason);
        return;
      }
      if current.state == Degraded || (current.nextRetry.Some? && now < current.nextRetry.value) || cancelled || reason.None? {
        return;
      }
      var recovering := current.(state := Recovering, exitReason := reason, exitAt := Some(now), nextRetry := None,
                                 updatedAt := now);
      SaveWith(current, recovering, RecoveryStarted, now, reason);
      launch := StartInstance(now);
      match launch {
        case Lost =>
        case Raised => FailedAttempt(recovering, now, "RECOVERY_START_EXCEPTION");
        case Malformed => FailedAttempt(recovering, now, "RECOVERY_RESULT_INVALID");
        case Cancelled =>
          SaveWith(recovering, recovering.(state := Stopped, nextRetry := None, updatedAt := now), RecoveryCancelled, now, None);
        case Running(finished) =>
          if finished >= 0.0 {
            var next := recovering.(state := Ready, failures := 0, windowStart := None, restarts := recovering.restarts + 1,
                                    nextRetry := None, updatedAt := finished);
            SaveWith(recovering, next, RecoveryReady, finished, None);
          }
        case NotRunning(code) => FailedAttempt(recovering, now, code);
      }
    }
  }

  /** Times of the recorded starts. */
  function StartTimes(history: seq<Event>): seq<real> {
    if history == [] then []
    else
      var last := history[|history| - 1];
      StartTimes(history[..|history| - 1]) + if last.kind.RecoveryStarted? then [last.at] else []
  }

  lemma RunOne(c: Policy, w: World, steps: seq<Step>, s: Step)
    requires Sound(c)
    ensures Run(c, w, steps + [s]) == Apply(c, Run(c, w, steps), s)
  {
    hide Apply;
    assert (steps + [s])[..|steps|] == steps;
  }

  lemma StartTimesOne(h: seq<Event>, e: Event)
    ensures StartTimes(h + [e]) == StartTimes(h) + if e.kind.RecoveryStarted? then [e.at] else []
  {
    assert (h + [e])[..|h|] == h;
  }

  lemma SaveStarts(w: World, current: Record, record: Record, kind: Kind, at: real, reason: Option<string>)
    ensures StartTimes(Save(w, current, record, kind, at, reason).history)
         == StartTimes(w.history) + if kind.RecoveryStarted? then [at] else []
  {
    StartTimesOne(w.history, Event(kind, current.state, record.state, at, reason, record.restarts));
  }

  lemma FinishStarts(c: Policy, w: World, recovering: Record, now: real, launch: Launch)
    requires Sound(c)
    ensures StartTimes(Finish(c, w, recovering, now, launch).history) == StartTimes(w.history)
  {
    hide Reason, StartTimes;
    var h := Finish(c, w, recovering, now, launch).history;
    if h != w.history {
      assert h == w.history + [h[|w.history|]];
      StartTimesOne(w.history, h[|w.history|]);
    }
  }

  /** A start event is added exactly when the observation starts the connector. */
  lemma StepStarts(c: Policy, w: World, s: Step)
    requires Sound(c)
    ensures StartTimes(Apply(c, w, s).history) == StartTimes(w.history) + if Starts(w, s) then [s.now] else []
  {
    hide Reason, StartTimes, Finish;
    var current := Current(w.record, s.now);
    if Starts(w, s) {
      var recovering, reason := Started(current, s.now, Reason(s.reason)), Reason(s.reason);
      SaveStarts(w, current, recovering, RecoveryStarted, s.now, reason);
      FinishStarts(c, Save(w, current, recovering, RecoveryStarted, s.now, reason), recovering, s.now, s.launch);
    } else {
      var h := Apply(c, w, s).history;
      if h != w.history {
        assert h == w.history + [h[|w.history|]];
        StartTimesOne(w.history, h[|w.history|]);
      }
    }
  }

  lemma Took(c: Policy, steps: seq<Step>, s: Step, before: seq<Event>, after: seq<Event>)
    requires Sound(c)
    requires Run(c, EMPTY, steps).history == before && Apply(c, Run(c, EMPTY, steps), s).history == after
    ensures Run(c, EMPTY, steps + [s]) == Apply(c, Run(c, EMPTY, steps), s)
    ensures StartTimes(after) == StartTimes(before) + if Starts(Run(c, EMPTY, steps), s) then [s.now] else []
  {
    hide Apply, StartTimes, Starts;
    RunOne(c, EMPTY, steps, s);
    StepStarts(c, Run(c, EMPTY, steps), s);
  }
}
