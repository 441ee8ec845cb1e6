/** What every step must put on record, read off the history before it: an outage that nothing speaks against
    is answered with a start, and nothing else is. */
module RecoveryAnswers {
  import opened Chars
  import opened Recovery
  import R = RecoveryRate

  /** The snapshot that a history rebuilds; without one the connector counts as stopped and untried. */
  function Known(c: Policy, history: seq<Event>, now: real): Record
    requires Sound(c)
  {
    match Replay(c, history)
    case Some(r) => r
    case None => Record(Stopped, false, 0, None, 0, None, None, None, now)
  }

  /** Suppression, degradation and a pending retry are all that hold a start back. */
  predicate Due(r: Record, now: real) {
    !r.suppressed && r.state != Degraded && (r.nextRetry.Some? ==> r.nextRetry.value <= now)
  }

  /** A reason code that a record accepts. */
  predicate Accepted(s: string) {
    && |s| <= 128 && (exists i :: 0 <= i < |s| && !IsSpace(s[i]))
    && forall i :: 0 <= i < |s| ==> s[i] != '\0' && s[i] != '\r' && s[i] != '\n'
  }

  predicate OutageNow(s: Step) {
    s.Observe? && s.now >= 0.0 && s.health == Down && !s.cancelledFirst
  }

  predicate Is(e: Event, kind: Kind, at: real) {
    e.kind == kind && e.at == at
  }

  /** How a start that ended as `launch` is recorded. */
  predicate Reports(events: seq<Event>, now: real, launch: Launch) {
    match launch
    case Lost => events == []
    case Raised => |events| == 1 && Is(events[0], RecoveryFailed, now) && events[0].reason == Some("RECOVERY_START_EXCEPTION")
    case Malformed => |events| == 1 && Is(events[0], RecoveryFailed, now) && events[0].reason == Some("RECOVERY_RESULT_INVALID")
    case Cancelled => |events| == 1 && Is(events[0], RecoveryCancelled, now)
    case Running(finished) =>
      if finished < 0.0 then events == [] else |events| == 1 && Is(events[0], RecoveryReady, finished)
    case NotRunning(code) =>
      if Accepted(code) then |events| == 1 && Is(events[0], RecoveryFailed, now) else events == []
  }

  /** The events of one step, from the snapshot before it. */
  predicate Answers(known: Option<Record>, r: Record, s: Step, events: seq<Event>) {
    if s.now < 0.0 then events == []
    else
      match s
      case Suppress(now) => |events| == 1 && Is(events[0], Suppressed, now)
      case ManualStart(now) => |events| == 1 && Is(events[0], ManualStarted, now)
      case Observe(now, health, reason, cancelledFirst, cancelledLater, autostart, launch) =>
        if cancelledFirst then events == []
        else if health == Up then
          if r.state == Ready && r.failures == 0 && r.windowStart.None? && r.nextRetry.None? then events == []
          else |events| == 1 && Is(events[0], ReadyObserved, now)
        else if health == Unknown then
          if known.None? then |events| == 1 && Is(events[0], UnknownObserved, now) else events == []
        else if !Accepted(reason) then events == []
        else if r.suppressed || !autostart then
          if r.state == Stopped && r.nextRetry.None? && (r.suppressed || r.exitReason == Some(Trim(reason))) then events == []
          else |events| == 1 && Is(events[0], OutageObserved, now) && events[0].reason == Some(Trim(reason))
        else if Due(r, now) && !cancelledLater then
          |events| >= 1 && Is(events[0], RecoveryStarted, now) && events[0].reason == Some(Trim(reason))
          && Reports(events[1..], now, launch)
        else events == []
  }

  lemma {:induction false} TrimEmpty(s: string)
    ensures Trim(s) == "" <==> forall i :: 0 <= i < |s| ==> IsSpace(s[i])
  {
    if s != "" {
      if IsSpace(s[0]) {
        TrimEmpty(s[1..]);
        assert forall i :: 0 < i < |s| ==> s[i] == s[1..][i - 1];
      } else if IsSpace(s[|s| - 1]) {
        TrimEmpty(s[..|s| - 1]);
        assert s[..|s| - 1][0] == s[0];
      }
    }
  }

  lemma AcceptedReasons(s: string)
    ensures Reason(s) == if Accepted(s) then Some(Trim(s)) else None
  {
    TrimEmpty(s);
  }

  lemma OwnCodes()
    ensures Reason("RECOVERY_START_EXCEPTION") == Some("RECOVERY_START_EXCEPTION")
    ensures Reason("RECOVERY_RESULT_INVALID") == Some("RECOVERY_RESULT_INVALID")
  {
    hide Reason;
    R.PlainReason("RECOVERY_START_EXCEPTION");
    R.PlainReason("RECOVERY_RESULT_INVALID");
  }

  lemma Appended(w: World, current: Record, record: Record, kind: Kind, at: real, reason: Option<string>)
    ensures var h := Save(w, current, record, kind, at, reason).history;
            |h| == |w.history| + 1 && h[..|w.history|] == w.history && Is(h[|w.history|], kind, at) && h[|w.history|].reason == reason
  {
  }

  lemma FinishReports(c: Policy, w: World, recovering: Record, now: real, launch: Launch)
    requires Sound(c)
    ensures w.history <= Finish(c, w, recovering, now, launch).history
    ensures Reports(Finish(c, w, recovering, now, launch).history[|w.history|..], now, launch)
  {
    hide Reason, Accepted, AfterFailure;
    OwnCodes();
    if launch.NotRunning? {
      AcceptedReasons(launch.code);
    }
  }

  lemma OutageAnswers(c: Policy, w: World, s: Step)
    requires Sound(c) && OutageNow(s)
    ensures var w' := ObserveDown(c, w, s);
            w.history <= w'.history && Answers(w.record, Current(w.record, s.now), s, w'.history[|w.history|..])
  {
    hide Reason, Accepted, Finish, Reports;
    AcceptedReasons(s.reason);
    var current := Current(w.record, s.now);
    if Starts(w, s) {
      var recovering := Started(current, s.now, Reason(s.reason));
      var started := Save(w, current, recovering, RecoveryStarted, s.now, Reason(s.reason));
      var h := Finish(c, started, recovering, s.now, s.launch).history;
      FinishReports(c, started, recovering, s.now, s.launch);
      assert h[|w.history|] == started.history[|w.history|];
      assert h[|w.history|..][1..] == h[|started.history|..];
    }
  }

  lemma StepAnswers(c: Policy, w: World, s: Step)
    requires Sound(c)
    ensures w.history <= Apply(c, w, s).history
    ensures Answers(w.record, Current(w.record, s.now), s, Apply(c, w, s).history[|w.history|..])
  {
    hide ObserveDown, Reason, Accepted, Reports;
    if OutageNow(s) {
      OutageAnswers(c, w, s);
    }
  }

  /** In every run, the events of the next step are those that the history so far and the step call for. */
  lemma RunAnswers(c: Policy, steps: seq<Step>, s: Step)
    requires Sound(c)
    ensures var h, h' := Run(c, EMPTY, steps).history, Run(c, EMPTY, steps + [s]).history;
            h <= h' && Answers(Replay(c, h), Known(c, h, s.now), s, h'[|h|..])
  {
    hide Answers, Apply, Replay;
    var w := Run(c, EMPTY, steps);
    HistoryReplays(c, steps);
    assert (steps + [s])[..|steps|] == steps;
    StepAnswers(c, w, s);
  }

  /** An outage is answered with a start exactly when autostart is on, nobody cancels, the reason is one a
      record accepts, and the history leaves the connector unsuppressed, not degraded and due; whether it was
      READY, STOPPED or RECOVERING makes no difference. */
  lemma StartIsDue(c: Policy, steps: seq<Step>, s: Step)
    requires Sound(c)
    ensures var h, h' := Run(c, EMPTY, steps).history, Run(c, EMPTY, steps + [s]).history;
            (exists i :: |h| <= i < |h'| && h'[i].kind.RecoveryStarted?) <==>
              OutageNow(s) && !s.cancelledLater && s.autostart && Accepted(s.reason) && Due(Known(c, h, s.now), s.now)
    ensures var h, h' := Run(c, EMPTY, steps).history, Run(c, EMPTY, steps + [s]).history;
            OutageNow(s) && !s.cancelledLater && s.autostart && Accepted(s.reason) && Due(Known(c, h, s.now), s.now) ==>
              |h'| > |h| && Is(h'[|h|], RecoveryStarted, s.now)
  {
    hide Run, Replay, Accepted;
    RunAnswers(c, steps, s);
    var h, h' := Run(c, EMPTY, steps).history, Run(c, EMPTY, steps + [s]).history;
    var more := h'[|h|..];
    assert forall i :: |h| <= i < |h'| ==> h'[i] == more[i - |h|];
  }

  /** The same of one step, from any snapshot that its history rebuilds. */
  predicate Owes(c: Policy, history: seq<Event>, s: Step)
    requires Sound(c)
  {
    OutageNow(s) && !s.cancelledLater && s.autostart && Accepted(s.reason) && Due(Known(c, history, s.now), s.now)
  }

  lemma StartsWhenOwed(c: Policy, w: World, s: Step)
    requires Sound(c) && w.record == Replay(c, w.history)
    ensures Starts(w, s) <==> Owes(c, w.history, s)
  {
    hide Reason, Accepted, Replay;
    if s.Observe? {
      AcceptedReasons(s.reason);
    }
  }

  /** What each kind of event means for the snapshot. */
  predicate Means(c: Policy, e: Event, b: Record, r: Record)
    requires Sound(c)
  {
    && (r.updatedAt == e.at || e.kind.UnknownObserved?)
    && match e.kind
       case Suppressed => r.state == Stopped && r.suppressed && r.nextRetry.None? && Counts(b, r)
       case ManualStarted =>
         r.state == Stopped && !r.suppressed && r.nextRetry.None? && r.failures == 0 && r.windowStart.None?
       case ReadyObserved | RecoveryReady =>
         r.state == Ready && r.suppressed == b.suppressed && r.nextRetry.None? && r.failures == 0 && r.windowStart.None?
       case UnknownObserved => r == b.(restarts := e.restarts)
       case OutageObserved =>
         && r.state == Stopped && r.suppressed == b.suppressed && r.nextRetry.None? && Counts(b, r)
         && (!b.suppressed ==> r.exitReason == e.reason && r.exitAt == Some(e.at))
       case RecoveryStarted =>
         && r.state == Recovering && r.suppressed == b.suppressed && r.nextRetry.None? && Counts(b, r)
         && r.exitReason == e.reason && r.exitAt == Some(e.at)
       case RecoveryCancelled => r.state == Stopped && r.suppressed == b.suppressed && r.nextRetry.None? && Counts(b, r)
       case RecoveryFailed =>
         && r.suppressed == b.suppressed && r.exitReason == e.reason && r.exitAt == Some(e.at)
         && (if b.windowStart.Some? && e.at <= b.windowStart.value + c.window
             then r.failures == b.failures + 1 && r.windowStart == b.windowStart
             else r.failures == 1 && r.windowStart == Some(e.at))
         && (r.failures >= c.limit ==> r.state == Degraded && r.nextRetry.None?)
         && (r.failures < c.limit ==>
               r.state == Recovering
               && r.nextRetry == Some(e.at + if r.failures <= |c.backoff| then c.backoff[r.failures - 1] else c.backoff[|c.backoff| - 1]))
  }

  predicate Counts(b: Record, r: Record) {
    r.failures == b.failures && r.windowStart == b.windowStart
  }

  lemma MeansReplayed(c: Policy, record: Option<Record>, e: Event)
    requires Sound(c)
    ensures Means(c, e, Current(record, e.at), Replayed(c, record, e))
  {
  }

  /** Every event of every run has its meaning for the snapshot, and the run's snapshot is the last one. */
  lemma EventMeans(c: Policy, steps: seq<Step>, i: nat)
    requires Sound(c) && i < |Run(c, EMPTY, steps).history|
    ensures var h := Run(c, EMPTY, steps).history;
            Replay(c, h[..i + 1]).Some? && Means(c, h[i], Known(c, h[..i], h[i].at), Replay(c, h[..i + 1]).value)
    ensures Run(c, EMPTY, steps).record == Replay(c, Run(c, EMPTY, steps).history)
  {
    hide Run, Means, Replayed, Linked, CountKind;
    HistoryReplays(c, steps);
    var h := Run(c, EMPTY, steps).history;
    assert h[..i + 1] == h[..i] + [h[i]];
    ReplayOne(c, h[..i], h[i]);
    MeansReplayed(c, Replay(c, h[..i]), h[i]);
  }
}
