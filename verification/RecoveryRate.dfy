/** How often a connector may be restarted: bounds over every run of the recovery state machine. */
module RecoveryRate {
  import Chars
  import opened Recovery

  // ---------------------------------------------------------------- failed starts in a stretch of history

  /** Times of the failed starts. */
  function Failures(events: seq<Event>): seq<real> {
    if events == [] then []
    else
      var last := events[|events| - 1];
      Failures(events[..|events| - 1]) + if last.kind.RecoveryFailed? then [last.at] else []
  }

  function Since(times: seq<real>, a: real): nat {
    if times == [] then 0
    else Since(times[..|times| - 1], a) + if a <= times[|times| - 1] then 1 else 0
  }

  function Within(times: seq<real>, a: real, b: real): nat {
    if times == [] then 0
    else Within(times[..|times| - 1], a, b) + if a <= times[|times| - 1] <= b then 1 else 0
  }

  /** Events after which failures are counted afresh: the connector was seen up, or was started by hand,
      or an outage with autostart off took it out of DEGRADED. */
  predicate Resets(e: Event) {
    || e.kind.ReadyObserved? || e.kind.RecoveryReady? || e.kind.ManualStarted?
    || (e.kind.OutageObserved? && e.before == Degraded)
  }

  predicate ResetFree(events: seq<Event>) {
    forall i :: 0 <= i < |events| ==> !Resets(events[i])
  }

  predicate InOrder(events: seq<Event>) {
    forall i, j :: 0 <= i < j < |events| ==> events[i].at <= events[j].at
  }

  function Most(c: Policy): nat {
    if c.limit >= 2 then 2 * c.limit - 2 else 1
  }

  ghost predicate Bounded(c: Policy, times: seq<real>) {
    forall a: real, b: real :: b <= a + c.window ==> Within(times, a, b) <= Most(c)
  }

  function Min(a: nat, b: nat): nat { if a <= b then a else b }

  /** The open failure window `start`, with `n` failures counted in it, against the failures of the stretch. */
  ghost predicate Open(c: Policy, times: seq<real>, start: real, n: nat) {
    && n >= 1
    && (times == [] || n < c.limit)
    && (forall i :: 0 <= i < |times| ==> times[i] <= start + c.window)
    && (forall a: real :: a > start ==> Since(times, a) <= Min(n, c.limit) - 1)
    && (forall a: real :: a >= start - c.window ==> Since(times, a) <= Min(n, c.limit) + Most(c) - c.limit)
  }

  ghost predicate Waiting(c: Policy, times: seq<real>, r: Record) {
    if r.windowStart.None? then times == [] else Open(c, times, r.windowStart.value, r.failures)
  }

  ghost predicate Quota(c: Policy, times: seq<real>, record: Option<Record>) {
    && Bounded(c, times)
    && (record.None? ==> times == [])
    && (record.Some? ==> record.value.state == Degraded || record.value.suppressed || Waiting(c, times, record.value))
  }

  lemma {:induction false} WithinSince(times: seq<real>, a: real, b: real)
    ensures Within(times, a, b) <= Since(times, a)
  {
    if times != [] {
      WithinSince(times[..|times| - 1], a, b);
    }
  }

  lemma SinceOne(times: seq<real>, t: real, a: real)
    ensures Since(times + [t], a) == Since(times, a) + if a <= t then 1 else 0
  {
    assert (times + [t])[..|times|] == times;
  }

  lemma WithinOne(times: seq<real>, t: real, a: real, b: real)
    ensures Within(times + [t], a, b) == Within(times, a, b) + if a <= t <= b then 1 else 0
  {
    assert (times + [t])[..|times|] == times;
  }

  lemma {:induction false} NoneSince(times: seq<real>, a: real)
    requires forall i :: 0 <= i < |times| ==> times[i] < a
    ensures Since(times, a) == 0
  {
    if times != [] {
      NoneSince(times[..|times| - 1], a);
    }
  }

  /** A further failure in the open window. */
  lemma FailureInWindow(c: Policy, times: seq<real>, start: real, n: nat, t: real)
    requires Sound(c) && Open(c, times, start, n) && start <= t <= start + c.window
    ensures n + 1 < c.limit ==> Open(c, times + [t], start, n + 1)
    ensures forall a: real :: a >= start - c.window ==> Since(times + [t], a) <= Most(c)
  {
    hide Since;
    forall a: real ensures Since(times + [t], a) <= Since(times, a) + 1 {
      SinceOne(times, t, a);
    }
    if times == [] {
      EmptyCounts();
    }
  }

  lemma EmptyCounts()
    ensures forall a: real :: Since([], a) == 0
    ensures forall a: real, b: real :: Within([], a, b) == 0
  {
  }

  /** A failure that opens a new window after the old one. */
  lemma FailureAfterWindow(c: Policy, times: seq<real>, start: real, n: nat, t: real)
    requires Sound(c) && Open(c, times, start, n) && t > start + c.window
    ensures 1 < c.limit ==> Open(c, times + [t], t, 1)
    ensures forall a: real :: a >= t - c.window ==> Since(times + [t], a) <= Most(c)
  {
    hide Since;
    forall a: real ensures Since(times + [t], a) == Since(times, a) + if a <= t then 1 else 0 {
      SinceOne(times, t, a);
    }
    forall a: real | a > t ensures Since(times, a) == 0 {
      NoneSince(times, a);
    }
    if times == [] {
      EmptyCounts();
    }
  }

  /** The first failure of all. */
  lemma FirstFailure(c: Policy, t: real)
    requires Sound(c)
    ensures 1 < c.limit ==> Open(c, [t], t, 1)
    ensures forall a: real :: Since([t], a) <= Most(c)
  {
    assert [] + [t] == [t];
    forall a: real ensures Since([t], a) == if a <= t then 1 else 0 {
      SinceOne([], t, a);
    }
  }

  /** Intervals that end before the new failure count what they counted; the others start late enough. */
  lemma StillBounded(c: Policy, times: seq<real>, t: real)
    requires Sound(c) && Bounded(c, times)
    requires forall a: real :: a >= t - c.window ==> Since(times + [t], a) <= Most(c)
    ensures Bounded(c, times + [t])
  {
    hide Since, Within;
    forall a: real, b: real | b <= a + c.window ensures Within(times + [t], a, b) <= Most(c) {
      WithinOne(times, t, a, b);
      WithinSince(times + [t], a, b);
      assert Within(times, a, b) <= Most(c);
      if t <= b {
        assert a >= t - c.window;
      }
    }
  }

  lemma FailureQuota(c: Policy, times: seq<real>, r: Record, t: real, reason: Option<string>)
    requires Sound(c) && Bounded(c, times) && Waiting(c, times, r)
    requires r.windowStart.Some? ==> r.windowStart.value <= t
    ensures Quota(c, times + [t], Some(AfterFailure(c, r, t, reason)))
  {
    hide Since, Within, Bounded, Open;
    match r.windowStart {
      case None =>
        FirstFailure(c, t);
        assert times + [t] == [t];
      case Some(start) =>
        assert Open(c, times, start, r.failures);
        if t - start <= c.window {
          FailureInWindow(c, times, start, r.failures, t);
        } else {
          FailureAfterWindow(c, times, start, r.failures, t);
        }
    }
    StillBounded(c, times, t);
  }

  // ---------------------------------------------------------------- the bound over every run

  /** The snapshot carries the time of its last event, and its window opened no later. */
  predicate Timely(w: World) {
    match w.record
    case None => w.history == []
    case Some(r) =>
      && w.history != [] && r.updatedAt == w.history[|w.history| - 1].at
      && (r.windowStart.Some? ==> r.failures >= 1 && r.windowStart.value <= r.updatedAt)
  }

  /** One save of a reset-free stretch keeps the quota. */
  ghost predicate Kept(c: Policy, w0: World, w: World)
    requires |w0.history| <= |w.history|
  {
    && Timely(w)
    && (ResetFree(w.history[|w0.history|..]) ==> Quota(c, Failures(w.history[|w0.history|..]), w.record))
  }

  lemma StretchGrows(h: seq<Event>, k: nat, e: Event)
    requires k <= |h|
    ensures (h + [e])[k..] == h[k..] + [e]
    ensures Failures(h[k..] + [e]) == Failures(h[k..]) + if e.kind.RecoveryFailed? then [e.at] else []
    ensures ResetFree(h[k..] + [e]) <==> ResetFree(h[k..]) && !Resets(e)
  {
    assert (h[k..] + [e])[..|h[k..]|] == h[k..];
    if ResetFree(h[k..] + [e]) {
      forall i | 0 <= i < |h[k..]| ensures !Resets(h[k..][i]) {
        assert h[k..][i] == (h[k..] + [e])[i];
      }
      assert (h[k..] + [e])[|h[k..]|] == e;
    }
  }

  /** A save that leaves the failure counts alone. */
  predicate CountsKept(current: Record, record: Record) {
    && record.windowStart == current.windowStart && record.failures == current.failures
    && (current.suppressed ==> record.suppressed)
    && (record.suppressed || current.state != Degraded)
  }

  lemma SaveKeeps(c: Policy, w0: World, w: World, current: Record, record: Record, kind: Kind, at: real, reason: Option<string>)
    requires Sound(c) && |w0.history| <= |w.history| && Kept(c, w0, w) && current == Current(w.record, at)
    requires InOrder(w.history + [Event(kind, current.state, record.state, at, reason, record.restarts)])
    requires record.updatedAt == at
    requires Resets(Event(kind, current.state, record.state, at, reason, record.restarts))
          || (!kind.RecoveryFailed? && CountsKept(current, record))
          || (kind.RecoveryFailed? && record == AfterFailure(c, current, at, reason)
              && current.state != Degraded && !current.suppressed)
    requires record.windowStart == None || kind.RecoveryFailed?
          || (record.windowStart == current.windowStart && record.failures == current.failures)
    ensures Kept(c, w0, Save(w, current, record, kind, at, reason))
  {
    hide Quota, ResetFree, Failures;
    var e := Event(kind, current.state, record.state, at, reason, record.restarts);
    var k := |w0.history|;
    StretchGrows(w.history, k, e);
    assert w.record.Some? ==> w.record.value.updatedAt <= at by {
      if w.record.Some? {
        assert (w.history + [e])[|w.history| - 1].at <= (w.history + [e])[|w.history|].at;
      }
    }
    if ResetFree(w.history[k..] + [e]) {
      QuotaGrows(c, Failures(w.history[k..]), w.record, current, record, kind, at, reason);
    }
  }

  lemma QuotaGrows(c: Policy, times: seq<real>, was: Option<Record>, current: Record, record: Record, kind: Kind, at: real,
                   reason: Option<string>)
    requires Sound(c) && Quota(c, times, was) && current == Current(was, at)
    requires current.windowStart.Some? ==> current.windowStart.value <= at
    requires (!kind.RecoveryFailed? && CountsKept(current, record))
          || (kind.RecoveryFailed? && record == AfterFailure(c, current, at, reason)
              && current.state != Degraded && !current.suppressed)
    ensures Quota(c, times + if kind.RecoveryFailed? then [at] else [], Some(record))
  {
    hide Bounded, Open;
    assert Bounded(c, times) && (current.state == Degraded || current.suppressed || Waiting(c, times, current));
    if kind.RecoveryFailed? {
      FailureQuota(c, times, current, at, reason);
    } else {
      assert times + [] == times;
    }
  }

  lemma {:induction false} Extended(c: Policy, w: World, s: Step)
    requires Sound(c)
    ensures w.history <= Apply(c, w, s).history
  {
    hide Reason;
  }

  lemma OrderPrefix(h: seq<Event>, all: seq<Event>)
    requires InOrder(all) && h <= all
    ensures InOrder(h)
  {
  }

  lemma FinishKeeps(c: Policy, w0: World, w: World, recovering: Record, now: real, launch: Launch)
    requires Sound(c) && |w0.history| <= |w.history| && Kept(c, w0, w) && w.record == Some(recovering)
    requires recovering.state == Recovering && !recovering.suppressed
    requires InOrder(Finish(c, w, recovering, now, launch).history)
    ensures Kept(c, w0, Finish(c, w, recovering, now, launch))
  {
    hide Kept, Reason, InOrder;
    var code := if launch.Raised? then "RECOVERY_START_EXCEPTION" else if launch.Malformed? then "RECOVERY_RESULT_INVALID"
                else if launch.NotRunning? then launch.code else "";
    if launch.Raised? || launch.Malformed? || launch.NotRunning? {
      if Reason(code).Some? {
        SaveKeeps(c, w0, w, recovering, AfterFailure(c, recovering, now, Reason(code)), RecoveryFailed, now, Reason(code));
      }
    } else if launch.Cancelled? {
      SaveKeeps(c, w0, w, recovering, AsStopped(recovering, now), RecoveryCancelled, now, None);
    } else if launch.Running? && launch.finished >= 0.0 {
      var ready := AsReady(recovering, launch.finished).(restarts := recovering.restarts + 1);
      SaveKeeps(c, w0, w, recovering, ready, RecoveryReady, launch.finished, None);
    }
  }

  lemma DownKeeps(c: Policy, w0: World, w: World, s: Step)
    requires Sound(c) && |w0.history| <= |w.history| && Kept(c, w0, w) && s.Observe?
    requires InOrder(ObserveDown(c, w, s).history)
    ensures Kept(c, w0, ObserveDown(c, w, s))
  {
    hide Kept, Reason, InOrder, Finish;
    var current, reason := Current(w.record, s.now), Reason(s.reason);
    if current.suppressed {
      if reason.Some? && !(current.state == Stopped && current.nextRetry.None?) {
        SaveKeeps(c, w0, w, current, AsStopped(current, s.now), OutageObserved, s.now, reason);
      }
    } else if !s.autostart {
      if reason.Some? && !(current.state == Stopped && current.nextRetry.None? && current.exitReason == reason) {
        SaveKeeps(c, w0, w, current, Outage(current, s.now, reason), OutageObserved, s.now, reason);
      }
    } else if Starts(w, s) {
      var recovering := Started(current, s.now, reason);
      var started := Save(w, current, recovering, RecoveryStarted, s.now, reason);
      FinishExtends(c, started, recovering, s.now, s.launch);
      OrderPrefix(started.history, ObserveDown(c, w, s).history);
      SaveKeeps(c, w0, w, current, recovering, RecoveryStarted, s.now, reason);
      FinishKeeps(c, w0, started, recovering, s.now, s.launch);
    }
  }

  lemma FinishExtends(c: Policy, w: World, recovering: Record, now: real, launch: Launch)
    requires Sound(c)
    ensures w.history <= Finish(c, w, recovering, now, launch).history
  {
    hide Reason;
  }

  lemma StepKeeps(c: Policy, w0: World, w: World, s: Step)
    requires Sound(c) && |w0.history| <= |w.history| && Kept(c, w0, w)
    requires InOrder(Apply(c, w, s).history)
    ensures w.history <= Apply(c, w, s).history && Kept(c, w0, Apply(c, w, s))
  {
    hide Kept, Reason, InOrder, ObserveDown;
    Extended(c, w, s);
    var current := Current(w.record, s.now);
    if s.now >= 0.0 {
      match s {
        case Suppress(now) =>
          SaveKeeps(c, w0, w, current, AsStopped(current, now).(suppressed := true), Suppressed, now, None);
        case ManualStart(now) =>
          var record := AsStopped(current, now).(suppressed := false, failures := 0, windowStart := None);
          SaveKeeps(c, w0, w, current, record, ManualStarted, now, None);
        case Observe(now, health, _, cancelledFirst, _, _, _) =>
          if !cancelledFirst {
            match health {
              case Up =>
                if Apply(c, w, s) != w {
                  SaveKeeps(c, w0, w, current, AsReady(current, now), ReadyObserved, now, None);
                }
              case Unknown =>
                if w.record.None? {
                  SaveKeeps(c, w0, w, current, current, UnknownObserved, now, None);
                }
              case Down => DownKeeps(c, w0, w, s);
            }
          }
      }
    }
  }

  lemma {:induction false} RunKeeps(c: Policy, w0: World, steps: seq<Step>)
    requires Sound(c) && Kept(c, w0, w0) && InOrder(Run(c, w0, steps).history)
    ensures w0.history <= Run(c, w0, steps).history && Kept(c, w0, Run(c, w0, steps))
  {
    hide Kept, Apply, InOrder;
    if steps != [] {
      var before := Run(c, w0, steps[..|steps| - 1]);
      Extended(c, before, steps[|steps| - 1]);
      OrderPrefix(before.history, Run(c, w0, steps).history);
      RunKeeps(c, w0, steps[..|steps| - 1]);
      StepKeeps(c, w0, before, steps[|steps| - 1]);
    }
  }

  lemma FreshStretch(c: Policy, w: World)
    requires Sound(c) && Timely(w)
    ensures Kept(c, w, w)
  {
    assert w.history[|w.history|..] == [];
    EmptyCounts();
  }

  /** Retry-rate bound: from any reachable world, over any further steps whose events come in order and
      hold no reset, any interval as long as the failure window holds at most `Most(c)` failed starts:
      2 * limit - 2, or 1 when the limit is 1.  Cancelled and lost starts and suppressions may come between. */
  lemma RetryBound(c: Policy, earlier: seq<Step>, steps: seq<Step>)
    requires Sound(c)
    ensures var w0 := Run(c, EMPTY, earlier);
            var w := Run(c, w0, steps);
            && w0.history <= w.history
            && (InOrder(w.history) && ResetFree(w.history[|w0.history|..])
                ==> Bounded(c, Failures(w.history[|w0.history|..])))
  {
    hide Bounded, InOrder, ResetFree, Failures, Apply, Open;
    var w0 := Run(c, EMPTY, earlier);
    var w := Run(c, w0, steps);
    RunExtends(c, w0, steps);
    if InOrder(w.history) {
      OrderPrefix(w0.history, w.history);
      FreshStretch(c, EMPTY);
      RunKeeps(c, EMPTY, earlier);
      FreshStretch(c, w0);
      RunKeeps(c, w0, steps);
    }
  }

  lemma {:induction false} RunExtends(c: Policy, w: World, steps: seq<Step>)
    requires Sound(c)
    ensures w.history <= Run(c, w, steps).history
  {
    hide Apply;
    if steps != [] {
      RunExtends(c, w, steps[..|steps| - 1]);
      Extended(c, Run(c, w, steps[..|steps| - 1]), steps[|steps| - 1]);
    }
  }

  // ---------------------------------------------------------------- the bound is met

  function FailingStart(now: real): Step {
    Observe(now, Down, "UNEXPECTED_STOPPED", false, false, true, Raised)
  }

  lemma PlainReason(s: string)
    requires 0 < |s| <= 128 && !Chars.IsSpace(s[0]) && !Chars.IsSpace(s[|s| - 1])
    requires forall i :: 0 <= i < |s| ==> 'A' <= s[i] <= '_'
    ensures Reason(s) == Some(s)
  {
  }

  lemma Codes()
    ensures Reason("UNEXPECTED_STOPPED").Some? && Reason("RECOVERY_START_EXCEPTION").Some?
  {
    hide Reason;
    PlainReason("UNEXPECTED_STOPPED");
    PlainReason("RECOVERY_START_EXCEPTION");
  }

  /** The snapshot agrees with the one a failed start leaves, but for the recorded reason. */
  predicate Failed(c: Policy, before: Record, now: real, after: Record)
    requires Sound(c)
  {
    var r := AfterFailure(c, before, now, None);
    && after.windowStart == r.windowStart && after.failures == r.failures && after.state == r.state
    && after.nextRetry == r.nextRetry && after.suppressed == before.suppressed && after.updatedAt == now
  }

  /** One failed start appends two events at its own time. */
  lemma FailureEvents(c: Policy, w: World, now: real)
    requires Sound(c) && Starts(w, FailingStart(now))
    ensures var w' := Apply(c, w, FailingStart(now));
            && w'.record.Some? && Failed(c, Current(w.record, now), now, w'.record.value)
            && |w'.history| == |w.history| + 2
            && var a, b := w'.history[|w.history|], w'.history[|w.history| + 1];
               && w'.history == w.history + [a] + [b]
               && a.kind.RecoveryStarted? && b.kind.RecoveryFailed? && a.at == now && b.at == now
  {
    hide Reason;
    Codes();
  }

  /** One failed start, as a whole. */
  lemma OneFailure(c: Policy, w: World, now: real)
    requires Sound(c) && Starts(w, FailingStart(now))
    ensures var w' := Apply(c, w, FailingStart(now));
            && w'.record.Some? && Failed(c, Current(w.record, now), now, w'.record.value)
            && Failures(w'.history) == Failures(w.history) + [now]
            && (ResetFree(w.history) ==> ResetFree(w'.history))
            && (InOrder(w.history) && (if w.record.Some? then Stamps(w) && w.record.value.updatedAt <= now else w.history == [])
                ==> InOrder(w'.history) && Stamps(w') && w'.record.value.updatedAt == now)
  {
    hide Failures, Apply, Starts, Failed, ResetFree;
    FailureEvents(c, w, now);
    var w' := Apply(c, w, FailingStart(now));
    var n := |w.history|;
    var a, b := w'.history[n], w'.history[n + 1];
    var one := w.history + [a];
    StretchGrows(w.history, 0, a);
    StretchGrows(one, 0, b);
    assert w.history[0..] == w.history && one[0..] == one && w'.history[0..] == w'.history;
    FailedStamp(c, Current(w.record, now), now, w'.record.value);
    NoReset(a, b);
  }

  lemma FailedStamp(c: Policy, before: Record, now: real, after: Record)
    requires Sound(c) && Failed(c, before, now, after)
    ensures after.updatedAt == now
  {
  }

  lemma NoReset(a: Event, b: Event)
    ensures a.kind.RecoveryStarted? ==> !Resets(a)
    ensures b.kind.RecoveryFailed? ==> !Resets(b)
  {
  }

  predicate Stamps(w: World) {
    w.record.Some? && w.history != [] && forall i :: 0 <= i < |w.history| ==> w.history[i].at <= w.record.value.updatedAt
  }

  // The run: one failure opens a window; limit - 2 more come as late in it as they can; limit more, as fast
  // as their backoffs allow, open and exhaust the next window.

  /** The backoffs after failures number `a` to `b` of a window. */
  function Sum(c: Policy, a: nat, b: nat): real
    requires Sound(c) && a >= 1
  {
    if b < a then 0.0 else Sum(c, a, b - 1) + Delay(c, b)
  }

  /** From the first to the last failure of that interval. */
  function Spread(c: Policy): real
    requires Sound(c) && c.limit >= 2
  {
    Sum(c, 2, c.limit - 1) + Sum(c, 1, c.limit - 1)
  }

  /** Failures counted in the open window after failure number `k`. */
  function Count(c: Policy, k: nat): nat {
    if k + 2 <= c.limit then k + 1 else k + 2 - c.limit
  }

  function Time(c: Policy, k: nat): real
    requires Sound(c) && c.limit >= 2
  {
    if k == 0 then 0.0
    else if k == 1 then c.window + Delay(c, c.limit - 1) - Sum(c, 2, c.limit - 1)
    else Time(c, k - 1) + Delay(c, Count(c, k - 1))
  }

  function Times(c: Policy, n: nat): seq<real>
    requires Sound(c) && c.limit >= 2
  {
    if n == 0 then [0.0] else Times(c, n - 1) + [Time(c, n)]
  }

  function Burst(c: Policy, n: nat): seq<Step>
    requires Sound(c) && c.limit >= 2
  {
    if n == 0 then [FailingStart(0.0)] else Burst(c, n - 1) + [FailingStart(Time(c, n))]
  }

  lemma {:induction false} SumGrows(c: Policy, a: nat, b: nat, d: nat)
    requires Sound(c) && 1 <= a && b <= d
    ensures Sum(c, a, b) <= Sum(c, a, d)
  {
    hide Delay;
    if b < d {
      SumGrows(c, a, b, d - 1);
      DelayPositive(c, d);
    }
  }

  lemma DelayPositive(c: Policy, n: nat)
    requires Sound(c) && n >= 1
    ensures Delay(c, n) > 0.0
  {
  }

  /** Up to the last failure of the first window. */
  lemma {:induction false} EarlyTime(c: Policy, k: nat)
    requires Sound(c) && c.limit >= 2 && 1 <= k <= c.limit - 1
    ensures Time(c, k) == c.window + Delay(c, c.limit - 1) - Sum(c, 2, c.limit - 1) + Sum(c, 2, k)
  {
    hide Delay;
    if k > 1 {
      EarlyTime(c, k - 1);
    }
  }

  lemma {:induction false} LateTime(c: Policy, j: nat)
    requires Sound(c) && c.limit >= 2 && 1 <= j <= c.limit
    ensures Time(c, c.limit - 2 + j) == c.window + Delay(c, c.limit - 1) + Sum(c, 1, j - 1)
  {
    hide Delay;
    if j == 1 {
      EarlyTime(c, c.limit - 1);
    } else {
      LateTime(c, j - 1);
      assert Count(c, c.limit - 2 + (j - 1)) == j - 1;
    }
  }

  /** The times fit the two windows and the interval. */
  lemma TimeFacts(c: Policy, k: nat)
    requires Sound(c) && c.limit >= 2 && Spread(c) <= c.window && 1 <= k <= 2 * c.limit - 2
    ensures Time(c, k) >= Time(c, k - 1) + Delay(c, Count(c, k - 1))
    ensures k <= c.limit - 2 ==> Time(c, k) <= c.window
    ensures k == c.limit - 1 ==> Time(c, k) > c.window
    ensures k >= c.limit ==> Time(c, c.limit - 1) <= Time(c, k) <= Time(c, c.limit - 1) + c.window
    ensures Time(c, 1) <= Time(c, k) <= Time(c, 1) + c.window
  {
    hide Delay;
    var n := c.limit - 1;
    DelayPositive(c, n);
    SumFacts(c);
    EarlyTime(c, n);
    if k <= n {
      EarlyTime(c, k);
      SumGrows(c, 2, 1, k);
      SumGrows(c, 2, k, n);
      if k < n {
        SumGrows(c, 2, k, n - 1);
      }
    } else {
      LateTime(c, k - (n - 1));
      SumGrows(c, 1, k - n, n);
      SumGrows(c, 1, 0, k - n);
    }
  }

  lemma SumFacts(c: Policy)
    requires Sound(c) && c.limit >= 2
    ensures Sum(c, 1, 0) == Sum(c, 2, 1) == 0.0 && Sum(c, 1, c.limit - 1) >= Delay(c, 1)
    ensures Sum(c, 1, c.limit - 1) >= 0.0 && Sum(c, 2, c.limit - 1) >= 0.0
  {
    hide Delay;
    SumGrows(c, 1, 1, c.limit - 1);
    SumGrows(c, 1, 0, c.limit - 1);
    SumGrows(c, 2, 1, c.limit - 1);
    assert Sum(c, 1, 1) == Sum(c, 1, 0) + Delay(c, 1);
  }

  /** After failure number `n` of the run. */
  predicate Reached(c: Policy, n: nat, w: World)
    requires Sound(c) && c.limit >= 2
  {
    && w.record.Some?
    && var r := w.record.value;
       && r.windowStart == Some(if n <= c.limit - 2 then 0.0 else Time(c, c.limit - 1))
       && r.failures == Count(c, n) && !r.suppressed && r.updatedAt == Time(c, n)
       && (Count(c, n) < c.limit ==> r.state == Recovering && r.nextRetry == Some(Time(c, n) + Delay(c, Count(c, n))))
  }

  /** The next failure, from a snapshot that has reached the one before. */
  lemma NextFailure(c: Policy, n: nat, w: World)
    requires Sound(c) && c.limit >= 2 && Spread(c) <= c.window && 1 <= n <= 2 * c.limit - 2 && Reached(c, n - 1, w)
    ensures Time(c, n) >= w.record.value.updatedAt && Starts(w, FailingStart(Time(c, n)))
    ensures forall after: Record :: Failed(c, Current(w.record, Time(c, n)), Time(c, n), after) ==>
              Reached(c, n, World(Some(after), []))
  {
    hide Delay, Reason, Time;
    Codes();
    TimeFacts(c, n);
    DelayPositive(c, Count(c, n - 1));
    TimeStart(c, n);
  }

  lemma TimeStart(c: Policy, n: nat)
    requires Sound(c) && c.limit >= 2 && Spread(c) <= c.window && 1 <= n <= 2 * c.limit - 2
    ensures Time(c, n) >= 0.0 && Time(c, 0) == 0.0
  {
    hide Delay;
    TimeFacts(c, n);
    TimeFacts(c, 1);
    DelayPositive(c, Count(c, 0));
  }

  lemma ReachedRecord(c: Policy, n: nat, w: World, w': World)
    requires Sound(c) && c.limit >= 2 && Reached(c, n, w) && w'.record == w.record
    ensures Reached(c, n, w')
  {
  }

  lemma {:induction false} Climb(c: Policy, n: nat)
    requires Sound(c) && c.limit >= 2 && Spread(c) <= c.window && n <= 2 * c.limit - 2
    ensures var w := Run(c, EMPTY, Burst(c, n));
            && Reached(c, n, w) && Stamps(w) && InOrder(w.history) && ResetFree(w.history)
            && Failures(w.history) == Times(c, n)
  {
    hide Apply, Reason, Failures, InOrder, ResetFree, Stamps, Time, Delay, Starts, Failed, Reached, Spread;
    if n == 0 {
      OpeningFailure(c);
    } else {
      Climb(c, n - 1);
      var w := Run(c, EMPTY, Burst(c, n - 1));
      var step := FailingStart(Time(c, n));
      assert Burst(c, n)[..|Burst(c, n)| - 1] == Burst(c, n - 1);
      var w' := Run(c, EMPTY, Burst(c, n));
      assert w' == Apply(c, w, step);
      HasRecord(c, n - 1, w);
      NextFailure(c, n, w);
      OneFailure(c, w, Time(c, n));
      ReachedRecord(c, n, World(w'.record, []), w');
    }
  }

  lemma HasRecord(c: Policy, n: nat, w: World)
    requires Sound(c) && c.limit >= 2 && Reached(c, n, w)
    ensures w.record.Some?
  {
  }

  lemma OpeningFailure(c: Policy)
    requires Sound(c) && c.limit >= 2
    ensures var w := Run(c, EMPTY, Burst(c, 0));
            && Reached(c, 0, w) && Stamps(w) && InOrder(w.history) && ResetFree(w.history)
            && Failures(w.history) == Times(c, 0)
  {
    hide Reason, Failures, InOrder, ResetFree, Stamps, Apply;
    var step := FailingStart(0.0);
    assert Burst(c, 0)[..0] == [] && Run(c, EMPTY, []) == EMPTY;
    assert Run(c, EMPTY, Burst(c, 0)) == Apply(c, EMPTY, step);
    Codes();
    EmptyHistory();
    OneFailure(c, EMPTY, 0.0);
  }

  lemma {:induction false} BurstCount(c: Policy, n: nat)
    requires Sound(c) && c.limit >= 2 && Spread(c) <= c.window && n <= 2 * c.limit - 2
    ensures Within(Times(c, n), Time(c, 1), Time(c, 1) + c.window) == n
  {
    hide Delay, Time, Spread;
    if n == 0 {
      TimeFacts(c, 1);
      TimeStart(c, 1);
      DelayPositive(c, Count(c, 0));
      assert Within([0.0], Time(c, 1), Time(c, 1) + c.window) == Within([], Time(c, 1), Time(c, 1) + c.window);
    } else {
      BurstCount(c, n - 1);
      TimeFacts(c, n);
      assert Times(c, n)[..|Times(c, n)| - 1] == Times(c, n - 1);
    }
  }

  /** The bound is met by every policy whose backoffs fit the window: in this run, which holds no reset,
      2 * limit - 2 failed starts lie in one interval as long as the window. */
  lemma BoundIsMet(c: Policy)
    requires Sound(c) && c.limit >= 2 && Spread(c) <= c.window
    ensures var h := Run(c, EMPTY, Burst(c, 2 * c.limit - 2)).history;
            && InOrder(h) && ResetFree(h)
            && Within(Failures(h), Time(c, 1), Time(c, 1) + c.window) == Most(c)
  {
    hide Run, Failures, InOrder, ResetFree, Spread, Within, Times, Burst;
    Climb(c, 2 * c.limit - 2);
    BurstCount(c, 2 * c.limit - 2);
  }

  /** The default policy is one of them: four failed starts within five minutes. */
  lemma DefaultMeetsBound()
    ensures var c := Policy([5.0, 15.0, 30.0], 3, 300.0);
            Sound(c) && Most(c) == 4 && Spread(c) == 35.0
  {
    var c := Policy([5.0, 15.0, 30.0], 3, 300.0);
    assert Sum(c, 1, 1) == Sum(c, 1, 0) + Delay(c, 1);
    assert Sum(c, 2, 2) == Sum(c, 2, 1) + Delay(c, 2);
  }

  lemma {:induction false} UnitSums(c: Policy, k: nat)
    requires Sound(c) && c.backoff == [1.0]
    ensures Sum(c, 1, k) <= k as real && Sum(c, 2, k) <= k as real
  {
    if k > 0 {
      UnitSums(c, k - 1);
    }
  }

  /** And so is, for every limit, some policy. */
  lemma EveryLimitMeetsBound(limit: nat)
    requires limit >= 2
    ensures var c := Policy([1.0], limit, 2.0 * limit as real); Sound(c) && Spread(c) <= c.window
  {
    UnitSums(Policy([1.0], limit, 2.0 * limit as real), limit - 1);
  }

  lemma EmptyHistory()
    ensures Failures([]) == [] && ResetFree([]) && InOrder([])
  {
  }
}
