/**
 Connector auto-recovery: failure windows, backoff, degradation, suppression, and the event history
 written together with each snapshot.  One connector; clock readings are real numbers, and the answers
 of the clock, the autostart check, the cancel check and the launcher are inputs of a step.
 */
module Recovery {
  import opened Chars

  datatype Option<T> = None | Some(value: T)

  datatype State = Ready | Stopped | Recovering | Degraded

  datatype Kind =
    | Suppressed | ManualStarted | ReadyObserved | UnknownObserved | OutageObserved
    | RecoveryStarted | RecoveryReady | RecoveryFailed | RecoveryCancelled

  datatype Record = Record(
    state: State,
    suppressed: bool,
    failures: nat,
    windowStart: Option<real>,
    restarts: nat,
    exitReason: Option<string>,
    exitAt: Option<real>,
    nextRetry: Option<real>,
    updatedAt: real)

  datatype Event = Event(kind: Kind, before: State, after: State, at: real, reason: Option<string>, restarts: nat)

  /** What is durable: the snapshot and its history, saved in one write. */
  datatype World = World(record: Option<Record>, history: seq<Event>)

  datatype Policy = Policy(backoff: seq<real>, limit: nat, window: real)

  predicate Sound(c: Policy) {
    && c.backoff != [] && (forall i :: 0 <= i < |c.backoff| ==> c.backoff[i] > 0.0)
    && c.limit >= 1 && c.window > 0.0
  }

  datatype Health = Up | Unknown | Down

  /** How a start call ended; `Lost` leaves nothing further recorded (a crash, or a save that failed). */
  datatype Launch = Lost | Raised | Malformed | Cancelled | Running(finished: real) | NotRunning(code: string)

  datatype Step =
    | Observe(now: real, health: Health, reason: string,
              cancelledFirst: bool, cancelledLater: bool, autostart: bool, launch: Launch)
    | Suppress(now: real)
    | ManualStart(now: real)

  // ---------------------------------------------------------------- the coordinator's decisions

  function Trim(s: string): string {
    if s == "" then s
    else if IsSpace(s[0]) then Trim(s[1..])
    else if IsSpace(s[|s| - 1]) then Trim(s[..|s| - 1])
    else s
  }

  /** The stored form of a reason code; `None` is one the record refuses. */
  function Reason(s: string): Option<string> {
    if Trim(s) == "" || |s| > 128 || exists i :: 0 <= i < |s| && (s[i] == '\0' || s[i] == '\r' || s[i] == '\n') then None
    else Some(Trim(s))
  }

  function Current(record: Option<Record>, now: real): Record {
    match record
    case Some(r) => r
    case None => Record(Stopped, false, 0, None, 0, None, None, None, now)
  }

  function Save(w: World, current: Record, record: Record, kind: Kind, at: real, reason: Option<string>): World {
    World(Some(record), w.history + [Event(kind, current.state, record.state, at, reason, record.restarts)])
  }

  function Delay(c: Policy, failures: nat): real
    requires Sound(c) && failures >= 1
  {
    c.backoff[if failures - 1 < |c.backoff| then failures - 1 else |c.backoff| - 1]
  }

  /** The snapshot after a failed start at `now`. */
  function AfterFailure(c: Policy, current: Record, now: real, reason: Option<string>): Record
    requires Sound(c)
  {
    var open := current.windowStart.Some? && now - current.windowStart.value <= c.window;
    var failures := if open then current.failures + 1 else 1;
    current.(
      state := if failures >= c.limit then Degraded else Recovering,
      failures := failures,
      windowStart := if open then current.windowStart else Some(now),
      exitReason := reason,
      exitAt := Some(now),
      nextRetry := if failures >= c.limit then None else Some(now + Delay(c, failures)),
      updatedAt := now)
  }

  function Fail(c: Policy, w: World, current: Record, now: real, code: string): World
    requires Sound(c)
  {
    if Reason(code).None? then w
    else Save(w, current, AfterFailure(c, current, now, Reason(code)), RecoveryFailed, now, Reason(code))
  }

  function AsReady(current: Record, at: real): Record {
    current.(state := Ready, failures := 0, windowStart := None, nextRetry := None, updatedAt := at)
  }

  function Started(current: Record, now: real, reason: Option<string>): Record {
    current.(state := Recovering, exitReason := reason, exitAt := Some(now), nextRetry := None, updatedAt := now)
  }

  function AsStopped(current: Record, now: real): Record {
    current.(state := Stopped, nextRetry := None, updatedAt := now)
  }

  function Outage(current: Record, now: real, reason: Option<string>): Record {
    AsStopped(current, now).(exitReason := reason, exitAt := Some(now))
  }

  /** What the outcome of the start call adds. */
  function Finish(c: Policy, w: World, recovering: Record, now: real, launch: Launch): World
    requires Sound(c)
  {
    match launch
    case Lost => w
    case Raised => Fail(c, w, recovering, now, "RECOVERY_START_EXCEPTION")
    case Malformed => Fail(c, w, recovering, now, "RECOVERY_RESULT_INVALID")
    case Cancelled => Save(w, recovering, AsStopped(recovering, now), RecoveryCancelled, now, None)
    case Running(finished) =>
      if finished < 0.0 then w
      else
        Save(w, recovering, AsReady(recovering, finished).(restarts := recovering.restarts + 1), RecoveryReady, finished, None)
    case NotRunning(code) => Fail(c, w, recovering, now, code)
  }

  /** Whether an observed outage leads to a start call. */
  predicate Starts(w: World, s: Step) {
    && s.Observe? && s.now >= 0.0 && !s.cancelledFirst && s.health == Down
    && var current := Current(w.record, s.now);
       && !current.suppressed && s.autostart && current.state != Degraded
       && (current.nextRetry.None? || s.now >= current.nextRetry.value)
       && !s.cancelledLater && Reason(s.reason).Some?
  }

  function ObserveDown(c: Policy, w: World, s: Step): World
    requires Sound(c) && s.Observe?
  {
    var current := Current(w.record, s.now);
    var reason := Reason(s.reason);
    if current.suppressed then
      if (current.state == Stopped && current.nextRetry.None?) || reason.None? then w
      else Save(w, current, AsStopped(current, s.now), OutageObserved, s.now, reason)
    else if !s.autostart then
      if reason.None? || (current.state == Stopped && current.nextRetry.None? && current.exitReason == reason) then w
      else Save(w, current, Outage(current, s.now, reason), OutageObserved, s.now, reason)
    else if Starts(w, s) then
      var recovering := Started(current, s.now, reason);
      Finish(c, Save(w, current, recovering, RecoveryStarted, s.now, reason), recovering, s.now, s.launch)
    else w
  }

  function Apply(c: Policy, w: World, s: Step): World
    requires Sound(c)
  {
    if s.now < 0.0 then w
    else
      var current := Current(w.record, s.now);
      match s
      case Suppress(now) =>
        Save(w, current, AsStopped(current, now).(suppressed := true), Suppressed, now, None)
      case ManualStart(now) =>
        var record := AsStopped(current, now).(suppressed := false, failures := 0, windowStart := None);
        Save(w, current, record, ManualStarted, now, None)
      case Observe(now, health, _, cancelledFirst, _, _, _) =>
        if cancelledFirst then w
        else if health == Up then
          if current.state == Ready && current.failures == 0 && current.windowStart.None? && current.nextRetry.None? then w
          else Save(w, current, AsReady(current, now), ReadyObserved, now, None)
        else if health == Unknown then
          if w.record.None? then Save(w, current, current, UnknownObserved, now, None) else w
        else ObserveDown(c, w, s)
  }

  function Run(c: Policy, w: World, steps: seq<Step>): World
    requires Sound(c)
  {
    if steps == [] then w else Apply(c, Run(c, w, steps[..|steps| - 1]), steps[|steps| - 1])
  }

  const EMPTY := World(None, [])

  // ---------------------------------------------------------------- history replays to the snapshot

  /** Reads one event back; the snapshot itself is not looked at. */
  function Replayed(c: Policy, record: Option<Record>, e: Event): Record
    requires Sound(c)
  {
    var current := Current(record, e.at).(restarts := e.restarts);
    match e.kind
    case Suppressed => AsStopped(current, e.at).(suppressed := true)
    case ManualStarted => AsStopped(current, e.at).(suppressed := false, failures := 0, windowStart := None)
    case ReadyObserved => AsReady(current, e.at)
    case UnknownObserved => current
    case OutageObserved => if current.suppressed then AsStopped(current, e.at) else Outage(current, e.at, e.reason)
    case RecoveryStarted => Started(current, e.at, e.reason)
    case RecoveryFailed => AfterFailure(c, current, e.at, e.reason)
    case RecoveryCancelled => AsStopped(current, e.at)
    case RecoveryReady => AsReady(current, e.at)
  }

  function Replay(c: Policy, history: seq<Event>): Option<Record>
    requires Sound(c)
  {
    if history == [] then None
    else Some(Replayed(c, Replay(c, history[..|history| - 1]), history[|history| - 1]))
  }

  function StateIn(record: Option<Record>): State {
    if record.None? then Stopped else record.value.state
  }

  function RestartsIn(record: Option<Record>): nat {
    if record.None? then 0 else record.value.restarts
  }

  function CountKind(history: seq<Event>, kind: Kind): nat {
    if history == [] then 0
    else CountKind(history[..|history| - 1], kind) + if history[|history| - 1].kind == kind then 1 else 0
  }

  /** Each event starts from the state the history before it rebuilds, ends in the state the history
      with it rebuilds, and counts the restarts so far. */
  ghost predicate Linked(c: Policy, history: seq<Event>)
    requires Sound(c)
  {
    forall i :: 0 <= i < |history| ==> LinkedAt(c, history, i)
  }

  predicate LinkedAt(c: Policy, history: seq<Event>, i: nat)
    requires Sound(c) && i < |history|
  {
    && history[i].before == StateIn(Replay(c, history[..i]))
    && history[i].after == StateIn(Replay(c, history[..i + 1]))
    && history[i].restarts == CountKind(history[..i + 1], RecoveryReady)
  }

  ghost predicate Faithful(c: Policy, w: World)
    requires Sound(c)
  {
    && w.record == Replay(c, w.history)
    && RestartsIn(w.record) == CountKind(w.history, RecoveryReady)
    && Linked(c, w.history)
  }

  lemma ReplayOne(c: Policy, h: seq<Event>, e: Event)
    requires Sound(c)
    ensures Replay(c, h + [e]) == Some(Replayed(c, Replay(c, h), e))
    ensures CountKind(h + [e], RecoveryReady) == CountKind(h, RecoveryReady) + if e.kind.RecoveryReady? then 1 else 0
  {
    assert (h + [e])[..|h|] == h;
  }

  /** One save keeps the history faithful when replaying its event gives its snapshot. */
  lemma SaveFaithful(c: Policy, w: World, current: Record, record: Record, kind: Kind, at: real, reason: Option<string>)
    requires Sound(c) && Faithful(c, w) && current == Current(w.record, at)
    requires Replayed(c, w.record, Event(kind, current.state, record.state, at, reason, record.restarts)) == record
    requires record.restarts == current.restarts + if kind.RecoveryReady? then 1 else 0
    ensures Faithful(c, Save(w, current, record, kind, at, reason))
  {
    hide Replayed, CountKind, Replay;
    var e := Event(kind, current.state, record.state, at, reason, record.restarts);
    var h := w.history + [e];
    ReplayOne(c, w.history, e);
    forall i | 0 <= i < |h| ensures LinkedAt(c, h, i) {
      assert h[..i] == w.history[..i];
      if i < |w.history| {
        assert h[..i + 1] == w.history[..i + 1];
        assert LinkedAt(c, w.history, i);
      } else {
        assert w.history[..i] == w.history && h[..i + 1] == h;
      }
    }
  }

  lemma FinishFaithful(c: Policy, w: World, recovering: Record, now: real, launch: Launch)
    requires Sound(c) && Faithful(c, w) && w.record == Some(recovering)
    ensures Faithful(c, Finish(c, w, recovering, now, launch))
  {
    hide Faithful, Reason, Replay;
    match launch {
      case Lost =>
      case Raised =>
        FailFaithful(c, w, recovering, now, "RECOVERY_START_EXCEPTION");
      case Malformed =>
        FailFaithful(c, w, recovering, now, "RECOVERY_RESULT_INVALID");
      case Cancelled =>
        SaveFaithful(c, w, recovering, AsStopped(recovering, now), RecoveryCancelled, now, None);
      case Running(finished) =>
        var ready := AsReady(recovering, finished).(restarts := recovering.restarts + 1);
        SaveFaithful(c, w, recovering, ready, RecoveryReady, finished, None);
      case NotRunning(code) =>
        FailFaithful(c, w, recovering, now, code);
    }
  }

  lemma FailFaithful(c: Policy, w: World, recovering: Record, now: real, code: string)
    requires Sound(c) && Faithful(c, w) && w.record == Some(recovering)
    ensures Faithful(c, Fail(c, w, recovering, now, code))
  {
    hide Faithful, Reason, Replay;
    if Reason(code).Some? {
      SaveFaithful(c, w, recovering, AfterFailure(c, recovering, now, Reason(code)), RecoveryFailed, now, Reason(code));
    }
  }

  lemma StepFaithful(c: Policy, w: World, s: Step)
    requires Sound(c) && Faithful(c, w)
    ensures Faithful(c, Apply(c, w, s))
  {
    hide Faithful, Reason, Replay, Finish;
    var current := Current(w.record, s.now);
    match s {
      case Suppress(now) =>
        SaveFaithful(c, w, current, AsStopped(current, now).(suppressed := true), Suppressed, now, None);
      case ManualStart(now) =>
        var record := AsStopped(current, now).(suppressed := false, failures := 0, windowStart := None);
        SaveFaithful(c, w, current, record, ManualStarted, now, None);
      case Observe(now, health, text, _, _, autostart, launch) =>
        var reason := Reason(text);
        if health == Up {
          SaveFaithful(c, w, current, AsReady(current, now), ReadyObserved, now, None);
        } else if health == Unknown {
          SaveFaithful(c, w, current, current, UnknownObserved, now, None);
        } else if current.suppressed {
          SaveFaithful(c, w, current, AsStopped(current, now), OutageObserved, now, reason);
        } else if !autostart {
          SaveFaithful(c, w, current, Outage(current, now, reason), OutageObserved, now, reason);
        } else if Starts(w, s) {
          var recovering := Started(current, now, reason);
          SaveFaithful(c, w, current, recovering, RecoveryStarted, now, reason);
          FinishFaithful(c, Save(w, current, recovering, RecoveryStarted, now, reason), recovering, now, launch);
        }
    }
  }

  /** Over every run, the history alone rebuilds the whole snapshot, each event starts from the durable
      state before it, and the restart count is the number of successful recoveries. */
  lemma {:induction false} HistoryReplays(c: Policy, steps: seq<Step>)
    requires Sound(c)
    ensures Faithful(c, Run(c, EMPTY, steps))
  {
    if steps != [] {
      HistoryReplays(c, steps[..|steps| - 1]);
      StepFaithful(c, Run(c, EMPTY, steps[..|steps| - 1]), steps[|steps| - 1]);
    }
  }
}
