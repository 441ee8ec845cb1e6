/** When a start may be issued: suppression, degradation and backoff, read off the durable history. */
module RecoveryStarts {
  import opened Recovery
  import opened RecoveryRate

  /** The snapshot that the history before an event rebuilds allows the event. */
  predicate Allows(record: Option<Record>, e: Event) {
    match e.kind
    case RecoveryStarted =>
      record.None? ||
      (&& !record.value.suppressed && record.value.state != Degraded
       && (record.value.nextRetry.Some? ==> e.at >= record.value.nextRetry.value))
    case RecoveryFailed | RecoveryCancelled | RecoveryReady =>
      && record.Some? && record.value.state == Recovering && !record.value.suppressed && record.value.nextRetry.None?
    case UnknownObserved => record.None?
    case _ => true
  }

  ghost predicate Permitted(c: Policy, history: seq<Event>)
    requires Sound(c)
  {
    forall i :: 0 <= i < |history| ==> PermittedAt(c, history, i)
  }

  predicate PermittedAt(c: Policy, history: seq<Event>, i: nat)
    requires Sound(c) && i < |history|
  {
    Allows(Replay(c, history[..i]), history[i])
  }

  ghost predicate Lawful(c: Policy, w: World)
    requires Sound(c)
  {
    Faithful(c, w) && Permitted(c, w.history)
  }

  lemma SaveLawful(c: Policy, w: World, current: Record, record: Record, kind: Kind, at: real, reason: Option<string>)
    requires Sound(c) && Lawful(c, w) && current == Current(w.record, at)
    requires Replayed(c, w.record, Event(kind, current.state, record.state, at, reason, record.restarts)) == record
    requires record.restarts == current.restarts + if kind.RecoveryReady? then 1 else 0
    requires Allows(w.record, Event(kind, current.state, record.state, at, reason, record.restarts))
    ensures Lawful(c, Save(w, current, record, kind, at, reason))
  {
    hide Replayed, Replay, Allows, Linked, CountKind;
    SaveFaithful(c, w, current, record, kind, at, reason);
    var h := Save(w, current, record, kind, at, reason).history;
    forall i | 0 <= i < |h| ensures PermittedAt(c, h, i) {
      assert h[..i] == w.history[..i];
      if i < |w.history| {
        assert PermittedAt(c, w.history, i);
      } else {
        assert w.history[..i] == w.history;
      }
    }
  }

  lemma FinishLawful(c: Policy, w: World, recovering: Record, now: real, launch: Launch)
    requires Sound(c) && Lawful(c, w) && w.record == Some(recovering)
    requires recovering.state == Recovering && !recovering.suppressed && recovering.nextRetry.None?
    ensures Lawful(c, Finish(c, w, recovering, now, launch))
  {
    hide Lawful, Reason, Replay;
    var code := if launch.Raised? then "RECOVERY_START_EXCEPTION" else if launch.Malformed? then "RECOVERY_RESULT_INVALID"
                else if launch.NotRunning? then launch.code else "";
    if launch.Raised? || launch.Malformed? || launch.NotRunning? {
      if Reason(code).Some? {
        SaveLawful(c, w, recovering, AfterFailure(c, recovering, now, Reason(code)), RecoveryFailed, now, Reason(code));
      }
    } else if launch.Cancelled? {
      SaveLawful(c, w, recovering, AsStopped(recovering, now), RecoveryCancelled, now, None);
    } else if launch.Running? && launch.finished >= 0.0 {
      var ready := AsReady(recovering, launch.finished).(restarts := recovering.restarts + 1);
      SaveLawful(c, w, recovering, ready, RecoveryReady, launch.finished, None);
    }
  }

  lemma StepLawful(c: Policy, w: World, s: Step)
    requires Sound(c) && Lawful(c, w)
    ensures Lawful(c, Apply(c, w, s))
  {
    hide Lawful, Reason, Replay, Finish;
    var current := Current(w.record, s.now);
    match s {
      case Suppress(now) =>
        SaveLawful(c, w, current, AsStopped(current, now).(suppressed := true), Suppressed, now, None);
      case ManualStart(now) =>
        var record := AsStopped(current, now).(suppressed := false, failures := 0, windowStart := None);
        SaveLawful(c, w, current, record, ManualStarted, now, None);
      case Observe(now, health, text, _, _, autostart, launch) =>
        var reason := Reason(text);
        if health == Up {
          SaveLawful(c, w, current, AsReady(current, now), ReadyObserved, now, None);
        } else if health == Unknown {
          if w.record.None? {
            SaveLawful(c, w, current, current, UnknownObserved, now, None);
          }
        } else if current.suppressed {
          SaveLawful(c, w, current, AsStopped(current, now), OutageObserved, now, reason);
        } else if !autostart {
          SaveLawful(c, w, current, Outage(current, now, reason), OutageObserved, now, reason);
        } else if Starts(w, s) {
          var recovering := Started(current, now, reason);
          SaveLawful(c, w, current, recovering, RecoveryStarted, now, reason);
          FinishLawful(c, Save(w, current, recovering, RecoveryStarted, now, reason), recovering, now, launch);
        }
    }
  }

  /** Over every run: a start is recorded only when the connector is neither suppressed nor degraded and
      its retry time has passed, and an outcome only straight after its start. */
  lemma {:induction false} RunLawful(c: Policy, steps: seq<Step>)
    requires Sound(c)
    ensures Lawful(c, Run(c, EMPTY, steps))
  {
    hide Apply;
    if steps != [] {
      RunLawful(c, steps[..|steps| - 1]);
      StepLawful(c, Run(c, EMPTY, steps[..|steps| - 1]), steps[|steps| - 1]);
    }
  }

  // ---------------------------------------------------------------- what follows for the history

  lemma ReplayNext(c: Policy, h: seq<Event>, j: nat)
    requires Sound(c) && j < |h|
    ensures Replay(c, h[..j + 1]) == Some(Replayed(c, Replay(c, h[..j]), h[j]))
  {
    assert h[..j + 1][..j] == h[..j];
  }

  /** Some event of a kind strictly between two positions. */
  ghost predicate Between(h: seq<Event>, i: nat, j: nat, kinds: set<Kind>) {
    exists m :: i < m < j && m < |h| && h[m].kind in kinds
  }

  lemma BetweenGrows(h: seq<Event>, i: nat, j: nat, kinds: set<Kind>)
    requires Between(h, i, j, kinds)
    ensures Between(h, i, j + 1, kinds)
  {
    var m :| i < m < j && m < |h| && h[m].kind in kinds;
    assert i < m < j + 1;
  }

  lemma BetweenLast(h: seq<Event>, i: nat, j: nat, kinds: set<Kind>)
    requires i < j < |h| && h[j].kind in kinds
    ensures Between(h, i, j + 1, kinds)
  {
  }

  lemma {:induction false} SuppressedUntilManual(c: Policy, h: seq<Event>, i: nat, j: nat)
    requires Sound(c) && i < j <= |h| && h[i].kind.Suppressed?
    ensures Between(h, i, j, {ManualStarted})
         || (Replay(c, h[..j]).Some? && Replay(c, h[..j]).value.suppressed)
    decreases j
  {
    hide Between, Delay;
    ReplayNext(c, h, j - 1);
    if j > i + 1 {
      SuppressedUntilManual(c, h, i, j - 1);
      if Between(h, i, j - 1, {ManualStarted}) {
        BetweenGrows(h, i, j - 1, {ManualStarted});
      } else if h[j - 1].kind.ManualStarted? {
        BetweenLast(h, i, j - 1, {ManualStarted});
      }
    }
  }

  /** No start lies between a suppression and the next manual start. */
  lemma SuppressionHolds(c: Policy, steps: seq<Step>, i: nat, j: nat)
    requires Sound(c)
    requires var h := Run(c, EMPTY, steps).history; i < j < |h| && h[i].kind.Suppressed? && h[j].kind.RecoveryStarted?
    ensures Between(Run(c, EMPTY, steps).history, i, j, {ManualStarted})
  {
    hide Between, Replay, Apply, Faithful;
    var h := Run(c, EMPTY, steps).history;
    RunLawful(c, steps);
    assert PermittedAt(c, h, j);
    SuppressedUntilManual(c, h, i, j);
  }

  const RESETTING := {ManualStarted, ReadyObserved, RecoveryReady, OutageObserved}

  lemma {:induction false} DegradedUntilReset(c: Policy, h: seq<Event>, i: nat, j: nat)
    requires Sound(c) && Permitted(c, h) && i < j <= |h|
    requires var r := Replay(c, h[..i + 1]); r.Some? && r.value.state == Degraded
    ensures Between(h, i, j, RESETTING)
         || (var r := Replay(c, h[..j]); r.Some? && (r.value.state == Degraded || (r.value.suppressed && r.value.state != Recovering)))
    decreases j
  {
    hide Between, Delay, Replay, Permitted;
    if j > i + 1 {
      DegradedUntilReset(c, h, i, j - 1);
      ReplayNext(c, h, j - 1);
      if Between(h, i, j - 1, RESETTING) {
        BetweenGrows(h, i, j - 1, RESETTING);
      } else if h[j - 1].kind in RESETTING {
        BetweenLast(h, i, j - 1, RESETTING);
      } else {
        PermittedIs(c, h, j - 1);
      }
    }
  }

  lemma PermittedIs(c: Policy, h: seq<Event>, i: nat)
    requires Sound(c) && Permitted(c, h) && i < |h|
    ensures Allows(Replay(c, h[..i]), h[i])
  {
    assert PermittedAt(c, h, i);
  }

  /** Once DEGRADED, no start follows before a ready observation, a manual start or an outage seen
      with autostart off. */
  lemma DegradedHolds(c: Policy, steps: seq<Step>, i: nat, j: nat)
    requires Sound(c)
    requires var h := Run(c, EMPTY, steps).history; i < j < |h| && h[i].after == Degraded && h[j].kind.RecoveryStarted?
    ensures Between(Run(c, EMPTY, steps).history, i, j, RESETTING)
  {
    hide Between, Replay, Apply, Permitted;
    var h := Run(c, EMPTY, steps).history;
    RunLawful(c, steps);
    assert LinkedAt(c, h, i);
    DegradedUntilReset(c, h, i, j);
    PermittedIs(c, h, j);
  }

  // ---------------------------------------------------------------- backoff

  /** When the failure at position `i` allows the next start; `None` when it degrades the connector. */
  function RetryTime(c: Policy, h: seq<Event>, i: nat): Option<real>
    requires Sound(c) && i < |h|
  {
    var r := Replayed(c, Replay(c, h[..i]), h[i]);
    if r.failures >= c.limit then None else if r.failures == 0 then Some(h[i].at) else Some(h[i].at + Delay(c, r.failures))
  }

  predicate Holding(record: Option<Record>, retry: Option<real>) {
    && record.Some?
    && (|| record.value.state == Degraded
        || (record.value.suppressed && record.value.state != Recovering)
        || (retry.Some? && (|| (record.value.nextRetry.Some? && record.value.nextRetry.value >= retry.value)
                            || record.value.updatedAt >= retry.value)))
  }

  ghost predicate Stamped(c: Policy, h: seq<Event>)
    requires Sound(c)
  {
    forall i :: 0 < i <= |h| ==> StampedAt(c, h, i)
  }

  predicate StampedAt(c: Policy, h: seq<Event>, i: nat)
    requires Sound(c) && 0 < i <= |h|
  {
    var r := Replay(c, h[..i]);
    r.Some? && r.value.updatedAt == h[i - 1].at
  }

  lemma AllStamped(c: Policy, h: seq<Event>)
    requires Sound(c) && Permitted(c, h)
    ensures Stamped(c, h)
  {
    hide Replay, Permitted;
    forall i | 0 < i <= |h| ensures StampedAt(c, h, i) {
      ReplayNext(c, h, i - 1);
      PermittedIs(c, h, i - 1);
    }
  }

  lemma {:induction false} HoldsBack(c: Policy, h: seq<Event>, i: nat, j: nat)
    requires Sound(c) && Permitted(c, h) && InOrder(h) && i < j <= |h| && h[i].kind.RecoveryFailed?
    ensures Between(h, i, j, RESETTING) || Holding(Replay(c, h[..j]), RetryTime(c, h, i))
    decreases j
  {
    hide Between, Replay, Permitted, InOrder, Stamped;
    ReplayNext(c, h, j - 1);
    if j > i + 1 {
      HoldsBack(c, h, i, j - 1);
      if Between(h, i, j - 1, RESETTING) {
        BetweenGrows(h, i, j - 1, RESETTING);
      } else if h[j - 1].kind in RESETTING {
        BetweenLast(h, i, j - 1, RESETTING);
      } else {
        PermittedIs(c, h, j - 1);
        AllStamped(c, h);
        Later(c, h, j - 1);
      }
    }
  }

  lemma Later(c: Policy, h: seq<Event>, j: nat)
    requires Sound(c) && Stamped(c, h) && InOrder(h) && 0 < j < |h|
    ensures var r := Replay(c, h[..j]); r.Some? && r.value.updatedAt <= h[j].at
  {
    hide Replay;
    assert StampedAt(c, h, j);
  }

  /** Backoff: unless something resets the connector in between, every start after a failed start comes
      no earlier than the failure's own delay allows, and none comes after a failure that degrades it. */
  lemma BackoffHolds(c: Policy, steps: seq<Step>, i: nat, j: nat)
    requires Sound(c)
    requires var h := Run(c, EMPTY, steps).history;
             InOrder(h) && i < j < |h| && h[i].kind.RecoveryFailed? && h[j].kind.RecoveryStarted?
             && !Between(h, i, j, RESETTING)
    ensures var h := Run(c, EMPTY, steps).history;
            RetryTime(c, h, i).Some? && h[j].at >= RetryTime(c, h, i).value
  {
    hide Between, Replay, Apply, Permitted, RetryTime, InOrder, Faithful;
    var h := Run(c, EMPTY, steps).history;
    RunLawful(c, steps);
    HoldsBack(c, h, i, j);
    PermittedIs(c, h, j);
    AllStamped(c, h);
    Later(c, h, j);
  }
}
