/**
 One attempt inside a run of everybody: the calls it has made, the lock it holds, and what the steps of
 other attempts, processes and crashes of other processes leave untouched.
 */
module DexAttempts {
  import opened DexIdentity
  import opened DexAdmission
  import opened ExecutionStore
  import opened DexWire
  import opened DexSafety
  import opened DexRuns

  // ---------------------------------------------------------------- the calls of one attempt

  /** The dispatches logged under one attempt, in order. */
  function By(calls: seq<Call>, tid: Tid): seq<Call> {
    if calls == [] then []
    else By(calls[..|calls| - 1], tid) + if calls[|calls| - 1].tid == tid then [calls[|calls| - 1]] else []
  }

  /** Control points between the dispatch and the outcome. */
  predicate Sent(pc: Pc) {
    pc.MarkingDispatched? || pc.Collecting? || pc.Recording? || pc.Comparing? || pc.Retiring? || pc.Fencing?
  }

  /** Outcomes only an attempt that dispatched can end in. */
  predicate AfterCall(o: Outcome) {
    || o.Completed? || o.EvidenceRejected? || o.Untyped? || (o.Duplicate? && o.raced)
    || (o.Raised? && (o.error.CollectUnavailable? || o.error.ReceiptConflict?))
  }

  /** Outcomes no attempt that dispatched can end in. */
  predicate WithoutCall(o: Outcome) {
    o.Denial? || (o.Duplicate? && !o.raced) || (o.Raised? && o.error.RecordMissing?)
  }

  /** The calls an attempt at `pc` has made: none up to the dispatch, then exactly one, and at the end as
      many as its outcome admits to. */
  predicate Fits(calls: seq<Call>, tid: Tid, b: Binding, pc: Pc) {
    match pc
    case Finished(o) =>
      (calls == [] && !AfterCall(o)) || (calls == [Call(tid, b)] && !WithoutCall(o))
    case Retiring(_, o) => calls == [Call(tid, b)] && !WithoutCall(o)
    case Fencing(_, o) => calls == [Call(tid, b)] && !WithoutCall(o)
    case _ => calls == if Sent(pc) then [Call(tid, b)] else []
  }

  ghost predicate CallsFit(s: System) {
    && (forall i :: 0 <= i < |s.shared.dispatched| ==> s.shared.dispatched[i].tid < s.spawned)
    && (forall t :: t in s.threads ==>
          t < s.spawned && Fits(By(s.shared.dispatched, t), t, s.threads[t].binding, s.threads[t].pc))
  }

  lemma {:induction false} ByNobody(calls: seq<Call>, tid: Tid)
    requires forall i :: 0 <= i < |calls| ==> calls[i].tid != tid
    ensures By(calls, tid) == []
  {
    if calls != [] {
      ByNobody(calls[..|calls| - 1], tid);
    }
  }

  lemma BySnoc(calls: seq<Call>, c: Call, tid: Tid)
    ensures By(calls + [c], tid) == By(calls, tid) + if c.tid == tid then [c] else []
  {
    assert (calls + [c])[..|calls|] == calls;
  }

  lemma OwnStepFits(cfg: Config, sh: Shared, w: Wire, tid: Tid, th: Thread, env: Env)
    requires Fits(By(sh.dispatched, tid), tid, th.binding, th.pc)
    ensures var l := Step(cfg, sh, w, tid, th, env);
            Fits(By(l.shared.dispatched, tid), tid, th.binding, l.pc)
  {
    hide By, Journal, Reserve, Transition, Record, DecideFresh, Replay, FirstReceipt, CanRecord, CanTransition, CanJournal;
    StepCalls(cfg, sh, w, tid, th, env);
    BySnoc(sh.dispatched, Call(tid, th.binding), tid);
  }

  lemma RunFits(cfg: Config, s: System, tid: Tid, env: Env)
    requires CallsFit(s) && tid in s.threads && s.threads[tid].wire in s.wires
    ensures CallsFit(Apply(cfg, s, Run(tid, env)))
  {
    hide Step, By, Fits;
    var th := s.threads[tid];
    StepCalls(cfg, s.shared, s.wires[th.wire], tid, th, env);
    OwnStepFits(cfg, s.shared, s.wires[th.wire], tid, th, env);
    forall t | t in s.threads && t != tid
      ensures By(Apply(cfg, s, Run(tid, env)).shared.dispatched, t) == By(s.shared.dispatched, t)
    {
      BySnoc(s.shared.dispatched, Call(tid, th.binding), t);
    }
  }

  lemma ApplyFits(cfg: Config, s: System, e: Event)
    requires CallsFit(s)
    ensures CallsFit(Apply(cfg, s, e))
  {
    hide Step, By;
    match e
    case Run(tid, env) =>
      if tid in s.threads && s.threads[tid].wire in s.wires {
        RunFits(cfg, s, tid, env);
      }
    case Spawn(_, _, _) => ByNobody(s.shared.dispatched, s.spawned);
    case _ =>
  }

  /** In every run each attempt dispatches at most once, and its outcome says whether it may have. */
  lemma {:induction false} RunsFit(cfg: Config, run: seq<Event>)
    ensures CallsFit(Execute(cfg, run))
  {
    hide Apply;
    if run != [] {
      RunsFit(cfg, run[..|run| - 1]);
      ApplyFits(cfg, Execute(cfg, run[..|run| - 1]), run[|run| - 1]);
    }
  }

  lemma {:induction false} ByIsIn(calls: seq<Call>, c: Call)
    requires c in By(calls, c.tid)
    ensures c in calls
  {
    if calls != [] && calls[|calls| - 1] != c {
      ByIsIn(calls[..|calls| - 1], c);
    }
  }

  /** Two attempts of one identity never both dispatch, however far apart they are. */
  lemma OneCaller(sh: Shared, sh': Shared, c: Call, d: Call)
    requires Once(sh'.dispatched) && sh.dispatched <= sh'.dispatched
    requires By(sh.dispatched, c.tid) == [c] && By(sh'.dispatched, d.tid) == [d]
    requires IdOf(c.binding) == IdOf(d.binding)
    ensures c == d
  {
    hide By;
    assert c in By(sh.dispatched, c.tid) && d in By(sh'.dispatched, d.tid);
    ByIsIn(sh.dispatched, c);
    ByIsIn(sh'.dispatched, d);
    var i :| 0 <= i < |sh.dispatched| && sh.dispatched[i] == c;
    assert sh'.dispatched[i] == c;
    var j :| 0 <= j < |sh'.dispatched| && sh'.dispatched[j] == d;
  }

  lemma GrownCalls(sh: Shared, sh': Shared)
    requires Grows(sh, sh')
    ensures sh.dispatched <= sh'.dispatched
  {
  }

  // ---------------------------------------------------------------- the lock of one identity

  /** Control points inside the identity's lock. */
  predicate Inside(pc: Pc) {
    !pc.Deciding? && !pc.Loading? && !pc.Journaling? && !pc.Locking? && !pc.Finished?
  }

  predicate HoldsLock(s: System, t: Tid) {
    && t in s.threads && s.threads[t].wire in s.wires
    && IdOf(s.threads[t].binding) in s.wires[s.threads[t].wire].locks
    && s.wires[s.threads[t].wire].locks[IdOf(s.threads[t].binding)] == t
  }

  predicate LockHeld(s: System, w: nat, id: Id)
    requires w in s.wires && id in s.wires[w].locks
  {
    var t := s.wires[w].locks[id];
    t in s.threads && s.threads[t].wire == w && IdOf(s.threads[t].binding) == id && Inside(s.threads[t].pc)
  }

  /** A lock is held by the attempt of its identity that is inside it, and by nobody else. */
  ghost predicate LocksOk(s: System) {
    && (forall w, id :: w in s.wires && id in s.wires[w].locks ==> LockHeld(s, w, id))
    && (forall t :: t in s.threads ==> t < s.spawned && s.threads[t].wire in s.wires)
    && (forall t :: t in s.threads && Inside(s.threads[t].pc) ==> HoldsLock(s, t))
  }

  /** Only `Locking` takes a lock, and only the way into the lock leads through it. */
  lemma StepLocks(cfg: Config, sh: Shared, w: Wire, tid: Tid, th: Thread, env: Env)
    ensures var l := Step(cfg, sh, w, tid, th, env);
            if th.pc.Locking? && IdOf(th.binding) !in w.locks
            then l.wire.locks == w.locks[IdOf(th.binding) := tid] && l.pc == Checking(th.pc.adm)
            else l.wire.locks == w.locks
                 && (Inside(l.pc) ==> Inside(th.pc)) && (Inside(th.pc) ==> Inside(l.pc) || l.pc.Finished?)
  {
    hide Journal, Reserve, Transition, Record, DecideFresh, Replay, FirstReceipt, CanRecord, CanTransition, CanJournal;
    hide Landed, Insert;
  }

  lemma RunLocks(cfg: Config, s: System, tid: Tid, env: Env)
    requires LocksOk(s) && tid in s.threads
    ensures LocksOk(Apply(cfg, s, Run(tid, env)))
  {
    hide Step;
    var th := s.threads[tid];
    StepLocks(cfg, s.shared, s.wires[th.wire], tid, th, env);
    var s' := Apply(cfg, s, Run(tid, env));
    forall w, id | w in s'.wires && id in s'.wires[w].locks ensures LockHeld(s', w, id) {
      assert id in s.wires[w].locks ==> LockHeld(s, w, id);
    }
    forall t | t in s'.threads && Inside(s'.threads[t].pc) ensures HoldsLock(s', t) {
      assert t != tid ==> HoldsLock(s, t);
    }
  }

  lemma ApplyLocks(cfg: Config, s: System, e: Event)
    requires LocksOk(s)
    ensures LocksOk(Apply(cfg, s, e))
  {
    var s' := Apply(cfg, s, e);
    match e
    case Run(tid, env) =>
      if tid in s.threads {
        RunLocks(cfg, s, tid, env);
      }
    case _ =>
      forall w, id | w in s'.wires && id in s'.wires[w].locks ensures LockHeld(s', w, id) {
        assert LockHeld(s, w, id);
      }
      forall t | t in s'.threads && Inside(s'.threads[t].pc) ensures HoldsLock(s', t) {
        assert HoldsLock(s, t);
      }
  }

  lemma {:induction false} RunsLock(cfg: Config, run: seq<Event>)
    ensures LocksOk(Execute(cfg, run))
  {
    hide Apply, LocksOk;
    if run == [] {
      EmptyLocks();
    } else {
      RunsLock(cfg, run[..|run| - 1]);
      ApplyLocks(cfg, Execute(cfg, run[..|run| - 1]), run[|run| - 1]);
    }
  }

  lemma EmptyLocks()
    ensures LocksOk(Empty)
  {
  }

  /** In one process, at most one attempt of an identity is between its fence check and its receipt. */
  lemma OneInside(cfg: Config, run: seq<Event>, t: Tid, u: Tid)
    requires var s := Execute(cfg, run);
             && t in s.threads && u in s.threads && s.threads[t].wire == s.threads[u].wire
             && IdOf(s.threads[t].binding) == IdOf(s.threads[u].binding)
             && Inside(s.threads[t].pc) && Inside(s.threads[u].pc)
    ensures t == u
  {
    hide Execute;
    RunsLock(cfg, run);
    assert HoldsLock(Execute(cfg, run), t) && HoldsLock(Execute(cfg, run), u);
  }

  // ---------------------------------------------------------------- a lock is never stuck

  /** A step in which every call fails without effect. */
  const FAILING := Env(OtherFault(false), false, None)

  function Give(t: Tid): seq<Event> {
    [Run(t, FAILING)] + [Run(t, FAILING)]
  }

  lemma FailingStep(cfg: Config, sh: Shared, w: Wire, tid: Tid, th: Thread)
    requires Inside(th.pc)
    ensures var pc := Step(cfg, sh, w, tid, th, FAILING).pc;
            pc.Finished? || ((pc.Probing? || pc.Fencing?) && !th.pc.Probing? && !th.pc.Fencing?)
  {
    hide Journal, Reserve, Transition, Record, DecideFresh, Replay, FirstReceipt, CanRecord, CanTransition, CanJournal;
  }

  lemma FailingEnds(cfg: Config, sh: Shared, w: Wire, tid: Tid, th: Thread)
    requires th.pc.Probing? || th.pc.Fencing?
    ensures Step(cfg, sh, w, tid, th, FAILING).pc.Finished?
  {
    hide CanTransition, Landed;
  }

  /** Whoever holds the lock leaves it within two of its steps when everything it calls fails. */
  lemma LockIsGiven(cfg: Config, run: seq<Event>, w: nat, id: Id)
    requires var s := Execute(cfg, run); w in s.wires && id in s.wires[w].locks
    ensures var s' := Execute(cfg, run + Give(Execute(cfg, run).wires[w].locks[id]));
            w in s'.wires && id !in s'.wires[w].locks
  {
    hide Execute, Step, LocksOk;
    var s := Execute(cfg, run);
    var t := s.wires[w].locks[id];
    var last := Run(t, FAILING);
    RunsLock(cfg, run);
    LockFacts(s, w, id);
    assert run + Give(t) == (run + [last]) + [last];
    ExecuteSnoc(cfg, run, last);
    ExecuteSnoc(cfg, run + [last], last);
    var mid := Apply(cfg, s, last);
    FailingStep(cfg, s.shared, s.wires[w], t, s.threads[t]);
    StepLocks(cfg, s.shared, s.wires[w], t, s.threads[t], FAILING);
    if mid.threads[t].pc.Finished? {
      StepLocks(cfg, mid.shared, mid.wires[w], t, mid.threads[t], FAILING);
    } else {
      FailingEnds(cfg, mid.shared, mid.wires[w], t, mid.threads[t]);
      StepLocks(cfg, mid.shared, mid.wires[w], t, mid.threads[t], FAILING);
    }
  }

  lemma LockFacts(s: System, w: nat, id: Id)
    requires LocksOk(s) && w in s.wires && id in s.wires[w].locks
    ensures LockHeld(s, w, id)
  {
  }

  // ---------------------------------------------------------------- one attempt among others

  /** The attempt stands at its own control point, in these shared tables and this process state. */
  predicate Stands(cfg: Config, run: seq<Event>, tid: Tid, th: Thread, sh: Shared, w: Wire) {
    var s := Execute(cfg, run);
    && s.shared == sh
    && th.wire in s.wires && s.wires[th.wire] == Unlock(w, tid, th, th.pc)
    && tid in s.threads && s.threads[tid] == th
  }

  /** Events of others: not a step of this attempt, nor the end of its process. */
  predicate Foreign(tid: Tid, wire: nat, e: Event) {
    e != Crash(wire) && !(e.Run? && e.tid == tid)
  }

  lemma Booted(cfg: Config, run: seq<Event>, wire: nat)
    requires wire !in Execute(cfg, run).wires
    ensures var s := Execute(cfg, run + [Boot(wire)]);
            s.shared == Execute(cfg, run).shared && wire in s.wires && s.wires[wire] == Wire({}, map[], map[])
  {
    ExecuteSnoc(cfg, run, Boot(wire));
  }

  lemma Spawned(cfg: Config, run: seq<Event>, wire: nat, b: Binding, view: ClaimView)
    requires wire in Execute(cfg, run).wires
    ensures var s := Execute(cfg, run);
            Stands(cfg, run + [Spawn(wire, b, view)], s.spawned, Thread(wire, b, view, Deciding), s.shared, s.wires[wire])
  {
    ExecuteSnoc(cfg, run, Spawn(wire, b, view));
  }

  /** The end of the attempt, where the lock goes back. */
  lemma Ended(cfg: Config, run: seq<Event>, tid: Tid, th: Thread, sh: Shared, w: Wire)
    requires Stands(cfg, run, tid, th, sh, w) && th.pc.Finished?
    ensures var s := Execute(cfg, run);
            && s.shared == sh && th.wire in s.wires && s.wires[th.wire] == Unlock(w, tid, th, th.pc)
            && Ends(s, tid, Asked(th), th.pc.outcome)
  {
    hide Execute;
  }

  /** A step of the attempt itself. */
  lemma Stepped(cfg: Config, run: seq<Event>, tid: Tid, th: Thread, sh: Shared, w: Wire, env: Env)
    requires Stands(cfg, run, tid, th, sh, w) && !th.pc.Finished?
    ensures var l := Step(cfg, sh, w, tid, th, env);
            Stands(cfg, run + [Run(tid, env)], tid, th.(pc := l.pc), l.shared, l.wire)
  {
    hide Execute, Step;
    ExecuteSnoc(cfg, run, Run(tid, env));
  }

  lemma StepFences(cfg: Config, sh: Shared, w: Wire, tid: Tid, th: Thread, env: Env)
    ensures w.fenced <= Step(cfg, sh, w, tid, th, env).wire.fenced
  {
    hide Journal, Reserve, Transition, Record, DecideFresh, Replay, FirstReceipt, CanRecord, CanTransition, CanJournal;
    hide Landed, Insert;
  }

  /** An event of others: the attempt stays where it is, and its process forgets no fence. */
  lemma Elsewhere(cfg: Config, run: seq<Event>, tid: Tid, th: Thread, sh: Shared, w: Wire, e: Event)
    requires Stands(cfg, run, tid, th, sh, w) && !th.pc.Finished? && Foreign(tid, th.wire, e)
    ensures var s := Execute(cfg, run + [e]);
            && th.wire in s.wires && w.fenced <= s.wires[th.wire].fenced
            && Stands(cfg, run + [e], tid, th, s.shared, s.wires[th.wire])
  {
    hide Execute, Step;
    RunsLock(cfg, run);
    ExecuteSnoc(cfg, run, e);
    var s := Execute(cfg, run);
    if e.Run? && e.tid in s.threads {
      StepFences(cfg, s.shared, s.wires[s.threads[e.tid].wire], e.tid, s.threads[e.tid], e.env);
    }
  }

  /** What is known of an attempt wherever it stands. */
  lemma Standing(cfg: Config, run: seq<Event>, tid: Tid, th: Thread, sh: Shared, w: Wire)
    requires Stands(cfg, run, tid, th, sh, w)
    ensures Fits(By(sh.dispatched, tid), tid, th.binding, th.pc)
    ensures Inside(th.pc) ==> IdOf(th.binding) in w.locks && w.locks[IdOf(th.binding)] == tid
    ensures Sound(cfg) ==> SharedOk(cfg, sh) && ThreadOk(cfg, sh, tid, th)
  {
    hide Execute, SharedOk, ThreadOk, Sound, Fits, By;
    RunsFit(cfg, run);
    RunsLock(cfg, run);
    if Inside(th.pc) {
      assert HoldsLock(Execute(cfg, run), tid);
    }
    if Sound(cfg) {
      RunsOk(cfg, run);
    }
  }

  /** What the tables keep between two points of one run. */
  lemma Onward(cfg: Config, run: seq<Event>, run': seq<Event>)
    requires Sound(cfg) && run <= run'
    ensures Grows(Execute(cfg, run).shared, Execute(cfg, run').shared)
  {
    assert run' == run + run'[|run|..];
    Durable(cfg, run, run'[|run|..]);
  }
}
