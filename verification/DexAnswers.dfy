/**
 What an attempt must answer.  A stored receipt stops every later attempt of its execution for good, and an
 attempt in which nothing fails ends as the state it finds, its claim and its evidence decide.
 */
module DexAnswers {
  import opened DexIdentity
  import opened DexAdmission
  import opened ExecutionStore
  import opened DexWire
  import opened DexSafety
  import opened DexRuns
  import opened DexAttempts

  /** Receipt identifiers are digests, and no digest is the empty text. */
  ghost predicate Named(cfg: Config) {
    forall k :: cfg.receiptId(k) != ""
  }

  predicate ReceiptOn(s: Store, rid: string, x: string) {
    rid in s.receipts && s.receipts[rid].key.executionId == x
  }

  ghost predicate Receipted(s: Store, x: string) {
    exists rid :: ReceiptOn(s, rid, x)
  }

  /** The receipt of the execution that was recorded first. */
  predicate IsFirst(s: Store, rid: string, x: string) {
    ReceiptOn(s, rid, x)
    && exists i :: 0 <= i < |s.recorded| && s.recorded[i] == rid
                   && forall j :: 0 <= j < i ==> !ReceiptOn(s, s.recorded[j], x)
  }

  // ---------------------------------------------------------------- the order of recording

  ghost predicate Indexed(s: Store) {
    forall rid :: rid in s.receipts <==> rid in s.recorded
  }

  lemma RecordIndexed(s: Store, rid: string, r: Receipt)
    requires Indexed(s)
    ensures Indexed(Record(s, rid, r))
  {
  }

  lemma StoreUntouched(cfg: Config, sh: Shared, w: Wire, tid: Tid, th: Thread, env: Env)
    requires !th.pc.Recording? && !th.pc.Journaling? && !th.pc.Reserving? && !th.pc.MarkingDispatched?
    requires !th.pc.Retiring? && !th.pc.Fencing?
    ensures Step(cfg, sh, w, tid, th, env).shared.store == sh.store
  {
    hide StepRecording, StepJournaling, StepReserving, StepMarking, StepRetiring, StepFencing, Replay, After, FirstReceipt,
         DecideFresh;
  }

  predicate SameReceipts(s: Store, s': Store) {
    s'.receipts == s.receipts && s'.recorded == s.recorded
  }

  lemma MovesUntouched(sh: Shared, fault: Fault, id: Id, to: FenceState)
    ensures SameReceipts(sh.store, Landed(sh, fault, Transition(sh.store, id, to)).store)
  {
    hide CanTransition;
  }

  lemma InsertsUntouched(sh: Shared, w: Wire, tid: Tid, th: Thread, r: AdmissionRecord, fault: Fault)
    ensures SameReceipts(sh.store, StepJournaling(sh, w, th, r, fault).shared.store)
    ensures SameReceipts(sh.store, StepReserving(sh, w, tid, th, r, fault).shared.store)
  {
    hide CanJournal, After;
  }

  /** Only the recording step touches the receipts. */
  lemma ReceiptsUntouched(cfg: Config, sh: Shared, w: Wire, tid: Tid, th: Thread, env: Env)
    requires !th.pc.Recording?
    ensures SameReceipts(sh.store, Step(cfg, sh, w, tid, th, env).shared.store)
  {
    hide CanTransition, Landed, Transition, StepJournaling, StepReserving, StepDeciding, StepLoading, StepChecking, StepProbing,
         StepDuplicates, StepDispatching, StepCollecting, StepComparing, StepRecording, SameReceipts;
    match th.pc
    case Journaling(r) => InsertsUntouched(sh, w, tid, th, r, env.fault);
    case Reserving(r) => InsertsUntouched(sh, w, tid, th, r, env.fault);
    case MarkingDispatched(_) => MovesUntouched(sh, env.fault, IdOf(th.binding), FenceState.Dispatched);
    case Retiring(_, _) => MovesUntouched(sh, env.fault, IdOf(th.binding), Retired);
    case Fencing(_, _) => MovesUntouched(sh, env.fault, IdOf(th.binding), FenceState.Fenced);
    case _ =>
      StoreUntouched(cfg, sh, w, tid, th, env);
      SameIsSame(sh.store);
  }

  lemma SameIsSame(s: Store)
    ensures SameReceipts(s, s)
  {
  }

  lemma StepIndexed(cfg: Config, sh: Shared, w: Wire, tid: Tid, th: Thread, env: Env)
    requires Indexed(sh.store)
    ensures Indexed(Step(cfg, sh, w, tid, th, env).shared.store)
  {
    hide CanRecord, Indexed, Record;
    if th.pc.Recording? {
      var rid, r := cfg.receiptId(th.pc.receipt.key), th.pc.receipt;
      RecordIndexed(sh.store, rid, r);
      assert StepRecording(cfg, sh, w, th, th.pc, env.fault).shared.store in {sh.store, Record(sh.store, rid, r)};
    } else {
      ReceiptsUntouched(cfg, sh, w, tid, th, env);
      SameIndex(sh.store, Step(cfg, sh, w, tid, th, env).shared.store);
    }
  }

  lemma SameIndex(s: Store, s': Store)
    requires Indexed(s) && SameReceipts(s, s')
    ensures Indexed(s')
  {
  }

  lemma {:induction false} RunsIndexed(cfg: Config, run: seq<Event>)
    ensures Indexed(Execute(cfg, run).shared.store)
  {
    hide Step, Indexed;
    if run == [] {
      EmptyIndexed();
    } else {
      var s, e := Execute(cfg, run[..|run| - 1]), run[|run| - 1];
      RunsIndexed(cfg, run[..|run| - 1]);
      if e.Run? && e.tid in s.threads && s.threads[e.tid].wire in s.wires {
        StepIndexed(cfg, s.shared, s.wires[s.threads[e.tid].wire], e.tid, s.threads[e.tid], e.env);
      } else {
        SameIndex(s.shared.store, Apply(cfg, s, e).shared.store);
      }
    }
  }

  lemma EmptyIndexed()
    ensures Indexed(Empty.shared.store)
  {
  }

  lemma {:induction false} FirstOf(s: Store, x: string, ids: seq<string>)
    requires "" !in s.receipts
    ensures var rid := FirstReceipt(s, x, ids);
            if rid == "" then forall j :: 0 <= j < |ids| ==> !ReceiptOn(s, ids[j], x)
            else ReceiptOn(s, rid, x)
                 && exists i :: 0 <= i < |ids| && ids[i] == rid && forall j :: 0 <= j < i ==> !ReceiptOn(s, ids[j], x)
  {
    if ids != [] && !ReceiptOn(s, ids[0], x) {
      var rest := ids[1..];
      FirstOf(s, x, rest);
      assert ids == [ids[0]] + rest;
      if FirstReceipt(s, x, rest) != "" {
        var i :| 0 <= i < |rest| && rest[i] == FirstReceipt(s, x, rest) && forall j :: 0 <= j < i ==> !ReceiptOn(s, rest[j], x);
        assert ids[i + 1] == rest[i];
        assert forall j :: 0 < j < i + 1 ==> ids[j] == rest[j - 1];
      } else {
        assert forall j :: 0 < j < |ids| ==> ids[j] == rest[j - 1];
      }
    }
  }

  lemma NoEmptyName(cfg: Config, sh: Shared)
    requires Named(cfg) && SharedOk(cfg, sh)
    ensures "" !in sh.store.receipts
  {
    hide JournalOk, FencesOk, CallsOk;
    forall rid | rid in sh.store.receipts ensures rid != "" {
      assert ReceiptOk(cfg, rid, sh.store.receipts[rid], sh.origin[rid]);
    }
  }

  /** What the duplicate check finds. */
  lemma Finds(cfg: Config, run: seq<Event>, x: string)
    requires Sound(cfg) && Named(cfg)
    ensures var s := Execute(cfg, run).shared.store;
            var rid := FirstReceipt(s, x, s.recorded);
            if Receipted(s, x) then rid != "" && IsFirst(s, rid, x) else rid == ""
  {
    hide Execute, FirstReceipt, SharedOk, Sound;
    var sh := Execute(cfg, run).shared;
    RunsOk(cfg, run);
    RunsIndexed(cfg, run);
    NoEmptyName(cfg, sh);
    FirstOf(sh.store, x, sh.store.recorded);
  }

  // ---------------------------------------------------------------- a receipt stops later attempts

  /** Control points that do not lead past the duplicate check. */
  predicate Early(pc: Pc) {
    || pc.Deciding? || pc.Loading? || pc.Journaling? || pc.Locking? || pc.Checking? || pc.Probing? || pc.Duplicates?
    || pc.Finished?
  }

  lemma StepEarly(cfg: Config, sh: Shared, w: Wire, tid: Tid, th: Thread, env: Env)
    requires Early(th.pc)
    requires FirstReceipt(sh.store, th.binding.executionId, sh.store.recorded) != ""
    ensures Early(Step(cfg, sh, w, tid, th, env).pc)
  {
    hide Journal, DecideFresh, Replay, FirstReceipt, CanJournal;
  }

  /** Attempt number `n` and later ones of the execution have not dispatched and are not about to. */
  ghost predicate Held(s: System, x: string, n: Tid) {
    && n <= s.spawned && Receipted(s.shared.store, x)
    && (forall t :: t in s.threads && t >= n && s.threads[t].binding.executionId == x ==> Early(s.threads[t].pc))
    && (forall i :: 0 <= i < |s.shared.dispatched| && s.shared.dispatched[i].tid >= n ==>
          s.shared.dispatched[i].binding.executionId != x)
  }

  lemma ReceiptedSurvives(sh: Shared, sh': Shared, x: string)
    requires Grows(sh, sh') && Receipted(sh.store, x)
    ensures Receipted(sh'.store, x)
  {
    var rid :| ReceiptOn(sh.store, rid, x);
    assert ReceiptOn(sh'.store, rid, x);
  }

  lemma HeldRun(cfg: Config, s: System, tid: Tid, env: Env, x: string, n: Tid)
    requires Held(s, x, n) && CallsFit(s) && tid in s.threads && s.threads[tid].wire in s.wires
    requires FirstReceipt(s.shared.store, x, s.shared.store.recorded) != ""
    ensures var s' := Apply(cfg, s, Run(tid, env)); Receipted(s'.shared.store, x) ==> Held(s', x, n)
  {
    hide Step, Receipted, Early, FirstReceipt, Fits;
    var th := s.threads[tid];
    StepCalls(cfg, s.shared, s.wires[th.wire], tid, th, env);
    if th.binding.executionId == x && tid >= n {
      StepEarly(cfg, s.shared, s.wires[th.wire], tid, th, env);
      NotDispatching(th.pc);
    }
  }

  lemma HeldStays(cfg: Config, run: seq<Event>, e: Event, x: string, n: Tid)
    requires Sound(cfg) && Named(cfg) && Held(Execute(cfg, run), x, n)
    ensures Held(Execute(cfg, run + [e]), x, n)
  {
    hide Execute, Step, Sound, Named, Receipted, Early, Grows, FirstReceipt, CallsFit;
    var s, s' := Execute(cfg, run), Execute(cfg, run + [e]);
    ExecuteSnoc(cfg, run, e);
    RunsFit(cfg, run);
    Durable(cfg, run, [e]);
    ReceiptedSurvives(s.shared, s'.shared, x);
    Finds(cfg, run, x);
    EarlyStart();
    if e.Run? && e.tid in s.threads && s.threads[e.tid].wire in s.wires {
      HeldRun(cfg, s, e.tid, e.env, x, n);
    }
  }

  lemma EarlyStart()
    ensures Early(Deciding)
  {
  }

  lemma NotDispatching(pc: Pc)
    requires Early(pc)
    ensures !pc.Dispatching?
  {
  }

  /** Once a receipt of an execution is stored, no attempt of it that starts later ever dispatches, in
      whatever process and under whatever attempt id. */
  lemma {:induction false} ReceiptStops(cfg: Config, run: seq<Event>, later: seq<Event>, x: string)
    requires Sound(cfg) && Named(cfg) && Receipted(Execute(cfg, run).shared.store, x)
    ensures Held(Execute(cfg, run + later), x, Execute(cfg, run).spawned)
    decreases |later|
  {
    hide Execute, Sound, Named, Receipted;
    var s := Execute(cfg, run);
    if later == [] {
      assert run + later == run;
      RunsFit(cfg, run);
    } else {
      var init, e := later[..|later| - 1], later[|later| - 1];
      assert run + later == (run + init) + [e];
      ReceiptStops(cfg, run, init, x);
      HeldStays(cfg, run + init, e, x, s.spawned);
    }
  }

  /** So such an attempt has made no call, wherever it stands. */
  lemma ReceiptSilences(cfg: Config, run: seq<Event>, later: seq<Event>, x: string, t: Tid, b: Binding)
    requires Sound(cfg) && Named(cfg) && Receipted(Execute(cfg, run).shared.store, x)
    requires t >= Execute(cfg, run).spawned && b.executionId == x
    ensures Call(t, b) !in Execute(cfg, run + later).shared.dispatched
  {
    hide Execute, Sound, Named, Receipted;
    ReceiptStops(cfg, run, later, x);
  }
}
