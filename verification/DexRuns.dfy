/** What holds of the dispatch protocol in every run, and runs that show the bounds are met. */
module DexRuns {
  import opened DexIdentity
  import opened DexAdmission
  import opened ExecutionStore
  import opened DexWire
  import opened DexSafety

  lemma ExecuteSnoc(cfg: Config, run: seq<Event>, e: Event)
    ensures Execute(cfg, run + [e]) == Apply(cfg, Execute(cfg, run), e)
  {
    assert (run + [e])[..|run|] == run;
  }

  lemma EmptyOk(cfg: Config)
    ensures SystemOk(cfg, Empty)
  {
  }

  lemma {:induction false} RunsOk(cfg: Config, run: seq<Event>)
    requires Sound(cfg)
    ensures SystemOk(cfg, Execute(cfg, run))
  {
    hide Sound, SystemOk, Apply;
    if run == [] {
      EmptyOk(cfg);
    } else {
      RunsOk(cfg, run[..|run| - 1]);
      ApplyOk(cfg, Execute(cfg, run[..|run| - 1]), run[|run| - 1]);
    }
  }

  lemma GrowsTransitive(a: Shared, b: Shared, c: Shared)
    requires Grows(a, b) && Grows(b, c)
    ensures Grows(a, c)
  {
  }

  /** Durable rows survive whatever happens later. */
  lemma {:induction false} Durable(cfg: Config, run: seq<Event>, later: seq<Event>)
    requires Sound(cfg)
    ensures Grows(Execute(cfg, run).shared, Execute(cfg, run + later).shared)
    decreases |later|
  {
    hide Sound, SystemOk, Apply, Grows;
    if later == [] {
      assert run + later == run;
      GrowsRefl(Execute(cfg, run).shared);
    } else {
      var init, last := later[..|later| - 1], later[|later| - 1];
      assert run + later == (run + init) + [last];
      Durable(cfg, run, init);
      ExecuteSnoc(cfg, run + init, last);
      RunsOk(cfg, run + init);
      ApplyOk(cfg, Execute(cfg, run + init), last);
      GrowsTransitive(Execute(cfg, run).shared, Execute(cfg, run + init).shared, Execute(cfg, run + later).shared);
    }
  }

  // ---------------------------------------------------------------- at most one dispatch

  /** Whatever fails or crashes, and however many processes share the store, the transport is asked
      to dispatch an attempt identity at most once. */
  lemma AtMostOnce(cfg: Config, run: seq<Event>, i: nat, j: nat)
    requires Sound(cfg)
    requires i < |Execute(cfg, run).shared.dispatched| && j < |Execute(cfg, run).shared.dispatched|
    requires IdOf(Execute(cfg, run).shared.dispatched[i].binding) == IdOf(Execute(cfg, run).shared.dispatched[j].binding)
    ensures i == j
  {
    hide Execute, JournalOk, FencesOk, ReceiptsOk;
    RunsOk(cfg, run);
  }

  /** What must already be durable when `c` is about to be made: a journalled admission for this very
      binding, given while its claim was live, and a fence row created by the same attempt; and the
      identity must not have been dispatched before. */
  ghost predicate Prepared(cfg: Config, sh: Shared, c: Call) {
    var id := IdOf(c.binding);
    && AdmittedFor(cfg, sh.store.journal, sh.asked, c.binding)
    && id in sh.store.fences && sh.store.fences[id].bindingDigest == cfg.digest(c.binding)
    && id in sh.owner && sh.owner[id] == c.tid
    && Uncalled(sh.dispatched, id)
  }

  lemma StepCalls(cfg: Config, sh: Shared, w: Wire, tid: Tid, th: Thread, env: Env)
    ensures Step(cfg, sh, w, tid, th, env).shared.dispatched
         == if th.pc.Dispatching? then sh.dispatched + [Call(tid, th.binding)] else sh.dispatched
  {
    hide Journal, Reserve, Transition, Record, DecideFresh, Replay, FirstReceipt, CanRecord, CanTransition, CanJournal, After;
    match th.pc
    case Deciding => assert StepDeciding(cfg, sh, w, th).shared == sh;
    case Loading => assert StepLoading(cfg, sh, w, th, env.fault).shared == sh;
    case Collecting(adm) => assert StepCollecting(cfg, sh, w, th, adm, env.collected).shared == sh;
    case _ =>
  }

  lemma WindowPrepared(cfg: Config, s: System, tid: Tid)
    requires SystemOk(cfg, s) && tid in s.threads && s.threads[tid].pc.Dispatching?
    ensures Prepared(cfg, s.shared, Call(tid, s.threads[tid].binding))
  {
    hide JournalOk, CallsOk, ReceiptsOk, SettledOk;
    var id := IdOf(s.threads[tid].binding);
    assert ThreadOk(cfg, s.shared, tid, s.threads[tid]);
    assert FenceOk(s.shared.store.journal, id, s.shared.store.fences[id]);
  }

  /** Every dispatch is preceded by a journalled admission and a committed reservation. */
  lemma DispatchIsPreceded(cfg: Config, run: seq<Event>, e: Event)
    requires Sound(cfg)
    ensures var before, after := Execute(cfg, run).shared, Execute(cfg, run + [e]).shared;
            after.dispatched == before.dispatched
            || exists c :: after.dispatched == before.dispatched + [c] && Prepared(cfg, before, c)
  {
    hide Execute, Sound, SystemOk, Step;
    RunsOk(cfg, run);
    ExecuteSnoc(cfg, run, e);
    var s := Execute(cfg, run);
    if e.Run? && e.tid in s.threads && s.threads[e.tid].wire in s.wires {
      var th := s.threads[e.tid];
      StepCalls(cfg, s.shared, s.wires[th.wire], e.tid, th, e.env);
      if th.pc.Dispatching? {
        WindowPrepared(cfg, s, e.tid);
      }
    }
  }

  /** An identity whose journalled decision is a denial is dispatched neither before nor after. */
  lemma DeniedNeverDispatches(cfg: Config, run: seq<Event>, later: seq<Event>, id: Id)
    requires Sound(cfg)
    requires id in Execute(cfg, run).shared.store.journal
    requires Execute(cfg, run).shared.store.journal[id].ruling.Denied?
    ensures Uncalled(Execute(cfg, run + later).shared.dispatched, id)
  {
    hide Execute, Sound, JournalOk, ReceiptsOk, FencesOk, SettledOk, FencesForward;
    Durable(cfg, run, later);
    RunsOk(cfg, run + later);
    var sh := Execute(cfg, run + later).shared;
    forall i | 0 <= i < |sh.dispatched| ensures IdOf(sh.dispatched[i].binding) != id {
      assert CallOk(cfg, sh.store.journal, sh.asked, sh.owner, sh.dispatched[i]);
    }
  }

  // ---------------------------------------------------------------- decisions never flip

  /** Outcomes that presuppose an admission. */
  predicate Presupposes(o: Outcome) {
    o.Ambiguous? || o.EvidenceRejected? || o.Completed? || o.Duplicate? || o.Untyped?
  }

  predicate Ends(s: System, t: Tid, q: Request, o: Outcome) {
    t in s.threads && s.threads[t].pc == Finished(o) && Asked(s.threads[t]) == q
  }

  lemma OutcomeHolds(cfg: Config, run: seq<Event>, t: Tid, q: Request, o: Outcome)
    requires Sound(cfg) && Ends(Execute(cfg, run), t, q, o)
    ensures OutcomeOk(cfg, Execute(cfg, run).shared, q, o)
  {
    hide Execute, Sound, SharedOk, OutcomeOk;
    RunsOk(cfg, run);
    var s := Execute(cfg, run);
    assert ThreadOk(cfg, s.shared, t, s.threads[t]);
  }

  lemma PresupposedGrant(cfg: Config, sh: Shared, q: Request, o: Outcome)
    requires OutcomeOk(cfg, sh, q, o) && Presupposes(o)
    ensures IdOf(q.binding) in sh.store.journal
    ensures sh.store.journal[IdOf(q.binding)].bindingDigest == cfg.digest(q.binding)
    ensures sh.store.journal[IdOf(q.binding)].claimGeneration == q.view.claimGeneration
    ensures Replay(sh.store.journal[IdOf(q.binding)], q.binding, q.view, cfg.digest(q.binding)) == Admitted
  {
  }

  lemma AnswersAgree(cfg: Config, sh: Shared, q1: Request, o1: Outcome, q2: Request, o2: Outcome)
    requires Sound(cfg) && OutcomeOk(cfg, sh, q1, o1) && OutcomeOk(cfg, sh, q2, o2)
    requires IdOf(q1.binding) == IdOf(q2.binding) && Presupposes(o1)
    ensures Presupposes(o2) ==> q1.binding == q2.binding && q1.view.claimGeneration == q2.view.claimGeneration
    ensures o2.Denial? ==>
              o2.code == IdentityMismatch
              && (q1.binding != q2.binding || q1.view.claimGeneration != q2.view.claimGeneration)
  {
    hide OutcomeOk;
    PresupposedGrant(cfg, sh, q1, o1);
    if Presupposes(o2) {
      PresupposedGrant(cfg, sh, q2, o2);
    } else if o2.Denial? {
      DenialReplays(cfg, sh, q2, o2);
    }
  }

  lemma DenialReplays(cfg: Config, sh: Shared, q: Request, o: Outcome)
    requires OutcomeOk(cfg, sh, q, o) && o.Denial?
    ensures IdOf(q.binding) in sh.store.journal
    ensures Replay(sh.store.journal[IdOf(q.binding)], q.binding, q.view, cfg.digest(q.binding)) == Denied(o.code, o.detail)
  {
  }

  /** Two answers for one identity, however far apart and whatever processes gave them: all requests
      let through presented the same binding and generation; a request denied beside an admitted one
      presented a different one and is told so; and a request denied twice is denied alike. */
  lemma DecisionsNeverFlip(cfg: Config, run: seq<Event>, later: seq<Event>,
                           t1: Tid, q1: Request, o1: Outcome, t2: Tid, q2: Request, o2: Outcome)
    requires Sound(cfg) && Ends(Execute(cfg, run), t1, q1, o1) && Ends(Execute(cfg, run + later), t2, q2, o2)
    requires IdOf(q1.binding) == IdOf(q2.binding)
    ensures Presupposes(o1) && Presupposes(o2) ==>
              q1.binding == q2.binding && q1.view.claimGeneration == q2.view.claimGeneration
    ensures Presupposes(o1) && o2.Denial? ==> IsMismatch(o2, q1, q2)
    ensures Presupposes(o2) && o1.Denial? ==> IsMismatch(o1, q1, q2)
    ensures q1 == q2 && o1.Denial? && o2.Denial? ==> o1 == o2
  {
    hide Execute, SharedOk, Grows, OutcomeOk, Sound;
    OutcomeHolds(cfg, run, t1, q1, o1);
    OutcomeHolds(cfg, run + later, t2, q2, o2);
    Durable(cfg, run, later);
    var sh := Execute(cfg, run + later).shared;
    OutcomeSurvives(cfg, Execute(cfg, run).shared, sh, q1, o1);
    if Presupposes(o1) {
      AnswersAgree(cfg, sh, q1, o1, q2, o2);
    } else if Presupposes(o2) {
      AnswersAgree(cfg, sh, q2, o2, q1, o1);
    } else if q1 == q2 && o1.Denial? && o2.Denial? {
      DenialReplays(cfg, sh, q1, o1);
      DenialReplays(cfg, sh, q2, o2);
    }
  }

  /** The typed conflict of a request that differs from the decided one. */
  predicate IsMismatch(o: Outcome, q1: Request, q2: Request)
    requires o.Denial?
  {
    o.code == IdentityMismatch
    && (q1.binding != q2.binding || q1.view.claimGeneration != q2.view.claimGeneration)
  }

  // ---------------------------------------------------------------- completion is sound

  /** COMPLETED, and DUPLICATE after a receipt race, stand for a stored receipt that agrees with the
      admitted binding on digest, generation and both commits, now and ever after. */
  lemma CompletionIsSound(cfg: Config, run: seq<Event>, later: seq<Event>, t: Tid, q: Request, o: Outcome)
    requires Sound(cfg) && Ends(Execute(cfg, run), t, q, o)
    requires o.Completed? || (o.Duplicate? && o.raced)
    ensures var sh := Execute(cfg, run + later).shared;
            && AdmittedFor(cfg, sh.store.journal, sh.asked, q.binding)
            && o.receiptId in sh.store.receipts
            && Agrees(cfg, sh.store.receipts[o.receiptId], q.binding)
            && WasDispatched(cfg, sh.store.receipts[o.receiptId], sh.settled, sh.asked, sh.owner, sh.dispatched)
  {
    hide Execute, Sound, JournalOk, FencesOk, CallsOk, SettledOk, Grows;
    OutcomeHolds(cfg, run, t, q, o);
    Durable(cfg, run, later);
    OutcomeSurvives(cfg, Execute(cfg, run).shared, Execute(cfg, run + later).shared, q, o);
    RunsOk(cfg, run + later);
  }

  /** Every stored receipt belongs to a dispatched attempt, and evidence collected under drift is
      never stored as accepted, nor undisturbed evidence as quarantined. */
  lemma ReceiptsAreJustified(cfg: Config, run: seq<Event>, rid: string)
    requires Sound(cfg) && rid in Execute(cfg, run).shared.store.receipts
    ensures var sh := Execute(cfg, run).shared;
            var r := sh.store.receipts[rid];
            && rid in sh.origin
            && (r.disposition == Quarantined <==> sh.origin[rid].drift)
            && r.evidenceRef == sh.origin[rid].evidenceRef
            && WasDispatched(cfg, r, sh.settled, sh.asked, sh.owner, sh.dispatched)
  {
    hide Execute, Sound, JournalOk, FencesOk, CallsOk, SettledOk;
    RunsOk(cfg, run);
    var sh := Execute(cfg, run).shared;
    assert ReceiptOk(cfg, rid, sh.store.receipts[rid], sh.origin[rid]);
  }

  /** A fence only moves forward, and is retired only once a receipt of its attempt is stored. */
  lemma FencesAreHonest(cfg: Config, run: seq<Event>, later: seq<Event>, id: Id)
    requires Sound(cfg) && id in Execute(cfg, run).shared.store.fences
    ensures var before, after := Execute(cfg, run).shared.store, Execute(cfg, run + later).shared.store;
            && id in after.fences
            && Forward(before.fences[id], after.fences[id])
            && (after.fences[id].state.Retired? ==>
                  exists rid :: rid in after.receipts && ReceiptFor(after.receipts[rid], id))
  {
    hide Execute, Sound, JournalOk, CallsOk, ReceiptsOk, SettledOk;
    Durable(cfg, run, later);
    RunsOk(cfg, run + later);
    var sh := Execute(cfg, run + later).shared;
    assert RetiredOk(id, sh.store.fences[id], sh.settled, sh.store.receipts);
  }

  // ---------------------------------------------------------------- when outcomes are typed

  /** The one untyped way out is taken only for a claim of generation zero. */
  lemma UntypedNeedsGenerationZero(cfg: Config, run: seq<Event>, t: Tid, q: Request)
    requires Sound(cfg) && Ends(Execute(cfg, run), t, q, Untyped)
    ensures q.binding.claimGeneration == 0 && q.view.claimGeneration == 0
  {
    hide Execute, Sound, SharedOk;
    OutcomeHolds(cfg, run, t, q, Untyped);
  }

  /** A step in which nothing fails. */
  function Calm(raw: string): Event {
    Run(0, Env(NoFault, true, Some(raw)))
  }

  function Steps(n: nat, raw: string): seq<Event> {
    if n == 0 then [] else Steps(n - 1, raw) + [Calm(raw)]
  }

  lemma ExecuteStep(cfg: Config, run: seq<Event>, n: nat, raw: string)
    ensures Execute(cfg, run + Steps(n + 1, raw)) == Apply(cfg, Execute(cfg, run + Steps(n, raw)), Calm(raw))
  {
    assert run + Steps(n + 1, raw) == (run + Steps(n, raw)) + [Calm(raw)];
    ExecuteSnoc(cfg, run + Steps(n, raw), Calm(raw));
  }

  /** A system with one process and one attempt. */
  function Solo(sh: Shared, w: Wire, th: Thread): System {
    System(sh, map[0 := w], map[0 := th], 1)
  }

  lemma SoloStep(cfg: Config, run: seq<Event>, n: nat, raw: string, sh: Shared, w: Wire, th: Thread, l: Local)
    requires Execute(cfg, run + Steps(n, raw)) == Solo(sh, w, th) && th.wire == 0
    requires Step(cfg, sh, w, 0, th, Env(NoFault, true, Some(raw))) == l
    ensures Execute(cfg, run + Steps(n + 1, raw)) == Solo(l.shared, Unlock(l.wire, 0, th, l.pc), th.(pc := l.pc))
  {
    hide Execute, Step, Unlock;
    ExecuteStep(cfg, run, n, raw);
  }

  /** The events that bring a lone attempt onto an empty store. */
  function Opening(b: Binding): seq<Event> {
    [Boot(0)] + [CreateExecution(b.executionId)] + [Spawn(0, b, Live(b))]
  }

  function Live(b: Binding): ClaimView {
    ClaimView(b.claimRef, b.claimGeneration, true)
  }

  function At(b: Binding, pc: Pc): Thread {
    Thread(0, b, Live(b), pc)
  }

  const Fresh := Wire({}, map[], map[])

  function Prepared0(b: Binding): Shared {
    Shared(Store({b.executionId}, map[], map[], map[], []), map[], [], map[], map[], map[])
  }

  lemma Opened(cfg: Config, b: Binding)
    ensures Execute(cfg, Opening(b)) == Solo(Prepared0(b), Fresh, At(b, Deciding))
  {
    ExecuteSnoc(cfg, [], Boot(0));
    ExecuteSnoc(cfg, [Boot(0)], CreateExecution(b.executionId));
    ExecuteSnoc(cfg, [Boot(0)] + [CreateExecution(b.executionId)], Spawn(0, b, Live(b)));
    assert [] + [Boot(0)] == [Boot(0)];
    assert Empty.shared.store.executions + {b.executionId} == {b.executionId};
  }

  /** A lone attempt up to the point where it holds the lock and its admission. */
  lemma Admits(cfg: Config, b: Binding, raw: string)
    ensures var adm := DecideFresh(b, Live(b), cfg.digest(b));
            var sh := Prepared0(b);
            Execute(cfg, Opening(b) + Steps(4, raw))
            == Solo(sh.(store := sh.store.(journal := map[IdOf(b) := adm]), asked := map[IdOf(b) := Request(b, Live(b))]),
                    Wire({}, map[IdOf(b) := adm], map[IdOf(b) := 0]), At(b, Checking(adm)))
  {
    hide Execute;
    var adm, sh, run := DecideFresh(b, Live(b), cfg.digest(b)), Prepared0(b), Opening(b);
    Opened(cfg, b);
    assert run + Steps(0, raw) == run;
    SoloStep(cfg, run, 0, raw, sh, Fresh, At(b, Deciding), Local(sh, Fresh, Loading));
    SoloStep(cfg, run, 1, raw, sh, Fresh, At(b, Loading), Local(sh, Fresh, Journaling(adm)));
    var sh' := sh.(store := sh.store.(journal := map[IdOf(b) := adm]), asked := map[IdOf(b) := Request(b, Live(b))]);
    var w := Wire({}, map[IdOf(b) := adm], map[]);
    SoloStep(cfg, run, 2, raw, sh, Fresh, At(b, Journaling(adm)), Local(sh', w, Locking(adm)));
    SoloStep(cfg, run, 3, raw, sh', w, At(b, Locking(adm)), Local(sh', w.(locks := map[IdOf(b) := 0]), Checking(adm)));
  }

  /** The state of a lone attempt that has dispatched and is about to collect. */
  function Sent(cfg: Config, b: Binding): Shared {
    var id, adm := IdOf(b), DecideFresh(b, Live(b), cfg.digest(b));
    Shared(Store({b.executionId}, map[id := adm], map[id := Fence(adm.bindingDigest, FenceState.Dispatched)], map[], []),
           map[id := Request(b, Live(b))], [Call(0, b)], map[id := 0], map[], map[])
  }

  function Holding(cfg: Config, b: Binding): Wire {
    Wire({}, map[IdOf(b) := DecideFresh(b, Live(b), cfg.digest(b))], map[IdOf(b) := 0])
  }

  /** The state of a lone attempt that holds its fence row and is about to dispatch. */
  function Poised(cfg: Config, b: Binding): Shared {
    var sent, id := Sent(cfg, b), IdOf(b);
    sent.(store := sent.store.(fences := map[id := Fence(cfg.digest(b), Reserved)]), dispatched := [])
  }

  lemma Reserves(cfg: Config, b: Binding, raw: string)
    ensures Execute(cfg, Opening(b) + Steps(8, raw))
         == Solo(Poised(cfg, b), Holding(cfg, b), At(b, Dispatching(DecideFresh(b, Live(b), cfg.digest(b)))))
  {
    hide Execute, DecideFresh;
    var id, adm, w, run := IdOf(b), DecideFresh(b, Live(b), cfg.digest(b)), Holding(cfg, b), Opening(b);
    AdmissionOf(cfg, b);
    var held := Poised(cfg, b);
    var sh := held.(store := held.store.(fences := map[]), owner := map[]);
    Admits(cfg, b, raw);
    SoloStep(cfg, run, 4, raw, sh, w, At(b, Checking(adm)), Local(sh, w, Probing(adm)));
    SoloStep(cfg, run, 5, raw, sh, w, At(b, Probing(adm)), Local(sh, w, Duplicates(adm)));
    SoloStep(cfg, run, 6, raw, sh, w, At(b, Duplicates(adm)), Local(sh, w, Reserving(adm)));
    SoloStep(cfg, run, 7, raw, sh, w, At(b, Reserving(adm)), Local(held, w, Dispatching(adm)));
  }

  lemma Dispatches(cfg: Config, b: Binding, raw: string)
    ensures Execute(cfg, Opening(b) + Steps(10, raw))
         == Solo(Sent(cfg, b), Holding(cfg, b), At(b, Collecting(DecideFresh(b, Live(b), cfg.digest(b)))))
  {
    hide Execute, DecideFresh;
    var id, adm, w, run := IdOf(b), DecideFresh(b, Live(b), cfg.digest(b)), Holding(cfg, b), Opening(b);
    AdmissionOf(cfg, b);
    Reserves(cfg, b, raw);
    var held, sent := Poised(cfg, b), Sent(cfg, b);
    var called := held.(dispatched := [Call(0, b)]);
    SoloStep(cfg, run, 8, raw, held, w, At(b, Dispatching(adm)), Local(called, w, MarkingDispatched(adm)));
    assert Transition(called.store, id, FenceState.Dispatched) == sent.store;
    SoloStep(cfg, run, 9, raw, called, w, At(b, MarkingDispatched(adm)), Local(sent, w, Collecting(adm)));
  }

  /** The protocol does complete, and the untyped way out does exist: a lone attempt whose evidence
      decodes and carries the admitted generation ends untyped when that generation is zero, its
      fence left in the dispatched state, and otherwise completes with its fence retired. */
  lemma LoneAttempt(cfg: Config, b: Binding, raw: string)
    requires cfg.decode(raw, b, cfg.digest(b)).Some?
    requires AboutBinding(cfg.decode(raw, b, cfg.digest(b)).value, b, cfg.digest(b))
    requires cfg.decode(raw, b, cfg.digest(b)).value.claimGeneration == b.claimGeneration
    ensures b.claimGeneration == 0 ==>
              && Ends(Execute(cfg, Opening(b) + Steps(11, raw)), 0, Request(b, Live(b)), Untyped)
              && Execute(cfg, Opening(b) + Steps(11, raw)).shared == Sent(cfg, b)
    ensures b.claimGeneration > 0 ==>
              var s := Execute(cfg, Opening(b) + Steps(13, raw));
              && Ends(s, 0, Request(b, Live(b)), Completed(cfg.receiptId(ReceiptOf(cfg.decode(raw, b, cfg.digest(b)).value).key)))
              && IdOf(b) in s.shared.store.fences && s.shared.store.fences[IdOf(b)].state == Retired
  {
    hide Execute, DecideFresh, Sent;
    var id, adm, w, run := IdOf(b), DecideFresh(b, Live(b), cfg.digest(b)), Holding(cfg, b), Opening(b);
    var sent, e := Sent(cfg, b), cfg.decode(raw, b, cfg.digest(b)).value;
    AdmissionOf(cfg, b);
    SentStore(cfg, b);
    Dispatches(cfg, b, raw);
    if b.claimGeneration == 0 {
      SoloStep(cfg, run, 10, raw, sent, w, At(b, Collecting(adm)), Local(sent, w, Finished(Untyped)));
    } else {
      var r := ReceiptOf(e);
      var rid := cfg.receiptId(r.key);
      var stored := Insert(sent, rid, r, e);
      SoloStep(cfg, run, 10, raw, sent, w, At(b, Collecting(adm)), Local(sent, w, Recording(adm, r, e)));
      SoloStep(cfg, run, 11, raw, sent, w, At(b, Recording(adm, r, e)), Local(stored, w, Retiring(adm, Completed(rid))));
      SoloStep(cfg, run, 12, raw, stored, w, At(b, Retiring(adm, Completed(rid))),
               Local(stored.(store := Transition(stored.store, id, Retired)), w, Finished(Completed(rid))));
    }
  }

  lemma AdmissionOf(cfg: Config, b: Binding)
    ensures var adm := DecideFresh(b, Live(b), cfg.digest(b));
            adm.bindingDigest == cfg.digest(b) && adm.claimGeneration == b.claimGeneration
  {
  }

  lemma SentStore(cfg: Config, b: Binding)
    ensures var s := Sent(cfg, b).store;
            && s.executions == {b.executionId} && s.receipts == map[]
            && IdOf(b) in s.fences && s.fences[IdOf(b)].state == FenceState.Dispatched
  {
  }
}
