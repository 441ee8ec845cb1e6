/**
 The answer of an attempt in which nothing fails, from any reachable state: claim, fences, execution record,
 earlier receipt and evidence decide it, in this order, and with it the calls and the fence it leaves.
 */
module DexCalm {
  import opened DexIdentity
  import opened DexAdmission
  import opened ExecutionStore
  import opened DexWire
  import opened DexSafety
  import opened DexRuns
  import opened DexAttempts
  import opened DexAnswers

  /** `n` steps of one attempt. */
  function Calmly(t: Tid, env: Env, n: nat): seq<Event> {
    if n == 0 then [] else Calmly(t, env, n - 1) + [Run(t, env)]
  }

  ghost predicate Reaches(cfg: Config, run: seq<Event>, t: Tid, env: Env, th: Thread, sh: Shared, w: Wire) {
    exists n: nat :: Stands(cfg, run + Calmly(t, env, n), t, th, sh, w)
  }

  lemma ReachStart(cfg: Config, run: seq<Event>, t: Tid, env: Env, th: Thread, sh: Shared, w: Wire)
    requires Stands(cfg, run, t, th, sh, w)
    ensures Reaches(cfg, run, t, env, th, sh, w)
  {
    hide Stands;
    assert run + Calmly(t, env, 0) == run;
  }

  lemma ReachOne(cfg: Config, run: seq<Event>, t: Tid, env: Env, th: Thread, sh: Shared, w: Wire, l: Local)
    requires Reaches(cfg, run, t, env, th, sh, w) && !th.pc.Finished? && Step(cfg, sh, w, t, th, env) == l
    ensures Reaches(cfg, run, t, env, th.(pc := l.pc), l.shared, l.wire)
  {
    hide Stands, Step;
    var n: nat :| Stands(cfg, run + Calmly(t, env, n), t, th, sh, w);
    Stepped(cfg, run + Calmly(t, env, n), t, th, sh, w, env);
    assert run + Calmly(t, env, n + 1) == run + Calmly(t, env, n) + [Run(t, env)];
  }

  lemma ReachKnown(cfg: Config, run: seq<Event>, t: Tid, env: Env, th: Thread, sh: Shared, w: Wire)
    requires Sound(cfg) && Reaches(cfg, run, t, env, th, sh, w)
    ensures SharedOk(cfg, sh) && ThreadOk(cfg, sh, t, th)
  {
    hide Stands, SharedOk, ThreadOk, Sound;
    var n: nat :| Stands(cfg, run + Calmly(t, env, n), t, th, sh, w);
    Standing(cfg, run + Calmly(t, env, n), t, th, sh, w);
  }

  // ---------------------------------------------------------------- what decides

  /** The request is let through: by the journalled decision when there is one, by a live claim otherwise. */
  predicate Admissible(cfg: Config, s: Store, q: Request) {
    var id := IdOf(q.binding);
    if id in s.journal then Matches(s.journal[id], q.binding, q.view, cfg.digest(q.binding)) && s.journal[id].ruling.Admitted?
    else q.view.live && q.view.claimRef == q.binding.claimRef && q.view.claimGeneration == q.binding.claimGeneration
  }

  /** Why a request is not let through. */
  predicate RefusedFor(cfg: Config, s: Store, q: Request, code: DenialCode) {
    var id := IdOf(q.binding);
    if id in s.journal then
      if Matches(s.journal[id], q.binding, q.view, cfg.digest(q.binding))
      then s.journal[id].ruling.Denied? && code == s.journal[id].ruling.code
      else code == IdentityMismatch
    else if !q.view.live then code == NotLive
    else if q.view.claimRef != q.binding.claimRef then code == IdentityMismatch
    else code == StaleClaim && q.view.claimGeneration != q.binding.claimGeneration
  }

  /** The decision the request is answered from, and the tables once it is journalled. */
  function Decision(cfg: Config, s: Store, q: Request): AdmissionRecord {
    if IdOf(q.binding) in s.journal then s.journal[IdOf(q.binding)]
    else DecideFresh(q.binding, q.view, cfg.digest(q.binding))
  }

  function Decided(cfg: Config, sh: Shared, q: Request): Shared {
    if IdOf(q.binding) in sh.store.journal then sh
    else
      var r := Decision(cfg, sh.store, q);
      sh.(store := Journal(sh.store, r), asked := sh.asked[r.id := q])
  }

  lemma RulingOf(cfg: Config, s: Store, q: Request)
    ensures var r := Decision(cfg, s, q);
            var ruling := Replay(r, q.binding, q.view, cfg.digest(q.binding));
            && (ruling.Admitted? <==> Admissible(cfg, s, q))
            && (ruling.Denied? ==> RefusedFor(cfg, s, q, ruling.code))
            && (IdOf(q.binding) !in s.journal ==> ruling == r.ruling && r.id == IdOf(q.binding))
  {
  }

  // ---------------------------------------------------------------- admission

  /** Admission, from memory, from the journal or afresh. */
  lemma CalmDecision(cfg: Config, run: seq<Event>, t: Tid, env: Env, th: Thread, sh: Shared, w: Wire) returns (w1: Wire)
    requires Sound(cfg) && env.fault.NoFault? && th.pc.Deciding? && WireOk(sh.store.journal, w)
    requires Reaches(cfg, run, t, env, th, sh, w)
    ensures var q := Asked(th);
            var r := Decision(cfg, sh.store, q);
            Reaches(cfg, run, t, env, th.(pc := After(Replay(r, th.binding, th.view, cfg.digest(th.binding)), r)),
                    Decided(cfg, sh, q), w1)
    ensures w1.fenced == w.fenced && w1.locks == w.locks
  {
    hide Reaches, Sound, Replay, DecideFresh, After, Journal;
    var q, id := Asked(th), IdOf(th.binding);
    var r := Decision(cfg, sh.store, q);
    RulingOf(cfg, sh.store, q);
    if id in w.records {
      ReachOne(cfg, run, t, env, th, sh, w, StepDeciding(cfg, sh, w, th));
      return w;
    }
    ReachOne(cfg, run, t, env, th, sh, w, Local(sh, w, Loading));
    var loading := th.(pc := Loading);
    w1 := w.(records := w.records[id := r]);
    if id in sh.store.journal {
      ReachOne(cfg, run, t, env, loading, sh, w, StepLoading(cfg, sh, w, loading, NoFault));
      return;
    }
    ReachOne(cfg, run, t, env, loading, sh, w, Local(sh, w, Journaling(r)));
    var journaling := th.(pc := Journaling(r));
    ReachOne(cfg, run, t, env, journaling, sh, w, StepJournaling(sh, w, journaling, r, NoFault));
  }

  /** An admitted attempt takes the free lock of its identity. */
  lemma CalmLock(cfg: Config, run: seq<Event>, t: Tid, env: Env, th: Thread, sh: Shared, w: Wire, adm: AdmissionRecord)
    requires Reaches(cfg, run, t, env, th, sh, w) && th.pc == Locking(adm) && IdOf(th.binding) !in w.locks
    ensures Reaches(cfg, run, t, env, th.(pc := Checking(adm)), sh, w.(locks := w.locks[IdOf(th.binding) := t]))
  {
    hide Reaches;
    ReachOne(cfg, run, t, env, th, sh, w, Local(sh, w.(locks := w.locks[IdOf(th.binding) := t]), Checking(adm)));
  }

  // ---------------------------------------------------------------- before dispatch

  /** Nothing stands in the way of the reservation. */
  ghost predicate Clear(s: Store, w: Wire, b: Binding) {
    IdOf(b) !in w.fenced && b.executionId in s.executions && !Receipted(s, b.executionId)
  }

  /** The three checks in front of the reservation. */
  lemma CalmChecks(cfg: Config, run: seq<Event>, t: Tid, env: Env, th: Thread, sh: Shared, w: Wire, adm: AdmissionRecord)
    returns (rid: string)
    requires Reaches(cfg, run, t, env, th, sh, w) && th.pc == Checking(adm) && env.fault.NoFault?
    requires Sound(cfg) && Named(cfg)
    ensures IdOf(th.binding) in w.fenced ==> Reaches(cfg, run, t, env, th.(pc := Finished(Ambiguous)), sh, w)
    ensures IdOf(th.binding) !in w.fenced && th.binding.executionId !in sh.store.executions ==>
              Reaches(cfg, run, t, env, th.(pc := Finished(Raised(RecordMissing))), sh, w)
    ensures IdOf(th.binding) !in w.fenced && th.binding.executionId in sh.store.executions
            && Receipted(sh.store, th.binding.executionId) ==>
              IsFirst(sh.store, rid, th.binding.executionId)
              && Reaches(cfg, run, t, env, th.(pc := Finished(Duplicate(rid, false))), sh, w)
    ensures Clear(sh.store, w, th.binding) ==> Reaches(cfg, run, t, env, th.(pc := Reserving(adm)), sh, w)
  {
    hide Sound, Named, FirstReceipt, Receipted, IsFirst;
    FindsHere(cfg, run, t, env, th, sh, w);
    hide Reaches;
    rid := FirstReceipt(sh.store, th.binding.executionId, sh.store.recorded);
    ReachOne(cfg, run, t, env, th, sh, w, StepChecking(sh, w, th, adm));
    if IdOf(th.binding) !in w.fenced {
      var probing := th.(pc := Probing(adm));
      ReachOne(cfg, run, t, env, probing, sh, w, StepProbing(sh, w, probing, adm, NoFault));
      if th.binding.executionId in sh.store.executions {
        var listing := th.(pc := Duplicates(adm));
        ReachOne(cfg, run, t, env, listing, sh, w, StepDuplicates(sh, w, listing, adm, NoFault));
      }
    }
  }

  lemma FindsHere(cfg: Config, run: seq<Event>, t: Tid, env: Env, th: Thread, sh: Shared, w: Wire)
    requires Reaches(cfg, run, t, env, th, sh, w) && Sound(cfg) && Named(cfg)
    ensures var x := th.binding.executionId;
            var rid := FirstReceipt(sh.store, x, sh.store.recorded);
            if Receipted(sh.store, x) then rid != "" && IsFirst(sh.store, rid, x) else rid == ""
  {
    hide Execute, FirstReceipt, Receipted, IsFirst, Sound, Named;
    var n: nat :| Stands(cfg, run + Calmly(t, env, n), t, th, sh, w);
    Finds(cfg, run + Calmly(t, env, n), th.binding.executionId);
  }

  /** The fence row is created, or found and taken as somebody else's dispatch. */
  lemma CalmReserve(cfg: Config, run: seq<Event>, t: Tid, env: Env, th: Thread, sh: Shared, w: Wire, adm: AdmissionRecord)
    requires Sound(cfg) && Reaches(cfg, run, t, env, th, sh, w) && th.pc == Reserving(adm) && env.fault.NoFault?
    ensures var id := IdOf(th.binding);
            if id in sh.store.fences
            then Reaches(cfg, run, t, env, th.(pc := Finished(Ambiguous)), sh, Fence1(w, id))
            else Reaches(cfg, run, t, env, th.(pc := Dispatching(adm)), Reserved1(sh, t, id, adm.bindingDigest), w)
  {
    ReachKnown(cfg, run, t, env, th, sh, w);
    hide Reaches, JournalOk, CallsOk, ReceiptsOk, SettledOk;
    var id := IdOf(th.binding);
    if id in sh.store.fences {
      assert FenceOk(sh.store.journal, id, sh.store.fences[id]);
    }
    ReachOne(cfg, run, t, env, th, sh, w, StepReserving(sh, w, t, th, adm, NoFault));
  }

  // ---------------------------------------------------------------- dispatch and collection

  /** The tables after the one call, with the fence moved to `state`. */
  function Sent1(sh: Shared, t: Tid, b: Binding, state: FenceState): Shared
    requires IdOf(b) in sh.store.fences
  {
    var id := IdOf(b);
    sh.(dispatched := sh.dispatched + [Call(t, b)],
        store := sh.store.(fences := sh.store.fences[id := sh.store.fences[id].(state := state)]))
  }

  lemma CalmDispatch(cfg: Config, run: seq<Event>, t: Tid, env: Env, th: Thread, sh: Shared, w: Wire, adm: AdmissionRecord)
    requires Reaches(cfg, run, t, env, th, sh, w) && th.pc == Dispatching(adm) && env.fault.NoFault?
    requires IdOf(th.binding) in sh.store.fences && sh.store.fences[IdOf(th.binding)].state == Reserved
    ensures if env.accepted
            then Reaches(cfg, run, t, env, th.(pc := Collecting(adm)), Sent1(sh, t, th.binding, FenceState.Dispatched), w)
            else Reaches(cfg, run, t, env, th.(pc := Finished(Ambiguous)), Sent1(sh, t, th.binding, FenceState.Fenced),
                         Fence1(w, IdOf(th.binding)))
  {
    hide Reaches;
    var id := IdOf(th.binding);
    var called := sh.(dispatched := sh.dispatched + [Call(t, th.binding)]);
    if env.accepted {
      ReachOne(cfg, run, t, env, th, sh, w, Local(called, w, MarkingDispatched(adm)));
      var marking := th.(pc := MarkingDispatched(adm));
      ReachOne(cfg, run, t, env, marking, called, w, StepMarking(called, w, marking, adm, NoFault));
      assert Sent1(sh, t, th.binding, FenceState.Dispatched) == StepMarking(called, w, marking, adm, NoFault).shared;
    } else {
      ReachOne(cfg, run, t, env, th, sh, w, Local(called, Fence1(w, id), Fencing(adm, Ambiguous)));
      CalmFence(cfg, run, t, env, th.(pc := Fencing(adm, Ambiguous)), called, Fence1(w, id), adm, Ambiguous);
    }
  }

  /** A fence that is not final yet is marked, and the verdict stands. */
  lemma CalmFence(cfg: Config, run: seq<Event>, t: Tid, env: Env, th: Thread, sh: Shared, w: Wire, adm: AdmissionRecord,
                  o: Outcome)
    requires Reaches(cfg, run, t, env, th, sh, w) && th.pc == Fencing(adm, o) && env.fault.NoFault?
    requires IdOf(th.binding) in sh.store.fences
    requires var st := sh.store.fences[IdOf(th.binding)].state; st == Reserved || st == FenceState.Dispatched
    ensures var id := IdOf(th.binding);
            Reaches(cfg, run, t, env, th.(pc := Finished(o)),
                    sh.(store := sh.store.(fences := sh.store.fences[id := sh.store.fences[id].(state := FenceState.Fenced)])), w)
  {
    hide Reaches;
    ReachOne(cfg, run, t, env, th, sh, w, StepFencing(sh, w, th, o, NoFault));
  }

  /** What the collected bytes are worth: evidence of the admitted generation, or nothing. */
  function Worth(cfg: Config, b: Binding, collected: Option<string>): Option<Evidence> {
    match collected
    case None => None
    case Some(raw) =>
      match cfg.decode(raw, b, cfg.digest(b))
      case None => None
      case Some(e) => if e.claimGeneration == b.claimGeneration then Some(e) else None
  }

  lemma CalmCollect(cfg: Config, run: seq<Event>, t: Tid, env: Env, th: Thread, sh: Shared, w: Wire, adm: AdmissionRecord)
    requires Sound(cfg) && Reaches(cfg, run, t, env, th, sh, w) && th.pc == Collecting(adm) && env.fault.NoFault?
    requires IdOf(th.binding) in sh.store.fences && sh.store.fences[IdOf(th.binding)].state == FenceState.Dispatched
    ensures var id, e := IdOf(th.binding), Worth(cfg, th.binding, env.collected);
            var fenced := sh.(store := sh.store.(fences := sh.store.fences[id := sh.store.fences[id].(state := FenceState.Fenced)]));
            && (env.collected.None? ==> Reaches(cfg, run, t, env, th.(pc := Finished(Raised(CollectUnavailable))), fenced, Fence1(w, id)))
            && (env.collected.Some? && e.None? ==>
                  Reaches(cfg, run, t, env, th.(pc := Finished(EvidenceRejected)), fenced, Fence1(w, id)))
            && (e.Some? && th.binding.claimGeneration == 0 ==> Reaches(cfg, run, t, env, th.(pc := Finished(Untyped)), sh, w))
            && (e.Some? && th.binding.claimGeneration > 0 ==>
                  Reaches(cfg, run, t, env, th.(pc := Recording(adm, ReceiptOf(e.value), e.value)), sh, w))
  {
    Generation(cfg, run, t, env, th, sh, w, adm);
    hide Reaches, Sound;
    var id := IdOf(th.binding);
    ReachOne(cfg, run, t, env, th, sh, w, StepCollecting(cfg, sh, w, th, adm, env.collected));
    var pc := StepCollecting(cfg, sh, w, th, adm, env.collected).pc;
    if pc.Fencing? {
      CalmFence(cfg, run, t, env, th.(pc := pc), sh, Fence1(w, id), adm, pc.outcome);
    }
  }

  lemma Generation(cfg: Config, run: seq<Event>, t: Tid, env: Env, th: Thread, sh: Shared, w: Wire, adm: AdmissionRecord)
    requires Sound(cfg) && Reaches(cfg, run, t, env, th, sh, w) && th.pc == Collecting(adm)
    ensures adm.claimGeneration == th.binding.claimGeneration && adm.bindingDigest == cfg.digest(th.binding)
  {
    hide Sound, SharedOk, Called;
    ReachKnown(cfg, run, t, env, th, sh, w);
  }

  /** A receipt under a fresh identifier is stored and the fence retired. */
  lemma CalmRecord(cfg: Config, run: seq<Event>, t: Tid, env: Env, th: Thread, sh: Shared, w: Wire, adm: AdmissionRecord,
                   e: Evidence) returns (sh1: Shared)
    requires Reaches(cfg, run, t, env, th, sh, w) && th.pc == Recording(adm, ReceiptOf(e), e) && env.fault.NoFault?
    requires IdOf(th.binding) in sh.store.fences && sh.store.fences[IdOf(th.binding)].state == FenceState.Dispatched
    requires e.executionId in sh.store.executions && cfg.receiptId(ReceiptOf(e).key) !in sh.store.receipts
    ensures var rid := cfg.receiptId(ReceiptOf(e).key);
            && Reaches(cfg, run, t, env, th.(pc := Finished(Completed(rid))), sh1, w)
            && sh1.dispatched == sh.dispatched && sh1.store.receipts == sh.store.receipts[rid := ReceiptOf(e)]
            && IdOf(th.binding) in sh1.store.fences && sh1.store.fences[IdOf(th.binding)].state == Retired
  {
    hide Reaches;
    var r := ReceiptOf(e);
    var rid := cfg.receiptId(r.key);
    var stored := Insert(sh, rid, r, e);
    ReachOne(cfg, run, t, env, th, sh, w, Local(stored, w, Retiring(adm, Completed(rid))));
    var retiring := th.(pc := Retiring(adm, Completed(rid)));
    sh1 := StepRetiring(stored, w, retiring, Completed(rid), NoFault).shared;
    ReachOne(cfg, run, t, env, retiring, stored, w, StepRetiring(stored, w, retiring, Completed(rid), NoFault));
  }

  // ---------------------------------------------------------------- the answer

  /** The run goes on, by this attempt's own steps, to its end with outcome `o` and these tables. */
  ghost predicate Ending(cfg: Config, run: seq<Event>, t: Tid, env: Env, q: Request, o: Outcome, sh: Shared) {
    exists n: nat :: EndsAfter(cfg, run, t, env, n, q, o, sh)
  }

  predicate EndsAfter(cfg: Config, run: seq<Event>, t: Tid, env: Env, n: nat, q: Request, o: Outcome, sh: Shared) {
    var s := Execute(cfg, run + Calmly(t, env, n));
    Ends(s, t, q, o) && s.shared == sh
  }

  lemma Conclude(cfg: Config, run: seq<Event>, t: Tid, env: Env, th: Thread, sh: Shared, w: Wire)
    requires Reaches(cfg, run, t, env, th, sh, w) && th.pc.Finished?
    ensures Ending(cfg, run, t, env, Asked(th), th.pc.outcome, sh)
  {
    hide Execute, Stands;
    var n: nat :| Stands(cfg, run + Calmly(t, env, n), t, th, sh, w);
    Ended(cfg, run + Calmly(t, env, n), t, th, sh, w);
    assert EndsAfter(cfg, run, t, env, n, Asked(th), th.pc.outcome, sh);
  }

  /** No call was made, and fences and receipts are as before. */
  predicate Untouched(before: Shared, after: Shared) {
    && after.dispatched == before.dispatched
    && after.store.fences == before.store.fences && after.store.receipts == before.store.receipts
  }

  /** One call was made, and the fence it left is in this state. */
  predicate CalledOnce(before: Shared, after: Shared, t: Tid, b: Binding, state: FenceState) {
    && after.dispatched == before.dispatched + [Call(t, b)]
    && IdOf(b) in after.store.fences && after.store.fences[IdOf(b)].state == state
  }

  /** The answer an attempt that finds these tables and this process owes, and what it leaves. */
  ghost predicate Owed(cfg: Config, before: Shared, w: Wire, t: Tid, q: Request, env: Env, o: Outcome, after: Shared) {
    var b, s := q.binding, before.store;
    if !Admissible(cfg, s, q) then o.Denial? && RefusedFor(cfg, s, q, o.code) && Untouched(before, after)
    else OwedAdmitted(cfg, before, w, t, b, env, o, after)
  }

  /** The same once the request is let through. */
  ghost predicate OwedAdmitted(cfg: Config, before: Shared, w: Wire, t: Tid, b: Binding, env: Env, o: Outcome, after: Shared) {
    var s := before.store;
    if IdOf(b) in w.fenced then o == Ambiguous && Untouched(before, after)
    else if b.executionId !in s.executions then o == Raised(RecordMissing) && Untouched(before, after)
    else if Receipted(s, b.executionId) then
      o.Duplicate? && !o.raced && IsFirst(s, o.receiptId, b.executionId) && Untouched(before, after)
    else if IdOf(b) in s.fences then o == Ambiguous && Untouched(before, after)
    else OwedByCall(cfg, before, t, b, env, o, after)
  }

  /** The same once the fence row is the attempt's own. */
  predicate OwedByCall(cfg: Config, before: Shared, t: Tid, b: Binding, env: Env, o: Outcome, after: Shared) {
    if !env.accepted then o == Ambiguous && CalledOnce(before, after, t, b, FenceState.Fenced)
    else if env.collected.None? then o == Raised(CollectUnavailable) && CalledOnce(before, after, t, b, FenceState.Fenced)
    else
      match Worth(cfg, b, env.collected)
      case None => o == EvidenceRejected && CalledOnce(before, after, t, b, FenceState.Fenced)
      case Some(e) =>
        if e.claimGeneration == 0 then o == Untyped && CalledOnce(before, after, t, b, FenceState.Dispatched)
        else
          && o == Completed(cfg.receiptId(ReceiptOf(e).key)) && CalledOnce(before, after, t, b, Retired)
          && after.store.receipts == before.store.receipts[cfg.receiptId(ReceiptOf(e).key) := ReceiptOf(e)]
  }

  lemma CalmEvidence(cfg: Config, run: seq<Event>, t: Tid, env: Env, th: Thread, before: Shared, sh: Shared, w: Wire,
                     adm: AdmissionRecord) returns (o: Outcome, after: Shared)
    requires Sound(cfg) && Reaches(cfg, run, t, env, th, sh, w) && th.pc == Collecting(adm)
    requires env.fault.NoFault? && env.accepted
    requires CalledOnce(before, sh, t, th.binding, FenceState.Dispatched) && sh.store.receipts == before.store.receipts
    requires th.binding.executionId in sh.store.executions && !Receipted(sh.store, th.binding.executionId)
    ensures OwedByCall(cfg, before, t, th.binding, env, o, after)
    ensures Ending(cfg, run, t, env, Asked(th), o, after)
  {
    hide Reaches, Ending, Receipted, ReceiptOf;
    var id, e := IdOf(th.binding), Worth(cfg, th.binding, env.collected);
    CalmCollect(cfg, run, t, env, th, sh, w, adm);
    var fenced := sh.(store := sh.store.(fences := sh.store.fences[id := sh.store.fences[id].(state := FenceState.Fenced)]));
    if e.None? {
      o := if env.collected.None? then Raised(CollectUnavailable) else EvidenceRejected;
      after := fenced;
      Conclude(cfg, run, t, env, th.(pc := Finished(o)), after, Fence1(w, id));
    } else if e.value.claimGeneration == 0 {
      o, after := Untyped, sh;
      Conclude(cfg, run, t, env, th.(pc := Finished(o)), after, w);
    } else {
      var recording := th.(pc := Recording(adm, ReceiptOf(e.value), e.value));
      FreshReceipt(cfg, run, t, env, recording, sh, w);
      after := CalmRecord(cfg, run, t, env, recording, sh, w, adm, e.value);
      o := Completed(cfg.receiptId(ReceiptOf(e.value).key));
      Conclude(cfg, run, t, env, th.(pc := Finished(o)), after, w);
    }
  }

  /** A receipt about to be recorded for an execution without one has an unused identifier. */
  lemma FreshReceipt(cfg: Config, run: seq<Event>, t: Tid, env: Env, th: Thread, sh: Shared, w: Wire)
    requires Sound(cfg) && Reaches(cfg, run, t, env, th, sh, w) && th.pc.Recording?
    requires !Receipted(sh.store, th.binding.executionId)
    ensures th.pc.receipt == ReceiptOf(th.pc.evidence)
    ensures th.pc.evidence.executionId == th.binding.executionId
    ensures cfg.receiptId(th.pc.receipt.key) !in sh.store.receipts
  {
    hide Sound, SharedOk, Holds, Called;
    ReachKnown(cfg, run, t, env, th, sh, w);
    var rid := cfg.receiptId(th.pc.receipt.key);
    if rid in sh.store.receipts {
      StoredMeansReceipted(cfg, sh, th.pc.receipt);
    }
  }

  lemma StoredMeansReceipted(cfg: Config, sh: Shared, r: Receipt)
    requires Sound(cfg) && SharedOk(cfg, sh) && cfg.receiptId(r.key) in sh.store.receipts
    ensures Receipted(sh.store, r.key.executionId)
  {
    hide SharedOk, Sound;
    StoredReceipt(cfg, sh, r);
    assert ReceiptOn(sh.store, cfg.receiptId(r.key), r.key.executionId);
  }

  lemma CalmCall(cfg: Config, run: seq<Event>, t: Tid, env: Env, th: Thread, sh: Shared, w: Wire, adm: AdmissionRecord)
    returns (o: Outcome, after: Shared)
    requires Sound(cfg) && Reaches(cfg, run, t, env, th, sh, w) && th.pc == Reserving(adm) && env.fault.NoFault?
    requires IdOf(th.binding) !in sh.store.fences
    requires th.binding.executionId in sh.store.executions && !Receipted(sh.store, th.binding.executionId)
    ensures OwedByCall(cfg, sh, t, th.binding, env, o, after)
    ensures Ending(cfg, run, t, env, Asked(th), o, after)
  {
    hide Reaches, Ending, Sound;
    var id := IdOf(th.binding);
    CalmReserve(cfg, run, t, env, th, sh, w, adm);
    var held := Reserved1(sh, t, id, adm.bindingDigest);
    CalmDispatch(cfg, run, t, env, th.(pc := Dispatching(adm)), held, w, adm);
    if env.accepted {
      var sent := Sent1(held, t, th.binding, FenceState.Dispatched);
      assert !Receipted(sent.store, th.binding.executionId) by {
        NoneStored(sh.store, sent.store, th.binding.executionId);
      }
      o, after := CalmEvidence(cfg, run, t, env, th.(pc := Collecting(adm)), sh, sent, w, adm);
    } else {
      o, after := Ambiguous, Sent1(held, t, th.binding, FenceState.Fenced);
      Conclude(cfg, run, t, env, th.(pc := Finished(o)), after, Fence1(w, id));
    }
  }

  lemma NoneStored(s: Store, s': Store, x: string)
    requires !Receipted(s, x) && s'.receipts == s.receipts
    ensures !Receipted(s', x)
  {
    forall rid ensures !ReceiptOn(s', rid, x) {
      assert !ReceiptOn(s, rid, x);
    }
  }

  lemma CalmAdmitted(cfg: Config, run: seq<Event>, t: Tid, env: Env, th: Thread, sh: Shared, w: Wire, adm: AdmissionRecord)
    returns (o: Outcome, after: Shared)
    requires Sound(cfg) && Named(cfg) && Reaches(cfg, run, t, env, th, sh, w) && th.pc == Locking(adm) && env.fault.NoFault?
    requires IdOf(th.binding) !in w.locks
    ensures OwedAdmitted(cfg, sh, w, t, th.binding, env, o, after)
    ensures Ending(cfg, run, t, env, Asked(th), o, after)
  {
    hide Sound, Named, Reaches, Ending, Receipted, IsFirst, OwedByCall;
    var b, id := th.binding, IdOf(th.binding);
    CalmLock(cfg, run, t, env, th, sh, w, adm);
    var w1 := w.(locks := w.locks[id := t]);
    var rid := CalmChecks(cfg, run, t, env, th.(pc := Checking(adm)), sh, w1, adm);
    if Clear(sh.store, w1, b) {
      if id in sh.store.fences {
        CalmReserve(cfg, run, t, env, th.(pc := Reserving(adm)), sh, w1, adm);
        o, after := Ambiguous, sh;
        Conclude(cfg, run, t, env, th.(pc := Finished(o)), after, Fence1(w1, id));
      } else {
        o, after := CalmCall(cfg, run, t, env, th.(pc := Reserving(adm)), sh, w1, adm);
      }
    } else {
      after := sh;
      o := if id in w.fenced then Ambiguous
           else if b.executionId !in sh.store.executions then Raised(RecordMissing)
           else Duplicate(rid, false);
      Conclude(cfg, run, t, env, th.(pc := Finished(o)), after, w1);
    }
  }

  /** What is owed does not depend on the decision having been journalled on the way. */
  lemma OwedSame(cfg: Config, before: Shared, sh: Shared, w: Wire, w1: Wire, t: Tid, b: Binding, env: Env, o: Outcome, after: Shared)
    requires OwedAdmitted(cfg, sh, w1, t, b, env, o, after) && w1.fenced == w.fenced
    requires Untouched(before, sh) && sh.store.executions == before.store.executions && sh.store.recorded == before.store.recorded
    ensures OwedAdmitted(cfg, before, w, t, b, env, o, after)
  {
    var x := b.executionId;
    assert forall rid :: ReceiptOn(sh.store, rid, x) <==> ReceiptOn(before.store, rid, x);
    assert Receipted(sh.store, x) <==> Receipted(before.store, x) by {
      if Receipted(sh.store, x) {
        var rid :| ReceiptOn(sh.store, rid, x);
        assert ReceiptOn(before.store, rid, x);
      }
      if Receipted(before.store, x) {
        var rid :| ReceiptOn(before.store, rid, x);
        assert ReceiptOn(sh.store, rid, x);
      }
    }
    hide Receipted, Worth;
  }

  /** From any reachable state: a new attempt in which nothing fails, and whose identity nobody else is
      working on in its process, ends in the answer that state owes it. */
  lemma CalmAttempt(cfg: Config, run: seq<Event>, wire: nat, b: Binding, view: ClaimView, accepted: bool,
                    collected: Option<string>) returns (o: Outcome, after: Shared)
    requires Sound(cfg) && Named(cfg)
    requires wire in Execute(cfg, run).wires && IdOf(b) !in Execute(cfg, run).wires[wire].locks
    ensures var s := Execute(cfg, run);
            var env := Env(NoFault, accepted, collected);
            && Owed(cfg, s.shared, s.wires[wire], s.spawned, Request(b, view), env, o, after)
            && Ending(cfg, run + [Spawn(wire, b, view)], s.spawned, env, Request(b, view), o, after)
  {
    hide Execute, Stands, Sound, Named, Reaches, Ending, OwedAdmitted, Decided, Decision, Replay, Admissible, RefusedFor, WireOk;
    var s, q, env := Execute(cfg, run), Request(b, view), Env(NoFault, accepted, collected);
    var t, w, run' := s.spawned, s.wires[wire], run + [Spawn(wire, b, view)];
    var th := Thread(wire, b, view, Deciding);
    Spawned(cfg, run, wire, b, view);
    ReachStart(cfg, run', t, env, th, s.shared, w);
    WireKnown(cfg, run, wire);
    var w1 := CalmDecision(cfg, run', t, env, th, s.shared, w);
    var adm := Decision(cfg, s.shared.store, q);
    var sh := Decided(cfg, s.shared, q);
    RulingOf(cfg, s.shared.store, q);
    DecidedTables(cfg, s.shared, q);
    var ruling := Replay(adm, b, view, cfg.digest(b));
    if ruling.Denied? {
      o, after := Denial(ruling.code, ruling.detail), sh;
      Conclude(cfg, run', t, env, th.(pc := Finished(o)), after, w1);
    } else {
      o, after := CalmAdmitted(cfg, run', t, env, th.(pc := Locking(adm)), sh, w1, adm);
      OwedSame(cfg, s.shared, sh, w, w1, t, b, env, o, after);
    }
  }

  lemma WireKnown(cfg: Config, run: seq<Event>, wire: nat)
    requires Sound(cfg) && wire in Execute(cfg, run).wires
    ensures WireOk(Execute(cfg, run).shared.store.journal, Execute(cfg, run).wires[wire])
  {
    hide Execute, WireOk;
    RunsOk(cfg, run);
  }

  lemma DecidedTables(cfg: Config, sh: Shared, q: Request)
    ensures var sh' := Decided(cfg, sh, q);
            Untouched(sh, sh') && sh'.store.executions == sh.store.executions && sh'.store.recorded == sh.store.recorded
  {
    hide DecideFresh;
  }

  // ---------------------------------------------------------------- failing calls

  /** Store calls whose failure ends the attempt: the state of the store is not known then. */
  predicate Hinges(pc: Pc) {
    || pc.Loading? || pc.Journaling? || pc.Probing? || pc.Duplicates? || pc.Reserving? || pc.MarkingDispatched?
    || pc.Fencing?
  }

  lemma FailedStep(cfg: Config, sh: Shared, w: Wire, tid: Tid, th: Thread, env: Env)
    requires Hinges(th.pc) && !env.fault.NoFault?
    ensures var l := Step(cfg, sh, w, tid, th, env);
            && l.pc == Finished(Raised(StateUnavailable))
            && (th.pc.MarkingDispatched? ==> IdOf(th.binding) in l.wire.fenced)
  {
    hide Journal, Transition, DecideFresh, FirstReceipt, CanTransition, CanJournal;
  }

  /** An unreadable journal is never a fresh admission, an unrecorded reservation never a dispatch, and an
      unrecorded verdict never a verdict: the attempt ends at once as STATE_UNAVAILABLE. */
  lemma FailedCallEnds(cfg: Config, run: seq<Event>, t: Tid, env: Env)
    requires var s := Execute(cfg, run); t in s.threads && Hinges(s.threads[t].pc)
    requires !env.fault.NoFault?
    ensures var s := Execute(cfg, run);
            Ends(Execute(cfg, run + [Run(t, env)]), t, Asked(s.threads[t]), Raised(StateUnavailable))
  {
    hide Execute, Step, Hinges;
    var s := Execute(cfg, run);
    RunsLock(cfg, run);
    ExecuteSnoc(cfg, run, Run(t, env));
    FailedStep(cfg, s.shared, s.wires[s.threads[t].wire], t, s.threads[t], env);
  }
}
