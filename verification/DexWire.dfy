/**
 The admission, fence, dispatch, collect and receipt protocol as a step machine: any number of
 orchestrator processes over one durable store, any number of attempts in each, one step per
 store or transport call, every call able to fail before or after taking effect, and a process
 able to crash between any two steps.
 */
module DexWire {
  import opened DexIdentity
  import opened DexAdmission
  import opened ExecutionStore

  datatype Option<+T> = None | Some(value: T)

  /** The part of decoded collection evidence the protocol looks at. */
  datatype Evidence = Evidence(
    executionId: string,
    attemptId: string,
    bindingDigest: string,
    claimGeneration: nat,
    authoritySha: string,
    executionSha: string,
    resultDigest: string,
    evidenceRef: string,
    drift: bool)

  /** Foreign computations: the digests, and decoding of collected bytes against an expected identity. */
  datatype Config = Config(
    digest: Binding -> string,
    receiptId: ReceiptKey -> string,
    decode: (string, Binding, string) -> Option<Evidence>)

  datatype WireCode =
    | StateUnavailable | CollectUnavailable | RecordMissing | ReceiptConflict | FenceConflict

  datatype Outcome =
    | Denial(code: DenialCode, detail: string)
    | Ambiguous
    | EvidenceRejected
    | Completed(receiptId: string)
    | Duplicate(receiptId: string, raced: bool)
    | Raised(error: WireCode)
    | Untyped                           // the receipt constructor refusing its arguments

  datatype Pc =
    | Deciding
    | Loading
    | Journaling(decision: AdmissionRecord)
    | Locking(adm: AdmissionRecord)
    | Checking(adm: AdmissionRecord)
    | Probing(adm: AdmissionRecord)
    | Duplicates(adm: AdmissionRecord)
    | Reserving(adm: AdmissionRecord)
    | Dispatching(adm: AdmissionRecord)
    | MarkingDispatched(adm: AdmissionRecord)
    | Collecting(adm: AdmissionRecord)
    | Recording(adm: AdmissionRecord, receipt: Receipt, evidence: Evidence)
    | Comparing(adm: AdmissionRecord, receipt: Receipt)
    | Retiring(adm: AdmissionRecord, outcome: Outcome)
    | Fencing(adm: AdmissionRecord, outcome: Outcome)
    | Finished(outcome: Outcome)

  type Tid = nat

  datatype Thread = Thread(wire: nat, binding: Binding, view: ClaimView, pc: Pc)

  /** Volatile state of one process; a crash loses all of it. */
  datatype Wire = Wire(fenced: set<Id>, records: map<Id, AdmissionRecord>, locks: map<Id, Tid>)

  datatype Request = Request(binding: Binding, view: ClaimView)

  datatype Call = Call(tid: Tid, binding: Binding)

  /** What outlives processes, with the history the claims are about: the request each journalled
      decision was made for, every `dispatch` call made, who created each fence row, the evidence
      behind each stored receipt and the first receipt stored for each identity. */
  datatype Shared = Shared(
    store: Store,
    asked: map<Id, Request>,
    dispatched: seq<Call>,
    owner: map<Id, Tid>,
    origin: map<string, Evidence>,
    settled: map<Id, string>)

  datatype System = System(shared: Shared, wires: map<nat, Wire>, threads: map<Tid, Thread>, spawned: nat)

  /** How a store call fails: with the store's own error or another exception, before or after its effect. */
  datatype Fault = NoFault | StoreFault(effect: bool) | OtherFault(effect: bool)

  /** What the environment decides in one step. */
  datatype Env = Env(fault: Fault, accepted: bool, collected: Option<string>)

  // ---------------------------------------------------------------- one step of one attempt

  datatype Local = Local(shared: Shared, wire: Wire, pc: Pc)

  function Fence1(w: Wire, id: Id): Wire {
    w.(fenced := w.fenced + {id})
  }

  function After(ruling: Ruling, r: AdmissionRecord): Pc {
    match ruling
    case Admitted => Locking(r)
    case Denied(code, detail) => Finished(Denial(code, detail))
  }

  function ReceiptOf(e: Evidence): Receipt {
    Receipt(ReceiptKey(e.executionId, e.attemptId, e.resultDigest, e.bindingDigest), e.claimGeneration,
            e.authoritySha, e.executionSha, if e.drift then Quarantined else Accepted, e.evidenceRef)
  }

  /** The store after a possibly failing call whose effect would be `done`. */
  function Landed(sh: Shared, fault: Fault, done: Store): Shared {
    if fault.NoFault? || fault.effect then sh.(store := done) else sh
  }

  function StepDeciding(cfg: Config, sh: Shared, w: Wire, th: Thread): Local {
    var id := IdOf(th.binding);
    if id in w.records then
      var r := w.records[id];
      Local(sh, w, After(Replay(r, th.binding, th.view, cfg.digest(th.binding)), r))
    else Local(sh, w, Loading)
  }

  function StepLoading(cfg: Config, sh: Shared, w: Wire, th: Thread, fault: Fault): Local {
    var id, digest := IdOf(th.binding), cfg.digest(th.binding);
    if !fault.NoFault? then Local(sh, w, Finished(Raised(StateUnavailable)))
    else if id in sh.store.journal then
      var r := sh.store.journal[id];
      Local(sh, w.(records := w.records[id := r]), After(Replay(r, th.binding, th.view, digest), r))
    else Local(sh, w, Journaling(DecideFresh(th.binding, th.view, digest)))
  }

  function StepJournaling(sh: Shared, w: Wire, th: Thread, r: AdmissionRecord, fault: Fault): Local {
    var inserts := r.id !in sh.store.journal && (fault.NoFault? || fault.effect);
    var sh' := if inserts
               then sh.(store := Journal(sh.store, r), asked := sh.asked[r.id := Request(th.binding, th.view)])
               else sh;
    if !fault.NoFault? || !CanJournal(sh.store, r) then Local(sh', w, Finished(Raised(StateUnavailable)))
    else Local(sh', w.(records := w.records[r.id := r]), After(r.ruling, r))
  }

  function StepChecking(sh: Shared, w: Wire, th: Thread, adm: AdmissionRecord): Local {
    Local(sh, w, if IdOf(th.binding) in w.fenced then Finished(Ambiguous) else Probing(adm))
  }

  function StepProbing(sh: Shared, w: Wire, th: Thread, adm: AdmissionRecord, fault: Fault): Local {
    Local(sh, w,
      if !fault.NoFault? then Finished(Raised(StateUnavailable))
      else if th.binding.executionId !in sh.store.executions then Finished(Raised(RecordMissing))
      else Duplicates(adm))
  }

  function StepDuplicates(sh: Shared, w: Wire, th: Thread, adm: AdmissionRecord, fault: Fault): Local {
    var found := FirstReceipt(sh.store, th.binding.executionId, sh.store.recorded);
    Local(sh, w,
      if !fault.NoFault? then Finished(Raised(StateUnavailable))
      else if found != "" then Finished(Duplicate(found, false))
      else Reserving(adm))
  }

  function StepReserving(sh: Shared, w: Wire, tid: Tid, th: Thread, adm: AdmissionRecord, fault: Fault): Local {
    var id := IdOf(th.binding);
    var held := id in sh.store.fences;
    var inserts := !held && (fault.NoFault? || fault.effect);
    var sh' := if inserts
               then sh.(store := Reserve(sh.store, id, adm.bindingDigest), owner := sh.owner[id := tid])
               else sh;
    if !fault.NoFault? then Local(sh', w, Finished(Raised(StateUnavailable)))
    else if !held then Local(sh', w, Dispatching(adm))
    else if sh.store.fences[id].bindingDigest != adm.bindingDigest then
      Local(sh', w, Finished(Raised(FenceConflict)))
    else Local(sh', Fence1(w, id), Finished(Ambiguous))
  }

  function StepDispatching(sh: Shared, w: Wire, tid: Tid, th: Thread, adm: AdmissionRecord, accepted: bool): Local {
    var sh' := sh.(dispatched := sh.dispatched + [Call(tid, th.binding)]);
    if accepted then Local(sh', w, MarkingDispatched(adm))
    else Local(sh', Fence1(w, IdOf(th.binding)), Fencing(adm, Ambiguous))
  }

  function StepMarking(sh: Shared, w: Wire, th: Thread, adm: AdmissionRecord, fault: Fault): Local {
    var id := IdOf(th.binding);
    var sh' := Landed(sh, fault, Transition(sh.store, id, Dispatched));
    if !fault.NoFault? then Local(sh', Fence1(w, id), Finished(Raised(StateUnavailable)))
    else if !CanTransition(sh.store, id, Dispatched) then Local(sh', Fence1(w, id), Finished(Raised(FenceConflict)))
    else Local(sh', w, Collecting(adm))
  }

  function StepCollecting(cfg: Config, sh: Shared, w: Wire, th: Thread, adm: AdmissionRecord,
                          collected: Option<string>): Local
  {
    var fenced := Fence1(w, IdOf(th.binding));
    if collected.None? then Local(sh, fenced, Fencing(adm, Raised(CollectUnavailable)))
    else
      var decoded := cfg.decode(collected.value, th.binding, adm.bindingDigest);
      if decoded.None? || decoded.value.claimGeneration != adm.claimGeneration then
        Local(sh, fenced, Fencing(adm, EvidenceRejected))
      else if decoded.value.claimGeneration < 1 then Local(sh, w, Finished(Untyped))
      else Local(sh, w, Recording(adm, ReceiptOf(decoded.value), decoded.value))
  }

  /** The shared state after a receipt was inserted. */
  function Insert(sh: Shared, rid: string, r: Receipt, e: Evidence): Shared {
    var id := Id(r.key.executionId, r.key.attemptId);
    sh.(store := Record(sh.store, rid, r),
        origin := sh.origin[rid := e],
        settled := if id in sh.settled then sh.settled else sh.settled[id := rid])
  }

  function StepRecording(cfg: Config, sh: Shared, w: Wire, th: Thread, pc: Pc, fault: Fault): Local
    requires pc.Recording?
  {
    var rid := cfg.receiptId(pc.receipt.key);
    var inserts := CanRecord(sh.store, rid, pc.receipt) && rid !in sh.store.receipts && (fault.NoFault? || fault.effect);
    var sh' := if inserts then Insert(sh, rid, pc.receipt, pc.evidence) else sh;
    if fault.OtherFault? then
      Local(sh', Fence1(w, IdOf(th.binding)), Fencing(pc.adm, Raised(StateUnavailable)))
    else if fault.StoreFault? || !CanRecord(sh.store, rid, pc.receipt) then Local(sh', w, Comparing(pc.adm, pc.receipt))
    else Local(sh', w, Retiring(pc.adm, Completed(rid)))
  }

  function StepComparing(cfg: Config, sh: Shared, w: Wire, th: Thread, pc: Pc, fault: Fault): Local
    requires pc.Comparing?
  {
    var rid := cfg.receiptId(pc.receipt.key);
    if fault.NoFault? && rid in sh.store.receipts && sh.store.receipts[rid] == pc.receipt then
      Local(sh, w, Retiring(pc.adm, Duplicate(rid, true)))
    else Local(sh, Fence1(w, IdOf(th.binding)), Fencing(pc.adm, Raised(ReceiptConflict)))
  }

  function StepRetiring(sh: Shared, w: Wire, th: Thread, outcome: Outcome, fault: Fault): Local {
    Local(Landed(sh, fault, Transition(sh.store, IdOf(th.binding), Retired)), w, Finished(outcome))
  }

  function StepFencing(sh: Shared, w: Wire, th: Thread, outcome: Outcome, fault: Fault): Local {
    var id := IdOf(th.binding);
    var sh' := Landed(sh, fault, Transition(sh.store, id, Fenced));
    Local(sh', w,
      if !fault.NoFault? then Finished(Raised(StateUnavailable))
      else if !CanTransition(sh.store, id, Fenced) then Finished(Raised(FenceConflict))
      else Finished(outcome))
  }

  /** One step of attempt `tid` from its own control point. */
  function Step(cfg: Config, sh: Shared, w: Wire, tid: Tid, th: Thread, env: Env): Local {
    match th.pc
    case Deciding => StepDeciding(cfg, sh, w, th)
    case Loading => StepLoading(cfg, sh, w, th, env.fault)
    case Journaling(decision) => StepJournaling(sh, w, th, decision, env.fault)
    case Locking(adm) =>
      if IdOf(th.binding) in w.locks then Local(sh, w, th.pc)
      else Local(sh, w.(locks := w.locks[IdOf(th.binding) := tid]), Checking(adm))
    case Checking(adm) => StepChecking(sh, w, th, adm)
    case Probing(adm) => StepProbing(sh, w, th, adm, env.fault)
    case Duplicates(adm) => StepDuplicates(sh, w, th, adm, env.fault)
    case Reserving(adm) => StepReserving(sh, w, tid, th, adm, env.fault)
    case Dispatching(adm) => StepDispatching(sh, w, tid, th, adm, env.accepted)
    case MarkingDispatched(adm) => StepMarking(sh, w, th, adm, env.fault)
    case Collecting(adm) => StepCollecting(cfg, sh, w, th, adm, env.collected)
    case Recording(_, _, _) => StepRecording(cfg, sh, w, th, th.pc, env.fault)
    case Comparing(_, _) => StepComparing(cfg, sh, w, th, th.pc, env.fault)
    case Retiring(_, outcome) => StepRetiring(sh, w, th, outcome, env.fault)
    case Fencing(_, outcome) => StepFencing(sh, w, th, outcome, env.fault)
    case Finished(_) => Local(sh, w, th.pc)
  }

  /** The per-identity lock is held from `Checking` on and released on every way out. */
  function Unlock(w: Wire, tid: Tid, th: Thread, pc: Pc): Wire {
    var id := IdOf(th.binding);
    if pc.Finished? && id in w.locks && w.locks[id] == tid then w.(locks := w.locks - {id}) else w
  }

  // ---------------------------------------------------------------- the whole system

  datatype Event =
    | Boot(wire: nat)
    | Crash(wire: nat)
    | CreateExecution(executionId: string)
    | Spawn(wire: nat, binding: Binding, view: ClaimView)
    | Run(tid: Tid, env: Env)

  const Empty := System(Shared(Store({}, map[], map[], map[], []), map[], [], map[], map[], map[]), map[], map[], 0)

  /** One event; an event that is not enabled changes nothing. */
  function Apply(cfg: Config, s: System, e: Event): System {
    match e
    case Boot(wire) =>
      if wire in s.wires then s else s.(wires := s.wires[wire := Wire({}, map[], map[])])
    case Crash(wire) =>
      s.(wires := s.wires - {wire},
         threads := map t | t in s.threads && s.threads[t].wire != wire :: s.threads[t])
    case CreateExecution(x) =>
      s.(shared := s.shared.(store := s.shared.store.(executions := s.shared.store.executions + {x})))
    case Spawn(wire, binding, view) =>
      if wire !in s.wires then s
      else s.(threads := s.threads[s.spawned := Thread(wire, binding, view, Deciding)], spawned := s.spawned + 1)
    case Run(tid, env) =>
      if tid !in s.threads || s.threads[tid].wire !in s.wires then s
      else
        var th := s.threads[tid];
        var l := Step(cfg, s.shared, s.wires[th.wire], tid, th, env);
        s.(shared := l.shared,
           wires := s.wires[th.wire := Unlock(l.wire, tid, th, l.pc)],
           threads := s.threads[tid := th.(pc := l.pc)])
  }

  /** The system after a run: any list of events, from an empty store. */
  function Execute(cfg: Config, run: seq<Event>): System {
    if run == [] then Empty else Apply(cfg, Execute(cfg, run[..|run| - 1]), run[|run| - 1])
  }
}
