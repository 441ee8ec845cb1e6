/**
 One orchestrator process as it runs: the issuer's cache, the ambiguity fence and the identity locks as
 fields, one attempt as nested calls.  `history` is the run of everybody so far: between two calls of an
 attempt other attempts and processes take any steps of theirs, and what the attempt finds in the store
 and in its own fields is what that run has left there.
 */
module DexOrchestrator {
  import opened DexIdentity
  import opened DexAdmission
  import opened ExecutionStore
  import opened DexWire
  import opened DexSafety
  import opened DexRuns
  import opened DexAttempts
  import opened DexAnswers

  /** What an admission ends in: the frozen decision to go on with, or the outcome of the call. */
  datatype Admission = Proceed(adm: AdmissionRecord) | Stop(outcome: Outcome)

  function PcOf(a: Admission): Pc {
    match a
    case Proceed(adm) => Locking(adm)
    case Stop(outcome) => Finished(outcome)
  }

  function AnswerWith(ruling: Ruling, r: AdmissionRecord): Admission {
    match ruling
    case Admitted => Proceed(r)
    case Denied(code, detail) => Stop(Denial(code, detail))
  }

  predicate Effective(f: Fault) {
    match f
    case NoFault => true
    case StoreFault(effect) => effect
    case OtherFault(effect) => effect
  }

  /** Outcomes after which this process lets no attempt of the identity past its fence check. */
  predicate Fences(o: Outcome) {
    o.Ambiguous? || o.EvidenceRejected? || (o.Raised? && (o.error.CollectUnavailable? || o.error.ReceiptConflict?))
  }

  const QUIET := Env(NoFault, true, None)

  class AdmissionReceiptWire {
    const cfg: Config
    const wire: nat
    var shared: Shared
    var fenced: set<Id>
    var records: map<Id, AdmissionRecord>
    var locks: map<Id, Tid>
    var history: seq<Event>
    /** The attempt under way, or the last one. */
    var tid: Tid

    constructor (cfg: Config, wire: nat, history: seq<Event>)
      requires wire !in Execute(cfg, history).wires
      ensures this.cfg == cfg && this.wire == wire && this.history == history + [Boot(wire)]
      ensures Valid() && fenced == {} && records == map[] && locks == map[]
    {
      hide Execute;
      Booted(cfg, history, wire);
      this.cfg, this.wire, this.history, this.tid := cfg, wire, history + [Boot(wire)], 0;
      fenced, records, locks, shared := {}, map[], map[], Execute(cfg, history).shared;
    }

    ghost function Volatile(): DexWire.Wire
      reads this
    {
      Wire(fenced, records, locks)
    }

    /** The process is up, and its fields and the store are what the run so far has made them. */
    ghost predicate Valid()
      reads this
    {
      var s := Execute(cfg, history);
      s.shared == shared && wire in s.wires && s.wires[wire] == Volatile()
    }

    /** The attempt stands at `pc` of the step machine, in the present state. */
    ghost predicate On(b: Binding, view: ClaimView, pc: Pc)
      reads this
    {
      Stands(cfg, history, tid, Thread(wire, b, view, pc), shared, Volatile())
    }

    /** The run went on, and the process forgot no fence. */
    twostate predicate Since()
      reads this
    {
      tid == old(tid) && old(history) <= history && old(fenced) <= fenced
    }

    /** An answer that the durable tables bear out. */
    ghost predicate Borne(b: Binding, view: ClaimView, o: Outcome)
      reads this
    {
      Sound(cfg) ==> SharedOk(cfg, shared) && OutcomeOk(cfg, shared, Request(b, view), o)
    }

    /** The frozen admission of this very request is in the journal. */
    ghost predicate Frozen(b: Binding, view: ClaimView, adm: AdmissionRecord)
      reads this
    {
      Sound(cfg) ==> SharedOk(cfg, shared) && Holds(cfg, shared, Request(b, view), adm)
    }

    /** The dispatches of this attempt. */
    ghost function Calls(): seq<Call>
      reads this
    {
      By(shared.dispatched, tid)
    }

    lemma Known(b: Binding, view: ClaimView, pc: Pc)
      requires On(b, view, pc)
      ensures Fits(Calls(), tid, b, pc)
      ensures pc.Finished? ==> Borne(b, view, pc.outcome)
      ensures pc.Locking? || pc.Checking? || pc.Reserving? || pc.Dispatching? || pc.Collecting? ==> Frozen(b, view, pc.adm)
      ensures pc.Dispatching? ==> Sound(cfg) ==> Window(shared, tid, IdOf(b))
    {
      hide Sound, SharedOk, Stands, Fits, Holds, Window, OutcomeOk;
      Standing(cfg, history, tid, Thread(wire, b, view, pc), shared, Volatile());
    }

    /** Before a step of this attempt: where it will stand once the run has it. */
    lemma Own(b: Binding, view: ClaimView, pc: Pc, env: Env)
      requires On(b, view, pc) && !pc.Finished?
      ensures var l := Step(cfg, shared, Volatile(), tid, Thread(wire, b, view, pc), env);
              Stands(cfg, history + [Run(tid, env)], tid, Thread(wire, b, view, l.pc), l.shared, l.wire)
      ensures Fits(Calls(), tid, b, pc)
    {
      hide Stands, Step, Fits;
      Known(b, view, pc);
      Stepped(cfg, history, tid, Thread(wire, b, view, pc), shared, Volatile(), env);
    }

    /** One event of another attempt or process. */
    method Other(b: Binding, view: ClaimView, ghost pc: Pc, e: Event)
      requires On(b, view, pc) && !pc.Finished? && Foreign(tid, wire, e)
      modifies this
      ensures Since() && On(b, view, pc) && history == old(history) + [e]
    {
      hide Execute, Stands;
      Elsewhere(cfg, history, tid, Thread(wire, b, view, pc), shared, Volatile(), e);
      history := history + [e];
      var s := Execute(cfg, history);
      var w := s.wires[wire];
      shared, fenced, records, locks := s.shared, w.fenced, w.records, w.locks;
    }

    /** Other attempts and processes, between two calls of this attempt. */
    method Interleave(b: Binding, view: ClaimView, ghost pc: Pc)
      requires On(b, view, pc) && !pc.Finished?
      modifies this
      ensures Since() && On(b, view, pc)
    {
      hide Stands;
      var others: seq<Event> := *;
      for i := 0 to |others|
        invariant Since() && On(b, view, pc)
      {
        if Foreign(tid, wire, others[i]) {
          Other(b, view, pc, others[i]);
        }
      }
    }

    // ------------------------------------------------------------ admission

    method Decide(b: Binding, view: ClaimView) returns (a: Admission)
      requires On(b, view, Deciding)
      modifies this
      ensures Since()
      ensures On(b, view, PcOf(a)) && Calls() == []
      ensures a.Proceed? ==> Frozen(b, view, a.adm)
      ensures a.Stop? ==> Borne(b, view, a.outcome) && (a.outcome.Denial? || a.outcome == Raised(StateUnavailable))
    {
      hide Execute, Stands, Sound, SharedOk, OutcomeOk, Holds, Window, By, Replay, DecideFresh;
      Interleave(b, view, Deciding);
      var id, digest := IdOf(b), cfg.digest(b);
      Own(b, view, Deciding, QUIET);
      history := history + [Run(tid, QUIET)];
      if id in records {
        var existing := records[id];
        a := AnswerWith(Replay(existing, b, view, digest), existing);
        Known(b, view, PcOf(a));
        return;
      }
      Interleave(b, view, Loading);
      var fault: Fault := *;
      var env := Env(fault, true, None);
      Own(b, view, Loading, env);
      history := history + [Run(tid, env)];
      if !fault.NoFault? {
        a := Stop(Raised(StateUnavailable));
        Known(b, view, PcOf(a));
        return;
      }
      if id in shared.store.journal {
        var existing := shared.store.journal[id];
        records := records[id := existing];
        a := AnswerWith(Replay(existing, b, view, digest), existing);
        Known(b, view, PcOf(a));
        return;
      }
      var record := DecideFresh(b, view, digest);
      Interleave(b, view, Journaling(record));
      a := JournalDecision(b, view, record);
    }

    /** Journalled before it is cached or returned. */
    method JournalDecision(b: Binding, view: ClaimView, record: AdmissionRecord) returns (a: Admission)
      requires On(b, view, Journaling(record))
      modifies this
      ensures Since()
      ensures On(b, view, PcOf(a)) && Calls() == []
      ensures a.Proceed? ==> Frozen(b, view, a.adm)
      ensures a.Stop? ==> Borne(b, view, a.outcome) && (a.outcome.Denial? || a.outcome == Raised(StateUnavailable))
    {
      hide Execute, Stands, Sound, SharedOk, OutcomeOk, Holds, Window, By, Replay, DecideFresh;
      var fault: Fault := *;
      var env := Env(fault, true, None);
      Own(b, view, Journaling(record), env);
      history := history + [Run(tid, env)];
      var accepted := CanJournal(shared.store, record);
      if record.id !in shared.store.journal && Effective(fault) {
        shared := shared.(store := Journal(shared.store, record), asked := shared.asked[record.id := Request(b, view)]);
      }
      if !fault.NoFault? || !accepted {
        a := Stop(Raised(StateUnavailable));
        Known(b, view, PcOf(a));
        return;
      }
      records := records[record.id := record];
      a := AnswerWith(record.ruling, record);
      Known(b, view, PcOf(a));
    }

    // ------------------------------------------------------------ the durable fence

    /** Marks the fence, in a call that may fail, and says what it raised, if anything. */
    method FenceMark(b: Binding, state: FenceState, fault: Fault) returns (raised: Option<WireCode>)
      modifies this`shared
      ensures shared == Landed(old(shared), fault, Transition(old(shared).store, IdOf(b), state))
      ensures raised == if !fault.NoFault? then Some(StateUnavailable)
                        else if !CanTransition(old(shared).store, IdOf(b), state) then Some(FenceConflict)
                        else None
    {
      var possible := CanTransition(shared.store, IdOf(b), state);
      if Effective(fault) {
        shared := shared.(store := Transition(shared.store, IdOf(b), state));
      }
      raised := if !fault.NoFault? then Some(StateUnavailable) else if !possible then Some(FenceConflict) else None;
    }

    /** The in-process fence is up; the durable one is marked, and the verdict stands only if that was recorded. */
    method FenceAndReturn(b: Binding, view: ClaimView, adm: AdmissionRecord, outcome: Outcome) returns (o: Outcome)
      requires On(b, view, Fencing(adm, outcome))
      modifies this
      ensures Since()
      ensures On(b, view, Finished(o)) && Borne(b, view, o) && Calls() == [Call(tid, b)]
      ensures o == outcome || o == Raised(StateUnavailable) || o == Raised(FenceConflict)
    {
      hide Execute, Stands, Sound, SharedOk, OutcomeOk, Holds, Window, By, CanTransition;
      Interleave(b, view, Fencing(adm, outcome));
      var fault: Fault := *;
      var env := Env(fault, true, None);
      Own(b, view, Fencing(adm, outcome), env);
      history := history + [Run(tid, env)];
      var raised := FenceMark(b, Fenced, fault);
      o := if raised.Some? then Raised(raised.value) else outcome;
      Known(b, view, Finished(o));
    }

    method RetireAndReturn(b: Binding, view: ClaimView, adm: AdmissionRecord, outcome: Outcome) returns (o: Outcome)
      requires On(b, view, Retiring(adm, outcome))
      modifies this
      ensures Since()
      ensures o == outcome && On(b, view, Finished(o)) && Borne(b, view, o) && Calls() == [Call(tid, b)]
    {
      hide Execute, Stands, Sound, SharedOk, OutcomeOk, Holds, Window, By, CanTransition;
      Interleave(b, view, Retiring(adm, outcome));
      var fault: Fault := *;
      var env := Env(fault, true, None);
      Own(b, view, Retiring(adm, outcome), env);
      history := history + [Run(tid, env)];
      var _ := FenceMark(b, Retired, fault);
      o := outcome;
      Known(b, view, Finished(o));
    }

    // ------------------------------------------------------------ before dispatch

    /** In-process fence, execution record and earlier receipt, in this order. */
    method Preconditions(b: Binding, view: ClaimView, adm: AdmissionRecord) returns (stop: Option<Outcome>)
      requires On(b, view, Checking(adm))
      modifies this
      ensures Since()
      ensures On(b, view, if stop.Some? then Finished(stop.value) else Reserving(adm)) && Calls() == []
      ensures stop == Some(Ambiguous) ==> IdOf(b) in fenced
    {
      hide Execute, Stands, Sound, SharedOk, OutcomeOk, Holds, Window, By;
      Own(b, view, Checking(adm), QUIET);
      history := history + [Run(tid, QUIET)];
      if IdOf(b) in fenced {
        return Some(Ambiguous);
      }
      Interleave(b, view, Probing(adm));
      var probe: Fault := *;
      var env := Env(probe, true, None);
      Own(b, view, Probing(adm), env);
      history := history + [Run(tid, env)];
      if !probe.NoFault? {
        return Some(Raised(StateUnavailable));
      }
      if b.executionId !in shared.store.executions {
        return Some(Raised(RecordMissing));
      }
      Interleave(b, view, Duplicates(adm));
      var listing: Fault := *;
      env := Env(listing, true, None);
      Own(b, view, Duplicates(adm), env);
      history := history + [Run(tid, env)];
      if !listing.NoFault? {
        return Some(Raised(StateUnavailable));
      }
      var existing := FirstReceipt(shared.store, b.executionId, shared.store.recorded);
      stop := if existing != "" then Some(Duplicate(existing, false)) else None;
    }

    /** The write-ahead reservation: only the call that made the row may dispatch. */
    method ReserveDurableFence(b: Binding, view: ClaimView, adm: AdmissionRecord) returns (stop: Option<Outcome>)
      requires On(b, view, Reserving(adm))
      modifies this
      ensures Since()
      ensures On(b, view, if stop.Some? then Finished(stop.value) else Dispatching(adm)) && Calls() == []
      ensures stop.None? ==> Sound(cfg) ==> Window(shared, tid, IdOf(b))
      ensures stop == Some(Ambiguous) ==> IdOf(b) in fenced
    {
      hide Execute, Stands, Sound, SharedOk, OutcomeOk, Holds, Window, By;
      Interleave(b, view, Reserving(adm));
      var id := IdOf(b);
      var fault: Fault := *;
      var env := Env(fault, true, None);
      Own(b, view, Reserving(adm), env);
      history := history + [Run(tid, env)];
      var held := id in shared.store.fences;
      var conflict := held && shared.store.fences[id].bindingDigest != adm.bindingDigest;
      if !held && Effective(fault) {
        shared := shared.(store := Reserve(shared.store, id, adm.bindingDigest), owner := shared.owner[id := tid]);
      }
      if !fault.NoFault? {
        return Some(Raised(StateUnavailable));
      }
      if !held {
        Known(b, view, Dispatching(adm));
        return None;
      }
      if conflict {
        return Some(Raised(FenceConflict));
      }
      fenced := fenced + {id};
      stop := Some(Ambiguous);
    }

    // ------------------------------------------------------------ dispatch and collect

    /** One dispatch; anything but an acceptance fences the identity for good. */
    method Dispatch(b: Binding, view: ClaimView, adm: AdmissionRecord) returns (stop: Option<Outcome>)
      requires On(b, view, Dispatching(adm))
      modifies this
      ensures Since()
      ensures On(b, view, if stop.Some? then Finished(stop.value) else Collecting(adm))
      ensures Calls() == [Call(tid, b)]
      ensures stop.Some? ==> IdOf(b) in fenced
    {
      hide Execute, Stands, Sound, SharedOk, OutcomeOk, Holds, Window, By;
      Interleave(b, view, Dispatching(adm));
      var accepted: bool := *;
      var env := Env(NoFault, accepted, None);
      Own(b, view, Dispatching(adm), env);
      history := history + [Run(tid, env)];
      shared := shared.(dispatched := shared.dispatched + [Call(tid, b)]);
      if !accepted {
        fenced := fenced + {IdOf(b)};
        var o := FenceAndReturn(b, view, adm, Ambiguous);
        return Some(o);
      }
      Interleave(b, view, MarkingDispatched(adm));
      var fault: Fault := *;
      env := Env(fault, true, None);
      Own(b, view, MarkingDispatched(adm), env);
      history := history + [Run(tid, env)];
      var raised := FenceMark(b, Dispatched, fault);
      if raised.Some? {
        fenced := fenced + {IdOf(b)};
        return Some(Raised(raised.value));
      }
      stop := None;
    }

    /** Collects and strictly decodes; evidence that is rejected fences the identity. */
    method Collect(b: Binding, view: ClaimView, adm: AdmissionRecord) returns (stop: Option<Outcome>, evidence: Option<Evidence>)
      requires On(b, view, Collecting(adm))
      modifies this
      ensures Since()
      ensures Calls() == [Call(tid, b)]
      ensures stop.Some? ==> On(b, view, Finished(stop.value)) && Borne(b, view, stop.value)
      ensures stop.Some? ==> IdOf(b) in fenced || (stop.value.Untyped? && adm.claimGeneration == 0)
      ensures stop.None? ==> evidence.Some? && On(b, view, Recording(adm, ReceiptOf(evidence.value), evidence.value))
    {
      hide Execute, Stands, Sound, SharedOk, OutcomeOk, Holds, Window, By, ReceiptOf, StepRecording, StepReserving,
           StepDispatching, StepJournaling;
      evidence := None;
      Interleave(b, view, Collecting(adm));
      var raw: Option<string> := *;
      var env := Env(NoFault, true, raw);
      Own(b, view, Collecting(adm), env);
      history := history + [Run(tid, env)];
      match raw {
        case None =>
          fenced := fenced + {IdOf(b)};
          var o := FenceAndReturn(b, view, adm, Raised(CollectUnavailable));
          return Some(o), None;
        case Some(bytes) =>
          evidence := cfg.decode(bytes, b, adm.bindingDigest);
      }
      match evidence {
        case None =>
        case Some(e) =>
          if e.claimGeneration == adm.claimGeneration {
            stop := if e.claimGeneration < 1 then Some(Untyped) else None;
            if stop.Some? {
              Known(b, view, Finished(Untyped));
            }
            return;
          }
      }
      fenced := fenced + {IdOf(b)};
      var o := FenceAndReturn(b, view, adm, EvidenceRejected);
      return Some(o), None;
    }

    // ------------------------------------------------------------ receipt

    /** Records the receipt, or settles what a refusal of the store means. */
    method RecordReceipt(b: Binding, view: ClaimView, adm: AdmissionRecord, evidence: Evidence) returns (o: Outcome)
      requires On(b, view, Recording(adm, ReceiptOf(evidence), evidence))
      modifies this
      ensures Since()
      ensures On(b, view, Finished(o)) && Borne(b, view, o) && Calls() == [Call(tid, b)]
      ensures o.Completed? || (o.Duplicate? && o.raced) || IdOf(b) in fenced
    {
      hide Execute, Stands, Sound, SharedOk, OutcomeOk, Holds, Window, By, CanRecord;
      var receipt := ReceiptOf(evidence);
      var rid := cfg.receiptId(receipt.key);
      Interleave(b, view, Recording(adm, receipt, evidence));
      var fault: Fault := *;
      var env := Env(fault, true, None);
      Own(b, view, Recording(adm, receipt, evidence), env);
      history := history + [Run(tid, env)];
      var recordable := CanRecord(shared.store, rid, receipt);
      if recordable && rid !in shared.store.receipts && Effective(fault) {
        shared := Insert(shared, rid, receipt, evidence);
      }
      if fault.OtherFault? {
        fenced := fenced + {IdOf(b)};
        o := FenceAndReturn(b, view, adm, Raised(StateUnavailable));
      } else if fault.StoreFault? || !recordable {
        o := CompareStored(b, view, adm, receipt);
      } else {
        o := RetireAndReturn(b, view, adm, Completed(rid));
      }
    }

    /** A racing writer's receipt counts only when it agrees in every field. */
    method CompareStored(b: Binding, view: ClaimView, adm: AdmissionRecord, receipt: Receipt) returns (o: Outcome)
      requires On(b, view, Comparing(adm, receipt))
      modifies this
      ensures Since()
      ensures On(b, view, Finished(o)) && Borne(b, view, o) && Calls() == [Call(tid, b)]
      ensures (o.Duplicate? && o.raced) || IdOf(b) in fenced
    {
      hide Execute, Stands, Sound, SharedOk, OutcomeOk, Holds, Window, By;
      var rid := cfg.receiptId(receipt.key);
      Interleave(b, view, Comparing(adm, receipt));
      var fault: Fault := *;
      var env := Env(fault, true, None);
      Own(b, view, Comparing(adm, receipt), env);
      history := history + [Run(tid, env)];
      if fault.NoFault? && rid in shared.store.receipts && shared.store.receipts[rid] == receipt {
        o := RetireAndReturn(b, view, adm, Duplicate(rid, true));
      } else {
        fenced := fenced + {IdOf(b)};
        o := FenceAndReturn(b, view, adm, Raised(ReceiptConflict));
      }
    }

    // ------------------------------------------------------------ one attempt

    /** From fence check to receipt, under the identity's lock. */
    method AttemptLocked(b: Binding, view: ClaimView, adm: AdmissionRecord) returns (o: Outcome)
      requires On(b, view, Checking(adm))
      modifies this
      ensures Since()
      ensures On(b, view, Finished(o)) && Borne(b, view, o) && Fits(Calls(), tid, b, Finished(o))
      ensures Fences(o) ==> IdOf(b) in fenced
    {
      hide Execute, Stands, Sound, SharedOk, OutcomeOk, Holds, Window, By;
      var stop := Preconditions(b, view, adm);
      if stop.Some? {
        Known(b, view, Finished(stop.value));
        return stop.value;
      }
      stop := ReserveDurableFence(b, view, adm);
      if stop.Some? {
        Known(b, view, Finished(stop.value));
        return stop.value;
      }
      stop := Dispatch(b, view, adm);
      if stop.Some? {
        Known(b, view, Finished(stop.value));
        return stop.value;
      }
      var evidence;
      stop, evidence := Collect(b, view, adm);
      if stop.Some? {
        Known(b, view, Finished(stop.value));
        return stop.value;
      }
      o := RecordReceipt(b, view, adm, evidence.value);
      Known(b, view, Finished(o));
    }

    /** Waits while other attempts hold the identity's lock, and takes it. */
    method AcquireLock(b: Binding, view: ClaimView, adm: AdmissionRecord)
      requires On(b, view, Locking(adm))
      modifies this
      ensures Since()
      ensures On(b, view, Checking(adm)) && IdOf(b) in locks && locks[IdOf(b)] == tid
    {
      hide Execute, Stands;
      Interleave(b, view, Locking(adm));
      if IdOf(b) in locks {
        OutlastHolder(b, view, adm);
      }
      Own(b, view, Locking(adm), QUIET);
      history := history + [Run(tid, QUIET)];
      locks := locks[IdOf(b) := tid];
    }

    /** The wait ends: whoever holds the lock can always leave it. */
    method OutlastHolder(b: Binding, view: ClaimView, adm: AdmissionRecord)
      requires On(b, view, Locking(adm)) && IdOf(b) in locks
      modifies this
      ensures Since() && On(b, view, Locking(adm)) && IdOf(b) !in locks
    {
      ghost var before := history;
      var holder := locks[IdOf(b)];
      RunsLock(cfg, history);
      LockFacts(Execute(cfg, history), wire, IdOf(b));
      LockIsGiven(cfg, history, wire, IdOf(b));
      hide Execute;
      Other(b, view, Locking(adm), Run(holder, FAILING));
      Other(b, view, Locking(adm), Run(holder, FAILING));
      assert history == before + Give(holder);
    }

    /** One attempt, in whatever run it takes place.  Its outcome is borne out by the tables it leaves; they
        have only grown; it dispatched at most once, and not at all, or certainly, where the outcome says so;
        the lock is given back; and an outcome that needs reconciliation leaves the identity fenced here. */
    method RunAttempt(b: Binding, view: ClaimView) returns (o: Outcome)
      requires Valid()
      modifies this
      ensures Valid() && old(history) <= history && old(fenced) <= fenced
      ensures tid == Execute(cfg, old(history)).spawned && Ends(Execute(cfg, history), tid, Request(b, view), o)
      ensures Borne(b, view, o) && (Sound(cfg) ==> Grows(old(shared), shared))
      ensures Fits(Calls(), tid, b, Finished(o))
      ensures IdOf(b) in locks ==> locks[IdOf(b)] != tid
      ensures Fences(o) ==> IdOf(b) in fenced
      ensures Sound(cfg) && Named(cfg) && Receipted(old(shared).store, b.executionId) ==> Calls() == []
    {
      hide Execute, Stands, Sound, SharedOk, OutcomeOk, Holds, By, Fits, Grows, Ends, AfterCall, WithoutCall, Named, Receipted;
      Spawned(cfg, history, wire, b, view);
      tid := Execute(cfg, history).spawned;
      history := history + [Spawn(wire, b, view)];
      var a := Decide(b, view);
      match a {
        case Stop(outcome) =>
          o := outcome;
          Known(b, view, Finished(o));
        case Proceed(adm) =>
          AcquireLock(b, view, adm);
          o := AttemptLocked(b, view, adm);
      }
      Ended(cfg, history, tid, Thread(wire, b, view, Finished(o)), shared, Volatile());
      if IdOf(b) in locks && locks[IdOf(b)] == tid {
        locks := locks - {IdOf(b)};
      }
      if Sound(cfg) {
        Onward(cfg, old(history), history);
        if Named(cfg) && Receipted(old(shared).store, b.executionId) {
          Silent(b, o, old(history));
        }
      }
    }

    /** A receipt that was stored before the attempt began has kept it from dispatching. */
    lemma Silent(b: Binding, o: Outcome, before: seq<Event>)
      requires Valid() && before <= history && Sound(cfg) && Named(cfg) && tid >= Execute(cfg, before).spawned
      requires Receipted(Execute(cfg, before).shared.store, b.executionId) && Fits(Calls(), tid, b, Finished(o))
      ensures Calls() == []
    {
      hide Execute, Sound, Named, Receipted, By, AfterCall, WithoutCall;
      assert history == before + history[|before|..];
      ReceiptSilences(cfg, before, history[|before|..], b.executionId, tid, b);
      if Calls() != [] {
        assert Call(tid, b) in Calls();
        ByIsIn(shared.dispatched, Call(tid, b));
      }
    }

    /** A re-run never dispatches again: of two attempts of one identity, at most one reaches the transport. */
    method Rerun(b: Binding, view: ClaimView, again: Binding, later: ClaimView) returns (first: Outcome, second: Outcome)
      requires Valid() && Sound(cfg) && IdOf(again) == IdOf(b)
      modifies this
      ensures Valid() && old(history) <= history
      ensures !(AfterCall(first) && AfterCall(second))
    {
      hide Execute, Sound, OutcomeOk, By, Grows, AfterCall, JournalOk, FencesOk, ReceiptsOk, SettledOk;
      first := RunAttempt(b, view);
      ghost var t, before := tid, shared;
      RunsLock(cfg, history);
      second := RunAttempt(again, later);
      if AfterCall(first) && AfterCall(second) {
        GrownCalls(before, shared);
        OneCaller(before, shared, Call(t, b), Call(tid, again));
      }
    }
  }
}
