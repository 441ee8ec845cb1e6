/** What every run of the elastic capacity protocol keeps: no provisioned worker is ever lost track of. */
module ElasticSafety {
  import opened ElasticCapacity

  // ---------------------------------------------------------------- the invariant

  /** The reservation explains why its worker may exist. */
  predicate Covers(rs: Store, id: Id) {
    id in rs && rs[id].state != PreProvision && rs[id].state != Released
  }

  ghost predicate CallsOk(rs: Store, calls: multiset<Id>) {
    forall id :: id in calls ==> calls[id] == 1 && Covers(rs, id)
  }

  ghost predicate WorkersOk(rs: Store, calls: multiset<Id>, made: map<Id, Worker>) {
    && (forall id :: id in made ==> id in calls)
    && (forall id :: id in rs && rs[id].worker.Some? ==> id in made && made[id] == rs[id].worker.value)
    && (forall id :: id in rs && (rs[id].state == Provisioned || rs[id].state == Capacity) ==> rs[id].worker.Some?)
  }

  ghost predicate OwnersOk(rs: Store) {
    forall i, j :: i in rs && j in rs && i != j && rs[i].state != Released && rs[j].state != Released ==>
      rs[i].session != rs[j].session || rs[i].task != rs[j].task
  }

  predicate Bounded(rs: Store, limit: nat) {
    |Unreleased(rs)| <= limit
  }

  predicate Holds(w: World, job: Job, id: Id, state: State, worker: Option<Worker>) {
    id in w.store && Owned(w.store[id], job) && w.store[id].state == state && w.store[id].worker == worker
  }

  predicate Makes(w: World, id: Id, worker: Worker) {
    id in w.calls && id in w.made && w.made[id] == worker
  }

  predicate PcOk(w: World, pc: Pc) {
    match pc
    case Idle => true
    case Begun(_) => true
    case Fenced(_, a) => a in w.issued
    case Releasing(_, a) => a in w.issued
    case Reserved(job, _, id) =>
      id !in w.calls && (Holds(w, job, id, PreProvision, None) || Holds(w, job, id, Released, None))
    case Started(job, _, id) => id !in w.calls && Holds(w, job, id, Provisioning, None)
    case Returned(job, _, id, worker) => Makes(w, id, worker) && Holds(w, job, id, Provisioning, None)
    case Published(job, _, id, worker) => Makes(w, id, worker) && Holds(w, job, id, Provisioned, Some(worker))
    case Ready(job, _, id, worker) => Makes(w, id, worker) && Holds(w, job, id, Provisioned, Some(worker))
    case Scheduled(job, _, id, worker) => Makes(w, id, worker) && Holds(w, job, id, Provisioned, Some(worker))
    case Ran(job, _, id, worker) => Makes(w, id, worker) && Holds(w, job, id, Provisioned, Some(worker))
    case Suspect(_, id, known, result) =>
      && id in w.calls && Covers(w.store, id) && (known.Some? ==> Makes(w, id, known.value))
      && (result == Recovery || result == WaitedAfterRun)
    case Over(result) => ResultOk(w, result)
  }

  predicate ResultOk(w: World, result: Result) {
    match result
    case Executed(id, worker) => Confirmed(w, id, worker)
    case Waited(a) => a.Some? ==> a.value in w.issued && a.value !in w.admissions
    case Recovery => true
    case WaitedAfterRun => true
  }

  /** The reservation is successful capacity for exactly this worker, which its own provision call made. */
  predicate Confirmed(w: World, id: Id, worker: Worker) {
    && Makes(w, id, worker)
    && id in w.store && w.store[id].state == Capacity && w.store[id].worker == Some(worker)
  }

  /** The reservation an executor is working on. */
  function Held(pc: Pc): Option<Id> {
    match pc
    case Reserved(_, _, id) => Some(id)
    case Started(_, _, id) => Some(id)
    case Returned(_, _, id, _) => Some(id)
    case Published(_, _, id, _) => Some(id)
    case Ready(_, _, id, _) => Some(id)
    case Scheduled(_, _, id, _) => Some(id)
    case Ran(_, _, id, _) => Some(id)
    case Suspect(_, id, _, _) => Some(id)
    case _ => None
  }

  ghost predicate Apart(w: World) {
    forall p: Pid, q: Pid :: p != q && Held(PcOf(w, p)).Some? ==> Held(PcOf(w, q)) != Held(PcOf(w, p))
  }

  ghost predicate AllPcs(w: World) {
    forall p: Pid :: PcOk(w, PcOf(w, p))
  }

  ghost predicate StoreOk(w: World, limit: nat) {
    && CallsOk(w.store, w.calls) && WorkersOk(w.store, w.calls, w.made) && OwnersOk(w.store) && Bounded(w.store, limit)
    && w.admissions <= w.issued
  }

  ghost predicate Inv(w: World, limit: nat) {
    StoreOk(w, limit) && AllPcs(w) && Apart(w)
  }

  // ---------------------------------------------------------------- what a step leaves alone

  /** Nothing but reservation `own` has changed, and nothing that was settled has. */
  ghost predicate Evolves(w: World, w': World, own: Option<Id>) {
    && (forall id :: id in w.store ==> id in w'.store && (own == Some(id) || w'.store[id] == w.store[id]))
    && (forall id :: own != Some(id) ==> (id in w'.calls <==> id in w.calls))
    && (forall id :: id in w.calls ==> id in w'.calls)
    && (forall id :: id in w.made && own != Some(id) ==> id in w'.made && w'.made[id] == w.made[id])
    && (forall id, worker :: Confirmed(w, id, worker) ==> Confirmed(w', id, worker))
    && w.issued <= w'.issued && (forall a :: a in w.issued && a !in w.admissions ==> a !in w'.admissions)
  }

  lemma PcFrame(w: World, w': World, own: Option<Id>, pc: Pc)
    requires PcOk(w, pc) && Evolves(w, w', own) && (own.None? || Held(pc) != own)
    ensures PcOk(w', pc)
  {
  }

  lemma StepFrame(w: World, w': World, own: Option<Id>, p: Pid, pc: Pc)
    requires AllPcs(w) && Apart(w) && Evolves(w, w', own) && PcOk(w', pc)
    requires w'.pcs == w.pcs[p := pc]
    requires own.None? || Held(PcOf(w, p)) == own || own.value !in w.store
    requires Held(pc).None? || Held(pc) == own
    ensures AllPcs(w') && Apart(w')
  {
    hide PcOk, Evolves, Held;
    forall q: Pid ensures PcOk(w', PcOf(w', q)) {
      if q != p {
        OthersElsewhere(w, own, p, q);
        PcFrame(w, w', own, PcOf(w, q));
      }
    }
    ApartGoto(w, w', own, p, pc);
  }

  lemma OthersElsewhere(w: World, own: Option<Id>, p: Pid, q: Pid)
    requires AllPcs(w) && Apart(w) && p != q
    requires own.None? || Held(PcOf(w, p)) == own || own.value !in w.store
    ensures own.None? || Held(PcOf(w, q)) != own
  {
    hide PcOk, Held;
    HeldInStore(w, PcOf(w, q));
  }

  lemma ApartGoto(w: World, w': World, own: Option<Id>, p: Pid, pc: Pc)
    requires AllPcs(w) && Apart(w) && w'.pcs == w.pcs[p := pc]
    requires own.None? || Held(PcOf(w, p)) == own || own.value !in w.store
    requires Held(pc).None? || Held(pc) == own
    ensures Apart(w')
  {
    hide PcOk, Held;
    forall q: Pid, r: Pid | q != r && Held(PcOf(w', q)).Some? ensures Held(PcOf(w', r)) != Held(PcOf(w', q)) {
      assert q != p ==> PcOf(w', q) == PcOf(w, q);
      assert r != p ==> PcOf(w', r) == PcOf(w, r);
      if q == p {
        OthersElsewhere(w, own, p, r);
      } else if r == p {
        OthersElsewhere(w, own, p, q);
      } else {
        assert Held(PcOf(w, q)).Some?;
      }
    }
  }

  lemma HeldInStore(w: World, pc: Pc)
    requires PcOk(w, pc)
    ensures Held(pc).Some? ==> Held(pc).value in w.store
  {
  }

  /** A step that only moves an executor. */
  lemma GotoKeeps(w: World, p: Pid, pc: Pc, limit: nat)
    requires Inv(w, limit) && PcOk(w, pc) && (Held(pc).None? || Held(pc) == Held(PcOf(w, p)))
    ensures Inv(Goto(w, p, pc), limit)
  {
    hide StoreOk, PcOk, Evolves, Held;
    var w' := Goto(w, p, pc);
    var own := Held(PcOf(w, p));
    SamePc(w, w', pc);
    StillEvolves(w, w', own);
    SameStoreOk(w, w', limit);
    StepFrame(w, w', own, p, pc);
  }

  lemma StillEvolves(w: World, w': World, own: Option<Id>)
    requires w' == w.(pcs := w'.pcs)
    ensures Evolves(w, w', own)
  {
    assert forall id, worker :: Confirmed(w, id, worker) ==> Confirmed(w', id, worker);
  }

  lemma SamePc(w: World, w': World, pc: Pc)
    requires w' == w.(pcs := w'.pcs)
    ensures PcOk(w, pc) <==> PcOk(w', pc)
  {
  }

  // ---------------------------------------------------------------- store transitions

  lemma MovedCalls(w: World, id: Id, job: Job, target: State, worker: Option<Worker>, foreignLease: bool)
    requires CallsOk(w.store, w.calls) && CanMove(w.store, id, job, target, worker, foreignLease)
    requires id in w.calls ==> target != Released
    ensures CallsOk(Move(w.store, id, target, worker), w.calls)
  {
  }

  lemma MovedWorkers(w: World, id: Id, job: Job, target: State, worker: Option<Worker>, foreignLease: bool)
    requires WorkersOk(w.store, w.calls, w.made) && CanMove(w.store, id, job, target, worker, foreignLease)
    requires worker.Some? ==> id in w.made && w.made[id] == worker.value
    requires target == Provisioned || target == Capacity ==> worker.Some?
    ensures WorkersOk(Move(w.store, id, target, worker), w.calls, w.made)
  {
  }

  lemma MovedOwners(w: World, id: Id, job: Job, target: State, worker: Option<Worker>, foreignLease: bool)
    requires OwnersOk(w.store) && CanMove(w.store, id, job, target, worker, foreignLease)
    ensures OwnersOk(Move(w.store, id, target, worker))
  {
    assert w.store[id].state == Released ==> target == Released;
  }

  lemma MovedBound(w: World, id: Id, job: Job, target: State, worker: Option<Worker>, foreignLease: bool, limit: nat)
    requires Bounded(w.store, limit) && CanMove(w.store, id, job, target, worker, foreignLease)
    ensures Bounded(Move(w.store, id, target, worker), limit)
  {
    Smaller(Unreleased(Move(w.store, id, target, worker)), Unreleased(w.store));
  }

  lemma MovedStore(w: World, id: Id, job: Job, target: State, worker: Option<Worker>, foreignLease: bool, limit: nat)
    requires StoreOk(w, limit) && CanMove(w.store, id, job, target, worker, foreignLease)
    requires id in w.calls ==> target != Released
    requires worker.Some? ==> id in w.made && w.made[id] == worker.value
    requires target == Provisioned || target == Capacity ==> worker.Some?
    ensures id in w.store && StoreOk(w.(store := Move(w.store, id, target, worker)), limit)
  {
    assert id in w.store;
    MovedCalls(w, id, job, target, worker, foreignLease);
    MovedWorkers(w, id, job, target, worker, foreignLease);
    MovedOwners(w, id, job, target, worker, foreignLease);
    MovedBound(w, id, job, target, worker, foreignLease, limit);
    hide CanMove, CallsOk, WorkersOk, OwnersOk, Bounded, Move;
  }

  lemma Smaller(a: set<Id>, b: set<Id>)
    requires a <= b
    ensures |a| <= |b|
  {
    assert b == a + (b - a);
  }

  lemma MovedEvolves(w: World, id: Id, job: Job, target: State, worker: Option<Worker>, foreignLease: bool)
    requires CanMove(w.store, id, job, target, worker, foreignLease)
    ensures Evolves(w, w.(store := Move(w.store, id, target, worker)), Some(id))
  {
  }

  /** A transition an executor attempts on the reservation it holds. */
  lemma AttemptKeeps(w: World, p: Pid, id: Id, job: Job, target: State, worker: Option<Worker>, foreignLease: bool, call: Call,
                     onSuccess: Pc, onFailure: Pc, limit: nat)
    requires Inv(w, limit) && Held(PcOf(w, p)) == Some(id)
    requires id in w.calls ==> target != Released
    requires worker.Some? ==> id in w.made && w.made[id] == worker.value
    requires target == Provisioned || target == Capacity ==> worker.Some?
    requires Held(onSuccess) == None || Held(onSuccess) == Some(id)
    requires Held(onFailure) == None || Held(onFailure) == Some(id)
    requires PcOk(w, onFailure)
    requires CanMove(w.store, id, job, target, worker, foreignLease) ==>
               var w' := w.(store := Move(w.store, id, target, worker)); PcOk(w', onSuccess) && PcOk(w', onFailure)
    ensures Inv(Attempt(w, p, id, job, target, worker, foreignLease, call, onSuccess, onFailure), limit)
  {
    hide PcOk, CanMove, StoreOk, Evolves;
    if call.FailedBefore? || !CanMove(w.store, id, job, target, worker, foreignLease) {
      GotoKeeps(w, p, onFailure, limit);
    } else {
      MovedStore(w, id, job, target, worker, foreignLease, limit);
      var moved := w.(store := Move(w.store, id, target, worker));
      var pc := if call.Answered? then onSuccess else onFailure;
      var w' := Goto(moved, p, pc);
      MovedEvolves(w, id, job, target, worker, foreignLease);
      SamePc(moved, w', pc);
      SameEvolves(w, moved, w', Some(id));
      SameStoreOk(moved, w', limit);
      StepFrame(w, w', Some(id), p, pc);
    }
  }

  lemma SameEvolves(w: World, a: World, b: World, own: Option<Id>)
    requires Evolves(w, a, own) && b == a.(pcs := b.pcs)
    ensures Evolves(w, b, own)
  {
    assert forall id, worker :: Confirmed(a, id, worker) ==> Confirmed(b, id, worker);
  }

  lemma SameStoreOk(a: World, b: World, limit: nat)
    requires StoreOk(a, limit) && b == a.(pcs := b.pcs)
    ensures StoreOk(b, limit)
  {
  }

  // ---------------------------------------------------------------- every step

  lemma ReserveStore(w: World, id: Id, job: Job, own: nat, limit: nat)
    requires StoreOk(w, limit) && own <= limit && AcquireKind(w.store, id, job, own) == NewReservation
    ensures StoreOk(w.(store := Reserve(w.store, id, job)), limit)
    ensures |Unreleased(Reserve(w.store, id, job))| <= own
  {
    ReserveOwners(w.store, id, job, own);
    ReserveBound(w.store, id, job, own);
    hide CallsOk, WorkersOk, OwnersOk, Reserve;
    ReserveFresh(w, id, job);
  }

  lemma ReserveOwners(rs: Store, id: Id, job: Job, limit: nat)
    requires OwnersOk(rs) && AcquireKind(rs, id, job, limit) == NewReservation
    ensures OwnersOk(Reserve(rs, id, job)) && id !in rs
  {
    assert forall i :: i in rs && rs[i].state != Released ==> !Owned(rs[i], job);
  }

  lemma ReserveBound(rs: Store, id: Id, job: Job, limit: nat)
    requires AcquireKind(rs, id, job, limit) == NewReservation
    ensures Bounded(Reserve(rs, id, job), limit)
  {
    assert Unreleased(Reserve(rs, id, job)) == Unreleased(rs) + {id};
  }

  lemma ReserveFresh(w: World, id: Id, job: Job)
    requires CallsOk(w.store, w.calls) && WorkersOk(w.store, w.calls, w.made) && id !in w.store
    ensures CallsOk(Reserve(w.store, id, job), w.calls) && WorkersOk(Reserve(w.store, id, job), w.calls, w.made)
    ensures id !in w.calls
  {
  }

  lemma AcquireKeeps(w: World, p: Pid, job: Job, a: Admission, id: Id, own: nat, call: Call, limit: nat)
    requires Inv(w, limit) && PcOf(w, p) == Fenced(job, a) && own <= limit
    ensures Inv(StepFenced(w, p, Fenced(job, a), AcquireReservation(id, own, call)), limit)
  {
    hide StoreOk, PcOk, AllPcs, Apart, AcquireKind;
    assert PcOk(w, Fenced(job, a)) by {
      PcHere(w, p, limit);
    }
    SimplePcs(w, job, a);
    var kind := AcquireKind(w.store, id, job, own);
    if call.FailedBefore? || kind != NewReservation {
      var pc := if call.Answered? && kind == LimitWait then Releasing(job, a) else Over(Recovery);
      GotoKeeps(w, p, pc, limit);
    } else {
      var w1 := w.(store := Reserve(w.store, id, job));
      var pc := if call.Answered? then Reserved(job, a, id) else Over(Recovery);
      var w' := Goto(w1, p, pc);
      ReserveStore(w, id, job, own, limit);
      ReserveEvolves(w, w', id, job, own);
      SameStoreOk(w1, w', limit);
      ReservedPc(w, w', job, a, id, limit);
      StepFrame(w, w', Some(id), p, pc);
    }
  }

  lemma PcHere(w: World, p: Pid, limit: nat)
    requires Inv(w, limit)
    ensures PcOk(w, PcOf(w, p))
  {
  }

  lemma SimplePcs(w: World, job: Job, a: Admission)
    requires PcOk(w, Fenced(job, a))
    ensures PcOk(w, Releasing(job, a)) && PcOk(w, Over(Recovery)) && PcOk(w, Begun(job)) && PcOk(w, Over(Waited(None)))
  {
  }

  lemma ReserveEvolves(w: World, w': World, id: Id, job: Job, limit: nat)
    requires AcquireKind(w.store, id, job, limit) == NewReservation
    requires w' == w.(store := Reserve(w.store, id, job), pcs := w'.pcs)
    ensures Evolves(w, w', Some(id)) && id !in w.store
  {
  }

  lemma ReservedPc(w: World, w': World, job: Job, a: Admission, id: Id, limit: nat)
    requires StoreOk(w, limit) && id !in w.store
    requires w' == w.(store := Reserve(w.store, id, job), pcs := w'.pcs)
    ensures PcOk(w', Reserved(job, a, id)) && PcOk(w', Over(Recovery))
  {
  }

  lemma AdmissionKeeps(w: World, p: Pid, job: Job, a: Admission, limit: nat)
    requires Inv(w, limit) && PcOf(w, p) == Begun(job) && a !in w.issued
    ensures Inv(Goto(w.(issued := w.issued + {a}, admissions := w.admissions + {a}), p, Fenced(job, a)), limit)
  {
    hide PcOk, AllPcs, Apart, CallsOk, WorkersOk, OwnersOk, Bounded;
    var w' := Goto(w.(issued := w.issued + {a}, admissions := w.admissions + {a}), p, Fenced(job, a));
    AdmissionPc(w', job, a);
    AdmissionEvolves(w, w', a);
    StepFrame(w, w', None, p, Fenced(job, a));
  }

  lemma AdmissionPc(w: World, job: Job, a: Admission)
    requires a in w.issued
    ensures PcOk(w, Fenced(job, a))
  {
  }

  lemma AdmissionEvolves(w: World, w': World, a: Admission)
    requires a !in w.issued && w' == w.(issued := w.issued + {a}, admissions := w.admissions + {a}, pcs := w'.pcs)
    ensures Evolves(w, w', None)
  {
  }

  lemma ReleaseKeeps(w: World, p: Pid, job: Job, a: Admission, answered: bool, limit: nat)
    requires Inv(w, limit) && PcOf(w, p) == Releasing(job, a)
    ensures Inv(Goto(w.(admissions := w.admissions - {a}), p, Over(if answered then Waited(Some(a)) else Recovery)), limit)
  {
    hide AllPcs, Apart, CallsOk, WorkersOk, OwnersOk, Bounded;
    PcHere(w, p, limit);
    var pc := Over(if answered then Waited(Some(a)) else Recovery);
    var w' := Goto(w.(admissions := w.admissions - {a}), p, pc);
    ReleaseEvolves(w, w', a);
    StepFrame(w, w', None, p, pc);
  }

  lemma ReleaseEvolves(w: World, w': World, a: Admission)
    requires w' == w.(admissions := w.admissions - {a}, pcs := w'.pcs)
    ensures Evolves(w, w', None)
  {
  }

  // ---------------------------------------------------------------- provisioning

  function Called(w: World, id: Id, worker: Option<Worker>): World {
    w.(calls := w.calls + multiset{id}, made := if worker.Some? then w.made[id := worker.value] else w.made)
  }

  lemma CalledStore(w: World, job: Job, a: Admission, id: Id, worker: Option<Worker>, limit: nat)
    requires StoreOk(w, limit) && PcOk(w, Started(job, a, id))
    ensures StoreOk(Called(w, id, worker), limit)
  {
    var w' := Called(w, id, worker);
    assert CallsOk(w'.store, w'.calls);
    assert id !in w.made;
    assert WorkersOk(w'.store, w'.calls, w'.made);
  }

  lemma CalledEvolves(w: World, w': World, job: Job, a: Admission, id: Id, worker: Option<Worker>)
    requires PcOk(w, Started(job, a, id)) && w' == Called(w, id, worker).(pcs := w'.pcs)
    ensures Evolves(w, w', Some(id))
  {
  }

  lemma CalledPcs(w: World, w': World, job: Job, a: Admission, id: Id, worker: Option<Worker>)
    requires PcOk(w, Started(job, a, id)) && w' == Called(w, id, worker).(pcs := w'.pcs)
    ensures PcOk(w', Suspect(job, id, None, Recovery))
    ensures worker.Some? ==> PcOk(w', Suspect(job, id, worker, Recovery)) && PcOk(w', Returned(job, a, id, worker.value))
  {
  }

  lemma ProvisionKeeps(w: World, p: Pid, pc: Pc, worker: Option<Worker>, threw: bool, acceptable: bool, limit: nat)
    requires Inv(w, limit) && PcOf(w, p) == pc && pc.Started?
    ensures Inv(StepProvision(w, p, pc, worker, threw, acceptable), limit)
  {
    hide PcOk, StoreOk, AllPcs, Apart, Evolves;
    PcHere(w, p, limit);
    var w' := StepProvision(w, p, pc, worker, threw, acceptable);
    CalledStore(w, pc.job, pc.admission, pc.id, worker, limit);
    CalledEvolves(w, w', pc.job, pc.admission, pc.id, worker);
    CalledPcs(w, w', pc.job, pc.admission, pc.id, worker);
    SameStoreOk(Called(w, pc.id, worker), w', limit);
    var next := if threw || worker.None? then Suspect(pc.job, pc.id, None, Recovery)
                else if !acceptable then Suspect(pc.job, pc.id, worker, Recovery)
                else Returned(pc.job, pc.admission, pc.id, worker.value);
    StepFrame(w, w', Some(pc.id), p, next);
  }

  // ---------------------------------------------------------------- the transitions of an attempt

  lemma StartPcs(w: World, job: Job, a: Admission, id: Id)
    requires PcOk(w, Reserved(job, a, id)) && id in w.store
    ensures PcOk(w.(store := Move(w.store, id, Provisioning, None)), Started(job, a, id))
  {
  }

  lemma PublishPcs(w: World, job: Job, a: Admission, id: Id, worker: Worker)
    requires PcOk(w, Returned(job, a, id, worker)) && id in w.store
    ensures PcOk(w, Suspect(job, id, Some(worker), Recovery))
    ensures var w' := w.(store := Move(w.store, id, Provisioned, Some(worker)));
            PcOk(w', Published(job, a, id, worker)) && PcOk(w', Suspect(job, id, Some(worker), Recovery))
  {
  }

  lemma PublishedPcs(w: World, job: Job, a: Admission, id: Id, worker: Worker)
    requires PcOk(w, Published(job, a, id, worker))
    ensures PcOk(w, Ready(job, a, id, worker)) && PcOk(w, Scheduled(job, a, id, worker)) && PcOk(w, Ran(job, a, id, worker))
    ensures PcOk(w, Suspect(job, id, Some(worker), Recovery)) && PcOk(w, Suspect(job, id, Some(worker), WaitedAfterRun))
  {
  }

  lemma CapacityPcs(w: World, job: Job, a: Admission, id: Id, worker: Worker)
    requires PcOk(w, Ran(job, a, id, worker)) && id in w.store
    ensures PcOk(w, Suspect(job, id, Some(worker), Recovery))
    ensures var w' := w.(store := Move(w.store, id, Capacity, Some(worker)));
            PcOk(w', Over(Executed(id, worker))) && PcOk(w', Suspect(job, id, Some(worker), Recovery))
  {
  }

  lemma SuspectPcs(w: World, w': World, job: Job, id: Id, known: Option<Worker>, result: Result)
    requires PcOk(w, Suspect(job, id, known, result))
    ensures PcOk(w', Over(result))
  {
  }

  lemma HoldIsMade(w: World, job: Job, a: Admission, id: Id, worker: Worker)
    requires PcOk(w, Returned(job, a, id, worker)) || PcOk(w, Ran(job, a, id, worker))
    ensures id in w.store && id in w.made && w.made[id] == worker
  {
  }

  lemma MarkStartedKeeps(w: World, p: Pid, job: Job, a: Admission, id: Id, call: Call, limit: nat)
    requires Inv(w, limit) && PcOf(w, p) == Reserved(job, a, id)
    ensures Inv(Attempt(w, p, id, job, Provisioning, None, false, call, Started(job, a, id), Over(Recovery)), limit)
  {
    hide PcOk, StoreOk, AllPcs, Apart;
    PcHere(w, p, limit);
    HeldInStore(w, PcOf(w, p));
    StartPcs(w, job, a, id);
    RecoveryPc(w);
    RecoveryPc(w.(store := Move(w.store, id, Provisioning, None)));
    AttemptKeeps(w, p, id, job, Provisioning, None, false, call, Started(job, a, id), Over(Recovery), limit);
  }

  lemma RecoveryPc(w: World)
    ensures PcOk(w, Over(Recovery)) && PcOk(w, Idle)
  {
  }

  lemma MarkProvisionedKeeps(w: World, p: Pid, job: Job, a: Admission, id: Id, worker: Worker, foreignLease: bool, call: Call,
                             limit: nat)
    requires Inv(w, limit) && PcOf(w, p) == Returned(job, a, id, worker)
    ensures Inv(Attempt(w, p, id, job, Provisioned, Some(worker), foreignLease, call, Published(job, a, id, worker),
                        Suspect(job, id, Some(worker), Recovery)), limit)
  {
    hide PcOk, StoreOk, AllPcs, Apart;
    PcHere(w, p, limit);
    HoldIsMade(w, job, a, id, worker);
    PublishPcs(w, job, a, id, worker);
    AttemptKeeps(w, p, id, job, Provisioned, Some(worker), foreignLease, call, Published(job, a, id, worker),
                 Suspect(job, id, Some(worker), Recovery), limit);
  }

  lemma MarkCapacityKeeps(w: World, p: Pid, job: Job, a: Admission, id: Id, worker: Worker, call: Call, limit: nat)
    requires Inv(w, limit) && PcOf(w, p) == Ran(job, a, id, worker)
    ensures Inv(Attempt(w, p, id, job, Capacity, Some(worker), false, call, Over(Executed(id, worker)),
                        Suspect(job, id, Some(worker), Recovery)), limit)
  {
    hide PcOk, StoreOk, AllPcs, Apart;
    PcHere(w, p, limit);
    HoldIsMade(w, job, a, id, worker);
    CapacityPcs(w, job, a, id, worker);
    AttemptKeeps(w, p, id, job, Capacity, Some(worker), false, call, Over(Executed(id, worker)),
                 Suspect(job, id, Some(worker), Recovery), limit);
  }

  lemma SuspectFacts(w: World, job: Job, id: Id, known: Option<Worker>, result: Result)
    requires PcOk(w, Suspect(job, id, known, result))
    ensures id in w.store && (known.Some? ==> id in w.made && w.made[id] == known.value)
  {
  }

  lemma MarkRecoveryKeeps(w: World, p: Pid, job: Job, id: Id, known: Option<Worker>, result: Result, call: Call, limit: nat)
    requires Inv(w, limit) && PcOf(w, p) == Suspect(job, id, known, result)
    ensures Inv(Attempt(w, p, id, job, RecoveryRequired, known, false, call, Over(result), Over(result)), limit)
  {
    hide PcOk, StoreOk, AllPcs, Apart;
    PcHere(w, p, limit);
    SuspectFacts(w, job, id, known, result);
    SuspectPcs(w, w, job, id, known, result);
    SuspectPcs(w, w.(store := Move(w.store, id, RecoveryRequired, known)), job, id, known, result);
    AttemptKeeps(w, p, id, job, RecoveryRequired, known, false, call, Over(result), Over(result), limit);
  }

  lemma SamePublished(w: World, job: Job, a: Admission, id: Id, worker: Worker, pc: Pc)
    requires pc in {Published(job, a, id, worker), Ready(job, a, id, worker), Scheduled(job, a, id, worker)} && PcOk(w, pc)
    ensures PcOk(w, Published(job, a, id, worker)) && Held(pc) == Some(id)
  {
  }

  /** Observation, rescheduling and execution only move the executor. */
  lemma QuietKeeps(w: World, p: Pid, e: Event, limit: nat)
    requires Inv(w, limit)
    requires var pc := PcOf(w, p); pc.Published? || pc.Ready? || pc.Scheduled?
    ensures e.Crash? || Inv(Step(w, p, e), limit)
  {
    hide PcOk, StoreOk, AllPcs, Apart;
    var pc := PcOf(w, p);
    PcHere(w, p, limit);
    SamePublished(w, pc.job, pc.admission, pc.id, pc.worker, pc);
    PublishedPcs(w, pc.job, pc.admission, pc.id, pc.worker);
    GotoKeeps(w, p, Suspect(pc.job, pc.id, Some(pc.worker), Recovery), limit);
    GotoKeeps(w, p, Suspect(pc.job, pc.id, Some(pc.worker), WaitedAfterRun), limit);
    GotoKeeps(w, p, Ready(pc.job, pc.admission, pc.id, pc.worker), limit);
    GotoKeeps(w, p, Scheduled(pc.job, pc.admission, pc.id, pc.worker), limit);
    GotoKeeps(w, p, Ran(pc.job, pc.admission, pc.id, pc.worker), limit);
  }

  lemma EarlyKeeps(w: World, p: Pid, e: Event, limit: nat)
    requires Inv(w, limit) && (e.AcquireReservation? ==> e.limit <= limit)
    requires var pc := PcOf(w, p); pc.Idle? || pc.Over? || pc.Begun? || pc.Fenced? || pc.Releasing?
    ensures e.Crash? || Inv(Step(w, p, e), limit)
  {
    hide PcOk, StoreOk, AllPcs, Apart, AcquireKind, Inv;
    var pc := PcOf(w, p);
    PcHere(w, p, limit);
    RecoveryPc(w);
    match e {
      case Begin(job) =>
        BegunPc(w, job);
        if pc.Idle? || pc.Over? {
          GotoKeeps(w, p, Begun(job), limit);
        }
      case ReserveAdmission(a, _, recovery) =>
        if pc.Begun? {
          if a !in w.issued {
            AdmissionKeeps(w, p, pc.job, a, limit);
          }
          BegunPc(w, pc.job);
          GotoKeeps(w, p, Over(if recovery then Recovery else Waited(None)), limit);
        }
      case PolicyStop(recovery) =>
        if pc.Fenced? {
          SimplePcs(w, pc.job, pc.admission);
          GotoKeeps(w, p, if recovery then Over(Recovery) else Releasing(pc.job, pc.admission), limit);
        }
      case AcquireReservation(id, own, call) =>
        if pc.Fenced? {
          AcquireKeeps(w, p, pc.job, pc.admission, id, own, call, limit);
        }
      case ReleaseAdmission(call) =>
        if pc.Releasing? {
          ReleaseKeeps(w, p, pc.job, pc.admission, call.Answered?, limit);
          GotoKeeps(w, p, Over(Recovery), limit);
        }
      case _ =>
    }
  }

  lemma BegunPc(w: World, job: Job)
    ensures PcOk(w, Begun(job)) && PcOk(w, Over(Waited(None)))
  {
  }

  /** One step of one executor keeps the invariant. */
  lemma StepKeeps(w: World, p: Pid, e: Event, limit: nat)
    requires Inv(w, limit) && (e.AcquireReservation? ==> e.limit <= limit)
    ensures Inv(Step(w, p, e), limit)
  {
    hide Inv, PcOk, AcquireKind, Attempt, StepProvision;
    var pc := PcOf(w, p);
    if e.Crash? {
      RecoveryPc(w);
      GotoKeeps(w, p, Idle, limit);
    } else if pc.Reserved? {
      if e.MarkStarted? {
        MarkStartedKeeps(w, p, pc.job, pc.admission, pc.id, e.call, limit);
      }
    } else if pc.Started? {
      if e.Provision? {
        ProvisionKeeps(w, p, pc, e.worker, e.threw, e.acceptable, limit);
      }
    } else if pc.Returned? {
      if e.MarkProvisioned? {
        MarkProvisionedKeeps(w, p, pc.job, pc.admission, pc.id, pc.worker, e.foreignLease, e.call, limit);
      }
    } else if pc.Published? || pc.Ready? || pc.Scheduled? {
      QuietKeeps(w, p, e, limit);
    } else if pc.Ran? {
      if e.MarkCapacity? {
        MarkCapacityKeeps(w, p, pc.job, pc.admission, pc.id, pc.worker, e.call, limit);
      }
    } else if pc.Suspect? {
      if e.MarkRecovery? {
        MarkRecoveryKeeps(w, p, pc.job, pc.id, pc.known, pc.result, e.call, limit);
      }
    } else {
      EarlyKeeps(w, p, e, limit);
    }
  }

  // ---------------------------------------------------------------- the operator

  /** Only a reservation that was never started can be released. */
  lemma ReleasedWasUnstarted(w: World, id: Id, job: Job, limit: nat)
    requires Inv(w, limit) && CanMove(w.store, id, job, Released, None, false)
    ensures id in w.store && id !in w.calls && w.store[id].state in {PreProvision, State.Released}
    ensures w.store[id].worker == None
  {
    hide OwnersOk, Bounded, AllPcs, Apart, PcOk;
  }

  lemma OperatorPc(w: World, id: Id, pc: Pc)
    requires id in w.store && id !in w.calls && w.store[id].state in {PreProvision, State.Released} && w.store[id].worker == None
    requires PcOk(w, pc)
    ensures PcOk(w.(store := Move(w.store, id, Released, None)), pc)
  {
  }

  lemma ApartSame(w: World, w': World)
    requires Apart(w) && w'.pcs == w.pcs
    ensures Apart(w')
  {
    hide Held;
    assert forall p: Pid :: PcOf(w', p) == PcOf(w, p);
  }

  lemma OperatorKeeps(w: World, id: Id, job: Job, limit: nat)
    requires Inv(w, limit)
    ensures Inv(OperatorRelease(w, id, job), limit)
  {
    hide PcOk, StoreOk, CanMove, Apart;
    if CanMove(w.store, id, job, Released, None, false) {
      ReleasedWasUnstarted(w, id, job, limit);
      var w' := w.(store := Move(w.store, id, Released, None));
      MovedStore(w, id, job, Released, None, false, limit);
      ApartSame(w, w');
      forall p: Pid ensures PcOk(w', PcOf(w', p)) {
        OperatorPc(w, id, PcOf(w, p));
      }
    }
  }

  lemma ActKeeps(w: World, a: Action, limit: nat)
    requires Inv(w, limit)
    ensures Inv(Act(w, a), Higher(limit, a))
  {
    hide Inv, Step, OperatorRelease;
    Raised(w, limit, Higher(limit, a));
    match a
    case Executor(p, e) => StepKeeps(w, p, e, Higher(limit, a));
    case Operator(id, job) => OperatorKeeps(w, id, job, limit);
  }

  lemma Raised(w: World, limit: nat, higher: nat)
    requires Inv(w, limit) && limit <= higher
    ensures Inv(w, higher)
  {
    hide CallsOk, WorkersOk, OwnersOk, AllPcs, Apart;
  }

  lemma EmptyInv()
    ensures Inv(EMPTY, 0)
  {
  }

  // ---------------------------------------------------------------- the theorems

  lemma {:induction false} RunInv(actions: seq<Action>)
    ensures Inv(After(EMPTY, actions), Highest(actions))
  {
    hide Inv, Act, Higher;
    if actions == [] {
      EmptyInv();
    } else {
      RunInv(actions[..|actions| - 1]);
      ActKeeps(After(EMPTY, actions[..|actions| - 1]), actions[|actions| - 1], Highest(actions[..|actions| - 1]));
    }
  }

  /** Over every run of any number of executors: the provisioner is called at most once per reservation,
      every reservation it was called for, and so every worker it may have made, stays on record as
      started and unreleased, and no more reservations are unreleased than the highest limit any policy has set. */
  lemma NoLostWorker(actions: seq<Action>)
    ensures var w := After(EMPTY, actions);
            && (forall id :: w.calls[id] <= 1)
            && (forall id :: id in w.calls ==> Covers(w.store, id))
            && (forall id :: id in w.made ==> Covers(w.store, id) && w.store[id].worker in {None, Some(w.made[id])})
            && |Unreleased(w.store)| <= Highest(actions)
  {
    hide After, AllPcs, Apart, OwnersOk;
    RunInv(actions);
  }

  lemma {:induction false} Settled(w: World, actions: seq<Action>, limit: nat, id: Id, worker: Worker)
    requires Inv(w, limit) && Confirmed(w, id, worker)
    ensures Confirmed(After(w, actions), id, worker) && exists higher: nat :: Inv(After(w, actions), higher)
  {
    hide Inv, Act, Confirmed, Higher;
    if actions != [] {
      var before := After(w, actions[..|actions| - 1]);
      Settled(w, actions[..|actions| - 1], limit, id, worker);
      var higher: nat :| Inv(before, higher);
      ActKeeps(before, actions[|actions| - 1], higher);
      ActSettles(before, actions[|actions| - 1], higher, id, worker);
    }
  }

  lemma ActSettles(w: World, a: Action, limit: nat, id: Id, worker: Worker)
    requires Inv(w, limit) && Confirmed(w, id, worker)
    ensures Confirmed(Act(w, a), id, worker)
  {
    hide AcquireKind, StoreOk, Apart;
    match a {
      case Executor(p, e) =>
        PcHere(w, p, limit);
        if e.AcquireReservation? && PcOf(w, p).Fenced? {
          AcquiredIsNew(w.store, e.id, PcOf(w, p).job, e.limit);
        }
      case Operator(i, job) =>
    }
  }

  lemma AcquiredIsNew(rs: Store, id: Id, job: Job, limit: nat)
    ensures AcquireKind(rs, id, job, limit) == NewReservation ==> id !in rs
  {
  }

  lemma {:induction false} AfterSplit(w: World, first: seq<Action>, more: seq<Action>)
    ensures After(w, first + more) == After(After(w, first), more)
  {
    hide Act;
    if more == [] {
      assert first + more == first;
    } else {
      var n := |more| - 1;
      assert (first + more)[..|first| + n] == first + more[..n];
      AfterSplit(w, first, more[..n]);
    }
  }

  /** An executor that reports ELASTIC_EXECUTED has made its reservation capacity for exactly the worker
      its own provision call made and its final plan selected, and so it stays for ever. */
  lemma ExecutedIsCapacity(actions: seq<Action>, more: seq<Action>, p: Pid, id: Id, worker: Worker)
    requires PcOf(After(EMPTY, actions), p) == Over(Executed(id, worker))
    ensures Confirmed(After(EMPTY, actions + more), id, worker)
  {
    hide After, Inv;
    var w := After(EMPTY, actions);
    RunInv(actions);
    PcHere(w, p, Highest(actions));
    Settled(w, more, Highest(actions), id, worker);
    AfterSplit(EMPTY, actions, more);
  }

  /** An executor that waits without having run anything holds no provider admission. */
  lemma WaitKeepsNoAdmission(actions: seq<Action>, p: Pid, a: Admission)
    requires PcOf(After(EMPTY, actions), p) == Over(Waited(Some(a)))
    ensures a in After(EMPTY, actions).issued && a !in After(EMPTY, actions).admissions
  {
    hide After, StoreOk, Apart;
    RunInv(actions);
    PcHere(After(EMPTY, actions), p, Highest(actions));
  }

  /** The provisioner is called only by an executor whose reservation is durably PROVISIONING. */
  lemma ProvisionIsPreceded(actions: seq<Action>, p: Pid, e: Event)
    requires var w := After(EMPTY, actions); Step(w, p, e).calls != w.calls
    ensures var w := After(EMPTY, actions);
            && PcOf(w, p).Started? && e.Provision?
            && var id := PcOf(w, p).id;
               && id !in w.calls && id in w.store && w.store[id].state == Provisioning
               && Step(w, p, e).calls == w.calls + multiset{id}
  {
    hide After, StoreOk, Apart, AcquireKind;
    RunInv(actions);
    PcHere(After(EMPTY, actions), p, Highest(actions));
  }
}
