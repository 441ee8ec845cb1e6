/**
 Elastic capacity: any number of executors over one durable reservation store.  Each step is one store
 or external call of one executor, which may fail with or without effect, or a crash that loses the
 executor's own state; an operator may release reservations that were never started.
 */
module ElasticCapacity {

  datatype Option<T> = None | Some(value: T)

  type Id = string
  type Worker = string
  type Pid = nat
  type Admission = nat

  datatype State = PreProvision | Provisioning | Provisioned | Capacity | RecoveryRequired | Released

  datatype Reservation = Reservation(session: string, task: string, kind: string, state: State, worker: Option<Worker>)

  type Store = map<Id, Reservation>

  /** One elastic attempt: its owner, the runtime it needs and the blocked node it is for. */
  datatype Job = Job(session: string, task: string, kind: string, node: string)

  // ---------------------------------------------------------------- the store

  function Unreleased(rs: Store): set<Id> {
    set id | id in rs && rs[id].state != Released
  }

  predicate Owned(r: Reservation, job: Job) {
    r.session == job.session && r.task == job.task
  }

  datatype Acquired = NewReservation | Existing | LimitWait | Conflict

  function AcquireKind(rs: Store, id: Id, job: Job, limit: nat): Acquired {
    if exists i :: i in rs && rs[i].state != Released && Owned(rs[i], job) then Existing
    else if |Unreleased(rs)| >= limit then LimitWait
    else if id in rs then Conflict
    else NewReservation
  }

  function Reserve(rs: Store, id: Id, job: Job): Store {
    rs[id := Reservation(job.session, job.task, job.kind, PreProvision, None)]
  }

  predicate Allowed(current: State, target: State) {
    match current
    case PreProvision => target in {Provisioning, RecoveryRequired, State.Released}
    case Provisioning => target in {Provisioned, RecoveryRequired}
    case Provisioned => target in {Capacity, RecoveryRequired}
    case Capacity | RecoveryRequired | Released => false
  }

  /** Whether the store commits a transition; the same transition again is accepted as it stands. */
  predicate CanMove(rs: Store, id: Id, job: Job, target: State, worker: Option<Worker>, foreignLease: bool) {
    && id in rs && Owned(rs[id], job)
    && ((rs[id].state == target && rs[id].worker == worker)
        || (&& Allowed(rs[id].state, target)
            && (target == Provisioned ==> !foreignLease)
            && (worker.Some? ==> forall i :: i in rs && i != id && rs[i].state != Released ==> rs[i].worker != worker)))
  }

  function Move(rs: Store, id: Id, target: State, worker: Option<Worker>): Store
    requires id in rs
  {
    rs[id := rs[id].(state := target, worker := worker)]
  }

  // ---------------------------------------------------------------- the executors

  datatype Result = Executed(id: Id, worker: Worker) | Waited(admission: Option<Admission>) | Recovery | WaitedAfterRun

  /** Where one executor is in its attempt. */
  datatype Pc =
    | Idle
    | Begun(job: Job)
    | Fenced(job: Job, admission: Admission)
    | Releasing(job: Job, admission: Admission)
    | Reserved(job: Job, admission: Admission, id: Id)
    | Started(job: Job, admission: Admission, id: Id)
    | Returned(job: Job, admission: Admission, id: Id, worker: Worker)
    | Published(job: Job, admission: Admission, id: Id, worker: Worker)
    | Ready(job: Job, admission: Admission, id: Id, worker: Worker)
    | Scheduled(job: Job, admission: Admission, id: Id, worker: Worker)
    | Ran(job: Job, admission: Admission, id: Id, worker: Worker)
    | Suspect(job: Job, id: Id, known: Option<Worker>, result: Result)
    | Over(result: Result)

  /** How a call on the store ends. */
  datatype Call = Answered | FailedBefore | FailedAfter

  datatype Run = Success | NeedsRecovery | MustWait | Threw

  datatype Event =
    | Begin(job: Job)
    | ReserveAdmission(admission: Admission, admitted: bool, recovery: bool)
    | PolicyStop(recovery: bool)
    | AcquireReservation(id: Id, limit: nat, call: Call)
    | ReleaseAdmission(call: Call)
    | MarkStarted(call: Call)
    | Provision(worker: Option<Worker>, threw: bool, acceptable: bool)
    | MarkProvisioned(call: Call, foreignLease: bool)
    | Observe(ok: bool)
    | Reschedule(observed: bool, selected: seq<(string, Worker)>)
    | Execute(run: Run)
    | MarkCapacity(call: Call)
    | MarkRecovery(call: Call)
    | Crash

  /** `calls` are the provision calls by reservation, `made` the workers they made, `issued` every provider
      admission ever granted and `admissions` those still held. */
  datatype World = World(
    store: Store,
    calls: multiset<Id>,
    made: map<Id, Worker>,
    issued: set<Admission>,
    admissions: set<Admission>,
    pcs: map<Pid, Pc>)

  function PcOf(w: World, p: Pid): Pc {
    if p in w.pcs then w.pcs[p] else Idle
  }

  function Goto(w: World, p: Pid, pc: Pc): World {
    w.(pcs := w.pcs[p := pc])
  }

  /** A transition attempted by an executor, and where it goes on success and on failure. */
  function Attempt(w: World, p: Pid, id: Id, job: Job, target: State, worker: Option<Worker>, foreignLease: bool, call: Call,
                   onSuccess: Pc, onFailure: Pc): World
  {
    if call.FailedBefore? || !CanMove(w.store, id, job, target, worker, foreignLease) then Goto(w, p, onFailure)
    else
      Goto(w.(store := Move(w.store, id, target, worker)), p, if call.Answered? then onSuccess else onFailure)
  }

  function StepFenced(w: World, p: Pid, pc: Pc, e: Event): World
    requires pc.Fenced?
  {
    match e
    case PolicyStop(recovery) => Goto(w, p, if recovery then Over(Recovery) else Releasing(pc.job, pc.admission))
    case AcquireReservation(id, limit, call) =>
      if call.FailedBefore? then Goto(w, p, Over(Recovery))
      else
        (match AcquireKind(w.store, id, pc.job, limit)
         case LimitWait => Goto(w, p, if call.Answered? then Releasing(pc.job, pc.admission) else Over(Recovery))
         case Existing => Goto(w, p, Over(Recovery))
         case Conflict => Goto(w, p, Over(Recovery))
         case NewReservation =>
           Goto(w.(store := Reserve(w.store, id, pc.job)), p,
                if call.Answered? then Reserved(pc.job, pc.admission, id) else Over(Recovery)))
    case _ => w
  }

  /** One call of the provisioner: the only place where a worker comes into being. */
  function StepProvision(w: World, p: Pid, pc: Pc, worker: Option<Worker>, threw: bool, acceptable: bool): World
    requires pc.Started?
  {
    var called := w.(calls := w.calls + multiset{pc.id},
                     made := if worker.Some? then w.made[pc.id := worker.value] else w.made);
    if threw || worker.None? then Goto(called, p, Suspect(pc.job, pc.id, None, Recovery))
    else if !acceptable then Goto(called, p, Suspect(pc.job, pc.id, worker, Recovery))
    else Goto(called, p, Returned(pc.job, pc.admission, pc.id, worker.value))
  }

  /** The final plan selects exactly the blocked node on exactly the provisioned worker. */
  predicate SelectsExactly(selected: seq<(string, Worker)>, node: string, worker: Worker) {
    selected == [(node, worker)]
  }

  function StepExecute(w: World, p: Pid, pc: Pc, run: Run): World
    requires pc.Scheduled?
  {
    match run
    case Success => Goto(w, p, Ran(pc.job, pc.admission, pc.id, pc.worker))
    case NeedsRecovery => Goto(w, p, Suspect(pc.job, pc.id, Some(pc.worker), Recovery))
    case MustWait => Goto(w, p, Suspect(pc.job, pc.id, Some(pc.worker), WaitedAfterRun))
    case Threw => Goto(w, p, Suspect(pc.job, pc.id, Some(pc.worker), Recovery))
  }

  function Step(w: World, p: Pid, e: Event): World {
    var pc := PcOf(w, p);
    if e.Crash? then Goto(w, p, Idle)
    else
      match pc
      case Idle => if e.Begin? then Goto(w, p, Begun(e.job)) else w
      case Over(_) => if e.Begin? then Goto(w, p, Begun(e.job)) else w
      case Begun(job) =>
        if !e.ReserveAdmission? || (e.admitted && e.admission in w.issued) then w
        else if e.admitted then
          Goto(w.(issued := w.issued + {e.admission}, admissions := w.admissions + {e.admission}), p, Fenced(job, e.admission))
        else Goto(w, p, Over(if e.recovery then Recovery else Waited(None)))
      case Fenced(_, _) => StepFenced(w, p, pc, e)
      case Releasing(_, a) =>
        if !e.ReleaseAdmission? then w
        else if e.call.FailedBefore? then Goto(w, p, Over(Recovery))
        else Goto(w.(admissions := w.admissions - {a}), p, Over(if e.call.Answered? then Waited(Some(a)) else Recovery))
      case Reserved(job, a, id) =>
        if !e.MarkStarted? then w
        else Attempt(w, p, id, job, Provisioning, None, false, e.call, Started(job, a, id), Over(Recovery))
      case Started(_, _, _) => if !e.Provision? then w else StepProvision(w, p, pc, e.worker, e.threw, e.acceptable)
      case Returned(job, a, id, worker) =>
        if !e.MarkProvisioned? then w
        else
          Attempt(w, p, id, job, Provisioned, Some(worker), e.foreignLease, e.call,
                  Published(job, a, id, worker), Suspect(job, id, Some(worker), Recovery))
      case Published(job, a, id, worker) =>
        if !e.Observe? then w
        else Goto(w, p, if e.ok then Ready(job, a, id, worker) else Suspect(job, id, Some(worker), Recovery))
      case Ready(job, a, id, worker) =>
        if !e.Reschedule? then w
        else if e.observed && SelectsExactly(e.selected, job.node, worker) then Goto(w, p, Scheduled(job, a, id, worker))
        else Goto(w, p, Suspect(job, id, Some(worker), Recovery))
      case Scheduled(_, _, _, _) => if !e.Execute? then w else StepExecute(w, p, pc, e.run)
      case Ran(job, a, id, worker) =>
        if !e.MarkCapacity? then w
        else
          Attempt(w, p, id, job, Capacity, Some(worker), false, e.call,
                  Over(Executed(id, worker)), Suspect(job, id, Some(worker), Recovery))
      case Suspect(job, id, known, result) =>
        if !e.MarkRecovery? then w
        else Attempt(w, p, id, job, RecoveryRequired, known, false, e.call, Over(result), Over(result))
  }

  /** An operator's release of a reservation; the store refuses any that was started. */
  function OperatorRelease(w: World, id: Id, job: Job): World {
    if CanMove(w.store, id, job, Released, None, false) then w.(store := Move(w.store, id, Released, None)) else w
  }

  datatype Action = Executor(p: Pid, e: Event) | Operator(id: Id, job: Job)

  function Act(w: World, a: Action): World {
    match a
    case Executor(p, e) => Step(w, p, e)
    case Operator(id, job) => OperatorRelease(w, id, job)
  }

  function After(w: World, actions: seq<Action>): World {
    if actions == [] then w else Act(After(w, actions[..|actions| - 1]), actions[|actions| - 1])
  }

  /** The highest limit any executor's policy has set so far; each acquisition goes by its own. */
  function Highest(actions: seq<Action>): nat {
    if actions == [] then 0 else Higher(Highest(actions[..|actions| - 1]), actions[|actions| - 1])
  }

  function Higher(limit: nat, a: Action): nat {
    if a.Executor? && a.e.AcquireReservation? && a.e.limit > limit then a.e.limit else limit
  }

  const EMPTY := World(map[], multiset{}, map[], {}, {}, map[])
}
