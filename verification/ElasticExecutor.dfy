/**
 One elastic pass as it runs: schedule, reserve, provision, reschedule, execute, finalize.  `history` is
 everything all executors and the operator have done so far; between two calls of a pass the others take
 any steps of theirs.
 */
module ElasticExecutor {
  import opened ElasticCapacity
  import opened ElasticSafety

  /** An action of somebody else. */
  predicate Foreign(pid: Pid, a: Action) {
    a.Executor? ==> a.p != pid
  }

  lemma AfterOne(actions: seq<Action>, a: Action)
    ensures After(EMPTY, actions + [a]) == Act(After(EMPTY, actions), a)
  {
    assert (actions + [a])[..|actions|] == actions;
  }

  /** The reservation whose provision call action `a` is, if it is one of executor `pid`. */
  function CallOf(w: World, pid: Pid, a: Action): seq<Id> {
    if a.Executor? && a.p == pid && a.e.Provision? && PcOf(w, pid).Started? then [PcOf(w, pid).id] else []
  }

  /** The provision calls executor `pid` has made, in order. */
  function Provisions(actions: seq<Action>, pid: Pid): seq<Id> {
    if actions == [] then []
    else
      var before := actions[..|actions| - 1];
      Provisions(before, pid) + CallOf(After(EMPTY, before), pid, actions[|actions| - 1])
  }

  lemma ProvisionsOne(actions: seq<Action>, a: Action, pid: Pid)
    ensures Provisions(actions + [a], pid) == Provisions(actions, pid) + CallOf(After(EMPTY, actions), pid, a)
  {
    assert (actions + [a])[..|actions|] == actions;
  }

  lemma ActCalls(w: World, a: Action, pid: Pid)
    ensures multiset(CallOf(w, pid, a)) + w.calls <= Act(w, a).calls
  {
    hide CanMove, Move, AcquireKind, Reserve, Unreleased, SelectsExactly;
    if a.Executor? && CallOf(w, pid, a) != [] {
      assert Step(w, pid, a.e) == StepProvision(w, pid, PcOf(w, pid), a.e.worker, a.e.threw, a.e.acceptable);
    }
  }

  /** Every provision call of an executor is in the world's log of calls. */
  lemma {:induction false} ProvisionsLogged(actions: seq<Action>, pid: Pid)
    ensures multiset(Provisions(actions, pid)) <= After(EMPTY, actions).calls
  {
    hide Act, CallOf;
    if actions != [] {
      var before := actions[..|actions| - 1];
      ProvisionsLogged(before, pid);
      ActCalls(After(EMPTY, before), actions[|actions| - 1], pid);
      assert multiset(Provisions(actions, pid))
          == multiset(Provisions(before, pid)) + multiset(CallOf(After(EMPTY, before), pid, actions[|actions| - 1]));
    }
  }

  datatype Policy = Policy(enabled: bool, limit: nat, kinds: set<string>, remote: bool, authorized: bool)

  datatype Blocked = Blocked(node: string, capacity: bool)

  datatype Plan = Plan(selected: seq<(string, Worker)>, blocked: seq<Blocked>)

  datatype Provisioned = Ready(id: Id, worker: Worker) | Waits | Recovers

  datatype Kind = FixedPoolExecuted | ElasticExecuted(id: Id, worker: Worker) | Wait | RecoveryNeeded

  /** Every blocked node is blocked by capacity, and there is one. */
  predicate CapacityOnly(plan: Plan) {
    plan.blocked != [] && forall i :: 0 <= i < |plan.blocked| ==> plan.blocked[i].capacity
  }

  datatype Ruling = Go | StopWait | StopRecovery

  /** The policy lets capacity of this kind be made at all. */
  predicate Permits(policy: Policy, kind: string) {
    policy.enabled && policy.limit > 0 && kind in policy.kinds && (policy.remote ==> policy.authorized)
  }

  /** The plan names a node that capacity alone blocks and that may have it. */
  predicate Wanted(plan: Plan, eligible: map<string, bool>) {
    exists i :: 0 <= i < |plan.blocked| && Eligible(plan.blocked[i], eligible)
  }

  /** The first such node. */
  predicate First(plan: Plan, eligible: map<string, bool>, i: nat) {
    i < |plan.blocked| && Eligible(plan.blocked[i], eligible) && forall k :: 0 <= k < i ==> !Eligible(plan.blocked[k], eligible)
  }

  predicate Eligible(b: Blocked, eligible: map<string, bool>) {
    b.capacity && b.node in eligible && eligible[b.node]
  }

  /** What has to hold before anything is reserved. */
  function Rule(plan: Plan, kind: string, policy: Policy, eligible: map<string, bool>): Ruling {
    if !policy.enabled || policy.limit == 0 then StopWait
    else if kind !in policy.kinds then StopWait
    else if policy.remote && !policy.authorized then StopWait
    else if exists i :: 0 <= i < |plan.blocked| && plan.blocked[i].node !in eligible then StopRecovery
    else if exists i :: 0 <= i < |plan.blocked| && !eligible[plan.blocked[i].node] then StopWait
    else if !CapacityOnly(plan) then StopWait
    else Ruling.Go
  }

  /** What an executor's own steps say about its pass: how many it has begun, for what the last one was,
      and what that one selected in the end. */
  datatype Trail = Trail(begun: nat, job: Option<Job>, selected: Option<seq<(string, Worker)>>)

  function TrailStep(t: Trail, e: Event): Trail {
    match e
    case Begin(job) => Trail(t.begun + 1, Some(job), None)
    case Reschedule(observed, selected) => if observed then t.(selected := Some(selected)) else t
    case _ => t
  }

  function TrailOf(actions: seq<Action>, pid: Pid): Trail {
    if actions == [] then Trail(0, None, None)
    else
      var t, last := TrailOf(actions[..|actions| - 1], pid), actions[|actions| - 1];
      if last.Executor? && last.p == pid then TrailStep(t, last.e) else t
  }

  lemma OwnOne(actions: seq<Action>, a: Action, pid: Pid)
    ensures TrailOf(actions + [a], pid)
         == if a.Executor? && a.p == pid then TrailStep(TrailOf(actions, pid), a.e) else TrailOf(actions, pid)
  {
    assert (actions + [a])[..|actions|] == actions;
  }

  /** No other reservation that is still held has this worker. */
  predicate Untaken(rs: Store, id: Id, worker: Worker) {
    forall i :: i in rs && i != id && rs[i].state != Released ==> rs[i].worker != Some(worker)
  }

  /** The answer of a pass with no setback and no interference. */
  predicate Owed(plan: Plan, policy: Policy, eligible: map<string, bool>, batch: bool, rs: Store, id: Id, job: Job, k: Kind) {
    if plan.selected != [] then k == FixedPoolExecuted
    else if !Wanted(plan, eligible) then k == Wait
    else if !batch then k == RecoveryNeeded
    else if !Permits(policy, job.kind) then k == Wait
    else
      match AcquireKind(rs, id, job, policy.limit)
      case NewReservation => k.ElasticExecuted?
      case LimitWait => k == Wait
      case Existing => k == RecoveryNeeded
      case Conflict => k == RecoveryNeeded
  }

  lemma ForeignPc(w: World, pid: Pid, a: Action)
    requires Foreign(pid, a)
    ensures PcOf(Act(w, a), pid) == PcOf(w, pid)
  {
    hide CanMove, AcquireKind;
  }

  /** For the one node, all that is left to rule on is the policy. */
  lemma FocusedRule(job: Job, policy: Policy)
    ensures Rule(Plan([], [Blocked(job.node, true)]), job.kind, policy, map[job.node := true])
         == if Permits(policy, job.kind) then Ruling.Go else StopWait
  {
  }

  // Where single steps lead.

  lemma AcquireStep(w: World, pid: Pid, job: Job, a: Admission, id: Id, limit: nat, call: Call)
    requires PcOf(w, pid) == Fenced(job, a)
    ensures var w' := Step(w, pid, AcquireReservation(id, limit, call));
            var kind := AcquireKind(w.store, id, job, limit);
            if call.Answered? && kind.NewReservation?
            then PcOf(w', pid) == Reserved(job, a, id) && Holds(w', job, id, PreProvision, None)
            else PcOf(w', pid) == if call.Answered? && kind.LimitWait? then Releasing(job, a) else Over(Recovery)
  {
    hide StepProvision, AcquireKind, Attempt;
  }

  lemma PolicyStep(w: World, pid: Pid, job: Job, a: Admission, recovery: bool)
    requires PcOf(w, pid) == Fenced(job, a)
    ensures PcOf(Step(w, pid, PolicyStop(recovery)), pid) == if recovery then Over(Recovery) else Releasing(job, a)
  {
    hide StepProvision, AcquireKind, Attempt;
  }

  lemma PublishStep(w: World, pid: Pid, job: Job, a: Admission, id: Id, worker: Worker, call: Call, foreignLease: bool)
    requires PcOf(w, pid) == Returned(job, a, id, worker)
    ensures var w' := Step(w, pid, MarkProvisioned(call, foreignLease));
            if call.Answered? && CanMove(w.store, id, job, State.Provisioned, Some(worker), foreignLease)
            then PcOf(w', pid) == Published(job, a, id, worker)
                 && id in w.store && w'.store == Move(w.store, id, State.Provisioned, Some(worker))
            else PcOf(w', pid) == Suspect(job, id, Some(worker), Recovery)
  {
    hide StepFenced, StepProvision, AcquireKind;
  }

  lemma ObserveStep(w: World, pid: Pid, job: Job, a: Admission, id: Id, worker: Worker, ok: bool)
    requires PcOf(w, pid) == Published(job, a, id, worker)
    ensures var w' := Step(w, pid, Observe(ok));
            && w'.store == w.store
            && PcOf(w', pid) == if ok then Pc.Ready(job, a, id, worker) else Suspect(job, id, Some(worker), Recovery)
  {
    hide StepFenced, StepProvision, AcquireKind, Attempt;
  }

  lemma CapacityStep(w: World, pid: Pid, job: Job, a: Admission, id: Id, worker: Worker, call: Call)
    requires PcOf(w, pid) == Ran(job, a, id, worker)
    requires Makes(w, id, worker) && Holds(w, job, id, State.Provisioned, Some(worker))
    ensures var w' := Step(w, pid, MarkCapacity(call));
            if call.Answered? && CanMove(w.store, id, job, Capacity, Some(worker), false)
            then PcOf(w', pid) == Over(Executed(id, worker)) && Makes(w', id, worker) && Holds(w', job, id, Capacity, Some(worker))
            else PcOf(w', pid) == Suspect(job, id, Some(worker), Recovery)
  {
    hide StepFenced, StepProvision, AcquireKind, CanMove;
  }

  // The store accepts each transition of an undisturbed pass.

  lemma CanStart(w: World, job: Job, id: Id)
    requires Holds(w, job, id, PreProvision, None)
    ensures CanMove(w.store, id, job, Provisioning, None, false)
  {
  }

  lemma CanPublish(w: World, job: Job, id: Id, worker: Worker)
    requires Holds(w, job, id, Provisioning, None) && Untaken(w.store, id, worker)
    ensures CanMove(w.store, id, job, State.Provisioned, Some(worker), false)
    ensures Untaken(Move(w.store, id, State.Provisioned, Some(worker)), id, worker)
  {
  }

  lemma CanConfirm(w: World, job: Job, id: Id, worker: Worker)
    requires Holds(w, job, id, State.Provisioned, Some(worker)) && Untaken(w.store, id, worker)
    ensures CanMove(w.store, id, job, Capacity, Some(worker), false)
  {
  }

  lemma ExecutedFacts(w: World, job: Job, id: Id, worker: Worker)
    requires Makes(w, id, worker) && Holds(w, job, id, Capacity, Some(worker))
    ensures Confirmed(w, id, worker) && w.store[id].session == job.session && w.store[id].task == job.task
  {
  }

  class Executor {
    const pid: Pid
    var world: World
    ghost var history: seq<Action>
    /** Answers other than the one the pass needs, and actions of others. */
    ghost var setbacks: nat
    ghost var outside: nat

    constructor (pid: Pid, world: World, ghost history: seq<Action>)
      requires world == After(EMPTY, history)
      ensures this.pid == pid && this.world == world && this.history == history && Valid()
    {
      this.pid, this.world, this.history := pid, world, history;
      setbacks, outside := 0, 0;
    }

    /** No setback since, and nobody else has acted. */
    twostate predicate Quiet()
      reads this
    {
      setbacks == old(setbacks) && outside == old(outside)
    }

    twostate predicate Onward()
      reads this
    {
      old(history) <= history && setbacks >= old(setbacks) && outside >= old(outside)
    }

    ghost function Pass(): Trail
      reads this`history
    {
      TrailOf(history, pid)
    }

    /** The world is what the run so far has made it. */
    ghost predicate Valid()
      reads this`world, this`history
    {
      world == After(EMPTY, history)
    }

    /** The pass stands at `pc` of the protocol, in the present world. */
    ghost predicate On(pc: Pc)
      reads this`world, this`history
    {
      Valid() && PcOf(world, pid) == pc
    }

    /** The provision calls of this executor. */
    ghost function Made(): seq<Id>
      reads this`history
    {
      Provisions(history, pid)
    }

    /** Each provision call was the only one for its reservation, and that reservation is on record as
        started and unreleased: no worker that exists is unaccounted for. */
    ghost predicate Accounted()
      reads this`world, this`history
    {
      && (forall id :: id in Made() ==> world.calls[id] == 1)
      && (forall id :: id in world.calls || id in world.made ==> Covers(world.store, id))
    }

    lemma KnownPc(pc: Pc)
      requires On(pc)
      ensures PcOk(world, pc)
    {
      hide After, Inv, PcOk;
      RunInv(history);
      PcHere(world, pid, Highest(history));
    }

    lemma NoneLost()
      requires Valid()
      ensures Accounted()
    {
      hide After, Covers, Provisions, Unreleased;
      NoLostWorker(history);
      ProvisionsLogged(history, pid);
      forall id | id in Made() ensures world.calls[id] == 1 {
        assert multiset(Made())[id] >= 1;
      }
    }

    /** What is known of the pass wherever it stands. */
    lemma Known(pc: Pc)
      requires On(pc)
      ensures Accounted()
      ensures pc.Ready? ==> Makes(world, pc.id, pc.worker) && Holds(world, pc.job, pc.id, State.Provisioned, Some(pc.worker))
      ensures pc.Ran? ==> Makes(world, pc.id, pc.worker) && Holds(world, pc.job, pc.id, State.Provisioned, Some(pc.worker))
      ensures pc.Returned? ==> Holds(world, pc.job, pc.id, Provisioning, None)
      ensures pc.Over? ==> ResultOk(world, pc.result)
    {
      hide After, Accounted, Makes, Holds, ResultOk;
      NoneLost();
      KnownPc(pc);
    }

    /** Other executors and the operator, between two calls of this pass. */
    method Interleave(ghost pc: Pc)
      requires On(pc)
      modifies this
      ensures On(pc) && Onward() && Made() == old(Made()) && Pass() == old(Pass()) && setbacks == old(setbacks)
      ensures outside == old(outside) ==> world == old(world)
    {
      hide After, Step, OperatorRelease;
      var others: seq<Action> := *;
      for i := 0 to |others|
        invariant On(pc) && Onward() && Made() == old(Made()) && Pass() == old(Pass()) && setbacks == old(setbacks)
        invariant outside == old(outside) ==> world == old(world)
      {
        if Foreign(pid, others[i]) {
          ForeignPc(world, pid, others[i]);
          AfterOne(history, others[i]);
          ProvisionsOne(history, others[i], pid);
          OwnOne(history, others[i], pid);
          outside := outside + 1;
          world := Act(world, others[i]);
          history := history + [others[i]];
        }
      }
    }

    /** One protocol step of this pass. */
    method Take(e: Event, ghost pc: Pc)
      requires On(pc)
      modifies this
      ensures world == Step(old(world), pid, e) && Valid() && history == old(history) + [Action.Executor(pid, e)]
      ensures Made() == if e.Provision? && pc.Started? then old(Made()) + [pc.id] else old(Made())
      ensures Pass() == TrailStep(old(Pass()), e) && outside == old(outside) && setbacks == old(setbacks)
    {
      hide After, Step;
      AfterOne(history, Action.Executor(pid, e));
      ProvisionsOne(history, Action.Executor(pid, e), pid);
      OwnOne(history, Action.Executor(pid, e), pid);
      world := Step(world, pid, e);
      history := history + [Action.Executor(pid, e)];
    }

    /** Notes whether an answer was the one the pass needs. */
    ghost method Note(good: bool)
      modifies this`setbacks
      ensures setbacks == old(setbacks) + if good then 0 else 1
    {
      setbacks := setbacks + if good then 0 else 1;
    }

    /** Best effort: the outcome is decided whether or not the mark is recorded. */
    method Abandon(job: Job, id: Id, known: Option<Worker>, result: Result)
      requires On(Suspect(job, id, known, result))
      modifies this
      ensures On(Over(result)) && Onward() && Pass() == old(Pass()) && Made() == old(Made()) && setbacks == old(setbacks)
    {
      hide After, Provisions, TrailOf, CanMove, Move, AcquireKind, StepFenced, StepProvision;
      Interleave(Suspect(job, id, known, result));
      var call: Call := *;
      Take(MarkRecovery(call), Suspect(job, id, known, result));
    }

    /** Reserves, provisions and observes one worker. */
    method ProvisionReady(job: Job, a: Admission, id: Id, plan: Plan, policy: Policy, eligible: map<string, bool>)
        returns (r: Provisioned)
      requires On(Fenced(job, a))
      modifies this
      ensures Onward() && Pass() == old(Pass())
      ensures r.Ready? ==> r.id == id && On(Pc.Ready(job, a, id, r.worker)) && Made() == old(Made()) + [id]
      ensures r.Ready? ==> Makes(world, id, r.worker) && Holds(world, job, id, State.Provisioned, Some(r.worker))
      ensures r.Waits? ==> On(Releasing(job, a)) && Made() == old(Made())
      ensures r.Recovers? ==> On(Over(Recovery)) && (Made() == old(Made()) || Made() == old(Made()) + [id])
      ensures var ruling := Rule(plan, job.kind, policy, eligible);
              && (!ruling.Go? ==> r == (if ruling.StopRecovery? then Recovers else Waits) && Made() == old(Made()))
              && (Quiet() && ruling.Go? ==>
                    match AcquireKind(old(world).store, id, job, policy.limit)
                    case NewReservation => r.Ready? && Untaken(world.store, id, r.worker)
                    case LimitWait => r.Waits?
                    case Existing => r.Recovers?
                    case Conflict => r.Recovers?)
      ensures Accounted()
    {
      hide After, Provisions, TrailOf, Step, Holds, Makes, Covers, Accounted, AcquireKind, Rule, Untaken;
      var ruling := Rule(plan, job.kind, policy, eligible);
      if !ruling.Go? {
        Interleave(Fenced(job, a));
        PolicyStep(world, pid, job, a, ruling.StopRecovery?);
        Take(PolicyStop(ruling.StopRecovery?), Fenced(job, a));
        Known(PcOf(world, pid));
        return if ruling.StopRecovery? then Recovers else Waits;
      }
      Interleave(Fenced(job, a));
      var call: Call := *;
      var kind := AcquireKind(world.store, id, job, policy.limit);
      AcquireStep(world, pid, job, a, id, policy.limit, call);
      Take(AcquireReservation(id, policy.limit, call), Fenced(job, a));
      Note(call.Answered?);
      Known(PcOf(world, pid));
      if !call.Answered? || kind.Existing? || kind.Conflict? {
        return Recovers;
      }
      if kind.LimitWait? {
        return Waits;
      }
      r := ProvisionReserved(job, a, id);
    }

    method ProvisionReserved(job: Job, a: Admission, id: Id) returns (r: Provisioned)
      requires On(Reserved(job, a, id))
      modifies this
      ensures Onward() && Pass() == old(Pass())
      ensures r.Ready? ==> r.id == id && On(Pc.Ready(job, a, id, r.worker)) && Made() == old(Made()) + [id]
      ensures r.Ready? ==> Makes(world, id, r.worker) && Holds(world, job, id, State.Provisioned, Some(r.worker))
      ensures r.Waits? ==> On(Releasing(job, a)) && Made() == old(Made())
      ensures r.Recovers? ==> On(Over(Recovery)) && (Made() == old(Made()) || Made() == old(Made()) + [id])
      ensures Quiet() && Holds(old(world), job, id, PreProvision, None) ==> r.Ready? && Untaken(world.store, id, r.worker)
      ensures Accounted()
    {
      hide After, Provisions, TrailOf, Holds, Makes, Covers, Accounted, Untaken, CanMove, Move, AcquireKind, StepFenced;
      Interleave(Reserved(job, a, id));
      var call: Call := *;
      if Holds(world, job, id, PreProvision, None) {
        CanStart(world, job, id);
      }
      var moved := CanMove(world.store, id, job, Provisioning, None, false);
      Take(MarkStarted(call), Reserved(job, a, id));
      Note(call.Answered?);
      if !call.Answered? || !moved {
        Known(Over(Recovery));
        return Recovers;
      }
      r := CallProvisioner(job, a, id);
    }

    /** The one provision call of the pass, after its reservation is durably marked as started. */
    method CallProvisioner(job: Job, a: Admission, id: Id) returns (r: Provisioned)
      requires On(Started(job, a, id))
      modifies this
      ensures Onward() && Pass() == old(Pass())
      ensures r.Ready? ==> r.id == id && On(Pc.Ready(job, a, id, r.worker)) && Made() == old(Made()) + [id]
      ensures r.Ready? ==> Makes(world, id, r.worker) && Holds(world, job, id, State.Provisioned, Some(r.worker))
      ensures r.Recovers? ==> On(Over(Recovery)) && Made() == old(Made()) + [id]
      ensures !r.Waits?
      ensures Quiet() ==> r.Ready? && Untaken(world.store, id, r.worker)
      ensures Accounted()
    {
      hide After, Provisions, TrailOf, Holds, Makes, Covers, Accounted, Untaken, CanMove, Move, AcquireKind, StepFenced, Attempt;
      Interleave(Started(job, a, id));
      var worker: Option<Worker>, threw: bool, acceptable: bool := *, *, *;
      Take(Provision(worker, threw, acceptable), Started(job, a, id));
      Note(!threw && worker.Some? && acceptable);
      if threw || worker.None? {
        Abandon(job, id, None, Recovery);
        Known(Over(Recovery));
        return Recovers;
      }
      if !acceptable {
        Abandon(job, id, worker, Recovery);
        Known(Over(Recovery));
        return Recovers;
      }
      r := PublishWorker(job, a, id, worker.value);
      Known(PcOf(world, pid));
    }

    method PublishWorker(job: Job, a: Admission, id: Id, worker: Worker) returns (r: Provisioned)
      requires On(Returned(job, a, id, worker))
      modifies this
      ensures Onward() && Pass() == old(Pass())
      ensures r.Ready? ==> r.id == id && r.worker == worker && On(Pc.Ready(job, a, id, worker))
      ensures r.Recovers? ==> On(Over(Recovery))
      ensures !r.Waits? && Made() == old(Made())
      ensures Quiet() ==> r.Ready? && Untaken(world.store, id, worker)
    {
      hide After, Provisions, TrailOf, Step, CanMove, Move, Holds, Makes, Covers, Accounted, Untaken;
      Interleave(Returned(job, a, id, worker));
      var call: Call, foreignLease: bool := *, *;
      var moved := CanMove(world.store, id, job, State.Provisioned, Some(worker), foreignLease);
      Note(call.Answered? && !foreignLease && Untaken(world.store, id, worker));
      Known(Returned(job, a, id, worker));
      if Untaken(world.store, id, worker) {
        CanPublish(world, job, id, worker);
      }
      PublishStep(world, pid, job, a, id, worker, call, foreignLease);
      Take(MarkProvisioned(call, foreignLease), Returned(job, a, id, worker));
      if !call.Answered? || !moved {
        Abandon(job, id, Some(worker), Recovery);
        return Recovers;
      }
      r := ObserveWorker(job, a, id, worker);
    }

    /** The published worker must be seen as its owner's. */
    method ObserveWorker(job: Job, a: Admission, id: Id, worker: Worker) returns (r: Provisioned)
      requires On(Published(job, a, id, worker))
      modifies this
      ensures Onward() && Pass() == old(Pass())
      ensures r.Ready? ==> r.id == id && r.worker == worker && On(Pc.Ready(job, a, id, worker))
      ensures r.Recovers? ==> On(Over(Recovery))
      ensures !r.Waits? && Made() == old(Made())
      ensures Quiet() && Untaken(old(world).store, id, worker) ==> r.Ready? && Untaken(world.store, id, worker)
    {
      hide After, Provisions, TrailOf, Step, Untaken;
      Interleave(Published(job, a, id, worker));
      var ok: bool := *;
      ObserveStep(world, pid, job, a, id, worker, ok);
      Take(Observe(ok), Published(job, a, id, worker));
      Note(ok);
      if !ok {
        Abandon(job, id, Some(worker), Recovery);
        return Recovers;
      }
      r := Provisioned.Ready(id, worker);
    }

    /** Gives the provider admission back before waiting. */
    method ReleaseAndWait(job: Job, a: Admission) returns (k: Kind)
      requires On(Releasing(job, a))
      modifies this
      ensures Onward() && Pass() == old(Pass())
      ensures k.Wait? ==> On(Over(Waited(Some(a)))) && a !in world.admissions
      ensures !k.Wait? ==> k.RecoveryNeeded? && On(Over(Recovery))
      ensures Made() == old(Made()) && Accounted()
      ensures Quiet() ==> k.Wait?
    {
      hide After, Provisions, TrailOf, Covers, Accounted;
      Interleave(Releasing(job, a));
      var call: Call := *;
      Take(ReleaseAdmission(call), Releasing(job, a));
      Note(call.Answered?);
      k := if call.Answered? then Wait else RecoveryNeeded;
      Known(PcOf(world, pid));
    }

    /** Reschedules on the re-observed supply, runs the one selected task, and accounts for the worker. */
    method RunOn(job: Job, a: Admission, id: Id, worker: Worker) returns (k: Kind)
      requires On(Pc.Ready(job, a, id, worker))
      modifies this
      ensures Onward() && Pass().(selected := None) == old(Pass()).(selected := None)
      ensures k.ElasticExecuted? ==> Pass().selected == Some([(job.node, worker)])
      ensures k.ElasticExecuted? ==> k == ElasticExecuted(id, worker) && On(Over(Executed(id, worker)))
      ensures k.ElasticExecuted? ==> Makes(world, id, worker) && Holds(world, job, id, Capacity, Some(worker))
      ensures Quiet() && Untaken(old(world).store, id, worker) ==> k.ElasticExecuted?
      ensures k.Wait? ==> On(Over(WaitedAfterRun))
      ensures k.RecoveryNeeded? ==> On(Over(Recovery))
      ensures !k.FixedPoolExecuted? && Made() == old(Made()) && Accounted()
    {
      hide After, Provisions, TrailOf, Holds, Makes, Covers, Accounted, Untaken, CanMove, Move, AcquireKind, Attempt, StepFenced, StepProvision;
      Interleave(Pc.Ready(job, a, id, worker));
      var observed: bool, selected: seq<(string, Worker)> := *, *;
      Take(Reschedule(observed, selected), Pc.Ready(job, a, id, worker));
      Note(observed && SelectsExactly(selected, job.node, worker));
      if !observed || !SelectsExactly(selected, job.node, worker) {
        Abandon(job, id, Some(worker), Recovery);
        Known(Over(Recovery));
        return RecoveryNeeded;
      }
      k := RunScheduled(job, a, id, worker);
    }

    /** Runs the one selected task; unless it succeeds the worker is marked for recovery. */
    method RunScheduled(job: Job, a: Admission, id: Id, worker: Worker) returns (k: Kind)
      requires On(Scheduled(job, a, id, worker))
      modifies this
      ensures Onward() && Pass() == old(Pass())
      ensures k.ElasticExecuted? ==> k == ElasticExecuted(id, worker) && On(Over(Executed(id, worker)))
      ensures k.ElasticExecuted? ==> Makes(world, id, worker) && Holds(world, job, id, Capacity, Some(worker))
      ensures Quiet() && Untaken(old(world).store, id, worker) ==> k.ElasticExecuted?
      ensures k.Wait? ==> On(Over(WaitedAfterRun))
      ensures k.RecoveryNeeded? ==> On(Over(Recovery))
      ensures !k.FixedPoolExecuted? && Made() == old(Made()) && Accounted()
    {
      hide After, Provisions, TrailOf, Holds, Makes, Covers, Accounted, Untaken, CanMove, Move, AcquireKind, Attempt, StepFenced, StepProvision;
      Interleave(Scheduled(job, a, id, worker));
      var run: Run := *;
      Take(Execute(run), Scheduled(job, a, id, worker));
      Note(run.Success?);
      match run {
        case MustWait =>
          Abandon(job, id, Some(worker), WaitedAfterRun);
          k := Wait;
        case NeedsRecovery =>
          Abandon(job, id, Some(worker), Recovery);
          k := RecoveryNeeded;
        case Threw =>
          Abandon(job, id, Some(worker), Recovery);
          k := RecoveryNeeded;
        case Success => k := Finalize(job, a, id, worker);
      }
      Known(PcOf(world, pid));
    }

    method Finalize(job: Job, a: Admission, id: Id, worker: Worker) returns (k: Kind)
      requires On(Ran(job, a, id, worker))
      modifies this
      ensures Onward() && Pass() == old(Pass())
      ensures k.ElasticExecuted? ==> k == ElasticExecuted(id, worker) && On(Over(Executed(id, worker)))
      ensures k.ElasticExecuted? ==> Makes(world, id, worker) && Holds(world, job, id, Capacity, Some(worker))
      ensures !k.ElasticExecuted? ==> k.RecoveryNeeded? && On(Over(Recovery))
      ensures Quiet() && Untaken(old(world).store, id, worker) ==> k.ElasticExecuted?
      ensures Made() == old(Made())
    {
      hide After, Provisions, TrailOf, Step, CanMove, Holds, Makes, Covers, Accounted, Untaken;
      Interleave(Ran(job, a, id, worker));
      var call: Call := *;
      Known(Ran(job, a, id, worker));
      if Untaken(world.store, id, worker) {
        CanConfirm(world, job, id, worker);
      }
      var moved := CanMove(world.store, id, job, Capacity, Some(worker), false);
      CapacityStep(world, pid, job, a, id, worker, call);
      Take(MarkCapacity(call), Ran(job, a, id, worker));
      Note(call.Answered?);
      if !call.Answered? || !moved {
        Abandon(job, id, Some(worker), Recovery);
        return RecoveryNeeded;
      }
      k := ElasticExecuted(id, worker);
    }

    /** The first node blocked by capacity alone. */
    method FirstElastic(plan: Plan, eligible: map<string, bool>) returns (found: Option<nat>)
      ensures found.Some? ==> First(plan, eligible, found.value)
      ensures found.None? ==> !Wanted(plan, eligible)
    {
      for i := 0 to |plan.blocked|
        invariant forall k :: 0 <= k < i ==> !Eligible(plan.blocked[k], eligible)
      {
        if Eligible(plan.blocked[i], eligible) {
          return Some(i);
        }
      }
      found := None;
    }

    /** One bounded pass, in whatever run it takes place.  ELASTIC_EXECUTED stands on a reservation of this
        session and task that is durable capacity for exactly the worker its one provision call made; a wait
        before anything ran has called no provisioner and given a granted admission back; and on every way
        out each provision call is accounted for by a started, unreleased reservation. */
    method ExecuteOnce(session: string, task: string, kind: string, plan: Plan, policy: Policy, eligible: map<string, bool>,
                       batch: bool, id: Id, a: Admission) returns (k: Kind, begun: bool, granted: bool)
      requires Valid() && (PcOf(world, pid).Idle? || PcOf(world, pid).Over?)
      modifies this
      ensures Valid() && Onward() && Accounted()
      ensures !begun ==> world == old(world) && history == old(history) && !k.ElasticExecuted? && !granted
      // The pass is for the first node that capacity alone blocks and that may have a worker, and ran there.
      ensures begun ==> exists i: nat :: First(plan, eligible, i)
                                    && var node := plan.blocked[i].node;
                                       && Pass().begun == old(Pass()).begun + 1
                                       && Pass().job == Some(Job(session, task, kind, node))
                                       && (k.ElasticExecuted? ==> Pass().selected == Some([(node, k.worker)]))
      // With no setback and no interference the inputs and the store decide.
      ensures Quiet() ==> Owed(plan, policy, eligible, batch, old(world).store, id, Job(session, task, kind, ""), k)
      ensures k.FixedPoolExecuted? ==> !begun && plan.selected != []
      ensures begun ==> plan.selected == [] && k != FixedPoolExecuted
      ensures k.ElasticExecuted? ==> On(Over(Executed(id, k.worker))) && k.id == id && Made() == old(Made()) + [id]
      ensures k.ElasticExecuted? ==>
                && Confirmed(world, id, k.worker)
                && world.store[id].session == session && world.store[id].task == task
      ensures Made() != old(Made()) ==> Permits(policy, kind) && Wanted(plan, eligible)
      ensures begun && k.Wait? && !On(Over(WaitedAfterRun)) ==>
                Made() == old(Made()) && (granted ==> a in world.issued && a !in world.admissions)
      ensures begun && k.Wait? && On(Over(WaitedAfterRun)) ==> granted && Made() == old(Made()) + [id]
      ensures begun && k.RecoveryNeeded? ==> On(Over(Recovery)) && (Made() == old(Made()) || Made() == old(Made()) + [id])
    {
      hide After, PcOk, Provisions, Holds, Covers, TrailOf, Accounted, Confirmed;
      begun, granted := false, false;
      Known(PcOf(world, pid));
      var unready: bool := *;
      Note(!unready);
      if unready {
        return RecoveryNeeded, false, false;
      }
      if plan.selected != [] {
        var run: Run := *;
        Note(run.Success?);
        k := if run.Success? then FixedPoolExecuted else if run.MustWait? then Wait else RecoveryNeeded;
        return;
      }
      var target := FirstElastic(plan, eligible);
      var refused: bool := *;
      if target.None? {
        return Wait, false, false;
      }
      Note(!refused);
      if refused {
        return Wait, false, false;
      }
      if !batch {
        return RecoveryNeeded, false, false;
      }
      begun := true;
      var job := Job(session, task, kind, plan.blocked[target.value].node);
      k, granted := ExpandFor(job, policy, id, a);
      assert First(plan, eligible, target.value);
    }

    method ExpandFor(job: Job, policy: Policy, id: Id, a: Admission) returns (k: Kind, granted: bool)
      requires Valid() && (PcOf(world, pid).Idle? || PcOf(world, pid).Over?)
      modifies this
      ensures Valid() && Onward() && Accounted()
      ensures Pass().begun == old(Pass()).begun + 1 && Pass().job == Some(job)
      ensures k.ElasticExecuted? ==> Pass().selected == Some([(job.node, k.worker)])
      ensures Quiet() ==>
                if !Permits(policy, job.kind) then k == Wait
                else
                  match AcquireKind(old(world).store, id, job, policy.limit)
                  case NewReservation => k.ElasticExecuted?
                  case LimitWait => k == Wait
                  case Existing => k == RecoveryNeeded
                  case Conflict => k == RecoveryNeeded
      ensures k.ElasticExecuted? ==> k.id == id && On(Over(Executed(id, k.worker))) && Made() == old(Made()) + [id]
      ensures k.ElasticExecuted? ==>
                && Confirmed(world, id, k.worker)
                && world.store[id].session == job.session && world.store[id].task == job.task
      ensures k.Wait? && !On(Over(WaitedAfterRun)) ==>
                Made() == old(Made()) && (granted ==> a in world.issued && a !in world.admissions)
      ensures k.Wait? && On(Over(WaitedAfterRun)) ==> granted && Made() == old(Made()) + [id]
      ensures k.RecoveryNeeded? ==> On(Over(Recovery)) && (Made() == old(Made()) || Made() == old(Made()) + [id])
      ensures Made() != old(Made()) ==> Permits(policy, job.kind)
      ensures !k.FixedPoolExecuted?
    {
      hide After, Step, PcOk, Provisions, Covers, Makes, Accounted, TrailOf, AcquireKind, Untaken, Holds,
           Confirmed, Rule, Permits;
      var refusal: Kind;
      granted, refusal := Admit(job, a);
      if !granted {
        k := refusal;
        Known(PcOf(world, pid));
        return;
      }
      FocusedRule(job, policy);
      var focused := Plan([], [Blocked(job.node, true)]);
      var prepared := ProvisionReady(job, a, id, focused, policy, map[job.node := true]);
      match prepared {
        case Ready(_, worker) =>
          k := RunOn(job, a, id, worker);
          if k.ElasticExecuted? {
            ExecutedFacts(world, job, id, worker);
          }
        case Waits => k := ReleaseAndWait(job, a);
        case Recovers => k := RecoveryNeeded;
      }
      Known(PcOf(world, pid));
    }

    /** Asks the provider's fence for an admission of its own. */
    method Admit(job: Job, a: Admission) returns (granted: bool, refusal: Kind)
      requires Valid() && (PcOf(world, pid).Idle? || PcOf(world, pid).Over?)
      modifies this
      ensures Onward() && Made() == old(Made()) && Pass() == Trail(old(Pass()).begun + 1, Some(job), None)
      ensures Quiet() ==> granted && world.store == old(world).store
      ensures granted ==> On(Fenced(job, a))
      ensures !granted ==> (refusal == Wait && On(Over(Waited(None)))) || (refusal == RecoveryNeeded && On(Over(Recovery)))
    {
      hide After, Provisions, TrailOf, AcquireKind, Attempt, StepFenced, StepProvision;
      Take(Begin(job), PcOf(world, pid));
      Interleave(Begun(job));
      var admitted: bool, recovery: bool := *, *;
      granted := admitted && a !in world.issued;
      Take(ReserveAdmission(a, granted, recovery), Begun(job));
      Note(granted);
      refusal := if recovery then RecoveryNeeded else Wait;
    }
  }
}
