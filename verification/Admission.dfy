// What the coordinator decides from its policy and a probe snapshot alone: which controllers
// an admission displaces, and every check it makes on snapshots and acknowledgements.
module Admission {
  import opened Wrappers
  import opened Ordering
  import opened Protocol
  import opened Controller
  import opened ControllerSteps
  import opened ControllerRuns
  import opened PlantMoves
  import opened Worlds
  import opened BrokerSteps
  import opened Host

  datatype Plan = Plan(
    profile: string, resourceGroup: Option<string>, service: ServiceClass, mode: LeaseMode,
    memory: nat, verifyActive: bool)

  // What the scheduler keeps of an admission.
  datatype Handle = Handle(lease: nat, throttled: seq<Throttle>)

  // One controller mutation together with the observation that proved it.
  datatype Proof = Proof(controller: string, command: Command, seen: Snapshot)

  const GIB: nat := 1024 * 1024 * 1024

  const BY_PRIORITY: (ControllerPolicy, ControllerPolicy) -> bool :=
    (a: ControllerPolicy, b: ControllerPolicy) =>
      a.priority < b.priority || (a.priority == b.priority && StringLess(a.id, b.id))

  function ChosenControllers(controllers: seq<ControllerPolicy>, plan: Plan): (r: seq<ControllerPolicy>)
    ensures forall k :: k in r <==> k in controllers && Chosen(k, plan.service, plan.profile)
  {
    if controllers == [] then []
    else
      var rest := ChosenControllers(controllers[1..], plan);
      if Chosen(controllers[0], plan.service, plan.profile) then [controllers[0]] + rest else rest
  }

  // _controllers_for
  function ControllersFor(policy: ResourcePolicy, plan: Plan): seq<ControllerPolicy>
  {
    Sort(BY_PRIORITY, ChosenControllers(policy.controllers, plan))
  }

  lemma ControllersForElements(policy: ResourcePolicy, plan: Plan)
    ensures forall k :: k in ControllersFor(policy, plan) <==>
                        k in policy.controllers && Chosen(k, plan.service, plan.profile)
  {
    SortElements(BY_PRIORITY, ChosenControllers(policy.controllers, plan));
  }

  // Exactly the controllers of other profiles that throttle for the service, the lower
  // priority first, and the smaller identifier first among equals.
  lemma ControllersInOrder(policy: ResourcePolicy, plan: Plan)
    requires PolicyOk(policy)
    ensures var r := ControllersFor(policy, plan);
      && (forall k :: k in r <==> k in policy.controllers && plan.service in k.throttleFor && k.profile != plan.profile)
      && forall i, j | 0 <= i < j < |r| ::
           r[i].priority < r[j].priority || (r[i].priority == r[j].priority && StringLess(r[i].id, r[j].id))
  {
    ControllersForElements(policy, plan);
    var chosen := ChosenControllers(policy.controllers, plan);
    ChosenDistinct(policy.controllers, plan);
    PriorityIsLinear(policy, chosen);
    SortIncreasing(BY_PRIORITY, chosen);
  }

  lemma PriorityIsLinear(policy: ResourcePolicy, ks: seq<ControllerPolicy>)
    requires PolicyOk(policy) && forall k | k in ks :: k in policy.controllers
    ensures LinearOn(BY_PRIORITY, ks)
  {
    forall k | k in ks ensures !BY_PRIORITY(k, k) {
      StringLessIrreflexive(k.id);
    }
    forall a, b | a in ks && b in ks ensures a == b || BY_PRIORITY(a, b) || BY_PRIORITY(b, a) {
      StringLessTotal(a.id, b.id);
      SameController(policy, a, b);
    }
    forall a, b, c | a in ks && b in ks && c in ks && BY_PRIORITY(a, b) && BY_PRIORITY(b, c) ensures BY_PRIORITY(a, c) {
      if StringLess(a.id, b.id) && StringLess(b.id, c.id) { StringLessTransitive(a.id, b.id, c.id); }
    }
  }

  lemma SameController(policy: ResourcePolicy, a: ControllerPolicy, b: ControllerPolicy)
    requires PolicyOk(policy) && a in policy.controllers && b in policy.controllers
    ensures a.id == b.id ==> a == b
  {
    var i :| 0 <= i < |policy.controllers| && policy.controllers[i] == a;
    var j :| 0 <= j < |policy.controllers| && policy.controllers[j] == b;
  }

  lemma {:induction false} ChosenDistinct(controllers: seq<ControllerPolicy>, plan: Plan)
    requires forall i, j | 0 <= i < j < |controllers| :: controllers[i].id != controllers[j].id
    ensures Distinct(ChosenControllers(controllers, plan))
  {
    if controllers != [] {
      ChosenDistinct(controllers[1..], plan);
      assert controllers[0] !in controllers[1..];
    }
  }

  function FindController(controllers: seq<ControllerPolicy>, id: string): (r: Option<ControllerPolicy>)
    ensures r.Some? ==> r.value in controllers && r.value.id == id
    ensures r.None? ==> forall k | k in controllers :: k.id != id
  {
    if controllers == [] then None
    else if controllers[0].id == id then Some(controllers[0])
    else FindController(controllers[1..], id)
  }

  // _validate_snapshot: the refusal, if any
  function ValidateSnapshot(policy: ResourcePolicy, s: Snapshot, plan: Plan, capacity: bool): Option<string>
  {
    if policy.requireProbe && !s.healthy then Some("resource_probe_unhealthy")
    else if s.unknown != 0 then Some("unknown_gpu_consumer")
    else if plan.profile in s.profiles && !s.profiles[plan.profile] then Some("selected_profile_unhealthy")
    else if s.pressure.Some? && s.pressure.value > policy.maximumPressure then Some("memory_pressure")
    else if !capacity then None
    else
      var extra := if plan.profile in s.active then 0 else plan.memory;
      if policy.enforceMemory && s.available.None? then Some("memory_unknown")
      else if policy.enforceMemory && s.available.value < (policy.hostReserve + extra) * GIB then Some("insufficient_memory")
      else if policy.enforceCuda && s.cuda.None? then Some("cuda_memory_unknown")
      else if policy.enforceCuda && s.cuda.value < (policy.cudaReserve + extra) * GIB then Some("insufficient_cuda_memory")
      else None
  }

  // _validate_compatibility; no shared pair is certified in this release
  function ValidateCompatibility(s: Snapshot, plan: Plan): Option<string>
  {
    if !s.healthy then None
    else if s.active - {plan.profile} == {} then None
    else if plan.mode == Exclusive then Some("exclusive_profile_conflict")
    else Some("uncertified_coexistence")
  }

  // _released_profile_is_verified
  predicate ReleaseVerified(s: Snapshot, profile: string, requiresAbsence: bool)
  {
    s.healthy && s.unknown == 0 && (requiresAbsence ==> profile !in s.active)
  }

  // the echo checks of set_mode and takeover_mode
  predicate Acknowledges(k: ControllerPolicy, x: Command, answer: Response)
  {
    match x
    case SetMode(mutation, lease, fence, epoch, generation, target) =>
      && answer.SetModeResponse?
      && answer.lease == lease && answer.mutation == mutation && answer.fence == fence && answer.epoch == epoch
      && answer.generation == generation && answer.mode == target
      && (k.requiresCheckpoint && target.Released? ==> answer.checkpoint.Some?)
    case Takeover(mutation, lease, previousFence, fence, epoch, generation, target) =>
      answer == TakeoverResponse(mutation, lease, previousFence, fence, epoch, generation, target)
  }

  // _verify_controller_observation
  predicate Observes(s: Snapshot, c: string, x: Command, answer: Response)
  {
    && c in s.states
    && var p := s.states[c];
       && p.mutation == x.mutation && p.lease == x.lease && p.fence == x.fence
       && p.epoch == x.epoch && p.generation == x.generation && p.mode == x.target
       && (answer.SetModeResponse? && answer.checkpoint.Some? ==> p.checkpoint == answer.checkpoint)
  }

  // _verify_restored_controllers: the refusal, if any
  function RestoredRefusal(s: Snapshot, expected: int, restored: seq<string>): (r: Option<string>)
    ensures r.None? <==>
      expected <= s.generation && forall p | p in restored :: p in s.active && p in s.profiles && s.profiles[p]
  {
    if s.generation < expected then Some("controller_restore_stale")
    else if forall p | p in restored :: p in s.active && p in s.profiles && s.profiles[p] then None
    else Some("controller_restore_unverified")
  }

  // The command that undoes one journaled displacement: the lease's own under its fence, or
  // a takeover under a recovery fence.
  function RestoreCommand(lease: Lease, l: nat, item: Throttle, mutation: nat,
                          epoch: nat, offset: nat, recovery: Option<nat>): Command
  {
    match recovery
    case None => SetMode(mutation, l, lease.fence, lease.epoch, item.generation + 1_000_000, Normal)
    case Some(fence) => Takeover(mutation, l, lease.fence, fence, epoch, 1_000_000 + offset, Normal)
  }

  // What admission finds after the displacement. The first refusal never fires: an accepted
  // generation is never behind an earlier one.
  function AdmissionRefusal(policy: ResourcePolicy, after: Snapshot, causal: int, plan: Plan): Option<string>
  {
    if after.generation < causal then Some("resource_snapshot_stale")
    else
      var refused := ValidateSnapshot(policy, after, plan, true);
      if refused.Some? then refused else ValidateCompatibility(after, plan)
  }

  // verify_activation: the refusal, if any
  function ActivationRefusal(policy: ResourcePolicy, s: Snapshot, plan: Plan): Option<string>
  {
    var refused := ValidateSnapshot(policy, s, plan, true);
    var incompatible := ValidateCompatibility(s, plan);
    if refused.Some? then refused
    else if incompatible.Some? then incompatible
    else if plan.verifyActive && plan.profile !in s.active then Some("selected_profile_unobserved")
    else None
  }

  // The reserve is left over once the leased profile is loaded.
  predicate Reserved(required: bool, found: Option<int>, reserve: nat, s: Snapshot, plan: Plan)
  {
    required ==> found.Some? && (reserve + (if plan.profile in s.active then 0 else plan.memory)) * 1_073_741_824 <= found.value
  }

  // A snapshot is accepted exactly if it is healthy where a probe is required, no consumer is
  // unknown, nothing beside the leased profile is active on a healthy host, that profile is
  // not unhealthy, and pressure and memory are within the reserves; an activation is verified exactly if, besides, the leased
  // profile is seen where that is asked for.
  lemma AdmissibleSnapshot(policy: ResourcePolicy, s: Snapshot, plan: Plan)
    ensures ValidateSnapshot(policy, s, plan, true).None? && ValidateCompatibility(s, plan).None? <==>
      && (policy.requireProbe ==> s.healthy) && s.unknown == 0 && (s.healthy ==> s.active <= {plan.profile})
      && (plan.profile in s.profiles ==> s.profiles[plan.profile])
      && (s.pressure.Some? ==> s.pressure.value <= policy.maximumPressure)
      && Reserved(policy.enforceMemory, s.available, policy.hostReserve, s, plan)
      && Reserved(policy.enforceCuda, s.cuda, policy.cudaReserve, s, plan)
    ensures ActivationRefusal(policy, s, plan).None? <==>
      && ValidateSnapshot(policy, s, plan, true).None? && ValidateCompatibility(s, plan).None?
      && (plan.verifyActive ==> plan.profile in s.active)
  {
    if s.active <= {plan.profile} {
      assert s.active - {plan.profile} == {};
    }
    if s.active - {plan.profile} == {} {
      forall p | p in s.active ensures p == plan.profile {
        assert p !in s.active - {plan.profile};
      }
    }
  }

  // A controller that completes a command acknowledges it: the broker's echo checks never
  // refuse a true answer, and a completed release always carries its checkpoint. And they
  // accept no other answer, but for which checkpoint it names.
  lemma AnswersAcknowledge(trainer: Controller.Policy, k: ControllerPolicy, p: Plant, x: Command, env: CallEnv)
    requires Sound(p) && HandleRun(trainer, p, x, env).out.Ok?
    ensures Acknowledges(k, x, HandleRun(trainer, p, x, env).out.value)
    ensures forall answer | Acknowledges(k, x, answer) :: SameAnswer(k, x, answer, HandleRun(trainer, p, x, env).out.value)
  {
    hide RecoverRun, ServeRun, Sound, Acknowledges;
    var recovered := RecoverRun(trainer, p, env.recovery);
    var q := Final(p, recovered.states);
    RecoverIsLegal(trainer, p, env.recovery, ANY);
    RunIsSound(trainer, p, recovered.states, |recovered.states|, ANY);
    assert q == At(p, recovered.states, |recovered.states|);
    ServedAcknowledges(trainer, k, q, x, env.apply);
    forall answer | Acknowledges(k, x, answer) ensures SameAnswer(k, x, answer, HandleRun(trainer, p, x, env).out.value) {
      OneAnswer(k, x, answer, HandleRun(trainer, p, x, env).out.value);
    }
  }

  predicate SameAnswer(k: ControllerPolicy, x: Command, a: Response, b: Response)
  {
    || a == b
    || (a.SetModeResponse? && b.SetModeResponse? && a == b.(checkpoint := a.checkpoint)
        && (k.requiresCheckpoint && x.target.Released? ==> a.checkpoint.Some? && b.checkpoint.Some?))
  }

  lemma OneAnswer(k: ControllerPolicy, x: Command, a: Response, b: Response)
    requires Acknowledges(k, x, a) && Acknowledges(k, x, b)
    ensures SameAnswer(k, x, a, b)
  {
  }

  lemma ServedAcknowledges(trainer: Controller.Policy, k: ControllerPolicy, q: Plant, x: Command, env: UnitEnv)
    requires Sound(q) && ServeRun(trainer, q, x, env).out.Ok?
    ensures Acknowledges(k, x, ServeRun(trainer, q, x, env).out.value)
  {
  }
}
