// Everything that survives a crash of the broker: its lease, epoch and quantum tables, the
// host epoch file, the controllers, the commands it has sent that are not delivered yet,
// and the runtimes it activated. `Inv` is what every such state satisfies, at every crash
// point of every run.
module Worlds {
  import opened Wrappers
  import opened Ordering
  import opened Protocol
  import opened Controller
  import opened ControllerSteps
  import opened ControllerRuns
  import opened PlantMoves

  datatype ServiceClass = Interactive | Batch | Background | Training | System

  datatype ControllerPolicy = ControllerPolicy(
    id: string, profile: string, throttleFor: set<ServiceClass>, priority: nat,
    training: bool, requiresCheckpoint: bool, minimumNormal: nat)

  datatype ResourcePolicy = ResourcePolicy(
    controllers: seq<ControllerPolicy>,
    trainers: map<string, Controller.Policy>,
    requireProbe: bool,
    hostReserve: nat, cudaReserve: nat, maximumPressure: nat,
    enforceMemory: bool, enforceCuda: bool)

  datatype LeaseMode = Exclusive | SharedCertified | Permit | NoLease

  datatype Status = Acquiring | Active | Releasing | Released | Unknown | Denied

  // One entry of the journal of compensations a lease row carries.
  datatype Throttle = Throttle(controller: string, generation: nat, mutation: nat, applied: bool)

  datatype Lease = Lease(
    epoch: nat, fence: nat, profile: string, service: ServiceClass, mode: LeaseMode,
    status: Status, throttle: seq<Throttle>)

  datatype Flight = Flight(controller: string, command: Command)

  datatype World = World(
    leases: map<nat, Lease>,
    quanta: map<string, nat>,         // when a training controller's restoration was recorded
    storeEpoch: nat,
    epochFile: nat,
    plants: map<string, Plant>,
    flights: set<Flight>,             // sent, neither delivered nor lost
    running: set<nat>,                // leases whose activated profile has a runtime started
    visible: set<nat>,                // those of them whose runtime holds a GPU consumer
    loose: set<nat>,                  // leases a restoration was commanded for while their runtime was started
    clock: nat,
    restoredAt: map<string, nat>,     // when a controller last stopped being displaced
    nextId: nat)

  predicate Unclosed(lease: Lease)
  {
    lease.status in {Acquiring, Active, Releasing, Unknown}
  }

  // The two differ at most in status and journal.
  predicate SameTerms(a: Lease, b: Lease)
  {
    b == a.(status := b.status, throttle := b.throttle)
  }

  ghost predicate Journals(lease: Lease, c: string)
  {
    exists t | t in lease.throttle :: t.controller == c
  }

  // `_controllers_for`, as membership.
  predicate Chosen(k: ControllerPolicy, service: ServiceClass, profile: string)
  {
    service in k.throttleFor && k.profile != profile
  }

  predicate ChosenFor(k: ControllerPolicy, lease: Lease)
  {
    Chosen(k, lease.service, lease.profile)
  }

  function TrainerOf(policy: ResourcePolicy, c: string): Controller.Policy
  {
    if c in policy.trainers then policy.trainers[c] else Policy(false)
  }

  ghost predicate PolicyOk(policy: ResourcePolicy)
  {
    forall i, j | 0 <= i < j < |policy.controllers| :: policy.controllers[i].id != policy.controllers[j].id
  }

  // A training controller has had its minimum uninterrupted time since it was last restored.
  ghost predicate QuantumElapsed(policy: ResourcePolicy, w: World, c: string)
  {
    forall k | k in policy.controllers && k.id == c && k.training && c in w.restoredAt ::
      w.restoredAt[c] + k.minimumNormal <= w.clock
  }

  ghost predicate PlantOk(policy: ResourcePolicy, w: World, c: string)
    requires c in w.plants
  {
    var p := w.plants[c];
    && Sound(p) && Attributed(p)
    && (forall m | m in Mentions(p) :: m < w.nextId)
    && Epoch(p) <= w.storeEpoch
    && (p.authority.Some? ==>
         Current(p).lease in w.leases && UnderLease(w.leases[Current(p).lease], Current(p)))
    && (DisplacedBy(p).Some? ==>
         var l := DisplacedBy(p).value;
         && l in w.leases && Unclosed(w.leases[l]) && Journals(w.leases[l], c)
         && w.leases[l].epoch <= Epoch(p)
         && QuantumElapsed(policy, w, c))
  }

  // A command that may still reach its controller. Only commands sent by an incarnation of
  // the broker that crashed meanwhile stay in this state.
  ghost predicate Deliverable(policy: ResourcePolicy, w: World, f: Flight)
  {
    var x := f.command;
    && f.controller in w.plants
    && ValidCommand(x)
    && x.lease in w.leases && Journals(w.leases[x.lease], f.controller)
    && x.epoch <= w.storeEpoch
    && x.mutation < w.nextId
    && UnderLease(w.leases[x.lease], x)
    && x.mutation !in Mentions(w.plants[f.controller])
    && (!Unclosed(w.leases[x.lease]) ==> x.epoch < Epoch(w.plants[f.controller]))
    && (x.target.Released? && Epoch(w.plants[f.controller]) <= x.epoch ==>
         DisplacedBy(w.plants[f.controller]) != Some(x.lease) && QuantumElapsed(policy, w, f.controller))
    && (x.target.Normal? && x.lease in w.running ==> x.lease in w.loose)
  }

  // A command of the lease's own epoch and fence, or a later takeover from that fence under
  // another.
  predicate UnderLease(lease: Lease, x: Command)
  {
    if x.SetMode? then x.epoch == lease.epoch && x.fence == lease.fence
    else x.epoch > lease.epoch && x.previousFence == lease.fence && x.fence != lease.fence
  }

  // Nothing may be restored over these: an active lease, and a runtime started under a lease
  // for which no restoration has been commanded since.
  predicate Guarded(w: World, l: nat)
  {
    l in w.leases && (w.leases[l].status == Active || (l in w.running && l !in w.loose))
  }

  ghost predicate LeaseOk(policy: ResourcePolicy, w: World, l: nat)
    requires l in w.leases
  {
    && l < w.nextId && w.leases[l].fence < w.nextId
    && w.leases[l].epoch <= w.storeEpoch
    && forall t | t in w.leases[l].throttle ::
         t.controller in w.plants
         && exists k :: k in policy.controllers && k.id == t.controller && ChosenFor(k, w.leases[l])
  }

  // The controller is released, with its unit inactive, under exactly this lease's fence
  // and epoch, and nothing on its way to it can change that.
  ghost predicate HeldBy(w: World, c: string, l: nat)
    requires l in w.leases
  {
    && c in w.plants
    && Displaced(w.plants[c])
    && Current(w.plants[c]).lease == l
    && Current(w.plants[c]).fence == w.leases[l].fence
    && Current(w.plants[c]).epoch == w.leases[l].epoch
    && forall f | f in w.flights && f.controller == c :: f.command.epoch < w.leases[l].epoch
  }

  ghost predicate Held(policy: ResourcePolicy, w: World, l: nat)
    requires l in w.leases
  {
    forall k | k in policy.controllers && ChosenFor(k, w.leases[l]) :: HeldBy(w, k.id, l)
  }

  ghost predicate JournaledNow(w: World, c: string)
  {
    exists l :: l in w.leases && Unclosed(w.leases[l]) && Journals(w.leases[l], c)
  }

  // Once no open lease names a training controller, its restoration has been recorded.
  ghost predicate QuantumOk(w: World, k: ControllerPolicy)
  {
    k.training && k.id in w.restoredAt && !JournaledNow(w, k.id) ==>
      k.id in w.quanta && w.restoredAt[k.id] <= w.quanta[k.id]
  }

  ghost predicate OneOpenLease(w: World)
  {
    forall l, m | l in w.leases && m in w.leases && Unclosed(w.leases[l]) && Unclosed(w.leases[m]) :: l == m
  }

  ghost predicate FlightsApart(w: World)
  {
    forall f, g | f in w.flights && g in w.flights ::
      (f.command.epoch == g.command.epoch || f.command.mutation == g.command.mutation) ==> f == g
  }

  ghost predicate Inv(policy: ResourcePolicy, w: World)
  {
    && (forall k | k in policy.controllers :: k.id in w.plants)
    && (forall l | l in w.leases :: LeaseOk(policy, w, l))
    && OneOpenLease(w)
    && (forall c | c in w.plants :: PlantOk(policy, w, c))
    && (forall f | f in w.flights :: Deliverable(policy, w, f))
    && FlightsApart(w)
    && (forall l | Guarded(w, l) :: Held(policy, w, l))
    && (forall l | l in w.running :: l in w.leases)
    && w.visible <= w.running
    && (forall k | k in policy.controllers :: QuantumOk(w, k))
    && (forall c | c in w.restoredAt :: w.restoredAt[c] <= w.clock)
    && (forall c | c in w.quanta :: w.quanta[c] <= w.clock)
    && w.epochFile <= w.storeEpoch
  }

  // ---------------------------------------------------------------- the outside world

  function PlantTo(w: World, c: string, q: Plant): World
    requires c in w.plants
  {
    w.(plants := w.plants[c := q],
       restoredAt := if DisplacedBy(w.plants[c]).Some? && DisplacedBy(q).None?
                     then w.restoredAt[c := w.clock] else w.restoredAt)
  }

  // Anything the rest of the host does on its own.
  datatype EnvEvent =
    | Tick(seconds: nat)
    | Local(controller: string, event: Event)   // a restart, the trainer, or a late delivery
    | Loads(lease: nat)                       // an activated runtime takes up the GPU
    | Died(lease: nat)                        // an activated runtime stops

  // A command in flight is delivered at most once.
  function EnvStep(policy: ResourcePolicy, w: World, e: EnvEvent): World
  {
    match e
    case Tick(n) => w.(clock := w.clock + n)
    case Loads(l) => if l in w.running then w.(visible := w.visible + {l}) else w
    case Died(l) => w.(running := w.running - {l}, visible := w.visible - {l})
    case Local(c, event) =>
      if c !in w.plants then w
      else if event.Called? then
        if Flight(c, event.command) in w.flights then Deliver(policy, w, c, event) else w
      else PlantTo(w, c, Final(w.plants[c], EventStates(TrainerOf(policy, c), w.plants[c], event)))
  }

  function Deliver(policy: ResourcePolicy, w: World, c: string, event: Event): World
    requires c in w.plants && event.Called?
  {
    PlantTo(w.(flights := w.flights - {Flight(c, event.command)}), c,
            Final(w.plants[c], EventStates(TrainerOf(policy, c), w.plants[c], event)))
  }

  function Evolve(policy: ResourcePolicy, w: World, events: seq<EnvEvent>): World
    decreases |events|
  {
    if events == [] then w else Evolve(policy, EnvStep(policy, w, events[0]), events[1..])
  }

  // ------------------------------------------------------- every outside step keeps `Inv`

  lemma MovedPlantOk(policy: ResourcePolicy, w: World, c: string, q: Plant, x: Option<Command>)
    requires Inv(policy, w) && c in w.plants && Moves(TrainerOf(policy, c), w.plants[c], q, x)
    requires x.Some? ==> Deliverable(policy, w, Flight(c, x.value))
    ensures PlantOk(policy, PlantTo(w, c, q), c)
  {
    MovesFacts(TrainerOf(policy, c), w.plants[c], q, x);
    var p := w.plants[c];
    assert PlantOk(policy, w, c);
    var v := PlantTo(w, c, q);
    forall m | m in Mentions(q) ensures m < v.nextId {
      assert m in Mentions(p) || m == x.value.mutation;
    }
  }

  lemma MovedHeld(policy: ResourcePolicy, w: World, c: string, q: Plant, x: Option<Command>, l: nat)
    requires c in w.plants && Moves(TrainerOf(policy, c), w.plants[c], q, x)
    requires l in w.leases && Held(policy, w, l)
    requires x.Some? ==> forall k | k in policy.controllers && ChosenFor(k, w.leases[l]) && k.id == c :: x.value.epoch < w.leases[l].epoch
    ensures Held(policy, PlantTo(w, c, q), l)
  {
    MovesFacts(TrainerOf(policy, c), w.plants[c], q, x);
    var v := PlantTo(w, c, q);
    forall k | k in policy.controllers && ChosenFor(k, v.leases[l]) ensures HeldBy(v, k.id, l) {
      assert HeldBy(w, k.id, l);
    }
  }

  lemma MovedDeliverable(policy: ResourcePolicy, w: World, c: string, q: Plant, x: Option<Command>, f: Flight)
    requires Inv(policy, w) && c in w.plants && Moves(TrainerOf(policy, c), w.plants[c], q, x)
    requires x.Some? ==> Deliverable(policy, w, Flight(c, x.value))
    requires f in w.flights
    requires x.Some? ==> x.value.mutation != f.command.mutation && x.value.epoch != f.command.epoch
    ensures Deliverable(policy, PlantTo(w, c, q), f)
  {
    MovesFacts(TrainerOf(policy, c), w.plants[c], q, x);
    assert Deliverable(policy, w, f);
    if f.controller == c {
      var y, p := f.command, w.plants[c];
      assert PlantOk(policy, w, c);
      if y.target.Released? && Epoch(q) <= y.epoch {
        assert Unclosed(w.leases[y.lease]);
        assert y.SetMode?;
        assert DisplacedBy(p).None? || DisplacedBy(p) == Some(y.lease);
      }
    }
  }

  // A controller moves: on its own, or by taking up the command `x`, no longer in flight.
  lemma MoveKeepsInv(policy: ResourcePolicy, w: World, c: string, q: Plant, x: Option<Command>)
    requires Inv(policy, w) && c in w.plants && Moves(TrainerOf(policy, c), w.plants[c], q, x)
    requires x.Some? ==> Deliverable(policy, w, Flight(c, x.value))
    requires x.Some? ==> forall f | f in w.flights :: x.value.mutation != f.command.mutation && x.value.epoch != f.command.epoch
    requires x.Some? ==> forall l, k | Guarded(w, l)
                           && k in policy.controllers && ChosenFor(k, w.leases[l]) && k.id == c :: x.value.epoch < w.leases[l].epoch
    ensures Inv(policy, PlantTo(w, c, q))
  {
    hide Moves, Deliverable, Held, LeaseOk, QuantumOk, PlantOk;
    var v := PlantTo(w, c, q);
    forall d | d in v.plants ensures PlantOk(policy, v, d) {
      MovedPlant(policy, w, c, q, x, d);
    }
    MovedFlights(policy, w, c, q, x);
    MovedLeases(policy, w, c, q, x);
  }

  lemma MovedFlights(policy: ResourcePolicy, w: World, c: string, q: Plant, x: Option<Command>)
    requires Inv(policy, w) && c in w.plants && Moves(TrainerOf(policy, c), w.plants[c], q, x)
    requires x.Some? ==> Deliverable(policy, w, Flight(c, x.value))
    requires x.Some? ==> forall f | f in w.flights :: x.value.mutation != f.command.mutation && x.value.epoch != f.command.epoch
    ensures forall f | f in w.flights :: Deliverable(policy, PlantTo(w, c, q), f)
  {
    hide Moves, Deliverable, Inv;
    forall f | f in w.flights ensures Deliverable(policy, PlantTo(w, c, q), f) {
      MovedDeliverable(policy, w, c, q, x, f);
    }
  }

  lemma MovedLeases(policy: ResourcePolicy, w: World, c: string, q: Plant, x: Option<Command>)
    requires Inv(policy, w) && c in w.plants && Moves(TrainerOf(policy, c), w.plants[c], q, x)
    requires x.Some? ==> forall l, k | Guarded(w, l)
                           && k in policy.controllers && ChosenFor(k, w.leases[l]) && k.id == c :: x.value.epoch < w.leases[l].epoch
    ensures var v := PlantTo(w, c, q);
      && (forall l | Guarded(v, l) :: Held(policy, v, l))
      && (forall l | l in v.leases :: LeaseOk(policy, v, l))
      && (forall k | k in policy.controllers :: QuantumOk(v, k))
  {
    hide Moves, Held, LeaseOk, QuantumOk, PlantOk, Deliverable, OneOpenLease, FlightsApart, ChosenFor;
    var v := PlantTo(w, c, q);
    forall l | Guarded(v, l) ensures Held(policy, v, l) {
      MovedHeld(policy, w, c, q, x, l);
    }
    forall l | l in v.leases ensures LeaseOk(policy, v, l) {
      LeaseStays(policy, w, v, l);
    }
    forall k | k in policy.controllers ensures QuantumOk(v, k) {
      assert QuantumOk(w, k) && PlantOk(policy, w, c);
      hide Inv;
      MovedQuantum(policy, w, c, q, k);
    }
  }

  lemma MovedPlant(policy: ResourcePolicy, w: World, c: string, q: Plant, x: Option<Command>, d: string)
    requires Inv(policy, w) && c in w.plants && Moves(TrainerOf(policy, c), w.plants[c], q, x) && d in w.plants
    requires x.Some? ==> Deliverable(policy, w, Flight(c, x.value))
    ensures PlantOk(policy, PlantTo(w, c, q), d)
  {
    hide Moves, Deliverable, Sound, Attributed, Mentions, Epoch, Held, LeaseOk, QuantumOk, DisplacedBy;
    if d == c {
      hide Inv;
      MovedPlantOk(policy, w, c, q, x);
    } else {
      assert PlantOk(policy, w, d);
    }
  }

  lemma MovedQuantum(policy: ResourcePolicy, w: World, c: string, q: Plant, k: ControllerPolicy)
    requires c in w.plants && PlantOk(policy, w, c) && QuantumOk(w, k)
    ensures QuantumOk(PlantTo(w, c, q), k)
  {
    var v := PlantTo(w, c, q);
    assert JournaledNow(v, k.id) == JournaledNow(w, k.id);
    if k.id == c && DisplacedBy(w.plants[c]).Some? {
      assert JournaledNow(w, c);
    }
  }

  // What each part of `Inv` asks of a later state with the same leases and controllers.

  lemma PlantStays(policy: ResourcePolicy, w: World, v: World, c: string)
    requires c in w.plants && PlantOk(policy, w, c) && c in v.plants && v.plants[c] == w.plants[c]
    requires v.leases == w.leases && v.restoredAt == w.restoredAt
    requires w.nextId <= v.nextId && w.storeEpoch <= v.storeEpoch && w.clock <= v.clock
    ensures PlantOk(policy, v, c)
  {
    hide Sound, Attributed, Mentions, DisplacedBy, Epoch;
  }

  lemma DeliverableStays(policy: ResourcePolicy, w: World, v: World, f: Flight)
    requires Deliverable(policy, w, f) && v.plants == w.plants && v.running <= w.running && w.loose <= v.loose
    requires v.leases == w.leases && v.restoredAt == w.restoredAt
    requires w.nextId <= v.nextId && w.storeEpoch <= v.storeEpoch && w.clock <= v.clock
    ensures Deliverable(policy, v, f)
  {
    hide Mentions, DisplacedBy, Epoch;
  }

  lemma LeaseStays(policy: ResourcePolicy, w: World, v: World, l: nat)
    requires l in w.leases && LeaseOk(policy, w, l) && l in v.leases && v.leases[l] == w.leases[l]
    requires w.plants.Keys <= v.plants.Keys && w.nextId <= v.nextId && w.storeEpoch <= v.storeEpoch
    ensures LeaseOk(policy, v, l)
  {
  }

  lemma QuantumStays(w: World, v: World, k: ControllerPolicy)
    requires QuantumOk(w, k) && v.leases == w.leases && v.restoredAt == w.restoredAt
    requires forall c | c in w.quanta :: c in v.quanta && w.quanta[c] <= v.quanta[c]
    ensures QuantumOk(v, k)
  {
    assert JournaledNow(v, k.id) == JournaledNow(w, k.id);
  }

  // Fewer flights, and the same controllers, keep a lease held.
  lemma SameHeld(policy: ResourcePolicy, w: World, v: World, l: nat)
    requires l in w.leases && l in v.leases && Held(policy, w, l)
    requires SameTerms(w.leases[l], v.leases[l])
    requires v.plants == w.plants && v.flights <= w.flights
    ensures Held(policy, v, l)
  {
    forall k | k in policy.controllers && ChosenFor(k, v.leases[l]) ensures HeldBy(v, k.id, l) {
      assert ChosenFor(k, w.leases[l]);
      assert HeldBy(w, k.id, l);
    }
  }

  // Time passes, numbers grow, flights land or get lost, activated runtimes stop.
  lemma FrameKeepsInv(policy: ResourcePolicy, w: World, v: World)
    requires Inv(policy, w)
    requires v == w.(quanta := v.quanta, storeEpoch := v.storeEpoch, epochFile := v.epochFile, flights := v.flights,
                     running := v.running, visible := v.visible, loose := v.loose, clock := v.clock, nextId := v.nextId)
    requires v.flights <= w.flights && v.running <= w.running && w.loose <= v.loose
    requires v.visible <= v.running || (v.visible == w.visible && v.running == w.running)
    requires w.nextId <= v.nextId && w.storeEpoch <= v.storeEpoch && w.clock <= v.clock
    requires v.epochFile == w.epochFile || v.epochFile <= v.storeEpoch
    requires forall c | c in w.quanta :: c in v.quanta && w.quanta[c] <= v.quanta[c]
    requires forall c | c in v.quanta :: (c in w.quanta && v.quanta[c] == w.quanta[c]) || v.quanta[c] <= v.clock
    ensures Inv(policy, v)
  {
    hide PlantOk, Deliverable, LeaseOk, QuantumOk, Held;
    forall c | c in v.plants ensures PlantOk(policy, v, c) {
      PlantStays(policy, w, v, c);
    }
    forall f | f in v.flights ensures Deliverable(policy, v, f) {
      DeliverableStays(policy, w, v, f);
    }
    forall l | Guarded(v, l) ensures Held(policy, v, l) {
      SameHeld(policy, w, v, l);
    }
    forall l | l in v.leases ensures LeaseOk(policy, v, l) {
      LeaseStays(policy, w, v, l);
    }
    forall k | k in policy.controllers ensures QuantumOk(v, k) {
      QuantumStays(w, v, k);
    }
  }

  // No command on its way to this controller could be taken up at epoch `epoch`.
  ghost predicate Quiet(w: World, c: string, epoch: nat)
  {
    forall f | f in w.flights && f.controller == c :: f.command.epoch < epoch
  }

  ghost predicate Unsent(w: World, x: Command)
  {
    && x.mutation < w.nextId
    && forall f | f in w.flights :: f.command.mutation != x.mutation && f.command.epoch < x.epoch
  }

  // A controller that is not displaced, with nothing on its way that could displace it.
  ghost predicate Idle(w: World, c: string)
    requires c in w.plants
  {
    DisplacedBy(w.plants[c]).None? && Quiet(w, c, Epoch(w.plants[c]))
  }

  // What the broker still knows of `w` in a later `v`, whatever the rest of the host has
  // done meanwhile: everything but the lease table, and except about the controllers `but`.
  ghost predicate Onward(w: World, v: World, but: set<string>)
  {
    && w.nextId <= v.nextId && w.storeEpoch <= v.storeEpoch && w.clock <= v.clock
    && v.flights <= w.flights && v.running <= w.running && w.loose <= v.loose
    && (forall l | l in w.visible && l in v.running :: l in v.visible)
    && (forall c | c in w.quanta :: c in v.quanta && w.quanta[c] <= v.quanta[c])
    && v.plants.Keys == w.plants.Keys
    && (forall c | c in w.plants :: Epoch(w.plants[c]) <= Epoch(v.plants[c]))
    && (forall c | c in w.plants && c !in but :: SettledStays(w, v, c) && IdleStays(w, v, c) && RecordStays(w, v, c))
    && (forall c, x | c in w.plants && c !in but && Unsent(w, x) && Unseen(w.plants[c], x) :: Unseen(v.plants[c], x))
    && (forall c, m | c in w.plants && c !in but && Unflown(w, m) && Unmentioned(w.plants[c], m) :: Unmentioned(v.plants[c], m))
  }

  ghost predicate Stable(w: World, v: World, but: set<string>)
  {
    && Onward(w, v, but)
    && v.leases == w.leases && v.quanta == w.quanta && v.nextId == w.nextId
    && v.storeEpoch == w.storeEpoch && v.epochFile == w.epochFile
  }

  ghost predicate Unflown(w: World, m: nat)
  {
    forall f | f in w.flights :: f.command.mutation != m
  }

  predicate Unmentioned(p: Plant, m: nat)
  {
    m !in Mentions(p)
  }

  ghost predicate SameRestored(w: World, v: World, c: string)
  {
    (c in v.restoredAt <==> c in w.restoredAt) && (c in w.restoredAt ==> v.restoredAt[c] == w.restoredAt[c])
  }

  // A settled controller that nothing in flight can move keeps its record, shows it in its
  // state file once it does, and, once restored, keeps the time of its restoration.
  ghost predicate SettledStays(w: World, v: World, c: string)
    requires c in w.plants && c in v.plants
  {
    Settled(w.plants[c]) && Quiet(w, c, Epoch(w.plants[c])) ==>
      && v.plants[c].authority == w.plants[c].authority && SameRestored(w, v, c)
      && (ShowsRecord(w.plants[c]) ==> ShowsRecord(v.plants[c]))
  }

  // So does its recorded command, settled or not.
  ghost predicate RecordStays(w: World, v: World, c: string)
    requires c in w.plants && c in v.plants
  {
    Quiet(w, c, Epoch(w.plants[c])) ==> RecordOf(v.plants[c]) == RecordOf(w.plants[c])
  }

  ghost predicate IdleStays(w: World, v: World, c: string)
    requires c in w.plants && c in v.plants
  {
    Idle(w, c) ==> Idle(v, c) && SameRestored(w, v, c)
  }

  lemma StableTransitive(u: World, v: World, w: World, some: set<string>, more: set<string>, but: set<string>)
    requires Stable(u, v, some) && Stable(v, w, more) && some + more <= but
    ensures Stable(u, w, but)
  {
    OnwardTransitive(u, v, w, some, more, but);
  }

  lemma OnwardTransitive(u: World, v: World, w: World, some: set<string>, more: set<string>, but: set<string>)
    requires Onward(u, v, some) && Onward(v, w, more) && some + more <= but
    ensures Onward(u, w, but)
  {
    forall c | c in u.plants && c !in but ensures SettledStays(u, w, c) && IdleStays(u, w, c) && RecordStays(u, w, c) {
      assert SettledStays(u, v, c) && SettledStays(v, w, c);
      assert RecordStays(u, v, c) && RecordStays(v, w, c);
      assert IdleStays(u, v, c) && IdleStays(v, w, c);
    }
    forall c, x | c in u.plants && c !in but && Unsent(u, x) && Unseen(u.plants[c], x)
      ensures Unseen(w.plants[c], x)
    {
      assert Unseen(v.plants[c], x);
      assert Unsent(v, x);
    }
    forall c, m | c in u.plants && c !in but && Unflown(u, m) && Unmentioned(u.plants[c], m)
      ensures Unmentioned(w.plants[c], m)
    {
      assert Unmentioned(v.plants[c], m);
      assert Unflown(v, m);
    }
  }

  // A flight: what `Inv` says of it and of the rest.
  lemma FlightFacts(policy: ResourcePolicy, w: World, f: Flight)
    requires Inv(policy, w) && f in w.flights
    ensures Deliverable(policy, w, f)
    ensures forall g | g in w.flights - {f} :: f.command.mutation != g.command.mutation && f.command.epoch != g.command.epoch
    ensures forall l, k | Guarded(w, l)
                          && k in policy.controllers && ChosenFor(k, w.leases[l]) && k.id == f.controller ::
              f.command.epoch < w.leases[l].epoch
  {
    hide PlantOk, Deliverable, LeaseOk, QuantumOk;
    forall l, k | Guarded(w, l)
                  && k in policy.controllers && ChosenFor(k, w.leases[l]) && k.id == f.controller
      ensures f.command.epoch < w.leases[l].epoch
    {
      assert HeldBy(w, k.id, l);
    }
  }

  lemma RecordFacts(policy: ResourcePolicy, w: World, c: string)
    requires Inv(policy, w) && c in w.plants
    ensures Sound(w.plants[c]) && Attributed(w.plants[c])
  {
    assert PlantOk(policy, w, c);
  }

  lemma DeliverableWithout(policy: ResourcePolicy, w: World, f: Flight)
    requires Deliverable(policy, w, f)
    ensures Deliverable(policy, w.(flights := w.flights - {f}), f) && f.command.mutation !in Mentions(w.plants[f.controller])
  {
  }

  lemma LocalIsStable(policy: ResourcePolicy, w: World, c: string, e: Event)
    requires Inv(policy, w) && c in w.plants
    requires e.Called? ==> Flight(c, e.command) in w.flights
    ensures Inv(policy, EnvStep(policy, w, Local(c, e))) && Stable(w, EnvStep(policy, w, Local(c, e)), {})
  {
    hide EventStates, Moves, Sound, Attributed, Inv, Stable, Deliverable, Mentions;
    var p := w.plants[c];
    var x := if e.Called? then Some(e.command) else None;
    var q := Final(p, EventStates(TrainerOf(policy, c), p, e));
    RecordFacts(policy, w, c);
    if e.Called? {
      FlightFacts(policy, w, Flight(c, e.command));
      DeliverableWithout(policy, w, Flight(c, e.command));
    }
    EventMoves(TrainerOf(policy, c), p, e);
    var w0 := if e.Called? then w.(flights := w.flights - {Flight(c, e.command)}) else w;
    FrameKeepsInv(policy, w, w0);
    MoveKeepsInv(policy, w0, c, q, x);
    var v := PlantTo(w0, c, q);
    assert v == EnvStep(policy, w, Local(c, e));
    MoveIsStable(policy, w, v, c, q, x);
  }

  lemma MoveIsStable(policy: ResourcePolicy, w: World, v: World, c: string, q: Plant, x: Option<Command>)
    requires c in w.plants && Moves(TrainerOf(policy, c), w.plants[c], q, x)
    requires x.Some? ==> Flight(c, x.value) in w.flights
    requires v == PlantTo(w.(flights := if x.Some? then w.flights - {Flight(c, x.value)} else w.flights), c, q)
    ensures Stable(w, v, {})
  {
    MovedFrame(policy, w, v, c, q, x);
    MovesFacts(TrainerOf(policy, c), w.plants[c], q, x);
    hide Moves, SettledStays, IdleStays, RecordStays, Mentions, Unseen, Epoch, DisplacedBy, Unsent, Unflown, Unmentioned;
  }

  lemma MovedFrame(policy: ResourcePolicy, w: World, v: World, c: string, q: Plant, x: Option<Command>)
    requires c in w.plants && Moves(TrainerOf(policy, c), w.plants[c], q, x)
    requires x.Some? ==> Flight(c, x.value) in w.flights
    requires v == PlantTo(w.(flights := if x.Some? then w.flights - {Flight(c, x.value)} else w.flights), c, q)
    ensures forall d | d in w.plants :: SettledStays(w, v, d) && IdleStays(w, v, d) && RecordStays(w, v, d)
    ensures forall d, y | d in w.plants && Unsent(w, y) && Unseen(w.plants[d], y) :: Unseen(v.plants[d], y)
    ensures forall d, m | d in w.plants && Unflown(w, m) && Unmentioned(w.plants[d], m) :: Unmentioned(v.plants[d], m)
  {
    hide Moves, SettledStays, IdleStays, RecordStays, Mentions, Unseen, Epoch, DisplacedBy, Unsent, Unflown, Unmentioned;
    forall d | d in w.plants ensures SettledStays(w, v, d) && IdleStays(w, v, d) && RecordStays(w, v, d) {
      MovedStays(policy, w, v, c, q, x, d);
    }
    forall d, y | d in w.plants && Unsent(w, y) && Unseen(w.plants[d], y) ensures Unseen(v.plants[d], y) {
      if d == c { MovedUnseen(policy, w, c, q, x, y); }
    }
    forall d, m | d in w.plants && Unflown(w, m) && Unmentioned(w.plants[d], m) ensures Unmentioned(v.plants[d], m) {
      if d == c { MovedUnmentioned(policy, w, c, q, x, m); }
    }
  }

  lemma MovedStays(policy: ResourcePolicy, w: World, v: World, c: string, q: Plant, x: Option<Command>, d: string)
    requires c in w.plants && Moves(TrainerOf(policy, c), w.plants[c], q, x) && d in w.plants
    requires x.Some? ==> Flight(c, x.value) in w.flights
    requires v == PlantTo(w.(flights := if x.Some? then w.flights - {Flight(c, x.value)} else w.flights), c, q)
    ensures SettledStays(w, v, d) && IdleStays(w, v, d) && RecordStays(w, v, d)
  {
    MovesFacts(TrainerOf(policy, c), w.plants[c], q, x);
    hide Answers, Sound, Attributed, Mentions;
  }

  lemma MovedUnseen(policy: ResourcePolicy, w: World, c: string, q: Plant, x: Option<Command>, y: Command)
    requires c in w.plants && Moves(TrainerOf(policy, c), w.plants[c], q, x)
    requires x.Some? ==> Flight(c, x.value) in w.flights
    requires Unsent(w, y) && Unseen(w.plants[c], y)
    ensures Unseen(q, y)
  {
    if y.mutation in Mentions(q) {
      if x.Some? { assert x.value.mutation != y.mutation; }
      assert y.mutation in Mentions(w.plants[c]);
      CurrentStays(TrainerOf(policy, c), w.plants[c], q, x, y);
    }
  }

  lemma MovedUnmentioned(policy: ResourcePolicy, w: World, c: string, q: Plant, x: Option<Command>, m: nat)
    requires c in w.plants && Moves(TrainerOf(policy, c), w.plants[c], q, x)
    requires x.Some? ==> Flight(c, x.value) in w.flights
    requires Unflown(w, m) && Unmentioned(w.plants[c], m)
    ensures Unmentioned(q, m)
  {
    if x.Some? { assert x.value.mutation != m; }
  }

  lemma CurrentStays(trainer: Controller.Policy, p: Plant, q: Plant, x: Option<Command>, y: Command)
    requires Moves(trainer, p, q, x) && p.authority.Some? && Current(p) == y && y.mutation in Mentions(q)
    requires x.Some? ==> x.value.epoch < y.epoch
    ensures q.authority.Some? && Current(q) == y
  {
  }

  lemma EnvStepIsStable(policy: ResourcePolicy, w: World, e: EnvEvent)
    requires Inv(policy, w)
    ensures Inv(policy, EnvStep(policy, w, e)) && Stable(w, EnvStep(policy, w, e), {})
    ensures EnvStep(policy, w, e).loose == w.loose
  {
    hide Inv, Stable;
    match e {
      case Tick(n) =>
        FrameKeepsInv(policy, w, w.(clock := w.clock + n));
        IdleIsStable(w, EnvStep(policy, w, e));
      case Died(l) =>
        DiedKeeps(policy, w, l);
      case Loads(l) =>
        LoadsKeeps(policy, w, l);
      case Local(c, event) =>
        if c in w.plants && (event.Called? ==> Flight(c, event.command) in w.flights) {
          LocalIsStable(policy, w, c, event);
        } else {
          StableReflexive(w);
        }
    }
  }

  lemma DiedKeeps(policy: ResourcePolicy, w: World, l: nat)
    requires Inv(policy, w)
    ensures Inv(policy, EnvStep(policy, w, Died(l))) && Stable(w, EnvStep(policy, w, Died(l)), {})
  {
    FrameKeepsInv(policy, w, EnvStep(policy, w, Died(l)));
    IdleIsStable(w, EnvStep(policy, w, Died(l)));
  }

  lemma LoadsKeeps(policy: ResourcePolicy, w: World, l: nat)
    requires Inv(policy, w)
    ensures Inv(policy, EnvStep(policy, w, Loads(l))) && Stable(w, EnvStep(policy, w, Loads(l)), {})
  {
    FrameKeepsInv(policy, w, EnvStep(policy, w, Loads(l)));
    IdleIsStable(w, EnvStep(policy, w, Loads(l)));
  }

  lemma IdleIsStable(w: World, v: World)
    requires v == w.(clock := v.clock, running := v.running, visible := v.visible) && w.clock <= v.clock
    requires v.running <= w.running && forall l | l in w.visible && l in v.running :: l in v.visible
    ensures Stable(w, v, {})
  {
  }

  // Whatever the rest of the host does, `Inv` holds and what the broker verified stays true.
  lemma {:induction false} EvolveIsStable(policy: ResourcePolicy, w: World, events: seq<EnvEvent>)
    requires Inv(policy, w)
    ensures Inv(policy, Evolve(policy, w, events)) && Stable(w, Evolve(policy, w, events), {})
    ensures Evolve(policy, w, events).loose == w.loose
    decreases |events|
  {
    hide Inv, Stable, EnvStep;
    if events == [] {
      StableReflexive(w);
    } else {
      var v := EnvStep(policy, w, events[0]);
      EnvStepIsStable(policy, w, events[0]);
      EvolveIsStable(policy, v, events[1..]);
      StableTransitive(w, v, Evolve(policy, v, events[1..]), {}, {}, {});
    }
  }

  lemma StableReflexive(w: World)
    ensures Stable(w, w, {})
  {
  }
}
