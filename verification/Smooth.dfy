// That the coordinator's work does succeed: on a host that answers, with a probe whose every
// generation is one above the last, nothing stands in its way.
module Smooth {
  import opened Wrappers
  import opened Protocol
  import opened Controller
  import opened ControllerSteps
  import opened ControllerRuns
  import opened PlantMoves
  import opened Takeovers
  import opened Worlds
  import opened BrokerSteps
  import opened Host
  import opened Admission
  import opened Outcomes
  import opened CoordinatorProofs

  // A request delivered and answered at once, and a snapshot that shows the controller.
  predicate Prompt(a: Input, b: Input, c: string)
  {
    && a.delivery.before == [] && a.delivery.after == []
    && a.delivery.delivered && a.delivery.answered && a.delivery.steps >= 7
    && b.events == [] && !b.reading.fails && c !in b.reading.hidden
  }

  // The controller as it is completes the command.
  predicate CompletesOn(policy: ResourcePolicy, w: World, f: Flight, a: Input)
  {
    && f.controller in w.plants
    && HandleRun(TrainerOf(policy, f.controller), w.plants[f.controller], f.command, a.delivery.env).out.Ok?
  }

  lemma StatesAreFew(trainer: Controller.Policy, p: Plant, x: Command, env: CallEnv)
    ensures |HandleRun(trainer, p, x, env).states| <= 7
  {
    hide RecoverRun, ServeRun;
    RecoveryIsShort(trainer, p, env.recovery);
    ServiceIsShort(trainer, Final(p, RecoverRun(trainer, p, env.recovery).states), x, env.apply);
  }

  lemma RecoveryIsShort(trainer: Controller.Policy, p: Plant, env: UnitEnv)
    ensures |RecoverRun(trainer, p, env).states| <= 3
  {
  }

  lemma ServiceIsShort(trainer: Controller.Policy, p: Plant, x: Command, env: UnitEnv)
    ensures |ServeRun(trainer, p, x, env).states| <= 4
  {
  }

  // One exchange then succeeds, if the next generation exceeds the floor; and nothing but
  // that controller has changed.
  lemma PromptSucceeds(policy: ResourcePolicy, s: Situation, f: Flight, floor: int)
    requires |s.tape| >= 2 && Prompt(s.tape[0], s.tape[1], f.controller) && CompletesOn(policy, s.world, f, s.tape[0])
    requires f !in s.world.flights
    requires 0 <= s.tape[1].reading.snapshot.generation && floor < s.tape[1].reading.snapshot.generation
    requires s.last <= s.tape[1].reading.snapshot.generation
    ensures Succeeds(policy, s, f, floor)
    ensures var t := Exchanged(policy, s, f);
      && t.last == s.tape[1].reading.snapshot.generation && t.tape == s.tape[2..]
      && t.world.leases == s.world.leases && t.world.nextId == s.world.nextId && t.world.flights == s.world.flights
      && t.world.plants == s.world.plants[f.controller := Final(s.world.plants[f.controller],
           HandleRun(TrainerOf(policy, f.controller), s.world.plants[f.controller], f.command, s.tape[0].delivery.env).states)]
      && t.world.running == s.world.running && t.world.visible == s.world.visible
  {
    var run := HandleRun(TrainerOf(policy, f.controller), s.world.plants[f.controller], f.command, s.tape[0].delivery.env);
    StatesAreFew(TrainerOf(policy, f.controller), s.world.plants[f.controller], f.command, s.tape[0].delivery.env);
    hide HandleRun;
    assert Rest(Rest(s.tape)) == s.tape[2..] && Next(Rest(s.tape)) == s.tape[1];
    assert EventStates(TrainerOf(policy, f.controller), s.world.plants[f.controller],
                       Called(f.command, s.tape[0].delivery.env, s.tape[0].delivery.steps)) == run.states;
  }

  predicate AllDiffer(controllers: seq<ControllerPolicy>)
  {
    forall i, j | 0 <= i < j < |controllers| :: controllers[i].id != controllers[j].id
  }

  // The requests and snapshots of an admission, from the controller at `i` on: each
  // controller, as it is, completes its displacement, and each generation is one above the
  // last.
  predicate PromptFrom(policy: ResourcePolicy, s: Situation, l: nat, controllers: seq<ControllerPolicy>, i: nat)
  {
    && l in s.world.leases && i <= |controllers| && |s.tape| >= 2 * (|controllers| - i)
    && 0 <= s.last + 1 && (forall g | g in s.world.flights :: g.command.mutation < s.world.nextId)
    && forall j | i <= j < |controllers| :: PromptAt(policy, s, l, controllers, i, j)
  }

  predicate PromptAt(policy: ResourcePolicy, s: Situation, l: nat, controllers: seq<ControllerPolicy>, i: nat, j: nat)
    requires l in s.world.leases && i <= j < |controllers| && |s.tape| >= 2 * (|controllers| - i)
  {
    var a, b := s.tape[2 * (j - i)], s.tape[2 * (j - i) + 1];
    var lease := s.world.leases[l];
    && Prompt(a, b, controllers[j].id) && b.reading.snapshot.generation == s.last + 1 + j - i
    && CompletesOn(policy, s.world,
         Flight(controllers[j].id, SetMode(s.world.nextId + j - i, l, lease.fence, lease.epoch, j + 1, Mode.Released)), a)
  }

  // The journal an admission leaves.
  function Throttles(controllers: seq<ControllerPolicy>, i: nat, mutation: nat): (r: seq<Throttle>)
    requires i <= |controllers|
    ensures |r| == |controllers| - i
    ensures forall j | 0 <= j < |r| :: r[j] == Throttle(controllers[i + j].id, i + j + 1, mutation + j, true)
    decreases |controllers| - i
  {
    if i == |controllers| then []
    else [Throttle(controllers[i].id, i + 1, mutation, true)] + Throttles(controllers, i + 1, mutation + 1)
  }

  // Where the controller at `j` ends, and how its displacement is answered.
  function EndsAt(policy: ResourcePolicy, s: Situation, l: nat, controllers: seq<ControllerPolicy>, i: nat, j: nat): Plant
    requires l in s.world.leases && i <= j < |controllers| && |s.tape| >= 2 * (|controllers| - i) && controllers[j].id in s.world.plants
  {
    var lease := s.world.leases[l];
    var p := s.world.plants[controllers[j].id];
    Final(p, HandleRun(TrainerOf(policy, controllers[j].id), p,
               SetMode(s.world.nextId + j - i, l, lease.fence, lease.epoch, j + 1, Mode.Released), s.tape[2 * (j - i)].delivery.env).states)
  }

  // Where the whole ends.
  predicate AllEnded(policy: ResourcePolicy, s: Situation, l: nat, controllers: seq<ControllerPolicy>, i: nat, t: Situation)
    requires PromptFrom(policy, s, l, controllers, i)
  {
    && t.last == s.last + |controllers| - i && t.tape == s.tape[2 * (|controllers| - i)..]
    && t.world.visible == s.world.visible && t.world.running == s.world.running
    && t.world.flights == s.world.flights && t.world.nextId == s.world.nextId + |controllers| - i
    && t.world.leases == s.world.leases[l := s.world.leases[l].(
         throttle := s.world.leases[l].throttle + Throttles(controllers, i, s.world.nextId))]
    && t.world.plants.Keys == s.world.plants.Keys
    && (forall j | i <= j < |controllers| ::
          controllers[j].id in s.world.plants && t.world.plants[controllers[j].id] == EndsAt(policy, s, l, controllers, i, j))
    && (forall c | c in s.world.plants && (forall j | i <= j < |controllers| :: controllers[j].id != c) ::
          t.world.plants[c] == s.world.plants[c])
  }

  lemma {:induction false} PromptDisplaces(policy: ResourcePolicy, s: Situation, l: nat, controllers: seq<ControllerPolicy>, i: nat, floor: int)
    requires PromptFrom(policy, s, l, controllers, i) && AllDiffer(controllers) && floor <= s.last
    ensures DisplacesAll(policy, s, l, controllers, i, floor)
    ensures AllEnded(policy, s, l, controllers, i, DisplacedAll(policy, s, l, controllers, i, floor))
    decreases |controllers| - i
  {
    hide HandleRun, Succeeds, Exchanged, AllEnded;
    if i < |controllers| {
      OnePromptly(policy, s, l, controllers, i, floor);
      var t := DisplacedOne(policy, s, l, controllers[i], i + 1);
      hide PromptFrom, DisplacedOne, DisplacesOne;
      PromptDisplaces(policy, t, l, controllers, i + 1, t.last);
      EndedFurther(policy, s, l, controllers, i, t, DisplacedAll(policy, t, l, controllers, i + 1, t.last));
    } else {
      EndedNow(policy, s, l, controllers, i);
    }
  }

  lemma EndedNow(policy: ResourcePolicy, s: Situation, l: nat, controllers: seq<ControllerPolicy>, i: nat)
    requires PromptFrom(policy, s, l, controllers, i) && i == |controllers|
    ensures AllEnded(policy, s, l, controllers, i, s)
  {
    assert Throttles(controllers, i, s.world.nextId) == [];
    assert s.world.leases[l].throttle + [] == s.world.leases[l].throttle;
  }

  lemma EndedFurther(policy: ResourcePolicy, s: Situation, l: nat, controllers: seq<ControllerPolicy>, i: nat, u: Situation, t: Situation)
    requires i < |controllers| && AllDiffer(controllers)
    requires PromptFrom(policy, s, l, controllers, i) && PromptFrom(policy, u, l, controllers, i + 1)
    requires controllers[i].id in s.world.plants && OneEnded(policy, s, l, controllers, i, u)
    requires AllEnded(policy, u, l, controllers, i + 1, t)
    ensures AllEnded(policy, s, l, controllers, i, t)
  {
    hide HandleRun, EndsAt, CompletesOn, Prompt;
    var next := i + 1;
    PlantsFurther(policy, s, l, controllers, i, u, t);
    hide PromptAt;
    assert s.tape[2..][2 * (|controllers| - next)..] == s.tape[2 * (|controllers| - i)..];
    JournalFurther(s.world.leases, l, controllers, i, s.world.nextId);
  }

  lemma PlantsFurther(policy: ResourcePolicy, s: Situation, l: nat, controllers: seq<ControllerPolicy>, i: nat, u: Situation, t: Situation)
    requires i < |controllers| && AllDiffer(controllers)
    requires PromptFrom(policy, s, l, controllers, i) && PromptFrom(policy, u, l, controllers, i + 1)
    requires controllers[i].id in s.world.plants && OneEnded(policy, s, l, controllers, i, u)
    requires AllEnded(policy, u, l, controllers, i + 1, t)
    ensures t.world.plants.Keys == s.world.plants.Keys
    ensures forall j | i <= j < |controllers| ::
      controllers[j].id in s.world.plants && t.world.plants[controllers[j].id] == EndsAt(policy, s, l, controllers, i, j)
    ensures forall c | c in s.world.plants && (forall j | i <= j < |controllers| :: controllers[j].id != c) ::
      t.world.plants[c] == s.world.plants[c]
  {
    hide HandleRun, Prompt, Throttles;
    var next := i + 1;
    forall j | next <= j < |controllers|
      ensures controllers[j].id in s.world.plants && EndsAt(policy, u, l, controllers, next, j) == EndsAt(policy, s, l, controllers, i, j)
    {
      SameEnd(policy, s, l, controllers, i, u, j);
    }
    hide EndsAt, PromptAt, CompletesOn;
    forall j | i <= j < |controllers|
      ensures controllers[j].id in s.world.plants && t.world.plants[controllers[j].id] == EndsAt(policy, s, l, controllers, i, j)
    {
      if j > i {
        assert t.world.plants[controllers[j].id] == EndsAt(policy, u, l, controllers, next, j);
      } else {
        assert forall m | next <= m < |controllers| :: controllers[m].id != controllers[i].id;
      }
    }
  }

  lemma SameEnd(policy: ResourcePolicy, s: Situation, l: nat, controllers: seq<ControllerPolicy>, i: nat, u: Situation, j: nat)
    requires i < j < |controllers| && AllDiffer(controllers)
    requires PromptFrom(policy, s, l, controllers, i) && PromptFrom(policy, u, l, controllers, i + 1)
    requires controllers[i].id in s.world.plants && OneEnded(policy, s, l, controllers, i, u)
    ensures controllers[j].id in s.world.plants && EndsAt(policy, u, l, controllers, i + 1, j) == EndsAt(policy, s, l, controllers, i, j)
  {
    hide HandleRun, Throttles;
    assert PromptAt(policy, s, l, controllers, i, j);
    assert u.tape[2 * (j - i - 1)] == s.tape[2 * (j - i)];
  }

  lemma JournalFurther(leases: map<nat, Lease>, l: nat, controllers: seq<ControllerPolicy>, i: nat, m: nat)
    requires l in leases && i < |controllers|
    ensures var u := leases[l := leases[l].(throttle := leases[l].throttle + [Throttle(controllers[i].id, i + 1, m, true)])];
      u[l := u[l].(throttle := u[l].throttle + Throttles(controllers, i + 1, m + 1))]
      == leases[l := leases[l].(throttle := leases[l].throttle + Throttles(controllers, i, m))]
  {
    var one, more := [Throttle(controllers[i].id, i + 1, m, true)], Throttles(controllers, i + 1, m + 1);
    assert leases[l].throttle + one + more == leases[l].throttle + (one + more);
  }

  // Where one turn ends.
  predicate OneEnded(policy: ResourcePolicy, s: Situation, l: nat, controllers: seq<ControllerPolicy>, i: nat, t: Situation)
    requires l in s.world.leases && i < |controllers| && |s.tape| >= 2 * (|controllers| - i) && controllers[i].id in s.world.plants
  {
    && t.last == s.last + 1 && t.tape == s.tape[2..] && t.world.nextId == s.world.nextId + 1
    && t.world.visible == s.world.visible && t.world.running == s.world.running && t.world.flights == s.world.flights
    && t.world.leases == s.world.leases[l := s.world.leases[l].(
         throttle := s.world.leases[l].throttle + [Throttle(controllers[i].id, i + 1, s.world.nextId, true)])]
    && t.world.plants == s.world.plants[controllers[i].id := EndsAt(policy, s, l, controllers, i, i)]
  }

  lemma OnePromptly(policy: ResourcePolicy, s: Situation, l: nat, controllers: seq<ControllerPolicy>, i: nat, floor: int)
    requires PromptFrom(policy, s, l, controllers, i) && AllDiffer(controllers) && floor <= s.last && i < |controllers|
    ensures DisplacesOne(policy, s, l, controllers[i], i + 1, floor) && controllers[i].id in s.world.plants
    ensures var t := DisplacedOne(policy, s, l, controllers[i], i + 1);
      && PromptFrom(policy, t, l, controllers, i + 1)
      && OneEnded(policy, s, l, controllers, i, t)
  {
    hide HandleRun, Succeeds, Exchanged;
    var k := controllers[i];
    assert PromptAt(policy, s, l, controllers, i, i);
    var journaled := Journaled(s, l, k, i + 1);
    PromptSucceeds(policy, journaled, Displacement(s, l, k, i + 1), floor);
    var t := DisplacedOne(policy, s, l, k, i + 1);
    var next := i + 1;
    forall j | next <= j < |controllers| ensures PromptAt(policy, t, l, controllers, next, j) {
      assert PromptAt(policy, s, l, controllers, i, j);
      assert t.tape[2 * (j - next)] == s.tape[2 * (j - i)] && t.tape[2 * (j - next) + 1] == s.tape[2 * (j - i) + 1];
    }
  }

  // -------------------------------------------------------------------------- admission

  function TrainingsFrom(controllers: seq<ControllerPolicy>, i: nat): nat
    decreases |controllers| - i
  {
    if i >= |controllers| then 0 else (if controllers[i].training then 1 else 0) + TrainingsFrom(controllers, i + 1)
  }

  lemma {:induction false} QuantaReadKeeps(s: Situation, controllers: seq<ControllerPolicy>, i: nat)
    requires i <= |controllers| && TrainingsFrom(controllers, i) <= |s.tape|
    ensures var t := QuantaRead(s, controllers, i);
      && t.last == s.last && t.tape == s.tape[TrainingsFrom(controllers, i)..]
      && t.world == s.world.(clock := t.world.clock, quanta := t.world.quanta)
    decreases |controllers| - i
  {
    if i < |controllers| {
      var t := if controllers[i].training then QuantumRead(s, controllers[i].id) else s;
      QuantaReadKeeps(t, controllers, i + 1);
    }
  }

  // The probe answers at once, and its generation is the next.
  predicate Steady(i: Input, last: int)
  {
    i.events == [] && !i.reading.fails && i.reading.snapshot.generation == last + 1
  }

  // Where the displacements start, but for what reading the clock has changed.
  function Opening(s: Situation, plan: Plan, epoch: nat, skip: nat): Situation
    requires skip <= |s.tape|
  {
    LeaseOpened(Situation(s.world, s.tape[skip..], s.last + 1), plan, epoch)
  }

  // A host on which an admission can go through: the probe shows an admissible host before
  // and after; every training controller among the chosen has had its minimum time; and each
  // chosen controller completes its displacement and is shown. Between the first snapshot
  // and the first command, one input is used for the clock and one for each quantum.
  predicate SmoothAdmission(policy: ResourcePolicy, s: Situation, plan: Plan, epoch: nat)
  {
    var controllers := ControllersFor(policy, plan);
    var n, skip := |controllers|, 2 + TrainingsFrom(controllers, 0);
    && |s.tape| > skip + 2 * n && -1 <= s.last && s.world.visible == {}
    && Steady(s.tape[0], s.last) && ValidateSnapshot(policy, s.tape[0].reading.snapshot, plan, false).None?
    && (forall k | k in controllers && k.training ::
          k.id in s.world.quanta && s.world.quanta[k.id] + k.minimumNormal <= s.world.clock)
    && PromptFrom(policy, Opening(s, plan, epoch, skip), s.world.nextId, controllers, 0)
    && Steady(s.tape[skip + 2 * n], s.last + 1 + n)
    && ValidateSnapshot(policy, s.tape[skip + 2 * n].reading.snapshot, plan, true).None?
    && ValidateCompatibility(s.tape[skip + 2 * n].reading.snapshot, plan).None?
  }

  lemma SeenAsRead(policy: ResourcePolicy, s: Situation, plan: Plan, capacity: bool)
    requires s.tape != [] && Steady(s.tape[0], s.last) && s.world.visible == {}
    ensures Looked(policy, s) == Situation(s.world, s.tape[1..], s.last + 1)
    ensures ValidateSnapshot(policy, Seen(policy, s), plan, capacity) == ValidateSnapshot(policy, s.tape[0].reading.snapshot, plan, capacity)
    ensures ValidateCompatibility(Seen(policy, s), plan) == ValidateCompatibility(s.tape[0].reading.snapshot, plan)
  {
    assert ProfilesVisible(s.world) == {};
    assert s.tape[0].reading.snapshot.active + {} == s.tape[0].reading.snapshot.active;
  }

  lemma SamePrompt(policy: ResourcePolicy, s: Situation, t: Situation, l: nat, controllers: seq<ControllerPolicy>)
    requires t == s.(world := s.world.(clock := t.world.clock, quanta := t.world.quanta))
    ensures PromptFrom(policy, s, l, controllers, 0) ==> PromptFrom(policy, t, l, controllers, 0)
  {
    hide HandleRun, Prompt;
    if PromptFrom(policy, s, l, controllers, 0) {
      forall j | 0 <= j < |controllers| ensures PromptAt(policy, t, l, controllers, 0, j) {
        assert PromptAt(policy, s, l, controllers, 0, j);
      }
    }
  }

  // Such an admission succeeds, and leaves every chosen controller where its displacement
  // takes it.
  lemma SmoothIsAdmitted(policy: ResourcePolicy, s: Situation, plan: Plan, epoch: nat)
    requires PolicyOk(policy) && SmoothAdmission(policy, s, plan, epoch)
    ensures Admissible(policy, s, plan, epoch)
  {
    hide PromptFrom, AllEnded, ControllersFor, DisplacesAll, DisplacedAll, PromptAt;
    var controllers := ControllersFor(policy, plan);
    SmoothIsPrepared(policy, s, plan, epoch);
    var t := Prepared(policy, s, plan);
    var start := LeaseOpened(t, plan, epoch);
    ControllersDistinct(policy, plan);
    PromptDisplaces(policy, start, s.world.nextId, controllers, 0, Generation(s));
    var u := DisplacedAll(policy, start, s.world.nextId, controllers, 0, Generation(s));
    EndedWell(policy, start, s.world.nextId, controllers, u);
    assert u.tape[0] == s.tape[2 + TrainingsFrom(controllers, 0) + 2 * |controllers|];
    SeenAsRead(policy, u, plan, true);
  }

  lemma EndedWell(policy: ResourcePolicy, s: Situation, l: nat, controllers: seq<ControllerPolicy>, t: Situation)
    requires PromptFrom(policy, s, l, controllers, 0) && AllEnded(policy, s, l, controllers, 0, t)
    ensures 2 * |controllers| <= |s.tape| && t.tape == s.tape[2 * |controllers|..]
    ensures t.last == s.last + |controllers| && t.world.visible == s.world.visible
  {
  }

  lemma SmoothIsPrepared(policy: ResourcePolicy, s: Situation, plan: Plan, epoch: nat)
    requires SmoothAdmission(policy, s, plan, epoch)
    ensures Prepares(policy, s, plan)
    ensures var t := Prepared(policy, s, plan);
      && t.tape == s.tape[2 + TrainingsFrom(ControllersFor(policy, plan), 0)..] && t.last == s.last + 1 == Generation(s)
      && t.world == s.world.(clock := t.world.clock, quanta := t.world.quanta)
      && PromptFrom(policy, LeaseOpened(t, plan, epoch), s.world.nextId, ControllersFor(policy, plan), 0)
  {
    hide PromptFrom, ControllersFor, ValidateSnapshot, ValidateCompatibility, SnapshotOf, Evolve;
    var controllers := ControllersFor(policy, plan);
    SeenAsRead(policy, s, plan, false);
    var t := Clocked(Looked(policy, s));
    PastQuantaWhen(t, controllers, 0, t.world.clock);
    QuantaReadKeeps(t, controllers, 0);
    var u := Prepared(policy, s, plan);
    assert s.tape[1..][1..] == s.tape[2..];
    assert s.tape[2..][TrainingsFrom(controllers, 0)..] == s.tape[2 + TrainingsFrom(controllers, 0)..];
    SamePrompt(policy, Opening(s, plan, epoch, 2 + TrainingsFrom(controllers, 0)), LeaseOpened(u, plan, epoch), s.world.nextId, controllers);
  }

  // -------------------------------------------------------------------------- restoring

  predicate EachOnce(throttled: seq<Throttle>)
  {
    forall i, j | 0 <= i < j < |throttled| :: throttled[i].controller != throttled[j].controller
  }

  // The requests and snapshots that undo the first `i` entries of the journal.
  predicate PromptBack(policy: ResourcePolicy, s: Situation, l: nat, throttled: seq<Throttle>, i: nat, epoch: nat, recovery: Option<nat>)
  {
    && l in s.world.leases && i <= |throttled| && |s.tape| >= 2 * i
    && 0 <= s.last + 1 && (forall g | g in s.world.flights :: g.command.mutation < s.world.nextId)
    && forall m | 0 <= m < i :: BackAt(policy, s, l, throttled, i, m, epoch, recovery)
  }

  predicate BackAt(policy: ResourcePolicy, s: Situation, l: nat, throttled: seq<Throttle>, i: nat, m: nat, epoch: nat, recovery: Option<nat>)
    requires l in s.world.leases && m < i <= |throttled| && |s.tape| >= 2 * i
  {
    var item := throttled[i - 1 - m];
    var later := s.(world := s.world.(nextId := s.world.nextId + m));
    && Prompt(s.tape[2 * m], s.tape[2 * m + 1], item.controller)
    && s.tape[2 * m + 1].reading.snapshot.generation == s.last + 1 + m
    && (exists k | k in policy.controllers :: k.id == item.controller)
    && CompletesOn(policy, s.world, Restoration(later, l, item, epoch, |throttled| - i + 1 + m, recovery), s.tape[2 * m])
  }

  // What undoing leaves as it was.
  predicate BackEnded(s: Situation, i: nat, t: Situation)
  {
    && |s.tape| >= 2 * i && t.tape == s.tape[2 * i..] && t.last == s.last + i
    && t.world.leases == s.world.leases && t.world.visible == s.world.visible
  }

  lemma {:induction false} PromptRestores(policy: ResourcePolicy, s: Situation, l: nat, throttled: seq<Throttle>, i: nat, epoch: nat,
                                          recovery: Option<nat>, floor: int)
    requires PromptBack(policy, s, l, throttled, i, epoch, recovery) && EachOnce(throttled) && floor <= s.last
    ensures RestoresAll(policy, s, l, throttled, i, epoch, recovery, floor)
    ensures BackEnded(s, i, RestoredAll(policy, s, l, throttled, i, epoch, recovery, floor))
    decreases i
  {
    hide HandleRun, Succeeds, Exchanged;
    if i > 0 {
      OneBack(policy, s, l, throttled, i, epoch, recovery, floor);
      var t := RestoredOne(policy, s, l, throttled[i - 1], epoch, |throttled| - i + 1, recovery);
      hide PromptBack, RestoredOne, RestoresOne;
      PromptRestores(policy, t, l, throttled, i - 1, epoch, recovery, t.last);
      assert s.tape[2..][2 * (i - 1)..] == s.tape[2 * i..];
    }
  }

  lemma OneBack(policy: ResourcePolicy, s: Situation, l: nat, throttled: seq<Throttle>, i: nat, epoch: nat, recovery: Option<nat>, floor: int)
    requires 0 < i && PromptBack(policy, s, l, throttled, i, epoch, recovery) && EachOnce(throttled) && floor <= s.last
    ensures RestoresOne(policy, s, l, throttled[i - 1], epoch, |throttled| - i + 1, recovery, floor)
    ensures throttled[i - 1].controller in s.world.plants
    ensures var t := RestoredOne(policy, s, l, throttled[i - 1], epoch, |throttled| - i + 1, recovery);
      && PromptBack(policy, t, l, throttled, i - 1, epoch, recovery)
      && |s.tape| >= 2 && t.tape == s.tape[2..] && t.last == s.last + 1
      && t.world.leases == s.world.leases && t.world.visible == s.world.visible
  {
    hide HandleRun, Succeeds, Exchanged;
    assert BackAt(policy, s, l, throttled, i, 0, epoch, recovery);
    var f := Restoration(s, l, throttled[i - 1], epoch, |throttled| - i + 1, recovery);
    PromptSucceeds(policy, IdDrawn(s), f, floor);
    var t := RestoredOne(policy, s, l, throttled[i - 1], epoch, |throttled| - i + 1, recovery);
    var fewer := i - 1;
    forall m | 0 <= m < fewer ensures BackAt(policy, t, l, throttled, fewer, m, epoch, recovery) {
      var next := m + 1;
      assert BackAt(policy, s, l, throttled, i, next, epoch, recovery);
      assert t.tape[2 * m] == s.tape[2 * next] && t.tape[2 * m + 1] == s.tape[2 * next + 1];
      assert throttled[fewer - 1 - m].controller != throttled[i - 1].controller;
    }
  }

  // The snapshot that closes a restoration.
  predicate ShowsBack(policy: ResourcePolicy, reading: Reading, throttled: seq<Throttle>, profile: string, absent: bool)
  {
    && (forall j, k | 0 <= j < |throttled| && k in policy.controllers && k.id == throttled[j].controller ::
          k.profile in reading.snapshot.active && k.profile in reading.snapshot.profiles && reading.snapshot.profiles[k.profile])
    && (absent ==> IsAbsent(reading.snapshot, profile))
  }

  lemma PromptIsVerified(policy: ResourcePolicy, s: Situation, l: nat, throttled: seq<Throttle>, epoch: nat, recovery: Option<nat>,
                         floor: int, absent: bool)
    requires PromptBack(policy, s, l, throttled, |throttled|, epoch, recovery) && EachOnce(throttled) && floor <= s.last
    requires s.world.visible == {} && |s.tape| > 2 * |throttled| && Steady(s.tape[2 * |throttled|], s.last + |throttled|)
    requires ShowsBack(policy, s.tape[2 * |throttled|].reading, throttled, s.world.leases[l].profile, absent)
    ensures RestoresVerified(policy, s, l, throttled, epoch, recovery, floor, absent)
  {
    assert l in s.world.leases && 0 <= s.last + 1;
    hide PromptBack, RestoresAll, RestoredAll, Evolve;
    PromptRestores(policy, s, l, throttled, |throttled|, epoch, recovery, floor);
    var t := RestoredAll(policy, s, l, throttled, |throttled|, epoch, recovery, floor);
    assert t.tape[0] == s.tape[2 * |throttled|];
    SeenAsShown(policy, t);
  }

  lemma SeenAsShown(policy: ResourcePolicy, s: Situation)
    requires s.tape != [] && Steady(s.tape[0], s.last) && s.world.visible == {}
    ensures Looked(policy, s) == Situation(s.world, s.tape[1..], s.last + 1)
    ensures Seen(policy, s).(states := s.tape[0].reading.snapshot.states) == s.tape[0].reading.snapshot
  {
    assert ProfilesVisible(s.world) == {};
    assert s.tape[0].reading.snapshot.active + {} == s.tape[0].reading.snapshot.active;
  }

  // A release over a host whose probe shows the profile gone, whose controllers complete
  // their restorations, and which then shows them back.
  lemma SmoothIsUndone(policy: ResourcePolicy, s: Situation, l: nat, throttled: seq<Throttle>, epoch: nat)
    requires l in s.world.leases && s.world.visible == {} && -1 <= s.last && EachOnce(throttled)
    requires |s.tape| > 1 + 2 * |throttled| && Steady(s.tape[0], s.last) && IsAbsent(s.tape[0].reading.snapshot, s.world.leases[l].profile)
    requires PromptBack(policy, Situation(s.world, s.tape[1..], s.last + 1), l, throttled, |throttled|, epoch, None)
    requires Steady(s.tape[1 + 2 * |throttled|], s.last + 1 + |throttled|)
    requires ShowsBack(policy, s.tape[1 + 2 * |throttled|].reading, throttled, s.world.leases[l].profile, true)
    ensures Undoes(policy, s, l, throttled, epoch, true, true)
  {
    hide PromptBack, RestoresVerified, Evolve;
    SeenAsShown(policy, s);
    var t := Looked(policy, s);
    PromptIsVerified(policy, t, l, throttled, epoch, None, if throttled == [] then -1 else Generation(s), true);
  }

  // And so for a restart that takes the controllers over.
  lemma SmoothIsRecovered(policy: ResourcePolicy, s: Situation, l: nat, epoch: nat)
    requires l in s.world.leases && s.world.visible == {} && -1 <= s.last && EachOnce(s.world.leases[l].throttle)
    requires var throttled := s.world.leases[l].throttle;
      && |s.tape| > 1 + 2 * |throttled| && Steady(s.tape[0], s.last) && IsAbsent(s.tape[0].reading.snapshot, s.world.leases[l].profile)
      && PromptBack(policy, IdDrawn(Situation(s.world, s.tape[1..], s.last + 1)), l, throttled, |throttled|, epoch, Some(s.world.nextId))
      && Steady(s.tape[1 + 2 * |throttled|], s.last + 1 + |throttled|)
      && ShowsBack(policy, s.tape[1 + 2 * |throttled|].reading, throttled, s.world.leases[l].profile, true)
    ensures Recovers(policy, s, l, epoch)
  {
    hide PromptBack, RestoresVerified, Evolve;
    SeenAsShown(policy, s);
    var t := Looked(policy, s);
    PromptIsVerified(policy, IdDrawn(t), l, s.world.leases[l].throttle, epoch, Some(s.world.nextId), Generation(s), true);
  }

  // Where such an admission ends: the lease active, its journal full, and each chosen
  // controller where its own displacement has taken it.
  lemma SmoothEnds(policy: ResourcePolicy, s: Situation, plan: Plan, epoch: nat)
    requires PolicyOk(policy) && SmoothAdmission(policy, s, plan, epoch) && Admissible(policy, s, plan, epoch)
    ensures
      var t := AdmittedAt(policy, s, plan, epoch);
      var controllers := ControllersFor(policy, plan);
      var l := s.world.nextId;
      var start := Opening(s, plan, epoch, 2 + TrainingsFrom(controllers, 0));
      && t.last == s.last + 2 + |controllers| && t.world.visible == {} && t.world.running == s.world.running
      && t.world.flights == s.world.flights && l in t.world.leases
      && t.world.leases[l] == start.world.leases[l].(status := Active, throttle := Throttles(controllers, 0, l + 2))
      && forall j | 0 <= j < |controllers| ::
           && controllers[j].id in start.world.plants && controllers[j].id in t.world.plants
           && t.world.plants[controllers[j].id] == EndsAt(policy, start, l, controllers, 0, j)
  {
    hide PromptFrom, AllEnded, ControllersFor, DisplacesAll, DisplacedAll, PromptAt, EndsAt, Evolve, Confirmed, Confirms, Prepared, Prepares;
    var controllers := ControllersFor(policy, plan);
    SmoothIsPrepared(policy, s, plan, epoch);
    var u := Prepared(policy, s, plan);
    var start := LeaseOpened(u, plan, epoch);
    var l := s.world.nextId;
    ControllersDistinct(policy, plan);
    PromptDisplaces(policy, start, l, controllers, 0, Generation(s));
    var v := DisplacedAll(policy, start, l, controllers, 0, Generation(s));
    EndedWell(policy, start, l, controllers, v);
    EndedRows(policy, start, l, controllers, v);
    assert v.tape[0] == s.tape[2 + TrainingsFrom(controllers, 0) + 2 * |controllers|];
    ConfirmedEnds(policy, v, l);
    SameStart(policy, Opening(s, plan, epoch, 2 + TrainingsFrom(controllers, 0)), start, l, controllers);
  }

  lemma ConfirmedEnds(policy: ResourcePolicy, s: Situation, l: nat)
    requires l in s.world.leases && s.tape != [] && Steady(s.tape[0], s.last) && s.world.visible == {}
    ensures Confirmed(policy, s, l).last == s.last + 1
    ensures Confirmed(policy, s, l).world == s.world.(leases := s.world.leases[l := s.world.leases[l].(status := Active)])
  {
    hide Evolve;
    SeenAsShown(policy, s);
  }

  lemma EndedRows(policy: ResourcePolicy, s: Situation, l: nat, controllers: seq<ControllerPolicy>, t: Situation)
    requires PromptFrom(policy, s, l, controllers, 0) && AllEnded(policy, s, l, controllers, 0, t)
    requires s.world.leases[l].throttle == []
    ensures l in t.world.leases && t.world.leases[l] == s.world.leases[l].(throttle := Throttles(controllers, 0, s.world.nextId))
    ensures t.world.flights == s.world.flights && t.world.running == s.world.running
    ensures forall j | 0 <= j < |controllers| ::
      && controllers[j].id in s.world.plants && controllers[j].id in t.world.plants
      && t.world.plants[controllers[j].id] == EndsAt(policy, s, l, controllers, 0, j)
  {
    hide EndsAt;
    assert [] + Throttles(controllers, 0, s.world.nextId) == Throttles(controllers, 0, s.world.nextId);
  }

  lemma SameStart(policy: ResourcePolicy, s: Situation, t: Situation, l: nat, controllers: seq<ControllerPolicy>)
    requires t == s.(world := s.world.(clock := t.world.clock, quanta := t.world.quanta))
    requires l in s.world.leases && |s.tape| >= 2 * |controllers|
    ensures forall j | 0 <= j < |controllers| && controllers[j].id in s.world.plants ::
      EndsAt(policy, s, l, controllers, 0, j) == EndsAt(policy, t, l, controllers, 0, j)
  {
    hide HandleRun;
  }
}
