// Whole rounds that go through: on a host whose controllers are at rest and answer, and whose
// trainers publish as they are stopped, an admission displaces them all, a release brings
// them all back, and so does the next process if this one crashes before the release.
module Rounds {
  import opened Wrappers
  import opened Protocol
  import opened Controller
  import opened ControllerSteps
  import opened ControllerRuns
  import opened PlantMoves
  import opened Takeovers
  import opened Worlds
  import opened BrokerSteps
  import opened Wedges
  import opened Host
  import opened Admission
  import opened Outcomes
  import opened CoordinatorProofs
  import opened Coordinator
  import opened Runs
  import opened Scripts
  import opened Smooth

  // The trainer publishes something new as its unit is stopped.
  function StopOf(plants: map<string, Plant>, c: string): UnitEnv
  {
    StopsWith(NextPublication(if c in plants then LastPublished(plants[c]) else None))
  }

  // The probe's answer, with the given generation.
  function Shown(s: Snapshot, generation: int): Input
  {
    Input([], 0, NO_DELIVERY, Reading(false, {}, s.(generation := generation)))
  }

  // -------------------------------------------------------------------------- admission

  function Stops(plants: map<string, Plant>, controllers: seq<ControllerPolicy>, shown: Snapshot, last: int): seq<Input>
  {
    seq(2 * |controllers|, m requires 0 <= m < 2 * |controllers| =>
      if m % 2 == 0 then AtOnce(StopOf(plants, controllers[m / 2].id)) else Shown(shown, last + 1 + m / 2))
  }

  function AdmissionTape(policy: ResourcePolicy, plants: map<string, Plant>, plan: Plan, before: Snapshot, after: Snapshot, last: int)
    : seq<Input>
  {
    var controllers := ControllersFor(policy, plan);
    [Shown(before, last + 1)] + seq(1 + TrainingsFrom(controllers, 0), _ => NO_INPUT)
    + Stops(plants, controllers, after, last + 1) + [Shown(after, last + 2 + |controllers|)]
  }

  // The plan's controllers are at rest and past their quantum, and the probe's snapshots are
  // admissible.
  ghost predicate Hospitable(policy: ResourcePolicy, w: World, plan: Plan, before: Snapshot, after: Snapshot, epoch: nat)
  {
    && policy.requireProbe && plan.resourceGroup.Some? && plan.mode != NoLease
    && AllClosed(w) && w.visible == {}
    && (forall k | k in ControllersFor(policy, plan) ::
          && k.id in w.plants && AtRest(w.plants[k.id], epoch)
          && (k.training ==> k.id in w.quanta && w.quanta[k.id] + k.minimumNormal <= w.clock))
    && ValidateSnapshot(policy, before, plan, false).None?
    && ValidateSnapshot(policy, after, plan, true).None? && ValidateCompatibility(after, plan).None?
  }

  lemma Joined<T>(first: T, gap: seq<T>, middle: seq<T>, last: T)
    ensures var all := [first] + gap + middle + [last];
      && |all| == |gap| + |middle| + 2 && all[0] == first && all[1 + |gap| + |middle|] == last
      && forall m | 0 <= m < |middle| :: all[1 + |gap|..][m] == middle[m]
  {
  }

  lemma StopsParts(plants: map<string, Plant>, controllers: seq<ControllerPolicy>, shown: Snapshot, last: int)
    ensures var stops := Stops(plants, controllers, shown, last);
      && |stops| == 2 * |controllers|
      && (forall j | 0 <= j < |controllers| :: stops[2 * j] == AtOnce(StopOf(plants, controllers[j].id)))
      && (forall j | 0 <= j < |controllers| :: stops[2 * j + 1] == Shown(shown, last + 1 + j))
  {
    hide StopOf, AtOnce, Shown;
  }

  lemma TapeParts(policy: ResourcePolicy, plants: map<string, Plant>, plan: Plan, before: Snapshot, after: Snapshot, last: int)
    ensures
      var tape, controllers := AdmissionTape(policy, plants, plan, before, after, last), ControllersFor(policy, plan);
      var n, skip := |controllers|, 2 + TrainingsFrom(controllers, 0);
      && |tape| == skip + 2 * n + 1 && tape[0] == Shown(before, last + 1) && tape[skip + 2 * n] == Shown(after, last + 2 + n)
      && (forall j | 0 <= j < n :: tape[skip..][2 * j] == AtOnce(StopOf(plants, controllers[j].id)))
      && (forall j | 0 <= j < n :: tape[skip..][2 * j + 1] == Shown(after, last + 2 + j))
  {
    hide ControllersFor, StopOf, AtOnce, Shown, Stops, TrainingsFrom;
    var controllers := ControllersFor(policy, plan);
    var stops := Stops(plants, controllers, after, last + 1);
    StopsParts(plants, controllers, after, last + 1);
    var gap := seq(1 + TrainingsFrom(controllers, 0), _ => NO_INPUT);
    Joined(Shown(before, last + 1), gap, stops, Shown(after, last + 2 + |controllers|));
  }

  lemma JudgedAlike(policy: ResourcePolicy, s: Snapshot, plan: Plan, generation: int)
    ensures ValidateSnapshot(policy, s.(generation := generation), plan, false) == ValidateSnapshot(policy, s, plan, false)
    ensures ValidateSnapshot(policy, s.(generation := generation), plan, true) == ValidateSnapshot(policy, s, plan, true)
    ensures ValidateCompatibility(s.(generation := generation), plan) == ValidateCompatibility(s, plan)
  {
  }

  lemma RestingIsSmooth(policy: ResourcePolicy, s: Situation, plan: Plan, before: Snapshot, after: Snapshot, epoch: nat)
    requires Inv(policy, s.world) && Hospitable(policy, s.world, plan, before, after, epoch) && 1 <= epoch && -1 <= s.last
    requires s.tape == AdmissionTape(policy, s.world.plants, plan, before, after, s.last)
    ensures SmoothAdmission(policy, s, plan, epoch)
  {
    hide ControllersFor, AdmissionTape, Inv, PromptFrom, ValidateSnapshot, ValidateCompatibility, AtRest, Opening, StopOf;
    JudgedAlike(policy, before, plan, s.last + 1);
    JudgedAlike(policy, after, plan, s.last + 2 + |ControllersFor(policy, plan)|);
    TapeParts(policy, s.world.plants, plan, before, after, s.last);
    StopsArePrompt(policy, s, plan, before, after, epoch);
  }

  lemma StopsArePrompt(policy: ResourcePolicy, s: Situation, plan: Plan, before: Snapshot, after: Snapshot, epoch: nat)
    requires Inv(policy, s.world) && Hospitable(policy, s.world, plan, before, after, epoch) && 1 <= epoch && -1 <= s.last
    requires s.tape == AdmissionTape(policy, s.world.plants, plan, before, after, s.last)
    ensures var skip := 2 + TrainingsFrom(ControllersFor(policy, plan), 0);
      skip <= |s.tape| && PromptFrom(policy, Opening(s, plan, epoch, skip), s.world.nextId, ControllersFor(policy, plan), 0)
  {
    hide HandleRun, ControllersFor, AdmissionTape, Inv, StopOf, Hospitable, Evolve;
    var controllers := ControllersFor(policy, plan);
    TapeParts(policy, s.world.plants, plan, before, after, s.last);
    var start := Opening(s, plan, epoch, 2 + TrainingsFrom(controllers, 0));
    FlightsAreOlder(policy, s.world);
    forall j | 0 <= j < |controllers| ensures PromptAt(policy, start, s.world.nextId, controllers, 0, j) {
      StopAt(policy, s, plan, before, after, epoch, j);
    }
  }

  lemma StopAt(policy: ResourcePolicy, s: Situation, plan: Plan, before: Snapshot, after: Snapshot, epoch: nat, j: nat)
    requires Inv(policy, s.world) && Hospitable(policy, s.world, plan, before, after, epoch) && 1 <= epoch
    requires j < |ControllersFor(policy, plan)|
    ensures var c := ControllersFor(policy, plan)[j].id;
      && c in s.world.plants
      && var env := StopOf(s.world.plants, c);
         var run := HandleRun(TrainerOf(policy, c), s.world.plants[c], Stopping(s.world.nextId, epoch, j), CallEnv(env, env));
         && run.out.Ok? && Displaced(Final(s.world.plants[c], run.states))
         && Current(Final(s.world.plants[c], run.states)) == Stopping(s.world.nextId, epoch, j)
  {
    hide HandleRun, ControllersFor, ValidateSnapshot, ValidateCompatibility, Inv, AtRest, StopOf, Displaced;
    var controllers := ControllersFor(policy, plan);
    assert controllers[j] in controllers;
    StopIsPrompt(policy, s.world, controllers[j].id, Stopping(s.world.nextId, epoch, j));
  }

  // The displacement of the controller at `j` under a lease opened now.
  function Stopping(l: nat, epoch: nat, j: nat): Command
  {
    SetMode(l + 2 + j, l, l + 1, epoch, j + 1, Mode.Released)
  }

  lemma StopIsPrompt(policy: ResourcePolicy, w: World, c: string, x: Command)
    requires Inv(policy, w) && c in w.plants && AtRest(w.plants[c], x.epoch)
    requires ValidCommand(x) && x.SetMode? && x.target.Released?
    ensures
      var env := StopOf(w.plants, c);
      var run := HandleRun(TrainerOf(policy, c), w.plants[c], x, CallEnv(env, env));
      run.out.Ok? && Displaced(Final(w.plants[c], run.states)) && Current(Final(w.plants[c], run.states)) == x
  {
    hide HandleRun;
    RecordFacts(policy, w, c);
    RestingIsReleased(TrainerOf(policy, c), w.plants[c], x);
  }

  lemma FlightsAreOlder(policy: ResourcePolicy, w: World)
    requires Inv(policy, w)
    ensures forall f | f in w.flights :: f.command.mutation < w.nextId
  {
    forall f | f in w.flights ensures f.command.mutation < w.nextId {
      assert Deliverable(policy, w, f);
    }
  }

  // Each of the controllers in turn is parked under the lease.
  ghost predicate Parked(w: World, l: nat, controllers: seq<ControllerPolicy>)
  {
    && l in w.leases && |w.leases[l].throttle| == |controllers|
    && forall j | 0 <= j < |controllers| :: ParkedAt(w, l, controllers, j)
  }

  ghost predicate ParkedAt(w: World, l: nat, controllers: seq<ControllerPolicy>, j: nat)
    requires l in w.leases && |w.leases[l].throttle| == |controllers| && j < |controllers|
  {
    var item := w.leases[l].throttle[j];
    && item.controller == controllers[j].id && item.generation == j + 1
    && controllers[j].id in w.plants
    && var p := w.plants[controllers[j].id];
       && Displaced(p) && Current(p).lease == l && Current(p).fence == w.leases[l].fence
       && Current(p).epoch == w.leases[l].epoch && Current(p).generation == j + 1
  }

  lemma EndsParked(policy: ResourcePolicy, s: Situation, plan: Plan, epoch: nat, before: Snapshot, after: Snapshot, start: Situation, j: nat)
    requires Inv(policy, s.world) && 1 <= epoch && Hospitable(policy, s.world, plan, before, after, epoch)
    requires s.tape == AdmissionTape(policy, s.world.plants, plan, before, after, s.last)
    requires 2 + TrainingsFrom(ControllersFor(policy, plan), 0) <= |s.tape|
    requires start == Opening(s, plan, epoch, 2 + TrainingsFrom(ControllersFor(policy, plan), 0)) && j < |ControllersFor(policy, plan)|
    ensures ControllersFor(policy, plan)[j].id in start.world.plants && |start.tape| >= 2 * |ControllersFor(policy, plan)|
    ensures
      var q := EndsAt(policy, start, s.world.nextId, ControllersFor(policy, plan), 0, j);
      Displaced(q) && Current(q) == Stopping(s.world.nextId, epoch, j)
  {
    hide HandleRun, ControllersFor, AdmissionTape, Inv, StopOf, Hospitable, Displaced;
    var controllers := ControllersFor(policy, plan);
    TapeParts(policy, s.world.plants, plan, before, after, s.last);
    StopAt(policy, s, plan, before, after, epoch, j);
  }

  lemma SmoothIsParked(policy: ResourcePolicy, s: Situation, plan: Plan, before: Snapshot, after: Snapshot, epoch: nat)
    requires Inv(policy, s.world) && PolicyOk(policy) && 1 <= epoch && -1 <= s.last
    requires Hospitable(policy, s.world, plan, before, after, epoch)
    requires s.tape == AdmissionTape(policy, s.world.plants, plan, before, after, s.last)
    ensures Admissible(policy, s, plan, epoch)
    ensures var t := AdmittedAt(policy, s, plan, epoch);
      && Parked(t.world, s.world.nextId, ControllersFor(policy, plan)) && t.world.visible == {} && -1 <= t.last
  {
    hide HandleRun, ControllersFor, ValidateSnapshot, ValidateCompatibility, Admissible, AdmittedAt, SmoothAdmission, AdmissionTape;
    hide Inv, AtRest, StopOf, Displaced, EndsAt, Hospitable;
    RestingIsSmooth(policy, s, plan, before, after, epoch);
    SmoothIsAdmitted(policy, s, plan, epoch);
    SmoothEnds(policy, s, plan, epoch);
    TapeParts(policy, s.world.plants, plan, before, after, s.last);
    var t := AdmittedAt(policy, s, plan, epoch);
    var controllers := ControllersFor(policy, plan);
    var l := s.world.nextId;
    var start := Opening(s, plan, epoch, 2 + TrainingsFrom(controllers, 0));
    forall j | 0 <= j < |controllers| ensures ParkedAt(t.world, l, controllers, j) {
      EndsParked(policy, s, plan, epoch, before, after, start, j);
    }
  }

  // ------------------------------------------------------------------------- the way back

  function Starts(n: nat, shown: Snapshot, last: int): seq<Input>
  {
    seq(2 * n, m requires 0 <= m < 2 * n => if m % 2 == 0 then AtOnce(STARTS) else Shown(shown, last + 1 + m / 2))
  }

  function ReturnTape(n: nat, gone: Snapshot, back: Snapshot, last: int): seq<Input>
  {
    [Shown(gone, last + 1)] + Starts(n, back, last + 1) + [Shown(back, last + 2 + n)]
  }

  lemma ReturnParts(n: nat, gone: Snapshot, back: Snapshot, last: int)
    ensures
      var tape := ReturnTape(n, gone, back, last);
      && |tape| == 2 * n + 2 && tape[0] == Shown(gone, last + 1) && tape[1 + 2 * n] == Shown(back, last + 2 + n)
      && (forall m | 0 <= m < n :: tape[1..][2 * m] == AtOnce(STARTS))
      && (forall m | 0 <= m < n :: tape[1..][2 * m + 1] == Shown(back, last + 2 + m))
  {
    assert ReturnTape(n, gone, back, last)[1..] == Starts(n, back, last + 1) + [Shown(back, last + 2 + n)];
  }

  // The probe shows the leased profile gone, and then, besides, each displaced controller's
  // own profile back and healthy.
  predicate Cleared(plan: Plan, controllers: seq<ControllerPolicy>, gone: Snapshot, back: Snapshot)
  {
    && IsAbsent(gone, plan.profile) && IsAbsent(back, plan.profile)
    && forall k | k in controllers :: k.profile in back.active && k.profile in back.profiles && back.profiles[k.profile]
  }

  predicate AllSound(w: World)
  {
    forall c | c in w.plants :: Sound(w.plants[c])
  }

  lemma InvIsSound(policy: ResourcePolicy, w: World)
    requires Inv(policy, w)
    ensures AllSound(w) && forall f | f in w.flights :: f.command.mutation < w.nextId
  {
    hide Sound;
    forall c | c in w.plants ensures Sound(w.plants[c]) {
      RecordFacts(policy, w, c);
    }
    FlightsAreOlder(policy, w);
  }

  lemma ParkedResumes(policy: ResourcePolicy, w: World, l: nat, controllers: seq<ControllerPolicy>, j: nat, x: Command)
    requires Parked(w, l, controllers) && j < |controllers| && AllSound(w)
    requires ValidCommand(x) && x.target.Normal? && x.lease == l
    requires if x.SetMode? then x.fence == w.leases[l].fence && x.epoch == w.leases[l].epoch && j + 1 < x.generation
             else x.previousFence == w.leases[l].fence && w.leases[l].epoch < x.epoch
    ensures controllers[j].id in w.plants
    ensures HandleRun(TrainerOf(policy, controllers[j].id), w.plants[controllers[j].id], x, CallEnv(STARTS, STARTS)).out.Ok?
  {
    hide HandleRun;
    assert ParkedAt(w, l, controllers, j);
    var c := controllers[j].id;
    ResumeCompletes(TrainerOf(policy, c), w.plants[c], x, CallEnv(STARTS, STARTS));
  }

  lemma ParkedIsPromptlyBack(policy: ResourcePolicy, s: Situation, l: nat, controllers: seq<ControllerPolicy>, epoch: nat,
                             recovery: Option<nat>, back: Snapshot)
    requires (forall f | f in s.world.flights :: f.command.mutation < s.world.nextId) && -1 <= s.last
    requires AllSound(s.world) && Parked(s.world, l, controllers) && |s.tape| >= 2 * |controllers|
    requires forall k | k in controllers :: k in policy.controllers
    requires 1 <= s.world.leases[l].epoch && (recovery.Some? ==> s.world.leases[l].epoch < epoch)
    requires forall m | 0 <= m < |controllers| :: s.tape[2 * m] == AtOnce(STARTS)
    requires forall m | 0 <= m < |controllers| :: s.tape[2 * m + 1] == Shown(back, s.last + 1 + m)
    ensures PromptBack(policy, s, l, s.world.leases[l].throttle, |controllers|, epoch, recovery)
  {
    hide HandleRun, Displaced, AllSound;
    var n := |controllers|;
    var throttled := s.world.leases[l].throttle;
    forall m | 0 <= m < n ensures BackAt(policy, s, l, throttled, n, m, epoch, recovery) {
      var j := n - 1 - m;
      assert ParkedAt(s.world, l, controllers, j);
      assert controllers[j] in controllers;
      var later := s.(world := s.world.(nextId := s.world.nextId + m));
      ParkedResumes(policy, s.world, l, controllers, j, Restoration(later, l, throttled[j], epoch, 1 + m, recovery).command);
    }
  }

  lemma ParkedOnce(w: World, l: nat, controllers: seq<ControllerPolicy>)
    requires Parked(w, l, controllers) && AllDiffer(controllers)
    ensures EachOnce(w.leases[l].throttle)
  {
    forall i, j | 0 <= i < j < |controllers| ensures w.leases[l].throttle[i].controller != w.leases[l].throttle[j].controller {
      assert ParkedAt(w, l, controllers, i) && ParkedAt(w, l, controllers, j);
    }
  }

  lemma ClearedShowsBack(policy: ResourcePolicy, w: World, l: nat, plan: Plan, gone: Snapshot, back: Snapshot, generation: int)
    requires PolicyOk(policy) && Parked(w, l, ControllersFor(policy, plan)) && w.leases[l].profile == plan.profile
    requires Cleared(plan, ControllersFor(policy, plan), gone, back)
    ensures ShowsBack(policy, Shown(back, generation).reading, w.leases[l].throttle, w.leases[l].profile, true)
  {
    hide ControllersFor;
    var controllers, throttled := ControllersFor(policy, plan), w.leases[l].throttle;
    ControllersForElements(policy, plan);
    forall j, k | 0 <= j < |throttled| && k in policy.controllers && k.id == throttled[j].controller
      ensures k.profile in back.active && k.profile in back.profiles && back.profiles[k.profile]
    {
      assert ParkedAt(w, l, controllers, j) && controllers[j] in controllers;
      SameController(policy, k, controllers[j]);
    }
  }

  lemma ParkedIsUndone(policy: ResourcePolicy, s: Situation, l: nat, plan: Plan, epoch: nat, gone: Snapshot, back: Snapshot)
    requires Inv(policy, s.world) && PolicyOk(policy) && Parked(s.world, l, ControllersFor(policy, plan)) && s.world.visible == {}
    requires s.world.leases[l].profile == plan.profile && 1 <= s.world.leases[l].epoch && -1 <= s.last
    requires Cleared(plan, ControllersFor(policy, plan), gone, back)
    requires s.tape == ReturnTape(|ControllersFor(policy, plan)|, gone, back, s.last)
    ensures Undoes(policy, s, l, s.world.leases[l].throttle, epoch, true, true)
    ensures s.world.leases[l].throttle == [] ==> Undoes(policy, s, l, [], epoch, false, false)
  {
    hide ControllersFor, Inv, PromptBack, ReturnTape, ShowsBack, ParkedAt, AllSound;
    var controllers := ControllersFor(policy, plan);
    ReturnParts(|controllers|, gone, back, s.last);
    ControllersForElements(policy, plan);
    ControllersDistinct(policy, plan);
    ParkedOnce(s.world, l, controllers);
    ClearedShowsBack(policy, s.world, l, plan, gone, back, s.last + 2 + |controllers|);
    InvIsSound(policy, s.world);
    ParkedIsPromptlyBack(policy, Situation(s.world, s.tape[1..], s.last + 1), l, controllers, epoch, None, back);
    SmoothIsUndone(policy, s, l, s.world.leases[l].throttle, epoch);
  }

  lemma ParkedIsRecovered(policy: ResourcePolicy, s: Situation, l: nat, plan: Plan, epoch: nat, gone: Snapshot, back: Snapshot)
    requires Inv(policy, s.world) && PolicyOk(policy) && Parked(s.world, l, ControllersFor(policy, plan)) && s.world.visible == {}
    requires s.world.leases[l].profile == plan.profile && 1 <= s.world.leases[l].epoch < epoch && -1 <= s.last
    requires Cleared(plan, ControllersFor(policy, plan), gone, back)
    requires s.tape == ReturnTape(|ControllersFor(policy, plan)|, gone, back, s.last)
    ensures Recovers(policy, s, l, epoch)
  {
    hide ControllersFor, Inv, PromptBack, ReturnTape, ShowsBack, ParkedAt, AllSound;
    var controllers := ControllersFor(policy, plan);
    ReturnParts(|controllers|, gone, back, s.last);
    ControllersForElements(policy, plan);
    ControllersDistinct(policy, plan);
    ParkedOnce(s.world, l, controllers);
    ClearedShowsBack(policy, s.world, l, plan, gone, back, s.last + 2 + |controllers|);
    var t := IdDrawn(Situation(s.world, s.tape[1..], s.last + 1));
    InvIsSound(policy, s.world);
    DrawnStaysParked(s.world, l, controllers);
    ParkedIsPromptlyBack(policy, t, l, controllers, epoch, Some(s.world.nextId), back);
    SmoothIsRecovered(policy, s, l, epoch);
  }

  lemma DrawnStaysParked(w: World, l: nat, controllers: seq<ControllerPolicy>)
    requires Parked(w, l, controllers)
    ensures Parked(Drawn(w), l, controllers) && (AllSound(w) ==> AllSound(Drawn(w)))
  {
    hide Sound, Displaced;
    forall j | 0 <= j < |controllers| ensures ParkedAt(Drawn(w), l, controllers, j) {
      assert ParkedAt(w, l, controllers, j);
    }
  }

  // ------------------------------------------------------------------------- whole rounds

  // An admission that displaces every controller of the plan, however many there are.
  method AdmitAll(broker: ResourceCoordinator, plan: Plan, before: Snapshot, after: Snapshot) returns (h: Handle)
    requires broker.Up() && broker.quarantine.None? && -1 <= broker.lastProbeGeneration
    requires Hospitable(broker.policy, broker.host.W(), plan, before, after, broker.epoch)
    modifies broker`lastProbeGeneration, broker`quarantine, broker.host
    ensures broker.Up() && broker.quarantine.None? && -1 <= broker.lastProbeGeneration
    ensures Admitted(broker.policy, old(broker.host.W()), broker.host.W(), h, plan, broker.epoch)
    ensures Parked(broker.host.W(), h.lease, ControllersFor(broker.policy, plan)) && broker.host.visible == {}
  {
    hide SafeHistory, Inv, Admissible, AdmittedAt, Hospitable, ParkedAt, ControllersFor, AdmissionTape, Refused, WedgedAfter, Elapsed;
    assert AllClosed(broker.host.W()) && 1 <= broker.epoch && Wanted(broker.policy, plan) by { HospitableMeans(broker, plan, before, after); }
    var host := broker.host;
    ghost var w := host.W();
    host.tape := AdmissionTape(broker.policy, host.plants, plan, before, after, broker.lastProbeGeneration);
    assert host.W() == w;
    ghost var s := broker.Now();
    SmoothIsParked(broker.policy, s, plan, before, after, broker.epoch);
    NextIsNew(broker.policy, w);
    var r, proofs, first, seen := broker.Acquire(plan, false);
    h := r.value.value;
  }

  lemma NextIsNew(policy: ResourcePolicy, w: World)
    requires Inv(policy, w)
    ensures w.nextId !in w.leases
  {
    assert w.nextId in w.leases ==> LeaseOk(policy, w, w.nextId);
  }

  predicate Wanted(policy: ResourcePolicy, plan: Plan)
  {
    policy.requireProbe && plan.resourceGroup.Some? && plan.mode != NoLease
  }

  lemma HospitableMeans(broker: ResourceCoordinator, plan: Plan, before: Snapshot, after: Snapshot)
    requires broker.Up() && Hospitable(broker.policy, broker.host.W(), plan, before, after, broker.epoch)
    ensures AllClosed(broker.host.W()) && 1 <= broker.epoch && Wanted(broker.policy, plan)
  {
  }

  // And a release that brings them all back.
  method ReleaseAll(broker: ResourceCoordinator, plan: Plan, h: Handle, gone: Snapshot, back: Snapshot)
    requires broker.Up() && broker.quarantine.None? && -1 <= broker.lastProbeGeneration
    requires Holds(broker.host.W(), h, broker.epoch) && broker.host.leases[h.lease].profile == plan.profile
    requires Parked(broker.host.W(), h.lease, ControllersFor(broker.policy, plan)) && broker.host.visible == {}
    requires Cleared(plan, ControllersFor(broker.policy, plan), gone, back)
    modifies broker`lastProbeGeneration, broker`quarantine, broker.host
    ensures broker.Up() && broker.quarantine.None?
    ensures broker.host.leases == old(broker.host.leases)[h.lease := old(broker.host.leases)[h.lease].(status := Status.Released)]
    ensures ClosedSafely(broker.policy, broker.host.W(), h.lease, broker.epoch)
  {
    hide SafeHistory, Inv, Undoes, ParkedAt, ControllersFor, ReturnTape, Elapsed, ClosedSafely, Cleared;
    var host, l := broker.host, h.lease;
    ghost var w := host.W();
    host.tape := ReturnTape(|h.throttled|, gone, back, broker.lastProbeGeneration);
    assert host.W() == w;
    ghost var s := Restatused(broker.Now(), l, Releasing);
    MayRestatus(broker.policy, w, l, Releasing);
    RewriteKeepsInv(broker.policy, w, l, w.leases[l].(status := Releasing));
    RestatusedStaysParked(w, s.world, l, ControllersFor(broker.policy, plan));
    ParkedIsUndone(broker.policy, s, l, plan, broker.epoch, gone, back);
    var r, proofs, absence, last := broker.Release(h);
  }

  lemma RestatusedStaysParked(w: World, v: World, l: nat, controllers: seq<ControllerPolicy>)
    requires Parked(w, l, controllers) && v.plants == w.plants && l in v.leases
    requires v.leases[l] == w.leases[l].(status := v.leases[l].status)
    ensures Parked(v, l, controllers)
  {
    hide Displaced;
    forall j | 0 <= j < |controllers| ensures ParkedAt(v, l, controllers, j) {
      assert ParkedAt(w, l, controllers, j);
    }
  }

  // If the process crashes instead, the next one takes them all over, and closes the lease.
  method RecoverAll(broker: ResourceCoordinator, plan: Plan, h: Handle, gone: Snapshot, back: Snapshot) returns (next: ResourceCoordinator)
    requires broker.Up() && Holds(broker.host.W(), h, broker.epoch) && broker.host.leases[h.lease].profile == plan.profile
    requires Parked(broker.host.W(), h.lease, ControllersFor(broker.policy, plan)) && broker.host.visible == {}
    requires Cleared(plan, ControllersFor(broker.policy, plan), gone, back)
    modifies broker.host
    ensures fresh(next) && next.host == broker.host && next.policy == broker.policy && next.Up() && broker.epoch < next.epoch
    ensures next.quarantine.None? && AllClosed(next.host.W())
    ensures h.lease in next.host.leases
    ensures next.host.leases[h.lease] == old(broker.host.leases)[h.lease].(status := Status.Released)
    ensures ClosedSafely(next.policy, next.host.W(), h.lease, next.epoch)
  {
    hide SafeHistory, Inv, Recovers, Parked, ControllersFor, ReturnTape, Endures, Wedged, Cleared, ClosedSafely;
    var host, l := broker.host, h.lease;
    ghost var w := host.W();
    next := new ResourceCoordinator(host);
    host.tape := ReturnTape(|h.throttled|, gone, back, -1);
    assert host.W() == w;
    ghost var s := next.Now();
    next.Start();
    OnlyOpen(broker.policy, w, l);
    RestartedIsRecovered(broker.policy, s, l, plan, broker.epoch, next.epoch, gone, back);
  }

  lemma OnlyOpen(policy: ResourcePolicy, w: World, l: nat)
    requires Inv(policy, w) && l in w.leases && Unclosed(w.leases[l])
    ensures forall m | m in w.leases && Unclosed(w.leases[m]) :: m == l
  {
  }

  lemma RestartedIsRecovered(policy: ResourcePolicy, s: Situation, l: nat, plan: Plan, earlier: nat, epoch: nat, gone: Snapshot, back: Snapshot)
    requires Inv(policy, s.world) && PolicyOk(policy) && Parked(s.world, l, ControllersFor(policy, plan)) && s.world.visible == {}
    requires InEpoch(s.world, earlier) && s.world.leases[l].epoch == earlier < epoch && s.world.leases[l].profile == plan.profile
    requires s.last == -1 && Cleared(plan, ControllersFor(policy, plan), gone, back)
    requires s.tape == ReturnTape(|s.world.leases[l].throttle|, gone, back, -1)
    ensures Recovers(policy, AtRestart(s, epoch), l, epoch)
  {
    hide Inv, Recovers, ControllersFor, ReturnTape, Cleared;
    hide ParkedAt;
    NewEpoch(policy, s.world, epoch);
    var w := s.world.(storeEpoch := epoch, epochFile := epoch);
    MarkKeepsInv(policy, w);
    var t := AtRestart(s, epoch);
    RestatusedStaysParked(s.world, t.world, l, ControllersFor(policy, plan));
    ParkedIsRecovered(policy, t, l, plan, epoch, gone, back);
  }

  // Such hosts there are: every one that nobody has commanded yet, whose trainers run and
  // whose receipts are legible, for a plan that displaces no training controller.
  method FirstRound(policy: ResourcePolicy, plants: map<string, Plant>, plan: Plan,
                    before: Snapshot, after: Snapshot, gone: Snapshot, back: Snapshot, crashes: bool)
    returns (broker: ResourceCoordinator, ghost l: nat)
    requires NeverCommanded(policy, plants) && PolicyOk(policy) && Wanted(policy, plan)
    requires forall k | k in ControllersFor(policy, plan) && k.id in plants ::
      !k.training && plants[k.id].active && IdentityIfPresent(plants[k.id].receipt).Ok?
    requires ValidateSnapshot(policy, before, plan, false).None?
    requires ValidateSnapshot(policy, after, plan, true).None? && ValidateCompatibility(after, plan).None?
    requires Cleared(plan, ControllersFor(policy, plan), gone, back)
    ensures broker.Up() && broker.quarantine.None? && AllClosed(broker.host.W())
    ensures l in broker.host.leases && broker.host.leases[l].status == Status.Released
    ensures |broker.host.leases[l].throttle| == |ControllersFor(policy, plan)|
  {
    hide SafeHistory, Inv, InEpoch, ControllersFor, ValidateSnapshot, ValidateCompatibility, Cleared, ParkedAt;
    var host := new Durable(policy, plants, []);
    StartsSafe(policy, plants);
    StartsWell(policy, host.history, host.W());
    broker := Begin(host);
    UntouchedIsHospitable(policy, plants, host.W(), plan, before, after, broker.epoch);
    var h := AdmitAll(broker, plan, before, after);
    l := h.lease;
    if crashes {
      broker := RecoverAll(broker, plan, h, gone, back);
    } else {
      ReleaseAll(broker, plan, h, gone, back);
    }
  }

  lemma UntouchedIsHospitable(policy: ResourcePolicy, plants: map<string, Plant>, w: World, plan: Plan,
                              before: Snapshot, after: Snapshot, epoch: nat)
    requires NeverCommanded(policy, plants) && Wanted(policy, plan)
    requires forall k | k in ControllersFor(policy, plan) && k.id in plants ::
      !k.training && plants[k.id].active && IdentityIfPresent(plants[k.id].receipt).Ok?
    requires ValidateSnapshot(policy, before, plan, false).None?
    requires ValidateSnapshot(policy, after, plan, true).None? && ValidateCompatibility(after, plan).None?
    requires w.plants == plants && w.leases == map[] && w.visible == {}
    ensures Hospitable(policy, w, plan, before, after, epoch)
  {
    hide ControllersFor, ValidateSnapshot, ValidateCompatibility;
    ControllersForElements(policy, plan);
  }
}
