// Runs within reach: a host on which nothing has happened yet, taken step by step through
// the coordinator's own durable steps to the states that other modules speak about.
module Scripts {
  import opened Wrappers
  import opened Protocol
  import opened Controller
  import opened ControllerSteps
  import opened ControllerRuns
  import opened PlantMoves
  import opened Takeovers
  import opened Worlds
  import opened BrokerSteps
  import opened Wedges
  import opened Host
  import opened Admission
  import opened CoordinatorProofs
  import opened Coordinator
  import opened Observation
  import opened Runs

  // ------------------------------------------------------------ one controller, smoothly

  const STARTS := UnitEnv(false, true, false, None)

  function StopsWith(next: Publication): UnitEnv
  {
    UnitEnv(false, false, false, Some(next))
  }

  function AtOnce(env: UnitEnv): Input
  {
    Input([], 0, Delivery([], true, CallEnv(env, env), 9, true, []), NO_READING)
  }

  lemma WholeCall(trainer: Controller.Policy, p: Plant, x: Command, env: UnitEnv)
    requires !Pending(p)
    ensures EventStates(trainer, p, Called(x, CallEnv(env, env), 9)) == HandleRun(trainer, p, x, CallEnv(env, env)).states
  {
  }

  // A controller at rest: it runs, under no record or under a normal one of an earlier epoch,
  // and its receipt is legible, and there if evidence is recorded.
  predicate AtRest(p: Plant, epoch: nat)
  {
    && p.active && IdentityIfPresent(p.receipt).Ok? && (p.receipt.Absent? ==> EvidenceOf(p.authority).None?)
    && (p.authority.None? || (p.authority.value.Ready? && Current(p).target.Normal? && Current(p).epoch < epoch))
  }

  function LastPublished(p: Plant): Option<Identity>
  {
    if IdentityIfPresent(p.receipt).Ok? then IdentityIfPresent(p.receipt).value else None
  }

  lemma AtRestMayRelease(p: Plant, x: Command)
    requires Sound(p) && AtRest(p, x.epoch) && x.SetMode? && x.target.Released?
    ensures !Pending(p) && !AlreadyDone(x, p.authority) && Refusal(p, x).None? && ReleaseBaseline(p, x) == Ok(LastPublished(p))
  {
  }

  lemma AdvancesAsItStops(p: Plant, x: Command)
    requires p.active
    ensures
      var q := Stopped(Accepted(p, x), StopsWith(NextPublication(LastPublished(p))));
      !q.active && ReleaseCheck(q, LastPublished(p)).Ok?
  {
    NextPublicationAdvances(Accepted(p, x).(active := false), LastPublished(p));
  }

  // Its release completes, its trainer publishing something new as it is stopped.
  lemma RestingIsReleased(trainer: Controller.Policy, p: Plant, x: Command)
    requires Sound(p) && AtRest(p, x.epoch) && ValidCommand(x) && x.SetMode? && x.target.Released?
    ensures
      var env := StopsWith(NextPublication(LastPublished(p)));
      var run := HandleRun(trainer, p, x, CallEnv(env, env));
      run.out.Ok? && Displaced(Final(p, run.states)) && Current(Final(p, run.states)) == x
  {
    AtRestMayRelease(p, x);
    AdvancesAsItStops(p, x);
    hide ReleaseCheck, IdentityIfPresent, NextPublication, AtRest, LastPublished, FenceConflict, ReleaseBaseline;
    var env := StopsWith(NextPublication(LastPublished(p)));
    var a := Accepted(p, x);
    assert !Pending(p) && CompleteRun(trainer, a, x, p.authority, LastPublished(p), env).out.Ok?;
  }

  // What brings a displaced controller back, its checkpoint still being on disk.
  lemma RestoreCompletes(trainer: Controller.Policy, p: Plant, x: Command)
    requires Sound(p) && Displaced(p) && ValidCommand(x) && x.SetMode? && x.target.Normal? && RecordOf(p) != Some(x) && Admits(p, x)
    ensures
      var q := Final(p, HandleRun(trainer, p, x, CallEnv(STARTS, STARTS)).states);
      && Settled(q) && Current(q) == x && q.active
      && EvidenceOf(q.authority) == EvidenceOf(p.authority) && EvidenceOf(p.authority).Some?
      && q.receipt == p.receipt && q.files == p.files
  {
    AdmitsIsTheFence(p, x);
  }

  // The trainer publishes something new.
  function MovedOn(p: Plant): Plant
  {
    var next := NextPublication(LastPublished(p));
    p.(receipt := next.receipt, files := next.files)
  }

  lemma MovedOnIsNotBacked(trainer: Controller.Policy, p: Plant, evidence: Evidence)
    requires CheckpointOf(p.receipt, p.files) == Ok(evidence)
    ensures !Backed(trainer, MovedOn(p), Some(evidence)) && EvidenceOf(MovedOn(p).authority) == EvidenceOf(p.authority)
  {
    NextPublicationAdvances(p, IdentityIfPresent(p.receipt).value);
  }

  // ------------------------------------------------------------------ one step of a script

  lemma LandedAtOnce(policy: ResourcePolicy, w: World, f: Flight, env: UnitEnv)
    requires MaySend(policy, w, f) && f.controller in w.plants && !Pending(w.plants[f.controller])
    ensures
      var d := AtOnce(env).delivery;
      var p := w.plants[f.controller];
      var q := Final(p, HandleRun(TrainerOf(policy, f.controller), p, f.command, CallEnv(env, env)).states);
      var v := Landed(policy, Sent(w, f), f, d);
      && v.plants == w.plants[f.controller := q] && v.flights == w.flights && v.leases == w.leases
      && v.running == w.running && v.visible == w.visible && v.nextId == w.nextId
      && v.clock == w.clock
  {
    WholeCall(TrainerOf(policy, f.controller), w.plants[f.controller], f.command, env);
    hide HandleRun;
    MaySendDelivers(policy, w, f);
  }

  // One command, delivered at once to a controller with nothing pending.
  method SendNow(broker: ResourceCoordinator, c: string, x: Command, env: UnitEnv)
    requires broker.Up() && x.epoch == broker.epoch && MaySend(broker.policy, broker.host.W(), Flight(c, x))
    requires c in broker.host.plants && !Pending(broker.host.plants[c]) && broker.host.running == {}
    modifies broker.host
    ensures broker.Up() && old(broker.host.history) <= broker.host.history
    ensures broker.host.plants == old(broker.host.plants)[c :=
              Final(old(broker.host.plants)[c],
                    HandleRun(TrainerOf(broker.policy, c), old(broker.host.plants)[c], x, CallEnv(env, env)).states)]
    ensures broker.host.leases == old(broker.host.leases) && broker.host.nextId == old(broker.host.nextId)
    ensures broker.host.flights == old(broker.host.flights) && broker.host.running == {}
  {
    hide SafeHistory, Inv, MaySend, HandleRun, Stable, InEpoch, Landed, Readmits, Agrees, Persists;
    ghost var w := broker.host.W();
    LandedAtOnce(broker.policy, w, Flight(c, x), env);
    broker.host.tape := [AtOnce(env)];
    assert broker.host.W() == w;
    var answer, d := broker.Issue(c, x);
  }

  // A new process, up to where it looks at the leases it has found open.
  method Begin(host: Durable) returns (broker: ResourceCoordinator)
    requires Safe(host.policy, host)
    modifies host
    ensures fresh(broker) && broker.host == host && broker.policy == host.policy && broker.Up()
    ensures broker.quarantine.None? && broker.lastProbeGeneration == -1
    ensures old(host.storeEpoch) < broker.epoch && old(host.history) <= host.history
    ensures host.W() == Marked(old(host.W()).(storeEpoch := broker.epoch, epochFile := broker.epoch))
  {
    hide SafeHistory, Inv, Persists;
    ghost var w, h := host.W(), host.history;
    broker := new ResourceCoordinator(host);
    broker.epoch := broker.AdvanceHostEpoch();
    NewEpochIsHigher(w, broker.epoch);
    ghost var v, g := host.W(), host.history;
    PrefixOf(host.policy, w, h, v, g);
    var stale := broker.MarkStale();
    PrefixOf(host.policy, v, g, host.W(), host.history);
  }

  lemma NewEpochIsHigher(w: World, epoch: nat)
    requires epoch == if w.storeEpoch > w.epochFile then w.storeEpoch + 1 else w.epochFile + 1
    ensures w.storeEpoch < epoch
  {
  }

  // ------------------------------------------------------------ the first admission

  // A host as it is before anything has happened: the plan displaces one controller, which
  // nobody has commanded and whose trainer runs.
  ghost predicate Fresh(policy: ResourcePolicy, w: World, plan: Plan)
  {
    && AllClosed(w) && w.flights == {} && w.running == {} && w.restoredAt == map[]
    && |ControllersFor(policy, plan)| == 1
    && var c := ControllersFor(policy, plan)[0].id;
       c in w.plants && w.plants[c].authority.None? && w.plants[c].active && IdentityIfPresent(w.plants[c].receipt).Ok?
  }

  // One lease with one displaced controller, and nothing else going on.
  ghost predicate Alone(w: World, l: nat, item: Throttle, status: Status, epoch: nat)
  {
    && l in w.leases && w.leases[l].status == status && w.leases[l].epoch == epoch && w.leases[l].throttle == [item]
    && item.controller in w.plants && item.generation == 1 && w.flights == {}
  }

  ghost predicate Parking(w: World, l: nat, item: Throttle)
    requires l in w.leases && item.controller in w.plants
  {
    var p := w.plants[item.controller];
    && Displaced(p) && Current(p).SetMode? && Current(p).lease == l && Current(p).fence == w.leases[l].fence
    && Current(p).epoch == w.leases[l].epoch && Current(p).generation == 1
  }

  lemma FirstIsChosen(policy: ResourcePolicy, w: World, plan: Plan)
    requires Inv(policy, w) && Fresh(policy, w, plan)
    ensures var k := ControllersFor(policy, plan)[0];
      k in policy.controllers && Chosen(k, plan.service, plan.profile) && Idle(w, k.id) && QuantumElapsed(policy, w, k.id)
  {
    ControllersForElements(policy, plan);
    assert ControllersFor(policy, plan)[0] in ControllersFor(policy, plan);
  }

  // An admission, step by step, of a plan that displaces one controller.
  method AdmitOne(broker: ResourceCoordinator, plan: Plan) returns (l: nat, item: Throttle)
    requires broker.Up() && Fresh(broker.policy, broker.host.W(), plan)
    modifies broker.host
    ensures broker.Up() && old(broker.host.history) <= broker.host.history && broker.host.running == {}
    ensures Alone(broker.host.W(), l, item, Active, broker.epoch) && Parking(broker.host.W(), l, item)
    ensures broker.host.leases[l].profile == plan.profile && broker.host.leases[l].service == plan.service
  {
    hide SafeHistory, InEpoch, ControllersFor, Unheard, PolicyOk, Wedged, MaySend, MayRewrite, Held, HandleRun;
    FirstIsChosen(broker.policy, broker.host.W(), plan);
    var k := ControllersFor(broker.policy, plan)[0];
    hide Inv, Onward, Chosen, QuantumElapsed;
    l, item := DisplaceOnly(broker, plan, k);
    ghost var v := broker.host.W();
    OnlyHeld(broker.policy, v, l, plan, k);
    MayActivate(broker.policy, v, l);
    broker.Put(l, Active, Some([item]));
  }

  lemma OnlyHeld(policy: ResourcePolicy, w: World, l: nat, plan: Plan, k: ControllerPolicy)
    requires ControllersFor(policy, plan) == [k] && l in w.leases && HeldBy(w, k.id, l)
    requires w.leases[l].service == plan.service && w.leases[l].profile == plan.profile
    ensures Held(policy, w, l)
  {
    AllHeld(policy, w, l, plan);
  }

  method DisplaceOnly(broker: ResourceCoordinator, plan: Plan, k: ControllerPolicy) returns (l: nat, item: Throttle)
    requires broker.Up() && Fresh(broker.policy, broker.host.W(), plan) && ControllersFor(broker.policy, plan) == [k]
    requires k in broker.policy.controllers && Chosen(k, plan.service, plan.profile)
    requires Idle(broker.host.W(), k.id) && QuantumElapsed(broker.policy, broker.host.W(), k.id)
    modifies broker.host
    ensures broker.Up() && old(broker.host.history) <= broker.host.history && broker.host.running == {}
    ensures item.controller == k.id
    ensures Alone(broker.host.W(), l, item, Acquiring, broker.epoch) && Parking(broker.host.W(), l, item)
    ensures HeldBy(broker.host.W(), k.id, l)
    ensures broker.host.leases[l].profile == plan.profile && broker.host.leases[l].service == plan.service
  {
    hide SafeHistory, Inv, Onward, ControllersFor, Unheard, PolicyOk, Wedged, MaySend, HandleRun;
    l := broker.Open(plan);
    ghost var w := broker.host.W();
    var mutation, journal := broker.Journal(l, k, 1, []);
    ghost var v := broker.host.W();
    var x := SetMode(mutation, l, broker.host.leases[l].fence, broker.epoch, 1, Mode.Released);
    assert journal[0] in broker.host.leases[l].throttle;
    ReadyToDisplace(broker.policy, w, v, l, k, x, broker.epoch);
    var p := broker.host.plants[k.id];
    RestingIsReleased(TrainerOf(broker.policy, k.id), p, x);
    SendNow(broker, k.id, x, StopsWith(NextPublication(LastPublished(p))));
    NowHeld(broker.host.W(), k.id, l, x, broker.epoch);
    journal := broker.Acknowledge(l, k, 1, mutation, []);
    item := journal[0];
  }

  ghost predicate FirstPlan(policy: ResourcePolicy, plants: map<string, Plant>, plan: Plan)
  {
    && NeverCommanded(policy, plants) && PolicyOk(policy)
    && |ControllersFor(policy, plan)| == 1
    && var c := ControllersFor(policy, plan)[0].id;
       c in plants ==> plants[c].active && IdentityIfPresent(plants[c].receipt).Ok?
  }

  method AdmitFirst(policy: ResourcePolicy, plants: map<string, Plant>, plan: Plan)
    returns (host: Durable, broker: ResourceCoordinator, l: nat, item: Throttle)
    requires FirstPlan(policy, plants, plan)
    ensures fresh(host) && fresh(broker) && broker.host == host && host.policy == policy == broker.policy
    ensures broker.Up() && host.running == {} && Alone(host.W(), l, item, Active, broker.epoch) && Parking(host.W(), l, item)
  {
    hide SafeHistory, Inv, InEpoch, ControllersFor;
    host := new Durable(policy, plants, []);
    StartsSafe(policy, plants);
    StartsWell(policy, host.history, host.W());
    broker := Begin(host);
    StartsFresh(policy, plants, host.W(), plan);
    l, item := AdmitOne(broker, plan);
  }

  lemma StartsWell(policy: ResourcePolicy, h: seq<World>, w: World)
    requires Inv(policy, w) && h == [w] && w.loose == {}
    ensures SafeHistory(policy, h, w)
  {
  }

  lemma StartsFresh(policy: ResourcePolicy, plants: map<string, Plant>, w: World, plan: Plan)
    requires FirstPlan(policy, plants, plan) && Inv(policy, w)
    requires w.plants == plants && w.leases == map[] && w.flights == {} && w.running == {} && w.restoredAt == map[]
    ensures Fresh(policy, w, plan)
  {
    ControllersForElements(policy, plan);
    assert ControllersFor(policy, plan)[0] in ControllersFor(policy, plan);
  }

  // ------------------------------------------------------- a runtime that nobody sees

  // Admit, start the runtime without its taking up the GPU, fail to stop it, and begin the
  // release: absence may now be shown, and the restoration starts the training unit beside
  // the runtime.
  method UnseenIsReached(policy: ResourcePolicy, plants: map<string, Plant>, plan: Plan)
    returns (host: Durable, broker: ResourceCoordinator, l: nat)
    requires FirstPlan(policy, plants, plan)
    ensures broker.host == host && host.policy == policy && broker.Up()
    ensures StartedUnseen(host.W(), l, 0, broker.epoch)
    ensures exists f :: MaySend(policy, Drawn(host.W()), f) && StartsBeside(policy, Drawn(host.W()), f, l)
  {
    hide SafeHistory, Inv, InEpoch, ControllersFor, MaySend, StartsBeside, MayRewrite;
    var item;
    host, broker, l, item := AdmitFirst(policy, plants, plan);
    VisibleRuns(policy, host.W());
    var h := Handle(l, [item]);
    ActivateProfile(broker, h);
    DeactivateProfile(broker, h, false);
    ghost var w := host.W();
    MayRestatus(policy, w, l, Releasing);
    broker.Put(l, Releasing, Some([item]));
    ReachedUnseen(policy, w, host.W(), l, item, broker.epoch);
    UnseenIsRestoredOver(policy, host.W(), l, 0, broker.epoch);
  }

  lemma VisibleRuns(policy: ResourcePolicy, w: World)
    requires Inv(policy, w)
    ensures w.visible <= w.running
  {
  }

  lemma ReachedUnseen(policy: ResourcePolicy, w: World, v: World, l: nat, item: Throttle, epoch: nat)
    requires Inv(policy, w) && InEpoch(w, epoch) && Alone(w, l, item, Active, epoch) && Parking(w, l, item)
    requires w.running == {l} && w.visible == {}
    requires v == Rewritten(w, l, w.leases[l].(status := Releasing))
    ensures StartedUnseen(v, l, 0, epoch)
  {
    RecordFacts(policy, w, item.controller);
  }

  // ------------------------------------------------- a trainer that has moved on

  // Admit, release, and bring the controller back; its trainer publishes its next
  // checkpoint; the broker crashes before the lease is closed.
  method RestoredAndMovedOn(policy: ResourcePolicy, plants: map<string, Plant>, plan: Plan)
    returns (host: Durable, broker: ResourceCoordinator, l: nat, item: Throttle, ghost e: Evidence)
    requires FirstPlan(policy, plants, plan)
    ensures fresh(host) && fresh(broker) && broker.host == host && host.policy == policy && broker.Up() && host.running == {}
    ensures Alone(host.W(), l, item, Releasing, broker.epoch) && Resting(policy, host.W(), l, item, e)
  {
    hide SafeHistory, Inv, ControllersFor, MaySend, MayRewrite, HandleRun, Resting;
    host, broker, l, item := AdmitFirst(policy, plants, plan);
    var c := item.controller;
    ghost var w := host.W();
    MayRestatus(policy, w, l, Releasing);
    broker.Put(l, Releasing, Some([item]));
    ghost var v := host.W();
    var mutation := broker.FreshId();
    var x := RestoreCommand(host.leases[l], l, item, mutation, broker.epoch, 1, None);
    ReadyToRestore(policy, v, l, item, x, broker.epoch, 1, None);
    RestoresIt(policy, v, l, item, x, broker.epoch);
    e := host.plants[c].authority.value.evidence.value;
    SendNow(broker, c, x, STARTS);
    MoveOn(broker, l, item, e);
  }

  // Its record is the lease's own and normal; its unit runs, and has moved past the evidence.
  ghost predicate Resting(policy: ResourcePolicy, w: World, l: nat, item: Throttle, e: Evidence)
    requires l in w.leases && item.controller in w.plants
  {
    var p := w.plants[item.controller];
    && Settled(p) && Rests(w, l, item.controller, Some(e)) && Current(p).target.Normal? && p.active
    && !Backed(TrainerOf(policy, item.controller), p, Some(e))
  }

  lemma RestoresIt(policy: ResourcePolicy, w: World, l: nat, item: Throttle, x: Command, epoch: nat)
    requires Inv(policy, w) && Alone(w, l, item, Releasing, epoch) && Parking(w, l, item) && epoch >= 1
    requires x == RestoreCommand(w.leases[l], l, item, x.mutation, epoch, 1, None)
    ensures
      var p := w.plants[item.controller];
      var q := Final(p, HandleRun(TrainerOf(policy, item.controller), p, x, CallEnv(STARTS, STARTS)).states);
      && p.authority.value.evidence.Some?
      && Settled(q) && Current(q) == x && q.active
      && EvidenceOf(q.authority) == p.authority.value.evidence
      && CheckpointOf(q.receipt, q.files) == Ok(p.authority.value.evidence.value)
  {
    RecordFacts(policy, w, item.controller);
    RestoreCompletes(TrainerOf(policy, item.controller), w.plants[item.controller], x);
  }

  // The trainer publishes while the broker looks for its own restoration.
  method MoveOn(broker: ResourceCoordinator, l: nat, item: Throttle, ghost e: Evidence)
    requires broker.Up() && Alone(broker.host.W(), l, item, Releasing, broker.epoch) && broker.host.running == {}
    requires var p := broker.host.plants[item.controller];
      && Settled(p) && Owns(p, broker.host.leases[l], l) && Current(p).target.Normal? && p.active
      && EvidenceOf(p.authority) == Some(e) && CheckpointOf(p.receipt, p.files) == Ok(e)
    modifies broker, broker.host
    ensures broker.Up() && broker.epoch == old(broker.epoch) && broker.host.running == {}
    ensures Alone(broker.host.W(), l, item, Releasing, broker.epoch) && Resting(broker.policy, broker.host.W(), l, item, e)
  {
    hide SafeHistory, Inv, InEpoch, Stable, Persists, Resting, Evolve;
    var host, c := broker.host, item.controller;
    ghost var w := host.W();
    var p := host.plants[c];
    MovedRests(broker.policy, w, l, item, e);
    host.tape := [Input([Local(c, Trainer(MovedOn(p)))], 0, NO_DELIVERY, NO_READING)];
    assert host.W() == w;
    var s := broker.CombinedSnapshot();
  }

  lemma MovedRests(policy: ResourcePolicy, w: World, l: nat, item: Throttle, e: Evidence)
    requires l in w.leases && Alone(w, l, item, Releasing, w.leases[l].epoch) && w.running == {}
    requires var p := w.plants[item.controller];
      && Settled(p) && Owns(p, w.leases[l], l) && Current(p).target.Normal? && p.active
      && EvidenceOf(p.authority) == Some(e) && CheckpointOf(p.receipt, p.files) == Ok(e)
    ensures var v := Evolve(policy, w, [Local(item.controller, Trainer(MovedOn(w.plants[item.controller])))]);
      && v.running == {} && l in v.leases && v.leases[l] == w.leases[l] && item.controller in v.plants
      && Alone(v, l, item, Releasing, w.leases[l].epoch) && Resting(policy, v, l, item, e)
  {
    var c := item.controller;
    var p := w.plants[c];
    MovedOnIsNotBacked(TrainerOf(policy, c), p, e);
    Published(policy, w, c, MovedOn(p));
    hide Backed, CheckpointOf, MovedOn, Evolve;
  }

  lemma Published(policy: ResourcePolicy, w: World, c: string, q: Plant)
    requires c in w.plants && Drift(w.plants[c], q)
    ensures Evolve(policy, w, [Local(c, Trainer(q))]) == PlantTo(w, c, q)
  {
    assert [Local(c, Trainer(q))][1..] == [];
    assert EventStates(TrainerOf(policy, c), w.plants[c], Trainer(q)) == [q];
  }

  lemma NotWedgedYet(policy: ResourcePolicy, w: World, l: nat, item: Throttle, e: Evidence, epoch: nat)
    requires Alone(w, l, item, Releasing, epoch) && Resting(policy, w, l, item, e)
    ensures !Wedged(policy, w, l) && Waits(policy, w, l, item.controller, Some(e))
  {
    assert item in w.leases[l].throttle;
  }

  // A restart takes such a controller over, is refused for its evidence, and leaves the
  // lease wedged, which it had not been: no later process closes it.
  method MovedOnIsWedged(policy: ResourcePolicy, plants: map<string, Plant>, plan: Plan, script: seq<Act>)
    returns (host: Durable, broker: ResourceCoordinator, l: nat, ghost i: nat)
    requires FirstPlan(policy, plants, plan)
    ensures broker.host == host && host.policy == policy && broker.Up() && broker.quarantine.Some?
    ensures Wedged(policy, host.W(), l) && host.leases[l].status == Unknown
    ensures i < |host.history| && !Wedged(policy, host.history[i], l)
    ensures exists c, e :: c in host.history[i].plants && RestoredOnly(policy, host.history[i], l, c, e)
  {
    hide SafeHistory, Inv, ControllersFor, Resting, Wedged, RestoredOnly;
    var item;
    ghost var e;
    host, broker, l, item, e := RestoredAndMovedOn(policy, plants, plan);
    ghost var w, h := host.W(), host.history;
    HistoryEnds(policy, h, w);
    i := |h| - 1;
    NotWedgedYet(policy, w, l, item, e, broker.epoch);
    WasRestored(policy, w, l, item, e, broker.epoch);
    broker := Begin(host);
    MarkedRests(policy, w, host.W(), l, item, e);
    TakeOver(broker, l, item, e);
    broker := RestartForever(host, l, script);
    assert host.history[i] == w;
  }

  lemma MarkedRests(policy: ResourcePolicy, w: World, v: World, l: nat, item: Throttle, e: Evidence)
    requires l in w.leases && w.leases[l].status == Releasing && item.controller in w.plants && Resting(policy, w, l, item, e)
    requires v == Marked(w.(storeEpoch := v.storeEpoch, epochFile := v.epochFile))
    ensures l in v.leases && v.leases[l] == w.leases[l].(status := Unknown) && Resting(policy, v, l, item, e)
  {
  }

  // Every controller of the open lease is back under it, and rests on evidence that its disk
  // has moved past.
  ghost predicate RestoredOnly(policy: ResourcePolicy, w: World, l: nat, c: string, e: Evidence)
    requires c in w.plants
  {
    && l in w.leases && Unclosed(w.leases[l]) && Journals(w.leases[l], c)
    && (forall t | t in w.leases[l].throttle :: t.controller == c)
    && Settled(w.plants[c]) && Rests(w, l, c, Some(e)) && Current(w.plants[c]).target.Normal? && w.plants[c].active
    && CheckpointOf(w.plants[c].receipt, w.plants[c].files) != Ok(e)
  }

  lemma WasRestored(policy: ResourcePolicy, w: World, l: nat, item: Throttle, e: Evidence, epoch: nat)
    requires Alone(w, l, item, Releasing, epoch) && Resting(policy, w, l, item, e)
    ensures RestoredOnly(policy, w, l, item.controller, e)
  {
    assert item in w.leases[l].throttle;
  }

  // The restart's takeover: accepted, and then refused for the evidence.
  method TakeOver(broker: ResourceCoordinator, l: nat, item: Throttle, ghost e: Evidence)
    requires broker.Up() && l in broker.host.leases && broker.host.running == {}
    requires Alone(broker.host.W(), l, item, Unknown, broker.host.leases[l].epoch)
    requires broker.host.leases[l].epoch < broker.epoch && Resting(broker.policy, broker.host.W(), l, item, e)
    modifies broker.host
    ensures broker.Up() && old(broker.host.history) <= broker.host.history && Wedged(broker.policy, broker.host.W(), l)
  {
    hide SafeHistory, Inv, InEpoch, MaySend, HandleRun, Wedged, Onward;
    var c := item.controller;
    FenceIsFresh(broker.policy, broker.host.W(), l);
    var fence := broker.FreshId();
    ghost var w := broker.host.W();
    var mutation := broker.FreshId();
    var x := RestoreCommand(broker.host.leases[l], l, item, mutation, broker.epoch, 1, Some(fence));
    ReadyToRestore(broker.policy, w, l, item, x, broker.epoch, 1, Some(fence));
    FreshCommand(broker.policy, w, broker.epoch, c, x);
    HangsHere(broker.policy, w, l, item, x, e);
    SendNow(broker, c, x, STARTS);
    TakenUpItem(broker.policy, broker.host.W(), l, item);
  }

  lemma HangsHere(policy: ResourcePolicy, w: World, l: nat, item: Throttle, x: Command, e: Evidence)
    requires Inv(policy, w) && l in w.leases && item.controller in w.plants && Resting(policy, w, l, item, e)
    requires x.Takeover? && ValidCommand(x) && x.lease == l && UnderLease(w.leases[l], x)
    requires x.mutation !in Mentions(w.plants[item.controller])
    ensures RecordOf(Final(w.plants[item.controller],
              HandleRun(TrainerOf(policy, item.controller), w.plants[item.controller], x, CallEnv(STARTS, STARTS)).states)) == Some(x)
  {
    RecordFacts(policy, w, item.controller);
    assert PlantOk(policy, w, item.controller);
    hide Inv;
    ResumeHangs(TrainerOf(policy, item.controller), w.plants[item.controller], x, CallEnv(STARTS, STARTS));
  }
}
