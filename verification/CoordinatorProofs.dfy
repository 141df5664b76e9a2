// Why each durable step of the coordinator is one `BrokerSteps` allows, and what survives
// from one step to the next.
module CoordinatorProofs {
  import opened Wrappers
  import opened Ordering
  import opened Protocol
  import opened Controller
  import opened ControllerSteps
  import opened ControllerRuns
  import opened PlantMoves
  import opened Takeovers
  import opened Worlds
  import opened BrokerSteps
  import opened Wedges
  import opened Host
  import opened Admission
  import opened Outcomes

  ghost predicate Safe(policy: ResourcePolicy, host: Durable)
    reads host
  {
    && host.policy == policy
    && PolicyOk(policy)
    && Inv(policy, host.W())
    && SafeHistory(policy, host.history, host.W())
  }

  // A runtime started under a lease that is not active any more, which no probe can see.
  predicate OutOfSight(w: World, l: nat)
  {
    l in w.leases && w.leases[l].status != Active && l in w.running && l !in w.visible
  }

  // One of the first states is one in which the lease's runtime was out of sight.
  ghost predicate Overlooked(h: seq<World>, n: nat, l: nat)
  {
    exists i | 0 <= i < n && i < |h| :: OutOfSight(h[i], l)
  }

  // `Inv` holds throughout, and nothing was restored over a started runtime that had not
  // been out of sight before.
  ghost predicate SafeHistory(policy: ResourcePolicy, h: seq<World>, w: World)
  {
    && (forall i | 0 <= i < |h| :: Inv(policy, h[i]))
    && (forall i, l | 0 <= i < |h| && l in h[i].loose :: Overlooked(h, i + 1, l))
    && h != [] && h[|h| - 1] == w
  }

  // Every command in flight comes from an incarnation before this epoch.
  ghost predicate FlightsBefore(w: World, epoch: nat)
  {
    forall f | f in w.flights :: f.command.epoch < epoch
  }

  ghost predicate InEpoch(w: World, epoch: nat)
  {
    1 <= epoch && w.storeEpoch == epoch && FlightsBefore(w, epoch)
  }

  lemma HistoryGrows(policy: ResourcePolicy, before: seq<World>, w: World, v: World)
    requires SafeHistory(policy, before, w) && Inv(policy, v)
    requires forall l | l in v.loose :: l in w.loose || Overlooked(before, |before|, l)
    ensures SafeHistory(policy, before + [v], v)
  {
    hide Inv, OutOfSight;
    var after := before + [v];
    forall i, l | 0 <= i < |after| && l in after[i].loose ensures Overlooked(after, i + 1, l) {
      if i < |before| {
        OverlookedLater(before, after, i + 1, i + 1, l);
      } else {
        OverlookedLater(before, after, |before|, i + 1, l);
      }
    }
  }

  lemma OverlookedLater(h: seq<World>, g: seq<World>, n: nat, m: nat, l: nat)
    requires h <= g && n <= m
    ensures Overlooked(h, n, l) ==> Overlooked(g, m, l)
  {
    hide OutOfSight;
    if Overlooked(h, n, l) {
      var i :| 0 <= i < n && i < |h| && OutOfSight(h[i], l);
      assert g[i] == h[i];
    }
  }

  lemma HistoryCut(policy: ResourcePolicy, h: seq<World>, w: World, k: nat)
    requires SafeHistory(policy, h, w) && k < |h|
    ensures Inv(policy, h[k]) && SafeHistory(policy, h[..k + 1], h[k])
  {
    hide Inv, OutOfSight;
    var g := h[..k + 1];
    forall i, l | 0 <= i < |g| && l in g[i].loose ensures Overlooked(g, i + 1, l) {
      assert Overlooked(h, i + 1, l);
      var j :| 0 <= j < i + 1 && j < |h| && OutOfSight(h[j], l);
      assert g[j] == h[j];
    }
    assert g[k] == h[k];
  }

  // The observation carries exactly the command's mutation, lease, fence, epoch, generation
  // and mode.
  ghost predicate Proves(proof: Proof)
  {
    var x := proof.command;
    && proof.controller in proof.seen.states
    && var p := proof.seen.states[proof.controller];
       p.mutation == x.mutation && p.lease == x.lease && p.fence == x.fence
       && p.epoch == x.epoch && p.generation == x.generation && p.mode == x.target
  }

  lemma SampleIsSafe(policy: ResourcePolicy, w: World, events: seq<EnvEvent>, epoch: nat)
    requires Inv(policy, w) && InEpoch(w, epoch)
    ensures var v := Evolve(policy, w, events);
      Inv(policy, v) && InEpoch(v, epoch) && Stable(w, v, {})
  {
    EvolveIsStable(policy, w, events);
  }

  // A command back to normal mode goes out over a started runtime only if that has been
  // out of sight.
  ghost predicate Excused(w: World, h: seq<World>, x: Command)
  {
    x.target.Normal? && x.lease in w.running ==> Overlooked(h, |h|, x.lease)
  }

  lemma RequestHistory(policy: ResourcePolicy, w: World, h: seq<World>, f: Flight, d: Delivery)
    requires Inv(policy, w) && SafeHistory(policy, h, w) && MaySend(policy, w, f) && Excused(w, h, f.command)
    ensures f.controller in Evolve(policy, w, d.before).plants
    ensures
      var w1 := Evolve(policy, w, d.before);
      var w2 := Sent(w1, f);
      var w3 := Landed(policy, w2, f, d);
      var w4 := Evolve(policy, w3, d.after);
      SafeHistory(policy, h + [w1, w2, w3, w4], w4)
  {
    hide Inv, MaySend, SafeHistory, Overlooked, Stable, TakesUp, Readmits;
    CommandKeepsInv(policy, w, f, d);
    var w1 := Evolve(policy, w, d.before);
    var w2 := Sent(w1, f);
    var w3 := Landed(policy, w2, f, d);
    var w4 := Evolve(policy, w3, d.after);
    EvolveIsStable(policy, w, d.before);
    EvolveIsStable(policy, w3, d.after);
    StableParts(w, w1, {});
    HistoryGrows(policy, h, w, w1);
    ExcusedLater(w, h, w1, f);
    HistoryGrows(policy, h + [w1], w1, w2);
    HistoryGrows(policy, h + [w1] + [w2], w2, w3);
    HistoryGrows(policy, h + [w1] + [w2] + [w3], w3, w4);
    assert h + [w1] + [w2] + [w3] + [w4] == h + [w1, w2, w3, w4];
  }

  lemma ExcusedLater(w: World, h: seq<World>, w1: World, f: Flight)
    requires Excused(w, h, f.command) && w1.running <= w.running
    ensures forall l | l in Sent(w1, f).loose :: l in w1.loose || Overlooked(h + [w1], |h + [w1]|, l)
  {
    OverlookedLater(h, h + [w1], |h|, |h + [w1]|, f.command.lease);
  }

  lemma RequestIsSafe(policy: ResourcePolicy, w: World, f: Flight, d: Delivery, epoch: nat)
    requires Inv(policy, w) && InEpoch(w, epoch) && MaySend(policy, w, f) && f.command.epoch == epoch
    ensures var w1 := Evolve(policy, w, d.before);
      && f.controller in w1.plants
      && var w2 := Sent(w1, f);
      var w3 := Landed(policy, w2, f, d);
      var w4 := Evolve(policy, w3, d.after);
      && Inv(policy, w1) && Inv(policy, w2) && Inv(policy, w3) && Inv(policy, w4)
      && InEpoch(w4, epoch) && Stable(w, w4, {f.controller})
      && f.controller in w4.plants && Unseen(w4.plants[f.controller], f.command) && Unsent(w4, f.command)
      && LooseOnly(w, w4, f.command.lease)
      && (RecordOf(w4.plants[f.controller]) == Some(f.command) ==> Readmits(w, f.controller, f.command))
  {
    hide Inv, MaySend, TakesUp;
    InPlants(policy, w, f);
    CommandKeepsInv(policy, w, f, d);
  }

  lemma TakeoverIsSafe(policy: ResourcePolicy, w: World, h: seq<World>, f: Flight, d: Delivery)
    requires Inv(policy, w) && MaySend(policy, w, f) && f.command.Takeover?
    ensures var w1 := Evolve(policy, w, d.before);
      && f.controller in w1.plants
      && var w2 := Sent(w1, f);
      var w3 := Landed(policy, w2, f, d);
      var w4 := Evolve(policy, w3, d.after);
      && Persists(policy, w, h, w4, h + [w1, w2, w3, w4])
      && f.command.lease in w.leases
      && (HandleRun(TrainerOf(policy, f.controller), w1.plants[f.controller], f.command, d.env).out.Ok? ==>
            Agrees(policy, w, f.command.lease, f.controller, h + [w1, w2, w3, w4], |h|))
  {
    hide Inv, MaySend, RefusalsStay, Refuses, HandleRun, Agrees;
    UnderItsLease(policy, w, f);
    TakeoverKeepsRefusals(policy, w, f, d);
    var w1 := Evolve(policy, w, d.before);
    var w2 := Sent(w1, f);
    var w3 := Landed(policy, w2, f, d);
    var w4 := Evolve(policy, w3, d.after);
    if HandleRun(TrainerOf(policy, f.controller), w1.plants[f.controller], f.command, d.env).out.Ok? {
      AnsweredAgrees(policy, w, h, w1, h + [w1, w2, w3, w4], f, d);
    }
  }

  lemma AnsweredAgrees(policy: ResourcePolicy, w: World, h: seq<World>, w1: World, g: seq<World>, f: Flight, d: Delivery)
    requires Inv(policy, w) && MaySend(policy, w, f) && f.command.Takeover?
    requires w1 == Evolve(policy, w, d.before) && f.controller in w1.plants && RefusalsStay(policy, w, w1)
    requires |g| > |h| && h <= g && g[|h|] == w1
    requires HandleRun(TrainerOf(policy, f.controller), w1.plants[f.controller], f.command, d.env).out.Ok?
    ensures f.command.lease in w.leases && Agrees(policy, w, f.command.lease, f.controller, g, |h|)
  {
    hide Inv, MaySend, RefusalsStay, Refuses, HandleRun, Backed, Evolve, Stable, Rests;
    var c, x := f.controller, f.command;
    EvolveIsStable(policy, w, d.before);
    MaySendLater(policy, w, w1, f);
    UnderItsLease(policy, w, f);
    UnderItsLease(policy, w1, f);
    RefusedIsNotAnswered(policy, w1, c, x, d.env);
    forall e | Rests(w1, x.lease, c, e) ensures Shown(policy, g, |h|, |g|, c, e) {
      assert Backed(TrainerOf(policy, c), g[|h|].plants[c], e);
    }
    AgreesEarlier(policy, w, w1, x.lease, c, g, g, |h|, |h|);
  }

  lemma UnderItsLease(policy: ResourcePolicy, w: World, f: Flight)
    requires MaySend(policy, w, f)
    ensures f.controller in w.plants && ValidCommand(f.command) && RecordOf(w.plants[f.controller]) != Some(f.command)
    ensures f.command.lease in w.leases && UnderLease(w.leases[f.command.lease], f.command)
  {
  }

  // A takeover that has been taken up, completed or not, wedges the lease.
  lemma TakenUpNow(policy: ResourcePolicy, w: World, v: World, f: Flight)
    requires MaySend(policy, w, f) && Inv(policy, v) && v.leases == w.leases
    ensures TakenUp(v, f.controller, f.command.lease) ==> Wedged(policy, v, f.command.lease)
  {
    hide Inv;
    if TakenUp(v, f.controller, f.command.lease) { TakenUpIsWedged(policy, v, f.command.lease, f.controller); }
  }

  lemma SentStaysQuiet(w: World, c: string, x: Command)
    requires Unsent(w, x)
    ensures Quiet(w, c, x.epoch)
  {
  }

  lemma Observed(policy: ResourcePolicy, w: World, s: Snapshot, c: string, x: Command, answer: Response)
    requires Inv(policy, w) && Truthful(w, s) && Observes(s, c, x, answer) && c in w.plants && Unseen(w.plants[c], x)
    ensures Settled(w.plants[c]) && Current(w.plants[c]) == x && Proves(Proof(c, x, s))
  {
    ObservationProves(policy, w, c, x);
  }

  lemma SeenAfter(v: World, w: World, c: string, x: Command)
    requires Stable(v, w, {}) && c in v.plants && Unseen(v.plants[c], x) && Unsent(v, x)
    ensures c in w.plants && Unseen(w.plants[c], x)
    ensures RecordOf(w.plants[c]) == Some(x) ==> RecordOf(v.plants[c]) == Some(x)
  {
    assert Unflown(v, x.mutation);
    assert Unmentioned(v.plants[c], x.mutation) ==> Unmentioned(w.plants[c], x.mutation);
  }

  function RowAfter(lease: Lease, status: Status, throttle: Option<seq<Throttle>>): Lease
  {
    lease.(status := status, throttle := if throttle.Some? then throttle.value else lease.throttle)
  }

  // A clock reading that may also record a controller's normal time as now.
  lemma TickedAndRecorded(policy: ResourcePolicy, w: World, v: World)
    requires Inv(policy, w) && w.clock <= v.clock
    requires v == w.(clock := v.clock, quanta := v.quanta)
    requires forall c | c in w.quanta :: c in v.quanta && w.quanta[c] <= v.quanta[c]
    requires forall c | c in v.quanta :: v.quanta[c] <= v.clock
    ensures Inv(policy, v) && Onward(w, v, {})
  {
    FrameKeepsInv(policy, w, v);
    TableIsOnward(w, v);
  }

  lemma ClocksBounded(policy: ResourcePolicy, w: World)
    requires Inv(policy, w)
    ensures forall c | c in w.quanta :: w.quanta[c] <= w.clock
    ensures forall c | c in w.restoredAt :: w.restoredAt[c] <= w.clock
  {
  }

  lemma StaySame(w: World, v: World)
    requires v == w
    ensures Onward(w, v, {})
  {
  }

  lemma QuantumKnown(policy: ResourcePolicy, w: World, k: ControllerPolicy)
    requires Inv(policy, w) && AllClosed(w) && k in policy.controllers && k.training && k.id in w.restoredAt
    ensures k.id in w.quanta && w.restoredAt[k.id] <= w.quanta[k.id]
  {
    assert QuantumOk(w, k);
  }

  lemma ElapsedStays(policy: ResourcePolicy, w: World, v: World, controllers: seq<ControllerPolicy>)
    requires v == w.(clock := v.clock, quanta := v.quanta) && w.clock <= v.clock
    requires forall k | k in controllers :: QuantumElapsed(policy, w, k.id)
    ensures forall k | k in controllers :: QuantumElapsed(policy, v, k.id)
  {
  }

  lemma OnlyPolicy(policy: ResourcePolicy, w: World, k: ControllerPolicy)
    requires PolicyOk(policy) && k in policy.controllers
    requires k.training && k.id in w.restoredAt ==> w.restoredAt[k.id] + k.minimumNormal <= w.clock
    ensures QuantumElapsed(policy, w, k.id)
  {
  }

  // The row of a lease being admitted in the current epoch, whose profile does not run.
  ghost predicate Admitting(w: World, l: nat, epoch: nat)
  {
    l in w.leases && w.leases[l].status == Acquiring && w.leases[l].epoch == epoch && l !in w.running
  }

  // Each observation is strictly newer than the one before it, the first than `floor`.
  ghost predicate Causal(proofs: seq<Proof>, floor: int)
  {
    forall i | 0 <= i < |proofs| ::
      Proves(proofs[i]) && LastGeneration(proofs[..i], floor) < proofs[i].seen.generation
  }

  function LastGeneration(proofs: seq<Proof>, floor: int): int
  {
    if proofs == [] then floor else proofs[|proofs| - 1].seen.generation
  }

  lemma Journalable(policy: ResourcePolicy, w: World, l: nat, k: ControllerPolicy, throttled: seq<Throttle>, journal: seq<Throttle>)
    requires Inv(policy, w) && l in w.leases && Unclosed(w.leases[l]) && w.leases[l].throttle == throttled
    requires k in policy.controllers && ChosenFor(k, w.leases[l])
    requires |journal| >= |throttled| && journal != []
    requires forall i | 0 <= i < |throttled| :: journal[i].controller == throttled[i].controller
    requires forall i | |throttled| <= i < |journal| :: journal[i].controller == k.id
    requires w.leases[l].status == Acquiring
    ensures MayRewrite(policy, w, l, RowAfter(w.leases[l], Acquiring, Some(journal)))
  {
    forall t | t in journal ensures t.controller == k.id || Journals(w.leases[l], t.controller) {
      var i :| 0 <= i < |journal| && journal[i] == t;
      if i < |throttled| { assert throttled[i] in w.leases[l].throttle; }
    }
    forall t | t in w.leases[l].throttle ensures exists u :: u in journal && u.controller == t.controller {
      var i :| 0 <= i < |throttled| && throttled[i] == t;
      assert journal[i] in journal;
    }
    MayJournal(policy, w, l, k, journal);
  }

  lemma ReadyToDisplace(policy: ResourcePolicy, w0: World, w2: World, l: nat, k: ControllerPolicy, x: Command, epoch: nat)
    requires Inv(policy, w0) && InEpoch(w0, epoch) && Admitting(w0, l, epoch) && k.id in w0.plants
    requires l in w2.leases && w2 == Rewritten(Drawn(w0), l, w2.leases[l])
    requires SameTerms(w0.leases[l], w2.leases[l]) && w2.leases[l].status == Acquiring && Journals(w2.leases[l], k.id)
    requires x == SetMode(w0.nextId, l, w0.leases[l].fence, epoch, x.generation, Mode.Released) && x.generation >= 1
    requires Idle(w0, k.id) && QuantumElapsed(policy, w0, k.id)
    ensures MaySend(policy, w2, Flight(k.id, x))
  {
    FreshCommand(policy, w0, epoch, k.id, x);
    hide Inv, Mentions;
    assert Unsent(w2, x);
    assert Idle(w2, k.id);
  }

  lemma StableParts(w: World, v: World, but: set<string>)
    requires Stable(w, v, but)
    ensures Onward(w, v, but) && v.leases == w.leases && v.running <= w.running
    ensures v.nextId == w.nextId && v.plants.Keys == w.plants.Keys
  {
  }

  lemma NowHeld(w: World, c: string, l: nat, x: Command, epoch: nat)
    requires InEpoch(w, epoch) && l in w.leases && c in w.plants && Settled(w.plants[c]) && Current(w.plants[c]) == x
    requires x.lease == l && x.target.Released? && x.epoch == epoch == w.leases[l].epoch && x.fence == w.leases[l].fence
    ensures HeldBy(w, c, l)
  {
  }

  lemma HeldStays(w: World, v: World, c: string, l: nat)
    requires l in w.leases && HeldBy(w, c, l)
    requires l in v.leases && SameTerms(w.leases[l], v.leases[l]) && v.plants == w.plants && v.flights == w.flights
    ensures HeldBy(v, c, l)
  {
  }

  ghost predicate DistinctIds(controllers: seq<ControllerPolicy>)
  {
    forall i, j | 0 <= i < j < |controllers| :: controllers[i].id != controllers[j].id
  }

  ghost predicate HeldUpTo(w: World, controllers: seq<ControllerPolicy>, n: nat, l: nat)
  {
    l in w.leases && forall j | 0 <= j < n && j < |controllers| :: HeldBy(w, controllers[j].id, l)
  }

  ghost predicate ReadyFrom(policy: ResourcePolicy, w: World, controllers: seq<ControllerPolicy>, n: nat)
  {
    forall j | n <= j < |controllers| ::
      controllers[j].id in w.plants && Idle(w, controllers[j].id) && QuantumElapsed(policy, w, controllers[j].id)
  }

  // The proofs of one admission: its controllers in order, each under the lease's own fence
  // and the next generation.
  ghost predicate Displacements(proofs: seq<Proof>, controllers: seq<ControllerPolicy>, l: nat, fence: nat, epoch: nat)
  {
    && |proofs| == |controllers|
    && forall i | 0 <= i < |proofs| ::
         && proofs[i].controller == controllers[i].id
         && proofs[i].command == SetMode(proofs[i].command.mutation, l, fence, epoch, i + 1, Mode.Released)
  }

  lemma NothingYet(w: World, controllers: seq<ControllerPolicy>, l: nat, floor: int, epoch: nat)
    requires l in w.leases
    ensures HeldUpTo(w, controllers, 0, l) && Causal([], floor)
    ensures controllers[..0] == [] && Displacements([], [], l, w.leases[l].fence, epoch)
    ensures IdsOf(controllers[..0]) == {} && ReadmitsAll(w, [])
  {
  }

  lemma IsReady(policy: ResourcePolicy, w: World, plan: Plan, controllers: seq<ControllerPolicy>, i: nat, l: nat)
    requires i < |controllers| && controllers == ControllersFor(policy, plan) && ReadyFrom(policy, w, controllers, i)
    requires l in w.leases && w.leases[l].service == plan.service && w.leases[l].profile == plan.profile
    ensures var k := controllers[i];
      && k in policy.controllers && k.id in w.plants && ChosenFor(k, w.leases[l])
      && Idle(w, k.id) && QuantumElapsed(policy, w, k.id)
  {
    ControllersForElements(policy, plan);
    assert controllers[i] in controllers;
  }

  lemma OneMoreHeld(policy: ResourcePolicy, w: World, v: World, controllers: seq<ControllerPolicy>, i: nat, l: nat, epoch: nat)
    requires i < |controllers| && DistinctIds(controllers)
    requires HeldUpTo(w, controllers, i, l) && ReadyFrom(policy, w, controllers, i)
    requires Onward(w, v, {controllers[i].id}) && InEpoch(w, epoch)
    requires l in v.leases && SameTerms(w.leases[l], v.leases[l]) && w.leases[l].epoch == epoch
    requires HeldBy(v, controllers[i].id, l)
    ensures HeldUpTo(v, controllers, i + 1, l) && ReadyFrom(policy, v, controllers, i + 1)
  {
    hide Onward, HeldBy, Idle, QuantumElapsed;
    var but := {controllers[i].id};
    forall j | 0 <= j < i ensures HeldBy(v, controllers[j].id, l) {
      HeldLater(w, v, but, controllers[j].id, l, epoch);
    }
    forall j | i < j < |controllers|
      ensures controllers[j].id in v.plants && Idle(v, controllers[j].id) && QuantumElapsed(policy, v, controllers[j].id)
    {
      ReadyLater(policy, w, v, but, controllers[j].id);
    }
  }

  lemma OneMoreProof(proofs: seq<Proof>, proof: Proof, floor: int, controllers: seq<ControllerPolicy>, i: nat, l: nat, fence: nat, epoch: nat)
    requires i < |controllers| && Causal(proofs, floor) && Displacements(proofs, controllers[..i], l, fence, epoch)
    requires Proves(proof) && LastGeneration(proofs, floor) < proof.seen.generation
    requires proof.controller == controllers[i].id
    requires proof.command == SetMode(proof.command.mutation, l, fence, epoch, i + 1, Mode.Released)
    ensures Causal(proofs + [proof], floor) && Displacements(proofs + [proof], controllers[..i + 1], l, fence, epoch)
  {
    CausalGrows(proofs, proof, floor);
  }

  lemma CausalGrows(proofs: seq<Proof>, proof: Proof, floor: int)
    requires Causal(proofs, floor) && Proves(proof) && LastGeneration(proofs, floor) < proof.seen.generation
    ensures Causal(proofs + [proof], floor)
  {
    var all := proofs + [proof];
    forall i | 0 <= i < |all| ensures Proves(all[i]) && LastGeneration(all[..i], floor) < all[i].seen.generation {
      if i < |proofs| {
        assert all[..i] == proofs[..i];
      } else {
        assert all[..i] == proofs;
      }
    }
  }

  lemma ControllersDistinct(policy: ResourcePolicy, plan: Plan)
    requires PolicyOk(policy)
    ensures DistinctIds(ControllersFor(policy, plan))
  {
    var all := policy.controllers;
    var some := ChosenControllers(all, plan);
    ChosenDistinct(all, plan);
    SortElements(BY_PRIORITY, some);
    DistinctElements(some, ControllersFor(policy, plan));
    var ks := ControllersFor(policy, plan);
    forall i, j | 0 <= i < j < |ks| ensures ks[i].id != ks[j].id {
      assert ks[i] != ks[j] && ks[i] in all && ks[j] in all;
    }
  }

  lemma AllHeld(policy: ResourcePolicy, w: World, l: nat, plan: Plan)
    requires l in w.leases && w.leases[l].service == plan.service && w.leases[l].profile == plan.profile
    requires HeldUpTo(w, ControllersFor(policy, plan), |ControllersFor(policy, plan)|, l)
    ensures Held(policy, w, l)
  {
    ControllersForElements(policy, plan);
    var ks := ControllersFor(policy, plan);
    forall k | k in policy.controllers && ChosenFor(k, w.leases[l]) ensures HeldBy(w, k.id, l) {
      assert k in ks;
    }
  }

  // -------------------------------------------------------------------- restoring

  // The row of an open lease whose journaled displacements may be undone: it is of this
  // epoch, or of an earlier one and to be taken over.
  ghost predicate Restorable(w: World, l: nat, epoch: nat, recovery: Option<nat>)
  {
    && l in w.leases && Unclosed(w.leases[l]) && w.leases[l].status != Active
    && (if recovery.None? then w.leases[l].epoch == epoch
        else w.leases[l].epoch < epoch && recovery.value != w.leases[l].fence)
  }

  ghost predicate RestoredFrom(w: World, throttled: seq<Throttle>, n: nat, l: nat, epoch: nat)
  {
    forall j | n <= j < |throttled| :: RestoredTo(w, throttled[j].controller, l, epoch)
  }

  ghost predicate ProfilesFrom(policy: ResourcePolicy, throttled: seq<Throttle>, n: nat, restored: seq<string>)
  {
    && (forall j, k | n <= j < |throttled| && k in policy.controllers && k.id == throttled[j].controller ::
          k.profile in restored)
    && forall p | p in restored ::
         exists j, k :: n <= j < |throttled| && k in policy.controllers && k.id == throttled[j].controller && k.profile == p
  }

  lemma NoProfileYet(policy: ResourcePolicy, throttled: seq<Throttle>)
    ensures ProfilesFrom(policy, throttled, |throttled|, [])
  {
  }

  lemma OneMoreProfile(policy: ResourcePolicy, throttled: seq<Throttle>, i: nat, restored: seq<string>, profile: string)
    requires i < |throttled| && ProfilesFrom(policy, throttled, i + 1, restored)
    requires forall k | k in policy.controllers && k.id == throttled[i].controller :: k.profile == profile
    requires exists k :: k in policy.controllers && k.id == throttled[i].controller
    ensures ProfilesFrom(policy, throttled, i, restored + [profile])
  {
    forall p | p in restored + [profile]
      ensures exists j, k :: i <= j < |throttled| && k in policy.controllers && k.id == throttled[j].controller && k.profile == p
    {
      if p in restored {
        var j, k :| i + 1 <= j < |throttled| && k in policy.controllers && k.id == throttled[j].controller && k.profile == p;
      }
    }
  }

  lemma VerifiesAccepts(policy: ResourcePolicy, s: Situation, throttled: seq<Throttle>, profile: string, absent: bool)
    ensures Verifies(policy, s, throttled, profile, absent) ==> Accepts(s)
  {
  }

  lemma VerifiesExactly(policy: ResourcePolicy, s: Situation, throttled: seq<Throttle>, restored: seq<string>, expected: int,
                        profile: string, absent: bool)
    requires Accepts(s) && ProfilesFrom(policy, throttled, 0, restored) && expected <= Generation(s)
    ensures Verifies(policy, s, throttled, profile, absent) <==>
              && RestoredRefusal(Seen(policy, s), expected, restored).None?
              && (absent ==> ReleaseVerified(Seen(policy, s), profile, true))
  {
    var seen := Seen(policy, s);
    assert seen.generation == Generation(s);
    if forall p | p in restored :: p in seen.active && p in seen.profiles && seen.profiles[p] {
    } else {
      var p :| p in restored && !(p in seen.active && p in seen.profiles && seen.profiles[p]);
      var j, k :| 0 <= j < |throttled| && k in policy.controllers && k.id == throttled[j].controller && k.profile == p;
    }
  }

  // Every journaled displacement is undone, and every restoration of a training controller
  // is recorded.
  ghost predicate Closable(policy: ResourcePolicy, w: World, l: nat, epoch: nat)
  {
    && l in w.leases && Unclosed(w.leases[l])
    && (forall t | t in w.leases[l].throttle :: RestoredTo(w, t.controller, l, epoch))
    && (forall k | k in policy.controllers && k.training && Journals(w.leases[l], k.id) :: RestorationRecorded(w, k.id))
  }

  // The proofs of one restoration: the journal backwards.
  ghost predicate Restorations(proofs: seq<Proof>, lease: Lease, l: nat, epoch: nat, recovery: Option<nat>)
  {
    && |proofs| <= |lease.throttle|
    && forall i | 0 <= i < |proofs| ::
         var item := lease.throttle[|lease.throttle| - 1 - i];
         && proofs[i].controller == item.controller
         && proofs[i].command ==
              if recovery.None? then SetMode(proofs[i].command.mutation, l, lease.fence, lease.epoch, item.generation + 1_000_000, Normal)
              else Takeover(proofs[i].command.mutation, l, lease.fence, recovery.value, epoch, 1_000_000 + i + 1, Normal)
  }

  lemma ReadyToRestore(policy: ResourcePolicy, w: World, l: nat, item: Throttle, x: Command, epoch: nat, offset: nat, recovery: Option<nat>)
    requires Inv(policy, w) && InEpoch(w, epoch) && Restorable(w, l, epoch, recovery) && item in w.leases[l].throttle
    requires x == RestoreCommand(w.leases[l], l, item, w.nextId, epoch, offset, recovery)
    ensures MaySend(policy, Drawn(w), Flight(item.controller, x))
  {
    assert LeaseOk(policy, w, l);
    FreshCommand(policy, w, epoch, item.controller, x);
    hide Inv, Mentions;
    assert Journals(w.leases[l], item.controller);
  }

  lemma NowRestored(w: World, c: string, l: nat, x: Command, epoch: nat)
    requires c in w.plants && Settled(w.plants[c]) && Current(w.plants[c]) == x
    requires x.lease == l && x.target.Normal? && x.epoch == epoch
    ensures RestoredTo(w, c, l, epoch)
  {
  }

  lemma RestorableStays(w: World, v: World, l: nat, epoch: nat, recovery: Option<nat>)
    requires Restorable(w, l, epoch, recovery) && v.leases == w.leases
    ensures Restorable(v, l, epoch, recovery)
  {
  }

  lemma OneMoreRestored(w: World, v: World, throttled: seq<Throttle>, i: nat, l: nat, epoch: nat)
    requires i < |throttled| && InEpoch(w, epoch)
    requires RestoredFrom(w, throttled, i + 1, l, epoch)
    requires Onward(w, v, {throttled[i].controller}) && RestoredTo(v, throttled[i].controller, l, epoch)
    ensures RestoredFrom(v, throttled, i, l, epoch)
  {
    hide Onward, RestoredTo;
    forall j | i <= j < |throttled| ensures RestoredTo(v, throttled[j].controller, l, epoch) {
      if throttled[j].controller != throttled[i].controller {
        RestoredLater(w, v, {throttled[i].controller}, throttled[j].controller, l, epoch);
      }
    }
  }

  lemma OneMoreRestoration(proofs: seq<Proof>, proof: Proof, lease: Lease, l: nat, epoch: nat, recovery: Option<nat>)
    requires Restorations(proofs, lease, l, epoch, recovery) && |proofs| < |lease.throttle|
    requires var item := lease.throttle[|lease.throttle| - 1 - |proofs|];
      && proof.controller == item.controller
      && proof.command == RestoreCommand(lease, l, item, proof.command.mutation, epoch, |proofs| + 1, recovery)
    ensures Restorations(proofs + [proof], lease, l, epoch, recovery)
  {
  }

  lemma AllRestoredLater(w: World, v: World, throttled: seq<Throttle>, l: nat, epoch: nat)
    requires InEpoch(w, epoch) && Onward(w, v, {}) && RestoredFrom(w, throttled, 0, l, epoch)
    ensures RestoredFrom(v, throttled, 0, l, epoch)
  {
    hide Onward, RestoredTo;
    forall j | 0 <= j < |throttled| ensures RestoredTo(v, throttled[j].controller, l, epoch) {
      RestoredLater(w, v, {}, throttled[j].controller, l, epoch);
    }
  }

  lemma NowClosable(policy: ResourcePolicy, w: World, l: nat, epoch: nat, restored: seq<string>)
    requires l in w.leases && Unclosed(w.leases[l])
    requires RestoredFrom(w, w.leases[l].throttle, 0, l, epoch)
    requires ProfilesFrom(policy, w.leases[l].throttle, 0, restored)
    requires forall k | k in policy.controllers && k.training && k.profile in restored :: RestorationRecorded(w, k.id)
    ensures Closable(policy, w, l, epoch)
  {
  }

  lemma NoTakeoverYet(lease: Lease, l: nat, epoch: nat)
    ensures TakenOverInTurn([], lease, l, epoch)
  {
    assert Restorations([], lease, l, epoch, Some(lease.fence + 1));
  }

  lemma IsInHistory(policy: ResourcePolicy, h: seq<World>, w: World, since: nat, l: nat)
    requires SafeHistory(policy, h, w) && since < |h| && Wedged(policy, w, l)
    ensures WedgedAfter(policy, h, since, l)
  {
    hide Wedged;
    assert Wedged(policy, h[|h| - 1], l);
  }

  // A profile that a verified snapshot does not show holds no GPU consumer.
  lemma AbsenceIsSeen(w: World, s: Snapshot, l: nat)
    requires Truthful(w, s) && l in w.leases && ReleaseVerified(s, w.leases[l].profile, true)
    ensures l !in w.visible
  {
  }

  // The runtime started under this lease, if it still runs, holds a GPU consumer.
  predicate InSight(w: World, l: nat)
  {
    l in w.running ==> l in w.visible
  }

  // Undoing a lease's displacements is excused if its runtime has stopped, or has been out
  // of sight.
  ghost predicate MayUndo(w: World, h: seq<World>, l: nat)
  {
    l in w.running ==> Overlooked(h, |h|, l)
  }

  lemma MayUndoLater(w: World, h: seq<World>, v: World, g: seq<World>, l: nat)
    requires MayUndo(w, h, l) && v.running <= w.running && h <= g
    ensures MayUndo(v, g, l)
  {
    OverlookedLater(h, g, |h|, |g|, l);
  }

  lemma AbsentMayUndo(w: World, h: seq<World>, l: nat)
    requires h != [] && h[|h| - 1] == w && l in w.leases && w.leases[l].status != Active && l !in w.visible
    ensures MayUndo(w, h, l)
  {
    if l in w.running { assert OutOfSight(h[|h| - 1], l); }
  }

  // Once a runtime that was in sight is not, it has stopped.
  lemma GoneFromSight(w: World, v: World, u: World, but: set<string>, l: nat)
    requires Onward(w, v, but) && v.loose == w.loose && l !in v.visible && LooseOnly(v, u, l)
    ensures LooseOnly(w, u, l) && (InSight(w, l) ==> u.loose == w.loose)
  {
  }

  // All that is kept in mind of a call that may command any controller.
  ghost predicate Elapsed(w: World, v: World)
  {
    Onward(w, v, w.plants.Keys)
  }

  lemma ElapsedOnward(w: World, v: World, but: set<string>)
    requires Onward(w, v, but)
    ensures Elapsed(w, v) && v.running <= w.running && v.plants.Keys == w.plants.Keys
  {
  }

  lemma ElapsedTransitive(u: World, v: World, w: World)
    requires Elapsed(u, v) && Elapsed(v, w)
    ensures Elapsed(u, w)
  {
    OnwardTransitive(u, v, w, u.plants.Keys, v.plants.Keys, u.plants.Keys);
  }

  lemma LooseTransitive(u: World, v: World, w: World, l: nat)
    requires LooseOnly(u, v, l) && LooseOnly(v, w, l) && v.running <= u.running
    ensures LooseOnly(u, w, l)
  {
  }

  lemma PrefixOf(policy: ResourcePolicy, w: World, h: seq<World>, v: World, g: seq<World>)
    requires Persists(policy, w, h, v, g)
    ensures h <= g
  {
  }

  lemma PrefixTransitive(f: seq<World>, g: seq<World>, h: seq<World>)
    requires f <= g && g <= h
    ensures f <= h
  {
  }

  lemma JournalIsWedged(policy: ResourcePolicy, w: World, v: World, h: seq<World>, g: seq<World>, l: nat, c: string)
    requires c in w.plants && Idle(w, c) && |g| > |h| && g[|g| - 1] == v
    requires Quiet(w, c, Epoch(w.plants[c])) && Unheard(w, l) ==> Wedged(policy, v, l)
    ensures Unheard(w, l) ==> WedgedAfter(policy, g, |h|, l)
  {
    hide Wedged, Unheard;
  }

  lemma TakenUpItem(policy: ResourcePolicy, w: World, l: nat, item: Throttle)
    requires Inv(policy, w) && l in w.leases && Unclosed(w.leases[l]) && item in w.leases[l].throttle
    ensures TakenUp(w, item.controller, l) ==> Wedged(policy, w, l)
  {
    hide Inv;
    assert Journals(w.leases[l], item.controller);
    if TakenUp(w, item.controller, l) { TakenUpIsWedged(policy, w, l, item.controller); }
  }

  lemma DrawnKeepsRefusals(policy: ResourcePolicy, w: World)
    ensures RefusalsStay(policy, w, Drawn(w))
  {
    RefusalsStayPut(policy, w, Drawn(w));
  }

  lemma NothingHappened(policy: ResourcePolicy, w: World, h: seq<World>, l: nat, throttled: seq<Throttle>)
    requires l in w.leases
    ensures Elapsed(w, w) && LooseOnly(w, w, l) && Persists(policy, w, h, w, h)
    ensures AgreeFrom(policy, w, l, h, |h|, throttled, |throttled|)
  {
    PersistsPut(policy, w, h, w);
  }

  lemma OneMoreCall(u: World, v: World, w: World, l: nat)
    requires Elapsed(u, v) && Elapsed(v, w) && LooseOnly(u, v, l) && LooseOnly(v, w, l)
    ensures Elapsed(u, w) && LooseOnly(u, w, l)
  {
    ElapsedTransitive(u, v, w);
    LooseTransitive(u, v, w, l);
  }

  lemma OneMoreAgreed(policy: ResourcePolicy, w: World, h: seq<World>, v: World, g: seq<World>, f: seq<World>, l: nat, throttled: seq<Throttle>, i: nat)
    requires Persists(policy, w, h, v, g) && AgreeFrom(policy, w, l, g, |h|, throttled, i + 1) && i < |throttled| && g <= f
    requires l in v.leases && Agrees(policy, v, l, throttled[i].controller, f, |g|)
    ensures AgreeFrom(policy, w, l, f, |h|, throttled, i)
  {
    hide Agrees, AgreeFrom, RefusalsStay;
    OneMoreAgrees(policy, w, v, l, g, f, |g|, |h|, throttled, i);
  }

  lemma WedgedOn(policy: ResourcePolicy, w: World, h: seq<World>, v: World, g: seq<World>, l: nat)
    requires Persists(policy, w, h, v, g)
    ensures Wedged(policy, w, l) ==> Wedged(policy, v, l)
  {
    PersistentEndures(policy, w, h, v, g);
  }

  lemma FenceIsFresh(policy: ResourcePolicy, w: World, l: nat)
    requires Inv(policy, w) && l in w.leases
    ensures w.leases[l].fence < w.nextId
  {
    assert LeaseOk(policy, w, l);
  }

  // The restorations of a restart, under one recovery fence of their own.
  ghost predicate TakenOverInTurn(proofs: seq<Proof>, lease: Lease, l: nat, epoch: nat)
  {
    exists fence: nat :: fence != lease.fence && Restorations(proofs, lease, l, epoch, Some(fence))
  }

  lemma TakenOverUnder(proofs: seq<Proof>, lease: Lease, l: nat, epoch: nat, fence: nat)
    requires fence != lease.fence && Restorations(proofs, lease, l, epoch, Some(fence))
    ensures TakenOverInTurn(proofs, lease, l, epoch)
  {
  }

  lemma RecoveryAgreed(policy: ResourcePolicy, w: World, h: seq<World>, v: World, g: seq<World>, f: seq<World>, l: nat)
    requires Persists(policy, w, h, v, g) && l in w.leases && l in v.leases && g <= f
    requires AgreeFrom(policy, v, l, f, |g|, w.leases[l].throttle, 0)
    ensures Reclaimed(policy, w, l, f, |h|)
  {
    hide AgreeFrom, RefusalsStay;
    AllAgreeEarlier(policy, w, v, l, f, f, |g|, |h|, w.leases[l].throttle, 0);
    AllAgreed(policy, w, l, f, |h|);
  }

  lemma ReclaimedEarlier(policy: ResourcePolicy, w: World, h: seq<World>, v: World, g: seq<World>, f: seq<World>, l: nat)
    requires Persists(policy, w, h, v, g) && l in w.leases && Reclaimed(policy, v, l, f, |g|) && g <= f
    ensures Reclaimed(policy, w, l, f, |h|)
  {
    hide RefusalsStay, Wedged, Waits, Shown;
    if Wedged(policy, w, l) { StaysWedged(policy, w, v, l); }
    forall c, e | Waits(policy, w, l, c, e) ensures Shown(policy, f, |h|, |f|, c, e) {
      StillWaits(policy, w, v, l, c, e);
      ShownLater(policy, f, f, |g|, |h|, |f|, |f|, c, e);
    }
  }

  // Closing a reclaimed lease leaves every other one as it was.
  lemma ClosedEndures(policy: ResourcePolicy, w: World, h: seq<World>, v: World, g: seq<World>, u: World, l: nat)
    requires Endures(policy, w, h, v, g) && Reclaimed(policy, w, l, g, |h|)
    requires l in v.leases && l in u.leases && u == Rewritten(v, l, u.leases[l])
    ensures Endures(policy, w, h, u, g + [u])
  {
    hide Wedged, Waits, Shown;
    var f := g + [u];
    forall m | Wedged(policy, w, m)
      ensures Wedged(policy, u, m) && forall i | |h| <= i < |f| :: Wedged(policy, f[i], m)
    {
      assert Wedged(policy, v, m);
      ElsewhereWedged(policy, v, u, l, m);
    }
    forall m, c, e | Waits(policy, w, m, c, e)
      ensures Waits(policy, u, m, c, e) || Shown(policy, f, |h|, |f|, c, e)
      ensures forall i | |h| <= i < |f| :: Waits(policy, f[i], m, c, e) || Shown(policy, f, |h|, i + 1, c, e)
    {
      ClosedWaits(policy, w, h, v, g, u, l, m, c, e);
    }
  }

  lemma ClosedWaits(policy: ResourcePolicy, w: World, h: seq<World>, v: World, g: seq<World>, u: World, l: nat,
                    m: nat, c: string, e: Option<Evidence>)
    requires Endures(policy, w, h, v, g) && Reclaimed(policy, w, l, g, |h|) && Waits(policy, w, m, c, e)
    requires l in v.leases && l in u.leases && u == Rewritten(v, l, u.leases[l])
    ensures Waits(policy, u, m, c, e) || Shown(policy, g + [u], |h|, |g| + 1, c, e)
    ensures forall i | |h| <= i < |g| :: Waits(policy, g[i], m, c, e) || Shown(policy, g + [u], |h|, i + 1, c, e)
  {
    hide Wedged, Waits, Shown;
    ShownLater(policy, g, g + [u], |h|, |h|, |g|, |g| + 1, c, e);
    if m != l && Waits(policy, v, m, c, e) { ElsewhereWaits(policy, v, u, l, m, c, e); }
    forall i | |h| <= i < |g| ensures Waits(policy, g[i], m, c, e) || Shown(policy, g + [u], |h|, i + 1, c, e) {
      ShownLater(policy, g, g + [u], |h|, |h|, i + 1, i + 1, c, e);
    }
  }

  lemma ElsewhereWaits(policy: ResourcePolicy, v: World, u: World, l: nat, m: nat, c: string, e: Option<Evidence>)
    requires Waits(policy, v, m, c, e) && l != m && l in u.leases && u == Rewritten(v, l, u.leases[l])
    ensures Waits(policy, u, m, c, e)
  {
    assert Journals(u.leases[m], c);
    assert Refuses(policy, v, m, c) ==> Refuses(policy, u, m, c);
    assert Rests(v, m, c, e) ==> Rests(u, m, c, e);
  }

  lemma ElsewhereWedged(policy: ResourcePolicy, v: World, u: World, l: nat, m: nat)
    requires Wedged(policy, v, m) && l != m && l in u.leases && u == Rewritten(v, l, u.leases[l])
    ensures Wedged(policy, u, m)
  {
    var c :| Journals(v.leases[m], c) && c in v.plants && Refuses(policy, v, m, c);
    assert Journals(u.leases[m], c) && Refuses(policy, u, m, c);
  }

  lemma FreshIsUnheard(policy: ResourcePolicy, w: World, l: nat)
    requires Inv(policy, w) && l == w.nextId
    ensures Unheard(w, l) && forall m | m in w.leases :: m < l
  {
    forall m | m in w.leases ensures m < l {
      assert LeaseOk(policy, w, m);
    }
    forall c | c in w.plants && w.plants[c].authority.Some? ensures Current(w.plants[c]).lease != l {
      assert PlantOk(policy, w, c);
    }
  }

  lemma ConfirmsExactly(policy: ResourcePolicy, after: Snapshot, causal: int, plan: Plan)
    ensures AdmissionRefusal(policy, after, causal, plan).None? <==>
      && causal <= after.generation
      && ValidateSnapshot(policy, after, plan, true).None? && ValidateCompatibility(after, plan).None?
  {
  }

  lemma NeverStale(policy: ResourcePolicy, s: Snapshot, plan: Plan)
    ensures ValidateSnapshot(policy, s, plan, false) != Some("resource_snapshot_stale")
  {
  }

  // No accepted generation is behind an earlier one.
  lemma NotStale(policy: ResourcePolicy, after: Snapshot, causal: int, plan: Plan)
    ensures causal <= after.generation ==> AdmissionRefusal(policy, after, causal, plan) != Some("resource_snapshot_stale")
  {
  }

  // No controller's record is of this lease yet.
  ghost predicate Unheard(w: World, l: nat)
  {
    forall c | c in w.plants && w.plants[c].authority.Some? :: Current(w.plants[c]).lease != l
  }

  lemma NoRestorationYet(w: World, lease: Lease, l: nat, epoch: nat, recovery: Option<nat>, floor: int)
    ensures Causal([], floor) && Restorations([], lease, l, epoch, recovery)
    ensures RestoredFrom(w, lease.throttle, |lease.throttle|, l, epoch)
  {
  }

  // -------------------------------------------------------------------- admission

  // The scheduler's handle on an active lease of this epoch.
  ghost predicate Holds(w: World, h: Handle, epoch: nat)
  {
    && h.lease in w.leases
    && w.leases[h.lease].status == Active
    && w.leases[h.lease].epoch == epoch
    && w.leases[h.lease].throttle == h.throttled
  }

  lemma OpenedIsOnward(policy: ResourcePolicy, w: World, lease: Lease)
    requires Inv(policy, w)
    ensures w.nextId !in w.leases && w.nextId !in w.running && Onward(w, Opened(w, lease), {})
  {
    assert forall l | l in w.leases :: LeaseOk(policy, w, l);
    TableIsOnward(w, Opened(w, lease));
  }

  lemma AllReady(policy: ResourcePolicy, w: World, plan: Plan)
    requires Inv(policy, w) && AllClosed(w)
    requires forall k | k in ControllersFor(policy, plan) :: QuantumElapsed(policy, w, k.id)
    ensures ReadyFrom(policy, w, ControllersFor(policy, plan), 0)
  {
    hide QuantumElapsed, Idle;
    ControllersForElements(policy, plan);
    var ks := ControllersFor(policy, plan);
    forall j | 0 <= j < |ks| ensures ks[j].id in w.plants && Idle(w, ks[j].id) {
      assert ks[j] in policy.controllers;
      AllClosedIdle(policy, w, ks[j].id);
    }
  }

  lemma AllReadyLater(policy: ResourcePolicy, w: World, v: World, controllers: seq<ControllerPolicy>)
    requires Onward(w, v, {}) && ReadyFrom(policy, w, controllers, 0)
    ensures ReadyFrom(policy, v, controllers, 0)
  {
    hide Onward, Idle, QuantumElapsed;
    forall j | 0 <= j < |controllers|
      ensures controllers[j].id in v.plants && Idle(v, controllers[j].id) && QuantumElapsed(policy, v, controllers[j].id)
    {
      ReadyLater(policy, w, v, {}, controllers[j].id);
    }
  }

  lemma HeldAllLater(policy: ResourcePolicy, w: World, v: World, l: nat, epoch: nat)
    requires l in w.leases && InEpoch(w, epoch) && w.leases[l].epoch == epoch
    requires Onward(w, v, {}) && v.leases == w.leases && Held(policy, w, l)
    ensures Held(policy, v, l)
  {
    hide Onward, HeldBy;
    forall k | k in policy.controllers && ChosenFor(k, v.leases[l]) ensures HeldBy(v, k.id, l) {
      HeldLater(w, v, {}, k.id, l, epoch);
    }
  }

  lemma MayActivate(policy: ResourcePolicy, w: World, l: nat)
    requires Inv(policy, w) && l in w.leases && Unclosed(w.leases[l]) && Held(policy, w, l)
    ensures MayRewrite(policy, w, l, w.leases[l].(status := Active))
  {
    assert LeaseOk(policy, w, l);
    SameHeld(policy, w, Rewritten(w, l, w.leases[l].(status := Active)), l);
  }

  // Every restoration was preceded by a snapshot that is healthy, has no unknown consumer
  // and does not show the leased profile.
  ghost predicate RestoredAfter(proofs: seq<Proof>, absence: Option<Snapshot>, profile: string)
  {
    proofs != [] ==>
      absence.Some? && ReleaseVerified(absence.value, profile, true) && Causal(proofs, absence.value.generation)
  }

  // The lease is closed, and every controller its journal names is back in its normal mode
  // in this epoch, out of reach of anything in flight.
  ghost predicate ClosedSafely(policy: ResourcePolicy, w: World, l: nat, epoch: nat)
  {
    && l in w.leases && w.leases[l].status in {Status.Released, Status.Denied}
    && (forall t | t in w.leases[l].throttle :: RestoredTo(w, t.controller, l, epoch))
    && (forall k | k in policy.controllers && k.training && Journals(w.leases[l], k.id) :: RestorationRecorded(w, k.id))
    && FlightsBefore(w, epoch)
  }

  ghost predicate Admitted(policy: ResourcePolicy, w: World, v: World, h: Handle, plan: Plan, epoch: nat)
  {
    && AllClosed(w)
    && (forall l | l in w.leases :: l < h.lease)
    && Holds(v, h, epoch)
    && v.leases == w.leases[h.lease := Lease(epoch, h.lease + 1, plan.profile, plan.service, plan.mode, Active, h.throttled)]
    && Held(policy, v, h.lease)
  }

  // A refused admission: nothing happened, or all of it is undone and the lease denied, or
  // the lease is unknown and the coordinator quarantined.
  ghost predicate Refused(policy: ResourcePolicy, w: World, v: World, before: Option<string>, after: Option<string>, epoch: nat)
  {
    || (v.leases == w.leases && after == before)
    || (exists l | l in v.leases ::
          && l !in w.leases && v.leases == w.leases[l := v.leases[l]]
          && (|| (v.leases[l].status == Denied && ClosedSafely(policy, v, l, epoch) && after == before)
              || (v.leases[l].status == Unknown && after.Some?)))
  }

  lemma TruthStays(w: World, v: World, l: nat, s: Snapshot)
    requires Truthful(w, s) && l in w.leases && l in v.leases && SameTerms(w.leases[l], v.leases[l])
    requires v == w.(leases := w.leases[l := v.leases[l]])
    ensures Truthful(v, s)
  {
  }

  lemma NowClosed(policy: ResourcePolicy, w: World, v: World, l: nat, epoch: nat)
    requires Closable(policy, w, l, epoch) && InEpoch(w, epoch)
    requires l in v.leases && v == w.(leases := w.leases[l := v.leases[l]])
    requires v.leases[l].status in {Status.Released, Status.Denied} && v.leases[l].throttle == w.leases[l].throttle
    ensures ClosedSafely(policy, v, l, epoch)
  {
  }

  // -------------------------------------------------------------------- restart

  function Marked(w: World): World
  {
    w.(leases := MarkedUnknown(w.leases))
  }

  // Where reconciliation starts: in the new epoch, with every open lease unknown.
  function AtRestart(s: Situation, epoch: nat): Situation
  {
    s.(world := Marked(s.world.(storeEpoch := epoch, epochFile := epoch)))
  }

  lemma MarkKeepsInv(policy: ResourcePolicy, w: World)
    requires Inv(policy, w)
    ensures Inv(policy, Marked(w))
  {
    hide Sound, Attributed, Mentions, DisplacedBy, Epoch, Displaced, Current;
    var v := Marked(w);
    forall l | l in v.leases ensures LeaseOk(policy, v, l) {
      assert LeaseOk(policy, w, l);
    }
    forall l, c | l in w.leases && Journals(w.leases[l], c) ensures Journals(v.leases[l], c) {
    }
    TableChange(policy, w, v);
  }

  lemma NewEpoch(policy: ResourcePolicy, w: World, epoch: nat)
    requires Inv(policy, w) && w.storeEpoch < epoch
    ensures Inv(policy, w.(storeEpoch := epoch)) && InEpoch(w.(storeEpoch := epoch), epoch)
    ensures Inv(policy, w.(storeEpoch := epoch, epochFile := epoch))
    ensures forall l | l in w.leases :: w.leases[l].epoch < epoch
  {
    FrameKeepsInv(policy, w, w.(storeEpoch := epoch));
    FrameKeepsInv(policy, w, w.(storeEpoch := epoch, epochFile := epoch));
    forall f | f in w.flights ensures f.command.epoch < epoch {
      assert Deliverable(policy, w, f);
    }
    forall l | l in w.leases ensures w.leases[l].epoch < epoch {
      assert LeaseOk(policy, w, l);
    }
  }

  lemma OnlyStale(w: World, marked: map<nat, Lease>, stale: seq<nat>)
    requires marked == MarkedUnknown(w.leases) && forall l | l in marked && Unclosed(marked[l]) :: stale == [l]
    ensures forall l | l in w.leases && Unclosed(w.leases[l]) :: stale == [l]
  {
    forall l | l in w.leases && Unclosed(w.leases[l]) ensures stale == [l] {
      assert l in marked && Unclosed(marked[l]);
    }
  }

  // At most one lease is stale, and it is the one that was open.
  lemma StaleIsOne(policy: ResourcePolicy, w: World, stale: seq<nat>)
    requires Inv(policy, w)
    requires forall l :: l in stale <==> l < w.nextId && l in w.leases && w.leases[l].status == Unknown
    requires forall i, j | 0 <= i < j < |stale| :: stale[i] < stale[j]
    requires forall l | l in w.leases && Unclosed(w.leases[l]) :: w.leases[l].status == Unknown
    ensures |stale| <= 1
    ensures forall l | l in w.leases && Unclosed(w.leases[l]) :: stale == [l]
  {
    assert OneOpenLease(w);
    if |stale| > 1 {
      assert stale[0] in stale && stale[1] in stale;
      assert Unclosed(w.leases[stale[0]]) && Unclosed(w.leases[stale[1]]);
    }
    forall l | l in w.leases && Unclosed(w.leases[l]) ensures stale == [l] {
      assert LeaseOk(policy, w, l);
      assert l in stale;
    }
  }

  // What a restart does to one lease: nothing to a closed one; an open one is released with
  // every journaled controller restored, or unknown with the coordinator quarantined.
  ghost predicate ReconciledLease(policy: ResourcePolicy, w: World, v: World, l: nat, quarantine: Option<string>, epoch: nat)
    requires l in w.leases
  {
    && l in v.leases
    && v.leases[l] == w.leases[l].(status := v.leases[l].status)
    && (if !Unclosed(w.leases[l]) then v.leases[l] == w.leases[l]
        else (v.leases[l].status == Status.Released && ClosedSafely(policy, v, l, epoch))
             || (v.leases[l].status == Unknown && quarantine.Some?))
  }

  ghost predicate Reconciled(policy: ResourcePolicy, w: World, v: World, quarantine: Option<string>, epoch: nat)
  {
    && v.leases.Keys == w.leases.Keys
    && forall l | l in w.leases :: ReconciledLease(policy, w, v, l, quarantine, epoch)
  }

  lemma NoneWasOpen(policy: ResourcePolicy, w: World, v: World, quarantine: Option<string>, epoch: nat)
    requires v.leases == MarkedUnknown(w.leases)
    requires forall l | l in v.leases :: !Unclosed(v.leases[l])
    ensures Reconciled(policy, w, v, quarantine, epoch) && AllClosed(v)
  {
    forall l | l in w.leases ensures ReconciledLease(policy, w, v, l, quarantine, epoch) {
      assert !Unclosed(v.leases[l]);
    }
  }

  ghost predicate OneReconciled(policy: ResourcePolicy, marked: map<nat, Lease>, v: World, l: nat, quarantine: Option<string>, epoch: nat)
  {
    && l in marked && l in v.leases
    && v.leases == marked[l := marked[l].(status := v.leases[l].status)]
    && (|| (v.leases[l].status == Status.Released && ClosedSafely(policy, v, l, epoch))
        || (v.leases[l].status == Unknown && quarantine.Some?))
  }

  lemma OneWasOpen(policy: ResourcePolicy, w: World, marked: map<nat, Lease>, v: World, l: nat, quarantine: Option<string>, epoch: nat)
    requires marked == MarkedUnknown(w.leases) && l in marked && Unclosed(marked[l])
    requires forall m | m in marked && Unclosed(marked[m]) :: m == l
    requires OneReconciled(policy, marked, v, l, quarantine, epoch)
    ensures Reconciled(policy, w, v, quarantine, epoch)
    ensures quarantine.None? ==> AllClosed(v)
  {
    hide ClosedSafely;
    forall m | m in w.leases ensures ReconciledLease(policy, w, v, m, quarantine, epoch) {
      if m != l { assert !Unclosed(marked[m]); }
    }
  }

  lemma NowReconciled(policy: ResourcePolicy, marked: map<nat, Lease>, v: World, l: nat, quarantine: Option<string>, epoch: nat)
    requires l in marked && l in v.leases && v.leases == marked[l := marked[l].(status := v.leases[l].status)]
    requires (v.leases[l].status == Status.Released && ClosedSafely(policy, v, l, epoch))
             || (v.leases[l].status == Unknown && quarantine.Some?)
    ensures OneReconciled(policy, marked, v, l, quarantine, epoch)
  {
  }

  lemma OpenIsUnknown(policy: ResourcePolicy, w: World, v: World, quarantine: Option<string>, epoch: nat, l: nat)
    requires Reconciled(policy, w, v, quarantine, epoch) && l in w.leases && l in v.leases && Unclosed(v.leases[l])
    ensures v.leases[l].status == Unknown && quarantine.Some?
  {
    assert ReconciledLease(policy, w, v, l, quarantine, epoch);
  }

  lemma WedgedIsUnknown(policy: ResourcePolicy, w: World, h: seq<World>, v: World, g: seq<World>, quarantine: Option<string>, epoch: nat)
    requires Endures(policy, w, h, v, g) && Reconciled(policy, w, v, quarantine, epoch)
    ensures forall l | Wedged(policy, w, l) :: l in v.leases && v.leases[l].status == Unknown && quarantine.Some?
  {
    hide Reconciled;
    forall l | Wedged(policy, w, l) ensures l in v.leases && v.leases[l].status == Unknown && quarantine.Some? {
      assert Wedged(policy, v, l);
      OpenIsUnknown(policy, w, v, quarantine, epoch, l);
    }
  }

  // ------------------------------------------------- what one epoch admits only once

  function IdsOf(controllers: seq<ControllerPolicy>): set<string>
  {
    set k | k in controllers :: k.id
  }

  ghost predicate ReadmitsAll(w: World, proofs: seq<Proof>)
  {
    forall i | 0 <= i < |proofs| :: Readmits(w, proofs[i].controller, proofs[i].command)
  }

  lemma OneMoreReadmitted(u: World, w: World, v: World, controllers: seq<ControllerPolicy>, i: nat, proofs: seq<Proof>, proof: Proof)
    requires i < |controllers| && DistinctIds(controllers) && controllers[i].id in w.plants
    requires Onward(u, w, IdsOf(controllers[..i])) && Onward(w, v, {controllers[i].id})
    requires ReadmitsAll(u, proofs)
    requires proof.controller == controllers[i].id && Readmits(w, controllers[i].id, proof.command)
    ensures ReadmitsAll(u, proofs + [proof])
    ensures Onward(u, v, IdsOf(controllers[..i + 1]))
  {
    hide Readmits;
    ElapsedOnward(u, w, IdsOf(controllers[..i]));
    hide Onward;
    OneMoreId(controllers, i);
    ReadmitsEarlier(u, w, IdsOf(controllers[..i]), controllers[i].id, proof.command);
    OnwardTransitive(u, w, v, IdsOf(controllers[..i]), {controllers[i].id}, IdsOf(controllers[..i + 1]));
  }

  // What the admission loop has established once the first `i` controllers are displaced.
  ghost predicate SoFar(policy: ResourcePolicy, w0: World, w: World, controllers: seq<ControllerPolicy>, i: nat, l: nat,
                        proofs: seq<Proof>, floor: int, epoch: nat)
  {
    && i <= |controllers| && |proofs| == i && l in w.leases
    && Onward(w0, w, IdsOf(controllers[..i])) && ReadmitsAll(w0, proofs)
    && HeldUpTo(w, controllers, i, l) && ReadyFrom(policy, w, controllers, i)
    && Causal(proofs, floor) && Displacements(proofs, controllers[..i], l, w.leases[l].fence, epoch)
  }

  lemma NoneSoFar(policy: ResourcePolicy, w: World, controllers: seq<ControllerPolicy>, l: nat, floor: int, epoch: nat)
    requires l in w.leases && ReadyFrom(policy, w, controllers, 0) && Onward(w, w, {})
    ensures SoFar(policy, w, w, controllers, 0, l, [], floor, epoch) && LastGeneration([], floor) == floor
  {
    hide Onward, ReadyFrom;
    NothingYet(w, controllers, l, floor, epoch);
  }

  lemma OneMoreSoFar(policy: ResourcePolicy, w0: World, w: World, v: World, controllers: seq<ControllerPolicy>, i: nat, l: nat,
                     proofs: seq<Proof>, proof: Proof, floor: int, epoch: nat)
    requires SoFar(policy, w0, w, controllers, i, l, proofs, floor, epoch) && i < |controllers| && DistinctIds(controllers)
    requires Onward(w, v, {controllers[i].id}) && InEpoch(w, epoch) && controllers[i].id in w.plants
    requires l in v.leases && SameTerms(w.leases[l], v.leases[l]) && v.leases[l].fence == w.leases[l].fence && w.leases[l].epoch == epoch
    requires HeldBy(v, controllers[i].id, l) && Readmits(w, controllers[i].id, proof.command)
    requires Proves(proof) && LastGeneration(proofs, floor) < proof.seen.generation && proof.controller == controllers[i].id
    requires proof.command == SetMode(proof.command.mutation, l, w.leases[l].fence, epoch, i + 1, Mode.Released)
    ensures SoFar(policy, w0, v, controllers, i + 1, l, proofs + [proof], floor, epoch)
    ensures LastGeneration(proofs + [proof], floor) == proof.seen.generation
  {
    hide Onward, ReadmitsAll, HeldUpTo, ReadyFrom, Causal, Displacements, Proves, HeldBy, Readmits, InEpoch, DistinctIds, IdsOf;
    OneMoreReadmitted(w0, w, v, controllers, i, proofs, proof);
    OneMoreHeld(policy, w, v, controllers, i, l, epoch);
    OneMoreProof(proofs, proof, floor, controllers, i, l, w.leases[l].fence, epoch);
  }

  lemma ReadySoFar(policy: ResourcePolicy, w0: World, w: World, controllers: seq<ControllerPolicy>, i: nat, l: nat,
                   proofs: seq<Proof>, floor: int, epoch: nat)
    requires SoFar(policy, w0, w, controllers, i, l, proofs, floor, epoch)
    ensures ReadyFrom(policy, w, controllers, i)
  {
    hide ReadyFrom;
  }

  lemma AllSoFar(policy: ResourcePolicy, w0: World, w: World, plan: Plan, l: nat, proofs: seq<Proof>, floor: int, epoch: nat)
    requires SoFar(policy, w0, w, ControllersFor(policy, plan), |ControllersFor(policy, plan)|, l, proofs, floor, epoch)
    requires w.leases[l].service == plan.service && w.leases[l].profile == plan.profile
    ensures Held(policy, w, l) && ReadmitsAll(w0, proofs) && Causal(proofs, floor)
    ensures Displacements(proofs, ControllersFor(policy, plan), l, w.leases[l].fence, epoch)
  {
    hide Onward, ReadmitsAll, ReadyFrom, Causal, Displacements, ControllersFor, HeldUpTo;
    var controllers := ControllersFor(policy, plan);
    AllHeld(policy, w, l, plan);
    assert controllers[..|controllers|] == controllers;
  }

  lemma OneMoreId(controllers: seq<ControllerPolicy>, i: nat)
    requires i < |controllers| && DistinctIds(controllers)
    ensures controllers[i].id !in IdsOf(controllers[..i])
    ensures IdsOf(controllers[..i]) + {controllers[i].id} <= IdsOf(controllers[..i + 1])
  {
    assert controllers[..i + 1] == controllers[..i] + [controllers[i]];
  }

  // No controller but the first has a record of this epoch.
  ghost predicate UnusedBeyondFirst(w: World, controllers: seq<ControllerPolicy>, epoch: nat)
  {
    forall i | 1 <= i < |controllers| :: controllers[i].id in w.plants && !Used(w, controllers[i].id, epoch)
  }

  predicate Used(w: World, c: string, epoch: nat)
  {
    c in w.plants && w.plants[c].authority.Some? && epoch <= Current(w.plants[c]).epoch
  }

  lemma UsedLater(w: World, v: World, c: string, epoch: nat)
    requires Elapsed(w, v) && Used(w, c, epoch) && 1 <= epoch
    ensures Used(v, c, epoch)
  {
  }

  lemma UnusedEarlier(w: World, v: World, controllers: seq<ControllerPolicy>, epoch: nat)
    requires Elapsed(w, v) && UnusedBeyondFirst(v, controllers, epoch) && 1 <= epoch
    ensures UnusedBeyondFirst(w, controllers, epoch)
  {
    ElapsedOnward(w, v, w.plants.Keys) by { hide Used; }
    hide Onward, Used;
    forall i | 1 <= i < |controllers| ensures controllers[i].id in w.plants && !Used(w, controllers[i].id, epoch) {
      if Used(w, controllers[i].id, epoch) { UsedLater(w, v, controllers[i].id, epoch); }
    }
  }

  lemma AllWedgedLater(policy: ResourcePolicy, h: seq<World>, since: nat, earlier: nat)
    requires earlier <= since
    ensures forall l | WedgedAfter(policy, h, since, l) :: WedgedAfter(policy, h, earlier, l)
  {
    hide Wedged;
  }

  lemma OnlyFirstWasUsed(policy: ResourcePolicy, u: World, w: World, plan: Plan, proofs: seq<Proof>, l: nat, fence: nat, epoch: nat)
    requires Inv(policy, u) && AllClosed(u) && l !in u.leases && InEpoch(u, epoch)
    requires Onward(u, w, {}) && ReadmitsAll(w, proofs)
    requires Displacements(proofs, ControllersFor(policy, plan), l, fence, epoch)
    ensures UnusedBeyondFirst(u, ControllersFor(policy, plan), epoch)
  {
    hide Onward, Sound, Attributed, Mentions;
    ControllersForElements(policy, plan);
    var ks := ControllersFor(policy, plan);
    forall i | 1 <= i < |ks| ensures ks[i].id in u.plants && !Used(u, ks[i].id, epoch) {
      var c := ks[i].id;
      assert ks[i] in policy.controllers;
      assert Readmits(w, proofs[i].controller, proofs[i].command);
      ReadmitsEarlier(u, w, {}, c, proofs[i].command);
      AllClosedIdle(policy, u, c);
      NotReadmitted(policy, u, c, proofs[i].command, l, epoch);
    }
  }

  lemma NotReadmitted(policy: ResourcePolicy, u: World, c: string, x: Command, l: nat, epoch: nat)
    requires Inv(policy, u) && c in u.plants && l !in u.leases && u.storeEpoch == epoch
    requires x.SetMode? && x.lease == l && x.epoch == epoch && x.generation > 1
    requires Admits(u.plants[c], x)
    ensures !Used(u, c, epoch)
  {
    assert PlantOk(policy, u, c);
  }

  // An admission leaves every chosen controller with a record of its epoch.
  lemma HeldIsUsed(policy: ResourcePolicy, w: World, l: nat, plan: Plan)
    requires l in w.leases && Held(policy, w, l)
    requires w.leases[l].service == plan.service && w.leases[l].profile == plan.profile
    ensures forall k | k in ControllersFor(policy, plan) :: Used(w, k.id, w.leases[l].epoch)
  {
    ControllersForElements(policy, plan);
    forall k | k in ControllersFor(policy, plan) ensures Used(w, k.id, w.leases[l].epoch) {
      assert ChosenFor(k, w.leases[l]);
      assert HeldBy(w, k.id, l);
    }
  }

  // What the snapshot after a restoration shows: it includes the last restoration, every
  // restored controller's profile is active and healthy, and, where asked for, it is healthy
  // without unknown consumers and without the leased profile.
  ghost predicate ShowsRestored(policy: ResourcePolicy, s: Snapshot, lease: Lease, proofs: seq<Proof>, absent: bool)
  {
    && (proofs != [] ==> proofs[|proofs| - 1].seen.generation <= s.generation)
    && (absent ==> ReleaseVerified(s, lease.profile, true))
    && forall k | k in policy.controllers && Journals(lease, k.id) ::
         k.profile in s.active && k.profile in s.profiles && s.profiles[k.profile]
  }

  lemma NowShown(policy: ResourcePolicy, s: Snapshot, lease: Lease, proofs: seq<Proof>, floor: int, expected: int, restored: seq<string>, absent: bool)
    requires ProfilesFrom(policy, lease.throttle, 0, restored) && RestoredRefusal(s, expected, restored).None?
    requires proofs != [] ==> LastGeneration(proofs, floor) <= expected
    requires absent ==> ReleaseVerified(s, lease.profile, true)
    ensures ShowsRestored(policy, s, lease, proofs, absent)
  {
    forall k | k in policy.controllers && Journals(lease, k.id) ensures k.profile in restored {
      var j :| 0 <= j < |lease.throttle| && lease.throttle[j].controller == k.id;
    }
  }
}
