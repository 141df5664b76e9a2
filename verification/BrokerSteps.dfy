// The broker's own durable steps as functions of what survives it, and why each keeps the
// invariant of `Worlds`. The premises are what the coordinator has to have established.
module BrokerSteps {
  import opened Wrappers
  import opened Protocol
  import opened Controller
  import opened ControllerSteps
  import opened ControllerRuns
  import opened PlantMoves
  import opened Worlds

  // A new lease takes two fresh identifiers: its own and its fence.
  function Opened(w: World, lease: Lease): World
  {
    w.(leases := w.leases[w.nextId := lease], nextId := w.nextId + 2)
  }

  function Rewritten(w: World, l: nat, lease: Lease): World
  {
    w.(leases := w.leases[l := lease])
  }

  function Drawn(w: World): World
  {
    w.(nextId := w.nextId + 1)
  }

  // Restoring over a runtime that is started is on record.
  function Sent(w: World, f: Flight): World
  {
    w.(flights := w.flights + {f},
       loose := if f.command.target.Normal? && f.command.lease in w.running then w.loose + {f.command.lease} else w.loose)
  }

  // Nothing but this lease may have become loose, and not even it if its runtime had stopped.
  predicate LooseOnly(w: World, v: World, l: nat)
  {
    w.loose <= v.loose <= w.loose + {l} && (l !in w.running ==> v.loose == w.loose)
  }

  predicate AllClosed(w: World)
  {
    forall l | l in w.leases :: !Unclosed(w.leases[l])
  }

  // Once no lease is open no controller is displaced, and nothing can displace one.
  lemma AllClosedIdle(policy: ResourcePolicy, w: World, c: string)
    requires Inv(policy, w) && AllClosed(w) && c in w.plants
    ensures Idle(w, c)
  {
    assert PlantOk(policy, w, c);
    forall f | f in w.flights && f.controller == c ensures f.command.epoch < Epoch(w.plants[c]) {
      assert Deliverable(policy, w, f);
    }
  }

  lemma OpenKeepsInv(policy: ResourcePolicy, w: World, lease: Lease)
    requires Inv(policy, w) && AllClosed(w)
    requires lease.status == Acquiring && lease.throttle == [] && lease.epoch <= w.storeEpoch
    requires lease.fence < w.nextId + 2
    ensures Inv(policy, Opened(w, lease))
  {
    hide Sound, Attributed, Mentions, DisplacedBy, Epoch, Displaced, Current;
    var v := Opened(w, lease);
    assert w.nextId !in w.leases by {
      assert forall l | l in w.leases :: LeaseOk(policy, w, l);
    }
    forall l | l in v.leases ensures LeaseOk(policy, v, l) {
      if l != w.nextId { LeaseStays(policy, w, v, l); }
    }
    hide PlantOk, Deliverable, LeaseOk, QuantumOk, Held;
    TableChange(policy, w, v);
  }

  // What a change of the lease table alone has to keep.
  lemma TableChange(policy: ResourcePolicy, w: World, v: World)
    requires Inv(policy, w)
    requires SafeTable(policy, w, v)
    requires forall l | l in v.leases :: LeaseOk(policy, v, l)
    requires OneOpenLease(v)
    requires forall l | l in v.leases && v.leases[l].status == Active :: Held(policy, v, l)
    ensures Inv(policy, v)
  {
    hide PlantOk, Deliverable, LeaseOk, QuantumOk, Held, SafelyClosed, Journals;
    forall c | c in v.plants ensures PlantOk(policy, v, c) {
      PlantKeepsTable(policy, w, v, c);
    }
    forall f | f in v.flights ensures Deliverable(policy, v, f) {
      FlightKeepsTable(policy, w, v, f);
    }
    forall l | Guarded(v, l) ensures Held(policy, v, l) {
      if v.leases[l].status != Active { SameHeld(policy, w, v, l); }
    }
    forall k | k in policy.controllers ensures QuantumOk(v, k) {
      QuantumKeepsTable(policy, w, v, k);
    }
  }

  // An open lease stays open and keeps its journal, unless it is closed over restored
  // controllers.
  ghost predicate SafeTable(policy: ResourcePolicy, w: World, v: World)
  {
    && v == w.(leases := v.leases, nextId := v.nextId) && w.nextId <= v.nextId
    && (forall l | l in w.leases :: l in v.leases && SameTerms(w.leases[l], v.leases[l]))
    && (forall l, c | l in w.leases && Journals(w.leases[l], c) :: Journals(v.leases[l], c))
    && (forall l | l in w.leases && Unclosed(w.leases[l]) && !Unclosed(v.leases[l]) :: SafelyClosed(policy, w, l))
    && (forall l | l in w.leases && !Unclosed(w.leases[l]) :: !Unclosed(v.leases[l]))
  }

  lemma PlantKeepsTable(policy: ResourcePolicy, w: World, v: World, c: string)
    requires c in w.plants && PlantOk(policy, w, c) && SafeTable(policy, w, v)
    ensures PlantOk(policy, v, c)
  {
    hide Sound, Attributed, Mentions, DisplacedBy, Epoch, QuantumElapsed, Journals;
    if DisplacedBy(w.plants[c]).Some? {
      var l := DisplacedBy(w.plants[c]).value;
      assert Journals(v.leases[l], c);
      assert QuantumElapsed(policy, w, c) ==> QuantumElapsed(policy, v, c) by { SameElapsed(policy, w, v, c); }
      assert SafelyClosed(policy, w, l) ==> Returned(w, c, l);
    }
  }

  lemma SameElapsed(policy: ResourcePolicy, w: World, v: World, c: string)
    requires v.restoredAt == w.restoredAt && v.clock == w.clock
    ensures QuantumElapsed(policy, w, c) <==> QuantumElapsed(policy, v, c)
  {
  }

  lemma FlightKeepsTable(policy: ResourcePolicy, w: World, v: World, f: Flight)
    requires Deliverable(policy, w, f) && f in w.flights && SafeTable(policy, w, v)
    ensures Deliverable(policy, v, f)
  {
    hide Sound, Attributed, Mentions, DisplacedBy, Epoch, QuantumElapsed, Journals;
    SameElapsed(policy, w, v, f.controller);
    var l := f.command.lease;
    if Unclosed(w.leases[l]) && !Unclosed(v.leases[l]) {
      assert SafelyClosed(policy, w, l) && Returned(w, f.controller, l);
    }
  }

  lemma QuantumKeepsTable(policy: ResourcePolicy, w: World, v: World, k: ControllerPolicy)
    requires k in policy.controllers && QuantumOk(w, k) && SafeTable(policy, w, v)
    ensures QuantumOk(v, k)
  {
    if JournaledNow(w, k.id) && !JournaledNow(v, k.id) {
      var l :| l in w.leases && Unclosed(w.leases[l]) && Journals(w.leases[l], k.id);
      assert Journals(v.leases[l], k.id);
      assert SafelyClosed(policy, w, l);
    }
  }

  // A lease may be closed once every controller its journal names is back, beyond the reach
  // of anything in flight, and recorded.
  ghost predicate SafelyClosed(policy: ResourcePolicy, w: World, l: nat)
    requires l in w.leases
  {
    && (forall c | c in w.plants && Journals(w.leases[l], c) :: Returned(w, c, l))
    && (forall k | k in policy.controllers && k.training && Journals(w.leases[l], k.id) :: RestorationRecorded(w, k.id))
  }

  ghost predicate Returned(w: World, c: string, l: nat)
    requires c in w.plants
  {
    && DisplacedBy(w.plants[c]) != Some(l)
    && forall f | f in w.flights && f.controller == c && f.command.lease == l :: f.command.epoch < Epoch(w.plants[c])
  }

  ghost predicate RestorationRecorded(w: World, c: string)
  {
    c in w.restoredAt ==> c in w.quanta && w.restoredAt[c] <= w.quanta[c]
  }

  // What the coordinator has established when it rewrites the row of an open lease.
  ghost predicate MayRewrite(policy: ResourcePolicy, w: World, l: nat, lease: Lease)
  {
    && l in w.leases && Unclosed(w.leases[l])
    && SameTerms(w.leases[l], lease)
    && (forall c | Journals(w.leases[l], c) :: Journals(lease, c))
    && LeaseOk(policy, Rewritten(w, l, lease), l)
    && (lease.status == Active ==> Held(policy, Rewritten(w, l, lease), l))
    && (!Unclosed(lease) ==> SafelyClosed(policy, w, l))
  }

  lemma RewriteKeepsInv(policy: ResourcePolicy, w: World, l: nat, lease: Lease)
    requires Inv(policy, w) && MayRewrite(policy, w, l, lease)
    ensures Inv(policy, Rewritten(w, l, lease))
  {
    hide Sound, Attributed, Mentions, DisplacedBy, Epoch, Displaced, Current;
    var v := Rewritten(w, l, lease);
    forall m | m in v.leases ensures LeaseOk(policy, v, m) {
      if m != l { assert LeaseOk(policy, w, m); }
    }
    forall m | m in v.leases && v.leases[m].status == Active ensures Held(policy, v, m) {
      if m != l { SameHeld(policy, w, v, m); }
    }
    TableChange(policy, w, v);
  }

  // Changing the status alone, to one that promises nothing.
  lemma MayRestatus(policy: ResourcePolicy, w: World, l: nat, status: Status)
    requires Inv(policy, w) && l in w.leases && Unclosed(w.leases[l])
    requires status in {Acquiring, Releasing, Unknown}
    ensures MayRewrite(policy, w, l, w.leases[l].(status := status))
  {
    assert LeaseOk(policy, w, l);
  }

  // Journaling one more compensation.
  lemma MayJournal(policy: ResourcePolicy, w: World, l: nat, k: ControllerPolicy, throttle: seq<Throttle>)
    requires Inv(policy, w) && l in w.leases && Unclosed(w.leases[l])
    requires k in policy.controllers && ChosenFor(k, w.leases[l])
    requires forall t | t in throttle :: t.controller == k.id || Journals(w.leases[l], t.controller)
    requires forall t | t in w.leases[l].throttle :: exists u :: u in throttle && u.controller == t.controller
    ensures MayRewrite(policy, w, l, w.leases[l].(status := Acquiring, throttle := throttle))
  {
    var lease := w.leases[l].(status := Acquiring, throttle := throttle);
    var v := Rewritten(w, l, lease);
    assert LeaseOk(policy, w, l);
    forall t | t in throttle
      ensures t.controller in v.plants && exists m :: m in policy.controllers && m.id == t.controller && ChosenFor(m, v.leases[l])
    {
      if t.controller == k.id {
        assert ChosenFor(k, v.leases[l]);
      } else {
        var u :| u in w.leases[l].throttle && u.controller == t.controller;
        var m :| m in policy.controllers && m.id == u.controller && ChosenFor(m, w.leases[l]);
        assert ChosenFor(m, v.leases[l]);
      }
    }
  }

  // A controller restored under this lease in the current epoch.
  ghost predicate RestoredTo(w: World, c: string, l: nat, epoch: nat)
  {
    && c in w.plants && Settled(w.plants[c])
    && Current(w.plants[c]).target.Normal?
    && Current(w.plants[c]).lease == l
    && Current(w.plants[c]).epoch == epoch
  }

  lemma MayClose(policy: ResourcePolicy, w: World, l: nat, epoch: nat, status: Status)
    requires Inv(policy, w) && l in w.leases && Unclosed(w.leases[l]) && status in {Status.Released, Status.Denied}
    requires forall f | f in w.flights :: f.command.epoch < epoch
    requires forall t | t in w.leases[l].throttle :: RestoredTo(w, t.controller, l, epoch)
    requires forall k | k in policy.controllers && k.training && Journals(w.leases[l], k.id) :: RestorationRecorded(w, k.id)
    ensures MayRewrite(policy, w, l, w.leases[l].(status := status))
  {
    assert LeaseOk(policy, w, l);
    forall c | c in w.plants && Journals(w.leases[l], c) ensures Returned(w, c, l) {
      var t :| t in w.leases[l].throttle && t.controller == c;
      assert RestoredTo(w, t.controller, l, epoch);
    }
  }

  // A profile is activated only under an active lease.
  lemma ActivateKeepsInv(policy: ResourcePolicy, w: World, l: nat)
    requires Inv(policy, w) && l in w.leases && w.leases[l].status == Active
    ensures Inv(policy, w.(running := w.running + {l}))
  {
    hide PlantOk, LeaseOk, QuantumOk, Held, Mentions, DisplacedBy, Epoch;
    var v := w.(running := w.running + {l});
    forall c | c in v.plants ensures PlantOk(policy, v, c) {
      PlantStays(policy, w, v, c);
    }
    forall f | f in v.flights ensures Deliverable(policy, v, f) {
      NotRestoring(policy, w, l, f);
    }
    forall m | m in v.leases ensures LeaseOk(policy, v, m) {
      LeaseStays(policy, w, v, m);
    }
    forall m | Guarded(v, m) ensures Held(policy, v, m) {
      SameHeld(policy, w, v, m);
    }
    forall k | k in policy.controllers ensures QuantumOk(v, k) {
      QuantumStays(w, v, k);
    }
  }

  // No command back to normal mode under an active lease is in flight.
  lemma NotRestoring(policy: ResourcePolicy, w: World, l: nat, f: Flight)
    requires Inv(policy, w) && l in w.leases && w.leases[l].status == Active && f in w.flights
    ensures Deliverable(policy, w.(running := w.running + {l}), f)
  {
    hide PlantOk, QuantumOk, Mentions, DisplacedBy, Epoch, Sound, Attributed;
    assert Deliverable(policy, w, f);
    assert LeaseOk(policy, w, l) && Held(policy, w, l);
  }

  // ---------------------------------------------------------------- sending a command

  // What the coordinator has established when it sends a command: the compensation is
  // journaled under an open lease that is not active, and a controller about to be displaced
  // is idle and past its quantum, for a profile that is not started.
  ghost predicate MaySend(policy: ResourcePolicy, w: World, f: Flight)
  {
    var x := f.command;
    && f.controller in w.plants
    && ValidCommand(x)
    && x.lease in w.leases && Unclosed(w.leases[x.lease]) && w.leases[x.lease].status != Active
    && Journals(w.leases[x.lease], f.controller)
    && (x.target.Released? ==> x.lease !in w.running)
    && x.epoch <= w.storeEpoch
    && UnderLease(w.leases[x.lease], x)
    && Unsent(w, x) && Unmentioned(w.plants[f.controller], x.mutation)
    && (x.target.Released? ==> Idle(w, f.controller) && QuantumElapsed(policy, w, f.controller))
  }

  lemma MaySendLater(policy: ResourcePolicy, w: World, v: World, f: Flight)
    requires MaySend(policy, w, f) && Stable(w, v, {})
    ensures MaySend(policy, v, f)
  {
    assert Unflown(w, f.command.mutation);
    assert IdleStays(w, v, f.controller);
  }

  lemma HolderIsOpen(policy: ResourcePolicy, w: World, l: nat, k: ControllerPolicy)
    requires Inv(policy, w) && Guarded(w, l)
    requires k in policy.controllers && ChosenFor(k, w.leases[l])
    ensures Unclosed(w.leases[l])
  {
    assert Held(policy, w, l);
    assert HeldBy(w, k.id, l);
    assert PlantOk(policy, w, k.id);
  }

  // Once a command is sent, no lease is active or has a running profile over displaced
  // controllers, but for one whose restoration has begun.
  lemma NoOneHolds(policy: ResourcePolicy, w: World, f: Flight)
    requires Inv(policy, w) && MaySend(policy, w, f)
    ensures forall l, k | Guarded(Sent(w, f), l) && k in policy.controllers :: !ChosenFor(k, w.leases[l])
  {
    assert OneOpenLease(w);
    hide Inv, ChosenFor;
    forall l, k | Guarded(Sent(w, f), l) && k in policy.controllers ensures !ChosenFor(k, w.leases[l]) {
      if ChosenFor(k, w.leases[l]) { HolderIsOpen(policy, w, l, k); }
    }
  }

  lemma MaySendDelivers(policy: ResourcePolicy, w: World, f: Flight)
    requires MaySend(policy, w, f)
    ensures Deliverable(policy, Sent(w, f), f) && f !in w.flights
    ensures f.command.mutation !in Mentions(w.plants[f.controller])
    ensures forall g | g in w.flights :: f.command.mutation != g.command.mutation && f.command.epoch != g.command.epoch
  {
  }

  lemma SentHeld(policy: ResourcePolicy, w: World, f: Flight, l: nat)
    requires Inv(policy, w) && MaySend(policy, w, f) && Guarded(Sent(w, f), l)
    ensures Held(policy, Sent(w, f), l)
  {
    NoOneHolds(policy, w, f);
  }

  lemma SentRest(policy: ResourcePolicy, w: World, v: World, f: Flight)
    requires Inv(policy, w) && v == w.(flights := v.flights, loose := v.loose)
    requires forall l | Guarded(v, l) :: Held(policy, v, l)
    requires forall g | g in v.flights :: Deliverable(policy, v, g)
    requires FlightsApart(v)
    ensures Inv(policy, v)
  {
    hide PlantOk, LeaseOk, QuantumOk, Deliverable, Held, FlightsApart;
    forall c | c in v.plants ensures PlantOk(policy, v, c) {
      PlantStays(policy, w, v, c);
    }
    forall l | l in v.leases ensures LeaseOk(policy, v, l) {
      LeaseStays(policy, w, v, l);
    }
    forall k | k in policy.controllers ensures QuantumOk(v, k) {
      QuantumStays(w, v, k);
    }
  }

  lemma SendKeepsInv(policy: ResourcePolicy, w: World, f: Flight)
    requires Inv(policy, w) && MaySend(policy, w, f)
    ensures Inv(policy, Sent(w, f))
  {
    hide Sound, Attributed, Mentions, DisplacedBy, Epoch, MaySend, Deliverable, Held;
    var v := Sent(w, f);
    forall l | Guarded(v, l) ensures Held(policy, v, l) {
      hide Inv;
      SentHeld(policy, w, f, l);
    }
    forall g | g in v.flights ensures Deliverable(policy, v, g) {
      if g == f {
        hide Inv;
        MaySendDelivers(policy, w, f);
      } else {
        SentDeliverable(policy, w, f, g);
      }
    }
    assert FlightsApart(w);
    MaySendDelivers(policy, w, f);
    SentRest(policy, w, v, f);
  }

  lemma SentDeliverable(policy: ResourcePolicy, w: World, f: Flight, g: Flight)
    requires Deliverable(policy, w, g)
    ensures Deliverable(policy, Sent(w, f), g)
  {
  }

  // One command and everything around it. The call may fail before or after the
  // controller has acted; by the time it returns, the command is delivered or lost.
  datatype Delivery = Delivery(
    before: seq<EnvEvent>, delivered: bool, env: CallEnv, steps: nat, answered: bool, after: seq<EnvEvent>)

  function Landed(policy: ResourcePolicy, w: World, f: Flight, d: Delivery): World
    requires f.controller in w.plants
  {
    if d.delivered then Deliver(policy, w, f.controller, Called(f.command, d.env, d.steps))
    else w.(flights := w.flights - {f})
  }

  lemma OnlyOneMoved(w: World, v: World, c: string, q: Plant)
    requires c in w.plants && v == PlantTo(w.(loose := v.loose), c, q)
    requires w.loose <= v.loose && Epoch(w.plants[c]) <= Epoch(q)
    ensures Stable(w, v, {c})
  {
  }

  lemma MovesUnseen(trainer: Controller.Policy, p: Plant, q: Plant, x: Command)
    requires Moves(trainer, p, q, Some(x)) && x.mutation !in Mentions(p)
    ensures Unseen(q, x) && TakesUp(trainer, p, q, x) && Epoch(p) <= Epoch(q)
  {
    MovesFacts(trainer, p, q, Some(x));
    assert RecordOf(p) != Some(x);
  }

  lemma LandedIsStable(policy: ResourcePolicy, w: World, f: Flight, d: Delivery)
    requires Inv(policy, w) && MaySend(policy, w, f) && f.controller in w.plants
    ensures Inv(policy, Landed(policy, Sent(w, f), f, d))
    ensures Stable(w, Landed(policy, Sent(w, f), f, d), {f.controller})
    ensures f.controller in Landed(policy, Sent(w, f), f, d).plants
    ensures TakesUp(TrainerOf(policy, f.controller), w.plants[f.controller], Landed(policy, Sent(w, f), f, d).plants[f.controller], f.command)
    ensures Unseen(Landed(policy, Sent(w, f), f, d).plants[f.controller], f.command)
    ensures Landed(policy, Sent(w, f), f, d).loose == Sent(w, f).loose
  {
    hide EventStates, Moves, Sound, Attributed, Inv, Stable, MaySend, Deliverable, Evolve, Mentions, TakesUp, Epoch, Onward;
    var c, x := f.controller, f.command;
    var s := Sent(w, f);
    MaySendDelivers(policy, w, f);
    SendKeepsInv(policy, w, f);
    assert s.flights - {f} == w.flights;
    var b := s.(flights := s.flights - {f});
    assert b == w.(loose := s.loose);
    FrameKeepsInv(policy, s, b);
    if d.delivered {
      var p := w.plants[c];
      var q := Final(p, EventStates(TrainerOf(policy, c), p, Called(x, d.env, d.steps)));
      RecordFacts(policy, w, c);
      EventMoves(TrainerOf(policy, c), p, Called(x, d.env, d.steps));
      NoOneHolds(policy, w, f);
      DeliverableWithout(policy, s, f);
      MoveKeepsInv(policy, b, c, q, Some(x));
      MovesUnseen(TrainerOf(policy, c), p, q, x);
      OnlyOneMoved(w, PlantTo(b, c, q), c, q);
      assert Landed(policy, s, f, d) == PlantTo(b, c, q);
    } else {
      LooseIsStable(w, b, c);
      NotMentioned(TrainerOf(policy, c), w.plants[c], x);
    }
  }

  lemma LooseIsStable(w: World, v: World, c: string)
    requires v == w.(loose := v.loose) && w.loose <= v.loose
    ensures Stable(w, v, {c})
  {
  }

  // If the controller's record is now the command's, its fence has let the command in, and
  // it was not stuck.
  predicate TakesUp(trainer: Controller.Policy, p: Plant, q: Plant, x: Command)
  {
    RecordOf(q) == Some(x) ==> Admits(p, x) && !Stuck(trainer, p)
  }

  // The same, as far as the broker knows it from before the call.
  ghost predicate Readmits(w: World, c: string, x: Command)
  {
    c in w.plants && (Quiet(w, c, Epoch(w.plants[c])) ==> Admits(w.plants[c], x))
  }

  lemma ReadmitsEarlier(u: World, w: World, but: set<string>, c: string, x: Command)
    requires Onward(u, w, but) && c in u.plants && c !in but && Readmits(w, c, x)
    ensures Readmits(u, c, x)
  {
    assert RecordStays(u, w, c);
    if Quiet(u, c, Epoch(u.plants[c])) { SameRecordSameFence(u.plants[c], w.plants[c], x); }
  }

  lemma SameRecordSameFence(p: Plant, q: Plant, x: Command)
    requires RecordOf(p) == RecordOf(q)
    ensures Epoch(p) == Epoch(q) && (Admits(p, x) <==> Admits(q, x))
  {
  }

  lemma NotMentioned(trainer: Controller.Policy, p: Plant, x: Command)
    requires x.mutation !in Mentions(p)
    ensures Unseen(p, x) && TakesUp(trainer, p, p, x)
  {
  }

  // The four states a command passes through, the last one when the call returns.
  lemma CommandKeepsInv(policy: ResourcePolicy, w: World, f: Flight, d: Delivery)
    requires Inv(policy, w) && MaySend(policy, w, f)
    ensures var w1 := Evolve(policy, w, d.before);
      && Inv(policy, w1) && f.controller in w1.plants
      && Inv(policy, Sent(w1, f))
      && var w3 := Landed(policy, Sent(w1, f), f, d);
         var w4 := Evolve(policy, w3, d.after);
         && Inv(policy, w3) && Inv(policy, w4)
         && Stable(w, w4, {f.controller})
         && Unseen(w4.plants[f.controller], f.command)
         && Unsent(w4, f.command)
         && LooseOnly(w, w4, f.command.lease)
         && (RecordOf(w4.plants[f.controller]) == Some(f.command) ==>
               && Readmits(w, f.controller, f.command)
               && TakesUp(TrainerOf(policy, f.controller), w1.plants[f.controller], w4.plants[f.controller], f.command))
  {
    hide Inv, Stable, MaySend, Deliverable;
    InPlants(policy, w, f);
    var w1 := Evolve(policy, w, d.before);
    EvolveIsStable(policy, w, d.before);
    MaySendLater(policy, w, w1, f);
    SendKeepsInv(policy, w1, f);
    InPlants(policy, w1, f);
    LandedIsStable(policy, w1, f, d);
    var w3 := Landed(policy, Sent(w1, f), f, d);
    EvolveIsStable(policy, w3, d.after);
    var w4 := Evolve(policy, w3, d.after);
    StableTransitive(w, w1, w3, {}, {f.controller}, {f.controller});
    StableTransitive(w, w3, w4, {f.controller}, {}, {f.controller});
    UnseenLater(policy, w1, w3, w4, f);
    TakenUpEarlier(policy, w, w1, w3, w4, f);
    SentIsLoose(w, w1, w4, f);
  }

  lemma SentIsLoose(w: World, w1: World, v: World, f: Flight)
    requires Stable(w, w1, {}) && w1.loose == w.loose && v.loose == Sent(w1, f).loose
    ensures LooseOnly(w, v, f.command.lease)
  {
  }

  lemma TakenUpEarlier(policy: ResourcePolicy, w: World, w1: World, w3: World, w4: World, f: Flight)
    requires MaySend(policy, w1, f) && f.controller in w.plants
    requires Stable(w, w1, {}) && Stable(w1, w3, {f.controller}) && Stable(w3, w4, {})
    requires f.controller in w3.plants && Unseen(w3.plants[f.controller], f.command)
    requires f.controller in w1.plants
    requires TakesUp(TrainerOf(policy, f.controller), w1.plants[f.controller], w3.plants[f.controller], f.command)
    ensures f.controller in w4.plants
    ensures RecordOf(w4.plants[f.controller]) == Some(f.command) ==>
              && Readmits(w, f.controller, f.command)
              && TakesUp(TrainerOf(policy, f.controller), w1.plants[f.controller], w4.plants[f.controller], f.command)
  {
    var c, x := f.controller, f.command;
    assert Unflown(w3, x.mutation);
    assert Unmentioned(w3.plants[c], x.mutation) ==> Unmentioned(w4.plants[c], x.mutation);
    if RecordOf(w4.plants[c]) == Some(x) {
      assert RecordOf(w3.plants[c]) == Some(x);
      assert Readmits(w1, c, x);
      ReadmitsEarlier(w, w1, {}, c, x);
    }
  }

  lemma InPlants(policy: ResourcePolicy, w: World, f: Flight)
    requires MaySend(policy, w, f)
    ensures f.controller in w.plants
  {
  }

  lemma UnseenLater(policy: ResourcePolicy, w1: World, w3: World, w4: World, f: Flight)
    requires MaySend(policy, w1, f) && Stable(w1, w3, {f.controller}) && Stable(w3, w4, {})
    requires f.controller in w3.plants && Unseen(w3.plants[f.controller], f.command)
    ensures f.controller in w4.plants && Unseen(w4.plants[f.controller], f.command)
    ensures Unsent(w4, f.command)
  {
    assert Unsent(w3, f.command);
  }

  // What the probe publishes of a controller proves what the controller is.
  lemma ObservationProves(policy: ResourcePolicy, w: World, c: string, x: Command)
    requires Inv(policy, w) && c in w.plants && Unseen(w.plants[c], x)
    requires w.plants[c].state.Some? && w.plants[c].state.value.mutation == x.mutation
    ensures Settled(w.plants[c]) && Current(w.plants[c]) == x
  {
    assert PlantOk(policy, w, c);
  }

  // A command under an identifier just drawn, in the current epoch, is new to everyone.
  lemma FreshCommand(policy: ResourcePolicy, w: World, epoch: nat, c: string, x: Command)
    requires Inv(policy, w) && c in w.plants
    requires forall f | f in w.flights :: f.command.epoch < epoch
    requires x.mutation == w.nextId && x.epoch == epoch
    ensures Unsent(Drawn(w), x) && Unmentioned(w.plants[c], x.mutation)
  {
    assert PlantOk(policy, w, c);
    forall f | f in w.flights ensures f.command.mutation != x.mutation {
      assert Deliverable(policy, w, f);
    }
  }

  lemma HeldLater(w: World, v: World, but: set<string>, c: string, l: nat, epoch: nat)
    requires l in w.leases && l in v.leases && SameTerms(w.leases[l], v.leases[l]) && w.leases[l].epoch == epoch
    requires Onward(w, v, but) && c !in but && HeldBy(w, c, l)
    requires forall f | f in w.flights :: f.command.epoch < epoch
    ensures HeldBy(v, c, l)
  {
    assert SettledStays(w, v, c);
  }

  lemma RestoredLater(w: World, v: World, but: set<string>, c: string, l: nat, epoch: nat)
    requires Onward(w, v, but) && c !in but && RestoredTo(w, c, l, epoch)
    requires forall f | f in w.flights :: f.command.epoch < epoch
    ensures RestoredTo(v, c, l, epoch) && SameRestored(w, v, c)
  {
    assert SettledStays(w, v, c);
  }

  lemma ReadyLater(policy: ResourcePolicy, w: World, v: World, but: set<string>, c: string)
    requires Onward(w, v, but) && c in w.plants && c !in but && Idle(w, c) && QuantumElapsed(policy, w, c)
    ensures c in v.plants && Idle(v, c) && QuantumElapsed(policy, v, c)
  {
    assert IdleStays(w, v, c);
  }

  // A table write changes nothing about the controllers.
  lemma TableIsOnward(w: World, v: World)
    requires v == w.(leases := v.leases, nextId := v.nextId, quanta := v.quanta, clock := v.clock)
    requires w.nextId <= v.nextId && w.clock <= v.clock
    requires forall c | c in w.quanta :: c in v.quanta && w.quanta[c] <= v.quanta[c]
    ensures Onward(w, v, {})
  {
  }
}
