// Leases that no restart can close: those that journal a controller which refuses, and will
// go on refusing, every takeover of the lease. And those that wait: a restart can close them
// only once the evidence their controller rests on is on its disk again.
module Wedges {
  import opened Wrappers
  import opened Protocol
  import opened Controller
  import opened ControllerSteps
  import opened ControllerRuns
  import opened PlantMoves
  import opened Takeovers
  import opened Worlds
  import opened BrokerSteps

  // The record a takeover of the lease is meant for: the lease's own, under its own fence.
  predicate Owns(p: Plant, lease: Lease, l: nat)
  {
    p.authority.Some? && Current(p).lease == l && Current(p).fence == lease.fence
  }

  // No command of the lease itself is on its way that the controller could still take up.
  ghost predicate OutOfReach(w: World, l: nat, c: string)
    requires c in w.plants
  {
    forall f | f in w.flights && f.controller == c && f.command.SetMode? && f.command.lease == l ::
      f.command.epoch < Epoch(w.plants[c])
  }

  // The controller is stuck; or its record is not the lease's own, or hopeless, and no
  // command in flight can change that.
  ghost predicate Refuses(policy: ResourcePolicy, w: World, l: nat, c: string)
    requires l in w.leases && c in w.plants
  {
    || Stuck(TrainerOf(policy, c), w.plants[c])
    || (&& (!Owns(w.plants[c], w.leases[l], l) || Hopeless(TrainerOf(policy, c), w.plants[c]))
        && OutOfReach(w, l, c))
  }

  // The controller's record is the lease's own, and resuming asks for this evidence: it is
  // completed, or itself a pending resume; and no command in flight can change that.
  ghost predicate Rests(w: World, l: nat, c: string, evidence: Option<Evidence>)
    requires l in w.leases && c in w.plants
  {
    && ReturnsOrRests(w.plants[c]) && Owns(w.plants[c], w.leases[l], l)
    && Expected(w.plants[c]) == evidence
    && OutOfReach(w, l, c)
  }

  ghost predicate Wedged(policy: ResourcePolicy, w: World, l: nat)
  {
    && l in w.leases && Unclosed(w.leases[l])
    && exists c :: Journals(w.leases[l], c) && c in w.plants && Refuses(policy, w, l, c)
  }

  // Whoever refuses goes on refusing, and no lease is closed or forgets whom it displaced.
  ghost predicate RefusalsStay(policy: ResourcePolicy, w: World, v: World)
  {
    && (forall l | l in w.leases :: l in v.leases && StaysOpen(w.leases[l], v.leases[l]))
    && w.plants.Keys == v.plants.Keys
    && (forall l, c | l in w.leases && c in w.plants && Refuses(policy, w, l, c) :: Refuses(policy, v, l, c))
    && forall l, c, e | l in w.leases && c in w.plants && Rests(w, l, c, e) :: Rests(v, l, c, e) || Refuses(policy, v, l, c)
  }

  predicate StaysOpen(a: Lease, b: Lease)
  {
    SameTerms(a, b) && a.throttle == b.throttle && (Unclosed(a) ==> Unclosed(b))
  }

  lemma RefusalsStayTransitive(policy: ResourcePolicy, u: World, v: World, w: World)
    requires RefusalsStay(policy, u, v) && RefusalsStay(policy, v, w)
    ensures RefusalsStay(policy, u, w)
  {
    hide Refuses;
  }

  lemma RefusalsStayPut(policy: ResourcePolicy, w: World, v: World)
    requires v.plants == w.plants && v.flights <= w.flights
    requires forall l | l in w.leases :: l in v.leases && StaysOpen(w.leases[l], v.leases[l])
    ensures RefusalsStay(policy, w, v)
  {
  }

  // A controller's refusal outlives anything it does meanwhile.
  lemma MovedStillRefuses(trainer: Controller.Policy, p: Plant, q: Plant, x: Option<Command>, lease: Lease, l: nat)
    requires Moves(trainer, p, q, x)
    requires x.Some? && x.value.lease == l ==> UnderLease(lease, x.value) && (x.value.SetMode? ==> x.value.epoch < Epoch(p))
    ensures !Owns(p, lease, l) ==> !Owns(q, lease, l)
    ensures Owns(p, lease, l) && Hopeless(trainer, p) ==> !Owns(q, lease, l) || Hopeless(trainer, q)
    ensures Owns(p, lease, l) && ReturnsOrRests(p) ==>
              !Owns(q, lease, l) || (ReturnsOrRests(q) && Expected(q) == Expected(p))
  {
    hide Sound, Attributed, Mentions, Stuck;
  }

  lemma MovedKeepsStuck(trainer: Controller.Policy, p: Plant, q: Plant, x: Option<Command>)
    requires Moves(trainer, p, q, x)
    ensures Stuck(trainer, p) ==> Stuck(trainer, q)
    ensures Epoch(p) <= Epoch(q)
  {
    hide Sound, Attributed, Mentions, Stuck;
    MovesFacts(trainer, p, q, x);
  }

  lemma MoveKeepsRefusals(policy: ResourcePolicy, w: World, v: World, c: string, q: Plant, x: Option<Command>)
    requires c in w.plants && Moves(TrainerOf(policy, c), w.plants[c], q, x)
    requires x.Some? ==> x.value.lease in w.leases && UnderLease(w.leases[x.value.lease], x.value)
    requires x.Some? ==> x.value.Takeover? || Flight(c, x.value) in w.flights
    requires v.leases == w.leases && v.flights <= w.flights && v.plants == w.plants[c := q]
    ensures RefusalsStay(policy, w, v)
  {
    hide Moves, Stuck, Owns, Epoch, UnderLease, Hopeless, OutOfReach;
    forall l, d | l in w.leases && d in w.plants && Refuses(policy, w, l, d) ensures Refuses(policy, v, l, d) {
      MovedKeepsStuck(TrainerOf(policy, c), w.plants[c], q, x);
      if !Stuck(TrainerOf(policy, d), w.plants[d]) {
        MovedOutOfReach(policy, w, v, c, q, x, l, d);
        if d == c {
          ReachesNot(w, x, l, c);
          MovedStillRefuses(TrainerOf(policy, c), w.plants[c], q, x, w.leases[l], l);
        }
      }
    }
    forall l, d, e | l in w.leases && d in w.plants && Rests(w, l, d, e)
      ensures Rests(v, l, d, e) || Refuses(policy, v, l, d)
    {
      MovedOutOfReach(policy, w, v, c, q, x, l, d);
      if d == c {
        ReachesNot(w, x, l, c);
        MovedStillRefuses(TrainerOf(policy, c), w.plants[c], q, x, w.leases[l], l);
      }
    }
  }

  lemma MovedOutOfReach(policy: ResourcePolicy, w: World, v: World, c: string, q: Plant, x: Option<Command>, l: nat, d: string)
    requires c in w.plants && Moves(TrainerOf(policy, c), w.plants[c], q, x)
    requires v.flights <= w.flights && v.plants == w.plants[c := q] && d in w.plants && OutOfReach(w, l, d)
    ensures OutOfReach(v, l, d)
  {
    hide Moves;
    MovedKeepsStuck(TrainerOf(policy, c), w.plants[c], q, x);
  }

  lemma ReachesNot(w: World, x: Option<Command>, l: nat, c: string)
    requires c in w.plants && OutOfReach(w, l, c)
    requires x.Some? ==> x.value.lease in w.leases && UnderLease(w.leases[x.value.lease], x.value)
    requires x.Some? ==> x.value.Takeover? || Flight(c, x.value) in w.flights
    ensures x.Some? && x.value.lease == l ==>
              UnderLease(w.leases[l], x.value) && (x.value.SetMode? ==> x.value.epoch < Epoch(w.plants[c]))
  {
  }

  lemma EnvStepKeepsRefusals(policy: ResourcePolicy, w: World, e: EnvEvent)
    requires Inv(policy, w)
    ensures RefusalsStay(policy, w, EnvStep(policy, w, e))
  {
    hide EventStates, Inv, RefusalsStay;
    if e.Local? && e.controller in w.plants && (e.event.Called? ==> Flight(e.controller, e.event.command) in w.flights) {
      LocalKeepsRefusals(policy, w, e.controller, e.event);
    } else {
      RefusalsStayPut(policy, w, EnvStep(policy, w, e));
    }
  }

  lemma LocalKeepsRefusals(policy: ResourcePolicy, w: World, c: string, event: Event)
    requires Inv(policy, w) && c in w.plants && (event.Called? ==> Flight(c, event.command) in w.flights)
    ensures RefusalsStay(policy, w, EnvStep(policy, w, Local(c, event)))
  {
    hide EventStates, Moves, Sound, Attributed, Mentions, Refuses, Epoch, Inv, RefusalsStay;
    var p := w.plants[c];
    var q := Final(p, EventStates(TrainerOf(policy, c), p, event));
    RecordFacts(policy, w, c);
    if event.Called? {
      FlightFacts(policy, w, Flight(c, event.command));
      DeliverableWithout(policy, w, Flight(c, event.command));
    }
    EventMoves(TrainerOf(policy, c), p, event);
    MoveKeepsRefusals(policy, w, EnvStep(policy, w, Local(c, event)), c, q, if event.Called? then Some(event.command) else None);
  }

  lemma {:induction false} EvolveKeepsRefusals(policy: ResourcePolicy, w: World, events: seq<EnvEvent>)
    requires Inv(policy, w)
    ensures RefusalsStay(policy, w, Evolve(policy, w, events))
    decreases |events|
  {
    hide Inv, EnvStep, RefusalsStay, Stable;
    if events == [] {
      RefusalsStayPut(policy, w, w);
    } else {
      var v := EnvStep(policy, w, events[0]);
      EnvStepIsStable(policy, w, events[0]);
      EnvStepKeepsRefusals(policy, w, events[0]);
      EvolveKeepsRefusals(policy, v, events[1..]);
      RefusalsStayTransitive(policy, w, v, Evolve(policy, v, events[1..]));
    }
  }

  // So does its refusal outlive a takeover sent to it, or to any other controller.
  lemma TakeoverKeepsRefusals(policy: ResourcePolicy, w: World, f: Flight, d: Delivery)
    requires Inv(policy, w) && MaySend(policy, w, f) && f.command.Takeover?
    ensures var w1 := Evolve(policy, w, d.before);
      && f.controller in w1.plants
      && RefusalsStay(policy, w, w1) && RefusalsStay(policy, w, Sent(w1, f))
      && var w3 := Landed(policy, Sent(w1, f), f, d);
         RefusalsStay(policy, w, w3) && RefusalsStay(policy, w, Evolve(policy, w3, d.after))
  {
    hide Inv, MaySend, RefusalsStay, Stable;
    CommandKeepsInv(policy, w, f, d);
    var w1 := Evolve(policy, w, d.before);
    var s := Sent(w1, f);
    var w3 := Landed(policy, s, f, d);
    EvolveIsStable(policy, w, d.before);
    MaySendLater(policy, w, w1, f);
    EvolveKeepsRefusals(policy, w, d.before);
    SentKeepsRefusals(policy, w1, f);
    LandedKeepsRefusals(policy, w1, f, d);
    EvolveKeepsRefusals(policy, w3, d.after);
    RefusalsStayTransitive(policy, w, w1, s);
    RefusalsStayTransitive(policy, w, w1, w3);
    RefusalsStayTransitive(policy, w, w3, Evolve(policy, w3, d.after));
  }

  lemma SentKeepsRefusals(policy: ResourcePolicy, w: World, f: Flight)
    requires f.command.Takeover?
    ensures RefusalsStay(policy, w, Sent(w, f))
  {
  }

  lemma LandedKeepsRefusals(policy: ResourcePolicy, w: World, f: Flight, d: Delivery)
    requires Inv(policy, w) && MaySend(policy, w, f) && f.command.Takeover? && f.controller in w.plants
    ensures RefusalsStay(policy, w, Landed(policy, Sent(w, f), f, d))
  {
    hide EventStates, Moves, Sound, Attributed, Mentions, Refuses, Epoch, Inv;
    var c, x := f.controller, f.command;
    var v := Landed(policy, Sent(w, f), f, d);
    MaySendDelivers(policy, w, f);
    assert Sent(w, f).flights - {f} == w.flights;
    if d.delivered {
      RecordFacts(policy, w, c);
      EventMoves(TrainerOf(policy, c), w.plants[c], Called(x, d.env, d.steps));
      var q := Final(w.plants[c], EventStates(TrainerOf(policy, c), w.plants[c], Called(x, d.env, d.steps)));
      MoveKeepsRefusals(policy, w, v, c, q, Some(x));
    } else {
      RefusalsStayPut(policy, w, v);
    }
  }

  // A controller that refuses answers no takeover of the lease, and one that rests answers
  // only if its evidence is on disk when the takeover arrives.
  lemma RefusedIsNotAnswered(policy: ResourcePolicy, w: World, c: string, x: Command, env: CallEnv)
    requires Inv(policy, w) && c in w.plants && x.Takeover? && ValidCommand(x) && RecordOf(w.plants[c]) != Some(x)
    requires x.lease in w.leases && UnderLease(w.leases[x.lease], x)
    requires HandleRun(TrainerOf(policy, c), w.plants[c], x, env).out.Ok?
    ensures !Refuses(policy, w, x.lease, c)
    ensures forall e | Rests(w, x.lease, c, e) :: Backed(TrainerOf(policy, c), w.plants[c], e)
  {
    RecordFacts(policy, w, c);
    hide Inv, Sound, HandleRun, RecoverRun, Backed, Stuck;
    var p := w.plants[c];
    if Lost(TrainerOf(policy, c), p, x) { LostIsRefused(TrainerOf(policy, c), p, x, env); }
    RecoveredRecord(TrainerOf(policy, c), p, env.recovery);
    ResumeCompletes(TrainerOf(policy, c), p, x, env);
    if Pending(p) { RecoveredIsBacked(TrainerOf(policy, c), p, env.recovery); }
  }

  // ------------------------------------------------- refusals over a stretch of history

  // From one state and history to a later one, refusals stayed in every state in between.
  ghost predicate Persists(policy: ResourcePolicy, w: World, h: seq<World>, v: World, g: seq<World>)
  {
    && h <= g
    && RefusalsStay(policy, w, v)
    && forall i | |h| <= i < |g| :: RefusalsStay(policy, w, g[i])
  }

  lemma PersistsTransitive(policy: ResourcePolicy, u: World, f: seq<World>, v: World, g: seq<World>, w: World, h: seq<World>)
    requires Persists(policy, u, f, v, g) && Persists(policy, v, g, w, h)
    ensures Persists(policy, u, f, w, h)
  {
    hide RefusalsStay;
    RefusalsStayTransitive(policy, u, v, w);
    forall i | |f| <= i < |h| ensures RefusalsStay(policy, u, h[i]) {
      if i >= |g| { RefusalsStayTransitive(policy, u, v, h[i]); }
    }
  }

  lemma PersistsOne(policy: ResourcePolicy, w: World, h: seq<World>, v: World)
    requires RefusalsStay(policy, w, v)
    ensures Persists(policy, w, h, v, h + [v])
  {
  }

  lemma PersistsPut(policy: ResourcePolicy, w: World, h: seq<World>, v: World)
    requires v.plants == w.plants && v.flights <= w.flights
    requires forall l | l in w.leases :: l in v.leases && StaysOpen(w.leases[l], v.leases[l])
    ensures Persists(policy, w, h, v, h) && Persists(policy, w, h, v, h + [v])
  {
    RefusalsStayPut(policy, w, v);
  }

  lemma StaysWedged(policy: ResourcePolicy, w: World, v: World, l: nat)
    requires Wedged(policy, w, l) && RefusalsStay(policy, w, v)
    ensures Wedged(policy, v, l)
  {
    hide Refuses;
    var c :| Journals(w.leases[l], c) && c in w.plants && Refuses(policy, w, l, c);
    assert Journals(v.leases[l], c);
  }

  // The evidence was on the controller's disk in one of these states.
  ghost predicate Shown(policy: ResourcePolicy, h: seq<World>, since: nat, until: nat, c: string, e: Option<Evidence>)
  {
    exists i | since <= i < until && i < |h| :: c in h[i].plants && Backed(TrainerOf(policy, c), h[i].plants[c], e)
  }

  lemma ShownLater(policy: ResourcePolicy, h: seq<World>, g: seq<World>, since: nat, earlier: nat, until: nat, later: nat,
                   c: string, e: Option<Evidence>)
    requires h <= g && earlier <= since && until <= later
    ensures Shown(policy, h, since, until, c, e) ==> Shown(policy, g, earlier, later, c, e)
  {
    hide Backed;
    if Shown(policy, h, since, until, c, e) {
      var i :| since <= i < until && i < |h| && c in h[i].plants && Backed(TrainerOf(policy, c), h[i].plants[c], e);
      assert g[i] == h[i];
    }
  }

  // An open lease that journals a controller which refuses, or rests on this evidence.
  ghost predicate Waits(policy: ResourcePolicy, w: World, l: nat, c: string, e: Option<Evidence>)
  {
    && l in w.leases && Unclosed(w.leases[l]) && Journals(w.leases[l], c) && c in w.plants
    && (Refuses(policy, w, l, c) || Rests(w, l, c, e))
  }

  lemma StillWaits(policy: ResourcePolicy, w: World, v: World, l: nat, c: string, e: Option<Evidence>)
    requires Waits(policy, w, l, c, e) && RefusalsStay(policy, w, v)
    ensures Waits(policy, v, l, c, e)
  {
    hide Refuses, Rests;
    assert Journals(v.leases[l], c);
  }

  // From one state and history to a later one, wedged leases stayed wedged throughout, and
  // waiting ones waiting until the evidence was shown.
  ghost predicate Endures(policy: ResourcePolicy, w: World, h: seq<World>, v: World, g: seq<World>)
  {
    && h <= g
    && (forall l | Wedged(policy, w, l) ::
          Wedged(policy, v, l) && forall i | |h| <= i < |g| :: Wedged(policy, g[i], l))
    && forall l, c, e | Waits(policy, w, l, c, e) ::
         && (Waits(policy, v, l, c, e) || Shown(policy, g, |h|, |g|, c, e))
         && forall i | |h| <= i < |g| :: Waits(policy, g[i], l, c, e) || Shown(policy, g, |h|, i + 1, c, e)
  }

  lemma PersistentEndures(policy: ResourcePolicy, w: World, h: seq<World>, v: World, g: seq<World>)
    requires Persists(policy, w, h, v, g)
    ensures Endures(policy, w, h, v, g)
  {
    hide RefusalsStay, Wedged, Waits, Shown;
    forall l | Wedged(policy, w, l)
      ensures Wedged(policy, v, l) && forall i | |h| <= i < |g| :: Wedged(policy, g[i], l)
    {
      StaysWedged(policy, w, v, l);
      forall i | |h| <= i < |g| ensures Wedged(policy, g[i], l) {
        StaysWedged(policy, w, g[i], l);
      }
    }
    forall l, c, e | Waits(policy, w, l, c, e)
      ensures Waits(policy, v, l, c, e) && forall i | |h| <= i < |g| :: Waits(policy, g[i], l, c, e)
    {
      StillWaits(policy, w, v, l, c, e);
      forall i | |h| <= i < |g| ensures Waits(policy, g[i], l, c, e) {
        StillWaits(policy, w, g[i], l, c, e);
      }
    }
  }

  lemma EnduresTransitive(policy: ResourcePolicy, u: World, f: seq<World>, v: World, g: seq<World>, w: World, h: seq<World>)
    requires Endures(policy, u, f, v, g) && Endures(policy, v, g, w, h)
    ensures Endures(policy, u, f, w, h)
  {
    hide Wedged, Waits, Shown;
    forall l | Wedged(policy, u, l)
      ensures Wedged(policy, w, l) && forall i | |f| <= i < |h| :: Wedged(policy, h[i], l)
    {
      assert Wedged(policy, v, l);
      assert forall i | |f| <= i < |g| :: g[i] == h[i];
    }
    forall l, c, e | Waits(policy, u, l, c, e)
      ensures Waits(policy, w, l, c, e) || Shown(policy, h, |f|, |h|, c, e)
      ensures forall i | |f| <= i < |h| :: Waits(policy, h[i], l, c, e) || Shown(policy, h, |f|, i + 1, c, e)
    {
      WaitsOn(policy, u, f, v, g, w, h, l, c, e);
    }
  }

  lemma WaitsOn(policy: ResourcePolicy, u: World, f: seq<World>, v: World, g: seq<World>, w: World, h: seq<World>,
                l: nat, c: string, e: Option<Evidence>)
    requires Endures(policy, u, f, v, g) && Endures(policy, v, g, w, h) && Waits(policy, u, l, c, e)
    ensures Waits(policy, w, l, c, e) || Shown(policy, h, |f|, |h|, c, e)
    ensures forall i | |f| <= i < |h| :: Waits(policy, h[i], l, c, e) || Shown(policy, h, |f|, i + 1, c, e)
  {
    hide Wedged, Waits, Shown;
    ShownLater(policy, g, h, |f|, |f|, |g|, |h|, c, e);
    ShownLater(policy, h, h, |g|, |f|, |h|, |h|, c, e);
    forall i | |f| <= i < |h| ensures Waits(policy, h[i], l, c, e) || Shown(policy, h, |f|, i + 1, c, e) {
      if i < |g| {
        ShownLater(policy, g, h, |f|, |f|, i + 1, i + 1, c, e);
      } else {
        ShownLater(policy, g, h, |f|, |f|, |g|, i + 1, c, e);
        ShownLater(policy, h, h, |g|, |f|, i + 1, i + 1, c, e);
      }
    }
  }

  // Some state reached since the history was this long is one in which the lease is wedged.
  ghost predicate WedgedAfter(policy: ResourcePolicy, h: seq<World>, since: nat, l: nat)
  {
    exists i | since <= i < |h| :: Wedged(policy, h[i], l)
  }

  lemma WedgedLater(policy: ResourcePolicy, h: seq<World>, g: seq<World>, since: nat, earlier: nat, l: nat)
    requires WedgedAfter(policy, h, since, l) && h <= g && earlier <= since
    ensures WedgedAfter(policy, g, earlier, l)
  {
    hide Wedged;
    var i :| since <= i < |h| && Wedged(policy, h[i], l);
    assert g[i] == h[i];
  }

  // The controller does not refuse, and what it may rest on has been shown since.
  ghost predicate Agrees(policy: ResourcePolicy, w: World, l: nat, c: string, h: seq<World>, since: nat)
    requires l in w.leases
  {
    && c in w.plants && !Refuses(policy, w, l, c)
    && forall e | Rests(w, l, c, e) :: Shown(policy, h, since, |h|, c, e)
  }

  lemma SameAgrees(policy: ResourcePolicy, w: World, l: nat, c: string, h: seq<World>, g: seq<World>, since: nat)
    requires l in w.leases && h <= g
    ensures Agrees(policy, w, l, c, h, since) ==> Agrees(policy, w, l, c, g, since)
  {
    hide Refuses, Rests, Shown;
    if Agrees(policy, w, l, c, h, since) {
      forall e | Rests(w, l, c, e) ensures Shown(policy, g, since, |g|, c, e) {
        ShownLater(policy, h, g, since, since, |h|, |g|, c, e);
      }
    }
  }

  // So do the last of the journaled controllers.
  ghost predicate AgreeFrom(policy: ResourcePolicy, w: World, l: nat, h: seq<World>, since: nat, throttled: seq<Throttle>, n: nat)
  {
    l in w.leases && forall j | n <= j < |throttled| :: Agrees(policy, w, l, throttled[j].controller, h, since)
  }

  lemma AgreesEarlier(policy: ResourcePolicy, w: World, v: World, l: nat, c: string, h: seq<World>, g: seq<World>, since: nat, earlier: nat)
    requires RefusalsStay(policy, w, v) && l in w.leases && l in v.leases && Agrees(policy, v, l, c, h, since)
    requires h <= g && earlier <= since
    ensures Agrees(policy, w, l, c, g, earlier)
  {
    hide Refuses, Rests, Shown;
    forall e | Rests(w, l, c, e) ensures Shown(policy, g, earlier, |g|, c, e) {
      ShownLater(policy, h, g, since, earlier, |h|, |g|, c, e);
    }
  }

  lemma AllAgreeEarlier(policy: ResourcePolicy, w: World, v: World, l: nat, h: seq<World>, g: seq<World>, since: nat, earlier: nat,
                        throttled: seq<Throttle>, n: nat)
    requires RefusalsStay(policy, w, v) && l in w.leases && AgreeFrom(policy, v, l, h, since, throttled, n)
    requires h <= g && earlier <= since
    ensures AgreeFrom(policy, w, l, g, earlier, throttled, n)
  {
    hide Agrees, RefusalsStay;
    forall j | n <= j < |throttled| ensures Agrees(policy, w, l, throttled[j].controller, g, earlier) {
      AgreesEarlier(policy, w, v, l, throttled[j].controller, h, g, since, earlier);
    }
  }

  lemma StillAgree(policy: ResourcePolicy, w: World, l: nat, h: seq<World>, g: seq<World>, since: nat, throttled: seq<Throttle>, n: nat)
    requires AgreeFrom(policy, w, l, h, since, throttled, n) && h <= g
    ensures AgreeFrom(policy, w, l, g, since, throttled, n)
  {
    hide Refuses;
    RefusalsStayPut(policy, w, w);
    AllAgreeEarlier(policy, w, w, l, h, g, since, since, throttled, n);
  }

  lemma OneMoreAgrees(policy: ResourcePolicy, w: World, v: World, l: nat, h: seq<World>, g: seq<World>, since: nat, earlier: nat,
                      throttled: seq<Throttle>, i: nat)
    requires AgreeFrom(policy, w, l, h, earlier, throttled, i + 1) && RefusalsStay(policy, w, v) && i < |throttled|
    requires l in v.leases && Agrees(policy, v, l, throttled[i].controller, g, since)
    requires h <= g && earlier <= since
    ensures AgreeFrom(policy, w, l, g, earlier, throttled, i)
  {
    StillAgree(policy, w, l, h, g, earlier, throttled, i + 1);
    AgreesEarlier(policy, w, v, l, throttled[i].controller, g, g, since, earlier);
    hide Agrees, RefusalsStay;
  }

  // What closing a lease takes: none of its controllers refused, and whatever they rested on
  // has been on disk since.
  ghost predicate Reclaimed(policy: ResourcePolicy, w: World, l: nat, h: seq<World>, since: nat)
  {
    && l in w.leases && !Wedged(policy, w, l)
    && forall c, e | Waits(policy, w, l, c, e) :: Shown(policy, h, since, |h|, c, e)
  }

  lemma AllAgreed(policy: ResourcePolicy, w: World, l: nat, h: seq<World>, since: nat)
    requires l in w.leases && AgreeFrom(policy, w, l, h, since, w.leases[l].throttle, 0)
    ensures Reclaimed(policy, w, l, h, since)
  {
    hide Refuses, Rests, Shown;
    forall c | Journals(w.leases[l], c) ensures Agrees(policy, w, l, c, h, since) {
      var j :| 0 <= j < |w.leases[l].throttle| && w.leases[l].throttle[j].controller == c;
    }
  }

  lemma ReclaimedLater(policy: ResourcePolicy, w: World, l: nat, h: seq<World>, g: seq<World>, since: nat)
    requires Reclaimed(policy, w, l, h, since) && h <= g
    ensures Reclaimed(policy, w, l, g, since)
  {
    hide Wedged, Waits, Shown;
    forall c, e | Waits(policy, w, l, c, e) ensures Shown(policy, g, since, |g|, c, e) {
      ShownLater(policy, h, g, since, since, |h|, |g|, c, e);
    }
  }

  lemma EmptyJournal(policy: ResourcePolicy, w: World, l: nat, h: seq<World>, since: nat)
    requires l in w.leases && w.leases[l].throttle == []
    ensures Reclaimed(policy, w, l, h, since)
  {
  }

  // A lease is wedged the moment it journals a controller that nothing has reached yet: its
  // fence is fresh, so no record carries it.
  lemma JournaledIsWedged(policy: ResourcePolicy, w: World, l: nat, c: string)
    requires Inv(policy, w) && l in w.leases && Unclosed(w.leases[l])
    requires Journals(w.leases[l], c) && c in w.plants && Quiet(w, c, Epoch(w.plants[c]))
    requires w.plants[c].authority.Some? ==> Current(w.plants[c]).lease != l
    ensures Wedged(policy, w, l)
  {
    assert Refuses(policy, w, l, c);
  }

  // And again from the moment a takeover of it has been taken up by one of its controllers,
  // completed or not: the record is then under the recovery fence.
  predicate TakenUp(w: World, c: string, l: nat)
  {
    c in w.plants && w.plants[c].authority.Some? && Current(w.plants[c]).Takeover? && Current(w.plants[c]).lease == l
  }

  ghost predicate AnyTakenUp(w: World, l: nat)
  {
    l in w.leases && exists c :: Journals(w.leases[l], c) && TakenUp(w, c, l)
  }

  lemma AnyTakenUpWedges(policy: ResourcePolicy, w: World, l: nat)
    requires Inv(policy, w) && l in w.leases && Unclosed(w.leases[l])
    ensures AnyTakenUp(w, l) ==> Wedged(policy, w, l)
  {
    hide Inv;
    if AnyTakenUp(w, l) {
      var c :| Journals(w.leases[l], c) && TakenUp(w, c, l);
      TakenUpIsWedged(policy, w, l, c);
    }
  }

  lemma TakenUpIsWedged(policy: ResourcePolicy, w: World, l: nat, c: string)
    requires Inv(policy, w) && l in w.leases && Unclosed(w.leases[l]) && Journals(w.leases[l], c) && TakenUp(w, c, l)
    ensures Wedged(policy, w, l)
  {
    assert PlantOk(policy, w, c);
    forall f | f in w.flights && f.controller == c && f.command.SetMode? && f.command.lease == l
      ensures f.command.epoch < Epoch(w.plants[c])
    {
      assert Deliverable(policy, w, f);
    }
    assert Refuses(policy, w, l, c);
  }
}
