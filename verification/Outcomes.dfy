// When what the coordinator asks for succeeds: exact conditions on the host, on what it
// answers and on what the probe shows, for everything the coordinator does.
module Outcomes {
  import opened Wrappers
  import opened Protocol
  import opened Controller
  import opened ControllerSteps
  import opened ControllerRuns
  import opened PlantMoves
  import opened Worlds
  import opened BrokerSteps
  import opened Host
  import opened Admission

  // All that an outcome depends on: the durable world, what the host will do next, and the
  // generation of the last snapshot accepted.
  datatype Situation = Situation(world: World, tape: seq<Input>, last: int)

  // ------------------------------------------------------------------------- a snapshot

  function Generation(s: Situation): int
  {
    Next(s.tape).reading.snapshot.generation
  }

  // A snapshot is accepted exactly if the probe answers and is not behind.
  predicate Accepts(s: Situation)
  {
    !Next(s.tape).reading.fails && 0 <= Generation(s) && s.last <= Generation(s)
  }

  function Looked(policy: ResourcePolicy, s: Situation): Situation
  {
    Situation(Evolve(policy, s.world, Next(s.tape).events), Rest(s.tape), Generation(s))
  }

  function Seen(policy: ResourcePolicy, s: Situation): Snapshot
    requires !Next(s.tape).reading.fails
  {
    SnapshotOf(Looked(policy, s).world, Next(s.tape).reading).value
  }

  // -------------------------------------------------------------------------- a command

  function Requested(policy: ResourcePolicy, s: Situation, f: Flight): Situation
    requires f.controller in s.world.plants
  {
    var d := Next(s.tape).delivery;
    EvolveKeepsKeys(policy, s.world, d.before);
    Situation(Evolve(policy, Landed(policy, Sent(Evolve(policy, s.world, d.before), f), f, d), d.after), Rest(s.tape), s.last)
  }

  // The command reaches its controller, is completed there, and the answer gets back.
  predicate Replies(policy: ResourcePolicy, s: Situation, f: Flight)
    requires f.controller in s.world.plants
  {
    var d := Next(s.tape).delivery;
    EvolveKeepsKeys(policy, s.world, d.before);
    var p := Evolve(policy, s.world, d.before).plants[f.controller];
    var run := HandleRun(TrainerOf(policy, f.controller), p, f.command, d.env);
    d.delivered && d.answered && |run.states| <= d.steps && run.out.Ok?
  }

  // And the next snapshot is accepted, newer than the floor, and shows that controller.
  predicate Succeeds(policy: ResourcePolicy, s: Situation, f: Flight, floor: int)
  {
    && f.controller in s.world.plants && Replies(policy, s, f)
    && var t := Requested(policy, s, f);
       Accepts(t) && floor < Generation(t) && f.controller !in Next(t.tape).reading.hidden
  }

  function Exchanged(policy: ResourcePolicy, s: Situation, f: Flight): Situation
    requires f.controller in s.world.plants
  {
    Looked(policy, Requested(policy, s, f))
  }

  // What an answer says about the controller by the time the call returns.
  predicate Answered(p: Plant, x: Command, answer: Response)
  {
    ShowsRecord(p) && Current(p) == x && answer == p.authority.value.response
  }

  lemma HandledShows(trainer: Controller.Policy, p: Plant, x: Command, env: CallEnv)
    requires Sound(p) && RecordOf(p) != Some(x) && HandleRun(trainer, p, x, env).out.Ok?
    ensures Answered(Final(p, HandleRun(trainer, p, x, env).states), x, HandleRun(trainer, p, x, env).out.value)
  {
    hide RecoverRun, ServeRun, Sound;
    var recovered := RecoverRun(trainer, p, env.recovery);
    var q := Final(p, recovered.states);
    RecoverIsLegal(trainer, p, env.recovery, ANY);
    RunIsSound(trainer, p, recovered.states, |recovered.states|, ANY);
    assert q == At(p, recovered.states, |recovered.states|);
    RecoveryKeepsRecord(trainer, p, env.recovery);
    FinalAppend(p, recovered.states, ServeRun(trainer, q, x, env.apply).states);
    ServedShows(trainer, q, x, env.apply);
  }

  lemma RecoveryKeepsRecord(trainer: Controller.Policy, p: Plant, env: UnitEnv)
    ensures RecordOf(Final(p, RecoverRun(trainer, p, env).states)) == RecordOf(p)
  {
    if Pending(p) { RestartCompletesOrKeeps(trainer, p, env); }
  }

  lemma ServedShows(trainer: Controller.Policy, q: Plant, x: Command, env: UnitEnv)
    requires !Pending(q) && RecordOf(q) != Some(x) && ServeRun(trainer, q, x, env).out.Ok?
    ensures Answered(Final(q, ServeRun(trainer, q, x, env).states), x, ServeRun(trainer, q, x, env).out.value)
  {
    hide ApplyRun, Refusal;
    var a := Accepted(q, x);
    var completed := CompleteRun(trainer, a, x, q.authority, a.authority.value.baseline, env);
    FinalAppend(q, [a], completed.states);
  }

  // An answer that got back is a true one, and what it says stays true.
  lemma RequestAnswers(policy: ResourcePolicy, w: World, f: Flight, d: Delivery)
    requires Inv(policy, w) && MaySend(policy, w, f)
    ensures f.controller in Evolve(policy, w, d.before).plants
    ensures
      var w1 := Evolve(policy, w, d.before);
      var w4 := Evolve(policy, Landed(policy, Sent(w1, f), f, d), d.after);
      && f.controller in w4.plants
      && (AnswerOf(policy, w1, f.controller, f.command, d).Some? ==>
            Answered(w4.plants[f.controller], f.command, AnswerOf(policy, w1, f.controller, f.command, d).value))
  {
    hide Inv, MaySend, TakesUp, Readmits, HandleRun, Stable, Deliverable, Answered;
    var c, x := f.controller, f.command;
    CommandKeepsInv(policy, w, f, d);
    var w1 := Evolve(policy, w, d.before);
    var w3 := Landed(policy, Sent(w1, f), f, d);
    var w4 := Evolve(policy, w3, d.after);
    EvolveIsStable(policy, w, d.before);
    MaySendLater(policy, w, w1, f);
    LandedIsStable(policy, w1, f, d);
    EvolveIsStable(policy, w3, d.after);
    EvolveKeepsKeys(policy, w3, d.after);
    NewToIt(policy, w1, f);
    RecordFacts(policy, w1, c);
    var answer := AnswerOf(policy, w1, c, x, d);
    if answer.Some? {
      HandledShows(TrainerOf(policy, c), w1.plants[c], x, d.env);
      LandedWhole(policy, w1, f, d);
      AnsweredStays(w3, w4, c, x, answer.value, {}) by { SentQuiet(policy, w1, w3, f); }
    }
  }

  lemma NewToIt(policy: ResourcePolicy, w: World, f: Flight)
    requires MaySend(policy, w, f)
    ensures f.controller in w.plants && RecordOf(w.plants[f.controller]) != Some(f.command)
  {
  }

  lemma LandedWhole(policy: ResourcePolicy, w: World, f: Flight, d: Delivery)
    requires f.controller in w.plants && AnswerOf(policy, w, f.controller, f.command, d).Some?
    ensures Landed(policy, Sent(w, f), f, d).plants[f.controller]
            == Final(w.plants[f.controller], HandleRun(TrainerOf(policy, f.controller), w.plants[f.controller], f.command, d.env).states)
  {
    hide HandleRun;
  }

  lemma SentQuiet(policy: ResourcePolicy, w: World, v: World, f: Flight)
    requires MaySend(policy, w, f) && Stable(w, v, {f.controller})
    ensures Quiet(v, f.controller, f.command.epoch)
  {
  }

  lemma AnsweredStays(w: World, v: World, c: string, x: Command, answer: Response, but: set<string>)
    requires Stable(w, v, but) && c !in but && c in w.plants && Answered(w.plants[c], x, answer) && Quiet(w, c, x.epoch)
    ensures c in v.plants && Answered(v.plants[c], x, answer)
  {
    assert SettledStays(w, v, c);
  }

  // A snapshot that shows the controller shows what was answered.
  lemma AnsweredIsObserved(w: World, c: string, x: Command, answer: Response, reading: Reading)
    requires c in w.plants && Sound(w.plants[c]) && Answered(w.plants[c], x, answer)
    requires SnapshotOf(w, reading).Some?
    ensures Observes(SnapshotOf(w, reading).value, c, x, answer) <==> c !in reading.hidden
  {
  }

  // And it accepts no other: what it observes is the record itself, but for the checkpoint
  // where the answer names none.
  lemma OnlyItsRecordIsObserved(p: Plant, s: Snapshot, c: string, x: Command, answer: Response)
    requires Sound(p) && Answered(p, x, answer) && Observes(s, c, x, answer)
    ensures s.states[c] == p.state.value
            || ((x.Takeover? || answer.checkpoint.None?) && s.states[c].(checkpoint := p.state.value.checkpoint) == p.state.value)
  {
  }

  // What an answer to a new command says: the record, the state file and the answer carry
  // that command's own identifiers; after a release the unit is down, and all three name
  // the checkpoint on disk, by its run, identifier and digest; after a resume it is up.
  lemma AnswerIsTheRecord(trainer: Controller.Policy, p: Plant, x: Command, env: CallEnv)
    requires Sound(p) && RecordOf(p) != Some(x) && HandleRun(trainer, p, x, env).out.Ok?
    ensures
      var q := Final(p, HandleRun(trainer, p, x, env).states);
      && Settled(q) && Current(q) == x && q.state == Some(q.authority.value.public)
      && var shown := q.state.value;
         && shown == Public(x.mutation, x.lease, x.fence, x.epoch, x.generation, x.target, shown.checkpoint)
         && HandleRun(trainer, p, x, env).out.value
            == (if x.Takeover? then TakeoverResponse(x.mutation, x.lease, x.previousFence, x.fence, x.epoch, x.generation, x.target)
                else SetModeResponse(x.mutation, x.lease, x.fence, x.epoch, x.generation, x.target, shown.checkpoint))
         && (x.target.Released? ==>
               && !q.active && CheckpointOf(q.receipt, q.files).Ok?
               && var e := CheckpointOf(q.receipt, q.files).value;
                  shown.checkpoint == Some(Checkpoint(e.runId, e.checkpointId, OfEvidence(e))))
  {
    HandledShows(trainer, p, x, env);
    hide HandleRun;
    var states := HandleRun(trainer, p, x, env).states;
    HandleIsLegal(trainer, p, x, env);
    RunIsSound(trainer, p, states, |states|, iset{x});
    assert Final(p, states) == At(p, states, |states|);
  }

  lemma AnsweredIsAcknowledged(k: ControllerPolicy, p: Plant, x: Command, answer: Response)
    requires Sound(p) && Answered(p, x, answer)
    ensures Acknowledges(k, x, answer)
  {
  }

  // ----------------------------------------------------------------------- displacement

  // One more displacement journaled, not acknowledged yet.
  function Journaled(s: Situation, l: nat, k: ControllerPolicy, generation: nat): Situation
    requires l in s.world.leases
  {
    var lease := s.world.leases[l];
    s.(world := Rewritten(Drawn(s.world), l,
         lease.(throttle := lease.throttle + [Throttle(k.id, generation, s.world.nextId, false)])))
  }

  function Displacement(s: Situation, l: nat, k: ControllerPolicy, generation: nat): Flight
    requires l in s.world.leases
  {
    var lease := s.world.leases[l];
    Flight(k.id, SetMode(s.world.nextId, l, lease.fence, lease.epoch, generation, Mode.Released))
  }

  predicate DisplacesOne(policy: ResourcePolicy, s: Situation, l: nat, k: ControllerPolicy, generation: nat, floor: int)
  {
    l in s.world.leases && Succeeds(policy, Journaled(s, l, k, generation), Displacement(s, l, k, generation), floor)
  }

  function DisplacedOne(policy: ResourcePolicy, s: Situation, l: nat, k: ControllerPolicy, generation: nat): Situation
    requires l in s.world.leases && k.id in s.world.plants
  {
    var lease := s.world.leases[l];
    var t := Exchanged(policy, Journaled(s, l, k, generation), Displacement(s, l, k, generation));
    t.(world := Rewritten(t.world, l, lease.(throttle := lease.throttle + [Throttle(k.id, generation, s.world.nextId, true)])))
  }

  // The controllers in turn, at generations 1, 2, ..., each on a snapshot newer than the one
  // before it, the first on one newer than the floor.
  predicate DisplacesAll(policy: ResourcePolicy, s: Situation, l: nat, controllers: seq<ControllerPolicy>, i: nat, floor: int)
    decreases |controllers| - i
  {
    i < |controllers| ==>
      && DisplacesOne(policy, s, l, controllers[i], i + 1, floor)
      && var t := DisplacedOne(policy, s, l, controllers[i], i + 1);
         DisplacesAll(policy, t, l, controllers, i + 1, t.last)
  }

  function DisplacedAll(policy: ResourcePolicy, s: Situation, l: nat, controllers: seq<ControllerPolicy>, i: nat, floor: int): Situation
    requires DisplacesAll(policy, s, l, controllers, i, floor)
    decreases |controllers| - i
  {
    if i >= |controllers| then s
    else
      var t := DisplacedOne(policy, s, l, controllers[i], i + 1);
      DisplacedAll(policy, t, l, controllers, i + 1, t.last)
  }

  // What is left to displace decides, and ends, as the whole does.
  ghost predicate OnCourse(policy: ResourcePolicy, start: Situation, floor: int, now: Situation, causal: int,
                           l: nat, controllers: seq<ControllerPolicy>, i: nat)
  {
    && (DisplacesAll(policy, start, l, controllers, 0, floor) <==> DisplacesAll(policy, now, l, controllers, i, causal))
    && (DisplacesAll(policy, start, l, controllers, 0, floor) ==>
          DisplacedAll(policy, start, l, controllers, 0, floor) == DisplacedAll(policy, now, l, controllers, i, causal))
  }

  lemma CourseStarts(policy: ResourcePolicy, s: Situation, floor: int, l: nat, controllers: seq<ControllerPolicy>)
    ensures OnCourse(policy, s, floor, s, floor, l, controllers, 0)
  {
  }

  lemma CourseGoesOn(policy: ResourcePolicy, start: Situation, floor: int, s: Situation, causal: int, t: Situation,
                     l: nat, controllers: seq<ControllerPolicy>, i: nat)
    requires i < |controllers| && OnCourse(policy, start, floor, s, causal, l, controllers, i)
    requires DisplacesOne(policy, s, l, controllers[i], i + 1, causal) && t == DisplacedOne(policy, s, l, controllers[i], i + 1)
    ensures OnCourse(policy, start, floor, t, t.last, l, controllers, i + 1)
  {
    hide DisplacesOne, DisplacedOne;
  }

  lemma CourseBreaks(policy: ResourcePolicy, start: Situation, floor: int, s: Situation, causal: int,
                     l: nat, controllers: seq<ControllerPolicy>, i: nat)
    requires i < |controllers| && OnCourse(policy, start, floor, s, causal, l, controllers, i)
    requires !DisplacesOne(policy, s, l, controllers[i], i + 1, causal)
    ensures !DisplacesAll(policy, start, l, controllers, 0, floor)
  {
    hide DisplacesOne, DisplacedOne;
  }

  lemma CourseEnds(policy: ResourcePolicy, start: Situation, floor: int, s: Situation, causal: int,
                   l: nat, controllers: seq<ControllerPolicy>)
    requires OnCourse(policy, start, floor, s, causal, l, controllers, |controllers|)
    ensures DisplacesAll(policy, start, l, controllers, 0, floor)
    ensures s == DisplacedAll(policy, start, l, controllers, 0, floor)
  {
  }

  // -------------------------------------------------------------------------- admission

  function Clocked(s: Situation): Situation
  {
    s.(world := s.world.(clock := s.world.clock + Next(s.tape).seconds), tape := Rest(s.tape))
  }

  // The start of a controller's normal time is read, and recorded as now if there is none.
  function QuantumRead(s: Situation, c: string): Situation
  {
    var t := Clocked(s);
    t.(world := t.world.(quanta := if c in s.world.quanta then s.world.quanta else s.world.quanta[c := t.world.clock]))
  }

  // Every training controller among them has had its minimum normal time by `now`.
  predicate PastQuanta(s: Situation, controllers: seq<ControllerPolicy>, i: nat, now: nat)
    decreases |controllers| - i
  {
    i < |controllers| ==>
      var k := controllers[i];
      if !k.training then PastQuanta(s, controllers, i + 1, now)
      else
        var t := QuantumRead(s, k.id);
        t.world.quanta[k.id] + k.minimumNormal <= now && PastQuanta(t, controllers, i + 1, now)
  }

  function QuantaRead(s: Situation, controllers: seq<ControllerPolicy>, i: nat): Situation
    decreases |controllers| - i
  {
    if i >= |controllers| then s
    else QuantaRead(if controllers[i].training then QuantumRead(s, controllers[i].id) else s, controllers, i + 1)
  }

  predicate Prepares(policy: ResourcePolicy, s: Situation, plan: Plan)
  {
    && Accepts(s) && ValidateSnapshot(policy, Seen(policy, s), plan, false).None?
    && var t := Clocked(Looked(policy, s));
       PastQuanta(t, ControllersFor(policy, plan), 0, t.world.clock)
  }

  function Prepared(policy: ResourcePolicy, s: Situation, plan: Plan): Situation
  {
    QuantaRead(Clocked(Looked(policy, s)), ControllersFor(policy, plan), 0)
  }

  function LeaseOpened(s: Situation, plan: Plan, epoch: nat): Situation
  {
    var l := s.world.nextId;
    s.(world := Opened(s.world, Lease(epoch, l + 1, plan.profile, plan.service, plan.mode, Acquiring, [])))
  }

  // The snapshot taken once all are held is accepted, not behind, and admissible.
  predicate Confirms(policy: ResourcePolicy, s: Situation, plan: Plan, causal: int)
  {
    && Accepts(s) && causal <= Generation(s)
    && ValidateSnapshot(policy, Seen(policy, s), plan, true).None? && ValidateCompatibility(Seen(policy, s), plan).None?
  }

  function Confirmed(policy: ResourcePolicy, s: Situation, l: nat): Situation
    requires l in s.world.leases
  {
    var t := Looked(policy, s);
    t.(world := Rewritten(t.world, l, s.world.leases[l].(status := Active)))
  }

  predicate AdmitsUnder(policy: ResourcePolicy, s: Situation, l: nat, plan: Plan, floor: int)
  {
    var controllers := ControllersFor(policy, plan);
    && DisplacesAll(policy, s, l, controllers, 0, floor)
    && var t := DisplacedAll(policy, s, l, controllers, 0, floor);
       Confirms(policy, t, plan, if controllers == [] then floor else t.last)
  }

  // An admission succeeds exactly so.
  predicate Admissible(policy: ResourcePolicy, s: Situation, plan: Plan, epoch: nat)
  {
    && Prepares(policy, s, plan)
    && var t := Prepared(policy, s, plan);
       AdmitsUnder(policy, LeaseOpened(t, plan, epoch), t.world.nextId, plan, Generation(s))
  }

  // And this is where it ends.
  function AdmittedAt(policy: ResourcePolicy, s: Situation, plan: Plan, epoch: nat): Situation
    requires Admissible(policy, s, plan, epoch)
  {
    var t := Prepared(policy, s, plan);
    AdmittedUnder(policy, LeaseOpened(t, plan, epoch), t.world.nextId, plan, Generation(s))
  }

  function AdmittedUnder(policy: ResourcePolicy, s: Situation, l: nat, plan: Plan, floor: int): Situation
    requires AdmitsUnder(policy, s, l, plan, floor)
  {
    var t := DisplacedAll(policy, s, l, ControllersFor(policy, plan), 0, floor);
    if l in t.world.leases then Confirmed(policy, t, l) else t
  }

  // Time recorded as enough stays enough, however much more passes while it is read.
  lemma {:induction false} PastQuantaWhen(s: Situation, controllers: seq<ControllerPolicy>, i: nat, now: nat)
    requires now <= s.world.clock
    requires forall j | i <= j < |controllers| && controllers[j].training ::
      controllers[j].id in s.world.quanta && s.world.quanta[controllers[j].id] + controllers[j].minimumNormal <= now
    ensures PastQuanta(s, controllers, i, now)
    decreases |controllers| - i
  {
    if i < |controllers| {
      var t := if controllers[i].training then QuantumRead(s, controllers[i].id) else s;
      PastQuantaWhen(t, controllers, i + 1, now);
    }
  }

  // -------------------------------------------------------------------------- restoring

  function IdDrawn(s: Situation): Situation
  {
    s.(world := Drawn(s.world))
  }

  // The command back to normal mode: the lease's own, far above the generation displaced at,
  // or a takeover under the recovery fence.
  function Restoration(s: Situation, l: nat, item: Throttle, epoch: nat, offset: nat, recovery: Option<nat>): Flight
    requires l in s.world.leases
  {
    var lease := s.world.leases[l];
    Flight(item.controller,
           if recovery.None? then SetMode(s.world.nextId, l, lease.fence, lease.epoch, item.generation + 1_000_000, Normal)
           else Takeover(s.world.nextId, l, lease.fence, recovery.value, epoch, 1_000_000 + offset, Normal))
  }

  predicate RestoresOne(policy: ResourcePolicy, s: Situation, l: nat, item: Throttle, epoch: nat, offset: nat,
                        recovery: Option<nat>, floor: int)
  {
    && l in s.world.leases
    && (exists k | k in policy.controllers :: k.id == item.controller)
    && Succeeds(policy, IdDrawn(s), Restoration(s, l, item, epoch, offset, recovery), floor)
  }

  function RestoredOne(policy: ResourcePolicy, s: Situation, l: nat, item: Throttle, epoch: nat, offset: nat,
                       recovery: Option<nat>): Situation
    requires l in s.world.leases && item.controller in s.world.plants
  {
    Exchanged(policy, IdDrawn(s), Restoration(s, l, item, epoch, offset, recovery))
  }

  // The first `i` entries of the journal, backwards, each on a snapshot newer than the last.
  predicate RestoresAll(policy: ResourcePolicy, s: Situation, l: nat, throttled: seq<Throttle>, i: nat, epoch: nat,
                        recovery: Option<nat>, floor: int)
    requires i <= |throttled|
    decreases i
  {
    i > 0 ==>
      && RestoresOne(policy, s, l, throttled[i - 1], epoch, |throttled| - i + 1, recovery, floor)
      && var t := RestoredOne(policy, s, l, throttled[i - 1], epoch, |throttled| - i + 1, recovery);
         RestoresAll(policy, t, l, throttled, i - 1, epoch, recovery, t.last)
  }

  function RestoredAll(policy: ResourcePolicy, s: Situation, l: nat, throttled: seq<Throttle>, i: nat, epoch: nat,
                       recovery: Option<nat>, floor: int): Situation
    requires i <= |throttled| && RestoresAll(policy, s, l, throttled, i, epoch, recovery, floor)
    decreases i
  {
    if i == 0 then s
    else
      var t := RestoredOne(policy, s, l, throttled[i - 1], epoch, |throttled| - i + 1, recovery);
      RestoredAll(policy, t, l, throttled, i - 1, epoch, recovery, t.last)
  }

  // No unknown consumer, and the leased profile not among the active ones.
  predicate IsAbsent(s: Snapshot, profile: string)
  {
    s.healthy && s.unknown == 0 && profile !in s.active
  }

  // The snapshot after the restorations is accepted and shows every restored controller's
  // profile active and healthy and, where asked for, the leased one absent.
  predicate Verifies(policy: ResourcePolicy, s: Situation, throttled: seq<Throttle>, profile: string, absent: bool)
  {
    && Accepts(s)
    && (forall j, k | 0 <= j < |throttled| && k in policy.controllers && k.id == throttled[j].controller ::
          k.profile in Seen(policy, s).active && k.profile in Seen(policy, s).profiles && Seen(policy, s).profiles[k.profile])
    && (absent ==> IsAbsent(Seen(policy, s), profile))
  }

  predicate RestoresVerified(policy: ResourcePolicy, s: Situation, l: nat, throttled: seq<Throttle>, epoch: nat,
                             recovery: Option<nat>, floor: int, absent: bool)
  {
    && l in s.world.leases
    && RestoresAll(policy, s, l, throttled, |throttled|, epoch, recovery, floor)
    && Verifies(policy, RestoredAll(policy, s, l, throttled, |throttled|, epoch, recovery, floor),
                throttled, s.world.leases[l].profile, absent)
  }

  // Undoing an admission of this epoch: absence first, where asked for.
  predicate Undoes(policy: ResourcePolicy, s: Situation, l: nat, throttled: seq<Throttle>, epoch: nat, absent: bool, again: bool)
  {
    && l in s.world.leases
    && if !absent then RestoresVerified(policy, s, l, throttled, epoch, None, -1, again)
       else
         && Accepts(s) && IsAbsent(Seen(policy, s), s.world.leases[l].profile)
         && RestoresVerified(policy, Looked(policy, s), l, throttled, epoch, None,
                             if throttled == [] then -1 else Generation(s), again)
  }

  // Recovering a stale lease, by takeovers under a fresh fence.
  predicate Recovers(policy: ResourcePolicy, s: Situation, l: nat, epoch: nat)
  {
    && l in s.world.leases
    && var lease := s.world.leases[l];
       && Accepts(s)
       && (if lease.mode == Exclusive || lease.throttle != [] then IsAbsent(Seen(policy, s), lease.profile)
           else Seen(policy, s).healthy && Seen(policy, s).unknown == 0)
       && (lease.throttle == [] ||
             var t := Looked(policy, s);
             RestoresVerified(policy, IdDrawn(t), l, lease.throttle, epoch, Some(t.world.nextId), Generation(s), true))
  }

  // What is left to restore decides, and ends, as the whole does.
  ghost predicate OnTrack(policy: ResourcePolicy, start: Situation, floor: int, now: Situation, causal: int,
                          l: nat, throttled: seq<Throttle>, i: nat, epoch: nat, recovery: Option<nat>)
    requires i <= |throttled|
  {
    && (RestoresAll(policy, start, l, throttled, |throttled|, epoch, recovery, floor) <==>
          RestoresAll(policy, now, l, throttled, i, epoch, recovery, causal))
    && (RestoresAll(policy, start, l, throttled, |throttled|, epoch, recovery, floor) ==>
          RestoredAll(policy, start, l, throttled, |throttled|, epoch, recovery, floor)
          == RestoredAll(policy, now, l, throttled, i, epoch, recovery, causal))
  }

  lemma TrackStarts(policy: ResourcePolicy, s: Situation, floor: int, l: nat, throttled: seq<Throttle>, epoch: nat, recovery: Option<nat>)
    ensures OnTrack(policy, s, floor, s, floor, l, throttled, |throttled|, epoch, recovery)
  {
  }

  lemma TrackGoesOn(policy: ResourcePolicy, start: Situation, floor: int, s: Situation, causal: int, t: Situation,
                    l: nat, throttled: seq<Throttle>, i: nat, epoch: nat, recovery: Option<nat>)
    requires i < |throttled| && OnTrack(policy, start, floor, s, causal, l, throttled, i + 1, epoch, recovery)
    requires RestoresOne(policy, s, l, throttled[i], epoch, |throttled| - i, recovery, causal)
    requires t == RestoredOne(policy, s, l, throttled[i], epoch, |throttled| - i, recovery)
    ensures OnTrack(policy, start, floor, t, t.last, l, throttled, i, epoch, recovery)
  {
    hide RestoresOne, RestoredOne;
  }

  lemma TrackBreaks(policy: ResourcePolicy, start: Situation, floor: int, s: Situation, causal: int,
                    l: nat, throttled: seq<Throttle>, i: nat, epoch: nat, recovery: Option<nat>)
    requires i < |throttled| && OnTrack(policy, start, floor, s, causal, l, throttled, i + 1, epoch, recovery)
    requires !RestoresOne(policy, s, l, throttled[i], epoch, |throttled| - i, recovery, causal)
    ensures !RestoresAll(policy, start, l, throttled, |throttled|, epoch, recovery, floor)
  {
    hide RestoresOne, RestoredOne;
  }

  lemma TrackEnds(policy: ResourcePolicy, start: Situation, floor: int, s: Situation, causal: int,
                  l: nat, throttled: seq<Throttle>, epoch: nat, recovery: Option<nat>)
    requires OnTrack(policy, start, floor, s, causal, l, throttled, 0, epoch, recovery)
    ensures RestoresAll(policy, start, l, throttled, |throttled|, epoch, recovery, floor)
    ensures s == RestoredAll(policy, start, l, throttled, |throttled|, epoch, recovery, floor)
  {
  }

  function Restatused(s: Situation, l: nat, status: Status): Situation
    requires l in s.world.leases
  {
    s.(world := Rewritten(s.world, l, s.world.leases[l].(status := status)))
  }

  lemma AbsentExactly(s: Snapshot, profile: string, absent: bool)
    ensures ReleaseVerified(s, profile, absent) <==> if absent then IsAbsent(s, profile) else s.healthy && s.unknown == 0
  {
  }
}
