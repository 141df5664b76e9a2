// The durable side of the coordinator: the lease, epoch and quantum tables, the epoch file,
// and the rest of the host as it answers commands and probes.
module Host {
  import opened Wrappers
  import opened Protocol
  import opened Controller
  import opened ControllerRuns
  import opened PlantMoves
  import opened Worlds
  import opened BrokerSteps

  // An accepted resource snapshot, as far as admission and release look at it.
  datatype Snapshot = Snapshot(
    healthy: bool,
    unknown: nat,
    active: set<string>,
    profiles: map<string, bool>,          // per profile: is its health "healthy"
    states: map<string, Public>,
    generation: int,
    pressure: Option<nat>,
    available: Option<int>,
    cuda: Option<int>)

  // What one probe call returns: nothing, or a reading of the host as it is.
  datatype Reading = Reading(fails: bool, hidden: set<string>, snapshot: Snapshot)

  // Everything outside the broker's control, one entry per interaction.
  datatype Input = Input(events: seq<EnvEvent>, seconds: nat, delivery: Delivery, reading: Reading)

  const NO_UNIT := UnitEnv(true, false, true, None)
  const NO_DELIVERY := Delivery([], false, CallEnv(NO_UNIT, NO_UNIT), 0, false, [])
  const NO_INPUT := Input([], 0, NO_DELIVERY, NO_READING)
  const NO_READING := Reading(true, {}, Snapshot(false, 0, {}, map[], map[], 0, None, None, None))

  function Next(tape: seq<Input>): Input
  {
    if tape == [] then NO_INPUT else tape[0]
  }

  function Rest(tape: seq<Input>): seq<Input>
  {
    if tape == [] then [] else tape[1..]
  }

  // A controller answers only if the request was delivered and completed, and its answer
  // got back.
  function AnswerOf(policy: ResourcePolicy, w: World, c: string, x: Command, d: Delivery): Option<Response>
    requires c in w.plants
  {
    var run := HandleRun(TrainerOf(policy, c), w.plants[c], x, d.env);
    if d.delivered && d.answered && d.steps >= |run.states| && run.out.Ok? then Some(run.out.value) else None
  }

  // What the probe says of the host as it is, whatever else it says.
  function SnapshotOf(w: World, reading: Reading): Option<Snapshot>
  {
    if reading.fails then None
    else
      Some(reading.snapshot.(
        active := reading.snapshot.active
                  + (if reading.snapshot.unknown == 0 && reading.snapshot.healthy then ProfilesVisible(w) else {}),
        states := StatesShown(w, reading.hidden)))
  }

  // The probe reports state files as they are, and does not miss a GPU consumer: it lists
  // the consumer's profile, counts it as unknown, or reports ill health. A runtime that is
  // started and holds no consumer it does not see. `Observation` derives this from the
  // probe's own inventory.
  ghost predicate Truthful(w: World, s: Snapshot)
  {
    && (forall c | c in s.states :: c in w.plants && w.plants[c].state == Some(s.states[c]))
    && (forall l | l in w.visible && l in w.leases :: Shows(s, w.leases[l].profile))
  }

  predicate Shows(s: Snapshot, profile: string)
  {
    profile in s.active || s.unknown > 0 || !s.healthy
  }

  function ProfilesVisible(w: World): set<string>
  {
    set l | l in w.visible && l in w.leases :: w.leases[l].profile
  }

  function StatesShown(w: World, hidden: set<string>): map<string, Public>
  {
    map c | c in w.plants && c !in hidden && w.plants[c].state.Some? :: w.plants[c].state.value
  }

  function MarkedUnknown(leases: map<nat, Lease>): map<nat, Lease>
  {
    map l | l in leases :: if leases[l].status in {Acquiring, Active, Releasing} then leases[l].(status := Unknown) else leases[l]
  }

  class Durable {
    const policy: ResourcePolicy
    // tables of the store
    var leases: map<nat, Lease>
    var quanta: map<string, nat>
    var storeEpoch: nat
    // a file beside the coordinator lock
    var epochFile: nat
    // the rest of the host
    var plants: map<string, Plant>
    var flights: set<Flight>
    var running: set<nat>
    var visible: set<nat>
    var loose: set<nat>
    var clock: nat
    var restoredAt: map<string, nat>
    var nextId: nat

    var tape: seq<Input>
    var history: seq<World>             // every state a crash of the broker can leave behind

    function W(): World
      reads this
    {
      World(leases, quanta, storeEpoch, epochFile, plants, flights, running, visible, loose, clock, restoredAt, nextId)
    }

    constructor (policy: ResourcePolicy, plants: map<string, Plant>, tape: seq<Input>)
      ensures this.policy == policy
      ensures W() == World(map[], map[], 0, 0, plants, {}, {}, {}, {}, 0, map[], 0)
      ensures history == [W()]
    {
      this.policy := policy;
      this.leases, this.quanta, this.storeEpoch, this.epochFile := map[], map[], 0, 0;
      this.plants, this.flights, this.running, this.visible, this.loose := plants, {}, {}, {}, {};
      this.clock, this.restoredAt, this.nextId, this.tape := 0, map[], 0, tape;
      new;
      history := [W()];
    }

    method Become(v: World)
      modifies this
      ensures W() == v && history == old(history) + [v] && tape == old(tape)
    {
      BecomeTables(v);
      BecomeHost(v);
      history := history + [v];
    }

    method BecomeTables(v: World)
      modifies this`leases, this`quanta, this`storeEpoch, this`epochFile, this`clock, this`nextId
      ensures leases == v.leases && quanta == v.quanta && storeEpoch == v.storeEpoch && epochFile == v.epochFile
      ensures clock == v.clock && nextId == v.nextId
    {
      leases, quanta, storeEpoch, epochFile := v.leases, v.quanta, v.storeEpoch, v.epochFile;
      clock, nextId := v.clock, v.nextId;
    }

    method BecomeHost(v: World)
      modifies this`plants, this`flights, this`running, this`visible, this`loose, this`restoredAt
      ensures plants == v.plants && flights == v.flights && running == v.running && visible == v.visible
      ensures loose == v.loose && restoredAt == v.restoredAt
    {
      plants, flights, running := v.plants, v.flights, v.running;
      visible, loose, restoredAt := v.visible, v.loose, v.restoredAt;
    }

    // A crash of the broker undoes what it had not reached yet: the host is left in the
    // state after some earlier durable step.
    method CrashAt(k: nat)
      requires k < |history|
      modifies this
      ensures W() == old(history)[k] && history == old(history)[..k + 1]
    {
      var earlier := history[..k + 1];
      Become(history[k]);
      history := earlier;
    }

    method Draw() returns (i: Input)
      modifies this`tape
      ensures i == Next(old(tape)) && tape == Rest(old(tape))
    {
      if tape == [] {
        i := NO_INPUT;
      } else {
        i := tape[0];
        tape := tape[1..];
      }
    }

    // create_resource_lease
    method CreateLease(lease: Lease) returns (l: nat)
      modifies this
      ensures tape == old(tape)
      ensures l == old(nextId) && W() == Opened(old(W()), lease.(fence := l + 1))
      ensures history == old(history) + [W()]
    {
      l := nextId;
      leases := leases[l := lease.(fence := l + 1)];
      nextId := nextId + 2;
      history := history + [W()];
    }

    // set_resource_lease_status; a row that does not exist is refused.
    method SetLease(l: nat, status: Status, throttle: Option<seq<Throttle>>) returns (found: bool)
      modifies this
      ensures tape == old(tape)
      ensures found <==> l in old(leases)
      ensures !found ==> W() == old(W()) && history == old(history)
      ensures found ==>
        && W() == Rewritten(old(W()), l, old(leases)[l].(
             status := status, throttle := if throttle.Some? then throttle.value else old(leases)[l].throttle))
        && history == old(history) + [W()]
    {
      found := l in leases;
      if found {
        leases := leases[l := leases[l].(
          status := status, throttle := if throttle.Some? then throttle.value else leases[l].throttle)];
        history := history + [W()];
      }
    }

    // mark_active_leases_unknown, and the stale leases in order of creation
    method MarkActiveLeasesUnknown() returns (stale: seq<nat>)
      modifies this
      ensures tape == old(tape)
      ensures W() == old(W()).(leases := MarkedUnknown(old(leases)))
      ensures history == old(history) + [W()]
      ensures forall l :: l in stale <==> l < nextId && l in leases && leases[l].status == Unknown
      ensures forall i, j | 0 <= i < j < |stale| :: stale[i] < stale[j]
    {
      leases := MarkedUnknown(leases);
      history := history + [W()];
      stale := [];
      for l := 0 to nextId
        invariant forall m :: m in stale <==> m < l && m in leases && leases[m].status == Unknown
        invariant forall i, j | 0 <= i < j < |stale| :: stale[i] < stale[j]
        invariant forall i | 0 <= i < |stale| :: stale[i] < l
      {
        if l in leases && leases[l].status == Unknown { stale := stale + [l]; }
      }
    }

    method OpenLeases() returns (any: bool)
      ensures any <==> !AllClosed(W())
    {
      any := exists l | l in leases :: Unclosed(leases[l]);
    }

    // controller_normal_since: the recorded time, or now if there is none yet
    method NormalSince(c: string) returns (since: nat)
      modifies this
      ensures tape == Rest(old(tape)) && clock == old(clock) + Next(old(tape)).seconds
      ensures W() == old(W()).(clock := clock,
                               quanta := if c in old(quanta) then old(quanta) else old(quanta)[c := clock])
      ensures c in quanta && since == quanta[c]
      ensures history == old(history) + [W()]
    {
      var i := Draw();
      clock := clock + i.seconds;
      if c !in quanta { quanta := quanta[c := clock]; }
      since := quanta[c];
      history := history + [W()];
    }

    // mark_controller_normal
    method MarkNormal(c: string)
      modifies this
      ensures tape == Rest(old(tape)) && clock == old(clock) + Next(old(tape)).seconds
      ensures W() == old(W()).(clock := clock, quanta := old(quanta)[c := clock])
      ensures history == old(history) + [W()]
    {
      var i := Draw();
      clock := clock + i.seconds;
      quanta := quanta[c := clock];
      history := history + [W()];
    }

    method Now() returns (now: nat)
      modifies this
      ensures tape == Rest(old(tape)) && clock == old(clock) + Next(old(tape)).seconds
      ensures W() == old(W()).(clock := clock)
      ensures now == clock
      ensures history == old(history) + [W()]
    {
      var i := Draw();
      clock := clock + i.seconds;
      now := clock;
      history := history + [W()];
    }

    // begin_broker_epoch
    method BeginEpoch(minimum: nat) returns (epoch: nat)
      modifies this
      ensures tape == old(tape)
      ensures epoch == (if old(storeEpoch) + 1 > minimum then old(storeEpoch) + 1 else minimum)
      ensures W() == old(W()).(storeEpoch := epoch)
      ensures history == old(history) + [W()]
    {
      epoch := if storeEpoch + 1 > minimum then storeEpoch + 1 else minimum;
      storeEpoch := epoch;
      history := history + [W()];
    }

    method WriteEpochFile(epoch: nat)
      modifies this
      ensures tape == old(tape)
      ensures W() == old(W()).(epochFile := epoch)
      ensures history == old(history) + [W()]
    {
      epochFile := epoch;
      history := history + [W()];
    }

    method DrawId() returns (id: nat)
      modifies this
      ensures tape == old(tape)
      ensures id == old(nextId) && W() == Drawn(old(W()))
      ensures history == old(history) + [W()]
    {
      id := nextId;
      nextId := nextId + 1;
      history := history + [W()];
    }

    // One request to a controller. It answers only if it was delivered and completed; a
    // delivered request may equally go unanswered.
    method Request(c: string, x: Command) returns (answer: Option<Response>, ghost d: Delivery)
      requires c in plants
      modifies this
      ensures
        var f := Flight(c, x);
        var w1 := Evolve(policy, old(W()), d.before);
        && c in w1.plants
        && var w2 := BrokerSteps.Sent(w1, f);
           var w3 := Landed(policy, w2, f, d);
           && W() == Evolve(policy, w3, d.after)
           && history == old(history) + [w1, w2, w3, W()]
      ensures d == Next(old(tape)).delivery && tape == Rest(old(tape))
      ensures var w1 := Evolve(policy, old(W()), d.before);
        c in w1.plants && answer == AnswerOf(policy, w1, c, x, d)
    {
      ghost var earlier := history;
      var i := Draw();
      var delivery := i.delivery;
      d := delivery;
      EvolveKeepsKeys(policy, W(), delivery.before);
      Become(Evolve(policy, W(), delivery.before));
      ghost var w1 := W();
      answer := AnswerOf(policy, W(), c, x, delivery);
      Become(BrokerSteps.Sent(W(), Flight(c, x)));
      ghost var w2 := W();
      Become(Landed(policy, W(), Flight(c, x), delivery));
      ghost var w3 := W();
      Become(Evolve(policy, W(), delivery.after));
      assert history == earlier + [w1, w2, w3, W()];
    }

    method Sample() returns (s: Option<Snapshot>, ghost events: seq<EnvEvent>)
      modifies this
      ensures W() == Evolve(policy, old(W()), events) && history == old(history) + [W()]
      ensures events == Next(old(tape)).events && tape == Rest(old(tape))
      ensures s == SnapshotOf(W(), Next(old(tape)).reading)
      ensures s.Some? ==> Truthful(W(), s.value)
    {
      var i := Draw();
      events := i.events;
      Become(Evolve(policy, W(), i.events));
      s := SnapshotOf(W(), i.reading);
    }

    // The executor stops the leased profile's runtime, or fails to.
    method Deactivate(l: nat, gone: bool)
      modifies this
      ensures W() == old(W()).(running := if gone then old(running) - {l} else old(running),
                               visible := if gone then old(visible) - {l} else old(visible))
      ensures history == old(history) + [W()]
    {
      if gone { running, visible := running - {l}, visible - {l}; }
      history := history + [W()];
    }

    // The executor starts the leased profile's runtime.
    method Activate(l: nat)
      modifies this
      ensures W() == old(W()).(running := old(running) + {l}) && history == old(history) + [W()]
    {
      running := running + {l};
      history := history + [W()];
    }
  }

  lemma {:induction false} EvolveKeepsKeys(policy: ResourcePolicy, w: World, events: seq<EnvEvent>)
    ensures Evolve(policy, w, events).plants.Keys == w.plants.Keys
    decreases |events|
  {
    hide EventStates;
    if events != [] {
      EvolveKeepsKeys(policy, EnvStep(policy, w, events[0]), events[1..]);
    }
  }
}
