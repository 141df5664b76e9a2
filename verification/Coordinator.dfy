// The resource coordinator: admission, release and restart reconciliation.
//
// Its contracts speak about the durable world it acts on. `Safe` says that `Inv` holds in
// every state a crash could have left behind since the host was set up; every operation
// keeps it, and `Runs` composes them over arbitrary runs.
module Coordinator {
  import opened Wrappers
  import opened Ordering
  import opened Protocol
  import opened Controller
  import opened ControllerSteps
  import opened ControllerRuns
  import opened PlantMoves
  import opened Takeovers
  import opened Worlds
  import opened BrokerSteps
  import opened Wedges
  import opened Host
  import opened Admission
  import opened Outcomes
  import opened CoordinatorProofs

  class ResourceCoordinator {
    const policy: ResourcePolicy
    const host: Durable
    var epoch: nat
    var quarantine: Option<string>
    var lastProbeGeneration: int

    ghost predicate Up()
      reads this, host
    {
      Safe(policy, host) && InEpoch(host.W(), epoch)
    }

    ghost function Now(): Situation
      reads this, host
    {
      Situation(host.W(), host.tape, lastProbeGeneration)
    }

    // A new process. It may not act before `Start` has returned.
    constructor (host: Durable)
      ensures this.host == host && policy == host.policy
      ensures quarantine.None? && epoch == 0 && lastProbeGeneration == -1
    {
      this.host, this.policy := host, host.policy;
      epoch, quarantine, lastProbeGeneration := 0, None, -1;
    }

    // A sample that is not behind the last one accepted.
    method CombinedSnapshot() returns (r: Result<Snapshot>)
      requires Up()
      modifies this`lastProbeGeneration, host
      ensures Up() && Stable(old(host.W()), host.W(), {})
      ensures r.Ok? ==> Truthful(host.W(), r.value) && r.value.generation == lastProbeGeneration
      ensures r.Ok? ==> old(lastProbeGeneration) <= lastProbeGeneration
      ensures r.Err? ==> lastProbeGeneration == old(lastProbeGeneration) && r.code != "resource_snapshot_stale"
      ensures host.loose == old(host.loose) && host.history == old(host.history) + [host.W()]
      ensures r.Ok? <==> Accepts(old(Now()))
      ensures r.Ok? ==> Now() == Looked(policy, old(Now())) && r.value == Seen(policy, old(Now()))
      ensures host.W() == Evolve(policy, old(host.W()), Next(old(host.tape)).events) && host.tape == Rest(old(host.tape))
      ensures Persists(policy, old(host.W()), old(host.history), host.W(), host.history)
    {
      ghost var w := host.W();
      ghost var before := host.history;
      var s, events := host.Sample();
      hide SafeHistory, Inv, Stable, RefusalsStay;
      SampleIsSafe(policy, w, events, epoch);
      EvolveIsStable(policy, w, events);
      EvolveKeepsRefusals(policy, w, events);
      PersistsOne(policy, w, before, host.W());
      HistoryGrows(policy, before, w, host.W());
      if s.None? { return Err("controller_unavailable"); }
      if s.value.generation < 0 { return Err("resource_probe_invalid"); }
      if s.value.generation < lastProbeGeneration { return Err("resource_probe_regressed"); }
      lastProbeGeneration := s.value.generation;
      return Ok(s.value);
    }

    // Sends one command. By the time the call returns, it is delivered or lost.
    method Issue(c: string, x: Command) returns (answer: Option<Response>, ghost d: Delivery)
      requires Up() && x.epoch == epoch && MaySend(policy, host.W(), Flight(c, x)) && c in host.plants
      requires Excused(host.W(), host.history, x)
      modifies host
      ensures Up() && Stable(old(host.W()), host.W(), {c})
      ensures d == Next(old(host.tape)).delivery
      ensures Now() == Requested(policy, old(Now()), Flight(c, x))
      ensures answer.Some? <==> Replies(policy, old(Now()), Flight(c, x))
      ensures answer.Some? ==> Answered(host.plants[c], x, answer.value)
      ensures var w1 := Evolve(policy, old(host.W()), d.before);
        c in w1.plants && host.W() == Evolve(policy, Landed(policy, Sent(w1, Flight(c, x)), Flight(c, x), d), d.after)
      ensures c in host.plants && Unseen(host.plants[c], x) && Unsent(host.W(), x)
      ensures RecordOf(host.plants[c]) == Some(x) ==> Readmits(old(host.W()), c, x)
      ensures LooseOnly(old(host.W()), host.W(), x.lease) && old(host.history) <= host.history
      ensures x.Takeover? ==>
        && Persists(policy, old(host.W()), old(host.history), host.W(), host.history)
        && x.lease in old(host.leases)
        && (answer.Some? ==> Agrees(policy, old(host.W()), x.lease, c, host.history, |old(host.history)|))
    {
      hide SafeHistory, Inv, Stable, MaySend, Unseen, Unsent, InEpoch, Evolve, Landed, HandleRun, Readmits, Persists, Agrees, Answered;
      ghost var w, before := host.W(), host.history;
      ghost var f := Flight(c, x);
      answer, d := host.Request(c, x);
      RequestIsSafe(policy, w, f, d, epoch);
      if x.Takeover? { TakeoverIsSafe(policy, w, before, f, d); }
      RequestHistory(policy, w, before, f, d);
      RequestAnswers(policy, w, f, d);
    }

    // The observation of a command that was answered: the next snapshot, if it is newer than
    // the floor and carries exactly that command.
    method Observe(c: string, x: Command, answer: Response, floor: int, stale: string) returns (r: Result<int>, ghost seen: Snapshot)
      requires Up() && c in host.plants && Unseen(host.plants[c], x) && Unsent(host.W(), x) && Answered(host.plants[c], x, answer)
      modifies this`lastProbeGeneration, host
      ensures Up() && Stable(old(host.W()), host.W(), {})
      ensures old(lastProbeGeneration) <= lastProbeGeneration
      ensures r.Ok? <==> Accepts(old(Now())) && floor < Generation(old(Now())) && c !in Next(old(host.tape)).reading.hidden
      ensures r.Ok? ==>
        && Now() == Looked(policy, old(Now())) && floor < r.value == lastProbeGeneration == seen.generation && 0 <= r.value
        && c in host.plants && Settled(host.plants[c]) && Current(host.plants[c]) == x
        && Proves(Proof(c, x, seen))
      ensures r.Err? && stale != "resource_snapshot_stale" ==> r.code != "resource_snapshot_stale"
      ensures c in host.plants && (RecordOf(host.plants[c]) == Some(x) ==> RecordOf(old(host.plants)[c]) == Some(x))
      ensures Persists(policy, old(host.W()), old(host.history), host.W(), host.history) && host.loose == old(host.loose)
    {
      hide SafeHistory, Inv, Stable, Truthful, Observes, Unseen, Unsent, InEpoch, Evolve, Persists, Answered;
      ghost var v, reading := host.W(), Next(host.tape).reading;
      var s := CombinedSnapshot();
      SeenAfter(v, host.W(), c, x);
      if s.Err? { return Err(s.code), NO_READING.snapshot; }
      SentStaysQuiet(v, c, x);
      AnsweredStays(v, host.W(), c, x, answer, {});
      RecordFacts(policy, host.W(), c);
      AnsweredIsObserved(host.W(), c, x, answer, reading);
      if s.value.generation <= floor { return Err(stale), s.value; }
      if !Observes(s.value, c, x, answer) { return Err("controller_observation_mismatch"), s.value; }
      Observed(policy, host.W(), s.value, c, x, answer);
      return Ok(s.value.generation), s.value;
    }

    // Sends one command and accepts it only on a newer observation of exactly that command;
    // and it does accept it if the controller completed it, the answer got back, and the
    // next snapshot is accepted, newer, and shows the controller.
    method Mutate(k: ControllerPolicy, x: Command, floor: int, stale: string) returns (r: Result<int>, ghost proof: Proof)
      requires Up() && x.epoch == epoch && MaySend(policy, host.W(), Flight(k.id, x))
      requires Excused(host.W(), host.history, x)
      modifies this`lastProbeGeneration, host
      ensures Up() && Stable(old(host.W()), host.W(), {k.id})
      ensures old(lastProbeGeneration) <= lastProbeGeneration
      ensures r.Ok? <==> Succeeds(policy, old(Now()), Flight(k.id, x), floor)
      ensures r.Ok? ==> k.id in old(host.plants) && Now() == Exchanged(policy, old(Now()), Flight(k.id, x))
      ensures r.Ok? ==>
        && floor < r.value == lastProbeGeneration && 0 <= r.value
        && k.id in host.plants && Settled(host.plants[k.id]) && Current(host.plants[k.id]) == x
        && Readmits(old(host.W()), k.id, x)
        && proof.controller == k.id && proof.command == x && Proves(proof) && proof.seen.generation == r.value
      ensures r.Err? && stale != "resource_snapshot_stale" ==> r.code != "resource_snapshot_stale"
      ensures LooseOnly(old(host.W()), host.W(), x.lease) && old(host.history) <= host.history
      ensures x.Takeover? ==>
        && Persists(policy, old(host.W()), old(host.history), host.W(), host.history)
        && (r.Ok? ==> x.lease in old(host.leases)
                      && Agrees(policy, old(host.W()), x.lease, k.id, host.history, |old(host.history)|))
        && (TakenUp(host.W(), k.id, x.lease) ==> Wedged(policy, host.W(), x.lease))
    {
      hide SafeHistory, Inv, Stable, MaySend, Acknowledges, Unseen, Unsent, InEpoch, Evolve, Landed, Readmits;
      hide Persists, Agrees, Wedged, TakenUp, Answered, Requested, Replies, Accepts, Looked;
      ghost var w, before, f := host.W(), host.history, Flight(k.id, x);
      InPlants(policy, w, f);
      var answer, d := Issue(k.id, x);
      ghost var v, since := host.W(), host.history;
      proof := Proof(k.id, x, NO_READING.snapshot);
      StableParts(w, v, {k.id});
      TakenUpNow(policy, w, v, f);
      if answer.None? { return Err("controller_unavailable"), proof; }
      RecordFacts(policy, v, k.id);
      AnsweredIsAcknowledged(k, v.plants[k.id], x, answer.value);
      if !Acknowledges(k, x, answer.value) { return Err("controller_ack_mismatch"), proof; }
      ghost var seen;
      r, seen := Observe(k.id, x, answer.value, floor, stale);
      StableTransitive(w, v, host.W(), {k.id}, {}, {k.id});
      PrefixOf(policy, v, since, host.W(), host.history);
      if x.Takeover? {
        PersistsTransitive(policy, w, before, v, since, host.W(), host.history);
        SameAgrees(policy, w, x.lease, k.id, since, host.history, |before|);
      }
      StableParts(w, host.W(), {k.id});
      TakenUpNow(policy, w, host.W(), f);
      proof := Proof(k.id, x, seen);
    }

    // One durable rewrite of the lease's row.
    method Put(l: nat, status: Status, throttle: Option<seq<Throttle>>)
      requires Up() && l in host.leases
      requires MayRewrite(policy, host.W(), l, RowAfter(host.leases[l], status, throttle))
      modifies host
      ensures Up() && host.W() == Rewritten(old(host.W()), l, RowAfter(old(host.leases[l]), status, throttle))
      ensures Onward(old(host.W()), host.W(), {}) && host.history == old(host.history) + [host.W()]
      ensures host.tape == old(host.tape)
    {
      ghost var w := host.W();
      ghost var before := host.history;
      var found := host.SetLease(l, status, throttle);
      RewriteKeepsInv(policy, w, l, RowAfter(w.leases[l], status, throttle));
      HistoryGrows(policy, before, w, host.W());
      TableIsOnward(w, host.W());
    }

    method FreshId() returns (id: nat)
      requires Up()
      modifies host
      ensures Up() && id == old(host.nextId) && host.W() == Drawn(old(host.W()))
      ensures Onward(old(host.W()), host.W(), {}) && host.history == old(host.history) + [host.W()]
      ensures host.tape == old(host.tape)
    {
      ghost var w := host.W();
      ghost var before := host.history;
      id := host.DrawId();
      FrameKeepsInv(policy, w, host.W());
      HistoryGrows(policy, before, w, host.W());
      TableIsOnward(w, host.W());
    }

    // _enforce_training_quanta: the deferral, if any. Without one, every listed training
    // controller has had its minimum time since it was last restored.
    method EnforceTrainingQuanta(controllers: seq<ControllerPolicy>) returns (r: Option<string>)
      requires Up() && AllClosed(host.W()) && forall k | k in controllers :: k in policy.controllers
      modifies host
      ensures Up() && host.leases == old(host.leases) && Onward(old(host.W()), host.W(), {})
      ensures host.loose == old(host.loose) && old(host.history) <= host.history
      ensures r.None? ==> forall k | k in controllers :: QuantumElapsed(policy, host.W(), k.id)
      ensures r.Some? ==> exists k :: k in controllers && k.training && k.id in host.quanta
                                  && host.quanta[k.id] + k.minimumNormal > old(host.clock)
      ensures r.Some? ==> r.value == "training_quantum_active"
      ensures r.None? <==> PastQuanta(Clocked(old(Now())), controllers, 0, Clocked(old(Now())).world.clock)
      ensures r.None? ==> Now() == QuantaRead(Clocked(old(Now())), controllers, 0)
    {
      hide SafeHistory, Inv, Onward, QuantumElapsed, PolicyOk;
      var now := ReadClock();
      ghost var start := Now();
      for i := 0 to |controllers|
        invariant Up() && host.leases == old(host.leases) && Onward(old(host.W()), host.W(), {})
        invariant host.loose == old(host.loose) && old(host.history) <= host.history
        invariant old(host.clock) <= now <= host.clock
        invariant PastQuanta(start, controllers, 0, now) <==> PastQuanta(Now(), controllers, i, now)
        invariant QuantaRead(start, controllers, 0) == QuantaRead(Now(), controllers, i)
        invariant forall k | k in controllers[..i] :: QuantumElapsed(policy, host.W(), k.id)
      {
        var k := controllers[i];
        ghost var w := host.W();
        if k.training {
          var since := ReadQuantum(k.id);
          OnwardTransitive(old(host.W()), w, host.W(), {}, {}, {});
          if since + k.minimumNormal > now { return Some("training_quantum_active"); }
          if k.id in w.restoredAt { QuantumKnown(policy, w, k); }
        }
        ElapsedStays(policy, w, host.W(), controllers[..i]);
        OnlyPolicy(policy, host.W(), k);
        assert controllers[..i + 1] == controllers[..i] + [k];
      }
      assert controllers[..|controllers|] == controllers;
      return None;
    }

    method ReadClock() returns (now: nat)
      requires Up()
      modifies host
      ensures Up() && host.W() == old(host.W()).(clock := host.clock) && old(host.clock) <= now == host.clock
      ensures Now() == Clocked(old(Now()))
      ensures Onward(old(host.W()), host.W(), {}) && old(host.history) <= host.history
    {
      ghost var w := host.W();
      ghost var before := host.history;
      now := host.Now();
      hide SafeHistory, Inv, Onward;
      ClocksBounded(policy, w);
      TickedAndRecorded(policy, w, host.W());
      HistoryGrows(policy, before, w, host.W());
    }

    method ReadQuantum(c: string) returns (since: nat)
      requires Up()
      modifies host
      ensures Up()
      ensures host.W() == old(host.W()).(clock := host.clock,
                quanta := if c in old(host.quanta) then old(host.quanta) else old(host.quanta)[c := host.clock])
      ensures c in host.quanta && since == host.quanta[c] && old(host.clock) <= host.clock
      ensures Now() == QuantumRead(old(Now()), c)
      ensures Onward(old(host.W()), host.W(), {}) && old(host.history) <= host.history
    {
      ghost var w := host.W();
      ghost var before := host.history;
      since := host.NormalSince(c);
      TickedAndRecorded(policy, w, host.W());
      HistoryGrows(policy, before, w, host.W());
    }

    // Records a controller as back in its normal mode now.
    method MarkOne(c: string)
      requires Up()
      modifies host
      ensures Up() && host.W() == old(host.W()).(clock := host.clock, quanta := old(host.quanta)[c := host.clock])
      ensures Onward(old(host.W()), host.W(), {}) && RestorationRecorded(host.W(), c)
      ensures forall d | RestorationRecorded(old(host.W()), d) :: RestorationRecorded(host.W(), d)
      ensures Persists(policy, old(host.W()), old(host.history), host.W(), host.history)
    {
      hide SafeHistory, Onward, PolicyOk, Persists;
      ghost var w, before := host.W(), host.history;
      host.MarkNormal(c);
      ClocksBounded(policy, w);
      TickedAndRecorded(policy, w, host.W());
      HistoryGrows(policy, before, w, host.W());
      PersistsPut(policy, w, before, host.W());
      hide Inv;
    }

    // _mark_restored_quanta
    method MarkRestoredQuanta(restored: seq<string>)
      requires Up()
      modifies host
      ensures Up() && host.leases == old(host.leases) && host.plants == old(host.plants)
      ensures host.restoredAt == old(host.restoredAt) && Onward(old(host.W()), host.W(), {})
      ensures host.loose == old(host.loose)
      ensures Persists(policy, old(host.W()), old(host.history), host.W(), host.history)
      ensures forall k | k in policy.controllers && k.training && k.profile in restored :: RestorationRecorded(host.W(), k.id)
      ensures forall c | c in host.quanta && !(exists k :: k in policy.controllers && k.training && k.profile in restored && k.id == c) ::
                c in old(host.quanta) && host.quanta[c] == old(host.quanta)[c]
    {
      hide SafeHistory, Inv, InEpoch, Onward, PolicyOk, Persists, RestorationRecorded;
      StaySame(host.W(), host.W());
      PersistsPut(policy, host.W(), host.history, host.W());
      for i := 0 to |policy.controllers|
        invariant Up() && host.leases == old(host.leases) && host.plants == old(host.plants)
        invariant host.restoredAt == old(host.restoredAt) && Onward(old(host.W()), host.W(), {})
        invariant host.loose == old(host.loose)
        invariant Persists(policy, old(host.W()), old(host.history), host.W(), host.history)
        invariant forall k | k in policy.controllers[..i] && k.training && k.profile in restored :: RestorationRecorded(host.W(), k.id)
        invariant forall c | c in host.quanta && !(exists k :: k in policy.controllers && k.training && k.profile in restored && k.id == c) ::
                    c in old(host.quanta) && host.quanta[c] == old(host.quanta)[c]
      {
        var k := policy.controllers[i];
        if k.training && k.profile in restored {
          ghost var w, before := host.W(), host.history;
          MarkOne(k.id);
          OnwardTransitive(old(host.W()), w, host.W(), {}, {}, {});
          PersistsTransitive(policy, old(host.W()), old(host.history), w, before, host.W(), host.history);
        }
        assert policy.controllers[..i + 1] == policy.controllers[..i] + [k];
      }
      assert policy.controllers[..|policy.controllers|] == policy.controllers;
    }

    // Journals one more displacement, not acknowledged yet. If nothing has reached the
    // controller, a crash here leaves a lease that no restart can close.
    method Journal(l: nat, k: ControllerPolicy, generation: nat, throttled: seq<Throttle>)
      returns (mutation: nat, journal: seq<Throttle>)
      requires Up() && k in policy.controllers && k.id in host.plants
      requires Admitting(host.W(), l, epoch) && ChosenFor(k, host.leases[l]) && host.leases[l].throttle == throttled
      modifies host
      ensures Up() && Onward(old(host.W()), host.W(), {}) && mutation == old(host.nextId)
      ensures journal == throttled + [Throttle(k.id, generation, mutation, false)]
      ensures host.W() == Rewritten(Drawn(old(host.W())), l, old(host.leases)[l].(throttle := journal))
      ensures Now() == Journaled(old(Now()), l, k, generation)
      ensures old(host.history) <= host.history && |host.history| > |old(host.history)|
      ensures host.history[|host.history| - 1] == host.W()
      ensures Quiet(old(host.W()), k.id, Epoch(old(host.plants)[k.id])) && Unheard(old(host.W()), l) ==>
                Wedged(policy, host.W(), l)
    {
      hide SafeHistory, Inv, Onward, MayRewrite, Wedged;
      ghost var w0 := host.W();
      mutation := FreshId();
      ghost var w1 := host.W();
      journal := throttled + [Throttle(k.id, generation, mutation, false)];
      Journalable(policy, w1, l, k, throttled, journal);
      Put(l, Acquiring, Some(journal));
      OnwardTransitive(w0, w1, host.W(), {}, {}, {});
      if Quiet(w0, k.id, Epoch(w0.plants[k.id])) && Unheard(w0, l) {
        assert journal[|throttled|] in host.leases[l].throttle;
        JournaledIsWedged(policy, host.W(), l, k.id);
      }
    }

    // One turn of the admission loop: journal the compensation, command, observe, journal
    // the acknowledgement.
    method DisplaceOne(l: nat, k: ControllerPolicy, generation: nat, throttled: seq<Throttle>, causal: int)
      returns (r: Result<int>, journal: seq<Throttle>, ghost proof: Proof)
      requires Up() && k in policy.controllers && k.id in host.plants && generation >= 1
      requires Admitting(host.W(), l, epoch) && ChosenFor(k, host.leases[l]) && host.leases[l].throttle == throttled
      requires Idle(host.W(), k.id) && QuantumElapsed(policy, host.W(), k.id)
      modifies this`lastProbeGeneration, host
      ensures Up() && Onward(old(host.W()), host.W(), {k.id}) && old(lastProbeGeneration) <= lastProbeGeneration
      ensures Admitting(host.W(), l, epoch)
      ensures host.leases == old(host.leases)[l := old(host.leases)[l].(throttle := journal)]
      ensures host.loose == old(host.loose) && old(host.history) <= host.history
      ensures Unheard(old(host.W()), l) ==> WedgedAfter(policy, host.history, |old(host.history)|, l)
      ensures r.Err? ==> r.code != "resource_snapshot_stale"
      ensures r.Ok? <==> DisplacesOne(policy, old(Now()), l, k, generation, causal)
      ensures r.Ok? ==> Now() == DisplacedOne(policy, old(Now()), l, k, generation)
      ensures r.Ok? ==>
        && HeldBy(host.W(), k.id, l)
        && Readmits(old(host.W()), k.id, proof.command)
        && causal < r.value == lastProbeGeneration == proof.seen.generation
        && proof.controller == k.id && Proves(proof)
        && proof.command == SetMode(proof.command.mutation, l, host.leases[l].fence, epoch, generation, Mode.Released)
    {
      hide SafeHistory, Inv, Onward, Stable, MaySend, MayRewrite, QuantumElapsed, HeldBy, Proves, Readmits, Wedged, Unheard;
      hide Succeeds, Exchanged;
      ghost var w0, h0 := host.W(), host.history;
      var mutation;
      mutation, journal := Journal(l, k, generation, throttled);
      ghost var w2, h2 := host.W(), host.history;
      JournalIsWedged(policy, w0, w2, h0, h2, l, k.id);
      assert journal[|throttled|] in host.leases[l].throttle;
      var x := SetMode(mutation, l, host.leases[l].fence, epoch, generation, Mode.Released);
      ReadyToDisplace(policy, w0, w2, l, k, x, epoch);
      hide Idle;
      r, proof := Mutate(k, x, causal, "controller_observation_stale");
      ghost var w3 := host.W();
      StableParts(w2, w3, {k.id});
      OnwardTransitive(w0, w2, w3, {}, {k.id}, {k.id});
      if Unheard(w0, l) { WedgedLater(policy, h2, host.history, |h0|, |h0|, l); }
      if r.Err? { return; }
      ghost var h3 := host.history;
      ReadmitsEarlier(w0, w2, {}, k.id, x);
      NowHeld(w3, k.id, l, x, epoch);
      journal := Acknowledge(l, k, generation, mutation, throttled);
      OnwardTransitive(w0, w3, host.W(), {k.id}, {}, {k.id});
      if Unheard(w0, l) { WedgedLater(policy, h3, host.history, |h0|, |h0|, l); }
    }

    // Journals that the last displacement has been observed.
    method Acknowledge(l: nat, k: ControllerPolicy, generation: nat, mutation: nat, throttled: seq<Throttle>)
      returns (journal: seq<Throttle>)
      requires Up() && k in policy.controllers && Admitting(host.W(), l, epoch) && ChosenFor(k, host.leases[l])
      requires host.leases[l].throttle == throttled + [Throttle(k.id, generation, mutation, false)] && HeldBy(host.W(), k.id, l)
      modifies host
      ensures Up() && Onward(old(host.W()), host.W(), {}) && host.history == old(host.history) + [host.W()]
      ensures journal == throttled + [Throttle(k.id, generation, mutation, true)] && host.tape == old(host.tape)
      ensures host.W() == Rewritten(old(host.W()), l, old(host.leases)[l].(throttle := journal))
      ensures HeldBy(host.W(), k.id, l)
    {
      hide SafeHistory, Inv, Onward, MayRewrite, HeldBy;
      ghost var w := host.W();
      journal := throttled + [Throttle(k.id, generation, mutation, true)];
      Journalable(policy, w, l, k, w.leases[l].throttle, journal);
      Put(l, Acquiring, Some(journal));
      HeldStays(w, host.W(), k.id, l);
    }

    // The admission loop over the chosen controllers, in their order.
    method Displace(l: nat, plan: Plan, controllers: seq<ControllerPolicy>, floor: int)
      returns (r: Result<int>, throttled: seq<Throttle>, ghost proofs: seq<Proof>)
      requires Up() && controllers == ControllersFor(policy, plan)
      requires Admitting(host.W(), l, epoch) && host.leases[l].throttle == []
      requires host.leases[l].service == plan.service && host.leases[l].profile == plan.profile
      requires ReadyFrom(policy, host.W(), controllers, 0)
      modifies this`lastProbeGeneration, host
      ensures Up() && old(lastProbeGeneration) <= lastProbeGeneration
      ensures Admitting(host.W(), l, epoch)
      ensures host.leases == old(host.leases)[l := old(host.leases)[l].(throttle := throttled)]
      ensures Elapsed(old(host.W()), host.W()) && host.loose == old(host.loose) && old(host.history) <= host.history
      ensures controllers != [] && Unheard(old(host.W()), l) ==> WedgedAfter(policy, host.history, |old(host.history)|, l)
      ensures r.Err? ==> r.code != "resource_snapshot_stale"
      ensures r.Ok? && floor <= old(lastProbeGeneration) ==> r.value <= lastProbeGeneration
      ensures r.Ok? <==> DisplacesAll(policy, old(Now()), l, controllers, 0, floor)
      ensures r.Ok? ==> Now() == DisplacedAll(policy, old(Now()), l, controllers, 0, floor)
      ensures r.Ok? ==> r.value == if controllers == [] then floor else lastProbeGeneration
      ensures r.Ok? ==>
        && Held(policy, host.W(), l)
        && ReadmitsAll(old(host.W()), proofs)
        && floor <= r.value == LastGeneration(proofs, floor)
        && |proofs| == |controllers| && Causal(proofs, floor)
        && Displacements(proofs, controllers, l, host.leases[l].fence, epoch)
    {
      hide SafeHistory, Inv, Onward, HeldUpTo, ReadyFrom, ControllersFor, Proves, Causal, Displacements, Held, ChosenFor, Readmits, ReadmitsAll;
      hide WedgedAfter, Unheard, Elapsed, DisplacesOne, DisplacedOne, DisplacesAll, DisplacedAll, OnCourse;
      hide InEpoch, PolicyOk, QuantumElapsed, Idle, DistinctIds, IdsOf, SoFar, HeldBy;
      ghost var w0, h0, start := host.W(), host.history, Now();
      StaySame(w0, w0);
      ElapsedOnward(w0, w0, {});
      throttled, proofs := [], [];
      var causal := floor;
      ControllersDistinct(policy, plan);
      NoneSoFar(policy, w0, controllers, l, floor, epoch);
      CourseStarts(policy, start, floor, l, controllers);
      for i := 0 to |controllers|
        invariant Up() && old(lastProbeGeneration) <= lastProbeGeneration
        invariant Admitting(host.W(), l, epoch)
        invariant host.leases == old(host.leases)[l := old(host.leases)[l].(throttle := throttled)]
        invariant SoFar(policy, w0, host.W(), controllers, i, l, proofs, floor, epoch)
        invariant |proofs| == i && causal == LastGeneration(proofs, floor)
        invariant floor <= causal && (floor <= old(lastProbeGeneration) ==> causal <= lastProbeGeneration)
        invariant Elapsed(w0, host.W()) && host.loose == old(host.loose) && h0 <= host.history
        invariant OnCourse(policy, start, floor, Now(), causal, l, controllers, i)
        invariant i > 0 ==> causal == lastProbeGeneration
        invariant if i == 0 then host.W() == w0 && host.history == h0
                  else Unheard(w0, l) ==> WedgedAfter(policy, host.history, |h0|, l)
      {
        ghost var w := host.W();
        var k := controllers[i];
        ReadySoFar(policy, w0, w, controllers, i, l, proofs, floor, epoch);
        IsReady(policy, w, plan, controllers, i, l);
        ghost var proof;
        ghost var h, now := host.history, Now();
        r, throttled, proof := DisplaceOne(l, k, i + 1, throttled, causal);
        ElapsedOnward(w, host.W(), {k.id});
        ElapsedTransitive(w0, w, host.W());
        if i > 0 && Unheard(w0, l) { WedgedLater(policy, h, host.history, |h0|, |h0|, l); }
        if r.Err? {
          CourseBreaks(policy, start, floor, now, causal, l, controllers, i);
          return;
        }
        CourseGoesOn(policy, start, floor, now, causal, Now(), l, controllers, i);
        OneMoreSoFar(policy, w0, w, host.W(), controllers, i, l, proofs, proof, floor, epoch);
        causal := r.value;
        proofs := proofs + [proof];
      }
      CourseEnds(policy, start, floor, Now(), causal, l, controllers);
      AllSoFar(policy, w0, host.W(), plan, l, proofs, floor, epoch);
      return Ok(causal), throttled, proofs;
    }

    // Undoes one journaled displacement.
    method RestoreOne(l: nat, item: Throttle, offset: nat, recovery: Option<nat>, causal: int)
      returns (r: Result<int>, profile: string, ghost proof: Proof)
      requires Up() && Restorable(host.W(), l, epoch, recovery) && item in host.leases[l].throttle
      requires MayUndo(host.W(), host.history, l)
      modifies this`lastProbeGeneration, host
      ensures Up() && Onward(old(host.W()), host.W(), {item.controller})
      ensures old(lastProbeGeneration) <= lastProbeGeneration
      ensures host.leases == old(host.leases) && Restorable(host.W(), l, epoch, recovery)
      ensures LooseOnly(old(host.W()), host.W(), l) && old(host.history) <= host.history
      ensures recovery.Some? ==>
        && Persists(policy, old(host.W()), old(host.history), host.W(), host.history)
        && (r.Ok? ==> Agrees(policy, old(host.W()), l, item.controller, host.history, |old(host.history)|))
        && (r.Ok? || TakenUp(host.W(), item.controller, l) ==> Wedged(policy, host.W(), l))
      ensures r.Ok? ==>
        && RestoredTo(host.W(), item.controller, l, epoch)
        && causal < r.value == lastProbeGeneration == proof.seen.generation
        && proof.controller == item.controller && Proves(proof)
        && proof.command == RestoreCommand(host.leases[l], l, item, proof.command.mutation, epoch, offset, recovery)
      ensures r.Ok? ==> forall k | k in policy.controllers && k.id == item.controller :: k.profile == profile
      ensures r.Ok? ==> 0 <= r.value && exists k :: k in policy.controllers && k.id == item.controller
      ensures r.Ok? <==> RestoresOne(policy, old(Now()), l, item, epoch, offset, recovery, causal)
      ensures r.Ok? ==> item.controller in old(host.plants) && Now() == RestoredOne(policy, old(Now()), l, item, epoch, offset, recovery)
    {
      hide SafeHistory, Inv, Onward, Stable, MaySend, Proves, RestoredTo, Persists, Agrees, RefusalsStay, Wedged, InEpoch, Succeeds, Exchanged;
      ghost var w, h := host.W(), host.history;
      PersistsPut(policy, w, h, w);
      proof := Proof(item.controller, SetMode(0, 0, 0, 0, 0, Normal), NO_READING.snapshot);
      profile := "";
      var k := FindController(policy.controllers, item.controller);
      if k.None? {
        StaySame(w, w);
        OnwardTransitive(w, w, w, {}, {}, {item.controller});
        TakenUpItem(policy, w, l, item);
        return Err("controller_missing"), profile, proof;
      }
      var mutation := FreshId();
      ghost var w1, h1 := host.W(), host.history;
      PersistsPut(policy, w, h, w1);
      var x := RestoreCommand(host.leases[l], l, item, mutation, epoch, offset, recovery);
      ReadyToRestore(policy, w, l, item, x, epoch, offset, recovery);
      MayUndoLater(w, h, w1, h1, l);
      r, proof := Mutate(k.value, x, causal, "controller_restore_stale");
      StableParts(w1, host.W(), {k.value.id});
      OnwardTransitive(w, w1, host.W(), {}, {k.value.id}, {k.value.id});
      RestorableStays(w, host.W(), l, epoch, recovery);
      PrefixTransitive(h, h1, host.history);
      if recovery.Some? {
        PersistsTransitive(policy, w, h, w1, h1, host.W(), host.history);
        DrawnKeepsRefusals(policy, w);
        if r.Ok? {
          AgreesEarlier(policy, w, w1, l, item.controller, host.history, host.history, |h1|, |h|);
        }
      }
      profile := k.value.profile;
      if r.Ok? { NowRestored(host.W(), k.value.id, l, x, epoch); }
    }

    // _restore_handle and, with a recovery fence, _recover_recorded_throttles: the journal
    // is undone backwards, each step on a newer observation than the one before.
    method Restore(l: nat, throttled: seq<Throttle>, recovery: Option<nat>, floor: int)
      returns (r: Result<int>, restored: seq<string>, ghost proofs: seq<Proof>)
      requires Up() && l in host.leases && host.leases[l].throttle == throttled
      requires throttled != [] ==> Restorable(host.W(), l, epoch, recovery) && MayUndo(host.W(), host.history, l)
      modifies this`lastProbeGeneration, host
      ensures Up() && host.leases == old(host.leases) && old(lastProbeGeneration) <= lastProbeGeneration
      ensures Causal(proofs, floor) && Restorations(proofs, host.leases[l], l, epoch, recovery)
      ensures |proofs| <= |throttled|
      ensures Elapsed(old(host.W()), host.W()) && old(host.history) <= host.history
      ensures if throttled == [] then host.loose == old(host.loose) else LooseOnly(old(host.W()), host.W(), l)
      ensures recovery.Some? ==>
        && Persists(policy, old(host.W()), old(host.history), host.W(), host.history)
        && (r.Ok? ==> AgreeFrom(policy, old(host.W()), l, host.history, |old(host.history)|, throttled, 0))
        && (proofs != [] ==> Wedged(policy, host.W(), l))
      ensures r.Ok? ==>
        && |proofs| == |throttled| && (proofs != [] ==> LastGeneration(proofs, floor) <= r.value)
        && RestoredFrom(host.W(), throttled, 0, l, epoch)
        && ProfilesFrom(policy, throttled, 0, restored)
        && r.value == (if throttled == [] then 0 else lastProbeGeneration) && (throttled != [] ==> 0 <= lastProbeGeneration)
      ensures r.Ok? <==> RestoresAll(policy, old(Now()), l, throttled, |throttled|, epoch, recovery, floor)
      ensures r.Ok? ==> Now() == RestoredAll(policy, old(Now()), l, throttled, |throttled|, epoch, recovery, floor)
    {
      hide SafeHistory, Inv, Onward, Proves, Causal, RestoredTo, Restorable, RestoredFrom, Restorations, RestoreCommand;
      hide Persists, Agrees, AgreeFrom, Elapsed, LooseOnly, Wedged, TakenUp, RestoresOne, RestoredOne, ProfilesFrom;
      hide RestoresAll, RestoredAll, OnTrack;
      TrackStarts(policy, Now(), floor, l, throttled, epoch, recovery);
      ghost var w0, h0, start := host.W(), host.history, Now();
      NoProfileYet(policy, throttled);
      NothingHappened(policy, w0, h0, l, throttled);
      restored, proofs := [], [];
      var expected: int := 0;
      var causal := floor;
      NoRestorationYet(host.W(), host.leases[l], l, epoch, recovery, floor);
      for i := |throttled| downto 0
        invariant Up() && host.leases == old(host.leases) && old(lastProbeGeneration) <= lastProbeGeneration
        invariant throttled != [] ==> Restorable(host.W(), l, epoch, recovery) && MayUndo(host.W(), host.history, l)
        invariant |proofs| == |throttled| - i && Causal(proofs, floor) && causal == LastGeneration(proofs, floor)
        invariant proofs != [] ==> causal <= expected
        invariant Restorations(proofs, host.leases[l], l, epoch, recovery)
        invariant RestoredFrom(host.W(), throttled, i, l, epoch)
        invariant ProfilesFrom(policy, throttled, i, restored)
        invariant i == |throttled| ==> host.W() == w0
        invariant i == |throttled| ==> expected == 0
        invariant i < |throttled| ==> expected == causal == lastProbeGeneration && 0 <= causal
        invariant OnTrack(policy, start, floor, Now(), causal, l, throttled, i, epoch, recovery)
        invariant Elapsed(w0, host.W()) && LooseOnly(w0, host.W(), l) && h0 <= host.history
        invariant recovery.Some? ==>
          && Persists(policy, w0, h0, host.W(), host.history)
          && AgreeFrom(policy, w0, l, host.history, |h0|, throttled, i)
          && (proofs != [] ==> Wedged(policy, host.W(), l))
      {
        ghost var w, h, before := host.W(), host.history, Now();
        var seen, profile;
        ghost var proof;
        seen, profile, proof := RestoreOne(l, throttled[i], |throttled| - i, recovery, causal);
        ElapsedOnward(w, host.W(), {throttled[i].controller});
        OneMoreCall(w0, w, host.W(), l);
        PrefixTransitive(h0, h, host.history);
        MayUndoLater(w, h, host.W(), host.history, l);
        if recovery.Some? {
          PersistsTransitive(policy, w0, h0, w, h, host.W(), host.history);
          WedgedOn(policy, w, h, host.W(), host.history, l);
          if seen.Ok? { OneMoreAgreed(policy, w0, h0, w, h, host.history, l, throttled, i); }
        }
        if seen.Err? {
          TrackBreaks(policy, start, floor, before, causal, l, throttled, i, epoch, recovery);
          return seen, restored, proofs;
        }
        TrackGoesOn(policy, start, floor, before, causal, Now(), l, throttled, i, epoch, recovery);
        OneMoreRestored(w, host.W(), throttled, i, l, epoch);
        CausalGrows(proofs, proof, floor);
        OneMoreRestoration(proofs, proof, host.leases[l], l, epoch, recovery);
        causal := seen.value;
        expected := if expected < seen.value then seen.value else expected;
        OneMoreProfile(policy, throttled, i, restored, profile);
        restored := restored + [profile];
        proofs := proofs + [proof];
      }
      TrackEnds(policy, start, floor, Now(), causal, l, throttled, epoch, recovery);
      return Ok(expected), restored, proofs;
    }

    // Demands a snapshot that shows every restored profile active and healthy and, where
    // `absent`, the leased one gone; then records the restorations.
    method VerifyRestored(l: nat, throttled: seq<Throttle>, restored: seq<string>, expected: int, absent: bool)
      returns (r: Result<()>, ghost last: Snapshot)
      requires Up() && l in host.leases && host.leases[l].throttle == throttled && Unclosed(host.leases[l])
      requires RestoredFrom(host.W(), throttled, 0, l, epoch) && ProfilesFrom(policy, throttled, 0, restored)
      modifies this`lastProbeGeneration, host
      ensures Up() && host.leases == old(host.leases) && old(lastProbeGeneration) <= lastProbeGeneration
      ensures Onward(old(host.W()), host.W(), {}) && host.loose == old(host.loose)
      ensures Persists(policy, old(host.W()), old(host.history), host.W(), host.history)
      ensures r.Ok? ==>
        && Closable(policy, host.W(), l, epoch)
        && RestoredRefusal(last, expected, restored).None?
        && (absent ==> ReleaseVerified(last, host.leases[l].profile, true))
      ensures expected <= 0 || expected <= old(lastProbeGeneration) ==>
        (r.Ok? <==> Verifies(policy, old(Now()), throttled, old(host.leases)[l].profile, absent))
    {
      hide SafeHistory, Inv, Onward, Stable, RestoredTo, RestoredFrom, ProfilesFrom, Truthful, RestoredRefusal, Persists, InEpoch, Verifies, Seen, Looked;
      last := NO_READING.snapshot;
      ghost var w, h, now := host.W(), host.history, Now();
      var s := CombinedSnapshot();
      ghost var v, g := host.W(), host.history;
      StableParts(w, v, {});
      VerifiesAccepts(policy, now, throttled, host.leases[l].profile, absent);
      AllRestoredLater(w, v, throttled, l, epoch);
      if s.Err? { return Err(s.code), last; }
      if expected <= Generation(now) {
        VerifiesExactly(policy, now, throttled, restored, expected, host.leases[l].profile, absent);
      }
      var refused := RestoredRefusal(s.value, expected, restored);
      if refused.Some? { return Err(refused.value), last; }
      if absent && !ReleaseVerified(s.value, host.leases[l].profile, true) { return Err("release_unverified"), last; }
      last := s.value;
      MarkRestoredQuanta(restored);
      AllRestoredLater(v, host.W(), throttled, l, epoch);
      NowClosable(policy, host.W(), l, epoch, restored);
      OnwardTransitive(w, v, host.W(), {}, {}, {});
      PersistsTransitive(policy, w, h, v, g, host.W(), host.history);
      return Ok(()), last;
    }

    // Restores, then verifies what was restored.
    method RestoreAndVerify(l: nat, throttled: seq<Throttle>, recovery: Option<nat>, floor: int, absent: bool)
      returns (r: Result<()>, ghost proofs: seq<Proof>, ghost last: Snapshot)
      requires Up() && l in host.leases && host.leases[l].throttle == throttled && Unclosed(host.leases[l])
      requires throttled != [] ==> Restorable(host.W(), l, epoch, recovery) && MayUndo(host.W(), host.history, l)
      modifies this`lastProbeGeneration, host
      ensures Up() && host.leases == old(host.leases) && old(lastProbeGeneration) <= lastProbeGeneration
      ensures Causal(proofs, floor) && Restorations(proofs, host.leases[l], l, epoch, recovery)
      ensures |proofs| <= |throttled|
      ensures r.Ok? ==> |proofs| == |throttled| && Closable(policy, host.W(), l, epoch)
      ensures r.Ok? ==> ShowsRestored(policy, last, host.leases[l], proofs, absent)
      ensures r.Ok? <==> RestoresVerified(policy, old(Now()), l, throttled, epoch, recovery, floor, absent)
      ensures Elapsed(old(host.W()), host.W()) && old(host.history) <= host.history
      ensures if throttled == [] then host.loose == old(host.loose) else LooseOnly(old(host.W()), host.W(), l)
      ensures recovery.Some? ==>
        && Persists(policy, old(host.W()), old(host.history), host.W(), host.history)
        && (r.Ok? ==> AgreeFrom(policy, old(host.W()), l, host.history, |old(host.history)|, throttled, 0))
        && (proofs != [] ==> Wedged(policy, host.W(), l))
    {
      hide SafeHistory, Inv, Onward, Causal, Restorable, RestoredFrom, ProfilesFrom, Restorations, ShowsRestored, RestoredRefusal;
      hide Elapsed, Persists, AgreeFrom, ReleaseVerified, Closable, Wedged, RestoresAll, RestoredAll, Verifies;
      ghost var w, h := host.W(), host.history;
      last := NO_READING.snapshot;
      var expected, restored;
      expected, restored, proofs := Restore(l, throttled, recovery, floor);
      if expected.Err? { return Err(expected.code), proofs, last; }
      ghost var v, g := host.W(), host.history;
      r, last := VerifyRestored(l, throttled, restored, expected.value, absent);
      ElapsedOnward(v, host.W(), {});
      ElapsedTransitive(w, v, host.W());
      PrefixOf(policy, v, g, host.W(), host.history);
      if recovery.Some? {
        PersistsTransitive(policy, w, h, v, g, host.W(), host.history);
        WedgedOn(policy, v, g, host.W(), host.history, l);
        if r.Ok? { StillAgree(policy, w, l, g, host.history, |h|, throttled, 0); }
      }
      if r.Ok? { NowShown(policy, last, host.leases[l], proofs, floor, expected.value, restored, absent); }
    }

    // A healthy snapshot without unknown consumers that does not show the leased profile.
    method DemandAbsence(l: nat, code: string) returns (r: Result<Snapshot>)
      requires Up() && l in host.leases
      modifies this`lastProbeGeneration, host
      ensures Up() && host.leases == old(host.leases) && old(lastProbeGeneration) <= lastProbeGeneration
      ensures Onward(old(host.W()), host.W(), {}) && host.loose == old(host.loose) && old(host.history) <= host.history
      ensures r.Ok? ==> ReleaseVerified(r.value, host.leases[l].profile, true) && l !in host.visible
      ensures host.history != [] && host.history[|host.history| - 1] == host.W()
      ensures r.Ok? ==> r.value.generation == lastProbeGeneration
      ensures r.Ok? <==> Accepts(old(Now())) && IsAbsent(Seen(policy, old(Now())), old(host.leases)[l].profile)
      ensures r.Ok? ==> Now() == Looked(policy, old(Now()))
    {
      hide SafeHistory, Inv, Onward, Truthful, ReleaseVerified, Seen, Looked;
      r := CombinedSnapshot();
      StableParts(old(host.W()), host.W(), {});
      if r.Ok? {
        AbsentExactly(r.value, host.leases[l].profile, true);
        if !ReleaseVerified(r.value, host.leases[l].profile, true) { return Err(code); }
        AbsenceIsSeen(host.W(), r.value, l);
      }
    }

    // Undoes an admission of this epoch. No command is sent before `absence` has shown the
    // leased profile gone.
    method Undo(l: nat, throttled: seq<Throttle>, absent: bool, again: bool, code: string)
      returns (r: Result<()>, ghost proofs: seq<Proof>, ghost absence: Option<Snapshot>, ghost last: Snapshot)
      requires Up() && l in host.leases && host.leases[l].throttle == throttled && host.leases[l].epoch == epoch
      requires host.leases[l].status in {Acquiring, Releasing} && (throttled != [] ==> absent)
      modifies this`lastProbeGeneration, host
      ensures Up() && host.leases == old(host.leases) && old(lastProbeGeneration) <= lastProbeGeneration
      ensures r.Ok? ==> |proofs| == |throttled| && Closable(policy, host.W(), l, epoch)
      ensures r.Ok? ==> ShowsRestored(policy, last, host.leases[l], proofs, again)
      ensures r.Ok? <==> Undoes(policy, old(Now()), l, throttled, epoch, absent, again)
      ensures Restorations(proofs, host.leases[l], l, epoch, None)
      ensures RestoredAfter(proofs, absence, host.leases[l].profile)
      ensures Elapsed(old(host.W()), host.W()) && old(host.history) <= host.history
      ensures LooseOnly(old(host.W()), host.W(), l) && (InSight(old(host.W()), l) ==> host.loose == old(host.loose))
    {
      hide SafeHistory, Inv, Onward, Causal, Closable, Restorations, ShowsRestored, Elapsed, RestoresVerified;
      ghost var w0 := host.W();
      StaySame(w0, w0);
      ElapsedOnward(w0, w0, {});
      last := NO_READING.snapshot;
      var floor := -1;
      proofs, absence := [], None;
      NoRestorationYet(host.W(), host.leases[l], l, epoch, None, 0);
      if absent {
        var before := DemandAbsence(l, code);
        ElapsedOnward(w0, host.W(), {});
        if before.Err? { return Err(before.code), proofs, absence, last; }
        absence := Some(before.value);
        if throttled != [] { floor := before.value.generation; }
        AbsentMayUndo(host.W(), host.history, l);
      }
      ghost var v := host.W();
      r, proofs, last := RestoreAndVerify(l, throttled, None, floor, again);
      ElapsedTransitive(w0, v, host.W());
      if throttled != [] { GoneFromSight(w0, v, host.W(), {}, l); }
    }

    // Keeps the lease open as unknown, and refuses every admission until reconciled.
    method Abandon(l: nat, throttled: seq<Throttle>, code: string)
      requires Up() && l in host.leases && Unclosed(host.leases[l]) && host.leases[l].throttle == throttled
      modifies this`quarantine, host
      ensures Up() && quarantine == Some(code) && Onward(old(host.W()), host.W(), {})
      ensures host.W() == Rewritten(old(host.W()), l, old(host.leases)[l].(status := Unknown))
      ensures host.history == old(host.history) + [host.W()]
    {
      hide SafeHistory, Inv, Onward, MayRewrite;
      MayRestatus(policy, host.W(), l, Unknown);
      Put(l, Unknown, Some(throttled));
      quarantine := Some(code);
    }

    method Close(l: nat, throttled: seq<Throttle>, status: Status)
      requires Up() && Closable(policy, host.W(), l, epoch) && host.leases[l].throttle == throttled
      requires status in {Status.Released, Status.Denied}
      modifies host
      ensures Up() && ClosedSafely(policy, host.W(), l, epoch) && Onward(old(host.W()), host.W(), {})
      ensures host.W() == Rewritten(old(host.W()), l, old(host.leases)[l].(status := status))
      ensures host.history == old(host.history) + [host.W()]
    {
      hide SafeHistory, Inv, Onward, MayRewrite, RestoredTo, RestorationRecorded;
      ghost var w := host.W();
      MayClose(policy, w, l, epoch, status);
      Put(l, status, Some(throttled));
      NowClosed(policy, w, host.W(), l, epoch);
    }

    method Open(plan: Plan) returns (l: nat)
      requires Up() && AllClosed(host.W())
      modifies host
      ensures Up() && Onward(old(host.W()), host.W(), {})
      ensures forall m | m in old(host.leases) :: m < l
      ensures l !in old(host.leases) && Admitting(host.W(), l, epoch) && Unheard(host.W(), l)
      ensures host.loose == old(host.loose) && old(host.history) <= host.history
      ensures host.W() == Opened(old(host.W()), Lease(epoch, l + 1, plan.profile, plan.service, plan.mode, Acquiring, []))
      ensures l == old(host.nextId) && Now() == LeaseOpened(old(Now()), plan, epoch)
    {
      hide SafeHistory, Inv, Onward;
      ghost var w := host.W();
      ghost var before := host.history;
      var row := Lease(epoch, 0, plan.profile, plan.service, plan.mode, Acquiring, []);
      l := host.CreateLease(row);
      OpenKeepsInv(policy, w, row.(fence := l + 1));
      OpenedIsOnward(policy, w, row.(fence := l + 1));
      FreshIsUnheard(policy, w, l);
      HistoryGrows(policy, before, w, host.W());
    }

    // Looks again once every chosen controller is held, and marks the lease active.
    method Confirm(l: nat, plan: Plan, throttled: seq<Throttle>, causal: int)
      returns (r: Result<()>, ghost seen: Snapshot)
      requires Up() && Admitting(host.W(), l, epoch) && Held(policy, host.W(), l) && host.leases[l].throttle == throttled
      modifies this`lastProbeGeneration, host
      ensures Up() && old(lastProbeGeneration) <= lastProbeGeneration
      ensures l in host.leases && l !in host.running
      ensures host.leases == old(host.leases)[l := old(host.leases)[l].(status := if r.Ok? then Active else Acquiring)]
      ensures Onward(old(host.W()), host.W(), {}) && host.loose == old(host.loose) && old(host.history) <= host.history
      ensures causal <= old(lastProbeGeneration) ==> r != Err("resource_snapshot_stale")
      ensures r.Ok? <==> Confirms(policy, old(Now()), plan, causal)
      ensures r.Ok? ==> Now() == Confirmed(policy, old(Now()), l)
      ensures r.Ok? ==>
        && Held(policy, host.W(), l)
        && Truthful(host.W(), seen) && AdmissionRefusal(policy, seen, causal, plan).None?
    {
      hide SafeHistory, Inv, Onward, Held, Truthful, AdmissionRefusal, MayRewrite, Persists, Stable;
      seen := NO_READING.snapshot;
      ghost var w, h := host.W(), host.history;
      var after := CombinedSnapshot();
      StableParts(w, host.W(), {});
      PrefixOf(policy, w, h, host.W(), host.history);
      if after.Err? { return Err(after.code), seen; }
      HeldAllLater(policy, w, host.W(), l, epoch);
      NotStale(policy, after.value, causal, plan);
      ConfirmsExactly(policy, after.value, causal, plan);
      var refused := AdmissionRefusal(policy, after.value, causal, plan);
      if refused.Some? { return Err(refused.value), seen; }
      seen := after.value;
      ghost var v := host.W();
      MayActivate(policy, v, l);
      Put(l, Active, Some(throttled));
      SameHeld(policy, v, host.W(), l);
      TruthStays(v, host.W(), l, seen);
      OnwardTransitive(w, v, host.W(), {}, {}, {});
      return Ok(()), seen;
    }

    // The body of the admission: displace, look again, and mark the lease active.
    method Admit(l: nat, plan: Plan, controllers: seq<ControllerPolicy>, floor: int)
      returns (r: Result<()>, throttled: seq<Throttle>, ghost proofs: seq<Proof>, ghost seen: Snapshot)
      requires Up() && controllers == ControllersFor(policy, plan) && ReadyFrom(policy, host.W(), controllers, 0)
      requires Admitting(host.W(), l, epoch)
      requires host.leases[l] == Lease(epoch, host.leases[l].fence, plan.profile, plan.service, plan.mode, Acquiring, [])
      modifies this`lastProbeGeneration, host
      ensures Up() && old(lastProbeGeneration) <= lastProbeGeneration
      ensures l in host.leases && host.leases == old(host.leases)[l := old(host.leases)[l].(
                status := if r.Ok? then Active else Acquiring, throttle := throttled)]
      ensures r.Ok? ==>
        && Held(policy, host.W(), l) && ReadmitsAll(old(host.W()), proofs)
        && Causal(proofs, floor) && Displacements(proofs, controllers, l, host.leases[l].fence, epoch)
        && Truthful(host.W(), seen) && AdmissionRefusal(policy, seen, LastGeneration(proofs, floor), plan).None?
      ensures floor <= old(lastProbeGeneration) ==> r != Err("resource_snapshot_stale")
      ensures r.Ok? <==> AdmitsUnder(policy, old(Now()), l, plan, floor)
      ensures r.Ok? ==> Now() == AdmittedUnder(policy, old(Now()), l, plan, floor)
      ensures Elapsed(old(host.W()), host.W()) && host.loose == old(host.loose) && old(host.history) <= host.history
      ensures l !in host.running
      ensures controllers != [] && Unheard(old(host.W()), l) ==> WedgedAfter(policy, host.history, |old(host.history)|, l)
    {
      hide SafeHistory, Inv, Onward, Causal, Displacements, Held, ReadyFrom, Truthful, AdmissionRefusal, ControllersFor;
      hide ReadmitsAll, WedgedAfter, Unheard, Elapsed, Confirms, DisplacesAll, DisplacedAll;
      ghost var w, h := host.W(), host.history;
      seen := NO_READING.snapshot;
      var displaced;
      displaced, throttled, proofs := Displace(l, plan, controllers, floor);
      if displaced.Err? { return Err(displaced.code), throttled, proofs, seen; }
      ghost var v, g := host.W(), host.history;
      r, seen := Confirm(l, plan, throttled, displaced.value);
      ElapsedOnward(v, host.W(), {});
      ElapsedTransitive(w, v, host.W());
      if controllers != [] && Unheard(w, l) { WedgedLater(policy, g, host.history, |h|, |h|, l); }
    }

    // What follows a failed admission.
    method RollBack(l: nat, throttled: seq<Throttle>, code: string) returns (r: string)
      requires Up() && l in host.leases && host.leases[l].throttle == throttled && host.leases[l].epoch == epoch
      requires host.leases[l].status == Acquiring
      modifies this`lastProbeGeneration, this`quarantine, host
      ensures Up() && old(lastProbeGeneration) <= lastProbeGeneration && l in host.leases
      ensures
        || (&& r == code && quarantine == old(quarantine)
            && host.leases == old(host.leases)[l := old(host.leases)[l].(status := Denied)]
            && ClosedSafely(policy, host.W(), l, epoch))
        || (&& r == "admission_rollback_failed" && quarantine.Some?
            && host.leases == old(host.leases)[l := old(host.leases)[l].(status := Unknown)])
      ensures host.leases[l].status == Denied <==> Undoes(policy, old(Now()), l, throttled, epoch, throttled != [], false)
      ensures Elapsed(old(host.W()), host.W()) && old(host.history) <= host.history
      ensures LooseOnly(old(host.W()), host.W(), l)
    {
      hide SafeHistory, Inv, Elapsed, Onward, Closable, Restorations, RestoredAfter, ClosedSafely, ShowsRestored, InEpoch, Undoes;
      ghost var w0 := host.W();
      var undone;
      ghost var proofs, absence, last;
      undone, proofs, absence, last := Undo(l, throttled, throttled != [], false, "rollback_release_unverified");
      ghost var v := host.W();
      if undone.Err? {
        Abandon(l, throttled, undone.code);
        r := "admission_rollback_failed";
      } else {
        Close(l, throttled, Denied);
        r := code;
      }
      ElapsedOnward(v, host.W(), {});
      ElapsedTransitive(w0, v, host.W());
    }

    // What an admission checks before it opens a lease.
    method Preflight(plan: Plan) returns (r: Result<Snapshot>)
      requires Up() && AllClosed(host.W())
      modifies this`lastProbeGeneration, host
      ensures Up() && host.leases == old(host.leases) && Onward(old(host.W()), host.W(), {})
      ensures host.loose == old(host.loose) && old(host.history) <= host.history
      ensures old(lastProbeGeneration) <= lastProbeGeneration
      ensures r.Ok? ==>
        && old(lastProbeGeneration) <= r.value.generation <= lastProbeGeneration
        && ValidateSnapshot(policy, r.value, plan, false).None?
        && ReadyFrom(policy, host.W(), ControllersFor(policy, plan), 0)
      ensures r != Err("resource_snapshot_stale")
      ensures r.Ok? <==> Prepares(policy, old(Now()), plan)
      ensures r.Ok? ==> Now() == Prepared(policy, old(Now()), plan) && r.value.generation == Generation(old(Now()))
    {
      hide SafeHistory, Inv, Onward, Stable, Truthful, ValidateSnapshot, ControllersFor, ReadyFrom, QuantumElapsed;
      hide PastQuanta, QuantaRead, Persists;
      ghost var w := host.W();
      var before := CombinedSnapshot();
      ghost var v := host.W();
      StableParts(w, v, {});
      if before.Err? { return before; }
      NeverStale(policy, before.value, plan);
      var refused := ValidateSnapshot(policy, before.value, plan, false);
      if refused.Some? { return Err(refused.value); }
      var controllers := ControllersFor(policy, plan);
      ControllersForElements(policy, plan);
      refused := EnforceTrainingQuanta(controllers);
      OnwardTransitive(w, v, host.W(), {}, {}, {});
      if refused.Some? { return Err(refused.value); }
      AllReady(policy, host.W(), plan);
      return before;
    }

    // Opens a lease and admits under it, or rolls back.
    method TryAdmit(plan: Plan, controllers: seq<ControllerPolicy>, floor: int)
      returns (r: Result<Handle>, ghost proofs: seq<Proof>, ghost seen: Snapshot)
      requires Up() && AllClosed(host.W())
      requires controllers == ControllersFor(policy, plan) && ReadyFrom(policy, host.W(), controllers, 0)
      modifies this`lastProbeGeneration, this`quarantine, host
      ensures Up() && old(lastProbeGeneration) <= lastProbeGeneration
      ensures r.Ok? ==>
        && Admitted(policy, old(host.W()), host.W(), r.value, plan, epoch) && quarantine == old(quarantine)
        && Causal(proofs, floor)
        && Displacements(proofs, controllers, r.value.lease, host.leases[r.value.lease].fence, epoch)
        && UnusedBeyondFirst(old(host.W()), controllers, epoch)
        && Truthful(host.W(), seen) && AdmissionRefusal(policy, seen, LastGeneration(proofs, floor), plan).None?
      ensures r.Err? ==> Refused(policy, old(host.W()), host.W(), old(quarantine), quarantine, epoch)
      ensures r.Ok? <==> AdmitsUnder(policy, LeaseOpened(old(Now()), plan, epoch), old(host.nextId), plan, floor)
      ensures r.Ok? ==>
        && r.value.lease == old(host.nextId)
        && Now() == AdmittedUnder(policy, LeaseOpened(old(Now()), plan, epoch), old(host.nextId), plan, floor)
      ensures floor <= old(lastProbeGeneration) ==> r != Err("resource_snapshot_stale")
      ensures Elapsed(old(host.W()), host.W()) && host.loose == old(host.loose) && old(host.history) <= host.history
      ensures controllers != [] ==> forall l | l in host.leases && l !in old(host.leases) ::
                WedgedAfter(policy, host.history, |old(host.history)|, l)
    {
      hide SafeHistory, Inv, Onward, Causal, Displacements, Held, ReadyFrom, Truthful, ControllersFor, ClosedSafely;
      hide ReadmitsAll, UnusedBeyondFirst, Stable, AdmissionRefusal, WedgedAfter, Unheard, Elapsed, AdmitsUnder;
      hide Undoes, LeaseOpened, AdmittedUnder;
      ghost var w, h := host.W(), host.history;
      var l := Open(plan);
      ghost var v, g := host.W(), host.history;
      AllReadyLater(policy, w, v, controllers);
      ElapsedOnward(w, v, {});
      var admitted, throttled;
      admitted, throttled, proofs, seen := Admit(l, plan, controllers, floor);
      ghost var u, f := host.W(), host.history;
      ElapsedTransitive(w, v, u);
      if controllers != [] { WedgedLater(policy, f, f, |g|, |h|, l); }
      if admitted.Err? {
        var code := RollBack(l, throttled, admitted.code);
        ElapsedTransitive(w, u, host.W());
        if controllers != [] { WedgedLater(policy, f, host.history, |h|, |h|, l); }
        return Err(code), proofs, seen;
      }
      OnlyFirstWasUsed(policy, w, v, plan, proofs, l, host.leases[l].fence, epoch);
      return Ok(Handle(l, throttled)), proofs, seen;
    }

    // acquire: admitted with every chosen controller displaced under the new lease; refused
    // with nothing changed or everything undone; or left unknown, with the coordinator
    // quarantined. Any open lease, of whatever epoch, and any quarantine refuses at once.
    method Acquire(plan: Plan, cancelled: bool)
      returns (r: Result<Option<Handle>>, ghost proofs: seq<Proof>, ghost first: Snapshot, ghost seen: Snapshot)
      requires Up()
      modifies this`lastProbeGeneration, this`quarantine, host
      ensures Up() && old(lastProbeGeneration) <= lastProbeGeneration
      ensures r == Ok(None) <==> plan.resourceGroup.None? || plan.mode == NoLease
      ensures r != Ok(None) && cancelled ==> r == Err("cancelled")
      ensures r != Ok(None) && !cancelled && old(quarantine).Some? ==> r == Err("resource_quarantined")
      ensures r != Ok(None) && !cancelled && old(quarantine).None? && !policy.requireProbe ==> r == Err("resource_probe_required")
      ensures r != Ok(None) && !cancelled && old(quarantine).None? && policy.requireProbe && !AllClosed(old(host.W())) ==>
                r == Err("resource_busy")
      ensures r.Ok? && r.value.None? ==> host.leases == old(host.leases) && quarantine == old(quarantine)
      ensures r != Ok(None) ==>
        (r.Ok? <==> && !cancelled && old(quarantine).None? && policy.requireProbe && AllClosed(old(host.W()))
                    && Admissible(policy, old(Now()), plan, epoch))
      ensures r.Ok? && r.value.Some? ==> Now() == AdmittedAt(policy, old(Now()), plan, epoch)
      ensures r.Ok? && r.value.Some? ==>
        && Admitted(policy, old(host.W()), host.W(), r.value.value, plan, epoch)
        && old(quarantine).None? && quarantine.None?
        && ValidateSnapshot(policy, first, plan, false).None? && old(lastProbeGeneration) <= first.generation
        && Causal(proofs, first.generation)
        && Displacements(proofs, ControllersFor(policy, plan), r.value.value.lease, host.leases[r.value.value.lease].fence, epoch)
        && UnusedBeyondFirst(old(host.W()), ControllersFor(policy, plan), epoch)
        && Truthful(host.W(), seen)
        && ValidateSnapshot(policy, seen, plan, true).None? && ValidateCompatibility(seen, plan).None?
      ensures r.Err? ==> Refused(policy, old(host.W()), host.W(), old(quarantine), quarantine, epoch)
      ensures r != Err("resource_snapshot_stale")
      ensures old(quarantine).Some? || !AllClosed(old(host.W())) ==>
        host.W() == old(host.W()) && host.history == old(host.history) && quarantine == old(quarantine)
      ensures Elapsed(old(host.W()), host.W()) && host.loose == old(host.loose) && old(host.history) <= host.history
      ensures ControllersFor(policy, plan) != [] ==> forall l | l in host.leases && l !in old(host.leases) ::
                WedgedAfter(policy, host.history, |old(host.history)|, l)
    {
      hide SafeHistory, Inv, Onward, Causal, Displacements, Held, ReadyFrom, Truthful, ValidateSnapshot, ControllersFor, ClosedSafely;
      hide UnusedBeyondFirst, Stable, ValidateCompatibility, WedgedAfter, Elapsed, Prepares, Prepared, AdmitsUnder, AdmittedUnder;
      ghost var w, h := host.W(), host.history;
      StaySame(w, w);
      ElapsedOnward(w, w, {});
      proofs, first, seen := [], NO_READING.snapshot, NO_READING.snapshot;
      if plan.resourceGroup.None? || plan.mode == NoLease { return Ok(None), proofs, first, seen; }
      if cancelled { return Err("cancelled"), proofs, first, seen; }
      if quarantine.Some? { return Err("resource_quarantined"), proofs, first, seen; }
      if !policy.requireProbe { return Err("resource_probe_required"), proofs, first, seen; }
      var busy := host.OpenLeases();
      if busy { return Err("resource_busy"), proofs, first, seen; }
      var before := Preflight(plan);
      ghost var v, g := host.W(), host.history;
      ElapsedOnward(w, v, {});
      if before.Err? { return Err(before.code), proofs, first, seen; }
      first := before.value;
      var controllers := ControllersFor(policy, plan);
      var admitted;
      admitted, proofs, seen := TryAdmit(plan, controllers, before.value.generation);
      ElapsedTransitive(w, v, host.W());
      if controllers != [] { AllWedgedLater(policy, host.history, |g|, |h|); }
      if admitted.Err? { return Err(admitted.code), proofs, first, seen; }
      UnusedEarlier(w, v, controllers, epoch);
      return Ok(Some(admitted.value)), proofs, first, seen;
    }

    // release: the lease is released with every displaced controller restored, or unknown
    // with the coordinator quarantined.
    method Release(h: Handle)
      returns (r: Result<()>, ghost proofs: seq<Proof>, ghost absence: Option<Snapshot>, ghost last: Snapshot)
      requires Up() && Holds(host.W(), h, epoch)
      modifies this`lastProbeGeneration, this`quarantine, host
      ensures Up() && old(lastProbeGeneration) <= lastProbeGeneration
      ensures h.lease in host.leases
      ensures host.leases == old(host.leases)[h.lease := old(host.leases)[h.lease].(status := if r.Ok? then Status.Released else Unknown)]
      ensures r.Ok? ==> ClosedSafely(policy, host.W(), h.lease, epoch) && quarantine == old(quarantine)
      ensures r.Ok? ==> |proofs| == |h.throttled|
      ensures var absent := old(host.leases)[h.lease].mode == Exclusive || h.throttled != [];
        r.Ok? <==> Undoes(policy, Restatused(old(Now()), h.lease, Releasing), h.lease, h.throttled, epoch, absent, absent)
      ensures r.Ok? ==> ShowsRestored(policy, last, old(host.leases)[h.lease].(status := Releasing), proofs,
                                      old(host.leases)[h.lease].mode == Exclusive || h.throttled != [])
      ensures r.Err? ==> quarantine == Some(r.code)
      ensures Restorations(proofs, old(host.leases)[h.lease].(status := Releasing), h.lease, epoch, None)
      ensures RestoredAfter(proofs, absence, old(host.leases)[h.lease].profile)
      ensures Elapsed(old(host.W()), host.W()) && old(host.history) <= host.history
      ensures LooseOnly(old(host.W()), host.W(), h.lease)
      ensures InSight(old(host.W()), h.lease) ==> host.loose == old(host.loose)
    {
      hide SafeHistory, Inv, Onward, MayRewrite, Closable, Restorations, RestoredAfter, ShowsRestored, Elapsed, Undoes;
      ghost var w0 := host.W();
      var l := h.lease;
      MayRestatus(policy, host.W(), l, Releasing);
      Put(l, Releasing, Some(h.throttled));
      var absent := host.leases[l].mode == Exclusive || h.throttled != [];
      ghost var w := host.W();
      r, proofs, absence, last := Undo(l, h.throttled, absent, absent, "release_unverified");
      ghost var v := host.W();
      if r.Err? {
        Abandon(l, h.throttled, r.code);
      } else {
        Close(l, h.throttled, Status.Released);
      }
      ElapsedOnward(w0, w, {});
      ElapsedOnward(v, host.W(), {});
      ElapsedTransitive(w0, w, v);
      ElapsedTransitive(w0, v, host.W());
    }

    // verify_activation: the refusal, if any, on what the probe shows now
    method VerifyActivation(plan: Plan) returns (r: Option<string>, ghost seen: Option<Snapshot>)
      requires Up()
      modifies this`lastProbeGeneration, host
      ensures Up() && host.leases == old(host.leases) && Onward(old(host.W()), host.W(), {})
      ensures old(lastProbeGeneration) <= lastProbeGeneration
      ensures host.loose == old(host.loose)
      ensures Persists(policy, old(host.W()), old(host.history), host.W(), host.history)
      ensures seen.None? ==> r.Some?
      ensures seen.Some? ==>
        Truthful(host.W(), seen.value) && seen.value.generation == lastProbeGeneration
        && r == ActivationRefusal(policy, seen.value, plan)
    {
      hide SafeHistory, Inv, Onward, Truthful, Persists;
      ghost var w := host.W();
      var s := CombinedSnapshot();
      StableParts(w, host.W(), {});
      if s.Err? { return Some(s.code), None; }
      return ActivationRefusal(policy, s.value, plan), Some(s.value);
    }

    // _advance_host_epoch: above both the store's own epoch and the host's epoch file.
    method AdvanceHostEpoch() returns (advanced: nat)
      requires Safe(policy, host)
      modifies host
      ensures Safe(policy, host) && InEpoch(host.W(), advanced)
      ensures host.W() == old(host.W()).(storeEpoch := advanced, epochFile := advanced)
      ensures advanced == if old(host.storeEpoch) > old(host.epochFile) then old(host.storeEpoch) + 1 else old(host.epochFile) + 1
      ensures host.tape == old(host.tape)
      ensures Persists(policy, old(host.W()), old(host.history), host.W(), host.history)
    {
      hide SafeHistory, Inv, Persists;
      ghost var w := host.W();
      ghost var before := host.history;
      var previous := host.epochFile;
      advanced := host.BeginEpoch(previous + 1);
      ghost var v := host.W();
      NewEpoch(policy, w, advanced);
      host.WriteEpochFile(advanced);
      HistoryGrows(policy, before, w, v);
      HistoryGrows(policy, before + [v], v, host.W());
      assert host.history == before + [v, host.W()];
      PersistsPut(policy, w, before, v);
      PersistsPut(policy, v, before + [v], host.W());
      PersistsTransitive(policy, w, before, v, before + [v], host.W(), host.history);
    }

    method MarkStale() returns (stale: seq<nat>)
      requires Up()
      modifies host
      ensures Up() && host.W() == Marked(old(host.W())) && host.tape == old(host.tape)
      ensures |stale| <= 1 && forall l | l in stale :: l in host.leases && host.leases[l].status == Unknown
      ensures forall l | l in host.leases && Unclosed(host.leases[l]) :: stale == [l]
      ensures Persists(policy, old(host.W()), old(host.history), host.W(), host.history)
    {
      ghost var w := host.W();
      ghost var before := host.history;
      stale := host.MarkActiveLeasesUnknown();
      hide SafeHistory, Inv;
      MarkKeepsInv(policy, w);
      HistoryGrows(policy, before, w, host.W());
      PersistsPut(policy, w, before, host.W());
      StaleIsOne(policy, host.W(), stale);
    }

    // Takes over every controller the lease has displaced, under a fence drawn for it.
    method TakeBack(l: nat, throttled: seq<Throttle>, floor: int)
      returns (r: Result<()>, ghost proofs: seq<Proof>, ghost last: Snapshot)
      requires Up() && l in host.leases && host.leases[l].throttle == throttled && throttled != []
      requires host.leases[l].status == Unknown && host.leases[l].epoch < epoch && MayUndo(host.W(), host.history, l)
      modifies this`lastProbeGeneration, host
      ensures Up() && host.leases == old(host.leases) && old(lastProbeGeneration) <= lastProbeGeneration
      ensures r.Ok? ==> Closable(policy, host.W(), l, epoch) && |proofs| == |throttled|
      ensures r.Ok? ==> ShowsRestored(policy, last, host.leases[l], proofs, true)
      ensures r.Ok? <==> RestoresVerified(policy, IdDrawn(old(Now())), l, throttled, epoch, Some(old(host.nextId)), floor, true)
      ensures TakenOverInTurn(proofs, host.leases[l], l, epoch) && Causal(proofs, floor)
      ensures proofs != [] ==> Wedged(policy, host.W(), l)
      ensures LooseOnly(old(host.W()), host.W(), l)
      ensures Persists(policy, old(host.W()), old(host.history), host.W(), host.history)
      ensures r.Ok? ==> Reclaimed(policy, old(host.W()), l, host.history, |old(host.history)|)
      ensures |old(host.history)| < |host.history|
    {
      hide SafeHistory, Inv, Onward, Causal, Restorations, ShowsRestored, Persists, AgreeFrom, Reclaimed, Wedged, TakenOverInTurn;
      hide RestoresVerified, Closable, Elapsed;
      ghost var w, h := host.W(), host.history;
      FenceIsFresh(policy, w, l);
      var fence := FreshId();
      ghost var u, f := host.W(), host.history;
      MayUndoLater(w, h, u, f, l);
      PersistsPut(policy, w, h, u);
      r, proofs, last := RestoreAndVerify(l, throttled, Some(fence), floor, true);
      PersistsTransitive(policy, w, h, u, f, host.W(), host.history);
      TakenOverUnder(proofs, host.leases[l], l, epoch, fence);
      if r.Ok? { RecoveryAgreed(policy, w, h, u, f, host.history, l); }
    }

    // What reconciliation does about one stale lease, up to its closing.
    method Recover(l: nat)
      returns (r: Result<()>, ghost proofs: seq<Proof>, ghost absence: Option<Snapshot>, ghost last: Snapshot)
      requires Up() && l in host.leases && host.leases[l].status == Unknown && host.leases[l].epoch < epoch
      modifies this`lastProbeGeneration, host
      ensures Up() && host.leases == old(host.leases) && old(lastProbeGeneration) <= lastProbeGeneration
      ensures r.Ok? ==> Closable(policy, host.W(), l, epoch)
      ensures r.Ok? ==> host.leases[l].mode == Exclusive || host.leases[l].throttle != [] ==>
                absence.Some? && ReleaseVerified(absence.value, host.leases[l].profile, true)
      ensures r.Ok? && host.leases[l].throttle != [] ==>
        && ShowsRestored(policy, last, host.leases[l], proofs, true)
        && |proofs| == |host.leases[l].throttle|
      ensures TakenOverInTurn(proofs, host.leases[l], l, epoch)
      ensures proofs != [] ==> Wedged(policy, host.W(), l)
      ensures RestoredAfter(proofs, absence, host.leases[l].profile)
      ensures LooseOnly(old(host.W()), host.W(), l) && (InSight(old(host.W()), l) ==> host.loose == old(host.loose))
      ensures Persists(policy, old(host.W()), old(host.history), host.W(), host.history)
      ensures r.Ok? ==> Reclaimed(policy, old(host.W()), l, host.history, |old(host.history)|)
      ensures |old(host.history)| < |host.history|
      ensures r.Ok? <==> Recovers(policy, old(Now()), l, epoch)
    {
      hide SafeHistory, Inv, Onward, Causal, Restorations, Truthful, ShowsRestored, Persists, AgreeFrom, Reclaimed, Wedged, TakenOverInTurn;
      hide RestoresVerified, Seen, IsAbsent, ReleaseVerified, Evolve;
      ghost var w, h := host.W(), host.history;
      NoTakeoverYet(host.leases[l], l, epoch);
      proofs, absence, last := [], None, NO_READING.snapshot;
      var lease := host.leases[l];
      var absent := lease.mode == Exclusive || lease.throttle != [];
      var s := CombinedSnapshot();
      ghost var v, g := host.W(), host.history;
      StableParts(w, v, {});
      if s.Err? { return Err(s.code), proofs, absence, last; }
      AbsentExactly(s.value, lease.profile, absent);
      if !ReleaseVerified(s.value, lease.profile, absent) { return Err("release_unverified"), proofs, absence, last; }
      if absent { absence := Some(s.value); }
      if lease.throttle == [] {
        EmptyJournal(policy, w, l, g, |h|);
        return Ok(()), proofs, absence, last;
      }
      AbsenceIsSeen(v, s.value, l);
      AbsentMayUndo(v, g, l);
      r, proofs, last := TakeBack(l, lease.throttle, s.value.generation);
      PrefixOf(policy, v, g, host.W(), host.history);
      PersistsTransitive(policy, w, h, v, g, host.W(), host.history);
      GoneFromSight(w, v, host.W(), {}, l);
      if r.Ok? { ReclaimedEarlier(policy, w, h, v, g, host.history, l); }
    }

    method ReconcileLease(l: nat) returns (ghost proofs: seq<Proof>)
      requires Up() && l in host.leases && host.leases[l].status == Unknown && host.leases[l].epoch < epoch
      modifies this`lastProbeGeneration, this`quarantine, host
      ensures Up() && l in host.leases
      ensures host.leases == old(host.leases)[l := old(host.leases)[l].(status := host.leases[l].status)]
      ensures
        || (host.leases[l].status == Status.Released && ClosedSafely(policy, host.W(), l, epoch) && quarantine == old(quarantine))
        || (host.leases[l].status == Unknown && quarantine.Some?)
      ensures LooseOnly(old(host.W()), host.W(), l) && (InSight(old(host.W()), l) ==> host.loose == old(host.loose))
      ensures Endures(policy, old(host.W()), old(host.history), host.W(), host.history)
      ensures TakenOverInTurn(proofs, old(host.leases)[l], l, epoch)
      ensures proofs != [] ==> WedgedAfter(policy, host.history, |old(host.history)|, l)
      ensures host.leases[l].status == Unknown && (proofs != [] || AnyTakenUp(host.W(), l)) ==> Wedged(policy, host.W(), l)
      ensures host.leases[l].status == Status.Released <==> Recovers(policy, old(Now()), l, epoch)
      ensures host.leases[l].status == Status.Released ==>
                Reclaimed(policy, old(host.W()), l, host.history, |old(host.history)|)
    {
      hide SafeHistory, Inv, Closable, RestoredAfter, ClosedSafely, Persists, Endures, Wedged, Reclaimed, TakenUp, TakenOverInTurn, Recovers;
      ghost var w, h := host.W(), host.history;
      var recovered;
      ghost var absence, last;
      recovered, proofs, absence, last := Recover(l);
      ghost var v, g := host.W(), host.history;
      PersistentEndures(policy, w, h, v, g);
      if proofs != [] { IsInHistory(policy, g, v, |h|, l); }
      if recovered.Err? {
        quarantine := Some(recovered.code);
        AnyTakenUpWedges(policy, v, l);
        return;
      }
      Close(l, host.leases[l].throttle, Status.Released);
      ClosedEndures(policy, w, h, v, g, host.W(), l);
      ReclaimedLater(policy, w, l, g, host.history, |h|);
      if proofs != [] { WedgedLater(policy, g, host.history, |h|, |h|, l); }
    }

    // start: from any state a crash can have left. Each lease it found open is released with
    // all its controllers restored, or stays open as unknown with this process quarantined.
    method Start()
      requires Safe(policy, host)
      modifies this, host
      ensures Up() && old(host.storeEpoch) < epoch && old(host.epochFile) < epoch
      ensures Reconciled(policy, old(host.W()), host.W(), quarantine, epoch)
      ensures quarantine.None? ==> AllClosed(host.W())
      ensures old(quarantine).None? && AllClosed(host.W()) ==> quarantine.None?
      ensures Endures(policy, old(host.W()), old(host.history), host.W(), host.history)
      ensures forall l | Wedged(policy, old(host.W()), l) ::
                l in host.leases && host.leases[l].status == Unknown && quarantine.Some?
      ensures forall l | l in old(host.leases) && Unclosed(old(host.leases)[l]) ::
                l in host.leases
                && (host.leases[l].status == Status.Released <==>
                      Recovers(policy, AtRestart(old(Now()), epoch), l, epoch))
      ensures old(host.loose) <= host.loose
      ensures (forall l | l in old(host.leases) && Unclosed(old(host.leases)[l]) :: InSight(old(host.W()), l)) ==>
                host.loose == old(host.loose)
    {
      hide SafeHistory, Inv, ClosedSafely, Persists, Endures, Wedged, Reconciled, OneReconciled, Recovers;
      ghost var w, h := host.W(), host.history;
      epoch := AdvanceHostEpoch();
      ghost var v, g := host.W(), host.history;
      NewEpoch(policy, w, epoch);
      var stale := MarkStale();
      PersistsTransitive(policy, w, h, v, g, host.W(), host.history);
      PersistentEndures(policy, w, h, host.W(), host.history);
      ghost var u, start := host.W(), Now();
      ghost var marked := host.leases;
      for i := 0 to |stale|
        modifies this`lastProbeGeneration, this`quarantine, host
        invariant Up()
        invariant i == 0 ==> host.W() == u && Now() == start
        invariant quarantine == old(quarantine)
                  || (i > 0 && stale[0] in host.leases && host.leases[stale[0]].status == Unknown)
        invariant i > 0 ==> stale[0] in host.leases
                            && (host.leases[stale[0]].status == Status.Released <==> Recovers(policy, start, stale[0], epoch))
        invariant Endures(policy, w, h, host.W(), host.history)
        invariant u.loose <= host.loose && (i > 0 && InSight(u, stale[0]) ==> host.loose == u.loose)
        invariant i > 0 ==> OneReconciled(policy, marked, host.W(), stale[0], quarantine, epoch)
      {
        ghost var before, earlier := host.W(), host.history;
        ghost var proofs := ReconcileLease(stale[i]);
        EnduresTransitive(policy, w, h, before, earlier, host.W(), host.history);
        NowReconciled(policy, marked, host.W(), stale[0], quarantine, epoch);
      }
      if stale == [] {
        NoneWasOpen(policy, w, host.W(), quarantine, epoch);
      } else {
        OneWasOpen(policy, w, marked, host.W(), stale[0], quarantine, epoch);
      }
      WedgedIsUnknown(policy, w, h, host.W(), host.history, quarantine, epoch);
      OnlyStale(w, marked, stale);
    }
  }
}
