// What the coordinator may conclude from a probe report about the runtimes it started: that
// of a GPU consumer the probe never keeps silent, and that of a started runtime without one
// it always does.
module Observation {
  import opened Wrappers
  import opened Ordering
  import opened Protocol
  import opened Controller
  import opened ControllerSteps
  import opened ControllerRuns
  import opened PlantMoves
  import opened Worlds
  import opened BrokerSteps
  import opened Host
  import opened Admission
  import opened CoordinatorProofs
  import Probe
  import Inventory

  // ------------------------------------------------------------ a consumer is not missed

  // A process of this profile that holds the GPU: either inventory lists it if both can be
  // read, and its cgroup, if that can be read, lies in no other profile's runtime.
  ghost predicate Occupies(f: Probe.Findings, policy: Probe.ProbePolicy, pid: int, profile: string)
  {
    && (Inventory.Readable(f) ==> Probe.Listed(f.compute.value, pid) || Probe.Listed(f.pmon.value, pid))
    && (pid in f.processes && f.processes[pid].cgroup.Some? ==>
          forall rt | rt in Probe.Runtimes(f, policy.profiles) && Probe.Matches(rt, f.processes[pid].cgroup.value) ::
            rt.profile.id == profile)
  }

  // Such a process makes its profile active, or a consumer unknown.
  lemma ConsumerIsShown(legal: string -> bool, f: Probe.Findings, policy: Probe.ProbePolicy, consumers: seq<Probe.Consumer>,
                        r: Probe.Report, pid: int, profile: string)
    requires Inventory.Consolidated(f, consumers) && Inventory.Publishes(legal, f, policy, consumers, r)
    requires Occupies(f, policy, pid, profile)
    ensures profile in r.active || r.unknown > 0
  {
    hide Probe.Matches, Probe.Runtimes, Probe.Listed, Probe.Figure, Inventory.EntryOf, Inventory.AllBytes, Inventory.Reconcile;
    if Inventory.Enumerable(f) {
      var runtimes := Probe.Runtimes(f, policy.profiles);
      var c := Probe.Consumer(pid, Probe.Figure(f.compute.value, f.pmon.value, pid));
      assert c in consumers;
      var owner := Probe.Owner(f, runtimes, pid);
      if owner.None? {
        assert pid in Inventory.Unbound(f, runtimes, consumers);
      } else {
        OwnerMatches(f, runtimes, pid);
        assert profile in Inventory.ActiveProfiles(f, runtimes, consumers);
        assert profile in r.profiles;
      }
    }
  }

  lemma OwnerMatches(f: Probe.Findings, runtimes: seq<Probe.Runtime>, pid: int)
    requires Probe.Owner(f, runtimes, pid).Some?
    ensures pid in f.processes && f.processes[pid].cgroup.Some?
    ensures var rt := Probe.Owner(f, runtimes, pid).value;
      rt in runtimes && Probe.Matches(rt, f.processes[pid].cgroup.value)
  {
  }

  // The snapshot the coordinator makes of a report, as far as consumers go.
  ghost predicate Reads(s: Snapshot, r: Probe.Report)
  {
    s.healthy == r.healthy && s.unknown == r.unknown && forall id :: id in s.active <==> id in r.active
  }

  // What `Truthful` asks of a snapshot about GPU consumers holds of every report, healthy
  // or not, that the probe builds while each visible lease's runtime has a process there.
  lemma ReportsAreTruthful(legal: string -> bool, f: Probe.Findings, policy: Probe.ProbePolicy, consumers: seq<Probe.Consumer>,
                           r: Probe.Report, w: World, s: Snapshot, pids: map<nat, int>)
    requires Inventory.Consolidated(f, consumers) && Inventory.Publishes(legal, f, policy, consumers, r)
    requires forall l | l in w.visible && l in w.leases :: l in pids && Occupies(f, policy, pids[l], w.leases[l].profile)
    requires Reads(s, r)
    requires forall c | c in s.states :: c in w.plants && w.plants[c].state == Some(s.states[c])
    ensures Truthful(w, s)
  {
    hide Inventory.Consolidated, Inventory.Publishes, Occupies;
    forall l | l in w.visible && l in w.leases ensures Shows(s, w.leases[l].profile) {
      ConsumerIsShown(legal, f, policy, consumers, r, pids[l], w.leases[l].profile);
    }
  }

  // --------------------------------------------------------- a started runtime may be

  // A truthful snapshot may verify a profile's absence exactly if no runtime of it holds a
  // GPU consumer, whether or not one is started.
  lemma AbsenceCanBeShown(w: World, profile: string)
    ensures (exists s :: Truthful(w, s) && ReleaseVerified(s, profile, true)) <==>
              forall l | l in w.visible && l in w.leases :: w.leases[l].profile != profile
  {
    if forall l | l in w.visible && l in w.leases :: w.leases[l].profile != profile {
      var s := Snapshot(true, 0, ProfilesVisible(w), map[], map[], 0, None, None, None);
      assert Truthful(w, s) && ReleaseVerified(s, profile, true);
    }
  }

  // The controller a lease displaced, with the checkpoint it was stopped at still on disk.
  ghost predicate Parked(w: World, c: string, l: nat, item: Throttle)
    requires l in w.leases
  {
    && HeldBy(w, c, l) && item.controller == c
    && Current(w.plants[c]).generation <= item.generation
    && w.plants[c].authority.value.evidence.Some?
    && CheckpointOf(w.plants[c].receipt, w.plants[c].files) == Ok(w.plants[c].authority.value.evidence.value)
  }

  // Delivered at once, to a controller whose unit starts as it should.
  const SMOOTH: Delivery :=
    Delivery([], true, CallEnv(UnitEnv(false, true, false, None), UnitEnv(false, true, false, None)), 9, true, [])

  // A lease that is being released while its runtime is started and holds no consumer yet:
  // the load was cut short, and stopping the runtime failed.
  ghost predicate StartedUnseen(w: World, l: nat, i: nat, epoch: nat)
  {
    && l in w.leases && w.leases[l].status == Releasing && w.leases[l].epoch == epoch
    && i < |w.leases[l].throttle| && Parked(w, w.leases[l].throttle[i].controller, l, w.leases[l].throttle[i])
    && l in w.running && forall m | m in w.visible && m in w.leases :: w.leases[m].profile != w.leases[l].profile
  }

  // Once the command has landed, the training unit runs beside the started runtime, which
  // may take up the GPU at any time.
  ghost predicate StartsBeside(policy: ResourcePolicy, w: World, f: Flight, l: nat)
  {
    && f.controller in w.plants
    && var v := Landed(policy, Sent(w, f), f, SMOOTH);
       && f.controller in v.plants && v.plants[f.controller].active && RecordOf(v.plants[f.controller]) == Some(f.command)
       && l in v.running && l in v.loose
       && var u := EnvStep(policy, v, Loads(l));
          f.controller in u.plants && u.plants[f.controller].active && l in u.visible
  }

  // Then absence may be shown, the restoration may be sent, and it starts the training unit.
  lemma UnseenIsRestoredOver(policy: ResourcePolicy, w: World, l: nat, i: nat, epoch: nat)
    requires Inv(policy, w) && InEpoch(w, epoch) && StartedUnseen(w, l, i, epoch)
    ensures
      var item := w.leases[l].throttle[i];
      var f := Flight(item.controller, RestoreCommand(w.leases[l], l, item, w.nextId, epoch, 1, None));
      && (exists s :: Truthful(w, s) && ReleaseVerified(s, w.leases[l].profile, true))
      && MaySend(policy, Drawn(w), f) && StartsBeside(policy, Drawn(w), f, l)
  {
    hide Inv, MaySend, Parked;
    AbsenceCanBeShown(w, w.leases[l].profile);
    var item := w.leases[l].throttle[i];
    var x := RestoreCommand(w.leases[l], l, item, w.nextId, epoch, 1, None);
    ReadyToRestore(policy, w, l, item, x, epoch, 1, None);
    RestoredBeside(policy, w, l, item, x, epoch);
  }

  lemma RestoredBeside(policy: ResourcePolicy, w: World, l: nat, item: Throttle, x: Command, epoch: nat)
    requires Inv(policy, w) && InEpoch(w, epoch) && l in w.running && l in w.leases && w.leases[l].epoch == epoch
    requires Parked(w, item.controller, l, item)
    requires x == RestoreCommand(w.leases[l], l, item, w.nextId, epoch, 1, None)
    ensures StartsBeside(policy, Drawn(w), Flight(item.controller, x), l)
  {
    ParkedAdmits(w, item, l, x, epoch);
    hide Parked;
    RecordFacts(policy, w, item.controller);
    FreshCommand(policy, w, epoch, item.controller, x);
    hide *;
    Beside(policy, Drawn(w), Flight(item.controller, x), l);
  }

  lemma Beside(policy: ResourcePolicy, w: World, f: Flight, l: nat)
    requires l in w.running && f.command.lease == l && f.controller in w.plants
    requires Restartable(w.plants[f.controller], f.command)
    requires Sound(w.plants[f.controller]) && f.command.mutation !in Mentions(w.plants[f.controller])
    ensures StartsBeside(policy, w, f, l)
  {
    ParkedRestarts(TrainerOf(policy, f.controller), w.plants[f.controller], f.command);
    hide EventStates, Sound, Mentions, Restartable;
  }

  ghost predicate Restartable(p: Plant, x: Command)
  {
    && Displaced(p) && p.authority.value.evidence.Some? && ValidCommand(x)
    && CheckpointOf(p.receipt, p.files) == Ok(p.authority.value.evidence.value)
    && x.SetMode? && x.target.Normal? && Admits(p, x)
  }

  lemma ParkedAdmits(w: World, item: Throttle, l: nat, x: Command, epoch: nat)
    requires l in w.leases && w.leases[l].epoch == epoch && 1 <= epoch && Parked(w, item.controller, l, item)
    requires x == RestoreCommand(w.leases[l], l, item, w.nextId, epoch, 1, None)
    ensures Restartable(w.plants[item.controller], x)
  {
  }

  lemma ParkedRestarts(trainer: Controller.Policy, p: Plant, x: Command)
    requires Sound(p) && x.mutation !in Mentions(p) && Restartable(p, x)
    ensures var q := Final(p, EventStates(trainer, p, Called(x, SMOOTH.env, SMOOTH.steps)));
      q.active && RecordOf(q) == Some(x)
  {
    AdmitsIsTheFence(p, x);
  }
}
