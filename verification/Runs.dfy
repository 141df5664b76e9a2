// Whole runs: any number of admissions, activations, releases and broker crashes at any
// point, against hosts that do anything in between.
module Runs {
  import opened Wrappers
  import opened Protocol
  import opened Controller
  import opened ControllerSteps
  import opened ControllerRuns
  import opened PlantMoves
  import opened Takeovers
  import opened Worlds
  import opened BrokerSteps
  import opened Wedges
  import opened Host
  import opened Admission
  import opened CoordinatorProofs
  import opened Coordinator

  // One thing the broker is asked to do, or a crash after the given durable step.
  datatype Act =
    | Admit(plan: Plan, cancelled: bool)
    | Activate
    | Check(plan: Plan)
    | Deactivate(gone: bool)
    | Finish
    | Crash(at: nat)

  // While a lease is active, or a runtime started under it still runs and nothing was
  // restored over it, every controller chosen for it is released with its unit stopped,
  // under exactly that lease's fence and epoch, and every command still on its way to it
  // is of an earlier epoch.
  ghost predicate Exclusion(policy: ResourcePolicy, w: World)
  {
    forall l, k | l in w.leases && (w.leases[l].status == Active || (l in w.running && l !in w.loose))
                  && k in policy.controllers && ChosenFor(k, w.leases[l]) ::
      && k.id in w.plants
      && !w.plants[k.id].active
      && w.plants[k.id].authority.Some? && w.plants[k.id].authority.value.Ready?
      && w.plants[k.id].authority.value.public.mode == Mode.Released
      && w.plants[k.id].authority.value.public.lease == l
      && w.plants[k.id].authority.value.public.fence == w.leases[l].fence
      && w.plants[k.id].authority.value.public.epoch == w.leases[l].epoch
      && forall f | f in w.flights && f.controller == k.id :: f.command.epoch < w.leases[l].epoch
  }

  // A controller that is displaced, or is being displaced, under a lease is in that lease's
  // stored journal, and the lease is neither released nor denied.
  ghost predicate WriteAhead(w: World)
  {
    forall c | c in w.plants && DisplacedBy(w.plants[c]).Some? ::
      var l := DisplacedBy(w.plants[c]).value;
      && l in w.leases
      && w.leases[l].status !in {Status.Released, Denied}
      && exists t | t in w.leases[l].throttle :: t.controller == c
  }

  // A command back to normal mode is on its way over a started runtime only where `loose`
  // says so.
  ghost predicate RestoredOnRecord(w: World)
  {
    forall f | f in w.flights && f.command.target.Normal? && f.command.lease in w.running :: f.command.lease in w.loose
  }

  // A displaced training controller had its minimum uninterrupted time since it was last
  // restored, however many crashes lie in between.
  ghost predicate QuantumKept(policy: ResourcePolicy, w: World)
  {
    forall k | k in policy.controllers && k.training && k.id in w.plants
               && DisplacedBy(w.plants[k.id]).Some? && k.id in w.restoredAt ::
      w.restoredAt[k.id] + k.minimumNormal <= w.clock
  }

  ghost predicate SafeWorld(policy: ResourcePolicy, w: World)
  {
    Exclusion(policy, w) && WriteAhead(w) && RestoredOnRecord(w) && QuantumKept(policy, w)
  }

  lemma InvIsSafe(policy: ResourcePolicy, w: World)
    requires Inv(policy, w)
    ensures SafeWorld(policy, w)
  {
    InvExcludes(policy, w);
    hide Sound, Attributed, Mentions, Held, Exclusion, LeaseOk;
    forall c | c in w.plants ensures PlantOk(policy, w, c) {
    }
    forall f | f in w.flights ensures Deliverable(policy, w, f) {
    }
  }

  lemma InvExcludes(policy: ResourcePolicy, w: World)
    requires Inv(policy, w)
    ensures Exclusion(policy, w)
  {
    forall l, k | Guarded(w, l) && k in policy.controllers && ChosenFor(k, w.leases[l])
      ensures HeldBy(w, k.id, l) && Sound(w.plants[k.id])
    {
      assert Held(policy, w, l);
      assert HeldBy(w, k.id, l);
      assert PlantOk(policy, w, k.id);
    }
  }

  // A host on which no controller has been commanded yet.
  ghost predicate NeverCommanded(policy: ResourcePolicy, plants: map<string, Plant>)
  {
    && (forall k | k in policy.controllers :: k.id in plants)
    && forall c | c in plants :: plants[c].authority.None? && plants[c].state.None?
  }

  lemma StartsSafe(policy: ResourcePolicy, plants: map<string, Plant>)
    requires NeverCommanded(policy, plants)
    ensures Inv(policy, World(map[], map[], 0, 0, plants, {}, {}, {}, {}, 0, map[], 0))
  {
    var w := World(map[], map[], 0, 0, plants, {}, {}, {}, {}, 0, map[], 0);
    forall c | c in w.plants ensures PlantOk(policy, w, c) {
    }
    forall k | k in policy.controllers ensures QuantumOk(w, k) {
    }
  }

  // ------------------------------------------------------------------ one thing at a time

  method ActivateProfile(broker: ResourceCoordinator, h: Handle)
    requires broker.Up() && Holds(broker.host.W(), h, broker.epoch)
    modifies broker.host
    ensures broker.Up() && Holds(broker.host.W(), h, broker.epoch)
    ensures broker.host.W() == old(broker.host.W()).(running := old(broker.host.running) + {h.lease})
    ensures old(broker.host.history) <= broker.host.history
  {
    hide Inv, SafeHistory;
    ghost var w, before := broker.host.W(), broker.host.history;
    ActivateKeepsInv(broker.policy, w, h.lease);
    broker.host.Activate(h.lease);
    HistoryGrows(broker.policy, before, w, broker.host.W());
  }

  // The runtime is stopped before its lease is released; that this may fail is swallowed.
  method DeactivateProfile(broker: ResourceCoordinator, h: Handle, gone: bool)
    requires broker.Up() && Holds(broker.host.W(), h, broker.epoch)
    modifies broker.host
    ensures broker.Up() && Holds(broker.host.W(), h, broker.epoch)
    ensures Elapsed(old(broker.host.W()), broker.host.W()) && broker.host.leases == old(broker.host.leases)
    ensures old(broker.host.history) <= broker.host.history
    ensures !gone ==> broker.host.W() == old(broker.host.W())
    ensures gone ==> InSight(broker.host.W(), h.lease)
  {
    hide Inv, SafeHistory;
    ghost var w, before := broker.host.W(), broker.host.history;
    broker.host.Deactivate(h.lease, gone);
    StopKeepsInv(broker.policy, w, broker.host.W(), h.lease);
    HistoryGrows(broker.policy, before, w, broker.host.W());
  }

  lemma StopKeepsInv(policy: ResourcePolicy, w: World, v: World, l: nat)
    requires Inv(policy, w) && (v == w || v == w.(running := w.running - {l}, visible := w.visible - {l}))
    ensures Inv(policy, v) && Elapsed(w, v)
  {
    FrameKeepsInv(policy, w, v);
    IdleIsStable(w, v);
    StableParts(w, v, {});
    ElapsedOnward(w, v, {});
  }

  method Restart(host: Durable) returns (broker: ResourceCoordinator)
    requires Safe(host.policy, host)
    modifies host
    ensures fresh(broker) && broker.host == host && broker.Up()
    ensures old(host.storeEpoch) < broker.epoch
    ensures Reconciled(host.policy, old(host.W()), host.W(), broker.quarantine, broker.epoch)
    ensures Endures(host.policy, old(host.W()), old(host.history), host.W(), host.history)
    ensures forall l | Wedged(host.policy, old(host.W()), l) ::
              l in host.leases && host.leases[l].status == Unknown && broker.quarantine.Some?
  {
    broker := new ResourceCoordinator(host);
    broker.Start();
  }

  method Crashed(host: Durable, k: nat)
    requires Safe(host.policy, host) && k < |host.history|
    modifies host
    ensures Safe(host.policy, host)
    ensures host.W() == old(host.history)[k] && host.history == old(host.history)[..k + 1]
  {
    hide Inv, SafeHistory;
    HistoryCut(host.policy, host.history, host.W(), k);
    host.CrashAt(k);
  }

  // What is known between two moments of one broker process: controllers are not forgotten
  // and epochs do not fall.
  ghost predicate Remembers(w: World, v: World)
  {
    w.plants.Keys == v.plants.Keys && forall c | c in w.plants :: Epoch(w.plants[c]) <= Epoch(v.plants[c])
  }

  lemma ElapsedRemembers(w: World, v: World)
    requires Elapsed(w, v)
    ensures Remembers(w, v)
  {
  }

  lemma SamePlantsRemember(w: World, v: World)
    requires v.plants == w.plants
    ensures Remembers(w, v)
  {
  }

  lemma UsedStays(w: World, v: World, c: string, epoch: nat)
    requires Remembers(w, v) && Used(w, c, epoch) && 1 <= epoch
    ensures Used(v, c, epoch)
  {
  }

  // The status of a lease that is active or has been released; within the process that
  // opened it, only an admitted lease has either.
  predicate Served(lease: Lease)
  {
    lease.status in {Active, Status.Released}
  }

  function PlanOf(lease: Lease): Plan
  {
    Plan(lease.profile, None, lease.service, lease.mode, 0, false)
  }

  // The controllers a lease displaces, in order.
  function DisplacedFor(policy: ResourcePolicy, lease: Lease): seq<ControllerPolicy>
  {
    ControllersFor(policy, PlanOf(lease))
  }

  lemma {:induction false} SamePlan(controllers: seq<ControllerPolicy>, a: Plan, b: Plan)
    requires a.service == b.service && a.profile == b.profile
    ensures ChosenControllers(controllers, a) == ChosenControllers(controllers, b)
  {
    if controllers != [] { SamePlan(controllers[1..], a, b); }
  }

  ghost predicate AllUsed(policy: ResourcePolicy, w: World, l: nat, epoch: nat)
    requires l in w.leases
  {
    w.leases[l].epoch == epoch && forall k | k in DisplacedFor(policy, w.leases[l]) :: Used(w, k.id, epoch)
  }

  // One step's effect on what has been served: at most one lease more, opened after all
  // others, whose controllers beyond the first had not been used in this epoch.
  ghost predicate Proceeds(policy: ResourcePolicy, w: World, v: World, epoch: nat)
  {
    && Remembers(w, v)
    && (forall l | l in w.leases :: l in v.leases && SameTerms(w.leases[l], v.leases[l]))
    && forall l | l in v.leases && Served(v.leases[l]) ::
         if l in w.leases then Served(w.leases[l])
         else
           && (forall m | m in w.leases :: m < l)
           && (forall m | m in v.leases :: m <= l)
           && AllUsed(policy, v, l, epoch)
           && UnusedBeyondFirst(w, DisplacedFor(policy, v.leases[l]), epoch)
  }

  lemma SameTableProceeds(policy: ResourcePolicy, w: World, v: World, epoch: nat)
    requires v.leases == w.leases && Remembers(w, v)
    ensures Proceeds(policy, w, v, epoch)
  {
  }

  lemma AdmissionProceeds(policy: ResourcePolicy, w: World, v: World, h: Handle, plan: Plan, epoch: nat)
    requires Admitted(policy, w, v, h, plan, epoch) && Remembers(w, v)
    requires UnusedBeyondFirst(w, ControllersFor(policy, plan), epoch)
    ensures Proceeds(policy, w, v, epoch)
  {
    hide Held, UnusedBeyondFirst, Remembers, Used;
    SamePlan(policy.controllers, plan, PlanOf(v.leases[h.lease]));
    HeldIsUsed(policy, v, h.lease, PlanOf(v.leases[h.lease]));
  }

  lemma RefusalProceeds(policy: ResourcePolicy, w: World, v: World, before: Option<string>, after: Option<string>, epoch: nat)
    requires Refused(policy, w, v, before, after, epoch) && Remembers(w, v)
    ensures Proceeds(policy, w, v, epoch)
  {
    hide ClosedSafely, Remembers, Used;
  }

  lemma ReleaseProceeds(policy: ResourcePolicy, w: World, v: World, l: nat, status: Status, epoch: nat)
    requires l in w.leases && w.leases[l].status == Active && v.leases == w.leases[l := w.leases[l].(status := status)]
    requires Remembers(w, v)
    ensures Proceeds(policy, w, v, epoch)
  {
    hide Remembers, Used;
  }

  lemma NothingDone(policy: ResourcePolicy, w: World, h: seq<World>, epoch: nat)
    ensures Proceeds(policy, w, w, epoch) && Endures(policy, w, h, w, h)
  {
    PersistsPut(policy, w, h, w);
    PersistentEndures(policy, w, h, w, h);
  }

  // Everything but a crash. It returns the handle the scheduler is left with.
  method Perform(broker: ResourceCoordinator, act: Act, handle: Option<Handle>) returns (next: Option<Handle>)
    requires broker.Up() && !act.Crash?
    requires handle.Some? ==> Holds(broker.host.W(), handle.value, broker.epoch)
    modifies broker, broker.host
    ensures broker.Up() && broker.epoch == old(broker.epoch)
    ensures next.Some? ==> Holds(broker.host.W(), next.value, broker.epoch)
    ensures old(broker.host.history) <= broker.host.history
    ensures Proceeds(broker.policy, old(broker.host.W()), broker.host.W(), broker.epoch)
    ensures handle.None? && old(broker.quarantine).Some? ==>
      && next.None? && broker.quarantine.Some?
      && broker.host.leases == old(broker.host.leases)
      && Endures(broker.policy, old(broker.host.W()), old(broker.host.history), broker.host.W(), broker.host.history)
  {
    hide Inv, SafeHistory, InEpoch, Elapsed, Proceeds, Endures, Admitted, Refused, Remembers, Causal, Displacements;
    hide UnusedBeyondFirst, Truthful, Persists, Restorations, RestoredAfter, ShowsRestored, ControllersFor, Held, Onward;
    hide ValidateSnapshot, ValidateCompatibility, ClosedSafely, WedgedAfter;
    ghost var w, h := broker.host.W(), broker.host.history;
    NothingDone(broker.policy, w, h, broker.epoch);
    next := handle;
    match act {
      case Admit(plan, cancelled) =>
        next := TryAcquire(broker, plan, cancelled, handle);
      case Activate =>
        if handle.Some? {
          ActivateProfile(broker, handle.value);
          SamePlantsRemember(w, broker.host.W());
          SameTableProceeds(broker.policy, w, broker.host.W(), broker.epoch);
        }
      case Check(plan) =>
        Look(broker, plan);
      case Deactivate(gone) =>
        if handle.Some? {
          DeactivateProfile(broker, handle.value, gone);
          ElapsedRemembers(w, broker.host.W());
          SameTableProceeds(broker.policy, w, broker.host.W(), broker.epoch);
        }
      case Finish =>
        if handle.Some? {
          var released;
          ghost var proofs, absence, last;
          released, proofs, absence, last := broker.Release(handle.value);
          ElapsedRemembers(w, broker.host.W());
          ReleaseProceeds(broker.policy, w, broker.host.W(), handle.value.lease, broker.host.leases[handle.value.lease].status, broker.epoch);
          next := None;
        }
    }
  }

  method TryAcquire(broker: ResourceCoordinator, plan: Plan, cancelled: bool, handle: Option<Handle>) returns (next: Option<Handle>)
    requires broker.Up()
    requires handle.Some? ==> Holds(broker.host.W(), handle.value, broker.epoch)
    modifies broker, broker.host
    ensures broker.Up() && broker.epoch == old(broker.epoch)
    ensures next.Some? ==> Holds(broker.host.W(), next.value, broker.epoch)
    ensures old(broker.host.history) <= broker.host.history
    ensures Proceeds(broker.policy, old(broker.host.W()), broker.host.W(), broker.epoch)
    ensures handle.None? && old(broker.quarantine).Some? ==>
      && next.None? && broker.quarantine.Some?
      && broker.host.W() == old(broker.host.W()) && broker.host.history == old(broker.host.history)
  {
    hide Inv, SafeHistory, InEpoch, Elapsed, Proceeds, Refused, Remembers, Causal, Displacements;
    hide UnusedBeyondFirst, Truthful, ControllersFor, Held, Onward, ValidateSnapshot, ValidateCompatibility, WedgedAfter;
    ghost var w := broker.host.W();
    var admitted;
    ghost var proofs, first, seen;
    admitted, proofs, first, seen := broker.Acquire(plan, cancelled);
    ElapsedRemembers(w, broker.host.W());
    next := handle;
    if admitted.Err? {
      RefusalProceeds(broker.policy, w, broker.host.W(), old(broker.quarantine), broker.quarantine, broker.epoch);
      if handle.Some? { HoldsOpen(w, handle.value, broker.epoch); }
    } else if admitted.value.None? {
      SameTableProceeds(broker.policy, w, broker.host.W(), broker.epoch);
    } else {
      AdmissionProceeds(broker.policy, w, broker.host.W(), admitted.value.value, plan, broker.epoch);
      if handle.None? { next := admitted.value; }
    }
  }

  lemma HoldsOpen(w: World, h: Handle, epoch: nat)
    requires Holds(w, h, epoch)
    ensures !AllClosed(w)
  {
  }

  method Look(broker: ResourceCoordinator, plan: Plan)
    requires broker.Up()
    modifies broker, broker.host
    ensures broker.Up() && broker.epoch == old(broker.epoch) && broker.quarantine == old(broker.quarantine)
    ensures broker.host.leases == old(broker.host.leases) && old(broker.host.history) <= broker.host.history
    ensures Proceeds(broker.policy, old(broker.host.W()), broker.host.W(), broker.epoch)
    ensures Endures(broker.policy, old(broker.host.W()), old(broker.host.history), broker.host.W(), broker.host.history)
  {
    hide Inv, SafeHistory, InEpoch, Elapsed, Proceeds, Endures, Remembers, Truthful, Persists, Onward;
    ghost var w, h := broker.host.W(), broker.host.history;
    var refused;
    ghost var seen;
    refused, seen := broker.VerifyActivation(plan);
    ElapsedOnward(w, broker.host.W(), {});
    ElapsedRemembers(w, broker.host.W());
    SameTableProceeds(broker.policy, w, broker.host.W(), broker.epoch);
    PersistentEndures(broker.policy, w, h, broker.host.W(), broker.host.history);
    PrefixOf(broker.policy, w, h, broker.host.W(), broker.host.history);
  }

  // ------------------------------------------------------------------ whole runs

  // Every state any run can be in, and so every state a crash can leave, is safe; and
  // nothing is restored over a started runtime that was not, before that and after its
  // lease ceased to be active, out of the probe's sight.
  method Run(policy: ResourcePolicy, plants: map<string, Plant>, tape: seq<Input>, script: seq<Act>)
    returns (host: Durable)
    requires PolicyOk(policy) && NeverCommanded(policy, plants)
    ensures forall i | 0 <= i < |host.history| :: SafeWorld(policy, host.history[i])
    ensures forall i, l | 0 <= i < |host.history| && l in host.history[i].loose :: Overlooked(host.history, i + 1, l)
    ensures SafeWorld(policy, host.W())
  {
    hide Inv, Reconciled, Endures, Wedged, Proceeds, NeverCommanded, PolicyOk, SafeWorld, InEpoch;
    host := new Durable(policy, plants, tape);
    StartsSafe(policy, plants);
    var broker := Restart(host);
    var handle: Option<Handle> := None;
    for i := 0 to |script|
      invariant fresh(host) && fresh(broker) && host.policy == policy && broker.host == host && broker.Up()
      invariant handle.Some? ==> Holds(host.W(), handle.value, broker.epoch)
    {
      if !script[i].Crash? {
        handle := Perform(broker, script[i], handle);
      } else if script[i].at < |host.history| {
        Crashed(host, script[i].at);
        broker := Restart(host);
        handle := None;
      }
    }
    HistoryIsSafe(policy, host);
  }

  lemma HistoryIsSafe(policy: ResourcePolicy, host: Durable)
    requires Safe(policy, host)
    ensures forall i | 0 <= i < |host.history| :: SafeWorld(policy, host.history[i])
    ensures SafeWorld(policy, host.W())
  {
    hide Inv, SafeWorld;
    InvIsSafe(policy, host.W());
    forall i | 0 <= i < |host.history| ensures SafeWorld(policy, host.history[i]) {
      InvIsSafe(policy, host.history[i]);
    }
  }

  // -------------------------------------------------------- at most once in one epoch

  // No controller that the later lease displaces beyond its first is displaced by the
  // earlier one at all.
  ghost predicate Apart(policy: ResourcePolicy, earlier: Lease, later: Lease)
  {
    var used, asked := DisplacedFor(policy, earlier), DisplacedFor(policy, later);
    forall i, j | 0 <= i < |used| && 1 <= j < |asked| :: used[i].id != asked[j].id
  }

  ghost predicate Tally(policy: ResourcePolicy, start: World, w: World, epoch: nat)
  {
    && (forall l | l in start.leases :: l in w.leases)
    && (forall l | l in w.leases && l !in start.leases && Served(w.leases[l]) :: AllUsed(policy, w, l, epoch))
    && forall l, m | l in w.leases && m in w.leases && l !in start.leases && m !in start.leases && l < m
                     && Served(w.leases[l]) && Served(w.leases[m]) :: Apart(policy, w.leases[l], w.leases[m])
  }

  lemma UsedApart(policy: ResourcePolicy, w: World, a: Lease, b: Lease, epoch: nat)
    requires forall k | k in DisplacedFor(policy, a) :: Used(w, k.id, epoch)
    requires UnusedBeyondFirst(w, DisplacedFor(policy, b), epoch)
    ensures Apart(policy, a, b)
  {
    hide Used, DisplacedFor;
    var used, asked := DisplacedFor(policy, a), DisplacedFor(policy, b);
    forall i, j | 0 <= i < |used| && 1 <= j < |asked| ensures used[i].id != asked[j].id {
      assert used[i] in used;
    }
  }

  lemma SameDisplaced(policy: ResourcePolicy, a: Lease, b: Lease)
    requires SameTerms(a, b)
    ensures DisplacedFor(policy, a) == DisplacedFor(policy, b)
  {
    SamePlan(policy.controllers, PlanOf(a), PlanOf(b));
  }

  lemma UsedOnward(policy: ResourcePolicy, w: World, v: World, l: nat, epoch: nat)
    requires Proceeds(policy, w, v, epoch) && l in w.leases && AllUsed(policy, w, l, epoch) && 1 <= epoch
    ensures AllUsed(policy, v, l, epoch)
  {
    hide Used, DisplacedFor;
    SameDisplaced(policy, w.leases[l], v.leases[l]);
    forall k | k in DisplacedFor(policy, v.leases[l]) ensures Used(v, k.id, epoch) {
      UsedStays(w, v, k.id, epoch);
    }
  }

  lemma TallyGrows(policy: ResourcePolicy, start: World, w: World, v: World, epoch: nat)
    requires Tally(policy, start, w, epoch) && Proceeds(policy, w, v, epoch) && 1 <= epoch
    ensures Tally(policy, start, v, epoch)
  {
    hide AllUsed, Used, DisplacedFor, Apart, UnusedBeyondFirst, Remembers;
    forall l | l in v.leases && l !in start.leases && Served(v.leases[l]) ensures AllUsed(policy, v, l, epoch) {
      if l in w.leases { UsedOnward(policy, w, v, l, epoch); }
    }
    forall l, m | l in v.leases && m in v.leases && l !in start.leases && m !in start.leases && l < m
                  && Served(v.leases[l]) && Served(v.leases[m])
      ensures Apart(policy, v.leases[l], v.leases[m])
    {
      assert l in w.leases;
      if m in w.leases {
        ApartStays(policy, w, v, l, m);
      } else {
        AllUsedFacts(policy, w, l, epoch);
        SameDisplaced(policy, w.leases[l], v.leases[l]);
        UsedApart(policy, w, v.leases[l], v.leases[m], epoch);
      }
    }
  }

  lemma ApartStays(policy: ResourcePolicy, w: World, v: World, l: nat, m: nat)
    requires l in w.leases && m in w.leases && l in v.leases && m in v.leases
    requires SameTerms(w.leases[l], v.leases[l]) && SameTerms(w.leases[m], v.leases[m])
    requires Apart(policy, w.leases[l], w.leases[m])
    ensures Apart(policy, v.leases[l], v.leases[m])
  {
    SameDisplaced(policy, w.leases[l], v.leases[l]);
    SameDisplaced(policy, w.leases[m], v.leases[m]);
  }

  lemma AllUsedFacts(policy: ResourcePolicy, w: World, l: nat, epoch: nat)
    requires l in w.leases && AllUsed(policy, w, l, epoch)
    ensures forall k | k in DisplacedFor(policy, w.leases[l]) :: Used(w, k.id, epoch)
  {
  }

  // One broker process, doing anything in any order: of any two leases it has admitted, the
  // later displaces no controller beyond its first that the earlier one had displaced. In
  // particular it admits a plan that displaces two controllers or more at most once,
  // whatever is admitted, refused or rolled back in between.
  method AtMostOnce(broker: ResourceCoordinator, script: seq<Act>)
    requires broker.Up() && forall act | act in script :: !act.Crash?
    modifies broker, broker.host
    ensures broker.Up() && broker.epoch == old(broker.epoch)
    ensures forall l, m | l in broker.host.leases && m in broker.host.leases && l < m
                          && l !in old(broker.host.leases) && m !in old(broker.host.leases)
                          && broker.host.leases[l].status in {Active, Status.Released}
                          && broker.host.leases[m].status in {Active, Status.Released} ::
              Apart(broker.policy, broker.host.leases[l], broker.host.leases[m])
  {
    hide Inv, SafeHistory, Proceeds, Endures, Tally, Apart;
    ghost var start := broker.host.W();
    NothingTallied(broker.policy, start, broker.epoch);
    var handle: Option<Handle> := None;
    for i := 0 to |script|
      invariant broker.Up() && broker.epoch == old(broker.epoch)
      invariant handle.Some? ==> Holds(broker.host.W(), handle.value, broker.epoch)
      invariant Tally(broker.policy, start, broker.host.W(), broker.epoch)
    {
      ghost var w := broker.host.W();
      handle := Perform(broker, script[i], handle);
      TallyGrows(broker.policy, start, w, broker.host.W(), broker.epoch);
    }
    TallyApart(broker.policy, start, broker.host.W(), broker.epoch);
  }

  lemma NothingTallied(policy: ResourcePolicy, w: World, epoch: nat)
    ensures Tally(policy, w, w, epoch)
  {
  }

  lemma TallyApart(policy: ResourcePolicy, start: World, w: World, epoch: nat)
    requires Tally(policy, start, w, epoch)
    ensures forall l, m | l in w.leases && m in w.leases && l < m && l !in start.leases && m !in start.leases
                          && Served(w.leases[l]) && Served(w.leases[m]) ::
              Apart(policy, w.leases[l], w.leases[m])
  {
    hide Apart;
  }

  // -------------------------------------------------------- leases no restart can close

  // Whatever is asked of however many broker processes after a restart finds a wedged
  // lease, with a crash after any durable step: the lease is still unknown, still wedged,
  // and the process now running is quarantined, so it admits nothing.
  method RestartForever(host: Durable, l: nat, script: seq<Act>) returns (broker: ResourceCoordinator)
    requires Safe(host.policy, host) && Wedged(host.policy, host.W(), l)
    modifies host
    ensures fresh(broker) && broker.host == host && broker.Up() && broker.quarantine.Some?
    ensures Wedged(host.policy, host.W(), l) && host.leases[l].status == Unknown
    ensures old(host.history) <= host.history
    ensures forall i | |old(host.history)| <= i < |host.history| :: Wedged(host.policy, host.history[i], l)
  {
    hide Inv, SafeHistory, Reconciled, Endures, Wedged, Proceeds, PolicyOk, InEpoch;
    ghost var w, h := host.W(), host.history;
    var since := |host.history|;
    broker := Restart(host);
    StillWedged(host.policy, w, h, host.W(), host.history, h, l);
    for i := 0 to |script|
      invariant fresh(broker) && broker.host == host && broker.Up() && broker.quarantine.Some?
      invariant WedgedThroughout(host.policy, h, host.W(), host.history, l)
      invariant l in host.leases && host.leases[l].status == Unknown
    {
      ghost var v, g := host.W(), host.history;
      if !script[i].Crash? {
        var none := Perform(broker, script[i], None);
        StillWedged(host.policy, v, g, host.W(), host.history, h, l);
      } else if since <= script[i].at < |host.history| {
        Crashed(host, script[i].at);
        ghost var u, f := host.W(), host.history;
        CutWedged(host.policy, h, v, g, script[i].at, l);
        broker := Restart(host);
        StillWedged(host.policy, u, f, host.W(), host.history, h, l);
      }
    }
  }

  // Since the history was `h`, the lease has been wedged.
  ghost predicate WedgedThroughout(policy: ResourcePolicy, h: seq<World>, w: World, g: seq<World>, l: nat)
  {
    h <= g && Wedged(policy, w, l) && forall i | |h| <= i < |g| :: Wedged(policy, g[i], l)
  }

  lemma StillWedged(policy: ResourcePolicy, w: World, g: seq<World>, v: World, f: seq<World>, h: seq<World>, l: nat)
    requires (g == h && Wedged(policy, w, l)) || WedgedThroughout(policy, h, w, g, l)
    requires Endures(policy, w, g, v, f)
    ensures WedgedThroughout(policy, h, v, f, l) && l in v.leases
  {
    assert Wedged(policy, v, l);
    hide Refuses;
    assert forall i | |h| <= i < |g| :: f[i] == g[i];
  }

  lemma CutWedged(policy: ResourcePolicy, h: seq<World>, w: World, g: seq<World>, k: nat, l: nat)
    requires WedgedThroughout(policy, h, w, g, l) && |h| <= k < |g|
    ensures WedgedThroughout(policy, h, g[k], g[..k + 1], l)
  {
    hide Wedged;
    var f := g[..k + 1];
    assert forall i | |h| <= i < |f| :: f[i] == g[i];
  }

  // Whatever is asked of however many broker processes, with crashes after any durable step:
  // a lease one of whose controllers rests on its evidence, or refuses, is unknown and the
  // process then running quarantined, unless that evidence was on the controller's disk in
  // some state since.
  method RestartWaits(host: Durable, l: nat, c: string, ghost e: Option<Evidence>, script: seq<Act>)
    returns (broker: ResourceCoordinator)
    requires Safe(host.policy, host) && Waits(host.policy, host.W(), l, c, e)
    modifies host
    ensures fresh(broker) && broker.host == host && broker.Up() && old(host.history) <= host.history
    ensures !Shown(host.policy, host.history, |old(host.history)|, |host.history|, c, e) ==>
      && broker.quarantine.Some?
      && Waits(host.policy, host.W(), l, c, e) && host.leases[l].status == Unknown
  {
    hide Inv, SafeHistory, Reconciled, Endures, Wedged, Waits, Shown, Proceeds, PolicyOk, InEpoch;
    ghost var w, h := host.W(), host.history;
    var since := |host.history|;
    NothingWaitedFor(host.policy, w, h, l, c, e);
    broker := Restart(host);
    WaitingOn(host.policy, h, w, h, host.W(), host.history, l, c, e);
    OpenWaits(host.policy, h, w, h, host.W(), host.history, broker.quarantine, broker.epoch, l, c, e);
    var handle: Option<Handle> := None;
    for i := 0 to |script|
      invariant fresh(broker) && broker.host == host && broker.Up()
      invariant handle.Some? ==> Holds(host.W(), handle.value, broker.epoch)
      invariant WaitedFor(host.policy, h, host.W(), host.history, l, c, e)
      invariant !Shown(host.policy, host.history, |h|, |host.history|, c, e) ==>
        handle.None? && broker.quarantine.Some? && l in host.leases && host.leases[l].status == Unknown
    {
      ghost var v, g := host.W(), host.history;
      if !script[i].Crash? {
        handle := Perform(broker, script[i], handle);
        PerformedOn(host.policy, h, v, g, host.W(), host.history, l, c, e);
      } else if since <= script[i].at < |host.history| {
        Crashed(host, script[i].at);
        ghost var u, f := host.W(), host.history;
        CutWaiting(host.policy, h, v, g, script[i].at, l, c, e);
        broker := Restart(host);
        handle := None;
        WaitingOn(host.policy, h, u, f, host.W(), host.history, l, c, e);
        OpenWaits(host.policy, h, u, f, host.W(), host.history, broker.quarantine, broker.epoch, l, c, e);
      }
    }
    NotShownWaits(host.policy, h, host.W(), host.history, l, c, e);
  }

  // Since the history was `h`, the lease has waited for the evidence, up to when it was shown.
  ghost predicate WaitedFor(policy: ResourcePolicy, h: seq<World>, w: World, g: seq<World>, l: nat, c: string, e: Option<Evidence>)
  {
    && h <= g
    && (Waits(policy, w, l, c, e) || Shown(policy, g, |h|, |g|, c, e))
    && forall i | |h| <= i < |g| :: Waits(policy, g[i], l, c, e) || Shown(policy, g, |h|, i + 1, c, e)
  }

  lemma NothingWaitedFor(policy: ResourcePolicy, w: World, h: seq<World>, l: nat, c: string, e: Option<Evidence>)
    requires Waits(policy, w, l, c, e)
    ensures WaitedFor(policy, h, w, h, l, c, e) && !Shown(policy, h, |h|, |h|, c, e)
  {
  }

  lemma WaitingOn(policy: ResourcePolicy, h: seq<World>, w: World, g: seq<World>, v: World, f: seq<World>, l: nat, c: string, e: Option<Evidence>)
    requires WaitedFor(policy, h, w, g, l, c, e) && Endures(policy, w, g, v, f)
    ensures WaitedFor(policy, h, v, f, l, c, e)
  {
    hide Waits, Shown, Wedged;
    if Waits(policy, w, l, c, e) {
      forall i | |h| <= i < |f| ensures Waits(policy, f[i], l, c, e) || Shown(policy, f, |h|, i + 1, c, e) {
        if i < |g| {
          ShownLater(policy, g, f, |h|, |h|, i + 1, i + 1, c, e);
        } else {
          ShownLater(policy, f, f, |g|, |h|, i + 1, i + 1, c, e);
        }
      }
      ShownLater(policy, f, f, |g|, |h|, |f|, |f|, c, e);
    } else {
      OnceShown(policy, h, w, g, v, f, l, c, e);
    }
  }

  lemma OnceShown(policy: ResourcePolicy, h: seq<World>, w: World, g: seq<World>, v: World, f: seq<World>, l: nat, c: string, e: Option<Evidence>)
    requires WaitedFor(policy, h, w, g, l, c, e) && Shown(policy, g, |h|, |g|, c, e) && g <= f
    ensures WaitedFor(policy, h, v, f, l, c, e)
  {
    hide Waits, Shown;
    ShownLater(policy, g, f, |h|, |h|, |g|, |f|, c, e);
    forall i | |h| <= i < |f| ensures Waits(policy, f[i], l, c, e) || Shown(policy, f, |h|, i + 1, c, e) {
      if i < |g| {
        ShownLater(policy, g, f, |h|, |h|, i + 1, i + 1, c, e);
      } else {
        ShownLater(policy, g, f, |h|, |h|, |g|, i + 1, c, e);
      }
    }
  }

  lemma PerformedOn(policy: ResourcePolicy, h: seq<World>, w: World, g: seq<World>, v: World, f: seq<World>, l: nat, c: string, e: Option<Evidence>)
    requires WaitedFor(policy, h, w, g, l, c, e) && g <= f
    requires !Shown(policy, g, |h|, |g|, c, e) ==> Endures(policy, w, g, v, f)
    ensures WaitedFor(policy, h, v, f, l, c, e)
    ensures Shown(policy, g, |h|, |g|, c, e) ==> Shown(policy, f, |h|, |f|, c, e)
  {
    hide Waits, Shown, Endures;
    ShownLater(policy, g, f, |h|, |h|, |g|, |f|, c, e);
    if Shown(policy, g, |h|, |g|, c, e) {
      OnceShown(policy, h, w, g, v, f, l, c, e);
    } else {
      WaitingOn(policy, h, w, g, v, f, l, c, e);
    }
  }

  lemma CutWaiting(policy: ResourcePolicy, h: seq<World>, w: World, g: seq<World>, k: nat, l: nat, c: string, e: Option<Evidence>)
    requires WaitedFor(policy, h, w, g, l, c, e) && |h| <= k < |g|
    ensures WaitedFor(policy, h, g[k], g[..k + 1], l, c, e)
  {
    hide Waits;
    var f := g[..k + 1];
    forall i | |h| <= i < |f| ensures Waits(policy, f[i], l, c, e) || Shown(policy, f, |h|, i + 1, c, e) {
      if Shown(policy, g, |h|, i + 1, c, e) {
        var j :| |h| <= j < i + 1 && j < |g| && c in g[j].plants && Backed(TrainerOf(policy, c), g[j].plants[c], e);
        assert f[j] == g[j];
      }
    }
    assert f[k] == g[k];
  }

  lemma OpenWaits(policy: ResourcePolicy, h: seq<World>, u: World, f: seq<World>, v: World, g: seq<World>,
                  quarantine: Option<string>, epoch: nat, l: nat, c: string, e: Option<Evidence>)
    requires WaitedFor(policy, h, v, g, l, c, e) && WaitedFor(policy, h, u, f, l, c, e) && f <= g
    requires Reconciled(policy, u, v, quarantine, epoch)
    ensures !Shown(policy, g, |h|, |g|, c, e) ==>
              l in v.leases && v.leases[l].status == Unknown && quarantine.Some?
  {
    hide Shown, Reconciled;
    ShownLater(policy, f, g, |h|, |h|, |f|, |g|, c, e);
    if !Shown(policy, g, |h|, |g|, c, e) { OpenIsUnknown(policy, u, v, quarantine, epoch, l); }
  }

  lemma NotShownWaits(policy: ResourcePolicy, h: seq<World>, w: World, g: seq<World>, l: nat, c: string, e: Option<Evidence>)
    requires WaitedFor(policy, h, w, g, l, c, e)
    ensures !Shown(policy, g, |h|, |g|, c, e) ==> Waits(policy, w, l, c, e) && l in w.leases
  {
  }

  // A crash in a state in which a lease is wedged. Every admission that displaces anyone
  // passes through such a state, and so does every restart, from the moment one of its
  // takeovers is taken up until the lease is closed.
  method CrashWedged(host: Durable, k: nat, l: nat, script: seq<Act>) returns (broker: ResourceCoordinator)
    requires Safe(host.policy, host) && k < |host.history| && Wedged(host.policy, host.history[k], l)
    modifies host
    ensures broker.host == host && broker.Up() && broker.quarantine.Some?
    ensures Wedged(host.policy, host.W(), l) && host.leases[l].status == Unknown
  {
    hide Inv, SafeHistory, Wedged, PolicyOk, InEpoch;
    Crashed(host, k);
    broker := RestartForever(host, l, script);
  }

  // Such a crash is within reach of the first admission on any host: the lease is opened,
  // the first displacement journaled, and the broker restarted.
  method FirstAdmissionWedges(policy: ResourcePolicy, plants: map<string, Plant>, tape: seq<Input>, plan: Plan, script: seq<Act>)
    returns (host: Durable, broker: ResourceCoordinator, l: nat)
    requires PolicyOk(policy) && NeverCommanded(policy, plants) && ControllersFor(policy, plan) != []
    ensures broker.host == host && host.policy == policy && broker.Up() && broker.quarantine.Some?
    ensures Wedged(policy, host.W(), l) && host.leases[l].status == Unknown
  {
    hide Inv, SafeHistory, Wedged, PolicyOk, InEpoch, Reconciled, Endures, Proceeds;
    host := new Durable(policy, plants, tape);
    StartsSafe(policy, plants);
    ghost var w := host.W();
    broker := Restart(host);
    NoLeases(policy, w, host.W(), broker.quarantine, broker.epoch);
    l := JournalFirst(broker, plan);
    HistoryEnds(policy, host.history, host.W());
    broker := CrashWedged(host, |host.history| - 1, l, script);
  }

  lemma HistoryEnds(policy: ResourcePolicy, h: seq<World>, w: World)
    requires SafeHistory(policy, h, w)
    ensures h != [] && h[|h| - 1] == w
  {
  }

  method JournalFirst(broker: ResourceCoordinator, plan: Plan) returns (l: nat)
    requires broker.Up() && AllClosed(broker.host.W()) && broker.host.flights == {}
    requires ControllersFor(broker.policy, plan) != []
    modifies broker.host
    ensures broker.Up() && Wedged(broker.policy, broker.host.W(), l)
  {
    hide SafeHistory, Wedged, InEpoch, ControllersFor, Unheard, PolicyOk;
    l := broker.Open(plan);
    var k := ControllersFor(broker.policy, plan)[0];
    FirstChosen(broker.policy, broker.host.W(), plan, l);
    hide Inv, ChosenFor, Onward;
    var mutation, journal := broker.Journal(l, k, 1, []);
  }

  lemma NoLeases(policy: ResourcePolicy, w: World, v: World, quarantine: Option<string>, epoch: nat)
    requires Inv(policy, v) && Reconciled(policy, w, v, quarantine, epoch) && w.leases == map[]
    ensures AllClosed(v) && v.flights == {}
  {
    FlightsHaveLeases(policy, v);
  }

  lemma FlightsHaveLeases(policy: ResourcePolicy, w: World)
    requires Inv(policy, w)
    ensures forall f | f in w.flights :: f.command.lease in w.leases
  {
    forall f | f in w.flights ensures f.command.lease in w.leases {
      assert Deliverable(policy, w, f);
    }
  }

  lemma FirstChosen(policy: ResourcePolicy, w: World, plan: Plan, l: nat)
    requires Inv(policy, w) && w.flights == {} && l in w.leases && ControllersFor(policy, plan) != []
    requires w.leases[l].service == plan.service && w.leases[l].profile == plan.profile
    ensures var k := ControllersFor(policy, plan)[0];
      && k in policy.controllers && k.id in w.plants && ChosenFor(k, w.leases[l])
      && Quiet(w, k.id, Epoch(w.plants[k.id]))
  {
    ControllersForElements(policy, plan);
    assert ControllersFor(policy, plan)[0] in ControllersFor(policy, plan);
  }
}
