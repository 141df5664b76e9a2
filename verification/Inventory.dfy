// The snapshot the probe publishes, the accounting behind it, and the coordinator's
// validation of what it receives.
module Inventory {
  import opened Wrappers
  import opened Ordering
  import opened Probe

  // The durable generation counter. A call that crashes before the file is replaced
  // returns nothing.
  class GenerationStore {
    var file: Option<nat>

    constructor ()
      ensures file.None?
    {
      file := None;
    }

    function Previous(): nat
      reads this
    {
      if file.Some? then file.value else 0
    }

    method Next(crashes: bool) returns (r: Option<nat>)
      modifies this
      ensures crashes ==> r.None? && file == old(file)
      ensures !crashes ==> r == Some(old(Previous()) + 1) && file == r
    {
      var generation := Previous() + 1;
      if crashes { return None; }
      file := Some(generation);
      return file;
    }

    // Every generation published is newer than all published before it.
    method Run(calls: seq<bool>) returns (published: seq<nat>)
      modifies this
      ensures forall i, j | 0 <= i < j < |published| :: published[i] < published[j]
      ensures forall g | g in published :: old(Previous()) < g <= Previous()
    {
      published := [];
      for i := 0 to |calls|
        invariant old(Previous()) <= Previous()
        invariant forall k | 0 <= k < |published| :: old(Previous()) < published[k] <= Previous()
        invariant forall k, m | 0 <= k < m < |published| :: published[k] < published[m]
      {
        var r := Next(calls[i]);
        if r.Some? { published := published + [r.value]; }
      }
    }
  }

  // -------------------------------------------------------------------- accounting

  function OwnerId(f: Findings, runtimes: seq<Runtime>, c: Consumer): Option<string>
  {
    match Owner(f, runtimes, c.pid)
    case None => None
    case Some(rt) => Some(rt.profile.id)
  }

  function Unbound(f: Findings, runtimes: seq<Runtime>, consumers: seq<Consumer>): (r: set<int>)
  {
    set c | c in consumers && Owner(f, runtimes, c.pid).None? :: c.pid
  }

  function ActiveProfiles(f: Findings, runtimes: seq<Runtime>, consumers: seq<Consumer>): set<string>
  {
    set c | c in consumers && Owner(f, runtimes, c.pid).Some? :: Owner(f, runtimes, c.pid).value.profile.id
  }

  function Plus(a: Option<int>, b: Option<int>): (r: Option<int>)
    ensures r.Some? <==> a.Some? && b.Some?
    ensures r.Some? ==> r.value - a.value == b.value
  {
    if a.Some? && b.Some? then Some(a.value + b.value) else None
  }

  // The bytes of the consumers bound to one profile, or to none; unknown if one of theirs is.
  function BytesOf(f: Findings, runtimes: seq<Runtime>, consumers: seq<Consumer>, owner: Option<string>): Option<int>
  {
    if consumers == [] then Some(0)
    else
      var n := |consumers| - 1;
      var before := BytesOf(f, runtimes, consumers[..n], owner);
      if OwnerId(f, runtimes, consumers[n]) == owner then Plus(before, consumers[n].memory) else before
  }

  function AllBytes(consumers: seq<Consumer>): Option<int>
  {
    if consumers == [] then Some(0)
    else Plus(AllBytes(consumers[..|consumers| - 1]), consumers[|consumers| - 1].memory)
  }

  function SumOf(f: Findings, runtimes: seq<Runtime>, consumers: seq<Consumer>, owners: seq<string>): Option<int>
  {
    if owners == [] then Some(0)
    else Plus(BytesOf(f, runtimes, consumers, Some(owners[0])), SumOf(f, runtimes, consumers, owners[1..]))
  }

  lemma {:induction false} SumNext(f: Findings, runtimes: seq<Runtime>, consumers: seq<Consumer>, owners: seq<string>)
    requires consumers != [] && consumers[|consumers| - 1].memory.Some? && Distinct(owners)
    ensures var n := |consumers| - 1;
      var c := consumers[n];
      SumOf(f, runtimes, consumers, owners)
      == if OwnerId(f, runtimes, c).Some? && OwnerId(f, runtimes, c).value in owners
         then Plus(SumOf(f, runtimes, consumers[..n], owners), c.memory)
         else SumOf(f, runtimes, consumers[..n], owners)
    decreases |owners|
  {
    if owners != [] {
      assert owners == [owners[0]] + owners[1..];
      SumNext(f, runtimes, consumers, owners[1..]);
    }
  }

  // Bytes per profile plus the bytes of unbound consumers are the attributed total, whenever
  // every consumer's figure is known.
  lemma {:induction false} BytesAreConserved(f: Findings, runtimes: seq<Runtime>, consumers: seq<Consumer>, owners: seq<string>)
    requires AllBytes(consumers).Some? && Distinct(owners)
    requires forall c | c in consumers && OwnerId(f, runtimes, c).Some? :: OwnerId(f, runtimes, c).value in owners
    ensures Plus(SumOf(f, runtimes, consumers, owners), BytesOf(f, runtimes, consumers, None)) == AllBytes(consumers)
    decreases |consumers|
  {
    if consumers == [] {
      SumOfNothing(f, runtimes, owners);
    } else {
      var n := |consumers| - 1;
      BytesAreConserved(f, runtimes, consumers[..n], owners);
      SumNext(f, runtimes, consumers, owners);
      assert consumers[n] in consumers;
    }
  }

  lemma {:induction false} SumOfNothing(f: Findings, runtimes: seq<Runtime>, owners: seq<string>)
    ensures SumOf(f, runtimes, [], owners) == Some(0)
  {
    if owners != [] { SumOfNothing(f, runtimes, owners[1..]); }
  }

  // -------------------------------------------------------------------- the snapshot

  // load_controller_state accepts the file, and so does the coordinator.
  predicate StateOk(legal: string -> bool, c: string, s: StateFile)
  {
    s.controller == c && s.epoch >= 1 && s.generation >= 1 && s.wellFormed && legal(s.mode) && s.healthy && s.boundary
  }

  predicate Loadable(legal: string -> bool, f: Findings, c: string)
  {
    c in f.states && StateOk(legal, c, f.states[c])
  }

  predicate CudaOk(cuda: (int, int))
  {
    0 <= cuda.0 <= cuda.1 && cuda.1 > 0
  }

  predicate RuntimeFine(f: Findings, profile: Profile)
  {
    var found := Inspected(f, profile);
    found.Ok? && (found.value.Some? ==> found.value.value.verified && found.value.value.healthy)
  }

  // _reported_gpu_memory_used: nothing if nothing is reported, refused if a figure is negative
  function ReportedMemory(lines: Option<seq<int>>): (r: Result<Option<int>>)
    ensures r.Ok? && r.value.Some? ==> lines.Some? && r.value.value == 1_048_576 * Sum(lines.value)
  {
    if lines.None? || lines.value == [] then Ok(None)
    else if exists i | 0 <= i < |lines.value| :: lines.value[i] < 0 then Err("gpu_inventory_unobservable")
    else Ok(Some(Sum(lines.value) * MIB))
  }

  function Sum(xs: seq<int>): int
  {
    if xs == [] then 0 else Sum(xs[..|xs| - 1]) + xs[|xs| - 1]
  }

  lemma {:induction false} SumOfParts(xs: seq<int>, ys: seq<int>, x: int)
    ensures Sum(xs + ys) == Sum(xs) + Sum(ys) && Sum([x]) == x
    decreases |ys|
  {
    assert [x][..0] == [];
    if ys == [] {
      assert xs + ys == xs;
    } else {
      var n := |ys| - 1;
      SumOfParts(xs, ys[..n], x);
      assert (xs + ys)[..|xs| + n] == xs + ys[..n] && (xs + ys)[|xs| + n] == ys[n];
    }
  }

  function Difference(a: int, b: int): int
  {
    if a < b then b - a else a - b
  }

  // What is reported beyond what is attributed, and whether the two agree within 64 MiB.
  function Reconcile(reported: Option<int>, attributed: Option<int>): (r: GpuMemory)
    ensures r.reported == reported && r.attributed == attributed && r.tolerance == 67_108_864
    ensures r.reconciled <==>
      reported.Some? && attributed.Some? && attributed.value - r.tolerance <= reported.value <= attributed.value + r.tolerance
    ensures if reported.Some? && attributed.Some? then r.residual.Some? && attributed.value + r.residual.value == reported.value
            else r.residual.None?
  {
    var residual := if reported.Some? && attributed.Some? then Some(reported.value - attributed.value) else None;
    GpuMemory(reported, attributed, residual,
              reported.Some? && attributed.Some? && Difference(reported.value, attributed.value) <= TOLERANCE, TOLERANCE)
  }

  ghost predicate ProbePolicyOk(legal: string -> bool, policy: ProbePolicy)
  {
    && legal(policy.owner)
    && (forall p | p in policy.profiles :: legal(p.id) && |p.place| <= 248)
    && (forall i, j | 0 <= i < j < |policy.profiles| :: policy.profiles[i].id != policy.profiles[j].id)
    && (forall c | c in policy.controllers :: legal(c))
  }

  // The entry of an active profile is that of its one runtime.
  ghost predicate EntryOf(f: Findings, policy: ProbePolicy, consumers: seq<Consumer>, id: string, e: Entry)
  {
    var runtimes := Runtimes(f, policy.profiles);
    exists rt :: rt in runtimes && rt.profile.id == id && rt.verified
      && e == Entry(rt.healthy, true, rt.identity, policy.owner, BytesOf(f, runtimes, consumers, Some(id)))
  }

  class ResourceInventory {
    const policy: ProbePolicy
    const legal: string -> bool
    const generations: GenerationStore

    constructor (policy: ProbePolicy, legal: string -> bool, generations: GenerationStore)
      ensures this.policy == policy && this.legal == legal && this.generations == generations
    {
      this.policy, this.legal, this.generations := policy, legal, generations;
    }

    method InspectAll(f: Findings) returns (runtimes: seq<Runtime>, errors: set<ProbeError>)
      ensures runtimes == Runtimes(f, policy.profiles) && AllInspected(f, policy, runtimes, errors)
    {
      hide Inspected, Runtimes;
      runtimes, errors := [], {};
      NoRuntimes(f);
      assert policy.profiles[..0] == [];
      for i := 0 to |policy.profiles|
        invariant runtimes == Runtimes(f, policy.profiles[..i])
        invariant errors == {} <==> forall j | 0 <= j < i :: RuntimeFine(f, policy.profiles[j])
      {
        var profile := policy.profiles[i];
        RuntimesNext(f, policy.profiles, i);
        var found := Inspected(f, profile);
        if found.Err? {
          errors := errors + {RuntimeUnobservable(profile.id)};
          assert RuntimeUnobservable(profile.id) in errors;
          continue;
        }
        if found.value.Some? {
          var rt := found.value.value;
          runtimes := runtimes + [rt];
          if !rt.verified {
            errors := errors + {IdentityMismatch(profile.id)};
            assert IdentityMismatch(profile.id) in errors;
          } else if !rt.healthy {
            errors := errors + {RuntimeUnhealthy(profile.id)};
            assert RuntimeUnhealthy(profile.id) in errors;
          }
        }
      }
      assert policy.profiles[..|policy.profiles|] == policy.profiles;
    }

    method LoadStates(f: Findings) returns (states: map<string, StateFile>, errors: set<ProbeError>)
      ensures StatesLoaded(legal, f, policy, states, errors)
    {
      states, errors := map[], {};
      for i := 0 to |policy.controllers|
        invariant forall c :: c in states <==> c in policy.controllers[..i] && Loadable(legal, f, c)
        invariant forall c | c in states :: c in f.states && states[c] == f.states[c]
        invariant errors == {} <==> forall c | c in policy.controllers[..i] :: Loadable(legal, f, c)
      {
        var c := policy.controllers[i];
        assert policy.controllers[..i + 1] == policy.controllers[..i] + [c];
        if Loadable(legal, f, c) {
          states := states[c := f.states[c]];
        } else {
          errors := errors + {ControllerUnobservable(c)};
          assert ControllerUnobservable(c) in errors;
        }
      }
      assert policy.controllers[..|policy.controllers|] == policy.controllers;
    }

    // The attribution loop: an entry and a running total per profile, and the rest unknown.
    method Attribute(f: Findings, runtimes: seq<Runtime>, consumers: seq<Consumer>)
      returns (profiles: map<string, Entry>, unbound: set<int>, errors: set<ProbeError>)
      requires runtimes == Runtimes(f, policy.profiles)
      requires ProbePolicyOk(legal, policy)
      ensures Attributed(f, policy, consumers, profiles, unbound, errors)
    {
      hide Runtimes, Owner, EntryOf, ActiveProfiles, Unbound, BytesOf;
      profiles, unbound, errors := map[], {}, {};
      NoneAttributed(f, runtimes);
      ProfilesDistinct(legal, policy);
      for i := 0 to |consumers|
        invariant unbound == Unbound(f, runtimes, consumers[..i]) && (errors == {} <==> unbound == {})
        invariant profiles.Keys == ActiveProfiles(f, runtimes, consumers[..i])
        invariant forall id | id in profiles :: EntryOf(f, policy, consumers[..i], id, profiles[id])
        invariant forall id | id !in profiles :: BytesOf(f, runtimes, consumers[..i], Some(id)) == Some(0)
      {
        var c := consumers[i];
        assert consumers[..i + 1] == consumers[..i] + [c];
        var owner := Owner(f, runtimes, c.pid);
        EntriesNext(f, policy, consumers[..i], c, profiles);
        if owner.None? {
          unbound := unbound + {c.pid};
          errors := errors + {ConsumerUnbound(c.pid)};
          assert ConsumerUnbound(c.pid) in errors && c.pid in unbound;
        } else {
          var id := owner.value.profile.id;
          var current := if id in profiles then profiles[id].memory else Some(0);
          profiles := profiles[id := Entry(owner.value.healthy, true, owner.value.identity, policy.owner, Plus(current, c.memory))];
        }
        AttributedNext(f, runtimes, consumers[..i], c);
      }
      assert consumers[..|consumers|] == consumers;
    }

    // What the inventories show: nothing, and a failure, if either cannot be read.
    method Consumers(f: Findings) returns (consumers: seq<Consumer>, reported: Option<int>, failed: bool)
      ensures Enumerated(f, consumers, reported, failed)
    {
      var rows := GpuProcesses(f.compute, f.pmon);
      if rows.Err? { return [], None, true; }
      FiguresAreSizes(f.compute.value, f.pmon.value);
      var figure := ReportedMemory(f.reported);
      if figure.Err? { return rows.value, None, true; }
      if f.reported.Some? && f.reported.value != [] { SumIsSize(f.reported.value); }
      return rows.value, figure.value, false;
    }

    // snapshot. It is healthy exactly when everything could be observed, every runtime is what
    // its profile expects and runs, every process of either inventory is in exactly one of
    // them, and the figures agree; and then every process is bound to a verified runtime.
    method Snapshot(f: Findings, crashes: bool) returns (r: Option<Report>, ghost consumers: seq<Consumer>)
      requires ProbePolicyOk(legal, policy)
      modifies generations
      ensures r.None? <==> crashes
      ensures r.Some? ==> r.value.generation == old(generations.Previous()) + 1 && generations.file == Some(r.value.generation)
      ensures r.Some? ==> Consolidated(f, consumers)
      ensures r.Some? ==> (r.value.healthy <==> AllIsWell(legal, policy, f, consumers))
      ensures r.Some? && r.value.healthy ==> r.value.unknown == 0 && AllBound(f, policy)
      ensures r.Some? ==> ShowsImpostors(f, policy, r.value)
      ensures r.Some? ==> Accounted(f, policy, consumers, r.value)
      ensures r.Some? ==> Publishes(legal, f, policy, consumers, r.value) && Acceptable(legal, r.value)
    {
      hide *;
      consumers := [];
      var generation := generations.Next(crashes);
      if generation.None? { return None, consumers; }
      var metrics: set<ProbeError> := if f.metrics then {} else {MetricsUnobservable};
      var cuda, envelope := Envelope(f);
      var runtimes, inspected := InspectAll(f);
      var states, loaded := LoadStates(f);
      var rows, reported, failed := Consumers(f);
      consumers := rows;
      var profiles, unbound, attributed := Attribute(f, runtimes, rows);
      var total := TotalBytes(rows);
      var memory := Reconcile(reported, total);
      var unknown := |unbound| + (if failed then 1 else 0) + (if reported.Some? && !memory.reconciled then 1 else 0);
      var unreconciled: set<ProbeError> :=
        if !(reported.Some? && !memory.reconciled) then {}
        else if total.None? then {AttributionIncomplete} else {ResidualUnattributed};
      var missing: set<ProbeError> := if failed then {InventoryUnobservable} else {};
      var errors := metrics + envelope + inspected + loaded + missing + attributed + unreconciled;
      var active := SortedKeys(profiles);
      var healthy := errors == {} && forall id | id in profiles :: profiles[id].healthy;
      var report := Report(healthy, generation.value, unknown, active, profiles, states, memory, cuda, errors);
      Concludes(legal, policy, f, rows, report, reported, failed, unbound,
                metrics, envelope, inspected, loaded, missing, attributed, unreconciled, runtimes);
      HealthyExactly(legal, policy, f, rows);
      ImpostorsAreShown(legal, policy, f, rows, report);
      return Some(report), consumers;
    }

    // The CUDA envelope, if the policy asks for it.
    method Envelope(f: Findings) returns (cuda: Option<(int, int)>, errors: set<ProbeError>)
      ensures EnvelopeRead(f, policy, cuda, errors)
    {
      cuda, errors := None, {};
      if policy.cuda {
        if f.cuda.Some? && CudaOk(f.cuda.value) {
          cuda := f.cuda;
        } else {
          errors := {CudaUnobservable};
          assert CudaUnobservable in errors;
        }
      }
    }

    method TotalBytes(consumers: seq<Consumer>) returns (total: Option<int>)
      ensures total == AllBytes(consumers)
    {
      total := Some(0);
      for i := 0 to |consumers|
        invariant total == AllBytes(consumers[..i])
      {
        assert consumers[..i + 1][..i] == consumers[..i];
        total := Plus(total, consumers[i].memory);
      }
      assert consumers[..|consumers|] == consumers;
    }

    method SortedKeys(profiles: map<string, Entry>) returns (r: seq<string>)
      ensures KeysSorted(profiles, r)
    {
      r := [];
      var left := profiles.Keys;
      while left != {}
        invariant left <= profiles.Keys && Distinct(r)
        invariant forall id :: id in r <==> id in profiles && id !in left
        decreases |left|
      {
        var id :| id in left;
        r := r + [id];
        left := left - {id};
      }
      StringsAreLinear(r);
      SortIncreasing(StringLess, r);
      SortElements(StringLess, r);
      r := Sort(StringLess, r);
    }
  }

  lemma NoRuntimes(f: Findings)
    ensures Runtimes(f, []) == []
  {
  }

  lemma RuntimesNext(f: Findings, profiles: seq<Profile>, i: nat)
    requires i < |profiles|
    ensures Runtimes(f, profiles[..i + 1])
            == match Inspected(f, profiles[i])
               case Ok(Some(rt)) => Runtimes(f, profiles[..i]) + [rt]
               case _ => Runtimes(f, profiles[..i])
  {
    hide Inspected;
    assert profiles[..i + 1][..i] == profiles[..i] && profiles[..i + 1][i] == profiles[i];
  }

  // What each part of the snapshot establishes.

  ghost predicate AllInspected(f: Findings, policy: ProbePolicy, runtimes: seq<Runtime>, errors: set<ProbeError>)
  {
    runtimes == Runtimes(f, policy.profiles) && (errors == {} <==> forall p | p in policy.profiles :: RuntimeFine(f, p))
  }

  ghost predicate StatesLoaded(legal: string -> bool, f: Findings, policy: ProbePolicy, states: map<string, StateFile>, errors: set<ProbeError>)
  {
    && (forall c :: c in states <==> c in policy.controllers && Loadable(legal, f, c))
    && (forall c | c in states :: c in f.states && states[c] == f.states[c])
    && (errors == {} <==> forall c | c in policy.controllers :: Loadable(legal, f, c))
  }

  ghost predicate Attributed(f: Findings, policy: ProbePolicy, consumers: seq<Consumer>, profiles: map<string, Entry>,
                             unbound: set<int>, errors: set<ProbeError>)
  {
    && unbound == Unbound(f, Runtimes(f, policy.profiles), consumers)
    && (errors == {} <==> unbound == {})
    && profiles.Keys == ActiveProfiles(f, Runtimes(f, policy.profiles), consumers)
    && (forall id | id in profiles :: EntryOf(f, policy, consumers, id, profiles[id]))
  }

  ghost predicate Enumerated(f: Findings, consumers: seq<Consumer>, reported: Option<int>, failed: bool)
  {
    && (failed <==> !Enumerable(f))
    && (!failed ==> f.compute.Some? && f.pmon.Some? && ReportedMemory(f.reported) == Ok(reported))
    && Consolidated(f, consumers)
    && (reported.Some? ==> reported.value >= 0)
    && (forall c | c in consumers && c.memory.Some? :: c.memory.value >= 0)
  }

  ghost predicate EnvelopeRead(f: Findings, policy: ProbePolicy, cuda: Option<(int, int)>, errors: set<ProbeError>)
  {
    && (errors == {} <==> (policy.cuda ==> f.cuda.Some? && CudaOk(f.cuda.value)))
    && (cuda.Some? ==> CudaOk(cuda.value))
  }

  ghost predicate KeysSorted(profiles: map<string, Entry>, ids: seq<string>)
  {
    Increasing(StringLess, ids) && forall id :: id in ids <==> id in profiles
  }

  // What the report says: each active profile by its one runtime, the controller states as
  // they are, one unknown consumer for each unbound process, for an inventory that cannot
  // be read, and for figures that do not reconcile.
  ghost predicate Publishes(legal: string -> bool, f: Findings, policy: ProbePolicy, consumers: seq<Consumer>, r: Report)
  {
    && KeysSorted(r.profiles, r.active)
    && r.profiles.Keys == ActiveProfiles(f, Runtimes(f, policy.profiles), consumers)
    && (forall id | id in r.profiles :: EntryOf(f, policy, consumers, id, r.profiles[id]))
    && (forall c :: c in r.states <==> c in policy.controllers && Loadable(legal, f, c))
    && (forall c | c in r.states :: c in f.states && r.states[c] == f.states[c])
    && r.memory == Reconcile(r.memory.reported, AllBytes(consumers))
    && (Enumerable(f) ==> ReportedMemory(f.reported) == Ok(r.memory.reported))
    && r.unknown == |Unbound(f, Runtimes(f, policy.profiles), consumers)|
                    + (if Enumerable(f) then 0 else 1)
                    + (if r.memory.reported.Some? && !r.memory.reconciled then 1 else 0)
  }

  lemma Concludes(legal: string -> bool, policy: ProbePolicy, f: Findings, consumers: seq<Consumer>, r: Report,
                  reported: Option<int>, failed: bool, unbound: set<int>,
                  metrics: set<ProbeError>, envelope: set<ProbeError>, inspected: set<ProbeError>, loaded: set<ProbeError>,
                  missing: set<ProbeError>, attributed: set<ProbeError>, unreconciled: set<ProbeError>, runtimes: seq<Runtime>)
    requires ProbePolicyOk(legal, policy)
    requires (metrics == {} <==> f.metrics) && EnvelopeRead(f, policy, r.cuda, envelope)
    requires AllInspected(f, policy, runtimes, inspected) && StatesLoaded(legal, f, policy, r.states, loaded)
    requires Enumerated(f, consumers, reported, failed) && (missing == {} <==> !failed)
    requires Attributed(f, policy, consumers, r.profiles, unbound, attributed)
    requires KeysSorted(r.profiles, r.active)
    requires r.memory == Reconcile(reported, AllBytes(consumers))
    requires unreconciled == {} <==> !(reported.Some? && !r.memory.reconciled)
    requires r.unknown == |unbound| + (if failed then 1 else 0) + (if reported.Some? && !r.memory.reconciled then 1 else 0)
    requires r.errors == metrics + envelope + inspected + loaded + missing + attributed + unreconciled
    requires r.healthy <==> r.errors == {} && forall id | id in r.profiles :: r.profiles[id].healthy
    ensures r.healthy <==> Clean(legal, policy, f, consumers)
    ensures r.healthy ==> r.unknown == 0 && AllBound(f, policy)
    ensures Accounted(f, policy, consumers, r) && Acceptable(legal, r)
    ensures Publishes(legal, f, policy, consumers, r) && Consolidated(f, consumers)
  {
    hide Consolidated, Runtimes, Owner, Unbound, ActiveProfiles, EntryOf, AllBytes, Clean, AllBound, Accounted, Acceptable, Reconcile;
    hide RuntimeFine, Loadable, Listed, Figure, Increasing, ReportedMemory, Enumerable, ProbePolicyOk;
    ReconcileKeeps(reported, AllBytes(consumers));
    NoErrors(metrics, envelope, inspected, loaded, missing, attributed, unreconciled);
    IsHealthyWhenClean(legal, policy, f, consumers, r, reported, failed, unbound, AllBytes(consumers), metrics + envelope, unreconciled);
    IsAccounted(f, policy, consumers, r, reported);
    IsAcceptable(legal, policy, f, consumers, r, reported, AllBytes(consumers));
  }

  // Both inventories can be read.
  ghost predicate Readable(f: Findings)
  {
    && f.compute.Some? && f.pmon.Some?
    && (forall l | l in f.compute.value :: !BadLine(l)) && (forall l | l in f.pmon.value :: !BadLine(l))
  }

  // So can the reported figure.
  ghost predicate Enumerable(f: Findings)
  {
    Readable(f) && ReportedMemory(f.reported).Ok?
  }

  // One consumer for each process that either inventory lists, in increasing order, with
  // its figure; none if an inventory cannot be read.
  ghost predicate Consolidated(f: Findings, consumers: seq<Consumer>)
  {
    if !Readable(f) then consumers == []
    else
      && Increasing(BY_PID, consumers)
      && forall c :: c in consumers <==>
           && (Listed(f.compute.value, c.pid) || Listed(f.pmon.value, c.pid))
           && c.memory == Figure(f.compute.value, f.pmon.value, c.pid)
  }

  ghost predicate Clean(legal: string -> bool, policy: ProbePolicy, f: Findings, consumers: seq<Consumer>)
  {
    && f.metrics
    && (policy.cuda ==> f.cuda.Some? && CudaOk(f.cuda.value))
    && (forall p | p in policy.profiles :: RuntimeFine(f, p))
    && (forall c | c in policy.controllers :: Loadable(legal, f, c))
    && Enumerable(f)
    && Unbound(f, Runtimes(f, policy.profiles), consumers) == {}
    && (ReportedMemory(f.reported).value.Some? ==> Reconcile(ReportedMemory(f.reported).value, AllBytes(consumers)).reconciled)
  }

  // Every process of either inventory is bound to exactly one verified runtime.
  ghost predicate AllBound(f: Findings, policy: ProbePolicy)
  {
    && f.compute.Some? && f.pmon.Some?
    && forall pid | Listed(f.compute.value, pid) || Listed(f.pmon.value, pid) ::
         exists rt :: BoundTo(f, Runtimes(f, policy.profiles), pid, rt)
  }

  function SumEntries(profiles: map<string, Entry>, ids: seq<string>): Option<int>
    requires forall id | id in ids :: id in profiles
  {
    if ids == [] then Some(0) else Plus(profiles[ids[0]].memory, SumEntries(profiles, ids[1..]))
  }

  // The published figures add up: bytes per profile and of unbound processes to the
  // attributed total, if that is known.
  ghost predicate Accounted(f: Findings, policy: ProbePolicy, consumers: seq<Consumer>, r: Report)
  {
    && (forall id | id in r.active :: id in r.profiles)
    && (r.memory.attributed.Some? ==>
          Plus(SumEntries(r.profiles, r.active), BytesOf(f, Runtimes(f, policy.profiles), consumers, None)) == r.memory.attributed)
  }

  lemma NoneAttributed(f: Findings, runtimes: seq<Runtime>)
    ensures Unbound(f, runtimes, []) == {} && ActiveProfiles(f, runtimes, []) == {}
    ensures forall owner :: BytesOf(f, runtimes, [], owner) == Some(0)
  {
  }

  lemma ProfilesDistinct(legal: string -> bool, policy: ProbePolicy)
    requires ProbePolicyOk(legal, policy)
    ensures forall i, j | 0 <= i < j < |policy.profiles| :: policy.profiles[i].id != policy.profiles[j].id
  {
  }

  lemma AttributedNext(f: Findings, runtimes: seq<Runtime>, consumers: seq<Consumer>, c: Consumer)
    ensures Unbound(f, runtimes, consumers + [c])
            == Unbound(f, runtimes, consumers) + (if Owner(f, runtimes, c.pid).None? then {c.pid} else {})
    ensures ActiveProfiles(f, runtimes, consumers + [c])
            == ActiveProfiles(f, runtimes, consumers)
               + (if Owner(f, runtimes, c.pid).Some? then {Owner(f, runtimes, c.pid).value.profile.id} else {})
  {
    hide Owner;
    var more := consumers + [c];
    assert forall d :: d in more <==> d in consumers || d == c;
  }

  // One more consumer leaves the entries of other profiles alone and adds to its owner's.
  lemma EntriesNext(f: Findings, policy: ProbePolicy, consumers: seq<Consumer>, c: Consumer, profiles: map<string, Entry>)
    requires forall i, j | 0 <= i < j < |policy.profiles| :: policy.profiles[i].id != policy.profiles[j].id
    requires forall id | id in profiles :: EntryOf(f, policy, consumers, id, profiles[id])
    requires forall id | id !in profiles :: BytesOf(f, Runtimes(f, policy.profiles), consumers, Some(id)) == Some(0)
    ensures var runtimes := Runtimes(f, policy.profiles);
      match Owner(f, runtimes, c.pid)
      case None =>
        && (forall id | id in profiles :: EntryOf(f, policy, consumers + [c], id, profiles[id]))
        && (forall id | id !in profiles :: BytesOf(f, runtimes, consumers + [c], Some(id)) == Some(0))
      case Some(rt) =>
        var id := rt.profile.id;
        var current := if id in profiles then profiles[id].memory else Some(0);
        && (forall other | other in profiles && other != id :: EntryOf(f, policy, consumers + [c], other, profiles[other]))
        && (forall other | other !in profiles && other != id :: BytesOf(f, runtimes, consumers + [c], Some(other)) == Some(0))
        && EntryOf(f, policy, consumers + [c], id, Entry(rt.healthy, true, rt.identity, policy.owner, Plus(current, c.memory)))
  {
    hide Runtimes;
    var runtimes := Runtimes(f, policy.profiles);
    var more := consumers + [c];
    assert more[..|consumers|] == consumers && more[|consumers|] == c;
    if Owner(f, runtimes, c.pid).Some? {
      OwnerIsBound(f, runtimes, c.pid, Owner(f, runtimes, c.pid).value);
    }
  }

  lemma {:induction false} SumIsSize(xs: seq<int>)
    requires forall i | 0 <= i < |xs| :: xs[i] >= 0
    ensures Sum(xs) >= 0
  {
    if xs != [] { SumIsSize(xs[..|xs| - 1]); }
  }

  lemma {:induction false} FigureIsSize(lines: seq<Line>, pid: int)
    requires forall l | l in lines :: !BadLine(l)
    ensures ComputeFigure(lines, pid).Some? ==> ComputeFigure(lines, pid).value >= 0
    ensures MonitorFigure(lines, pid).Some? ==> MonitorFigure(lines, pid).value >= 0
  {
    if lines != [] {
      FigureIsSize(lines[..|lines| - 1], pid);
      assert lines[|lines| - 1] in lines;
    }
  }

  lemma FiguresAreSizes(compute: seq<Line>, pmon: seq<Line>)
    requires (forall l | l in compute :: !BadLine(l)) && (forall l | l in pmon :: !BadLine(l))
    ensures forall pid | Figure(compute, pmon, pid).Some? :: Figure(compute, pmon, pid).value >= 0
  {
    forall pid | Figure(compute, pmon, pid).Some? ensures Figure(compute, pmon, pid).value >= 0 {
      FigureIsSize(compute, pid);
      FigureIsSize(pmon, pid);
    }
  }

  lemma ReconcileKeeps(reported: Option<int>, attributed: Option<int>)
    ensures Reconcile(reported, attributed).reported == reported
  {
  }

  lemma NoErrors(a: set<ProbeError>, b: set<ProbeError>, c: set<ProbeError>, d: set<ProbeError>, e: set<ProbeError>,
                 g: set<ProbeError>, h: set<ProbeError>)
    ensures a + b + c + d + e + g + h == {} <==> a == {} && b == {} && c == {} && d == {} && e == {} && g == {} && h == {}
    ensures a + b == {} <==> a == {} && b == {}
  {
    var all := a + b + c + d + e + g + h;
    assert a <= all && b <= all && c <= all && d <= all && e <= all && g <= all && h <= all;
    assert a <= a + b && b <= a + b;
  }

  lemma IsHealthyWhenClean(legal: string -> bool, policy: ProbePolicy, f: Findings, consumers: seq<Consumer>, r: Report,
                           reported: Option<int>, failed: bool, unbound: set<int>, total: Option<int>,
                           first: set<ProbeError>, last: set<ProbeError>)
    requires first == {} <==> f.metrics && (policy.cuda ==> f.cuda.Some? && CudaOk(f.cuda.value))
    requires last == {} <==> !(reported.Some? && !r.memory.reconciled)
    requires r.errors == {} <==>
      && first == {} && (forall p | p in policy.profiles :: RuntimeFine(f, p))
      && (forall c | c in policy.controllers :: Loadable(legal, f, c))
      && !failed && unbound == {} && last == {}
    requires r.healthy <==> r.errors == {} && forall id | id in r.profiles :: r.profiles[id].healthy
    requires r.memory == Reconcile(reported, total) && total == AllBytes(consumers)
    requires r.unknown == |unbound| + (if failed then 1 else 0) + (if reported.Some? && !r.memory.reconciled then 1 else 0)
    requires unbound == Unbound(f, Runtimes(f, policy.profiles), consumers)
    requires forall id | id in r.profiles :: EntryOf(f, policy, consumers, id, r.profiles[id])
    requires failed <==> !Enumerable(f)
    requires !failed ==> ReportedMemory(f.reported) == Ok(reported)
    requires !failed ==> f.compute.Some? && f.pmon.Some?
    requires Consolidated(f, consumers)
    ensures r.healthy <==> Clean(legal, policy, f, consumers)
    ensures r.healthy ==> r.unknown == 0 && AllBound(f, policy)
  {
    hide *;
    if failed {
      NotClean(legal, policy, f, consumers);
    } else {
      CleanWhen(legal, policy, f, consumers, reported, unbound);
      if Clean(legal, policy, f, consumers) {
        EntriesHealthy(f, policy, consumers, r.profiles);
        EveryoneBound(legal, policy, f, consumers);
      }
    }
  }

  lemma CleanWhen(legal: string -> bool, policy: ProbePolicy, f: Findings, consumers: seq<Consumer>, reported: Option<int>, unbound: set<int>)
    requires Enumerable(f) && ReportedMemory(f.reported) == Ok(reported)
    requires unbound == Unbound(f, Runtimes(f, policy.profiles), consumers)
    ensures Clean(legal, policy, f, consumers) <==>
      && f.metrics && (policy.cuda ==> f.cuda.Some? && CudaOk(f.cuda.value))
      && (forall p | p in policy.profiles :: RuntimeFine(f, p))
      && (forall c | c in policy.controllers :: Loadable(legal, f, c))
      && unbound == {} && (reported.Some? ==> Reconcile(reported, AllBytes(consumers)).reconciled)
  {
    hide Enumerable, ReportedMemory, Unbound, AllBytes, RuntimeFine, Loadable;
  }

  lemma NotClean(legal: string -> bool, policy: ProbePolicy, f: Findings, consumers: seq<Consumer>)
    requires !Enumerable(f)
    ensures !Clean(legal, policy, f, consumers)
  {
    hide Enumerable;
  }

  lemma EntriesHealthy(f: Findings, policy: ProbePolicy, consumers: seq<Consumer>, profiles: map<string, Entry>)
    requires forall p | p in policy.profiles :: RuntimeFine(f, p)
    requires forall id | id in profiles :: EntryOf(f, policy, consumers, id, profiles[id])
    ensures forall id | id in profiles :: profiles[id].healthy
  {
  }

  lemma EveryoneBound(legal: string -> bool, policy: ProbePolicy, f: Findings, consumers: seq<Consumer>)
    requires Clean(legal, policy, f, consumers)
    requires f.compute.Some? && f.pmon.Some? && Consolidated(f, consumers)
    ensures AllBound(f, policy)
  {
    hide Listed, Figure, Owner, Runtimes;
    var runtimes := Runtimes(f, policy.profiles);
    forall pid | Listed(f.compute.value, pid) || Listed(f.pmon.value, pid) ensures exists rt :: BoundTo(f, runtimes, pid, rt) {
      var c := Consumer(pid, Figure(f.compute.value, f.pmon.value, pid));
      assert c in consumers && c.pid !in Unbound(f, runtimes, consumers);
      OwnerIsBound(f, runtimes, pid, Owner(f, runtimes, pid).value);
    }
  }

  lemma {:induction false} EntriesSum(f: Findings, policy: ProbePolicy, consumers: seq<Consumer>, profiles: map<string, Entry>, ids: seq<string>)
    requires forall id | id in ids :: id in profiles && EntryOf(f, policy, consumers, id, profiles[id])
    ensures SumEntries(profiles, ids) == SumOf(f, Runtimes(f, policy.profiles), consumers, ids)
  {
    if ids != [] {
      assert ids[0] in ids;
      EntriesSum(f, policy, consumers, profiles, ids[1..]);
    }
  }

  lemma IsAccounted(f: Findings, policy: ProbePolicy, consumers: seq<Consumer>, r: Report, reported: Option<int>)
    requires Increasing(StringLess, r.active) && forall id :: id in r.active <==> id in r.profiles
    requires r.profiles.Keys == ActiveProfiles(f, Runtimes(f, policy.profiles), consumers)
    requires forall id | id in r.profiles :: EntryOf(f, policy, consumers, id, r.profiles[id])
    requires r.memory == Reconcile(reported, AllBytes(consumers))
    ensures Accounted(f, policy, consumers, r)
  {
    hide Owner, EntryOf, Runtimes;
    if r.memory.attributed.Some? {
      var runtimes := Runtimes(f, policy.profiles);
      forall i, j | 0 <= i < j < |r.active| ensures r.active[i] != r.active[j] {
        StringLessIrreflexive(r.active[i]);
      }
      forall c | c in consumers && OwnerId(f, runtimes, c).Some? ensures OwnerId(f, runtimes, c).value in r.active {
        assert OwnerId(f, runtimes, c).value in ActiveProfiles(f, runtimes, consumers);
      }
      BytesAreConserved(f, runtimes, consumers, r.active);
      EntriesSum(f, policy, consumers, r.profiles, r.active);
    }
  }

  // ------------------------------------------------------- the coordinator's validation

  predicate OwnedRuntime(legal: string -> bool, e: Entry)
  {
    e.verified && 0 < |e.identity| <= 512 && legal(e.owner)
  }

  predicate GpuMemoryOk(m: GpuMemory, unknown: nat)
  {
    && (m.reported.Some? ==> m.reported.value >= 0) && (m.attributed.Some? ==> m.attributed.value >= 0) && m.tolerance >= 0
    && !(m.reported.Some? && !m.reconciled && unknown == 0)
  }

  // _combined_snapshot_serialized: the refusal of a received report, if any
  function RemoteRefusal(legal: string -> bool, s: Report, last: int): Option<string>
  {
    if !(forall id | id in s.active :: legal(id)) || !Distinct(s.active) then Some("resource_probe_invalid")
    else if !(forall id | id in s.profiles :: legal(id)) then Some("resource_probe_invalid")
    else if !(forall id | id in s.active :: id in s.profiles && OwnedRuntime(legal, s.profiles[id])) then
      Some("resource_probe_invalid")
    else if !(forall c | c in s.states :: legal(c) && StateOk(legal, c, s.states[c])) then Some("resource_probe_invalid")
    else if s.cuda.Some? && !CudaOk(s.cuda.value) then Some("resource_probe_invalid")
    else if !GpuMemoryOk(s.memory, s.unknown) then Some("resource_probe_invalid")
    else if s.generation < last then Some("resource_probe_regressed")
    else None
  }

  // Refused exactly if its generation is behind the last one accepted.
  ghost predicate Acceptable(legal: string -> bool, r: Report)
  {
    forall last :: RemoteRefusal(legal, r, last) == if r.generation < last then Some("resource_probe_regressed") else None
  }

  lemma IdentityIsShort(f: Findings, policy: ProbePolicy, rt: Runtime)
    requires rt in Runtimes(f, policy.profiles) && forall p | p in policy.profiles :: |p.place| <= 248
    ensures 0 < |rt.identity| <= 512
  {
    assert Inspected(f, rt.profile) == Ok(Some(rt));
  }

  // The probe never publishes what the coordinator would call invalid: the one way its
  // reports are refused is a generation behind one already accepted.
  lemma IsAcceptable(legal: string -> bool, policy: ProbePolicy, f: Findings, consumers: seq<Consumer>, r: Report,
                     reported: Option<int>, total: Option<int>)
    requires ProbePolicyOk(legal, policy)
    requires Increasing(StringLess, r.active) && forall id :: id in r.active <==> id in r.profiles
    requires forall id | id in r.profiles :: EntryOf(f, policy, consumers, id, r.profiles[id])
    requires forall c :: c in r.states <==> c in policy.controllers && Loadable(legal, f, c)
    requires forall c | c in r.states :: c in f.states && r.states[c] == f.states[c]
    requires r.cuda.Some? ==> CudaOk(r.cuda.value)
    requires r.memory == Reconcile(reported, total) && total == AllBytes(consumers)
    requires reported.Some? ==> reported.value >= 0
    requires forall c | c in consumers && c.memory.Some? :: c.memory.value >= 0
    requires reported.Some? && !r.memory.reconciled ==> r.unknown > 0
    ensures Acceptable(legal, r)
  {
    hide Runtimes;
    AllBytesIsSize(consumers);
    forall i, j | 0 <= i < j < |r.active| ensures r.active[i] != r.active[j] {
      StringLessIrreflexive(r.active[i]);
    }
    forall id | id in r.profiles ensures legal(id) && OwnedRuntime(legal, r.profiles[id]) {
      assert EntryOf(f, policy, consumers, id, r.profiles[id]);
      var rt :| rt in Runtimes(f, policy.profiles) && rt.profile.id == id && r.profiles[id].identity == rt.identity && r.profiles[id].verified;
      IdentityIsShort(f, policy, rt);
    }
  }

  lemma {:induction false} AllBytesIsSize(consumers: seq<Consumer>)
    requires forall c | c in consumers && c.memory.Some? :: c.memory.value >= 0
    ensures AllBytes(consumers).Some? ==> AllBytes(consumers).value >= 0
  {
    if consumers != [] {
      AllBytesIsSize(consumers[..|consumers| - 1]);
      assert consumers[|consumers| - 1] in consumers;
    }
  }

  // ------------------------------------------- what the findings themselves say of a process

  // `s` is the path without its trailing slashes.
  predicate Strips(path: string, s: string)
  {
    s <= path && (forall i | |s| <= i < |path| :: path[i] == '/') && (s != [] ==> s[|s| - 1] != '/')
  }

  // The path is the unit's cgroup or below it, trailing slashes aside.
  ghost predicate AtOrBelow(path: string, cgroup: string)
  {
    exists s, b | Strips(path, s) && Strips(cgroup, b) ::
      if b == [] then s == [] || s[0] == '/' else s == b || b + ['/'] <= s
  }

  predicate ImageDigest(s: string)
  {
    |s| == 71 && s[..7] == ['s', 'h', 'a', '2', '5', '6', ':']
  }

  // A container with a full id and a well-formed image digest, or a unit with an absolute
  // cgroup and a well-formed executable digest, as its profile's kind asks for.
  predicate Legible(p: Profile, found: Inspection)
  {
    match found
    case Container(id, image) => p.kind.Docker? && |id| == 64 && ImageDigest(image)
    case Unit(cgroup, executable, _) => p.kind.SystemdUser? && |cgroup| > 0 && cgroup[0] == '/' && ImageDigest(executable)
    case _ => false
  }

  // The process's cgroup file names the profile's container, by its full id or its first
  // twelve characters, or a path at or below the profile's unit.
  ghost predicate Inside(f: Findings, p: Profile, pid: int)
  {
    && pid in f.processes && f.processes[pid].cgroup.Some? && p.id in f.inspections && Legible(p, f.inspections[p.id])
    && match f.inspections[p.id]
       case Container(id, _) => id in f.processes[pid].cgroup.value.containers || id[..12] in f.processes[pid].cgroup.value.containers
       case Unit(cgroup, _, _) => exists i | 0 <= i < |f.processes[pid].cgroup.value.paths| ::
           AtOrBelow(f.processes[pid].cgroup.value.paths[i], cgroup)
       case _ => false
  }

  // What runs there is what the profile expects; for a unit, it runs, and so does the process.
  ghost predicate AsExpected(f: Findings, p: Profile, pid: int)
  {
    && Inside(f, p, pid)
    && match f.inspections[p.id]
       case Container(_, image) => image == p.expected
       case Unit(_, executable, running) => executable == p.expected && running && f.processes[pid].executable == Some(p.expected)
       case _ => false
  }

  // The runtime is another image or executable than the profile expects.
  predicate Foreign(f: Findings, p: Profile)
  {
    && p.id in f.inspections && Legible(p, f.inspections[p.id])
    && match f.inspections[p.id]
       case Container(_, image) => image != p.expected
       case Unit(_, executable, _) => executable != p.expected
       case _ => false
  }

  // Every process of either inventory is in exactly one profile's runtime, and that is the
  // one the profile expects.
  ghost predicate AllExpected(f: Findings, policy: ProbePolicy)
  {
    && f.compute.Some? && f.pmon.Some?
    && forall pid | Listed(f.compute.value, pid) || Listed(f.pmon.value, pid) ::
         exists i | 0 <= i < |policy.profiles| ::
           && AsExpected(f, policy.profiles[i], pid)
           && forall j | 0 <= j < |policy.profiles| && Inside(f, policy.profiles[j], pid) :: policy.profiles[j].id == policy.profiles[i].id
  }

  lemma {:induction false} WithoutSlashStrips(path: string)
    ensures Strips(path, WithoutSlash(path))
    decreases |path|
  {
    if path != [] && path[|path| - 1] == '/' { WithoutSlashStrips(path[..|path| - 1]); }
  }

  lemma StripsOnce(path: string, a: string, b: string)
    requires Strips(path, a) && Strips(path, b)
    ensures a == b
  {
  }

  lemma MatchIsAtOrBelow(path: string, cgroup: string)
    requires |cgroup| > 0 && cgroup[0] == '/'
    ensures
      var base := WithoutSlash(if WithoutSlash(cgroup) == "" then "/" else WithoutSlash(cgroup));
      (NormalPath(path) == base || base + "/" <= NormalPath(path)) <==> AtOrBelow(path, cgroup)
  {
    var s, b := WithoutSlash(path), WithoutSlash(cgroup);
    WithoutSlashStrips(path);
    WithoutSlashStrips(cgroup);
    assert "/"[..0] == "";
    forall t, c | Strips(path, t) && Strips(cgroup, c) ensures t == s && c == b {
      StripsOnce(path, s, t);
      StripsOnce(cgroup, b, c);
    }
    assert "/" == ['/'];
    assert b == "" ==> WithoutSlash("/") == "";
    assert b != "" ==> WithoutSlash(b) == b;
    assert s == "" || NormalPath(path) == s;
    if b == [] {
      assert ("" + "/" <= NormalPath(path)) <==> (s == [] || s[0] == '/');
    } else {
      assert s == [] ==> !(b + "/" <= NormalPath(path)) && NormalPath(path) != b;
    }
  }

  // A runtime the probe found is its profile's inspection.
  lemma RuntimeIsLegible(f: Findings, policy: ProbePolicy, p: Profile)
    requires p in policy.profiles
    ensures Inspected(f, p).Ok? && Inspected(f, p).value.Some? <==> p.id in f.inspections && Legible(p, f.inspections[p.id])
    ensures Inspected(f, p).Ok? && Inspected(f, p).value.Some? ==>
      var rt := Inspected(f, p).value.value;
      && rt.profile == p
      && (rt.verified <==> !Foreign(f, p))
      && (f.inspections[p.id].Unit? ==> (rt.healthy <==> rt.verified && f.inspections[p.id].running))
  {
    assert "sha256:" == ['s', 'h', 'a', '2', '5', '6', ':'];
  }

  lemma MatchIsInside(f: Findings, policy: ProbePolicy, p: Profile, pid: int)
    requires p in policy.profiles && pid in f.processes && f.processes[pid].cgroup.Some?
    ensures Inside(f, p, pid) <==>
      && Inspected(f, p).Ok? && Inspected(f, p).value.Some?
      && Matches(Inspected(f, p).value.value, f.processes[pid].cgroup.value)
  {
    RuntimeIsLegible(f, policy, p);
    hide Strips, WithoutSlash, AtOrBelow;
    if p.id in f.inspections && Legible(p, f.inspections[p.id]) {
      var cg := f.processes[pid].cgroup.value;
      match f.inspections[p.id]
      case Container(id, _) =>
        assert forall c | c in cg.containers :: (|c| == 12 && c <= id) <==> c == id[..12];
      case Unit(cgroup, _, _) =>
        assert "/" == ['/'];
        forall i | 0 <= i < |cg.paths|
          ensures AtOrBelow(cg.paths[i], cgroup) <==>
                    var base := WithoutSlash(if WithoutSlash(cgroup) == "" then "/" else WithoutSlash(cgroup));
                    NormalPath(cg.paths[i]) == base || base + "/" <= NormalPath(cg.paths[i])
        {
          MatchIsAtOrBelow(cg.paths[i], cgroup);
        }
        assert forall q :: q in cg.paths <==> exists i :: 0 <= i < |cg.paths| && cg.paths[i] == q;
      case _ =>
    }
  }

  lemma BoundIsExpected(f: Findings, policy: ProbePolicy, pid: int, rt: Runtime)
    requires BoundTo(f, Runtimes(f, policy.profiles), pid, rt) && RuntimeFine(f, rt.profile)
    ensures exists i | 0 <= i < |policy.profiles| ::
      && AsExpected(f, policy.profiles[i], pid)
      && forall j | 0 <= j < |policy.profiles| && Inside(f, policy.profiles[j], pid) :: policy.profiles[j].id == policy.profiles[i].id
  {
    hide Matches, Inside;
    var runtimes := Runtimes(f, policy.profiles);
    var m :| 0 <= m < |runtimes| && runtimes[m] == rt && forall n | 0 <= n < |runtimes| && Matches(runtimes[n], f.processes[pid].cgroup.value) :: n == m;
    assert rt in runtimes;
    var i :| 0 <= i < |policy.profiles| && policy.profiles[i] == rt.profile;
    RuntimeIsLegible(f, policy, rt.profile);
    MatchIsInside(f, policy, rt.profile, pid);
    forall j | 0 <= j < |policy.profiles| && Inside(f, policy.profiles[j], pid) ensures policy.profiles[j].id == policy.profiles[i].id {
      MatchIsInside(f, policy, policy.profiles[j], pid);
      var other := Inspected(f, policy.profiles[j]).value.value;
      RuntimeIsLegible(f, policy, policy.profiles[j]);
      assert other in runtimes;
      var n :| 0 <= n < |runtimes| && runtimes[n] == other;
    }
    ExpectedWhenVerified(f, rt.profile, pid);
  }

  lemma ExpectedWhenVerified(f: Findings, p: Profile, pid: int)
    requires Inside(f, p, pid) && !Foreign(f, p)
    requires f.inspections[p.id].Unit? ==> f.inspections[p.id].running && f.processes[pid].executable == Some(p.expected)
    ensures AsExpected(f, p, pid)
  {
  }

  lemma BoundIsOurs(f: Findings, policy: ProbePolicy, pid: int, rt: Runtime)
    requires BoundTo(f, Runtimes(f, policy.profiles), pid, rt)
    ensures rt.profile in policy.profiles
  {
    assert rt in Runtimes(f, policy.profiles);
  }

  // A process inside a profile's runtime that is not what the profile expects.
  ghost predicate Impostor(f: Findings, p: Profile, pid: int)
  {
    && Inside(f, p, pid)
    && (Foreign(f, p) || (f.inspections[p.id].Unit? && f.processes[pid].executable != Some(p.expected)))
  }

  lemma ImpostorIsUnbound(f: Findings, policy: ProbePolicy, p: Profile, pid: int)
    requires p in policy.profiles && Impostor(f, p, pid)
    ensures Owner(f, Runtimes(f, policy.profiles), pid).None?
  {
    hide Matches, Strips;
    var runtimes := Runtimes(f, policy.profiles);
    MatchIsInside(f, policy, p, pid);
    RuntimeIsLegible(f, policy, p);
    var rt := Inspected(f, p).value.value;
    assert rt in runtimes;
    var matches := Matching(runtimes, f.processes[pid].cgroup.value);
    assert rt in matches;
    assert |matches| == 1 ==> matches[0] == rt;
    assert rt.profile.kind.SystemdUser? <==> f.inspections[p.id].Unit?;
  }

  // What a report makes of impostors: each listed one is an unknown consumer; and a runtime
  // that is not what its profile expects makes the report degraded.
  ghost predicate ShowsImpostors(f: Findings, policy: ProbePolicy, r: Report)
  {
    forall p | p in policy.profiles ::
      && (Foreign(f, p) ==> !r.healthy)
      && forall pid | Impostor(f, p, pid) && Readable(f) && (Listed(f.compute.value, pid) || Listed(f.pmon.value, pid)) :: r.unknown > 0
  }

  lemma ImpostorsAreShown(legal: string -> bool, policy: ProbePolicy, f: Findings, consumers: seq<Consumer>, r: Report)
    requires Consolidated(f, consumers) && Publishes(legal, f, policy, consumers, r)
    requires r.healthy <==> Clean(legal, policy, f, consumers)
    ensures ShowsImpostors(f, policy, r)
  {
    hide Impostor, Foreign, Listed, Figure, Owner, Runtimes, EntryOf, AllBytes, Reconcile, Inspected, ReportedMemory;
    forall p | p in policy.profiles && Foreign(f, p) ensures !r.healthy {
      ForeignIsNotFine(f, policy, p);
    }
    forall p, pid | p in policy.profiles && Impostor(f, p, pid) && Readable(f) && (Listed(f.compute.value, pid) || Listed(f.pmon.value, pid))
      ensures r.unknown > 0
    {
      ImpostorIsUnbound(f, policy, p, pid);
      var c := Consumer(pid, Figure(f.compute.value, f.pmon.value, pid));
      assert c in consumers && pid in Unbound(f, Runtimes(f, policy.profiles), consumers);
    }
  }

  lemma ForeignIsNotFine(f: Findings, policy: ProbePolicy, p: Profile)
    requires p in policy.profiles && Foreign(f, p)
    ensures !RuntimeFine(f, p)
  {
    RuntimeIsLegible(f, policy, p);
  }

  // ------------------------------------------------------------ when a report is healthy

  // The profile's runtime could be looked at, and if there is one it is the expected one,
  // and runs.
  predicate RunsAsExpected(f: Findings, p: Profile)
  {
    && p.id in f.inspections
    && (f.inspections[p.id].NotRunning? ||
          (&& Legible(p, f.inspections[p.id])
           && match f.inspections[p.id]
              case Container(_, image) => image == p.expected
              case Unit(_, executable, running) => executable == p.expected && running
              case _ => false))
  }

  // The controller's state file is there and well formed, names that controller, counts from
  // 1, and is healthy at a safe boundary.
  predicate Publishable(legal: string -> bool, f: Findings, c: string)
  {
    && c in f.states
    && var s := f.states[c];
       && s.controller == c && 1 <= s.epoch && 1 <= s.generation && s.wellFormed && legal(s.mode) && s.healthy && s.boundary
  }

  predicate Plausible(lines: Option<seq<Line>>)
  {
    lines.Some? && forall i | 0 <= i < |lines.value| ::
      0 < lines.value[i].pid && (lines.value[i].memory.Some? ==> 0 <= lines.value[i].memory.value)
  }

  // The bytes in use, where they are reported, are those of the processes within 64 MiB.
  ghost predicate FiguresAgree(f: Findings, consumers: seq<Consumer>)
  {
    f.reported.None? || f.reported.value == [] ||
    (&& (forall i | 0 <= i < |f.reported.value| :: 0 <= f.reported.value[i])
     && AllBytes(consumers).Some?
     && -67_108_864 <= 1_048_576 * Sum(f.reported.value) - AllBytes(consumers).value <= 67_108_864)
  }

  // Exactly what a healthy report says of the findings.
  ghost predicate AllIsWell(legal: string -> bool, policy: ProbePolicy, f: Findings, consumers: seq<Consumer>)
  {
    && f.metrics
    && (policy.cuda ==> f.cuda.Some? && 0 <= f.cuda.value.0 <= f.cuda.value.1 && 0 < f.cuda.value.1)
    && (forall p | p in policy.profiles :: RunsAsExpected(f, p))
    && (forall c | c in policy.controllers :: Publishable(legal, f, c))
    && Plausible(f.compute) && Plausible(f.pmon) && AllExpected(f, policy) && FiguresAgree(f, consumers)
  }

  lemma HealthyExactly(legal: string -> bool, policy: ProbePolicy, f: Findings, consumers: seq<Consumer>)
    requires ProbePolicyOk(legal, policy) && Consolidated(f, consumers)
    ensures Clean(legal, policy, f, consumers) <==> AllIsWell(legal, policy, f, consumers)
  {
    hide Legible, RuntimeFine, RunsAsExpected, Loadable, Publishable, AllExpected, Consolidated, Runtimes, AllBytes, FiguresAgree;
    hide Unbound, ReportedMemory, Enumerable, Reconcile, Plausible, ProbePolicyOk;
    forall p | p in policy.profiles ensures RuntimeFine(f, p) <==> RunsAsExpected(f, p) {
      FineIsAsExpected(f, policy, p);
    }
    forall c | c in policy.controllers ensures Loadable(legal, f, c) <==> Publishable(legal, f, c) {
      LoadableIsPublishable(legal, f, c);
    }
    EnumerableIsPlausible(f, consumers);
    if forall p | p in policy.profiles :: RuntimeFine(f, p) {
      if Enumerable(f) { UnboundIsUnexpected(legal, policy, f, consumers); }
    }
  }

  lemma FineIsAsExpected(f: Findings, policy: ProbePolicy, p: Profile)
    requires p in policy.profiles
    ensures RuntimeFine(f, p) <==> RunsAsExpected(f, p)
  {
    RuntimeIsLegible(f, policy, p);
    hide Legible;
    if p.id in f.inspections && Legible(p, f.inspections[p.id]) && f.inspections[p.id].Container? {
      ContainerIsFine(f, p);
    }
  }

  lemma ContainerIsFine(f: Findings, p: Profile)
    requires p.id in f.inspections && f.inspections[p.id].Container?
    ensures Inspected(f, p).Ok? && Inspected(f, p).value.Some? ==>
      (Inspected(f, p).value.value.healthy <==> Inspected(f, p).value.value.verified)
  {
  }

  lemma LoadableIsPublishable(legal: string -> bool, f: Findings, c: string)
    ensures Loadable(legal, f, c) <==> Publishable(legal, f, c)
  {
  }

  lemma EnumerableIsPlausible(f: Findings, consumers: seq<Consumer>)
    ensures Enumerable(f) && (ReportedMemory(f.reported).value.Some? ==>
              Reconcile(ReportedMemory(f.reported).value, AllBytes(consumers)).reconciled)
            <==> Plausible(f.compute) && Plausible(f.pmon) && FiguresAgree(f, consumers)
    ensures Enumerable(f) ==> Readable(f)
  {
    PlausibleLines(f.compute);
    PlausibleLines(f.pmon);
    hide Plausible, BadLine, AllBytes, Sum;
  }

  lemma PlausibleLines(lines: Option<seq<Line>>)
    ensures Plausible(lines) <==> lines.Some? && forall l | l in lines.value :: !BadLine(l)
  {
    if lines.Some? {
      if forall l | l in lines.value :: !BadLine(l) {
        forall i | 0 <= i < |lines.value| ensures !BadLine(lines.value[i]) {
          assert lines.value[i] in lines.value;
        }
      }
      if Plausible(lines) {
        forall l | l in lines.value ensures !BadLine(l) {
          var i :| 0 <= i < |lines.value| && lines.value[i] == l;
        }
      }
    }
  }

  lemma {:induction false} RuntimesDiffer(f: Findings, profiles: seq<Profile>)
    requires forall i, j | 0 <= i < j < |profiles| :: profiles[i].id != profiles[j].id
    ensures forall i, j | 0 <= i < j < |Runtimes(f, profiles)| :: Runtimes(f, profiles)[i].profile.id != Runtimes(f, profiles)[j].profile.id
  {
    hide Inspected;
    if profiles != [] {
      var n := |profiles| - 1;
      assert forall k | 0 <= k < n :: profiles[..n][k] == profiles[k];
      RuntimesDiffer(f, profiles[..n]);
      var before := Runtimes(f, profiles[..n]);
      forall i | 0 <= i < |before| ensures before[i].profile.id != profiles[n].id {
        assert before[i] in before;
        var k :| 0 <= k < n && profiles[..n][k] == before[i].profile;
      }
      OwnProfile(f, profiles[n]);
    }
  }

  lemma OwnProfile(f: Findings, p: Profile)
    ensures Inspected(f, p).Ok? && Inspected(f, p).value.Some? ==> Inspected(f, p).value.value.profile == p
  {
  }

  // A process that runs as expected is bound, and so none is unbound exactly if all run so.
  lemma UnboundIsUnexpected(legal: string -> bool, policy: ProbePolicy, f: Findings, consumers: seq<Consumer>)
    requires ProbePolicyOk(legal, policy) && Consolidated(f, consumers) && Readable(f)
    requires forall p | p in policy.profiles :: RuntimeFine(f, p)
    ensures Unbound(f, Runtimes(f, policy.profiles), consumers) == {} <==> AllExpected(f, policy)
  {
    hide Runtimes, Listed, Figure, AsExpected, Inside, RuntimeFine, Owner;
    var runtimes := Runtimes(f, policy.profiles);
    if AllExpected(f, policy) {
      forall c | c in consumers ensures Owner(f, runtimes, c.pid).Some? {
        assert Listed(f.compute.value, c.pid) || Listed(f.pmon.value, c.pid);
        var i :| 0 <= i < |policy.profiles| && AsExpected(f, policy.profiles[i], c.pid)
          && forall j | 0 <= j < |policy.profiles| && Inside(f, policy.profiles[j], c.pid) :: policy.profiles[j].id == policy.profiles[i].id;
        ExpectedIsBound(legal, policy, f, c.pid, i);
      }
    } else if Unbound(f, runtimes, consumers) == {} {
      forall pid | Listed(f.compute.value, pid) || Listed(f.pmon.value, pid)
        ensures exists i | 0 <= i < |policy.profiles| ::
          && AsExpected(f, policy.profiles[i], pid)
          && forall j | 0 <= j < |policy.profiles| && Inside(f, policy.profiles[j], pid) :: policy.profiles[j].id == policy.profiles[i].id
      {
        var c := Consumer(pid, Figure(f.compute.value, f.pmon.value, pid));
        assert c in consumers;
        assert pid !in Unbound(f, runtimes, consumers);
        var rt := Owner(f, runtimes, pid).value;
        OwnerIsBound(f, runtimes, pid, rt);
        BoundIsOurs(f, policy, pid, rt);
        BoundIsExpected(f, policy, pid, rt);
      }
    }
  }

  lemma ExpectedIsBound(legal: string -> bool, policy: ProbePolicy, f: Findings, pid: int, i: nat)
    requires ProbePolicyOk(legal, policy) && i < |policy.profiles| && AsExpected(f, policy.profiles[i], pid)
    requires forall j | 0 <= j < |policy.profiles| && Inside(f, policy.profiles[j], pid) :: policy.profiles[j].id == policy.profiles[i].id
    ensures Owner(f, Runtimes(f, policy.profiles), pid).Some?
  {
    hide Matches, Strips, AtOrBelow, Runtimes;
    var runtimes, p := Runtimes(f, policy.profiles), policy.profiles[i];
    RuntimesDiffer(f, policy.profiles);
    RuntimeIsLegible(f, policy, p);
    MatchIsInside(f, policy, p, pid);
    var rt := Inspected(f, p).value.value;
    assert rt in runtimes;
    var m :| 0 <= m < |runtimes| && runtimes[m] == rt;
    forall n | 0 <= n < |runtimes| && Matches(runtimes[n], f.processes[pid].cgroup.value) ensures n == m {
      assert runtimes[n] in runtimes;
      MatchIsInside(f, policy, runtimes[n].profile, pid);
      var j :| 0 <= j < |policy.profiles| && policy.profiles[j] == runtimes[n].profile;
    }
    KindIsUnit(f, p, pid);
    assert BoundTo(f, runtimes, pid, rt);
    OwnerIsBound(f, runtimes, pid, rt);
  }

  lemma KindIsUnit(f: Findings, p: Profile, pid: int)
    requires AsExpected(f, p, pid)
    ensures !Foreign(f, p) && (p.kind.SystemdUser? ==> f.processes[pid].executable == Some(p.expected))
  {
  }

  // Two runtimes that publish the same identity are the same image in the same container, or
  // the same executable in the same unit.
  lemma IdentityTells(f: Findings, p: Profile, g: Findings, q: Profile)
    requires Inspected(f, p).Ok? && Inspected(f, p).value.Some? && Inspected(g, q).Ok? && Inspected(g, q).value.Some?
    requires Inspected(f, p).value.value.identity == Inspected(g, q).value.value.identity
    ensures match (f.inspections[p.id], g.inspections[q.id])
      case (Container(a, image), Container(b, other)) => a == b && image == other
      case (Unit(_, executable, _), Unit(_, other, _)) => executable == other && p.place == q.place
      case _ => false
  {
    var a, b := Inspected(f, p).value.value.identity, Inspected(g, q).value.value.identity;
    assert |"oci-image:"| == 10 && |";container:"| == 11 && |"systemd-exe:"| == 12 && |";unit:"| == 6;
    assert "oci-image:"[0] == 'o' && "systemd-exe:"[0] == 's';
    assert |a| > 0 && (a[0] == 'o' <==> f.inspections[p.id].Container?) && (b[0] == 'o' <==> g.inspections[q.id].Container?);
    match (f.inspections[p.id], g.inspections[q.id])
    case (Container(_, image), Container(_, other)) =>
      assert a[10..81] == image && b[10..81] == other && a[92..] == f.inspections[p.id].id && b[92..] == g.inspections[q.id].id;
    case (Unit(_, executable, _), Unit(_, other, _)) =>
      assert a[12..83] == executable && b[12..83] == other && a[89..] == p.place && b[89..] == q.place;
    case _ =>
  }
}
