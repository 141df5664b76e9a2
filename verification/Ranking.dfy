// The routing engine: which routes are eligible for a request, their ranking, and the
// simulation of recorded cases.
module Ranking {
  import opened Wrappers
  import opened Ordering
  import opened Routing
  import opened Snapshots

  datatype Request = Request(model: Option<string>, service: string, preference: string)

  datatype Decision = Decision(
    route: string, profile: string, model: string, reason: string, preference: string,
    revision: Revision, ranked: seq<string>)

  function MetricsOf(c: Context, profile: string): Metrics
  {
    FindMetrics(c.profiles, profile)
  }

  function FindMetrics(profiles: seq<Snapshots.Profile>, profile: string): Metrics
  {
    if profiles == [] then Metrics(None, None, None)
    else if profiles[0].id == profile then profiles[0].metrics
    else FindMetrics(profiles[1..], profile)
  }

  // Higher priority first, then the smaller id.
  predicate ByPriority(a: RoutePolicy, b: RoutePolicy)
  {
    a.priority > b.priority || (a.priority == b.priority && StringLess(a.id, b.id))
  }

  predicate LessLatency(x: Option<real>, y: Option<real>)
  {
    x.Some? && (y.None? || x.value < y.value)
  }

  function Concurrency(c: Context, r: RoutePolicy): int
  {
    var found := MetricsOf(c, r.profile).concurrency;
    if found.Some? then found.value else 0
  }

  // The sort key of each preference, as an order on routes. A missing latency is infinite.
  predicate Prefers(preference: string, c: Context, a: RoutePolicy, b: RoutePolicy)
  {
    if preference == "memory" then
      a.memory < b.memory || (a.memory == b.memory && ByPriority(a, b))
    else if preference == "latency" then
      var x, y := MetricsOf(c, a.profile).latency, MetricsOf(c, b.profile).latency;
      LessLatency(x, y) || (x == y && ByPriority(a, b))
    else if preference == "throughput" then
      Concurrency(c, a) > Concurrency(c, b) || (Concurrency(c, a) == Concurrency(c, b) && ByPriority(a, b))
    else
      var x, y := a.profile in c.active, b.profile in c.active;
      || (x && !y)
      || (x == y && (|| a.priority > b.priority
                     || (a.priority == b.priority && (a.memory < b.memory || (a.memory == b.memory && StringLess(a.id, b.id))))))
  }

  function Order(preference: string, c: Context): (RoutePolicy, RoutePolicy) -> bool
  {
    (a: RoutePolicy, b: RoutePolicy) => Prefers(preference, c, a, b)
  }

  predicate Serves(r: RoutePolicy, q: Request)
  {
    (q.model.None? || r.model == q.model.value) && q.service in r.classes
  }

  predicate Healthy(r: RoutePolicy, c: Context)
  {
    MetricsOf(c, r.profile).health != Some("unhealthy")
  }

  predicate Eligible(r: RoutePolicy, q: Request, c: Context)
  {
    Serves(r, q) && Healthy(r, c)
  }

  function EligibleRoutes(routes: seq<RoutePolicy>, q: Request, c: Context): (r: seq<RoutePolicy>)
    ensures forall x :: x in r <==> x in routes && Eligible(x, q, c)
  {
    if routes == [] then []
    else (if Eligible(routes[0], q, c) then [routes[0]] else []) + EligibleRoutes(routes[1..], q, c)
  }

  function Ranking(routes: seq<RoutePolicy>, q: Request, c: Context): seq<RoutePolicy>
  {
    Sort(Order(q.preference, c), EligibleRoutes(routes, q, c))
  }

  function Ids(routes: seq<RoutePolicy>): (r: seq<string>)
    ensures |r| == |routes| && forall i | 0 <= i < |r| :: r[i] == routes[i].id
  {
    if routes == [] then [] else [routes[0].id] + Ids(routes[1..])
  }

  // decide
  function Decide(config: Config, q: Request, raw: Json): Result<Decision>
  {
    if q.model == Some("") then Err("invalid_request")
    else if q.service !in SERVICE_CLASSES then Err("invalid_request")
    else if q.preference !in PREFERENCES then Err("invalid_request")
    else if q.model.Some? && !(exists r | r in config.routes :: r.model == q.model.value) then Err("route_unavailable")
    else
      match Normalize(raw, false)
      case Err(code) => Err(code)
      case Ok(c) => Choose(config, q, c)
  }

  function Choose(config: Config, q: Request, c: Context): Result<Decision>
  {
    var ranking := Ranking(config.routes, q, c);
    if ranking == [] then Err("route_unavailable")
    else
      Ok(Decision(ranking[0].id, ranking[0].profile, ranking[0].model,
                  if q.model.Some? then "explicit_model" else "policy:" + q.preference,
                  q.preference, config.revision, Ids(ranking)))
  }

  // ------------------------------------------------------------------- the ranking

  ghost predicate DistinctRoutes(routes: seq<RoutePolicy>)
  {
    forall i, j | 0 <= i < j < |routes| :: routes[i].id != routes[j].id
  }

  lemma SameIdSameRoute(routes: seq<RoutePolicy>, a: RoutePolicy, b: RoutePolicy)
    requires DistinctRoutes(routes) && a in routes && b in routes && a.id == b.id
    ensures a == b
  {
  }

  lemma PriorityIsLinear(a: RoutePolicy, b: RoutePolicy, d: RoutePolicy)
    ensures !ByPriority(a, a)
    ensures a.id != b.id ==> ByPriority(a, b) || ByPriority(b, a)
    ensures ByPriority(a, b) && ByPriority(b, d) ==> ByPriority(a, d)
  {
    StringLessIrreflexive(a.id);
    StringLessTotal(a.id, b.id);
    if StringLess(a.id, b.id) && StringLess(b.id, d.id) { StringLessTransitive(a.id, b.id, d.id); }
  }

  // Every preference orders routes strictly and totally, ties broken by id.
  lemma PrefersIsLinear(preference: string, c: Context, a: RoutePolicy, b: RoutePolicy, d: RoutePolicy)
    ensures !Prefers(preference, c, a, a)
    ensures a.id != b.id ==> Prefers(preference, c, a, b) || Prefers(preference, c, b, a)
    ensures Prefers(preference, c, a, b) && Prefers(preference, c, b, d) ==> Prefers(preference, c, a, d)
  {
    hide FindMetrics;
    PriorityIsLinear(a, b, d);
    StringLessIrreflexive(a.id);
    StringLessTotal(a.id, b.id);
    if StringLess(a.id, b.id) && StringLess(b.id, d.id) { StringLessTransitive(a.id, b.id, d.id); }
  }

  lemma OrderIsLinear(routes: seq<RoutePolicy>, preference: string, c: Context)
    requires DistinctRoutes(routes)
    ensures LinearOn(Order(preference, c), routes)
  {
    hide Prefers;
    forall x, y | x in routes && y in routes ensures x == y || Prefers(preference, c, x, y) || Prefers(preference, c, y, x) {
      PrefersIsLinear(preference, c, x, y, x);
      if x.id == y.id { SameIdSameRoute(routes, x, y); }
    }
    forall x, y, z | x in routes && y in routes && z in routes && Prefers(preference, c, x, y) && Prefers(preference, c, y, z)
      ensures Prefers(preference, c, x, z)
    {
      PrefersIsLinear(preference, c, x, y, z);
    }
    forall x | x in routes ensures !Prefers(preference, c, x, x) {
      PrefersIsLinear(preference, c, x, x, x);
    }
  }

  lemma {:induction false} EligibleDistinct(routes: seq<RoutePolicy>, q: Request, c: Context)
    requires DistinctRoutes(routes)
    ensures DistinctRoutes(EligibleRoutes(routes, q, c))
  {
    hide Eligible;
    if routes != [] {
      var rest := EligibleRoutes(routes[1..], q, c);
      EligibleDistinct(routes[1..], q, c);
      forall j | 0 <= j < |rest| ensures rest[j].id != routes[0].id {
        assert rest[j] in routes[1..];
        var k :| 0 <= k < |routes[1..]| && routes[1..][k] == rest[j];
        assert routes[k + 1] == rest[j];
      }
    }
  }

  // The ranking lists exactly the eligible routes, each strictly before the next; so its
  // head is preferred to every other.
  lemma RankingIsTheOrder(routes: seq<RoutePolicy>, q: Request, c: Context)
    requires DistinctRoutes(routes)
    ensures var r := Ranking(routes, q, c);
      && (forall x :: x in r <==> x in routes && Eligible(x, q, c))
      && Increasing(Order(q.preference, c), r)
      && DistinctRoutes(r)
      && (r != [] ==> forall x | x in r && x != r[0] :: Prefers(q.preference, c, r[0], x))
  {
    hide Prefers, Eligible;
    var less, eligible := Order(q.preference, c), EligibleRoutes(routes, q, c);
    EligibleDistinct(routes, q, c);
    OrderIsLinear(eligible, q.preference, c);
    SortElements(less, eligible);
    SortIncreasing(less, eligible);
    var r := Ranking(routes, q, c);
    forall i, j | 0 <= i < j < |r| ensures r[i].id != r[j].id {
      assert less(r[i], r[j]);
      assert r[i] in eligible && r[j] in eligible;
      PrefersIsLinear(q.preference, c, r[i], r[i], r[i]);
      if r[i].id == r[j].id { SameIdSameRoute(eligible, r[i], r[j]); }
    }
  }

  // Two configurations with the same routes, in whatever order, rank alike.
  lemma RankingIgnoresOrder(routes: seq<RoutePolicy>, other: seq<RoutePolicy>, q: Request, c: Context)
    requires DistinctRoutes(routes) && DistinctRoutes(other) && forall x :: x in routes <==> x in other
    ensures Ranking(routes, q, c) == Ranking(other, q, c)
  {
    hide Prefers, Eligible;
    RankingIsTheOrder(routes, q, c);
    RankingIsTheOrder(other, q, c);
    OrderIsLinear(Ranking(routes, q, c), q.preference, c);
    IncreasingUnique(Order(q.preference, c), Ranking(routes, q, c), Ranking(other, q, c));
  }

  function Without(routes: seq<RoutePolicy>, loser: RoutePolicy): (r: seq<RoutePolicy>)
    ensures forall x :: x in r <==> x in routes && x != loser
  {
    if routes == [] then []
    else (if routes[0] != loser then [routes[0]] else []) + Without(routes[1..], loser)
  }

  lemma {:induction false} WithoutIncreasing(less: (RoutePolicy, RoutePolicy) -> bool, routes: seq<RoutePolicy>, loser: RoutePolicy)
    requires Increasing(less, routes)
    ensures Increasing(less, Without(routes, loser))
  {
    if routes != [] {
      var rest := Without(routes[1..], loser);
      WithoutIncreasing(less, routes[1..], loser);
      forall j | 0 <= j < |rest| ensures less(routes[0], rest[j]) {
        assert rest[j] in routes[1..];
        var k :| 0 <= k < |routes[1..]| && routes[1..][k] == rest[j];
        assert less(routes[0], routes[k + 1]);
      }
    }
  }

  lemma {:induction false} WithoutDistinct(routes: seq<RoutePolicy>, loser: RoutePolicy)
    requires DistinctRoutes(routes)
    ensures DistinctRoutes(Without(routes, loser))
  {
    if routes != [] {
      var rest := Without(routes[1..], loser);
      WithoutDistinct(routes[1..], loser);
      forall j | 0 <= j < |rest| ensures rest[j].id != routes[0].id {
        assert rest[j] in routes[1..];
        var k :| 0 <= k < |routes[1..]| && routes[1..][k] == rest[j];
        assert routes[k + 1] == rest[j];
      }
    }
  }

  // Removing a route, chosen or not, leaves the others in their order; removing one that
  // was not chosen leaves the choice.
  lemma DroppingKeepsOrder(routes: seq<RoutePolicy>, loser: RoutePolicy, q: Request, c: Context)
    requires DistinctRoutes(routes)
    ensures Ranking(Without(routes, loser), q, c) == Without(Ranking(routes, q, c), loser)
    ensures Ranking(routes, q, c) != [] && Ranking(routes, q, c)[0] != loser ==>
              Ranking(Without(routes, loser), q, c) != [] && Ranking(Without(routes, loser), q, c)[0] == Ranking(routes, q, c)[0]
  {
    hide Prefers, Eligible;
    var less := Order(q.preference, c);
    var all, fewer := Ranking(routes, q, c), Ranking(Without(routes, loser), q, c);
    RankingIsTheOrder(routes, q, c);
    WithoutDistinct(routes, loser);
    RankingIsTheOrder(Without(routes, loser), q, c);
    WithoutIncreasing(less, all, loser);
    OrderIsLinear(fewer, q.preference, c);
    IncreasingUnique(less, fewer, Without(all, loser));
  }

  // ------------------------------------------------------------------- simulation

  datatype Case = Case(id: string, request: Request, snapshot: Json)

  datatype CaseResult = CaseResult(id: string, outcome: Result<Decision>)

  // One simulated case: the strict parser, then the engine on what it produced.
  function SimulateCase(config: Config, k: Case): CaseResult
  {
    match Normalize(k.snapshot, true)
    case Err(code) => CaseResult(k.id, Err(code))
    case Ok(c) => CaseResult(k.id, Decide(config, k.request, ContextJson(c)))
  }

  predicate RepeatsEarlier(cases: seq<Case>, i: nat)
    requires i < |cases|
  {
    exists j | 0 <= j < i :: cases[j].id == cases[i].id
  }

  // simulate_routing_scenarios: every case as the engine would decide it, or no result at all
  method SimulateScenarios(raws: seq<RawRoute>, cases: seq<Case>) returns (r: Result<seq<CaseResult>>)
    ensures Compile(raws).Err? ==> r == Err(Compile(raws).code)
    ensures Compile(raws).Ok? ==>
      (r.Ok? <==> 1 <= |cases| <= 1000 && forall i | 0 <= i < |cases| :: !RepeatsEarlier(cases, i))
    ensures r.Ok? ==>
      && |r.value| == |cases|
      && forall i | 0 <= i < |cases| :: r.value[i] == SimulateCase(Compile(raws).value, cases[i])
  {
    hide Compile, Decide, Normalize, ContextJson;
    var config := CompileRoutingConfig(raws);
    if config.Err? { return Err(config.code); }
    if cases == [] || |cases| > 1000 { return Err("invalid_scenario"); }
    var results: seq<CaseResult> := [];
    var seen: set<string> := {};
    for i := 0 to |cases|
      invariant |results| == i && forall j | 0 <= j < i :: results[j] == SimulateCase(config.value, cases[j])
      invariant forall id :: id in seen <==> exists j | 0 <= j < i :: cases[j].id == id
      invariant forall j | 0 <= j < i :: !RepeatsEarlier(cases, j)
    {
      var k := cases[i];
      if k.id in seen {
        assert RepeatsEarlier(cases, i);
        return Err("duplicate_value");
      }
      seen := seen + {k.id};
      var snapshot := NormalizeRoutingSnapshot(k.snapshot, true);
      if snapshot.Err? {
        results := results + [CaseResult(k.id, Err(snapshot.code))];
      } else {
        results := results + [CaseResult(k.id, Decide(config.value, k.request, ContextJson(snapshot.value)))];
      }
    }
    return Ok(results);
  }

  // On a snapshot the strict parser accepts, simulation is the direct decision; on any
  // other it refuses, even where a direct decision would ignore the unknown fields.
  lemma SimulationIsDecision(config: Config, k: Case)
    ensures Normalize(k.snapshot, true).Ok? ==> SimulateCase(config, k).outcome == Decide(config, k.request, k.snapshot)
    ensures Normalize(k.snapshot, true).Err? ==> SimulateCase(config, k).outcome == Err(Normalize(k.snapshot, true).code)
  {
    hide Choose, Normalize, ContextJson;
    if Normalize(k.snapshot, true).Ok? {
      NormalizeIsIdempotent(k.snapshot, true, false);
      StrictIsLenient(k.snapshot);
    }
  }

  // The same routes, however listed, decide every request alike.
  lemma DecisionIsCanonical(xs: seq<RawRoute>, ys: seq<RawRoute>, q: Request, raw: Json)
    requires SameRoutes(xs, ys) && Compile(xs).Ok?
    ensures Compile(ys).Ok? && Decide(Compile(xs).value, q, raw) == Decide(Compile(ys).value, q, raw)
  {
    hide Decide, Compile, SameRoutes;
    CompileIsCanonical(xs, ys);
  }

  lemma CompiledRoutesAreDistinct(raws: seq<RawRoute>)
    requires Compile(raws).Ok?
    ensures DistinctRoutes(Compile(raws).value.routes)
  {
    hide ParseAll;
  }

  // A decision on a compiled configuration: the route preferred to every other eligible one,
  // if any is eligible, and otherwise none.
  lemma DecisionIsBest(raws: seq<RawRoute>, q: Request, raw: Json)
    requires Compile(raws).Ok? && Normalize(raw, false).Ok?
    requires q.model != Some("") && q.service in SERVICE_CLASSES && q.preference in PREFERENCES
    ensures var config, c := Compile(raws).value, Normalize(raw, false).value;
      var outcome := Decide(config, q, raw);
      && (outcome.Ok? <==> exists r :: r in config.routes && Eligible(r, q, c))
      && (outcome.Err? ==> outcome.code == "route_unavailable")
      && (outcome.Ok? ==> exists r :: Best(config.routes, q, c, r) && Describes(outcome.value, r))
  {
    hide Compile, Normalize, Eligible, Prefers;
    var config, c := Compile(raws).value, Normalize(raw, false).value;
    CompiledRoutesAreDistinct(raws);
    RankingIsTheOrder(config.routes, q, c);
    var ranking := Ranking(config.routes, q, c);
    if ranking != [] {
      ServesItsModel(ranking[0], q, c);
      assert ranking[0] in config.routes;
      assert Best(config.routes, q, c, ranking[0]) && Describes(Choose(config, q, c).value, ranking[0]);
    }
  }

  lemma ServesItsModel(r: RoutePolicy, q: Request, c: Context)
    requires Eligible(r, q, c)
    ensures q.model.Some? ==> r.model == q.model.value
  {
  }

  predicate Best(routes: seq<RoutePolicy>, q: Request, c: Context, r: RoutePolicy)
  {
    && r in routes && Eligible(r, q, c)
    && forall x | x in routes && Eligible(x, q, c) && x != r :: Prefers(q.preference, c, r, x)
  }

  predicate Describes(d: Decision, r: RoutePolicy)
  {
    d.route == r.id && d.profile == r.profile && d.model == r.model && d.ranked != [] && d.ranked[0] == r.id
  }

  // ------------------------------------------------- the decision, read off the raw snapshot

  // What the snapshot says under "profiles" about one profile.
  ghost predicate Says(raw: Json, profile: string, key: string, v: Json)
  {
    && raw.Obj?
    && exists profiles, entry :: Holds(raw.fields, "profiles", Obj(profiles)) && Holds(profiles, profile, Obj(entry)) && Holds(entry, key, v)
  }

  ghost predicate Unhealthy(raw: Json, profile: string)
  {
    Says(raw, profile, "health", Str("unhealthy"))
  }

  ghost predicate HasLatency(raw: Json, profile: string, x: real)
  {
    Says(raw, profile, "latencyMs", Real(x)) || exists n :: Says(raw, profile, "latencyMs", Int(n)) && x == n as real
  }

  ghost predicate HasConcurrency(raw: Json, profile: string, n: int)
  {
    Says(raw, profile, "availableConcurrency", Int(n))
  }

  ghost predicate Active(raw: Json, profile: string)
  {
    && raw.Obj?
    && exists items, i | 0 <= i < |items| :: Holds(raw.fields, "activeProfiles", List(items)) && items[i] == Str(profile)
  }

  // The metrics used for a profile are those of the first entry with its id, and are all
  // absent if no entry has it.
  lemma {:induction false} MetricsAreItsOwn(fields: seq<Field>, profile: string, strict: bool)
    requires NormalizeProfiles(fields, strict).Ok?
    ensures var found := FindMetrics(NormalizeProfiles(fields, strict).value, profile);
      if Get(fields, profile).None? then found == Metrics(None, None, None)
      else NormalizeMetrics(Get(fields, profile).value, strict) == Ok(found)
    decreases |fields|
  {
    hide NormalizeMetrics;
    if fields != [] {
      var n := |fields| - 1;
      MetricsAreItsOwn(fields[..n], profile, strict);
      FindNext(NormalizeProfiles(fields[..n], strict).value,
               Snapshots.Profile(fields[n].key, NormalizeMetrics(fields[n].value, strict).value), profile);
      assert fields == fields[..n] + [fields[n]];
      GetConcat(fields[..n], [fields[n]], profile);
      ProfilesNormal(fields[..n], strict);
      FoundIsThere(fields[..n], profile, strict);
    }
  }

  lemma {:induction false} FindNext(profiles: seq<Snapshots.Profile>, last: Snapshots.Profile, profile: string)
    ensures FindMetrics(profiles + [last], profile)
            == if exists i | 0 <= i < |profiles| :: profiles[i].id == profile then FindMetrics(profiles, profile)
               else if last.id == profile then last.metrics else Metrics(None, None, None)
  {
    if profiles == [] {
      assert [last][1..] == [];
    } else {
      assert (profiles + [last])[1..] == profiles[1..] + [last];
      FindNext(profiles[1..], last, profile);
      if exists i | 0 <= i < |profiles| :: profiles[i].id == profile {
        var i :| 0 <= i < |profiles| && profiles[i].id == profile;
        if i > 0 { assert profiles[1..][i - 1].id == profile; }
      }
      if exists i | 0 <= i < |profiles[1..]| :: profiles[1..][i].id == profile {
        var i :| 0 <= i < |profiles[1..]| && profiles[1..][i].id == profile;
        assert profiles[i + 1].id == profile;
      }
    }
  }

  lemma FoundIsThere(fields: seq<Field>, profile: string, strict: bool)
    requires NormalizeProfiles(fields, strict).Ok?
    ensures Get(fields, profile).Some? <==>
              exists i | 0 <= i < |NormalizeProfiles(fields, strict).value| :: NormalizeProfiles(fields, strict).value[i].id == profile
  {
    ProfilesNormal(fields, strict);
    GetIsFirst(fields, profile);
    var r := NormalizeProfiles(fields, strict).value;
    assert forall i | 0 <= i < |r| :: r[i].id == fields[i].key;
  }

  lemma EntryIsRaw(raw: Json, profile: string, key: string)
    requires Normalize(raw, false).Ok? && raw.Obj?
    ensures var entry := Get(GetOr(raw.fields, "profiles", Obj([])).fields, profile);
      && (entry.Some? ==> entry.value.Obj?)
      && forall v :: Says(raw, profile, key, v) <==> entry.Some? && Get(entry.value.fields, key) == Some(v)
  {
    hide Strings, NormalizeProfiles, OnlyKeys, ActiveOk, Get, Holds;
    var profiles := GetOr(raw.fields, "profiles", Obj([]));
    GetIsFirst(raw.fields, "profiles");
    GetIsFirst(profiles.fields, profile);
    EntriesAreObjects(profiles.fields, profile);
    var entry := Get(profiles.fields, profile);
    if entry.Some? { GetIsFirst(entry.value.fields, key); }
    forall v ensures Says(raw, profile, key, v) <==> entry.Some? && Get(entry.value.fields, key) == Some(v) {
      if entry.Some? && Get(entry.value.fields, key) == Some(v) {
        NothingInNothing(profile);
        assert Holds(raw.fields, "profiles", Obj(profiles.fields)) && Holds(profiles.fields, profile, Obj(entry.value.fields));
      }
    }
  }

  lemma NothingInNothing(profile: string)
    ensures Get([], profile).None?
  {
  }

  lemma EntriesAreObjects(fields: seq<Field>, profile: string)
    requires NormalizeProfiles(fields, false).Ok?
    ensures Get(fields, profile).Some? ==> Get(fields, profile).value.Obj?
  {
    MetricsAreItsOwn(fields, profile, false);
  }

  // The metrics the ranking uses for a profile are what the snapshot says about that profile.
  lemma MetricsAreRaw(raw: Json, profile: string)
    requires Normalize(raw, false).Ok?
    ensures var m := MetricsOf(Normalize(raw, false).value, profile);
      && (m.health == Some("unhealthy") <==> Unhealthy(raw, profile))
      && (forall x :: m.latency == Some(x) <==> HasLatency(raw, profile, x))
      && (forall n :: m.concurrency == Some(n) <==> HasConcurrency(raw, profile, n))
  {
    hide Strings, NormalizeProfiles, OnlyKeys, ActiveOk, Get, Holds, Says, FindMetrics, GetOr;
    if raw.Obj? {
      var profiles := GetOr(raw.fields, "profiles", Obj([])).fields;
      MetricsAreItsOwn(profiles, profile, false);
      EntryIsRaw(raw, profile, "health");
      EntryIsRaw(raw, profile, "latencyMs");
      EntryIsRaw(raw, profile, "availableConcurrency");
    } else {
      NothingSaid(raw, profile);
    }
  }

  lemma NothingSaid(raw: Json, profile: string)
    requires Normalize(raw, false).Ok? && !raw.Obj?
    ensures MetricsOf(Normalize(raw, false).value, profile) == Metrics(None, None, None)
    ensures forall key, v :: !Says(raw, profile, key, v)
    ensures Normalize(raw, false).value.active == []
  {
  }

  lemma ActiveIsRaw(raw: Json, profile: string)
    requires Normalize(raw, false).Ok?
    ensures profile in Normalize(raw, false).value.active <==> Active(raw, profile)
  {
    hide NormalizeProfiles, OnlyKeys, Holds, Get;
    if raw.Obj? {
      var items := GetOr(raw.fields, "activeProfiles", List([])).items;
      GetIsFirst(raw.fields, "activeProfiles");
      StringsOk(items);
      var active := Normalize(raw, false).value.active;
      assert active == Strings(items);
      if profile in active {
        var i :| 0 <= i < |active| && active[i] == profile;
        assert items[i] == Str(profile);
      }
      if Active(raw, profile) {
        var found, i :| 0 <= i < |found| && Holds(raw.fields, "activeProfiles", List(found)) && found[i] == Str(profile);
        assert found == items && active[i] == profile;
      }
    } else {
      NothingSaid(raw, profile);
    }
  }

  // ---- the order of each preference, on the snapshot and the routes' own policies

  ghost predicate SoonerRaw(raw: Json, a: string, b: string)
  {
    exists x :: HasLatency(raw, a, x) && forall y :: HasLatency(raw, b, y) ==> x < y
  }

  ghost predicate AsSoonRaw(raw: Json, a: string, b: string)
  {
    forall x :: HasLatency(raw, a, x) <==> HasLatency(raw, b, x)
  }

  // A missing figure counts as none.
  ghost predicate RoomierRaw(raw: Json, a: string, b: string)
  {
    exists n :: n > 0 && HasConcurrency(raw, a, n) && forall m :: HasConcurrency(raw, b, m) ==> m < n
  }

  ghost predicate AsRoomyRaw(raw: Json, a: string, b: string)
  {
    forall n :: n > 0 ==> (HasConcurrency(raw, a, n) <==> HasConcurrency(raw, b, n))
  }

  ghost predicate RawPrefers(preference: string, raw: Json, a: RoutePolicy, b: RoutePolicy)
  {
    var first := a.priority > b.priority || (a.priority == b.priority && StringLess(a.id, b.id));
    if preference == "memory" then a.memory < b.memory || (a.memory == b.memory && first)
    else if preference == "latency" then SoonerRaw(raw, a.profile, b.profile) || (AsSoonRaw(raw, a.profile, b.profile) && first)
    else if preference == "throughput" then RoomierRaw(raw, a.profile, b.profile) || (AsRoomyRaw(raw, a.profile, b.profile) && first)
    else
      || (Active(raw, a.profile) && !Active(raw, b.profile))
      || (&& (Active(raw, a.profile) <==> Active(raw, b.profile))
          && (|| a.priority > b.priority
              || (a.priority == b.priority && a.memory < b.memory)
              || (a.priority == b.priority && a.memory == b.memory && StringLess(a.id, b.id))))
  }

  lemma PrefersIsRaw(preference: string, raw: Json, a: RoutePolicy, b: RoutePolicy)
    requires Normalize(raw, false).Ok?
    ensures Prefers(preference, Normalize(raw, false).value, a, b) <==> RawPrefers(preference, raw, a, b)
  {
    hide Normalize, HasLatency, HasConcurrency, Active, FindMetrics, StringLess;
    MetricsAreRaw(raw, a.profile);
    MetricsAreRaw(raw, b.profile);
    ActiveIsRaw(raw, a.profile);
    ActiveIsRaw(raw, b.profile);
    NormalIsOk(raw, false);
    var c := Normalize(raw, false).value;
    FoundIsOk(c.profiles, a.profile);
    FoundIsOk(c.profiles, b.profile);
    LatencyIsRaw(raw, MetricsOf(c, a.profile).latency, MetricsOf(c, b.profile).latency, a.profile, b.profile);
    ConcurrencyIsRaw(raw, MetricsOf(c, a.profile).concurrency, MetricsOf(c, b.profile).concurrency, a.profile, b.profile);
  }

  lemma {:induction false} FoundIsOk(profiles: seq<Snapshots.Profile>, profile: string)
    requires forall i | 0 <= i < |profiles| :: MetricsOk(profiles[i].metrics)
    ensures MetricsOk(FindMetrics(profiles, profile))
  {
    if profiles != [] { FoundIsOk(profiles[1..], profile); }
  }

  lemma LatencyIsRaw(raw: Json, x: Option<real>, y: Option<real>, a: string, b: string)
    requires (forall u :: x == Some(u) <==> HasLatency(raw, a, u)) && (forall v :: y == Some(v) <==> HasLatency(raw, b, v))
    ensures LessLatency(x, y) <==> SoonerRaw(raw, a, b)
    ensures x == y <==> AsSoonRaw(raw, a, b)
  {
    hide HasLatency;
    if x.Some? { assert HasLatency(raw, a, x.value); }
    if y.Some? { assert HasLatency(raw, b, y.value); }
  }

  lemma ConcurrencyIsRaw(raw: Json, x: Option<int>, y: Option<int>, a: string, b: string)
    requires (forall u :: x == Some(u) <==> HasConcurrency(raw, a, u)) && (forall v :: y == Some(v) <==> HasConcurrency(raw, b, v))
    ensures var n, m := if x.Some? then x.value else 0, if y.Some? then y.value else 0;
      0 <= n && 0 <= m ==> (n > m <==> RoomierRaw(raw, a, b)) && (n == m <==> AsRoomyRaw(raw, a, b))
  {
    hide HasConcurrency;
    if x.Some? { assert HasConcurrency(raw, a, x.value); }
    if y.Some? { assert HasConcurrency(raw, b, y.value); }
  }

  // The route can serve the request, and the snapshot does not call its profile unhealthy.
  ghost predicate Fits(r: RoutePolicy, q: Request, raw: Json)
  {
    (q.model.None? || r.model == q.model.value) && q.service in r.classes && !Unhealthy(raw, r.profile)
  }

  lemma EligibleIsRaw(r: RoutePolicy, q: Request, raw: Json)
    requires Normalize(raw, false).Ok?
    ensures Eligible(r, q, Normalize(raw, false).value) <==> Fits(r, q, raw)
  {
    hide Normalize, Unhealthy, FindMetrics;
    MetricsAreRaw(raw, r.profile);
  }

  // The request names no empty model, a known service class and a known preference.
  predicate Proper(q: Request)
  {
    && q.model != Some("")
    && (q.service == "interactive" || q.service == "batch" || q.service == "background")
    && (q.preference == "balanced" || q.preference == "latency" || q.preference == "throughput" || q.preference == "memory")
  }

  // A decision, read off the routes and the raw snapshot: there is one exactly if the request
  // is proper, the snapshot is accepted and some route fits; exactly the fitting routes are
  // ranked, in the strict order of the preference; and the first of them is chosen.
  lemma DecisionIsBestOfRaw(raws: seq<RawRoute>, q: Request, raw: Json)
    requires Compile(raws).Ok?
    ensures var config := Compile(raws).value;
      var outcome := Decide(config, q, raw);
      && (outcome.Ok? <==> Proper(q) && SnapshotFine(raw, false) && exists r :: r in config.routes && Fits(r, q, raw))
      && (!Proper(q) ==> outcome == Err("invalid_request"))
      && (Proper(q) && SnapshotFine(raw, false) && outcome.Err? ==> outcome.code == "route_unavailable")
      && (outcome.Ok? ==> exists ranking: seq<RoutePolicy> :: IsRanking(config.routes, q, raw, ranking, outcome.value))
      && (outcome.Ok? ==>
            && outcome.value.preference == q.preference && outcome.value.revision == config.revision
            && outcome.value.reason == if q.model.Some? then "explicit_model" else "policy:" + q.preference)
  {
    hide Compile, Normalize, SnapshotFine, Fits, IsRanking, Choose;
    NormalizeExactly(raw, false);
    if Proper(q) && Normalize(raw, false).Ok? {
      ProperDecision(raws, q, raw);
    }
  }

  lemma ProperDecision(raws: seq<RawRoute>, q: Request, raw: Json)
    requires Compile(raws).Ok? && Normalize(raw, false).Ok? && Proper(q)
    ensures var config := Compile(raws).value;
      var outcome := Decide(config, q, raw);
      && (outcome.Ok? <==> exists r :: r in config.routes && Fits(r, q, raw))
      && (outcome.Err? ==> outcome.code == "route_unavailable")
      && (outcome.Ok? ==> exists ranking: seq<RoutePolicy> :: IsRanking(config.routes, q, raw, ranking, outcome.value))
      && (outcome.Ok? ==>
            && outcome.value.preference == q.preference && outcome.value.revision == config.revision
            && outcome.value.reason == if q.model.Some? then "explicit_model" else "policy:" + q.preference)
  {
    hide Compile, Normalize, Eligible, Prefers, Fits, RawPrefers, Ranking;
    var config, c := Compile(raws).value, Normalize(raw, false).value;
    DecisionIsBest(raws, q, raw);
    forall r ensures Eligible(r, q, c) <==> Fits(r, q, raw) {
      EligibleIsRaw(r, q, raw);
    }
    CompiledRoutesAreDistinct(raws);
    RankingIsTheOrder(config.routes, q, c);
    var ranking := Ranking(config.routes, q, c);
    forall i, j | 0 <= i < j < |ranking| ensures RawPrefers(q.preference, raw, ranking[i], ranking[j]) {
      assert Order(q.preference, c)(ranking[i], ranking[j]);
      PrefersIsRaw(q.preference, raw, ranking[i], ranking[j]);
    }
    if Decide(config, q, raw).Ok? { assert IsRanking(config.routes, q, raw, ranking, Decide(config, q, raw).value); }
  }

  ghost predicate IsRanking(routes: seq<RoutePolicy>, q: Request, raw: Json, ranking: seq<RoutePolicy>, d: Decision)
  {
    && (forall r :: r in ranking <==> r in routes && Fits(r, q, raw))
    && (forall i, j | 0 <= i < j < |ranking| :: RawPrefers(q.preference, raw, ranking[i], ranking[j]))
    && |d.ranked| == |ranking| && (forall i | 0 <= i < |ranking| :: d.ranked[i] == ranking[i].id)
    && ranking != [] && d.route == ranking[0].id && d.profile == ranking[0].profile && d.model == ranking[0].model
  }
}
