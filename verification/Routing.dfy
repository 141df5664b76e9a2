// Model routes: compiling them into a canonical configuration, normalizing a resource
// snapshot, and ranking the routes that can serve a request.
//
// Identifiers, URLs and paths are taken as validated; `extra` stands for a route's
// description, endpoint, key file and container.
module Routing {
  import opened Wrappers
  import opened Ordering

  datatype RawRoute = RawRoute(
    id: string, model: string, profile: Option<string>, memory: Option<int>, priority: Option<int>,
    classes: Option<seq<string>>, extra: string)

  datatype RoutePolicy = RoutePolicy(
    id: string, model: string, profile: string, memory: int, priority: int, classes: seq<string>)

  datatype Compiled = Compiled(policy: RoutePolicy, extra: string)

  // The digest of the canonical document, hence injective.
  datatype Revision = OfDocument(document: seq<Compiled>) | OfPolicies(policies: seq<RoutePolicy>)

  datatype Config = Config(routes: seq<RoutePolicy>, revision: Revision)

  const SERVICE_CLASSES := {"interactive", "batch", "background"}
  const PREFERENCES := {"balanced", "latency", "throughput", "memory"}

  // _route_policy
  function ParseRoute(raw: RawRoute): Result<Compiled>
  {
    var memory := if raw.memory.Some? then raw.memory.value else 0;
    var priority := if raw.priority.Some? then raw.priority.value else 50;
    var classes := if raw.classes.Some? then raw.classes.value else ["interactive", "batch"];
    if !(0 <= memory <= 1024) || !(0 <= priority <= 100) then Err("invalid_type")
    else if classes == [] || |classes| > 3 then Err("invalid_type")
    else if exists c | c in classes :: c !in SERVICE_CLASSES then Err("invalid_value")
    else if !Distinct(classes) then Err("duplicate_value")
    else
      Ok(Compiled(RoutePolicy(raw.id, raw.model, if raw.profile.Some? then raw.profile.value else "gpu." + raw.id,
                              memory, priority, Sort(StringLess, classes)), raw.extra))
  }

  function ParseAll(raws: seq<RawRoute>): Result<seq<Compiled>>
  {
    if raws == [] then Ok([])
    else
      match ParseAll(raws[..|raws| - 1])
      case Err(code) => Err(code)
      case Ok(before) =>
        match ParseRoute(raws[|raws| - 1])
        case Err(code) => Err(code)
        case Ok(last) => Ok(before + [last])
  }

  const BY_ID: (Compiled, Compiled) -> bool := (a: Compiled, b: Compiled) => StringLess(a.policy.id, b.policy.id)

  function Policies(routes: seq<Compiled>): (r: seq<RoutePolicy>)
    ensures |r| == |routes| && forall i | 0 <= i < |r| :: r[i] == routes[i].policy
  {
    if routes == [] then [] else [routes[0].policy] + Policies(routes[1..])
  }

  predicate UniqueIds(routes: seq<Compiled>)
  {
    forall i, j | 0 <= i < j < |routes| :: routes[i].policy.id != routes[j].policy.id
  }

  predicate UniqueProfiles(routes: seq<Compiled>)
  {
    forall i, j | 0 <= i < j < |routes| :: routes[i].policy.profile != routes[j].policy.profile
  }

  // _validate_route_set, on routes with what the configuration document says beside them
  function ValidateRouteSet(routes: seq<Compiled>): Result<seq<Compiled>>
  {
    var sorted := Sort(BY_ID, routes);
    if sorted == [] || |sorted| > 32 then Err("invalid_routes")
    else if !UniqueIds(sorted) then Err("duplicate_route")
    else if !UniqueProfiles(sorted) then Err("duplicate_profile")
    else Ok(sorted)
  }

  function Compile(raws: seq<RawRoute>): Result<Config>
  {
    if raws == [] || |raws| > 32 then Err("invalid_routes")
    else
      match ParseAll(raws)
      case Err(code) => Err(code)
      case Ok(parsed) =>
        match ValidateRouteSet(parsed)
        case Err(code) => Err(code)
        case Ok(sorted) => Ok(Config(Policies(sorted), OfDocument(sorted)))
  }

  // compile_route_policies: the same routes without what the document says beside them, and
  // a declared fingerprint that has to match
  function CompilePolicies(raws: seq<RawRoute>, declared: Option<Revision>): Result<Config>
  {
    match ParseAll(raws)
    case Err(code) => Err(code)
    case Ok(parsed) =>
      match ValidateRouteSet(parsed)
      case Err(code) => Err(code)
      case Ok(sorted) =>
        var policies := Policies(sorted);
        if declared.Some? && declared.value != OfPolicies(policies) then Err("invalid_revision")
        else Ok(Config(policies, OfPolicies(policies)))
  }

  // compile_routing_config
  method CompileRoutingConfig(raws: seq<RawRoute>) returns (r: Result<Config>)
    ensures r == Compile(raws)
  {
    if raws == [] || |raws| > 32 { return Err("invalid_routes"); }
    var parsed: seq<Compiled> := [];
    for i := 0 to |raws|
      invariant ParseAll(raws[..i]) == Ok(parsed)
    {
      assert raws[..i + 1][..i] == raws[..i];
      var route := ParseRoute(raws[i]);
      if route.Err? {
        ErrorStays(raws, i + 1);
        return Err(route.code);
      }
      parsed := parsed + [route.value];
    }
    assert raws[..|raws|] == raws;
    var sorted := ValidateRouteSet(parsed);
    if sorted.Err? { return Err(sorted.code); }
    return Ok(Config(Policies(sorted.value), OfDocument(sorted.value)));
  }

  lemma {:induction false} ErrorStays(raws: seq<RawRoute>, n: nat)
    requires n <= |raws| && ParseAll(raws[..n]).Err?
    ensures ParseAll(raws) == ParseAll(raws[..n])
    decreases |raws| - n
  {
    if n == |raws| {
      assert raws[..n] == raws;
    } else {
      assert raws[..n + 1][..n] == raws[..n];
      ErrorStays(raws, n + 1);
    }
  }

  // -------------------------------------------------- canonical under any order of routes

  // The order of a route's service classes does not matter.
  lemma ClassOrderIsIrrelevant(a: RawRoute, b: RawRoute)
    requires a.classes.Some? && b.classes.Some? && b == a.(classes := b.classes)
    requires multiset(a.classes.value) == multiset(b.classes.value)
    ensures ParseRoute(a) == ParseRoute(b)
  {
    var xs, ys := a.classes.value, b.classes.value;
    assert |xs| == |multiset(xs)| == |multiset(ys)| == |ys|;
    forall c ensures c in xs <==> c in ys {
      assert c in xs <==> c in multiset(xs);
      assert c in ys <==> c in multiset(ys);
    }
    StringsAreLinear(xs);
    if Distinct(xs) {
      DistinctElements(xs, ys);
      SortCanonical(StringLess, xs, ys);
    }
    if Distinct(ys) { DistinctElements(ys, xs); }
  }

  function ParseEach(raws: seq<RawRoute>): (r: seq<Result<Compiled>>)
  {
    Map(ParseRoute, raws)
  }

  // The two documents describe the same routes, in any order, with their service classes in
  // any order: route for route they parse to the same thing.
  ghost predicate SameRoutes(xs: seq<RawRoute>, ys: seq<RawRoute>)
  {
    multiset(ParseEach(xs)) == multiset(ParseEach(ys))
  }

  lemma PermutationsAreSame(xs: seq<RawRoute>, ys: seq<RawRoute>)
    requires multiset(xs) == multiset(ys)
    ensures SameRoutes(xs, ys)
  {
    hide ParseRoute;
    MapPermutation(ParseRoute, xs, ys);
  }

  function Values(rs: seq<Result<Compiled>>): seq<Compiled>
    requires forall i | 0 <= i < |rs| :: rs[i].Ok?
  {
    if rs == [] then [] else Values(rs[..|rs| - 1]) + [rs[|rs| - 1].value]
  }

  lemma {:induction false} ParseAllIsEach(raws: seq<RawRoute>)
    ensures |ParseEach(raws)| == |raws|
    ensures ParseAll(raws).Ok? <==> forall i | 0 <= i < |ParseEach(raws)| :: ParseEach(raws)[i].Ok?
    ensures ParseAll(raws).Ok? ==> ParseAll(raws).value == Values(ParseEach(raws))
  {
    hide ParseRoute;
    if raws != [] {
      var n := |raws| - 1;
      ParseAllIsEach(raws[..n]);
      var each := ParseEach(raws);
      assert each[..n] == ParseEach(raws[..n]);
      assert each[n] == ParseRoute(raws[n]);
      assert forall i | 0 <= i < n :: each[i] == each[..n][i];
    }
  }

  lemma {:induction false} ValuesMultiset(rs: seq<Result<Compiled>>, c: Compiled)
    requires forall i | 0 <= i < |rs| :: rs[i].Ok?
    ensures multiset(Values(rs))[c] == multiset(rs)[Ok(c)]
    ensures |Values(rs)| == |rs|
  {
    if rs != [] {
      var n := |rs| - 1;
      ValuesMultiset(rs[..n], c);
      assert rs == rs[..n] + [rs[n]];
    }
  }

  // Permuting the routes, and the service classes within a route, changes neither whether
  // the document is accepted nor the configuration it compiles to, fingerprint included.
  lemma CompileIsCanonical(xs: seq<RawRoute>, ys: seq<RawRoute>)
    requires SameRoutes(xs, ys)
    ensures Compile(xs).Ok? <==> Compile(ys).Ok?
    ensures Compile(xs).Ok? ==> Compile(xs) == Compile(ys)
    ensures forall declared :: CompilePolicies(xs, declared).Ok? ==> CompilePolicies(xs, declared) == CompilePolicies(ys, declared)
  {
    hide ParseRoute, ParseEach, ParseAll, Values, ValidateRouteSet, Policies;
    var ps, qs := ParseEach(xs), ParseEach(ys);
    ParseAllIsEach(xs);
    ParseAllIsEach(ys);
    assert |ps| == |multiset(ps)| == |multiset(qs)| == |qs|;
    if ParseAll(xs).Ok? { SameOutcomes(ps, qs); }
    if ParseAll(ys).Ok? { SameOutcomes(qs, ps); }
    if ParseAll(xs).Ok? {
      SameValues(ps, qs);
      ValidateIsCanonical(Values(ps), Values(qs));
      ValidateIsCanonical(Values(qs), Values(ps));
    }
  }

  lemma SameValues(ps: seq<Result<Compiled>>, qs: seq<Result<Compiled>>)
    requires multiset(ps) == multiset(qs)
    requires (forall i | 0 <= i < |ps| :: ps[i].Ok?) && (forall i | 0 <= i < |qs| :: qs[i].Ok?)
    ensures multiset(Values(ps)) == multiset(Values(qs))
  {
    forall c ensures multiset(Values(ps))[c] == multiset(Values(qs))[c] {
      ValuesMultiset(ps, c);
      ValuesMultiset(qs, c);
    }
  }

  lemma SameOutcomes(ps: seq<Result<Compiled>>, qs: seq<Result<Compiled>>)
    requires multiset(ps) == multiset(qs) && forall i | 0 <= i < |ps| :: ps[i].Ok?
    ensures forall i | 0 <= i < |qs| :: qs[i].Ok?
  {
    forall i | 0 <= i < |qs| ensures qs[i].Ok? {
      assert qs[i] in multiset(ps);
    }
  }

  lemma ValidateIsCanonical(a: seq<Compiled>, b: seq<Compiled>)
    requires multiset(a) == multiset(b)
    ensures ValidateRouteSet(a).Ok? ==> ValidateRouteSet(b) == ValidateRouteSet(a)
  {
    SortElements(BY_ID, a);
    SortElements(BY_ID, b);
    if ValidateRouteSet(a).Ok? {
      var sorted := Sort(BY_ID, a);
      DistinctElements(sorted, a);
      ByIdIsLinear(a, sorted);
      SortCanonical(BY_ID, a, b);
    }
  }

  lemma ByIdIsLinear(a: seq<Compiled>, sorted: seq<Compiled>)
    requires multiset(sorted) == multiset(a) && UniqueIds(sorted)
    ensures LinearOn(BY_ID, a)
  {
    forall x, y | x in a && y in a ensures x == y || x.policy.id != y.policy.id {
      assert x in multiset(sorted) && y in multiset(sorted);
    }
    forall x | x in a ensures !BY_ID(x, x) {
      StringLessIrreflexive(x.policy.id);
    }
    forall x, y | x in a && y in a ensures x == y || BY_ID(x, y) || BY_ID(y, x) {
      StringLessTotal(x.policy.id, y.policy.id);
    }
    forall x, y, z | x in a && y in a && z in a && BY_ID(x, y) && BY_ID(y, z) ensures BY_ID(x, z) {
      StringLessTransitive(x.policy.id, y.policy.id, z.policy.id);
    }
  }

  // Both compilers select the same routes; a declared fingerprint is accepted exactly if it
  // is that of the canonical policies.
  lemma CompilersAgree(raws: seq<RawRoute>, declared: Option<Revision>)
    ensures CompilePolicies(raws, None).Ok? <==> Compile(raws).Ok?
    ensures Compile(raws).Ok? ==>
      && CompilePolicies(raws, None).value.routes == Compile(raws).value.routes
      && (CompilePolicies(raws, declared).Ok? <==>
            declared.None? || declared.value == OfPolicies(Compile(raws).value.routes))
    ensures CompilePolicies(raws, declared).Ok? ==> CompilePolicies(raws, declared).value.routes == Compile(raws).value.routes
  {
    hide ParseRoute, ParseAll, Sort, UniqueIds, UniqueProfiles;
    ParsedInOrder(raws);
    if ParseAll(raws).Ok? { SortElements(BY_ID, ParseAll(raws).value); }
  }

  // ------------------------------------------------------- what is accepted, and what as

  // One of the routes is what the given one stands for.
  ghost predicate Lists(document: seq<Compiled>, raw: RawRoute)
  {
    exists k | 0 <= k < |document| :: StandsFor(raw, document[k])
  }

  // One to three of the known service classes, none twice.
  predicate ClassesOk(classes: seq<string>)
  {
    && 1 <= |classes| <= 3
    && (forall c | c in classes :: c == "interactive" || c == "batch" || c == "background")
    && forall i, j | 0 <= i < j < |classes| :: classes[i] != classes[j]
  }

  // What a route may say.
  predicate RouteOk(raw: RawRoute)
  {
    && (raw.memory.Some? ==> 0 <= raw.memory.value <= 1024)
    && (raw.priority.Some? ==> 0 <= raw.priority.value <= 100)
    && (raw.classes.Some? ==> ClassesOk(raw.classes.value))
  }

  function ProfileOf(raw: RawRoute): string
  {
    if raw.profile.Some? then raw.profile.value else "gpu." + raw.id
  }

  // What it stands for, also where it says nothing.
  ghost predicate StandsFor(raw: RawRoute, c: Compiled)
  {
    && c.extra == raw.extra && c.policy.id == raw.id && c.policy.model == raw.model && c.policy.profile == ProfileOf(raw)
    && c.policy.memory == (if raw.memory.Some? then raw.memory.value else 0)
    && c.policy.priority == (if raw.priority.Some? then raw.priority.value else 50)
    && (forall i, j | 0 <= i < j < |c.policy.classes| :: StringLess(c.policy.classes[i], c.policy.classes[j]))
    && (forall s :: s in c.policy.classes <==>
          if raw.classes.Some? then s in raw.classes.value else s == "interactive" || s == "batch")
  }

  function ClassesOf(raw: RawRoute): seq<string>
  {
    if raw.classes.Some? then raw.classes.value else ["interactive", "batch"]
  }

  lemma ParsedClasses(classes: seq<string>)
    ensures ClassesOk(classes) <==>
      classes != [] && |classes| <= 3 && !(exists c | c in classes :: c !in SERVICE_CLASSES) && Distinct(classes)
    ensures ClassesOk(classes) ==>
      && |Sort(StringLess, classes)| == |classes|
      && (forall i, j | 0 <= i < j < |classes| :: StringLess(Sort(StringLess, classes)[i], Sort(StringLess, classes)[j]))
      && forall s :: s in Sort(StringLess, classes) <==> s in classes
  {
    SortElements(StringLess, classes);
    if ClassesOk(classes) {
      StringsAreLinear(classes);
      SortIncreasing(StringLess, classes);
    }
  }

  lemma DefaultClasses()
    ensures ClassesOk(["interactive", "batch"]) && forall s :: s in ["interactive", "batch"] <==> s == "interactive" || s == "batch"
  {
    assert |"interactive"| == 11 && |"batch"| == 5;
  }

  lemma ParsedWhenOk(raw: RawRoute)
    ensures ParseRoute(raw).Ok? <==> RouteOk(raw)
    ensures ParseRoute(raw).Ok? ==> StandsFor(raw, ParseRoute(raw).value)
  {
    hide Sort, Distinct, ClassesOk;
    DefaultClasses();
    ParsedClasses(ClassesOf(raw));
    hide StringLess;
    assert RouteOk(raw) <==> (raw.memory.Some? ==> 0 <= raw.memory.value <= 1024)
                             && (raw.priority.Some? ==> 0 <= raw.priority.value <= 100) && ClassesOk(ClassesOf(raw));
  }

  lemma {:induction false} ParsedInOrder(raws: seq<RawRoute>)
    ensures ParseAll(raws).Ok? <==> forall i | 0 <= i < |raws| :: ParseRoute(raws[i]).Ok?
    ensures ParseAll(raws).Ok? ==>
      |ParseAll(raws).value| == |raws| && forall i | 0 <= i < |raws| :: ParseRoute(raws[i]) == Ok(ParseAll(raws).value[i])
  {
    hide ParseRoute;
    if raws != [] {
      var n := |raws| - 1;
      ParsedInOrder(raws[..n]);
      assert forall i | 0 <= i < n :: raws[..n][i] == raws[i];
    }
  }

  lemma UniqueInAnyOrder(a: seq<Compiled>, b: seq<Compiled>)
    requires multiset(a) == multiset(b)
    ensures UniqueIds(a) ==> UniqueIds(b)
    ensures UniqueProfiles(a) ==> UniqueProfiles(b)
  {
    if UniqueIds(a) || UniqueProfiles(a) {
      DistinctElements(a, b);
      forall i, j | 0 <= i < j < |b|
        ensures UniqueIds(a) ==> b[i].policy.id != b[j].policy.id
        ensures UniqueProfiles(a) ==> b[i].policy.profile != b[j].policy.profile
      {
        assert b[i] in multiset(b) && b[j] in multiset(b);
        var m :| 0 <= m < |a| && a[m] == b[i];
        var n :| 0 <= n < |a| && a[n] == b[j];
        assert m != n;
      }
    }
  }

  // A document compiles exactly if it lists between 1 and 32 routes, each says what it may,
  // and no two have the same id or the same profile; the configuration then holds what each
  // of them stands for, in the order of the ids, and its fingerprint covers all of that.
  lemma CompileExactly(raws: seq<RawRoute>)
    ensures Compile(raws).Ok? <==>
      && 1 <= |raws| <= 32 && (forall i | 0 <= i < |raws| :: RouteOk(raws[i]))
      && forall i, j | 0 <= i < j < |raws| :: raws[i].id != raws[j].id && ProfileOf(raws[i]) != ProfileOf(raws[j])
    ensures Compile(raws).Ok? ==>
      && Compile(raws).value.revision.OfDocument?
      && var routes, document := Compile(raws).value.routes, Compile(raws).value.revision.document;
         && |routes| == |document| == |raws|
         && (forall i | 0 <= i < |routes| :: routes[i] == document[i].policy)
         && (forall i, j | 0 <= i < j < |routes| :: StringLess(routes[i].id, routes[j].id))
         && (forall i | 0 <= i < |raws| :: Lists(document, raws[i]))
  {
    hide ParseRoute, RouteOk, StandsFor, ParseAll, Sort, Lists, StringLess, UniqueIds, UniqueProfiles, Policies;
    forall i | 0 <= i < |raws| ensures ParseRoute(raws[i]).Ok? <==> RouteOk(raws[i]) {
      ParsedWhenOk(raws[i]);
    }
    ParsedInOrder(raws);
    if ParseAll(raws).Ok? {
      ListedOnce(raws, ParseAll(raws).value);
    }
  }

  // The routes of a document that parses.
  lemma ListedOnce(raws: seq<RawRoute>, parsed: seq<Compiled>)
    requires |parsed| == |raws| && forall i | 0 <= i < |raws| :: ParseRoute(raws[i]) == Ok(parsed[i])
    ensures var sorted := Sort(BY_ID, parsed);
      && |sorted| == |parsed|
      && (UniqueIds(sorted) && UniqueProfiles(sorted) <==>
            forall i, j | 0 <= i < j < |raws| :: raws[i].id != raws[j].id && ProfileOf(raws[i]) != ProfileOf(raws[j]))
      && (UniqueIds(sorted) ==> forall i, j | 0 <= i < j < |sorted| :: StringLess(sorted[i].policy.id, sorted[j].policy.id))
      && (forall i | 0 <= i < |raws| :: Lists(sorted, raws[i]))
  {
    hide ParseRoute, StandsFor, Sort, RouteOk, ProfileOf, StringLess;
    forall i | 0 <= i < |raws|
      ensures StandsFor(raws[i], parsed[i]) && parsed[i].policy.id == raws[i].id && parsed[i].policy.profile == ProfileOf(raws[i])
    {
      ParsedWhenOk(raws[i]);
      StandsForIts(raws[i], parsed[i]);
    }
    InOrder(parsed);
    hide UniqueIds, UniqueProfiles;
    UniqueMeans(raws, parsed);
    var sorted := Sort(BY_ID, parsed);
    forall i | 0 <= i < |raws| ensures Lists(sorted, raws[i]) {
      assert parsed[i] in sorted;
    }
  }

  lemma UniqueMeans(raws: seq<RawRoute>, parsed: seq<Compiled>)
    requires |parsed| == |raws|
    requires forall i | 0 <= i < |raws| :: parsed[i].policy.id == raws[i].id && parsed[i].policy.profile == ProfileOf(raws[i])
    ensures UniqueIds(parsed) && UniqueProfiles(parsed) <==>
      forall i, j | 0 <= i < j < |raws| :: raws[i].id != raws[j].id && ProfileOf(raws[i]) != ProfileOf(raws[j])
  {
  }

  lemma InOrder(parsed: seq<Compiled>)
    ensures var sorted := Sort(BY_ID, parsed);
      && |sorted| == |parsed| && (forall c :: c in sorted <==> c in parsed)
      && (UniqueIds(sorted) <==> UniqueIds(parsed)) && (UniqueProfiles(sorted) <==> UniqueProfiles(parsed))
      && (UniqueIds(sorted) ==> forall i, j | 0 <= i < j < |sorted| :: StringLess(sorted[i].policy.id, sorted[j].policy.id))
  {
    hide Sort;
    var sorted := Sort(BY_ID, parsed);
    SortElements(BY_ID, parsed);
    UniqueInAnyOrder(parsed, sorted);
    UniqueInAnyOrder(sorted, parsed);
    if UniqueIds(sorted) {
      ByIdIsLinear(parsed, sorted);
      UniqueIsDistinct(parsed);
      SortIncreasing(BY_ID, parsed);
    }
  }

  lemma UniqueIsDistinct(a: seq<Compiled>)
    requires UniqueIds(a)
    ensures Distinct(a)
  {
  }

  lemma StandsForIts(raw: RawRoute, c: Compiled)
    requires StandsFor(raw, c)
    ensures c.policy.id == raw.id && c.policy.profile == ProfileOf(raw)
  {
  }
}
