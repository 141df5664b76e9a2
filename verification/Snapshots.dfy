// Normalizing the resource snapshot that routing is given: from untyped data to the hints
// the ranking looks at.
module Snapshots {
  import opened Wrappers
  import opened Ordering

  datatype Json =
    | Null
    | Bool(b: bool)
    | Int(i: int)
    | Real(r: real)
    | NonFinite
    | Str(s: string)
    | List(items: seq<Json>)
    | Obj(fields: seq<Field>)

  datatype Field = Field(key: string, value: Json)

  datatype Metrics = Metrics(health: Option<string>, latency: Option<real>, concurrency: Option<int>)

  datatype Profile = Profile(id: string, metrics: Metrics)

  datatype Context = Context(probeHealthy: Option<bool>, active: seq<string>, profiles: seq<Profile>)

  const SNAPSHOT_FIELDS := {"probeHealthy", "activeProfiles", "profiles"}
  const METRIC_FIELDS := {"health", "latencyMs", "availableConcurrency"}
  const HEALTH_VALUES := {"healthy", "unhealthy", "degraded", "unknown"}

  function Get(fields: seq<Field>, key: string): Option<Json>
  {
    if fields == [] then None
    else if fields[0].key == key then Some(fields[0].value)
    else Get(fields[1..], key)
  }

  predicate OnlyKeys(fields: seq<Field>, keys: set<string>)
  {
    forall i | 0 <= i < |fields| :: fields[i].key in keys
  }

  function Strings(items: seq<Json>): seq<string>
    requires forall i | 0 <= i < |items| :: items[i].Str?
  {
    if items == [] then [] else [items[0].s] + Strings(items[1..])
  }

  // One profile's metrics.
  function NormalizeMetrics(value: Json, strict: bool): Result<Metrics>
  {
    if !value.Obj? then Err("invalid_type")
    else if strict && !OnlyKeys(value.fields, METRIC_FIELDS) then Err("unknown_field")
    else
      var health, latency, concurrency :=
        Get(value.fields, "health"), Get(value.fields, "latencyMs"), Get(value.fields, "availableConcurrency");
      if health.Some? && !(health.value.Str? && health.value.s in HEALTH_VALUES) then Err("invalid_metric")
      else if latency.Some? && !IsMetric(latency.value) then Err("invalid_metric")
      else if concurrency.Some? && !(concurrency.value.Int? && concurrency.value.i >= 0) then Err("invalid_metric")
      else
        Ok(Metrics(
          if health.Some? then Some(health.value.s) else None,
          if latency.Some? then Some(Number(latency.value)) else None,
          if concurrency.Some? then Some(concurrency.value.i) else None))
  }

  // _metric_number: finite and not negative
  predicate IsMetric(value: Json)
  {
    (value.Int? && value.i >= 0) || (value.Real? && value.r >= 0.0)
  }

  function Number(value: Json): real
    requires IsMetric(value)
  {
    if value.Int? then value.i as real else value.r
  }

  function NormalizeProfiles(fields: seq<Field>, strict: bool): Result<seq<Profile>>
  {
    if fields == [] then Ok([])
    else
      var n := |fields| - 1;
      match NormalizeProfiles(fields[..n], strict)
      case Err(code) => Err(code)
      case Ok(before) =>
        match NormalizeMetrics(fields[n].value, strict)
        case Err(code) => Err(code)
        case Ok(metrics) => Ok(before + [Profile(fields[n].key, metrics)])
  }

  predicate ActiveOk(value: Json)
  {
    value.List? && forall i | 0 <= i < |value.items| :: value.items[i].Str? && value.items[i].s != ""
  }

  predicate ProfilesOk(value: Json)
  {
    value.Obj? && forall i | 0 <= i < |value.fields| :: value.fields[i].key != ""
  }

  function Normalize(raw: Json, strict: bool): Result<Context>
  {
    var value := if raw.Null? then Obj([]) else raw;
    if !value.Obj? then Err("invalid_type")
    else if strict && !OnlyKeys(value.fields, SNAPSHOT_FIELDS) then Err("unknown_field")
    else
      var healthy := GetOr(value.fields, "probeHealthy", Null);
      var active := GetOr(value.fields, "activeProfiles", List([]));
      var profiles := GetOr(value.fields, "profiles", Obj([]));
      if !healthy.Null? && !healthy.Bool? then Err("invalid_metric")
      else if !ActiveOk(active) then Err("invalid_metric")
      else if !Distinct(Strings(active.items)) then Err("duplicate_value")
      else if !ProfilesOk(profiles) then Err("invalid_metric")
      else
        match NormalizeProfiles(profiles.fields, strict)
        case Err(code) => Err(code)
        case Ok(clean) => Ok(Context(if healthy.Bool? then Some(healthy.b) else None, Strings(active.items), clean))
  }

  function GetOr(fields: seq<Field>, key: string, default: Json): Json
  {
    var found := Get(fields, key);
    if found.Some? then found.value else default
  }

  // normalize_routing_snapshot
  method NormalizeRoutingSnapshot(raw: Json, strict: bool) returns (r: Result<Context>)
    ensures r == Normalize(raw, strict)
  {
    var value := if raw.Null? then Obj([]) else raw;
    if !value.Obj? { return Err("invalid_type"); }
    if strict && !OnlyKeys(value.fields, SNAPSHOT_FIELDS) { return Err("unknown_field"); }
    var healthy := GetOr(value.fields, "probeHealthy", Null);
    if !healthy.Null? && !healthy.Bool? { return Err("invalid_metric"); }
    var active := GetOr(value.fields, "activeProfiles", List([]));
    if !ActiveOk(active) { return Err("invalid_metric"); }
    if !Distinct(Strings(active.items)) { return Err("duplicate_value"); }
    var profiles := GetOr(value.fields, "profiles", Obj([]));
    if !ProfilesOk(profiles) { return Err("invalid_metric"); }
    var fields := profiles.fields;
    var clean: seq<Profile> := [];
    for i := 0 to |fields|
      invariant NormalizeProfiles(fields[..i], strict) == Ok(clean)
    {
      assert fields[..i + 1][..i] == fields[..i] && fields[..i + 1][i] == fields[i];
      var metrics := NormalizeMetrics(fields[i].value, strict);
      if metrics.Err? {
        ProfileErrorStays(fields, strict, i + 1);
        return Err(metrics.code);
      }
      clean := clean + [Profile(fields[i].key, metrics.value)];
    }
    assert fields[..|fields|] == fields;
    return Ok(Context(if healthy.Bool? then Some(healthy.b) else None, Strings(active.items), clean));
  }

  lemma {:induction false} ProfileErrorStays(fields: seq<Field>, strict: bool, n: nat)
    requires n <= |fields| && NormalizeProfiles(fields[..n], strict).Err?
    ensures NormalizeProfiles(fields, strict) == NormalizeProfiles(fields[..n], strict)
    decreases |fields| - n
  {
    if n == |fields| {
      assert fields[..n] == fields;
    } else {
      assert fields[..n + 1][..n] == fields[..n];
      ProfileErrorStays(fields, strict, n + 1);
    }
  }

  // ------------------------------------------------------------------- idempotence

  // The normalized snapshot as the data it is passed on as.
  function MetricsJson(m: Metrics): Json
  {
    Obj((if m.health.Some? then [Field("health", Str(m.health.value))] else [])
        + (if m.latency.Some? then [Field("latencyMs", Real(m.latency.value))] else [])
        + (if m.concurrency.Some? then [Field("availableConcurrency", Int(m.concurrency.value))] else []))
  }

  function ProfileFields(profiles: seq<Profile>): (r: seq<Field>)
    ensures |r| == |profiles|
  {
    if profiles == [] then []
    else ProfileFields(profiles[..|profiles| - 1])
         + [Field(profiles[|profiles| - 1].id, MetricsJson(profiles[|profiles| - 1].metrics))]
  }

  function StrItems(xs: seq<string>): (r: seq<Json>)
    ensures |r| == |xs| && forall i | 0 <= i < |xs| :: r[i] == Str(xs[i])
  {
    if xs == [] then [] else [Str(xs[0])] + StrItems(xs[1..])
  }

  function ContextJson(c: Context): Json
  {
    Obj([Field("probeHealthy", if c.probeHealthy.Some? then Bool(c.probeHealthy.value) else Null),
         Field("activeProfiles", List(StrItems(c.active))),
         Field("profiles", Obj(ProfileFields(c.profiles)))])
  }

  predicate MetricsOk(m: Metrics)
  {
    && (m.health.Some? ==> m.health.value in HEALTH_VALUES)
    && (m.latency.Some? ==> m.latency.value >= 0.0)
    && (m.concurrency.Some? ==> m.concurrency.value >= 0)
  }

  predicate ContextOk(c: Context)
  {
    && (forall i | 0 <= i < |c.active| :: c.active[i] != "") && Distinct(c.active)
    && (forall i | 0 <= i < |c.profiles| :: c.profiles[i].id != "" && MetricsOk(c.profiles[i].metrics))
  }

  lemma {:induction false} StringsOk(items: seq<Json>)
    requires forall i | 0 <= i < |items| :: items[i].Str?
    ensures |Strings(items)| == |items| && forall i | 0 <= i < |items| :: Strings(items)[i] == items[i].s
  {
    if items != [] { StringsOk(items[1..]); }
  }

  lemma {:induction false} StringsOfStrings(xs: seq<string>)
    ensures Strings(StrItems(xs)) == xs
  {
    StringsOk(StrItems(xs));
  }

  lemma {:induction false} ProfilesNormal(fields: seq<Field>, strict: bool)
    requires NormalizeProfiles(fields, strict).Ok?
    ensures var r := NormalizeProfiles(fields, strict).value;
      |r| == |fields| && forall i | 0 <= i < |r| :: r[i].id == fields[i].key && MetricsOk(r[i].metrics)
  {
    if fields != [] {
      var n := |fields| - 1;
      ProfilesNormal(fields[..n], strict);
      assert forall i | 0 <= i < n :: fields[..n][i] == fields[i];
    }
  }

  lemma NormalIsOk(raw: Json, strict: bool)
    requires Normalize(raw, strict).Ok?
    ensures ContextOk(Normalize(raw, strict).value)
  {
    var value := if raw.Null? then Obj([]) else raw;
    StringsOk(GetOr(value.fields, "activeProfiles", List([])).items);
    ProfilesNormal(GetOr(value.fields, "profiles", Obj([])).fields, strict);
  }

  lemma {:induction false} GetConcat(xs: seq<Field>, ys: seq<Field>, key: string)
    ensures Get(xs + ys, key) == if Get(xs, key).Some? then Get(xs, key) else Get(ys, key)
  {
    if xs == [] {
      assert xs + ys == ys;
    } else {
      assert (xs + ys)[1..] == xs[1..] + ys;
      GetConcat(xs[1..], ys, key);
    }
  }

  lemma GetNext(f: Field, rest: seq<Field>, key: string)
    ensures Get([f] + rest, key) == if f.key == key then Some(f.value) else Get(rest, key)
  {
    assert ([f] + rest)[1..] == rest;
  }

  // The key names all differ.
  lemma KeysDiffer()
    ensures "health" != "latencyMs" && "health" != "availableConcurrency" && "latencyMs" != "availableConcurrency"
    ensures "probeHealthy" != "activeProfiles" && "probeHealthy" != "profiles" && "activeProfiles" != "profiles"
  {
    assert |"health"| == 6 && |"latencyMs"| == 9 && |"availableConcurrency"| == 20;
    assert |"probeHealthy"| == 12 && |"activeProfiles"| == 14 && |"profiles"| == 8;
  }

  function One(key: string, value: Option<Json>): (r: seq<Field>)
    ensures |r| == if value.Some? then 1 else 0
  {
    if value.Some? then [Field(key, value.value)] else []
  }

  lemma GetOne(key: string, value: Option<Json>, other: string)
    ensures Get(One(key, value), other) == if key == other then value else None
  {
    if value.Some? { GetNext(Field(key, value.value), [], other); }
    assert value.Some? ==> One(key, value) == [Field(key, value.value)] + [];
  }

  lemma MetricsFields(m: Metrics, key: string)
    ensures Get(MetricsJson(m).fields, key)
            == if key == "health" then (if m.health.Some? then Some(Str(m.health.value)) else None)
               else if key == "latencyMs" then (if m.latency.Some? then Some(Real(m.latency.value)) else None)
               else if key == "availableConcurrency" then (if m.concurrency.Some? then Some(Int(m.concurrency.value)) else None)
               else None
  {
    KeysDiffer();
    var health := One("health", if m.health.Some? then Some(Str(m.health.value)) else None);
    var latency := One("latencyMs", if m.latency.Some? then Some(Real(m.latency.value)) else None);
    var concurrency := One("availableConcurrency", if m.concurrency.Some? then Some(Int(m.concurrency.value)) else None);
    assert MetricsJson(m).fields == health + latency + concurrency;
    GetConcat(health + latency, concurrency, key);
    GetConcat(health, latency, key);
    GetOne("health", if m.health.Some? then Some(Str(m.health.value)) else None, key);
    GetOne("latencyMs", if m.latency.Some? then Some(Real(m.latency.value)) else None, key);
    GetOne("availableConcurrency", if m.concurrency.Some? then Some(Int(m.concurrency.value)) else None, key);
  }

  lemma MetricsAgain(m: Metrics, strict: bool)
    requires MetricsOk(m)
    ensures NormalizeMetrics(MetricsJson(m), strict) == Ok(m)
  {
    hide Get;
    KeysDiffer();
    MetricsFields(m, "health");
    MetricsFields(m, "latencyMs");
    MetricsFields(m, "availableConcurrency");
    assert OnlyKeys(MetricsJson(m).fields, METRIC_FIELDS);
  }

  lemma {:induction false} ProfilesAgain(profiles: seq<Profile>, strict: bool)
    requires forall i | 0 <= i < |profiles| :: profiles[i].id != "" && MetricsOk(profiles[i].metrics)
    ensures NormalizeProfiles(ProfileFields(profiles), strict) == Ok(profiles)
    ensures ProfilesOk(Obj(ProfileFields(profiles)))
  {
    hide NormalizeMetrics, MetricsJson, MetricsOk;
    FieldsOfProfiles(profiles);
    if profiles != [] {
      var n := |profiles| - 1;
      ProfilesAgain(profiles[..n], strict);
      MetricsAgain(profiles[n].metrics, strict);
      assert ProfileFields(profiles)[..n] == ProfileFields(profiles[..n]);
      assert profiles == profiles[..n] + [Profile(profiles[n].id, profiles[n].metrics)];
    }
  }

  lemma {:induction false} FieldsOfProfiles(profiles: seq<Profile>)
    ensures forall i | 0 <= i < |profiles| :: ProfileFields(profiles)[i] == Field(profiles[i].id, MetricsJson(profiles[i].metrics))
  {
    hide MetricsJson;
    if profiles != [] {
      var n := |profiles| - 1;
      FieldsOfProfiles(profiles[..n]);
      assert forall i | 0 <= i < n :: ProfileFields(profiles)[i] == ProfileFields(profiles[..n])[i] && profiles[..n][i] == profiles[i];
    }
  }

  lemma ThreeFields(a: Json, b: Json, c: Json)
    ensures var fields := [Field("probeHealthy", a), Field("activeProfiles", b), Field("profiles", c)];
      && OnlyKeys(fields, SNAPSHOT_FIELDS)
      && GetOr(fields, "probeHealthy", Null) == a
      && GetOr(fields, "activeProfiles", List([])) == b
      && GetOr(fields, "profiles", Obj([])) == c
  {
    var fields := [Field("probeHealthy", a), Field("activeProfiles", b), Field("profiles", c)];
    KeysDiffer();
    forall key ensures Get(fields, key)
                       == if key == "probeHealthy" then Some(a) else if key == "activeProfiles" then Some(b)
                          else if key == "profiles" then Some(c) else None
    {
      assert fields == [fields[0]] + ([fields[1]] + ([fields[2]] + []));
      GetNext(fields[0], [fields[1]] + ([fields[2]] + []), key);
      GetNext(fields[1], [fields[2]] + [], key);
      GetNext(fields[2], [], key);
    }
  }

  // Normalizing what was normalized changes nothing, by either parser.
  lemma NormalizeIsIdempotent(raw: Json, strict: bool, again: bool)
    requires Normalize(raw, strict).Ok?
    ensures Normalize(ContextJson(Normalize(raw, strict).value), again) == Normalize(raw, strict)
  {
    var c := Normalize(raw, strict).value;
    NormalIsOk(raw, strict);
    ContextAgain(c, again);
  }

  lemma ContextAgain(c: Context, strict: bool)
    requires ContextOk(c)
    ensures Normalize(ContextJson(c), strict) == Ok(c)
  {
    hide NormalizeProfiles, ProfileFields, Strings, StrItems, OnlyKeys, GetOr, Get, MetricsOk;
    StringsOfStrings(c.active);
    ProfilesAgain(c.profiles, strict);
    ThreeFields(if c.probeHealthy.Some? then Bool(c.probeHealthy.value) else Null,
                List(StrItems(c.active)), Obj(ProfileFields(c.profiles)));
  }

  // What the strict parser accepts, the lenient one accepts alike.
  lemma StrictIsLenient(raw: Json)
    requires Normalize(raw, true).Ok?
    ensures Normalize(raw, false) == Normalize(raw, true)
  {
    var value := if raw.Null? then Obj([]) else raw;
    ProfilesLenient(GetOr(value.fields, "profiles", Obj([])).fields);
  }

  lemma {:induction false} ProfilesLenient(fields: seq<Field>)
    requires NormalizeProfiles(fields, true).Ok?
    ensures NormalizeProfiles(fields, false) == NormalizeProfiles(fields, true)
  {
    if fields != [] { ProfilesLenient(fields[..|fields| - 1]); }
  }

  // ------------------------------------------------------------ which snapshots are accepted

  // The value of the first field of that name.
  ghost predicate Holds(fields: seq<Field>, key: string, v: Json)
  {
    exists i | 0 <= i < |fields| :: fields[i] == Field(key, v) && forall j | 0 <= j < i :: fields[j].key != key
  }

  lemma {:induction false} GetIsFirst(fields: seq<Field>, key: string)
    ensures forall v :: Get(fields, key) == Some(v) <==> Holds(fields, key, v)
    ensures Get(fields, key).None? <==> forall i | 0 <= i < |fields| :: fields[i].key != key
    decreases |fields|
  {
    if fields != [] {
      GetIsFirst(fields[1..], key);
      forall v ensures Get(fields, key) == Some(v) <==> Holds(fields, key, v) {
        if fields[0].key == key {
          if Holds(fields, key, v) {
            var i :| 0 <= i < |fields| && fields[i] == Field(key, v) && forall j | 0 <= j < i :: fields[j].key != key;
            assert i == 0;
          }
        } else {
          if Holds(fields[1..], key, v) {
            var i :| 0 <= i < |fields[1..]| && fields[1..][i] == Field(key, v) && forall j | 0 <= j < i :: fields[1..][j].key != key;
            assert fields[i + 1] == Field(key, v) && forall j | 0 <= j < i + 1 :: fields[j].key != key;
          }
          if Holds(fields, key, v) {
            var i :| 0 <= i < |fields| && fields[i] == Field(key, v) && forall j | 0 <= j < i :: fields[j].key != key;
            assert fields[1..][i - 1] == Field(key, v) && forall j | 0 <= j < i - 1 :: fields[1..][j].key != key;
          }
        }
      }
    }
  }

  // What one profile may say.
  ghost predicate EntryFine(value: Json, strict: bool)
  {
    && value.Obj?
    && (strict ==> forall i | 0 <= i < |value.fields| ::
          value.fields[i].key == "health" || value.fields[i].key == "latencyMs" || value.fields[i].key == "availableConcurrency")
    && (forall v | Holds(value.fields, "health", v) ::
          v == Str("healthy") || v == Str("unhealthy") || v == Str("degraded") || v == Str("unknown"))
    && (forall v | Holds(value.fields, "latencyMs", v) :: (v.Int? && 0 <= v.i) || (v.Real? && 0.0 <= v.r))
    && (forall v | Holds(value.fields, "availableConcurrency", v) :: v.Int? && 0 <= v.i)
  }

  ghost predicate ListFine(v: Json)
  {
    && v.List? && (forall i | 0 <= i < |v.items| :: v.items[i].Str? && v.items[i].s != "")
    && forall i, j | 0 <= i < j < |v.items| :: v.items[i] != v.items[j]
  }

  // And the whole.
  ghost predicate SnapshotFine(raw: Json, strict: bool)
  {
    raw.Null? ||
    (&& raw.Obj?
     && (strict ==> forall i | 0 <= i < |raw.fields| ::
           raw.fields[i].key == "probeHealthy" || raw.fields[i].key == "activeProfiles" || raw.fields[i].key == "profiles")
     && (forall v | Holds(raw.fields, "probeHealthy", v) :: v.Null? || v.Bool?)
     && (forall v | Holds(raw.fields, "activeProfiles", v) :: ListFine(v))
     && (forall v | Holds(raw.fields, "profiles", v) ::
           v.Obj? && forall i | 0 <= i < |v.fields| :: v.fields[i].key != "" && EntryFine(v.fields[i].value, strict)))
  }

  lemma EntryAccepted(value: Json, strict: bool)
    ensures NormalizeMetrics(value, strict).Ok? <==> EntryFine(value, strict)
  {
    hide Get, Holds;
    if value.Obj? {
      GetIsFirst(value.fields, "health");
      GetIsFirst(value.fields, "latencyMs");
      GetIsFirst(value.fields, "availableConcurrency");
    }
  }

  lemma {:induction false} EntriesAccepted(fields: seq<Field>, strict: bool)
    ensures NormalizeProfiles(fields, strict).Ok? <==> forall i | 0 <= i < |fields| :: EntryFine(fields[i].value, strict)
  {
    hide NormalizeMetrics, EntryFine;
    if fields != [] {
      var n := |fields| - 1;
      EntriesAccepted(fields[..n], strict);
      EntryAccepted(fields[n].value, strict);
      assert forall i | 0 <= i < n :: fields[..n][i] == fields[i];
    }
  }

  lemma ListAccepted(v: Json)
    ensures ActiveOk(v) && Distinct(Strings(v.items)) <==> ListFine(v)
  {
    if ActiveOk(v) { StringsOk(v.items); }
  }

  // A snapshot is accepted exactly if everything it says is of the right shape; the strict
  // parser asks, besides, that it say nothing else.
  lemma NormalizeExactly(raw: Json, strict: bool)
    ensures Normalize(raw, strict).Ok? <==> SnapshotFine(raw, strict)
  {
    hide Get, Holds, NormalizeProfiles, EntryFine, ListFine, Strings, ActiveOk;
    NothingIsFine(strict);
    if raw.Obj? {
      GetIsFirst(raw.fields, "probeHealthy");
      GetIsFirst(raw.fields, "activeProfiles");
      GetIsFirst(raw.fields, "profiles");
      var active, profiles := GetOr(raw.fields, "activeProfiles", List([])), GetOr(raw.fields, "profiles", Obj([]));
      ListAccepted(active);
      if profiles.Obj? { EntriesAccepted(profiles.fields, strict); }
      assert OnlyKeys(raw.fields, SNAPSHOT_FIELDS) <==> forall i | 0 <= i < |raw.fields| ::
        raw.fields[i].key == "probeHealthy" || raw.fields[i].key == "activeProfiles" || raw.fields[i].key == "profiles";
    }
  }

  lemma NothingIsFine(strict: bool)
    ensures ListFine(List([])) && NormalizeProfiles([], strict).Ok? && ActiveOk(List([])) && Strings([]) == []
    ensures Get([], "probeHealthy").None? && Get([], "activeProfiles").None? && Get([], "profiles").None?
  {
  }
}
