// The resource probe: merging the two GPU inventories, binding each consumer to a verified
// runtime, and the snapshot it publishes.
//
// Processes, runtimes and metrics are given as parsed; `legal` stands for the identifier
// pattern the probe and the coordinator share.
module Probe {
  import opened Wrappers
  import opened Ordering

  const MIB: int := 1024 * 1024
  const TOLERANCE: int := 64 * MIB

  datatype Kind = Docker | SystemdUser

  datatype Profile = Profile(id: string, kind: Kind, expected: string, place: string)

  datatype ProbePolicy = ProbePolicy(owner: string, profiles: seq<Profile>, controllers: seq<string>, cuda: bool)

  // What inspecting one profile's runtime yields.
  datatype Inspection =
    | Unobservable
    | NotRunning
    | Container(id: string, image: string)
    | Unit(cgroup: string, executable: string, running: bool)

  datatype Runtime = Runtime(
    profile: Profile, verified: bool, identity: string,
    cgroup: Option<string>, container: Option<string>, healthy: bool)

  // A process's cgroup file: the container ids it mentions, and its paths.
  datatype Cgroup = Cgroup(containers: set<string>, paths: seq<string>)

  datatype Process = Process(cgroup: Option<Cgroup>, executable: Option<string>)

  // One line of a GPU inventory: memory in MiB, if it is known.
  datatype Line = Line(pid: int, memory: Option<int>)

  datatype Consumer = Consumer(pid: int, memory: Option<int>)

  datatype StateFile = StateFile(
    controller: string, epoch: int, generation: int, wellFormed: bool, mode: string, healthy: bool, boundary: bool)

  // What the probe finds when it looks; a missing entry could not be read.
  datatype Findings = Findings(
    metrics: bool,
    cuda: Option<(int, int)>,
    inspections: map<string, Inspection>,
    states: map<string, StateFile>,
    compute: Option<seq<Line>>,
    pmon: Option<seq<Line>>,
    reported: Option<seq<int>>,
    processes: map<int, Process>)

  datatype ProbeError =
    | MetricsUnobservable
    | CudaUnobservable
    | RuntimeUnobservable(profile: string)
    | IdentityMismatch(profile: string)
    | RuntimeUnhealthy(profile: string)
    | ControllerUnobservable(controller: string)
    | InventoryUnobservable
    | ConsumerUnbound(pid: int)
    | AttributionIncomplete
    | ResidualUnattributed

  datatype Entry = Entry(healthy: bool, verified: bool, identity: string, owner: string, memory: Option<int>)

  datatype GpuMemory = GpuMemory(
    reported: Option<int>, attributed: Option<int>, residual: Option<int>, reconciled: bool, tolerance: int)

  datatype Report = Report(
    healthy: bool, generation: nat, unknown: nat, active: seq<string>, profiles: map<string, Entry>,
    states: map<string, StateFile>, memory: GpuMemory, cuda: Option<(int, int)>, errors: set<ProbeError>)

  // ------------------------------------------------------------------- runtimes

  predicate WellFormedDigest(s: string)
  {
    |s| == 71 && "sha256:" <= s
  }

  function WithoutSlash(path: string): string
    decreases |path|
  {
    if path != [] && path[|path| - 1] == '/' then WithoutSlash(path[..|path| - 1]) else path
  }

  // _docker_runtime and _systemd_runtime
  function Inspect(profile: Profile, inspection: Inspection): Result<Option<Runtime>>
  {
    match inspection
    case Unobservable => Err("runtime_unobservable")
    case NotRunning => Ok(None)
    case Container(id, image) =>
      if !profile.kind.Docker? || |id| != 64 || !WellFormedDigest(image) then Err("runtime_unobservable")
      else
        var verified := image == profile.expected;
        Ok(Some(Runtime(profile, verified, "oci-image:" + image + ";container:" + id, None, Some(id), verified)))
    case Unit(cgroup, executable, running) =>
      if !profile.kind.SystemdUser? || !("/" <= cgroup) || !WellFormedDigest(executable) then Err("runtime_unobservable")
      else
        var verified := executable == profile.expected;
        Ok(Some(Runtime(profile, verified, "systemd-exe:" + executable + ";unit:" + profile.place,
                        Some(if WithoutSlash(cgroup) == "" then "/" else WithoutSlash(cgroup)), None, verified && running)))
  }

  function Inspected(f: Findings, profile: Profile): Result<Option<Runtime>>
  {
    Inspect(profile, if profile.id in f.inspections then f.inspections[profile.id] else Unobservable)
  }

  function Runtimes(f: Findings, profiles: seq<Profile>): (r: seq<Runtime>)
    ensures forall rt :: rt in r <==> rt.profile in profiles && Inspected(f, rt.profile) == Ok(Some(rt))
  {
    if profiles == [] then []
    else
      var before := Runtimes(f, profiles[..|profiles| - 1]);
      var last := profiles[|profiles| - 1];
      match Inspected(f, last)
      case Ok(Some(rt)) =>
        assert rt.profile == last;
        before + [rt]
      case _ => before
  }

  // _matches
  predicate Matches(rt: Runtime, cgroup: Cgroup)
  {
    if rt.container.Some? then
      exists c | c in cgroup.containers :: c == rt.container.value || (|c| == 12 && c <= rt.container.value)
    else if rt.cgroup.Some? then
      var base := WithoutSlash(rt.cgroup.value);
      exists p | p in cgroup.paths :: NormalPath(p) == base || base + "/" <= NormalPath(p)
    else false
  }

  function NormalPath(path: string): string
  {
    if WithoutSlash(path) == "" then "/" else WithoutSlash(path)
  }

  function Matching(runtimes: seq<Runtime>, cgroup: Cgroup): (r: seq<Runtime>)
    ensures forall rt :: rt in r <==> rt in runtimes && Matches(rt, cgroup)
    ensures |r| <= |runtimes|
  {
    if runtimes == [] then []
    else
      var before := Matching(runtimes[..|runtimes| - 1], cgroup);
      var last := runtimes[|runtimes| - 1];
      if Matches(last, cgroup) then before + [last] else before
  }

  // The runtime a consumer is bound to, if there is one.
  function Owner(f: Findings, runtimes: seq<Runtime>, pid: int): Option<Runtime>
  {
    if pid !in f.processes || f.processes[pid].cgroup.None? then None
    else
      var matches := Matching(runtimes, f.processes[pid].cgroup.value);
      if |matches| != 1 || !matches[0].verified then None
      else if matches[0].profile.kind.SystemdUser?
              && f.processes[pid].executable != Some(matches[0].profile.expected) then None
      else Some(matches[0])
  }

  // Exactly one runtime matches; it is identity-verified, and so is the process itself where
  // the runtime's identity says nothing about its children.
  ghost predicate BoundTo(f: Findings, runtimes: seq<Runtime>, pid: int, rt: Runtime)
  {
    && pid in f.processes && f.processes[pid].cgroup.Some?
    && rt.verified
    && (exists i | 0 <= i < |runtimes| ::
          && runtimes[i] == rt && Matches(rt, f.processes[pid].cgroup.value)
          && forall j | 0 <= j < |runtimes| && Matches(runtimes[j], f.processes[pid].cgroup.value) :: j == i)
    && (rt.profile.kind.SystemdUser? ==> f.processes[pid].executable == Some(rt.profile.expected))
  }

  lemma {:induction false} NoMatch(runtimes: seq<Runtime>, cgroup: Cgroup)
    ensures |Matching(runtimes, cgroup)| == 0 <==> forall j | 0 <= j < |runtimes| :: !Matches(runtimes[j], cgroup)
  {
    hide Matches;
    if runtimes != [] { NoMatch(runtimes[..|runtimes| - 1], cgroup); }
  }

  lemma {:induction false} OnlyMatchIsAll(runtimes: seq<Runtime>, cgroup: Cgroup, i: nat)
    requires OnlyMatch(runtimes, cgroup, i)
    ensures Matching(runtimes, cgroup) == [runtimes[i]]
  {
    hide Matches;
    var n := |runtimes| - 1;
    if i == n {
      NoMatch(runtimes[..n], cgroup);
    } else {
      OnlyMatchIsAll(runtimes[..n], cgroup, i);
    }
  }

  lemma {:induction false} SingleMatch(runtimes: seq<Runtime>, cgroup: Cgroup) returns (i: nat)
    requires |Matching(runtimes, cgroup)| == 1
    ensures OnlyMatch(runtimes, cgroup, i)
  {
    hide Matches;
    var n := |runtimes| - 1;
    if Matches(runtimes[n], cgroup) {
      NoMatch(runtimes[..n], cgroup);
      i := n;
    } else {
      i := SingleMatch(runtimes[..n], cgroup);
    }
  }

  ghost predicate OnlyMatch(runtimes: seq<Runtime>, cgroup: Cgroup, i: nat)
  {
    && i < |runtimes| && Matches(runtimes[i], cgroup)
    && forall j | 0 <= j < |runtimes| && Matches(runtimes[j], cgroup) :: j == i
  }

  lemma OwnerIsBound(f: Findings, runtimes: seq<Runtime>, pid: int, rt: Runtime)
    ensures Owner(f, runtimes, pid) == Some(rt) <==> BoundTo(f, runtimes, pid, rt)
  {
    hide Matches;
    if pid in f.processes && f.processes[pid].cgroup.Some? {
      var cgroup := f.processes[pid].cgroup.value;
      if BoundTo(f, runtimes, pid, rt) {
        var i :| 0 <= i < |runtimes| && runtimes[i] == rt && OnlyMatch(runtimes, cgroup, i);
        OnlyMatchIsAll(runtimes, cgroup, i);
      }
      if Owner(f, runtimes, pid) == Some(rt) {
        var i := SingleMatch(runtimes, cgroup);
        OnlyMatchIsAll(runtimes, cgroup, i);
      }
    }
  }

  // ------------------------------------------------------------------- the inventories

  predicate BadLine(line: Line)
  {
    line.pid <= 0 || (line.memory.Some? && line.memory.value < 0)
  }

  function Bytes(memory: Option<int>): (r: Option<int>)
    ensures r.None? <==> memory.None?
    ensures r.Some? ==> r.value == 1_048_576 * memory.value
  {
    if memory.Some? then Some(memory.value * MIB) else None
  }

  // The compute query's own figure: its last line about the process.
  function ComputeFigure(lines: seq<Line>, pid: int): Option<int>
  {
    if lines == [] then None
    else if lines[|lines| - 1].pid == pid then Bytes(lines[|lines| - 1].memory)
    else ComputeFigure(lines[..|lines| - 1], pid)
  }

  // The monitor's figure: the first one known.
  function MonitorFigure(lines: seq<Line>, pid: int): Option<int>
  {
    if lines == [] then None
    else
      var before := MonitorFigure(lines[..|lines| - 1], pid);
      if before.Some? then before
      else if lines[|lines| - 1].pid == pid then Bytes(lines[|lines| - 1].memory)
      else None
  }

  ghost predicate Listed(lines: seq<Line>, pid: int)
  {
    exists i | 0 <= i < |lines| :: lines[i].pid == pid
  }

  function Figure(compute: seq<Line>, pmon: seq<Line>, pid: int): Option<int>
  {
    var figure := ComputeFigure(compute, pid);
    if figure.Some? then figure else MonitorFigure(pmon, pid)
  }

  const BY_PID: (Consumer, Consumer) -> bool := (a: Consumer, b: Consumer) => a.pid < b.pid

  // Exactly the processes either inventory lists, each with its figure.
  ghost predicate Gathered(values: map<int, Option<int>>, compute: seq<Line>, pmon: seq<Line>)
  {
    && (forall pid | pid in values :: (Listed(compute, pid) || Listed(pmon, pid)) && values[pid] == Figure(compute, pmon, pid))
    && (forall pid | Listed(compute, pid) || Listed(pmon, pid) :: pid in values)
  }

  // _gpu_processes: the union of both inventories, each process once. A process known to
  // either is listed, with the compute query's figure or else the monitor's.
  method GpuProcesses(compute: Option<seq<Line>>, pmon: Option<seq<Line>>) returns (r: Result<seq<Consumer>>)
    ensures r.Err? <==>
      || compute.None? || pmon.None?
      || (exists l | l in compute.value :: BadLine(l)) || (exists l | l in pmon.value :: BadLine(l))
    ensures r.Ok? ==>
      && Increasing(BY_PID, r.value)
      && forall c :: c in r.value <==>
           (Listed(compute.value, c.pid) || Listed(pmon.value, c.pid)) && c.memory == Figure(compute.value, pmon.value, c.pid)
  {
    hide Gathered, KeysOf, Figure, BadLine;
    if compute.None? || pmon.None? { return Err("gpu_inventory_unobservable"); }
    var values: map<int, Option<int>>, keys: seq<int> := map[], [];
    NothingGathered();
    for i := 0 to |compute.value|
      invariant forall j | 0 <= j < i :: !BadLine(compute.value[j])
      invariant Distinct(keys) && KeysOf(values, keys) && Gathered(values, compute.value[..i], [])
    {
      var line := compute.value[i];
      if BadLine(line) { return Err("gpu_inventory_unobservable"); }
      KeysAfter(values, keys, line.pid, Bytes(line.memory));
      ComputeNext(values, compute.value, i);
      if line.pid !in values { keys := keys + [line.pid]; }
      values := values[line.pid := Bytes(line.memory)];
    }
    assert compute.value[..|compute.value|] == compute.value && pmon.value[..0] == [];
    for i := 0 to |pmon.value|
      invariant forall j | 0 <= j < i :: !BadLine(pmon.value[j])
      invariant Distinct(keys) && KeysOf(values, keys) && Gathered(values, compute.value, pmon.value[..i])
    {
      var line := pmon.value[i];
      if BadLine(line) { return Err("gpu_inventory_unobservable"); }
      KeysAfter(values, keys, line.pid, Bytes(line.memory));
      PmonNext(values, compute.value, pmon.value, i);
      if line.pid !in values { keys := keys + [line.pid]; }
      if line.pid !in values || values[line.pid].None? { values := values[line.pid := Bytes(line.memory)]; }
    }
    assert pmon.value[..|pmon.value|] == pmon.value;
    var items := Items(values, keys);
    GatheredAll(values, compute.value, pmon.value);
    return Ok(items);
  }

  lemma NothingGathered()
    ensures Gathered(map[], [], []) && KeysOf(map[], [])
  {
  }

  lemma GatheredAll(values: map<int, Option<int>>, compute: seq<Line>, pmon: seq<Line>)
    requires Gathered(values, compute, pmon)
    ensures forall c: Consumer :: c.pid in values && c.memory == values[c.pid] <==>
              (Listed(compute, c.pid) || Listed(pmon, c.pid)) && c.memory == Figure(compute, pmon, c.pid)
  {
  }

  lemma ComputeNext(values: map<int, Option<int>>, lines: seq<Line>, i: nat)
    requires i < |lines| && Gathered(values, lines[..i], [])
    ensures Gathered(values[lines[i].pid := Bytes(lines[i].memory)], lines[..i + 1], [])
  {
    assert lines[..i + 1][..i] == lines[..i] && lines[..i + 1][i] == lines[i];
    ListedNext(lines, i);
  }

  lemma PmonNext(values: map<int, Option<int>>, compute: seq<Line>, lines: seq<Line>, i: nat)
    requires i < |lines| && Gathered(values, compute, lines[..i])
    ensures var pid := lines[i].pid;
      Gathered(if pid !in values || values[pid].None? then values[pid := Bytes(lines[i].memory)] else values,
               compute, lines[..i + 1])
  {
    assert lines[..i + 1][..i] == lines[..i] && lines[..i + 1][i] == lines[i];
    ListedNext(lines, i);
    NotListed(lines[..i]);
    NotListed(compute);
  }

  lemma ListedNext(lines: seq<Line>, i: nat)
    requires i < |lines|
    ensures forall pid :: Listed(lines[..i + 1], pid) <==> Listed(lines[..i], pid) || lines[i].pid == pid
  {
    forall pid ensures Listed(lines[..i + 1], pid) <==> Listed(lines[..i], pid) || lines[i].pid == pid {
      if lines[i].pid == pid { assert lines[..i + 1][i].pid == pid; }
      if Listed(lines[..i], pid) {
        var j :| 0 <= j < i && lines[..i][j].pid == pid;
        assert lines[..i + 1][j].pid == pid;
      }
    }
  }

  lemma {:induction false} NotListed(lines: seq<Line>)
    ensures forall pid | !Listed(lines, pid) :: ComputeFigure(lines, pid).None? && MonitorFigure(lines, pid).None?
  {
    if lines != [] {
      var n := |lines| - 1;
      NotListed(lines[..n]);
      ListedNext(lines, n);
      assert lines[..n + 1] == lines;
    }
  }

  ghost predicate KeysOf(values: map<int, Option<int>>, keys: seq<int>)
  {
    && (forall i | 0 <= i < |keys| :: keys[i] in values)
    && (forall pid | pid in values :: exists i :: 0 <= i < |keys| && keys[i] == pid)
  }

  // Setting one entry, whose key is appended if it is new.
  lemma KeysAfter(values: map<int, Option<int>>, keys: seq<int>, pid: int, figure: Option<int>)
    requires Distinct(keys) && KeysOf(values, keys)
    ensures var more := if pid in values then keys else keys + [pid];
      Distinct(more) && KeysOf(values[pid := figure], more)
  {
    var more := if pid in values then keys else keys + [pid];
    forall q: int | q in values || q == pid ensures exists i :: 0 <= i < |more| && more[i] == q {
      if q in values {
        var i :| 0 <= i < |keys| && keys[i] == q;
        assert more[i] == q;
      } else {
        assert more[|keys|] == q;
      }
    }
  }

  // sorted(values.items()), over the keys in order of insertion
  method Items(values: map<int, Option<int>>, keys: seq<int>) returns (r: seq<Consumer>)
    requires Distinct(keys) && KeysOf(values, keys)
    ensures Increasing(BY_PID, r)
    ensures forall c :: c in r <==> c.pid in values && c.memory == values[c.pid]
  {
    r := [];
    for i := 0 to |keys|
      invariant |r| == i && forall j | 0 <= j < i :: keys[j] in values && r[j] == Consumer(keys[j], values[keys[j]])
    {
      r := r + [Consumer(keys[i], values[keys[i]])];
    }
    forall c ensures c in r <==> c.pid in values && c.memory == values[c.pid] {
      if c.pid in values {
        var j :| 0 <= j < |keys| && keys[j] == c.pid;
        assert r[j].pid == c.pid;
      }
    }
    SortIncreasing(BY_PID, r);
    SortElements(BY_PID, r);
    r := Sort(BY_PID, r);
  }
}
