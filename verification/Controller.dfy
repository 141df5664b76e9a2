// The fenced training controller: a write-ahead authority record, the published state
// file, and one systemd unit it stops and starts.
//
// Every operation is described by a `Run`: the durable states it passes through, one per
// write or unit action, and its outcome. A crash, or a write that fails, leaves the
// controller in one of these states, since it keeps nothing else in memory.
module Controller {
  import opened Wrappers
  import opened Protocol

  datatype Policy = Policy(allowFreshStart: bool)

  datatype Authority =
    | Applying(command: Command, previous: Option<Authority>, baseline: Option<Identity>)
    | Ready(command: Command, public: Public, response: Response, evidence: Option<Evidence>)

  // What survives a crash of the controller process.
  datatype Plant = Plant(
    authority: Option<Authority>,
    state: Option<Public>,
    active: bool,
    receipt: ReceiptFile,
    files: map<string, seq<nat>>)

  datatype Publication = Publication(receipt: ReceiptFile, files: map<string, seq<nat>>)

  // What systemd and the trainer do during one stop or start: any combination.
  datatype UnitEnv = UnitEnv(
    raises: bool,                     // the systemctl call raises, whatever it did
    active: bool,                     // the unit is active afterwards
    queryRaises: bool,                // asking for the unit's state raises
    published: Option<Publication>)   // what the running trainer published meanwhile

  // One call may finish a pending transition first, and then do its own.
  datatype CallEnv = CallEnv(recovery: UnitEnv, apply: UnitEnv)

  datatype Run<+R> = Run(states: seq<Plant>, out: Result<R>)

  function Final(p: Plant, states: seq<Plant>): Plant
  {
    if states == [] then p else states[|states| - 1]
  }

  lemma FinalAppend(p: Plant, first: seq<Plant>, second: seq<Plant>)
    ensures Final(p, first + second) == Final(Final(p, first), second)
  {
  }

  // The trainer writes only while its unit runs.
  function Published(p: Plant, running: bool, publication: Option<Publication>): Plant
  {
    if running && publication.Some?
    then p.(receipt := publication.value.receipt, files := publication.value.files)
    else p
  }

  function Stopped(p: Plant, env: UnitEnv): Plant
  {
    Published(p, p.active, env.published).(active := p.active && env.active)
  }

  function Started(p: Plant, env: UnitEnv): Plant
  {
    Published(p, p.active || env.active, env.published).(active := env.active)
  }

  function EvidenceOf(authority: Option<Authority>): Option<Evidence>
  {
    if authority.Some? && authority.value.Ready? then authority.value.evidence else None
  }

  // The check made before a resume: an exact match with the recorded evidence, or an
  // explicitly permitted fresh start.
  function ResumeCheck(policy: Policy, p: Plant, previous: Option<Authority>): Result<()>
  {
    var expected := EvidenceOf(previous);
    if expected.Some? then
      match CheckpointOf(p.receipt, p.files)
      case Err(code) => Err(code)
      case Ok(found) => if found == expected.value then Ok(()) else Err("checkpoint_changed")
    else if policy.allowFreshStart then Ok(())
    else Err("checkpoint_required")
  }

  // The check made after a stop.
  function ReleaseCheck(p: Plant, baseline: Option<Identity>): Result<Evidence>
  {
    match CheckpointOf(p.receipt, p.files)
    case Err(code) => Err(code)
    case Ok(found) =>
      if baseline.Some? && !Advanced(found, baseline.value) then Err("checkpoint_not_advanced") else Ok(found)
  }

  function ApplyRun(policy: Policy, p: Plant, target: Mode, previous: Option<Authority>,
                    baseline: Option<Identity>, env: UnitEnv): Run<Option<Evidence>>
  {
    if target.Released? then
      var q := Stopped(p, env);
      if env.raises then Run([q], Err("unit_control_failed"))
      else if env.queryRaises then Run([q], Err("unit_state_invalid"))
      else if q.active then Run([q], Err("release_unverified"))
      else
        match ReleaseCheck(q, baseline)
        case Err(code) => Run([q], Err(code))
        case Ok(found) => Run([q], Ok(Some(found)))
    else
      match ResumeCheck(policy, p, previous)
      case Err(code) => Run([], Err(code))
      case Ok(_) =>
        var q := Started(p, env);
        if env.raises then Run([q], Err("unit_control_failed"))
        else if env.queryRaises then Run([q], Err("unit_state_invalid"))
        else if !q.active then Run([q], Err("resume_unverified"))
        else Run([q], Ok(EvidenceOf(previous)))
  }

  // The record that completes a command. A takeover publishes no checkpoint.
  function ReadyRecord(command: Command, evidence: Option<Evidence>): (r: Authority)
    ensures r.Ready?
  {
    var checkpoint := if evidence.Some? then Some(CheckpointRef(evidence.value)) else None;
    match command
    case SetMode(mutation, lease, fence, epoch, generation, target) =>
      Ready(command, Public(mutation, lease, fence, epoch, generation, target, checkpoint),
            SetModeResponse(mutation, lease, fence, epoch, generation, target, checkpoint), evidence)
    case Takeover(mutation, lease, previousFence, fence, epoch, generation, target) =>
      Ready(command, Public(mutation, lease, fence, epoch, generation, target, None),
            TakeoverResponse(mutation, lease, previousFence, fence, epoch, generation, target), evidence)
  }

  function CompleteRun(policy: Policy, p: Plant, command: Command, previous: Option<Authority>,
                       baseline: Option<Identity>, env: UnitEnv): Run<Response>
  {
    var applied := ApplyRun(policy, p, command.target, previous, baseline, env);
    match applied.out
    case Err(code) => Run(applied.states, Err(code))
    case Ok(evidence) =>
      var ready := ReadyRecord(command, evidence);
      var recorded := Final(p, applied.states).(authority := Some(ready));
      Run(applied.states + [recorded, recorded.(state := Some(ready.public))], Ok(ready.response))
  }

  // A ready record is returned as it is: its state file is not published again.
  function RecoverRun(policy: Policy, p: Plant, env: UnitEnv): Run<Option<Authority>>
  {
    match p.authority
    case None => Run([], Ok(None))
    case Some(Ready(_, _, _, _)) => Run([], Ok(p.authority))
    case Some(Applying(command, previous, baseline)) =>
      if command.Takeover? && (previous.None? || command.target.Released?) then Run([], Err("recovery_required"))
      else
        var completed := CompleteRun(policy, p, command, previous, baseline, env);
        match completed.out
        case Err(code) => Run(completed.states, Err(code))
        case Ok(_) => Run(completed.states, Ok(Final(p, completed.states).authority))
  }

  predicate ValidCommand(command: Command)
  {
    command.epoch >= 1 && command.generation >= 1 && (command.Takeover? ==> command.target.Normal?)
  }

  // None when the fence admits the command; otherwise the conflict.
  function FenceConflict(command: Command, current: Option<Authority>): Option<string>
  {
    if current.None? || !current.value.Ready? then None
    else
      var public := current.value.public;
      if command.epoch < public.epoch then Some("stale_epoch")
      else if command.epoch == public.epoch then
        if command.lease == public.lease then
          if command.fence != public.fence then Some("fence_conflict")
          else if command.generation <= public.generation then Some("generation_conflict")
          else None
        else if public.mode != Normal || command.generation != 1 then Some("lease_conflict")
        else None
      else if public.mode != Normal then Some("takeover_required")
      else None
  }

  function TakeoverConflict(command: Command, current: Option<Authority>): Option<string>
    requires command.Takeover?
  {
    if current.None? || !current.value.Ready? then Some("takeover_conflict")
    else
      var public := current.value.public;
      if public.lease != command.lease || public.fence != command.previousFence || command.epoch <= public.epoch
      then Some("takeover_conflict")
      else None
  }

  // The receipt a release must move past, captured before anything is stopped.
  function ReleaseBaseline(p: Plant, command: Command): Result<Option<Identity>>
  {
    if command.target.Normal? then Ok(None)
    else
      match IdentityIfPresent(p.receipt)
      case Err(code) => Err(code)
      case Ok(found) =>
        if found.None? && EvidenceOf(p.authority).Some? then Err("checkpoint_required") else Ok(found)
  }

  predicate AlreadyDone(command: Command, current: Option<Authority>)
  {
    current.Some? && current.value.Ready? && current.value.command == command
  }

  // None when the controller may take the command up, otherwise the refusal.
  function Refusal(p: Plant, command: Command): Option<string>
  {
    if command.Takeover? then TakeoverConflict(command, p.authority)
    else
      var conflict := FenceConflict(command, p.authority);
      if conflict.Some? then conflict
      else
        match ReleaseBaseline(p, command)
        case Err(code) => Some(code)
        case Ok(_) => None
  }

  function Accepted(p: Plant, command: Command): Plant
  {
    var baseline := if command.SetMode? && ReleaseBaseline(p, command).Ok?
                    then ReleaseBaseline(p, command).value else None;
    p.(authority := Some(Applying(command, p.authority, baseline)))
  }

  // A request once nothing is pending.
  function ServeRun(policy: Policy, p: Plant, command: Command, env: UnitEnv): Run<Response>
  {
    if AlreadyDone(command, p.authority) then
      Run([p.(state := Some(p.authority.value.public))], Ok(p.authority.value.response))
    else
      match Refusal(p, command)
      case Some(code) => Run([], Err(code))
      case None =>
        var a := Accepted(p, command);
        var completed := CompleteRun(policy, a, command, p.authority, a.authority.value.baseline, env);
        Run([a] + completed.states, completed.out)
  }

  // A whole set-mode or takeover request.
  function HandleRun(policy: Policy, p: Plant, command: Command, env: CallEnv): Run<Response>
  {
    if !ValidCommand(command) then Run([], Err("invalid_request"))
    else
      var recovered := RecoverRun(policy, p, env.recovery);
      match recovered.out
      case Err(code) => Run(recovered.states, Err(code))
      case Ok(_) =>
        var served := ServeRun(policy, Final(p, recovered.states), command, env.apply);
        Run(recovered.states + served.states, served.out)
  }

  // The controller process. Its fields are the files and the unit it governs; `history`
  // lists every durable state the process has put them in.
  class TrainingController {
    const policy: Policy
    var authority: Option<Authority>
    var state: Option<Public>
    var active: bool
    var receipt: ReceiptFile
    var files: map<string, seq<nat>>
    ghost var history: seq<Plant>

    function Disk(): Plant
      reads this
    {
      Plant(authority, state, active, receipt, files)
    }

    // The process starts over whatever an earlier one left behind.
    constructor (policy: Policy, left: Plant)
      ensures Disk() == left && this.policy == policy && history == []
    {
      this.policy := policy;
      authority, state, active := left.authority, left.state, left.active;
      receipt, files := left.receipt, left.files;
      history := [];
    }

    method WriteAuthority(record: Authority)
      modifies this
      ensures Disk() == old(Disk()).(authority := Some(record))
      ensures history == old(history) + [Disk()]
    {
      authority := Some(record);
      history := history + [Disk()];
    }

    method WriteState(public: Public)
      modifies this
      ensures Disk() == old(Disk()).(state := Some(public))
      ensures history == old(history) + [Disk()]
    {
      state := Some(public);
      history := history + [Disk()];
    }

    method StopUnit(env: UnitEnv)
      modifies this
      ensures Disk() == Stopped(old(Disk()), env)
      ensures history == old(history) + [Disk()]
    {
      if active && env.published.Some? {
        receipt, files := env.published.value.receipt, env.published.value.files;
      }
      active := active && env.active;
      history := history + [Disk()];
    }

    method StartUnit(env: UnitEnv)
      modifies this
      ensures Disk() == Started(old(Disk()), env)
      ensures history == old(history) + [Disk()]
    {
      if (active || env.active) && env.published.Some? {
        receipt, files := env.published.value.receipt, env.published.value.files;
      }
      active := env.active;
      history := history + [Disk()];
    }

    // Reads every file the receipt lists and compares size and digest.
    method ReadCheckpoint() returns (r: Result<Evidence>)
      ensures r == CheckpointOf(receipt, files)
    {
      var loaded := LoadReceipt(receipt);
      if loaded.Err? {
        return Err(loaded.code);
      }
      var listed := loaded.value.files;
      var normalized: seq<FileRecord> := [];
      for i := 0 to |listed|
        invariant normalized == listed[..i]
        invariant forall item | item in listed[..i] :: FileMatches(item, files)
        invariant FirstError(listed, files) == FirstError(listed[i..], files)
      {
        var item := listed[i];
        assert listed[i..][1..] == listed[i + 1..];
        if item.path !in files {
          return Err("checkpoint_invalid");
        }
        var observed := files[item.path];
        if |observed| != item.size || OfBytes(observed) != item.digest {
          return Err("checkpoint_changed");
        }
        normalized := normalized + [item];
      }
      assert listed[..|listed|] == listed;
      return Ok(Evidence(loaded.value.runId, loaded.value.checkpointId, SortedFiles(normalized)));
    }

    method Apply(target: Mode, previous: Option<Authority>, baseline: Option<Identity>, env: UnitEnv)
      returns (r: Result<Option<Evidence>>)
      modifies this
      ensures var run := ApplyRun(policy, old(Disk()), target, previous, baseline, env);
        && r == run.out
        && Disk() == Final(old(Disk()), run.states)
        && history == old(history) + run.states
    {
      if target.Released? {
        StopUnit(env);
        if env.raises { return Err("unit_control_failed"); }
        if env.queryRaises { return Err("unit_state_invalid"); }
        if active { return Err("release_unverified"); }
        var checkpoint := ReadCheckpoint();
        if checkpoint.Err? { return Err(checkpoint.code); }
        if baseline.Some? {
          var found := checkpoint.value;
          if found.runId != baseline.value.runId || found.checkpointId == baseline.value.checkpointId
             || ContentDigest(found.runId, found.files) == baseline.value.content {
            return Err("checkpoint_not_advanced");
          }
        }
        return Ok(Some(checkpoint.value));
      }
      var expected := EvidenceOf(previous);
      if expected.Some? {
        var checkpoint := ReadCheckpoint();
        if checkpoint.Err? { return Err(checkpoint.code); }
        if checkpoint.value != expected.value { return Err("checkpoint_changed"); }
      } else if !policy.allowFreshStart {
        return Err("checkpoint_required");
      }
      StartUnit(env);
      if env.raises { return Err("unit_control_failed"); }
      if env.queryRaises { return Err("unit_state_invalid"); }
      if !active { return Err("resume_unverified"); }
      return Ok(expected);
    }

    method Complete(command: Command, previous: Option<Authority>, baseline: Option<Identity>, env: UnitEnv)
      returns (r: Result<Response>)
      modifies this
      ensures var run := CompleteRun(policy, old(Disk()), command, previous, baseline, env);
        && r == run.out
        && Disk() == Final(old(Disk()), run.states)
        && history == old(history) + run.states
    {
      var evidence := Apply(command.target, previous, baseline, env);
      if evidence.Err? { return Err(evidence.code); }
      var record := ReadyRecord(command, evidence.value);
      WriteAuthority(record);
      WriteState(record.public);
      return Ok(record.response);
    }

    // Run when the process starts and before every request.
    method RecoverIfNeeded(env: UnitEnv) returns (r: Result<Option<Authority>>)
      modifies this
      ensures var run := RecoverRun(policy, old(Disk()), env);
        && r == run.out
        && Disk() == Final(old(Disk()), run.states)
        && history == old(history) + run.states
    {
      if authority.None? || authority.value.Ready? {
        return Ok(authority);
      }
      var pending := authority.value;
      if pending.command.Takeover? && (pending.previous.None? || pending.command.target.Released?) {
        return Err("recovery_required");
      }
      var done := Complete(pending.command, pending.previous, pending.baseline, env);
      if done.Err? { return Err(done.code); }
      return Ok(authority);
    }

    method Serve(command: Command, env: UnitEnv) returns (r: Result<Response>)
      modifies this
      ensures var run := ServeRun(policy, old(Disk()), command, env);
        && r == run.out
        && Disk() == Final(old(Disk()), run.states)
        && history == old(history) + run.states
    {
      hide CompleteRun, ReadyRecord, CheckpointOf, LoadReceipt;
      if AlreadyDone(command, authority) {
        var response := authority.value.response;
        WriteState(authority.value.public);
        return Ok(response);
      }
      var baseline: Option<Identity> := None;
      if command.Takeover? {
        var conflict := TakeoverConflict(command, authority);
        if conflict.Some? { return Err(conflict.value); }
      } else {
        var conflict := FenceConflict(command, authority);
        if conflict.Some? { return Err(conflict.value); }
        if command.target.Released? {
          var found := IdentityIfPresent(receipt);
          if found.Err? { return Err(found.code); }
          baseline := found.value;
          if baseline.None? && EvidenceOf(authority).Some? { return Err("checkpoint_required"); }
        }
      }
      var previous := authority;
      ghost var p := Disk();
      WriteAuthority(Applying(command, previous, baseline));
      assert Disk() == Accepted(p, command);
      ghost var completed := CompleteRun(policy, Disk(), command, previous, baseline, env);
      r := Complete(command, previous, baseline, env);
      assert history == old(history) + ([Accepted(p, command)] + completed.states);
    }

    method Handle(command: Command, env: CallEnv) returns (r: Result<Response>)
      modifies this
      ensures var run := HandleRun(policy, old(Disk()), command, env);
        && r == run.out
        && Disk() == Final(old(Disk()), run.states)
        && history == old(history) + run.states
    {
      hide RecoverRun, ServeRun;
      if !ValidCommand(command) { return Err("invalid_request"); }
      ghost var p := Disk();
      ghost var recovered := RecoverRun(policy, p, env.recovery);
      var current := RecoverIfNeeded(env.recovery);
      if current.Err? { return Err(current.code); }
      ghost var served := ServeRun(policy, Disk(), command, env.apply);
      r := Serve(command, env.apply);
      FinalAppend(p, recovered.states, served.states);
      assert history == old(history) + (recovered.states + served.states);
    }
  }
}
