// Everything a training controller, its unit and its trainer can do, as single durable
// steps; and the invariant each of them keeps.
module ControllerSteps {
  import opened Wrappers
  import opened Protocol
  import opened Controller

  predicate Pending(p: Plant)
  {
    p.authority.Some? && p.authority.value.Applying?
  }

  predicate Settled(p: Plant)
  {
    p.authority.Some? && p.authority.value.Ready?
  }

  // The trainer's files are not what they were.
  predicate Touched(a: Plant, b: Plant)
  {
    a.receipt != b.receipt || a.files != b.files
  }

  // The trainer publishes while it runs, and its unit may die.
  predicate Drift(a: Plant, b: Plant)
  {
    && b.authority == a.authority
    && b.state == a.state
    && (b.active ==> a.active)
    && (Touched(a, b) ==> a.active)
  }

  predicate UnitStep(policy: Policy, a: Plant, b: Plant)
  {
    && Pending(a)
    && b.authority == a.authority
    && b.state == a.state
    && (Touched(a, b) ==> a.active || b.active)
    && (if a.authority.value.command.target.Released? then b.active ==> a.active
        else ResumeCheck(policy, a, a.authority.value.previous).Ok?)
  }

  // A non-pending controller takes up a command it does not refuse.
  predicate AcceptStep(a: Plant, b: Plant, command: Command)
  {
    && ValidCommand(command)
    && !Pending(a)
    && !AlreadyDone(command, a.authority)
    && Refusal(a, command).None?
    && b == Accepted(a, command)
  }

  predicate CompleteStep(policy: Policy, a: Plant, b: Plant)
  {
    && Pending(a)
    && var pending := a.authority.value;
       if pending.command.target.Released? then
         && !a.active
         && ReleaseCheck(a, pending.baseline).Ok?
         && b == a.(authority := Some(ReadyRecord(pending.command, Some(ReleaseCheck(a, pending.baseline).value))))
       else
         && a.active
         && (EvidenceOf(pending.previous).Some? || policy.allowFreshStart)
         && b == a.(authority := Some(ReadyRecord(pending.command, EvidenceOf(pending.previous))))
  }

  predicate PublishStep(a: Plant, b: Plant)
  {
    Settled(a) && b == a.(state := Some(a.authority.value.public))
  }

  // A step in which the controller may take up only one of `commands`.
  predicate Step(policy: Policy, a: Plant, b: Plant, commands: iset<Command>)
  {
    || Drift(a, b)
    || UnitStep(policy, a, b)
    || CompleteStep(policy, a, b)
    || PublishStep(a, b)
    || (Pending(b) && b.authority.value.command in commands && AcceptStep(a, b, b.authority.value.command))
  }

  function Before(p: Plant, states: seq<Plant>, i: nat): Plant
    requires i < |states|
  {
    if i == 0 then p else states[i - 1]
  }

  // The states `p`, then `states`, are one step apart.
  ghost predicate Linked(policy: Policy, p: Plant, states: seq<Plant>, commands: iset<Command>)
  {
    forall i | 0 <= i < |states| :: Step(policy, Before(p, states, i), states[i], commands)
  }

  lemma LinkedAppend(policy: Policy, p: Plant, first: seq<Plant>, second: seq<Plant>, commands: iset<Command>)
    requires Linked(policy, p, first, commands) && Linked(policy, Final(p, first), second, commands)
    ensures Linked(policy, p, first + second, commands)
  {
    hide Step;
    var all := first + second;
    forall i | 0 <= i < |all|
      ensures Step(policy, Before(p, all, i), all[i], commands)
    {
      if i < |first| {
        assert Before(p, all, i) == Before(p, first, i);
      } else {
        assert Before(p, all, i) == Before(Final(p, first), second, i - |first|);
      }
    }
  }

  lemma OneLinked(policy: Policy, p: Plant, q: Plant, commands: iset<Command>)
    requires Step(policy, p, q, commands)
    ensures Linked(policy, p, [q], commands)
  {
    assert Before(p, [q], 0) == p;
  }

  lemma ApplyIsLegal(policy: Policy, p: Plant, env: UnitEnv, commands: iset<Command>)
    requires Pending(p)
    ensures var a := p.authority.value;
      var run := ApplyRun(policy, p, a.command.target, a.previous, a.baseline, env);
      && Linked(policy, p, run.states, commands)
      && var q := Final(p, run.states);
         q.authority == p.authority && q.state == p.state
         && (run.out.Ok? ==>
              && run.states == [q]
              && CompleteStep(policy, q, q.(authority := Some(ReadyRecord(a.command, run.out.value)))))
  {
    var a := p.authority.value;
    var run := ApplyRun(policy, p, a.command.target, a.previous, a.baseline, env);
    if run.states != [] {
      assert run.states == [Final(p, run.states)];
      OneLinked(policy, p, run.states[0], commands);
    }
  }

  lemma CompleteIsLegal(policy: Policy, p: Plant, env: UnitEnv, commands: iset<Command>)
    requires Pending(p)
    ensures var a := p.authority.value;
      var run := CompleteRun(policy, p, a.command, a.previous, a.baseline, env);
      Linked(policy, p, run.states, commands) && (run.out.Ok? ==> Settled(Final(p, run.states)))
  {
    var a := p.authority.value;
    ApplyIsLegal(policy, p, env, commands);
    var applied := ApplyRun(policy, p, a.command.target, a.previous, a.baseline, env);
    var run := CompleteRun(policy, p, a.command, a.previous, a.baseline, env);
    hide ApplyRun, CompleteStep, Drift, UnitStep, AcceptStep;
    if applied.out.Ok? {
      var q := Final(p, applied.states);
      var r := q.(authority := Some(ReadyRecord(a.command, applied.out.value)));
      var s := r.(state := Some(r.authority.value.public));
      OneLinked(policy, q, r, commands);
      OneLinked(policy, r, s, commands);
      LinkedAppend(policy, q, [r], [s], commands);
      LinkedAppend(policy, p, [q], [r] + [s], commands);
      assert run.states == [q] + ([r] + [s]);
    }
  }

  lemma RecoverIsLegal(policy: Policy, p: Plant, env: UnitEnv, commands: iset<Command>)
    ensures var run := RecoverRun(policy, p, env);
      && Linked(policy, p, run.states, commands)
      && (run.out.Ok? ==> !Pending(Final(p, run.states)))
  {
    if Pending(p) {
      CompleteIsLegal(policy, p, env, commands);
    }
  }

  lemma ServeIsLegal(policy: Policy, p: Plant, command: Command, env: UnitEnv)
    requires ValidCommand(command) && !Pending(p)
    ensures Linked(policy, p, ServeRun(policy, p, command, env).states, iset{command})
  {
    if AlreadyDone(command, p.authority) {
      OneLinked(policy, p, p.(state := Some(p.authority.value.public)), iset{command});
    } else if Refusal(p, command).None? {
      var a := Accepted(p, command);
      OneLinked(policy, p, a, iset{command});
      CompleteIsLegal(policy, a, env, iset{command});
      hide Linked, CompleteRun, Accepted, AcceptStep;
      var completed := CompleteRun(policy, a, command, p.authority, a.authority.value.baseline, env);
      LinkedAppend(policy, p, [a], completed.states, iset{command});
    }
  }

  // Every durable step of every request, whatever the unit and trainer do, is one of the
  // steps above; the only command taken up is the one requested.
  lemma HandleIsLegal(policy: Policy, p: Plant, command: Command, env: CallEnv)
    ensures Linked(policy, p, HandleRun(policy, p, command, env).states, iset{command})
  {
    hide Linked, RecoverRun, ServeRun;
    if ValidCommand(command) {
      var recovered := RecoverRun(policy, p, env.recovery);
      RecoverIsLegal(policy, p, env.recovery, iset{command});
      if recovered.out.Ok? {
        var q := Final(p, recovered.states);
        ServeIsLegal(policy, q, command, env.apply);
        LinkedAppend(policy, p, recovered.states, ServeRun(policy, q, command, env.apply).states, iset{command});
      }
    } else {
      NothingLinked(policy, p, iset{command});
    }
  }

  lemma NothingLinked(policy: Policy, p: Plant, commands: iset<Command>)
    ensures Linked(policy, p, [], commands)
  {
  }

  // A completed record describes its command; a release holds its evidence.
  predicate RecordOk(r: Authority)
  {
    && r.Ready?
    && ValidCommand(r.command)
    && r == ReadyRecord(r.command, r.evidence)
    && (r.command.target.Released? ==> r.evidence.Some?)
  }

  // What a controller's files always satisfy. While it is released its unit is down, so the
  // checkpoint it was stopped at is still on disk.
  predicate Sound(p: Plant)
  {
    match p.authority
    case None => true
    case Some(Ready(_, _, _, _)) =>
      && RecordOk(p.authority.value)
      && (p.authority.value.command.target.Released? ==>
            !p.active && CheckpointOf(p.receipt, p.files) == Ok(p.authority.value.evidence.value))
    case Some(Applying(command, previous, baseline)) =>
      && ValidCommand(command)
      && (previous.Some? ==> RecordOk(previous.value) && previous.value.command != command)
      && (if command.Takeover? then TakeoverConflict(command, previous).None?
          else FenceConflict(command, previous).None?)
  }

  lemma StepKeepsSound(policy: Policy, a: Plant, b: Plant, commands: iset<Command>)
    requires Sound(a) && Step(policy, a, b, commands)
    ensures Sound(b)
  {
  }

  // The mutation identifiers the controller's files mention.
  function Mentions(p: Plant): set<nat>
  {
    (if p.state.Some? then {p.state.value.mutation} else {}) +
    (if p.authority.Some? then
       {p.authority.value.command.mutation} +
       (if Pending(p) && p.authority.value.previous.Some? then {p.authority.value.previous.value.command.mutation}
        else {})
     else {})
  }

  // A published state that carries the current command's mutation is that command's
  // completed record: what the probe reads is never ahead of the authority record.
  predicate Attributed(p: Plant)
  {
    p.state.Some? && p.authority.Some? && p.state.value.mutation == p.authority.value.command.mutation ==>
      Settled(p) && p.state.value == p.authority.value.public
  }

  lemma StepKeepsAttributed(policy: Policy, a: Plant, b: Plant, commands: iset<Command>)
    requires Sound(a) && Attributed(a) && Step(policy, a, b, commands)
    requires Pending(b) && !Pending(a) ==> b.authority.value.command.mutation !in Mentions(a)
    ensures Attributed(b)
    ensures Pending(b) && !Pending(a) ==> Mentions(b) <= Mentions(a) + {b.authority.value.command.mutation}
    ensures !(Pending(b) && !Pending(a)) ==> Mentions(b) <= Mentions(a)
  {
  }
}
