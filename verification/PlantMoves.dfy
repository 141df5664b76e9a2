// What one controller can become between two moments at which the broker looks at it.
module PlantMoves {
  import opened Wrappers
  import opened Protocol
  import opened Controller
  import opened ControllerSteps
  import opened ControllerRuns

  // The lease a controller's workload is, or may be, displaced under.
  function DisplacedBy(p: Plant): Option<nat>
  {
    if p.authority.None? then None
    else
      match p.authority.value
      case Ready(command, _, _, _) => if command.target.Released? then Some(command.lease) else None
      case Applying(command, previous, _) =>
        if command.target.Released? then Some(command.lease)
        else if previous.Some? && previous.value.command.target.Released? then Some(previous.value.command.lease)
        else None
  }

  // The only trace a command leaves in a controller's files is as its current command.
  predicate Unseen(p: Plant, x: Command)
  {
    x.mutation in Mentions(p) ==> p.authority.Some? && Current(p) == x
  }

  function RecordOf(p: Plant): Option<Command>
  {
    if p.authority.Some? then Some(Current(p)) else None
  }

  // What the fence makes of a command once whatever is pending has been completed: only the
  // recorded command matters, pending or done.
  predicate Admits(p: Plant, x: Command)
  {
    if x.Takeover? then
      p.authority.Some? && Current(p).lease == x.lease && Current(p).fence == x.previousFence && Current(p).epoch < x.epoch
    else
      p.authority.None? || FenceAdmits(Current(p), x)
  }

  predicate FenceAdmits(now: Command, x: Command)
  {
    if x.epoch != now.epoch then now.epoch < x.epoch && now.target.Normal?
    else if x.lease == now.lease then x.fence == now.fence && now.generation < x.generation
    else now.target.Normal? && x.generation == 1
  }

  lemma AdmitsIsTheFence(p: Plant, x: Command)
    requires Sound(p) && !Pending(p)
    ensures Admits(p, x) <==>
              (if x.Takeover? then TakeoverConflict(x, p.authority).None? else FenceConflict(x, p.authority).None?)
  {
  }

  // A controller answers to its recorded command until it takes up one its fence admits; a
  // stuck one takes up none.
  predicate Answers(trainer: Policy, p: Plant, q: Plant, x: Option<Command>)
  {
    && (|| RecordOf(q) == RecordOf(p)
        || (x.Some? && RecordOf(q) == x && Admits(p, x.value) && !Stuck(trainer, p)))
    && (Stuck(trainer, p) ==> Stuck(trainer, q) && q.authority == p.authority)
    && (Settled(p) && RecordOf(q) == RecordOf(p) ==> q.authority == p.authority && Rested(p, q))
    && (RecordOf(q) == RecordOf(p) && ReturnsOrRests(p) ==> ReturnsOrRests(q) && Expected(q) == Expected(p))
  }

  // The evidence a resume asks for: the one recorded, or what was recorded before a pending
  // resume.
  function Expected(p: Plant): Option<Evidence>
  {
    if Pending(p) then EvidenceOf(p.authority.value.previous) else EvidenceOf(p.authority)
  }

  predicate ReturnsOrRests(p: Plant)
  {
    Settled(p) || (Pending(p) && Current(p).target.Normal?)
  }

  // While nothing is pending no unit starts, a unit that is down publishes nothing, and the
  // state file goes on showing the record once it does.
  predicate Rested(p: Plant, q: Plant)
  {
    && (!p.active ==> !q.active && q.receipt == p.receipt && q.files == p.files)
    && (ShowsRecord(p) ==> ShowsRecord(q))
  }

  // The state file is that of the completed record.
  predicate ShowsRecord(p: Plant)
  {
    Settled(p) && p.state == Some(p.authority.value.public)
  }

  // Everything a controller can have done while it could take up at most the command `x`.
  ghost predicate Moves(trainer: Policy, p: Plant, q: Plant, x: Option<Command>)
  {
    && Sound(q) && Attributed(q)
    && Mentions(q) <= Mentions(p) + (if x.Some? then {x.value.mutation} else {})
    && (x.Some? ==> Unseen(q, x.value))
    && Answers(trainer, p, q, x)
    && Displaces(p, q, x)
  }

  predicate Displaces(p: Plant, q: Plant, x: Option<Command>)
  {
    || DisplacedBy(q) == DisplacedBy(p)
    || DisplacedBy(q).None?
    || (x.Some? && x.value.target.Released? && DisplacedBy(q) == Some(x.value.lease) && RecordOf(q) == x)
  }

  lemma MovesFacts(trainer: Policy, p: Plant, q: Plant, x: Option<Command>)
    requires Moves(trainer, p, q, x)
    ensures Epoch(p) <= Epoch(q) && (Epoch(q) == Epoch(p) || (x.Some? && Epoch(q) == x.value.epoch))
    ensures p.authority.Some? ==> q.authority.Some?
    ensures RecordOf(q) == RecordOf(p) || (x.Some? && RecordOf(q) == x && Epoch(p) <= x.value.epoch)
    ensures Settled(p) && (x.Some? ==> x.value.epoch < Epoch(p)) ==> q.authority == p.authority
  {
  }

  ghost function Only(x: Option<Command>): iset<Command>
  {
    iset c | x == Some(c)
  }

  lemma MovesStep(trainer: Policy, p: Plant, q: Plant, r: Plant, x: Option<Command>)
    requires Moves(trainer, p, q, x) && Step(trainer, q, r, Only(x))
    requires x.Some? ==> x.value.mutation !in Mentions(p)
    ensures Moves(trainer, p, r, x)
  {
    hide Answers, Displaces;
    if Pending(r) && !Pending(q) {
      assert AcceptStep(q, r, x.value);
      assert x.value.mutation !in Mentions(q);
    }
    StepKeepsSound(trainer, q, r, Only(x));
    StepKeepsAttributed(trainer, q, r, Only(x));
    AnswersStep(trainer, p, q, r, x);
    DisplacesStep(trainer, p, q, r, x);
  }

  // One step either keeps the recorded command or takes up `x`.
  lemma StepRecord(trainer: Policy, q: Plant, r: Plant, x: Option<Command>)
    requires Sound(q) && Step(trainer, q, r, Only(x))
    ensures RecordOf(r) == RecordOf(q) || (x.Some? && RecordOf(r) == x && !Pending(q) && Admits(q, x.value))
    ensures Settled(q) && RecordOf(r) == RecordOf(q) ==> r.authority == q.authority && Rested(q, r)
    ensures RecordOf(r) == RecordOf(q) && ReturnsOrRests(q) ==> ReturnsOrRests(r) && Expected(r) == Expected(q)
  {
    if Pending(r) && !Pending(q) {
      AdmitsIsTheFence(q, x.value);
    }
  }

  lemma AnswersStep(trainer: Policy, p: Plant, q: Plant, r: Plant, x: Option<Command>)
    requires Sound(q) && Answers(trainer, p, q, x) && Step(trainer, q, r, Only(x))
    requires x.Some? ==> x.value.mutation !in Mentions(p)
    ensures Answers(trainer, p, r, x)
  {
    StepRecord(trainer, q, r, x);
    if Stuck(trainer, p) { StuckStep(trainer, q, r, Only(x)); }
    hide Step, Stuck, Sound;
    assert x.Some? ==> RecordOf(p) != x;
  }

  lemma DisplacesStep(trainer: Policy, p: Plant, q: Plant, r: Plant, x: Option<Command>)
    requires Sound(q) && Displaces(p, q, x) && Step(trainer, q, r, Only(x))
    ensures Displaces(p, r, x)
  {
  }

  lemma MovesNowhere(trainer: Policy, p: Plant, x: Option<Command>)
    requires Sound(p) && Attributed(p) && (x.Some? ==> x.value.mutation !in Mentions(p))
    ensures Moves(trainer, p, p, x)
  {
  }

  lemma {:induction false} LinkedMoves(policy: Policy, p: Plant, t: seq<Plant>, i: nat, x: Option<Command>)
    requires Sound(p) && Attributed(p) && (x.Some? ==> x.value.mutation !in Mentions(p))
    requires Linked(policy, p, t, Only(x)) && i <= |t|
    ensures Moves(policy, p, At(p, t, i), x)
  {
    hide Step, Sound, Attributed, Mentions;
    if i == 0 {
      MovesNowhere(policy, p, x);
    } else {
      LinkedMoves(policy, p, t, i - 1, x);
      assert Before(p, t, i - 1) == At(p, t, i - 1);
      MovesStep(policy, p, At(p, t, i - 1), t[i - 1], x);
    }
  }

  // One event at a controller: a request cut short anywhere, a restart, or its trainer.
  lemma EventMoves(policy: Policy, p: Plant, e: Event)
    requires Sound(p) && Attributed(p)
    requires e.Called? ==> e.command.mutation !in Mentions(p)
    ensures Moves(policy, p, Final(p, EventStates(policy, p, e)), if e.Called? then Some(e.command) else None)
  {
    hide Step, HandleRun, RecoverRun, Moves, Sound, Attributed, Mentions;
    var x := if e.Called? then Some(e.command) else None;
    var t := EventStates(policy, p, e);
    match e {
      case Called(command, env, steps) =>
        HandleIsLegal(policy, p, command, env);
        LinkedPrefix(policy, p, HandleRun(policy, p, command, env).states, steps, iset{command});
        assert Only(x) == iset{command};
      case Restarted(env, steps) =>
        RecoverIsLegal(policy, p, env, Only(x));
        LinkedPrefix(policy, p, RecoverRun(policy, p, env).states, steps, Only(x));
      case Trainer(next) =>
        DriftIsLinked(policy, p, next, Only(x));
    }
    LinkedMoves(policy, p, t, |t|, x);
    assert Final(p, t) == At(p, t, |t|);
  }

  lemma DriftIsLinked(policy: Policy, p: Plant, next: Plant, commands: iset<Command>)
    ensures Linked(policy, p, EventStates(policy, p, Trainer(next)), commands)
  {
    if Drift(p, next) { OneLinked(policy, p, next, commands); }
  }
}
