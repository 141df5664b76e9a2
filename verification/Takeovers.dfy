// When a request that ends in the normal mode, a takeover among them, completes; and what
// becomes of one that is taken up and does not.
module Takeovers {
  import opened Wrappers
  import opened Protocol
  import opened Controller
  import opened ControllerSteps
  import opened ControllerRuns
  import opened PlantMoves

  // What a resume asks of the disk: the recorded evidence, or permission to start afresh
  // where there is none.
  predicate Backed(trainer: Policy, p: Plant, evidence: Option<Evidence>)
  {
    if evidence.None? then trainer.allowFreshStart else CheckpointOf(p.receipt, p.files) == Ok(evidence.value)
  }

  lemma BackedIsTheCheck(trainer: Policy, p: Plant, previous: Option<Authority>)
    ensures ResumeCheck(trainer, p, previous).Ok? <==> Backed(trainer, p, EvidenceOf(previous))
  {
  }

  predicate UnitStarts(env: UnitEnv)
  {
    !env.raises && !env.queryRaises && env.active
  }

  // Recovery keeps the recorded command and, if it succeeds, leaves nothing pending.
  lemma RecoveredRecord(trainer: Policy, p: Plant, env: UnitEnv)
    requires Sound(p)
    ensures var q := Final(p, RecoverRun(trainer, p, env).states);
      && RecordOf(q) == RecordOf(p)
      && (RecoverRun(trainer, p, env).out.Ok? ==> !Pending(q) && Sound(q))
      && (!Pending(p) ==> q == p && RecoverRun(trainer, p, env).out.Ok?)
  {
    var run := RecoverRun(trainer, p, env);
    RecoverIsLegal(trainer, p, env, ANY);
    RunIsSound(trainer, p, run.states, |run.states|, ANY);
    assert Final(p, run.states) == At(p, run.states, |run.states|);
    if Pending(p) { RestartCompletesOrKeeps(trainer, p, env); }
  }

  // A new request for the normal mode, a takeover for one, succeeds exactly if its numbers
  // start from 1, what is pending completes first, the fence admits it, the evidence then recorded is on disk (or
  // there is none and a fresh start is allowed), and the unit starts.
  lemma ResumeCompletes(trainer: Policy, p: Plant, x: Command, env: CallEnv)
    requires Sound(p) && x.target.Normal? && RecordOf(p) != Some(x)
    ensures
      var recovered := RecoverRun(trainer, p, env.recovery);
      var q := Final(p, recovered.states);
      HandleRun(trainer, p, x, env).out.Ok? <==>
        1 <= x.epoch && 1 <= x.generation && recovered.out.Ok? && Admits(p, x) && Backed(trainer, q, EvidenceOf(q.authority)) && UnitStarts(env.apply)
  {
    hide RecoverRun, ServeRun, Backed;
    RecoveredRecord(trainer, p, env.recovery);
    var recovered := RecoverRun(trainer, p, env.recovery);
    if recovered.out.Ok? {
      var q := Final(p, recovered.states);
      ResumeServed(trainer, q, x, env.apply);
    }
  }

  lemma ResumeServed(trainer: Policy, q: Plant, x: Command, env: UnitEnv)
    requires Sound(q) && !Pending(q) && x.target.Normal? && RecordOf(q) != Some(x)
    ensures ServeRun(trainer, q, x, env).out.Ok? <==>
              Admits(q, x) && Backed(trainer, q, EvidenceOf(q.authority)) && UnitStarts(env)
  {
    AdmitsIsTheFence(q, x);
    BackedIsTheCheck(trainer, q, q.authority);
  }

  // What a release asks of the receipt before it stops anything: one that lists between 1
  // and 128 files, no path twice, or none at all if no evidence is recorded either.
  predicate Releasable(p: Plant)
  {
    match p.receipt
    case Unreadable => false
    case Absent => EvidenceOf(p.authority).None?
    case Present(r) => 1 <= |r.files| <= 128 && forall i, j | 0 <= i < j < |r.files| :: r.files[i].path != r.files[j].path
  }

  // And what it asks of the one it then finds, if there was one before: the same run,
  // another identifier, other files.
  predicate MovesPast(before: ReceiptFile, after: Receipt)
  {
    before.Present? ==>
      && after.runId == before.receipt.runId
      && after.checkpointId != before.receipt.checkpointId
      && multiset(after.files) != multiset(before.receipt.files)
  }

  // A new request for the released mode succeeds exactly if its numbers start from 1, what is
  // pending completes first, the fence admits it, there is a receipt to move past or none is
  // needed, the unit stops, and the checkpoint then on disk is whole and has moved past it.
  lemma ReleaseCompletes(trainer: Policy, p: Plant, x: Command, env: CallEnv)
    requires Sound(p) && x.SetMode? && x.target.Released? && RecordOf(p) != Some(x)
    ensures
      var recovered := RecoverRun(trainer, p, env.recovery);
      var q := Final(p, recovered.states);
      var s := Stopped(q, env.apply);
      HandleRun(trainer, p, x, env).out.Ok? <==>
        && 1 <= x.epoch && 1 <= x.generation && recovered.out.Ok? && Admits(p, x) && Releasable(q)
        && !env.apply.raises && !env.apply.queryRaises && !s.active
        && CheckpointOf(s.receipt, s.files).Ok? && MovesPast(q.receipt, s.receipt.receipt)
  {
    hide RecoverRun, ServeRun, Releasable, MovesPast, Stopped;
    RecoveredRecord(trainer, p, env.recovery);
    var recovered := RecoverRun(trainer, p, env.recovery);
    if recovered.out.Ok? {
      var q := Final(p, recovered.states);
      ReleaseServed(trainer, q, x, env.apply);
    }
  }

  lemma ReleaseServed(trainer: Policy, q: Plant, x: Command, env: UnitEnv)
    requires Sound(q) && !Pending(q) && x.SetMode? && x.target.Released? && RecordOf(q) != Some(x)
    ensures var s := Stopped(q, env);
      ServeRun(trainer, q, x, env).out.Ok? <==>
        && Admits(q, x) && Releasable(q) && !env.raises && !env.queryRaises && !s.active
        && CheckpointOf(s.receipt, s.files).Ok? && MovesPast(q.receipt, s.receipt.receipt)
  {
    AdmitsIsTheFence(q, x);
    BaselineWhenReleasable(q, x);
    var a, s := Accepted(q, x), Stopped(q, env);
    assert Stopped(a, env).receipt == s.receipt && Stopped(a, env).files == s.files && Stopped(a, env).active == s.active;
    if Releasable(q) { CheckedWhenPast(q, s, ReleaseBaseline(q, x).value); }
    hide ReleaseCheck, Releasable, MovesPast, Stopped, Sound, Admits, ReleaseBaseline, CheckpointOf, FenceConflict;
    assert Refusal(q, x).None? <==> Admits(q, x) && Releasable(q);
    if Refusal(q, x).None? {
      assert ReleaseCheck(Stopped(a, env), a.authority.value.baseline) == ReleaseCheck(s, a.authority.value.baseline);
    }
  }

  lemma BaselineWhenReleasable(q: Plant, x: Command)
    requires x.target.Released?
    ensures ReleaseBaseline(q, x).Ok? <==> Releasable(q)
    ensures ReleaseBaseline(q, x).Ok? ==> ReleaseBaseline(q, x) == IdentityIfPresent(q.receipt)
  {
  }

  lemma CheckedWhenPast(q: Plant, s: Plant, baseline: Option<Identity>)
    requires IdentityIfPresent(q.receipt) == Ok(baseline)
    ensures ReleaseCheck(s, baseline).Ok? <==> CheckpointOf(s.receipt, s.files).Ok? && MovesPast(q.receipt, s.receipt.receipt)
  {
    if baseline.Some? && CheckpointOf(s.receipt, s.files).Ok? {
      AdvancedMeansNewFiles(q.receipt, s.receipt, s.files);
    }
  }

  lemma HangingServed(trainer: Policy, q: Plant, x: Command, env: UnitEnv)
    requires Sound(q) && !Pending(q) && x.target.Normal? && RecordOf(q) != Some(x)
    requires Admits(q, x) && !Backed(trainer, q, EvidenceOf(q.authority))
    ensures ServeRun(trainer, q, x, env).states == [Accepted(q, x)] && ServeRun(trainer, q, x, env).out.Err?
  {
    AdmitsIsTheFence(q, x);
    BackedIsTheCheck(trainer, q, q.authority);
  }

  // Taken up and not completed: without the evidence nothing at all has moved but the
  // record, which is pending now.
  lemma ResumeHangs(trainer: Policy, p: Plant, x: Command, env: CallEnv)
    requires Sound(p) && !Pending(p) && ValidCommand(x) && x.target.Normal? && RecordOf(p) != Some(x) && Admits(p, x)
    requires !Backed(trainer, p, EvidenceOf(p.authority))
    ensures
      var q := Final(p, HandleRun(trainer, p, x, env).states);
      && HandleRun(trainer, p, x, env).out.Err?
      && q == Accepted(p, x) && Waiting(trainer, q)
      && (Stuck(trainer, q) <==> EvidenceOf(p.authority).None? || !p.active)
  {
    RecoveredRecord(trainer, p, env.recovery);
    hide ServeRun;
    HangingServed(trainer, p, x, env.apply);
    assert RecoverRun(trainer, p, env.recovery).states == [];
    assert HandleRun(trainer, p, x, env).states == [] + [Accepted(p, x)];
  }

  lemma RecoveredIsBacked(trainer: Policy, p: Plant, env: UnitEnv)
    requires Pending(p) && RecoverRun(trainer, p, env).out.Ok?
    ensures Current(p).target.Normal? ==> Backed(trainer, p, EvidenceOf(p.authority.value.previous))
  {
    BackedIsTheCheck(trainer, p, p.authority.value.previous);
  }

  // ------------------------------------------------------------ waiting for the evidence

  // A pending resume whose evidence is not on disk.
  predicate Waiting(trainer: Policy, p: Plant)
  {
    Pending(p) && Current(p).target.Normal? && !Backed(trainer, p, EvidenceOf(p.authority.value.previous))
  }

  // The trainer does not put this evidence back.
  predicate NotBack(trainer: Policy, e: Event, evidence: Option<Evidence>)
  {
    e.Trainer? ==> !Backed(trainer, e.next, evidence)
  }

  lemma WaitingStays(trainer: Policy, p: Plant, e: Event)
    requires Waiting(trainer, p) && NotBack(trainer, e, EvidenceOf(p.authority.value.previous))
    ensures var q := Final(p, EventStates(trainer, p, e));
      q.authority == p.authority && Waiting(trainer, q)
    ensures !e.Trainer? ==> EventStates(trainer, p, e) == []
  {
    BackedIsTheCheck(trainer, p, p.authority.value.previous);
  }

  // As long as the trainer does not put the evidence back, whatever else happens, the resume
  // stays pending, and every request and every restart is refused.
  lemma {:induction false} WaitsForever(trainer: Policy, p: Plant, events: seq<Event>, command: Command, env: CallEnv)
    requires Waiting(trainer, p)
    requires forall e | e in events :: NotBack(trainer, e, EvidenceOf(p.authority.value.previous))
    ensures
      var q := Final(p, Execution(trainer, p, events));
      && q.authority == p.authority && Waiting(trainer, q)
      && HandleRun(trainer, q, command, env).out.Err? && RecoverRun(trainer, q, env.recovery).out.Err?
    decreases |events|
  {
    if events == [] {
      BackedIsTheCheck(trainer, p, p.authority.value.previous);
    } else {
      hide HandleRun, RecoverRun, EventStates;
      WaitingStays(trainer, p, events[0]);
      var states := EventStates(trainer, p, events[0]);
      WaitsForever(trainer, Final(p, states), events[1..], command, env);
      FinalAppend(p, states, Execution(trainer, Final(p, states), events[1..]));
    }
  }

  // ------------------------------------------------- who can be taken over to the end

  // Nothing is pending, and the recorded evidence is not on disk and, the unit being down,
  // never again will be; or there is none, and it may not start afresh.
  predicate Hopeless(trainer: Policy, p: Plant)
  {
    !Pending(p) && !Backed(trainer, p, EvidenceOf(p.authority)) && (EvidenceOf(p.authority).Some? ==> !p.active)
  }

  predicate Lost(trainer: Policy, p: Plant, x: Command)
  {
    !Admits(p, x) || Stuck(trainer, p) || Hopeless(trainer, p)
  }

  lemma LostStays(trainer: Policy, p: Plant, x: Command, e: Event)
    requires Sound(p) && Lost(trainer, p, x) && !e.Called?
    ensures var q := Final(p, EventStates(trainer, p, e));
      Sound(q) && Lost(trainer, q, x) && RecordOf(q) == RecordOf(p)
  {
    var t := EventStates(trainer, p, e);
    EventStepsAreQuiet(trainer, p, e);
    RunIsSound(trainer, p, t, |t|, iset{});
    assert Final(p, t) == At(p, t, |t|);
    LostRun(trainer, p, t, |t|, x);
  }

  lemma EventStepsAreQuiet(trainer: Policy, p: Plant, e: Event)
    requires !e.Called?
    ensures Linked(trainer, p, EventStates(trainer, p, e), iset{})
  {
    hide Step, RecoverRun;
    match e {
      case Restarted(env, steps) =>
        RecoverIsLegal(trainer, p, env, iset{});
        LinkedPrefix(trainer, p, RecoverRun(trainer, p, env).states, steps, iset{});
      case Trainer(next) =>
        DriftIsLinked(trainer, p, next, iset{});
    }
  }

  lemma {:induction false} LostRun(trainer: Policy, p: Plant, t: seq<Plant>, i: nat, x: Command)
    requires Sound(p) && Lost(trainer, p, x) && Linked(trainer, p, t, iset{}) && i <= |t|
    ensures Lost(trainer, At(p, t, i), x) && RecordOf(At(p, t, i)) == RecordOf(p)
  {
    hide Step, Lost, Sound;
    if i > 0 {
      LostRun(trainer, p, t, i - 1, x);
      RunIsSound(trainer, p, t, i - 1, iset{});
      assert Before(p, t, i - 1) == At(p, t, i - 1);
      LostStep(trainer, At(p, t, i - 1), t[i - 1], x);
    }
  }

  lemma LostStep(trainer: Policy, p: Plant, q: Plant, x: Command)
    requires Sound(p) && Lost(trainer, p, x) && Step(trainer, p, q, iset{})
    ensures Lost(trainer, q, x) && RecordOf(q) == RecordOf(p)
  {
    StepRecord(trainer, p, q, None);
    if Stuck(trainer, p) { StuckStep(trainer, p, q, iset{}); }
  }

  // Whoever is lost to a command back to the normal mode never completes it, whatever its
  // trainer and any restarts do before; ...
  lemma {:induction false} LostIsNeverTaken(trainer: Policy, p: Plant, events: seq<Event>, x: Command, env: CallEnv)
    requires Sound(p) && ValidCommand(x) && x.target.Normal? && RecordOf(p) != Some(x) && Lost(trainer, p, x)
    requires forall e | e in events :: !e.Called?
    ensures HandleRun(trainer, Final(p, Execution(trainer, p, events)), x, env).out.Err?
    decreases |events|
  {
    if events == [] {
      LostIsRefused(trainer, p, x, env);
    } else {
      hide HandleRun, EventStates, Lost, Sound;
      LostStays(trainer, p, x, events[0]);
      var states := EventStates(trainer, p, events[0]);
      LostIsNeverTaken(trainer, Final(p, states), events[1..], x, env);
      FinalAppend(p, states, Execution(trainer, Final(p, states), events[1..]));
    }
  }

  lemma LostIsRefused(trainer: Policy, p: Plant, x: Command, env: CallEnv)
    requires Sound(p) && ValidCommand(x) && x.target.Normal? && RecordOf(p) != Some(x) && Lost(trainer, p, x)
    ensures HandleRun(trainer, p, x, env).out.Err?
  {
    hide HandleRun, RecoverRun, Sound, Admits, Backed;
    ResumeCompletes(trainer, p, x, env);
    RecoveredRecord(trainer, p, env.recovery);
    if Stuck(trainer, p) { StuckRefuses(trainer, p, env.recovery); }
  }

  // ... and whoever is not, can: after something its trainer and one restart may do.
  lemma OthersCanBeTaken(trainer: Policy, p: Plant, x: Command) returns (events: seq<Event>, env: CallEnv)
    requires Sound(p) && ValidCommand(x) && x.target.Normal? && RecordOf(p) != Some(x) && !Lost(trainer, p, x)
    requires Recorded(EvidenceOf(if Pending(p) then p.authority.value.previous else p.authority))
    ensures forall e | e in events :: !e.Called?
    ensures HandleRun(trainer, Final(p, Execution(trainer, p, events)), x, env).out.Ok?
  {
    hide HandleRun, RecoverRun;
    env := CallEnv(UnitEnv(false, true, false, None), UnitEnv(false, true, false, None));
    var first := [];
    if Pending(p) { first := UnstuckCanFinish(trainer, p); }
    var q := Final(p, Execution(trainer, p, first));
    SoundAfter(trainer, p, first);
    var evidence := EvidenceOf(q.authority);
    if Backed(trainer, q, evidence) {
      events := first;
      ResumesNow(trainer, q, x, env);
    } else {
      FinishedIsBackable(trainer, p, q);
      var receipt, files :| CheckpointOf(receipt, files) == Ok(evidence.value);
      var r := q.(receipt := receipt, files := files);
      events := first + [Trainer(r)];
      OneMoreEvent(trainer, p, first, r);
      ResumesNow(trainer, r, x, env);
    }
  }

  lemma FinishedIsBackable(trainer: Policy, p: Plant, q: Plant)
    requires Sound(q) && !Stuck(trainer, p) && !Hopeless(trainer, p)
    requires if !Pending(p) then q == p
             else && Settled(q) && Current(q) == Current(p)
                  && (Current(p).target.Normal? ==> q.active && EvidenceOf(q.authority) == EvidenceOf(p.authority.value.previous))
    requires Recorded(EvidenceOf(if Pending(p) then p.authority.value.previous else p.authority))
    ensures Backed(trainer, q, EvidenceOf(q.authority))
            || (q.active && EvidenceOf(q.authority).Some? && Recorded(EvidenceOf(q.authority)))
  {
  }

  lemma SoundAfter(trainer: Policy, p: Plant, events: seq<Event>)
    requires Sound(p)
    ensures Sound(Final(p, Execution(trainer, p, events)))
  {
    var t := Execution(trainer, p, events);
    ExecutionIsLegal(trainer, p, events);
    RunIsSound(trainer, p, t, |t|, ANY);
    assert Final(p, t) == At(p, t, |t|);
  }

  lemma ResumesNow(trainer: Policy, q: Plant, x: Command, env: CallEnv)
    requires Sound(q) && !Pending(q) && ValidCommand(x) && x.target.Normal? && RecordOf(q) != Some(x) && Admits(q, x)
    requires Backed(trainer, q, EvidenceOf(q.authority)) && UnitStarts(env.apply)
    ensures HandleRun(trainer, q, x, env).out.Ok?
  {
    RecoveredRecord(trainer, q, env.recovery);
    ResumeCompletes(trainer, q, x, env);
  }

  lemma {:induction false} OneMoreEvent(trainer: Policy, p: Plant, events: seq<Event>, r: Plant)
    requires Drift(Final(p, Execution(trainer, p, events)), r)
    ensures Final(p, Execution(trainer, p, events + [Trainer(r)])) == r
    decreases |events|
  {
    hide Drift;
    var all := events + [Trainer(r)];
    if events == [] {
      assert all[1..] == [] && EventStates(trainer, p, all[0]) == [r];
    } else {
      var states := EventStates(trainer, p, events[0]);
      FinalAppend(p, states, Execution(trainer, Final(p, states), events[1..]));
      OneMoreEvent(trainer, Final(p, states), events[1..], r);
      assert all[1..] == events[1..] + [Trainer(r)];
      FinalAppend(p, states, Execution(trainer, Final(p, states), all[1..]));
    }
  }
}
