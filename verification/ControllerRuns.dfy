// What holds over every run of a training controller: any requests, crashes between any
// two durable steps, restarts, and anything its trainer publishes.
module ControllerRuns {
  import opened Wrappers
  import opened Ordering
  import opened Protocol
  import opened Controller
  import opened ControllerSteps

  // A request cut short after `steps` durable steps, a restart cut short likewise, or
  // something the trainer or its unit does. A call that is not cut short has `steps` large.
  datatype Event =
    | Called(command: Command, env: CallEnv, steps: nat)
    | Restarted(recovery: UnitEnv, steps: nat)
    | Trainer(next: Plant)

  function Prefix(states: seq<Plant>, steps: nat): seq<Plant>
  {
    if steps < |states| then states[..steps] else states
  }

  function EventStates(policy: Policy, p: Plant, e: Event): seq<Plant>
  {
    match e
    case Called(command, env, steps) => Prefix(HandleRun(policy, p, command, env).states, steps)
    case Restarted(env, steps) => Prefix(RecoverRun(policy, p, env).states, steps)
    case Trainer(next) => if Drift(p, next) then [next] else []
  }

  // Every durable state of an execution, in order.
  function Execution(policy: Policy, p: Plant, events: seq<Event>): seq<Plant>
    decreases |events|
  {
    if events == [] then []
    else
      var states := EventStates(policy, p, events[0]);
      states + Execution(policy, Final(p, states), events[1..])
  }

  ghost const ANY: iset<Command> := iset c: Command | true

  function At(p: Plant, t: seq<Plant>, i: nat): Plant
    requires i <= |t|
  {
    if i == 0 then p else t[i - 1]
  }

  lemma LinkedWiden(policy: Policy, p: Plant, t: seq<Plant>, commands: iset<Command>, more: iset<Command>)
    requires Linked(policy, p, t, commands) && commands <= more
    ensures Linked(policy, p, t, more)
  {
    forall i | 0 <= i < |t| ensures Step(policy, Before(p, t, i), t[i], more) {
      assert Step(policy, Before(p, t, i), t[i], commands);
    }
  }

  lemma LinkedPrefix(policy: Policy, p: Plant, t: seq<Plant>, steps: nat, commands: iset<Command>)
    requires Linked(policy, p, t, commands)
    ensures Linked(policy, p, Prefix(t, steps), commands)
  {
    var s := Prefix(t, steps);
    forall i | 0 <= i < |s| ensures Step(policy, Before(p, s, i), s[i], commands) {
      assert Before(p, s, i) == Before(p, t, i);
    }
  }

  lemma EventIsLegal(policy: Policy, p: Plant, e: Event)
    ensures Linked(policy, p, EventStates(policy, p, e), ANY)
  {
    hide Step, HandleRun, RecoverRun;
    match e {
      case Called(command, env, steps) =>
        HandleIsLegal(policy, p, command, env);
        LinkedPrefix(policy, p, HandleRun(policy, p, command, env).states, steps, iset{command});
        LinkedWiden(policy, p, EventStates(policy, p, e), iset{command}, ANY);
      case Restarted(env, steps) =>
        RecoverIsLegal(policy, p, env, ANY);
        LinkedPrefix(policy, p, RecoverRun(policy, p, env).states, steps, ANY);
      case Trainer(next) =>
        TrainerIsLegal(policy, p, next);
    }
  }

  lemma TrainerIsLegal(policy: Policy, p: Plant, next: Plant)
    ensures Linked(policy, p, EventStates(policy, p, Trainer(next)), ANY)
  {
    if Drift(p, next) { OneLinked(policy, p, next, ANY); }
  }

  // Executions and legal step sequences: whatever holds of every legal sequence from a
  // state holds of every execution from it.
  lemma {:induction false} ExecutionIsLegal(policy: Policy, p: Plant, events: seq<Event>)
    ensures Linked(policy, p, Execution(policy, p, events), ANY)
    decreases |events|
  {
    hide Linked;
    if events == [] {
      NothingLinked(policy, p, ANY);
    } else {
      var states := EventStates(policy, p, events[0]);
      EventIsLegal(policy, p, events[0]);
      ExecutionIsLegal(policy, Final(p, states), events[1..]);
      LinkedAppend(policy, p, states, Execution(policy, Final(p, states), events[1..]), ANY);
    }
  }

  lemma {:induction false} RunIsSound(policy: Policy, p: Plant, t: seq<Plant>, i: nat, commands: iset<Command>)
    requires Sound(p) && Linked(policy, p, t, commands) && i <= |t|
    ensures Sound(At(p, t, i))
  {
    hide Sound, Step;
    if i > 0 {
      RunIsSound(policy, p, t, i - 1, commands);
      assert Before(p, t, i - 1) == At(p, t, i - 1);
      StepKeepsSound(policy, At(p, t, i - 1), t[i - 1], commands);
    }
  }

  function Epoch(p: Plant): nat
  {
    if p.authority.Some? then p.authority.value.command.epoch else 0
  }

  lemma StepKeepsEpoch(policy: Policy, a: Plant, b: Plant, commands: iset<Command>)
    requires Sound(a) && Step(policy, a, b, commands)
    ensures Epoch(a) <= Epoch(b)
    ensures a.authority.Some? ==> b.authority.Some?
  {
  }

  // The accepted broker epoch never goes back.
  lemma {:induction false} EpochNeverDecreases(policy: Policy, p: Plant, t: seq<Plant>, i: nat, j: nat)
    requires Sound(p) && Linked(policy, p, t, ANY) && i <= j <= |t|
    ensures Epoch(At(p, t, i)) <= Epoch(At(p, t, j))
    ensures At(p, t, i).authority.Some? ==> At(p, t, j).authority.Some?
    decreases j
  {
    hide Sound, Step, Epoch;
    if i < j {
      EpochNeverDecreases(policy, p, t, i, j - 1);
      RunIsSound(policy, p, t, j - 1, ANY);
      assert Before(p, t, j - 1) == At(p, t, j - 1);
      StepKeepsEpoch(policy, At(p, t, j - 1), t[j - 1], ANY);
    }
  }

  // The command the controller answers to, pending or done.
  function Current(p: Plant): Command
    requires p.authority.Some?
  {
    p.authority.value.command
  }

  predicate SameTenure(a: Command, b: Command)
  {
    a.epoch == b.epoch && a.lease == b.lease
  }

  lemma StepAdvancesGeneration(policy: Policy, a: Plant, b: Plant)
    requires Sound(a) && Step(policy, a, b, ANY) && a.authority.Some?
    ensures b.authority.Some?
    ensures SameTenure(Current(a), Current(b)) ==>
              Current(b) == Current(a)
              || (Current(b).fence == Current(a).fence && Current(b).generation > Current(a).generation)
  {
  }

  // While one lease of one epoch stays in charge its fence is fixed, and every other
  // command taken up carries a higher generation.
  lemma {:induction false} GenerationsIncrease(policy: Policy, p: Plant, t: seq<Plant>, j: nat)
    requires Sound(p) && Linked(policy, p, t, ANY) && j <= |t| && p.authority.Some?
    requires forall k: nat | k <= j :: At(p, t, k).authority.Some? ==> SameTenure(Current(p), Current(At(p, t, k)))
    ensures At(p, t, j).authority.Some?
    ensures Current(At(p, t, j)) == Current(p)
            || (Current(At(p, t, j)).fence == Current(p).fence
                && Current(At(p, t, j)).generation > Current(p).generation)
    decreases j
  {
    hide Sound, Step;
    if j > 0 {
      GenerationsIncrease(policy, p, t, j - 1);
      RunIsSound(policy, p, t, j - 1, ANY);
      assert Before(p, t, j - 1) == At(p, t, j - 1);
      StepAdvancesGeneration(policy, At(p, t, j - 1), t[j - 1]);
      assert SameTenure(Current(p), Current(At(p, t, j)));
    }
  }

  // If the same lease and epoch are in charge at two moments, under different commands and
  // without the generation having risen, another tenure lies between.
  lemma TenureBetween(policy: Policy, p: Plant, t: seq<Plant>, j: nat) returns (k: nat)
    requires Sound(p) && Linked(policy, p, t, ANY) && j <= |t| && p.authority.Some? && At(p, t, j).authority.Some?
    requires SameTenure(Current(p), Current(At(p, t, j))) && Current(At(p, t, j)) != Current(p)
    requires Current(At(p, t, j)).generation <= Current(p).generation || Current(At(p, t, j)).fence != Current(p).fence
    ensures k < j && At(p, t, k).authority.Some? && !SameTenure(Current(p), Current(At(p, t, k)))
  {
    hide Sound, Step;
    if forall k: nat | k <= j :: At(p, t, k).authority.Some? ==> SameTenure(Current(p), Current(At(p, t, k))) {
      GenerationsIncrease(policy, p, t, j);
      assert false;
    } else {
      k :| k <= j && At(p, t, k).authority.Some? && !SameTenure(Current(p), Current(At(p, t, k)));
    }
  }

  // Nothing more is needed to begin again: a completed record of another lease in the same
  // epoch admits a command exactly if its mode is normal and the generation is the first.
  lemma OtherLeaseAdmits(p: Plant, x: Command)
    requires Sound(p) && Settled(p) && x.SetMode? && x.epoch == Current(p).epoch && x.lease != Current(p).lease
    ensures FenceConflict(x, p.authority).None? <==> Current(p).target.Normal? && x.generation == 1
  {
  }

  function NormalAt(mutation: nat, lease: nat, fence: nat, epoch: nat): Command
  {
    SetMode(mutation, lease, fence, epoch, 1, Normal)
  }

  function Smoothly(x: Command): Event
  {
    Called(x, CallEnv(UnitEnv(false, true, false, None), UnitEnv(false, true, false, None)), 9)
  }

  // So within one epoch a controller forgets a lease once another has been in charge: from
  // any completed normal record two requests bring the same lease back under any fence, at
  // the first generation.
  lemma RetiredLeaseIsForgotten(policy: Policy, p: Plant, other: nat, fence: nat, again: nat, m: nat, n: nat)
    requires Sound(p) && Settled(p) && Current(p).target.Normal? && other != Current(p).lease && m != n
    requires if EvidenceOf(p.authority).None? then policy.allowFreshStart
             else CheckpointOf(p.receipt, p.files) == Ok(EvidenceOf(p.authority).value)
    requires Current(p).mutation != m && Current(p).mutation != n
    ensures
      var now := Current(p);
      var x, y := NormalAt(m, other, fence, now.epoch), NormalAt(n, now.lease, again, now.epoch);
      var q := Final(p, Execution(policy, p, [Smoothly(x), Smoothly(y)]));
      Settled(q) && Current(q) == y
  {
    var now := Current(p);
    var x, y := NormalAt(m, other, fence, now.epoch), NormalAt(n, now.lease, again, now.epoch);
    TakesOver(policy, p, x);
    var r := Final(p, EventStates(policy, p, Smoothly(x)));
    TakesOver(policy, r, y);
    hide EventStates;
    var events := [Smoothly(x), Smoothly(y)];
    assert events[1..] == [Smoothly(y)] && [Smoothly(y)][1..] == [];
    assert Execution(policy, r, [Smoothly(y)]) == EventStates(policy, r, Smoothly(y)) + [];
    FinalAppend(p, EventStates(policy, p, Smoothly(x)), Execution(policy, r, events[1..]));
  }

  lemma TakesOver(policy: Policy, p: Plant, x: Command)
    requires Sound(p) && Settled(p) && Current(p).target.Normal? && ValidCommand(x) && x.SetMode? && x.target.Normal?
    requires x.epoch == Current(p).epoch && x.lease != Current(p).lease && x.generation == 1
    requires if EvidenceOf(p.authority).None? then policy.allowFreshStart
             else CheckpointOf(p.receipt, p.files) == Ok(EvidenceOf(p.authority).value)
    ensures var r := Final(p, EventStates(policy, p, Smoothly(x)));
      && Sound(r) && Settled(r) && Current(r) == x && r.receipt == p.receipt && r.files == p.files
      && EvidenceOf(r.authority) == EvidenceOf(p.authority)
  {
    OtherLeaseAdmits(p, x);
  }

  lemma StaleIsRefused(policy: Policy, p: Plant, command: Command, env: UnitEnv)
    requires Sound(p) && !Pending(p) && command.epoch < Epoch(p)
    ensures ServeRun(policy, p, command, env).states == []
    ensures ServeRun(policy, p, command, env).out.Err?
  {
  }

  // A request of an older epoch, delivered at any later time, does nothing beyond
  // finishing what was already pending, and is refused.
  lemma StaleCommandIsInert(policy: Policy, p: Plant, t: seq<Plant>, command: Command, env: CallEnv)
    requires Sound(p) && Linked(policy, p, t, ANY) && command.epoch < Epoch(p) && ValidCommand(command)
    ensures HandleRun(policy, Final(p, t), command, env).states == RecoverRun(policy, Final(p, t), env.recovery).states
    ensures HandleRun(policy, Final(p, t), command, env).out.Err?
  {
    hide RecoverRun, ServeRun, Sound, Epoch, Linked;
    var q := Final(p, t);
    assert q == At(p, t, |t|) && p == At(p, t, 0);
    EpochNeverDecreases(policy, p, t, 0, |t|);
    RunIsSound(policy, p, t, |t|, ANY);
    var recovered := RecoverRun(policy, q, env.recovery);
    RecoverIsLegal(policy, q, env.recovery, ANY);
    if recovered.out.Ok? {
      var r := Final(q, recovered.states);
      assert r == At(q, recovered.states, |recovered.states|) && q == At(q, recovered.states, 0);
      EpochNeverDecreases(policy, q, recovered.states, 0, |recovered.states|);
      RunIsSound(policy, q, recovered.states, |recovered.states|, ANY);
      StaleIsRefused(policy, r, command, env.apply);
    }
  }

  // The first step of a run after which the authority record is not the initial one.
  lemma {:induction false} FirstChange(p: Plant, t: seq<Plant>, j: nat) returns (i: nat)
    requires j <= |t| && At(p, t, j).authority != p.authority
    ensures i < j && At(p, t, i).authority == p.authority && At(p, t, i + 1).authority != p.authority
    decreases j
  {
    if At(p, t, j - 1).authority == p.authority {
      i := j - 1;
    } else {
      i := FirstChange(p, t, j - 1);
    }
  }

  // A pending record is replaced by nothing but the ready record of the same command.
  lemma PendingOnlyCompletes(policy: Policy, p: Plant, t: seq<Plant>, j: nat) returns (i: nat)
    requires Linked(policy, p, t, ANY) && Pending(p) && j <= |t|
    requires At(p, t, j).authority != p.authority
    ensures i < j && At(p, t, i).authority == p.authority
    ensures Settled(At(p, t, i + 1)) && At(p, t, i + 1).authority.value.command == Current(p)
    ensures CompleteStep(policy, At(p, t, i), At(p, t, i + 1))
  {
    i := FirstChange(p, t, j);
    assert Before(p, t, i) == At(p, t, i);
  }

  predicate Displaced(p: Plant)
  {
    Settled(p) && p.authority.value.command.target.Released?
  }

  // A released controller is left only by the same lease and fence at a higher generation
  // of the same epoch, or by a takeover that names both and carries a later epoch.
  lemma ReleasedLeavesOnly(policy: Policy, p: Plant, t: seq<Plant>, j: nat) returns (i: nat)
    requires Sound(p) && Linked(policy, p, t, ANY) && Displaced(p) && j <= |t|
    requires At(p, t, j).authority != p.authority
    ensures i < j && At(p, t, i).authority == p.authority && !At(p, t, i).active
    ensures Pending(At(p, t, i + 1)) && At(p, t, i + 1).authority.value.previous == p.authority
    ensures var held, next := p.authority.value.public, Current(At(p, t, i + 1));
      && next.lease == held.lease
      && (if next.SetMode? then next.fence == held.fence && next.epoch == held.epoch && next.generation > held.generation
          else next.previousFence == held.fence && next.epoch > held.epoch)
  {
    i := FirstChange(p, t, j);
    assert Before(p, t, i) == At(p, t, i);
    RunIsSound(policy, p, t, i, ANY);
  }

  // A unit is started only while a resume is pending, and only if the evidence on disk is
  // exactly what the record held when the resume was accepted (or a fresh start is allowed
  // and there is no such evidence).
  lemma ResumeIsExact(policy: Policy, p: Plant, t: seq<Plant>, i: nat)
    requires Linked(policy, p, t, ANY) && i < |t|
    requires !At(p, t, i).active && At(p, t, i + 1).active
    ensures Pending(At(p, t, i)) && Current(At(p, t, i)).target.Normal?
    ensures var held := EvidenceOf(At(p, t, i).authority.value.previous);
      if held.Some? then CheckpointOf(At(p, t, i).receipt, At(p, t, i).files) == Ok(held.value)
      else policy.allowFreshStart
  {
    assert Before(p, t, i) == At(p, t, i);
  }

  // Whenever the unit is started from recorded evidence, every file that evidence lists
  // holds the bytes it held when the release that recorded it was complete, and they have
  // the digest recorded for it: a file that changed meanwhile keeps the unit down.
  lemma ResumesTheSameBytes(policy: Policy, p: Plant, t: seq<Plant>, j: nat, i: nat, e: Evidence)
    requires Sound(p) && Linked(policy, p, t, ANY) && j <= i < |t|
    requires Displaced(At(p, t, j)) && EvidenceOf(At(p, t, j).authority) == Some(e)
    requires !At(p, t, i).active && At(p, t, i + 1).active && Pending(At(p, t, i))
    requires EvidenceOf(At(p, t, i).authority.value.previous) == Some(e)
    ensures forall k | 0 <= k < |e.files| ::
      var path := e.files[k].path;
      && path in At(p, t, j).files && path in At(p, t, i).files
      && At(p, t, i).files[path] == At(p, t, j).files[path]
      && |At(p, t, i).files[path]| == e.files[k].size && OfBytes(At(p, t, i).files[path]) == e.files[k].digest
  {
    RunIsSound(policy, p, t, j, ANY);
    ResumeIsExact(policy, p, t, i);
    var a, b := At(p, t, j), At(p, t, i);
    SameEvidenceSameBytes(e, a.receipt, a.files, b.receipt, b.files);
    ListedSizes(e, b.receipt, b.files);
  }

  lemma ListedSizes(e: Evidence, receipt: ReceiptFile, disk: map<string, seq<nat>>)
    requires CheckpointOf(receipt, disk) == Ok(e)
    ensures forall k | 0 <= k < |e.files| :: e.files[k].path in disk && |disk[e.files[k].path]| == e.files[k].size
  {
    CheckpointIsVerified(receipt.receipt, disk);
    forall k | 0 <= k < |e.files| ensures e.files[k].path in disk && |disk[e.files[k].path]| == e.files[k].size {
      assert e.files[k] in multiset(e.files);
      assert e.files[k] in receipt.receipt.files;
      var m :| 0 <= m < |receipt.receipt.files| && receipt.receipt.files[m] == e.files[k];
    }
  }

  // A release that completes, however many crashes later, has moved past the receipt that
  // was on disk before anything was stopped: the same run, another checkpoint, other files.
  lemma CheckpointAdvances(policy: Policy, p: Plant, t: seq<Plant>, n: nat)
    requires Linked(policy, p, t, ANY) && 1 <= n < |t|
    requires !Pending(p) && Pending(t[0]) && Current(t[0]).SetMode? && Current(t[0]).target.Released?
    requires forall k: nat | k < n :: t[k].authority == t[0].authority
    requires Settled(t[n])
    ensures !t[n].active && t[n].authority.value.evidence.Some?
    ensures var evidence := t[n].authority.value.evidence.value;
      && CheckpointOf(t[n].receipt, t[n].files) == Ok(evidence)
      && (p.receipt.Absent? || IdentityIfPresent(p.receipt).Ok?)
      && (!p.receipt.Absent? ==>
           && t[n].receipt.receipt.runId == p.receipt.receipt.runId
           && t[n].receipt.receipt.checkpointId != p.receipt.receipt.checkpointId
           && multiset(t[n].receipt.receipt.files) != multiset(p.receipt.receipt.files))
  {
    assert Before(p, t, 0) == p;
    assert Before(p, t, n) == t[n - 1];
    var baseline := t[0].authority.value.baseline;
    assert CompleteStep(policy, t[n - 1], t[n]);
    assert ReleaseBaseline(p, Current(t[0])).Ok?;
    if !p.receipt.Absent? {
      AdvancedMeansNewFiles(p.receipt, t[n].receipt, t[n].files);
    }
  }

  // Asking again for a completed request returns its stored response and leaves the unit,
  // the trainer's files and the record alone; the state file is published again.
  lemma RetryReturnsStored(policy: Policy, p: Plant, command: Command, env: CallEnv)
    requires Settled(p) && Current(p) == command && ValidCommand(command)
    ensures HandleRun(policy, p, command, env)
            == Run([p.(state := Some(p.authority.value.public))], Ok(p.authority.value.response))
  {
  }

  // Since accepting, a release has touched nothing unless its unit was running; a resume
  // has started nothing before its check passed on the files as they were accepted.
  predicate SinceAccepted(policy: Policy, a: Plant, q: Plant)
  {
    && Pending(a)
    && q.authority == a.authority
    && q.state == a.state
    && (a.active
        || (q.receipt == a.receipt && q.files == a.files && !q.active)
        || (Current(a).target.Normal? && ResumeCheck(policy, a, a.authority.value.previous).Ok?))
  }

  lemma {:induction false} PendingRun(policy: Policy, a: Plant, t: seq<Plant>, n: nat)
    requires Pending(a) && Linked(policy, a, t, ANY) && n <= |t|
    requires forall k: nat | k < n :: t[k].authority == a.authority
    ensures SinceAccepted(policy, a, At(a, t, n))
  {
    if n > 0 {
      PendingRun(policy, a, t, n - 1);
      assert Before(a, t, n - 1) == At(a, t, n - 1);
      PendingStep(policy, a, At(a, t, n - 1), t[n - 1]);
    }
  }

  lemma PendingStep(policy: Policy, a: Plant, b: Plant, c: Plant)
    requires SinceAccepted(policy, a, b) && Step(policy, b, c, ANY) && c.authority == a.authority
    ensures SinceAccepted(policy, a, c)
  {
  }

  // The environment of one uncrashed attempt that ends with the trainer's files as in `f`.
  function QuietEnv(f: Plant): UnitEnv
  {
    UnitEnv(false, f.active, false, Some(Publication(f.receipt, f.files)))
  }

  // A transition that any number of crashes and restarts interrupted, and that a restart
  // then finished, ended exactly where one uncrashed attempt ends: the same ready record,
  // response, state file, unit state and trainer files. For a resume of a unit that was
  // already running, the attempt starts after the trainer's own publications.
  lemma CrashRefinement(policy: Policy, a: Plant, t: seq<Plant>, env: UnitEnv)
    returns (start: Plant, quiet: UnitEnv)
    requires Sound(a) && Pending(a) && Linked(policy, a, t, ANY)
    requires forall k: nat | k < |t| :: t[k].authority == a.authority
    requires RecoverRun(policy, Final(a, t), env).out.Ok?
    ensures start == a || (Current(a).target.Normal? && Drift(a, start))
    ensures
      var pending := a.authority.value;
      var crashed := RecoverRun(policy, Final(a, t), env);
      var uncrashed := CompleteRun(policy, start, pending.command, pending.previous, pending.baseline, quiet);
      && Final(start, uncrashed.states) == Final(Final(a, t), crashed.states)
      && Settled(Final(start, uncrashed.states))
      && uncrashed.out == Ok(Final(start, uncrashed.states).authority.value.response)
  {
    var q := Final(a, t);
    assert q == At(a, t, |t|);
    PendingRun(policy, a, t, |t|);
    var pending := a.authority.value;
    var completed := CompleteRun(policy, q, pending.command, pending.previous, pending.baseline, env);
    var f := Final(q, completed.states);
    quiet := QuietEnv(f);
    start := if pending.command.target.Normal? && a.active then a.(receipt := q.receipt, files := q.files) else a;
    if pending.command.target.Released? {
      assert Stopped(start, quiet) == Stopped(q, env);
    } else {
      assert Started(start, quiet) == Started(q, env);
    }
  }

  // A restart over a pending record either completes that very command, and publishes it,
  // or refuses and leaves record and state file as they were.
  lemma RestartCompletesOrKeeps(policy: Policy, q: Plant, env: UnitEnv)
    requires Pending(q)
    ensures var run := RecoverRun(policy, q, env);
      var f := Final(q, run.states);
      if run.out.Ok? then Settled(f) && Current(f) == Current(q) && f.state == Some(f.authority.value.public)
      else forall s | s in run.states :: s.authority == q.authority && s.state == q.state
  {
  }

  lemma CompletedStates(policy: Policy, a: Plant, env: UnitEnv)
    requires Pending(a)
    requires var c := a.authority.value; CompleteRun(policy, a, c.command, c.previous, c.baseline, env).out.Ok?
    ensures var c := a.authority.value;
      var states := CompleteRun(policy, a, c.command, c.previous, c.baseline, env).states;
      && |states| == 3
      && states[0].authority == a.authority
      && Settled(states[1]) && Current(states[1]) == c.command && states[1].state == a.state
      && states[1].authority.value.public.mutation == c.command.mutation
      && states[2] == states[1].(state := Some(states[1].authority.value.public))
  {
  }

  // Where a crash of an accepted request leaves the state file once a restart succeeds:
  // behind the record exactly if the crash fell between the two last writes, because a
  // restart over a ready record publishes nothing. Asking for the request again mends it.
  lemma StateFileAfterCrash(policy: Policy, p: Plant, command: Command, env: UnitEnv, steps: nat, recovery: UnitEnv)
    requires !Pending(p) && ValidCommand(command) && !AlreadyDone(command, p.authority)
    requires command.mutation !in Mentions(p) && Refusal(p, command).None?
    requires ServeRun(policy, p, command, env).out.Ok?
    requires 1 <= steps <= |ServeRun(policy, p, command, env).states|
    requires var q := Final(p, Prefix(ServeRun(policy, p, command, env).states, steps));
      RecoverRun(policy, q, recovery).out.Ok?
    ensures
      var states := ServeRun(policy, p, command, env).states;
      var q := Final(p, Prefix(states, steps));
      var f := Final(q, RecoverRun(policy, q, recovery).states);
      && Settled(f) && Current(f) == command
      && (f.state == Some(f.authority.value.public) <==> steps != |states| - 1)
  {
    var a := Accepted(p, command);
    CompletedStates(policy, a, env);
    hide CompleteRun, Refusal;
    var rest := CompleteRun(policy, a, command, p.authority, a.authority.value.baseline, env).states;
    var states := ServeRun(policy, p, command, env).states;
    assert states == [a] + rest;
    var q := Final(p, Prefix(states, steps));
    if steps <= 2 {
      assert q == if steps == 1 then a else rest[0];
      RestartCompletesOrKeeps(policy, q, recovery);
    } else {
      assert q == rest[steps - 2];
    }
  }

  // ---------------------------------------------------------- requests that cannot finish

  // A pending release whose unit is down and whose checkpoint did not advance, or a pending
  // resume whose evidence is not on disk while the unit is down, or that has no evidence
  // and may not start afresh.
  predicate Stuck(policy: Policy, p: Plant)
  {
    && Pending(p)
    && var pending := p.authority.value;
       if pending.command.target.Released? then !p.active && ReleaseCheck(p, pending.baseline).Err?
       else if EvidenceOf(pending.previous).None? then !policy.allowFreshStart
       else !p.active && CheckpointOf(p.receipt, p.files) != Ok(EvidenceOf(pending.previous).value)
  }

  lemma StuckStep(policy: Policy, p: Plant, q: Plant, commands: iset<Command>)
    requires Stuck(policy, p) && Step(policy, p, q, commands)
    ensures q.authority == p.authority && q.state == p.state && Stuck(policy, q)
    ensures !p.active ==> q == p
  {
  }

  lemma {:induction false} StuckRun(policy: Policy, p: Plant, t: seq<Plant>, i: nat, commands: iset<Command>)
    requires Stuck(policy, p) && Linked(policy, p, t, commands) && i <= |t|
    ensures At(p, t, i).authority == p.authority && At(p, t, i).state == p.state && Stuck(policy, At(p, t, i))
    ensures !p.active ==> At(p, t, i) == p
  {
    hide Step, Stuck;
    if i > 0 {
      StuckRun(policy, p, t, i - 1, commands);
      assert Before(p, t, i - 1) == At(p, t, i - 1);
      StuckStep(policy, At(p, t, i - 1), t[i - 1], commands);
    }
  }

  // Once stuck a controller stays so over every run, and refuses every request, because
  // each request first tries to finish what is pending.
  lemma StuckForever(policy: Policy, p: Plant, t: seq<Plant>, command: Command, env: CallEnv)
    requires Stuck(policy, p) && Linked(policy, p, t, ANY)
    ensures Stuck(policy, Final(p, t)) && Final(p, t).authority == p.authority
    ensures HandleRun(policy, Final(p, t), command, env).out.Err?
    ensures RecoverRun(policy, Final(p, t), env.recovery).out.Err?
  {
    StuckRun(policy, p, t, |t|, ANY);
    assert Final(p, t) == At(p, t, |t|);
    StuckRefuses(policy, Final(p, t), env.recovery);
  }

  lemma StuckRefuses(policy: Policy, p: Plant, env: UnitEnv)
    requires Stuck(policy, p)
    ensures RecoverRun(policy, p, env).out.Err?
  {
  }

  // Evidence that some receipt and files on disk bear out, as all recorded evidence once was.
  ghost predicate Recorded(evidence: Option<Evidence>)
  {
    evidence.Some? ==> exists receipt, files :: CheckpointOf(receipt, files) == Ok(evidence.value)
  }

  // A publication that moves past any baseline.
  function NextPublication(baseline: Option<Identity>): Publication
  {
    var first, second := FileRecord("a", 0, OfBytes([])), FileRecord("b", 0, OfBytes([]));
    var runId := if baseline.Some? then baseline.value.runId else "run";
    var id := if baseline.Some? then baseline.value.checkpointId + "." else "checkpoint";
    var file := if baseline.Some? && baseline.value.content == ContentDigest(runId, [first]) then second else first;
    Publication(Present(Receipt(runId, id, [file])), map["a" := [], "b" := []])
  }

  lemma SortedOne(file: FileRecord)
    ensures SortedFiles([file]) == [file]
  {
    assert [file][1..] == [];
    assert Sort(BY_PATH, []) == [];
  }

  lemma NextPublicationAdvances(p: Plant, baseline: Option<Identity>)
    ensures var next := NextPublication(baseline);
      ReleaseCheck(p.(receipt := next.receipt, files := next.files), baseline).Ok?
  {
    var next := NextPublication(baseline);
    var q := p.(receipt := next.receipt, files := next.files);
    var files := next.receipt.receipt.files;
    assert forall item | item in files :: item == files[0];
    var first, second := FileRecord("a", 0, OfBytes([])), FileRecord("b", 0, OfBytes([]));
    assert first.path[0] != second.path[0];
    SortedOne(files[0]);
    SortedOne(first);
    SortedOne(second);
    assert files == [files[0]];
    assert CheckpointOf(q.receipt, q.files).Ok?;
    if baseline.Some? {
      assert |next.receipt.receipt.checkpointId| == |baseline.value.checkpointId| + 1;
      assert [first][0] != [second][0];
    }
  }

  // A restart whose unit calls succeed and leave the unit in the wanted state.
  function SmoothRestart(p: Plant, publication: Option<Publication>): Event
    requires p.authority.Some?
  {
    Restarted(UnitEnv(false, Current(p).target.Normal?, false, publication), 3)
  }

  // Exactly the stuck controllers never finish: from any other pending record some restart,
  // after something the trainer may still publish, completes the pending command.
  lemma UnstuckCanFinish(policy: Policy, p: Plant) returns (events: seq<Event>)
    requires Sound(p) && Pending(p) && !Stuck(policy, p)
    requires Recorded(EvidenceOf(p.authority.value.previous))
    ensures forall e | e in events :: !e.Called?
    ensures var q := Final(p, Execution(policy, p, events));
      && Settled(q) && Current(q) == Current(p)
      && (Current(p).target.Normal? ==> q.active && EvidenceOf(q.authority) == EvidenceOf(p.authority.value.previous))
  {
    var pending := p.authority.value;
    if pending.command.target.Released? {
      events := [SmoothRestart(p, Some(NextPublication(pending.baseline)))];
      ReleaseCanFinish(policy, p);
      OneRestart(policy, p, events[0]);
    } else if EvidenceOf(pending.previous).None? || CheckpointOf(p.receipt, p.files) == Ok(EvidenceOf(pending.previous).value) {
      events := [SmoothRestart(p, None)];
      ResumeCanFinish(policy, p);
      OneRestart(policy, p, events[0]);
    } else {
      var receipt, files :| CheckpointOf(receipt, files) == Ok(EvidenceOf(pending.previous).value);
      var q := p.(receipt := receipt, files := files);
      events := [Trainer(q), SmoothRestart(q, None)];
      ResumeCanFinish(policy, q);
      OneRestart(policy, q, events[1]);
      AfterTrainer(policy, p, q, events);
    }
  }

  lemma ReleaseCanFinish(policy: Policy, p: Plant)
    requires Sound(p) && Pending(p) && Current(p).target.Released? && !Stuck(policy, p)
    ensures RecoverRun(policy, p, SmoothRestart(p, Some(NextPublication(p.authority.value.baseline))).recovery).out.Ok?
  {
    NextPublicationAdvances(p.(active := false), p.authority.value.baseline);
  }

  lemma ResumeCanFinish(policy: Policy, p: Plant)
    requires Sound(p) && Pending(p) && Current(p).target.Normal? && !Stuck(policy, p)
    requires EvidenceOf(p.authority.value.previous).Some? ==>
               CheckpointOf(p.receipt, p.files) == Ok(EvidenceOf(p.authority.value.previous).value)
    ensures RecoverRun(policy, p, SmoothRestart(p, None).recovery).out.Ok?
  {
  }

  lemma AfterTrainer(policy: Policy, p: Plant, q: Plant, events: seq<Event>)
    requires |events| == 2 && events[0] == Trainer(q) && Drift(p, q)
    ensures Final(p, Execution(policy, p, events)) == Final(q, Execution(policy, q, [events[1]]))
  {
    hide Drift;
    assert events[1..] == [events[1]];
    assert EventStates(policy, p, events[0]) == [q];
    FinalAppend(p, [q], Execution(policy, q, events[1..]));
  }

  lemma OneRestart(policy: Policy, p: Plant, e: Event)
    requires Sound(p) && Pending(p) && e.Restarted? && e.steps == 3 && RecoverRun(policy, p, e.recovery).out.Ok?
    ensures var q := Final(p, Execution(policy, p, [e]));
      && Settled(q) && Current(q) == Current(p)
      && (Current(p).target.Normal? ==> q.active && EvidenceOf(q.authority) == EvidenceOf(p.authority.value.previous))
  {
    var pending := p.authority.value;
    CompletedStates(policy, p, e.recovery);
    RestartCompletesOrKeeps(policy, p, e.recovery);
    assert Execution(policy, p, [e]) == EventStates(policy, p, e) + [];
    assert EventStates(policy, p, e) == RecoverRun(policy, p, e.recovery).states;
  }
}
