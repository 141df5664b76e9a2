// Where the two sides of the protocol do not meet: commands the broker sends by design that
// a controller refuses by design, and exactly when.
module Conflicts {
  import opened Wrappers
  import opened Protocol
  import opened Controller
  import opened ControllerSteps
  import opened ControllerRuns
  import opened PlantMoves
  import opened Takeovers
  import opened Worlds
  import opened BrokerSteps
  import opened Wedges
  import opened Admission
  import opened CoordinatorProofs

  // ------------------------------------------------ one epoch uses a controller only once

  // The displacement an admission sends to the controller at this position, from 1.
  function DisplaceCommand(lease: Lease, l: nat, position: nat, m: nat): Command
  {
    SetMode(m, l, lease.fence, lease.epoch, position, Mode.Released)
  }

  // A controller that is not displaced takes a new lease's displacement exactly as the
  // first of an admission, or if it has no record yet, or one of an earlier epoch.
  lemma AdmittedOnlyFirst(p: Plant, lease: Lease, l: nat, position: nat, m: nat)
    requires Sound(p) && DisplacedBy(p).None? && Epoch(p) <= lease.epoch && position >= 1
    requires p.authority.Some? ==> Current(p).lease != l
    ensures Admits(p, DisplaceCommand(lease, l, position, m)) <==>
              position == 1 || p.authority.None? || Current(p).epoch < lease.epoch
  {
  }

  // Otherwise it refuses the displacement, and the rollback's restoration too, keeping its
  // record. What is pending is completed first, if it can be.
  lemma LaterIsRefused(trainer: Controller.Policy, p: Plant, lease: Lease, l: nat, position: nat, m: nat, n: nat, env: CallEnv)
    requires Sound(p) && Attributed(p) && DisplacedBy(p).None? && p.authority.Some? && position > 1 && lease.epoch >= 1
    requires Current(p).epoch == lease.epoch && Current(p).lease != l
    ensures
      var displace := DisplaceCommand(lease, l, position, m);
      var restore := RestoreCommand(lease, l, Throttle("", position, m, false), n, lease.epoch, 1, None);
      && HandleRun(trainer, p, displace, env).out.Err? && HandleRun(trainer, p, restore, env).out.Err?
      && RecordOf(Final(p, HandleRun(trainer, p, displace, env).states)) == RecordOf(p)
      && RecordOf(Final(p, HandleRun(trainer, p, restore, env).states)) == RecordOf(p)
      && (Settled(p) ==>
            && HandleRun(trainer, p, displace, env) == Run([], Err("lease_conflict"))
            && HandleRun(trainer, p, restore, env) == Run([], Err("lease_conflict")))
  {
    NotAdmittedIsRefused(trainer, p, DisplaceCommand(lease, l, position, m), env);
    NotAdmittedIsRefused(trainer, p, RestoreCommand(lease, l, Throttle("", position, m, false), n, lease.epoch, 1, None), env);
  }

  // An admission over closed leases meets no fence exactly if no controller beyond its
  // first has a record of this epoch.
  lemma NoFenceRefuses(policy: ResourcePolicy, w: World, plan: Plan, lease: Lease, l: nat, m: nat)
    requires Inv(policy, w) && AllClosed(w) && l !in w.leases && w.storeEpoch == lease.epoch
    ensures
      var controllers := ControllersFor(policy, plan);
      UnusedBeyondFirst(w, controllers, lease.epoch) <==>
        forall i | 0 <= i < |controllers| ::
          controllers[i].id in w.plants && Admits(w.plants[controllers[i].id], DisplaceCommand(lease, l, i + 1, m))
  {
    hide Sound, Attributed, Mentions, DisplacedBy, Epoch, Admits;
    ControllersForElements(policy, plan);
    var controllers := ControllersFor(policy, plan);
    forall i | 0 <= i < |controllers|
      ensures controllers[i].id in w.plants
      ensures Admits(w.plants[controllers[i].id], DisplaceCommand(lease, l, i + 1, m)) <==>
                i == 0 || !Used(w, controllers[i].id, lease.epoch)
    {
      assert controllers[i] in policy.controllers;
      AllClosedIdle(policy, w, controllers[i].id);
      assert PlantOk(policy, w, controllers[i].id);
      AdmittedOnlyFirst(w.plants[controllers[i].id], lease, l, i + 1, m);
    }
  }

  // ------------------------------------------------------ what a controller takes up

  // What a request ends under: recovery first, which keeps the recorded command, and then
  // the request's own command exactly if the fence admits it.
  lemma NotAdmittedIsRefused(trainer: Controller.Policy, p: Plant, x: Command, env: CallEnv)
    requires Sound(p) && RecordOf(p) != Some(x) && !Admits(p, x) && ValidCommand(x)
    ensures HandleRun(trainer, p, x, env).out.Err?
    ensures RecordOf(Final(p, HandleRun(trainer, p, x, env).states)) == RecordOf(p)
  {
    hide ServeRun, RecoverRun;
    RecoveredRecord(trainer, p, env.recovery);
    var recovered := RecoverRun(trainer, p, env.recovery);
    if recovered.out.Ok? {
      var q := Final(p, recovered.states);
      NotAdmittedIsNotServed(trainer, q, x, env.apply);
      FinalAppend(p, recovered.states, ServeRun(trainer, q, x, env.apply).states);
    }
  }

  lemma NotAdmittedIsNotServed(trainer: Controller.Policy, q: Plant, x: Command, env: UnitEnv)
    requires Sound(q) && !Pending(q) && RecordOf(q) != Some(x) && !Admits(q, x)
    ensures ServeRun(trainer, q, x, env).out.Err? && ServeRun(trainer, q, x, env).states == []
  {
    AdmitsIsTheFence(q, x);
  }

  // A restart's takeover is taken up exactly if what is pending, if anything, is completed
  // first and the recorded command then names the lease, the lease's own fence, and an
  // earlier epoch.
  lemma TakeoverNeedsTheRecord(trainer: Controller.Policy, p: Plant, lease: Lease, l: nat, item: Throttle, m: nat,
                               epoch: nat, offset: nat, fence: nat, env: CallEnv)
    requires Sound(p) && epoch >= 1 && (p.authority.Some? ==> Current(p).mutation != m)
    ensures
      var x := RestoreCommand(lease, l, item, m, epoch, offset, Some(fence));
      RecordOf(Final(p, HandleRun(trainer, p, x, env).states)) == Some(x) <==>
        && (Pending(p) ==> RecoverRun(trainer, p, env.recovery).out.Ok?)
        && Owns(p, lease, l) && Current(p).epoch < epoch
  {
    hide ServeRun, RecoverRun;
    var x := RestoreCommand(lease, l, item, m, epoch, offset, Some(fence));
    RecoveredRecord(trainer, p, env.recovery);
    RecoveryOfNothing(trainer, p, env.recovery);
    var recovered := RecoverRun(trainer, p, env.recovery);
    if recovered.out.Ok? {
      var q := Final(p, recovered.states);
      TakeoverServed(trainer, q, x, env.apply);
      FinalAppend(p, recovered.states, ServeRun(trainer, q, x, env.apply).states);
    }
  }

  lemma RecoveryOfNothing(trainer: Controller.Policy, p: Plant, env: UnitEnv)
    ensures !Pending(p) ==> RecoverRun(trainer, p, env).out.Ok?
  {
  }

  lemma TakeoverServed(trainer: Controller.Policy, q: Plant, x: Command, env: UnitEnv)
    requires Sound(q) && !Pending(q) && x.Takeover? && RecordOf(q) != Some(x)
    ensures RecordOf(Final(q, ServeRun(trainer, q, x, env).states)) == Some(x) <==> Admits(q, x)
  {
    AdmitsIsTheFence(q, x);
  }

  // A takeover that was interrupted is completed by whatever is asked next, under its own
  // recovery fence; the next restart's takeover then meets that record and conflicts.
  lemma InterruptedTakeoverConflicts(trainer: Controller.Policy, p: Plant, lease: Lease, l: nat, item: Throttle, m: nat,
                                     epoch: nat, offset: nat, fence: nat, env: CallEnv)
    requires Sound(p) && Pending(p) && Current(p).Takeover? && Current(p).lease == l
    requires Current(p).previousFence == lease.fence != Current(p).fence
    requires RecoverRun(trainer, p, env.recovery).out.Ok? && epoch >= 1 && Current(p).mutation != m
    ensures
      var x := RestoreCommand(lease, l, item, m, epoch, offset, Some(fence));
      var run := HandleRun(trainer, p, x, env);
      && run.out == Err("takeover_conflict")
      && Settled(Final(p, run.states)) && Current(Final(p, run.states)) == Current(p)
  {
    hide ServeRun, RecoverRun;
    RecoveredRecord(trainer, p, env.recovery);
    var q := Final(p, RecoverRun(trainer, p, env.recovery).states);
    var x := RestoreCommand(lease, l, item, m, epoch, offset, Some(fence));
    OtherFenceConflicts(trainer, q, x, env.apply);
    FinalAppend(p, RecoverRun(trainer, p, env.recovery).states, ServeRun(trainer, q, x, env.apply).states);
  }

  lemma OtherFenceConflicts(trainer: Controller.Policy, q: Plant, x: Command, env: UnitEnv)
    requires Sound(q) && Settled(q) && x.Takeover? && Current(q) != x && Current(q).fence != x.previousFence
    ensures ServeRun(trainer, q, x, env) == Run([], Err("takeover_conflict"))
  {
  }

  // ------------------------------------------------------------- how controllers get stuck

  // A release leaves its controller stuck exactly if the unit is down afterwards and what
  // is then on disk has not moved past the baseline: the trainer that could publish is gone.
  lemma ReleaseSticks(trainer: Controller.Policy, p: Plant, x: Command, env: CallEnv)
    requires Sound(p) && !Pending(p) && ValidCommand(x) && x.SetMode? && x.target.Released?
    requires RecordOf(p) != Some(x) && Refusal(p, x).None?
    ensures
      var q := Stopped(p, env.apply);
      Stuck(trainer, Final(p, HandleRun(trainer, p, x, env).states)) <==>
        !q.active && ReleaseCheck(q, ReleaseBaseline(p, x).value).Err?
  {
    hide ReleaseCheck;
    SameStop(p, x, env.apply);
  }

  lemma SameStop(p: Plant, x: Command, env: UnitEnv)
    requires ReleaseBaseline(p, x).Ok?
    ensures var q, r := Stopped(p, env), Stopped(Accepted(p, x), env);
      && q.active == r.active
      && ReleaseCheck(q, ReleaseBaseline(p, x).value) == ReleaseCheck(r, ReleaseBaseline(p, x).value)
  {
  }

  // So the first release a controller ever gets sticks if its trainer publishes nothing
  // new while it is stopped; every later request is refused, over any later run.
  lemma FirstReleaseSticks(trainer: Controller.Policy, p: Plant, x: Command, env: CallEnv,
                           t: seq<Plant>, y: Command, later: CallEnv)
    requires p.authority.None? && ValidCommand(x) && x.SetMode? && x.target.Released?
    requires IdentityIfPresent(p.receipt).Ok? && env.apply.published.None? && !env.apply.active
    requires Linked(trainer, Final(p, HandleRun(trainer, p, x, env).states), t, ANY)
    ensures
      var q := Final(p, HandleRun(trainer, p, x, env).states);
      Stuck(trainer, q) && Final(q, t) == q && HandleRun(trainer, q, y, later).out.Err?
  {
    hide Linked;
    ReleaseSticks(trainer, p, x, env);
    NothingAdvanced(p, x, env.apply);
    var q := Final(p, HandleRun(trainer, p, x, env).states);
    StoppedIsDown(trainer, p, x, env);
    StuckRun(trainer, q, t, |t|, ANY);
    assert Final(q, t) == At(q, t, |t|);
    StuckForever(trainer, q, [], y, later) by { NothingLinked(trainer, q, ANY); }
  }

  lemma NothingAdvanced(p: Plant, x: Command, env: UnitEnv)
    requires p.authority.None? && x.target.Released? && IdentityIfPresent(p.receipt).Ok? && env.published.None? && !env.active
    ensures ReleaseCheck(Stopped(p, env), ReleaseBaseline(p, x).value).Err?
  {
  }

  lemma StoppedIsDown(trainer: Controller.Policy, p: Plant, x: Command, env: CallEnv)
    requires p.authority.None? && ValidCommand(x) && x.SetMode? && x.target.Released?
    requires IdentityIfPresent(p.receipt).Ok? && !env.apply.active
    ensures !Final(p, HandleRun(trainer, p, x, env).states).active
  {
  }

  // Restoring a controller, as a rollback does also to one its displacement has not reached:
  // whatever record it has, the restoration completes exactly if that record's evidence is
  // on disk (or there is none and a fresh start is allowed) and the unit starts; without
  // the evidence it hangs, and nothing but the record has moved; and it sticks exactly if
  // the evidence is then missing for good.
  lemma RestoringSticks(trainer: Controller.Policy, p: Plant, x: Command, env: CallEnv)
    requires Sound(p) && !Pending(p) && ValidCommand(x) && x.SetMode? && x.target.Normal?
    requires RecordOf(p) != Some(x) && Admits(p, x)
    ensures
      var run := HandleRun(trainer, p, x, env);
      var q := Final(p, run.states);
      var held := EvidenceOf(p.authority);
      && (run.out.Ok? <==> Backed(trainer, p, held) && UnitStarts(env.apply))
      && (!Backed(trainer, p, held) ==> q == Accepted(p, x) && Waiting(trainer, q))
      && (Stuck(trainer, q) <==> !Backed(trainer, q, held) && (held.Some? ==> !q.active))
  {
    ResumeCompletes(trainer, p, x, env);
    RecoveredRecord(trainer, p, env.recovery);
    if !Backed(trainer, p, EvidenceOf(p.authority)) {
      ResumeHangs(trainer, p, x, env);
    } else {
      BackedSticks(trainer, p, x, env);
    }
  }

  lemma BackedSticks(trainer: Controller.Policy, p: Plant, x: Command, env: CallEnv)
    requires Sound(p) && !Pending(p) && ValidCommand(x) && x.SetMode? && x.target.Normal?
    requires RecordOf(p) != Some(x) && Admits(p, x) && Backed(trainer, p, EvidenceOf(p.authority))
    ensures
      var q := Final(p, HandleRun(trainer, p, x, env).states);
      var held := EvidenceOf(p.authority);
      Stuck(trainer, q) <==> !Backed(trainer, q, held) && (held.Some? ==> !q.active)
  {
    AdmitsIsTheFence(p, x);
    hide CheckpointOf, CompleteRun, Stuck, Backed;
    var a := Accepted(p, x);
    var completed := CompleteRun(trainer, a, x, p.authority, a.authority.value.baseline, env.apply);
    assert HandleRun(trainer, p, x, env).states == [] + ([a] + completed.states);
    FinalAppend(p, [a], completed.states);
    CompletedOrStarted(trainer, a, x, p.authority, a.authority.value.baseline, env.apply);
    var q := Final(a, completed.states);
    if !completed.out.Ok? { StuckIsUnbacked(trainer, q, p.authority); } else { BackedFresh(trainer, p, q, p.authority); }
  }

  lemma CompletedOrStarted(trainer: Controller.Policy, a: Plant, x: Command, previous: Option<Authority>,
                           baseline: Option<Identity>, env: UnitEnv)
    requires x.target.Normal? && Backed(trainer, a, EvidenceOf(previous))
    ensures var run := CompleteRun(trainer, a, x, previous, baseline, env);
      var q := Final(a, run.states);
      if run.out.Ok? then Settled(q) && q.active else q.authority == a.authority
  {
    BackedIsTheCheck(trainer, a, previous);
    hide CheckpointOf, Backed;
  }

  lemma StuckIsUnbacked(trainer: Controller.Policy, q: Plant, previous: Option<Authority>)
    requires Pending(q) && Current(q).target.Normal? && q.authority.value.previous == previous
    ensures Stuck(trainer, q) <==> !Backed(trainer, q, EvidenceOf(previous)) && (EvidenceOf(previous).Some? ==> !q.active)
  {
    hide CheckpointOf;
  }

  lemma BackedFresh(trainer: Controller.Policy, p: Plant, q: Plant, previous: Option<Authority>)
    requires Settled(q) && q.active && Backed(trainer, p, EvidenceOf(previous))
    ensures !Stuck(trainer, q) && !(!Backed(trainer, q, EvidenceOf(previous)) && (EvidenceOf(previous).Some? ==> !q.active))
  {
  }

  // So one that was never commanded sticks exactly if it may not start afresh.
  lemma RestoringTheUntouchedSticks(trainer: Controller.Policy, p: Plant, x: Command, env: CallEnv)
    requires p.authority.None? && ValidCommand(x) && x.SetMode? && x.target.Normal?
    ensures Stuck(trainer, Final(p, HandleRun(trainer, p, x, env).states)) <==> !trainer.allowFreshStart
  {
    RestoringSticks(trainer, p, x, env);
  }

  // An open lease that journals a stuck controller is wedged.
  lemma StuckIsWedged(policy: ResourcePolicy, w: World, l: nat, c: string)
    requires l in w.leases && Unclosed(w.leases[l]) && Journals(w.leases[l], c) && c in w.plants
    requires Stuck(TrainerOf(policy, c), w.plants[c])
    ensures Wedged(policy, w, l)
  {
    assert Refuses(policy, w, l, c);
  }
}
