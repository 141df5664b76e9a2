// The scheduler: one execution with its nested exception flow, the claiming loop, and whole
// runs with clients and crashes in between.
module Scheduling {
  import opened Wrappers
  import opened Jobs

  // What a step of an execution can raise, by the handler that catches it.
  datatype Raised =
    | AdmissionDeferred(code: string, delay: nat)
    | ExecutionCancelled
    | ContractError(code: string)
    | ExecutionFailure(code: string)
    | OsError
    | OtherError

  datatype Outcome = Done | Raises(what: Raised)

  // deactivate_plan says whether the profile is gone, or raises.
  datatype Deactivation = Gone | Resident | Fails(what: Raised)

  datatype Stage = ToRunning | ToValidating

  // What the executor and the coordinator do in one execution: any combination. A release
  // raises nothing but the admission error, here by its code.
  datatype Script = Script(
    check: Outcome,                     // deadline and request validation
    plan: Outcome, profile: string,
    acquire: Outcome, leased: bool, configure: Outcome,
    activate: Outcome, verify: Outcome,
    stages: seq<Stage>, execute: Outcome, yielded: bool, result: nat,
    deactivate: Deactivation, release: Option<string>,
    lastDeactivate: Deactivation)

  datatype Call = AcquiredLease | Activated | Executed | Deactivated | ReleasedLease

  // The flags of one execution.
  datatype Progress = Progress(
    planned: bool, leased: bool, activated: bool, performed: bool, releaseAttempted: bool)

  // What clients, the clock and a shutdown do between two steps of the scheduler.
  datatype Http =
    | Submit(request: Request, limit: Option<nat>)
    | Cancel(job: nat)
    | Wait(tenths: nat)

  datatype Moment = Moment(requests: seq<Http>, stop: bool)

  datatype ProfileState = NoProfile | ActiveProfile | ResidentOrUnknown

  function StatusOf(stage: Stage): JobStatus
  {
    if stage.ToRunning? then Running else Validating
  }

  // Executors never raise the admission error from a workload.
  predicate NoReplay(script: Script)
  {
    script.execute.Raises? ==> !script.execute.what.AdmissionDeferred?
  }

  // -------------------------------------------------------- compensations, as a tally

  // Leases taken and given back, and whether an activation was attempted with no
  // deactivation called since. There is none once a lease is released over such an
  // activation.
  datatype Tally = Tally(acquired: nat, released: nat, exposed: bool)

  function Audit(calls: seq<Call>): Option<Tally>
  {
    if calls == [] then Some(Tally(0, 0, false))
    else
      var before := Audit(calls[..|calls| - 1]);
      if before.None? then None
      else
        var t := before.value;
        match calls[|calls| - 1]
        case AcquiredLease => Some(t.(acquired := t.acquired + 1))
        case Activated => Some(t.(exposed := true))
        case Executed => Some(t)
        case Deactivated => Some(t.(exposed := false))
        case ReleasedLease => if t.exposed then None else Some(t.(released := t.released + 1))
  }

  lemma AuditNext(calls: seq<Call>, c: Call)
    ensures (calls + [c])[..|calls|] == calls && (calls + [c])[|calls|] == c
  {
  }

  // In an audited trace every attempted activation that a release follows has a
  // deactivation call before that release.
  lemma {:induction false} AuditOrders(calls: seq<Call>, a: nat, r: nat)
    requires Audit(calls).Some? && a < r < |calls| && calls[a] == Activated && calls[r] == ReleasedLease
    ensures exists d :: a < d < r && calls[d] == Deactivated
    decreases |calls|
  {
    var n := |calls| - 1;
    if r < n {
      AuditOrders(calls[..n], a, r);
    } else {
      Exposed(calls[..n], a);
    }
  }

  lemma {:induction false} Exposed(calls: seq<Call>, a: nat)
    requires Audit(calls).Some? && !Audit(calls).value.exposed && a < |calls| && calls[a] == Activated
    ensures exists d :: a < d < |calls| && calls[d] == Deactivated
    decreases |calls|
  {
    var n := |calls| - 1;
    if a < n && calls[n] != Deactivated {
      Exposed(calls[..n], a);
      var d :| a < d < n && calls[..n][d] == Deactivated;
      assert calls[d] == Deactivated;
    }
  }

  // ------------------------------------------------------------ what every state keeps

  ghost predicate Chain(h: seq<Ledger>)
  {
    && h != []
    && (forall i | 0 <= i < |h| :: LedgerOk(h[i]))
    && (forall i, j | 0 <= i <= j < |h| :: Later(h[i], h[j]))
  }

  lemma ChainGrows(h: seq<Ledger>, l: Ledger)
    requires Chain(h) && LedgerOk(l) && Later(h[|h| - 1], l)
    ensures Chain(h + [l])
  {
    hide LedgerOk, Later;
    LaterReflexive(l);
    forall i | 0 <= i < |h| ensures Later(h[i], l) {
      LaterTransitive(h[i], h[|h| - 1], l);
    }
  }

  lemma LaterReflexive(l: Ledger)
    ensures Later(l, l)
  {
  }

  lemma ChainPrefix(h: seq<Ledger>, k: nat)
    requires Chain(h) && k < |h|
    ensures Chain(h[..k + 1])
  {
  }

  ghost predicate Kept(store: Store)
    reads store
  {
    Chain(store.history) && store.history[|store.history| - 1] == store.L()
  }

  // A job left behind: its cancellation arrived just before a deferral.
  predicate Abandoned(l: Ledger, j: nat)
    requires j < |l.jobs|
  {
    l.jobs[j].status == Loading && l.jobs[j].cancelRequested && j !in l.entries
  }

  // Only the job in hand, and jobs left behind, are in an active status.
  ghost predicate Owned(l: Ledger, inHand: Option<nat>)
  {
    forall j: nat | j < |l.jobs| && Live(l.jobs[j].status) :: inHand == Some(j) || Abandoned(l, j)
  }

  // What clients can do: nothing to a job that has been claimed but flag its cancellation.
  ghost predicate Undisturbed(a: Ledger, b: Ledger)
  {
    && Later(a, b) && b.entries == a.entries
    && (forall j: nat | j < |b.jobs| && (j < |a.jobs| ==> a.jobs[j].status == Queued) :: !Live(b.jobs[j].status))
    && (forall j: nat | j < |a.jobs| && a.jobs[j].status != Queued ::
          b.jobs[j] == a.jobs[j].(cancelRequested := b.jobs[j].cancelRequested))
  }

  lemma UndisturbedTransitive(a: Ledger, b: Ledger, c: Ledger)
    requires Undisturbed(a, b) && Undisturbed(b, c)
    ensures Undisturbed(a, c)
  {
    LaterTransitive(a, b, c);
  }

  lemma UndisturbedOwned(a: Ledger, b: Ledger, inHand: Option<nat>)
    requires Undisturbed(a, b) && Owned(a, inHand)
    ensures Owned(b, inHand)
  {
  }

  // The job in hand, claimed and not ended; its workload entered or not.
  ghost predicate InHand(l: Ledger, j: nat)
  {
    j < |l.jobs| && Live(l.jobs[j].status) && Owned(l, Some(j))
  }

  ghost predicate Untouched(l: Ledger, j: nat)
  {
    InHand(l, j) && l.jobs[j].status == Loading && j !in l.entries
  }

  // How an execution can leave its job: ended, queued again with its workload never
  // entered, or left behind.
  ghost predicate Settled(l: Ledger, j: nat)
  {
    && j < |l.jobs|
    && (Terminal(l.jobs[j].status) || (l.jobs[j].status == Queued && j !in l.entries) || Abandoned(l, j))
  }

  // A completed attempt: the result committed, or the cancellation that came first.
  predicate Ended(job: Job, cancelled: bool, result: nat)
  {
    if cancelled then job.cancelRequested && job.status == JobStatus.Cancelled && job.error == Some("cancelled")
    else job.status == Completed && job.result == Some(result) && job.error.None?
  }

  // A shutdown, or an accepted cancellation of the job.
  predicate Stops(stopping: bool, l: Ledger, j: nat)
    requires j < |l.jobs|
  {
    stopping || l.jobs[j].cancelRequested
  }

  // The journal reports the stages of the job, in their order, from the given entry on.
  ghost predicate Reports(events: seq<JobEvent>, from: nat, j: nat, stages: seq<Stage>)
    decreases |stages|
  {
    stages == [] ||
    var n := |stages| - 1;
    exists i | from <= i < |events| ::
      events[i] == JobEvent(j, if stages[n] == ToRunning then Running else Validating) && Reports(events[..i], from, j, stages[..n])
  }

  lemma ReportsOn(events: seq<JobEvent>, more: seq<JobEvent>, from: nat, j: nat, stages: seq<Stage>)
    requires Reports(events, from, j, stages) && events <= more
    ensures Reports(more, from, j, stages)
  {
    if stages != [] {
      var n := |stages| - 1;
      var i :| from <= i < |events| && events[i] == JobEvent(j, if stages[n] == ToRunning then Running else Validating)
               && Reports(events[..i], from, j, stages[..n]);
      assert more[..i] == events[..i] && more[i] == events[i];
    }
  }

  lemma ReportsSince(events: seq<JobEvent>, since: nat, from: nat, j: nat, stages: seq<Stage>)
    requires Reports(events, since, j, stages) && from <= since
    ensures Reports(events, from, j, stages)
    decreases |stages|
  {
    if stages != [] {
      var n := |stages| - 1;
      var i :| since <= i < |events| && events[i] == JobEvent(j, if stages[n] == ToRunning then Running else Validating)
               && Reports(events[..i], since, j, stages[..n]);
      ReportsSince(events[..i], since, from, j, stages[..n]);
    }
  }

  lemma NothingToReport(events: seq<JobEvent>, from: nat, j: nat)
    ensures Reports(events, from, j, [])
  {
  }

  lemma ReportsNext(events: seq<JobEvent>, from: nat, j: nat, stages: seq<Stage>, n: nat)
    requires n < |stages| && from <= |events| && Reports(events, from, j, stages[..n])
    ensures Reports(events + [JobEvent(j, if stages[n] == ToRunning then Running else Validating)], from, j, stages[..n + 1])
  {
    var status := if stages[n] == ToRunning then Running else Validating;
    var more := events + [JobEvent(j, status)];
    assert stages[..n + 1][..n] == stages[..n] && more[..|events|] == events;
    assert more[|events|] == JobEvent(j, status);
  }

  // What each exception does to the job: fails it under a code, cancels it, or puts it back
  // in the queue; an admission error does the last only if the workload was not performed,
  // and only if no cancellation was accepted meanwhile. The job is then not to be claimed
  // before the delay the exception carries has passed since `now`.
  ghost predicate Answers(l: Ledger, j: nat, raised: Raised, performed: bool, now: nat)
    requires j < |l.jobs|
  {
    var job := l.jobs[j];
    match raised
    case AdmissionDeferred(code, delay) =>
      if code == "cancelled" then job.status == JobStatus.Cancelled && job.error == Some("cancelled")
      else if performed then job.status == Failed && job.error == Some("resource_release_uncertain")
      else if job.cancelRequested then job.status == Loading
      else
        && job.status == Queued
        && job.notBefore == Some(now + (if delay == 0 then 1 else if delay > 3000 then 3000 else delay))
        && forall t: nat, supported | t < job.notBefore.value :: !Claimable(job, t, supported)
    case ExecutionCancelled => job.status == JobStatus.Cancelled && job.error == Some("cancelled")
    case ContractError(code) => job.status == Failed && job.error == Some(code)
    case ExecutionFailure(code) => job.status == Failed && job.error == Some(code)
    case OsError => job.status == Failed && job.error == Some("internal_error")
    case OtherError => job.status == Failed && job.error == Some("internal_error")
  }

  // A step of the script raises the cancellation itself.
  predicate Cancels(script: Script)
  {
    || script.check == Raises(ExecutionCancelled) || script.plan == Raises(ExecutionCancelled)
    || script.acquire == Raises(ExecutionCancelled) || script.configure == Raises(ExecutionCancelled)
    || script.activate == Raises(ExecutionCancelled) || script.verify == Raises(ExecutionCancelled)
    || script.execute == Raises(ExecutionCancelled) || script.deactivate == Fails(ExecutionCancelled)
  }

  // How far a script goes by itself.

  predicate Plans(script: Script)
  {
    script.check.Done? && script.plan.Done?
  }

  predicate Acquires(coordinated: bool, script: Script)
  {
    Plans(script) && coordinated && script.acquire.Done? && script.leased
  }

  predicate Activates(coordinated: bool, script: Script)
  {
    Plans(script) && (coordinated ==> script.acquire.Done? && script.configure.Done?)
  }

  predicate Enters(coordinated: bool, script: Script)
  {
    Activates(coordinated, script) && script.activate.Done? && (coordinated ==> script.verify.Done?)
  }

  // What keeps the workload from being entered, if anything.
  function Preventing(coordinated: bool, script: Script): (r: Option<Raised>)
    ensures r.None? <==> Enters(coordinated, script)
  {
    if script.check.Raises? then Some(script.check.what)
    else if script.plan.Raises? then Some(script.plan.what)
    else if coordinated && script.acquire.Raises? then Some(script.acquire.what)
    else if coordinated && script.configure.Raises? then Some(script.configure.what)
    else if script.activate.Raises? then Some(script.activate.what)
    else if coordinated && script.verify.Raises? then Some(script.verify.what)
    else None
  }

  // What is raised once it is entered, if no cancellation is noticed.
  function Ending(coordinated: bool, script: Script): Option<Raised>
  {
    if script.execute.Raises? then Some(script.execute.what)
    else if script.yielded then Some(ExecutionFailure("yield_protocol_unsupported"))
    else if script.deactivate.Fails? then Some(script.deactivate.what)
    else if coordinated && script.leased && script.release.Some? then Some(AdmissionDeferred(script.release.value, 100))
    else None
  }

  // The `try` part gets as far as the script goes: its exception is the first one the
  // script raises, or a cancellation noticed before that; its flags say what was done.
  ghost predicate Follows(coordinated: bool, script: Script, raised: Option<Raised>, f: Progress)
  {
    var ends := raised == Ending(coordinated, script) && script.execute.Done? && !script.yielded;
    && f.planned == Plans(script) && f.leased == Acquires(coordinated, script)
    && (if !Enters(coordinated, script) then
          && raised == Preventing(coordinated, script)
          && f.activated == Activates(coordinated, script) && !f.performed && !f.releaseAttempted
        else
          && (raised == Ending(coordinated, script) || raised == Some(ExecutionCancelled))
          && (f.performed ==> script.execute.Done?)
          && (script.execute.Done? && !f.performed ==> raised == Some(ExecutionCancelled))
          && (f.releaseAttempted ==> f.performed && ends && coordinated && !script.deactivate.Fails?)
          && (raised != Some(ExecutionCancelled) ==>
                && f.releaseAttempted == (ends && coordinated && !script.deactivate.Fails?)
                && f.activated == !(ends && script.deactivate.Gone?)))
  }

  // The final deactivation is called and raises what its handler does not catch.
  predicate Escapes(f: Progress, script: Script)
  {
    && f.activated && f.planned
    && script.lastDeactivate.Fails?
    && !script.lastDeactivate.what.ExecutionFailure? && script.lastDeactivate.what != OsError
  }

  // The tally of an execution whose `try` part ended with these flags.
  predicate Tallied(calls: seq<Call>, f: Progress)
  {
    && Audit(calls).Some?
    && var t := Audit(calls).value;
       && t.acquired == (if f.leased then 1 else 0)
       && t.released == (if f.leased && f.releaseAttempted then 1 else 0)
       && (t.exposed ==> f.activated && f.planned)
       && (f.releaseAttempted ==> !t.exposed)
  }

  class Scheduler {
    const store: Store
    const supported: set<string>
    const coordinated: bool
    var tape: seq<Moment>
    var stopping: bool
    var activeJob: Option<nat>
    var profileState: ProfileState

    constructor (store: Store, supported: set<string>, coordinated: bool, tape: seq<Moment>)
      ensures this.store == store && this.supported == supported
      ensures activeJob.None?
    {
      this.store, this.supported, this.coordinated, this.tape := store, supported, coordinated, tape;
      stopping, activeJob, profileState := false, None, NoProfile;
    }

    method One(request: Http)
      requires Kept(store)
      modifies store
      ensures Kept(store) && Undisturbed(old(store.L()), store.L())
    {
      match request {
        case Submit(r, limit) => SubmitOne(r, limit);
        case Cancel(j) => CancelOne(j);
        case Wait(n) =>
          ghost var l := store.L();
          store.Wait(n);
          UndisturbedReflexive(l);
      }
    }

    method SubmitOne(r: Request, limit: Option<nat>)
      requires Kept(store)
      modifies store
      ensures Kept(store) && Undisturbed(old(store.L()), store.L())
    {
      ghost var l, h := store.L(), store.history;
      var answer := store.SubmitJob(r, limit);
      if answer.Ok? && answer.value.1 { AddKeeps(l, r, store.clock); }
      LaterReflexive(l);
      if store.history != h { ChainGrows(h, store.L()); }
    }

    method CancelOne(j: nat)
      requires Kept(store)
      modifies store
      ensures Kept(store) && Undisturbed(old(store.L()), store.L())
    {
      ghost var l, h := store.L(), store.history;
      store.CancelJob(j);
      CancelKeeps(l, j);
      LaterReflexive(l);
      if store.history != h { ChainGrows(h, store.L()); }
    }

    method Meanwhile()
      requires Kept(store)
      modifies this`tape, this`stopping, store
      ensures Kept(store) && Undisturbed(old(store.L()), store.L()) && (old(stopping) ==> stopping)
    {
      hide Chain, Undisturbed;
      UndisturbedReflexive(store.L());
      if tape == [] { return; }
      var now := tape[0];
      tape := tape[1..];
      stopping := stopping || now.stop;
      for i := 0 to |now.requests|
        modifies store
        invariant Kept(store) && Undisturbed(old(store.L()), store.L())
      {
        ghost var l := store.L();
        One(now.requests[i]);
        UndisturbedTransitive(old(store.L()), l, store.L());
      }
    }

    // control(): a shutdown, or an accepted cancellation of this job
    method Control(j: nat) returns (b: bool)
      requires Kept(store) && j < |store.jobs|
      modifies this`tape, this`stopping, store
      ensures Kept(store) && Undisturbed(old(store.L()), store.L()) && (old(stopping) ==> stopping)
      ensures b <==> stopping || store.jobs[j].cancelRequested
    {
      Meanwhile();
      b := stopping || store.jobs[j].cancelRequested;
    }

    // One transition of the job in hand, after whatever clients do first.
    method Transition(j: nat, status: JobStatus, profile: string)
      requires Kept(store) && InHand(store.L(), j) && Live(status) && (status == Loading || j in store.entries)
      modifies store
      ensures Kept(store) && InHand(store.L(), j) && store.entries == old(store.entries)
      ensures store.jobs[j] == old(store.jobs)[j].(status := status, profile := Some(profile))
      ensures store.events == old(store.events) + [JobEvent(j, status)]
    {
      ghost var l, h := store.L(), store.history;
      var job := store.jobs[j];
      store.Transition(j, status, Some(profile));
      RecordKeeps(l, j, job.(status := status, profile := Some(profile)));
      ChainGrows(h, store.L());
    }

    // Between two steps of an execution clients do what they like; all they can do to the job
    // in hand is flag it.
    method Window(j: nat)
      requires Kept(store) && InHand(store.L(), j)
      modifies this`tape, this`stopping, store
      ensures Kept(store) && InHand(store.L(), j)
      ensures store.jobs[j] == old(store.jobs)[j].(cancelRequested := store.jobs[j].cancelRequested)
      ensures old(Untouched(store.L(), j)) ==> Untouched(store.L(), j)
      ensures store.entries == old(store.entries) && old(store.events) <= store.events
      ensures old(Stops(stopping, store.L(), j)) ==> Stops(stopping, store.L(), j)
    {
      hide Chain, Undisturbed, Owned;
      ghost var l := store.L();
      Meanwhile();
      StillInHand(l, store.L(), j);
    }

    // What the workload reports while it runs; it stops at the first stage that finds it
    // cancelled.
    method Stages(j: nat, script: Script) returns (raised: Option<Raised>)
      requires Kept(store) && InHand(store.L(), j) && j in store.entries
      modifies this`tape, this`stopping, store
      ensures Kept(store) && InHand(store.L(), j) && j in store.entries
      ensures old(store.events) <= store.events
      ensures old(store.jobs)[j].profile == Some(script.profile) ==> store.jobs[j].profile == Some(script.profile)
      ensures old(Stops(stopping, store.L(), j)) ==> Stops(stopping, store.L(), j)
      ensures raised.Some? ==> raised.value == ExecutionCancelled && Stops(stopping, store.L(), j)
      ensures raised.None? ==> Reports(store.events, |old(store.events)|, j, script.stages)
    {
      hide Chain, Undisturbed, Owned, Reports;
      ghost var from := |store.events|;
      NothingToReport(store.events, from, j);
      for i := 0 to |script.stages|
        invariant Kept(store) && InHand(store.L(), j) && j in store.entries
        invariant old(store.events) <= store.events && Reports(store.events, from, j, script.stages[..i])
        invariant old(store.jobs)[j].profile == Some(script.profile) ==> store.jobs[j].profile == Some(script.profile)
        invariant old(Stops(stopping, store.L(), j)) ==> Stops(stopping, store.L(), j)
      {
        ghost var l := store.L();
        var cancelled := Control(j);
        StillInHand(l, store.L(), j);
        if cancelled { return Some(ExecutionCancelled); }
        Window(j);
        ReportsOn(l.events, store.events, from, j, script.stages[..i]);
        ReportsNext(store.events, from, j, script.stages, i);
        Transition(j, StatusOf(script.stages[i]), script.profile);
        ghost var e := store.events;
        Window(j);
        ReportsOn(e, store.events, from, j, script.stages[..i + 1]);
      }
      assert script.stages[..|script.stages|] == script.stages;
      return None;
    }

    method Enter(j: nat)
      requires Kept(store) && Untouched(store.L(), j)
      modifies store
      ensures Kept(store) && InHand(store.L(), j) && j in store.entries
      ensures store.jobs == old(store.jobs) && store.events == old(store.events)
    {
      ghost var l, h := store.L(), store.history;
      store.Enter(j);
      EnterKeeps(l, j);
      ChainGrows(h, store.L());
    }

    // The `try` part up to the workload.
    method Prepare(j: nat, script: Script) returns (raised: Option<Raised>, f: Progress, ghost calls: seq<Call>)
      requires Kept(store) && Untouched(store.L(), j)
      modifies this`tape, this`stopping, store
      ensures Kept(store) && Untouched(store.L(), j) && old(store.events) <= store.events
      ensures f.planned ==> store.jobs[j].profile == Some(script.profile)
      ensures old(Stops(stopping, store.L(), j)) ==> Stops(stopping, store.L(), j)
      ensures raised == Preventing(coordinated, script)
      ensures f == Progress(Plans(script), Acquires(coordinated, script), Activates(coordinated, script), false, false)
      ensures Tallied(calls, f)
    {
      hide Chain, Undisturbed, Owned, Audit;
      f, calls := Progress(false, false, false, false, false), [];
      NothingCalled();
      Window(j);
      if script.check.Raises? { return Some(script.check.what), f, calls; }
      if script.plan.Raises? { return Some(script.plan.what), f, calls; }
      f := f.(planned := true);
      Window(j);
      Transition(j, Loading, script.profile);
      Window(j);
      if coordinated {
        if script.acquire.Raises? { return Some(script.acquire.what), f, calls; }
        if script.leased {
          f := f.(leased := true);
          calls := Then(calls, AcquiredLease);
        }
        Window(j);
        if script.configure.Raises? { return Some(script.configure.what), f, calls; }
      }
      Window(j);
      f := f.(activated := true);
      calls := Then(calls, Activated);
      Window(j);
      if script.activate.Raises? { return Some(script.activate.what), f, calls; }
      if coordinated && script.verify.Raises? { return Some(script.verify.what), f, calls; }
      return None, f, calls;
    }

    // The workload.
    method Work(j: nat, script: Script) returns (raised: Option<Raised>)
      requires Kept(store) && Untouched(store.L(), j)
      modifies this`tape, this`stopping, store
      ensures Kept(store) && InHand(store.L(), j) && j in store.entries
      ensures old(store.events) <= store.events
      ensures old(store.jobs)[j].profile == Some(script.profile) ==> store.jobs[j].profile == Some(script.profile)
      ensures old(Stops(stopping, store.L(), j)) ==> Stops(stopping, store.L(), j)
      ensures raised.None? ==> script.execute.Done? && Reports(store.events, |old(store.events)|, j, script.stages)
      ensures raised.Some? ==> (raised.value == ExecutionCancelled && Stops(stopping, store.L(), j)) || script.execute == Raises(raised.value)
    {
      hide Chain, Undisturbed, Owned, Reports;
      ghost var from := |store.events|;
      Window(j);
      Enter(j);
      ghost var since := |store.events|;
      raised := Stages(j, script);
      ghost var e := store.events;
      Window(j);
      if raised.None? {
        ReportsOn(e, store.events, since, j, script.stages);
        ReportsSince(store.events, since, from, j, script.stages);
      }
      if raised.None? && script.execute.Raises? { raised := Some(script.execute.what); }
    }

    // What follows a workload that was performed.
    method Conclude(j: nat, script: Script, before: Progress, ghost earlier: seq<Call>)
      returns (raised: Option<Raised>, f: Progress, ghost calls: seq<Call>)
      requires Kept(store) && InHand(store.L(), j) && j in store.entries
      requires Enters(coordinated, script) && script.execute.Done? && Tallied(earlier, before)
      requires before == Progress(true, Acquires(coordinated, script), true, true, false)
      modifies this`tape, this`stopping, store
      ensures Kept(store) && Owned(store.L(), Some(j)) && j < |store.jobs|
      ensures old(store.events) <= store.events && store.jobs[j].profile == old(store.jobs)[j].profile
      ensures raised.Some? ==> Live(store.jobs[j].status)
      ensures raised == Some(ExecutionCancelled) ==> Stops(stopping, store.L(), j) || script.deactivate == Fails(ExecutionCancelled)
      ensures old(Stops(stopping, store.L(), j)) ==> raised == Some(ExecutionCancelled)
      ensures raised.None? ==> Terminal(store.jobs[j].status) && exists cancelled :: Ended(store.jobs[j], cancelled, script.result)
      ensures Tallied(calls, f) && f.performed && Follows(coordinated, script, raised, f)
    {
      hide Chain, Undisturbed, Owned, Audit;
      f, calls := before, earlier;
      ghost var l := store.L();
      var cancelled := Control(j);
      StillInHand(l, store.L(), j);
      if cancelled { return Some(ExecutionCancelled), f, calls; }
      if script.yielded { return Some(ExecutionFailure("yield_protocol_unsupported")), f, calls; }
      Window(j);
      calls := Then(calls, Deactivated);
      Window(j);
      if script.deactivate.Fails? { return Some(script.deactivate.what), f, calls; }
      f := f.(activated := script.deactivate.Resident?);
      Window(j);
      if coordinated {
        f := f.(releaseAttempted := true);
        if f.leased {
          calls := Then(calls, ReleasedLease);
          if script.release.Some? { return Some(AdmissionDeferred(script.release.value, 100)), f, calls; }
        }
      }
      Window(j);
      Complete(j, script.result);
      return None, f, calls;
    }

    // The `try` part, up to the first step that raises.
    method Attempt(j: nat, script: Script) returns (raised: Option<Raised>, f: Progress, ghost calls: seq<Call>)
      requires Kept(store) && Untouched(store.L(), j) && NoReplay(script)
      modifies this`tape, this`stopping, this`profileState, store
      ensures Kept(store) && Owned(store.L(), Some(j)) && j < |store.jobs| && old(store.events) <= store.events
      ensures f.planned ==> store.jobs[j].profile == Some(script.profile)
      ensures f.performed ==> Reports(store.events, |old(store.events)|, j, script.stages)
      ensures raised == Some(ExecutionCancelled) ==> Stops(stopping, store.L(), j) || Cancels(script)
      ensures old(Stops(stopping, store.L(), j)) && Enters(coordinated, script) && script.execute.Done? ==>
                raised == Some(ExecutionCancelled)
      ensures profileState == if Enters(coordinated, script) then ActiveProfile else old(profileState)
      ensures raised.Some? ==> Live(store.jobs[j].status)
      ensures raised.Some? && raised.value.AdmissionDeferred? && !f.performed ==> Untouched(store.L(), j)
      ensures raised.None? ==>
        && f.performed && Terminal(store.jobs[j].status)
        && exists cancelled :: Ended(store.jobs[j], cancelled, script.result)
      ensures Tallied(calls, f) && Follows(coordinated, script, raised, f)
    {
      hide Chain, Undisturbed, Owned, Audit, Reports;
      ghost var from := |store.events|;
      raised, f, calls := Prepare(j, script);
      if raised.Some? { return; }
      profileState := ActiveProfile;
      ghost var since := |store.events|;
      raised := Work(j, script);
      calls := Then(calls, Executed);
      if raised.Some? { return; }
      f := f.(performed := true);
      ReportsSince(store.events, since, from, j, script.stages);
      ghost var e := store.events;
      raised, f, calls := Conclude(j, script, f, calls);
      ReportsOn(e, store.events, from, j, script.stages);
    }

    method Complete(j: nat, result: nat)
      requires Kept(store) && InHand(store.L(), j) && j in store.entries
      modifies store
      ensures Kept(store) && Owned(store.L(), None) && Owned(store.L(), Some(j)) && j < |store.jobs| && Terminal(store.jobs[j].status)
      ensures Ended(store.jobs[j], old(store.jobs)[j].cancelRequested, result)
      ensures store.entries == old(store.entries)
      ensures old(store.events) <= store.events && store.jobs[j].profile == old(store.jobs)[j].profile
      ensures store.jobs[j].cancelRequested == old(store.jobs)[j].cancelRequested
    {
      ghost var l, h := store.L(), store.history;
      var job := store.jobs[j];
      var done := store.Finish(j, result);
      if job.cancelRequested {
        RecordKeeps(l, j, job.(status := JobStatus.Cancelled, error := Some("cancelled")));
      } else {
        RecordKeeps(l, j, job.(status := Completed, result := Some(result), error := None));
      }
      assert store.events != l.events;
      ChainGrows(h, store.L());
    }

    method FailJob(j: nat, code: string, status: JobStatus)
      requires Kept(store) && InHand(store.L(), j) && Terminal(status) && status != Completed
      modifies store
      ensures Kept(store) && Owned(store.L(), None) && j < |store.jobs|
      ensures store.jobs[j].status == status && store.jobs[j].error == Some(code)
      ensures old(store.events) <= store.events && store.jobs[j].profile == old(store.jobs)[j].profile
      ensures store.jobs[j].cancelRequested == old(store.jobs)[j].cancelRequested
    {
      ghost var l, h := store.L(), store.history;
      var job := store.jobs[j];
      store.Fail(j, code, status);
      RecordKeeps(l, j, job.(status := status, error := Some(code)));
      ChainGrows(h, store.L());
    }

    method DeferJob(j: nat, delay: nat)
      requires Kept(store) && Untouched(store.L(), j)
      modifies store
      ensures Kept(store) && Owned(store.L(), None) && Jobs.Later(old(store.L()), store.L())
      ensures j < |store.jobs| && j !in store.entries
      ensures store.jobs[j].status == (if old(store.jobs)[j].cancelRequested then Loading else Queued)
      ensures store.jobs[j].status == Loading ==> store.jobs[j].cancelRequested
      ensures store.clock == old(store.clock)
      ensures store.jobs[j].status == Queued ==>
                !store.jobs[j].cancelRequested && store.jobs[j].notBefore == Some(store.clock + RetryAfter(delay))
      ensures store.jobs[j].profile == old(store.jobs)[j].profile
      ensures store.jobs[j].cancelRequested == old(store.jobs)[j].cancelRequested
    {
      ghost var l, h := store.L(), store.history;
      var job := store.jobs[j];
      store.Defer(j, delay);
      if !job.cancelRequested {
        RecordKeeps(l, j, job.(status := Queued, notBefore := Some(store.clock + RetryAfter(delay))));
        assert store.events != l.events;
        ChainGrows(h, store.L());
      } else {
        LaterReflexive(l);
      }
    }

    // The handlers, in their order.
    method Handle(j: nat, raised: Raised, performed: bool)
      requires Kept(store) && InHand(store.L(), j)
      requires raised.AdmissionDeferred? && !performed ==> Untouched(store.L(), j)
      modifies this`tape, this`stopping, store
      ensures Kept(store) && Owned(store.L(), None) && Settled(store.L(), j) && old(store.events) <= store.events
      ensures store.jobs[j].profile == old(store.jobs)[j].profile
      ensures old(Stops(stopping, store.L(), j)) ==> Stops(stopping, store.L(), j)
      ensures Answers(store.L(), j, raised, performed, store.clock)
    {
      hide Chain, Undisturbed, Owned;
      ghost var l := store.L();
      Meanwhile();
      StillInHand(l, store.L(), j);
      match raised {
        case AdmissionDeferred(code, delay) =>
          if code == "cancelled" {
            FailJob(j, "cancelled", JobStatus.Cancelled);
          } else if performed {
            FailJob(j, "resource_release_uncertain", Failed);
          } else {
            DeferJob(j, delay);
          }
        case ExecutionCancelled => FailJob(j, "cancelled", JobStatus.Cancelled);
        case ContractError(code) => FailJob(j, code, Failed);
        case ExecutionFailure(code) => FailJob(j, code, Failed);
        case OsError => FailJob(j, "internal_error", Failed);
        case OtherError => FailJob(j, "internal_error", Failed);
      }
    }

    // _execute. The lease is released exactly once, after a deactivation call for any
    // activation attempted, unless the final deactivation raises what is not caught there:
    // then, and only then, the exception leaves the execution, with no release.
    method Execute(j: nat, script: Script)
      returns (escaped: Option<Raised>, ghost raised: Option<Raised>, ghost calls: seq<Call>, ghost f: Progress)
      requires Kept(store) && Untouched(store.L(), j) && NoReplay(script)
      modifies this, store
      ensures Kept(store) && Owned(store.L(), None) && Settled(store.L(), j)
      ensures Follows(coordinated, script, raised, f)
      ensures Audit(calls).Some? && Audit(calls).value.acquired == (if Acquires(coordinated, script) then 1 else 0)
      ensures escaped.None? ==> Audit(calls).value.released == Audit(calls).value.acquired && !Audit(calls).value.exposed
      ensures escaped.Some? <==> Escapes(f, script)
      ensures escaped.Some? && !f.releaseAttempted ==> Audit(calls).value.released == 0
      ensures escaped.None? ==> activeJob.None?
      ensures raised.Some? ==> Answers(store.L(), j, raised.value, f.performed, store.clock)
      ensures raised.None? ==> f.performed && exists cancelled :: Ended(store.jobs[j], cancelled, script.result)
      ensures f.planned ==> store.jobs[j].profile == Some(script.profile)
      ensures f.performed ==> Reports(store.events, |old(store.events)|, j, script.stages)
      ensures raised == Some(ExecutionCancelled) ==> Stops(stopping, store.L(), j) || Cancels(script)
      ensures old(Stops(stopping, store.L(), j)) && Enters(coordinated, script) && script.execute.Done? ==>
                raised == Some(ExecutionCancelled)
      ensures escaped.None? ==>
        profileState == if f.activated && !(f.planned && script.lastDeactivate.Gone?) then ResidentOrUnknown else NoProfile
    {
      hide Chain, Undisturbed, Owned, Audit, Reports;
      ghost var from := |store.events|;
      activeJob := Some(j);
      var exception, progress;
      exception, progress, calls := Attempt(j, script);
      raised, f := exception, progress;
      ghost var e := store.events;
      if exception.Some? {
        Handle(j, exception.value, progress.performed);
        if f.performed { ReportsOn(e, store.events, from, j, script.stages); }
      } else {
        NoLongerInHand(store.L(), j);
      }
      // what follows does not touch the store, so clients may as well act after it
      var activated := progress.activated;
      if progress.activated && progress.planned {
        calls := Then(calls, Deactivated);
        match script.lastDeactivate {
          case Gone => activated := false;
          case Resident => activated := true;
          case Fails(what) =>
            if !what.ExecutionFailure? && what != OsError { return Some(what), raised, calls, f; }
        }
      }
      if progress.leased && coordinated && !progress.releaseAttempted {
        calls := Then(calls, ReleasedLease);
      }
      activeJob := None;
      profileState := if activated then ResidentOrUnknown else NoProfile;
      return None, raised, calls, f;
    }
  }

  ghost function Then(calls: seq<Call>, c: Call): (r: seq<Call>)
    ensures Audit(calls).Some? ==>
      var t := Audit(calls).value;
      Audit(r) == match c
        case AcquiredLease => Some(t.(acquired := t.acquired + 1))
        case Activated => Some(t.(exposed := true))
        case Executed => Some(t)
        case Deactivated => Some(t.(exposed := false))
        case ReleasedLease => if t.exposed then None else Some(t.(released := t.released + 1))
  {
    AuditNext(calls, c);
    calls + [c]
  }

  lemma NothingCalled()
    ensures Tallied([], Progress(false, false, false, false, false))
  {
  }

  lemma UndisturbedReflexive(l: Ledger)
    ensures Undisturbed(l, l)
  {
  }

  lemma StillInHand(a: Ledger, b: Ledger, j: nat)
    requires Undisturbed(a, b) && InHand(a, j)
    ensures InHand(b, j) && b.jobs[j] == a.jobs[j].(cancelRequested := b.jobs[j].cancelRequested)
    ensures a.jobs[j].cancelRequested ==> b.jobs[j].cancelRequested
    ensures Untouched(a, j) ==> Untouched(b, j)
    ensures b.entries == a.entries && a.events <= b.events
  {
    UndisturbedOwned(a, b, Some(j));
  }

  lemma NoLongerInHand(l: Ledger, j: nat)
    requires j < |l.jobs| && Terminal(l.jobs[j].status) && Owned(l, Some(j))
    ensures Owned(l, None)
  {
  }

  // ------------------------------------------------------------------------ runs

  // One turn of the claiming loop, or a crash after the given transaction.
  datatype Turn = Serve(script: Script) | Crash(at: nat)

  method Claim(scheduler: Scheduler) returns (r: Option<nat>)
    requires Kept(scheduler.store) && Owned(scheduler.store.L(), None)
    modifies scheduler.store
    ensures Kept(scheduler.store)
    ensures r.None? ==> Owned(scheduler.store.L(), None)
    ensures r.Some? ==> Untouched(scheduler.store.L(), r.value)
  {
    var store := scheduler.store;
    ghost var l, h := store.L(), store.history;
    r := store.ClaimNext(scheduler.supported);
    if r.Some? {
      assert RowOk(l, r.value);
      var job := l.jobs[r.value];
      RecordKeeps(l, r.value, job.(status := Loading, notBefore := None, attempt := job.attempt + 1));
      ChainGrows(h, store.L());
    }
  }

  // What a new broker process does to the jobs an earlier one left active.
  method Restart(store: Store)
    requires Kept(store)
    modifies store
    ensures Kept(store) && Owned(store.L(), None)
    ensures forall j | 0 <= j < |store.jobs| :: !Live(store.jobs[j].status)
  {
    ghost var l, h := store.L(), store.history;
    var interrupted := store.InterruptUncertainJobs();
    InterruptKeeps(l, 0);
    ChainGrows(h, store.L());
  }

  // Over any run: each ledger is well formed, and no later one takes anything back. Jobs
  // not in hand are queued, ended, or left behind until the next restart interrupts them.
  method Run(supported: set<string>, coordinated: bool, tape: seq<Moment>, turns: seq<Turn>) returns (store: Store)
    requires forall t | t in turns && t.Serve? :: NoReplay(t.script)
    ensures Chain(store.history) && store.L() == store.history[|store.history| - 1]
    ensures forall j | 0 <= j < |store.jobs| && Live(store.jobs[j].status) :: Abandoned(store.L(), j)
  {
    hide Settled;
    store := new Store();
    StartsKept(store);
    var scheduler := new Scheduler(store, supported, coordinated, tape);
    hide Chain, Undisturbed;
    var stopped := false;
    for i := 0 to |turns|
      invariant fresh(store) && fresh(scheduler) && scheduler.store == store
      invariant Kept(store) && Owned(store.L(), None)
    {
      match turns[i] {
        case Serve(script) =>
          ghost var l := store.L();
          scheduler.Meanwhile();
          UndisturbedOwned(l, store.L(), None);
          // an exception that leaves an execution ends the loop
          if !stopped && !scheduler.stopping {
            var claimed := Claim(scheduler);
            if claimed.Some? {
              var escaped;
              ghost var raised, calls, f;
              escaped, raised, calls, f := scheduler.Execute(claimed.value, script);
              stopped := escaped.Some?;
            }
          }
        case Crash(k) =>
          if k < |store.history| {
            ghost var h := store.history;
            store.CrashAt(k);
            ChainPrefix(h, k);
            Restart(store);
            scheduler := new Scheduler(store, supported, coordinated, scheduler.tape);
            stopped := false;
          }
      }
    }
  }

  lemma StartsKept(store: Store)
    requires store.L() == Ledger([], [], []) && store.history == [store.L()]
    ensures Kept(store) && Owned(store.L(), None)
  {
  }

  // What a chain says of any two of its moments.
  lemma ChainTakesNothingBack(h: seq<Ledger>, i: nat, k: nat, j: nat)
    requires Chain(h) && i <= k < |h| && j < |h[i].jobs|
    ensures h[i].jobs[j].status in {Completed, Failed, JobStatus.Cancelled, Interrupted} ==> h[k].jobs[j] == h[i].jobs[j]
    ensures h[i].jobs[j].cancelRequested && h[i].jobs[j].status in {Queued, Loading, Running, Validating} ==> h[k].jobs[j].status !in {Queued, Completed}
    ensures multiset(h[k].entries)[j] <= 1
    ensures LastReported(h[k].events, j) == Some(h[k].jobs[j].status)
  {
    hide LedgerOk, Later;
    NothingIsTakenBack(h[i], h[k], j);
  }
}
