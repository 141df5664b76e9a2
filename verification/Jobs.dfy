// The durable job table and its journal: what each store operation does, what every ledger
// satisfies, and what no later ledger undoes.
//
// Times are in tenths of a second. Job ids are positions in order of submission. `entries`
// records each time a workload entered its executor; the store keeps no such column, and no
// operation reads it.
module Jobs {
  import opened Wrappers

  datatype JobStatus = Queued | Loading | Running | Validating | Completed | Failed | Cancelled | Interrupted

  // `body` stands for the rest of the canonical request.
  datatype Request = Request(origin: string, key: string, capability: string, priority: int, body: nat)

  datatype Job = Job(
    request: Request, status: JobStatus, cancelRequested: bool, notBefore: Option<nat>,
    attempt: nat, created: nat, profile: Option<string>, error: Option<string>, result: Option<nat>)

  datatype JobEvent = JobEvent(job: nat, status: JobStatus)

  datatype Ledger = Ledger(jobs: seq<Job>, events: seq<JobEvent>, entries: seq<nat>)

  predicate Terminal(status: JobStatus)
    ensures Terminal(status) <==> status !in {Queued, Loading, Running, Validating}
  {
    match status
    case Completed | Failed | Cancelled | Interrupted => true
    case Queued | Loading | Running | Validating => false
  }

  predicate Live(status: JobStatus)
  {
    status in {Loading, Running, Validating}
  }

  // A row rewritten together with the event that reports its status.
  function Recorded(l: Ledger, j: nat, job: Job): Ledger
    requires j < |l.jobs|
  {
    l.(jobs := l.jobs[j := job], events := l.events + [JobEvent(j, job.status)])
  }

  // ---------------------------------------------------------------- the operations

  function Existing(jobs: seq<Job>, request: Request): (r: Option<nat>)
    ensures r.Some? ==> r.value < |jobs| && SameKey(jobs[r.value].request, request)
    ensures r.None? ==> forall j | 0 <= j < |jobs| :: !SameKey(jobs[j].request, request)
  {
    if jobs == [] then None
    else
      var rest := Existing(jobs[..|jobs| - 1], request);
      if rest.Some? then rest
      else if SameKey(jobs[|jobs| - 1].request, request) then Some(|jobs| - 1)
      else None
  }

  predicate SameKey(a: Request, b: Request)
  {
    a.origin == b.origin && a.key == b.key
  }

  // The queue's order: higher priority first, then the older job.
  predicate Sooner(a: Job, b: Job)
  {
    a.request.priority > b.request.priority || (a.request.priority == b.request.priority && a.created < b.created)
  }

  // The rows no status has ended yet.
  function PendingJobs(jobs: seq<Job>): set<nat>
  {
    set j: nat | j < |jobs| && jobs[j].status in {Queued, Loading, Running, Validating}
  }

  // One more row, queued.
  function Added(l: Ledger, request: Request, now: nat): Ledger
  {
    l.(jobs := l.jobs + [Job(request, Queued, false, None, 0, now, None, None, None)],
       events := l.events + [JobEvent(|l.jobs|, Queued)])
  }

  predicate Claimable(job: Job, now: nat, supported: set<string>)
  {
    && job.status == Queued && !job.cancelRequested
    && (job.notBefore.Some? ==> job.notBefore.value <= now)
    && job.request.capability in supported
  }

  // How long a deferral lasts, in tenths of a second.
  function RetryAfter(delay: nat): (r: nat)
    ensures 1 <= r <= 3000 && (1 <= delay <= 3000 ==> r == delay)
    ensures delay == 0 ==> r == 1
    ensures delay > 3000 ==> r == 3000
  {
    if delay < 1 then 1 else if delay > 3000 then 3000 else delay
  }

  function Requeued(l: Ledger, j: nat, until: nat): Ledger
    requires j < |l.jobs|
  {
    if l.jobs[j].status in {Loading, Running} && !l.jobs[j].cancelRequested
    then Recorded(l, j, l.jobs[j].(status := Queued, notBefore := Some(until)))
    else l
  }

  function CancelledBy(l: Ledger, j: nat): Ledger
  {
    if j >= |l.jobs| then l
    else if l.jobs[j].status == Queued then
      Recorded(l, j, l.jobs[j].(status := JobStatus.Cancelled, cancelRequested := true))
    else if !Terminal(l.jobs[j].status) then Recorded(l, j, l.jobs[j].(cancelRequested := true))
    else l
  }

  function InterruptedFrom(l: Ledger, i: nat): Ledger
    requires i <= |l.jobs|
    decreases |l.jobs| - i
  {
    if i == |l.jobs| then l
    else InterruptedFrom(if Live(l.jobs[i].status) then InterruptedOne(l, i) else l, i + 1)
  }

  function InterruptedOne(l: Ledger, i: nat): Ledger
    requires i < |l.jobs|
  {
    Recorded(l, i, l.jobs[i].(status := Interrupted, error := Some("broker_restarted")))
  }

  function Entered(l: Ledger, j: nat): Ledger
  {
    l.(entries := l.entries + [j])
  }

  // ------------------------------------------------------- what every ledger satisfies

  function LastReported(events: seq<JobEvent>, j: nat): Option<JobStatus>
  {
    if events == [] then None
    else if events[|events| - 1].job == j then Some(events[|events| - 1].status)
    else LastReported(events[..|events| - 1], j)
  }

  // The journal ends with the row's status; an accepted cancellation leaves neither the
  // queue nor completion open; a queued job's workload has never been entered, and only an
  // entered one runs, is validated or completes.
  predicate RowOk(l: Ledger, j: nat)
    requires j < |l.jobs|
  {
    && LastReported(l.events, j) == Some(l.jobs[j].status)
    && (l.jobs[j].cancelRequested ==> l.jobs[j].status !in {Queued, Completed})
    && (l.jobs[j].status == Queued ==> j !in l.entries)
    && (l.jobs[j].status in {Running, Validating, Completed} ==> j in l.entries)
  }

  ghost predicate LedgerOk(l: Ledger)
  {
    && (forall j: nat | j < |l.jobs| :: RowOk(l, j))
    && (forall e | e in l.events :: e.job < |l.jobs|)
    && (forall i, j | 0 <= i < j < |l.jobs| :: !SameKey(l.jobs[i].request, l.jobs[j].request))
    && (forall i, j | 0 <= i < j < |l.entries| :: l.entries[i] != l.entries[j])
    && (forall j | j in l.entries :: j < |l.jobs|)
  }

  // What no later ledger takes back: rows and journal entries stay, a terminal row never
  // changes again, an accepted cancellation is never forgotten.
  ghost predicate Later(a: Ledger, b: Ledger)
  {
    && |a.jobs| <= |b.jobs| && a.events <= b.events && a.entries <= b.entries
    && forall j: nat | j < |a.jobs| :: RowLater(a.jobs[j], b.jobs[j])
  }

  predicate RowLater(a: Job, b: Job)
  {
    && b.request == a.request && b.created == a.created && a.attempt <= b.attempt
    && (a.cancelRequested ==> b.cancelRequested)
    && (Terminal(a.status) ==> b == a)
  }

  lemma LaterTransitive(a: Ledger, b: Ledger, c: Ledger)
    requires Later(a, b) && Later(b, c)
    ensures Later(a, c)
  {
    forall j: nat | j < |a.jobs| ensures RowLater(a.jobs[j], c.jobs[j]) {
      assert RowLater(a.jobs[j], b.jobs[j]) && RowLater(b.jobs[j], c.jobs[j]);
    }
  }

  // Absorption, cancellation priority and at most one entry, over any two moments of a run.
  lemma NothingIsTakenBack(a: Ledger, b: Ledger, j: nat)
    requires LedgerOk(a) && LedgerOk(b) && Later(a, b) && j < |a.jobs|
    ensures a.jobs[j].status in {Completed, Failed, JobStatus.Cancelled, Interrupted} ==> b.jobs[j] == a.jobs[j]
    ensures a.jobs[j].cancelRequested && a.jobs[j].status in {Queued, Loading, Running, Validating} ==>
              b.jobs[j].status !in {Queued, Completed} && b.jobs[j].cancelRequested
    ensures multiset(b.entries)[j] <= 1
    ensures LastReported(b.events, j) == Some(b.jobs[j].status)
  {
    assert RowLater(a.jobs[j], b.jobs[j]);
    assert RowOk(b, j);
    CountOnce(b.entries, j);
  }

  lemma {:induction false} CountOnce(s: seq<nat>, j: nat)
    requires forall i, k | 0 <= i < k < |s| :: s[i] != s[k]
    ensures multiset(s)[j] <= 1
    ensures j !in s ==> multiset(s)[j] == 0
  {
    if s != [] {
      CountOnce(s[1..], j);
      assert s == [s[0]] + s[1..];
      assert multiset(s) == multiset{s[0]} + multiset(s[1..]);
    }
  }

  // ---------------------------------------------------------- which steps keep it so

  lemma ReportedElsewhere(events: seq<JobEvent>, e: JobEvent, j: nat)
    ensures LastReported(events + [e], j) == if e.job == j then Some(e.status) else LastReported(events, j)
  {
    assert (events + [e])[..|events|] == events;
  }

  // A row may be rewritten while it is not terminal, if its new status respects the
  // cancellation flag and a queued job has not been entered.
  lemma RecordKeeps(l: Ledger, j: nat, job: Job)
    requires LedgerOk(l) && j < |l.jobs| && RowLater(l.jobs[j], job)
    requires job.cancelRequested ==> job.status !in {Queued, Completed}
    requires job.status == Queued ==> j !in l.entries
    requires job.status in {Running, Validating, Completed} ==> j in l.entries
    ensures LedgerOk(Recorded(l, j, job)) && Later(l, Recorded(l, j, job))
  {
    var m := Recorded(l, j, job);
    forall i: nat | i < |m.jobs| ensures RowOk(m, i) {
      assert RowOk(l, i);
      ReportedElsewhere(l.events, JobEvent(j, job.status), i);
    }
  }

  lemma AddKeeps(l: Ledger, request: Request, now: nat)
    requires LedgerOk(l) && Existing(l.jobs, request).None?
    ensures LedgerOk(Added(l, request, now)) && Later(l, Added(l, request, now))
  {
    var m := Added(l, request, now);
    NotReported(l.events, |l.jobs|);
    forall i: nat | i < |m.jobs| ensures RowOk(m, i) {
      ReportedElsewhere(l.events, JobEvent(|l.jobs|, Queued), i);
      if i < |l.jobs| { assert RowOk(l, i); }
    }
  }

  lemma NotReported(events: seq<JobEvent>, j: nat)
    requires forall e | e in events :: e.job != j
    ensures LastReported(events, j).None?
  {
  }

  lemma EnterKeeps(l: Ledger, j: nat)
    requires LedgerOk(l) && j < |l.jobs| && j !in l.entries && l.jobs[j].status != Queued
    ensures LedgerOk(Entered(l, j)) && Later(l, Entered(l, j))
  {
    var m := Entered(l, j);
    forall i: nat | i < |m.jobs| ensures RowOk(m, i) {
      assert RowOk(l, i);
    }
  }

  lemma CancelKeeps(l: Ledger, j: nat)
    requires LedgerOk(l)
    ensures LedgerOk(CancelledBy(l, j)) && Later(l, CancelledBy(l, j))
  {
    if j < |l.jobs| {
      assert RowOk(l, j);
      if l.jobs[j].status == Queued {
        RecordKeeps(l, j, l.jobs[j].(status := JobStatus.Cancelled, cancelRequested := true));
      } else if !Terminal(l.jobs[j].status) {
        RecordKeeps(l, j, l.jobs[j].(cancelRequested := true));
      }
    }
  }

  lemma {:induction false} InterruptKeeps(l: Ledger, i: nat)
    requires LedgerOk(l) && i <= |l.jobs|
    ensures var m := InterruptedFrom(l, i);
      && LedgerOk(m) && Later(l, m) && |m.jobs| == |l.jobs| && m.entries == l.entries
      && (forall j: nat | j < |l.jobs| :: m.jobs[j] == if j >= i && Live(l.jobs[j].status)
            then l.jobs[j].(status := Interrupted, error := Some("broker_restarted")) else l.jobs[j])
    decreases |l.jobs| - i
  {
    if i < |l.jobs| {
      if Live(l.jobs[i].status) {
        RecordKeeps(l, i, l.jobs[i].(status := Interrupted, error := Some("broker_restarted")));
        var n := InterruptedOne(l, i);
        InterruptKeeps(n, i + 1);
        LaterTransitive(l, n, InterruptedFrom(n, i + 1));
      } else {
        InterruptKeeps(l, i + 1);
      }
    }
  }

  // Deferring re-queues exactly a job no cancellation was accepted for. One whose workload
  // had been entered would be entered again: an executor that raises the admission error
  // from its workload breaks at-most-once execution.
  lemma DeferringAfterEntryReplays(l: Ledger, j: nat, until: nat, now: nat, supported: set<string>)
    requires j < |l.jobs| && Live(l.jobs[j].status) && l.jobs[j].status != Validating
    requires j in l.entries && now >= until && l.jobs[j].request.capability in supported
    ensures Claimable(Requeued(l, j, until).jobs[j], now, supported) <==> !l.jobs[j].cancelRequested
    ensures !l.jobs[j].cancelRequested ==> !LedgerOk(Requeued(l, j, until))
  {
    if !l.jobs[j].cancelRequested { assert !RowOk(Requeued(l, j, until), j); }
  }

  class Store {
    var jobs: seq<Job>
    var events: seq<JobEvent>
    var entries: seq<nat>
    var clock: nat
    var history: seq<Ledger>            // every ledger a crash can leave behind

    function L(): Ledger
      reads this
    {
      Ledger(jobs, events, entries)
    }

    constructor ()
      ensures L() == Ledger([], [], []) && history == [L()]
    {
      jobs, events, entries, clock := [], [], [], 0;
      new;
      history := [L()];
    }

    // One committed transaction on one row.
    method Write(j: nat, job: Job)
      requires j < |jobs|
      modifies this`jobs, this`events, this`history
      ensures L() == Recorded(old(L()), j, job) && history == old(history) + [L()]
    {
      jobs := jobs[j := job];
      events := events + [JobEvent(j, job.status)];
      history := history + [L()];
    }

    method FindJob(request: Request) returns (r: Option<nat>)
      ensures r == Existing(jobs, request)
    {
      for j := 0 to |jobs|
        invariant Existing(jobs[..j], request).None?
      {
        assert jobs[..j + 1][..j] == jobs[..j];
        if SameKey(jobs[j].request, request) {
          ExistingFirst(jobs, request, j);
          return Some(j);
        }
      }
      assert jobs[..|jobs|] == jobs;
      return None;
    }

    method CountPending() returns (n: nat)
      ensures n == |set j: nat | j < |jobs| && jobs[j].status in {Queued, Loading, Running, Validating}|
    {
      n := 0;
      for j := 0 to |jobs|
        invariant n == |PendingJobs(jobs[..j])|
      {
        var a, b := PendingJobs(jobs[..j]), PendingJobs(jobs[..j + 1]);
        assert b == if Terminal(jobs[j].status) then a else a + {j};
        if !Terminal(jobs[j].status) { n := n + 1; }
      }
      assert jobs[..|jobs|] == jobs;
    }

    // submit: the row with the same origin and key, a conflict if that asks for anything
    // else, a refusal if as many as `limit` have not ended, or a new row at the end
    method SubmitJob(request: Request, limit: Option<nat>) returns (r: Result<(nat, bool)>)
      modifies this`jobs, this`events, this`history
      ensures r.Ok? && !r.value.1 ==> r.value.0 < |old(jobs)| && old(jobs)[r.value.0].request == request
      ensures r == Err("idempotency_conflict") ==> exists j | 0 <= j < |old(jobs)| ::
                old(jobs)[j].request.origin == request.origin && old(jobs)[j].request.key == request.key
                && old(jobs)[j].request != request
      ensures (r.Ok? && r.value.1) || (r.Err? && r.code != "idempotency_conflict") ==>
        && (forall j | 0 <= j < |old(jobs)| :: old(jobs)[j].request.origin != request.origin || old(jobs)[j].request.key != request.key)
        && var pending := |set j: nat | j < |old(jobs)| && old(jobs)[j].status in {Queued, Loading, Running, Validating}|;
           if limit.Some? && limit.value <= pending then r == Err("queue_full") else r == Ok((|old(jobs)|, true))
      ensures if r.Ok? && r.value.1
              then jobs == old(jobs) + [Job(request, Queued, false, None, 0, clock, None, None, None)]
                   && events == old(events) + [JobEvent(|old(jobs)|, Queued)]
                   && entries == old(entries) && history == old(history) + [L()]
              else L() == old(L()) && history == old(history)
    {
      var found := FindJob(request);
      if found.Some? {
        if jobs[found.value].request != request { return Err("idempotency_conflict"); }
        return Ok((found.value, false));
      }
      if limit.Some? {
        var pending := CountPending();
        if pending >= limit.value { return Err("queue_full"); }
      }
      r := Ok((|jobs|, true));
      events := events + [JobEvent(|jobs|, Queued)];
      jobs := jobs + [Job(request, Queued, false, None, 0, clock, None, None, None)];
      history := history + [L()];
    }

    // claim_next: of the queued jobs that are not cancelled, not deferred beyond now and of a
    // supported capability, one of the highest priority that none of the same priority is
    // older than; or none, if there are none
    method ClaimNext(supported: set<string>) returns (r: Option<nat>)
      modifies this`jobs, this`events, this`history
      ensures forall j | 0 <= j < |old(jobs)| && old(jobs)[j].status == Queued && !old(jobs)[j].cancelRequested
                         && (old(jobs)[j].notBefore.None? || old(jobs)[j].notBefore.value <= clock)
                         && old(jobs)[j].request.capability in supported ::
                && r.Some? && r.value < |old(jobs)|
                && var best, other := old(jobs)[r.value], old(jobs)[j];
                   && other.request.priority <= best.request.priority
                   && (other.request.priority == best.request.priority ==> best.created <= other.created)
      ensures r.None? ==> L() == old(L()) && history == old(history)
      ensures r.Some? ==>
        && r.value < |old(jobs)| && old(jobs)[r.value].status == Queued && !old(jobs)[r.value].cancelRequested
        && (old(jobs)[r.value].notBefore.None? || old(jobs)[r.value].notBefore.value <= clock)
        && old(jobs)[r.value].request.capability in supported
        && jobs == old(jobs)[r.value := old(jobs)[r.value].(status := Loading, notBefore := None, attempt := old(jobs)[r.value].attempt + 1)]
        && events == old(events) + [JobEvent(r.value, Loading)] && entries == old(entries) && history == old(history) + [L()]
    {
      r := None;
      for j := 0 to |jobs|
        invariant r.None? ==> forall k | 0 <= k < j :: !Claimable(jobs[k], clock, supported)
        invariant r.Some? ==> r.value < j && Claimable(jobs[r.value], clock, supported)
        invariant r.Some? ==> forall k | 0 <= k < j && Claimable(jobs[k], clock, supported) :: !Sooner(jobs[k], jobs[r.value])
      {
        if Claimable(jobs[j], clock, supported) && (r.None? || Sooner(jobs[j], jobs[r.value])) { r := Some(j); }
      }
      if r.Some? {
        var job := jobs[r.value];
        Write(r.value, job.(status := Loading, notBefore := None, attempt := job.attempt + 1));
      }
    }

    // defer: not to be claimed again before a tenth of a second, or after five minutes
    method Defer(j: nat, delay: nat)
      requires j < |jobs|
      modifies this`jobs, this`events, this`history
      ensures if old(jobs)[j].status in {Loading, Running} && !old(jobs)[j].cancelRequested then
                var until := clock + (if delay == 0 then 1 else if delay > 3000 then 3000 else delay);
                && L() == Requeued(old(L()), j, until)
                && jobs == old(jobs)[j := old(jobs)[j].(status := Queued, notBefore := Some(until))]
                && events == old(events) + [JobEvent(j, Queued)]
                && entries == old(entries) && history == old(history) + [L()]
              else L() == old(L()) && history == old(history)
    {
      var job := jobs[j];
      ghost var before := L();
      if job.status in {Loading, Running} && !job.cancelRequested {
        Write(j, job.(status := Queued, notBefore := Some(clock + RetryAfter(delay))));
        assert L().events != before.events;
      }
    }

    // transition: whatever the row's status is
    method Transition(j: nat, status: JobStatus, profile: Option<string>)
      requires j < |jobs|
      modifies this`jobs, this`events, this`history
      ensures jobs == old(jobs)[j := if profile.Some? then old(jobs)[j].(status := status, profile := profile)
                                     else old(jobs)[j].(status := status)]
      ensures events == old(events) + [JobEvent(j, status)] && entries == old(entries) && history == old(history) + [L()]
    {
      var job := jobs[j];
      Write(j, job.(status := status, profile := if profile.Some? then profile else job.profile));
    }

    // finish
    method Finish(j: nat, result: nat) returns (done: bool)
      requires j < |jobs|
      modifies this`jobs, this`events, this`history
      ensures done <==> !old(jobs)[j].cancelRequested && old(jobs)[j].status in {Loading, Running, Validating}
      ensures if done then
                && jobs == old(jobs)[j := old(jobs)[j].(status := Completed, result := Some(result), error := None)]
                && events == old(events) + [JobEvent(j, Completed)]
                && entries == old(entries) && history == old(history) + [L()]
              else if old(jobs)[j].cancelRequested && old(jobs)[j].status in {Queued, Loading, Running, Validating} then
                && jobs == old(jobs)[j := old(jobs)[j].(status := JobStatus.Cancelled, error := Some("cancelled"))]
                && events == old(events) + [JobEvent(j, JobStatus.Cancelled)]
                && entries == old(entries) && history == old(history) + [L()]
              else L() == old(L()) && history == old(history)
    {
      var job := jobs[j];
      ghost var before := L();
      done := !job.cancelRequested && Live(job.status);
      if done {
        Write(j, job.(status := Completed, result := Some(result), error := None));
        assert L().events != before.events;
      } else if job.cancelRequested && !Terminal(job.status) {
        Write(j, job.(status := JobStatus.Cancelled, error := Some("cancelled")));
        assert L().events != before.events;
      }
    }

    // fail: whatever the row's status is
    method Fail(j: nat, code: string, status: JobStatus)
      requires j < |jobs|
      modifies this`jobs, this`events, this`history
      ensures jobs == old(jobs)[j := old(jobs)[j].(status := status, error := Some(code))]
      ensures events == old(events) + [JobEvent(j, status)] && entries == old(entries) && history == old(history) + [L()]
    {
      Write(j, jobs[j].(status := status, error := Some(code)));
    }

    // cancel
    method CancelJob(j: nat)
      modifies this`jobs, this`events, this`history
      ensures L() == CancelledBy(old(L()), j)
      ensures if j < |old(jobs)| && old(jobs)[j].status == Queued then
                && jobs == old(jobs)[j := old(jobs)[j].(status := JobStatus.Cancelled, cancelRequested := true)]
                && events == old(events) + [JobEvent(j, JobStatus.Cancelled)]
                && entries == old(entries) && history == old(history) + [L()]
              else if j < |old(jobs)| && old(jobs)[j].status in {Loading, Running, Validating} then
                && jobs == old(jobs)[j := old(jobs)[j].(cancelRequested := true)]
                && events == old(events) + [JobEvent(j, old(jobs)[j].status)]
                && entries == old(entries) && history == old(history) + [L()]
              else L() == old(L()) && history == old(history)
    {
      if j >= |jobs| { return; }
      var job := jobs[j];
      ghost var before := L();
      if job.status == Queued {
        Write(j, job.(status := JobStatus.Cancelled, cancelRequested := true));
        assert L().events != before.events;
      } else if !Terminal(job.status) {
        Write(j, job.(cancelRequested := true));
        assert L().events != before.events;
      }
    }

    // interrupt_uncertain_jobs: one transaction over all active rows
    method InterruptUncertainJobs() returns (interrupted: seq<nat>)
      modifies this`jobs, this`events, this`history
      ensures L() == InterruptedFrom(old(L()), 0) && history == old(history) + [L()]
      ensures forall j :: j in interrupted <==> 0 <= j < |old(jobs)| && old(jobs)[j].status in {Loading, Running, Validating}
      ensures |jobs| == |old(jobs)| && forall j | 0 <= j < |jobs| ::
        jobs[j] == if j in interrupted then old(jobs)[j].(status := Interrupted, error := Some("broker_restarted")) else old(jobs)[j]
      ensures |events| == |old(events)| + |interrupted| && old(events) <= events && entries == old(entries)
      ensures forall k | 0 <= k < |interrupted| :: events[|old(events)| + k] == JobEvent(interrupted[k], Interrupted)
    {
      interrupted := [];
      for i := 0 to |jobs|
        modifies this`jobs, this`events
        invariant |jobs| == |old(jobs)|
        invariant forall j: nat | i <= j < |jobs| :: jobs[j] == old(jobs)[j]
        invariant InterruptedFrom(L(), i) == InterruptedFrom(old(L()), 0)
        invariant forall j :: j in interrupted <==> 0 <= j < i && Live(old(jobs)[j].status)
        invariant forall j: nat | j < i ::
          jobs[j] == if j in interrupted then old(jobs)[j].(status := Interrupted, error := Some("broker_restarted")) else old(jobs)[j]
        invariant |events| == |old(events)| + |interrupted| && old(events) <= events
        invariant forall k | 0 <= k < |interrupted| :: events[|old(events)| + k] == JobEvent(interrupted[k], Interrupted)
      {
        if Live(jobs[i].status) {
          interrupted := interrupted + [i];
          events := events + [JobEvent(i, Interrupted)];
          jobs := jobs[i := jobs[i].(status := Interrupted, error := Some("broker_restarted"))];
        }
      }
      history := history + [L()];
    }

    // The workload is entered.
    method Enter(j: nat)
      modifies this`entries, this`history
      ensures L() == Entered(old(L()), j) && history == old(history) + [L()]
    {
      entries := entries + [j];
      history := history + [L()];
    }

    method Wait(tenths: nat)
      modifies this`clock
      ensures clock == old(clock) + tenths
    {
      clock := clock + tenths;
    }

    // A crash leaves the ledger as some earlier transaction committed it.
    method CrashAt(k: nat)
      requires k < |history|
      modifies this`jobs, this`events, this`entries, this`history
      ensures L() == old(history)[k] && history == old(history)[..k + 1]
    {
      var left := history[k];
      jobs, events, entries := left.jobs, left.events, left.entries;
      history := history[..k + 1];
    }
  }

  lemma {:induction false} ExistingFirst(jobs: seq<Job>, request: Request, j: nat)
    requires j < |jobs| && Existing(jobs[..j], request).None? && SameKey(jobs[j].request, request)
    ensures Existing(jobs, request) == Some(j)
    decreases |jobs|
  {
    var n := |jobs| - 1;
    if j < n {
      assert jobs[..n][..j] == jobs[..j];
      ExistingFirst(jobs[..n], request, j);
    }
  }
}
