// The resource-control loop: a scan of the queue, page by page, for a job worth preempting
// the active one for.
module Preemption {
  import opened Wrappers
  import opened Ordering
  import opened Jobs

  // What the scan sees of a queued job.
  datatype Ticket = Ticket(job: nat, priority: int, created: nat)

  const SOONEST: (Ticket, Ticket) -> bool :=
    (a: Ticket, b: Ticket) =>
      || a.priority > b.priority
      || (a.priority == b.priority && (a.created < b.created || (a.created == b.created && a.job < b.job)))

  function Tickets(jobs: seq<Job>, now: nat, supported: set<string>): (r: seq<Ticket>)
    ensures forall t :: t in r <==>
      t.job < |jobs| && Claimable(jobs[t.job], now, supported)
      && t == Ticket(t.job, jobs[t.job].request.priority, jobs[t.job].created)
    ensures forall i, j | 0 <= i < j < |r| :: r[i].job < r[j].job
  {
    if jobs == [] then []
    else
      var n := |jobs| - 1;
      var before := Tickets(jobs[..n], now, supported);
      if Claimable(jobs[n], now, supported) then before + [Ticket(n, jobs[n].request.priority, jobs[n].created)]
      else before
  }

  // peek_queued over the whole table
  function Queue(jobs: seq<Job>, now: nat, supported: set<string>): seq<Ticket>
  {
    Sort(SOONEST, Tickets(jobs, now, supported))
  }

  function Page(queue: seq<Ticket>, offset: nat, limit: nat): (r: seq<Ticket>)
    ensures |r| <= limit
    ensures offset <= |queue| ==> r <= queue[offset..] && (|r| < limit ==> r == queue[offset..])
  {
    if offset >= |queue| then []
    else if offset + limit <= |queue| then queue[offset..offset + limit]
    else queue[offset..]
  }

  lemma QueueIsOrdered(jobs: seq<Job>, now: nat, supported: set<string>)
    ensures Increasing(SOONEST, Queue(jobs, now, supported))
    ensures var q := Queue(jobs, now, supported);
      forall i, j | 0 <= i < j < |q| ::
        || q[j].priority < q[i].priority
        || (q[j].priority == q[i].priority && (q[i].created < q[j].created || (q[i].created == q[j].created && q[i].job < q[j].job)))
    ensures forall t :: t in Queue(jobs, now, supported) <==> t in Tickets(jobs, now, supported)
  {
    var tickets := Tickets(jobs, now, supported);
    SortIncreasing(SOONEST, tickets);
    SortElements(SOONEST, tickets);
  }

  // The head of the queue is a job that can be claimed, and none that can be claimed comes
  // before it.
  lemma HeadComesFirst(jobs: seq<Job>, now: nat, supported: set<string>)
    ensures var q := Queue(jobs, now, supported);
      && (q == [] <==> forall j | 0 <= j < |jobs| :: !Claimable(jobs[j], now, supported))
      && (q != [] ==>
            && q[0].job < |jobs| && Claimable(jobs[q[0].job], now, supported)
            && forall j | 0 <= j < |jobs| && Claimable(jobs[j], now, supported) :: !Sooner(jobs[j], jobs[q[0].job]))
  {
    hide Queue, Tickets, Claimable;
    QueueIsOrdered(jobs, now, supported);
    var q := Queue(jobs, now, supported);
    forall j: nat | j < |jobs| && Claimable(jobs[j], now, supported) ensures q != [] && !Sooner(jobs[j], jobs[q[0].job]) {
      var t := Ticket(j, jobs[j].request.priority, jobs[j].created);
      assert t in Tickets(jobs, now, supported);
      var i :| 0 <= i < |q| && q[i] == t;
      assert q[0] in q;
    }
    if q != [] { assert q[0] in q; }
  }

  // A queued job worth yielding to.
  predicate Worth(t: Ticket, active: int, suitable: set<nat>)
  {
    t.priority > active && t.job in suitable
  }

  // The jobs table and the time as one page of the scan finds them. Between two pages clients
  // and the scheduler do what they like; after the last reading nothing changes any more.
  datatype Moment = Moment(jobs: seq<Job>, now: nat)

  function ReadingAt(moments: seq<Moment>, k: nat): Moment
    requires moments != []
  {
    if k < |moments| then moments[k] else moments[|moments| - 1]
  }

  function TicketsAt(moments: seq<Moment>, k: nat, supported: set<string>): seq<Ticket>
    requires moments != []
  {
    Tickets(ReadingAt(moments, k).jobs, ReadingAt(moments, k).now, supported)
  }

  function QueueAt(moments: seq<Moment>, k: nat, supported: set<string>): seq<Ticket>
    requires moments != []
  {
    Queue(ReadingAt(moments, k).jobs, ReadingAt(moments, k).now, supported)
  }

  // It is queued all along, and nothing ahead of it leaves the queue.
  ghost predicate Steady(moments: seq<Moment>, supported: set<string>, t: Ticket)
    requires moments != []
  {
    && (forall k: nat :: t in TicketsAt(moments, k, supported))
    && forall k: nat, u | u in TicketsAt(moments, k, supported) && SOONEST(u, t) :: u in TicketsAt(moments, k + 1, supported)
  }

  // The scan asks the active job to yield to a job that was queued, outranked it and was
  // suitable when its page was read; and to the first such job in queue order among all that
  // stay queued while nothing ahead of them leaves: whatever is submitted, deferred or leaves
  // behind them, neither paging nor stopping at the first job that does not outrank the
  // active one misses any of these. In a queue that does not change those are all jobs.
  method ControlScan(moments: seq<Moment>, supported: set<string>, limit: nat, active: int, suitable: set<nat>)
    returns (r: Option<nat>)
    requires moments != [] && 1 <= limit <= 100
    ensures r.None? ==> forall t | Steady(moments, supported, t) :: t.priority <= active || t.job !in suitable
    ensures r.Some? ==> exists k: nat, t | t in TicketsAt(moments, k, supported) ::
              && t.job == r.value && active < t.priority && t.job in suitable
              && forall u | Steady(moments, supported, u) && active < u.priority && u.job in suitable && u != t ::
                   || u.priority < t.priority
                   || (u.priority == t.priority && (t.created < u.created || (t.created == u.created && t.job < u.job)))
  {
    hide Queue, Tickets, Increasing, Steady;
    r := None;
    var offset: nat, k: nat := 0, 0;
    var found := false;
    StartsPast(moments, supported, active, suitable);
    while !found
      invariant r.None?
      invariant Past(moments, supported, k, offset, active, suitable)
      invariant found ==> NoSteady(moments, supported, active, suitable)
      decreases !found, |moments| - (if k < |moments| then k else |moments|),
                if offset <= |QueueAt(moments, k, supported)| then |QueueAt(moments, k, supported)| - offset else 0
    {
      var queue := QueueAt(moments, k, supported);
      QueueIsOrdered(ReadingAt(moments, k).jobs, ReadingAt(moments, k).now, supported);
      var page := Page(queue, offset, limit);
      if page == [] {
        AllPast(moments, supported, k, offset, active, suitable, queue);
        break;
      }
      found, r := ScanPage(moments, supported, k, queue, offset, page, active, suitable);
      if r.Some? {
        assert forall t | t in queue :: t in TicketsAt(moments, k, supported);
        return;
      }
      if found { break; }
      if |page| < limit {
        AllPast(moments, supported, k, offset + |page|, active, suitable, queue);
        break;
      }
      offset := offset + |page|;
      NextPast(moments, supported, k, offset, active, suitable);
      k := k + 1;
    }
  }

  // Each steady job worth yielding to still lies ahead of the scan in the present queue.
  ghost predicate Past(moments: seq<Moment>, supported: set<string>, k: nat, offset: nat, active: int, suitable: set<nat>)
    requires moments != []
  {
    forall t | Steady(moments, supported, t) && Worth(t, active, suitable) :: LiesFrom(QueueAt(moments, k, supported), offset, t)
  }

  predicate LiesFrom(queue: seq<Ticket>, offset: nat, t: Ticket)
  {
    exists p | offset <= p < |queue| :: queue[p] == t
  }

  ghost predicate NoSteady(moments: seq<Moment>, supported: set<string>, active: int, suitable: set<nat>)
    requires moments != []
  {
    forall t | Steady(moments, supported, t) :: !Worth(t, active, suitable)
  }

  lemma StartsPast(moments: seq<Moment>, supported: set<string>, active: int, suitable: set<nat>)
    requires moments != []
    ensures Past(moments, supported, 0, 0, active, suitable)
  {
    hide Queue, Tickets, Worth, Increasing;
    QueueIsOrdered(ReadingAt(moments, 0).jobs, ReadingAt(moments, 0).now, supported);
    forall t | Steady(moments, supported, t) ensures LiesFrom(QueueAt(moments, 0, supported), 0, t) {
      assert t in TicketsAt(moments, 0, supported);
    }
  }

  lemma AllPast(moments: seq<Moment>, supported: set<string>, k: nat, offset: nat, active: int, suitable: set<nat>, queue: seq<Ticket>)
    requires moments != [] && queue == QueueAt(moments, k, supported) && offset >= |queue|
    requires Past(moments, supported, k, offset, active, suitable)
    ensures NoSteady(moments, supported, active, suitable)
  {
  }

  // What lies ahead of the scan lies ahead of it in the next reading too, because nothing
  // before it has left.
  lemma NextPast(moments: seq<Moment>, supported: set<string>, k: nat, offset: nat, active: int, suitable: set<nat>)
    requires moments != [] && Past(moments, supported, k, offset, active, suitable)
    ensures Past(moments, supported, k + 1, offset, active, suitable)
  {
    hide Queue, Tickets, Worth;
    var queue, next := QueueAt(moments, k, supported), QueueAt(moments, k + 1, supported);
    QueueIsOrdered(ReadingAt(moments, k).jobs, ReadingAt(moments, k).now, supported);
    QueueIsOrdered(ReadingAt(moments, k + 1).jobs, ReadingAt(moments, k + 1).now, supported);
    forall t | Steady(moments, supported, t) && Worth(t, active, suitable) ensures LiesFrom(next, offset, t) {
      assert LiesFrom(queue, offset, t);
      var p :| offset <= p < |queue| && queue[p] == t;
      assert t in TicketsAt(moments, k + 1, supported);
      var r :| 0 <= r < |next| && next[r] == t;
      forall i | 0 <= i < p ensures queue[i] in next {
        assert queue[i] in TicketsAt(moments, k, supported) && SOONEST(queue[i], t);
      }
      PlacesGrow(queue, next, p, r);
    }
  }

  lemma PlacesGrow(queue: seq<Ticket>, next: seq<Ticket>, p: nat, r: nat)
    requires Increasing(SOONEST, queue) && Increasing(SOONEST, next) && p < |queue| && r < |next| && queue[p] == next[r]
    requires forall i | 0 <= i < p :: queue[i] in next
    ensures p <= r
  {
    forall x | x in queue[..p] ensures x in next[..r] {
      var i :| 0 <= i < p && queue[i] == x;
      assert SOONEST(x, next[r]);
      var j :| 0 <= j < |next| && next[j] == x;
      assert j < r;
    }
    assert forall i, j | 0 <= i < j < p :: SOONEST(queue[i], queue[j]);
    Fits(queue[..p], next[..r]);
  }

  lemma {:induction false} Fits(a: seq<Ticket>, b: seq<Ticket>)
    requires Distinct(a) && forall x | x in a :: x in b
    ensures |a| <= |b|
  {
    if a != [] {
      assert a[0] in b;
      var j :| 0 <= j < |b| && b[j] == a[0];
      var rest := b[..j] + b[j + 1..];
      forall x | x in a[1..] ensures x in rest {
        var i :| 1 <= i < |a| && a[i] == x;
        assert a[i] in b;
        var m :| 0 <= m < |b| && b[m] == x;
        assert m != j;
        assert x == if m < j then rest[m] else rest[m - 1];
      }
      Fits(a[1..], rest);
    }
  }

  // One page: whether the scan may stop, and the job found.
  method ScanPage(moments: seq<Moment>, supported: set<string>, k: nat, queue: seq<Ticket>, offset: nat, page: seq<Ticket>,
                  active: int, suitable: set<nat>)
    returns (found: bool, r: Option<nat>)
    requires moments != [] && queue == QueueAt(moments, k, supported) && Increasing(SOONEST, queue)
    requires offset <= |queue| && page <= queue[offset..] && Past(moments, supported, k, offset, active, suitable)
    ensures r.None? && found ==> NoSteady(moments, supported, active, suitable)
    ensures r.None? && !found ==> Past(moments, supported, k, offset + |page|, active, suitable)
    ensures r.Some? ==> found && exists t | t in queue ::
              && t.job == r.value && Worth(t, active, suitable)
              && forall u | Steady(moments, supported, u) && Worth(u, active, suitable) && u != t :: SOONEST(t, u)
  {
    hide Increasing, Steady, Past, NoSteady, Queue, Tickets;
    for i := 0 to |page|
      invariant Past(moments, supported, k, offset + i, active, suitable)
    {
      var queued := page[i];
      assert queued == queue[offset + i];
      OnePast(moments, supported, k, queue, offset + i, active, suitable);
      if queued.priority <= active { return true, None; }
      if queued.job in suitable { return true, Some(queued.job); }
    }
    return false, None;
  }

  // What one ticket in the page says of the rest.
  lemma OnePast(moments: seq<Moment>, supported: set<string>, k: nat, queue: seq<Ticket>, n: nat, active: int, suitable: set<nat>)
    requires moments != [] && queue == QueueAt(moments, k, supported) && Increasing(SOONEST, queue) && n < |queue|
    requires Past(moments, supported, k, n, active, suitable)
    ensures queue[n].priority <= active ==> NoSteady(moments, supported, active, suitable)
    ensures !Worth(queue[n], active, suitable) ==> Past(moments, supported, k, n + 1, active, suitable)
    ensures forall u | Steady(moments, supported, u) && Worth(u, active, suitable) && u != queue[n] :: SOONEST(queue[n], u)
  {
    hide Steady, Queue, Tickets;
    forall u | Steady(moments, supported, u) && Worth(u, active, suitable)
      ensures queue[n].priority > active
      ensures u != queue[n] ==> SOONEST(queue[n], u) && LiesFrom(queue, n + 1, u)
    {
      assert LiesFrom(queue, n, u);
      var p :| n <= p < |queue| && queue[p] == u;
      if p > n { assert SOONEST(queue[n], queue[p]); }
    }
  }

  // Why the condition is needed: once a ticket the scan has passed leaves the queue, the one
  // at its offset moves up and is in no page it still reads.
  lemma LeavingSkips(queue: seq<Ticket>, offset: nat, i: nat)
    requires Increasing(SOONEST, queue) && i < offset < |queue|
    ensures var after := queue[..i] + queue[i + 1..];
      && Increasing(SOONEST, after) && queue[offset] == after[offset - 1]
      && forall later, limit | later >= offset :: queue[offset] !in Page(after, later, limit)
  {
    var after := queue[..i] + queue[i + 1..];
    forall later: nat, limit: nat | later >= offset ensures queue[offset] !in Page(after, later, limit) {
      var page := Page(after, later, limit);
      forall m | 0 <= m < |page| ensures page[m] != after[offset - 1] {
        assert page[m] == after[later + m];
        assert SOONEST(after[offset - 1], after[later + m]);
      }
    }
  }
}
