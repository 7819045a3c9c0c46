/** Any number of matchmaker replicas over one queue, with no leader and with stale reads. */
module Replicas {
  import opened Base
  import opened Tickets
  import opened Units
  import opened Matcher
  import opened QueueModel
  import opened InMemQueue

  /** What a replica holds between its steps: nothing, a pool it read some time ago, or a claimed group. */
  datatype Worker = Idle | Looking(now: Time, snapshot: seq<Ticket>) | Pairing(group: seq<Ticket>)

  /** A successful claim, with the read it was decided on. */
  datatype Formed = Formed(now: Time, snapshot: seq<Ticket>, group: seq<Ticket>)

  datatype System = System(queue: Queue, workers: map<nat, Worker>, formed: seq<Formed>)

  datatype Act =
    | Client(op: Op)
    | Read(w: nat, mode: string, now: Time, snapshot: seq<Ticket>)
    | TryClaim(w: nat, group: seq<Ticket>)
    | Tell(w: nat, i: nat, event: Event)
    | Drop(w: nat)

  function Ids(g: seq<Ticket>): seq<UUID> { seq(|g|, i requires 0 <= i < |g| => g[i].id) }

  function WorkerOf(s: System, w: nat): Worker { if w in s.workers then s.workers[w] else Idle }

  /** The matcher's answer to a reading of the pool. */
  ghost predicate Selects(m: Matcher, now: Time, pending: seq<Ticket>, g: seq<Ticket>) {
    exists units :: IsUnitList(pending, units) && NonEmptyUnits(units) && SelectFrom(m, now, units, 0) == Some(g)
  }

  /** The tickets that reach the queue: a canonical roster and a real enqueue time. */
  ghost predicate GoodTicket(t: Ticket) { Canonical(t) && t.enqueuedAt != 0 }

  ghost predicate GoodTickets(q: Queue) {
    forall id :: id in q.tickets ==> GoodTicket(q.tickets[id].ticket)
  }

  lemma StepKeepsGood(q: Queue, op: Op)
    requires GoodTickets(q) && (op.Enqueue? ==> GoodTicket(op.ticket))
    ensures GoodTickets(Step(q, op))
  {}

  /** What Pending returns is a pool the matcher can work on. */
  lemma PendingIsPool(q: Queue, mode: string, p: seq<Ticket>)
    requires Inv(q) && GoodTickets(q) && IsPendingList(q, mode, p)
    ensures Pool(p) && |p| == |q.PendingIds(mode)|
  {
    forall i | 0 <= i < |p| ensures Canonical(p[i]) && p[i].enqueuedAt != 0 {
      assert q.tickets[p[i].id].ticket == p[i];
    }
    DistinctIdsCount(p);
    forall id | id in q.PendingIds(mode) ensures id in IdsOf(p) {
      var i :| 0 <= i < |p| && p[i] == q.tickets[id].ticket;
      assert p[i].id == id;
    }
    assert q.PendingIds(mode) == IdsOf(p);
  }

  /** A replica may read, claim what the matcher selects from its last read, tell its group, or stop at any point. */
  ghost predicate Enabled(m: Matcher, s: System, a: Act) {
    match a
    case Client(op) => !op.Claim? && !op.Publish? && (op.Enqueue? ==> GoodTicket(op.ticket))
    case Read(w, mode, now, snapshot) => WorkerOf(s, w).Idle? && IsPendingList(s.queue, mode, snapshot)
    case TryClaim(w, g) => WorkerOf(s, w).Looking? && Selects(m, WorkerOf(s, w).now, WorkerOf(s, w).snapshot, g)
    case Tell(w, i, e) => WorkerOf(s, w).Pairing? && i < |WorkerOf(s, w).group|
    case Drop(w) => true
  }

  ghost function Do(m: Matcher, s: System, a: Act): System
    requires Enabled(m, s, a)
  {
    match a
    case Client(op) => s.(queue := Step(s.queue, op))
    case Read(w, mode, now, snapshot) => s.(workers := s.workers[w := Looking(now, snapshot)])
    case TryClaim(w, g) =>
      if CanClaim(s.queue, Ids(g)) then
        System(Step(s.queue, Claim(Ids(g))), s.workers[w := Pairing(g)],
               s.formed + [Formed(WorkerOf(s, w).now, WorkerOf(s, w).snapshot, g)])
      else s.(workers := s.workers[w := Idle])
    case Tell(w, i, e) => s.(queue := Step(s.queue, Publish(WorkerOf(s, w).group[i].id, e)))
    case Drop(w) => s.(workers := s.workers[w := Idle])
  }

  const INITIAL_SYSTEM := System(EMPTY_QUEUE, map[], [])

  /** The state after a run, when every act was enabled where it happened. */
  ghost function Run(m: Matcher, acts: seq<Act>): Option<System> {
    if acts == [] then Some(INITIAL_SYSTEM)
    else
      var before := Run(m, acts[..|acts| - 1]);
      var a := acts[|acts| - 1];
      if before.Some? && Enabled(m, before.value, a) then Some(Do(m, before.value, a)) else None
  }

  ghost predicate SharesTicket(g: seq<Ticket>, h: seq<Ticket>) {
    exists i, j :: 0 <= i < |g| && 0 <= j < |h| && g[i].id == h[j].id
  }

  ghost predicate AllLeft(q: Queue, g: seq<Ticket>) {
    forall i :: 0 <= i < |g| ==> HasLeft(q, g[i].id)
  }

  ghost predicate SnapshotsOk(s: System) {
    forall w :: w in s.workers && s.workers[w].Looking? ==> Pool(s.workers[w].snapshot)
  }

  ghost predicate Safe(m: Matcher, s: System) {
    && Inv(s.queue) && GoodTickets(s.queue) && SnapshotsOk(s)
    && FormedOk(m, s.queue, s.formed) && Apart(s.formed)
  }

  /** Every group is a match of what its replica read, and has left the pool. */
  ghost predicate FormedOk(m: Matcher, q: Queue, formed: seq<Formed>) {
    forall i :: 0 <= i < |formed| ==>
                  IsMatch(m, formed[i].now, formed[i].snapshot, formed[i].group) && AllLeft(q, formed[i].group)
  }

  lemma StepKeepsLeft(q: Queue, op: Op, g: seq<Ticket>)
    requires AllLeft(q, g)
    ensures AllLeft(Step(q, op), g)
  {
    forall i | 0 <= i < |g| ensures HasLeft(Step(q, op), g[i].id) {
      StepNeverReturns(q, op, g[i].id);
    }
  }

  lemma QueueStepKeepsSafe(m: Matcher, s: System, op: Op)
    requires Safe(m, s) && (op.Enqueue? ==> GoodTicket(op.ticket))
    ensures Safe(m, s.(queue := Step(s.queue, op)))
  {
    StepKeepsInv(s.queue, op);
    StepKeepsGood(s.queue, op);
    forall i | 0 <= i < |s.formed| ensures AllLeft(Step(s.queue, op), s.formed[i].group) {
      StepKeepsLeft(s.queue, op, s.formed[i].group);
    }
  }

  lemma ClaimedLeaves(q: Queue, g: seq<Ticket>)
    requires Inv(q) && CanClaim(q, Ids(g))
    ensures AllLeft(Step(q, Claim(Ids(g))), g)
  {
    ClaimIsAllOrNothing(q, Ids(g));
    assert forall i :: 0 <= i < |g| ==> Ids(g)[i] == g[i].id;
  }

  /** What can be claimed now shares nothing with what has left. */
  lemma LeftIsApart(q: Queue, h: seq<Ticket>, g: seq<Ticket>)
    requires AllLeft(q, h) && CanClaim(q, Ids(g))
    ensures !SharesTicket(h, g)
  {
    forall a, b | 0 <= a < |h| && 0 <= b < |g| ensures h[a].id != g[b].id {
      assert HasLeft(q, h[a].id);
      assert Ids(g)[b] in Ids(g);
    }
  }

  lemma ClaimKeepsSafe(m: Matcher, s: System, w: nat, g: seq<Ticket>)
    requires Safe(m, s) && Enabled(m, s, TryClaim(w, g)) && CanClaim(s.queue, Ids(g))
    ensures Safe(m, Do(m, s, TryClaim(w, g)))
  {
    var worker := WorkerOf(s, w);
    SelectionIsMatch(m, worker.now, worker.snapshot, g);
    QueueStepKeepsSafe(m, s, Claim(Ids(g)));
    ClaimedLeaves(s.queue, g);
    forall i | 0 <= i < |s.formed| ensures !SharesTicket(s.formed[i].group, g) {
      LeftIsApart(s.queue, s.formed[i].group, g);
    }
    FormedGrows(m, Step(s.queue, Claim(Ids(g))), s.formed, Formed(worker.now, worker.snapshot, g));
  }

  lemma SelectionIsMatch(m: Matcher, now: Time, pending: seq<Ticket>, g: seq<Ticket>)
    requires Pool(pending) && Selects(m, now, pending, g)
    ensures IsMatch(m, now, pending, g)
  {
    var units :| IsUnitList(pending, units) && NonEmptyUnits(units) && SelectFrom(m, now, units, 0) == Some(g);
    SelectedIsMatch(m, now, pending, units);
  }

  lemma FormedGrows(m: Matcher, q: Queue, formed: seq<Formed>, f: Formed)
    requires FormedOk(m, q, formed) && Apart(formed)
    requires IsMatch(m, f.now, f.snapshot, f.group) && AllLeft(q, f.group)
    requires forall i :: 0 <= i < |formed| ==> !SharesTicket(formed[i].group, f.group)
    ensures FormedOk(m, q, formed + [f]) && Apart(formed + [f])
  {}

  lemma ActKeepsSafe(m: Matcher, s: System, a: Act)
    requires Safe(m, s) && Enabled(m, s, a)
    ensures Safe(m, Do(m, s, a))
  {
    match a
    case Client(op) => QueueStepKeepsSafe(m, s, op);
    case Read(_, mode, _, snapshot) => PendingIsPool(s.queue, mode, snapshot);
    case TryClaim(w, g) =>
      if CanClaim(s.queue, Ids(g)) {
        ClaimKeepsSafe(m, s, w, g);
      }
    case Tell(w, i, e) => QueueStepKeepsSafe(m, s, Publish(WorkerOf(s, w).group[i].id, e));
    case Drop(_) =>
  }

  /**
   * In every run of every number of replicas, each group ever claimed is a match of the pool its replica read,
   * all its tickets have left the pending pool, and no two groups share a ticket.
   */
  lemma {:induction false} EveryRunIsSafe(m: Matcher, acts: seq<Act>)
    requires Run(m, acts).Some?
    ensures Safe(m, Run(m, acts).value)
  {
    if acts != [] {
      EveryRunIsSafe(m, acts[..|acts| - 1]);
      ActKeepsSafe(m, Run(m, acts[..|acts| - 1]).value, acts[|acts| - 1]);
    }
  }

  /** The tickets ever claimed. */
  ghost function ClaimedIds(formed: seq<Formed>): set<UUID> {
    if formed == [] then {}
    else ClaimedIds(formed[..|formed| - 1]) + IdsOf(formed[|formed| - 1].group)
  }

  ghost function IdsOf(g: seq<Ticket>): set<UUID> { set j | 0 <= j < |g| :: g[j].id }

  lemma {:induction false} DistinctIdsCount(g: seq<Ticket>)
    requires DistinctIds(g)
    ensures |IdsOf(g)| == |g|
  {
    if g != [] {
      var init, last := g[..|g| - 1], g[|g| - 1];
      DistinctIdsCount(init);
      assert IdsOf(g) == IdsOf(init) + {last.id};
      assert last.id !in IdsOf(init);
    }
  }

  lemma {:induction false} LaterGroupIsNew(formed: seq<Formed>, g: seq<Ticket>)
    requires forall i :: 0 <= i < |formed| ==> !SharesTicket(formed[i].group, g)
    ensures ClaimedIds(formed) !! IdsOf(g)
  {
    if formed != [] {
      LaterGroupIsNew(formed[..|formed| - 1], g);
      var h := formed[|formed| - 1].group;
      assert !SharesTicket(h, g);
      forall id | id in IdsOf(h) ensures id !in IdsOf(g) {
        var a :| 0 <= a < |h| && h[a].id == id;
        assert forall b :: 0 <= b < |g| ==> g[b].id != h[a].id;
      }
    }
  }

  ghost predicate Sized(k: int, formed: seq<Formed>) {
    forall i :: 0 <= i < |formed| ==> |formed[i].group| == k && DistinctIds(formed[i].group)
  }

  ghost predicate Apart(formed: seq<Formed>) {
    forall i, j :: 0 <= i < j < |formed| ==> !SharesTicket(formed[i].group, formed[j].group)
  }

  lemma {:induction false} ClaimsCount(k: int, formed: seq<Formed>)
    requires Sized(k, formed) && Apart(formed)
    ensures |ClaimedIds(formed)| == |formed| * k
  {
    if formed != [] {
      var n := |formed| - 1;
      var init, g := formed[..n], formed[n].group;
      assert Sized(k, init) && Apart(init);
      ClaimsCount(k, init);
      DistinctIdsCount(g);
      LaterGroupIsNew(init, g);
      DisjointCount(ClaimedIds(init), IdsOf(g));
      OneMore(n, k);
    }
  }

  lemma DisjointCount(a: set<UUID>, b: set<UUID>)
    requires a !! b
    ensures |a + b| == |a| + |b|
  {}

  lemma OneMore(n: nat, k: int)
    ensures (n + 1) * k == n * k + k
  {}

  /** Conservation over every run: groups times players-per-match tickets have been taken, no more and no fewer. */
  lemma EveryRunConserves(m: Matcher, acts: seq<Act>)
    requires Run(m, acts).Some?
    ensures var s := Run(m, acts).value; |ClaimedIds(s.formed)| == |s.formed| * m.playersPerMatch
  {
    EveryRunIsSafe(m, acts);
    var s := Run(m, acts).value;
    forall i | 0 <= i < |s.formed|
      ensures |s.formed[i].group| == m.playersPerMatch && DistinctIds(s.formed[i].group)
    {
      assert IsMatch(m, s.formed[i].now, s.formed[i].snapshot, s.formed[i].group);
    }
    ClaimsCount(m.playersPerMatch, s.formed);
  }

  // ---- what a replica's step does ----

  /** A selection whose tickets are all still pending is always formed, and they are claimed. */
  lemma FreshSelectionIsFormed(m: Matcher, s: System, w: nat, g: seq<Ticket>)
    requires Enabled(m, s, TryClaim(w, g)) && forall i :: 0 <= i < |g| ==> s.queue.IsPending(g[i].id)
    ensures var s' := Do(m, s, TryClaim(w, g));
            && s'.formed == s.formed + [Formed(WorkerOf(s, w).now, WorkerOf(s, w).snapshot, g)]
            && WorkerOf(s', w) == Pairing(g)
            && forall i :: 0 <= i < |g| ==> g[i].id in s'.queue.tickets && s'.queue.tickets[g[i].id].claimed
  {
    assert forall i :: 0 <= i < |g| ==> Ids(g)[i] == g[i].id;
    ClaimEffect(s.queue, Ids(g));
  }

  /** A selection with a ticket that is gone is dropped, and nothing is claimed. */
  lemma StaleSelectionIsDropped(m: Matcher, s: System, w: nat, g: seq<Ticket>, i: nat)
    requires Enabled(m, s, TryClaim(w, g)) && i < |g| && !s.queue.IsPending(g[i].id)
    ensures var s' := Do(m, s, TryClaim(w, g));
            s'.formed == s.formed && s'.queue == s.queue && WorkerOf(s', w) == Idle
  {
    assert Ids(g)[i] == g[i].id;
  }

  /** What a replica tells a ticket of its group is what the queue then holds for it. */
  lemma ToldIsRecorded(m: Matcher, s: System, w: nat, i: nat, e: Event)
    requires Safe(m, s) && Enabled(m, s, Tell(w, i, e)) && WorkerOf(s, w).group[i].id in s.queue.tickets
    ensures var q := Do(m, s, Tell(w, i, e)).queue;
            var id := WorkerOf(s, w).group[i].id;
            id in q.tickets && q.tickets[id].latest == e && OnlyTicket(s.queue, q, id)
  {
    PublishEffect(s.queue, WorkerOf(s, w).group[i].id, e);
  }

  /** What a replica claims, it has selected from what it read: reading leads to looking at just that. */
  lemma ReadIsLookedAt(m: Matcher, s: System, w: nat, mode: string, now: Time, snapshot: seq<Ticket>, g: seq<Ticket>)
    requires Enabled(m, s, Read(w, mode, now, snapshot)) && Selects(m, now, snapshot, g)
    ensures var s' := Do(m, s, Read(w, mode, now, snapshot));
            s'.queue == s.queue && s'.formed == s.formed && Enabled(m, s', TryClaim(w, g))
  {}
}
