/** The in-process queue: its fields, and its locked methods against the steps of the abstract machine. */
module InMemQueue {
  import opened Base
  import opened Sorting
  import opened Tickets
  import opened QueueModel

  /** The pending tickets of a mode, oldest first. */
  ghost predicate IsPendingList(q: Queue, mode: string, out: seq<Ticket>) {
    && (forall i, j :: 0 <= i < j < |out| ==> out[i].id != out[j].id && out[i].enqueuedAt <= out[j].enqueuedAt)
    && (forall i :: 0 <= i < |out| ==> q.IsPendingIn(mode, out[i].id) && out[i] == q.tickets[out[i].id].ticket)
    && (forall id :: q.IsPendingIn(mode, id) ==> q.tickets[id].ticket in out)
  }

  ghost predicate OldestFirst(s: seq<Ticket>) {
    forall i, j :: 0 <= i < j < |s| ==> s[i].enqueuedAt <= s[j].enqueuedAt
  }

  /** s with the element at i moved down to j. */
  function Moved<T>(s: seq<T>, i: nat, j: nat): seq<T>
    requires j <= i < |s|
  {
    s[..j] + [s[i]] + s[j..i] + s[i + 1..]
  }

  lemma MovedPermutes<T>(s: seq<T>, i: nat, j: nat)
    requires j <= i < |s|
    ensures multiset(Moved(s, i, j)) == multiset(s)
  {
    assert s == s[..j] + s[j..i] + [s[i]] + s[i + 1..];
  }

  lemma MovedStep<T>(s: seq<T>, i: nat, j: nat)
    requires 1 <= j <= i < |s|
    ensures var m := Moved(s, i, j); m[j - 1 := m[j]][j := m[j - 1]] == Moved(s, i, j - 1)
  {}

  lemma MovedSorts(s: seq<Ticket>, i: nat, j: nat)
    requires j <= i < |s| && OldestFirst(s[..i])
    requires forall b :: j <= b < i ==> s[i].enqueuedAt < s[b].enqueuedAt
    requires j == 0 || s[j - 1].enqueuedAt <= s[i].enqueuedAt
    ensures OldestFirst(Moved(s, i, j)[..i + 1])
  {
    var r, p := Moved(s, i, j)[..i + 1], s[..i];
    forall a, b | 0 <= a < b < |r| ensures r[a].enqueuedAt <= r[b].enqueuedAt {
      assert a < j ==> r[a] == p[a];
      assert b < j ==> r[b] == p[b];
      assert a > j ==> r[a] == p[a - 1];
      assert b > j ==> r[b] == p[b - 1];
      assert a < j ==> p[a].enqueuedAt <= p[j - 1].enqueuedAt;
    }
  }

  lemma MovedEnds<T>(s: seq<T>, i: nat, j: nat)
    requires j <= i < |s|
    ensures |Moved(s, i, j)| == |s| && Moved(s, i, j)[j] == s[i]
    ensures j > 0 ==> Moved(s, i, j)[j - 1] == s[j - 1]
    ensures j == i ==> Moved(s, i, j) == s
  {}

  method SwapBelow(ts: array<Ticket>, j: nat)
    requires 1 <= j < ts.Length
    modifies ts
    ensures ts[..] == old(ts[..])[j - 1 := old(ts[j])][j := old(ts[j - 1])]
  {
    ts[j - 1], ts[j] := ts[j], ts[j - 1];
  }

  /** The inner loop: element i sinks below every newer one. */
  method Sink(ts: array<Ticket>, i: nat) returns (ghost to: nat)
    requires 1 <= i < ts.Length
    modifies ts
    ensures to <= i && ts[..] == Moved(old(ts[..]), i, to)
    ensures forall b :: to <= b < i ==> old(ts[i]).enqueuedAt < old(ts[b]).enqueuedAt
    ensures to > 0 ==> old(ts[to - 1]).enqueuedAt <= old(ts[i]).enqueuedAt
  {
    ghost var s := ts[..];
    var j := i;
    MovedEnds(s, i, i);
    while j > 0 && ts[j - 1].enqueuedAt > ts[j].enqueuedAt
      invariant j <= i && ts[..] == Moved(s, i, j)
      invariant ts[j] == s[i] && (j > 0 ==> ts[j - 1] == s[j - 1])
      invariant forall b :: j <= b < i ==> s[i].enqueuedAt < s[b].enqueuedAt
    {
      MovedStep(s, i, j);
      MovedEnds(s, i, j - 1);
      SwapBelow(ts, j);
      j := j - 1;
      assert ts[j] == ts[..][j];
      assert j > 0 ==> ts[j - 1] == ts[..][j - 1];
    }
    to := j;
  }

  /** The insertion sort, in place. */
  method SortByEnqueuedAt(ts: array<Ticket>)
    modifies ts
    ensures multiset(ts[..]) == multiset(old(ts[..]))
    ensures OldestFirst(ts[..])
  {
    var i := 1;
    while i < ts.Length
      invariant 1 <= i
      invariant multiset(ts[..]) == multiset(old(ts[..]))
      invariant OldestFirst(ts[..Min(i, ts.Length)])
    {
      ghost var s := ts[..];
      assert ts[..i] == s[..i];
      ghost var to := Sink(ts, i);
      MovedPermutes(s, i, to);
      MovedSorts(s, i, to);
      assert ts[..i + 1] == ts[..][..i + 1];
      i := i + 1;
    }
    assert ts[..ts.Length] == ts[..];
  }

  class InMem {
    var tickets: map<UUID, Entry>
    var subscribers: map<UUID, seq<ChanId>>
    var chans: seq<Chan>

    function State(): Queue
      reads this
    {
      Queue(tickets, subscribers, chans)
    }

    constructor ()
      ensures State() == EMPTY_QUEUE
    {
      tickets, subscribers, chans := map[], map[], [];
    }

    method CountPending(mode: string) returns (n: int)
      ensures n == Int32(|State().PendingIds(mode)|)
    {
      n := 0;
      var rest := tickets.Keys;
      ghost var counted: set<UUID> := {};
      while rest != {}
        invariant rest <= tickets.Keys && n == Int32(|counted|)
        invariant counted == set id | id in tickets && id !in rest && State().IsPendingIn(mode, id)
        decreases rest
      {
        var id :| id in rest;
        var e := tickets[id];
        if !e.finished && !e.claimed && e.ticket.gameMode == mode {
          Int32Next(|counted|);
          n := Int32(n + 1);
          counted := counted + {id};
        }
        rest := rest - {id};
      }
      assert counted == State().PendingIds(mode);
    }

    method Enqueue(t: Ticket)
      modifies this
      ensures State() == Step(old(State()), QueueModel.Enqueue(t))
      ensures t.id in old(tickets) ==> State() == old(State())
      ensures t.id !in old(tickets) ==>
                && State().IsPendingIn(t.gameMode, t.id) && tickets[t.id].ticket == t
                && tickets[t.id].latest == Queued(t.enqueuedAt, Int32(|State().PendingIds(t.gameMode)|))
    {
      EnqueueEffect(State(), t);
      if t.id in tickets {
        return;
      }
      var depth := CountPending(t.gameMode);
      Int32Next(|State().PendingIds(t.gameMode)|);
      tickets := tickets[t.id := Entry(t, Queued(t.enqueuedAt, Int32(depth + 1)), false, false)];
    }

    /** A send that a full channel drops; the runtime forbids it on a closed one. */
    method TrySend(ch: ChanId, e: Event)
      requires ch < |chans| && chans[ch].closes == 0
      modifies this`chans
      ensures chans == old(chans)[ch := old(chans[ch]).Offer(e)]
    {
      if |chans[ch].sent| < chans[ch].received + CAPACITY {
        chans := chans[ch := chans[ch].(sent := chans[ch].sent + [e])];
      }
    }

    /** The runtime forbids closing a closed channel. */
    method Close(ch: ChanId)
      requires ch < |chans| && chans[ch].closes == 0
      modifies this`chans
      ensures chans == old(chans)[ch := old(chans[ch]).Close()]
    {
      chans := chans[ch := chans[ch].(closes := 1)];
    }

    method PublishToAll(subs: seq<ChanId>, e: Event)
      requires SubsOpen(chans, subs)
      modifies this`chans
      ensures chans == Notify(old(chans), subs, e)
    {
      forall k | 0 <= k < |subs| ensures subs[k] < |chans| && chans[subs[k]].closes == 0 {
        assert subs[k] in subs;
      }
      ghost var rest := subs;
      for i := 0 to |subs|
        invariant rest == subs[i..]
        invariant Notify(chans, rest, e) == Notify(old(chans), subs, e)
        invariant forall k :: i <= k < |subs| ==> subs[k] < |chans| && chans[subs[k]].closes == 0
      {
        var ch := subs[i];
        ghost var before := chans;
        TrySend(ch, e);
        if e.IsTerminal() {
          Close(ch);
        }
        assert chans == before[ch := before[ch].Deliver(e)];
        assert rest[0] == ch && rest[1..] == subs[i + 1..];
        rest := rest[1..];
      }
    }

    method Publish'(id: UUID, e: Event)
      requires Inv(State()) && id in tickets
      modifies this
      ensures State() == PublishLocked(old(State()), id, e)
    {
      tickets := tickets[id := tickets[id].(latest := e)];
      var subs := if id in subscribers then subscribers[id] else [];
      PublishToAll(subs, e);
      if e.IsTerminal() {
        tickets := tickets[id := tickets[id].(finished := true)];
        subscribers := subscribers - {id};
      }
    }

    method Publish(id: UUID, e: Event) returns (found: bool)
      requires Inv(State())
      modifies this
      ensures State() == Step(old(State()), QueueModel.Publish(id, e)) && Inv(State())
      ensures found <==> id in old(tickets)
    {
      StepKeepsInv(State(), QueueModel.Publish(id, e));
      if id !in tickets {
        return false;
      }
      Publish'(id, e);
      return true;
    }

    method Cancel(id: UUID) returns (found: bool)
      requires Inv(State())
      modifies this
      ensures State() == Step(old(State()), QueueModel.Cancel(id)) && Inv(State())
      ensures found <==> id in old(tickets)
      ensures found && !old(tickets[id].finished) ==>
                && tickets[id].finished && tickets[id].latest == Failed("cancelled") && !State().IsPending(id)
                && OnlyTicket(old(State()), State(), id) && Heard(old(State()), State(), id, Failed("cancelled"))
      ensures found && old(tickets[id].finished) ==> State() == old(State())
    {
      StepKeepsInv(State(), QueueModel.Cancel(id));
      CancelEffect(State(), id);
      if id !in tickets {
        return false;
      }
      if tickets[id].finished {
        return true;
      }
      Publish'(id, Failed("cancelled"));
      return true;
    }

    method Subscribe(id: UUID) returns (ch: Option<ChanId>)
      requires Inv(State())
      modifies this
      ensures State() == Step(old(State()), QueueModel.Subscribe(id)) && Inv(State())
      ensures ch == if id in old(tickets) then Some(old(|chans|)) else None
      ensures ch.Some? ==> chans[ch.value].sent == [old(tickets[id].latest)]
    {
      StepKeepsInv(State(), QueueModel.Subscribe(id));
      if id !in tickets {
        return None;
      }
      var c := |chans|;
      chans := chans + [Chan([], 0, 0, 0)];
      TrySend(c, tickets[id].latest);
      if tickets[id].finished {
        Close(c);
        return Some(c);
      }
      subscribers := subscribers[id := (if id in subscribers then subscribers[id] else []) + [c]];
      return Some(c);
    }

    method Pending(mode: string) returns (out: seq<Ticket>)
      requires Inv(State())
      ensures IsPendingList(State(), mode, out)
    {
      var found: seq<Ticket> := [];
      var rest := tickets.Keys;
      while rest != {}
        invariant rest <= tickets.Keys
        invariant forall i :: 0 <= i < |found| ==> found[i].id in tickets && found[i].id !in rest
        invariant forall i :: 0 <= i < |found| ==>
                                State().IsPendingIn(mode, found[i].id) && found[i] == tickets[found[i].id].ticket
        invariant forall i, j :: 0 <= i < j < |found| ==> found[i].id != found[j].id
        invariant forall id :: id !in rest && State().IsPendingIn(mode, id) ==> tickets[id].ticket in found
        decreases rest
      {
        var id :| id in rest;
        var e := tickets[id];
        if !e.finished && !e.claimed && e.ticket.gameMode == mode {
          found := found + [e.ticket];
        }
        rest := rest - {id};
      }
      var ts := new Ticket[|found|](i requires 0 <= i < |found| => found[i]);
      assert ts[..] == found;
      SortByEnqueuedAt(ts);
      out := ts[..];
      SameElements(found, out);
      SameElementsNoDuplicates(found, out);
      forall i | 0 <= i < |out|
        ensures State().IsPendingIn(mode, out[i].id) && out[i] == tickets[out[i].id].ticket
      {
        assert out[i] in found;
      }
      forall i, j | 0 <= i < j < |out| ensures out[i].id != out[j].id {
        assert out[i] in found && out[j] in found && out[i] != out[j];
      }
    }

    /** Two passes: check every ticket, then mark every ticket. */
    method Claim(ids: seq<UUID>) returns (ok: bool)
      requires Inv(State())
      modifies this`tickets
      ensures State() == Step(old(State()), QueueModel.Claim(ids)) && Inv(State())
      ensures ok <==> CanClaim(old(State()), ids)
    {
      StepKeepsInv(State(), QueueModel.Claim(ids));
      for i := 0 to |ids|
        invariant forall k :: 0 <= k < i ==> State().IsPending(ids[k])
      {
        assert ids[i] in ids;
        if ids[i] !in tickets || tickets[ids[i]].finished || tickets[ids[i]].claimed {
          return false;
        }
      }
      for i := 0 to |ids|
        invariant tickets == MarkClaimed(old(tickets), ids[..i])
      {
        MarkOneMore(old(tickets), ids, i);
        tickets := tickets[ids[i] := tickets[ids[i]].(claimed := true)];
      }
      assert ids[..|ids|] == ids;
      return true;
    }

    method Detach(id: UUID, target: ChanId)
      requires Inv(State())
      modifies this
      ensures State() == Step(old(State()), QueueModel.Detach(id, target)) && Inv(State())
    {
      StepKeepsInv(State(), QueueModel.Detach(id, target));
      var subs := if id in subscribers then subscribers[id] else [];
      assert SubsOpen(chans, subs);
      for i := 0 to |subs|
        invariant forall k :: 0 <= k < i ==> subs[k] != target
      {
        if subs[i] == target {
          FirstIndex(subs, target, i);
          assert subs[i] in subs;
          assert target < |chans| && chans[target].closes == 0;
          subscribers := subscribers[id := subs[..i] + subs[i + 1..]];
          Close(target);
          return;
        }
      }
    }
  }

  lemma MarkOneMore(tickets: map<UUID, Entry>, ids: seq<UUID>, i: nat)
    requires i < |ids| && ids[i] in tickets
    ensures var marked := MarkClaimed(tickets, ids[..i]);
            ids[i] in marked && MarkClaimed(tickets, ids[..i + 1]) == marked[ids[i] := marked[ids[i]].(claimed := true)]
  {
    assert ids[..i + 1] == ids[..i] + [ids[i]];
  }

  lemma FirstIndex(subs: seq<ChanId>, target: ChanId, i: nat)
    requires i < |subs| && subs[i] == target && forall k :: 0 <= k < i ==> subs[k] != target
    ensures IndexOf(subs, target) == i
  {}
}
