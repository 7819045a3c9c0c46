/** The shared queue, one Valkey command per step: gateways interleave between any two commands. */
module ValkeyQueue {
  import opened Base
  import opened Tickets
  import opened QueueModel

  /** The commands a call still has to issue. */
  datatype Call =
    | Idle
    | Counting(ticket: Ticket)
    | Queueing(ticket: Ticket, event: Event)
    | Announcing(ticket: Ticket, event: Event)
    | Adding(ticket: Ticket)
    | Cancelling(ticket: Ticket)
    | Recording(ticket: Ticket, event: Event)
    | Removing(ticket: Ticket, event: Event)
    | Appending(ticket: Ticket, event: Event)
  {
    /** An enqueue that has not reached its ZADD. */
    predicate IsEnqueue() { Counting? || Queueing? || Announcing? || Adding? }
  }

  /**
   * The keys, plus what history needs: the ids that were ever added to a pending set, the ids a terminal event
   * was ever recorded for, and every successful claim.
   */
  datatype Store = Store(
    tickets: map<UUID, Ticket>,
    pending: set<(string, UUID)>,
    latest: map<UUID, Event>,
    streams: map<UUID, seq<Event>>,
    calls: map<nat, Call>,
    added: set<UUID>,
    recorded: set<UUID>,
    claims: seq<seq<UUID>>
  )

  const EMPTY_STORE := Store(map[], {}, map[], map[], map[], {}, {}, [])

  datatype Act =
    | StartEnqueue(p: nat, ticket: Ticket)
    | StartPublish(p: nat, id: UUID, event: Event)
    | StartCancel(p: nat, id: UUID)
    | Advance(p: nat)
    | ClaimScript(mode: string, ids: seq<UUID>)
    | GiveUp(p: nat)

  function CallOf(s: Store, p: nat): Call { if p in s.calls then s.calls[p] else Idle }

  function StreamOf(s: Store, id: UUID): seq<Event> { if id in s.streams then s.streams[id] else [] }

  function With(s: Store, p: nat, c: Call): Store { s.(calls := s.calls[p := c]) }

  predicate AllPending(s: Store, mode: string, ids: seq<UUID>) { forall id :: id in ids ==> (mode, id) in s.pending }

  /** The script's second loop. */
  function RemoveAll(pending: set<(string, UUID)>, mode: string, ids: seq<UUID>): set<(string, UUID)> {
    set e | e in pending && !(e.0 == mode && e.1 in ids)
  }

  /** ZCARD plus one, in the 32 bits of the Queued event. */
  function Depth(s: Store, mode: string): int { Int32(|set e | e in s.pending && e.0 == mode| + 1) }

  function Recorded(s: Store, id: UUID, e: Event): Store {
    s.(latest := s.latest[id := e], recorded := if e.IsTerminal() then s.recorded + {id} else s.recorded)
  }

  /** The next command of a call. */
  function Command(s: Store, p: nat): Store {
    match CallOf(s, p)
    case Idle => s
    case Counting(t) =>
      With(s, p, Queueing(t, Queued(t.enqueuedAt, Depth(s, t.gameMode))))
    case Queueing(t, e) => With(s.(latest := s.latest[t.id := e]), p, Announcing(t, e))
    case Announcing(t, e) => With(s.(streams := s.streams[t.id := StreamOf(s, t.id) + [e]]), p, Adding(t))
    case Adding(t) => With(s.(pending := s.pending + {(t.gameMode, t.id)}, added := s.added + {t.id}), p, Idle)
    case Cancelling(t) =>
      if t.id in s.latest && s.latest[t.id].IsTerminal() then With(s, p, Idle)
      else With(s, p, Recording(t, Failed("cancelled")))
    case Recording(t, e) =>
      With(Recorded(s, t.id, e), p, if e.IsTerminal() then Removing(t, e) else Appending(t, e))
    case Removing(t, e) => With(s.(pending := s.pending - {(t.gameMode, t.id)}), p, Appending(t, e))
    case Appending(t, e) => With(s.(streams := s.streams[t.id := StreamOf(s, t.id) + [e]]), p, Idle)
  }

  function Do(s: Store, a: Act): Store {
    match a
    case StartEnqueue(p, t) =>
      if CallOf(s, p) != Idle || t.id in s.tickets then s
      else With(s.(tickets := s.tickets[t.id := t]), p, Counting(t))
    case StartPublish(p, id, e) =>
      if CallOf(s, p) != Idle || id !in s.tickets then s else With(s, p, Recording(s.tickets[id], e))
    case StartCancel(p, id) =>
      if CallOf(s, p) != Idle || id !in s.tickets then s else With(s, p, Cancelling(s.tickets[id]))
    case Advance(p) => Command(s, p)
    case ClaimScript(mode, ids) =>
      if AllPending(s, mode, ids) then s.(pending := RemoveAll(s.pending, mode, ids), claims := s.claims + [ids]) else s
    case GiveUp(p) => With(s, p, Idle)
  }

  function Exec(s: Store, acts: seq<Act>): Store {
    if acts == [] then s else Do(Exec(s, acts[..|acts| - 1]), acts[|acts| - 1])
  }

  // ---- safety of claims ----

  ghost predicate IsPending(s: Store, id: UUID) { exists mode :: (mode, id) in s.pending }

  ghost predicate Left(s: Store, id: UUID) { id in s.added && !IsPending(s, id) }

  ghost predicate TicketsOk(s: Store) {
    && (forall id :: id in s.tickets ==> s.tickets[id].id == id)
    && s.added <= s.tickets.Keys
    && (forall e :: e in s.pending ==> e.1 in s.added && s.tickets[e.1].gameMode == e.0)
  }

  ghost predicate CallOk(s: Store, c: Call) {
    c != Idle ==>
      && c.ticket.id in s.tickets && s.tickets[c.ticket.id] == c.ticket
      && (c.IsEnqueue() ==> c.ticket.id !in s.added)
  }

  ghost predicate SameEnqueue(c: Call, d: Call) {
    c.IsEnqueue() && d.IsEnqueue() && c.ticket.id == d.ticket.id
  }

  ghost predicate CallsOk(s: Store) {
    && (forall p :: p in s.calls ==> CallOk(s, s.calls[p]))
    && (forall p, r :: p in s.calls && r in s.calls && p != r ==> !SameEnqueue(s.calls[p], s.calls[r]))
  }

  /** A ticket is added under its own mode and at most once: one enqueue at a time is on its way to the ZADD. */
  ghost predicate AddsOnce(s: Store) { TicketsOk(s) && CallsOk(s) }

  ghost predicate ClaimsOk(s: Store) {
    && (forall i, id :: 0 <= i < |s.claims| && id in s.claims[i] ==> Left(s, id))
    && (forall i, j, id :: 0 <= i < j < |s.claims| && id in s.claims[i] ==> id !in s.claims[j])
  }

  /** Replacing one call, when no other enqueue is for the same ticket. */
  lemma CallReplaced(s: Store, s': Store, p: nat, c: Call)
    requires CallsOk(s) && s'.calls == s.calls[p := c] && CallOk(s', c)
    requires forall r :: r in s.calls && r != p ==> CallOk(s', s.calls[r]) && !SameEnqueue(c, s.calls[r])
    ensures CallsOk(s')
  {
    forall q, r | q in s'.calls && r in s'.calls && q != r ensures !SameEnqueue(s'.calls[q], s'.calls[r]) {
      if q == p {
        assert !SameEnqueue(c, s.calls[r]);
      } else if r == p {
        assert !SameEnqueue(c, s.calls[q]);
      } else {
        assert !SameEnqueue(s.calls[q], s.calls[r]);
      }
    }
  }

  lemma CommandKeepsCalls(s: Store, p: nat)
    requires AddsOnce(s) && p in s.calls && s.calls[p] != Idle
    ensures CallsOk(Command(s, p))
  {
    var s', c := Command(s, p), s.calls[p];
    assert CallOk(s, c);
    var c' := s'.calls[p];
    assert s'.calls == s.calls[p := c'] && s'.tickets == s.tickets;
    assert s'.added == if c.Adding? then s.added + {c.ticket.id} else s.added;
    forall r | r in s.calls && r != p ensures CallOk(s', s.calls[r]) && !SameEnqueue(c', s.calls[r]) {
      assert CallOk(s, s.calls[r]) && !SameEnqueue(c, s.calls[r]);
    }
    CallReplaced(s, s', p, c');
  }

  lemma StartKeepsCalls(s: Store, a: Act)
    requires AddsOnce(s) && (a.StartEnqueue? || a.StartPublish? || a.StartCancel? || a.GiveUp?)
    ensures CallsOk(Do(s, a))
  {
    var s' := Do(s, a);
    if s' != s {
      forall r | r in s.calls && r != a.p ensures CallOk(s', s.calls[r]) && !SameEnqueue(s'.calls[a.p], s.calls[r]) {
        assert CallOk(s, s.calls[r]);
      }
      CallReplaced(s, s', a.p, s'.calls[a.p]);
    }
  }

  lemma CommandKeepsTickets(s: Store, p: nat)
    requires TicketsOk(s) && p in s.calls && CallOk(s, s.calls[p])
    ensures TicketsOk(Command(s, p))
  {}

  lemma DoAddsOnce(s: Store, a: Act)
    requires AddsOnce(s)
    ensures AddsOnce(Do(s, a))
  {
    match a
    case Advance(p) =>
      if p in s.calls && s.calls[p] != Idle {
        CommandKeepsCalls(s, p);
        CommandKeepsTickets(s, p);
      }
    case ClaimScript(_, _) =>
      forall p | p in s.calls ensures CallOk(Do(s, a), s.calls[p]) {
        assert CallOk(s, s.calls[p]);
      }
    case StartEnqueue(_, _) => StartKeepsCalls(s, a);
    case StartPublish(_, _, _) => StartKeepsCalls(s, a);
    case StartCancel(_, _) => StartKeepsCalls(s, a);
    case GiveUp(_) => StartKeepsCalls(s, a);
  }

  /** Once a ticket has left the pending set, no command brings it back. */
  lemma DoNeverReturns(s: Store, a: Act, id: UUID)
    requires AddsOnce(s) && Left(s, id)
    ensures Left(Do(s, a), id)
  {
    assert a.Advance? && a.p in s.calls ==> CallOk(s, s.calls[a.p]);
    forall mode | (mode, id) in Do(s, a).pending ensures (mode, id) in s.pending {}
  }

  /** A claimed ticket has left every pending set. */
  lemma ClaimTakes(s: Store, mode: string, ids: seq<UUID>, id: UUID)
    requires AddsOnce(s) && AllPending(s, mode, ids) && id in ids
    ensures IsPending(s, id) && Left(Do(s, ClaimScript(mode, ids)), id)
  {
    assert (mode, id) in s.pending;
    assert (mode, id).1 in s.added;
    forall m ensures (m, id) !in Do(s, ClaimScript(mode, ids)).pending {
      if (m, id) in s.pending {
        assert (m, id).0 == s.tickets[id].gameMode && (mode, id).0 == s.tickets[id].gameMode;
      }
    }
  }

  lemma DoKeepsClaims(s: Store, a: Act)
    requires AddsOnce(s) && ClaimsOk(s)
    ensures ClaimsOk(Do(s, a))
  {
    var s' := Do(s, a);
    forall i, id | 0 <= i < |s.claims| && id in s.claims[i] ensures Left(s', id) {
      DoNeverReturns(s, a, id);
    }
    if a.ClaimScript? && AllPending(s, a.mode, a.ids) {
      forall id | id in a.ids ensures Left(s', id) && IsPending(s, id) {
        ClaimTakes(s, a.mode, a.ids, id);
      }
      forall i, id | 0 <= i < |s.claims| && id in s.claims[i] ensures id !in a.ids {
        assert Left(s, id);
      }
    }
  }

  /**
   * However the commands of any number of gateways interleave: a ticket is added at most once, no two
   * successful claims share a ticket, and every claimed ticket stays out of the pending sets.
   */
  lemma {:induction false} EveryRunClaimsOnce(acts: seq<Act>)
    ensures AddsOnce(Exec(EMPTY_STORE, acts)) && ClaimsOk(Exec(EMPTY_STORE, acts))
  {
    if acts != [] {
      var s := Exec(EMPTY_STORE, acts[..|acts| - 1]);
      EveryRunClaimsOnce(acts[..|acts| - 1]);
      DoAddsOnce(s, acts[|acts| - 1]);
      DoKeepsClaims(s, acts[|acts| - 1]);
    }
  }

  lemma {:induction false} NeverReturns(before: seq<Act>, after: seq<Act>, id: UUID)
    requires Left(Exec(EMPTY_STORE, before), id)
    ensures Left(Exec(Exec(EMPTY_STORE, before), after), id)
    ensures AddsOnce(Exec(Exec(EMPTY_STORE, before), after))
  {
    EveryRunClaimsOnce(before);
    if after != [] {
      var init := after[..|after| - 1];
      NeverReturns(before, init, id);
      DoAddsOnce(Exec(Exec(EMPTY_STORE, before), init), after[|after| - 1]);
      DoNeverReturns(Exec(Exec(EMPTY_STORE, before), init), after[|after| - 1], id);
    }
  }

  // ---- one command ----

  lemma CommandMovesOnlyItsCall(s: Store, p: nat)
    ensures Command(s, p).calls
         == if CallOf(s, p) == Idle then s.calls else s.calls[p := CallOf(Command(s, p), p)]
  {}

  /** A command moves its own call on, to Idle or for the same ticket, and an ender never becomes an enqueue. */
  lemma CommandMovesOn(s: Store, p: nat)
    ensures var c, c' := CallOf(s, p), CallOf(Command(s, p), p);
            && (forall r :: r in Command(s, p).calls && r != p ==> r in s.calls && Command(s, p).calls[r] == s.calls[r])
            && (c' != Idle ==> c != Idle && c'.ticket == c.ticket && (c'.IsEnqueue() <==> c.IsEnqueue()))
  {
    CommandMovesOnlyItsCall(s, p);
  }

  lemma RemovalEmpties(s: Store, p: nat)
    requires TicketsOk(s) && p in s.calls && CallOk(s, s.calls[p]) && s.calls[p].Removing?
    ensures !IsPending(Command(s, p), s.calls[p].ticket.id)
  {
    var t := s.calls[p].ticket;
    forall m ensures (m, t.id) !in Command(s, p).pending {
      if (m, t.id) in s.pending {
        assert (m, t.id).0 == s.tickets[t.id].gameMode;
      }
    }
  }

  /** The step is the ZADD of the ticket's enqueue. */
  predicate Adds(s: Store, a: Act, id: UUID) { a.Advance? && CallOf(s, a.p).Adding? && CallOf(s, a.p).ticket.id == id }

  /** Nothing else makes a ticket pending. */
  lemma OnlyAddingMakesPending(s: Store, a: Act, id: UUID)
    requires !IsPending(s, id) && !Adds(s, a, id)
    ensures !IsPending(Do(s, a), id)
  {
    forall mode | (mode, id) in Do(s, a).pending ensures (mode, id) in s.pending {}
  }

  // ---- runs ----

  lemma ExecNext(s: Store, acts: seq<Act>, a: Act)
    ensures Exec(s, acts + [a]) == Do(Exec(s, acts), a)
  {
    assert (acts + [a])[..|acts|] == acts;
  }

  lemma {:induction false} ExecConcat(s: Store, a: seq<Act>, b: seq<Act>)
    ensures Exec(s, a + b) == Exec(Exec(s, a), b)
  {
    if b == [] {
      assert a + b == a;
    } else {
      assert (a + b)[..|a + b| - 1] == a + b[..|b| - 1];
      ExecConcat(s, a, b[..|b| - 1]);
    }
  }

  // ---- undisturbed calls ----

  /** The next n commands of one call, with nobody in between. */
  function Commands(s: Store, p: nat, n: nat): Store {
    if n == 0 then s else Command(Commands(s, p, n - 1), p)
  }

  function Append(s: Store, id: UUID, e: Event): map<UUID, seq<Event>> { s.streams[id := StreamOf(s, id) + [e]] }

  /** An enqueue that nobody interrupts: the ticket is pending, and its stream starts with its Queued event. */
  lemma WholeEnqueue(s: Store, p: nat, t: Ticket)
    requires CallOf(s, p) == Idle && t.id !in s.tickets
    ensures var s' := Commands(Do(s, StartEnqueue(p, t)), p, 4);
            var queued := Queued(t.enqueuedAt, Depth(s, t.gameMode));
            s' == Store(s.tickets[t.id := t], s.pending + {(t.gameMode, t.id)}, s.latest[t.id := queued],
                        Append(s, t.id, queued), s'.calls, s.added + {t.id}, s.recorded, s.claims)
            && CallOf(s', p) == Idle
  {
    var queued := Queued(t.enqueuedAt, Depth(s, t.gameMode));
    var s0 := Do(s, StartEnqueue(p, t));
    var s2 := With(s0.(latest := s.latest[t.id := queued]), p, Announcing(t, queued));
    assert Commands(s0, p, 2) == s2 by {
      assert Commands(s0, p, 0) == s0;
      assert Commands(s0, p, 1) == With(s0, p, Queueing(t, queued));
    }
    AnnounceAndAdd(s2, p, t, queued);
    assert Commands(s0, p, 3) == Command(s2, p);
    assert Commands(s0, p, 4) == Command(Command(s2, p), p);
  }

  lemma AnnounceAndAdd(s: Store, p: nat, t: Ticket, e: Event)
    requires CallOf(s, p) == Announcing(t, e)
    ensures Command(Command(s, p), p)
         == With(s.(streams := Append(s, t.id, e), pending := s.pending + {(t.gameMode, t.id)},
                    added := s.added + {t.id}),
                 p, Idle)
  {
    assert CallOf(Command(s, p), p) == Adding(t);
  }

  /** A terminal publish that nobody interrupts: recorded, out of the pending set, and on the stream. */
  lemma WholeTerminalPublish(s: Store, p: nat, id: UUID, e: Event)
    requires CallOf(s, p) == Idle && id in s.tickets && s.tickets[id].id == id && e.IsTerminal()
    ensures var s' := Commands(Do(s, StartPublish(p, id, e)), p, 3);
            s' == Store(s.tickets, s.pending - {(s.tickets[id].gameMode, id)}, s.latest[id := e],
                        Append(s, id, e), s'.calls, s.added, s.recorded + {id}, s.claims)
            && CallOf(s', p) == Idle
  {
    var s0, t := Do(s, StartPublish(p, id, e)), s.tickets[id];
    assert CallOf(s0, p) == Recording(t, e);
    assert Commands(s0, p, 0) == s0;
    var s1 := Commands(s0, p, 1);
    assert s1 == With(Recorded(s0, id, e), p, Removing(t, e));
    var s2 := Commands(s0, p, 2);
    assert CallOf(s2, p) == Appending(t, e) && s2.pending == s.pending - {(t.gameMode, id)};
  }

  /** A cancel that nobody interrupts has that effect for an unfinished ticket, and none for a finished one. */
  lemma WholeCancel(s: Store, p: nat, id: UUID)
    requires CallOf(s, p) == Idle && id in s.tickets && s.tickets[id].id == id
    ensures var s1 := Commands(Do(s, StartCancel(p, id)), p, 1);
            if id in s.latest && s.latest[id].IsTerminal() then s1 == s.(calls := s1.calls) && CallOf(s1, p) == Idle
            else s1.(calls := s.calls) == s
                 && CallOf(s1, p) == CallOf(Do(s, StartPublish(p, id, Failed("cancelled"))), p)
  {
    var s0 := Do(s, StartCancel(p, id));
    assert Commands(s0, p, 1) == Command(s0, p);
  }

  // ---- reading a stream ----

  /** Streams only grow, so a reader's cursor never has to move back. */
  lemma StreamsGrow(s: Store, a: Act, id: UUID)
    ensures StreamOf(s, id) <= StreamOf(Do(s, a), id)
  {}

  const BATCH := 64

  /** A stream up to and including its first terminal event. */
  function UpToTerminal(stream: seq<Event>): seq<Event> {
    if stream == [] || stream[0].IsTerminal() then stream[..Min(|stream|, 1)]
    else [stream[0]] + UpToTerminal(stream[1..])
  }

  lemma {:induction false} UpToTerminalPrefix(stream: seq<Event>, n: nat)
    requires n <= |stream| && forall i :: 0 <= i < n ==> !stream[i].IsTerminal()
    ensures stream[..n] <= UpToTerminal(stream)
    ensures n < |stream| && stream[n].IsTerminal() ==> UpToTerminal(stream) == stream[..n + 1]
    ensures n == |stream| ==> UpToTerminal(stream) == stream
  {
    if n > 0 {
      UpToTerminalPrefix(stream[1..], n - 1);
      assert stream[..n] == [stream[0]] + stream[1..][..n - 1];
      assert n < |stream| ==> stream[..n + 1] == [stream[0]] + stream[1..][..n];
    }
  }

  /** How far n polls reach: each takes what has arrived since, at most one batch. */
  function Reached(polls: seq<seq<Event>>, n: nat): nat
    requires n <= |polls|
  {
    if n == 0 then 0 else Max(Reached(polls, n - 1), Min(|polls[n - 1]|, Reached(polls, n - 1) + BATCH))
  }

  ghost predicate Growing(polls: seq<seq<Event>>) { forall i, j :: 0 <= i < j < |polls| ==> polls[i] <= polls[j] }

  lemma {:induction false} ReachedInStream(polls: seq<seq<Event>>, n: nat)
    requires Growing(polls) && n <= |polls|
    ensures n > 0 ==> Reached(polls, n) == Min(|polls[n - 1]|, Reached(polls, n - 1) + BATCH)
    ensures forall i :: n <= i < |polls| ==> Reached(polls, n) <= |polls[i]|
  {
    if n > 0 {
      ReachedInStream(polls, n - 1);
      forall i | n <= i < |polls| ensures |polls[n - 1]| <= |polls[i]| {
        assert polls[n - 1] <= polls[i];
      }
    }
  }

  /** Polling an old enough stream long enough reaches all of it: every poll gets a batch further, or to the end. */
  lemma {:induction false} PollsCatchUp(polls: seq<seq<Event>>, first: nat, n: nat)
    requires Growing(polls) && first <= n <= |polls| && first < |polls|
    ensures Reached(polls, n) >= Min(|polls[first]|, (n - first) * 64)
  {
    if first < n {
      PollsCatchUp(polls, first, n - 1);
      ReachedInStream(polls, n);
      assert first < n - 1 ==> polls[first] <= polls[n - 1];
    }
  }

  /**
   * The subscriber's loop, polling a stream that grows between polls: what it has forwarded is exactly the part
   * of the stream its polls have reached, up to the first terminal event, after which it stops.
   */
  method Subscribe(polls: seq<seq<Event>>) returns (out: seq<Event>, closed: bool)
    requires polls != [] && Growing(polls)
    ensures Reached(polls, |polls|) <= |polls[|polls| - 1]|
    ensures out == UpToTerminal(polls[|polls| - 1][..Reached(polls, |polls|)])
    ensures closed <==> out != [] && out[|out| - 1].IsTerminal()
  {
    ReachedInStream(polls, |polls|);
    out, closed := [], false;
    for i := 0 to |polls|
      invariant Forwarded(polls, i, out) && !closed
    {
      PollExtends(polls, i, out);
      out, closed := Forward(polls[i], out, Min(|polls[i]|, |out| + BATCH));
      PollExtended(polls, i, out);
      if closed {
        StopsThere(polls, i + 1, out);
        return;
      }
    }
    AllForwarded(polls, out);
  }

  /** What has been forwarded after n polls, when none of it was terminal. */
  ghost predicate Forwarded(polls: seq<seq<Event>>, n: nat, out: seq<Event>)
    requires polls != [] && n <= |polls|
  {
    |out| == Reached(polls, n) <= |polls[|polls| - 1]| && out == polls[|polls| - 1][..|out|] && NoneTerminal(out)
  }

  lemma PollExtends(polls: seq<seq<Event>>, i: nat, out: seq<Event>)
    requires i < |polls| && Growing(polls) && Forwarded(polls, i, out)
    ensures |out| <= |polls[i]| && out == polls[i][..|out|]
    ensures Reached(polls, i + 1) == Min(|polls[i]|, |out| + BATCH)
  {
    assert polls[i] <= polls[|polls| - 1];
    ReachedInStream(polls, i);
    ReachedInStream(polls, i + 1);
  }

  lemma PollExtended(polls: seq<seq<Event>>, i: nat, out: seq<Event>)
    requires i < |polls| && Growing(polls) && |out| <= Reached(polls, i + 1) <= |polls[i]| && out == polls[i][..|out|]
    ensures Reached(polls, i + 1) <= |polls[|polls| - 1]| && out == polls[|polls| - 1][..|out|]
  {
    assert polls[i] <= polls[|polls| - 1];
  }

  lemma AllForwarded(polls: seq<seq<Event>>, out: seq<Event>)
    requires polls != [] && Forwarded(polls, |polls|, out)
    ensures out == UpToTerminal(polls[|polls| - 1][..Reached(polls, |polls|)])
  {
    UpToTerminalPrefix(polls[|polls| - 1][..|out|], |out|);
  }

  /** One batch: everything up to stop, or up to a terminal event. */
  method Forward(stream: seq<Event>, before: seq<Event>, stop: nat) returns (out: seq<Event>, closed: bool)
    requires |before| <= stop <= |stream| && before == stream[..|before|] && NoneTerminal(before)
    ensures |out| <= stop && out == stream[..|out|]
    ensures closed ==> out != [] && out[|out| - 1].IsTerminal() && NoneTerminal(out[..|out| - 1])
    ensures !closed ==> |out| == stop && NoneTerminal(out)
  {
    out := before;
    while |out| < stop
      invariant |out| <= stop && out == stream[..|out|] && NoneTerminal(out)
    {
      var ev := stream[|out|];
      out := out + [ev];
      if ev.IsTerminal() {
        assert NoneTerminal(out[..|out| - 1]);
        return out, true;
      }
    }
    return out, false;
  }

  lemma StopsThere(polls: seq<seq<Event>>, n: nat, out: seq<Event>)
    requires Growing(polls) && 0 < n <= |polls| && |out| <= Reached(polls, n) <= |polls[|polls| - 1]|
    requires out == polls[|polls| - 1][..|out|]
    requires out != [] && out[|out| - 1].IsTerminal() && NoneTerminal(out[..|out| - 1])
    ensures Reached(polls, |polls|) <= |polls[|polls| - 1]|
    ensures out == UpToTerminal(polls[|polls| - 1][..Reached(polls, |polls|)])
  {
    ReachedGrows(polls, n, |polls|);
    ReachedInStream(polls, |polls|);
    var seen := polls[|polls| - 1][..Reached(polls, |polls|)];
    assert seen[..|out|] == out;
    UpToTerminalPrefix(seen, |out| - 1);
  }

  ghost predicate NoneTerminal(s: seq<Event>) { forall k :: 0 <= k < |s| ==> !s[k].IsTerminal() }

  lemma {:induction false} ReachedGrows(polls: seq<seq<Event>>, m: nat, n: nat)
    requires m <= n <= |polls|
    ensures Reached(polls, m) <= Reached(polls, n)
  {
    if m < n {
      ReachedGrows(polls, m, n - 1);
    }
  }

  // ---- the remaining steps ----

  /** The script takes all the named tickets of the mode, and no other, if all are pending; else it does nothing. */
  lemma ClaimScriptEffect(s: Store, mode: string, ids: seq<UUID>)
    ensures var s' := Do(s, ClaimScript(mode, ids));
            if forall id :: id in ids ==> (mode, id) in s.pending then
              && (forall e :: e in s'.pending <==> e in s.pending && !(e.0 == mode && e.1 in ids))
              && s' == s.(pending := s'.pending, claims := s.claims + [ids])
            else s' == s
  {}

  /** A publish that is not terminal, and that nobody interrupts: recorded and on the stream, and still pending. */
  lemma WholeOrdinaryPublish(s: Store, p: nat, id: UUID, e: Event)
    requires CallOf(s, p) == Idle && id in s.tickets && s.tickets[id].id == id && !e.IsTerminal()
    ensures var s' := Commands(Do(s, StartPublish(p, id, e)), p, 2);
            s' == Store(s.tickets, s.pending, s.latest[id := e], Append(s, id, e), s'.calls, s.added, s.recorded,
                        s.claims)
            && CallOf(s', p) == Idle
  {
    var s0, t := Do(s, StartPublish(p, id, e)), s.tickets[id];
    assert CallOf(s0, p) == Recording(t, e);
    assert Commands(s0, p, 0) == s0;
    var s1 := Commands(s0, p, 1);
    assert s1 == With(Recorded(s0, id, e), p, Appending(t, e));
  }

  /** A second enqueue of a ticket, and a publish or cancel of an unknown one, change nothing. */
  lemma RepeatedAndUnknown(s: Store, p: nat, t: Ticket, e: Event)
    ensures t.id in s.tickets ==> Do(s, StartEnqueue(p, t)) == s
    ensures t.id !in s.tickets ==> Do(s, StartPublish(p, t.id, e)) == s && Do(s, StartCancel(p, t.id)) == s
  {}

  /** A call that stops leaves everything it did, and every other call, as it is. */
  lemma StoppingLeavesAll(s: Store, p: nat)
    ensures var s' := Do(s, GiveUp(p));
            s' == s.(calls := s'.calls) && CallOf(s', p) == Idle && forall r :: r != p ==> CallOf(s', r) == CallOf(s, r)
  {}

  /** The depth a ticket is told is its place among the pending tickets of its mode, once it is one of them. */
  lemma DepthIsPlace(s: Store, mode: string, id: UUID)
    requires (mode, id) !in s.pending
    ensures Depth(s, mode) == Int32(|set e | e in s.pending + {(mode, id)} && e.0 == mode|)
  {
    var before, after := set e | e in s.pending && e.0 == mode, set e | e in s.pending + {(mode, id)} && e.0 == mode;
    assert after == before + {(mode, id)};
  }
}
