/** The in-memory ticket queue as an abstract machine: each locked section is one step. */
module QueueModel {
  import opened Base
  import opened Sorting
  import opened Tickets

  datatype Assignment = Assignment(matchId: UUID, endpoint: string, sessionToken: string, expiresAt: Time)

  datatype Event =
    | Queued(queuedAt: Time, queueDepth: int)
    | Matched(assignment: Assignment)
    | Failed(reason: string)
  {
    predicate IsTerminal() { !Queued? }
  }

  datatype Entry = Entry(ticket: Ticket, latest: Event, finished: bool, claimed: bool) {
    predicate IsPending() { !finished && !claimed }
  }

  const CAPACITY := 4

  /**
   * A subscriber's channel: everything it accepted, how much was received, how often it was closed,
   * and how often something was sent to it after that (each a runtime panic).
   */
  datatype Chan = Chan(sent: seq<Event>, received: nat, closes: nat, lateSends: nat) {
    function Offer(e: Event): Chan {
      if closes > 0 then this.(lateSends := lateSends + 1)
      else if |sent| < received + CAPACITY then this.(sent := sent + [e])
      else this
    }

    function Close(): Chan { this.(closes := closes + 1) }

    function Deliver(e: Event): Chan { if e.IsTerminal() then Offer(e).Close() else Offer(e) }

    function Receive(): Chan { if received < |sent| then this.(received := received + 1) else this }

    /** Never misused, and a terminal event is the last thing it carries. */
    ghost predicate Ok() {
      && closes <= 1 && lateSends == 0
      && received <= |sent| <= received + CAPACITY
      && TerminalIsLast()
      && (sent != [] && sent[|sent| - 1].IsTerminal() ==> closes == 1)
    }

    ghost predicate TerminalIsLast() {
      forall i :: 0 <= i < |sent| && sent[i].IsTerminal() ==> i == |sent| - 1
    }
  }

  type ChanId = nat

  datatype Queue = Queue(tickets: map<UUID, Entry>, subscribers: map<UUID, seq<ChanId>>, chans: seq<Chan>) {
    predicate IsPending(id: UUID) { id in tickets && tickets[id].IsPending() }

    ghost predicate IsPendingIn(mode: string, id: UUID) { IsPending(id) && tickets[id].ticket.gameMode == mode }

    ghost function PendingIds(mode: string): set<UUID> { set id | id in tickets && IsPendingIn(mode, id) }

    function Subs(id: UUID): seq<ChanId> { if id in subscribers then subscribers[id] else [] }
  }

  const EMPTY_QUEUE := Queue(map[], map[], [])

  datatype Op =
    | Enqueue(ticket: Ticket)
    | Cancel(id: UUID)
    | Subscribe(id: UUID)
    | Claim(ids: seq<UUID>)
    | Publish(id: UUID, event: Event)
    | Detach(id: UUID, chan: ChanId)
    | Receive(chan: ChanId)

  /** One delivery per registration, in registration order. */
  function Notify(chans: seq<Chan>, subs: seq<ChanId>, e: Event): seq<Chan>
    decreases |subs|
  {
    if subs == [] then chans
    else if subs[0] < |chans| then Notify(chans[subs[0] := chans[subs[0]].Deliver(e)], subs[1..], e)
    else Notify(chans, subs[1..], e)
  }

  function PublishLocked(q: Queue, id: UUID, e: Event): Queue
    requires id in q.tickets
  {
    var entry := q.tickets[id].(latest := e);
    var chans := Notify(q.chans, q.Subs(id), e);
    if e.IsTerminal() then Queue(q.tickets[id := entry.(finished := true)], q.subscribers - {id}, chans)
    else Queue(q.tickets[id := entry], q.subscribers, chans)
  }

  ghost function EnqueueStep(q: Queue, t: Ticket): Queue {
    if t.id in q.tickets then q
    else
      var queued := Queued(t.enqueuedAt, Int32(|q.PendingIds(t.gameMode)| + 1));
      q.(tickets := q.tickets[t.id := Entry(t, queued, false, false)])
  }

  function CancelStep(q: Queue, id: UUID): Queue {
    if id !in q.tickets || q.tickets[id].finished then q else PublishLocked(q, id, Failed("cancelled"))
  }

  function SubscribeStep(q: Queue, id: UUID): Queue {
    if id !in q.tickets then q
    else
      var ch := Chan([], 0, 0, 0).Offer(q.tickets[id].latest);
      if q.tickets[id].finished then q.(chans := q.chans + [ch.Close()])
      else q.(chans := q.chans + [ch], subscribers := q.subscribers[id := q.Subs(id) + [|q.chans|]])
  }

  predicate CanClaim(q: Queue, ids: seq<UUID>) { forall id :: id in ids ==> q.IsPending(id) }

  function MarkClaimed(tickets: map<UUID, Entry>, ids: seq<UUID>): map<UUID, Entry> {
    map id | id in tickets :: if id in ids then tickets[id].(claimed := true) else tickets[id]
  }

  function ClaimStep(q: Queue, ids: seq<UUID>): Queue {
    if CanClaim(q, ids) then q.(tickets := MarkClaimed(q.tickets, ids)) else q
  }

  function PublishStep(q: Queue, id: UUID, e: Event): Queue {
    if id in q.tickets then PublishLocked(q, id, e) else q
  }

  function IndexOf(s: seq<ChanId>, ch: ChanId): (i: nat)
    ensures i <= |s|
    ensures i < |s| ==> s[i] == ch
    ensures forall j :: 0 <= j < i ==> s[j] != ch
  {
    if s == [] || s[0] == ch then 0 else 1 + IndexOf(s[1..], ch)
  }

  function DetachStep(q: Queue, id: UUID, ch: ChanId): Queue {
    var subs := q.Subs(id);
    var i := IndexOf(subs, ch);
    if i < |subs| && ch < |q.chans| then
      q.(subscribers := q.subscribers[id := subs[..i] + subs[i + 1..]], chans := q.chans[ch := q.chans[ch].Close()])
    else q
  }

  function ReceiveStep(q: Queue, ch: ChanId): Queue {
    if ch < |q.chans| then q.(chans := q.chans[ch := q.chans[ch].Receive()]) else q
  }

  ghost function Step(q: Queue, op: Op): Queue {
    match op
    case Enqueue(t) => EnqueueStep(q, t)
    case Cancel(id) => CancelStep(q, id)
    case Subscribe(id) => SubscribeStep(q, id)
    case Claim(ids) => ClaimStep(q, ids)
    case Publish(id, e) => PublishStep(q, id, e)
    case Detach(id, ch) => DetachStep(q, id, ch)
    case Receive(ch) => ReceiveStep(q, ch)
  }

  ghost function Exec(q: Queue, ops: seq<Op>): Queue {
    if ops == [] then q else Step(Exec(q, ops[..|ops| - 1]), ops[|ops| - 1])
  }

  // ---- the invariant ----

  ghost predicate TicketsOk(q: Queue) {
    forall id :: id in q.tickets ==>
                   && q.tickets[id].ticket.id == id
                   && (q.tickets[id].latest.IsTerminal() ==> q.tickets[id].finished)
                   && (q.tickets[id].finished ==> id !in q.subscribers)
  }

  /** Every registration is an open channel of a known ticket, and no channel is registered twice. */
  ghost predicate SubscribersOk(q: Queue) {
    && (forall id :: id in q.subscribers ==> id in q.tickets && SubsOpen(q.chans, q.subscribers[id]))
    && (forall a, b, ch :: a in q.subscribers && b in q.subscribers && a != b && ch in q.subscribers[a] ==>
                             ch !in q.subscribers[b])
  }

  ghost predicate SubsOpen(chans: seq<Chan>, subs: seq<ChanId>) {
    NoDuplicates(subs) && forall ch :: ch in subs ==> ch < |chans| && chans[ch].closes == 0
  }

  ghost predicate ChansOk(chans: seq<Chan>) { forall ch :: 0 <= ch < |chans| ==> chans[ch].Ok() }

  ghost predicate Inv(q: Queue) { TicketsOk(q) && SubscribersOk(q) && ChansOk(q.chans) }

  lemma {:induction false} NotifyEffect(chans: seq<Chan>, subs: seq<ChanId>, e: Event)
    requires NoDuplicates(subs) && forall ch :: ch in subs ==> ch < |chans|
    ensures |Notify(chans, subs, e)| == |chans|
    ensures forall ch :: 0 <= ch < |chans| ==>
                           Notify(chans, subs, e)[ch] == if ch in subs then chans[ch].Deliver(e) else chans[ch]
    decreases |subs|
  {
    if subs != [] {
      assert subs[0] in subs && forall ch :: ch in subs[1..] ==> ch in subs;
      var chans', rest := chans[subs[0] := chans[subs[0]].Deliver(e)], subs[1..];
      forall i, j | 0 <= i < j < |rest| ensures rest[i] != rest[j] {
        assert subs[i + 1] != subs[j + 1];
      }
      assert subs[0] !in rest;
      NotifyEffect(chans', rest, e);
    }
  }

  lemma PublishKeepsInv(q: Queue, id: UUID, e: Event)
    requires Inv(q) && id in q.tickets
    ensures Inv(PublishLocked(q, id, e))
  {
    var q' := PublishLocked(q, id, e);
    var subs := q.Subs(id);
    NotifyEffect(q.chans, subs, e);
    forall ch | 0 <= ch < |q'.chans| ensures q'.chans[ch].Ok() {
      assert q.chans[ch].Ok();
    }
    forall a | a in q'.subscribers ensures SubsOpen(q'.chans, q'.subscribers[a]) {
      assert SubsOpen(q.chans, q.subscribers[a]);
    }
  }

  /** A subscriber with room hears every event, and its channel is closed exactly when the event is terminal. */
  lemma SubscriberHears(q: Queue, id: UUID, ch: ChanId, e: Event)
    requires Inv(q) && id in q.tickets && ch in q.Subs(id)
    requires ch < |q.chans| && |q.chans[ch].sent| < q.chans[ch].received + CAPACITY
    ensures var q' := PublishLocked(q, id, e);
            && |q'.chans| == |q.chans| && q'.chans[ch].sent == q.chans[ch].sent + [e]
            && (q'.chans[ch].closes == 1 <==> e.IsTerminal()) && (ch in q'.Subs(id) <==> !e.IsTerminal())
  {
    assert SubsOpen(q.chans, q.Subs(id));
    NotifyEffect(q.chans, q.Subs(id), e);
  }

  lemma SubscribeKeepsInv(q: Queue, id: UUID)
    requires Inv(q)
    ensures Inv(SubscribeStep(q, id))
  {
    var q' := SubscribeStep(q, id);
    forall a | a in q'.subscribers ensures a in q'.tickets && SubsOpen(q'.chans, q'.subscribers[a]) {
      assert a in q.subscribers ==> SubsOpen(q.chans, q.subscribers[a]);
      assert |q.chans| !in q.Subs(id);
    }
  }

  lemma DetachKeepsInv(q: Queue, id: UUID, ch: ChanId)
    requires Inv(q)
    ensures Inv(DetachStep(q, id, ch))
  {
    var q' := DetachStep(q, id, ch);
    var subs := q.Subs(id);
    var i := IndexOf(subs, ch);
    if i < |subs| {
      assert SubsOpen(q.chans, subs);
      var subs' := subs[..i] + subs[i + 1..];
      assert forall c :: c in subs' ==> c in subs && c != ch;
      forall a | a in q'.subscribers ensures SubsOpen(q'.chans, q'.subscribers[a]) {
        assert SubsOpen(q.chans, q.subscribers[a]);
      }
    }
  }

  /** Every step keeps the invariant. */
  lemma StepKeepsInv(q: Queue, op: Op)
    requires Inv(q)
    ensures Inv(Step(q, op))
  {
    match op
    case Cancel(id) => if id in q.tickets && !q.tickets[id].finished { PublishKeepsInv(q, id, Failed("cancelled")); }
    case Publish(id, e) => if id in q.tickets { PublishKeepsInv(q, id, e); }
    case Subscribe(id) => SubscribeKeepsInv(q, id);
    case Detach(id, ch) => DetachKeepsInv(q, id, ch);
    case Receive(ch) =>
      var q' := Step(q, op);
      forall a | a in q'.subscribers ensures SubsOpen(q'.chans, q'.subscribers[a]) {
        assert SubsOpen(q.chans, q.subscribers[a]);
      }
    case Enqueue(_) =>
    case Claim(_) =>
  }

  lemma {:induction false} RunKeepsInv(ops: seq<Op>)
    ensures Inv(Exec(EMPTY_QUEUE, ops))
  {
    if ops != [] {
      RunKeepsInv(ops[..|ops| - 1]);
      StepKeepsInv(Exec(EMPTY_QUEUE, ops[..|ops| - 1]), ops[|ops| - 1]);
    }
  }

  /**
   * Over every interleaving: no channel is closed twice or sent to once closed, each carries at most one
   * terminal event and nothing after it, and a finished ticket has no registered subscriber.
   */
  lemma ChannelDiscipline(ops: seq<Op>)
    ensures var q := Exec(EMPTY_QUEUE, ops);
            && (forall ch :: 0 <= ch < |q.chans| ==> q.chans[ch].closes <= 1 && q.chans[ch].lateSends == 0)
            && (forall ch :: 0 <= ch < |q.chans| ==> q.chans[ch].TerminalIsLast())
            && (forall id :: id in q.tickets && q.tickets[id].finished ==> q.Subs(id) == [])
  {
    RunKeepsInv(ops);
    var q := Exec(EMPTY_QUEUE, ops);
    forall ch | 0 <= ch < |q.chans| ensures q.chans[ch].Ok() {}
  }

  // ---- the pending pool ----

  /** A ticket that has left the pending pool. */
  ghost predicate HasLeft(q: Queue, id: UUID) { id in q.tickets && !q.IsPending(id) }

  lemma StepNeverReturns(q: Queue, op: Op, id: UUID)
    requires HasLeft(q, id)
    ensures HasLeft(Step(q, op), id)
    ensures Step(q, op).tickets[id].ticket == q.tickets[id].ticket
  {}

  /** No sequence of steps brings a ticket back to the pool. */
  lemma {:induction false} NeverReturns(q: Queue, ops: seq<Op>, id: UUID)
    requires HasLeft(q, id)
    ensures HasLeft(Exec(q, ops), id)
  {
    if ops != [] {
      NeverReturns(q, ops[..|ops| - 1], id);
      StepNeverReturns(Exec(q, ops[..|ops| - 1]), ops[|ops| - 1], id);
    }
  }

  /** A claim takes every ticket or changes nothing, and whatever it takes had been pending. */
  lemma ClaimIsAllOrNothing(q: Queue, ids: seq<UUID>)
    ensures var q' := Step(q, Claim(ids));
            && (CanClaim(q, ids) ==> forall id :: id in ids ==> q.IsPending(id) && HasLeft(q', id))
            && (CanClaim(q, ids) ==> forall id :: id !in ids ==> (q.IsPending(id) <==> q'.IsPending(id)))
            && (!CanClaim(q, ids) ==> q' == q)
  {}

  /** Two successful claims never share a ticket, whatever happens between them. */
  lemma ClaimsAreDisjoint(q: Queue, first: seq<UUID>, between: seq<Op>, second: seq<UUID>)
    requires CanClaim(q, first)
    requires CanClaim(Exec(Step(q, Claim(first)), between), second)
    ensures forall id :: id in first ==> id !in second
  {
    forall id | id in first ensures id !in second {
      NeverReturns(Step(q, Claim(first)), between, id);
    }
  }

  // ---- what each step does, as clients see it ----

  /** All tickets but one, and all registrations but that one's, are as they were. */
  ghost predicate OnlyTicket(q: Queue, q': Queue, id: UUID) {
    && q'.tickets.Keys == q.tickets.Keys
    && (forall x :: x in q.tickets && x != id ==> q'.tickets[x] == q.tickets[x])
    && (forall x :: x != id ==> q'.Subs(x) == q.Subs(x))
  }

  /** The ticket's subscribers hear the event if they have room, and are closed if it is terminal; no others move. */
  ghost predicate Heard(q: Queue, q': Queue, id: UUID, e: Event) {
    && |q'.chans| == |q.chans|
    && (forall ch :: 0 <= ch < |q.chans| && ch !in q.Subs(id) ==> q'.chans[ch] == q.chans[ch])
    && (forall ch :: 0 <= ch < |q.chans| && ch in q.Subs(id) ==>
          && q'.chans[ch].received == q.chans[ch].received
          && q'.chans[ch].sent
             == q.chans[ch].sent + (if |q.chans[ch].sent| < q.chans[ch].received + 4 then [e] else [])
          && q'.chans[ch].closes == if e.IsTerminal() then 1 else 0)
  }

  lemma NotifyIsHeard(q: Queue, id: UUID, e: Event)
    requires Inv(q)
    ensures Heard(q, q.(chans := Notify(q.chans, q.Subs(id), e)), id, e)
  {
    assert SubsOpen(q.chans, q.Subs(id));
    NotifyEffect(q.chans, q.Subs(id), e);
  }

  /** A publish for a known ticket is recorded and heard, and a terminal one finishes the ticket for good. */
  lemma PublishEffect(q: Queue, id: UUID, e: Event)
    requires Inv(q)
    ensures id !in q.tickets ==> Step(q, Publish(id, e)) == q
    ensures id in q.tickets ==>
              var q' := Step(q, Publish(id, e));
              && OnlyTicket(q, q', id) && Heard(q, q', id, e)
              && q'.tickets[id].ticket == q.tickets[id].ticket && q'.tickets[id].claimed == q.tickets[id].claimed
              && q'.tickets[id].latest == e && (q'.tickets[id].finished <==> q.tickets[id].finished || e.IsTerminal())
              && q'.Subs(id) == if e.IsTerminal() then [] else q.Subs(id)
  {
    NotifyIsHeard(q, id, e);
  }

  /**
   * A cancel ends a ticket that is not finished, claimed or not: it is no longer pending, is recorded as cancelled,
   * and its subscribers hear so and are closed. A finished or unknown ticket is left alone.
   */
  lemma CancelEffect(q: Queue, id: UUID)
    requires Inv(q)
    ensures id !in q.tickets || q.tickets[id].finished ==> Step(q, Cancel(id)) == q
    ensures id in q.tickets && !q.tickets[id].finished ==>
              var q' := Step(q, Cancel(id));
              && OnlyTicket(q, q', id) && Heard(q, q', id, Failed("cancelled")) && q'.Subs(id) == []
              && q'.tickets[id] == Entry(q.tickets[id].ticket, Failed("cancelled"), true, q.tickets[id].claimed)
              && !q'.IsPending(id)
  {
    NotifyIsHeard(q, id, Failed("cancelled"));
  }

  lemma EnqueueGrowsPool(q: Queue, t: Ticket)
    requires t.id !in q.tickets
    ensures Step(q, Enqueue(t)).PendingIds(t.gameMode) == q.PendingIds(t.gameMode) + {t.id}
    ensures t.id !in q.PendingIds(t.gameMode)
  {}

  /** A new ticket is pending in its mode, with the depth it was queued at; a known id changes nothing. */
  lemma EnqueueEffect(q: Queue, t: Ticket)
    ensures t.id in q.tickets ==> Step(q, Enqueue(t)) == q
    ensures t.id !in q.tickets ==>
              var q' := Step(q, Enqueue(t));
              && q'.IsPendingIn(t.gameMode, t.id) && q'.tickets[t.id].ticket == t
              && q'.PendingIds(t.gameMode) == q.PendingIds(t.gameMode) + {t.id}
              && q'.tickets[t.id].latest == Queued(t.enqueuedAt, Int32(|q'.PendingIds(t.gameMode)|))
              && q'.tickets.Keys == q.tickets.Keys + {t.id}
              && (forall id :: id in q.tickets ==> q'.tickets[id] == q.tickets[id])
              && q'.subscribers == q.subscribers && q'.chans == q.chans
  {
    if t.id !in q.tickets {
      EnqueueGrowsPool(q, t);
    }
  }

  /** A subscriber starts with the latest event, and is registered or, if the ticket is finished, closed at once. */
  lemma SubscribeEffect(q: Queue, id: UUID)
    requires Inv(q)
    ensures id !in q.tickets ==> Step(q, Subscribe(id)) == q
    ensures id in q.tickets ==>
              var q', ch := Step(q, Subscribe(id)), |q.chans|;
              && |q'.chans| == ch + 1 && q'.chans[..ch] == q.chans && q'.tickets == q.tickets
              && q'.chans[ch].sent == [q.tickets[id].latest] && q'.chans[ch].received == 0
              && (q'.chans[ch].closes == 1 <==> q.tickets[id].finished)
              && (forall x :: x != id ==> q'.Subs(x) == q.Subs(x))
              && q'.Subs(id) == if q.tickets[id].finished then [] else q.Subs(id) + [ch]
  {}

  /** A detach closes a registered channel and takes it, and only it, off the list. */
  lemma DetachEffect(q: Queue, id: UUID, ch: ChanId)
    requires Inv(q)
    ensures ch !in q.Subs(id) ==> Step(q, Detach(id, ch)) == q
    ensures ch in q.Subs(id) ==>
              var q' := Step(q, Detach(id, ch));
              && q'.tickets == q.tickets && |q'.chans| == |q.chans| && ch < |q.chans|
              && q'.chans[ch].closes == 1 && q'.chans[ch].sent == q.chans[ch].sent
              && (forall c :: 0 <= c < |q.chans| && c != ch ==> q'.chans[c] == q.chans[c])
              && (forall x :: x != id ==> q'.Subs(x) == q.Subs(x))
              && multiset(q'.Subs(id)) == multiset(q.Subs(id)) - multiset{ch} && ch !in q'.Subs(id)
  {
    var subs, i := q.Subs(id), IndexOf(q.Subs(id), ch);
    if ch in subs {
      assert SubsOpen(q.chans, subs);
      TakenOff(subs, ch, i);
    }
  }

  lemma TakenOff(subs: seq<ChanId>, ch: ChanId, i: nat)
    requires NoDuplicates(subs) && i < |subs| && subs[i] == ch
    ensures var rest := subs[..i] + subs[i + 1..]; multiset(rest) == multiset(subs) - multiset{ch} && ch !in rest
  {
    assert subs == subs[..i] + [ch] + subs[i + 1..];
    assert multiset(subs) == multiset(subs[..i]) + multiset{ch} + multiset(subs[i + 1..]);
    assert forall k :: 0 <= k < |subs| && k != i ==> subs[k] != ch;
  }

  /** A receive takes the oldest event the subscriber has not had, if there is one. */
  lemma ReceiveEffect(q: Queue, ch: ChanId)
    requires ch < |q.chans|
    ensures var q' := Step(q, Receive(ch));
            && q'.tickets == q.tickets && q'.subscribers == q.subscribers && |q'.chans| == |q.chans|
            && q'.chans[ch].sent == q.chans[ch].sent && q'.chans[ch].closes == q.chans[ch].closes
            && q'.chans[ch].received == Min(q.chans[ch].received + 1, Max(q.chans[ch].received, |q.chans[ch].sent|))
            && forall c :: 0 <= c < |q.chans| && c != ch ==> q'.chans[c] == q.chans[c]
  {}

  /** A claim that succeeds claims exactly its tickets and changes nothing else about them. */
  lemma ClaimEffect(q: Queue, ids: seq<UUID>)
    requires CanClaim(q, ids)
    ensures var q' := Step(q, Claim(ids));
            && q'.tickets.Keys == q.tickets.Keys && q'.subscribers == q.subscribers && q'.chans == q.chans
            && forall id :: id in q.tickets ==>
                 q'.tickets[id] == Entry(q.tickets[id].ticket, q.tickets[id].latest, q.tickets[id].finished,
                                         q.tickets[id].claimed || id in ids)
  {}
}
