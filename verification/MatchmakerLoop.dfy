/** The matchmaker worker, run alone on the in-memory queue. */
module MatchmakerLoop {
  import opened Base
  import opened Sorting
  import opened Tickets
  import opened Units
  import opened Matcher
  import opened QueueModel
  import opened InMemQueue
  import opened Replicas

  // ---- what the worker does to the world ----

  /** One effect of the worker: on the queue, or on the assignment store. */
  datatype Deed =
    | Claimed(group: seq<Ticket>)
    | Put(player: UUID, assignment: Assignment)
    | Told(ticket: Ticket, event: Event)

  datatype World = World(queue: Queue, store: map<UUID, Assignment>)

  function Apply(w: World, d: Deed): World {
    match d
    case Claimed(g) => w.(queue := ClaimStep(w.queue, Ids(g)))
    case Put(p, a) => w.(store := w.store[p := a])
    case Told(t, e) => w.(queue := PublishStep(w.queue, t.id, e))
  }

  function Replay(w: World, deeds: seq<Deed>): World {
    if deeds == [] then w else Apply(Replay(w, deeds[..|deeds| - 1]), deeds[|deeds| - 1])
  }

  lemma {:induction false} ReplayConcat(w: World, a: seq<Deed>, b: seq<Deed>)
    ensures Replay(w, a + b) == Replay(Replay(w, a), b)
  {
    if b == [] {
      assert a + b == a;
    } else {
      var init := b[..|b| - 1];
      assert (a + b)[..|a + b| - 1] == a + init;
      ReplayConcat(w, a, init);
    }
  }

  lemma ConcatAssociates(a: seq<Deed>, b: seq<Deed>, c: seq<Deed>)
    ensures a + b + c == a + (b + c)
  {}

  lemma ReplayOne(w: World, d: Deed)
    ensures Replay(w, [d]) == Apply(w, d)
  {
    assert [d][..0] == [];
    assert Replay(w, []) == w;
  }

  lemma PutThenTold(w: World, a: Deed, b: Deed)
    ensures Replay(w, [a] + [b]) == Apply(Apply(w, a), b)
  {
    ReplayConcat(w, [a], [b]);
    ReplayOne(w, a);
    ReplayOne(Apply(w, a), b);
  }

  /** What became of one ticket of a claimed group; stray is an assignment that was stored although the store erred. */
  datatype Outcome = Rejected(reason: string, stray: Option<Assignment>) | Seated(assignment: Assignment) {
    function Event(): QueueModel.Event { if Rejected? then Failed(reason) else Matched(assignment) }
  }

  datatype Room = Room(matchId: UUID, endpoint: string, expiresAt: Time)

  /** A claimed group, the room it got, and what signer and store answered for each of its tickets. */
  datatype Turn = Turn(group: seq<Ticket>, room: Option<Room>, answers: seq<Answer>) {
    predicate Ok() { |answers| == |group| }

    function Outcomes(): (outcomes: seq<Outcome>)
      ensures |outcomes| == |answers|
    {
      OutcomesFor(room, answers)
    }

    /** There is a room, and every ticket has a token and a stored assignment. */
    ghost predicate AllSeated() {
      room.Some? && forall i :: 0 <= i < |answers| ==> answers[i].token.Some? && answers[i].stored.Stored?
    }

    function Deeds(): seq<Deed>
      requires Ok()
    {
      [Claimed(group)] + SettleDeeds(group, Outcomes())
    }
  }

  /** A store succeeds, fails without effect, or takes effect although its caller sees an error. */
  datatype StoreReply = Stored | Refused | Unanswered

  /** What the signer and the store answered for one ticket. */
  datatype Answer = Answer(token: Option<string>, stored: StoreReply)

  /** What the allocator answered for a group, and signer and store for each of its tickets. */
  datatype Offer = Offer(room: Option<Room>, answers: seq<Answer>)

  /** The outcome those answers call for. */
  function OutcomeFor(room: Option<Room>, a: Answer): Outcome {
    if room.None? then Rejected("allocator_failed", None)
    else if a.token.None? then Rejected("internal", None)
    else
      var assignment := Assignment(room.value.matchId, room.value.endpoint, a.token.value, room.value.expiresAt);
      match a.stored
      case Stored => Seated(assignment)
      case Refused => Rejected("internal", None)
      case Unanswered => Rejected("internal", Some(assignment))
  }

  function OutcomesFor(room: Option<Room>, answers: seq<Answer>): seq<Outcome> {
    seq(|answers|, i requires 0 <= i < |answers| => OutcomeFor(room, answers[i]))
  }

  /** The assignment to a room with the token that was signed for the ticket. */
  function Signed(room: Room, token: string): Assignment {
    Assignment(room.matchId, room.endpoint, token, room.expiresAt)
  }

  /** The four things that can be done for one ticket, and when each is done. */
  lemma AnswersDecide(t: Ticket, room: Option<Room>, a: Answer)
    ensures var deeds := DeedsOf(t, OutcomeFor(room, a));
            && (room.None? ==> deeds == [Told(t, Failed("allocator_failed"))])
            && (room.Some? && (a.token.None? || a.stored.Refused?) ==> deeds == [Told(t, Failed("internal"))])
            && (room.Some? && a.token.Some? && a.stored.Stored? ==>
                  deeds == [Put(t.playerId, Signed(room.value, a.token.value)),
                            Told(t, Matched(Signed(room.value, a.token.value)))])
            && (room.Some? && a.token.Some? && a.stored.Unanswered? ==>
                  deeds == [Put(t.playerId, Signed(room.value, a.token.value)), Told(t, Failed("internal"))])
  {}

  /** What is put into the store for a ticket, told to its player or not. */
  function PutFor(o: Outcome): Option<Assignment> { if o.Seated? then Some(o.assignment) else o.stray }

  /** Whatever is stored is stored before the player is told. */
  function DeedsOf(t: Ticket, o: Outcome): seq<Deed> {
    (if PutFor(o).Some? then [Put(t.playerId, PutFor(o).value)] else []) + [Told(t, o.Event())]
  }

  function SettleDeeds(group: seq<Ticket>, outcomes: seq<Outcome>): seq<Deed>
    requires |outcomes| <= |group|
    decreases |outcomes|
  {
    if outcomes == [] then []
    else
      var n := |outcomes| - 1;
      SettleDeeds(group, outcomes[..n]) + DeedsOf(group[n], outcomes[n])
  }

  function Seats(outcomes: seq<Outcome>): nat {
    if outcomes == [] then 0
    else Seats(outcomes[..|outcomes| - 1]) + if outcomes[|outcomes| - 1].Seated? then 1 else 0
  }

  lemma {:induction false} SeatsAll(outcomes: seq<Outcome>)
    ensures Seats(outcomes) <= |outcomes|
    ensures Seats(outcomes) == |outcomes| <==> forall i :: 0 <= i < |outcomes| ==> outcomes[i].Seated?
  {
    if outcomes != [] {
      SeatsAll(outcomes[..|outcomes| - 1]);
    }
  }

  ghost predicate TurnsOk(turns: seq<Turn>) { forall i :: 0 <= i < |turns| ==> turns[i].Ok() }

  ghost function AllDeeds(turns: seq<Turn>): seq<Deed>
    requires TurnsOk(turns)
  {
    if turns == [] then [] else AllDeeds(turns[..|turns| - 1]) + turns[|turns| - 1].Deeds()
  }

  ghost function Allocated(turns: seq<Turn>): nat {
    if turns == [] then 0
    else Allocated(turns[..|turns| - 1]) + if turns[|turns| - 1].AllSeated() then 1 else 0
  }

  /** The ticket is finished, and the queue holds what the answers for it call for. */
  ghost predicate EndsAsAnswered(q: Queue, t: Ticket, room: Option<Room>, a: Answer) {
    && t.id in q.tickets && q.tickets[t.id].finished
    && var e := q.tickets[t.id].latest;
       if room.None? then e == Failed("allocator_failed")
       else if a.token.Some? && a.stored.Stored? then e == Matched(Signed(room.value, a.token.value))
       else e == Failed("internal")
  }

  // ---- stored before told ----

  /** Every Matched event follows directly on storing that very assignment for the ticket's player. */
  ghost predicate StoredBeforeTold(deeds: seq<Deed>) {
    forall i :: 0 <= i < |deeds| && deeds[i].Told? && deeds[i].event.Matched? ==>
                  i > 0 && deeds[i - 1] == Put(deeds[i].ticket.playerId, deeds[i].event.assignment)
  }

  lemma StoredConcat(a: seq<Deed>, b: seq<Deed>)
    requires StoredBeforeTold(a) && StoredBeforeTold(b)
    ensures StoredBeforeTold(a + b)
  {
    var c := a + b;
    forall i | 0 <= i < |c| && c[i].Told? && c[i].event.Matched?
      ensures i > 0 && c[i - 1] == Put(c[i].ticket.playerId, c[i].event.assignment)
    {
      if i >= |a| {
        assert b[i - |a|] == c[i];
      }
    }
  }

  lemma {:induction false} SettleStores(group: seq<Ticket>, outcomes: seq<Outcome>)
    requires |outcomes| <= |group|
    ensures StoredBeforeTold(SettleDeeds(group, outcomes))
  {
    if outcomes != [] {
      var n := |outcomes| - 1;
      SettleStores(group, outcomes[..n]);
      StoredConcat(SettleDeeds(group, outcomes[..n]), DeedsOf(group[n], outcomes[n]));
    }
  }

  lemma {:induction false} TurnsStore(turns: seq<Turn>)
    requires TurnsOk(turns)
    ensures StoredBeforeTold(AllDeeds(turns))
  {
    if turns != [] {
      var last := turns[|turns| - 1];
      TurnsStore(turns[..|turns| - 1]);
      SettleStores(last.group, last.Outcomes());
      StoredConcat([Claimed(last.group)], SettleDeeds(last.group, last.Outcomes()));
      StoredConcat(AllDeeds(turns[..|turns| - 1]), last.Deeds());
    }
  }

  /** When a player hears of a match, the store already holds the assignment they hear of. */
  lemma StoredWhenTold(w: World, turns: seq<Turn>, n: nat)
    requires TurnsOk(turns) && n < |AllDeeds(turns)|
    requires AllDeeds(turns)[n].Told? && AllDeeds(turns)[n].event.Matched?
    ensures var store, d := Replay(w, AllDeeds(turns)[..n]).store, AllDeeds(turns)[n];
            d.ticket.playerId in store && store[d.ticket.playerId] == d.event.assignment
  {
    TurnsStore(turns);
    var sofar := AllDeeds(turns)[..n];
    assert sofar[|sofar| - 1] == AllDeeds(turns)[n - 1];
  }

  /** The assignment a player is left with: the last one put for them. */
  function LastPut(deeds: seq<Deed>, p: UUID): Option<Assignment> {
    if deeds == [] then None
    else
      var d := deeds[|deeds| - 1];
      if d.Put? && d.player == p then Some(d.assignment) else LastPut(deeds[..|deeds| - 1], p)
  }

  lemma {:induction false} StoreIsLastPut(w: World, deeds: seq<Deed>, p: UUID)
    ensures var store := Replay(w, deeds).store;
            match LastPut(deeds, p)
            case Some(a) => p in store && store[p] == a
            case None => (p in store <==> p in w.store) && (p in store ==> store[p] == w.store[p])
  {
    if deeds != [] {
      StoreIsLastPut(w, deeds[..|deeds| - 1], p);
    }
  }

  lemma {:induction false} PutIsFound(deeds: seq<Deed>, n: nat)
    requires n < |deeds| && deeds[n].Put?
    requires forall k :: n < k < |deeds| && deeds[k].Put? ==> deeds[k].player != deeds[n].player
    ensures LastPut(deeds, deeds[n].player) == Some(deeds[n].assignment)
  {
    if n < |deeds| - 1 {
      PutIsFound(deeds[..|deeds| - 1], n);
    }
  }

  /** A player told of a match keeps that assignment for as long as no later deed stores another for them. */
  lemma KeptUnlessSeatedAgain(w: World, turns: seq<Turn>, n: nat)
    requires TurnsOk(turns) && n < |AllDeeds(turns)|
    requires AllDeeds(turns)[n].Told? && AllDeeds(turns)[n].event.Matched?
    requires forall k :: n < k < |AllDeeds(turns)| && AllDeeds(turns)[k].Put? ==>
                           AllDeeds(turns)[k].player != AllDeeds(turns)[n].ticket.playerId
    ensures var store, d := Replay(w, AllDeeds(turns)).store, AllDeeds(turns)[n];
            d.ticket.playerId in store && store[d.ticket.playerId] == d.event.assignment
  {
    TurnsStore(turns);
    PutIsFound(AllDeeds(turns), n - 1);
    StoreIsLastPut(w, AllDeeds(turns), AllDeeds(turns)[n].ticket.playerId);
  }

  // ---- what a turn does to the queue ----

  /** Tickets outside the group are as they were; those of the group are claimed and still the same tickets. */
  ghost predicate OnlyGroupTouched(before: Queue, after: Queue, group: seq<Ticket>) {
    && before.tickets.Keys == after.tickets.Keys
    && (forall id :: id in before.tickets && id !in IdsOf(group) ==> after.tickets[id] == before.tickets[id])
    && (forall i :: 0 <= i < |group| ==> ClaimedAs(before, after, group[i].id))
  }

  ghost predicate ClaimedAs(before: Queue, after: Queue, id: UUID) {
    id in before.tickets && id in after.tickets && after.tickets[id].claimed
    && after.tickets[id].ticket == before.tickets[id].ticket
  }

  /** One ticket's outcome was set, and nothing else. */
  ghost predicate OnlyOne(q: Queue, after: Queue, id: UUID) {
    && id in q.tickets && q.tickets.Keys == after.tickets.Keys
    && (forall x :: x in q.tickets && x != id ==> after.tickets[x] == q.tickets[x])
    && after.tickets[id].claimed == q.tickets[id].claimed && after.tickets[id].ticket == q.tickets[id].ticket
  }

  lemma TouchOne(before: Queue, q: Queue, after: Queue, group: seq<Ticket>, i: nat)
    requires OnlyGroupTouched(before, q, group) && i < |group| && OnlyOne(q, after, group[i].id)
    ensures OnlyGroupTouched(before, after, group)
  {
    assert group[i].id in IdsOf(group) && ClaimedAs(before, q, group[i].id);
    forall k | 0 <= k < |group| ensures ClaimedAs(before, after, group[k].id) {
      assert ClaimedAs(before, q, group[k].id);
    }
  }

  /** The ticket is finished, and the queue holds the outcome it was told. */
  ghost predicate Concluded(q: Queue, t: Ticket, o: Outcome) {
    t.id in q.tickets && q.tickets[t.id].finished && q.tickets[t.id].latest == o.Event()
  }

  ghost predicate AllConcluded(q: Queue, group: seq<Ticket>, outcomes: seq<Outcome>)
    requires |outcomes| <= |group|
  {
    forall i :: 0 <= i < |outcomes| ==> Concluded(q, group[i], outcomes[i])
  }

  lemma DeedsPublish(w: World, t: Ticket, o: Outcome)
    ensures Replay(w, DeedsOf(t, o)).queue == PublishStep(w.queue, t.id, o.Event())
  {
    if PutFor(o).Some? {
      PutThenTold(w, Put(t.playerId, PutFor(o).value), Told(t, o.Event()));
    } else {
      JustTold(w, t, o.Event());
    }
  }

  lemma PublishConcludes(q: Queue, t: Ticket, o: Outcome)
    requires t.id in q.tickets
    ensures var after := PublishStep(q, t.id, o.Event()); OnlyOne(q, after, t.id) && Concluded(after, t, o)
  {}

  lemma DeedsOfOne(w: World, t: Ticket, o: Outcome)
    requires t.id in w.queue.tickets
    ensures var q := Replay(w, DeedsOf(t, o)).queue; OnlyOne(w.queue, q, t.id) && Concluded(q, t, o)
  {
    DeedsPublish(w, t, o);
    PublishConcludes(w.queue, t, o);
  }

  lemma ConcludeOne(q: Queue, after: Queue, group: seq<Ticket>, outcomes: seq<Outcome>)
    requires outcomes != [] && |outcomes| <= |group| && DistinctIds(group)
    requires AllConcluded(q, group, outcomes[..|outcomes| - 1]) && OnlyOne(q, after, group[|outcomes| - 1].id)
    requires Concluded(after, group[|outcomes| - 1], outcomes[|outcomes| - 1])
    ensures AllConcluded(after, group, outcomes)
  {
    forall i | 0 <= i < |outcomes| - 1 ensures Concluded(after, group[i], outcomes[i]) {
      assert Concluded(q, group[i], outcomes[..|outcomes| - 1][i]) && group[i].id != group[|outcomes| - 1].id;
    }
  }

  lemma {:induction false} SettleEffect(before: Queue, w: World, group: seq<Ticket>, outcomes: seq<Outcome>)
    requires |outcomes| <= |group| && DistinctIds(group) && OnlyGroupTouched(before, w.queue, group)
    ensures var q := Replay(w, SettleDeeds(group, outcomes)).queue;
            OnlyGroupTouched(before, q, group) && AllConcluded(q, group, outcomes)
    decreases |outcomes|
  {
    if outcomes != [] {
      var n := |outcomes| - 1;
      SettleEffect(before, w, group, outcomes[..n]);
      var w' := Replay(w, SettleDeeds(group, outcomes[..n]));
      assert ClaimedAs(before, w'.queue, group[n].id);
      DeedsOfOne(w', group[n], outcomes[n]);
      ReplayConcat(w, SettleDeeds(group, outcomes[..n]), DeedsOf(group[n], outcomes[n]));
      var q := Replay(w', DeedsOf(group[n], outcomes[n])).queue;
      TouchOne(before, w'.queue, q, group, n);
      ConcludeOne(w'.queue, q, group, outcomes);
    }
  }

  lemma ClaimThenSettle(w: World, turn: Turn)
    requires turn.Ok()
    ensures Replay(w, turn.Deeds()) == Replay(Apply(w, Claimed(turn.group)), SettleDeeds(turn.group, turn.Outcomes()))
  {
    ReplayConcat(w, [Claimed(turn.group)], SettleDeeds(turn.group, turn.Outcomes()));
    ReplayOne(w, Claimed(turn.group));
  }

  /** A turn on a claimable group claims and concludes all of it, and touches no other ticket. */
  lemma TurnEffect(w: World, turn: Turn)
    requires turn.Ok() && DistinctIds(turn.group) && CanClaim(w.queue, Ids(turn.group))
    ensures var q := Replay(w, turn.Deeds()).queue;
            OnlyGroupTouched(w.queue, q, turn.group) && AllConcluded(q, turn.group, turn.Outcomes())
  {
    GroupClaimed(w.queue, turn.group);
    ClaimThenSettle(w, turn);
    SettleEffect(w.queue, Apply(w, Claimed(turn.group)), turn.group, turn.Outcomes());
  }

  lemma GroupClaimed(before: Queue, tickets: seq<Ticket>)
    requires CanClaim(before, Ids(tickets))
    ensures OnlyGroupTouched(before, Step(before, Claim(Ids(tickets))), tickets)
  {
    var ids := Ids(tickets);
    forall i | 0 <= i < |tickets| ensures before.IsPending(tickets[i].id) && tickets[i].id in ids {
      assert ids[i] == tickets[i].id;
    }
    forall id | id in ids ensures id in IdsOf(tickets) {
      var i :| 0 <= i < |ids| && ids[i] == id;
      assert tickets[i].id == id;
    }
  }

  /** Each ticket is as it was, or was pending in the mode and is now claimed and finished. */
  ghost predicate Evolved(before: Queue, after: Queue, mode: string) {
    && before.tickets.Keys == after.tickets.Keys
    && forall id :: id in before.tickets ==>
         || after.tickets[id] == before.tickets[id]
         || (before.IsPendingIn(mode, id) && ClaimedAs(before, after, id) && after.tickets[id].finished)
  }

  /** Some reading of the pool is too small, or selects nothing. */
  ghost predicate NothingToSelect(m: Matcher, now: Time, mode: string, q: Queue) {
    exists p :: IsPendingList(q, mode, p)
                && (|p| < m.playersPerMatch
                    || exists units ::
                         IsUnitList(p, units) && NonEmptyUnits(units) && SelectFrom(m, now, units, 0).None?)
  }

  lemma ReadingsAgree(q: Queue, mode: string, p: seq<Ticket>, r: seq<Ticket>)
    requires IsPendingList(q, mode, p) && IsPendingList(q, mode, r)
    ensures Elements(p) == Elements(r)
  {
    forall t | t in p ensures t in r {
      assert q.IsPendingIn(mode, t.id);
    }
    forall t | t in r ensures t in p {
      assert q.IsPendingIn(mode, t.id);
    }
  }

  /** Unless a player has two equally old tickets for one party, what holds for one reading holds for all. */
  lemma NothingInAnyReading(m: Matcher, now: Time, mode: string, q: Queue, p: seq<Ticket>, units: seq<Unit>)
    requires Inv(q) && GoodTickets(q) && NothingToSelect(m, now, mode, q)
    requires IsPendingList(q, mode, p) && Untied(p) && IsUnitList(p, units) && NonEmptyUnits(units)
    ensures |p| < m.playersPerMatch || SelectFrom(m, now, units, 0).None?
  {
    var r :| IsPendingList(q, mode, r)
             && (|r| < m.playersPerMatch
                 || exists us :: IsUnitList(r, us) && NonEmptyUnits(us) && SelectFrom(m, now, us, 0).None?);
    PendingIsPool(q, mode, p);
    PendingIsPool(q, mode, r);
    if |p| >= m.playersPerMatch {
      var us :| IsUnitList(r, us) && NonEmptyUnits(us) && SelectFrom(m, now, us, 0).None?;
      ReadingsAgree(q, mode, p, r);
      UnitListInAnyOrder(p, r, us);
      UnitListUnique(p, us, units);
    }
  }

  /** A group selected from the current pool can be claimed. */
  lemma GroupIsClaimable(m: Matcher, now: Time, mode: string, q: Queue, pending: seq<Ticket>, g: seq<Ticket>)
    requires IsPendingList(q, mode, pending) && IsMatch(m, now, pending, g)
    ensures CanClaim(q, Ids(g))
    ensures forall i :: 0 <= i < |g| ==> q.IsPendingIn(mode, g[i].id)
  {
    forall i | 0 <= i < |g| ensures q.IsPendingIn(mode, g[i].id) {
      assert g[i] in pending;
    }
    forall id | id in Ids(g) ensures q.IsPending(id) {
      var i :| 0 <= i < |g| && Ids(g)[i] == id;
      assert q.IsPendingIn(mode, g[i].id);
    }
  }

  lemma EvolvedTransitive(a: Queue, b: Queue, c: Queue, mode: string)
    requires Evolved(a, b, mode) && Evolved(b, c, mode)
    ensures Evolved(a, c, mode)
  {}

  /** Settling a claimable group moves its tickets, and no others, out of the pool for good. */
  lemma PairEvolves(mode: string, q: Queue, after: Queue, g: seq<Ticket>)
    requires GoodTickets(q) && OnlyGroupTouched(q, after, g)
    requires forall i :: 0 <= i < |g| ==> q.IsPendingIn(mode, g[i].id) && after.tickets[g[i].id].finished
    ensures GoodTickets(after) && Evolved(q, after, mode)
  {
    forall id | id in IdsOf(g)
      ensures ClaimedAs(q, after, id) && after.tickets[id].finished && q.IsPendingIn(mode, id)
    {
      var i :| 0 <= i < |g| && g[i].id == id;
      assert ClaimedAs(q, after, g[i].id);
    }
  }

  lemma PairShrinks(mode: string, q: Queue, after: Queue, g: seq<Ticket>)
    requires DistinctIds(g) && OnlyGroupTouched(q, after, g)
    requires forall i :: 0 <= i < |g| ==> q.IsPendingIn(mode, g[i].id) && after.tickets[g[i].id].finished
    ensures |after.PendingIds(mode)| == |q.PendingIds(mode)| - |g|
  {
    DistinctIdsCount(g);
    forall id ensures id in after.PendingIds(mode) <==> id in q.PendingIds(mode) && id !in IdsOf(g) {
      if id in IdsOf(g) {
        var i :| 0 <= i < |g| && g[i].id == id;
        assert after.tickets[id].finished;
      }
    }
    assert after.PendingIds(mode) == q.PendingIds(mode) - IdsOf(g);
    assert IdsOf(g) <= q.PendingIds(mode);
  }

  // ---- whole calls ----

  /** The group was what the matcher selected from some reading of the pool. */
  ghost predicate Chosen(m: Matcher, now: Time, mode: string, q: Queue, group: seq<Ticket>) {
    exists p :: IsPendingList(q, mode, p) && Selects(m, now, p, group) && IsMatch(m, now, p, group)
  }

  /** Every ticket of every turn is concluded, with the outcome it was told. */
  ghost predicate TurnsConcluded(q: Queue, turns: seq<Turn>)
    requires TurnsOk(turns)
  {
    forall i :: 0 <= i < |turns| ==> AllConcluded(q, turns[i].group, turns[i].Outcomes())
  }

  /** Each group was chosen from the pool its predecessors left. */
  ghost predicate AllChosen(m: Matcher, now: Time, mode: string, w: World, turns: seq<Turn>)
    requires TurnsOk(turns)
  {
    turns == [] ||
    var init, last := turns[..|turns| - 1], turns[|turns| - 1];
    AllChosen(m, now, mode, w, init) && Chosen(m, now, mode, Replay(w, AllDeeds(init)).queue, last.group)
  }

  /**
   * The turns of a call, done one after another to w: each group was chosen from the pool its predecessors left;
   * at the end every ticket of every group is concluded as told, all other tickets are as they were, and the pool
   * is smaller by one match per turn.
   */
  ghost predicate Account(m: Matcher, now: Time, mode: string, w: World, turns: seq<Turn>) {
    && TurnsOk(turns) && AllChosen(m, now, mode, w, turns)
    && var q := Replay(w, AllDeeds(turns)).queue;
       && GoodTickets(q) && Evolved(w.queue, q, mode) && TurnsConcluded(q, turns)
       && |q.PendingIds(mode)| + |turns| * m.playersPerMatch == |w.queue.PendingIds(mode)|
  }

  lemma AccountIsGood(m: Matcher, now: Time, mode: string, w: World, turns: seq<Turn>)
    requires Account(m, now, mode, w, turns)
    ensures TurnsOk(turns) && GoodTickets(Replay(w, AllDeeds(turns)).queue)
  {}

  lemma AccountEnds(m: Matcher, now: Time, mode: string, w: World, turns: seq<Turn>)
    requires Account(m, now, mode, w, turns)
    ensures TurnsOk(turns) && AllEndAsAnswered(Replay(w, AllDeeds(turns)).queue, turns)
  {
    ConcludedAsAnswered(Replay(w, AllDeeds(turns)).queue, turns);
  }

  /** Each turn got what was offered to it. */
  ghost predicate AsOffered(offers: nat -> Offer, turns: seq<Turn>) {
    forall i: nat :: i < |turns| ==> turns[i].room == offers(i).room && turns[i].answers == offers(i).answers
  }

  /** Only the last turn can have gone without a room. */
  ghost predicate OnlyLastRoomless(turns: seq<Turn>) {
    forall i :: 0 <= i < |turns| - 1 ==> turns[i].room.Some?
  }

  /** Every ticket of every turn has ended as it was answered. */
  ghost predicate AllEndAsAnswered(q: Queue, turns: seq<Turn>)
    requires TurnsOk(turns)
  {
    forall i, k :: 0 <= i < |turns| && 0 <= k < |turns[i].group| ==>
                     EndsAsAnswered(q, turns[i].group[k], turns[i].room, turns[i].answers[k])
  }

  lemma ConcludedAsAnswered(q: Queue, turns: seq<Turn>)
    requires TurnsOk(turns) && TurnsConcluded(q, turns)
    ensures AllEndAsAnswered(q, turns)
  {
    forall i, k | 0 <= i < |turns| && 0 <= k < |turns[i].group|
      ensures EndsAsAnswered(q, turns[i].group[k], turns[i].room, turns[i].answers[k])
    {
      assert turns[i].Ok();
      assert Concluded(q, turns[i].group[k], turns[i].Outcomes()[k]);
    }
  }

  lemma ConcludedStay(q: Queue, after: Queue, mode: string, turns: seq<Turn>)
    requires TurnsOk(turns) && TurnsConcluded(q, turns) && Evolved(q, after, mode)
    ensures TurnsConcluded(after, turns)
  {
    forall i | 0 <= i < |turns| ensures AllConcluded(after, turns[i].group, turns[i].Outcomes()) {
      forall k | 0 <= k < |turns[i].Outcomes()| ensures Concluded(after, turns[i].group[k], turns[i].Outcomes()[k]) {
        assert Concluded(q, turns[i].group[k], turns[i].Outcomes()[k]);
      }
    }
  }

  /** What one chosen and settled group does to the pool. */
  lemma TurnShrinks(m: Matcher, now: Time, mode: string, w: World, turn: Turn)
    requires Inv(w.queue) && GoodTickets(w.queue) && Chosen(m, now, mode, w.queue, turn.group) && turn.Ok()
    ensures var q := Replay(w, turn.Deeds()).queue;
            && GoodTickets(q) && Evolved(w.queue, q, mode) && AllConcluded(q, turn.group, turn.Outcomes())
            && |q.PendingIds(mode)| == |w.queue.PendingIds(mode)| - m.playersPerMatch
  {
    var p :| IsPendingList(w.queue, mode, p) && Selects(m, now, p, turn.group) && IsMatch(m, now, p, turn.group);
    var g, q := turn.group, Replay(w, turn.Deeds()).queue;
    GroupIsClaimable(m, now, mode, w.queue, p, g);
    TurnEffect(w, turn);
    forall i | 0 <= i < |g| ensures q.tickets[g[i].id].finished {
      assert Concluded(q, g[i], turn.Outcomes()[i]);
    }
    PairEvolves(mode, w.queue, q, g);
    PairShrinks(mode, w.queue, q, g);
  }

  /** One more turn at the end of a call. */
  lemma TurnAppended(w: World, turns: seq<Turn>, turn: Turn)
    requires TurnsOk(turns) && turn.Ok()
    ensures TurnsOk(turns + [turn]) && AllDeeds(turns + [turn]) == AllDeeds(turns) + turn.Deeds()
    ensures Replay(w, AllDeeds(turns + [turn])) == Replay(Replay(w, AllDeeds(turns)), turn.Deeds())
    ensures Allocated(turns + [turn]) == Allocated(turns) + if turn.AllSeated() then 1 else 0
  {
    assert (turns + [turn])[..|turns|] == turns;
    ReplayConcat(w, AllDeeds(turns), turn.Deeds());
  }

  lemma JustTold(w: World, t: Ticket, e: Event)
    ensures Replay(w, [] + [Told(t, e)]) == Apply(w, Told(t, e)) && [] + [Told(t, e)] == [Told(t, e)]
  {
    ReplayOne(w, Told(t, e));
  }

  class Matchmaker {
    const queue: InMem
    const matcher: Matcher
    var assignments: map<UUID, Assignment>
    var matchesAllocated: nat
    ghost var log: seq<Deed>

    function Now(): World
      reads this, queue
    {
      World(queue.State(), assignments)
    }

    constructor (queue: InMem, matcher: Matcher)
      ensures this.queue == queue && this.matcher == matcher
      ensures assignments == map[] && matchesAllocated == 0 && log == []
    {
      this.queue, this.matcher := queue, matcher;
      assignments, matchesAllocated, log := map[], 0, [];
    }

    /** Persist one assignment. */
    method Store(p: UUID, a: Assignment)
      modifies this`assignments, this`log
      ensures Now() == Apply(old(Now()), Put(p, a)) && log == old(log) + [Put(p, a)]
    {
      assignments := assignments[p := a];
      log := log + [Put(p, a)];
    }

    /** Publish one event. */
    method Tell(t: Ticket, e: Event)
      requires Inv(queue.State())
      modifies queue, this`log
      ensures Inv(queue.State())
      ensures Now() == Apply(old(Now()), Told(t, e)) && log == old(log) + [Told(t, e)]
    {
      var found := queue.Publish(t.id, e);
      log := log + [Told(t, e)];
    }

    /** Reserve the whole group, or nothing. */
    method Reserve(tickets: seq<Ticket>) returns (claimed: bool)
      requires Inv(queue.State())
      modifies queue, this`log
      ensures Inv(queue.State()) && (claimed <==> old(CanClaim(queue.State(), Ids(tickets))))
      ensures if claimed then Now() == Apply(old(Now()), Claimed(tickets)) && log == old(log) + [Claimed(tickets)]
              else Now() == old(Now()) && log == old(log)
    {
      claimed := queue.Claim(Ids(tickets));
      if claimed {
        log := log + [Claimed(tickets)];
      }
    }

    /** One player: sign, persist, and only then say that it matched. Signing and persisting may fail. */
    method PairOne(t: Ticket, room: Room, answer: Answer) returns (paired: bool)
      requires Inv(queue.State())
      modifies queue, this`log, this`assignments
      ensures Inv(queue.State())
      ensures var deeds := DeedsOf(t, OutcomeFor(Some(room), answer));
              log == old(log) + deeds && Now() == Replay(old(Now()), deeds)
      ensures paired <==> OutcomeFor(Some(room), answer).Seated?
    {
      ghost var w := Now();
      if answer.token.None? {
        Tell(t, Failed("internal"));
        JustTold(w, t, Failed("internal"));
        return false;
      }
      var a := Assignment(room.matchId, room.endpoint, answer.token.value, room.expiresAt);
      if !answer.stored.Refused? {
        Store(t.playerId, a);
      }
      if !answer.stored.Stored? {
        Tell(t, Failed("internal"));
        PutThenTold(w, Put(t.playerId, a), Told(t, Failed("internal")));
        JustTold(w, t, Failed("internal"));
        return false;
      }
      Tell(t, Matched(a));
      PutThenTold(w, Put(t.playerId, a), Told(t, Matched(a)));
      return true;
    }

    /** The allocator failed: every ticket of the group is told so. */
    method FailAll(tickets: seq<Ticket>, ghost answers: seq<Answer>)
      requires Inv(queue.State()) && |answers| == |tickets|
      modifies queue, this`log
      ensures Inv(queue.State())
      ensures var deeds := SettleDeeds(tickets, OutcomesFor(None, answers));
              log == old(log) + deeds && Now() == Replay(old(Now()), deeds)
    {
      ghost var w, l, all := Now(), log, OutcomesFor(None, answers);
      for i := 0 to |tickets|
        invariant Inv(queue.State()) && assignments == old(assignments)
        invariant log == l + SettleDeeds(tickets, all[..i]) && Now() == Replay(w, SettleDeeds(tickets, all[..i]))
      {
        Tell(tickets[i], Failed("allocator_failed"));
        SettleNext(w, l, tickets, all, i);
        JustTold(Replay(w, SettleDeeds(tickets, all[..i])), tickets[i], Failed("allocator_failed"));
      }
      assert all[..|tickets|] == all;
    }

    /** Settle every ticket of a claimed group into the allocated room. */
    method SettleAll(tickets: seq<Ticket>, room: Room, answers: seq<Answer>) returns (paired: nat)
      requires Inv(queue.State()) && |answers| == |tickets|
      modifies queue, this`log, this`assignments
      ensures Inv(queue.State())
      ensures var deeds := SettleDeeds(tickets, OutcomesFor(Some(room), answers));
              log == old(log) + deeds && Now() == Replay(old(Now()), deeds)
      ensures paired == |tickets| <==> Turn(tickets, Some(room), answers).AllSeated()
    {
      paired := 0;
      ghost var w, l, all := Now(), log, OutcomesFor(Some(room), answers);
      for i := 0 to |tickets|
        invariant Inv(queue.State())
        invariant paired == Seats(all[..i])
        invariant log == l + SettleDeeds(tickets, all[..i]) && Now() == Replay(w, SettleDeeds(tickets, all[..i]))
      {
        var ok := PairOne(tickets[i], room, answers[i]);
        SettleNext(w, l, tickets, all, i);
        if ok {
          paired := paired + 1;
        }
      }
      assert all[..|tickets|] == all;
      SeatsAll(all);
      AllSeatedIff(tickets, room, answers);
    }

    /** Claim the group, allocate a room, and settle every ticket of a claimed group. */
    method Pair(tickets: seq<Ticket>, room: Option<Room>, answers: seq<Answer>) returns (failed: bool, claimed: bool)
      requires Inv(queue.State()) && |answers| == |tickets|
      modifies queue, this
      ensures Inv(queue.State())
      ensures claimed <==> old(CanClaim(queue.State(), Ids(tickets)))
      ensures !claimed ==>
                !failed && Now() == old(Now()) && log == old(log) && matchesAllocated == old(matchesAllocated)
      ensures var turn := Turn(tickets, room, answers);
              claimed ==>
                && (failed <==> room.None?)
                && log == old(log) + turn.Deeds() && Now() == Replay(old(Now()), turn.Deeds())
                && matchesAllocated == old(matchesAllocated) + if turn.AllSeated() then 1 else 0
    {
      ghost var w, l := Now(), log;
      claimed := Reserve(tickets);
      if !claimed {
        return false, false;
      }
      ghost var turn := Turn(tickets, room, answers);
      ClaimThenSettle(w, turn);
      ConcatAssociates(l, [Claimed(tickets)], SettleDeeds(tickets, turn.Outcomes()));
      if room.None? {
        FailAll(tickets, answers);
        return true, true;
      }
      var paired := SettleAll(tickets, room.value, answers);
      if paired == |tickets| {
        matchesAllocated := matchesAllocated + 1;
      }
      return false, true;
    }

    /** One turn of the loop: read the pool, select, pair. No turn when nothing can be selected. */
    method Round(mode: string, now: Time, offer: Offer) returns (failed: bool, more: bool, ghost turn: Turn)
      requires Inv(queue.State()) && GoodTickets(queue.State()) && matcher.playersPerMatch >= 1
      requires |offer.answers| == matcher.playersPerMatch
      modifies queue, this
      ensures Inv(queue.State())
      ensures !more ==>
                && !failed && Now() == old(Now()) && log == old(log) && matchesAllocated == old(matchesAllocated)
                && NothingToSelect(matcher, now, mode, queue.State())
      ensures more ==>
                && Chosen(matcher, now, mode, old(queue.State()), turn.group)
                && turn.room == offer.room && turn.answers == offer.answers
                && turn.Ok() && (failed <==> turn.room.None?)
                && log == old(log) + turn.Deeds() && Now() == Replay(old(Now()), turn.Deeds())
                && matchesAllocated == old(matchesAllocated) + if turn.AllSeated() then 1 else 0
    {
      turn := Turn([], None, []);
      var group := Look(mode, now);
      if group.None? {
        return false, false, turn;
      }
      var claimed;
      failed, claimed := Pair(group.value, offer.room, offer.answers);
      return failed, true, Turn(group.value, offer.room, offer.answers);
    }

    /** Read the pool and select from it. */
    method Look(mode: string, now: Time) returns (group: Option<seq<Ticket>>)
      requires Inv(queue.State()) && GoodTickets(queue.State()) && matcher.playersPerMatch >= 1
      ensures group.None? ==> NothingToSelect(matcher, now, mode, queue.State())
      ensures group.Some? ==>
                && Chosen(matcher, now, mode, queue.State(), group.value)
                && CanClaim(queue.State(), Ids(group.value))
    {
      ghost var q := queue.State();
      var pending := queue.Pending(mode);
      PendingIsPool(q, mode, pending);
      if |pending| < matcher.playersPerMatch {
        return None;
      }
      group := SelectGroup(matcher, now, pending);
      ghost var units :| IsUnitList(pending, units);
      if group.Some? {
        GroupIsClaimable(matcher, now, mode, q, pending, group.value);
      }
    }

    /**
     * Take groups until none is left to take, with the time fixed at the start; offers are what the allocator, the
     * signer and the store answer, turn by turn. The turns it returns are a full account: they are what was done to
     * queue and store, in order.
     */
    method ProcessMode(mode: string, now: Time, offers: nat -> Offer) returns (failed: bool, ghost turns: seq<Turn>)
      requires Inv(queue.State()) && GoodTickets(queue.State()) && matcher.playersPerMatch >= 1
      requires forall n: nat :: |offers(n).answers| == matcher.playersPerMatch
      modifies queue, this
      ensures Inv(queue.State()) && Account(matcher, now, mode, old(Now()), turns)
      ensures log == old(log) + AllDeeds(turns) && Now() == Replay(old(Now()), AllDeeds(turns))
      ensures AsOffered(offers, turns) && AllEndAsAnswered(queue.State(), turns)
      ensures OnlyLastRoomless(turns) && (failed <==> turns != [] && turns[|turns| - 1].room.None?)
      ensures !failed ==> NothingToSelect(matcher, now, mode, queue.State())
      ensures matchesAllocated == old(matchesAllocated) + Allocated(turns)
    {
      turns := [];
      var n := 0;
      ghost var w, l := Now(), log;
      AccountOpens(matcher, now, mode, w);
      while true
        invariant Inv(queue.State()) && Account(matcher, now, mode, w, turns)
        invariant log == l + AllDeeds(turns) && Now() == Replay(w, AllDeeds(turns))
        invariant AllRoomed(turns) && n == |turns| && AsOffered(offers, turns)
        invariant matchesAllocated == old(matchesAllocated) + Allocated(turns)
        decreases |queue.State().PendingIds(mode)|
      {
        ghost var turn;
        var more;
        AccountIsGood(matcher, now, mode, w, turns);
        failed, more, turn := Round(mode, now, offers(n));
        if !more {
          break;
        }
        NextTurn(matcher, now, mode, w, turns, turn);
        RoomsAppended(turns, turn);
        OffersAppended(offers, turns, turn);
        ConcatAssociates(l, AllDeeds(turns), turn.Deeds());
        turns := turns + [turn];
        n := n + 1;
        if failed {
          break;
        }
      }
      AccountEnds(matcher, now, mode, w, turns);
    }
  }

  lemma AllSeatedIff(group: seq<Ticket>, room: Room, answers: seq<Answer>)
    ensures var all := OutcomesFor(Some(room), answers);
            Turn(group, Some(room), answers).AllSeated() <==> forall i :: 0 <= i < |all| ==> all[i].Seated?
  {
    var all := OutcomesFor(Some(room), answers);
    forall i | 0 <= i < |answers|
      ensures all[i].Seated? <==> answers[i].token.Some? && answers[i].stored.Stored?
    {
      assert all[i] == OutcomeFor(Some(room), answers[i]);
    }
  }

  lemma OffersAppended(offers: nat -> Offer, turns: seq<Turn>, turn: Turn)
    requires AsOffered(offers, turns)
    requires turn.room == offers(|turns|).room && turn.answers == offers(|turns|).answers
    ensures AsOffered(offers, turns + [turn])
  {}

  ghost predicate AllRoomed(turns: seq<Turn>) { forall i :: 0 <= i < |turns| ==> turns[i].room.Some? }

  lemma RoomsAppended(turns: seq<Turn>, turn: Turn)
    requires AllRoomed(turns)
    ensures OnlyLastRoomless(turns + [turn]) && (turn.room.Some? ==> AllRoomed(turns + [turn]))
  {}

  lemma AccountOpens(m: Matcher, now: Time, mode: string, w: World)
    requires GoodTickets(w.queue)
    ensures Account(m, now, mode, w, []) && Replay(w, AllDeeds([])) == w
  {
    assert AllDeeds([]) == [] && Replay(w, []) == w;
  }

  lemma SettleNext(w: World, log: seq<Deed>, group: seq<Ticket>, all: seq<Outcome>, n: nat)
    requires n < |all| <= |group|
    ensures Seats(all[..n + 1]) == Seats(all[..n]) + if all[n].Seated? then 1 else 0
    ensures var done, next := SettleDeeds(group, all[..n]), DeedsOf(group[n], all[n]);
            && log + SettleDeeds(group, all[..n + 1]) == log + done + next
            && Replay(w, SettleDeeds(group, all[..n + 1])) == Replay(Replay(w, done), next)
  {
    assert all[..n + 1][..n] == all[..n];
    ReplayConcat(w, SettleDeeds(group, all[..n]), DeedsOf(group[n], all[n]));
    ConcatAssociates(log, SettleDeeds(group, all[..n]), DeedsOf(group[n], all[n]));
  }

  lemma ChosenAppended(m: Matcher, now: Time, mode: string, w: World, turns: seq<Turn>, turn: Turn)
    requires TurnsOk(turns) && turn.Ok() && AllChosen(m, now, mode, w, turns)
    requires Chosen(m, now, mode, Replay(w, AllDeeds(turns)).queue, turn.group)
    ensures AllChosen(m, now, mode, w, turns + [turn])
  {
    assert (turns + [turn])[..|turns|] == turns;
  }

  lemma ConcludedAppended(q: Queue, turns: seq<Turn>, turn: Turn)
    requires TurnsOk(turns) && turn.Ok() && TurnsConcluded(q, turns) && AllConcluded(q, turn.group, turn.Outcomes())
    ensures TurnsConcluded(q, turns + [turn])
  {}

  /** One round of the loop keeps its account, and takes one group out of the pool. */
  lemma NextTurn(m: Matcher, now: Time, mode: string, w: World, turns: seq<Turn>, turn: Turn)
    requires Account(m, now, mode, w, turns) && turn.Ok() && Inv(Replay(w, AllDeeds(turns)).queue)
    requires Chosen(m, now, mode, Replay(w, AllDeeds(turns)).queue, turn.group)
    ensures Account(m, now, mode, w, turns + [turn])
    ensures AllDeeds(turns + [turn]) == AllDeeds(turns) + turn.Deeds()
    ensures var before := Replay(w, AllDeeds(turns));
            && Replay(w, AllDeeds(turns + [turn])) == Replay(before, turn.Deeds())
            && |Replay(before, turn.Deeds()).queue.PendingIds(mode)|
            == |before.queue.PendingIds(mode)| - m.playersPerMatch
    ensures Allocated(turns + [turn]) == Allocated(turns) + if turn.AllSeated() then 1 else 0
  {
    var before := Replay(w, AllDeeds(turns));
    TurnAppended(w, turns, turn);
    TurnShrinks(m, now, mode, before, turn);
    var q := Replay(before, turn.Deeds()).queue;
    EvolvedTransitive(w.queue, before.queue, q, mode);
    ConcludedStay(before.queue, q, mode, turns);
    ConcludedAppended(q, turns, turn);
    OneMore(|turns|, m.playersPerMatch);
    ChosenAppended(m, now, mode, w, turns, turn);
  }
}
