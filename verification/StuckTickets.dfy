/** Tickets of the shared queue that are over and yet pending: how they come about, and exactly when. */
module StuckTickets {
  import opened Base
  import opened Tickets
  import QueueModel
  import opened ValkeyQueue

  ghost predicate BeingRemoved(s: Store, id: UUID) {
    exists p :: p in s.calls && s.calls[p].Removing? && s.calls[p].ticket.id == id
  }

  /** A terminal event was recorded for the ticket, it can still be claimed, and no call is about to remove it. */
  ghost predicate Stuck(s: Store, id: UUID) { id in s.recorded && IsPending(s, id) && !BeingRemoved(s, id) }

  /** The ticket's enqueue is on its way to the ZADD. */
  ghost predicate EnqueueUnderWay(s: Store, id: UUID) {
    exists p :: p in s.calls && s.calls[p].IsEnqueue() && s.calls[p].ticket.id == id
  }

  /** A call stops after recording a terminal event and before removing the ticket. */
  predicate StopsHalfway(s: Store, a: Act) { a.GiveUp? && CallOf(s, a.p).Removing? }

  // ---- at every point of every run ----

  /** No call stops halfway, unless stops allows it. */
  ghost predicate Continues(s: Store, stops: bool, acts: seq<Act>) {
    acts == [] ||
    var init := acts[..|acts| - 1];
    Continues(s, stops, init) && (stops || !StopsHalfway(Exec(s, init), acts[|acts| - 1]))
  }

  ghost predicate CanGetStuck(s: Store, stops: bool, id: UUID) {
    exists acts :: Continues(s, stops, acts) && Stuck(Exec(s, acts), id)
  }

  /** A state that can be reached from s. */
  ghost predicate Reaches(s: Store, stops: bool, to: Store) {
    exists acts :: Continues(s, stops, acts) && Exec(s, acts) == to
  }

  lemma Stay(s: Store, stops: bool)
    ensures Reaches(s, stops, s)
  {
    assert Continues(s, stops, []) && Exec(s, []) == s;
  }

  lemma Go(s: Store, stops: bool, from: Store, a: Act) returns (to: Store)
    requires Reaches(s, stops, from) && (stops || !StopsHalfway(from, a))
    ensures to == Do(from, a) && Reaches(s, stops, to)
  {
    var acts :| Continues(s, stops, acts) && Exec(s, acts) == from;
    to := Do(from, a);
    ExecNext(s, acts, a);
    assert (acts + [a])[..|acts|] == acts;
    assert Continues(s, stops, acts + [a]) && Exec(s, acts + [a]) == to;
  }

  lemma Arrived(s: Store, stops: bool, to: Store, id: UUID)
    requires Reaches(s, stops, to) && Stuck(to, id)
    ensures CanGetStuck(s, stops, id)
  {}

  /** A process that is not in a call. */
  lemma FreshProcess(calls: map<nat, Call>) returns (p: nat)
    ensures p !in calls
  {
    p := FreshAbove(calls.Keys);
    assert p !in calls.Keys;
  }

  lemma {:induction false} FreshAbove(ps: set<nat>) returns (p: nat)
    ensures forall q :: q in ps ==> q < p
  {
    if ps == {} {
      p := 0;
    } else {
      var q :| q in ps;
      var rest := ps - {q};
      var above := FreshAbove(rest);
      p := Max(above, q + 1);
      assert forall r :: r in ps ==> r == q || r in rest;
    }
  }

  ghost function Removers(s: Store, id: UUID): set<nat> {
    set p | p in s.calls && s.calls[p].Removing? && s.calls[p].ticket.id == id
  }

  /** What clearing the removers of a ticket leaves alone. */
  ghost predicate Alike(from: Store, to: Store, id: UUID) {
    && from.recorded == to.recorded && from.tickets == to.tickets
    && forall p :: !(CallOf(from, p).Removing? && CallOf(from, p).ticket.id == id) ==> CallOf(to, p) == CallOf(from, p)
  }

  lemma ClearOne(from: Store, p: nat, give: bool, id: UUID)
    requires p in Removers(from, id)
    ensures var to := Do(from, if give then GiveUp(p) else Advance(p));
            && Removers(to, id) == Removers(from, id) - {p} && Alike(from, to, id)
            && (give ==> to.pending == from.pending)
  {
    var to := Do(from, if give then GiveUp(p) else Advance(p));
    assert to.calls == from.calls[p := CallOf(to, p)] && !CallOf(to, p).Removing?;
    assert CallOf(from, p) == from.calls[p];
  }

  /** Every call about to remove the ticket does so, or stops. */
  lemma {:induction false} ClearRemovers(s: Store, stops: bool, from: Store, give: bool, id: UUID) returns (to: Store)
    requires Reaches(s, stops, from) && (give ==> stops)
    ensures Reaches(s, stops, to) && !BeingRemoved(to, id) && Alike(from, to, id)
    ensures give ==> to.pending == from.pending
    decreases |Removers(from, id)|
  {
    if Removers(from, id) == {} {
      to := from;
      assert forall p :: p in to.calls && to.calls[p].Removing? && to.calls[p].ticket.id == id ==>
                           p in Removers(to, id);
    } else {
      var p :| p in Removers(from, id);
      ClearOne(from, p, give, id);
      var next := Go(s, stops, from, if give then GiveUp(p) else Advance(p));
      to := ClearRemovers(s, stops, next, give, id);
      forall q | !(CallOf(from, q).Removing? && CallOf(from, q).ticket.id == id)
        ensures CallOf(to, q) == CallOf(from, q)
      {
        assert CallOf(next, q) == CallOf(from, q);
      }
    }
  }

  /** A failure is recorded by a fresh process, which then stands at the removal. */
  lemma RecordFailure(s: Store, stops: bool, from: Store, id: UUID) returns (to: Store)
    requires Reaches(s, stops, from) && AddsOnce(from) && id in from.tickets
    ensures Reaches(s, stops, to) && id in to.recorded && to.pending == from.pending && to.tickets == from.tickets
    ensures forall p :: CallOf(from, p) != Idle ==> CallOf(to, p) == CallOf(from, p)
  {
    var r := FreshProcess(from.calls);
    var e := QueueModel.Failed("cancelled");
    FailureSteps(from, r, id, e);
    var next := Go(s, stops, from, StartPublish(r, id, e));
    to := Go(s, stops, next, Advance(r));
  }

  lemma FailureSteps(s: Store, r: nat, id: UUID, e: QueueModel.Event)
    requires r !in s.calls && id in s.tickets && s.tickets[id].id == id && e.IsTerminal()
    ensures var next := With(s, r, Recording(s.tickets[id], e));
            && Do(s, StartPublish(r, id, e)) == next
            && Command(next, r) == With(Recorded(next, id, e), r, Removing(s.tickets[id], e))
  {
    assert CallOf(With(s, r, Recording(s.tickets[id], e)), r).Recording?;
  }

  lemma {:induction false} EnqueueFinishes(s: Store, stops: bool, from: Store, p: nat, id: UUID) returns (to: Store)
    requires Reaches(s, stops, from) && CallOf(from, p).IsEnqueue() && CallOf(from, p).ticket.id == id
    requires id in from.recorded && !BeingRemoved(from, id)
    ensures Reaches(s, stops, to) && Stuck(to, id)
    decreases if CallOf(from, p).Counting? then 3 else if CallOf(from, p).Queueing? then 2
              else if CallOf(from, p).Announcing? then 1 else 0
  {
    to := Go(s, stops, from, Advance(p));
    CommandMovesOn(from, p);
    assert CallOf(from, p) == from.calls[p] && CallOf(to, p) == to.calls[p];
    if CallOf(from, p).Adding? {
      assert (CallOf(from, p).ticket.gameMode, id) in to.pending;
    } else {
      to := EnqueueFinishes(s, stops, to, p, id);
    }
  }

  lemma StuckWhileUnderWay(s: Store, stops: bool, from: Store, id: UUID)
    requires Reaches(s, stops, from) && AddsOnce(from) && EnqueueUnderWay(from, id)
    ensures CanGetStuck(s, stops, id)
  {
    var p :| p in from.calls && from.calls[p].IsEnqueue() && from.calls[p].ticket.id == id;
    assert CallOk(from, from.calls[p]);
    var to := RecordFailure(s, stops, from, id);
    assert CallOf(to, p) == CallOf(from, p) == from.calls[p];
    var clear := ClearRemovers(s, stops, to, false, id);
    assert CallOf(clear, p) == CallOf(to, p);
    var last := EnqueueFinishes(s, stops, clear, p, id);
    Arrived(s, stops, last, id);
  }

  lemma StuckFromUnknown(s: Store, stops: bool, id: UUID)
    requires AddsOnce(s) && id !in s.tickets
    ensures CanGetStuck(s, stops, id)
  {
    var p := FreshProcess(s.calls);
    var a := StartEnqueue(p, Ticket(id, 0, "mode", None, None, [], 1));
    DoAddsOnce(s, a);
    Stay(s, stops);
    var next := Go(s, stops, s, a);
    assert next.calls[p].IsEnqueue();
    StuckWhileUnderWay(s, stops, next, id);
  }

  lemma StuckByStopping(s: Store, id: UUID)
    requires AddsOnce(s) && IsPending(s, id)
    ensures CanGetStuck(s, true, id)
  {
    var mode :| (mode, id) in s.pending;
    assert (mode, id).1 in s.added;
    Stay(s, true);
    var to := RecordFailure(s, true, s, id);
    to := ClearRemovers(s, true, to, true, id);
    assert (mode, id) in to.pending;
    Arrived(s, true, to, id);
  }

  lemma NoneUnderWay(s: Store, a: Act, id: UUID)
    requires id in s.tickets && !EnqueueUnderWay(s, id)
    ensures id in Do(s, a).tickets && !EnqueueUnderWay(Do(s, a), id) && !Adds(s, a, id)
    ensures !IsPending(s, id) ==> !IsPending(Do(s, a), id)
  {
    if a.Advance? {
      CommandMovesOn(s, a.p);
      assert CallOf(s, a.p).IsEnqueue() ==> a.p in s.calls;
    }
    if !IsPending(s, id) {
      OnlyAddingMakesPending(s, a, id);
    }
  }

  /** A remover stays one until it removes, or stops halfway. */
  lemma RemoverRemains(s: Store, a: Act, p: nat)
    requires AddsOnce(s) && p in s.calls && s.calls[p].Removing? && !StopsHalfway(s, a)
    ensures !IsPending(Do(s, a), s.calls[p].ticket.id) || (p in Do(s, a).calls && Do(s, a).calls[p] == s.calls[p])
  {
    assert CallOk(s, s.calls[p]) && CallOf(s, p) == s.calls[p];
    if a == Advance(p) {
      RemovalEmpties(s, p);
    } else if a.Advance? {
      CommandMovesOnlyItsCall(s, a.p);
    }
  }

  /** Unless a call stops halfway, only its own ZADD can make a ticket stuck. */
  lemma OnlyAddingMakesStuck(s: Store, a: Act, id: UUID)
    requires AddsOnce(s) && !Stuck(s, id) && !StopsHalfway(s, a) && !Adds(s, a, id)
    ensures !Stuck(Do(s, a), id)
  {
    var s' := Do(s, a);
    if !IsPending(s, id) {
      OnlyAddingMakesPending(s, a, id);
    } else if id !in s.recorded {
      if id in s'.recorded {
        RecordingLeadsOn(s, a, id);
      }
    } else {
      var p :| p in s.calls && s.calls[p].Removing? && s.calls[p].ticket.id == id;
      RemoverRemains(s, a, p);
    }
  }

  lemma RecordingLeadsOn(s: Store, a: Act, id: UUID)
    requires id !in s.recorded && id in Do(s, a).recorded
    ensures BeingRemoved(Do(s, a), id)
  {
    assert Do(s, a).calls[a.p].Removing? && Do(s, a).calls[a.p].ticket.id == id;
  }

  /** A known ticket whose enqueue is over stays as it is: not stuck, or for good not pending. */
  lemma {:induction false} SettledStaysRight(s: Store, stops: bool, acts: seq<Act>, id: UUID)
    requires AddsOnce(s) && id in s.tickets && !EnqueueUnderWay(s, id) && Continues(s, stops, acts)
    requires if stops then !IsPending(s, id) else !Stuck(s, id)
    ensures var s' := Exec(s, acts);
            && AddsOnce(s') && id in s'.tickets && !EnqueueUnderWay(s', id)
            && if stops then !IsPending(s', id) else !Stuck(s', id)
  {
    if acts != [] {
      var init, a := acts[..|acts| - 1], acts[|acts| - 1];
      SettledStaysRight(s, stops, init, id);
      var before := Exec(s, init);
      DoAddsOnce(before, a);
      NoneUnderWay(before, a, id);
      if !stops {
        OnlyAddingMakesStuck(before, a, id);
      }
    }
  }

  /**
   * Wherever a run stands with the ticket not stuck: it can still get stuck exactly when its enqueue has not begun,
   * or has not reached its ZADD, or, if calls may stop halfway, when it is pending.
   */
  lemma CanGetStuckIff(before: seq<Act>, stops: bool, id: UUID)
    requires !Stuck(Exec(EMPTY_STORE, before), id)
    ensures var s := Exec(EMPTY_STORE, before);
            CanGetStuck(s, stops, id) <==>
            id !in s.tickets || EnqueueUnderWay(s, id) || (stops && IsPending(s, id))
  {
    var s := Exec(EMPTY_STORE, before);
    EveryRunClaimsOnce(before);
    Stay(s, stops);
    if id !in s.tickets {
      StuckFromUnknown(s, stops, id);
    } else if EnqueueUnderWay(s, id) {
      StuckWhileUnderWay(s, stops, s, id);
    } else if stops && IsPending(s, id) {
      StuckByStopping(s, id);
    } else {
      forall acts | Continues(s, stops, acts) ensures !Stuck(Exec(s, acts), id) {
        SettledStaysRight(s, stops, acts, id);
      }
    }
  }

  // ---- which mishaps matter ----

  datatype Mishap = EndedEarly | StoppedHalfway | StoppedElsewhere

  /** Ending a ticket that no enqueue has added yet; and stopping, halfway through an ending or elsewhere. */
  function MishapOf(s: Store, a: Act): Option<Mishap> {
    match a
    case StartPublish(_, id, e) =>
      if e.IsTerminal() && id in s.tickets && id !in s.added then Some(EndedEarly) else None
    case StartCancel(_, id) => if id in s.tickets && id !in s.added then Some(EndedEarly) else None
    case GiveUp(p) =>
      if CallOf(s, p) == Idle then None else Some(if CallOf(s, p).Removing? then StoppedHalfway else StoppedElsewhere)
    case _ => None
  }

  ghost predicate Allowed(kinds: set<Mishap>, s: Store, a: Act) {
    MishapOf(s, a).Some? ==> MishapOf(s, a).value in kinds
  }

  /** Only mishaps of these kinds happen in the run. */
  ghost predicate Only(kinds: set<Mishap>, acts: seq<Act>) {
    acts == [] ||
    var init := acts[..|acts| - 1];
    Only(kinds, init) && Allowed(kinds, Exec(EMPTY_STORE, init), acts[|acts| - 1])
  }

  ghost predicate NeverStuckUnder(kinds: set<Mishap>) {
    forall acts, id :: Only(kinds, acts) ==> !Stuck(Exec(EMPTY_STORE, acts), id)
  }

  /** The call will record a terminal event, or has done so and will remove the ticket. */
  predicate Ends(c: Call) { c.Cancelling? || c.Removing? || (c.Recording? && c.event.IsTerminal()) }

  ghost predicate EndersKnown(s: Store) {
    forall p :: p in s.calls && Ends(s.calls[p]) ==> s.calls[p].ticket.id in s.added
  }

  lemma EndersStayKnown(s: Store, a: Act)
    requires AddsOnce(s) && EndersKnown(s) && MishapOf(s, a) != Some(EndedEarly)
    ensures EndersKnown(Do(s, a))
  {
    var s' := Do(s, a);
    assert s.added <= s'.added;
    if a.Advance? {
      CommandMovesOn(s, a.p);
      assert Ends(CallOf(s', a.p)) ==> Ends(CallOf(s, a.p));
      assert CallOf(s, a.p) != Idle ==> a.p in s.calls;
    }
  }

  /** While nothing goes wrong, whatever has a terminal event recorded was added, and is not stuck. */
  ghost predicate Clean(s: Store) {
    AddsOnce(s) && EndersKnown(s) && s.recorded <= s.added && forall id :: !Stuck(s, id)
  }

  lemma RecordedStaysAdded(s: Store, a: Act)
    requires Clean(s)
    ensures Do(s, a).recorded <= Do(s, a).added
  {
    assert s.added <= Do(s, a).added;
    if a.Advance? && CallOf(s, a.p).Recording? {
      assert a.p in s.calls && CallOf(s, a.p) == s.calls[a.p];
    }
  }

  lemma StepKeepsClean(s: Store, a: Act)
    requires Clean(s) && MishapOf(s, a) != Some(EndedEarly) && MishapOf(s, a) != Some(StoppedHalfway)
    ensures Clean(Do(s, a))
  {
    DoAddsOnce(s, a);
    EndersStayKnown(s, a);
    RecordedStaysAdded(s, a);
    forall id ensures !Stuck(Do(s, a), id) {
      if Adds(s, a, id) {
        assert CallOk(s, s.calls[a.p]) && CallOf(s, a.p) == s.calls[a.p];
      } else {
        OnlyAddingMakesStuck(s, a, id);
      }
    }
  }

  lemma {:induction false} RunStaysClean(kinds: set<Mishap>, acts: seq<Act>)
    requires EndedEarly !in kinds && StoppedHalfway !in kinds && Only(kinds, acts)
    ensures Clean(Exec(EMPTY_STORE, acts))
  {
    if acts != [] {
      RunStaysClean(kinds, acts[..|acts| - 1]);
      StepKeepsClean(Exec(EMPTY_STORE, acts[..|acts| - 1]), acts[|acts| - 1]);
    }
  }

  lemma Then(kinds: set<Mishap>, s: Store, acts: seq<Act>, a: Act) returns (s': Store, acts': seq<Act>)
    requires s == Exec(EMPTY_STORE, acts) && Only(kinds, acts) && Allowed(kinds, s, a)
    ensures acts' == acts + [a] && s' == Do(s, a) && s' == Exec(EMPTY_STORE, acts') && Only(kinds, acts')
  {
    acts' := acts + [a];
    s' := Do(s, a);
    assert acts'[..|acts|] == acts;
  }

  /** The commands of an enqueue from its SETNX to its ZADD. */
  lemma Enqueued(kinds: set<Mishap>, before: Store, sofar: seq<Act>, t: Ticket) returns (s: Store, acts: seq<Act>)
    requires before == Exec(EMPTY_STORE, sofar) && Only(kinds, sofar) && CallOf(before, 0) == Counting(t)
    ensures s == Exec(EMPTY_STORE, acts) && Only(kinds, acts)
    ensures CallOf(s, 0) == Idle && CallOf(s, 1) == CallOf(before, 1) && s.tickets == before.tickets
    ensures s.pending == before.pending + {(t.gameMode, t.id)} && t.id in s.added && s.recorded == before.recorded
    ensures s.claims == before.claims
    ensures t.id in s.latest && !s.latest[t.id].IsTerminal()
    ensures forall p :: p in s.calls && p != 0 ==> p in before.calls && s.calls[p] == before.calls[p]
  {
    QueueSteps(before, t);
    s, acts := Then(kinds, before, sofar, Advance(0));
    s, acts := Then(kinds, s, acts, Advance(0));
    AddSteps(s, t, QueuedEvent(before, t));
    s, acts := Then(kinds, s, acts, Advance(0));
    s, acts := Then(kinds, s, acts, Advance(0));
  }

  function QueuedEvent(s: Store, t: Ticket): QueueModel.Event {
    QueueModel.Queued(t.enqueuedAt, Depth(s, t.gameMode))
  }

  lemma QueueSteps(s: Store, t: Ticket)
    requires CallOf(s, 0) == Counting(t)
    ensures var e := QueuedEvent(s, t);
            && Command(s, 0) == With(s, 0, Queueing(t, e))
            && Command(With(s, 0, Queueing(t, e)), 0) == With(s.(latest := s.latest[t.id := e]), 0, Announcing(t, e))
  {
    assert CallOf(With(s, 0, Queueing(t, QueuedEvent(s, t))), 0).Queueing?;
  }

  lemma AddSteps(s: Store, t: Ticket, e: QueueModel.Event)
    requires CallOf(s, 0) == Announcing(t, e)
    ensures var added := With(s.(streams := Append(s, t.id, e)), 0, Adding(t));
            && Command(s, 0) == added
            && Command(added, 0)
            == With(added.(pending := s.pending + {(t.gameMode, t.id)}, added := s.added + {t.id}), 0, Idle)
  {
    assert CallOf(With(s.(streams := Append(s, t.id, e)), 0, Adding(t)), 0) == Adding(t);
  }

  /** A cancel, from its start to the removal it stands before. */
  lemma CancelRecorded(kinds: set<Mishap>, before: Store, sofar: seq<Act>, t: Ticket) returns (s: Store, acts: seq<Act>)
    requires before == Exec(EMPTY_STORE, sofar) && Only(kinds, sofar) && CallOf(before, 1) == Idle
    requires t.id in before.tickets && before.tickets[t.id] == t && (t.id !in before.added ==> EndedEarly in kinds)
    requires t.id !in before.latest || !before.latest[t.id].IsTerminal()
    ensures s == Exec(EMPTY_STORE, acts) && Only(kinds, acts)
    ensures var e := QueueModel.Failed("cancelled"); s == With(Recorded(before, t.id, e), 1, Removing(t, e))
  {
    CancelSteps(before, t);
    s, acts := Then(kinds, before, sofar, StartCancel(1, t.id));
    s, acts := Then(kinds, s, acts, Advance(1));
    s, acts := Then(kinds, s, acts, Advance(1));
  }

  lemma CancelSteps(s: Store, t: Ticket)
    requires CallOf(s, 1) == Idle && t.id in s.tickets && s.tickets[t.id] == t
    requires t.id !in s.latest || !s.latest[t.id].IsTerminal()
    ensures var e := QueueModel.Failed("cancelled");
            && Do(s, StartCancel(1, t.id)) == With(s, 1, Cancelling(t))
            && Command(With(s, 1, Cancelling(t)), 1) == With(s, 1, Recording(t, e))
            && Command(With(s, 1, Recording(t, e)), 1) == With(Recorded(s, t.id, e), 1, Removing(t, e))
  {
    assert CallOf(With(s, 1, Cancelling(t)), 1) == Cancelling(t);
    assert CallOf(With(s, 1, Recording(t, QueueModel.Failed("cancelled"))), 1).Recording?;
  }

  lemma FirstEnqueue(kinds: set<Mishap>, t: Ticket) returns (s: Store, acts: seq<Act>)
    ensures s == Exec(EMPTY_STORE, acts) && Only(kinds, acts)
    ensures s == EMPTY_STORE.(tickets := map[t.id := t], calls := map[0 := Counting(t)])
  {
    s, acts := Then(kinds, EMPTY_STORE, [], StartEnqueue(0, t));
  }

  /** A cancel that overtakes the ticket's own enqueue leaves a cancelled ticket pending and claimable. */
  lemma CancelCanOvertakeEnqueue(kinds: set<Mishap>, t: Ticket) returns (s: Store, acts: seq<Act>)
    requires EndedEarly in kinds
    ensures s == Exec(EMPTY_STORE, acts) && Only(kinds, acts)
    ensures Stuck(s, t.id) && AllPending(s, t.gameMode, [t.id])
  {
    s, acts := CancelledFirst(kinds, t);
    s, acts := Enqueued(kinds, s, acts, t);
    assert (t.gameMode, t.id) in s.pending;
    assert forall p :: p in s.calls && p != 0 ==> s.calls[p].Appending?;
  }

  lemma CancelledFirst(kinds: set<Mishap>, t: Ticket) returns (s: Store, acts: seq<Act>)
    requires EndedEarly in kinds
    ensures s == Exec(EMPTY_STORE, acts) && Only(kinds, acts) && t.id in s.recorded && CallOf(s, 0) == Counting(t)
    ensures forall p :: p in s.calls && p != 0 ==> s.calls[p].Appending?
  {
    s, acts := FirstEnqueue(kinds, t);
    s, acts := CancelRecorded(kinds, s, acts, t);
    RemovalStep(s, 1);
    s, acts := Then(kinds, s, acts, Advance(1));
  }

  lemma RemovalStep(s: Store, p: nat)
    requires CallOf(s, p).Removing?
    ensures var c := CallOf(s, p);
            Command(s, p) == With(s.(pending := s.pending - {(c.ticket.gameMode, c.ticket.id)}), p,
                                  Appending(c.ticket, c.event))
  {}

  /** A cancel that stops between its SET and its ZREM does too, though the enqueue was long over. */
  lemma StoppedCancelLeavesTicket(kinds: set<Mishap>, t: Ticket) returns (s: Store, acts: seq<Act>)
    requires StoppedHalfway in kinds
    ensures s == Exec(EMPTY_STORE, acts) && Only(kinds, acts)
    ensures Stuck(s, t.id) && AllPending(s, t.gameMode, [t.id]) && Unhealed(s, t.id)
  {
    s, acts := FirstEnqueue(kinds, t);
    s, acts := Enqueued(kinds, s, acts, t);
    assert s.tickets[t.id] == t;
    s, acts := CancelRecorded(kinds, s, acts, t);
    s, acts := Then(kinds, s, acts, GiveUp(1));
    assert (t.gameMode, t.id) in s.pending;
    assert forall p :: p in s.calls ==> s.calls[p] == Idle;
  }

  /** Even when nothing goes wrong, a claim can come between a cancel's SET and its ZREM and take the ticket. */
  lemma ClaimedWhileCancelling(kinds: set<Mishap>, t: Ticket) returns (s: Store, acts: seq<Act>)
    ensures s == Exec(EMPTY_STORE, acts) && Only(kinds, acts)
    ensures t.id in s.recorded && t.id in s.latest && s.latest[t.id] == QueueModel.Failed("cancelled")
    ensures s.claims == [[t.id]]
  {
    s, acts := FirstEnqueue(kinds, t);
    s, acts := Enqueued(kinds, s, acts, t);
    s, acts := CancelRecorded(kinds, s, acts, t);
    assert (t.gameMode, t.id) in s.pending && s.claims == [];
    s, acts := Then(kinds, s, acts, ClaimScript(t.gameMode, [t.id]));
  }

  /** Stuck, recorded as over, with no call for the ticket that could end it: at most further cancels. */
  ghost predicate Unhealed(s: Store, id: UUID) {
    && Stuck(s, id) && id in s.tickets && s.tickets[id].id == id && id in s.latest && s.latest[id].IsTerminal()
    && forall p :: p in s.calls && s.calls[p] != Idle && s.calls[p].ticket.id == id ==> s.calls[p].Cancelling?
  }

  /** Neither a publish for the ticket nor a claim that names it. */
  predicate LeavesAlone(a: Act, id: UUID) {
    (a.StartPublish? ==> a.id != id) && (a.ClaimScript? ==> id !in a.ids)
  }

  /** A command of another ticket's call, or of a cancel that finds the ticket over. */
  ghost predicate Spares(s: Store, p: nat, id: UUID) {
    var c := CallOf(s, p);
    c == Idle || c.ticket.id != id || (c.Cancelling? && id in s.latest && s.latest[id].IsTerminal())
  }

  lemma SparedData(s: Store, p: nat, id: UUID)
    requires Spares(s, p, id)
    ensures var s' := Command(s, p);
            && s'.tickets == s.tickets && (id in s'.recorded <==> id in s.recorded)
            && (id in s'.latest <==> id in s.latest) && (id in s.latest ==> s'.latest[id] == s.latest[id])
  {}

  lemma SparedPending(s: Store, p: nat, id: UUID, mode: string)
    requires Spares(s, p, id) && (mode, id) in s.pending
    ensures (mode, id) in Command(s, p).pending
  {}

  lemma SparedCall(s: Store, p: nat, id: UUID)
    requires Spares(s, p, id)
    ensures CallOf(Command(s, p), p) != Idle ==> CallOf(Command(s, p), p).ticket.id != id
  {}

  lemma CommandOfOther(s: Store, p: nat, id: UUID)
    requires Unhealed(s, id)
    ensures Unhealed(Command(s, p), id)
  {
    assert p in s.calls ==> CallOf(s, p) == s.calls[p];
    SparedData(s, p, id);
    SparedCall(s, p, id);
    CommandMovesOnlyItsCall(s, p);
    var mode :| (mode, id) in s.pending;
    SparedPending(s, p, id, mode);
  }

  lemma CancelDoesNotHeal(s: Store, a: Act, id: UUID)
    requires AddsOnce(s) && Unhealed(s, id) && LeavesAlone(a, id)
    ensures Unhealed(Do(s, a), id)
  {
    if a.Advance? {
      CommandOfOther(s, a.p, id);
    } else {
      var mode :| (mode, id) in s.pending;
      assert (mode, id) in Do(s, a).pending;
    }
  }

  /** However often the cancel is retried, and whatever else happens: until a publish or a claim, it stays stuck. */
  lemma {:induction false} StaysStuck(s: Store, acts: seq<Act>, id: UUID)
    requires AddsOnce(s) && Unhealed(s, id) && forall i :: 0 <= i < |acts| ==> LeavesAlone(acts[i], id)
    ensures AddsOnce(Exec(s, acts)) && Unhealed(Exec(s, acts), id)
  {
    if acts != [] {
      StaysStuck(s, acts[..|acts| - 1], id);
      DoAddsOnce(Exec(s, acts[..|acts| - 1]), acts[|acts| - 1]);
      CancelDoesNotHeal(Exec(s, acts[..|acts| - 1]), acts[|acts| - 1], id);
    }
  }

  /**
   * No ticket is ever left over and pending, whatever else goes wrong, if and only if nobody ends a ticket before
   * its ZADD and no ending stops between its SET and its ZREM.
   */
  lemma NeverStuckUnderIff(kinds: set<Mishap>)
    ensures NeverStuckUnder(kinds) <==> EndedEarly !in kinds && StoppedHalfway !in kinds
  {
    var t := Ticket(1, 1, "mode", None, None, [], 1);
    if EndedEarly in kinds {
      var s, acts := CancelCanOvertakeEnqueue(kinds, t);
    } else if StoppedHalfway in kinds {
      var s, acts := StoppedCancelLeavesTicket(kinds, t);
    } else {
      forall acts, id | Only(kinds, acts) ensures !Stuck(Exec(EMPTY_STORE, acts), id) {
        RunStaysClean(kinds, acts);
      }
    }
  }
}
