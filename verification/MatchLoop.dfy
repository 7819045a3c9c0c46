/** One match: its sessions, its bounded buffers, and the calls its plugin sees. */
module MatchLoop {
  import opened Base

  datatype Action = Action(player: UUID, clientTick: nat, payload: seq<nat>)
  datatype Notice = Joined(player: UUID) | Left(player: UUID, reason: string)
  type Session = nat

  /** OnTick failed, or answered whether the game has ended. */
  datatype Reply = Failure | Ok(ended: bool)

  datatype PluginCall =
    | OnTick(tick: nat, actions: seq<Action>, notices: seq<Notice>, reply: Reply)
    | OnGameEnd(finalTick: nat)
    | Close

  const INPUTS := 256
  const EVENTS := 32
  const TICK_WRAP: nat := 0x1_0000_0000

  /** Where Run stands. */
  datatype Phase =
    | Waiting
    | TakingInputs(actions: seq<Action>)
    | TakingEvents(actions: seq<Action>, notices: seq<Notice>)
    | Finalising
    | ClosingPlayers
    | ClosingPlugin
    | Done

  /**
   * The match, with its history: the calls made on the plugin, how many ticks there were, the inputs a buffer
   * accepted, the sessions that ever asked to join, those refused and those that came after the room was emptied
   * for good, those a Leave has removed but not yet closed, and every Close.
   */
  datatype State = State(
    players: map<UUID, Session>,
    currentTick: nat,
    inputs: seq<Action>,
    events: seq<Notice>,
    phase: Phase,
    calls: seq<PluginCall>,
    ticks: nat,
    accepted: seq<Action>,
    joined: set<Session>,
    refused: set<Session>,
    late: set<Session>,
    leaving: set<Session>,
    closed: multiset<Session>
  )

  const FRESH := State(map[], 0, [], [], Waiting, [], 0, [], {}, {}, {}, {}, multiset{})

  datatype Act =
    | Join(player: UUID, session: Session)
    | Leave(player: UUID)
    | CloseLeft(session: Session)
    | Post(notice: Notice)
    | Submit(action: Action)
    | Cancel
    | StartTick
    | TakeInput
    | InputsTaken
    | TakeEvent
    | CallOnTick(reply: Reply)
    | CallOnGameEnd
    | CloseAll
    | ClosePlugin

  /** A session joins once; the loop's own acts follow its phases. */
  predicate Enabled(s: State, a: Act) {
    match a
    case Join(_, session) => session !in s.joined
    case Leave(_) => true
    case CloseLeft(session) => session in s.leaving
    case Post(_) => true
    case Submit(_) => true
    case Cancel => s.phase.Waiting?
    case StartTick => s.phase.Waiting?
    case TakeInput => s.phase.TakingInputs? && s.inputs != []
    case InputsTaken => s.phase.TakingInputs? && s.inputs == []
    case TakeEvent => s.phase.TakingEvents? && s.events != []
    case CallOnTick(_) => s.phase.TakingEvents? && s.events == []
    case CallOnGameEnd => s.phase.Finalising?
    case CloseAll => s.phase.ClosingPlayers?
    case ClosePlugin => s.phase.ClosingPlugin?
  }

  function Submitted(s: State, a: Action): State {
    if |s.inputs| < INPUTS then s.(inputs := s.inputs + [a], accepted := s.accepted + [a]) else s
  }

  function Posted(s: State, e: Notice): State {
    if |s.events| < EVENTS then s.(events := s.events + [e]) else s
  }

  function Ticked(s: State, actions: seq<Action>, notices: seq<Notice>, reply: Reply): State {
    var called := s.(calls := s.calls + [OnTick(s.currentTick, actions, notices, reply)], ticks := s.ticks + 1);
    if reply.Failure? then called.(phase := ClosingPlayers)
    else called.(currentTick := (s.currentTick + 1) % TICK_WRAP, phase := if reply.ended then Finalising else Waiting)
  }

  function AllClosed(s: State): State {
    s.(players := map[], closed := s.closed + multiset(s.players.Values), phase := ClosingPlugin)
  }

  function Admitted(s: State, p: UUID, x: Session): State {
    s.(players := s.players[p := x], joined := s.joined + {x},
       late := if PastClosing(s.phase) then s.late + {x} else s.late)
  }

  /** Run has closed the players and will not look at them again. */
  predicate PastClosing(phase: Phase) { phase.ClosingPlugin? || phase.Done? }

  function Do(s: State, a: Act): State
    requires Enabled(s, a)
  {
    match a
    case Join(p, session) =>
      if p in s.players then s.(joined := s.joined + {session}, refused := s.refused + {session})
      else Admitted(s, p, session)
    case Leave(p) =>
      if p in s.players then s.(players := s.players - {p}, leaving := s.leaving + {s.players[p]}) else s
    case CloseLeft(session) => s.(leaving := s.leaving - {session}, closed := s.closed + multiset{session})
    case Post(e) => Posted(s, e)
    case Submit(x) => Submitted(s, x)
    case Cancel => s.(phase := ClosingPlayers)
    case StartTick => s.(phase := TakingInputs([]))
    case TakeInput => s.(inputs := s.inputs[1..], phase := TakingInputs(s.phase.actions + [s.inputs[0]]))
    case InputsTaken => s.(phase := TakingEvents(s.phase.actions, []))
    case TakeEvent =>
      s.(events := s.events[1..], phase := TakingEvents(s.phase.actions, s.phase.notices + [s.events[0]]))
    case CallOnTick(reply) => Ticked(s, s.phase.actions, s.phase.notices, reply)
    case CallOnGameEnd => s.(calls := s.calls + [OnGameEnd(s.currentTick)], phase := ClosingPlayers)
    case CloseAll => AllClosed(s)
    case ClosePlugin => s.(calls := s.calls + [Close], phase := Done)
  }

  ghost function Exec(s: State, acts: seq<Act>): Option<State> {
    if acts == [] then Some(s)
    else
      var before := Exec(s, acts[..|acts| - 1]);
      var a := acts[|acts| - 1];
      if before.Some? && Enabled(before.value, a) then Some(Do(before.value, a)) else None
  }

  // ---- the plugin's view ----

  /** The i-th call of the first n is tick i, and all but the last of them answered that the game goes on. */
  ghost predicate TicksInOrder(calls: seq<PluginCall>, n: nat) {
    && n <= |calls|
    && (forall i :: 0 <= i < n ==> calls[i].OnTick? && calls[i].tick == i % TICK_WRAP)
    && (forall i :: 0 <= i < n - 1 ==> calls[i].reply == Ok(false))
  }

  ghost predicate LastReply(calls: seq<PluginCall>, n: nat, reply: Reply) {
    0 < n <= |calls| && calls[n - 1].OnTick? && calls[n - 1].reply == reply
  }

  /** What may follow the ticks: nothing, or OnGameEnd after an answer that the game ended; then Close. */
  ghost predicate CallsOk(s: State) {
    TicksInOrder(s.calls, s.ticks) && Shape(s.calls, s.ticks, s.currentTick, s.phase)
  }

  ghost predicate Shape(calls: seq<PluginCall>, ticks: nat, currentTick: nat, phase: Phase) {
    match phase
    case Finalising => LastReply(calls, ticks, Ok(true)) && |calls| == ticks && currentTick == ticks % TICK_WRAP
    case ClosingPlayers => Over(calls, ticks)
    case ClosingPlugin => Over(calls, ticks)
    case Done => calls != [] && calls[|calls| - 1] == Close && Over(calls[..|calls| - 1], ticks)
    case _ => Playing(calls, ticks, currentTick)
  }

  ghost predicate Playing(calls: seq<PluginCall>, ticks: nat, currentTick: nat) {
    && |calls| == ticks && currentTick == ticks % TICK_WRAP
    && (ticks > 0 ==> LastReply(calls, ticks, Ok(false)))
  }

  ghost predicate Over(calls: seq<PluginCall>, ticks: nat) {
    || (|calls| == ticks && !LastReply(calls, ticks, Ok(true)))
    || (|calls| == ticks + 1 && LastReply(calls, ticks, Ok(true)) && calls[ticks] == OnGameEnd(ticks % TICK_WRAP))
  }

  /** The actions of all OnTick calls, in order. */
  function Delivered(calls: seq<PluginCall>): seq<Action> {
    if calls == [] then []
    else
      var last := calls[|calls| - 1];
      Delivered(calls[..|calls| - 1]) + if last.OnTick? then last.actions else []
  }

  function InHand(phase: Phase): seq<Action> {
    if phase.TakingInputs? || phase.TakingEvents? then phase.actions else []
  }

  ghost predicate InputsOk(s: State) {
    && Delivered(s.calls) + InHand(s.phase) + s.inputs == s.accepted
    && |s.inputs| <= INPUTS && |s.events| <= EVENTS
  }

  /** No session is closed twice: the ones still to close are distinct, and not closed yet. */
  ghost predicate SessionsOk(s: State) { Sessions(s.players, s.joined, s.leaving, s.closed) }

  ghost predicate Sessions(players: map<UUID, Session>, joined: set<Session>, leaving: set<Session>,
                           closed: multiset<Session>) {
    && (forall x :: closed[x] <= 1)
    && (forall x :: x in closed || x in leaving ==> x in joined)
    && (forall p :: p in players ==> players[p] in joined && players[p] !in leaving && players[p] !in closed)
    && OneEach(players)
    && (forall x :: x in leaving ==> x !in closed)
  }

  /** No admitted session is forgotten: it is in the room, being closed by its Leave, or closed. */
  ghost predicate Accounted(s: State) {
    forall x :: x in s.joined ==> x in s.refused || x in s.players.Values || x in s.leaving || x in s.closed
  }

  /** Once Run has emptied the room, whoever is in it came later. */
  ghost predicate LateOk(s: State) {
    if PastClosing(s.phase) then s.players.Values <= s.late else s.late == {}
  }

  ghost predicate Inv(s: State) { CallsOk(s) && InputsOk(s) && SessionsOk(s) && Accounted(s) && LateOk(s) }

  lemma TickKeepsCalls(s: State, actions: seq<Action>, notices: seq<Notice>, reply: Reply)
    requires TicksInOrder(s.calls, s.ticks) && Playing(s.calls, s.ticks, s.currentTick)
    ensures CallsOk(Ticked(s, actions, notices, reply))
  {
    var call := OnTick(s.currentTick, actions, notices, reply);
    var calls, n := s.calls + [call], s.ticks + 1;
    assert calls[n - 1] == call;
    assert TicksInOrder(calls, n);
    assert (s.currentTick + 1) % TICK_WRAP == n % TICK_WRAP;
  }

  lemma CallsPreserved(s: State, a: Act)
    requires CallsOk(s) && Enabled(s, a)
    ensures CallsOk(Do(s, a))
  {
    match a
    case CallOnTick(reply) => TickKeepsCalls(s, s.phase.actions, s.phase.notices, reply);
    case CallOnGameEnd =>
      var calls := s.calls + [OnGameEnd(s.currentTick)];
      assert TicksInOrder(calls, s.ticks) && Over(calls, s.ticks);
    case ClosePlugin =>
      var calls := s.calls + [Close];
      assert calls[..|calls| - 1] == s.calls;
      assert TicksInOrder(calls, s.ticks);
    case Cancel =>
    case CloseAll =>
    case StartTick =>
    case _ => CallsUntouched(s, a);
  }

  lemma CallsUntouched(s: State, a: Act)
    requires CallsOk(s) && Enabled(s, a)
    requires || a.Join? || a.Leave? || a.CloseLeft? || a.Post? || a.Submit?
             || a.TakeInput? || a.InputsTaken? || a.TakeEvent?
    ensures CallsOk(Do(s, a))
  {
    var s' := Do(s, a);
    assert s'.calls == s.calls && s'.ticks == s.ticks && s'.currentTick == s.currentTick;
    assert Shape(s'.calls, s'.ticks, s'.currentTick, s'.phase);
  }

  lemma DeliveredOneMore(calls: seq<PluginCall>, call: PluginCall)
    ensures Delivered(calls + [call]) == Delivered(calls) + if call.OnTick? then call.actions else []
  {
    assert (calls + [call])[..|calls|] == calls;
  }

  lemma TakenMoves(seen: seq<Action>, hand: seq<Action>, inputs: seq<Action>)
    requires inputs != []
    ensures seen + (hand + [inputs[0]]) + inputs[1..] == seen + hand + inputs
  {}

  lemma CallKeepsInputs(s: State, call: PluginCall, s': State)
    requires InputsOk(s) && s'.calls == s.calls + [call] && s'.inputs == s.inputs && s'.accepted == s.accepted
    requires s'.events == s.events && InHand(s'.phase) == []
    requires InHand(s.phase) == if call.OnTick? then call.actions else []
    ensures InputsOk(s')
  {
    DeliveredOneMore(s.calls, call);
  }

  lemma InputsUntouched(s: State, a: Act)
    requires InputsOk(s) && Enabled(s, a)
    requires !a.CallOnTick? && !a.CallOnGameEnd? && !a.ClosePlugin? && !a.TakeInput? && !a.Submit?
    ensures InputsOk(Do(s, a))
  {
    var s' := Do(s, a);
    assert s'.calls == s.calls && s'.inputs == s.inputs && s'.accepted == s.accepted;
    assert InHand(s'.phase) == InHand(s.phase) && |s'.events| <= EVENTS;
  }

  lemma TakeKeepsInputs(s: State)
    requires InputsOk(s) && Enabled(s, TakeInput)
    ensures InputsOk(Do(s, TakeInput))
  {
    TakenMoves(Delivered(s.calls), s.phase.actions, s.inputs);
  }

  lemma SubmitKeepsInputs(s: State, x: Action)
    requires InputsOk(s)
    ensures InputsOk(Do(s, Submit(x)))
  {
    var line := Delivered(s.calls) + InHand(s.phase);
    assert line + s.inputs + [x] == line + (s.inputs + [x]);
  }

  lemma InputsPreserved(s: State, a: Act)
    requires InputsOk(s) && Enabled(s, a)
    ensures InputsOk(Do(s, a))
  {
    if a.CallOnTick? {
      CallKeepsInputs(s, OnTick(s.currentTick, s.phase.actions, s.phase.notices, a.reply), Do(s, a));
    } else if a.CallOnGameEnd? {
      CallKeepsInputs(s, OnGameEnd(s.currentTick), Do(s, a));
    } else if a.ClosePlugin? {
      CallKeepsInputs(s, Close, Do(s, a));
    } else if a.TakeInput? {
      TakeKeepsInputs(s);
    } else if a.Submit? {
      SubmitKeepsInputs(s, a.action);
    } else {
      InputsUntouched(s, a);
    }
  }

  lemma SessionsAfterCloseAll(players: map<UUID, Session>, joined: set<Session>, leaving: set<Session>,
                              closed: multiset<Session>)
    requires Sessions(players, joined, leaving, closed)
    ensures Sessions(map[], joined, leaving, closed + multiset(players.Values))
  {
    forall x | x in players.Values ensures x in joined && x !in leaving && x !in closed {
      var p :| p in players && players[p] == x;
    }
  }

  lemma SessionsAfterJoin(players: map<UUID, Session>, joined: set<Session>, leaving: set<Session>,
                          closed: multiset<Session>, p: UUID, x: Session)
    requires Sessions(players, joined, leaving, closed) && p !in players && x !in joined
    ensures Sessions(players[p := x], joined + {x}, leaving, closed)
  {}

  lemma SessionsAfterLeave(players: map<UUID, Session>, joined: set<Session>, leaving: set<Session>,
                           closed: multiset<Session>, p: UUID)
    requires Sessions(players, joined, leaving, closed) && p in players
    ensures Sessions(players - {p}, joined, leaving + {players[p]}, closed)
  {}

  lemma SessionsPreserved(s: State, a: Act)
    requires SessionsOk(s) && Enabled(s, a)
    ensures SessionsOk(Do(s, a))
  {
    match a
    case Join(p, x) =>
      if p !in s.players {
        SessionsAfterJoin(s.players, s.joined, s.leaving, s.closed, p, x);
      }
    case Leave(p) =>
      if p in s.players {
        SessionsAfterLeave(s.players, s.joined, s.leaving, s.closed, p);
      }
    case CloseAll => SessionsAfterCloseAll(s.players, s.joined, s.leaving, s.closed);
    case CloseLeft(x) => SessionsAfterCloseLeft(s.players, s.joined, s.leaving, s.closed, x);
    case _ => SessionsUntouched(s, a);
  }

  lemma SessionsAfterCloseLeft(players: map<UUID, Session>, joined: set<Session>, leaving: set<Session>,
                               closed: multiset<Session>, x: Session)
    requires Sessions(players, joined, leaving, closed) && x in leaving
    ensures Sessions(players, joined, leaving - {x}, closed + multiset{x})
  {}

  lemma SessionsUntouched(s: State, a: Act)
    requires SessionsOk(s) && Enabled(s, a) && !a.Join? && !a.Leave? && !a.CloseAll? && !a.CloseLeft?
    ensures SessionsOk(Do(s, a))
  {
    var s' := Do(s, a);
    assert s'.players == s.players && s'.joined == s.joined && s'.leaving == s.leaving && s'.closed == s.closed;
  }

  lemma StillAccounted(s: State, a: Act)
    requires Accounted(s) && Enabled(s, a)
    ensures Accounted(Do(s, a))
  {
    var s' := Do(s, a);
    if a.Join? && a.player !in s.players {
      assert s'.players[a.player] == a.session;
    }
    forall x | x in s.joined && x in s.players.Values
      ensures x in s'.players.Values || x in s'.leaving || x in s'.closed
    {
      var p :| p in s.players && s.players[p] == x;
      if p in s'.players {
        assert s'.players[p] == x;
      }
    }
  }

  lemma StillLate(s: State, a: Act)
    requires LateOk(s) && Enabled(s, a)
    ensures LateOk(Do(s, a))
  {
    var s' := Do(s, a);
    if PastClosing(s.phase) {
      forall x | x in s'.players.Values ensures x in s'.late {
        var p :| p in s'.players && s'.players[p] == x;
        assert p in s.players && s.players[p] == x ==> x in s.players.Values;
      }
    }
  }

  lemma {:induction false} RunKeepsInv(acts: seq<Act>)
    requires Exec(FRESH, acts).Some?
    ensures Inv(Exec(FRESH, acts).value)
  {
    if acts != [] {
      var s, a := Exec(FRESH, acts[..|acts| - 1]).value, acts[|acts| - 1];
      RunKeepsInv(acts[..|acts| - 1]);
      CallsPreserved(s, a);
      InputsPreserved(s, a);
      SessionsPreserved(s, a);
      StillAccounted(s, a);
      StillLate(s, a);
    }
  }

  /** OnTick in tick order; OnGameEnd only right after the last tick said the game ended; Close only last. */
  ghost predicate Discipline(calls: seq<PluginCall>, ticks: nat) {
    && (forall i :: 0 <= i < |calls| && calls[i].OnTick? ==> i < ticks && calls[i].tick == i % TICK_WRAP)
    && (forall i :: 0 <= i < |calls| && calls[i].OnGameEnd? ==> i == ticks && LastReply(calls, ticks, Ok(true)))
    && (forall i :: 0 <= i < |calls| && calls[i].Close? ==> i == |calls| - 1)
  }

  lemma ShapeIsDiscipline(s: State)
    requires CallsOk(s)
    ensures Discipline(s.calls, s.ticks)
    ensures s.phase.Done? <==> s.calls != [] && s.calls[|s.calls| - 1].Close?
  {
    if s.phase.Done? {
      var calls := s.calls[..|s.calls| - 1];
      forall i | 0 <= i < |calls| ensures s.calls[i] == calls[i] {}
    }
  }

  /**
   * Every run of a match, whatever players do meanwhile: OnTick sees ticks 0, 1, 2, ... in order; OnGameEnd comes
   * at most once, and only after an answer that the game ended; Close comes once, last, and exactly when Run is
   * over; the accepted inputs are, in order, those the plugin has seen, those in hand, and those still buffered;
   * no session is closed twice, and none is forgotten.
   */
  lemma PluginDiscipline(acts: seq<Act>)
    requires Exec(FRESH, acts).Some?
    ensures var s := Exec(FRESH, acts).value;
            && Discipline(s.calls, s.ticks)
            && (s.phase.Done? <==> s.calls != [] && s.calls[|s.calls| - 1].Close?)
            && Delivered(s.calls) + InHand(s.phase) + s.inputs == s.accepted
            && (forall x :: s.closed[x] <= 1) && Accounted(s)
  {
    RunKeepsInv(acts);
    ShapeIsDiscipline(Exec(FRESH, acts).value);
  }

  /**
   * When Run is over, a session that was admitted is closed, or its own Leave is closing it, unless it came after
   * the room was emptied: such a one stays open for as long as nobody calls Leave for it.
   */
  lemma OpenWhenDone(acts: seq<Act>, x: Session)
    requires Exec(FRESH, acts).Some? && Exec(FRESH, acts).value.phase.Done?
    requires x in Exec(FRESH, acts).value.joined && x !in Exec(FRESH, acts).value.refused
    ensures var s := Exec(FRESH, acts).value;
            && (x in s.players.Values ==> x in s.late && x !in s.closed && x !in s.leaving)
            && (x !in s.players.Values ==> x in s.closed || x in s.leaving)
  {
    RunKeepsInv(acts);
    var s := Exec(FRESH, acts).value;
    if x in s.players.Values {
      var p :| p in s.players && s.players[p] == x;
    }
  }

  lemma SeatKept(s: State, a: Act, p: UUID, x: Session)
    requires Enabled(s, a) && s.phase.Done? && p in s.players && s.players[p] == x && a != Leave(p)
    ensures Do(s, a).phase.Done? && p in Do(s, a).players && Do(s, a).players[p] == x
  {}

  /** Such a session exists as soon as a player joins when the match is over, and only their own Leave removes it. */
  lemma {:induction false} LateJoinStaysOpen(acts: seq<Act>, p: UUID, x: Session, later: seq<Act>)
    requires Exec(FRESH, acts).Some? && Exec(FRESH, acts).value.phase.Done?
    requires p !in Exec(FRESH, acts).value.players && x !in Exec(FRESH, acts).value.joined
    requires forall i :: 0 <= i < |later| ==> later[i] != Leave(p)
    ensures Exec(FRESH, acts + [Join(p, x)]).Some?
    ensures var after := Exec(FRESH, acts + [Join(p, x)] + later);
            after.Some? ==> after.value.phase.Done? && p in after.value.players && after.value.players[p] == x
    decreases |later|
  {
    var joined := acts + [Join(p, x)];
    assert joined[..|acts|] == acts;
    if later == [] {
      assert joined + later == joined;
    } else {
      var init := later[..|later| - 1];
      assert (joined + later)[..|joined + later| - 1] == joined + init;
      LateJoinStaysOpen(acts, p, x, init);
      if Exec(FRESH, joined + later).Some? {
        SeatKept(Exec(FRESH, joined + init).value, later[|later| - 1], p, x);
      }
    }
  }

  // ---- the code ----

  /** A whole undisturbed tick. */
  function WholeTick(s: State, reply: Reply): State {
    Ticked(s.(inputs := [], events := []), s.inputs, s.events, reply)
  }

  lemma InputTaken(s: State)
    requires s.phase.TakingInputs? && s.inputs != []
    ensures var taken := s.phase.actions + [s.inputs[0]];
            && Do(s, TakeInput) == s.(inputs := s.inputs[1..], phase := TakingInputs(taken))
            && taken + s.inputs[1..] == s.phase.actions + s.inputs
  {}

  lemma NoticeTaken(s: State)
    requires s.phase.TakingEvents? && s.events != []
    ensures var taken := s.phase.notices + [s.events[0]];
            && Do(s, TakeEvent) == s.(events := s.events[1..], phase := TakingEvents(s.phase.actions, taken))
            && taken + s.events[1..] == s.phase.notices + s.events
  {}

  lemma {:induction false} DrainInputs(from: State, acts: seq<Act>, s: State) returns (more: seq<Act>)
    requires s.phase.TakingInputs? && Exec(from, acts) == Some(s)
    ensures Exec(from, more) == Some(s.(inputs := [], phase := TakingEvents(s.phase.actions + s.inputs, [])))
    decreases |s.inputs|
  {
    if s.inputs == [] {
      more := Then(from, acts, s, InputsTaken);
      assert s.phase.actions + s.inputs == s.phase.actions;
    } else {
      more := Then(from, acts, s, TakeInput);
      InputTaken(s);
      var t := Do(s, TakeInput);
      more := DrainInputs(from, more, t);
    }
  }

  lemma {:induction false} DrainNotices(from: State, acts: seq<Act>, s: State) returns (more: seq<Act>)
    requires s.phase.TakingEvents? && Exec(from, acts) == Some(s)
    ensures var all := s.phase.notices + s.events;
            Exec(from, more) == Some(s.(events := [], phase := TakingEvents(s.phase.actions, all)))
    decreases |s.events|
  {
    if s.events == [] {
      more := acts;
      assert s.phase.notices + s.events == s.phase.notices;
    } else {
      more := Then(from, acts, s, TakeEvent);
      NoticeTaken(s);
      var t := Do(s, TakeEvent);
      more := DrainNotices(from, more, t);
    }
  }

  lemma TickedForgetsPhase(s: State, phase: Phase, actions: seq<Action>, notices: seq<Notice>, reply: Reply)
    ensures Ticked(s.(phase := phase), actions, notices, reply) == Ticked(s, actions, notices, reply)
  {}

  lemma TickFromTaken(from: State, acts: seq<Act>, s: State, actions: seq<Action>, notices: seq<Notice>, reply: Reply)
    returns (more: seq<Act>)
    requires s.events == [] && Exec(from, acts) == Some(s.(phase := TakingEvents(actions, notices)))
    ensures Exec(from, more) == Some(Ticked(s, actions, notices, reply))
  {
    var t := s.(phase := TakingEvents(actions, notices));
    more := Then(from, acts, t, CallOnTick(reply));
    TickedForgetsPhase(s, t.phase, actions, notices, reply);
  }

  lemma DrainBoth(s: State) returns (acts: seq<Act>)
    requires s.phase.Waiting?
    ensures Exec(s, acts) == Some(s.(inputs := [], events := [], phase := TakingEvents(s.inputs, s.events)))
  {
    acts := Then(s, [], s, StartTick);
    var t := s.(phase := TakingInputs([]));
    acts := DrainInputs(s, acts, t);
    assert [] + s.inputs == s.inputs && [] + s.events == s.events;
    var u := t.(inputs := [], phase := TakingEvents(s.inputs, []));
    acts := DrainNotices(s, acts, u);
  }

  /** An undisturbed tick is a run of the fine-grained steps. */
  lemma WholeTickIsRun(s: State, reply: Reply) returns (acts: seq<Act>)
    requires s.phase.Waiting?
    ensures Exec(s, acts) == Some(WholeTick(s, reply))
  {
    acts := DrainBoth(s);
    acts := TickFromTaken(s, acts, s.(inputs := [], events := []), s.inputs, s.events, reply);
  }

  lemma Then(from: State, acts: seq<Act>, s: State, a: Act) returns (more: seq<Act>)
    requires Exec(from, acts) == Some(s) && Enabled(s, a)
    ensures Exec(from, more) == Some(Do(s, a))
  {
    more := acts + [a];
    assert more[..|more| - 1] == acts;
  }

  /** What a session is sent. */
  datatype Frame = Delta(fromTick: nat, toTick: nat, payload: seq<nat>) | SystemEvent(kind: string, payload: seq<nat>)

  /** An event of the plugin's response; a recipient that is no id is None, and no recipients means everybody. */
  datatype Outbound = Outbound(kind: string, payload: seq<nat>, recipients: seq<Option<UUID>>)

  datatype Response = Response(delta: seq<nat>, outbound: seq<Outbound>)

  /** The frames one player gets for an event: one if it goes to everybody, else one per mention. */
  function FramesOf(e: Outbound, p: UUID): seq<Frame> {
    if e.recipients == [] then [SystemEvent(e.kind, e.payload)] else Mentions(e, e.recipients, p)
  }

  function Mentions(e: Outbound, recipients: seq<Option<UUID>>, p: UUID): seq<Frame> {
    if recipients == [] then []
    else
      Mentions(e, recipients[..|recipients| - 1], p)
      + if recipients[|recipients| - 1] == Some(p) then [SystemEvent(e.kind, e.payload)] else []
  }

  function EventFrames(outbound: seq<Outbound>, p: UUID): seq<Frame> {
    if outbound == [] then []
    else EventFrames(outbound[..|outbound| - 1], p) + FramesOf(outbound[|outbound| - 1], p)
  }

  /** Everything one player is sent in a tick: the state delta if there is one, then their events in order. */
  function TickFrames(tick: nat, r: Response, p: UUID): seq<Frame> {
    (if r.delta == [] then [] else [Delta(tick, (tick + 1) % TICK_WRAP, r.delta)]) + EventFrames(r.outbound, p)
  }

  lemma EventNext(events: seq<Outbound>, e: Outbound)
    ensures forall p: UUID :: EventFrames(events + [e], p) == EventFrames(events, p) + FramesOf(e, p)
  {
    assert (events + [e])[..|events|] == events;
  }

  lemma MentionNext(e: Outbound, recipients: seq<Option<UUID>>, r: Option<UUID>)
    ensures forall p: UUID ::
              Mentions(e, recipients + [r], p)
              == Mentions(e, recipients, p) + if r == Some(p) then [SystemEvent(e.kind, e.payload)] else []
  {
    assert (recipients + [r])[..|recipients|] == recipients;
  }

  type Outbox = map<Session, seq<Frame>>

  function FramesIn(box: Outbox, x: Session): seq<Frame> { if x in box then box[x] else [] }

  /** Each player's session got these further frames, and no other session got any. */
  ghost predicate Sent(players: map<UUID, Session>, before: Outbox, after: Outbox, frames: UUID -> seq<Frame>) {
    && (forall p :: p in players ==> FramesIn(after, players[p]) == FramesIn(before, players[p]) + frames(p))
    && (forall x :: x !in players.Values ==> FramesIn(after, x) == FramesIn(before, x))
  }

  lemma SentThen(players: map<UUID, Session>, a: Outbox, b: Outbox, c: Outbox,
                 f: UUID -> seq<Frame>, g: UUID -> seq<Frame>, h: UUID -> seq<Frame>)
    requires Sent(players, a, b, f) && Sent(players, b, c, g)
    requires forall p :: p in players ==> h(p) == f(p) + g(p)
    ensures Sent(players, a, c, h)
  {
    forall p | p in players ensures FramesIn(c, players[p]) == FramesIn(a, players[p]) + h(p) {
      assert FramesIn(a, players[p]) + f(p) + g(p) == FramesIn(a, players[p]) + (f(p) + g(p));
    }
  }

  lemma SentSame(players: map<UUID, Session>, a: Outbox, b: Outbox, f: UUID -> seq<Frame>, g: UUID -> seq<Frame>)
    requires Sent(players, a, b, f) && forall p :: p in players ==> f(p) == g(p)
    ensures Sent(players, a, b, g)
  {}

  lemma SentNothing(players: map<UUID, Session>, a: Outbox, f: UUID -> seq<Frame>)
    requires forall p :: p in players ==> f(p) == []
    ensures Sent(players, a, a, f)
  {}

  lemma SentToOne(players: map<UUID, Session>, box: Outbox, r: UUID, frame: Frame)
    requires OneEach(players) && r in players
    ensures Sent(players, box, box[players[r] := FramesIn(box, players[r]) + [frame]],
                 (p: UUID) => if p == r then [frame] else [])
  {}

  class Match {
    var players: map<UUID, Session>
    var currentTick: nat
    var inputs: seq<Action>
    var events: seq<Notice>
    var calls: seq<PluginCall>
    var closed: multiset<Session>
    var outbox: map<Session, seq<Frame>>

    constructor ()
      ensures players == FRESH.players && currentTick == 0 && inputs == [] && events == [] && calls == []
      ensures closed == multiset{} && outbox == map[]
    {
      players, currentTick, inputs, events, calls, closed := map[], 0, [], [], [], multiset{};
      outbox := map[];
    }

    /** To everybody in the room, in whatever order. */
    method Broadcast(f: Frame)
      requires OneEach(players)
      modifies this`outbox
      ensures Sent(players, old(outbox), outbox, _ => [f])
    {
      ghost var all := players.Keys;
      var rest := players.Keys;
      SentNothing(players, outbox, (p: UUID) => if p in all && p !in rest then [f] else []);
      while rest != {}
        invariant rest <= all == players.Keys
        invariant Sent(players, old(outbox), outbox, (p: UUID) => if p in all && p !in rest then [f] else [])
        decreases rest
      {
        var r :| r in rest;
        SentToOne(players, outbox, r, f);
        ghost var before, left := outbox, rest;
        outbox := outbox[players[r] := FramesIn(outbox, players[r]) + [f]];
        rest := rest - {r};
        SentThen(players, old(outbox), before, outbox, (p: UUID) => if p in all && p !in left then [f] else [],
                 (p: UUID) => if p == r then [f] else [], (p: UUID) => if p in all && p !in rest then [f] else []);
      }
      SentSame(players, old(outbox), outbox, (p: UUID) => if p in all && p !in rest then [f] else [], _ => [f]);
    }

    /** One event of the response. */
    method Dispatch(e: Outbound)
      requires OneEach(players)
      modifies this`outbox
      ensures Sent(players, old(outbox), outbox, (p: UUID) => FramesOf(e, p))
    {
      if e.recipients == [] {
        var frame := SystemEvent(e.kind, e.payload);
        Broadcast(frame);
        SentSame(players, old(outbox), outbox, _ => [frame], (p: UUID) => FramesOf(e, p));
      } else {
        Target(e);
        SentSame(players, old(outbox), outbox, (p: UUID) => Mentions(e, e.recipients, p), (p: UUID) => FramesOf(e, p));
      }
    }

    /** To the named recipients that are in the room. */
    method Target(e: Outbound)
      requires OneEach(players)
      modifies this`outbox
      ensures Sent(players, old(outbox), outbox, (p: UUID) => Mentions(e, e.recipients, p))
    {
      ghost var done: seq<Option<UUID>> := [];
      SentNothing(players, outbox, (p: UUID) => Mentions(e, [], p));
      for i := 0 to |e.recipients|
        invariant done == e.recipients[..i] && Sent(players, old(outbox), outbox, (p: UUID) => Mentions(e, done, p))
      {
        var r := e.recipients[i];
        ghost var before, sofar := outbox, done;
        done := done + [r];
        MentionNext(e, sofar, r);
        if r.Some? && r.value in players {
          var frame := SystemEvent(e.kind, e.payload);
          SentToOne(players, outbox, r.value, frame);
          outbox := outbox[players[r.value] := FramesIn(outbox, players[r.value]) + [frame]];
          SentThen(players, old(outbox), before, outbox, (p: UUID) => Mentions(e, sofar, p),
                   (p: UUID) => if p == r.value then [frame] else [], (p: UUID) => Mentions(e, done, p));
        } else {
          SentSame(players, old(outbox), outbox, (p: UUID) => Mentions(e, sofar, p), (p: UUID) => Mentions(e, done, p));
        }
      }
      assert done == e.recipients;
    }

    method SendEvents(outbound: seq<Outbound>)
      requires OneEach(players)
      modifies this`outbox
      ensures Sent(players, old(outbox), outbox, (p: UUID) => EventFrames(outbound, p))
    {
      ghost var done: seq<Outbound> := [];
      SentNothing(players, outbox, (p: UUID) => EventFrames([], p));
      for i := 0 to |outbound|
        invariant done == outbound[..i] && Sent(players, old(outbox), outbox, (p: UUID) => EventFrames(done, p))
      {
        ghost var before, sofar, e := outbox, done, outbound[i];
        done := done + [e];
        EventNext(sofar, e);
        Dispatch(outbound[i]);
        SentThen(players, old(outbox), before, outbox, (p: UUID) => EventFrames(sofar, p), (p: UUID) => FramesOf(e, p),
                 (p: UUID) => EventFrames(done, p));
      }
      assert done == outbound;
    }

    /** All of the response. */
    method SendResponse(tick: nat, r: Response)
      requires OneEach(players)
      modifies this`outbox
      ensures Sent(players, old(outbox), outbox, (p: UUID) => TickFrames(tick, r, p))
    {
      ghost var first: seq<Frame> := [];
      if r.delta == [] {
        SentNothing(players, outbox, _ => first);
      } else {
        var frame := Delta(tick, (tick + 1) % TICK_WRAP, r.delta);
        first := [frame];
        Broadcast(frame);
        SentSame(players, old(outbox), outbox, _ => [frame], _ => first);
      }
      ghost var between := outbox;
      SendEvents(r.outbound);
      SentThen(players, old(outbox), between, outbox, _ => first, (p: UUID) => EventFrames(r.outbound, p),
               (p: UUID) => TickFrames(tick, r, p));
    }

    method PostNotice(e: Notice)
      modifies this`events
      ensures events == if |old(events)| < EVENTS then old(events) + [e] else old(events)
    {
      if |events| < EVENTS {
        events := events + [e];
      }
    }

    method Join(player: UUID, session: Session) returns (ok: bool)
      modifies this`players, this`events
      ensures ok <==> player !in old(players)
      ensures players == if ok then old(players)[player := session] else old(players)
      ensures events == if ok && |old(events)| < EVENTS then old(events) + [Joined(player)] else old(events)
    {
      if player in players {
        return false;
      }
      players := players[player := session];
      PostNotice(Joined(player));
      return true;
    }

    method Leave(player: UUID, reason: string)
      modifies this`players, this`events, this`closed
      ensures players == old(players) - {player}
      ensures closed == if player in old(players) then old(closed) + multiset{old(players[player])} else old(closed)
      ensures events == if player in old(players) && |old(events)| < EVENTS then old(events) + [Left(player, reason)]
                        else old(events)
    {
      if player !in players {
        return;
      }
      var session := players[player];
      players := players - {player};
      closed := closed + multiset{session};
      PostNotice(Left(player, reason));
    }

    method SubmitInput(a: Action) returns (ghost kept: bool)
      modifies this`inputs
      ensures kept <==> |old(inputs)| < INPUTS
      ensures inputs == if kept then old(inputs) + [a] else old(inputs)
    {
      kept := |inputs| < INPUTS;
      if |inputs| < INPUTS {
        inputs := inputs + [a];
      }
    }

    method DrainActions() returns (out: seq<Action>)
      modifies this`inputs
      ensures out == old(inputs) && inputs == []
    {
      out := [];
      while inputs != []
        invariant out + inputs == old(inputs)
        decreases |inputs|
      {
        out, inputs := out + [inputs[0]], inputs[1..];
      }
    }

    method DrainEvents() returns (out: seq<Notice>)
      modifies this`events
      ensures out == old(events) && events == []
    {
      out := [];
      while events != []
        invariant out + events == old(events)
        decreases |events|
      {
        out, events := out + [events[0]], events[1..];
      }
    }

    /** The visible part of a state of the abstract machine. */
    ghost predicate Shows(s: State)
      reads this
    {
      && players == s.players && currentTick == s.currentTick && inputs == s.inputs && events == s.events
      && calls == s.calls && closed == s.closed
    }

    /** One tick, with the plugin's answer as input; the frames go out before the tick advances. */
    method Tick(reply: Reply, response: Response, ghost s: State)
      requires Shows(s) && s.phase.Waiting? && OneEach(players)
      modifies this
      ensures Shows(WholeTick(s, reply))
      ensures calls == old(calls) + [OnTick(old(currentTick), old(inputs), old(events), reply)]
      ensures inputs == [] && events == [] && players == old(players) && closed == old(closed)
      ensures currentTick == if reply.Failure? then old(currentTick) else (old(currentTick) + 1) % TICK_WRAP
      ensures if reply.Failure? then outbox == old(outbox)
              else Sent(players, old(outbox), outbox, (p: UUID) => TickFrames(s.currentTick, response, p))
    {
      var actions := DrainActions();
      var notices := DrainEvents();
      calls := calls + [OnTick(currentTick, actions, notices, reply)];
      if reply.Failure? {
        return;
      }
      SendResponse(currentTick, response);
      currentTick := (currentTick + 1) % TICK_WRAP;
    }

    /** The game is over: the plugin is told, then everybody in the room, and then the room is emptied. */
    method Finalise(payload: seq<nat>)
      requires OneEach(players)
      modifies this`calls, this`outbox, this`players, this`closed
      ensures calls == old(calls) + [OnGameEnd(currentTick)]
      ensures Sent(old(players), old(outbox), outbox, _ => [SystemEvent("game_ended", payload)])
      ensures players == map[] && closed == old(closed) + multiset(old(players).Values)
    {
      calls := calls + [OnGameEnd(currentTick)];
      Broadcast(SystemEvent("game_ended", payload));
      CloseAllPlayers();
    }

    method CloseAllPlayers()
      requires OneEach(players)
      modifies this`players, this`closed
      ensures players == map[] && closed == old(closed) + multiset(old(players).Values)
    {
      var rest := players.Keys;
      ghost var done: set<Session> := {};
      assert multiset(done) == multiset{};
      while rest != {}
        invariant rest <= players.Keys && players == old(players)
        invariant done == SessionsOf(players, players.Keys - rest)
        invariant closed == old(closed) + multiset(done)
        decreases rest
      {
        var p :| p in rest;
        CloseOne(players, rest, p);
        closed := closed + multiset{players[p]};
        CountOneMore(done, players[p]);
        done := done + {players[p]};
        rest := rest - {p};
      }
      assert done == players.Values;
      players := map[];
    }
  }

  /** Distinct players hold distinct sessions. */
  ghost predicate OneEach(players: map<UUID, Session>) {
    forall p, r :: p in players && r in players && players[p] == players[r] ==> p == r
  }

  ghost function SessionsOf(players: map<UUID, Session>, ids: set<UUID>): set<Session> {
    set p | p in ids && p in players :: players[p]
  }

  lemma CountOneMore(done: set<Session>, x: Session)
    requires x !in done
    ensures multiset(done + {x}) == multiset(done) + multiset{x}
  {}

  lemma CloseOne(players: map<UUID, Session>, rest: set<UUID>, p: UUID)
    requires OneEach(players) && p in rest && rest <= players.Keys
    ensures players[p] !in SessionsOf(players, players.Keys - rest)
    ensures SessionsOf(players, players.Keys - (rest - {p})) == SessionsOf(players, players.Keys - rest) + {players[p]}
  {
    assert players.Keys - (rest - {p}) == players.Keys - rest + {p};
  }

  // ---- what each act does ----

  /** A free seat is taken by the session, an occupied one refuses it. */
  lemma JoinEffect(s: State, p: UUID, x: Session)
    requires Enabled(s, Join(p, x))
    ensures var s' := Do(s, Join(p, x));
            && s'.calls == s.calls && s'.inputs == s.inputs && s'.accepted == s.accepted && s'.phase == s.phase
            && s'.closed == s.closed && s'.leaving == s.leaving && s'.joined == s.joined + {x}
            && (p in s.players ==> s'.players == s.players && x in s'.refused)
            && (p !in s.players ==> s'.players == s.players[p := x] && s'.refused == s.refused)
  {}

  /** A player who leaves is gone, and their session is closed next; nobody else is touched. */
  lemma LeaveEffect(s: State, p: UUID)
    requires SessionsOk(s)
    ensures var s' := Do(s, Leave(p));
            && s'.players == s.players - {p} && s'.closed == s.closed && s'.calls == s.calls && s'.phase == s.phase
            && (p in s.players ==>
                  && s'.leaving == s.leaving + {s.players[p]} && Enabled(s', CloseLeft(s.players[p]))
                  && Do(s', CloseLeft(s.players[p])).closed == s.closed + multiset{s.players[p]}
                  && Do(s', CloseLeft(s.players[p])).leaving == s.leaving)
  {
    if p in s.players {
      assert s.leaving + {s.players[p]} - {s.players[p]} == s.leaving;
    }
  }

  /** An input waits last in line, unless 256 are waiting; a notice likewise with 32. */
  lemma SubmitEffect(s: State, x: Action, e: Notice)
    ensures Do(s, Submit(x))
         == if |s.inputs| < 256 then s.(inputs := s.inputs + [x], accepted := s.accepted + [x]) else s
    ensures Do(s, Post(e)) == if |s.events| < 32 then s.(events := s.events + [e]) else s
  {}

  /** A whole tick hands over all that waits, in order, with the tick's number, and goes on as the plugin says. */
  lemma TickEffect(s: State, reply: Reply)
    ensures var s' := WholeTick(s, reply);
            && s'.calls == s.calls + [OnTick(s.currentTick, s.inputs, s.events, reply)]
            && s'.inputs == [] && s'.events == [] && s'.players == s.players && s'.closed == s.closed
            && s'.currentTick == (if reply.Failure? then s.currentTick else (s.currentTick + 1) % TICK_WRAP)
            && (reply.Failure? ==> s'.phase.ClosingPlayers?) && (reply == Ok(true) ==> s'.phase.Finalising?)
            && (reply == Ok(false) ==> s'.phase == Waiting)
  {}

  /** Once it is over, the room is emptied with every session in it closed, the plugin is closed, and that is all. */
  lemma RunEnds(s: State)
    requires s.phase.ClosingPlayers?
    ensures var emptied := Do(s, CloseAll);
            && emptied.players == map[] && emptied.closed == s.closed + multiset(s.players.Values)
            && emptied.calls == s.calls && Enabled(emptied, ClosePlugin)
            && Do(emptied, ClosePlugin).phase.Done? && Do(emptied, ClosePlugin).calls == s.calls + [Close]
  {}

  /** It is over when it is cancelled between ticks, or when the plugin has been told that the game ended. */
  lemma RunIsOver(s: State)
    ensures s.phase.Waiting? ==> Do(s, Cancel) == s.(phase := ClosingPlayers)
    ensures s.phase.Finalising? ==>
              Do(s, CallOnGameEnd) == s.(phase := ClosingPlayers, calls := s.calls + [OnGameEnd(s.currentTick)])
  {}

  // ---- the frames of a response ----

  lemma FramesAssociate(a: seq<Frame>, b: seq<Frame>, c: seq<Frame>)
    ensures a + b + c == a + (b + c)
  {}

  lemma {:induction false} MentionsConcat(e: Outbound, a: seq<Option<UUID>>, b: seq<Option<UUID>>, p: UUID)
    ensures Mentions(e, a + b, p) == Mentions(e, a, p) + Mentions(e, b, p)
    decreases |b|
  {
    if b == [] {
      assert a + b == a;
    } else {
      var init, last := b[..|b| - 1], if b[|b| - 1] == Some(p) then [SystemEvent(e.kind, e.payload)] else [];
      assert (a + b)[..|a + b| - 1] == a + init;
      MentionsConcat(e, a, init, p);
      FramesAssociate(Mentions(e, a, p), Mentions(e, init, p), last);
    }
  }

  lemma {:induction false} EventsConcat(a: seq<Outbound>, b: seq<Outbound>, p: UUID)
    ensures EventFrames(a + b, p) == EventFrames(a, p) + EventFrames(b, p)
    decreases |b|
  {
    if b == [] {
      assert a + b == a;
    } else {
      var init, last := b[..|b| - 1], b[|b| - 1];
      assert (a + b)[..|a + b| - 1] == a + init && (a + b)[|a + b| - 1] == last;
      EventsConcat(a, init, p);
      FramesAssociate(EventFrames(a, p), EventFrames(init, p), FramesOf(last, p));
    }
  }

  /** A mention is one frame for the one mentioned and none for others; no recipients means one frame for everybody. */
  lemma MentionLaws(e: Outbound, p: UUID, r: Option<UUID>, rest: seq<Option<UUID>>)
    ensures FramesOf(e.(recipients := []), p) == [SystemEvent(e.kind, e.payload)]
    ensures FramesOf(e.(recipients := [r] + rest), p)
         == (if r == Some(p) then [SystemEvent(e.kind, e.payload)] else []) + Mentions(e, rest, p)
    ensures Mentions(e, [], p) == []
  {
    var named := e.(recipients := [r] + rest);
    MentionsConcat(named, [r], rest, p);
    MentionsSame(named, e, rest, p);
    OneMention(named, r, p);
  }

  lemma OneMention(e: Outbound, r: Option<UUID>, p: UUID)
    ensures Mentions(e, [r], p) == if r == Some(p) then [SystemEvent(e.kind, e.payload)] else []
  {
    assert [r][..0] == [];
  }

  /** A player's frames come in the order of the events. */
  lemma EventLaws(e: Outbound, events: seq<Outbound>, p: UUID)
    ensures EventFrames([], p) == [] && EventFrames([e] + events, p) == FramesOf(e, p) + EventFrames(events, p)
  {
    EventsConcat([e], events, p);
    assert [e][..0] == [];
    assert EventFrames([e], p) == EventFrames([], p) + FramesOf(e, p);
  }

  lemma {:induction false} MentionsSame(e: Outbound, f: Outbound, recipients: seq<Option<UUID>>, p: UUID)
    requires e.kind == f.kind && e.payload == f.payload
    ensures Mentions(e, recipients, p) == Mentions(f, recipients, p)
  {
    if recipients != [] {
      MentionsSame(e, f, recipients[..|recipients| - 1], p);
    }
  }

  /** The state delta, if there is one, comes first, and leads from this tick to the next. */
  lemma DeltaComesFirst(tick: nat, r: Response, p: UUID)
    ensures TickFrames(tick, r, p)
         == (if r.delta == [] then [] else [Delta(tick, (tick + 1) % 0x1_0000_0000, r.delta)])
            + EventFrames(r.outbound, p)
  {}
}
