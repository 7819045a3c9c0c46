/** The sorted-set index under overlapping calls: any number of submissions and lookups, command by command. */
module LeaderboardOverlap {
  import opened Base
  import opened Leaderboard
  import opened LeaderboardIndex

  /** The table and the key, and where each call stands. */
  datatype Board = Board(table: Table, index: Option<Index>, ttl: bool, calls: map<nat, Call>)

  const NOBODY := Board(map[], None, false, map[])

  datatype Move = Starts(c: nat, goal: Goal) | Issues(c: nat, reply: Reply) | Loses

  function CallOf(b: Board, c: nat): Call { if c in b.calls then b.calls[c] else Idle }

  /** The board as one call sees it. */
  function View(b: Board, c: nat): State { State(b.table, b.index, b.ttl, CallOf(b, c), [], []) }

  function Put(b: Board, c: nat, s: State): Board { Board(s.table, s.index, s.ttl, b.calls[c := s.call]) }

  /** Each move is what the call alone would do to what it finds. */
  ghost function Moved(order: SortOrder, b: Board, v: Move): Board {
    match v
    case Starts(c, goal) => Put(b, c, Begun(order, View(b, c), goal))
    case Issues(c, reply) => Put(b, c, Commanded(order, View(b, c), reply))
    case Loses => b.(index := None, ttl := false)
  }

  ghost function Play(order: SortOrder, moves: seq<Move>): Board {
    if moves == [] then NOBODY else Moved(order, Play(order, moves[..|moves| - 1]), moves[|moves| - 1])
  }

  ghost predicate SomeMirrorRelies(b: Board) {
    exists c :: c in b.calls && b.calls[c].Mirrors() && b.calls[c].Relies()
  }

  /** The rebuild writes rows that the table has overtaken since they were loaded. */
  predicate WritesStale(b: Board, v: Move) {
    v.Issues? && !v.reply.Refused? && CallOf(b, v.c).Filling? && CallOf(b, v.c).rows != Scores(b.table)
  }

  datatype Trouble = Alone(mishap: Mishap) | StaleFill

  /** What goes wrong at a move: what can go wrong for a call alone, or a stale rebuild. */
  ghost function TroubleOf(b: Board, v: Move): Option<Trouble> {
    if WritesStale(b, v) then Some(StaleFill)
    else
      match v
      case Starts(_, _) => None
      case Loses => Some(Alone(if SomeMirrorRelies(b) then LostWhileMirroring else LostElsewhere))
      case Issues(c, reply) =>
        if reply.Done? || !CallOf(b, c).Busy() then None else Some(Alone(Failure(CallOf(b, c), reply)))
  }

  ghost predicate Allows(kinds: set<Trouble>, b: Board, v: Move) {
    TroubleOf(b, v).Some? ==> TroubleOf(b, v).value in kinds
  }

  ghost predicate OnlyThese(order: SortOrder, kinds: set<Trouble>, moves: seq<Move>) {
    moves == [] ||
    var init := moves[..|moves| - 1];
    OnlyThese(order, kinds, init) && Allows(kinds, Play(order, init), moves[|moves| - 1])
  }

  /** Some play with troubles of these kinds only leads here. */
  ghost predicate Reached(order: SortOrder, kinds: set<Trouble>, b: Board) {
    exists moves :: OnlyThese(order, kinds, moves) && Play(order, moves) == b
  }

  lemma Begins(order: SortOrder, kinds: set<Trouble>)
    ensures Reached(order, kinds, NOBODY)
  {
    assert OnlyThese(order, kinds, []) && Play(order, []) == NOBODY;
  }

  lemma Continues(order: SortOrder, kinds: set<Trouble>, b: Board, v: Move) returns (b': Board)
    requires Reached(order, kinds, b) && Allows(kinds, b, v)
    ensures b' == Moved(order, b, v) && Reached(order, kinds, b')
  {
    var moves :| OnlyThese(order, kinds, moves) && Play(order, moves) == b;
    b' := Moved(order, b, v);
    var moves' := moves + [v];
    assert moves'[..|moves|] == moves;
    assert OnlyThese(order, kinds, moves') && Play(order, moves') == b';
  }

  const SPOILS: set<Trouble> := {Alone(LostWhileMirroring), Alone(CheckFailed), Alone(MirrorRefused), StaleFill}

  // ---- what holds while nothing spoils the index ----

  /** The index shows the player's score. */
  ghost predicate Shown(b: Board, p: UUID) {
    p in b.table && b.index.Some? && p in b.index.value && b.index.value[p] == b.table[p].score
  }

  /** A call is still to mirror the player's score. */
  ghost predicate Due(b: Board, p: UUID) {
    p in b.table && exists c :: c in b.calls && IsDue(b.calls[c], p, b.table[p].score)
  }

  predicate IsDue(call: Call, p: UUID, score: int) {
    call.Mirrors() && call.goal.sub.player == p && call.goal.sub.score == score
  }

  ghost predicate IndexOk(order: SortOrder, b: Board) {
    b.index.Some? ==>
      && (forall p :: p in b.index.value ==> p in b.table && !Beats(order, b.index.value[p], b.table[p].score))
      && (forall p :: p in b.table ==> Shown(b, p) || Due(b, p))
  }

  /** Building, a call finds its score shown by whoever built the key; ready to mirror, it finds the key. */
  ghost predicate MirrorOk(order: SortOrder, b: Board, call: Call) {
    call.Mirrors() ==>
      var sub := call.goal.sub;
      && sub.player in b.table && !Beats(order, sub.score, b.table[sub.player].score)
      && (call.Relies() ==> b.index.Some?)
      && (Building(call) && b.index.Some? && sub.score == b.table[sub.player].score ==> Shown(b, sub.player))
  }

  predicate Building(call: Call) { call.Loading? || call.Filling? || call.Expiring? }

  ghost predicate CallsOk(order: SortOrder, b: Board) { forall c :: c in b.calls ==> MirrorOk(order, b, b.calls[c]) }

  ghost predicate Sound(order: SortOrder, b: Board) { IndexOk(order, b) && CallsOk(order, b) }

  /** What is due stays due, or is shown, when one call moves on without touching the data. */
  lemma CallMovesOn(order: SortOrder, b: Board, c: nat, call: Call, ttl: bool)
    requires Sound(order, b) && MirrorOk(order, b, call)
    requires forall p :: p in b.table && IsDue(CallOf(b, c), p, b.table[p].score) && b.index.Some? ==>
                           IsDue(call, p, b.table[p].score) || Shown(b, p)
    ensures Sound(order, b.(calls := b.calls[c := call], ttl := ttl))
  {
    var b' := b.(calls := b.calls[c := call], ttl := ttl);
    if b.index.Some? {
      forall p | p in b.table ensures Shown(b', p) || Due(b', p) {
        if !Shown(b, p) {
          var d :| d in b.calls && IsDue(b.calls[d], p, b.table[p].score);
          assert IsDue(b'.calls[d], p, b.table[p].score);
        }
      }
    }
    forall d | d in b'.calls ensures MirrorOk(order, b', b'.calls[d]) {
      assert d != c ==> MirrorOk(order, b, b.calls[d]);
    }
  }

  lemma StartIsSound(order: SortOrder, b: Board, c: nat, sub: Submission)
    requires Sound(order, b) && !CallOf(b, c).Busy()
    ensures Sound(order, Moved(order, b, Starts(c, Mirror(sub))))
  {
    var b' := Moved(order, b, Starts(c, Mirror(sub)));
    assert b'.calls[c] == Checking(Mirror(sub)) && b'.index == b.index;
    if b.index.Some? {
      forall p | p in b'.table ensures Shown(b', p) || Due(b', p) {
        if p in b.table && b'.table[p] == b.table[p] {
          DueStays(b, b', c, p);
        } else {
          assert IsDue(b'.calls[c], p, b'.table[p].score);
        }
      }
    }
    forall d | d in b'.calls ensures MirrorOk(order, b', b'.calls[d]) {
      assert d != c ==> MirrorOk(order, b, b.calls[d]);
    }
  }

  lemma DueStays(b: Board, b': Board, c: nat, p: UUID)
    requires p in b.table && p in b'.table && b'.table[p] == b.table[p] && b'.index == b.index
    requires (Shown(b, p) || Due(b, p)) && !CallOf(b, c).Mirrors() && b'.calls == b.calls[c := CallOf(b', c)]
    ensures Shown(b', p) || Due(b', p)
  {
    if !Shown(b, p) {
      var d :| d in b.calls && IsDue(b.calls[d], p, b.table[p].score);
      assert CallOf(b, d) == b.calls[d] && IsDue(b'.calls[d], p, b'.table[p].score);
    }
  }

  /** A rebuild with current rows shows everybody. */
  lemma FillIsSound(order: SortOrder, b: Board, c: nat, reply: Reply)
    requires Sound(order, b) && CallOf(b, c).Filling? && !reply.Refused? && CallOf(b, c).rows == Scores(b.table)
    ensures Sound(order, Moved(order, b, Issues(c, reply)))
  {
    var b', call := Moved(order, b, Issues(c, reply)), CallOf(b, c);
    assert b'.index == Some(View(b, c).Scored() + call.rows);
    assert forall p :: p in b.table ==> Shown(b', p);
    assert MirrorOk(order, b, call) by {
      assert call == b.calls[c];
    }
    forall d | d in b'.calls ensures MirrorOk(order, b', b'.calls[d]) {
      assert d != c ==> MirrorOk(order, b, b.calls[d]);
    }
  }

  lemma MirrorIsSound(order: SortOrder, b: Board, c: nat, reply: Reply)
    requires Sound(order, b) && CallOf(b, c).Ready? && CallOf(b, c).goal.Mirror? && !reply.Refused?
    ensures Sound(order, Moved(order, b, Issues(c, reply)))
  {
    var b', call := Moved(order, b, Issues(c, reply)), CallOf(b, c);
    assert call == b.calls[c] && MirrorOk(order, b, call);
    var sub := call.goal.sub;
    assert b'.table == b.table && b'.index == Some(Add(order, b.index.value, sub.player, sub.score));
    forall p | p in b.table ensures Shown(b', p) || Due(b', p) {
      if !Shown(b, p) && !(p == sub.player && sub.score == b.table[p].score) {
        var d :| d in b.calls && IsDue(b.calls[d], p, b.table[p].score);
        assert d != c && IsDue(b'.calls[d], p, b'.table[p].score);
      }
    }
    forall d | d in b'.calls ensures MirrorOk(order, b', b'.calls[d]) {
      assert d != c ==> MirrorOk(order, b, b.calls[d]);
    }
  }

  /** Commands that write nothing: the call moves on, or gives up what is already shown. */
  lemma ReadIsSound(order: SortOrder, b: Board, c: nat, reply: Reply)
    requires Sound(order, b) && !Writes(View(b, c))
    requires CallOf(b, c).Checking? && CallOf(b, c).Mirrors() ==> reply.Done?
    ensures Sound(order, Moved(order, b, Issues(c, reply)))
  {
    var s, s' := View(b, c), Commanded(order, View(b, c), reply);
    ReadMovesCall(order, s, reply);
    assert c in b.calls ==> MirrorOk(order, b, b.calls[c]);
    NextCall(order, b, c, reply);
    CallMovesOn(order, b, c, s'.call, s'.ttl);
    assert Moved(order, b, Issues(c, reply)) == b.(calls := b.calls[c := s'.call], ttl := s'.ttl);
  }

  lemma NextCall(order: SortOrder, b: Board, c: nat, reply: Reply)
    requires MirrorOk(order, b, CallOf(b, c)) && !Writes(View(b, c))
    requires CallOf(b, c).Checking? && CallOf(b, c).Mirrors() ==> reply.Done?
    ensures var call := Commanded(order, View(b, c), reply).call;
            && MirrorOk(order, b, call)
            && forall p :: p in b.table && IsDue(CallOf(b, c), p, b.table[p].score) && b.index.Some? ==>
                             IsDue(call, p, b.table[p].score) || Shown(b, p)
  {}

  lemma RefusedFillIsSound(order: SortOrder, b: Board, c: nat)
    requires Sound(order, b) && CallOf(b, c).Filling?
    ensures Sound(order, Moved(order, b, Issues(c, Refused)))
  {
    var call := GaveUp(View(b, c), CallOf(b, c).goal).call;
    assert CallOf(b, c) == b.calls[c] && MirrorOk(order, b, b.calls[c]);
    CallMovesOn(order, b, c, call, b.ttl);
    assert Moved(order, b, Issues(c, Refused)) == b.(calls := b.calls[c := call], ttl := b.ttl);
  }

  lemma IssueIsSound(order: SortOrder, b: Board, c: nat, reply: Reply)
    requires Sound(order, b)
    requires TroubleOf(b, Issues(c, reply)).Some? ==> TroubleOf(b, Issues(c, reply)).value !in SPOILS
    ensures Sound(order, Moved(order, b, Issues(c, reply)))
  {
    if !Writes(View(b, c)) {
      ReadIsSound(order, b, c, reply);
    } else if CallOf(b, c).Filling? {
      if reply.Refused? {
        RefusedFillIsSound(order, b, c);
      } else {
        FillIsSound(order, b, c, reply);
      }
    } else {
      MirrorIsSound(order, b, c, reply);
    }
  }

  lemma StartRankIsSound(order: SortOrder, b: Board, c: nat, goal: Goal)
    requires Sound(order, b) && (CallOf(b, c).Busy() || goal.Rank?)
    ensures Sound(order, Moved(order, b, Starts(c, goal)))
  {
    var call := if CallOf(b, c).Busy() then CallOf(b, c) else Checking(goal);
    assert c in b.calls ==> MirrorOk(order, b, b.calls[c]);
    CallMovesOn(order, b, c, call, b.ttl);
    assert Moved(order, b, Starts(c, goal)) == b.(calls := b.calls[c := call], ttl := b.ttl);
  }

  lemma LossIsSound(order: SortOrder, b: Board)
    requires Sound(order, b) && !SomeMirrorRelies(b)
    ensures Sound(order, Moved(order, b, Loses))
  {
    forall d | d in b.calls ensures MirrorOk(order, Moved(order, b, Loses), b.calls[d]) {
      assert MirrorOk(order, b, b.calls[d]);
    }
  }

  lemma {:induction false} PlayIsSound(order: SortOrder, kinds: set<Trouble>, moves: seq<Move>)
    requires kinds !! SPOILS && OnlyThese(order, kinds, moves)
    ensures Sound(order, Play(order, moves))
  {
    if moves != [] {
      var b, v := Play(order, moves[..|moves| - 1]), moves[|moves| - 1];
      PlayIsSound(order, kinds, moves[..|moves| - 1]);
      match v
      case Starts(c, goal) =>
        if CallOf(b, c).Busy() || goal.Rank? {
          StartRankIsSound(order, b, c, goal);
        } else {
          StartIsSound(order, b, c, goal.sub);
        }
      case Issues(c, reply) => IssueIsSound(order, b, c, reply);
      case Loses => LossIsSound(order, b);
    }
  }

  // ---- exactly when ----

  /** No submission is waiting for its mirror write. */
  ghost predicate Quiet(b: Board) { forall c :: c in b.calls ==> !b.calls[c].Mirrors() }

  ghost predicate ExactNow(b: Board) { b.index.Some? ==> b.index.value == Scores(b.table) }

  lemma SoundIsExact(order: SortOrder, b: Board)
    requires Sound(order, b) && Quiet(b)
    ensures ExactNow(b)
  {
    if b.index.Some? {
      forall p | p in b.table ensures Shown(b, p) {
        assert Shown(b, p) || Due(b, p);
      }
    }
  }

  ghost predicate ExactDespite(order: SortOrder, kinds: set<Trouble>) {
    forall b :: Reached(order, kinds, b) && Quiet(b) ==> ExactNow(b)
  }

  /** A call alone is a special case: every serial run is a play of one caller. */
  lemma {:induction false} SerialIsPlay(order: SortOrder, m: Mishap, acts: seq<Act>) returns (b: Board)
    requires m in LOSES_A_WRITE && Only(order, {m}, acts)
    ensures Reached(order, {Alone(m)}, b)
    ensures var s := Run(order, acts); b == Board(s.table, s.index, s.ttl, b.calls) && CallOf(b, 0) == s.call
    ensures b.calls.Keys <= {0}
  {
    if acts == [] {
      Begins(order, {Alone(m)});
      b := NOBODY;
    } else {
      var init, a := acts[..|acts| - 1], acts[|acts| - 1];
      var s := Run(order, init);
      b := SerialIsPlay(order, m, init);
      RunKeepsInv(order, init);
      SerialStep(order, m, s, a, b);
      b := Continues(order, {Alone(m)}, b, MoveOf(a));
    }
  }

  function MoveOf(a: Act): Move {
    match a
    case Begin(goal) => Starts(0, goal)
    case Command(reply) => Issues(0, reply)
    case KeyLost => Loses
  }

  lemma SerialStep(order: SortOrder, m: Mishap, s: State, a: Act, b: Board)
    requires m in LOSES_A_WRITE && Inv(order, s) && Allowed({m}, s, a)
    requires b == Board(s.table, s.index, s.ttl, b.calls) && CallOf(b, 0) == s.call && b.calls.Keys <= {0}
    ensures Allows({Alone(m)}, b, MoveOf(a))
    ensures var s', b' := Step(order, s, a), Moved(order, b, MoveOf(a));
            b' == Board(s'.table, s'.index, s'.ttl, b'.calls) && CallOf(b', 0) == s'.call && b'.calls.Keys <= {0}
  {
    if a.KeyLost? {
      assert s.call.Relies() && s.call.goal.Mirror?;
      assert b.calls[0] == s.call;
    } else {
      SameAlone(order, s, b, a);
    }
  }

  /** The history fields play no part in what a step does. */
  ghost predicate Alike(s: State, t: State) {
    s.table == t.table && s.index == t.index && s.ttl == t.ttl && s.call == t.call
  }

  lemma HistoryIsIdle(order: SortOrder, s: State, reply: Reply)
    ensures Alike(Commanded(order, s, reply), Commanded(order, s.(submitted := [], reflected := []), reply))
  {
    var t := s.(submitted := [], reflected := []);
    if s.call.Filling? {
      assert Alike(Filled(s, s.call.goal, s.call.rows, reply), Filled(t, t.call.goal, t.call.rows, reply));
    } else if Writes(s) {
      assert Alike(Mirrored(order, s, s.call.goal.sub, reply), Mirrored(order, t, t.call.goal.sub, reply));
    } else {
      HistoryIsIdleReading(order, s, t, reply);
    }
  }

  lemma HistoryIsIdleReading(order: SortOrder, s: State, t: State, reply: Reply)
    requires Alike(s, t) && !Writes(s)
    ensures Alike(Commanded(order, s, reply), Commanded(order, t, reply))
  {
    ReadMovesCall(order, s, reply);
    ReadMovesCall(order, t, reply);
  }

  lemma HistoryIsIdleToo(order: SortOrder, s: State, goal: Goal)
    ensures Alike(Begun(order, s, goal), Begun(order, s.(submitted := [], reflected := []), goal))
  {}

  lemma SameAlone(order: SortOrder, s: State, b: Board, a: Act)
    requires !a.KeyLost? && b == Board(s.table, s.index, s.ttl, b.calls) && CallOf(b, 0) == s.call
    requires b.calls.Keys <= {0}
    ensures var s', b' := Step(order, s, a), Moved(order, b, MoveOf(a));
            b' == Board(s'.table, s'.index, s'.ttl, b'.calls) && CallOf(b', 0) == s'.call && b'.calls.Keys <= {0}
  {
    assert View(b, 0) == s.(submitted := [], reflected := []);
    if a.Begin? {
      HistoryIsIdleToo(order, s, a.goal);
    } else {
      HistoryIsIdle(order, s, a.reply);
    }
  }

  lemma LostWriteSpoils(order: SortOrder, kinds: set<Trouble>, m: Mishap)
    requires Alone(m) in kinds && m in LOSES_A_WRITE
    ensures !ExactDespite(order, kinds)
  {
    var s, p := SomeoneHidden(order, {m});
    var acts :| Only(order, {m}, acts) && Run(order, acts) == s;
    var b := SerialIsPlay(order, m, acts);
    assert Quiet(b) && !ExactNow(b) by {
      assert forall c :: c in b.calls ==> b.calls[c] == CallOf(b, 0);
    }
    var moves :| OnlyThese(order, {Alone(m)}, moves) && Play(order, moves) == b;
    MoreAllowed(order, {Alone(m)}, kinds, moves);
  }

  lemma {:induction false} MoreAllowed(order: SortOrder, few: set<Trouble>, many: set<Trouble>, moves: seq<Move>)
    requires few <= many && OnlyThese(order, few, moves)
    ensures OnlyThese(order, many, moves)
  {
    if moves != [] {
      MoreAllowed(order, few, many, moves[..|moves| - 1]);
    }
  }

  // ---- a stale rebuild ----

  /** A board of one player, with two callers. */
  function Pair(row: Row, index: Option<Index>, ttl: bool, a: Call, b: Call): Board {
    Board(map[1 := row], index, ttl, map[0 := a, 1 := b])
  }

  lemma Succeeds(order: SortOrder, kinds: set<Trouble>, b: Board, c: nat) returns (b': Board)
    requires Reached(order, kinds, b) && (!WritesStale(b, Issues(c, Done)) || StaleFill in kinds)
    ensures b' == Moved(order, b, Issues(c, Done)) && Reached(order, kinds, b')
  {
    b' := Continues(order, kinds, b, Issues(c, Done));
  }

  lemma OldLoads(order: SortOrder, worse: Submission)
    requires worse == Submission(1, 0, 0)
    ensures var goal := Mirror(worse);
            && Moved(order, NOBODY, Starts(0, goal))
            == Board(map[1 := Row(0, 0)], None, false, map[0 := Checking(goal)])
            && Moved(order, Board(map[1 := Row(0, 0)], None, false, map[0 := Checking(goal)]), Issues(0, Done))
            == Board(map[1 := Row(0, 0)], None, false, map[0 := Loading(goal)])
            && Moved(order, Board(map[1 := Row(0, 0)], None, false, map[0 := Loading(goal)]), Issues(0, Done))
            == Board(map[1 := Row(0, 0)], None, false, map[0 := Filling(goal, map[1 := 0])])
  {
    assert Scores(map[1 := Row(0, 0)]) == map[1 := 0];
  }

  lemma NewLoads(order: SortOrder, waits: Call, better: Submission)
    requires better.player == 1 && Beats(order, better.score, 0)
    ensures var goal, row := Mirror(better), Row(better.score, better.at);
            && Moved(order, Board(map[1 := Row(0, 0)], None, false, map[0 := waits]), Starts(1, goal))
            == Pair(row, None, false, waits, Checking(goal))
            && Moved(order, Pair(row, None, false, waits, Checking(goal)), Issues(1, Done))
            == Pair(row, None, false, waits, Loading(goal))
            && Moved(order, Pair(row, None, false, waits, Loading(goal)), Issues(1, Done))
            == Pair(row, None, false, waits, Filling(goal, map[1 := better.score]))
  {
    assert Scores(map[1 := Row(better.score, better.at)]) == map[1 := better.score];
  }

  lemma NewFills(order: SortOrder, waits: Call, better: Submission)
    requires better.player == 1
    ensures var goal, row, index := Mirror(better), Row(better.score, better.at), map[1 := better.score];
            && Moved(order, Pair(row, None, false, waits, Filling(goal, index)), Issues(1, Done))
            == Pair(row, Some(index), false, waits, Expiring(goal))
            && Moved(order, Pair(row, Some(index), false, waits, Expiring(goal)), Issues(1, Done))
            == Pair(row, Some(index), true, waits, Ready(goal))
            && Moved(order, Pair(row, Some(index), true, waits, Ready(goal)), Issues(1, Done))
            == Pair(row, Some(index), true, waits, Idle)
            && Scores(map[1 := row]) == index
  {
    assert map[] + map[1 := better.score] == map[1 := better.score];
  }

  lemma OldFills(order: SortOrder, row: Row, goal: Goal)
    requires goal == Mirror(Submission(1, 0, 0))
    ensures var rows := map[1 := 0];
            Moved(order, Pair(row, Some(map[1 := row.score]), true, Filling(goal, rows), Idle), Issues(0, Done))
            == Pair(row, Some(rows), true, Expiring(goal), Idle)
  {
    assert map[1 := row.score] + map[1 := 0] == map[1 := 0];
  }

  lemma OldMirrors(order: SortOrder, row: Row, goal: Goal)
    requires goal == Mirror(Submission(1, 0, 0))
    ensures var rows := map[1 := 0];
            && Moved(order, Pair(row, Some(rows), true, Expiring(goal), Idle), Issues(0, Done))
            == Pair(row, Some(rows), true, Ready(goal), Idle)
            && Moved(order, Pair(row, Some(rows), true, Ready(goal), Idle), Issues(0, Done))
            == Pair(row, Some(rows), true, Idle, Idle)
  {}

  /**
   * Every command succeeds and no key is lost, but a rebuild that loaded its rows before a better score was
   * submitted writes them after that score was mirrored: the old score is back, with nobody left to correct it.
   */
  lemma StaleRebuildRestoresOldScore(order: SortOrder, kinds: set<Trouble>, better: Submission) returns (b: Board)
    requires StaleFill in kinds && better.player == 1 && Beats(order, better.score, 0)
    ensures Reached(order, kinds, b) && Quiet(b) && b.table == map[1 := Row(better.score, better.at)]
    ensures b.index == Some(map[1 := 0]) && b.ttl
  {
    var worse, row := Submission(1, 0, 0), Row(better.score, better.at);
    var waits := Filling(Mirror(worse), map[1 := 0]);
    b := OldLoaded(order, kinds, worse);
    b := NewMirrored(order, kinds, b, waits, better);
    OldFills(order, row, Mirror(worse));
    OldMirrors(order, row, Mirror(worse));
    b := Succeeds(order, kinds, b, 0);
    b := Succeeds(order, kinds, b, 0);
    b := Succeeds(order, kinds, b, 0);
  }

  lemma OldLoaded(order: SortOrder, kinds: set<Trouble>, worse: Submission) returns (b: Board)
    requires worse == Submission(1, 0, 0)
    ensures Reached(order, kinds, b)
    ensures b == Board(map[1 := Row(0, 0)], None, false, map[0 := Filling(Mirror(worse), map[1 := 0])])
  {
    OldLoads(order, worse);
    Begins(order, kinds);
    b := Continues(order, kinds, NOBODY, Starts(0, Mirror(worse)));
    b := Succeeds(order, kinds, b, 0);
    b := Succeeds(order, kinds, b, 0);
  }

  lemma NewMirrored(order: SortOrder, kinds: set<Trouble>, before: Board, waits: Call, better: Submission)
    returns (b: Board)
    requires Reached(order, kinds, before) && better.player == 1 && Beats(order, better.score, 0)
    requires before == Board(map[1 := Row(0, 0)], None, false, map[0 := waits])
    ensures Reached(order, kinds, b)
    ensures b == Pair(Row(better.score, better.at), Some(map[1 := better.score]), true, waits, Idle)
  {
    NewLoads(order, waits, better);
    NewFills(order, waits, better);
    b := Continues(order, kinds, before, Starts(1, Mirror(better)));
    b := Succeeds(order, kinds, b, 1);
    b := Succeeds(order, kinds, b, 1);
    b := Succeeds(order, kinds, b, 1);
    b := Succeeds(order, kinds, b, 1);
    b := Succeeds(order, kinds, b, 1);
  }

  /**
   * However calls overlap, an existing key is exact once no mirror write is outstanding, whatever else goes wrong,
   * if and only if no mirror write is lost and no rebuild writes rows that the table has overtaken.
   */
  lemma ExactDespiteIff(order: SortOrder, kinds: set<Trouble>)
    ensures ExactDespite(order, kinds) <==> kinds !! SPOILS
  {
    if kinds !! SPOILS {
      forall b | Reached(order, kinds, b) && Quiet(b) ensures ExactNow(b) {
        var moves :| OnlyThese(order, kinds, moves) && Play(order, moves) == b;
        PlayIsSound(order, kinds, moves);
        SoundIsExact(order, b);
      }
    } else if StaleFill in kinds {
      var better := Submission(1, if order.Descending? then 1 else -1, 0);
      var b := StaleRebuildRestoresOldScore(order, kinds, better);
      assert Scores(b.table)[1] == better.score != b.index.value[1];
    } else {
      var t :| t in kinds && t in SPOILS;
      LostWriteSpoils(order, kinds, t.mishap);
    }
  }
}
