/** The sorted-set index: a rebuildable cache of one board's scores, one Valkey command at a time. */
module LeaderboardIndex {
  import opened Base
  import opened Leaderboard

  type Index = map<UUID, int>

  /** What a call wants of the index: to mirror a submission, or a player's rank. */
  datatype Goal = Mirror(sub: Submission) | Rank(player: UUID)

  /** Where the call in progress stands: named after the command it issues next. */
  datatype Call =
    | Idle
    | Checking(goal: Goal)
    | Loading(goal: Goal)
    | Filling(goal: Goal, rows: Index)
    | Expiring(goal: Goal)
    | Ready(goal: Goal)
    | Fetching(player: UUID, rank: nat)
    | Counting(player: UUID)
    | Answered(player: UUID, answer: Option<nat>)
  {
    predicate Busy() { !Idle? && !Answered? }

    /** The table has the submission and the index is still to get it. */
    predicate Mirrors() { (Checking? || Loading? || Filling? || Expiring? || Ready?) && goal.Mirror? }

    /** The key was found or built, and the command that relies on it is still to come. */
    predicate Relies() { Expiring? || Ready? }
  }

  /**
   * The table; the sorted set when its key exists, and whether that key has a TTL; the call in progress. As
   * history: all submissions, and those whose scores reached the key that exists now.
   */
  datatype State = State(
    table: Table,
    index: Option<Index>,
    ttl: bool,
    call: Call,
    submitted: seq<Submission>,
    reflected: seq<Submission>
  ) {
    function Scored(): Index { if index.Some? then index.value else map[] }
  }

  const EMPTY := State(map[], None, false, Idle, [], [])

  /** A command succeeds, fails without effect, or takes effect although its caller sees an error. */
  datatype Reply = Done | Refused | Unanswered

  /** Calls come one at a time; the key can be lost at any point, also between two commands of one call. */
  datatype Act = Begin(goal: Goal) | Command(reply: Reply) | KeyLost

  /** ZADD with GT or LT: insert, or move to a strictly better score. */
  function Add(order: SortOrder, index: Index, p: UUID, score: int): Index {
    if p !in index || Beats(order, score, index[p]) then index[p := score] else index
  }

  /** The members strictly before one in ZRANK order, or in ZREVRANK order for a descending board. */
  predicate Before(order: SortOrder, a: int, m: UUID, b: int, n: UUID) {
    Beats(order, a, b) || (a == b && if order.Ascending? then m < n else m > n)
  }

  ghost function BeforeOf(order: SortOrder, index: Index, p: UUID): set<UUID>
    requires p in index
  {
    set o | o in index && Before(order, index[o], o, index[p], p)
  }

  ghost function IndexRank(order: SortOrder, index: Index, p: UUID): nat
    requires p in index
  {
    1 + |BeforeOf(order, index, p)|
  }

  /** An error while building: a submission is done without its mirror write, a lookup falls back to the table. */
  function GaveUp(s: State, goal: Goal): State {
    s.(call := if goal.Mirror? then Idle else Counting(goal.player))
  }

  ghost function Commanded(order: SortOrder, s: State, reply: Reply): State {
    match s.call
    case Checking(goal) =>
      if !reply.Done? then GaveUp(s, goal) else s.(call := if s.index.Some? then Ready(goal) else Loading(goal))
    case Loading(goal) =>
      if !reply.Done? then GaveUp(s, goal)
      else if s.table == map[] then s.(call := Ready(goal))
      else s.(call := Filling(goal, Scores(s.table)))
    case Filling(goal, rows) => Filled(s, goal, rows, reply)
    case Expiring(goal) =>
      var timed := if reply.Refused? then s else s.(ttl := s.index.Some?);
      if reply.Done? then timed.(call := Ready(goal)) else GaveUp(timed, goal)
    case Ready(goal) =>
      if goal.Mirror? then Mirrored(order, s, goal.sub, reply) else Ranked(order, s, goal.player, reply)
    case Fetching(p, rank) =>
      s.(call := if reply.Done? then Answered(p, if p in s.table then Some(rank) else None) else Counting(p))
    case Counting(p) =>
      s.(call := if !reply.Done? then Idle
                 else Answered(p, if p in s.table then Some(RankOf(order, s.table, p)) else None))
    case Idle => s
    case Answered(_, _) => s
  }

  /** The rebuild's ZADD of every row. */
  function Filled(s: State, goal: Goal, rows: Index, reply: Reply): State {
    if reply.Refused? then GaveUp(s, goal)
    else
      var filled := s.(index := Some(s.Scored() + rows), ttl := s.index.Some? && s.ttl, reflected := s.submitted);
      if reply.Done? then filled.(call := Expiring(goal)) else GaveUp(filled, goal)
  }

  /** The mirror write; on a missing key it creates one, without a TTL. */
  function Mirrored(order: SortOrder, s: State, sub: Submission, reply: Reply): State {
    if reply.Refused? then s.(call := Idle)
    else
      s.(index := Some(Add(order, s.Scored(), sub.player, sub.score)), ttl := s.index.Some? && s.ttl, call := Idle,
         reflected := s.reflected + [sub])
  }

  /** A member that is missing, or a key that is, means an unranked player; only errors fall back to the table. */
  ghost function Ranked(order: SortOrder, s: State, p: UUID, reply: Reply): State {
    s.(call := if !reply.Done? then Counting(p)
               else if p in s.Scored() then Fetching(p, IndexRank(order, s.Scored(), p)) else Answered(p, None))
  }

  /** The submission's upsert comes first. */
  function Begun(order: SortOrder, s: State, goal: Goal): State {
    if s.call.Busy() then s
    else if goal.Rank? then s.(call := Checking(goal))
    else s.(table := Upsert(order, s.table, goal.sub).0, submitted := s.submitted + [goal.sub], call := Checking(goal))
  }

  function KeyGone(s: State): State { s.(index := None, ttl := false, reflected := []) }

  ghost function Step(order: SortOrder, s: State, a: Act): State {
    match a
    case Begin(goal) => Begun(order, s, goal)
    case Command(reply) => Commanded(order, s, reply)
    case KeyLost => KeyGone(s)
  }

  ghost function Run(order: SortOrder, acts: seq<Act>): State {
    if acts == [] then EMPTY else Step(order, Run(order, acts[..|acts| - 1]), acts[|acts| - 1])
  }

  // ---- what the index is ----

  /** The table is keep-best over all submissions; the index is keep-best over those that reached it. */
  ghost predicate Inv(order: SortOrder, s: State) {
    && s.table == History(order, s.submitted)
    && (s.index.None? ==> s.reflected == [])
    && (s.index.Some? ==> s.index.value == Scores(History(order, s.reflected)))
    && (forall x :: x in s.reflected ==> x in s.submitted)
    && CallOk(s)
  }

  ghost predicate CallOk(s: State) {
    && (s.call.Loading? || s.call.Filling? ==> s.index.None?)
    && (s.call.Filling? ==> s.call.rows == Scores(s.table))
    && (s.call.Mirrors() ==> s.submitted != [] && s.submitted[|s.submitted| - 1] == s.call.goal.sub)
  }

  lemma AddIsUpsert(order: SortOrder, seen: seq<Submission>, sub: Submission)
    ensures Scores(History(order, seen + [sub])) == Add(order, Scores(History(order, seen)), sub.player, sub.score)
  {
    assert (seen + [sub])[..|seen|] == seen;
  }

  lemma UpsertIsHistory(order: SortOrder, subs: seq<Submission>, sub: Submission)
    ensures History(order, subs + [sub]) == Upsert(order, History(order, subs), sub).0
  {
    assert (subs + [sub])[..|subs|] == subs;
  }

  /** Commands other than the two writes move the call on and change no data. */
  ghost predicate Writes(s: State) { s.call.Filling? || (s.call.Ready? && s.call.goal.Mirror?) }

  lemma ReadMovesCall(order: SortOrder, s: State, reply: Reply)
    requires !Writes(s)
    ensures var s' := Commanded(order, s, reply); s' == s.(call := s'.call, ttl := s'.ttl)
    ensures CallOk(s) ==> CallOk(Commanded(order, s, reply))
  {}

  lemma FillKeepsInv(order: SortOrder, s: State, reply: Reply)
    requires Inv(order, s) && s.call.Filling?
    ensures Inv(order, Filled(s, s.call.goal, s.call.rows, reply))
  {
    assert map[] + s.call.rows == s.call.rows;
  }

  lemma MirrorKeepsInv(order: SortOrder, s: State, sub: Submission, reply: Reply)
    requires Inv(order, s) && sub in s.submitted
    ensures Inv(order, Mirrored(order, s, sub, reply))
  {
    AddIsUpsert(order, s.reflected, sub);
    assert Scores(History(order, [])) == map[];
  }

  lemma BeginKeepsInv(order: SortOrder, s: State, goal: Goal)
    requires Inv(order, s)
    ensures Inv(order, Begun(order, s, goal))
  {
    if goal.Mirror? {
      UpsertIsHistory(order, s.submitted, goal.sub);
    }
  }

  lemma StepKeepsInv(order: SortOrder, s: State, a: Act)
    requires Inv(order, s)
    ensures Inv(order, Step(order, s, a))
  {
    match a
    case Begin(goal) => BeginKeepsInv(order, s, goal);
    case KeyLost =>
    case Command(reply) =>
      if s.call.Filling? {
        FillKeepsInv(order, s, reply);
      } else if Writes(s) {
        MirrorKeepsInv(order, s, s.call.goal.sub, reply);
      } else {
        ReadMovesCall(order, s, reply);
      }
  }

  lemma {:induction false} RunKeepsInv(order: SortOrder, acts: seq<Act>)
    ensures Inv(order, Run(order, acts))
  {
    if acts != [] {
      RunKeepsInv(order, acts[..|acts| - 1]);
      StepKeepsInv(order, Run(order, acts[..|acts| - 1]), acts[|acts| - 1]);
    }
  }

  /** In every run the table is the best of all submissions, and an existing key the best of those that reached it. */
  lemma IndexIsWhatReachedIt(order: SortOrder, acts: seq<Act>)
    ensures var s := Run(order, acts);
            && s.table == History(order, s.submitted)
            && (s.index.Some? ==> s.index.value == Scores(History(order, s.reflected)))
            && forall x :: x in s.reflected ==> x in s.submitted
  {
    RunKeepsInv(order, acts);
  }

  ghost predicate Exact(s: State) { s.index.Some? ==> s.index.value == Scores(s.table) }

  /** A score that reached the index is the player's best. */
  ghost predicate BestReached(order: SortOrder, s: State, p: UUID) {
    exists i :: 0 <= i < |s.reflected| && s.reflected[i].player == p
                && forall j :: 0 <= j < |s.submitted| && s.submitted[j].player == p ==>
                                 !Beats(order, s.submitted[j].score, s.reflected[i].score)
  }

  /** In every run an existing key is exact if and only if every player's best score has reached it. */
  lemma ExactIff(order: SortOrder, acts: seq<Act>)
    ensures var s := Run(order, acts);
            Exact(s) <==> s.index.None? || forall p :: p in s.table ==> BestReached(order, s, p)
  {
    var s := Run(order, acts);
    RunKeepsInv(order, acts);
    if s.index.Some? {
      forall p | p in s.table
        ensures BestReached(order, s, p) <==> p in s.index.value && s.index.value[p] == s.table[p].score
      {
        ExactForIff(order, s, p);
      }
      KeysReached(order, s);
      if forall p :: p in s.table ==> BestReached(order, s, p) {
        assert s.index.value == Scores(s.table);
      }
    }
  }

  lemma KeysReached(order: SortOrder, s: State)
    requires Inv(order, s) && s.index.Some?
    ensures s.index.value.Keys <= s.table.Keys
  {
    forall p | p in s.index.value ensures p in s.table {
      HistoryKeepsBest(order, s.reflected, p);
      HistoryKeepsBest(order, s.submitted, p);
      var i :| 0 <= i < |s.reflected| && s.reflected[i].player == p;
      assert s.reflected[i] in s.submitted;
    }
  }

  lemma ExactForIff(order: SortOrder, s: State, p: UUID)
    requires Inv(order, s) && s.index.Some? && p in s.table
    ensures BestReached(order, s, p) <==> p in s.index.value && s.index.value[p] == s.table[p].score
  {
    HistoryKeepsBest(order, s.reflected, p);
    HistoryKeepsBest(order, s.submitted, p);
    if BestReached(order, s, p) {
      BestReachedShows(order, s.submitted, s.reflected, p, s.table[p], History(order, s.reflected)[p]);
    }
    if p in s.index.value && s.index.value[p] == s.table[p].score {
      var row := History(order, s.reflected)[p];
      var i :| 0 <= i < |s.reflected| && s.reflected[i] == Submission(p, row.score, row.achievedAt);
      assert s.reflected[i].score == s.table[p].score;
    }
  }

  lemma BestReachedShows(order: SortOrder, subs: seq<Submission>, seen: seq<Submission>, p: UUID, best: Row, shown: Row)
    requires IsBest(order, subs, p, best) && IsBest(order, seen, p, shown) && forall x :: x in seen ==> x in subs
    requires exists i :: 0 <= i < |seen| && seen[i].player == p
                         && forall j :: 0 <= j < |subs| && subs[j].player == p ==>
                                          !Beats(order, subs[j].score, seen[i].score)
    ensures shown.score == best.score
  {
    BestIn(order, seen, subs, p, shown, best);
    var i :| 0 <= i < |seen| && seen[i].player == p
             && forall j :: 0 <= j < |subs| && subs[j].player == p ==> !Beats(order, subs[j].score, seen[i].score);
    var j :| 0 <= j < |subs| && subs[j] == Submission(p, best.score, best.achievedAt);
    assert !Beats(order, subs[j].score, seen[i].score);
    assert !Beats(order, seen[i].score, shown.score);
  }

  /** The table ranks the player, but a lookup through the index reports them as unranked. */
  ghost predicate Hidden(s: State, p: UUID) { p in s.table && s.index.Some? && p !in s.index.value }

  ghost predicate Names(subs: seq<Submission>, p: UUID) { exists i :: 0 <= i < |subs| && subs[i].player == p }

  /** In every run a player is hidden iff the key exists, they submitted, and nothing of theirs reached it. */
  lemma HiddenIff(order: SortOrder, acts: seq<Act>, p: UUID)
    ensures var s := Run(order, acts);
            Hidden(s, p) <==> s.index.Some? && Names(s.submitted, p) && !Names(s.reflected, p)
  {
    var s := Run(order, acts);
    RunKeepsInv(order, acts);
    HistoryKeepsBest(order, s.submitted, p);
    HistoryKeepsBest(order, s.reflected, p);
  }

  /** Whatever is lost, no index score is better than the table's, and nobody is indexed who is not on the board. */
  lemma IndexNeverBetter(order: SortOrder, acts: seq<Act>, p: UUID)
    ensures var s := Run(order, acts);
            p in s.Scored() ==> p in s.table && !Beats(order, s.Scored()[p], s.table[p].score)
  {
    var s := Run(order, acts);
    RunKeepsInv(order, acts);
    if p in s.Scored() {
      KeysReached(order, s);
      HistoryKeepsBest(order, s.submitted, p);
      HistoryKeepsBest(order, s.reflected, p);
      BestIn(order, s.reflected, s.submitted, p, History(order, s.reflected)[p], s.table[p]);
    }
  }

  // ---- which mishaps matter ----

  /** What can go wrong at a step. */
  datatype Mishap =
    | LostWhileMirroring
    | LostWhileRanking
    | LostElsewhere
    | CheckFailed
    | MirrorRefused
    | MirrorUnanswered
    | RebuildFailed
    | LookupFailed

  function MishapOf(s: State, a: Act): Option<Mishap> {
    match a
    case Begin(_) => None
    case KeyLost =>
      Some(if !s.call.Relies() then LostElsewhere
           else if s.call.goal.Mirror? then LostWhileMirroring else LostWhileRanking)
    case Command(reply) => if reply.Done? || !s.call.Busy() then None else Some(Failure(s.call, reply))
  }

  function Failure(call: Call, reply: Reply): Mishap {
    if call.Loading? || call.Filling? || call.Expiring? then RebuildFailed
    else if !call.Mirrors() then LookupFailed
    else if call.Checking? then CheckFailed
    else if reply.Refused? then MirrorRefused else MirrorUnanswered
  }

  /** Only mishaps of these kinds happen in the run. */
  ghost predicate Only(order: SortOrder, kinds: set<Mishap>, acts: seq<Act>) {
    acts == [] ||
    var init := acts[..|acts| - 1];
    Only(order, kinds, init) && Allowed(kinds, Run(order, init), acts[|acts| - 1])
  }

  ghost predicate Allowed(kinds: set<Mishap>, s: State, a: Act) {
    MishapOf(s, a).Some? ==> MishapOf(s, a).value in kinds
  }

  /** Some run with mishaps of these kinds only leads here. */
  ghost predicate Reachable(order: SortOrder, kinds: set<Mishap>, s: State) {
    exists acts :: Only(order, kinds, acts) && Run(order, acts) == s
  }

  lemma NothingYet(order: SortOrder, kinds: set<Mishap>)
    ensures Reachable(order, kinds, EMPTY)
  {
    assert Only(order, kinds, []) && Run(order, []) == EMPTY;
  }

  lemma Next(order: SortOrder, kinds: set<Mishap>, s: State, a: Act) returns (s': State)
    requires Reachable(order, kinds, s) && Allowed(kinds, s, a)
    ensures s' == Step(order, s, a) && Reachable(order, kinds, s')
  {
    var acts :| Only(order, kinds, acts) && Run(order, acts) == s;
    s' := Step(order, s, a);
    var acts' := acts + [a];
    assert acts'[..|acts|] == acts;
    assert Only(order, kinds, acts') && Run(order, acts') == s';
  }

  const LOSES_A_WRITE: set<Mishap> := {LostWhileMirroring, CheckFailed, MirrorRefused}

  /** While no write is lost, all submissions but the one being mirrored have reached an existing key. */
  ghost predicate Clean(s: State) {
    && (s.index.Some? ==>
          forall x :: x in s.submitted ==> x in s.reflected || (s.call.Mirrors() && x == s.call.goal.sub))
    && (s.call.Mirrors() && s.call.Relies() ==> s.index.Some?)
    && (s.call.Mirrors() && s.call.Expiring? ==> forall x :: x in s.submitted ==> x in s.reflected)
  }

  lemma CommandKeepsClean(order: SortOrder, s: State, reply: Reply)
    requires Inv(order, s) && Clean(s)
    requires MishapOf(s, Command(reply)).Some? ==> MishapOf(s, Command(reply)).value !in LOSES_A_WRITE
    ensures Clean(Commanded(order, s, reply))
  {
    if !Writes(s) {
      ReadMovesCall(order, s, reply);
      if s.call.Mirrors() && s.call.Loading? {
        assert s.submitted[|s.submitted| - 1].player in s.table;
      }
    }
  }

  lemma StepKeepsClean(order: SortOrder, s: State, a: Act)
    requires Inv(order, s) && Clean(s) && (MishapOf(s, a).Some? ==> MishapOf(s, a).value !in LOSES_A_WRITE)
    ensures Clean(Step(order, s, a))
  {
    match a
    case Begin(goal) =>
    case KeyLost =>
    case Command(reply) => CommandKeepsClean(order, s, reply);
  }

  lemma {:induction false} RunStaysClean(order: SortOrder, kinds: set<Mishap>, acts: seq<Act>)
    requires kinds !! LOSES_A_WRITE && Only(order, kinds, acts)
    ensures Clean(Run(order, acts))
  {
    if acts != [] {
      var init := acts[..|acts| - 1];
      RunStaysClean(order, kinds, init);
      RunKeepsInv(order, init);
      StepKeepsClean(order, Run(order, init), acts[|acts| - 1]);
    }
  }

  lemma CleanIsExact(order: SortOrder, acts: seq<Act>)
    requires Clean(Run(order, acts)) && !Run(order, acts).call.Mirrors()
    ensures Exact(Run(order, acts))
  {
    var s := Run(order, acts);
    RunKeepsInv(order, acts);
    ExactIff(order, acts);
    if s.index.Some? {
      forall p | p in s.table ensures BestReached(order, s, p) {
        HistoryKeepsBest(order, s.submitted, p);
        var best := s.table[p];
        var j :| 0 <= j < |s.submitted| && s.submitted[j] == Submission(p, best.score, best.achievedAt)
                 && forall j :: 0 <= j < |s.submitted| && s.submitted[j].player == p ==>
                                  !Beats(order, s.submitted[j].score, best.score);
        assert s.submitted[j] in s.reflected;
        var i :| 0 <= i < |s.reflected| && s.reflected[i] == s.submitted[j];
      }
    }
  }

  /** Between calls, and during lookups, an existing key is exact in every run with mishaps of these kinds only. */
  ghost predicate ExactUnder(order: SortOrder, kinds: set<Mishap>) {
    forall s :: Reachable(order, kinds, s) && !s.call.Mirrors() ==> Exact(s)
  }

  const FIRST_SUBMISSION := Submission(1, 0, 0)
  const SECOND_SUBMISSION := Submission(2, 0, 0)

  /** A board with the first submission alone, while its call stands at the given point. */
  function FirstAt(call: Call, index: Option<Index>, ttl: bool): State {
    State(map[1 := Row(0, 0)], index, ttl, call, [FIRST_SUBMISSION], if index.Some? then [FIRST_SUBMISSION] else [])
  }

  lemma FirstLoads(order: SortOrder, goal: Goal)
    requires goal == Mirror(FIRST_SUBMISSION)
    ensures Step(order, EMPTY, Begin(goal)) == FirstAt(Checking(goal), None, false)
    ensures Step(order, FirstAt(Checking(goal), None, false), Command(Done)) == FirstAt(Loading(goal), None, false)
    ensures Step(order, FirstAt(Loading(goal), None, false), Command(Done))
         == FirstAt(Filling(goal, map[1 := 0]), None, false)
  {
    assert Scores(map[1 := Row(0, 0)]) == map[1 := 0];
  }

  lemma FirstFills(order: SortOrder, goal: Goal)
    requires goal == Mirror(FIRST_SUBMISSION)
    ensures Step(order, FirstAt(Filling(goal, map[1 := 0]), None, false), Command(Done))
         == FirstAt(Expiring(goal), Some(map[1 := 0]), false)
    ensures Step(order, FirstAt(Expiring(goal), Some(map[1 := 0]), false), Command(Done))
         == FirstAt(Ready(goal), Some(map[1 := 0]), true)
  {
    assert map[] + map[1 := 0] == map[1 := 0];
  }

  /** One submission on an empty board, with nothing going wrong: the key is built, and has a TTL. */
  lemma FirstSubmitted(order: SortOrder, kinds: set<Mishap>) returns (s: State)
    ensures Reachable(order, kinds, s)
    ensures s.call == Idle && s.index == Some(map[1 := 0]) && s.ttl && s.table == map[1 := Row(0, 0)]
  {
    var goal := Mirror(FIRST_SUBMISSION);
    s := FirstFilling(order, kinds, goal);
    FirstFills(order, goal);
    s := Succeed(order, kinds, s);
    s := Succeed(order, kinds, s);
    FirstMirrors(order, kinds);
    s := Succeed(order, kinds, s);
  }

  lemma FirstMirrors(order: SortOrder, kinds: set<Mishap>)
    ensures var s := Step(order, FirstAt(Ready(Mirror(FIRST_SUBMISSION)), Some(map[1 := 0]), true), Command(Done));
            s.call == Idle && s.index == Some(map[1 := 0]) && s.ttl && s.table == map[1 := Row(0, 0)]
  {}

  lemma FirstFilling(order: SortOrder, kinds: set<Mishap>, goal: Goal) returns (s: State)
    requires goal == Mirror(FIRST_SUBMISSION)
    ensures Reachable(order, kinds, s) && s == FirstAt(Filling(goal, map[1 := 0]), None, false)
  {
    FirstLoads(order, goal);
    NothingYet(order, kinds);
    s := Next(order, kinds, EMPTY, Begin(goal));
    s := Succeed(order, kinds, s);
    s := Succeed(order, kinds, s);
  }

  /** The next command can always succeed. */
  lemma Succeed(order: SortOrder, kinds: set<Mishap>, s: State) returns (s': State)
    requires Reachable(order, kinds, s)
    ensures s' == Step(order, s, Command(Done)) && Reachable(order, kinds, s')
  {
    s' := Next(order, kinds, s, Command(Done));
  }

  lemma CallIsReady(order: SortOrder, s: State, goal: Goal)
    requires !s.call.Busy() && s.index.Some?
    ensures Begun(order, s, goal).call == Checking(goal) && Begun(order, s, goal).index == s.index
    ensures Commanded(order, Begun(order, s, goal), Done) == Begun(order, s, goal).(call := Ready(goal))
    ensures goal.Rank? ==> Begun(order, s, goal).table == s.table
    ensures forall p :: p in s.table ==> p in Begun(order, s, goal).table
  {}

  /**
   * Every command of a submission succeeds, but the key goes between EXISTS and ZADD: the ZADD makes a new key
   * with that one member and no TTL, and everybody else on the board is hidden.
   */
  lemma LateLossHidesOthers(order: SortOrder, s: State, sub: Submission)
    requires !s.call.Busy() && s.index.Some?
    ensures var ready := Step(order, Step(order, s, Begin(Mirror(sub))), Command(Done));
            var s' := Step(order, Step(order, ready, KeyLost), Command(Done));
            && ready.call == Ready(Mirror(sub))
            && s'.call == Idle && s'.index == Some(map[sub.player := sub.score]) && !s'.ttl
            && forall p :: p in s.table && p != sub.player ==> Hidden(s', p)
  {
    CallIsReady(order, s, Mirror(sub));
  }

  /** A new player whose EXISTS or mirror write fails while the key stays is hidden. */
  lemma LostWriteHidesPlayer(order: SortOrder, s: State, sub: Submission)
    requires !s.call.Busy() && s.index.Some? && sub.player !in s.index.value
    ensures var begun := Step(order, s, Begin(Mirror(sub)));
            && begun.call == Checking(Mirror(sub)) && Hidden(Step(order, begun, Command(Refused)), sub.player)
            && Step(order, begun, Command(Done)).call == Ready(Mirror(sub))
            && Hidden(Step(order, Step(order, begun, Command(Done)), Command(Refused)), sub.player)
            && Step(order, begun, Command(Refused)).call == Idle
            && Step(order, Step(order, begun, Command(Done)), Command(Refused)).call == Idle
  {
    CallIsReady(order, s, Mirror(sub));
  }

  /** Someone can be hidden as soon as one mishap that loses a write can happen. */
  lemma SomeoneHidden(order: SortOrder, kinds: set<Mishap>) returns (s: State, p: UUID)
    requires !(kinds !! LOSES_A_WRITE)
    ensures Reachable(order, kinds, s) && s.call == Idle && Hidden(s, p)
  {
    s := FirstSubmitted(order, kinds);
    LateLossHidesOthers(order, s, SECOND_SUBMISSION);
    LostWriteHidesPlayer(order, s, SECOND_SUBMISSION);
    s := Next(order, kinds, s, Begin(Mirror(SECOND_SUBMISSION)));
    if CheckFailed in kinds {
      p := 2;
      s := Next(order, kinds, s, Command(Refused));
    } else if MirrorRefused in kinds {
      p := 2;
      s := Succeed(order, kinds, s);
      s := Next(order, kinds, s, Command(Refused));
    } else {
      p := 1;
      s := Succeed(order, kinds, s);
      s := Next(order, kinds, s, KeyLost);
      s := Succeed(order, kinds, s);
    }
  }

  /**
   * The index is exact whatever else goes wrong - keys lost at other points, failed rebuilds, failed lookups,
   * lost answers - if and only if no submission's EXISTS fails, no mirror write is refused, and no key goes between
   * the EXISTS and the ZADD of one submission.
   */
  lemma ExactUnderIff(order: SortOrder, kinds: set<Mishap>)
    ensures ExactUnder(order, kinds) <==> kinds !! LOSES_A_WRITE
  {
    if kinds !! LOSES_A_WRITE {
      forall s | Reachable(order, kinds, s) && !s.call.Mirrors() ensures Exact(s) {
        var acts :| Only(order, kinds, acts) && Run(order, acts) == s;
        RunStaysClean(order, kinds, acts);
        CleanIsExact(order, acts);
      }
    } else {
      var s, p := SomeoneHidden(order, kinds);
      assert !Exact(s);
    }
  }

  // ---- lookups ----

  /** A lookup's answer: found exactly when the table has the player, at a rank their score allows. */
  ghost predicate AnswerRight(order: SortOrder, s: State) {
    s.call.Answered? ==>
      var p, r := s.call.player, s.call.answer;
      && (r.Some? <==> p in s.table)
      && (p in s.table && r.Some? ==> 1 + |Better(order, s.table, p)| <= r.value <= |BetterOrEqual(order, s.table, p)|)
  }

  ghost predicate AnswersRightUnder(order: SortOrder, kinds: set<Mishap>) {
    forall s :: Reachable(order, kinds, s) ==> AnswerRight(order, s)
  }

  const MISLEADS: set<Mishap> := LOSES_A_WRITE + {LostWhileRanking}

  /** While nothing misleads, a lookup that relies on the key has it, and a rank taken from it is the table's. */
  ghost predicate LookupOk(order: SortOrder, s: State) {
    && (s.call.Relies() && s.table != map[] ==> s.index.Some?)
    && (s.call.Fetching? ==>
          s.call.player in s.table && s.call.rank == IndexRank(order, Scores(s.table), s.call.player))
    && AnswerRight(order, s)
  }

  lemma AnswerIsRight(order: SortOrder, s: State, reply: Reply)
    requires LookupOk(order, s) && (s.call.Fetching? || s.call.Counting?)
    ensures LookupOk(order, Commanded(order, s, reply))
  {
    if s.call.player in s.table {
      RanksBracketed(order, s.table, s.call.player);
    }
  }

  lemma RankedIsRight(order: SortOrder, s: State, p: UUID, reply: Reply)
    requires LookupOk(order, s) && s.call == Ready(Rank(p)) && Exact(s)
    ensures LookupOk(order, Commanded(order, s, reply))
  {
    assert s.table == map[] ==> p !in s.table;
  }

  lemma BuildKeepsLookup(order: SortOrder, s: State, reply: Reply)
    requires LookupOk(order, s) && !s.call.Fetching? && !s.call.Counting? && !(s.call.Ready? && s.call.goal.Rank?)
    ensures LookupOk(order, Commanded(order, s, reply))
  {}

  lemma CommandKeepsLookup(order: SortOrder, s: State, reply: Reply)
    requires LookupOk(order, s) && (!s.call.Mirrors() ==> Exact(s))
    ensures LookupOk(order, Commanded(order, s, reply))
  {
    if s.call.Fetching? || s.call.Counting? {
      AnswerIsRight(order, s, reply);
    } else if s.call.Ready? && s.call.goal.Rank? {
      RankedIsRight(order, s, s.call.goal.player, reply);
    } else {
      BuildKeepsLookup(order, s, reply);
    }
  }

  lemma StepKeepsLookup(order: SortOrder, s: State, a: Act)
    requires Inv(order, s) && LookupOk(order, s) && (!s.call.Mirrors() ==> Exact(s))
    requires MishapOf(s, a).Some? ==> MishapOf(s, a).value !in MISLEADS
    ensures LookupOk(order, Step(order, s, a))
  {
    match a
    case Begin(_) =>
    case KeyLost =>
    case Command(reply) => CommandKeepsLookup(order, s, reply);
  }

  lemma {:induction false} RunKeepsLookup(order: SortOrder, kinds: set<Mishap>, acts: seq<Act>)
    requires kinds !! MISLEADS && Only(order, kinds, acts)
    ensures LookupOk(order, Run(order, acts))
  {
    if acts != [] {
      var init := acts[..|acts| - 1];
      RunKeepsLookup(order, kinds, init);
      RunStaysClean(order, kinds, init);
      RunKeepsInv(order, init);
      if !Run(order, init).call.Mirrors() {
        CleanIsExact(order, init);
      }
      StepKeepsLookup(order, Run(order, init), acts[|acts| - 1]);
    }
  }

  /** A lookup of a hidden player, or one whose key goes between EXISTS and the rank command, finds nobody. */
  lemma LookupMisses(order: SortOrder, s: State, p: UUID)
    requires !s.call.Busy() && p in s.table && s.index.Some?
    ensures var ready := Step(order, Step(order, s, Begin(Rank(p))), Command(Done));
            && ready.call == Ready(Rank(p)) && ready.table == s.table
            && Step(order, Step(order, ready, KeyLost), Command(Done)).call == Answered(p, None)
            && (p !in s.index.value ==> Step(order, ready, Command(Done)).call == Answered(p, None))
  {
    CallIsReady(order, s, Rank(p));
    var ready := Step(order, Step(order, s, Begin(Rank(p))), Command(Done));
    RankMisses(order, KeyGone(ready), p);
    if p !in s.index.value {
      RankMisses(order, ready, p);
    }
  }

  lemma RankMisses(order: SortOrder, s: State, p: UUID)
    requires s.call == Ready(Rank(p)) && p !in s.Scored()
    ensures Commanded(order, s, Done) == s.(call := Answered(p, None))
  {}

  lemma WrongAnswer(order: SortOrder, kinds: set<Mishap>, before: State, p: UUID, lost: bool) returns (s: State)
    requires Reachable(order, kinds, before) && !before.call.Busy() && p in before.table && before.index.Some?
    requires if lost then LostWhileRanking in kinds else p !in before.index.value
    ensures Reachable(order, kinds, s) && s.call == Answered(p, None) && p in s.table
  {
    LookupMisses(order, before, p);
    s := Next(order, kinds, before, Begin(Rank(p)));
    s := Succeed(order, kinds, s);
    if lost {
      s := Next(order, kinds, s, KeyLost);
    }
    s := Succeed(order, kinds, s);
  }

  /** Lookups answer right in every run iff, in addition, no key goes between a lookup's own EXISTS and rank. */
  lemma AnswersRightIff(order: SortOrder, kinds: set<Mishap>)
    ensures AnswersRightUnder(order, kinds) <==> kinds !! MISLEADS
  {
    if kinds !! MISLEADS {
      forall s | Reachable(order, kinds, s) ensures AnswerRight(order, s) {
        var acts :| Only(order, kinds, acts) && Run(order, acts) == s;
        RunKeepsLookup(order, kinds, acts);
      }
    } else {
      var s := FirstSubmitted(order, kinds);
      var p := 1;
      var lost := LostWhileRanking in kinds;
      if !lost {
        s, p := SomeoneHidden(order, kinds);
      }
      s := WrongAnswer(order, kinds, s, p, lost);
      assert !AnswerRight(order, s);
    }
  }

  /** After any history, losing the key and then starting any call makes the index equal the best of all submissions. */
  lemma RebuildRestores(order: SortOrder, acts: seq<Act>, goal: Goal)
    requires !Run(order, acts).call.Busy()
    ensures var begun := Step(order, Step(order, Run(order, acts), KeyLost), Begin(goal));
            var s := Step(order, Step(order, Step(order, begun, Command(Done)), Command(Done)), Command(Done));
            begun.submitted != [] ==> s.index == Some(Scores(History(order, begun.submitted))) && Exact(s)
  {
    RunKeepsInv(order, acts);
    StepKeepsInv(order, Run(order, acts), KeyLost);
    StepKeepsInv(order, KeyGone(Run(order, acts)), Begin(goal));
    var begun := Begun(order, KeyGone(Run(order, acts)), goal);
    if begun.submitted != [] {
      assert begun.submitted[|begun.submitted| - 1].player in begun.table;
      Rebuilt(order, begun, goal);
    }
  }

  lemma Rebuilt(order: SortOrder, s: State, goal: Goal)
    requires s.call == Checking(goal) && s.index.None? && s.table != map[]
    ensures var s' := Commanded(order, Commanded(order, Commanded(order, s, Done), Done), Done);
            s'.index == Some(Scores(s.table)) && s'.table == s.table
  {
    var s1 := Commanded(order, s, Done);
    assert s1 == s.(call := Loading(goal));
    var s2 := Commanded(order, s1, Done);
    assert s2 == s.(call := Filling(goal, Scores(s.table)));
    assert map[] + Scores(s.table) == Scores(s.table);
  }

  lemma Follow(order: SortOrder, acts: seq<Act>, a: Act) returns (acts': seq<Act>)
    ensures acts' == acts + [a] && Run(order, acts') == Step(order, Run(order, acts), a)
  {
    acts' := acts + [a];
    assert acts'[..|acts|] == acts;
  }

  // ---- the two ranks ----

  ghost function Better(order: SortOrder, t: Table, p: UUID): set<UUID>
    requires p in t
  {
    set o | o in t && Beats(order, t[o].score, t[p].score)
  }

  ghost function BetterOrEqual(order: SortOrder, t: Table, p: UUID): set<UUID>
    requires p in t
  {
    set o | o in t && !Beats(order, t[p].score, t[o].score)
  }

  /** Both ranks count everyone better, and at most everyone better or equal. */
  lemma RanksBracketed(order: SortOrder, t: Table, p: UUID)
    requires p in t
    ensures 1 + |Better(order, t, p)| <= RankOf(order, t, p) <= |BetterOrEqual(order, t, p)|
    ensures 1 + |Better(order, t, p)| <= IndexRank(order, Scores(t), p) <= |BetterOrEqual(order, t, p)|
  {
    var index := Scores(t);
    var ahead, before := AheadOf(order, t, p), BeforeOf(order, index, p);
    SubsetSize(Better(order, t, p), ahead);
    SubsetSize(Better(order, t, p), before);
    assert p !in ahead && p !in before;
    SubsetSize(ahead + {p}, BetterOrEqual(order, t, p));
    SubsetSize(before + {p}, BetterOrEqual(order, t, p));
  }

  /** They coincide when nobody else has the player's score. */
  lemma RanksCoincide(order: SortOrder, t: Table, p: UUID)
    requires p in t && forall o :: o in t && o != p ==> t[o].score != t[p].score
    ensures IndexRank(order, Scores(t), p) == RankOf(order, t, p)
  {
    RanksBracketed(order, t, p);
    assert BetterOrEqual(order, t, p) == Better(order, t, p) + {p};
  }

  /** The two directions of the sorted set mirror each other, ties included. */
  lemma RanksMirror(index: Index, p: UUID)
    requires p in index
    ensures IndexRank(Descending, index, p) + IndexRank(Ascending, index, p) == |index| + 1
  {
    var up, down := BeforeOf(Ascending, index, p), BeforeOf(Descending, index, p);
    assert up !! down && p !in up + down;
    assert index.Keys == up + down + {p};
    assert |index| == |index.Keys|;
  }

  /** No two members share an index rank. */
  lemma IndexRanksDiffer(order: SortOrder, index: Index, p: UUID, o: UUID)
    requires p in index && o in index && p != o
    ensures IndexRank(order, index, p) != IndexRank(order, index, o)
  {
    var leads := Before(order, index[p], p, index[o], o);
    var first, second := if leads then p else o, if leads then o else p;
    var a, b := BeforeOf(order, index, first), BeforeOf(order, index, second);
    assert first !in a && first in b;
    SubsetSize(a + {first}, b);
  }

  /** The page around the index's rank holds the player in every listing exactly when it reaches all their places. */
  lemma AroundIndexRankIff(order: SortOrder, t: Table, p: UUID, r: nat)
    requires p in t
    ensures var rank := IndexRank(order, Scores(t), p);
            AlwaysOnPage(order, t, p, rank, r) <==>
            rank < RankOf(order, t, p) + r + 1 && RankOf(order, t, p) + |Ties(t, p)| <= Max(rank + r, 2 * r + 1)
  {
    AlwaysOnPageIff(order, t, p, IndexRank(order, Scores(t), p), r);
  }

  /** In rank order scores never get better, and equal scores go up by id when ascending and down when descending. */
  lemma RanksOrdered(order: SortOrder, index: Index, p: UUID, o: UUID)
    requires p in index && o in index && IndexRank(order, index, p) < IndexRank(order, index, o)
    ensures if order.Descending? then index[p] > index[o] || (index[p] == index[o] && p > o)
            else index[p] < index[o] || (index[p] == index[o] && p < o)
  {
    if p != o && !Before(order, index[p], p, index[o], o) {
      SubsetSize(BeforeOf(order, index, o), BeforeOf(order, index, p));
    }
  }

  // ---- what calls do ----

  /** A call starts with its check; a submission has the better score in the table by then. */
  lemma BeginOutcome(order: SortOrder, s: State, goal: Goal)
    requires !s.call.Busy()
    ensures var s' := Begun(order, s, goal);
            && s'.call == Checking(goal) && s'.index == s.index && s'.ttl == s.ttl && s'.reflected == s.reflected
            && (goal.Rank? ==> s'.table == s.table && s'.submitted == s.submitted)
            && (goal.Mirror? ==>
                  var sub := goal.sub;
                  && s'.submitted == s.submitted + [sub] && sub.player in s'.table
                  && !Beats(order, sub.score, s'.table[sub.player].score)
                  && (sub.player in s.table ==> !Beats(order, s.table[sub.player].score, s'.table[sub.player].score))
                  && forall p :: p != sub.player ==>
                       (p in s'.table <==> p in s.table) && (p in s.table ==> s'.table[p] == s.table[p]))
  {}

  /** A lookup that can use the key answers with the index's rank, if the member and the row are there. */
  lemma LookupAnswersFromIndex(order: SortOrder, s: State, p: UUID)
    requires s.call == Ready(Rank(p)) && s.index.Some? && p in s.index.value
    ensures var s' := Commanded(order, Commanded(order, s, Done), Done);
            s' == s.(call := Answered(p, if p in s.table then Some(IndexRank(order, s.index.value, p)) else None))
  {}

  /** An error at any point of a lookup leads to the table's own rank. */
  lemma LookupFallsBack(order: SortOrder, s: State, p: UUID, reply: Reply)
    requires !reply.Done?
    requires s.call == Checking(Rank(p)) || s.call == Loading(Rank(p)) || s.call == Expiring(Rank(p))
             || s.call == Ready(Rank(p)) || (s.call.Fetching? && s.call.player == p)
    ensures var s' := Commanded(order, s, reply);
            && s'.call == Counting(p) && s'.table == s.table
            && Commanded(order, s', Done).call
               == Answered(p, if p in s.table then Some(RankOf(order, s.table, p)) else None)
  {}

  /** A rebuild that succeeds leaves the key complete and with a TTL, and the call ready. */
  lemma RebuildCompletes(order: SortOrder, s: State, goal: Goal)
    requires s.call == Loading(goal) && s.index.None? && s.table != map[]
    ensures var s' := Commanded(order, Commanded(order, Commanded(order, s, Done), Done), Done);
            s'.index == Some(Scores(s.table)) && s'.ttl && s'.call == Ready(goal) && s'.table == s.table
  {
    var s1 := Commanded(order, s, Done);
    assert s1 == s.(call := Filling(goal, Scores(s.table)));
    assert map[] + Scores(s.table) == Scores(s.table);
    var s2 := Commanded(order, s1, Done);
    assert s2.index == Some(Scores(s.table)) && s2.call == Expiring(goal);
  }

  // ---- the code ----

  /** What happens around one command: the key may go just before it, and then there is its reply. */
  datatype Weather = Weather(lost: bool, reply: Reply)

  ghost function Under(order: SortOrder, s: State, w: Weather): State {
    Commanded(order, if w.lost then KeyGone(s) else s, w.reply)
  }

  /** The call in progress, run to its end. */
  ghost function Finish(order: SortOrder, s: State, env: seq<Weather>): State
    decreases |env|
  {
    if !s.call.Busy() || env == [] then s else Finish(order, Under(order, s, env[0]), env[1..])
  }

  /** Finishing a call is a run of the steps above. */
  lemma {:induction false} FinishIsRun(order: SortOrder, acts: seq<Act>, env: seq<Weather>) returns (acts': seq<Act>)
    ensures acts <= acts' && Run(order, acts') == Finish(order, Run(order, acts), env)
    decreases |env|
  {
    acts' := acts;
    if Run(order, acts).call.Busy() && env != [] {
      if env[0].lost {
        acts' := Follow(order, acts', KeyLost);
      }
      acts' := Follow(order, acts', Command(env[0].reply));
      acts' := FinishIsRun(order, acts', env[1..]);
    }
  }

  class BoardIndex {
    const order: SortOrder
    var table: Table
    var index: Option<Index>
    var ttl: bool
    ghost var call: Call
    ghost var submitted: seq<Submission>
    ghost var reflected: seq<Submission>

    ghost function Now(): State
      reads this
    {
      State(table, index, ttl, call, submitted, reflected)
    }

    constructor (order: SortOrder)
      ensures this.order == order && Now() == EMPTY
    {
      this.order, table, index, ttl := order, map[], None, false;
      call, submitted, reflected := Idle, [], [];
    }

    /** The key may expire or be evicted here. */
    method Meanwhile(lost: bool)
      modifies this
      ensures Now() == if lost then KeyGone(old(Now())) else old(Now())
    {
      if lost {
        index, ttl, reflected := None, false, [];
      }
    }

    /** EXISTS, and a rebuild when there is no key. */
    method EnsureBuilt(ghost goal: Goal, env: seq<Weather>) returns (ok: bool, rest: seq<Weather>)
      requires call == Checking(goal) && |env| >= 4
      modifies this
      ensures table == old(table) && submitted == old(submitted) && |rest| >= |env| - 4
      ensures Finish(order, Now(), rest) == Finish(order, old(Now()), env)
      ensures if ok then call == Ready(goal) else call == GaveUp(Now(), goal).call
    {
      Meanwhile(env[0].lost);
      if !env[0].reply.Done? {
        call := GaveUp(Now(), goal).call;
        return false, env[1..];
      }
      if index.Some? {
        call := Ready(goal);
        return true, env[1..];
      }
      call := Loading(goal);
      ok, rest := Rebuild(goal, env[1..]);
    }

    /** Load every entry into one ZADD, then set the TTL. */
    method Rebuild(ghost goal: Goal, env: seq<Weather>) returns (ok: bool, rest: seq<Weather>)
      requires call == Loading(goal) && |env| >= 3
      modifies this
      ensures table == old(table) && submitted == old(submitted) && |rest| >= |env| - 3
      ensures Finish(order, Now(), rest) == Finish(order, old(Now()), env)
      ensures if ok then call == Ready(goal) else call == GaveUp(Now(), goal).call
    {
      Meanwhile(env[0].lost);
      if !env[0].reply.Done? {
        call := GaveUp(Now(), goal).call;
        return false, env[1..];
      }
      if |table| == 0 {
        call := Ready(goal);
        return true, env[1..];
      }
      var rows := Rows();
      call := Filling(goal, rows);
      ok, rest := Fill(goal, rows, env[1..]);
    }

    /** The scores of every row, whatever order they come in. */
    method Rows() returns (rows: Index)
      ensures rows == Scores(table)
    {
      rows := map[];
      var rest := table.Keys;
      while rest != {}
        invariant rest <= table.Keys
        invariant rows == map p | p in table && p !in rest :: table[p].score
        decreases rest
      {
        var p :| p in rest;
        rows := rows[p := table[p].score];
        rest := rest - {p};
      }
    }

    method Fill(ghost goal: Goal, rows: Index, env: seq<Weather>) returns (ok: bool, rest: seq<Weather>)
      requires call == Filling(goal, rows) && |env| >= 2
      modifies this
      ensures table == old(table) && submitted == old(submitted) && |rest| >= |env| - 2
      ensures Finish(order, Now(), rest) == Finish(order, old(Now()), env)
      ensures if ok then call == Ready(goal) else call == GaveUp(Now(), goal).call
    {
      Meanwhile(env[0].lost);
      if !env[0].reply.Refused? {
        ttl := index.Some? && ttl;
        index := Some((if index.Some? then index.value else map[]) + rows);
        reflected := submitted;
      }
      if !env[0].reply.Done? {
        call := GaveUp(Now(), goal).call;
        return false, env[1..];
      }
      call := Expiring(goal);
      ok := Expire(goal, env[1]);
      return ok, env[1..][1..];
    }

    method Expire(ghost goal: Goal, w: Weather) returns (ok: bool)
      requires call == Expiring(goal)
      modifies this
      ensures table == old(table) && submitted == old(submitted) && Now() == Under(order, old(Now()), w)
      ensures if ok then call == Ready(goal) else call == GaveUp(Now(), goal).call
    {
      Meanwhile(w.lost);
      if !w.reply.Refused? {
        ttl := index.Some?;
      }
      ok := w.reply.Done?;
      call := if ok then Ready(goal) else GaveUp(Now(), goal).call;
    }

    /** The upsert, then the mirror write if the index could be built. */
    method Submit(sub: Submission, env: seq<Weather>) returns (improved: bool)
      requires !call.Busy() && |env| >= 5
      modifies this
      ensures Now() == Finish(order, Begun(order, old(Now()), Mirror(sub)), env) && call == Idle
      ensures submitted == old(submitted) + [sub]
      ensures table == if improved then old(table)[sub.player := Row(sub.score, sub.at)] else old(table)
      ensures improved <==> sub.player !in old(table) || Beats(order, sub.score, old(table)[sub.player].score)
    {
      improved := sub.player !in table || Beats(order, sub.score, table[sub.player].score);
      if improved {
        table := table[sub.player := Row(sub.score, sub.at)];
      }
      submitted, call := submitted + [sub], Checking(Mirror(sub));
      assert Now() == Begun(order, old(Now()), Mirror(sub));
      var ok, rest := EnsureBuilt(Mirror(sub), env);
      if ok {
        Zadd(sub, rest[0]);
      }
    }

    method Zadd(sub: Submission, w: Weather)
      requires call == Ready(Mirror(sub))
      modifies this
      ensures Now() == Under(order, old(Now()), w) && call == Idle
      ensures table == old(table) && submitted == old(submitted)
      ensures !w.reply.Refused? ==>
                && index.Some? && sub.player in index.value && !Beats(order, sub.score, index.value[sub.player])
    {
      Meanwhile(w.lost);
      call := Idle;
      if w.reply.Refused? {
        return;
      }
      var current: Index := if index.Some? then index.value else map[];
      if sub.player !in current || Beats(order, sub.score, current[sub.player]) {
        current := current[sub.player := sub.score];
      }
      ttl := index.Some? && ttl;
      index, reflected := Some(current), reflected + [sub];
    }

    /** ZRANK or ZREVRANK. */
    method ZeroBasedRank(current: Index, p: UUID) returns (n: nat)
      requires p in current
      ensures n + 1 == IndexRank(order, current, p)
    {
      n := 0;
      ghost var counted: set<UUID> := {};
      var rest := current.Keys;
      while rest != {}
        invariant rest <= current.Keys && n == |counted|
        invariant counted == set o | o in current && o !in rest && Before(order, current[o], o, current[p], p)
        decreases rest
      {
        var o :| o in rest;
        if Before(order, current[o], o, current[p], p) {
          n := n + 1;
          counted := counted + {o};
        }
        rest := rest - {o};
      }
      assert counted == BeforeOf(order, current, p);
    }

    /** The table's rank query. */
    method CountRank(p: UUID) returns (r: Option<nat>)
      ensures r == if p in table then Some(RankOf(order, table, p)) else None
    {
      if p !in table {
        return None;
      }
      var n := 1;
      ghost var counted: set<UUID> := {};
      var rest := table.Keys;
      while rest != {}
        invariant rest <= table.Keys && n == 1 + |counted|
        invariant counted == set o | o in table && o !in rest && Ahead(order, table[o], table[p])
        decreases rest
      {
        var o :| o in rest;
        if Ahead(order, table[o], table[p]) {
          n := n + 1;
          counted := counted + {o};
        }
        rest := rest - {o};
      }
      assert counted == AheadOf(order, table, p);
      return Some(n);
    }

    /** The index answers when it can; only its errors fall back to the table, not a missing member. */
    method RankOfPlayer(p: UUID, env: seq<Weather>) returns (failed: bool, r: Option<nat>)
      requires !call.Busy() && |env| >= 7
      modifies this
      ensures Now() == Finish(order, Begun(order, old(Now()), Rank(p)), env)
      ensures table == old(table) && call == if failed then Idle else Answered(p, r)
    {
      call := Checking(Rank(p));
      var ok, rest := EnsureBuilt(Rank(p), env);
      var found := false;
      if ok {
        found, r, rest := RankViaIndex(p, rest);
      }
      if found {
        return false, r;
      }
      failed, r := RankViaTable(p, rest[0]);
    }

    /** The fallback. */
    method RankViaTable(p: UUID, w: Weather) returns (failed: bool, r: Option<nat>)
      requires call == Counting(p)
      modifies this
      ensures Now() == Under(order, old(Now()), w) && table == old(table)
      ensures call == if failed then Idle else Answered(p, r)
    {
      Meanwhile(w.lost);
      if !w.reply.Done? {
        call := Idle;
        return true, None;
      }
      r := CountRank(p);
      call := Answered(p, r);
      return false, r;
    }

    /** The rank command, and the player's row; answered is false on an error. */
    method RankViaIndex(p: UUID, env: seq<Weather>) returns (answered: bool, r: Option<nat>, rest: seq<Weather>)
      requires call == Ready(Rank(p)) && |env| >= 2
      modifies this
      ensures table == old(table) && |rest| >= |env| - 2
      ensures Finish(order, Now(), rest) == Finish(order, old(Now()), env)
      ensures call == if answered then Answered(p, r) else Counting(p)
    {
      Meanwhile(env[0].lost);
      if !env[0].reply.Done? {
        call := Counting(p);
        return false, None, env[1..];
      }
      if index.None? || p !in index.value {
        call := Answered(p, None);
        return true, None, env[1..];
      }
      var n := ZeroBasedRank(index.value, p);
      call := Fetching(p, n + 1);
      ghost var before := Now();
      Meanwhile(env[1].lost);
      rest := env[1..][1..];
      if !env[1].reply.Done? {
        call := Counting(p);
        return false, None, rest;
      }
      r := if p in table then Some(n + 1) else None;
      call := Answered(p, r);
      return true, r, rest;
    }
  }
}
