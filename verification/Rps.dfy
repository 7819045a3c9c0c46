/** Rock-paper-scissors, the example plugin: best of three rounds between two roster players. */
module Rps {
  import opened Base

  const ROUNDS := 3
  const WINS_TO_WIN := 2
  const NONE := '\0'

  datatype PlayerAction = PlayerAction(player: string, payload: string)

  /** winner is a player id, or "" for a tie. */
  datatype RoundResult = RoundResult(round: nat, winner: string, choiceA: char, choiceB: char)

  /** winner is a player id, "draw", or "" while the game goes on. */
  datatype GameState = GameState(
    playerA: string,
    playerB: string,
    round: nat,
    scores: map<string, nat>,
    choices: map<string, char>,
    history: seq<RoundResult>,
    scoreA: nat,
    scoreB: nat,
    winner: string
  )

  function NewState(a: string, b: string): GameState { GameState(a, b, 1, map[], map[], [], 0, 0, "") }

  function Normalize(c: char): char {
    if c == 'R' || c == 'r' then 'R'
    else if c == 'P' || c == 'p' then 'P'
    else if c == 'S' || c == 's' then 'S'
    else NONE
  }

  /** Case does not matter, and nothing but the six letters is a choice. */
  lemma NormalizeIsCaseless(c: char)
    ensures IsChoice(Normalize(c)) <==> Normalize(c) != NONE
    ensures IsChoice(c) ==> Normalize(c) == c && Normalize((c as int + 32) as char) == c
    ensures Normalize(c) != NONE ==> c == Normalize(c) || c as int == Normalize(c) as int + 32
  {}

  predicate IsChoice(c: char) { c == 'R' || c == 'P' || c == 'S' }

  predicate BeatsChoice(a: char, b: char) { (a == 'R' && b == 'S') || (a == 'P' && b == 'R') || (a == 'S' && b == 'P') }

  function DecideRound(a: char, b: char, idA: string, idB: string): string {
    if a == b then "" else if BeatsChoice(a, b) then idA else idB
  }

  /** Swapping seats swaps the outcome: every pair of different choices has one winner. */
  lemma DecisionIsFair(a: char, b: char, idA: string, idB: string)
    requires IsChoice(a) && IsChoice(b) && idA != idB && idA != "" && idB != ""
    ensures DecideRound(a, b, idA, idB) == DecideRound(b, a, idB, idA)
    ensures DecideRound(a, b, idA, idB) == "" <==> a == b
    ensures DecideRound('R', 'S', idA, idB) == DecideRound('P', 'R', idA, idB) == DecideRound('S', 'P', idA, idB) == idA
    ensures a != b ==> (DecideRound(a, b, idA, idB) == idA <==> BeatsChoice(a, b))
                       && (DecideRound(a, b, idA, idB) == idB <==> BeatsChoice(b, a))
  {}

  function ChoiceOf(s: GameState, id: string): char { if id in s.choices then s.choices[id] else NONE }

  /** The round's winner gets a point. */
  function Scored(s: GameState, w: string): GameState {
    if w == s.playerA then s.(scoreA := s.scoreA + 1, scores := s.scores[w := s.scoreA + 1])
    else if w == s.playerB then s.(scoreB := s.scoreB + 1, scores := s.scores[w := s.scoreB + 1])
    else s
  }

  function Verdict(s: GameState): string {
    if s.scoreA >= WINS_TO_WIN then s.playerA
    else if s.scoreB >= WINS_TO_WIN then s.playerB
    else if s.round < ROUNDS then s.winner
    else if s.scoreA > s.scoreB then s.playerA
    else if s.scoreB > s.scoreA then s.playerB
    else "draw"
  }

  /** Record the round, judge the match, and clear the table for the next round. */
  function Judged(s: GameState, r: RoundResult): GameState {
    s.(history := s.history + [r], winner := Verdict(s), round := s.round + 1, choices := map[])
  }

  function ResolveRound(s: GameState): GameState {
    var a, b := ChoiceOf(s, s.playerA), ChoiceOf(s, s.playerB);
    var w := DecideRound(a, b, s.playerA, s.playerB);
    Judged(Scored(s, w), RoundResult(s.round, w, a, b))
  }

  /** The first choice of each player counts; the second player's choice resolves the round. */
  function ApplyAction(s: GameState, action: PlayerAction): (GameState, bool) {
    if action.payload == "" || Normalize(action.payload[0]) == NONE || action.player in s.choices then (s, false)
    else
      var s' := s.(choices := s.choices[action.player := Normalize(action.payload[0])]);
      if |s'.choices| < 2 then (s', false) else (ResolveRound(s'), true)
  }

  /** Actions in order, none after a winner is set. */
  function Play(s: GameState, actions: seq<PlayerAction>): GameState
    decreases |actions|
  {
    if actions == [] || s.winner != "" then s else Play(ApplyAction(s, actions[0]).0, actions[1..])
  }

  function PlayTicks(s: GameState, ticks: seq<seq<PlayerAction>>): GameState
    decreases |ticks|
  {
    if ticks == [] then s else PlayTicks(Play(s, ticks[0]), ticks[1..])
  }

  function Flatten(ticks: seq<seq<PlayerAction>>): seq<PlayerAction> {
    if ticks == [] then [] else ticks[0] + Flatten(ticks[1..])
  }

  lemma {:induction false} PlayConcat(s: GameState, a: seq<PlayerAction>, b: seq<PlayerAction>)
    ensures Play(s, a + b) == Play(Play(s, a), b)
    decreases |a|
  {
    if a == [] {
      assert a + b == b;
    } else if s.winner == "" {
      assert (a + b)[0] == a[0] && (a + b)[1..] == a[1..] + b;
      PlayConcat(ApplyAction(s, a[0]).0, a[1..], b);
    }
  }

  lemma {:induction false} TicksFlatten(s: GameState, ticks: seq<seq<PlayerAction>>)
    ensures PlayTicks(s, ticks) == Play(s, Flatten(ticks))
    decreases |ticks|
  {
    if ticks != [] {
      TicksFlatten(Play(s, ticks[0]), ticks[1..]);
      PlayConcat(s, ticks[0], Flatten(ticks[1..]));
    }
  }

  /** The game depends only on the order of the actions, not on how they fall into ticks. */
  lemma BatchingIsIrrelevant(s: GameState, ticks: seq<seq<PlayerAction>>, others: seq<seq<PlayerAction>>)
    requires Flatten(ticks) == Flatten(others)
    ensures PlayTicks(s, ticks) == PlayTicks(s, others)
  {
    TicksFlatten(s, ticks);
    TicksFlatten(s, others);
  }

  function Wins(history: seq<RoundResult>, id: string): nat {
    if history == [] then 0
    else Wins(history[..|history| - 1], id) + if history[|history| - 1].winner == id then 1 else 0
  }

  function RankOf(s: GameState, id: string): int {
    if s.winner == "" || s.winner == "draw" then 0 else if s.winner == id then 1 else -1
  }

  predicate Roster(a: string, b: string) { a != b && a != "" && b != "" && a != "draw" && b != "draw" }

  ghost predicate ScoreShown(scores: map<string, nat>, history: seq<RoundResult>, id: string, score: nat) {
    && score == Wins(history, id)
    && (id in scores <==> score > 0) && (id in scores ==> scores[id] == score)
  }

  /** The verdict the scores warrant after n rounds. */
  ghost predicate VerdictOk(a: string, b: string, n: nat, scoreA: nat, scoreB: nat, winner: string) {
    if winner == "" then n < ROUNDS && scoreA < WINS_TO_WIN && scoreB < WINS_TO_WIN
    else
      && (scoreA >= WINS_TO_WIN || scoreB >= WINS_TO_WIN || n == ROUNDS)
      && winner == if scoreA > scoreB then a else if scoreB > scoreA then b else "draw"
  }

  ghost predicate BoardOk(s: GameState) {
    && s.round == |s.history| + 1 && |s.history| <= ROUNDS
    && s.scoreA + s.scoreB <= |s.history|
    && VerdictOk(s.playerA, s.playerB, |s.history|, s.scoreA, s.scoreB, s.winner)
  }

  ghost predicate ScoresOk(s: GameState) {
    ScoreShown(s.scores, s.history, s.playerA, s.scoreA) && ScoreShown(s.scores, s.history, s.playerB, s.scoreB)
  }

  /** Round n was played with two real choices and won by the better one. */
  ghost predicate FairRound(r: RoundResult, n: nat, a: string, b: string) {
    && r.round == n && IsChoice(r.choiceA) && IsChoice(r.choiceB)
    && r.winner == if BeatsChoice(r.choiceA, r.choiceB) then a else if BeatsChoice(r.choiceB, r.choiceA) then b else ""
  }

  ghost predicate HistoryOk(history: seq<RoundResult>, a: string, b: string) {
    forall i :: 0 <= i < |history| ==> FairRound(history[i], i + 1, a, b)
  }

  ghost predicate TableOk(choices: map<string, char>, a: string, b: string) {
    choices.Keys < {a, b} && forall id :: id in choices ==> IsChoice(choices[id])
  }

  ghost predicate Inv(s: GameState) {
    && Roster(s.playerA, s.playerB) && TableOk(s.choices, s.playerA, s.playerB)
    && BoardOk(s) && ScoresOk(s) && HistoryOk(s.history, s.playerA, s.playerB)
  }

  ghost predicate FromRoster(s: GameState, actions: seq<PlayerAction>) {
    forall i :: 0 <= i < |actions| ==> actions[i].player == s.playerA || actions[i].player == s.playerB
  }

  lemma WinsOfOneMore(history: seq<RoundResult>, r: RoundResult, id: string)
    ensures Wins(history + [r], id) == Wins(history, id) + if r.winner == id then 1 else 0
  {
    assert (history + [r])[..|history|] == history;
  }

  lemma RoundKeepsScores(s: GameState, r: RoundResult)
    requires ScoresOk(s) && Roster(s.playerA, s.playerB)
    ensures ScoresOk(Judged(Scored(s, r.winner), r))
  {
    WinsOfOneMore(s.history, r, s.playerA);
    WinsOfOneMore(s.history, r, s.playerB);
  }

  lemma RoundKeepsBoard(s: GameState, r: RoundResult)
    requires BoardOk(s) && Roster(s.playerA, s.playerB) && s.winner == ""
    ensures BoardOk(Judged(Scored(s, r.winner), r))
  {}

  lemma RoundKeepsHistory(s: GameState, r: RoundResult)
    requires HistoryOk(s.history, s.playerA, s.playerB) && FairRound(r, |s.history| + 1, s.playerA, s.playerB)
    ensures HistoryOk(Judged(Scored(s, r.winner), r).history, s.playerA, s.playerB)
  {}

  /** Both players have chosen: the round is resolved on real choices. */
  lemma ResolveKeepsInv(s: GameState)
    requires Roster(s.playerA, s.playerB) && BoardOk(s) && ScoresOk(s) && HistoryOk(s.history, s.playerA, s.playerB)
    requires s.winner == "" && IsChoice(ChoiceOf(s, s.playerA)) && IsChoice(ChoiceOf(s, s.playerB))
    ensures Inv(ResolveRound(s))
    ensures ResolveRound(s).playerA == s.playerA && ResolveRound(s).playerB == s.playerB
  {
    var a, b := ChoiceOf(s, s.playerA), ChoiceOf(s, s.playerB);
    var r := RoundResult(s.round, DecideRound(a, b, s.playerA, s.playerB), a, b);
    RoundKeepsScores(s, r);
    RoundKeepsBoard(s, r);
    RoundKeepsHistory(s, r);
    EmptyTable(s.playerA, s.playerB);
  }

  lemma ApplyKeepsInv(s: GameState, action: PlayerAction)
    requires Inv(s) && s.winner == "" && (action.player == s.playerA || action.player == s.playerB)
    ensures Inv(ApplyAction(s, action).0)
    ensures ApplyAction(s, action).0.playerA == s.playerA && ApplyAction(s, action).0.playerB == s.playerB
  {
    if action.payload != "" && Normalize(action.payload[0]) != NONE && action.player !in s.choices {
      var t := s.(choices := s.choices[action.player := Normalize(action.payload[0])]);
      if |t.choices| < 2 {
        FirstChoice(s.choices, s.playerA, s.playerB, action.player, t.choices[action.player]);
      } else {
        SecondChoice(s.choices, s.playerA, s.playerB, action.player, t.choices[action.player]);
        ResolveKeepsInv(t);
      }
    }
  }

  lemma EmptyTable(a: string, b: string)
    ensures TableOk(map[], a, b)
  {
    assert a in {a, b};
  }

  lemma FirstChoice(choices: map<string, char>, a: string, b: string, id: string, c: char)
    requires a != b && TableOk(choices, a, b) && (id == a || id == b) && IsChoice(c) && |choices[id := c]| < 2
    ensures TableOk(choices[id := c], a, b)
  {
    var after := choices[id := c];
    assert after.Keys == choices.Keys + {id} && after.Keys <= {a, b};
    assert |after.Keys| == |after| && |{a, b}| == 2;
  }

  lemma SecondChoice(choices: map<string, char>, a: string, b: string, id: string, c: char)
    requires a != b && TableOk(choices, a, b) && (id == a || id == b) && IsChoice(c) && |choices[id := c]| >= 2
    ensures var after := choices[id := c];
            a in after && b in after && IsChoice(after[a]) && IsChoice(after[b])
  {
    var after := choices[id := c];
    assert after.Keys == choices.Keys + {id} && after.Keys <= {a, b};
    var other := if id == a then b else a;
    assert other !in after ==> after.Keys == {id};
    assert |after| == |after.Keys| && |{id}| == 1;
  }

  lemma {:induction false} PlayKeepsInv(s: GameState, actions: seq<PlayerAction>)
    requires Inv(s) && FromRoster(s, actions)
    ensures Inv(Play(s, actions))
    ensures Play(s, actions).playerA == s.playerA && Play(s, actions).playerB == s.playerB
    decreases |actions|
  {
    if actions != [] && s.winner == "" {
      ApplyKeepsInv(s, actions[0]);
      var s', rest := ApplyAction(s, actions[0]).0, actions[1..];
      forall i | 0 <= i < |rest| ensures rest[i].player == s.playerA || rest[i].player == s.playerB {
        assert rest[i] == actions[i + 1];
      }
      PlayKeepsInv(s', rest);
    }
  }

  lemma NewGameIsOk(a: string, b: string)
    requires Roster(a, b)
    ensures Inv(NewState(a, b))
  {
    EmptyTable(a, b);
  }

  /**
   * A whole game between two roster players, however its actions fall into ticks: at most three rounds are
   * resolved and the third always decides; every recorded round went to the better choice; the scores are the
   * wins in the history; the winner is the player with more wins; and the two ranks cancel out.
   */
  lemma GameIsSound(a: string, b: string, ticks: seq<seq<PlayerAction>>)
    requires Roster(a, b) && FromRoster(NewState(a, b), Flatten(ticks))
    ensures var s := PlayTicks(NewState(a, b), ticks);
            && |s.history| <= 3 && (|s.history| == 3 ==> s.winner != "")
            && HistoryOk(s.history, a, b)
            && s.scoreA == Wins(s.history, a) && s.scoreB == Wins(s.history, b)
            && (s.winner != "" ==>
                  s.winner == if s.scoreA > s.scoreB then a else if s.scoreB > s.scoreA then b else "draw")
            && RankOf(s, a) + RankOf(s, b) == 0
            && (RankOf(s, a) == 1 <==> s.winner != "" && s.scoreA > s.scoreB)
            && (RankOf(s, b) == 1 <==> s.winner != "" && s.scoreB > s.scoreA)
            && (s.winner == "" <==> |s.history| < 3 && s.scoreA < 2 && s.scoreB < 2)
            && s.round == |s.history| + 1
  {
    NewGameIsOk(a, b);
    TicksFlatten(NewState(a, b), ticks);
    PlayKeepsInv(NewState(a, b), Flatten(ticks));
  }

  /** Once set, the winner never changes, whoever still acts. */
  lemma {:induction false} WinnerIsFinal(s: GameState, ticks: seq<seq<PlayerAction>>)
    requires s.winner != ""
    ensures PlayTicks(s, ticks) == s
    decreases |ticks|
  {
    if ticks != [] {
      WinnerIsFinal(Play(s, ticks[0]), ticks[1..]);
    }
  }

  class Game {
    var playerA: string
    var playerB: string
    var round: nat
    var scores: map<string, nat>
    var choices: map<string, char>
    var history: seq<RoundResult>
    var scoreA: nat
    var scoreB: nat
    var matchWinner: string

    function State(): GameState
      reads this
    {
      GameState(playerA, playerB, round, scores, choices, history, scoreA, scoreB, matchWinner)
    }

    constructor ()
      ensures State() == NewState("", "")
    {
      playerA, playerB, round, scores, choices := "", "", 1, map[], map[];
      history, scoreA, scoreB, matchWinner := [], 0, 0, "";
    }

    /** The roster must name exactly two players. */
    method Init(players: seq<string>) returns (ok: bool)
      modifies this
      ensures ok <==> |players| == 2
      ensures State() == if ok then old(State()).(playerA := players[0], playerB := players[1]) else old(State())
    {
      if |players| != 2 {
        return false;
      }
      playerA, playerB := players[0], players[1];
      return true;
    }

    method Score(winner: string)
      modifies this`scoreA, this`scoreB, this`scores
      ensures State() == Scored(old(State()), winner)
    {
      if winner == playerA {
        scoreA := scoreA + 1;
        scores := scores[playerA := scoreA];
      } else if winner == playerB {
        scoreB := scoreB + 1;
        scores := scores[playerB := scoreB];
      }
    }

    method Judge(r: RoundResult)
      modifies this`history, this`matchWinner, this`round, this`choices
      ensures State() == Judged(old(State()), r)
    {
      history := history + [r];
      if scoreA >= WINS_TO_WIN {
        matchWinner := playerA;
      } else if scoreB >= WINS_TO_WIN {
        matchWinner := playerB;
      } else if round >= ROUNDS {
        if scoreA > scoreB {
          matchWinner := playerA;
        } else if scoreB > scoreA {
          matchWinner := playerB;
        } else {
          matchWinner := "draw";
        }
      }
      round := round + 1;
      choices := map[];
    }

    method Resolve()
      modifies this
      ensures State() == ResolveRound(old(State()))
    {
      var a := if playerA in choices then choices[playerA] else NONE;
      var b := if playerB in choices then choices[playerB] else NONE;
      var r := RoundResult(round, DecideRound(a, b, playerA, playerB), a, b);
      Score(r.winner);
      Judge(r);
    }

    method Apply(action: PlayerAction) returns (resolved: bool)
      modifies this
      ensures (State(), resolved) == ApplyAction(old(State()), action)
    {
      if action.payload == "" {
        return false;
      }
      var choice := Normalize(action.payload[0]);
      if choice == NONE {
        return false;
      }
      if action.player in choices {
        return false;
      }
      choices := choices[action.player := choice];
      if |choices| < 2 {
        return false;
      }
      Resolve();
      return true;
    }

    /** Applies the queued actions up to the deciding one. */
    method OnTick(actions: seq<PlayerAction>) returns (progressed: bool, gameEnded: bool)
      modifies this
      ensures State() == Play(old(State()), actions)
      ensures gameEnded <==> matchWinner != ""
      ensures progressed <==> |history| > |old(history)|
    {
      progressed := false;
      ghost var rest := actions;
      for i := 0 to |actions|
        invariant rest == actions[i..] && Play(State(), rest) == Play(old(State()), actions)
        invariant |history| >= |old(history)| && (progressed <==> |history| > |old(history)|)
      {
        if matchWinner != "" {
          break;
        }
        assert rest[0] == actions[i];
        rest := rest[1..];
        var resolved := Apply(actions[i]);
        if resolved {
          progressed := true;
        }
      }
      return progressed, matchWinner != "";
    }
  }

  // ---- which actions make a round ----

  /** The choice an action makes, if it makes one. */
  function Choice(action: PlayerAction): Option<char> {
    if action.payload == "" || Normalize(action.payload[0]) == NONE then None else Some(Normalize(action.payload[0]))
  }

  /** A player's first valid choice among the actions. */
  function FirstChoiceOf(actions: seq<PlayerAction>, p: string): Option<char> {
    if actions == [] then None
    else
      var before, last := FirstChoiceOf(actions[..|actions| - 1], p), actions[|actions| - 1];
      if before.Some? then before else if last.player == p then Choice(last) else None
  }

  /** Both players have chosen, the second of them with the last action. */
  ghost predicate MakesRound(actions: seq<PlayerAction>, a: string, b: string) {
    && actions != [] && FirstChoiceOf(actions, a).Some? && FirstChoiceOf(actions, b).Some?
    && !(FirstChoiceOf(actions[..|actions| - 1], a).Some? && FirstChoiceOf(actions[..|actions| - 1], b).Some?)
  }

  /** The actions of the current round: since the last one was resolved. */
  datatype Log = Log(rounds: seq<seq<PlayerAction>>, current: seq<PlayerAction>)

  function AllOf(log: Log): seq<PlayerAction> { Flatten(log.rounds) + log.current }

  /** Each recorded round is made of its own actions, and holds each player's first valid choice among them. */
  ghost predicate Explains(s: GameState, log: Log) {
    && |log.rounds| == |s.history|
    && (forall i :: 0 <= i < |log.rounds| ==>
          && MakesRound(log.rounds[i], s.playerA, s.playerB)
          && FirstChoiceOf(log.rounds[i], s.playerA) == Some(s.history[i].choiceA)
          && FirstChoiceOf(log.rounds[i], s.playerB) == Some(s.history[i].choiceB))
    && Waits(s, log.current, s.playerA) && Waits(s, log.current, s.playerB)
  }

  /** The table holds the player's first valid choice of the current round. */
  ghost predicate Waits(s: GameState, current: seq<PlayerAction>, p: string) {
    FirstChoiceOf(current, p) == if p in s.choices then Some(s.choices[p]) else None
  }

  lemma FirstChoiceNext(actions: seq<PlayerAction>, action: PlayerAction, p: string)
    ensures var before := FirstChoiceOf(actions, p);
            FirstChoiceOf(actions + [action], p)
            == if before.Some? then before else if action.player == p then Choice(action) else None
  {
    assert (actions + [action])[..|actions|] == actions;
  }

  lemma {:induction false} FlattenAppend(rounds: seq<seq<PlayerAction>>, round: seq<PlayerAction>)
    ensures Flatten(rounds + [round]) == Flatten(rounds) + round
  {
    if rounds == [] {
      assert rounds + [round] == [round] && [round][1..] == [];
      assert Flatten([round]) == round + Flatten([]);
    } else {
      assert (rounds + [round])[1..] == rounds[1..] + [round];
      FlattenAppend(rounds[1..], round);
    }
  }

  lemma NotBothChosen(s: GameState)
    requires Inv(s)
    ensures !(s.playerA in s.choices && s.playerB in s.choices)
  {
    assert s.playerA in s.choices && s.playerB in s.choices ==> {s.playerA, s.playerB} <= s.choices.Keys;
  }

  /** An action that resolves nothing joins the current round. */
  lemma ActionJoins(s: GameState, log: Log, action: PlayerAction)
    requires Inv(s) && Explains(s, log) && s.winner == "" && !ApplyAction(s, action).1
    ensures Explains(ApplyAction(s, action).0, log.(current := log.current + [action]))
  {
    FirstChoiceNext(log.current, action, s.playerA);
    FirstChoiceNext(log.current, action, s.playerB);
  }

  /** An action that resolves a round completes it. */
  lemma ActionResolves(s: GameState, log: Log, action: PlayerAction)
    requires Inv(s) && Explains(s, log) && s.winner == "" && ApplyAction(s, action).1
    requires action.player == s.playerA || action.player == s.playerB
    ensures Explains(ApplyAction(s, action).0, Log(log.rounds + [log.current + [action]], []))
  {
    var round, c := log.current + [action], Choice(action).value;
    FirstChoiceNext(log.current, action, s.playerA);
    FirstChoiceNext(log.current, action, s.playerB);
    NotBothChosen(s);
    SecondChoice(s.choices, s.playerA, s.playerB, action.player, c);
    assert round[..|round| - 1] == log.current;
    var t := s.(choices := s.choices[action.player := c]);
    assert ApplyAction(s, action).0 == ResolveRound(t);
    ResolvedRecord(t);
  }

  lemma ResolvedRecord(s: GameState)
    ensures var s' := ResolveRound(s);
            && |s'.history| == |s.history| + 1 && s'.history[..|s.history|] == s.history && s'.choices == map[]
            && s'.playerA == s.playerA && s'.playerB == s.playerB
            && s'.history[|s.history|].choiceA == ChoiceOf(s, s.playerA)
            && s'.history[|s.history|].choiceB == ChoiceOf(s, s.playerB)
  {}

  /**
   * In every game of the two players, the rounds recorded are made of consecutive actions: each ends with the action
   * by which the second player chose, and records for each player their own first valid choice since the last one.
   */
  lemma {:induction false} RoundsAreFirstChoices(s: GameState, log: Log, actions: seq<PlayerAction>) returns (end: Log)
    requires Inv(s) && Explains(s, log) && FromRoster(s, actions)
    ensures Explains(Play(s, actions), end) && AllOf(end) <= AllOf(log) + actions
    ensures Play(s, actions).winner == "" ==> AllOf(end) == AllOf(log) + actions
    decreases |actions|
  {
    end := log;
    if actions == [] {
      assert AllOf(log) + actions == AllOf(log);
    } else if s.winner == "" {
      var action, rest := actions[0], actions[1..];
      ApplyKeepsInv(s, action);
      var s' := ApplyAction(s, action).0;
      var next := OneAction(s, log, action);
      RestFromRoster(s, s', actions);
      end := RoundsAreFirstChoices(s', next, rest);
      TakenInOrder(AllOf(log), actions);
    }
  }

  lemma TakenInOrder(before: seq<PlayerAction>, actions: seq<PlayerAction>)
    requires actions != []
    ensures before + actions == before + [actions[0]] + actions[1..]
  {}

  lemma RestFromRoster(s: GameState, s': GameState, actions: seq<PlayerAction>)
    requires actions != [] && FromRoster(s, actions) && s'.playerA == s.playerA && s'.playerB == s.playerB
    ensures FromRoster(s', actions[1..])
  {
    forall i | 0 <= i < |actions[1..]|
      ensures actions[1..][i].player == s'.playerA || actions[1..][i].player == s'.playerB
    {
      assert actions[1..][i] == actions[i + 1];
    }
  }

  lemma OneAction(s: GameState, log: Log, action: PlayerAction) returns (next: Log)
    requires Inv(s) && Explains(s, log) && s.winner == "" && (action.player == s.playerA || action.player == s.playerB)
    ensures Explains(ApplyAction(s, action).0, next) && AllOf(next) == AllOf(log) + [action]
  {
    if ApplyAction(s, action).1 {
      next := Log(log.rounds + [log.current + [action]], []);
      ActionResolves(s, log, action);
      FlattenAppend(log.rounds, log.current + [action]);
    } else {
      next := log.(current := log.current + [action]);
      ActionJoins(s, log, action);
    }
  }

  /** The same for a whole game, however its actions fall into ticks. */
  lemma GameRecordsFirstChoices(a: string, b: string, ticks: seq<seq<PlayerAction>>) returns (log: Log)
    requires Roster(a, b) && FromRoster(NewState(a, b), Flatten(ticks))
    ensures var s := PlayTicks(NewState(a, b), ticks);
            && Explains(s, log) && AllOf(log) <= Flatten(ticks) && (s.winner == "" ==> AllOf(log) == Flatten(ticks))
            && s.playerA == a && s.playerB == b
  {
    NewGameIsOk(a, b);
    TicksFlatten(NewState(a, b), ticks);
    PlayKeepsInv(NewState(a, b), Flatten(ticks));
    assert AllOf(Log([], [])) + Flatten(ticks) == Flatten(ticks);
    log := RoundsAreFirstChoices(NewState(a, b), Log([], []), Flatten(ticks));
  }
}
