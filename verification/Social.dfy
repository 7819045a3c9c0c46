/** The friend graph: requests, friendships stored once per pair, and blocks. */
module Social {

  datatype Error =
    SelfFriend | SelfBlock | AlreadyFriends | AlreadyRequested | RequestNotFound | NotFriends | Blocked | Conflict

  datatype Result = Ok(accepted: bool) | Err(error: Error)

  // ---- canonical pairs ----

  /** A player id as its bytes. */
  type Bytes = b: seq<nat> | |b| == 16 witness seq(16, _ => 0)

  /** Bytewise order. */
  ghost predicate Precedes(a: Bytes, b: Bytes) {
    exists i :: FirstDifference(a, b, i) && a[i] < b[i]
  }

  ghost predicate FirstDifference(a: Bytes, b: Bytes, i: int) {
    0 <= i < 16 && a[i] != b[i] && forall j :: 0 <= j < i ==> a[j] == b[j]
  }

  ghost function Ordered(a: Bytes, b: Bytes): (Bytes, Bytes) { if Precedes(b, a) then (b, a) else (a, b) }

  method OrderPair(a: Bytes, b: Bytes) returns (low: Bytes, high: Bytes)
    ensures (low, high) == Ordered(a, b)
    ensures (low == a && high == b) || (low == b && high == a)
    ensures a == b || exists i :: 0 <= i < 16 && low[i] < high[i] && forall j :: 0 <= j < i ==> low[j] == high[j]
  {
    for i := 0 to 16
      invariant a[..i] == b[..i]
    {
      assert forall j :: 0 <= j < i ==> a[j] == a[..i][j] && b[j] == b[..i][j];
      if a[i] < b[i] {
        DifferenceDecides(a, b, i);
        return a, b;
      }
      if a[i] > b[i] {
        DifferenceDecides(b, a, i);
        return b, a;
      }
    }
    assert a[..16] == a && b[..16] == b;
    return a, b;
  }

  lemma DifferenceDecides(a: Bytes, b: Bytes, i: nat)
    requires i < 16 && a[..i] == b[..i] && a[i] < b[i]
    ensures Precedes(a, b) && !Precedes(b, a)
  {
    forall j | 0 <= j < i ensures a[j] == b[j] {
      assert a[..i][j] == b[..i][j];
    }
    assert FirstDifference(a, b, i);
    forall k | FirstDifference(b, a, k) ensures k == i {}
  }

  lemma Trichotomy(a: Bytes, b: Bytes)
    ensures Precedes(a, b) || Precedes(b, a) || a == b
    ensures !(Precedes(a, b) && Precedes(b, a))
    ensures a == b ==> !Precedes(a, b)
  {
    if a != b {
      var i := Differ(a, b, 0);
      assert a[..i] == b[..i];
      if a[i] < b[i] {
        DifferenceDecides(a, b, i);
      } else {
        DifferenceDecides(b, a, i);
      }
    }
  }

  lemma Differ(a: Bytes, b: Bytes, from: nat) returns (i: nat)
    requires a != b && from <= 16 && forall j :: 0 <= j < from ==> a[j] == b[j]
    ensures FirstDifference(a, b, i)
    decreases 16 - from
  {
    assert from < 16;
    if a[from] != b[from] {
      i := from;
    } else {
      i := Differ(a, b, from + 1);
    }
  }

  /** An undirected pair has one canonical form, whoever is named first. */
  lemma OrderedIsCanonical(a: Bytes, b: Bytes)
    ensures Ordered(a, b) == Ordered(b, a)
    ensures Ordered(a, b) == (a, b) || Ordered(a, b) == (b, a)
    ensures a != b ==> Precedes(Ordered(a, b).0, Ordered(a, b).1)
  {
    Trichotomy(a, b);
  }

  lemma SamePair(a: Bytes, b: Bytes, c: Bytes, d: Bytes)
    ensures Ordered(a, b) == Ordered(c, d) <==> (a == c && b == d) || (a == d && b == c)
  {
    OrderedIsCanonical(a, b);
    OrderedIsCanonical(c, d);
  }

  // ---- the graph ----

  datatype Graph = Graph(requests: set<(Bytes, Bytes)>, friends: set<(Bytes, Bytes)>, blocks: set<(Bytes, Bytes)>)

  ghost predicate Friends(g: Graph, a: Bytes, b: Bytes) { Ordered(a, b) in g.friends }

  predicate BlockedEither(g: Graph, a: Bytes, b: Bytes) { (a, b) in g.blocks || (b, a) in g.blocks }

  /** A friendship insert obeys the unique pair and the canonical-order check of its table. */
  ghost predicate CanBefriend(g: Graph, a: Bytes, b: Bytes) { Ordered(a, b) !in g.friends && a != b }

  ghost function SendStep(g: Graph, me: Bytes, to: Bytes): (Graph, Result) {
    if me == to then (g, Err(SelfFriend))
    else if BlockedEither(g, me, to) then (g, Err(Blocked))
    else if Friends(g, me, to) then (g, Err(AlreadyFriends))
    else if (to, me) in g.requests then
      (g.(requests := g.requests - {(to, me)}, friends := g.friends + {Ordered(me, to)}), Ok(true))
    else if (me, to) in g.requests then (g, Err(AlreadyRequested))
    else (g.(requests := g.requests + {(me, to)}), Ok(false))
  }

  ghost function AcceptStep(g: Graph, me: Bytes, requester: Bytes): (Graph, Result) {
    if (requester, me) !in g.requests then (g, Err(RequestNotFound))
    else if !CanBefriend(g, requester, me) then (g, Err(Conflict))
    else (g.(requests := g.requests - {(requester, me)}, friends := g.friends + {Ordered(requester, me)}), Ok(true))
  }

  function DeleteRequestStep(g: Graph, requester: Bytes, addressee: Bytes): (Graph, Result) {
    if (requester, addressee) !in g.requests then (g, Err(RequestNotFound))
    else (g.(requests := g.requests - {(requester, addressee)}), Ok(false))
  }

  ghost function RemoveFriendStep(g: Graph, me: Bytes, friend: Bytes): (Graph, Result) {
    if !Friends(g, me, friend) then (g, Err(NotFriends))
    else (g.(friends := g.friends - {Ordered(me, friend)}), Ok(false))
  }

  ghost function BlockStep(g: Graph, me: Bytes, target: Bytes): (Graph, Result) {
    if me == target then (g, Err(SelfBlock))
    else
      var requests, friends := g.requests - {(me, target), (target, me)}, g.friends - {Ordered(me, target)};
      (Graph(requests, friends, g.blocks + {(me, target)}), Ok(false))
  }

  datatype Op =
    | Send(me: Bytes, to: Bytes)
    | Accept(me: Bytes, requester: Bytes)
    | Decline(me: Bytes, requester: Bytes)
    | CancelRequest(me: Bytes, addressee: Bytes)
    | RemoveFriend(me: Bytes, friend: Bytes)
    | Block(me: Bytes, target: Bytes)
    | Unblock(me: Bytes, target: Bytes)

  ghost function Step(g: Graph, op: Op): (Graph, Result) {
    match op
    case Send(me, to) => SendStep(g, me, to)
    case Accept(me, requester) => AcceptStep(g, me, requester)
    case Decline(me, requester) => DeleteRequestStep(g, requester, me)
    case CancelRequest(me, addressee) => DeleteRequestStep(g, me, addressee)
    case RemoveFriend(me, friend) => RemoveFriendStep(g, me, friend)
    case Block(me, target) => BlockStep(g, me, target)
    case Unblock(me, target) => (g.(blocks := g.blocks - {(me, target)}), Ok(false))
  }

  ghost function Run(ops: seq<Op>): Graph {
    if ops == [] then Graph({}, {}, {}) else Step(Run(ops[..|ops| - 1]), ops[|ops| - 1]).0
  }

  /** What holds between any two players. */
  ghost predicate PairOk(g: Graph, a: Bytes, b: Bytes) {
    && ((a, b) in g.requests ==> a != b && (b, a) !in g.requests)
    && (Friends(g, a, b) ==> a != b && (a, b) !in g.requests && (b, a) !in g.requests)
    && (BlockedEither(g, a, b) ==> a != b && !Friends(g, a, b) && (a, b) !in g.requests && (b, a) !in g.requests)
  }

  /** Every friendship row is stored in canonical order. */
  ghost predicate RowsCanonical(g: Graph) { forall f :: f in g.friends ==> f == Ordered(f.0, f.1) }

  ghost predicate Inv(g: Graph) { RowsCanonical(g) && forall a, b :: PairOk(g, a, b) }

  lemma StepKeepsPair(g: Graph, op: Op, a: Bytes, b: Bytes)
    requires Inv(g)
    ensures PairOk(Step(g, op).0, a, b)
  {
    assert PairOk(g, a, b) && PairOk(g, b, a);
    OrderedIsCanonical(a, b);
    match op
    case Send(me, to) => SamePair(a, b, me, to); assert PairOk(g, me, to);
    case Accept(me, requester) => SamePair(a, b, requester, me); assert PairOk(g, requester, me);
    case Block(me, target) => SamePair(a, b, me, target);
    case _ =>
  }

  lemma StepKeepsRows(g: Graph, op: Op)
    requires Inv(g)
    ensures RowsCanonical(Step(g, op).0)
  {
    match op
    case Send(me, to) => OrderedTwice(me, to);
    case Accept(me, requester) => OrderedTwice(requester, me);
    case _ =>
  }

  lemma OrderedTwice(a: Bytes, b: Bytes)
    ensures Ordered(Ordered(a, b).0, Ordered(a, b).1) == Ordered(a, b)
  {
    OrderedIsCanonical(a, b);
  }

  /**
   * Over every serial run: nobody is tied to themselves, at most one direction is pending per pair, friends have
   * no pending request, and a block in either direction excludes friendship and requests.
   */
  lemma {:induction false} EveryRunIsConsistent(ops: seq<Op>)
    ensures Inv(Run(ops))
  {
    if ops != [] {
      var g, op := Run(ops[..|ops| - 1]), ops[|ops| - 1];
      EveryRunIsConsistent(ops[..|ops| - 1]);
      StepKeepsRows(g, op);
      forall a, b ensures PairOk(Step(g, op).0, a, b) {
        StepKeepsPair(g, op, a, b);
      }
    }
  }

  /** Accepting succeeds exactly when the request is pending, and never runs into the friendship table's constraints. */
  lemma AcceptSucceedsIffRequested(ops: seq<Op>, me: Bytes, requester: Bytes)
    ensures var g := Run(ops);
            && (Step(g, Accept(me, requester)).1 == Ok(true) <==> (requester, me) in g.requests)
            && Step(g, Accept(me, requester)).1 != Err(Conflict)
  {
    EveryRunIsConsistent(ops);
    assert PairOk(Run(ops), requester, me);
  }

  /** Two mutual requests make one friendship, whichever side sends second. */
  lemma MutualRequestsBefriend(ops: seq<Op>, a: Bytes, b: Bytes)
    requires Step(Run(ops), Send(a, b)).1 == Ok(false)
    ensures var g := Step(Run(ops), Send(a, b)).0;
            && Step(g, Send(b, a)).1 == Ok(true)
            && Friends(Step(g, Send(b, a)).0, a, b)
            && Step(g, Send(b, a)).0 == Step(g, Accept(b, a)).0
  {
    EveryRunIsConsistent(ops);
    OrderedIsCanonical(a, b);
    assert PairOk(Run(ops), a, b);
  }

  /** A new request is undone by its addressee declining or its sender cancelling. */
  lemma RequestIsUndone(ops: seq<Op>, a: Bytes, b: Bytes)
    requires Step(Run(ops), Send(a, b)).1 == Ok(false)
    ensures var g := Step(Run(ops), Send(a, b)).0;
            Step(g, Decline(b, a)) == (Run(ops), Ok(false)) && Step(g, CancelRequest(a, b)) == (Run(ops), Ok(false))
  {
    var g := Run(ops);
    assert g.requests + {(a, b)} - {(a, b)} == g.requests;
  }

  /** Either friend can end a friendship, which leaves the graph as if the request had been declined. */
  lemma FriendshipIsUndone(ops: seq<Op>, a: Bytes, b: Bytes)
    requires (a, b) in Run(ops).requests
    ensures var g := Step(Run(ops), Accept(b, a)).0;
            && Friends(g, a, b) && Step(g, RemoveFriend(a, b)) == Step(g, RemoveFriend(b, a))
            && Step(g, RemoveFriend(a, b)) == Step(Run(ops), Decline(b, a))
  {
    var g := Run(ops);
    EveryRunIsConsistent(ops);
    assert PairOk(g, a, b);
    OrderedIsCanonical(a, b);
    assert g.friends + {Ordered(a, b)} - {Ordered(a, b)} == g.friends;
  }

  /** A block between strangers is undone by lifting it; otherwise only the old tie stays broken. */
  lemma BlockIsUndone(g: Graph, a: Bytes, b: Bytes)
    requires a != b && (a, b) !in g.blocks
    ensures var g' := Step(Step(g, Block(a, b)).0, Unblock(a, b)).0;
            && g'.blocks == g.blocks && !Friends(g', a, b) && (a, b) !in g'.requests && (b, a) !in g'.requests
            && (!Friends(g, a, b) && (a, b) !in g.requests && (b, a) !in g.requests ==> g' == g)
  {
    assert g.blocks + {(a, b)} - {(a, b)} == g.blocks;
    if !Friends(g, a, b) && (a, b) !in g.requests && (b, a) !in g.requests {
      assert g.requests - {(a, b), (b, a)} == g.requests && g.friends - {Ordered(a, b)} == g.friends;
    }
  }

  // ---- the code ----

  class SocialStore {
    var requests: set<(Bytes, Bytes)>
    var friends: set<(Bytes, Bytes)>
    var blocks: set<(Bytes, Bytes)>

    function State(): Graph
      reads this
    {
      Graph(requests, friends, blocks)
    }

    constructor ()
      ensures State() == Run([])
    {
      requests, friends, blocks := {}, {}, {};
    }

    method SendFriendRequest(me: Bytes, addressee: Bytes) returns (r: Result)
      modifies this
      ensures (State(), r) == Step(old(State()), Send(me, addressee))
    {
      if me == addressee {
        return Err(SelfFriend);
      }
      if BlockedEither(State(), me, addressee) {
        return Err(Error.Blocked);
      }
      var low, high := OrderPair(me, addressee);
      if (low, high) in friends {
        return Err(AlreadyFriends);
      }
      if (addressee, me) in requests {
        requests := requests - {(addressee, me)};
        friends := friends + {(low, high)};
        return Ok(true);
      }
      if (me, addressee) in requests {
        return Err(AlreadyRequested);
      }
      requests := requests + {(me, addressee)};
      return Ok(false);
    }

    method AcceptFriendRequest(me: Bytes, requester: Bytes) returns (r: Result)
      modifies this
      ensures (State(), r) == Step(old(State()), Accept(me, requester))
    {
      if (requester, me) !in requests {
        return Err(RequestNotFound);
      }
      var low, high := OrderPair(requester, me);
      if (low, high) in friends || low == high {
        return Err(Conflict);
      }
      requests, friends := requests - {(requester, me)}, friends + {(low, high)};
      return Ok(true);
    }

    method BlockPlayer(me: Bytes, target: Bytes) returns (r: Result)
      modifies this
      ensures (State(), r) == Step(old(State()), Block(me, target))
    {
      if me == target {
        return Err(SelfBlock);
      }
      blocks := blocks + {(me, target)};
      var low, high := OrderPair(me, target);
      friends := friends - {(low, high)};
      requests := requests - {(me, target)};
      requests := requests - {(target, me)};
      assert State() == Step(old(State()), Block(me, target)).0;
      return Ok(false);
    }

    method DeleteRequest(requester: Bytes, addressee: Bytes) returns (r: Result)
      modifies this`requests
      ensures (State(), r) == DeleteRequestStep(old(State()), requester, addressee)
    {
      if (requester, addressee) !in requests {
        return Err(RequestNotFound);
      }
      requests := requests - {(requester, addressee)};
      return Ok(false);
    }

    method Unfriend(me: Bytes, friend: Bytes) returns (r: Result)
      modifies this`friends
      ensures (State(), r) == Step(old(State()), RemoveFriend(me, friend))
    {
      var low, high := OrderPair(me, friend);
      if (low, high) !in friends {
        return Err(NotFriends);
      }
      friends := friends - {(low, high)};
      return Ok(false);
    }
  }

  // ---- what the operations do ----

  lemma BlockStays(g: Graph, op: Op, a: Bytes, b: Bytes)
    requires (a, b) in g.blocks && op != Unblock(a, b)
    ensures (a, b) in Step(g, op).0.blocks
  {}

  /** After a block neither side can ask the other, whatever happens, until the block is lifted. */
  lemma {:induction false} BlockedUntilLifted(ops: seq<Op>, a: Bytes, b: Bytes, later: seq<Op>)
    requires a != b && forall i :: 0 <= i < |later| ==> later[i] != Unblock(a, b)
    ensures var g := Run(ops + [Block(a, b)] + later);
            (a, b) in g.blocks && Step(g, Send(a, b)) == (g, Err(Blocked)) && Step(g, Send(b, a)) == (g, Err(Blocked))
    decreases |later|
  {
    var blocked := ops + [Block(a, b)];
    if later == [] {
      assert blocked + later == blocked && blocked[..|ops|] == ops;
    } else {
      var init := later[..|later| - 1];
      assert (blocked + later)[..|blocked + later| - 1] == blocked + init;
      BlockedUntilLifted(ops, a, b, init);
      BlockStays(Run(blocked + init), later[|later| - 1], a, b);
    }
  }

  /** Exactly when a request is refused and why, and what it does when it is not. */
  lemma SendOutcome(g: Graph, me: Bytes, to: Bytes)
    ensures var (g', r) := Step(g, Send(me, to));
            && (r == Err(SelfFriend) <==> me == to)
            && (r == Err(Blocked) <==> me != to && BlockedEither(g, me, to))
            && (r == Err(AlreadyFriends) <==> me != to && !BlockedEither(g, me, to) && Friends(g, me, to))
            && (r == Err(AlreadyRequested) <==>
                  me != to && !BlockedEither(g, me, to) && !Friends(g, me, to)
                  && (me, to) in g.requests && (to, me) !in g.requests)
            && (r.Err? ==> g' == g)
            && (r == Ok(true) ==>
                  && (to, me) in g.requests && g'.blocks == g.blocks
                  && g'.requests == g.requests - {(to, me)} && g'.friends == g.friends + {Ordered(me, to)})
            && (r == Ok(false) ==>
                  && (to, me) !in g.requests && g'.blocks == g.blocks
                  && g'.requests == g.requests + {(me, to)} && g'.friends == g.friends)
  {}

  /** Accepting takes the request and leaves a friendship. */
  lemma AcceptOutcome(ops: seq<Op>, me: Bytes, requester: Bytes)
    requires (requester, me) in Run(ops).requests
    ensures var g, g' := Run(ops), Step(Run(ops), Accept(me, requester)).0;
            && Friends(g', me, requester) && g'.blocks == g.blocks
            && g'.requests == g.requests - {(requester, me)} && g'.friends == g.friends + {Ordered(me, requester)}
  {
    EveryRunIsConsistent(ops);
    assert PairOk(Run(ops), requester, me);
    OrderedIsCanonical(me, requester);
  }

  /** A missing request or friendship is reported, and nothing changes. */
  lemma MissingIsReported(g: Graph, a: Bytes, b: Bytes)
    ensures (a, b) !in g.requests ==>
              && Step(g, Decline(b, a)) == (g, Err(RequestNotFound))
              && Step(g, CancelRequest(a, b)) == (g, Err(RequestNotFound))
    ensures !Friends(g, a, b) ==> Step(g, RemoveFriend(a, b)) == (g, Err(NotFriends))
    ensures Step(g, Block(a, a)) == (g, Err(SelfBlock))
  {}

  /** The two players an operation is about. */
  function Parties(op: Op): set<Bytes> {
    match op
    case Send(me, to) => {me, to}
    case Accept(me, requester) => {me, requester}
    case Decline(me, requester) => {me, requester}
    case CancelRequest(me, addressee) => {me, addressee}
    case RemoveFriend(me, friend) => {me, friend}
    case Block(me, target) => {me, target}
    case Unblock(me, target) => {me, target}
  }

  /** No operation touches what is between any other two players. */
  lemma OthersUntouched(g: Graph, op: Op, c: Bytes, d: Bytes)
    requires {c, d} != Parties(op)
    ensures var g' := Step(g, op).0;
            && ((c, d) in g'.requests <==> (c, d) in g.requests) && ((c, d) in g'.blocks <==> (c, d) in g.blocks)
            && (Friends(g', c, d) <==> Friends(g, c, d))
  {
    match op
    case Send(me, to) => SamePair(c, d, me, to);
    case Accept(me, requester) => SamePair(c, d, requester, me);
    case RemoveFriend(me, friend) => SamePair(c, d, me, friend);
    case Block(me, target) => SamePair(c, d, me, target);
    case _ =>
  }
}
