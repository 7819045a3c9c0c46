/** One board: the keep-best table, its count-based ranks, and its listings. */
module Leaderboard {
  import opened Base
  import opened Sorting

  datatype SortOrder = Descending | Ascending

  /** Whether score a ranks strictly better than b. */
  predicate Beats(order: SortOrder, a: int, b: int) { if order.Ascending? then a < b else a > b }

  datatype Row = Row(score: int, achievedAt: Time)

  type Table = map<UUID, Row>

  datatype Submission = Submission(player: UUID, score: int, at: Time)

  /** The conditional upsert; improved says whether a row was written. */
  function Upsert(order: SortOrder, t: Table, s: Submission): (Table, bool) {
    if s.player !in t || Beats(order, s.score, t[s.player].score)
    then (t[s.player := Row(s.score, s.at)], true)
    else (t, false)
  }

  function Scores(t: Table): map<UUID, int> { map p | p in t :: t[p].score }

  function History(order: SortOrder, subs: seq<Submission>): Table {
    if subs == [] then map[]
    else Upsert(order, History(order, subs[..|subs| - 1]), subs[|subs| - 1]).0
  }

  /** The row is the player's first submission of a score that no submission of theirs beats. */
  ghost predicate IsBest(order: SortOrder, subs: seq<Submission>, p: UUID, r: Row) {
    exists i :: 0 <= i < |subs| && subs[i] == Submission(p, r.score, r.achievedAt)
                && (forall j :: 0 <= j < |subs| && subs[j].player == p ==> !Beats(order, subs[j].score, r.score))
                && (forall j :: 0 <= j < i && subs[j].player == p ==> subs[j].score != r.score)
  }

  lemma {:induction false} HistoryKeepsBest(order: SortOrder, subs: seq<Submission>, p: UUID)
    ensures p in History(order, subs) <==> exists i :: 0 <= i < |subs| && subs[i].player == p
    ensures p in History(order, subs) ==> IsBest(order, subs, p, History(order, subs)[p])
  {
    if subs != [] {
      var n := |subs| - 1;
      var init, s := subs[..n], subs[n];
      var before, after := History(order, init), History(order, subs);
      HistoryKeepsBest(order, init, p);
      if p in before {
        var r := before[p];
        var i :| 0 <= i < n && init[i] == Submission(p, r.score, r.achievedAt)
                 && (forall j :: 0 <= j < n && init[j].player == p ==> !Beats(order, init[j].score, r.score))
                 && (forall j :: 0 <= j < i && init[j].player == p ==> init[j].score != r.score);
        assert subs[i] == init[i];
        var best := if s.player == p && Beats(order, s.score, r.score) then n else i;
        assert after[p] == Row(subs[best].score, subs[best].at);
        assert forall j :: 0 <= j < n ==> subs[j] == init[j];
      } else {
        assert forall j :: 0 <= j < n ==> init[j] == subs[j] && subs[j].player != p;
      }
    }
  }

  /** A player's score is their highest on a descending board, their lowest on an ascending one. */
  lemma ScoreIsExtreme(order: SortOrder, subs: seq<Submission>, p: UUID)
    requires p in History(order, subs)
    ensures var row := History(order, subs)[p];
            exists i :: 0 <= i < |subs| && subs[i] == Submission(p, row.score, row.achievedAt)
    ensures forall j :: 0 <= j < |subs| && subs[j].player == p ==>
                          if order.Descending? then subs[j].score <= History(order, subs)[p].score
                          else subs[j].score >= History(order, subs)[p].score
  {
    HistoryKeepsBest(order, subs, p);
  }

  /** The scores on the board do not depend on the order in which the submissions arrived. */
  lemma ScoresIgnoreOrder(order: SortOrder, subs: seq<Submission>, others: seq<Submission>)
    requires multiset(subs) == multiset(others)
    ensures Scores(History(order, subs)) == Scores(History(order, others))
  {
    var a, b := History(order, subs), History(order, others);
    SameElements(subs, others);
    forall p ensures p in a <==> p in b
      ensures p in a ==> a[p].score == b[p].score
    {
      HistoryKeepsBest(order, subs, p);
      HistoryKeepsBest(order, others, p);
      SameSubmitters(subs, others, p);
      if p in a {
        BestIn(order, subs, others, p, a[p], b[p]);
        BestIn(order, others, subs, p, b[p], a[p]);
      }
    }
  }

  lemma SameSubmitters(subs: seq<Submission>, others: seq<Submission>, p: UUID)
    requires forall s :: s in subs <==> s in others
    ensures (exists i :: 0 <= i < |subs| && subs[i].player == p) <==>
            (exists i :: 0 <= i < |others| && others[i].player == p)
  {
    if i :| 0 <= i < |subs| && subs[i].player == p {
      assert subs[i] in others;
    }
    if i :| 0 <= i < |others| && others[i].player == p {
      assert others[i] in subs;
    }
  }

  lemma BestIn(order: SortOrder, subs: seq<Submission>, others: seq<Submission>, p: UUID, r: Row, r': Row)
    requires forall s :: s in subs ==> s in others
    requires IsBest(order, subs, p, r) && IsBest(order, others, p, r')
    ensures !Beats(order, r.score, r'.score)
  {
    var i :| 0 <= i < |subs| && subs[i] == Submission(p, r.score, r.achievedAt);
    assert subs[i] in others;
  }

  // ---- ranks ----

  /** Strictly ahead in the total (score, then earlier achieved_at) order. */
  predicate Ahead(order: SortOrder, a: Row, b: Row) {
    Beats(order, a.score, b.score) || (a.score == b.score && a.achievedAt < b.achievedAt)
  }

  ghost function AheadOf(order: SortOrder, t: Table, p: UUID): set<UUID>
    requires p in t
  {
    set o | o in t && Ahead(order, t[o], t[p])
  }

  /** The others with the player's very score and time. */
  ghost function Ties(t: Table, p: UUID): set<UUID>
    requires p in t
  {
    set o | o in t && o != p && t[o] == t[p]
  }

  /** RankOf counts the entries strictly ahead. */
  ghost function RankOf(order: SortOrder, t: Table, p: UUID): nat
    requires p in t
  {
    1 + |AheadOf(order, t, p)|
  }

  /** What ORDER BY score, achieved_at may return: ties may come in any order. */
  ghost predicate IsListing(order: SortOrder, t: Table, l: seq<UUID>) {
    && NoDuplicates(l)
    && (forall p :: p in l <==> p in t)
    && (forall i, j :: 0 <= i < j < |l| ==> !Ahead(order, t[l[j]], t[l[i]]))
  }

  lemma PrefixSize(l: seq<UUID>, i: nat)
    requires NoDuplicates(l) && i <= |l|
    ensures |Elements(l[..i])| == i
  {
    forall a, b | 0 <= a < b < i ensures l[..i][a] != l[..i][b] {
      assert l[a] != l[b];
    }
    ElementsOfNoDuplicates(l[..i]);
  }

  lemma SubsetSize<T>(a: set<T>, b: set<T>)
    requires a <= b
    ensures |a| <= |b|
  {
    assert b == a + (b - a);
  }

  /** In every listing a player stands at their rank, at most as many places later as they have ties. */
  lemma PositionBracket(order: SortOrder, t: Table, l: seq<UUID>, i: nat)
    requires IsListing(order, t, l) && i < |l|
    ensures l[i] in t && RankOf(order, t, l[i]) <= i + 1 <= RankOf(order, t, l[i]) + |Ties(t, l[i])|
  {
    var p := l[i];
    assert p in t;
    var ahead, ties, before := AheadOf(order, t, p), Ties(t, p), Elements(l[..i]);
    PrefixSize(l, i);
    forall o | o in ahead ensures o in before {
      assert o in l;
      var j :| 0 <= j < |l| && l[j] == o;
      assert j < i;
      assert l[..i][j] == o;
    }
    SubsetSize(ahead, before);
    forall o | o in before ensures o in ahead + ties {
      var j :| 0 <= j < i && l[j] == o;
      assert o in l && !Ahead(order, t[p], t[o]);
    }
    SubsetSize(before, ahead + ties);
  }

  /** A listing reads best score first, and among equal scores earliest first. */
  lemma ListingReads(order: SortOrder, t: Table, l: seq<UUID>, i: nat, j: nat)
    requires IsListing(order, t, l) && i < j < |l|
    ensures l[i] in t && l[j] in t
    ensures if order.Descending? then t[l[i]].score >= t[l[j]].score else t[l[i]].score <= t[l[j]].score
    ensures t[l[i]].score == t[l[j]].score ==> t[l[i]].achievedAt <= t[l[j]].achievedAt
  {
    assert l[i] in l && l[j] in l;
  }

  ghost function SomeOrder<T(!new)>(s: set<T>): (l: seq<T>)
    ensures NoDuplicates(l) && forall x :: x in l <==> x in s
  {
    if s == {} then []
    else
      var x :| x in s;
      SomeOrder(s - {x}) + [x]
  }

  function RowOf(t: Table, p: UUID): Row { if p in t then t[p] else Row(0, 0) }

  /** A listing order that puts one player behind all their ties, or ahead of them. */
  predicate Placing(order: SortOrder, t: Table, p: UUID, last: bool, a: UUID, b: UUID) {
    || Ahead(order, RowOf(t, a), RowOf(t, b))
    || (RowOf(t, a) == RowOf(t, b) && a != b && p == if last then b else a)
  }

  lemma PlacingIsWeak(order: SortOrder, t: Table, p: UUID, last: bool, less: (UUID, UUID) -> bool)
    requires forall a, b :: less(a, b) == Placing(order, t, p, last, a, b)
    ensures StrictWeakOrder(less)
  {}

  lemma SortedListing(order: SortOrder, t: Table, p: UUID, last: bool) returns (l: seq<UUID>)
    ensures IsListing(order, t, l)
    ensures forall i, j :: 0 <= i < j < |l| ==> !Placing(order, t, p, last, l[j], l[i])
  {
    var less, keys := (a: UUID, b: UUID) => Placing(order, t, p, last, a, b), SomeOrder(t.Keys);
    l := Sort(less, keys);
    PlacingIsWeak(order, t, p, last, less);
    SortSorts(less, keys);
    SortPermutes(less, keys);
    SameElements(keys, l);
    SameElementsNoDuplicates(keys, l);
    forall a, b | 0 <= a < b < |l| ensures !Placing(order, t, p, last, l[b], l[a]) && !Ahead(order, t[l[b]], t[l[a]]) {
      assert l[a] in l && l[b] in l && !less(l[b], l[a]);
    }
  }

  /** Both ends of the bracket are reached: some listing has the player first of their ties, some has them last. */
  lemma ListingAtEnd(order: SortOrder, t: Table, p: UUID, last: bool) returns (l: seq<UUID>, i: nat)
    requires p in t
    ensures IsListing(order, t, l) && i < |l| && l[i] == p
    ensures i + 1 == RankOf(order, t, p) + if last then |Ties(t, p)| else 0
  {
    l := SortedListing(order, t, p, last);
    assert p in l;
    i :| 0 <= i < |l| && l[i] == p;
    PositionBracket(order, t, l, i);
    if last {
      BehindTies(order, t, p, l, i);
    } else {
      AheadOfTies(order, t, p, l, i);
    }
  }

  lemma BehindTies(order: SortOrder, t: Table, p: UUID, l: seq<UUID>, i: nat)
    requires IsListing(order, t, l) && i < |l| && l[i] == p && p in t
    requires forall i, j :: 0 <= i < j < |l| ==> !Placing(order, t, p, true, l[j], l[i])
    ensures i + 1 >= RankOf(order, t, p) + |Ties(t, p)|
  {
    var ahead, ties, before := AheadOf(order, t, p), Ties(t, p), Elements(l[..i]);
    forall o | o in ahead + ties ensures o in before {
      assert o in l && Placing(order, t, p, true, o, p);
      var j :| 0 <= j < |l| && l[j] == o;
      assert j < i;
      assert l[..i][j] == o;
    }
    SubsetSize(ahead + ties, before);
    PrefixSize(l, i);
    assert ahead !! ties;
  }

  lemma AheadOfTies(order: SortOrder, t: Table, p: UUID, l: seq<UUID>, i: nat)
    requires IsListing(order, t, l) && i < |l| && l[i] == p && p in t
    requires forall i, j :: 0 <= i < j < |l| ==> !Placing(order, t, p, false, l[j], l[i])
    ensures i + 1 <= RankOf(order, t, p)
  {
    var ahead, before := AheadOf(order, t, p), Elements(l[..i]);
    forall o | o in before ensures o in ahead {
      var j :| 0 <= j < i && l[j] == o;
      assert o in l && !Placing(order, t, p, false, p, o) && !Ahead(order, t[p], t[o]);
    }
    SubsetSize(before, ahead);
    PrefixSize(l, i);
  }

  /** Count-based rank and place in the listing agree in every listing exactly when nobody ties with the player. */
  lemma RankIsPositionIff(order: SortOrder, t: Table, p: UUID)
    requires p in t
    ensures (forall l, i :: IsListing(order, t, l) && 0 <= i < |l| && l[i] == p ==> i + 1 == RankOf(order, t, p))
            <==> Ties(t, p) == {}
  {
    if Ties(t, p) == {} {
      forall l, i | IsListing(order, t, l) && 0 <= i < |l| && l[i] == p ensures i + 1 == RankOf(order, t, p) {
        PositionBracket(order, t, l, i);
      }
    } else {
      var l, i := ListingAtEnd(order, t, p, true);
      var o :| o in Ties(t, p);
      SubsetSize({o}, Ties(t, p));
    }
  }

  datatype Ranked = Ranked(rank: int, player: UUID, row: Row)

  function Entry(t: Table, l: seq<UUID>, i: nat): Ranked
    requires i < |l|
  {
    Ranked(i + 1, l[i], RowOf(t, l[i]))
  }

  /** Entries offset .. offset + limit of a listing, with ranks counted from the offset. */
  function Page(t: Table, l: seq<UUID>, offset: nat, limit: nat): seq<Ranked> {
    seq(Max(0, Min(limit, |l| - offset)),
        i requires 0 <= i < Max(0, Min(limit, |l| - offset)) => Entry(t, l, offset + i))
  }

  lemma PageHas(t: Table, l: seq<UUID>, offset: nat, limit: nat, i: nat)
    requires offset <= i < |l| && i < offset + limit
    ensures i - offset < |Page(t, l, offset, limit)| && Page(t, l, offset, limit)[i - offset] == Entry(t, l, i)
    ensures Entry(t, l, i) in Page(t, l, offset, limit)
  {}

  lemma PageOnlyHas(t: Table, l: seq<UUID>, offset: nat, limit: nat, e: Ranked) returns (i: nat)
    requires e in Page(t, l, offset, limit)
    ensures offset <= i < |l| && i < offset + limit && e == Entry(t, l, i)
  {
    var k :| 0 <= k < |Page(t, l, offset, limit)| && Page(t, l, offset, limit)[k] == e;
    i := offset + k;
  }

  method TopRanks(t: Table, l: seq<UUID>, offset: nat, limit: nat) returns (page: seq<Ranked>)
    ensures page == Page(t, l, offset, limit)
  {
    page := [];
    var i := 0;
    while i < limit && offset + i < |l|
      invariant i == |page| <= limit && (i > 0 ==> offset + i <= |l|)
      invariant forall k :: 0 <= k < i ==> page[k] == Entry(t, l, offset + k)
    {
      page := page + [Entry(t, l, offset + i)];
      i := i + 1;
    }
  }

  function Clamp(radius: int, maxRadius: nat): nat {
    if radius < 0 then 0 else if radius > maxRadius then maxRadius else radius
  }

  /** The page around a rank, for a clamped radius. */
  function Around(t: Table, l: seq<UUID>, rank: nat, r: nat): seq<Ranked> {
    Page(t, l, Max(rank - 1 - r, 0), 2 * r + 1)
  }

  /** Rank and listing are what the two queries returned. */
  method ListRanksAroundPlayer(t: Table, l: seq<UUID>, rank: nat, radius: int, maxRadius: nat)
    returns (page: seq<Ranked>)
    ensures page == Around(t, l, rank, Clamp(radius, maxRadius))
  {
    var r := radius;
    if r < 0 {
      r := 0;
    }
    if r > maxRadius {
      r := maxRadius;
    }
    var offset := rank - 1 - r;
    if offset < 0 {
      offset := 0;
    }
    page := TopRanks(t, l, offset, 2 * r + 1);
  }

  lemma RankInListing(order: SortOrder, t: Table, l: seq<UUID>, p: UUID) returns (i: nat)
    requires IsListing(order, t, l) && p in t
    ensures i < |l| && l[i] == p && 1 <= RankOf(order, t, p) <= i + 1 <= RankOf(order, t, p) + |Ties(t, p)|
  {
    assert p in l;
    i :| 0 <= i < |l| && l[i] == p;
    PositionBracket(order, t, l, i);
  }

  /** Every entry within the radius is on the page, which has at most 2r + 1 entries. */
  lemma AroundCovers(order: SortOrder, t: Table, l: seq<UUID>, p: UUID, r: nat)
    requires IsListing(order, t, l) && p in t
    ensures var rank := RankOf(order, t, p);
            && |Around(t, l, rank, r)| <= 2 * r + 1
            && forall i :: 0 <= i < |l| && rank - r <= i + 1 <= rank + r ==> Entry(t, l, i) in Around(t, l, rank, r)
  {
    var rank := RankOf(order, t, p);
    forall i | 0 <= i < |l| && rank - r <= i + 1 <= rank + r ensures Entry(t, l, i) in Around(t, l, rank, r) {
      PageHas(t, l, Max(rank - 1 - r, 0), 2 * r + 1, i);
    }
  }

  /** Nothing outside the radius is on the page exactly when the top does not cut it off or the board ends first. */
  lemma AroundStaysWithinIff(order: SortOrder, t: Table, l: seq<UUID>, p: UUID, r: nat)
    requires IsListing(order, t, l) && p in t
    ensures var rank := RankOf(order, t, p);
            (forall e :: e in Around(t, l, rank, r) ==> rank - r <= e.rank <= rank + r) <==> r < rank || |l| <= rank + r
  {
    var rank := RankOf(order, t, p);
    var offset := Max(rank - 1 - r, 0);
    if r < rank || |l| <= rank + r {
      forall e | e in Around(t, l, rank, r) ensures rank - r <= e.rank <= rank + r {
        var i := PageOnlyHas(t, l, offset, 2 * r + 1, e);
      }
    } else {
      PageHas(t, l, offset, 2 * r + 1, rank + r);
      assert Entry(t, l, rank + r).rank == rank + r + 1;
    }
  }

  /** The page around a rank, whatever the rank, holds the player in every listing. */
  ghost predicate AlwaysOnPage(order: SortOrder, t: Table, p: UUID, rank: nat, r: nat) {
    forall l :: IsListing(order, t, l) ==> exists e :: e in Around(t, l, rank, r) && e.player == p
  }

  /**
   * The page around any rank holds the player in every listing exactly when it reaches from their counted rank to
   * their last place behind all their ties.
   */
  lemma AlwaysOnPageIff(order: SortOrder, t: Table, p: UUID, rank: nat, r: nat)
    requires p in t
    ensures var offset := Max(rank - 1 - r, 0);
            AlwaysOnPage(order, t, p, rank, r) <==>
            offset < RankOf(order, t, p) && RankOf(order, t, p) + |Ties(t, p)| <= offset + 2 * r + 1
  {
    var offset := Max(rank - 1 - r, 0);
    if offset < RankOf(order, t, p) && RankOf(order, t, p) + |Ties(t, p)| <= offset + 2 * r + 1 {
      forall l | IsListing(order, t, l) ensures exists e :: e in Around(t, l, rank, r) && e.player == p {
        var i := RankInListing(order, t, l, p);
        PageHas(t, l, offset, 2 * r + 1, i);
      }
    } else {
      var last := offset < RankOf(order, t, p);
      var l, i := ListingAtEnd(order, t, p, last);
      forall e | e in Around(t, l, rank, r) ensures e.player != p {
        var k := PageOnlyHas(t, l, offset, 2 * r + 1, e);
        assert k != i;
      }
    }
  }

  /** How many ties the page leaves room for: the radius, plus the places the top of the board frees up. */
  function Room(rank: nat, r: nat): nat { r + Max(r + 1 - rank, 0) }

  /** Around the counted rank, that is when they have no more ties than the page has room for. */
  lemma AroundHasPlayerIff(order: SortOrder, t: Table, p: UUID, r: nat)
    requires p in t
    ensures AlwaysOnPage(order, t, p, RankOf(order, t, p), r) <==> |Ties(t, p)| <= Room(RankOf(order, t, p), r)
  {
    AlwaysOnPageIff(order, t, p, RankOf(order, t, p), r);
  }

  /** Without ties the player is on the page, at the rank the count gave. */
  lemma AroundHasSelf(order: SortOrder, t: Table, l: seq<UUID>, p: UUID, r: nat)
    requires IsListing(order, t, l) && p in t && Ties(t, p) == {}
    ensures Ranked(RankOf(order, t, p), p, t[p]) in Around(t, l, RankOf(order, t, p), r)
  {
    var i := RankInListing(order, t, l, p);
    AroundCovers(order, t, l, p, r);
    assert Entry(t, l, i) == Ranked(RankOf(order, t, p), p, t[p]);
  }

  /** The radius used is the one in range that is nearest to the one asked for. */
  lemma RadiusIsNearest(radius: int, maxRadius: nat, other: nat)
    requires other <= maxRadius
    ensures Clamp(radius, maxRadius) <= maxRadius
    ensures var r := Clamp(radius, maxRadius); Max(r - radius, radius - r) <= Max(other - radius, radius - other)
  {}
}
