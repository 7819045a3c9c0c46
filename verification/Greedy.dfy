/** The greedy selection, said without the loop: which units a seed takes, and which seed is served. */
module Greedy {
  import opened Base
  import opened Tickets
  import opened Units
  import opened Matcher

  /** The seats taken by the chosen units before index n. */
  ghost function Taken(units: seq<Unit>, chosen: set<nat>, n: nat): nat
    requires n <= |units|
  {
    if n == 0 then 0 else Taken(units, chosen, n - 1) + if n - 1 in chosen then units[n - 1].Size() else 0
  }

  /** Their tickets, oldest unit first. */
  ghost function TicketsOf(units: seq<Unit>, chosen: set<nat>, n: nat): seq<Ticket>
    requires n <= |units|
  {
    if n == 0 then [] else TicketsOf(units, chosen, n - 1) + if n - 1 in chosen then units[n - 1].tickets else []
  }

  /** The unit at j is admitted and fits beside the seed and everything chosen before it. */
  ghost predicate Fits(k: int, units: seq<Unit>, seed: nat, tier: Tier, chosen: set<nat>, j: nat)
    requires seed < |units| && j < |units|
  {
    tier.AdmitsUnit(units[j]) && units[seed].Size() + Taken(units, chosen, j) + units[j].Size() <= k
  }

  /** Exactly the units that fit are chosen, solo or party alike. */
  ghost predicate TakesWhatFits(k: int, units: seq<Unit>, seed: nat, tier: Tier, chosen: set<nat>)
    requires seed < |units|
  {
    && seed !in chosen && (forall j :: j in chosen ==> j < |units|)
    && forall j: nat :: j < |units| && j != seed ==> (j in chosen <==> Fits(k, units, seed, tier, chosen, j))
  }

  /** The seed and what it takes make exactly a match. */
  ghost predicate Completes(m: Matcher, now: Time, units: seq<Unit>, seed: nat, chosen: set<nat>)
    requires seed < |units| && units[seed].tickets != []
  {
    && TakesWhatFits(m.playersPerMatch, units, seed, TierOf(m, now, units[seed]), chosen)
    && units[seed].Size() + Taken(units, chosen, |units|) == m.playersPerMatch
  }

  /** The oldest seed that completes a match is served, with exactly what it takes; nobody, when none does. */
  ghost predicate IsSelection(m: Matcher, now: Time, units: seq<Unit>, group: Option<seq<Ticket>>)
    requires NonEmptyUnits(units)
  {
    match group
    case None => forall seed: nat, chosen :: seed < |units| ==> !Completes(m, now, units, seed, chosen)
    case Some(g) =>
      exists seed: nat, chosen ::
        && seed < |units| && Completes(m, now, units, seed, chosen)
        && g == units[seed].tickets + TicketsOf(units, chosen, |units|)
        && forall earlier: nat, other :: earlier < seed ==> !Completes(m, now, units, earlier, other)
  }

  lemma {:induction false} TakenAgrees(units: seq<Unit>, a: set<nat>, b: set<nat>, n: nat)
    requires n <= |units| && forall j :: 0 <= j < n ==> (j in a <==> j in b)
    ensures Taken(units, a, n) == Taken(units, b, n) && TicketsOf(units, a, n) == TicketsOf(units, b, n)
  {
    if n > 0 {
      TakenAgrees(units, a, b, n - 1);
    }
  }

  lemma {:induction false} TakenCounts(units: seq<Unit>, chosen: set<nat>, n: nat)
    requires n <= |units|
    ensures |TicketsOf(units, chosen, n)| == Taken(units, chosen, n)
  {
    if n > 0 {
      TakenCounts(units, chosen, n - 1);
    }
  }

  /** A seed has only one way to take what fits. */
  lemma {:induction false} AgreeUpTo(k: int, units: seq<Unit>, seed: nat, tier: Tier, a: set<nat>, b: set<nat>, n: nat)
    requires seed < |units| && n <= |units|
    requires TakesWhatFits(k, units, seed, tier, a) && TakesWhatFits(k, units, seed, tier, b)
    ensures forall j :: 0 <= j < n ==> (j in a <==> j in b)
  {
    if n > 0 {
      AgreeUpTo(k, units, seed, tier, a, b, n - 1);
      FitsAlike(k, units, seed, tier, a, b, n - 1);
      if n - 1 != seed {
        assert (n - 1 in a <==> Fits(k, units, seed, tier, a, n - 1));
        assert (n - 1 in b <==> Fits(k, units, seed, tier, b, n - 1));
      }
    }
  }

  lemma FitsAlike(k: int, units: seq<Unit>, seed: nat, tier: Tier, a: set<nat>, b: set<nat>, j: nat)
    requires seed < |units| && j < |units| && forall i :: 0 <= i < j ==> (i in a <==> i in b)
    ensures Fits(k, units, seed, tier, a, j) <==> Fits(k, units, seed, tier, b, j)
  {
    TakenAgrees(units, a, b, j);
  }

  lemma OneWayToFit(k: int, units: seq<Unit>, seed: nat, tier: Tier, a: set<nat>, b: set<nat>)
    requires seed < |units| && TakesWhatFits(k, units, seed, tier, a) && TakesWhatFits(k, units, seed, tier, b)
    ensures a == b
  {
    AgreeUpTo(k, units, seed, tier, a, b, |units|);
    assert forall j :: j in a <==> j in b;
  }

  /** What has been chosen before j takes what fits, so far. */
  ghost predicate FitsSoFar(k: int, units: seq<Unit>, seed: nat, tier: Tier, chosen: set<nat>, n: nat)
    requires seed < |units| && n <= |units|
  {
    && seed !in chosen && (forall j :: j in chosen ==> j < n)
    && forall j: nat :: j < n && j != seed ==> (j in chosen <==> Fits(k, units, seed, tier, chosen, j))
  }

  lemma FitsOneMore(k: int, units: seq<Unit>, seed: nat, tier: Tier, chosen: set<nat>, n: nat)
    requires seed < |units| && n < |units| && FitsSoFar(k, units, seed, tier, chosen, n)
    ensures var chosen' := if n != seed && Fits(k, units, seed, tier, chosen, n) then chosen + {n} else chosen;
            FitsSoFar(k, units, seed, tier, chosen', n + 1)
  {
    var chosen' := if n != seed && Fits(k, units, seed, tier, chosen, n) then chosen + {n} else chosen;
    forall j: nat | j <= n ensures Taken(units, chosen', j) == Taken(units, chosen, j) {
      TakenAgrees(units, chosen, chosen', j);
    }
  }

  /** The loop from j on completes a choice made so far. */
  lemma {:induction false} FillFits(k: int, units: seq<Unit>, seed: nat, tier: Tier, j: nat, group: seq<Ticket>,
                                    chosen: set<nat>) returns (all: set<nat>)
    requires seed < |units| && j <= |units| && NonEmptyUnits(units) && units[seed].Size() <= k
    requires FitsSoFar(k, units, seed, tier, chosen, j) && group == units[seed].tickets + TicketsOf(units, chosen, j)
    requires |group| <= k
    ensures TakesWhatFits(k, units, seed, tier, all)
    ensures Fill(k, units, seed, tier, j, group) == units[seed].tickets + TicketsOf(units, all, |units|)
    decreases |units| - j
  {
    if j == |units| {
      all := chosen;
    } else {
      var takes := j != seed && Fits(k, units, seed, tier, chosen, j);
      var group' := if takes then group + units[j].tickets else group;
      var chosen' := OneUnit(k, units, seed, tier, j, group, chosen, takes);
      TakenCounts(units, chosen, j);
      FillStops(k, units, seed, tier, j, group, group', takes);
      all := FillFits(k, units, seed, tier, j + 1, group', chosen');
    }
  }

  lemma OneUnit(k: int, units: seq<Unit>, seed: nat, tier: Tier, j: nat, group: seq<Ticket>, chosen: set<nat>,
                takes: bool) returns (chosen': set<nat>)
    requires seed < |units| && j < |units| && FitsSoFar(k, units, seed, tier, chosen, j)
    requires group == units[seed].tickets + TicketsOf(units, chosen, j)
    requires takes <==> j != seed && Fits(k, units, seed, tier, chosen, j)
    ensures FitsSoFar(k, units, seed, tier, chosen', j + 1)
    ensures (if takes then group + units[j].tickets else group)
         == units[seed].tickets + TicketsOf(units, chosen', j + 1)
  {
    chosen' := if takes then chosen + {j} else chosen;
    FitsOneMore(k, units, seed, tier, chosen, j);
    TakenAgrees(units, chosen, chosen', j);
    NextGroup(units, seed, chosen', j, group, if takes then group + units[j].tickets else group);
  }

  lemma NextGroup(units: seq<Unit>, seed: nat, chosen: set<nat>, j: nat, group: seq<Ticket>, group': seq<Ticket>)
    requires seed < |units| && j < |units| && group == units[seed].tickets + TicketsOf(units, chosen, j)
    requires group' == if j in chosen then group + units[j].tickets else group
    ensures group' == units[seed].tickets + TicketsOf(units, chosen, j + 1)
  {}

  /** Stopping when the match is full is the same as going on, since nothing fits any more. */
  lemma {:induction false} FullStaysFull(k: int, units: seq<Unit>, seed: nat, tier: Tier, j: nat, group: seq<Ticket>)
    requires j <= |units| && |group| == k
    ensures Fill(k, units, seed, tier, j, group) == group
  {}

  lemma FillStops(k: int, units: seq<Unit>, seed: nat, tier: Tier, j: nat, group: seq<Ticket>, group': seq<Ticket>,
                  takes: bool)
    requires j < |units| && NonEmptyUnits(units) && |group| <= k
    requires takes <==> j != seed && tier.AdmitsUnit(units[j]) && |group| + units[j].Size() <= k
    requires group' == if takes then group + units[j].tickets else group
    ensures Fill(k, units, seed, tier, j, group) == Fill(k, units, seed, tier, j + 1, group')
  {
    if |group| == k {
      FullStaysFull(k, units, seed, tier, j + 1, group);
    }
  }

  lemma SeedFits(m: Matcher, now: Time, units: seq<Unit>, seed: nat) returns (chosen: set<nat>)
    requires NonEmptyUnits(units) && seed < |units| && units[seed].Size() <= m.playersPerMatch
    ensures TakesWhatFits(m.playersPerMatch, units, seed, TierOf(m, now, units[seed]), chosen)
    ensures Completes(m, now, units, seed, chosen) <==> GroupFrom(m, now, units, seed).Some?
    ensures GroupFrom(m, now, units, seed).Some? ==>
              GroupFrom(m, now, units, seed).value == units[seed].tickets + TicketsOf(units, chosen, |units|)
  {
    var k, tier := m.playersPerMatch, TierOf(m, now, units[seed]);
    assert units[seed].tickets + TicketsOf(units, {}, 0) == units[seed].tickets;
    chosen := FillFits(k, units, seed, tier, 0, units[seed].tickets, {});
    TakenCounts(units, chosen, |units|);
  }

  /** A seed forms a group exactly when what fits beside it makes a match. */
  lemma CompletesIff(m: Matcher, now: Time, units: seq<Unit>, seed: nat, chosen: set<nat>)
    requires NonEmptyUnits(units) && seed < |units| && Completes(m, now, units, seed, chosen)
    ensures GroupFrom(m, now, units, seed) == Some(units[seed].tickets + TicketsOf(units, chosen, |units|))
  {
    var other := SeedFits(m, now, units, seed);
    OneWayToFit(m.playersPerMatch, units, seed, TierOf(m, now, units[seed]), chosen, other);
  }

  lemma {:induction false} FirstSeed(m: Matcher, now: Time, units: seq<Unit>, i: nat)
    requires NonEmptyUnits(units) && i <= |units|
    ensures match SelectFrom(m, now, units, i)
            case None => forall e: nat :: i <= e < |units| ==> GroupFrom(m, now, units, e).None?
            case Some(g) =>
              exists e: nat :: i <= e < |units| && GroupFrom(m, now, units, e) == Some(g)
                               && forall d: nat :: i <= d < e ==> GroupFrom(m, now, units, d).None?
    decreases |units| - i
  {
    if i < |units| && GroupFrom(m, now, units, i).None? {
      FirstSeed(m, now, units, i + 1);
    }
  }

  /**
   * The loops of the matcher compute that selection: the group of the oldest unit that completes a match with
   * exactly the units, parties included, that fit and are admitted, taken oldest first.
   */
  lemma SelectFromIsSelection(m: Matcher, now: Time, units: seq<Unit>)
    requires NonEmptyUnits(units)
    ensures IsSelection(m, now, units, SelectFrom(m, now, units, 0))
  {
    FirstSeed(m, now, units, 0);
    forall seed: nat, chosen | seed < |units| && GroupFrom(m, now, units, seed).None?
      ensures !Completes(m, now, units, seed, chosen)
    {
      NoGroupNoChoice(m, now, units, seed, chosen);
    }
    if SelectFrom(m, now, units, 0).Some? {
      var g := SelectFrom(m, now, units, 0).value;
      var e: nat :| e < |units| && GroupFrom(m, now, units, e) == Some(g)
                    && forall d: nat :: d < e ==> GroupFrom(m, now, units, d).None?;
      var chosen := SeedFits(m, now, units, e);
      assert Completes(m, now, units, e, chosen);
    }
  }

  lemma NoGroupNoChoice(m: Matcher, now: Time, units: seq<Unit>, seed: nat, chosen: set<nat>)
    requires NonEmptyUnits(units) && seed < |units| && GroupFrom(m, now, units, seed).None?
    ensures !Completes(m, now, units, seed, chosen)
  {
    if units[seed].Size() <= m.playersPerMatch {
      var other := SeedFits(m, now, units, seed);
      if TakesWhatFits(m.playersPerMatch, units, seed, TierOf(m, now, units[seed]), chosen) {
        OneWayToFit(m.playersPerMatch, units, seed, TierOf(m, now, units[seed]), chosen, other);
      }
    }
  }

  /** There is only one such selection. */
  lemma SameSelection(m: Matcher, now: Time, units: seq<Unit>, a: Option<seq<Ticket>>, b: Option<seq<Ticket>>)
    requires NonEmptyUnits(units) && IsSelection(m, now, units, a) && IsSelection(m, now, units, b)
    ensures a == b
  {
    if a.Some? && b.Some? {
      var e: nat, c :| e < |units| && Completes(m, now, units, e, c)
                       && a.value == units[e].tickets + TicketsOf(units, c, |units|)
                       && forall d: nat, o :: d < e ==> !Completes(m, now, units, d, o);
      var f: nat, d :| f < |units| && Completes(m, now, units, f, d)
                       && b.value == units[f].tickets + TicketsOf(units, d, |units|)
                       && forall h: nat, o :: h < f ==> !Completes(m, now, units, h, o);
      assert e == f;
      OneWayToFit(m.playersPerMatch, units, e, TierOf(m, now, units[e]), c, d);
    }
  }
}
