/** What waiting does to a pool with parties: a wider window can undo a match, exactly when parties can be mixed. */
module Widening {
  import opened Base
  import opened Sorting
  import opened Tickets
  import opened Units
  import opened Matcher
  import opened Fairness

  /** Waiting never hurts, for this match size: a pool that forms a match forms one at every later time. */
  ghost predicate WaitingNeverHurts(k: int) {
    forall m: Matcher, now: Time, later: Time, pending: seq<Ticket>, units: seq<Unit> ::
      (&& m.playersPerMatch == k && m.policy.growthPerSec >= 0.0 && now <= later
       && Pool(pending) && IsUnitList(pending, units) && NonEmptyUnits(units)
       && SelectFrom(m, now, units, 0).Some?)
      ==> SelectFrom(m, later, units, 0).Some?
  }

  // ---- pools whose parties fill a match or do not fit ----

  /** No party leaves room for others: each unit is a solo, or at least a whole match. */
  ghost predicate NoMixedParty(k: int, pending: seq<Ticket>) {
    forall u :: IsUnit(pending, u) ==> |u.tickets| <= 1 || k <= |u.tickets|
  }

  lemma UnitInMatch(m: Matcher, now: Time, pending: seq<Ticket>, g: seq<Ticket>, u: Unit)
    requires Pool(pending) && IsMatch(m, now, pending, g) && IsUnit(pending, u)
    requires forall t :: t in u.tickets ==> t in g
    ensures |u.tickets| <= m.playersPerMatch
  {
    UnitTicketsDistinct(pending, u);
    ElementsOfNoDuplicates(u.tickets);
    ElementsOfNoDuplicates(g);
    InjectionBound(Elements(u.tickets), Elements(g), (t: Ticket) => t);
  }

  /** A whole-match party in the pool is selectable at any time. */
  lemma FullUnitSelects(m: Matcher, later: Time, pending: seq<Ticket>, units: seq<Unit>, u: Unit)
    requires Pool(pending) && IsUnitList(pending, units) && NonEmptyUnits(units)
    requires IsUnit(pending, u) && |u.tickets| == m.playersPerMatch
    ensures SelectFrom(m, later, units, 0).Some?
  {
    assert u in units;
    var i :| 0 <= i < |units| && units[i] == u;
    assert GroupFrom(m, later, units, i) == Some(u.tickets);
    SomeSeedSelects(m, later, units, 0, i);
  }

  lemma SolosFill(m: Matcher, now: Time, pending: seq<Ticket>, g: seq<Ticket>) returns (s: Unit)
    requires Pool(pending) && IsMatch(m, now, pending, g) && forall t :: t in g ==> !t.IsParty()
    requires m.playersPerMatch >= 1
    ensures SoloFillable(m, now, pending, s)
  {
    s :| IsUnit(pending, s) && (forall x :: x in s.tickets ==> x in g)
         && forall x :: x in g && x !in s.tickets ==> TierOf(m, now, s).Admits(x);
    UnitTickets(pending, s);
    assert s.tickets[0] in g;
    var t := s.tickets[0];
    assert s.tickets == [t];
    ElementsOfNoDuplicates(g);
    var from := Elements(g) - {t};
    assert |from| == |g| - 1;
    InjectionBound(from, AdmittedSolos(pending, s, TierOf(m, now, s)), (x: Ticket) => x);
  }

  lemma PartyFillsMatch(m: Matcher, now: Time, pending: seq<Ticket>, g: seq<Ticket>, i: nat) returns (u: Unit)
    requires Pool(pending) && IsMatch(m, now, pending, g) && i < |g| && g[i].IsParty()
    requires NoMixedParty(m.playersPerMatch, pending)
    ensures IsUnit(pending, u) && |u.tickets| == m.playersPerMatch
  {
    u :| IsUnit(pending, u) && g[i] in u.tickets && forall t :: t in u.tickets ==> t in g;
    UnitInMatch(m, now, pending, g, u);
    PartyUnitSize(pending, u, g[i]);
  }

  lemma PartyUnitSize(pending: seq<Ticket>, u: Unit, t: Ticket)
    requires IsUnit(pending, u) && t in u.tickets && t.IsParty()
    ensures |u.tickets| >= 2
  {
    var i :| 0 <= i < |u.tickets| && u.tickets[i] == t;
  }

  /** Without parties that leave room for others, a pool that forms a match forms one at every later time. */
  lemma UnmixedPoolMonotone(m: Matcher, now: Time, later: Time, pending: seq<Ticket>, units: seq<Unit>)
    requires Pool(pending) && IsUnitList(pending, units) && NonEmptyUnits(units)
    requires NoMixedParty(m.playersPerMatch, pending)
    requires now <= later && m.policy.growthPerSec >= 0.0
    requires SelectFrom(m, now, units, 0).Some?
    ensures SelectFrom(m, later, units, 0).Some?
  {
    SelectedIsMatch(m, now, pending, units);
    var g := SelectFrom(m, now, units, 0).value;
    MatchIsNotEmpty(m, now, pending, g);
    if i :| 0 <= i < |g| && g[i].IsParty() {
      var u := PartyFillsMatch(m, now, pending, g, i);
      FullUnitSelects(m, later, pending, units, u);
    } else {
      var s := SolosFill(m, now, pending, g);
      SelectableLater(m, now, later, pending, units, s);
    }
  }

  lemma MatchIsNotEmpty(m: Matcher, now: Time, pending: seq<Ticket>, g: seq<Ticket>)
    requires IsMatch(m, now, pending, g)
    ensures m.playersPerMatch >= 1
  {
    var s :| IsUnit(pending, s) && (forall t :: t in s.tickets ==> t in g)
             && forall t :: t in g && t !in s.tickets ==> TierOf(m, now, s).Admits(t);
    assert s.tickets[0] in g;
  }

  // ---- a party one short of a match ----

  const FIRST: nat := 3

  /** A solo, a second solo on its far side, and a party that needs exactly one more. */
  const A := Ticket(1, 1, "mode", Some(1000.0), None, [], 10 * SECOND)
  const X := Ticket(2, 2, "mode", Some(360.0), None, [], 11 * SECOND)

  function Roster(n: nat): seq<UUID> { seq(n, i requires 0 <= i < n => i + FIRST) }

  function Party(n: nat): seq<Ticket> {
    seq(n, i requires 0 <= i < n => Ticket(i + FIRST, i + FIRST, "mode", Some(1500.0), None, Roster(n), 20 * SECOND))
  }

  function Crowd(n: nat): seq<Ticket> { [A, X] + Party(n) }

  const UNIT_A := Unit([A], 10 * SECOND)
  const UNIT_X := Unit([X], 11 * SECOND)

  function PartyUnit(n: nat): Unit { Unit(Party(n), 20 * SECOND) }

  function CrowdUnits(n: nat): seq<Unit> { [UNIT_A, UNIT_X, PartyUnit(n)] }

  function OneMoreThan(n: nat): Matcher { Matcher(Policy(100.0, 50.0, 15 * SECOND), n + 1) }

  lemma CrowdIsPool(n: nat)
    requires n >= 2
    ensures Pool(Crowd(n))
  {
    var c := Crowd(n);
    forall i | 2 <= i < |c| ensures c[i].id == i + 1 && c[i].enqueuedAt != 0 && Canonical(c[i]) {
      assert c[i] == Party(n)[i - 2];
      assert Roster(n)[i - 2] == c[i].playerId;
    }
    assert c[0] == A && c[1] == X;
  }

  lemma MemberIsKept(n: nat, m: nat)
    requires 2 <= n && m < n
    ensures Kept(Crowd(n), n + 2, Roster(n), Roster(n)[m], Party(n)[m])
  {
    var c := Crowd(n);
    CrowdIsPool(n);
    assert c[m + 2] == Party(n)[m];
    CanonicalKey(c[m + 2]);
    forall b | 0 <= b < n + 2 && InParty(c[b], Roster(n), Roster(n)[m]) ensures b == m + 2 {
      assert b >= 2 && c[b] == Party(n)[b - 2];
    }
    assert KeptAt(c, n + 2, Roster(n), Roster(n)[m], m + 2);
  }

  lemma CrowdsUnits(n: nat)
    requires n >= 2
    ensures IsUnit(Crowd(n), UNIT_A) && IsUnit(Crowd(n), UNIT_X) && IsUnit(Crowd(n), PartyUnit(n))
  {
    var c := Crowd(n);
    assert c[..n + 2] == c && c[0] == A && c[1] == X;
    forall m | 0 <= m < n ensures Kept(c, |c|, Roster(n), Roster(n)[m], Party(n)[m]) {
      MemberIsKept(n, m);
    }
    assert Party(n)[0].enqueuedAt == 20 * SECOND && Party(n)[0].partyMembers == Roster(n);
    assert IsCompleteParty(c, Roster(n), PartyUnit(n));
  }

  lemma UnitOf(pending: seq<Ticket>, u: Unit, v: Unit)
    requires Pool(pending) && IsUnit(pending, u) && IsUnit(pending, v) && u.tickets[0] in v.tickets
    ensures u == v
  {
    var j :| 0 <= j < |v.tickets| && v.tickets[j] == u.tickets[0];
    UnitsDisjoint(pending, u, v, 0, j);
  }

  lemma CrowdIsCovered(n: nat, t: Ticket)
    requires t in Crowd(n)
    ensures t in UNIT_A.tickets || t in UNIT_X.tickets || t in PartyUnit(n).tickets
  {}

  lemma CrowdHasNoOtherUnit(n: nat, u: Unit)
    requires n >= 2 && IsUnit(Crowd(n), u)
    ensures u == UNIT_A || u == UNIT_X || u == PartyUnit(n)
  {
    var c, a, x, p := Crowd(n), UNIT_A, UNIT_X, PartyUnit(n);
    CrowdIsPool(n);
    CrowdsUnits(n);
    UnitTickets(c, u);
    CrowdIsCovered(n, u.tickets[0]);
    if u.tickets[0] in a.tickets {
      UnitOf(c, u, a);
    } else if u.tickets[0] in x.tickets {
      UnitOf(c, u, x);
    } else {
      UnitOf(c, u, p);
    }
  }

  /** The crowd collapses into the two solos and the party, in that order. */
  lemma CrowdUnitList(n: nat)
    requires n >= 2
    ensures IsUnitList(Crowd(n), CrowdUnits(n)) && NonEmptyUnits(CrowdUnits(n))
  {
    CrowdsUnits(n);
    forall u ensures u in CrowdUnits(n) <==> IsUnit(Crowd(n), u) {
      if IsUnit(Crowd(n), u) {
        CrowdHasNoOtherUnit(n, u);
      }
    }
  }

  lemma CrowdTiers(n: nat, now: Time)
    requires n >= 2
    ensures TierOf(OneMoreThan(n), now, UNIT_A) == TierAt(OneMoreThan(n).policy, now, A)
    ensures TierOf(OneMoreThan(n), now, UNIT_X) == TierAt(OneMoreThan(n).policy, now, X)
    ensures exists p :: p in Party(n)
                        && TierOf(OneMoreThan(n), now, PartyUnit(n)) == TierAt(OneMoreThan(n).policy, now, p)
  {
    AnchorIsOldest(Party(n));
  }

  /** At 20s the first solo's window is 600: the other solo is 640 away, the party 500, and together they match. */
  lemma MatchedAt20(n: nat)
    requires n >= 2
    ensures GroupFrom(OneMoreThan(n), 20 * SECOND, CrowdUnits(n), 0).Some?
  {
    CrowdTiers(n, 20 * SECOND);
    var tier := TierOf(OneMoreThan(n), 20 * SECOND, UNIT_A);
    var u := CrowdUnits(n);
    assert tier.window == 600.0 && !tier.Admits(UNIT_X.tickets[0]) && tier.AdmitsUnit(PartyUnit(n));
    calc {
      Fill(n + 1, u, 0, tier, 0, [A]);
      Fill(n + 1, u, 0, tier, 1, [A]);
      Fill(n + 1, u, 0, tier, 2, [A]);
      Fill(n + 1, u, 0, tier, 3, [A] + Party(n));
      [A] + Party(n);
    }
  }

  /** At 21s it is 650: the other solo gets in first, and the party no longer fits. Nobody else reaches anyone. */
  lemma UnmatchedAt21(n: nat)
    requires n >= 2
    ensures GroupFrom(OneMoreThan(n), 21 * SECOND, CrowdUnits(n), 0).None?
  {
    CrowdTiers(n, 21 * SECOND);
    var tier := TierOf(OneMoreThan(n), 21 * SECOND, UNIT_A);
    var u := CrowdUnits(n);
    assert tier.window == 650.0 && tier.AdmitsUnit(UNIT_X);
    calc {
      Fill(n + 1, u, 0, tier, 0, [A]);
      Fill(n + 1, u, 0, tier, 1, [A]);
      Fill(n + 1, u, 0, tier, 2, [A] + [X]);
      Fill(n + 1, u, 0, tier, 3, [A] + [X]);
      [A] + [X];
    }
  }

  lemma LonelyAt21(n: nat, i: nat)
    requires n >= 2 && (i == 1 || i == 2)
    ensures GroupFrom(OneMoreThan(n), 21 * SECOND, CrowdUnits(n), i).None?
  {
    CrowdTiers(n, 21 * SECOND);
    var u := CrowdUnits(n);
    var tier := TierOf(OneMoreThan(n), 21 * SECOND, u[i]);
    assert tier.window <= 600.0 && !tier.Admits(UNIT_A.tickets[0]) && (i == 2 ==> !tier.Admits(UNIT_X.tickets[0]));
    assert i == 1 ==> !tier.Admits(PartyUnit(n).tickets[0]);
    calc {
      Fill(n + 1, u, i, tier, 0, u[i].tickets);
      Fill(n + 1, u, i, tier, 1, u[i].tickets);
      Fill(n + 1, u, i, tier, 2, u[i].tickets);
      Fill(n + 1, u, i, tier, 3, u[i].tickets);
      u[i].tickets;
    }
  }

  /** For every match size of three or more: one pool, the default policy, a group at 20s and none at 21s. */
  lemma WaitingLosesAMatch(n: nat)
    requires n >= 2
    ensures Pool(Crowd(n)) && IsUnitList(Crowd(n), CrowdUnits(n)) && NonEmptyUnits(CrowdUnits(n))
    ensures SelectFrom(OneMoreThan(n), 20 * SECOND, CrowdUnits(n), 0).Some?
    ensures SelectFrom(OneMoreThan(n), 21 * SECOND, CrowdUnits(n), 0).None?
  {
    CrowdIsPool(n);
    CrowdUnitList(n);
    MatchedAt20(n);
    UnmatchedAt21(n);
    LonelyAt21(n, 1);
    LonelyAt21(n, 2);
    assert SelectFrom(OneMoreThan(n), 21 * SECOND, CrowdUnits(n), 3).None?;
    assert SelectFrom(OneMoreThan(n), 21 * SECOND, CrowdUnits(n), 2).None?;
    assert SelectFrom(OneMoreThan(n), 21 * SECOND, CrowdUnits(n), 1).None?;
  }

  /** Waiting is harmless for matches of at most two players, and for no larger size. */
  lemma WaitingNeverHurtsIff(k: int)
    ensures WaitingNeverHurts(k) <==> k <= 2
  {
    if k <= 2 {
      forall m: Matcher, now: Time, later: Time, pending: seq<Ticket>, units: seq<Unit> |
        && m.playersPerMatch == k && m.policy.growthPerSec >= 0.0 && now <= later
        && Pool(pending) && IsUnitList(pending, units) && NonEmptyUnits(units)
        && SelectFrom(m, now, units, 0).Some?
        ensures SelectFrom(m, later, units, 0).Some?
      {
        UnmixedPoolMonotone(m, now, later, pending, units);
      }
    } else {
      WaitingLosesAMatch(k - 1);
      assert OneMoreThan(k - 1).playersPerMatch == k;
    }
  }
}
