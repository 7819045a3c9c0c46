/** When the greedy selection succeeds: no starvation, completeness for solo pools, and time. */
module Fairness {
  import opened Base
  import opened Sorting
  import opened Tickets
  import opened Units
  import opened Matcher

  /** The solo tickets outside the seed that its tier admits. */
  ghost function AdmittedSolos(pending: seq<Ticket>, seed: Unit, tier: Tier): set<Ticket> {
    set t | t in pending && !t.IsParty() && t !in seed.tickets && tier.Admits(t)
  }

  ghost predicate IsSoloUnit(units: seq<Unit>, seed: nat, tier: Tier, j: nat)
    requires j < |units|
  {
    j != seed && units[j].Size() == 1 && tier.AdmitsUnit(units[j])
  }

  /** The units at or after j that are admitted solos other than the seed. */
  ghost function SoloUnits(units: seq<Unit>, seed: nat, tier: Tier, j: nat): set<Unit>
    requires j <= |units|
    decreases |units| - j
  {
    if j == |units| then {}
    else SoloUnits(units, seed, tier, j + 1) + if IsSoloUnit(units, seed, tier, j) then {units[j]} else {}
  }

  lemma {:induction false} SoloUnitsHas(units: seq<Unit>, seed: nat, tier: Tier, j: nat, i: nat)
    requires j <= i < |units| && IsSoloUnit(units, seed, tier, i)
    ensures units[i] in SoloUnits(units, seed, tier, j)
    decreases i - j
  {
    if j < i {
      SoloUnitsHas(units, seed, tier, j + 1, i);
    }
  }

  /** A solo is never passed over while there is room, so Fill stops short only when it has taken them all. */
  lemma {:induction false} FillTakesSolos(k: int, units: seq<Unit>, seed: nat, tier: Tier, j: nat, group: seq<Ticket>)
    requires j <= |units| && |group| <= k
    ensures |Fill(k, units, seed, tier, j, group)| <= k
    ensures |Fill(k, units, seed, tier, j, group)| == k
            || |Fill(k, units, seed, tier, j, group)| >= |group| + |SoloUnits(units, seed, tier, j)|
    decreases |units| - j
  {
    if j < |units| && |group| != k {
      if j == seed || |group| + units[j].Size() > k || !tier.AdmitsUnit(units[j]) {
        FillTakesSolos(k, units, seed, tier, j + 1, group);
      } else {
        FillTakesSolos(k, units, seed, tier, j + 1, group + units[j].tickets);
      }
    }
  }

  lemma {:induction false} InjectionBound<S, T>(from: set<S>, to: set<T>, f: S -> T)
    requires forall x :: x in from ==> f(x) in to
    requires forall x, y :: x in from && y in from && x != y ==> f(x) != f(y)
    ensures |from| <= |to|
  {
    if from != {} {
      var x :| x in from;
      InjectionBound(from - {x}, to - {f(x)}, f);
    }
  }

  /** The pending solos and the solo units are the same tickets. */
  lemma SolosAreUnits(pending: seq<Ticket>, units: seq<Unit>, seed: nat, tier: Tier)
    requires Pool(pending) && IsUnitList(pending, units) && seed < |units|
    ensures |AdmittedSolos(pending, units[seed], tier)| <= |SoloUnits(units, seed, tier, 0)|
  {
    var from, to := AdmittedSolos(pending, units[seed], tier), SoloUnits(units, seed, tier, 0);
    var f := (t: Ticket) => Unit([t], t.enqueuedAt);
    forall t | t in from ensures f(t) in to {
      assert pending[..|pending|] == pending;
      assert IsUnit(pending, f(t));
      assert f(t) in units;
      var i :| 0 <= i < |units| && units[i] == f(t);
      assert t in units[i].tickets;
      SoloUnitsHas(units, seed, tier, 0, i);
    }
    forall s, t | s in from && t in from && s != t ensures f(s) != f(t) {
      assert f(s).tickets[0] == s && f(t).tickets[0] == t;
    }
    InjectionBound(from, to, f);
  }

  /** A seed that fits, with enough admitted solos to fill the gap, always forms a group. */
  lemma SeedIsServed(m: Matcher, now: Time, pending: seq<Ticket>, units: seq<Unit>, seed: nat)
    requires Pool(pending) && IsUnitList(pending, units) && seed < |units| && NonEmptyUnits(units)
    requires units[seed].Size() <= m.playersPerMatch
    requires units[seed].Size() + |AdmittedSolos(pending, units[seed], TierOf(m, now, units[seed]))|
             >= m.playersPerMatch
    ensures GroupFrom(m, now, units, seed).Some?
  {
    var tier := TierOf(m, now, units[seed]);
    FillTakesSolos(m.playersPerMatch, units, seed, tier, 0, units[seed].tickets);
    SolosAreUnits(pending, units, seed, tier);
  }

  lemma {:induction false} FillKeepsGroup(k: int, units: seq<Unit>, seed: nat, tier: Tier, j: nat, group: seq<Ticket>)
    requires j <= |units|
    ensures group <= Fill(k, units, seed, tier, j, group)
    decreases |units| - j
  {
    if j < |units| && |group| != k {
      if j == seed || |group| + units[j].Size() > k || !tier.AdmitsUnit(units[j]) {
        FillKeepsGroup(k, units, seed, tier, j + 1, group);
      } else {
        FillKeepsGroup(k, units, seed, tier, j + 1, group + units[j].tickets);
      }
    }
  }

  lemma {:induction false} SomeSeedSelects(m: Matcher, now: Time, units: seq<Unit>, from: nat, i: nat)
    requires from <= i < |units| && NonEmptyUnits(units) && GroupFrom(m, now, units, i).Some?
    ensures SelectFrom(m, now, units, from).Some?
    decreases i - from
  {
    if from < i && GroupFrom(m, now, units, from).None? {
      SomeSeedSelects(m, now, units, from + 1, i);
    }
  }

  ghost predicate IsOldestUnit(pending: seq<Ticket>, u: Unit) {
    IsUnit(pending, u) && forall v :: IsUnit(pending, v) && v != u ==> UnitBefore(u, v)
  }

  lemma OldestIsFirst(pending: seq<Ticket>, units: seq<Unit>, u: Unit)
    requires Pool(pending) && IsUnitList(pending, units) && IsOldestUnit(pending, u)
    ensures units != [] && units[0] == u
  {
    assert u in units;
    var i :| 0 <= i < |units| && units[i] == u;
    assert IsUnit(pending, units[0]) by { assert units[0] in units; }
    assert i == 0 || UnitBefore(units[0], units[i]);
  }

  /** The anchor has waited out the region rule, and its window covers every pending rating. */
  ghost predicate WaitedOut(policy: Policy, now: Time, pending: seq<Ticket>, a: Ticket) {
    && now - a.enqueuedAt >= policy.regionRelaxAfter
    && forall t :: t in pending && a.rating.Some? && t.rating.Some? ==>
         Abs(a.rating.value - t.rating.value)
         <= policy.baseRatingWindow + policy.growthPerSec * ((now - a.enqueuedAt) as real / SECOND as real)
  }

  lemma WaitedOutAdmitsAll(policy: Policy, now: Time, pending: seq<Ticket>, a: Ticket, t: Ticket)
    requires WaitedOut(policy, now, pending, a) && t in pending
    ensures TierAt(policy, now, a).Admits(t)
  {}

  /**
   * No starvation: once the oldest unit has waited out the region rule and its window covers every pending
   * rating, enough other solo tickets to fill the match are enough to place it, whatever parties are pending.
   */
  lemma OldestUnitIsPlaced(m: Matcher, now: Time, pending: seq<Ticket>, units: seq<Unit>, u: Unit)
    requires Pool(pending) && IsUnitList(pending, units) && NonEmptyUnits(units) && IsOldestUnit(pending, u)
    requires u.tickets != [] && u.Size() <= m.playersPerMatch
    requires WaitedOut(m.policy, now, pending, Anchor(u.tickets))
    requires u.Size() + |set t | t in pending && !t.IsParty() && t !in u.tickets| >= m.playersPerMatch
    ensures SelectFrom(m, now, units, 0).Some?
    ensures forall t :: t in u.tickets ==> t in SelectFrom(m, now, units, 0).value
  {
    OldestIsFirst(pending, units, u);
    var tier := TierOf(m, now, u);
    forall t | t in pending ensures tier.Admits(t) {
      WaitedOutAdmitsAll(m.policy, now, pending, Anchor(u.tickets), t);
    }
    assert AdmittedSolos(pending, u, tier) == set t | t in pending && !t.IsParty() && t !in u.tickets;
    SeedIsServed(m, now, pending, units, 0);
    FillKeepsGroup(m.playersPerMatch, units, 0, tier, 0, u.tickets);
  }

  // ---- time ----

  /** Some unit could fill its match with admitted solos alone. */
  ghost predicate SoloFillable(m: Matcher, now: Time, pending: seq<Ticket>, u: Unit) {
    && IsUnit(pending, u) && u.Size() <= m.playersPerMatch
    && u.Size() + |AdmittedSolos(pending, u, TierOf(m, now, u))| >= m.playersPerMatch
  }

  lemma TierWidens(m: Matcher, now: Time, later: Time, u: Unit, t: Ticket)
    requires u.tickets != [] && now <= later && m.policy.growthPerSec >= 0.0
    requires TierOf(m, now, u).Admits(t)
    ensures TierOf(m, later, u).Admits(t)
  {
    var a := Anchor(u.tickets);
    var w, w' := (now - a.enqueuedAt) as real / SECOND as real, (later - a.enqueuedAt) as real / SECOND as real;
    assert w <= w';
    assert m.policy.growthPerSec * w <= m.policy.growthPerSec * w';
    CompatibilityLaws(a, t, TierOf(m, now, u).window, TierOf(m, later, u).window,
                      TierOf(m, now, u).ignoreRegion, TierOf(m, later, u).ignoreRegion);
  }

  /** A unit that solos can fill now keeps the pool selectable at every later time, whatever parties are pending. */
  lemma SelectableLater(m: Matcher, now: Time, later: Time, pending: seq<Ticket>, units: seq<Unit>, u: Unit)
    requires Pool(pending) && IsUnitList(pending, units) && NonEmptyUnits(units)
    requires now <= later && m.policy.growthPerSec >= 0.0 && SoloFillable(m, now, pending, u)
    ensures SoloFillable(m, later, pending, u)
    ensures SelectFrom(m, later, units, 0).Some?
  {
    var from, to := AdmittedSolos(pending, u, TierOf(m, now, u)), AdmittedSolos(pending, u, TierOf(m, later, u));
    forall t | t in from ensures t in to {
      TierWidens(m, now, later, u, t);
    }
    InjectionBound(from, to, (t: Ticket) => t);
    assert u in units;
    var i :| 0 <= i < |units| && units[i] == u;
    SeedIsServed(m, later, pending, units, i);
    SomeSeedSelects(m, later, units, 0, i);
  }

  // ---- pools of solo tickets ----

  ghost predicate AllSolo(pending: seq<Ticket>) {
    forall i :: 0 <= i < |pending| ==> !pending[i].IsParty()
  }

  /** The other tickets that a ticket's own window admits. */
  ghost function Partners(m: Matcher, now: Time, pending: seq<Ticket>, t: Ticket): set<Ticket> {
    set o | o in pending && o != t && TierAt(m.policy, now, t).Admits(o)
  }

  lemma PartnersAreSolos(m: Matcher, now: Time, pending: seq<Ticket>, t: Ticket)
    requires AllSolo(pending) && t in pending
    ensures var u := Unit([t], t.enqueuedAt);
            IsUnit(pending, u) && AdmittedSolos(pending, u, TierOf(m, now, u)) == Partners(m, now, pending, t)
  {
    var u := Unit([t], t.enqueuedAt);
    assert pending[..|pending|] == pending;
    assert Anchor(u.tickets) == t;
  }

  /** In a solo pool a group gives its seed at least k - 1 partners. */
  lemma MatchGivesPartners(m: Matcher, now: Time, pending: seq<Ticket>, g: seq<Ticket>) returns (t: Ticket)
    requires Pool(pending) && AllSolo(pending) && IsMatch(m, now, pending, g)
    ensures t in pending && |Partners(m, now, pending, t)| >= m.playersPerMatch - 1
  {
    var s :| IsUnit(pending, s) && (forall x :: x in s.tickets ==> x in g)
             && forall x :: x in g && x !in s.tickets ==> TierOf(m, now, s).Admits(x);
    UnitTickets(pending, s);
    t := s.tickets[0];
    assert s.tickets == [t] && Anchor(s.tickets) == t;
    ElementsOfNoDuplicates(g);
    var from := Elements(g) - {t};
    assert t in g && |from| == |g| - 1;
    InjectionBound(from, Partners(m, now, pending, t), (x: Ticket) => x);
  }

  /** In a solo pool the greedy selection is complete: it fails exactly when no ticket has k - 1 partners. */
  lemma SoloPoolComplete(m: Matcher, now: Time, pending: seq<Ticket>, units: seq<Unit>)
    requires Pool(pending) && AllSolo(pending) && IsUnitList(pending, units) && NonEmptyUnits(units)
    requires m.playersPerMatch >= 1
    ensures SelectFrom(m, now, units, 0).None? <==>
            forall t :: t in pending ==> |Partners(m, now, pending, t)| < m.playersPerMatch - 1
  {
    if SelectFrom(m, now, units, 0).Some? {
      SelectedIsMatch(m, now, pending, units);
      var t := MatchGivesPartners(m, now, pending, SelectFrom(m, now, units, 0).value);
    }
    if t :| t in pending && |Partners(m, now, pending, t)| >= m.playersPerMatch - 1 {
      var u := Unit([t], t.enqueuedAt);
      PartnersAreSolos(m, now, pending, t);
      assert u in units;
      var i :| 0 <= i < |units| && units[i] == u;
      SeedIsServed(m, now, pending, units, i);
      SomeSeedSelects(m, now, units, 0, i);
    }
  }

  /** A solo pool that can form a match can form one at every later time. */
  lemma SoloPoolMonotone(m: Matcher, now: Time, later: Time, pending: seq<Ticket>, units: seq<Unit>)
    requires Pool(pending) && AllSolo(pending) && IsUnitList(pending, units) && NonEmptyUnits(units)
    requires m.playersPerMatch >= 1 && now <= later && m.policy.growthPerSec >= 0.0
    requires SelectFrom(m, now, units, 0).Some?
    ensures SelectFrom(m, later, units, 0).Some?
  {
    SelectedIsMatch(m, now, pending, units);
    var t := MatchGivesPartners(m, now, pending, SelectFrom(m, now, units, 0).value);
    PartnersAreSolos(m, now, pending, t);
    SelectableLater(m, now, later, pending, units, Unit([t], t.enqueuedAt));
  }
}
