/** The greedy tiered selection of a group from the pending pool. */
module Matcher {
  import opened Base
  import opened Tickets
  import opened Units

  datatype Policy = Policy(baseRatingWindow: real, growthPerSec: real, regionRelaxAfter: Time) {
    function WithDefaults(): Policy {
      Policy(if baseRatingWindow == 0.0 then 100.0 else baseRatingWindow,
             if growthPerSec == 0.0 then 50.0 else growthPerSec,
             if regionRelaxAfter == 0 then 15 * SECOND else regionRelaxAfter)
    }
  }

  const SECOND: int := 1_000_000_000

  datatype Matcher = Matcher(policy: Policy, playersPerMatch: int)

  function NewMatcher(playersPerMatch: int, policy: Policy): (m: Matcher)
    ensures m.playersPerMatch >= 1
    ensures m.policy.growthPerSec != 0.0 && m.policy.baseRatingWindow != 0.0 && m.policy.regionRelaxAfter != 0
    ensures m.policy.baseRatingWindow == policy.baseRatingWindow
            || (policy.baseRatingWindow == 0.0 && m.policy.baseRatingWindow == 100.0)
    ensures m.policy.growthPerSec == policy.growthPerSec
            || (policy.growthPerSec == 0.0 && m.policy.growthPerSec == 50.0)
    ensures m.policy.regionRelaxAfter == policy.regionRelaxAfter
            || (policy.regionRelaxAfter == 0 && m.policy.regionRelaxAfter == 15 * SECOND)
    ensures m.playersPerMatch == playersPerMatch || (playersPerMatch < 1 && m.playersPerMatch == 2)
  {
    Matcher(policy.WithDefaults(), if playersPerMatch < 1 then 2 else playersPerMatch)
  }

  /** What a seed admits: its anchor, and the window and region rule its wait has earned. */
  datatype Tier = Tier(anchor: Ticket, window: real, ignoreRegion: bool) {
    predicate Admits(t: Ticket) { anchor.CompatibleWith(t, window, ignoreRegion) }
    ghost predicate AdmitsUnit(u: Unit) { forall i :: 0 <= i < |u.tickets| ==> Admits(u.tickets[i]) }
  }

  /** The unit's longest-waiting ticket, the earliest listed among equals. */
  function Anchor(tickets: seq<Ticket>): Ticket
    requires tickets != []
  {
    if |tickets| == 1 then tickets[0]
    else
      var last := |tickets| - 1;
      var a := Anchor(tickets[..last]);
      if tickets[last].enqueuedAt < a.enqueuedAt then tickets[last] else a
  }

  function TierAt(policy: Policy, now: Time, anchor: Ticket): Tier {
    var waited := now - anchor.enqueuedAt;
    Tier(anchor,
         policy.baseRatingWindow + policy.growthPerSec * (waited as real / SECOND as real),
         waited >= policy.regionRelaxAfter)
  }

  ghost function TierOf(m: Matcher, now: Time, seed: Unit): Tier
    requires seed.tickets != []
  {
    TierAt(m.policy, now, Anchor(seed.tickets))
  }

  /** Units j and later offered in order: one that overflows or is not admitted is passed over. */
  ghost function Fill(k: int, units: seq<Unit>, seed: nat, tier: Tier, j: nat, group: seq<Ticket>): seq<Ticket>
    requires j <= |units|
    decreases |units| - j
  {
    if j == |units| || |group| == k then group
    else if j == seed || |group| + units[j].Size() > k || !tier.AdmitsUnit(units[j]) then
      Fill(k, units, seed, tier, j + 1, group)
    else Fill(k, units, seed, tier, j + 1, group + units[j].tickets)
  }

  ghost function GroupFrom(m: Matcher, now: Time, units: seq<Unit>, seed: nat): Option<seq<Ticket>>
    requires seed < |units| && units[seed].tickets != []
  {
    if units[seed].Size() > m.playersPerMatch then None
    else
      var g := Fill(m.playersPerMatch, units, seed, TierOf(m, now, units[seed]), 0, units[seed].tickets);
      if |g| == m.playersPerMatch then Some(g) else None
  }

  ghost predicate NonEmptyUnits(units: seq<Unit>) {
    forall i :: 0 <= i < |units| ==> units[i].tickets != []
  }

  /** The first seed at or after i that fills a match. */
  ghost function SelectFrom(m: Matcher, now: Time, units: seq<Unit>, i: nat): Option<seq<Ticket>>
    requires i <= |units| && NonEmptyUnits(units)
    decreases |units| - i
  {
    if i == |units| then None
    else if GroupFrom(m, now, units, i).Some? then GroupFrom(m, now, units, i)
    else SelectFrom(m, now, units, i + 1)
  }

  lemma UnitListNonEmpty(pending: seq<Ticket>, units: seq<Unit>)
    requires IsUnitList(pending, units)
    ensures NonEmptyUnits(units)
  {
    forall i | 0 <= i < |units| ensures units[i].tickets != [] {
      assert units[i] in units;
    }
  }

  lemma {:induction false} AnchorIsOldest(tickets: seq<Ticket>)
    requires tickets != []
    ensures Anchor(tickets) in tickets
    ensures forall i :: 0 <= i < |tickets| ==> Anchor(tickets).enqueuedAt <= tickets[i].enqueuedAt
  {
    if |tickets| > 1 {
      var last := |tickets| - 1;
      AnchorIsOldest(tickets[..last]);
      assert tickets == tickets[..last] + [tickets[last]];
    }
  }

  // ---- the code ----

  method AnchorOf(u: Unit) returns (a: Ticket)
    requires u.tickets != []
    ensures a == Anchor(u.tickets)
  {
    a := u.tickets[0];
    assert u.tickets[..1] == [a];
    for i := 1 to |u.tickets|
      invariant a == Anchor(u.tickets[..i])
    {
      assert u.tickets[..i + 1][..i] == u.tickets[..i];
      if u.tickets[i].enqueuedAt < a.enqueuedAt {
        a := u.tickets[i];
      }
    }
    assert u.tickets[..|u.tickets|] == u.tickets;
  }

  method UnitCompatibleWith(u: Unit, tier: Tier) returns (ok: bool)
    ensures ok <==> tier.AdmitsUnit(u)
  {
    for i := 0 to |u.tickets|
      invariant forall j :: 0 <= j < i ==> tier.Admits(u.tickets[j])
    {
      if !tier.Admits(u.tickets[i]) {
        return false;
      }
    }
    return true;
  }

  method GroupFromSeed(m: Matcher, now: Time, units: seq<Unit>, seed: nat) returns (group: Option<seq<Ticket>>)
    requires seed < |units| && NonEmptyUnits(units)
    ensures group == GroupFrom(m, now, units, seed)
  {
    if units[seed].Size() > m.playersPerMatch {
      return None;
    }
    var anchor := AnchorOf(units[seed]);
    var tier := TierAt(m.policy, now, anchor);
    var g := units[seed].tickets;
    var j := 0;
    while j < |units|
      invariant j <= |units|
      invariant Fill(m.playersPerMatch, units, seed, tier, j, g)
             == Fill(m.playersPerMatch, units, seed, tier, 0, units[seed].tickets)
    {
      if j == seed {
        j := j + 1;
        continue;
      }
      if |g| == m.playersPerMatch {
        break;
      }
      var u := units[j];
      j := j + 1;
      if |g| + u.Size() > m.playersPerMatch {
        continue;
      }
      var ok := UnitCompatibleWith(u, tier);
      if !ok {
        continue;
      }
      g := g + u.tickets;
    }
    if |g| != m.playersPerMatch {
      return None;
    }
    return Some(g);
  }

  method SelectGroup(m: Matcher, now: Time, pending: seq<Ticket>) returns (group: Option<seq<Ticket>>)
    requires Pool(pending)
    ensures exists units :: IsUnitList(pending, units)
    ensures forall units :: IsUnitList(pending, units) ==>
                              NonEmptyUnits(units) && group == SelectFrom(m, now, units, 0)
    ensures group.Some? ==> IsMatch(m, now, pending, group.value)
  {
    var units := BuildUnits(pending);
    UnitListNonEmpty(pending, units);
    forall us | IsUnitList(pending, us) ensures us == units {
      UnitListUnique(pending, us, units);
    }
    for i := 0 to |units|
      invariant SelectFrom(m, now, units, i) == SelectFrom(m, now, units, 0)
    {
      var g := GroupFromSeed(m, now, units, i);
      if g.Some? {
        SelectedIsMatch(m, now, pending, units);
        return g;
      }
    }
    return None;
  }

  // ---- every returned group is a match ----

  /** The tickets of the listed units, one whole unit after another. */
  ghost function Concat(units: seq<Unit>, js: seq<nat>): seq<Ticket>
    requires forall i :: 0 <= i < |js| ==> js[i] < |units|
  {
    if js == [] then [] else Concat(units, js[..|js| - 1]) + units[js[|js| - 1]].tickets
  }

  /** Seed first, then distinct admitted units. */
  ghost predicate Choice(units: seq<Unit>, tier: Tier, seed: nat, js: seq<nat>) {
    && js != [] && js[0] == seed
    && (forall i :: 0 <= i < |js| ==> js[i] < |units|)
    && (forall i, j :: 0 <= i < j < |js| ==> js[i] != js[j])
    && (forall i :: 1 <= i < |js| ==> tier.AdmitsUnit(units[js[i]]))
  }

  lemma {:induction false} FillChoosesUnits(k: int, units: seq<Unit>, seed: nat, tier: Tier, j: nat,
                                            group: seq<Ticket>, js: seq<nat>) returns (r: seq<nat>)
    requires j <= |units| && Choice(units, tier, seed, js) && group == Concat(units, js)
    requires forall i :: 1 <= i < |js| ==> js[i] < j
    ensures Choice(units, tier, seed, r)
    ensures Fill(k, units, seed, tier, j, group) == Concat(units, r)
    decreases |units| - j
  {
    if j == |units| || |group| == k {
      r := js;
    } else if j == seed || |group| + units[j].Size() > k || !tier.AdmitsUnit(units[j]) {
      r := FillChoosesUnits(k, units, seed, tier, j + 1, group, js);
    } else {
      var js' := js + [j];
      assert js'[..|js|] == js;
      r := FillChoosesUnits(k, units, seed, tier, j + 1, group + units[j].tickets, js');
    }
  }

  /** The promise to the players of a returned group, in terms of the pending tickets alone. */
  ghost predicate IsMatch(m: Matcher, now: Time, pending: seq<Ticket>, g: seq<Ticket>) {
    && |g| == m.playersPerMatch
    && DistinctIds(g)
    && (forall i :: 0 <= i < |g| ==> g[i] in pending)
    && WholeUnits(pending, g)
    && SeedAdmits(m, now, pending, g)
  }

  ghost predicate DistinctIds(g: seq<Ticket>) {
    forall i, j :: 0 <= i < j < |g| ==> g[i].id != g[j].id
  }

  /** A ticket of a unit brings the whole unit. */
  ghost predicate WholeUnits(pending: seq<Ticket>, g: seq<Ticket>) {
    forall i :: 0 <= i < |g| ==>
                  exists u :: IsUnit(pending, u) && g[i] in u.tickets && forall t :: t in u.tickets ==> t in g
  }

  /** Some unit of the group is the seed, and its tier admits every other ticket. */
  ghost predicate SeedAdmits(m: Matcher, now: Time, pending: seq<Ticket>, g: seq<Ticket>) {
    exists s :: IsUnit(pending, s) && (forall t :: t in s.tickets ==> t in g)
                && forall t :: t in g && t !in s.tickets ==> TierOf(m, now, s).Admits(t)
  }

  lemma {:induction false} ConcatMembers(units: seq<Unit>, js: seq<nat>)
    requires forall i :: 0 <= i < |js| ==> js[i] < |units|
    ensures forall t :: t in Concat(units, js) <==> exists i :: 0 <= i < |js| && t in units[js[i]].tickets
  {
    if js != [] {
      ConcatMembers(units, js[..|js| - 1]);
    }
  }

  lemma {:induction false} ConcatDistinct(pending: seq<Ticket>, units: seq<Unit>, js: seq<nat>)
    requires Pool(pending) && IsUnitList(pending, units)
    requires forall i :: 0 <= i < |js| ==> js[i] < |units|
    requires forall i, j :: 0 <= i < j < |js| ==> js[i] != js[j]
    ensures DistinctIds(Concat(units, js))
  {
    if js != [] {
      var last := js[|js| - 1];
      var init := js[..|js| - 1];
      var a, b := Concat(units, init), units[last].tickets;
      ConcatDistinct(pending, units, init);
      ConcatMembers(units, init);
      assert units[last] in units;
      UnitTicketsDistinct(pending, units[last]);
      assert DistinctIds(a) && DistinctIds(b);
      forall i, j | 0 <= i < |a| && 0 <= j < |b| ensures a[i].id != b[j].id {
        assert a[i] in a;
        var p :| 0 <= p < |init| && a[i] in units[init[p]].tickets;
        var q :| 0 <= q < |units[init[p]].tickets| && units[init[p]].tickets[q] == a[i];
        UnitsApart(pending, units, init[p], last, q, j);
      }
      var g := Concat(units, js);
      assert g == a + b;
      forall i, j | 0 <= i < j < |g| ensures g[i].id != g[j].id {
        if j < |a| {
          assert a[i].id != a[j].id;
        } else if i < |a| {
          assert a[i].id != b[j - |a|].id;
        } else {
          assert b[i - |a|].id != b[j - |a|].id;
        }
      }
    }
  }

  lemma UnitsApart(pending: seq<Ticket>, units: seq<Unit>, i: nat, j: nat, p: nat, q: nat)
    requires Pool(pending) && IsUnitList(pending, units) && i < |units| && j < |units| && i != j
    requires p < |units[i].tickets| && q < |units[j].tickets|
    ensures units[i].tickets[p].id != units[j].tickets[q].id
  {
    assert units[i] in units && units[j] in units;
    assert units[i] != units[j] by {
      assert UnitBefore(units[i], units[j]) || UnitBefore(units[j], units[i]);
    }
    if units[i].tickets[p].id == units[j].tickets[q].id {
      UnitsDisjoint(pending, units[i], units[j], p, q);
    }
  }

  lemma {:induction false} GroupFromIsMatch(m: Matcher, now: Time, pending: seq<Ticket>, units: seq<Unit>, seed: nat)
    requires Pool(pending) && IsUnitList(pending, units) && NonEmptyUnits(units) && seed < |units|
    requires GroupFrom(m, now, units, seed).Some?
    ensures IsMatch(m, now, pending, GroupFrom(m, now, units, seed).value)
  {
    var g := GroupFrom(m, now, units, seed).value;
    var tier := TierOf(m, now, units[seed]);
    assert Concat(units, [seed]) == [] + units[seed].tickets == units[seed].tickets by {
      assert [seed][..0] == [];
    }
    var js := FillChoosesUnits(m.playersPerMatch, units, seed, tier, 0, units[seed].tickets, [seed]);
    ConcatDistinct(pending, units, js);
    ConcatMembers(units, js);
    forall i | 0 <= i < |g|
      ensures exists u :: IsUnit(pending, u) && g[i] in u.tickets && forall t :: t in u.tickets ==> t in g
      ensures g[i] in pending
    {
      assert g[i] in g;
      var p :| 0 <= p < |js| && g[i] in units[js[p]].tickets;
      assert units[js[p]] in units;
      UnitTickets(pending, units[js[p]]);
    }
    var s := units[seed];
    assert s in units;
    forall t | t in g && t !in s.tickets ensures tier.Admits(t) {
      var p :| 0 <= p < |js| && t in units[js[p]].tickets;
      assert tier.AdmitsUnit(units[js[p]]);
    }
    assert forall t :: t in s.tickets ==> t in units[js[0]].tickets;
  }

  /** Whatever SelectGroup returns is a match. */
  lemma {:induction false} SelectedIsMatch(m: Matcher, now: Time, pending: seq<Ticket>, units: seq<Unit>)
    requires Pool(pending) && IsUnitList(pending, units) && NonEmptyUnits(units)
    requires SelectFrom(m, now, units, 0).Some?
    ensures IsMatch(m, now, pending, SelectFrom(m, now, units, 0).value)
  {
    var i := SelectedSeed(m, now, units, 0);
    GroupFromIsMatch(m, now, pending, units, i);
  }

  lemma {:induction false} SelectedSeed(m: Matcher, now: Time, units: seq<Unit>, from: nat) returns (i: nat)
    requires from <= |units| && NonEmptyUnits(units) && SelectFrom(m, now, units, from).Some?
    ensures from <= i < |units| && SelectFrom(m, now, units, from) == GroupFrom(m, now, units, i)
    ensures GroupFrom(m, now, units, i).Some?
    decreases |units| - from
  {
    if GroupFrom(m, now, units, from).Some? {
      i := from;
    } else {
      i := SelectedSeed(m, now, units, from + 1);
    }
  }

  /** A unit with a party ticket holds a ticket of the same party for every roster member. */
  lemma UnitHoldsParty(pending: seq<Ticket>, u: Unit, a: nat, b: nat)
    requires Pool(pending) && IsUnit(pending, u) && a < |u.tickets| && u.tickets[a].IsParty()
    requires b < |u.tickets[a].partyMembers|
    ensures b < |u.tickets|
    ensures u.tickets[b].playerId == u.tickets[a].partyMembers[b]
    ensures u.tickets[b].partyMembers == u.tickets[a].partyMembers
  {
    UnitTickets(pending, u);
  }

  /** A match holds every roster member of every party it touches, each with the ticket of that party. */
  lemma MatchKeepsPartiesTogether(m: Matcher, now: Time, pending: seq<Ticket>, g: seq<Ticket>, i: nat, b: nat)
    requires Pool(pending) && IsMatch(m, now, pending, g)
    requires i < |g| && g[i].IsParty() && b < |g[i].partyMembers|
    ensures exists s :: s in g && s.playerId == g[i].partyMembers[b] && s.partyMembers == g[i].partyMembers
  {
    var u :| IsUnit(pending, u) && g[i] in u.tickets && forall s :: s in u.tickets ==> s in g;
    var a :| 0 <= a < |u.tickets| && u.tickets[a] == g[i];
    UnitHoldsParty(pending, u, a, b);
    assert u.tickets[b] in u.tickets;
  }

  /** What a ticket may differ in from the seed's anchor, once the anchor has waited that long. */
  ghost predicate MayMeet(policy: Policy, waited: Time, a: Ticket, t: Ticket) {
    && (waited < policy.regionRelaxAfter && a.region.Some? && t.region.Some? ==> a.region.value == t.region.value)
    && (a.rating.Some? && t.rating.Some? ==>
          var reach := policy.baseRatingWindow + policy.growthPerSec * (waited as real / SECOND as real);
          a.rating.value - reach <= t.rating.value <= a.rating.value + reach)
  }

  lemma AdmitsIffMayMeet(policy: Policy, now: Time, a: Ticket, t: Ticket)
    ensures TierAt(policy, now, a).Admits(t) <==> MayMeet(policy, now - a.enqueuedAt, a, t)
  {}

  /** Every match has an oldest ticket of some unit whose region and rating the whole rest of the match respects. */
  lemma MatchRespectsTier(m: Matcher, now: Time, pending: seq<Ticket>, g: seq<Ticket>) returns (s: Unit, a: Ticket)
    requires Pool(pending) && IsMatch(m, now, pending, g)
    ensures IsUnit(pending, s) && a in s.tickets && a in g
    ensures forall t :: t in s.tickets ==> t in g && a.enqueuedAt <= t.enqueuedAt
    ensures forall t :: t in g && t !in s.tickets ==> MayMeet(m.policy, now - a.enqueuedAt, a, t)
  {
    s :| IsUnit(pending, s) && (forall t :: t in s.tickets ==> t in g)
         && forall t :: t in g && t !in s.tickets ==> TierOf(m, now, s).Admits(t);
    a := Anchor(s.tickets);
    AnchorIsOldest(s.tickets);
    forall t | t in g && t !in s.tickets ensures MayMeet(m.policy, now - a.enqueuedAt, a, t) {
      AdmitsIffMayMeet(m.policy, now, a, t);
    }
  }
}
