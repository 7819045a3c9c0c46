/** A match has distinct tickets by construction; whether it has distinct players depends on the pool. */
module Players {
  import opened Base
  import opened Tickets
  import opened Units
  import opened Matcher

  ghost predicate DistinctPlayers(g: seq<Ticket>) {
    forall i, j :: 0 <= i < j < |g| ==> g[i].playerId != g[j].playerId
  }

  /** No player waits in both units. */
  ghost predicate Strangers(u: Unit, v: Unit) {
    forall s, t :: s in u.tickets && t in v.tickets ==> s.playerId != t.playerId
  }

  /** No player waits in two units: alone twice, alone and in a party, or in two parties. */
  ghost predicate WaitsOnce(units: seq<Unit>) {
    forall i, j :: 0 <= i < j < |units| ==> Strangers(units[i], units[j])
  }

  ghost predicate AlwaysDistinctPlayers(units: seq<Unit>)
    requires NonEmptyUnits(units)
  {
    forall m: Matcher, now: Time :: SelectFrom(m, now, units, 0).Some? ==>
                                      DistinctPlayers(SelectFrom(m, now, units, 0).value)
  }

  // ---- a pool where everyone waits once ----

  lemma UnitPlayersDistinct(pending: seq<Ticket>, u: Unit)
    requires Pool(pending) && IsUnit(pending, u)
    ensures DistinctPlayers(u.tickets)
  {
    UnitTickets(pending, u);
    forall i, j | 0 <= i < j < |u.tickets| ensures u.tickets[i].playerId != u.tickets[j].playerId {
      assert u.tickets[0] in pending && Canonical(u.tickets[0]);
      assert IdBefore(u.tickets[0].partyMembers[i], u.tickets[0].partyMembers[j]);
    }
  }

  lemma JoinStrangers(a: seq<Ticket>, b: seq<Ticket>)
    requires DistinctPlayers(a) && DistinctPlayers(b)
    requires forall s, t :: s in a && t in b ==> s.playerId != t.playerId
    ensures DistinctPlayers(a + b)
  {
    var g := a + b;
    forall i, j | 0 <= i < j < |g| ensures g[i].playerId != g[j].playerId {
      if i < |a| <= j {
        assert a[i] in a && b[j - |a|] in b;
      }
    }
  }

  lemma {:induction false} ConcatStrangers(pending: seq<Ticket>, units: seq<Unit>, js: seq<nat>)
    requires Pool(pending) && IsUnitList(pending, units) && WaitsOnce(units)
    requires forall i :: 0 <= i < |js| ==> js[i] < |units|
    requires forall i, j :: 0 <= i < j < |js| ==> js[i] != js[j]
    ensures DistinctPlayers(Concat(units, js))
  {
    if js != [] {
      var init, last := js[..|js| - 1], js[|js| - 1];
      ConcatStrangers(pending, units, init);
      ConcatMembers(units, init);
      assert units[last] in units;
      UnitPlayersDistinct(pending, units[last]);
      var a, b := Concat(units, init), units[last].tickets;
      forall s, t | s in a && t in b ensures s.playerId != t.playerId {
        var p :| 0 <= p < |init| && s in units[init[p]].tickets;
        assert Strangers(units[init[p]], units[last]) || Strangers(units[last], units[init[p]]);
      }
      JoinStrangers(a, b);
    }
  }

  lemma WaitingOnceSuffices(m: Matcher, now: Time, pending: seq<Ticket>, units: seq<Unit>)
    requires Pool(pending) && IsUnitList(pending, units) && NonEmptyUnits(units) && WaitsOnce(units)
    requires SelectFrom(m, now, units, 0).Some?
    ensures DistinctPlayers(SelectFrom(m, now, units, 0).value)
  {
    var seed := SelectedSeed(m, now, units, 0);
    assert Concat(units, [seed]) == units[seed].tickets by {
      assert [seed][..0] == [];
    }
    var tier := TierOf(m, now, units[seed]);
    var js := FillChoosesUnits(m.playersPerMatch, units, seed, tier, 0, units[seed].tickets, [seed]);
    ConcatStrangers(pending, units, js);
  }

  // ---- a match as large as the pool ----

  ghost function Remaining(units: seq<Unit>, j: nat): nat
    requires j <= |units|
    decreases |units| - j
  {
    if j == |units| then 0 else units[j].Size() + Remaining(units, j + 1)
  }

  /** With room for everyone, a tier that admits everyone takes everyone. */
  lemma {:induction false} FillTakesAll(k: int, units: seq<Unit>, tier: Tier, j: nat, group: seq<Ticket>)
    requires 1 <= j <= |units| && NonEmptyUnits(units) && |group| + Remaining(units, j) == k
    requires forall i :: 0 <= i < |units| ==> tier.AdmitsUnit(units[i])
    ensures var g := Fill(k, units, 0, tier, j, group);
            |g| == k && group <= g && forall i :: j <= i < |units| ==> forall t :: t in units[i].tickets ==> t in g
    decreases |units| - j
  {
    if j < |units| {
      var group' := group + units[j].tickets;
      FillTakesAll(k, units, tier, j + 1, group');
      assert Fill(k, units, 0, tier, j, group) == Fill(k, units, 0, tier, j + 1, group');
      forall t | t in units[j].tickets ensures t in group' {}
    }
  }

  lemma {:induction false} RatingsAreBounded(tickets: seq<Ticket>, from: real) returns (w: real)
    ensures w > 0.0
    ensures forall t :: t in tickets && t.rating.Some? ==> Abs(from - t.rating.value) <= w
  {
    if tickets == [] {
      w := 1.0;
    } else {
      var last := tickets[|tickets| - 1];
      w := RatingsAreBounded(tickets[..|tickets| - 1], from);
      var gap := if last.rating.Some? then Abs(from - last.rating.value) else 0.0;
      w := if gap > w then gap else w;
      assert tickets == tickets[..|tickets| - 1] + [last];
    }
  }

  /** A legal policy under which the first unit admits the whole pool after a nanosecond. */
  lemma GenerousPolicy(pending: seq<Ticket>, a: Ticket) returns (policy: Policy)
    ensures policy == policy.WithDefaults()
    ensures forall t :: t in pending ==> TierAt(policy, a.enqueuedAt + 1, a).Admits(t)
  {
    var from := if a.rating.Some? then a.rating.value else 0.0;
    var w := RatingsAreBounded(pending, from);
    policy := Policy(w, 1.0, 1);
    assert TierAt(policy, a.enqueuedAt + 1, a).window >= w;
  }

  /** Some matcher puts the whole pool of units into one match. */
  lemma EveryoneTogether(pending: seq<Ticket>, units: seq<Unit>) returns (m: Matcher, now: Time)
    requires Pool(pending) && IsUnitList(pending, units) && NonEmptyUnits(units) && units != []
    ensures m == NewMatcher(m.playersPerMatch, m.policy)
    ensures SelectFrom(m, now, units, 0).Some?
    ensures forall i :: 0 <= i < |units| ==>
                          forall t :: t in units[i].tickets ==> t in SelectFrom(m, now, units, 0).value
  {
    var a := Anchor(units[0].tickets);
    var policy := GenerousPolicy(pending, a);
    now := a.enqueuedAt + 1;
    m := Matcher(policy, Remaining(units, 0));
    var tier := TierOf(m, now, units[0]);
    forall i | 0 <= i < |units| ensures tier.AdmitsUnit(units[i]) {
      assert units[i] in units;
      UnitTickets(pending, units[i]);
    }
    FillTakesAll(m.playersPerMatch, units, tier, 1, units[0].tickets);
    assert Fill(m.playersPerMatch, units, 0, tier, 0, units[0].tickets)
        == Fill(m.playersPerMatch, units, 0, tier, 1, units[0].tickets);
  }

  lemma TwoTicketsOnePlayer(g: seq<Ticket>, s: Ticket, t: Ticket)
    requires s in g && t in g && s.id != t.id && s.playerId == t.playerId
    ensures !DistinctPlayers(g)
  {
    var i :| 0 <= i < |g| && g[i] == s;
    var j :| 0 <= j < |g| && g[j] == t;
    assert i < j || j < i;
  }

  /**
   * The matcher never seats one player twice, under any policy and at any time, exactly when no player waits in
   * two units. Nothing in the matcher itself removes a second ticket.
   */
  lemma DistinctPlayersIff(pending: seq<Ticket>, units: seq<Unit>)
    requires Pool(pending) && IsUnitList(pending, units) && NonEmptyUnits(units)
    ensures AlwaysDistinctPlayers(units) <==> WaitsOnce(units)
  {
    if WaitsOnce(units) {
      forall m: Matcher, now: Time | SelectFrom(m, now, units, 0).Some?
        ensures DistinctPlayers(SelectFrom(m, now, units, 0).value)
      {
        WaitingOnceSuffices(m, now, pending, units);
      }
    } else {
      var i, j :| 0 <= i < j < |units| && !Strangers(units[i], units[j]);
      var s, t :| s in units[i].tickets && t in units[j].tickets && s.playerId == t.playerId;
      var p :| 0 <= p < |units[i].tickets| && units[i].tickets[p] == s;
      var q :| 0 <= q < |units[j].tickets| && units[j].tickets[q] == t;
      UnitsApart(pending, units, i, j, p, q);
      var m, now := EveryoneTogether(pending, units);
      TwoTicketsOnePlayer(SelectFrom(m, now, units, 0).value, s, t);
    }
  }
}
