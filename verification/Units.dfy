/** The indivisible units the pending pool collapses into. */
module Units {
  import opened Base
  import opened Sorting
  import opened Tickets

  /** A solo ticket, or a complete party with one ticket per member; seedAt is the oldest of its tickets. */
  datatype Unit = Unit(tickets: seq<Ticket>, seedAt: Time) {
    function Size(): nat { |tickets| }

    /** The id that breaks ties between units of the same age. */
    function FirstId(): UUID { if tickets == [] then 0 else tickets[0].id }
  }

  /** Oldest first, ties broken by the first ticket's id. */
  predicate UnitBefore(a: Unit, b: Unit) {
    a.seedAt < b.seedAt || (a.seedAt == b.seedAt && a.FirstId() < b.FirstId())
  }

  /** A pool as the queue hands it out: distinct ids, canonical rosters, and no zero enqueue time. */
  ghost predicate Pool(pending: seq<Ticket>) {
    && (forall i, j :: 0 <= i < j < |pending| ==> pending[i].id != pending[j].id)
    && (forall i :: 0 <= i < |pending| ==> pending[i].enqueuedAt != 0 && Canonical(pending[i]))
  }

  predicate InParty(t: Ticket, key: seq<UUID>, player: UUID) {
    t.IsParty() && t.PartyKey() == key && t.playerId == player
  }

  /** Position a holds the first of the oldest tickets among the first n that the player holds for the party. */
  ghost predicate KeptAt(pending: seq<Ticket>, n: nat, key: seq<UUID>, player: UUID, a: nat)
    requires n <= |pending|
  {
    && a < n
    && InParty(pending[a], key, player)
    && forall b :: 0 <= b < n && InParty(pending[b], key, player) ==>
                     pending[a].enqueuedAt < pending[b].enqueuedAt
                     || (pending[a].enqueuedAt == pending[b].enqueuedAt && a <= b)
  }

  ghost predicate Kept(pending: seq<Ticket>, n: nat, key: seq<UUID>, player: UUID, t: Ticket)
    requires n <= |pending|
  {
    exists a: nat :: KeptAt(pending, n, key, player, a) && pending[a] == t
  }

  ghost predicate Oldest(tickets: seq<Ticket>, at: Time) {
    && (exists i :: 0 <= i < |tickets| && tickets[i].enqueuedAt == at)
    && (forall i :: 0 <= i < |tickets| ==> at <= tickets[i].enqueuedAt)
  }

  ghost predicate IsSolo(pending: seq<Ticket>, n: nat, u: Unit)
    requires n <= |pending|
  {
    |u.tickets| == 1 && u.tickets[0] in pending[..n] && !u.tickets[0].IsParty() && u.seedAt == u.tickets[0].enqueuedAt
  }

  /** A complete party: for every roster member, the ticket kept for that member. */
  ghost predicate IsCompleteParty(pending: seq<Ticket>, key: seq<UUID>, u: Unit) {
    && |u.tickets| == |key| >= 2
    && (forall m :: 0 <= m < |key| ==> Kept(pending, |pending|, key, key[m], u.tickets[m]))
    && Oldest(u.tickets, u.seedAt)
  }

  ghost predicate IsUnit(pending: seq<Ticket>, u: Unit) {
    u.tickets != [] && (IsSolo(pending, |pending|, u) || IsCompleteParty(pending, u.tickets[0].partyMembers, u))
  }

  /** All the units of the pool, and only those, oldest first. */
  ghost predicate IsUnitList(pending: seq<Ticket>, units: seq<Unit>) {
    StrictlySorted(UnitBefore, units) && forall u :: u in units <==> IsUnit(pending, u)
  }

  // ---- what the units are made of ----

  lemma KeptUnique(pending: seq<Ticket>, n: nat, key: seq<UUID>, player: UUID, s: Ticket, t: Ticket)
    requires n <= |pending| && Kept(pending, n, key, player, s) && Kept(pending, n, key, player, t)
    ensures s == t
  {
    var a: nat :| KeptAt(pending, n, key, player, a) && pending[a] == s;
    var b: nat :| KeptAt(pending, n, key, player, b) && pending[b] == t;
    assert a <= b && b <= a;
  }

  lemma KeptIsPending(pending: seq<Ticket>, key: seq<UUID>, player: UUID, t: Ticket)
    requires Kept(pending, |pending|, key, player, t)
    ensures t in pending && InParty(t, key, player)
  {}

  lemma SameIdSameTicket(pending: seq<Ticket>, s: Ticket, t: Ticket)
    requires Pool(pending) && s in pending && t in pending
    ensures s.id == t.id ==> s == t
  {}

  /** Every ticket of a unit is pending; a party unit's tickets carry the party's roster, in roster order. */
  lemma UnitTickets(pending: seq<Ticket>, u: Unit)
    requires Pool(pending) && IsUnit(pending, u)
    ensures forall i :: 0 <= i < |u.tickets| ==> u.tickets[i] in pending
    ensures u.tickets[0].IsParty() ==> IsCompleteParty(pending, u.tickets[0].partyMembers, u)
    ensures !u.tickets[0].IsParty() ==> IsSolo(pending, |pending|, u)
    ensures forall i :: 0 <= i < |u.tickets| && u.tickets[0].IsParty() ==>
                          && u.tickets[i].partyMembers == u.tickets[0].partyMembers
                          && u.tickets[i].playerId == u.tickets[0].partyMembers[i]
  {
    if IsCompleteParty(pending, u.tickets[0].partyMembers, u) {
      var key := u.tickets[0].partyMembers;
      forall i | 0 <= i < |u.tickets|
        ensures u.tickets[i] in pending && u.tickets[i].partyMembers == key && u.tickets[i].playerId == key[i]
      {
        KeptIsPending(pending, key, key[i], u.tickets[i]);
        CanonicalKey(u.tickets[i]);
      }
    }
  }

  /** The tickets of one unit are distinct. */
  lemma UnitTicketsDistinct(pending: seq<Ticket>, u: Unit)
    requires Pool(pending) && IsUnit(pending, u)
    ensures forall i, j :: 0 <= i < j < |u.tickets| ==> u.tickets[i].id != u.tickets[j].id
  {
    UnitTickets(pending, u);
    forall i, j | 0 <= i < j < |u.tickets| ensures u.tickets[i].id != u.tickets[j].id {
      assert u.tickets[0].IsParty();
      assert Canonical(u.tickets[0]);
      assert IdBefore(u.tickets[0].partyMembers[i], u.tickets[0].partyMembers[j]);
      SameIdSameTicket(pending, u.tickets[i], u.tickets[j]);
    }
  }

  lemma PartyIsUnique(pending: seq<Ticket>, key: seq<UUID>, u: Unit, v: Unit)
    requires IsCompleteParty(pending, key, u) && IsCompleteParty(pending, key, v)
    ensures u == v
  {
    forall m | 0 <= m < |key| ensures u.tickets[m] == v.tickets[m] {
      KeptUnique(pending, |pending|, key, key[m], u.tickets[m], v.tickets[m]);
    }
    assert u.tickets == v.tickets;
  }

  lemma SoloIsUnique(pending: seq<Ticket>, u: Unit, v: Unit)
    requires IsSolo(pending, |pending|, u) && IsSolo(pending, |pending|, v) && u.tickets[0] == v.tickets[0]
    ensures u == v
  {}

  /** Any ticket of a unit tells what kind of unit it is. */
  lemma UnitKind(pending: seq<Ticket>, u: Unit, i: nat)
    requires Pool(pending) && IsUnit(pending, u) && i < |u.tickets|
    ensures u.tickets[i] in pending
    ensures if u.tickets[i].IsParty() then IsCompleteParty(pending, u.tickets[i].partyMembers, u)
            else i == 0 && IsSolo(pending, |pending|, u)
  {
    UnitTickets(pending, u);
  }

  /** Two units that share a ticket are the same unit. */
  lemma UnitsDisjoint(pending: seq<Ticket>, u: Unit, v: Unit, i: nat, j: nat)
    requires Pool(pending) && IsUnit(pending, u) && IsUnit(pending, v)
    requires i < |u.tickets| && j < |v.tickets| && u.tickets[i].id == v.tickets[j].id
    ensures u == v
  {
    UnitKind(pending, u, i);
    UnitKind(pending, v, j);
    SameIdSameTicket(pending, u.tickets[i], v.tickets[j]);
    if u.tickets[i].IsParty() {
      PartyIsUnique(pending, u.tickets[i].partyMembers, u, v);
    } else {
      SoloIsUnique(pending, u, v);
    }
  }

  /** (seedAt, first ticket id) orders the units of a pool strictly and totally. */
  lemma UnitOrderIsTotal(pending: seq<Ticket>, u: Unit, v: Unit)
    requires Pool(pending) && IsUnit(pending, u) && IsUnit(pending, v) && u != v
    ensures UnitBefore(u, v) || UnitBefore(v, u)
  {
    if u.FirstId() == v.FirstId() {
      UnitsDisjoint(pending, u, v, 0, 0);
    }
  }

  /** One pool has one unit list, so the order in which the roster map is iterated cannot matter. */
  lemma UnitListUnique(pending: seq<Ticket>, us: seq<Unit>, vs: seq<Unit>)
    requires IsUnitList(pending, us) && IsUnitList(pending, vs)
    ensures us == vs
  {
    StrictlySortedUnique(UnitBefore, us, vs);
  }

  lemma UnitBeforeIsStrictWeakOrder()
    ensures StrictWeakOrder(UnitBefore)
  {}

  /** No player has two equally old tickets for one party. */
  ghost predicate Untied(pending: seq<Ticket>) {
    forall s, t :: s in pending && t in pending && s != t && s.IsParty() && InParty(t, s.PartyKey(), s.playerId) ==>
                     s.enqueuedAt != t.enqueuedAt
  }

  lemma KeptInAnyOrder(p: seq<Ticket>, q: seq<Ticket>, key: seq<UUID>, player: UUID, t: Ticket)
    requires Untied(p) && Elements(p) == Elements(q) && Kept(p, |p|, key, player, t)
    ensures Kept(q, |q|, key, player, t)
  {
    KeptIsPending(p, key, player, t);
    assert t in Elements(p);
    var a :| 0 <= a < |q| && q[a] == t && forall b :: 0 <= b < a ==> q[b] != t by {
      FirstPlace(q, t);
    }
    forall b | 0 <= b < |q| && InParty(q[b], key, player)
      ensures t.enqueuedAt < q[b].enqueuedAt || (t.enqueuedAt == q[b].enqueuedAt && a <= b)
    {
      assert q[b] in Elements(q);
      assert q[b] in p;
    }
    assert KeptAt(q, |q|, key, player, a);
  }

  lemma {:induction false} FirstPlace(q: seq<Ticket>, t: Ticket)
    requires t in q
    ensures exists a :: 0 <= a < |q| && q[a] == t && forall b :: 0 <= b < a ==> q[b] != t
  {
    var init, last := q[..|q| - 1], q[|q| - 1];
    if t in init {
      FirstPlace(init, t);
      var a :| 0 <= a < |init| && init[a] == t && forall b :: 0 <= b < a ==> init[b] != t;
      assert q[a] == t && forall b :: 0 <= b < a ==> q[b] == init[b];
    } else {
      assert last == t && forall b :: 0 <= b < |init| ==> q[b] == init[b];
    }
  }

  lemma UnitInAnyOrder(p: seq<Ticket>, q: seq<Ticket>, u: Unit)
    requires Untied(p) && Elements(p) == Elements(q) && IsUnit(p, u)
    ensures IsUnit(q, u)
  {
    if IsSolo(p, |p|, u) {
      assert u.tickets[0] in Elements(p);
      assert q[..|q|] == q;
    } else {
      var key := u.tickets[0].partyMembers;
      forall m | 0 <= m < |key| ensures Kept(q, |q|, key, key[m], u.tickets[m]) {
        KeptInAnyOrder(p, q, key, key[m], u.tickets[m]);
      }
    }
  }

  /** Without such ties the units do not depend on the order in which the pool is listed either. */
  lemma UnitListInAnyOrder(p: seq<Ticket>, q: seq<Ticket>, units: seq<Unit>)
    requires Untied(p) && Elements(p) == Elements(q)
    ensures IsUnitList(p, units) <==> IsUnitList(q, units)
  {
    assert Untied(q) by {
      forall t ensures t in q <==> t in p {
        assert t in Elements(p) <==> t in Elements(q);
      }
    }
    forall u ensures IsUnit(p, u) <==> IsUnit(q, u) {
      if IsUnit(p, u) {
        UnitInAnyOrder(p, q, u);
      }
      if IsUnit(q, u) {
        UnitInAnyOrder(q, p, u);
      }
    }
  }

  // ---- building the units ----

  /** A player's ticket is recorded when it is the first, or strictly older than the one recorded. */
  function Record(members: map<UUID, Ticket>, t: Ticket): map<UUID, Ticket> {
    if t.playerId !in members || t.enqueuedAt < members[t.playerId].enqueuedAt then members[t.playerId := t]
    else members
  }

  /** What the first pass over the pool has recorded after n tickets. */
  ghost predicate Collected(pending: seq<Ticket>, n: nat, rosters: map<seq<UUID>, seq<UUID>>,
                            byKeyPlayer: map<seq<UUID>, map<UUID, Ticket>>)
    requires n <= |pending|
  {
    && rosters.Keys == byKeyPlayer.Keys
    && (forall key :: key in rosters ==> rosters[key] == key && |key| >= 2)
    && (forall a :: 0 <= a < n && pending[a].IsParty() ==> Known(byKeyPlayer, pending[a]))
    && (forall key :: key in byKeyPlayer ==> AllKept(pending, n, key, byKeyPlayer[key]))
  }

  ghost predicate Known(byKeyPlayer: map<seq<UUID>, map<UUID, Ticket>>, t: Ticket) {
    t.PartyKey() in byKeyPlayer && t.playerId in byKeyPlayer[t.PartyKey()]
  }

  ghost predicate AllKept(pending: seq<Ticket>, n: nat, key: seq<UUID>, members: map<UUID, Ticket>)
    requires n <= |pending|
  {
    forall p :: p in members ==> Kept(pending, n, key, p, members[p])
  }

  /** Replacing the current ticket only by a strictly older one keeps the first of the oldest. */
  lemma KeepOlder(pending: seq<Ticket>, n: nat, key: seq<UUID>, player: UUID, cur: Option<Ticket>)
    requires n < |pending| && InParty(pending[n], key, player)
    requires cur.None? ==> forall b :: 0 <= b < n ==> !InParty(pending[b], key, player)
    requires cur.Some? ==> Kept(pending, n, key, player, cur.value)
    ensures var t := pending[n];
            Kept(pending, n + 1, key, player,
                 if cur.None? || t.enqueuedAt < cur.value.enqueuedAt then t else cur.value)
  {
    if cur.None? {
      assert KeptAt(pending, n + 1, key, player, n);
    } else {
      var a: nat :| KeptAt(pending, n, key, player, a) && pending[a] == cur.value;
      assert KeptAt(pending, n + 1, key, player, if pending[n].enqueuedAt < cur.value.enqueuedAt then n else a);
    }
  }

  /** A ticket of another party or player leaves the kept ticket as it was. */
  lemma KeepOther(pending: seq<Ticket>, n: nat, key: seq<UUID>, player: UUID, t: Ticket)
    requires n < |pending| && !InParty(pending[n], key, player) && Kept(pending, n, key, player, t)
    ensures Kept(pending, n + 1, key, player, t)
  {
    var a: nat :| KeptAt(pending, n, key, player, a) && pending[a] == t;
    assert KeptAt(pending, n + 1, key, player, a);
  }

  /** The oldest-per-member tickets of a roster, or an incomplete party. */
  method AssembleParty(roster: seq<UUID>, members: map<UUID, Ticket>) returns (complete: bool, u: Unit)
    requires |roster| >= 2
    requires forall p :: p in members ==> members[p].enqueuedAt != 0
    ensures complete <==> forall m :: 0 <= m < |roster| ==> roster[m] in members
    ensures complete ==> |u.tickets| == |roster| && Oldest(u.tickets, u.seedAt)
    ensures complete ==> forall m :: 0 <= m < |roster| ==> u.tickets[m] == members[roster[m]]
  {
    var tickets: seq<Ticket> := [];
    var seedAt: Time := 0;
    complete := true;
    for m := 0 to |roster|
      invariant complete && |tickets| == m
      invariant forall i :: 0 <= i < m ==> roster[i] in members && tickets[i] == members[roster[i]]
      invariant m == 0 ==> seedAt == 0
      invariant m > 0 ==> Oldest(tickets, seedAt)
    {
      if roster[m] !in members {
        complete := false;
        break;
      }
      var tk := members[roster[m]];
      ghost var before := tickets;
      tickets := tickets + [tk];
      if seedAt == 0 || tk.enqueuedAt < seedAt {
        seedAt := tk.enqueuedAt;
        assert tickets[m].enqueuedAt == seedAt;
      } else {
        assert m > 0;
        ghost var i :| 0 <= i < |before| && before[i].enqueuedAt == seedAt;
        assert tickets[i].enqueuedAt == seedAt;
      }
    }
    u := Unit(tickets, seedAt);
  }

  /** Recording party ticket n keeps its own party's record accurate. */
  lemma RecordKeeps(pending: seq<Ticket>, n: nat, key: seq<UUID>, before: map<UUID, Ticket>)
    requires n < |pending| && pending[n].IsParty() && key == pending[n].PartyKey()
    requires AllKept(pending, n, key, before)
    requires forall a :: 0 <= a < n && InParty(pending[a], key, pending[n].playerId) ==> pending[n].playerId in before
    ensures AllKept(pending, n + 1, key, Record(before, pending[n]))
  {
    var t, members := pending[n], Record(before, pending[n]);
    forall p | p in members ensures Kept(pending, n + 1, key, p, members[p]) {
      if p == t.playerId {
        KeepOlder(pending, n, key, p, if p in before then Some(before[p]) else None);
      } else {
        KeepOther(pending, n, key, p, members[p]);
      }
    }
  }

  lemma OtherPartiesKept(pending: seq<Ticket>, n: nat, key: seq<UUID>, members: map<UUID, Ticket>)
    requires n < |pending| && pending[n].PartyKey() != key && AllKept(pending, n, key, members)
    ensures AllKept(pending, n + 1, key, members)
  {
    forall p | p in members ensures Kept(pending, n + 1, key, p, members[p]) {
      KeepOther(pending, n, key, p, members[p]);
    }
  }

  /** Recording party ticket n keeps the first pass accurate. */
  lemma CollectParty(pending: seq<Ticket>, n: nat, rosters: map<seq<UUID>, seq<UUID>>,
                     byKeyPlayer: map<seq<UUID>, map<UUID, Ticket>>,
                     key: seq<UUID>, before: map<UUID, Ticket>, members: map<UUID, Ticket>)
    requires n < |pending| && pending[n].IsParty() && Canonical(pending[n]) && key == pending[n].PartyKey()
    requires Collected(pending, n, rosters, byKeyPlayer)
    requires before == if key in byKeyPlayer then byKeyPlayer[key] else map[]
    requires members == Record(before, pending[n])
    ensures Collected(pending, n + 1, rosters[key := pending[n].partyMembers], byKeyPlayer[key := members])
  {
    CanonicalKey(pending[n]);
    var by' := byKeyPlayer[key := members];
    forall a | 0 <= a < n + 1 && pending[a].IsParty() ensures Known(by', pending[a]) {
      if a < n {
        assert Known(byKeyPlayer, pending[a]);
      }
    }
    forall k | k in by' ensures AllKept(pending, n + 1, k, by'[k]) {
      if k == key {
        RecordKeeps(pending, n, key, before);
      } else {
        OtherPartiesKept(pending, n, k, byKeyPlayer[k]);
      }
    }
  }

  lemma CollectedSkips(pending: seq<Ticket>, n: nat, rosters: map<seq<UUID>, seq<UUID>>,
                       byKeyPlayer: map<seq<UUID>, map<UUID, Ticket>>)
    requires n < |pending| && !pending[n].IsParty() && Collected(pending, n, rosters, byKeyPlayer)
    ensures Collected(pending, n + 1, rosters, byKeyPlayer)
  {
    forall key | key in byKeyPlayer ensures AllKept(pending, n + 1, key, byKeyPlayer[key]) {
      OtherPartiesKept(pending, n, key, byKeyPlayer[key]);
    }
  }

  /** The solo units of the first n tickets, each once. */
  ghost predicate SolosTo(pending: seq<Ticket>, n: nat, units: seq<Unit>)
    requires n <= |pending|
  {
    NoDuplicates(units) && forall v :: v in units <==> IsSolo(pending, n, v)
  }

  lemma AddSolo(pending: seq<Ticket>, n: nat, units: seq<Unit>, u: Unit)
    requires Pool(pending) && n < |pending| && !pending[n].IsParty()
    requires u == Unit([pending[n]], pending[n].enqueuedAt)
    requires SolosTo(pending, n, units)
    ensures SolosTo(pending, n + 1, units + [u])
  {
    assert pending[..n + 1] == pending[..n] + [pending[n]];
    forall v | IsSolo(pending, n, v) ensures v != u {
      var a :| 0 <= a < n && pending[a] == v.tickets[0];
    }
    assert u !in units;
    forall v ensures v in units + [u] <==> IsSolo(pending, n + 1, v) {
      if IsSolo(pending, n + 1, v) && v !in units {
        assert v.tickets[0] == pending[n];
        assert v.tickets == [pending[n]];
      }
    }
  }

  lemma SolosSkip(pending: seq<Ticket>, n: nat, units: seq<Unit>)
    requires n < |pending| && pending[n].IsParty()
    requires SolosTo(pending, n, units)
    ensures SolosTo(pending, n + 1, units)
  {
    assert pending[..n + 1] == pending[..n] + [pending[n]];
  }

  lemma MembersAreDated(pending: seq<Ticket>, rosters: map<seq<UUID>, seq<UUID>>,
                        byKeyPlayer: map<seq<UUID>, map<UUID, Ticket>>, key: seq<UUID>)
    requires Pool(pending) && Collected(pending, |pending|, rosters, byKeyPlayer) && key in rosters
    ensures forall p :: p in byKeyPlayer[key] ==> byKeyPlayer[key][p].enqueuedAt != 0
  {
    forall p | p in byKeyPlayer[key] ensures byKeyPlayer[key][p].enqueuedAt != 0 {
      KeptIsPending(pending, key, p, byKeyPlayer[key][p]);
    }
  }

  /** The assembled unit is the one complete party of its key; an incomplete roster has none. */
  lemma PartyOfKey(pending: seq<Ticket>, rosters: map<seq<UUID>, seq<UUID>>,
                   byKeyPlayer: map<seq<UUID>, map<UUID, Ticket>>, key: seq<UUID>, complete: bool, u: Unit)
    requires Collected(pending, |pending|, rosters, byKeyPlayer) && key in rosters
    requires complete <==> forall m :: 0 <= m < |key| ==> key[m] in byKeyPlayer[key]
    requires complete ==> |u.tickets| == |key| && Oldest(u.tickets, u.seedAt)
    requires complete ==> forall m :: 0 <= m < |key| ==> u.tickets[m] == byKeyPlayer[key][key[m]]
    ensures forall v :: IsCompleteParty(pending, key, v) <==> complete && v == u
  {
    forall v | IsCompleteParty(pending, key, v) ensures complete && v == u {
      forall m | 0 <= m < |key| ensures key[m] in byKeyPlayer[key] && v.tickets[m] == byKeyPlayer[key][key[m]] {
        KeptIsPending(pending, key, key[m], v.tickets[m]);
        assert key[m] in byKeyPlayer[key];
        KeptUnique(pending, |pending|, key, key[m], v.tickets[m], byKeyPlayer[key][key[m]]);
      }
      assert v.tickets == u.tickets;
      assert v.seedAt == u.seedAt;
    }
  }

  lemma PartyIsNew(pending: seq<Ticket>, solos: seq<Unit>, key: seq<UUID>, u: Unit, v: Unit, done: set<seq<UUID>>)
    requires Pool(pending) && IsCompleteParty(pending, key, u) && key !in done
    requires forall s :: s in solos <==> IsSolo(pending, |pending|, s)
    requires Gathered(pending, solos, done, v)
    ensures u != v
  {
    KeptIsPending(pending, key, key[0], u.tickets[0]);
    if v !in solos {
      var k :| k in done && IsCompleteParty(pending, k, v);
      KeptIsPending(pending, k, k[0], v.tickets[0]);
    }
  }

  lemma UnitsAreComplete(pending: seq<Ticket>, rosters: map<seq<UUID>, seq<UUID>>,
                         byKeyPlayer: map<seq<UUID>, map<UUID, Ticket>>, solos: seq<Unit>, units: seq<Unit>)
    requires Pool(pending) && Collected(pending, |pending|, rosters, byKeyPlayer)
    requires forall s :: s in solos <==> IsSolo(pending, |pending|, s)
    requires forall u :: u in units <==> Gathered(pending, solos, rosters.Keys, u)
    ensures forall u :: u in units <==> IsUnit(pending, u)
  {
    forall u ensures u in units <==> IsUnit(pending, u) {
      if u in units && u !in solos {
        var key :| key in rosters && IsCompleteParty(pending, key, u);
        KeptIsPending(pending, key, key[0], u.tickets[0]);
        CanonicalKey(u.tickets[0]);
      }
      if IsUnit(pending, u) && !IsSolo(pending, |pending|, u) {
        var key := u.tickets[0].partyMembers;
        KeptIsPending(pending, key, key[0], u.tickets[0]);
        assert key in rosters;
      }
    }
  }

  /** A party ticket met by the first pass: its roster, and the older of it and its player's earlier ticket. */
  method RecordParty(pending: seq<Ticket>, n: nat, rosters: map<seq<UUID>, seq<UUID>>,
                     byKeyPlayer: map<seq<UUID>, map<UUID, Ticket>>)
    returns (rosters': map<seq<UUID>, seq<UUID>>, byKeyPlayer': map<seq<UUID>, map<UUID, Ticket>>)
    requires n < |pending| && pending[n].IsParty() && Canonical(pending[n])
    requires Collected(pending, n, rosters, byKeyPlayer)
    ensures Collected(pending, n + 1, rosters', byKeyPlayer')
  {
    var t := pending[n];
    var key := t.PartyKey();
    var before := if key in byKeyPlayer then byKeyPlayer[key] else map[];
    var members := before;
    if t.playerId !in members || t.enqueuedAt < members[t.playerId].enqueuedAt {
      members := members[t.playerId := t];
    }
    CollectParty(pending, n, rosters, byKeyPlayer, key, before, members);
    rosters', byKeyPlayer' := rosters[key := t.partyMembers], byKeyPlayer[key := members];
  }

  /** The first pass: solo units, and per party the oldest ticket of each member. */
  method CollectTickets(pending: seq<Ticket>)
    returns (units: seq<Unit>, rosters: map<seq<UUID>, seq<UUID>>, byKeyPlayer: map<seq<UUID>, map<UUID, Ticket>>)
    requires Pool(pending)
    ensures SolosTo(pending, |pending|, units)
    ensures Collected(pending, |pending|, rosters, byKeyPlayer)
  {
    units := [];
    rosters := map[];
    byKeyPlayer := map[];
    for i := 0 to |pending|
      invariant SolosTo(pending, i, units)
      invariant Collected(pending, i, rosters, byKeyPlayer)
    {
      var t := pending[i];
      if !t.IsParty() {
        var u := Unit([t], t.enqueuedAt);
        AddSolo(pending, i, units, u);
        CollectedSkips(pending, i, rosters, byKeyPlayer);
        units := units + [u];
      } else {
        rosters, byKeyPlayer := RecordParty(pending, i, rosters, byKeyPlayer);
        SolosSkip(pending, i, units);
      }
    }
  }

  /** The solo units, or a complete party of one of the keys. */
  ghost predicate Gathered(pending: seq<Ticket>, solos: seq<Unit>, keys: set<seq<UUID>>, u: Unit) {
    u in solos || exists key :: key in keys && IsCompleteParty(pending, key, u)
  }

  /** The second pass, in whatever order the roster map yields its keys. */
  method AppendParties(pending: seq<Ticket>, solos: seq<Unit>, rosters: map<seq<UUID>, seq<UUID>>,
                       byKeyPlayer: map<seq<UUID>, map<UUID, Ticket>>)
    returns (units: seq<Unit>)
    requires Pool(pending) && Collected(pending, |pending|, rosters, byKeyPlayer)
    requires SolosTo(pending, |pending|, solos)
    ensures NoDuplicates(units) && forall u :: u in units <==> Gathered(pending, solos, rosters.Keys, u)
  {
    units := solos;
    var rest := rosters.Keys;
    while rest != {}
      invariant rest <= rosters.Keys && NoDuplicates(units)
      invariant forall u :: u in units <==> Gathered(pending, solos, rosters.Keys - rest, u)
      decreases rest
    {
      var key :| key in rest;
      MembersAreDated(pending, rosters, byKeyPlayer, key);
      var complete, u := AssembleParty(rosters[key], byKeyPlayer[key]);
      PartyOfKey(pending, rosters, byKeyPlayer, key, complete, u);
      GatherOne(pending, solos, rosters.Keys, rest, key, complete, u, units);
      if complete {
        units := units + [u];
      }
      rest := rest - {key};
    }
  }

  method BuildUnits(pending: seq<Ticket>) returns (units: seq<Unit>)
    requires Pool(pending)
    ensures IsUnitList(pending, units)
  {
    var solos, rosters, byKeyPlayer := CollectTickets(pending);
    units := AppendParties(pending, solos, rosters, byKeyPlayer);
    UnitsAreComplete(pending, rosters, byKeyPlayer, solos, units);
    SortUnits(pending, units);
    units := Sort(UnitBefore, units);
  }

  lemma SortUnits(pending: seq<Ticket>, units: seq<Unit>)
    requires Pool(pending) && NoDuplicates(units) && forall u :: u in units <==> IsUnit(pending, u)
    ensures IsUnitList(pending, Sort(UnitBefore, units))
  {
    UnitBeforeIsStrictWeakOrder();
    forall u, v | u in units && v in units && u != v ensures UnitBefore(u, v) || UnitBefore(v, u) {
      UnitOrderIsTotal(pending, u, v);
    }
    SortStrictly(UnitBefore, units);
  }

  lemma GatherOne(pending: seq<Ticket>, solos: seq<Unit>, keys: set<seq<UUID>>, rest: set<seq<UUID>>,
                  key: seq<UUID>, complete: bool, u: Unit, units: seq<Unit>)
    requires Pool(pending) && forall s :: s in solos <==> IsSolo(pending, |pending|, s)
    requires rest <= keys && key in rest && |key| >= 2
    requires NoDuplicates(units) && forall v :: v in units <==> Gathered(pending, solos, keys - rest, v)
    requires forall v :: IsCompleteParty(pending, key, v) <==> complete && v == u
    ensures var units' := if complete then units + [u] else units;
            NoDuplicates(units') && forall v :: v in units' <==> Gathered(pending, solos, keys - (rest - {key}), v)
  {
    assert keys - (rest - {key}) == keys - rest + {key};
    if complete {
      forall v | v in units ensures v != u {
        PartyIsNew(pending, solos, key, u, v, keys - rest);
      }
      assert u !in units;
    }
    forall v ensures Gathered(pending, solos, keys - rest + {key}, v) <==>
                     Gathered(pending, solos, keys - rest, v) || (complete && v == u) {}
  }

  // ---- who is in a unit ----

  ghost predicate HasTicket(pending: seq<Ticket>, n: nat, key: seq<UUID>, player: UUID)
    requires n <= |pending|
  {
    exists a :: 0 <= a < n && InParty(pending[a], key, player)
  }

  lemma {:induction false} KeptExists(pending: seq<Ticket>, n: nat, key: seq<UUID>, player: UUID) returns (t: Ticket)
    requires n <= |pending| && HasTicket(pending, n, key, player)
    ensures Kept(pending, n, key, player, t)
  {
    var last := n - 1;
    if HasTicket(pending, last, key, player) {
      t := KeptExists(pending, last, key, player);
      if InParty(pending[last], key, player) {
        KeepOlder(pending, last, key, player, Some(t));
        t := if pending[last].enqueuedAt < t.enqueuedAt then pending[last] else t;
      } else {
        KeepOther(pending, last, key, player, t);
      }
    } else {
      t := pending[last];
      KeepOlder(pending, last, key, player, None);
    }
  }

  /** The kept tickets of the first n roster members. */
  ghost predicate KeptOf(pending: seq<Ticket>, key: seq<UUID>, n: nat, ts: seq<Ticket>)
    requires n <= |key|
  {
    |ts| == n && forall m :: 0 <= m < n ==> Kept(pending, |pending|, key, key[m], ts[m])
  }

  lemma KeptOneMore(pending: seq<Ticket>, key: seq<UUID>, n: nat, ts: seq<Ticket>, t: Ticket)
    requires n < |key| && KeptOf(pending, key, n, ts) && Kept(pending, |pending|, key, key[n], t)
    ensures KeptOf(pending, key, n + 1, ts + [t])
  {
    forall m | 0 <= m < n + 1 ensures Kept(pending, |pending|, key, key[m], (ts + [t])[m]) {
      if m < n {
        assert (ts + [t])[m] == ts[m];
      }
    }
  }

  lemma {:induction false} KeptForAll(pending: seq<Ticket>, key: seq<UUID>, n: nat) returns (ts: seq<Ticket>)
    requires n <= |key| && forall m :: 0 <= m < |key| ==> HasTicket(pending, |pending|, key, key[m])
    ensures KeptOf(pending, key, n, ts)
  {
    if n == 0 {
      ts := [];
    } else {
      var before := KeptForAll(pending, key, n - 1);
      var t := KeptExists(pending, |pending|, key, key[n - 1]);
      KeptOneMore(pending, key, n - 1, before, t);
      ts := before + [t];
    }
  }

  lemma {:induction false} SomeOldest(ts: seq<Ticket>) returns (at: Time)
    requires ts != []
    ensures Oldest(ts, at)
  {
    var last := ts[|ts| - 1];
    if |ts| == 1 {
      at := last.enqueuedAt;
      assert ts[0].enqueuedAt == at;
    } else {
      var before := SomeOldest(ts[..|ts| - 1]);
      at := Min(before, last.enqueuedAt);
      var i :| 0 <= i < |ts| - 1 && ts[..|ts| - 1][i].enqueuedAt == before;
      assert ts[if last.enqueuedAt < before then |ts| - 1 else i].enqueuedAt == at;
      forall k | 0 <= k < |ts| ensures at <= ts[k].enqueuedAt {
        assert k < |ts| - 1 ==> ts[..|ts| - 1][k] == ts[k];
      }
    }
  }

  /** A party whose members all have a ticket for it is a unit, with one ticket per member in roster order. */
  lemma CompletePartyHasUnit(pending: seq<Ticket>, key: seq<UUID>) returns (u: Unit)
    requires Pool(pending) && |key| >= 2 && forall m :: 0 <= m < |key| ==> HasTicket(pending, |pending|, key, key[m])
    ensures IsUnit(pending, u) && |u.tickets| == |key|
    ensures forall m :: 0 <= m < |key| ==> u.tickets[m].playerId == key[m] && u.tickets[m].partyMembers == key
  {
    var ts := KeptForAll(pending, key, |key|);
    var at := SomeOldest(ts);
    u := Unit(ts, at);
    forall m | 0 <= m < |key| ensures ts[m] in pending && ts[m].playerId == key[m] && ts[m].partyMembers == key {
      KeptIsPending(pending, key, key[m], ts[m]);
      CanonicalKey(ts[m]);
    }
  }

  /** A party in which somebody has no ticket is in no unit. */
  lemma IncompletePartyWaits(pending: seq<Ticket>, key: seq<UUID>, m: nat, u: Unit, i: nat)
    requires Pool(pending) && m < |key| && !HasTicket(pending, |pending|, key, key[m])
    requires IsUnit(pending, u) && i < |u.tickets| && u.tickets[i].IsParty()
    ensures u.tickets[i].partyMembers != key
  {
    UnitKind(pending, u, i);
    if u.tickets[i].partyMembers == key {
      KeptIsPending(pending, key, key[m], u.tickets[m]);
    }
  }

  /** Every solo ticket is a unit of its own. */
  lemma SoloHasUnit(pending: seq<Ticket>, t: Ticket)
    requires t in pending && !t.IsParty()
    ensures IsUnit(pending, Unit([t], t.enqueuedAt))
  {
    assert pending[..|pending|] == pending;
  }

  /** A member is in their party's unit with the oldest ticket they have for it, and the unit is no younger. */
  lemma MemberBringsOldest(pending: seq<Ticket>, u: Unit, i: nat, t: Ticket)
    requires Pool(pending) && IsUnit(pending, u) && i < |u.tickets| && u.tickets[i].IsParty()
    requires t in pending && t.partyMembers == u.tickets[i].partyMembers && t.playerId == u.tickets[i].playerId
    ensures u.seedAt <= u.tickets[i].enqueuedAt <= t.enqueuedAt
  {
    UnitKind(pending, u, i);
    UnitTickets(pending, u);
    var key := u.tickets[i].partyMembers;
    var a: nat :| KeptAt(pending, |pending|, key, key[i], a) && pending[a] == u.tickets[i];
    var b :| 0 <= b < |pending| && pending[b] == t;
    CanonicalKey(t);
    assert InParty(pending[b], key, key[i]);
  }
}
