/** Tickets, pairing eligibility, and the canonical party roster. */
module Tickets {
  import opened Base
  import opened Sorting

  datatype Ticket = Ticket(
    id: UUID,
    playerId: UUID,
    gameMode: string,
    rating: Option<real>,
    region: Option<string>,
    partyMembers: seq<UUID>,
    enqueuedAt: Time
  ) {
    predicate IsParty() { |partyMembers| >= 2 }

    /** Joining the fixed-width ids is injective, so the key is kept as the sorted list itself. */
    function PartyKey(): seq<UUID> {
      if IsParty() then Sort(IdBefore, partyMembers) else []
    }

    /** A missing rating or region skips that dimension. */
    predicate CompatibleWith(other: Ticket, ratingWindow: real, ignoreRegion: bool) {
      && (ignoreRegion || region.None? || other.region.None? || region == other.region)
      && (rating.Some? && other.rating.Some? ==> Abs(rating.value - other.rating.value) <= ratingWindow)
    }
  }

  function Abs(x: real): real { if x < 0.0 then -x else x }

  predicate IdBefore(a: UUID, b: UUID) { a < b }

  ghost function IdSet(self: UUID, members: seq<UUID>): set<UUID> {
    {self} + Elements(members)
  }

  /** What NormalizeParty promises for the id set of a request. */
  ghost predicate IsRosterOf(roster: seq<UUID>, ids: set<UUID>) {
    if |ids| <= 1 then roster == []
    else StrictlySorted(IdBefore, roster) && (forall x :: x in roster <==> x in ids)
  }

  /** The rosters that reach the queue: empty for a solo ticket, else normalized and holding the player. */
  ghost predicate Canonical(t: Ticket) {
    t.partyMembers == [] || (t.IsParty() && StrictlySorted(IdBefore, t.partyMembers) && t.playerId in t.partyMembers)
  }

  lemma IdBeforeIsStrictWeakOrder()
    ensures StrictWeakOrder(IdBefore)
  {}

  method NormalizeParty(self: UUID, members: seq<UUID>) returns (roster: seq<UUID>)
    ensures IsRosterOf(roster, IdSet(self, members))
  {
    var ids: set<UUID> := {self};
    for i := 0 to |members|
      invariant ids == IdSet(self, members[..i])
    {
      ids := ids + {members[i]};
      assert members[..i + 1] == members[..i] + [members[i]];
    }
    assert members[..|members|] == members;
    if |ids| <= 1 {
      return [];
    }
    roster := [];
    var rest := ids;
    while rest != {}
      invariant rest <= ids && NoDuplicates(roster)
      invariant forall x :: x in roster <==> x in ids - rest
      decreases rest
    {
      var id :| id in rest;
      assert id !in roster;
      roster := roster + [id];
      rest := rest - {id};
    }
    IdBeforeIsStrictWeakOrder();
    SortStrictly(IdBefore, roster);
    roster := Sort(IdBefore, roster);
  }

  /** One id set has exactly one roster. */
  lemma RosterUnique(a: seq<UUID>, b: seq<UUID>, ids: set<UUID>)
    requires IsRosterOf(a, ids) && IsRosterOf(b, ids)
    ensures a == b
  {
    if |ids| > 1 {
      StrictlySortedUnique(IdBefore, a, b);
    }
  }

  lemma RosterSize(roster: seq<UUID>, ids: set<UUID>)
    requires IsRosterOf(roster, ids)
    ensures |roster| == if |ids| <= 1 then 0 else |ids|
  {
    if |ids| > 1 {
      ElementsOfNoDuplicates(roster);
      assert Elements(roster) == ids;
    }
  }

  /** Every ticket built from a normalized roster is canonical. */
  lemma NormalizedIsCanonical(t: Ticket, members: seq<UUID>)
    requires IsRosterOf(t.partyMembers, IdSet(t.playerId, members))
    ensures Canonical(t)
  {
    RosterSize(t.partyMembers, IdSet(t.playerId, members));
    assert t.playerId in IdSet(t.playerId, members);
  }

  /** The key of a canonical party ticket is its roster. */
  lemma CanonicalKey(t: Ticket)
    requires Canonical(t)
    ensures t.PartyKey() == t.partyMembers
  {
    if t.IsParty() {
      IdBeforeIsStrictWeakOrder();
      SortStrictly(IdBefore, t.partyMembers);
      StrictlySortedUnique(IdBefore, t.partyMembers, t.PartyKey());
    }
  }

  /** Two tickets share a party key exactly when their requests named the same set of two or more players. */
  lemma SamePartyIffSameIds(s: Ticket, sMembers: seq<UUID>, t: Ticket, tMembers: seq<UUID>)
    requires IsRosterOf(s.partyMembers, IdSet(s.playerId, sMembers))
    requires IsRosterOf(t.partyMembers, IdSet(t.playerId, tMembers))
    ensures s.IsParty() <==> |IdSet(s.playerId, sMembers)| >= 2
    ensures s.IsParty() && t.IsParty() ==>
              (s.PartyKey() == t.PartyKey() <==> IdSet(s.playerId, sMembers) == IdSet(t.playerId, tMembers))
  {
    var a, b := IdSet(s.playerId, sMembers), IdSet(t.playerId, tMembers);
    RosterSize(s.partyMembers, a);
    RosterSize(t.partyMembers, b);
    NormalizedIsCanonical(s, sMembers);
    NormalizedIsCanonical(t, tMembers);
    CanonicalKey(s);
    CanonicalKey(t);
    if s.IsParty() && t.IsParty() {
      if a == b {
        RosterUnique(s.partyMembers, t.partyMembers, a);
      }
      if s.PartyKey() == t.PartyKey() {
        assert forall x :: x in a <==> x in s.partyMembers;
        assert forall x :: x in b <==> x in t.partyMembers;
      }
    }
  }

  /** Eligibility is symmetric, and only grows with a wider window or a relaxed region. */
  lemma CompatibilityLaws(s: Ticket, t: Ticket, w: real, w': real, ignore: bool, ignore': bool)
    requires w <= w' && (ignore ==> ignore')
    ensures s.CompatibleWith(t, w, ignore) <==> t.CompatibleWith(s, w, ignore)
    ensures s.CompatibleWith(t, w, ignore) ==> s.CompatibleWith(t, w', ignore')
  {}
}
