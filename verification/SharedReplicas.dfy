/** Any number of matchmaker replicas over the shared Valkey queue, with stale reads and interleaved commands. */
module SharedReplicas {
  import opened Base
  import opened Tickets
  import opened Units
  import opened Matcher
  import opened ValkeyQueue
  import R = Replicas

  /** A replica between its steps: nothing, the ids a ZRANGE returned, or the tickets it then fetched for them. */
  datatype Worker =
    | Resting
    | Listed(mode: string, now: Time, ids: seq<UUID>)
    | Looking(mode: string, now: Time, ids: seq<UUID>, snapshot: seq<Ticket>)

  /** A successful claim, with the read it was decided on. */
  datatype System = System(store: Store, workers: map<nat, Worker>, formed: seq<R.Formed>)

  datatype Deed =
    | Client(act: Act)
    | Range(w: nat, mode: string, now: Time, ids: seq<UUID>)
    | Fetch(w: nat, snapshot: seq<Ticket>)
    | TryClaim(w: nat, group: seq<Ticket>)
    | Drop(w: nat)

  function WorkerOf(s: System, w: nat): Worker { if w in s.workers then s.workers[w] else Resting }

  /** The tickets fetched for listed ids; one whose key is gone by then is skipped. */
  ghost predicate Fetched(s: Store, ids: seq<UUID>, snapshot: seq<Ticket>) {
    && DistinctIds(snapshot)
    && forall i :: 0 <= i < |snapshot| ==>
         snapshot[i].id in ids && snapshot[i].id in s.tickets && snapshot[i] == s.tickets[snapshot[i].id]
  }

  /** Every command of every gateway may come between any two of a replica's; only replicas claim. */
  ghost predicate Enabled(m: Matcher, s: System, d: Deed) {
    match d
    case Client(a) => !a.ClaimScript? && (a.StartEnqueue? ==> R.GoodTicket(a.ticket))
    case Range(w, mode, now, ids) =>
      WorkerOf(s, w).Resting? && forall id :: id in ids <==> (mode, id) in s.store.pending
    case Fetch(w, snapshot) => WorkerOf(s, w).Listed? && Fetched(s.store, WorkerOf(s, w).ids, snapshot)
    case TryClaim(w, g) => WorkerOf(s, w).Looking? && R.Selects(m, WorkerOf(s, w).now, WorkerOf(s, w).snapshot, g)
    case Drop(w) => true
  }

  ghost function Next(m: Matcher, s: System, d: Deed): System
    requires Enabled(m, s, d)
  {
    match d
    case Client(a) => s.(store := Do(s.store, a))
    case Range(w, mode, now, ids) => s.(workers := s.workers[w := Listed(mode, now, ids)])
    case Fetch(w, snapshot) =>
      var l := WorkerOf(s, w);
      s.(workers := s.workers[w := Looking(l.mode, l.now, l.ids, snapshot)])
    case TryClaim(w, g) =>
      var l := WorkerOf(s, w);
      if AllPending(s.store, l.mode, R.Ids(g)) then
        System(Do(s.store, ClaimScript(l.mode, R.Ids(g))), s.workers[w := Resting],
               s.formed + [R.Formed(l.now, l.snapshot, g)])
      else s.(workers := s.workers[w := Resting])
    case Drop(w) => s.(workers := s.workers[w := Resting])
  }

  ghost function Run(m: Matcher, deeds: seq<Deed>): Option<System> {
    if deeds == [] then Some(System(EMPTY_STORE, map[], []))
    else
      var before := Run(m, deeds[..|deeds| - 1]);
      var d := deeds[|deeds| - 1];
      if before.Some? && Enabled(m, before.value, d) then Some(Next(m, before.value, d)) else None
  }

  ghost predicate GoodStore(s: Store) { forall id :: id in s.tickets ==> R.GoodTicket(s.tickets[id]) }

  ghost predicate AllLeft(s: Store, g: seq<Ticket>) { forall i :: 0 <= i < |g| ==> Left(s, g[i].id) }

  ghost predicate FormedOk(m: Matcher, s: Store, formed: seq<R.Formed>) {
    forall i :: 0 <= i < |formed| ==>
                  IsMatch(m, formed[i].now, formed[i].snapshot, formed[i].group) && AllLeft(s, formed[i].group)
  }

  /** What a replica looks at is a pool, of tickets its ZRANGE listed. */
  ghost predicate WorkersOk(s: System) {
    forall w :: w in s.workers && s.workers[w].Looking? ==>
                  Pool(s.workers[w].snapshot) && forall t :: t in s.workers[w].snapshot ==> t.id in s.workers[w].ids
  }

  ghost predicate Safe(m: Matcher, s: System) {
    AddsOnce(s.store) && GoodStore(s.store) && WorkersOk(s) && FormedOk(m, s.store, s.formed) && R.Apart(s.formed)
  }

  lemma ActKeepsGood(s: Store, a: Act)
    requires GoodStore(s) && (a.StartEnqueue? ==> R.GoodTicket(a.ticket))
    ensures GoodStore(Do(s, a))
  {}

  lemma ActKeepsFormed(m: Matcher, s: Store, a: Act, formed: seq<R.Formed>)
    requires AddsOnce(s) && FormedOk(m, s, formed)
    ensures FormedOk(m, Do(s, a), formed)
  {
    forall i | 0 <= i < |formed| ensures AllLeft(Do(s, a), formed[i].group) {
      var g := formed[i].group;
      forall k | 0 <= k < |g| ensures Left(Do(s, a), g[k].id) {
        assert AllLeft(s, g);
        DoNeverReturns(s, a, g[k].id);
      }
    }
  }

  /** Tickets never change once stored, so what was fetched is a pool whenever it was fetched. */
  lemma FetchedIsPool(s: Store, ids: seq<UUID>, snapshot: seq<Ticket>)
    requires GoodStore(s) && Fetched(s, ids, snapshot)
    ensures Pool(snapshot)
  {}

  lemma ClaimedLeave(s: Store, mode: string, g: seq<Ticket>)
    requires AddsOnce(s) && AllPending(s, mode, R.Ids(g))
    ensures AllLeft(Do(s, ClaimScript(mode, R.Ids(g))), g)
  {
    forall i | 0 <= i < |g| ensures Left(Do(s, ClaimScript(mode, R.Ids(g))), g[i].id) {
      assert R.Ids(g)[i] == g[i].id;
      ClaimTakes(s, mode, R.Ids(g), g[i].id);
    }
  }

  lemma LeftIsApart(s: Store, mode: string, h: seq<Ticket>, g: seq<Ticket>)
    requires AllLeft(s, h) && AllPending(s, mode, R.Ids(g))
    ensures !R.SharesTicket(h, g)
  {
    forall a, b | 0 <= a < |h| && 0 <= b < |g| ensures h[a].id != g[b].id {
      assert Left(s, h[a].id) && R.Ids(g)[b] == g[b].id;
      assert (mode, R.Ids(g)[b]) in s.pending;
    }
  }

  lemma FormedGrows(m: Matcher, s: Store, formed: seq<R.Formed>, f: R.Formed)
    requires FormedOk(m, s, formed) && R.Apart(formed)
    requires IsMatch(m, f.now, f.snapshot, f.group) && AllLeft(s, f.group)
    requires forall i :: 0 <= i < |formed| ==> !R.SharesTicket(formed[i].group, f.group)
    ensures FormedOk(m, s, formed + [f]) && R.Apart(formed + [f])
  {}

  lemma ClaimKeepsSafe(m: Matcher, s: System, w: nat, g: seq<Ticket>)
    requires Safe(m, s) && Enabled(m, s, TryClaim(w, g)) && AllPending(s.store, WorkerOf(s, w).mode, R.Ids(g))
    ensures Safe(m, Next(m, s, TryClaim(w, g)))
  {
    var l := WorkerOf(s, w);
    var a := ClaimScript(l.mode, R.Ids(g));
    R.SelectionIsMatch(m, l.now, l.snapshot, g);
    DoAddsOnce(s.store, a);
    ActKeepsGood(s.store, a);
    ActKeepsFormed(m, s.store, a, s.formed);
    ClaimedLeave(s.store, l.mode, g);
    forall i | 0 <= i < |s.formed| ensures !R.SharesTicket(s.formed[i].group, g) {
      LeftIsApart(s.store, l.mode, s.formed[i].group, g);
    }
    FormedGrows(m, Do(s.store, a), s.formed, R.Formed(l.now, l.snapshot, g));
  }

  lemma StepKeepsSafe(m: Matcher, s: System, d: Deed)
    requires Safe(m, s) && Enabled(m, s, d)
    ensures Safe(m, Next(m, s, d))
  {
    match d
    case Client(a) =>
      DoAddsOnce(s.store, a);
      ActKeepsGood(s.store, a);
      ActKeepsFormed(m, s.store, a, s.formed);
    case Fetch(w, snapshot) => FetchedIsPool(s.store, WorkerOf(s, w).ids, snapshot);
    case TryClaim(w, g) =>
      if AllPending(s.store, WorkerOf(s, w).mode, R.Ids(g)) {
        ClaimKeepsSafe(m, s, w, g);
      }
    case Range(_, _, _, _) =>
    case Drop(_) =>
  }

  /**
   * In every run of every number of replicas on the shared queue, each group ever claimed is a match of the tickets
   * its replica fetched, all of them listed by its ZRANGE; its tickets have left every pending set; and no two
   * groups share a ticket.
   */
  lemma {:induction false} EveryRunIsSafe(m: Matcher, deeds: seq<Deed>)
    requires Run(m, deeds).Some?
    ensures Safe(m, Run(m, deeds).value)
  {
    if deeds != [] {
      EveryRunIsSafe(m, deeds[..|deeds| - 1]);
      StepKeepsSafe(m, Run(m, deeds[..|deeds| - 1]).value, deeds[|deeds| - 1]);
    }
  }

  /** And the tickets taken are exactly groups times players per match. */
  lemma EveryRunConserves(m: Matcher, deeds: seq<Deed>)
    requires Run(m, deeds).Some?
    ensures var s := Run(m, deeds).value; |R.ClaimedIds(s.formed)| == |s.formed| * m.playersPerMatch
  {
    EveryRunIsSafe(m, deeds);
    var s := Run(m, deeds).value;
    forall i | 0 <= i < |s.formed|
      ensures |s.formed[i].group| == m.playersPerMatch && DistinctIds(s.formed[i].group)
    {
      assert IsMatch(m, s.formed[i].now, s.formed[i].snapshot, s.formed[i].group);
    }
    R.ClaimsCount(m.playersPerMatch, s.formed);
  }

  /** A selection whose tickets are all still pending in its mode is always formed; any other is dropped. */
  lemma ClaimFormsIffPending(m: Matcher, s: System, w: nat, g: seq<Ticket>)
    requires Enabled(m, s, TryClaim(w, g))
    ensures var s', l := Next(m, s, TryClaim(w, g)), WorkerOf(s, w);
            if forall i :: 0 <= i < |g| ==> (l.mode, g[i].id) in s.store.pending then
              && s'.formed == s.formed + [R.Formed(l.now, l.snapshot, g)]
              && forall i :: 0 <= i < |g| ==> (l.mode, g[i].id) !in s'.store.pending
            else s'.formed == s.formed && s'.store == s.store
  {
    var l, ids := WorkerOf(s, w), R.Ids(g);
    assert forall i :: 0 <= i < |g| ==> ids[i] == g[i].id;
    assert AllPending(s.store, l.mode, ids) <==> forall i :: 0 <= i < |g| ==> (l.mode, g[i].id) in s.store.pending;
  }

  /** A ZRANGE and the fetches for it lead to looking at just the tickets fetched. */
  lemma ReadIsLookedAt(m: Matcher, s: System, w: nat, mode: string, now: Time, ids: seq<UUID>, snapshot: seq<Ticket>,
                       g: seq<Ticket>)
    requires Enabled(m, s, Range(w, mode, now, ids)) && Fetched(s.store, ids, snapshot)
    requires R.Selects(m, now, snapshot, g)
    ensures var listed := Next(m, s, Range(w, mode, now, ids));
            && listed.store == s.store && Enabled(m, listed, Fetch(w, snapshot))
            && Enabled(m, Next(m, listed, Fetch(w, snapshot)), TryClaim(w, g))
            && WorkerOf(Next(m, listed, Fetch(w, snapshot)), w).mode == mode
  {}
}
