/** The room daemon's registry: concurrent FindOrCreate calls, and matches that end at any time. */
module RoomManager {
  import opened Base

  /** A created plugin, and the match instance built on it. */
  type Instance = nat

  /** Where a FindOrCreate call stands between its steps. */
  datatype Call =
    | Making(id: UUID)
    | Initing(id: UUID, plugin: Instance)
    | Rechecking(id: UUID, plugin: Instance)
    | Aborting(id: UUID, plugin: Instance)
    | Discarding(id: UUID, plugin: Instance, existing: Instance)
    | Returned(id: UUID, result: Option<Instance>)
  {
    predicate Holds(n: Instance) { (Initing? || Rechecking? || Aborting? || Discarding?) && plugin == n }
  }

  /** Where a match's goroutine stands. Ended: Run has returned, so the plugin is closed. */
  datatype Runner = Running(id: UUID) | Ended(id: UUID) | Cleaned(id: UUID) | Finished(id: UUID)

  datatype Registry = Registry(matches: map<UUID, Instance>, gauge: int)

  // ---- the locked sections ----

  /** The second locked section: the first arrival registers, a later one finds the winner. */
  function Register(r: Registry, id: UUID, n: Instance): (Registry, Option<Instance>) {
    if id in r.matches then (r, Some(r.matches[id])) else (Registry(r.matches[id := n], r.gauge + 1), None)
  }

  /** cleanup: only the instance itself may unregister its id. */
  function Unregister(r: Registry, id: UUID, self: Instance): Registry {
    if id in r.matches && r.matches[id] == self then r.(matches := r.matches - {id}) else r
  }

  function Lookup(r: Registry, id: UUID): Option<Instance> { if id in r.matches then Some(r.matches[id]) else None }

  class Manager {
    var matches: map<UUID, Instance>
    var gauge: int

    function State(): Registry
      reads this
    {
      Registry(matches, gauge)
    }

    constructor ()
      ensures State() == Registry(map[], 0)
    {
      matches, gauge := map[], 0;
    }

    method Get(id: UUID) returns (found: Option<Instance>)
      ensures found == Lookup(State(), id)
    {
      if id in matches {
        return Some(matches[id]);
      }
      return None;
    }

    method TryRegister(id: UUID, n: Instance) returns (existing: Option<Instance>)
      modifies this
      ensures (State(), existing) == Register(old(State()), id, n)
      ensures id in matches && matches[id] == if existing.Some? then existing.value else n
    {
      if id in matches {
        return Some(matches[id]);
      }
      matches := matches[id := n];
      gauge := gauge + 1;
      return None;
    }

    method Cleanup(id: UUID, self: Instance)
      modifies this`matches
      ensures State() == Unregister(old(State()), id, self)
      ensures forall other :: other in old(matches) && old(matches[other]) != self ==>
                                other in matches && matches[other] == old(matches[other])
    {
      if id in matches && matches[id] == self {
        matches := matches - {id};
      }
    }
  }

  // ---- every interleaving ----

  /** closes[n] is how often plugin n was closed; plugins are numbered in order of creation. */
  datatype System = System(reg: Registry, calls: map<nat, Call>, runners: map<Instance, Runner>, closes: seq<nat>)

  datatype Act =
    | Enter(c: nat, id: UUID)
    | Create(c: nat, ok: bool)
    | Init(c: nat, ok: bool)
    | Recheck(c: nat)
    | Discard(c: nat)
    | End(n: Instance)
    | Clean(n: Instance)
    | Decrement(n: Instance)

  ghost predicate Enabled(s: System, a: Act) {
    match a
    case Enter(c, _) => c !in s.calls
    case Create(c, _) => c in s.calls && s.calls[c].Making?
    case Init(c, _) => c in s.calls && s.calls[c].Initing?
    case Recheck(c) => c in s.calls && s.calls[c].Rechecking?
    case Discard(c) => c in s.calls && (s.calls[c].Aborting? || s.calls[c].Discarding?)
    case End(n) => n in s.runners && s.runners[n].Running?
    case Clean(n) => n in s.runners && s.runners[n].Ended?
    case Decrement(n) => n in s.runners && s.runners[n].Cleaned?
  }

  function Closed(closes: seq<nat>, n: Instance): seq<nat> {
    if n < |closes| then closes[n := closes[n] + 1] else closes
  }

  function Do(s: System, a: Act): System
    requires Enabled(s, a)
  {
    match a
    case Enter(c, id) =>
      s.(calls := s.calls[c := if Lookup(s.reg, id).Some? then Returned(id, Lookup(s.reg, id)) else Making(id)])
    case Create(c, ok) =>
      if ok then s.(calls := s.calls[c := Initing(s.calls[c].id, |s.closes|)], closes := s.closes + [0])
      else s.(calls := s.calls[c := Returned(s.calls[c].id, None)])
    case Init(c, ok) =>
      var id, n := s.calls[c].id, s.calls[c].plugin;
      s.(calls := s.calls[c := if ok then Rechecking(id, n) else Aborting(id, n)])
    case Recheck(c) =>
      var id, n := s.calls[c].id, s.calls[c].plugin;
      var (reg, existing) := Register(s.reg, id, n);
      if existing.Some? then s.(calls := s.calls[c := Discarding(id, n, existing.value)])
      else System(reg, s.calls[c := Returned(id, Some(n))], s.runners[n := Running(id)], s.closes)
    case Discard(c) =>
      var call := s.calls[c];
      s.(calls := s.calls[c := Returned(call.id, if call.Discarding? then Some(call.existing) else None)],
         closes := Closed(s.closes, call.plugin))
    case End(n) => s.(runners := s.runners[n := Ended(s.runners[n].id)], closes := Closed(s.closes, n))
    case Clean(n) =>
      s.(reg := Unregister(s.reg, s.runners[n].id, n), runners := s.runners[n := Cleaned(s.runners[n].id)])
    case Decrement(n) =>
      s.(reg := s.reg.(gauge := s.reg.gauge - 1), runners := s.runners[n := Finished(s.runners[n].id)])
  }

  ghost function Run(acts: seq<Act>): Option<System> {
    if acts == [] then Some(System(Registry(map[], 0), map[], map[], []))
    else
      var before := Run(acts[..|acts| - 1]);
      var a := acts[|acts| - 1];
      if before.Some? && Enabled(before.value, a) then Some(Do(before.value, a)) else None
  }

  ghost predicate HeldByCall(s: System, n: Instance) { exists c :: c in s.calls && s.calls[c].Holds(n) }

  ghost predicate OwnedByMatch(s: System, n: Instance) { n in s.runners && s.runners[n].Running? }

  /** Exactly one of: under construction, owned by a running match, closed exactly once. */
  ghost predicate PluginOk(s: System, n: Instance)
    requires n < |s.closes|
  {
    && (HeldByCall(s, n) ==> s.closes[n] == 0 && n !in s.runners)
    && (OwnedByMatch(s, n) ==> s.closes[n] == 0)
    && (!HeldByCall(s, n) && !OwnedByMatch(s, n) ==> s.closes[n] == 1)
  }

  ghost predicate PluginsOk(s: System) {
    && (forall n :: 0 <= n < |s.closes| ==> PluginOk(s, n))
    && (forall c, n: Instance :: c in s.calls && s.calls[c].Holds(n) ==> n < |s.closes|)
    && (forall n :: n in s.runners ==> n < |s.closes|)
    && (forall c, d, n: Instance ::
          c in s.calls && d in s.calls && s.calls[c].Holds(n) && s.calls[d].Holds(n) ==> c == d)
  }

  ghost predicate Live(s: System, n: Instance, id: UUID) {
    n in s.runners && (s.runners[n] == Running(id) || s.runners[n] == Ended(id))
  }

  /** The registered matches are exactly the instances whose goroutine has not cleaned up. */
  ghost predicate RegistryOk(s: System) {
    && (forall id :: id in s.reg.matches ==> Live(s, s.reg.matches[id], id))
    && (forall n: Instance, id: UUID :: Live(s, n, id) ==> id in s.reg.matches && s.reg.matches[id] == n)
  }

  ghost function BetweenCleanupAndDecrement(s: System): set<Instance> {
    set n | n in s.runners && s.runners[n].Cleaned?
  }

  ghost predicate GaugeOk(s: System) {
    s.reg.gauge == |s.reg.matches| + |BetweenCleanupAndDecrement(s)|
  }

  lemma PluginsPreserved(s: System, a: Act)
    requires PluginsOk(s) && Enabled(s, a)
    ensures PluginsOk(Do(s, a))
  {
    var s' := Do(s, a);
    forall n | 0 <= n < |s'.closes| ensures PluginOk(s', n) {
      if n < |s.closes| {
        assert PluginOk(s, n);
        HoldersAfter(s, a, n);
      } else {
        assert s'.calls[a.c].Holds(n);
      }
    }
    forall c, n: Instance | c in s'.calls && s'.calls[c].Holds(n)
      ensures n < |s'.closes| && (n < |s.closes| ==> c in s.calls && s.calls[c].Holds(n))
    {
      if c in s.calls && s.calls[c].Holds(n) {
        assert n < |s.closes|;
      }
    }
    forall n | n in s'.runners ensures n < |s'.closes| {
      if n !in s.runners {
        assert s.calls[a.c].Holds(n);
      }
    }
  }

  /** Who holds plugin n after a step. */
  lemma HoldersAfter(s: System, a: Act, n: Instance)
    requires PluginsOk(s) && Enabled(s, a) && n < |s.closes|
    ensures var released := (a.Recheck? || a.Discard?) && s.calls[a.c].Holds(n) && Do(s, a).calls[a.c].Returned?;
            HeldByCall(Do(s, a), n) <==> HeldByCall(s, n) && !released
  {
    var s' := Do(s, a);
    if HeldByCall(s, n) {
      var c :| c in s.calls && s.calls[c].Holds(n);
      assert c in s'.calls;
      if s'.calls[c].Holds(n) {
        assert HeldByCall(s', n);
      }
    }
    if HeldByCall(s', n) {
      var c :| c in s'.calls && s'.calls[c].Holds(n);
      assert c in s.calls && s.calls[c].Holds(n);
    }
  }

  lemma RegistryPreserved(s: System, a: Act)
    requires PluginsOk(s) && RegistryOk(s) && Enabled(s, a)
    ensures RegistryOk(Do(s, a))
  {
    var s' := Do(s, a);
    if a.Recheck? {
      assert s.calls[a.c].Holds(s.calls[a.c].plugin);
      assert HeldByCall(s, s.calls[a.c].plugin);
      assert PluginOk(s, s.calls[a.c].plugin);
    }
    if a.Clean? {
      CleanupFindsItself(s, a.n);
    }
    forall n: Instance, id: UUID | Live(s', n, id) ensures id in s'.reg.matches && s'.reg.matches[id] == n {
      if Live(s, n, id) {
        assert id in s.reg.matches && s.reg.matches[id] == n;
      } else {
        assert a.Recheck? && n == s.calls[a.c].plugin;
      }
    }
    forall id | id in s'.reg.matches ensures Live(s', s'.reg.matches[id], id) {
      assert id in s.reg.matches ==> Live(s, s.reg.matches[id], id);
    }
  }

  /** A match's cleanup always finds itself registered, so its guard never spares a stale entry. */
  lemma CleanupFindsItself(s: System, n: Instance)
    requires RegistryOk(s) && Enabled(s, Clean(n))
    ensures s.runners[n].id in s.reg.matches && s.reg.matches[s.runners[n].id] == n
  {
    assert Live(s, n, s.runners[n].id);
  }

  lemma GaugeAfterClean(s: System, n: Instance)
    requires RegistryOk(s) && GaugeOk(s) && Enabled(s, Clean(n))
    ensures GaugeOk(Do(s, Clean(n)))
  {
    var s', id := Do(s, Clean(n)), s.runners[n].id;
    CleanupFindsItself(s, n);
    assert BetweenCleanupAndDecrement(s') == BetweenCleanupAndDecrement(s) + {n};
    assert s.reg.matches.Keys == s'.reg.matches.Keys + {id};
    assert |s.reg.matches.Keys| == |s.reg.matches| && |s'.reg.matches.Keys| == |s'.reg.matches|;
  }

  lemma GaugeAfterDecrement(s: System, n: Instance)
    requires GaugeOk(s) && Enabled(s, Decrement(n))
    ensures GaugeOk(Do(s, Decrement(n)))
  {
    assert BetweenCleanupAndDecrement(s) == BetweenCleanupAndDecrement(Do(s, Decrement(n))) + {n};
  }

  lemma GaugeAfterRecheck(s: System, c: nat)
    requires PluginsOk(s) && GaugeOk(s) && Enabled(s, Recheck(c))
    ensures GaugeOk(Do(s, Recheck(c)))
  {
    var n := s.calls[c].plugin;
    assert s.calls[c].Holds(n) && HeldByCall(s, n) && PluginOk(s, n);
    assert BetweenCleanupAndDecrement(s) == BetweenCleanupAndDecrement(Do(s, Recheck(c)));
  }

  lemma GaugePreserved(s: System, a: Act)
    requires PluginsOk(s) && RegistryOk(s) && GaugeOk(s) && Enabled(s, a)
    ensures GaugeOk(Do(s, a))
  {
    if a.Clean? {
      GaugeAfterClean(s, a.n);
    } else if a.Decrement? {
      GaugeAfterDecrement(s, a.n);
    } else if a.Recheck? {
      GaugeAfterRecheck(s, a.c);
    } else {
      assert BetweenCleanupAndDecrement(s) == BetweenCleanupAndDecrement(Do(s, a));
    }
  }

  /**
   * Over every interleaving of calls and endings: every plugin is exactly one of under construction, owned by a
   * running match, or closed once; an id has at most one live match, the registered one; and the gauge counts
   * the registered matches plus those between cleanup and decrement.
   */
  lemma {:induction false} EveryRunIsOrderly(acts: seq<Act>)
    requires Run(acts).Some?
    ensures PluginsOk(Run(acts).value) && RegistryOk(Run(acts).value) && GaugeOk(Run(acts).value)
  {
    if acts != [] {
      var s, a := Run(acts[..|acts| - 1]).value, acts[|acts| - 1];
      EveryRunIsOrderly(acts[..|acts| - 1]);
      PluginsPreserved(s, a);
      RegistryPreserved(s, a);
      GaugePreserved(s, a);
    }
  }

  /** When every call has returned and every goroutine finished, all plugins are closed once and the gauge is zero. */
  lemma QuietDaemonLeaksNothing(acts: seq<Act>)
    requires Run(acts).Some?
    requires forall c :: c in Run(acts).value.calls ==> Run(acts).value.calls[c].Returned?
    requires forall n :: n in Run(acts).value.runners ==> Run(acts).value.runners[n].Finished?
    ensures Run(acts).value.reg == Registry(map[], 0)
    ensures forall n :: 0 <= n < |Run(acts).value.closes| ==> Run(acts).value.closes[n] == 1
  {
    var s := Run(acts).value;
    EveryRunIsOrderly(acts);
    forall n | 0 <= n < |s.closes| ensures s.closes[n] == 1 {
      assert PluginOk(s, n);
    }
    forall id ensures id !in s.reg.matches {
      assert id in s.reg.matches ==> Live(s, s.reg.matches[id], id);
    }
    assert s.reg.matches == map[];
    assert BetweenCleanupAndDecrement(s) == {};
  }

  // ---- what callers get ----

  /** In every run, looking an id up finds a match exactly when that match runs, or has ended and not cleaned up. */
  lemma LookupFindsTheLiveMatch(acts: seq<Act>, id: UUID, n: Instance)
    requires Run(acts).Some?
    ensures Lookup(Run(acts).value.reg, id) == Some(n) <==> Live(Run(acts).value, n, id)
  {
    EveryRunIsOrderly(acts);
    var s := Run(acts).value;
    assert id in s.reg.matches ==> Live(s, s.reg.matches[id], id);
  }

  /** A call that knows its match knows one that was started for its id. */
  ghost predicate CallOk(s: System, call: Call) {
    match call
    case Returned(id, Some(n)) => n in s.runners && s.runners[n].id == id
    case Discarding(id, _, n) => n in s.runners && s.runners[n].id == id
    case _ => true
  }

  lemma RunnersKeepTheirId(s: System, a: Act, n: Instance)
    requires PluginsOk(s) && Enabled(s, a) && n in s.runners
    ensures n in Do(s, a).runners && Do(s, a).runners[n].id == s.runners[n].id
  {
    if a.Recheck? {
      assert s.calls[a.c].Holds(s.calls[a.c].plugin);
      assert HeldByCall(s, s.calls[a.c].plugin) && PluginOk(s, s.calls[a.c].plugin);
    }
  }

  lemma CallsStayOk(s: System, a: Act)
    requires PluginsOk(s) && RegistryOk(s) && Enabled(s, a) && forall c :: c in s.calls ==> CallOk(s, s.calls[c])
    ensures forall c :: c in Do(s, a).calls ==> CallOk(Do(s, a), Do(s, a).calls[c])
  {
    var s' := Do(s, a);
    forall c | c in s'.calls ensures CallOk(s', s'.calls[c]) {
      forall n | n in s.runners ensures n in s'.runners && s'.runners[n].id == s.runners[n].id {
        RunnersKeepTheirId(s, a, n);
      }
      if c in s.calls {
        assert CallOk(s, s.calls[c]);
      }
      var id := s'.calls[c].id;
      assert id in s.reg.matches ==> Live(s, s.reg.matches[id], id);
    }
  }

  lemma {:induction false} CallsAreOk(acts: seq<Act>)
    requires Run(acts).Some?
    ensures forall c :: c in Run(acts).value.calls ==> CallOk(Run(acts).value, Run(acts).value.calls[c])
  {
    if acts != [] {
      CallsAreOk(acts[..|acts| - 1]);
      EveryRunIsOrderly(acts[..|acts| - 1]);
      CallsStayOk(Run(acts[..|acts| - 1]).value, acts[|acts| - 1]);
    }
  }

  /** Callers of one id that were given matches which are both still live were given the same one. */
  lemma CallersShareTheMatch(acts: seq<Act>, c: nat, d: nat)
    requires Run(acts).Some? && c in Run(acts).value.calls && d in Run(acts).value.calls
    requires var a, b := Run(acts).value.calls[c], Run(acts).value.calls[d];
             && a.Returned? && b.Returned? && a.result.Some? && b.result.Some? && a.id == b.id
    ensures var s := Run(acts).value; var n, m := s.calls[c].result.value, s.calls[d].result.value;
            && n in s.runners && m in s.runners && s.runners[n].id == s.runners[m].id == s.calls[c].id
            && (Live(s, n, s.calls[c].id) && Live(s, m, s.calls[c].id) ==> n == m)
  {
    CallsAreOk(acts);
    EveryRunIsOrderly(acts);
    var s := Run(acts).value;
    assert CallOk(s, s.calls[c]) && CallOk(s, s.calls[d]);
  }

  // ---- every call gets its match ----

  /** The call's own plugin could not be made, or not initialised. */
  ghost predicate BuildFailed(acts: seq<Act>, c: nat) { Create(c, false) in acts || Init(c, false) in acts }

  /** How a call stands to that. */
  ghost predicate FateOk(call: Call, failed: bool) {
    match call
    case Aborting(_, _) => failed
    case Returned(_, result) => result.None? <==> failed
    case _ => !failed
  }

  lemma FateAfter(s: System, a: Act, c: nat, failed: bool)
    requires Enabled(s, a) && c in Do(s, a).calls
    requires if c in s.calls then FateOk(s.calls[c], failed) else !failed
    ensures FateOk(Do(s, a).calls[c], failed || a == Create(c, false) || a == Init(c, false))
  {
    match a
    case Enter(d, id) => assert d != c ==> Do(s, a).calls[c] == s.calls[c];
    case Create(d, _) => assert d != c ==> Do(s, a).calls[c] == s.calls[c];
    case Init(d, _) => assert d != c ==> Do(s, a).calls[c] == s.calls[c];
    case Recheck(d) => assert d != c ==> Do(s, a).calls[c] == s.calls[c];
    case Discard(d) => assert d != c ==> Do(s, a).calls[c] == s.calls[c];
    case _ => assert Do(s, a).calls == s.calls;
  }

  lemma NoEarlyFailure(s: System, a: Act, c: nat)
    requires Enabled(s, a) && c !in s.calls
    ensures a != Create(c, false) && a != Init(c, false)
    ensures c in Do(s, a).calls ==> a.Enter? && a.c == c
  {}

  lemma {:induction false} FateOfCalls(acts: seq<Act>, c: nat)
    requires Run(acts).Some?
    ensures if c in Run(acts).value.calls then FateOk(Run(acts).value.calls[c], BuildFailed(acts, c))
            else !BuildFailed(acts, c)
  {
    if acts != [] {
      var init, a := acts[..|acts| - 1], acts[|acts| - 1];
      var s := Run(init).value;
      FateOfCalls(init, c);
      assert acts == init + [a];
      assert BuildFailed(acts, c) <==> BuildFailed(init, c) || a == Create(c, false) || a == Init(c, false);
      if c in Do(s, a).calls {
        FateAfter(s, a, c, BuildFailed(init, c));
      } else {
        NoEarlyFailure(s, a, c);
      }
    }
  }

  /** In every run a call that has returned got no match if and only if its own plugin could not be built. */
  lemma ReturnsMatchUnlessBuildFailed(acts: seq<Act>, c: nat)
    requires Run(acts).Some? && c in Run(acts).value.calls && Run(acts).value.calls[c].Returned?
    ensures Run(acts).value.calls[c].result.None? <==> BuildFailed(acts, c)
  {
    FateOfCalls(acts, c);
  }

  /** The call has lost the re-check: it is yet to discard its own plugin, or has returned the winner. */
  ghost predicate LostTo(s: System, c: nat, id: UUID, winner: Instance) {
    c in s.calls && ((s.calls[c].Discarding? && s.calls[c].id == id && s.calls[c].existing == winner)
                     || s.calls[c] == Returned(id, Some(winner)))
  }

  lemma LostStaysLost(s: System, a: Act, c: nat, id: UUID, winner: Instance)
    requires Enabled(s, a) && LostTo(s, c, id, winner)
    ensures LostTo(Do(s, a), c, id, winner)
    ensures a == Discard(c) ==> Do(s, a).calls[c] == Returned(id, Some(winner))
  {
    if !(a.End? || a.Clean? || a.Decrement?) && a.c != c {
      assert Do(s, a).calls[c] == s.calls[c];
    }
  }

  /** A call that finds its id registered when it re-checks returns that match, whatever happens meanwhile. */
  lemma {:induction false} LoserGetsTheWinner(acts: seq<Act>, c: nat, winner: Instance, later: seq<Act>)
    requires Run(acts).Some? && Enabled(Run(acts).value, Recheck(c))
    requires Lookup(Run(acts).value.reg, Run(acts).value.calls[c].id) == Some(winner)
    requires Run(acts + [Recheck(c)] + later).Some?
    ensures LostTo(Run(acts + [Recheck(c)] + later).value, c, Run(acts).value.calls[c].id, winner)
    decreases |later|
  {
    var lost := acts + [Recheck(c)];
    if later == [] {
      assert lost + later == lost && lost[..|acts|] == acts;
    } else {
      var init := later[..|later| - 1];
      assert (lost + later)[..|lost + later| - 1] == lost + init;
      LoserGetsTheWinner(acts, c, winner, init);
      LostStaysLost(Run(lost + init).value, later[|later| - 1], c, Run(acts).value.calls[c].id, winner);
    }
  }

  /** A call that finds its id free registers, starts and returns its own match, and is counted. */
  lemma WinnerIsStarted(s: System, c: nat)
    requires PluginsOk(s) && RegistryOk(s) && Enabled(s, Recheck(c)) && Lookup(s.reg, s.calls[c].id).None?
    ensures var s', id, n := Do(s, Recheck(c)), s.calls[c].id, s.calls[c].plugin;
            && s'.calls[c] == Returned(id, Some(n)) && Live(s', n, id) && Lookup(s'.reg, id) == Some(n)
            && s'.reg.gauge == s.reg.gauge + 1
            && forall other :: other != id ==> Lookup(s'.reg, other) == Lookup(s.reg, other)
  {}

  /** A call for a registered id returns its match at once; for any other it builds a plugin of its own. */
  lemma EnterFindsOrBuilds(s: System, c: nat, id: UUID)
    requires Enabled(s, Enter(c, id))
    ensures var call := Do(s, Enter(c, id)).calls[c];
            match Lookup(s.reg, id)
            case Some(n) => call == Returned(id, Some(n))
            case None => call == Making(id) && Do(s, Enter(c, id)).reg == s.reg
  {}

  /** A plugin that is made is the call's own and new, and goes on to the re-check when it initialises. */
  lemma BuiltPluginIsChecked(s: System, c: nat)
    requires Enabled(s, Create(c, true))
    ensures var made := Do(s, Create(c, true));
            && made.calls[c] == Initing(s.calls[c].id, |s.closes|) && |made.closes| == |s.closes| + 1
            && Enabled(made, Init(c, true))
            && Do(made, Init(c, true)).calls[c] == Rechecking(s.calls[c].id, |s.closes|)
  {}

  /** An ending match closes its plugin, then unregisters, then is no longer counted. */
  lemma EndingUnregisters(s: System, n: Instance, id: UUID)
    requires PluginsOk(s) && RegistryOk(s) && n in s.runners && s.runners[n] == Running(id)
    ensures var ended := Do(s, End(n));
            && ended.closes[n] == 1 && Enabled(ended, Clean(n))
            && Lookup(Do(ended, Clean(n)).reg, id).None? && Enabled(Do(ended, Clean(n)), Decrement(n))
            && Do(Do(ended, Clean(n)), Decrement(n)).reg.gauge == s.reg.gauge - 1
  {
    assert PluginOk(s, n) && OwnedByMatch(s, n);
    assert Live(s, n, id);
  }
}
