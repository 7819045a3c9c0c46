/** Login find-or-create, linking and refresh rotation, under the unique indexes of the database. */
module Auth {
  import opened Base

  /** A (provider, provider_uid) pair; a login without a device mints one nobody else can present. */
  datatype Key = Known(provider: string, uid: string) | Minted(serial: nat)

  type Token = nat

  /** root is the token of the login that the row goes back to. */
  datatype TokenRow = TokenRow(player: UUID, revoked: bool, root: Token)

  datatype Db = Db(players: set<UUID>, identities: map<Key, UUID>, tokens: map<Token, TokenRow>)

  datatype Error = AlreadyLinked | TokenInvalid | NotFound | Other

  // ---- the transactions ----

  /** Commit of a create: the unique index on identities decides, and a violation rolls the player back too. */
  function CreateTx(db: Db, key: Key, player: UUID): (Db, bool) {
    if key in db.identities then (db, false)
    else (db.(players := db.players + {player}, identities := db.identities[key := player]), true)
  }

  /** Commit of a link: the player must exist, and the unique index decides. */
  function LinkTx(db: Db, key: Key, player: UUID): (Db, Option<Error>) {
    if key in db.identities then (db, Some(AlreadyLinked))
    else (db.(identities := db.identities[key := player]), None)
  }

  /** Revocation touches the row only while it is not revoked; the loser of a race touches nothing. */
  function RotateTx(db: Db, t: Token, next: Token): (Db, bool)
    requires t in db.tokens
  {
    if db.tokens[t].revoked then (db, false)
    else (db.(tokens := db.tokens[t := db.tokens[t].(revoked := true)][next := db.tokens[t]]), true)
  }

  /** The rows a logout's statement sees when it starts: the player's live tokens. */
  ghost function LiveTokens(db: Db, player: UUID): set<Token> {
    set t | t in db.tokens && db.tokens[t].player == player && !db.tokens[t].revoked
  }

  function Revoke(tokens: map<Token, TokenRow>, rows: set<Token>): map<Token, TokenRow> {
    map t | t in tokens :: if t in rows then tokens[t].(revoked := true) else tokens[t]
  }

  class Store {
    var players: set<UUID>
    var identities: map<Key, UUID>
    var tokens: map<Token, TokenRow>

    function State(): Db
      reads this
    {
      Db(players, identities, tokens)
    }

    constructor ()
      ensures State() == Db({}, map[], map[])
    {
      players, identities, tokens := {}, map[], map[];
    }

    method SaveNew(key: Key, player: UUID) returns (ok: bool)
      modifies this
      ensures (State(), ok) == CreateTx(old(State()), key, player)
    {
      if key in identities {
        return false;
      }
      players, identities := players + {player}, identities[key := player];
      return true;
    }

    /** One undisturbed find-or-create transaction. */
    method FindOrCreateByIdentity(key: Key, candidate: UUID) returns (player: UUID)
      requires candidate !in players && DbOk(State())
      modifies this
      ensures DbOk(State()) && key in identities && identities[key] == player && player in players
      ensures key in old(identities) ==> State() == old(State())
      ensures key !in old(identities) ==> player == candidate && players == old(players) + {candidate}
      ensures forall k :: k in old(identities) ==> k in identities && identities[k] == old(identities[k])
    {
      if key in identities {
        return identities[key];
      }
      CreateKeepsDb(State(), key, candidate);
      var ok := SaveNew(key, candidate);
      return candidate;
    }

    method Rotate(t: Token, next: Token) returns (ok: bool)
      requires t in tokens
      modifies this`tokens
      ensures (State(), ok) == RotateTx(old(State()), t, next)
    {
      if tokens[t].revoked {
        return false;
      }
      tokens := tokens[t := tokens[t].(revoked := true)][next := tokens[t]];
      return true;
    }
  }

  /** Identities point to stored players, every stored player owns one, and tokens belong to stored players. */
  ghost predicate DbOk(db: Db) {
    && (forall k :: k in db.identities ==> db.identities[k] in db.players)
    && (forall p :: p in db.players ==> exists k :: k in db.identities && db.identities[k] == p)
    && (forall t :: t in db.tokens ==> db.tokens[t].player in db.players)
  }

  lemma CreateKeepsDb(db: Db, key: Key, player: UUID)
    requires DbOk(db) && player !in db.players
    ensures DbOk(CreateTx(db, key, player).0)
  {
    var db' := CreateTx(db, key, player).0;
    forall p | p in db'.players ensures exists k :: k in db'.identities && db'.identities[k] == p {
      if p in db.players {
        var k :| k in db.identities && db.identities[k] == p;
        assert k in db'.identities && db'.identities[k] == p;
      } else {
        assert db'.identities[key] == p;
      }
    }
  }

  lemma LinkKeepsDb(db: Db, key: Key, player: UUID)
    requires DbOk(db) && player in db.players
    ensures DbOk(LinkTx(db, key, player).0)
  {
    var db' := LinkTx(db, key, player).0;
    forall p | p in db'.players ensures exists k :: k in db'.identities && db'.identities[k] == p {
      var k :| k in db.identities && db.identities[k] == p;
      assert k in db'.identities && db'.identities[k] == p;
    }
  }

  // ---- every interleaving ----

  /** Where a request stands between the statements of its transactions. */
  datatype Request =
    | Finding(key: Key, attempt: nat)
    | Creating(key: Key, attempt: nat, player: UUID)
    | LoggedIn(key: Key, player: UUID)
    | Linking(key: Key, player: UUID)
    | Linked(key: Key, player: UUID)
    | Rotating(token: Token)
    | Replacing(token: Token, next: Token)
    | Refreshed(token: Token, player: UUID)
    | LoggingOut(player: UUID, rows: set<Token>)
    | LoggedOut(player: UUID, rows: set<Token>)
    | LoginFailed(error: Error)
    | OtherFailed(error: Error)
  {
    /** Inside a transaction, which may still be rolled back. */
    predicate Open() { Finding? || Creating? || Linking? || Rotating? || Replacing? || LoggingOut? }
  }

  /** redeemed counts the successful refreshes of each token. */
  datatype System = System(db: Db, requests: map<nat, Request>, redeemed: multiset<Token>)

  datatype Act =
    | Login(r: nat, key: Key)
    | LoginMinted(r: nat, serial: nat, candidate: UUID)
    | Find(r: nat, candidate: UUID)
    | CommitCreate(r: nat)
    | IssueToken(r: nat, token: Token)
    | Link(r: nat, key: Key, player: UUID)
    | CommitLink(r: nat)
    | Refresh(r: nat, token: Token)
    | RevokeOld(r: nat, next: Token)
    | CommitRefresh(r: nat)
    | Logout(r: nat, player: UUID)
    | CommitLogout(r: nat)
    | Fail(r: nat)

  /** A new player id: not stored, and not picked by another request. */
  ghost predicate FreshPlayer(s: System, p: UUID) {
    p !in s.db.players && forall r :: r in s.requests && s.requests[r].Creating? ==> s.requests[r].player != p
  }

  ghost predicate FreshKey(s: System, key: Key) {
    key !in s.db.identities && forall r :: r in s.requests && s.requests[r].Creating? ==> s.requests[r].key != key
  }

  ghost predicate FreshToken(s: System, t: Token) {
    t !in s.db.tokens && forall r :: r in s.requests && s.requests[r].Replacing? ==> s.requests[r].next != t
  }

  /** The row is locked by a refresh that has revoked it and not yet committed. */
  ghost predicate Locked(s: System, t: Token) {
    exists r :: r in s.requests && s.requests[r].Replacing? && s.requests[r].token == t
  }

  ghost predicate Enabled(s: System, a: Act) {
    match a
    case Login(r, key) => r !in s.requests && key.Known?
    case LoginMinted(r, serial, candidate) =>
      r !in s.requests && FreshKey(s, Minted(serial)) && FreshPlayer(s, candidate)
    case Find(r, candidate) => r in s.requests && s.requests[r].Finding? && FreshPlayer(s, candidate)
    case CommitCreate(r) => r in s.requests && s.requests[r].Creating?
    case IssueToken(r, token) => r in s.requests && s.requests[r].LoggedIn? && FreshToken(s, token)
    case Link(r, key, _) => r !in s.requests && key.Known?
    case CommitLink(r) => r in s.requests && s.requests[r].Linking?
    case Refresh(r, _) => r !in s.requests
    case RevokeOld(r, next) =>
      r in s.requests && s.requests[r].Rotating? && FreshToken(s, next) && !Locked(s, s.requests[r].token)
    case CommitRefresh(r) => r in s.requests && s.requests[r].Replacing?
    case Logout(r, _) => r !in s.requests
    case CommitLogout(r) =>
      r in s.requests && s.requests[r].LoggingOut? && forall t :: t in s.requests[r].rows ==> !Locked(s, t)
    case Fail(r) => r in s.requests && s.requests[r].Open()
  }

  function Put(s: System, r: nat, q: Request): System { s.(requests := s.requests[r := q]) }

  ghost function Do(s: System, a: Act): System
    requires Enabled(s, a)
  {
    match a
    case Login(r, key) => Put(s, r, Finding(key, 1))
    case LoginMinted(r, serial, candidate) => Put(s, r, Creating(Minted(serial), 1, candidate))
    case Find(r, candidate) =>
      var q := s.requests[r];
      if q.key in s.db.identities then Put(s, r, LoggedIn(q.key, s.db.identities[q.key]))
      else Put(s, r, Creating(q.key, q.attempt, candidate))
    case CommitCreate(r) =>
      var q := s.requests[r];
      var (db, ok) := CreateTx(s.db, q.key, q.player);
      if ok then Put(s.(db := db), r, LoggedIn(q.key, q.player))
      else if q.attempt == 1 then Put(s, r, Finding(q.key, 2))
      else Put(s, r, LoginFailed(AlreadyLinked))
    case IssueToken(r, token) =>
      s.(db := s.db.(tokens := s.db.tokens[token := TokenRow(s.requests[r].player, false, token)]))
    case Link(r, key, player) =>
      if key in s.db.identities then
        Put(s, r, if s.db.identities[key] == player then Linked(key, player) else OtherFailed(AlreadyLinked))
      else if player !in s.db.players then Put(s, r, OtherFailed(NotFound))
      else Put(s, r, Linking(key, player))
    case CommitLink(r) =>
      var q := s.requests[r];
      var (db, error) := LinkTx(s.db, q.key, q.player);
      Put(s.(db := db), r, if error.None? then Linked(q.key, q.player) else OtherFailed(error.value))
    case Refresh(r, token) =>
      var live := token in s.db.tokens && !s.db.tokens[token].revoked;
      Put(s, r, if live then Rotating(token) else OtherFailed(TokenInvalid))
    case RevokeOld(r, next) =>
      var t := s.requests[r].token;
      Put(s, r, if t in s.db.tokens && !s.db.tokens[t].revoked then Replacing(t, next) else OtherFailed(TokenInvalid))
    case CommitRefresh(r) =>
      var q := s.requests[r];
      if q.token !in s.db.tokens then s
      else
        Put(System(RotateTx(s.db, q.token, q.next).0, s.requests, s.redeemed + multiset{q.token}), r,
            Refreshed(q.token, s.db.tokens[q.token].player))
    case Logout(r, player) => Put(s, r, LoggingOut(player, LiveTokens(s.db, player)))
    case CommitLogout(r) =>
      var q := s.requests[r];
      Put(s.(db := s.db.(tokens := Revoke(s.db.tokens, q.rows))), r, LoggedOut(q.player, q.rows))
    case Fail(r) =>
      Put(s, r, if s.requests[r].Finding? || s.requests[r].Creating? then LoginFailed(Other) else OtherFailed(Other))
  }

  ghost function Run(acts: seq<Act>): Option<System> {
    if acts == [] then Some(System(Db({}, map[], map[]), map[], multiset{}))
    else
      var before := Run(acts[..|acts| - 1]);
      var a := acts[|acts| - 1];
      if before.Some? && Enabled(before.value, a) then Some(Do(before.value, a)) else None
  }

  ghost predicate RequestOk(db: Db, q: Request) {
    match q
    case Finding(key, n) => key.Known? && (n == 1 || (n == 2 && key in db.identities))
    case Creating(key, n, p) => n == 1 && p !in db.players && (key.Minted? ==> key !in db.identities)
    case LoggedIn(key, p) => key in db.identities && db.identities[key] == p
    case Linking(key, p) => key.Known? && p in db.players
    case Linked(key, p) => key in db.identities && db.identities[key] == p
    case Rotating(t) => t in db.tokens
    case Replacing(t, next) => t in db.tokens && !db.tokens[t].revoked && next !in db.tokens
    case Refreshed(t, p) => t in db.tokens && db.tokens[t].player == p && db.tokens[t].revoked
    case LoggingOut(p, rows) => rows <= db.tokens.Keys && forall t :: t in rows ==> db.tokens[t].player == p
    case LoggedOut(p, rows) =>
      rows <= db.tokens.Keys && forall t :: t in rows ==> db.tokens[t].player == p && db.tokens[t].revoked
    case LoginFailed(e) => e != AlreadyLinked
    case OtherFailed(_) => true
  }

  /**
   * Two requests about to create agree on neither the player nor a minted key; two about to replace a token agree
   * on neither token.
   */
  ghost predicate KeptApart(q: Request, o: Request) {
    && (q.Creating? && o.Creating? ==> q.player != o.player && (q.key.Minted? ==> q.key != o.key))
    && (q.Replacing? && o.Replacing? ==> q.token != o.token && q.next != o.next)
  }

  ghost predicate RequestsOk(s: System) {
    && (forall r :: r in s.requests ==> RequestOk(s.db, s.requests[r]))
    && (forall r, o :: r in s.requests && o in s.requests && r != o ==> KeptApart(s.requests[r], s.requests[o]))
  }

  ghost predicate TokensOk(s: System) {
    forall t :: s.redeemed[t] <= 1 && (t in s.redeemed ==> t in s.db.tokens && s.db.tokens[t].revoked)
  }

  ghost predicate Inv(s: System) { DbOk(s.db) && RequestsOk(s) && TokensOk(s) }

  /** What no transaction ever undoes. */
  ghost predicate Extends(db: Db, after: Db) {
    && db.players <= after.players
    && (forall k :: k in db.identities ==> k in after.identities && after.identities[k] == db.identities[k])
    && (forall t :: t in db.tokens ==>
                      t in after.tokens && after.tokens[t].player == db.tokens[t].player
                      && after.tokens[t].root == db.tokens[t].root
                      && (db.tokens[t].revoked ==> after.tokens[t].revoked))
  }

  lemma CreateExtends(db: Db, key: Key, player: UUID)
    ensures Extends(db, CreateTx(db, key, player).0)
  {}

  lemma LinkExtends(db: Db, key: Key, player: UUID)
    ensures Extends(db, LinkTx(db, key, player).0)
  {}

  lemma RotateExtends(db: Db, t: Token, next: Token)
    requires t in db.tokens && next !in db.tokens
    ensures Extends(db, RotateTx(db, t, next).0)
  {}

  lemma RevokeExtends(db: Db, rows: set<Token>)
    ensures Extends(db, db.(tokens := Revoke(db.tokens, rows)))
  {}

  /** An identity's owner never changes, no player disappears, and a revoked token stays revoked. */
  lemma DoExtends(s: System, a: Act)
    requires Inv(s) && Enabled(s, a)
    ensures Extends(s.db, Do(s, a).db)
  {
    match a
    case CommitCreate(r) => CreateExtends(s.db, s.requests[r].key, s.requests[r].player);
    case CommitLink(r) => LinkExtends(s.db, s.requests[r].key, s.requests[r].player);
    case CommitRefresh(r) =>
      assert RequestOk(s.db, s.requests[r]);
      RotateExtends(s.db, s.requests[r].token, s.requests[r].next);
    case CommitLogout(r) => RevokeExtends(s.db, s.requests[r].rows);
    case IssueToken(_, token) => assert token !in s.db.tokens;
    case _ => assert Do(s, a).db == s.db;
  }

  lemma DoKeepsDb(s: System, a: Act)
    requires Inv(s) && Enabled(s, a)
    ensures DbOk(Do(s, a).db)
  {
    match a
    case CommitCreate(r) =>
      assert RequestOk(s.db, s.requests[r]);
      CreateKeepsDb(s.db, s.requests[r].key, s.requests[r].player);
    case CommitLink(r) =>
      assert RequestOk(s.db, s.requests[r]);
      LinkKeepsDb(s.db, s.requests[r].key, s.requests[r].player);
    case IssueToken(r, _) => assert RequestOk(s.db, s.requests[r]);
    case _ =>
  }

  /** The acting request; every other one is left where it was. */
  ghost predicate Acts(a: Act, r: nat) {
    match a
    case Login(x, _) => x == r
    case LoginMinted(x, _, _) => x == r
    case Find(x, _) => x == r
    case CommitCreate(x) => x == r
    case IssueToken(x, _) => x == r
    case Link(x, _, _) => x == r
    case CommitLink(x) => x == r
    case Refresh(x, _) => x == r
    case RevokeOld(x, _) => x == r
    case CommitRefresh(x) => x == r
    case Logout(x, _) => x == r
    case CommitLogout(x) => x == r
    case Fail(x) => x == r
  }

  lemma CreateKeepsRequest(db: Db, key: Key, player: UUID, q: Request)
    requires RequestOk(db, q) && (q.Creating? ==> q.player != player && (q.key.Minted? ==> q.key != key))
    ensures RequestOk(CreateTx(db, key, player).0, q)
  {}

  lemma LinkKeepsRequest(db: Db, key: Key, player: UUID, q: Request)
    requires RequestOk(db, q) && key.Known?
    ensures RequestOk(LinkTx(db, key, player).0, q)
  {}

  lemma IssueKeepsRequest(db: Db, t: Token, row: TokenRow, q: Request)
    requires RequestOk(db, q) && t !in db.tokens && (q.Replacing? ==> q.next != t)
    ensures RequestOk(db.(tokens := db.tokens[t := row]), q)
  {}

  lemma RotateKeepsRequest(db: Db, t: Token, next: Token, q: Request)
    requires RequestOk(db, q) && t in db.tokens && next !in db.tokens
    requires q.Replacing? ==> q.token != t && q.next != next
    ensures RequestOk(RotateTx(db, t, next).0, q)
  {}

  lemma RevokeKeepsRequest(db: Db, rows: set<Token>, q: Request)
    requires RequestOk(db, q) && (q.Replacing? ==> q.token !in rows)
    ensures RequestOk(db.(tokens := Revoke(db.tokens, rows)), q)
  {}

  lemma OthersStayPut(s: System, a: Act, r: nat)
    requires Enabled(s, a) && r in s.requests && !Acts(a, r)
    ensures r in Do(s, a).requests && Do(s, a).requests[r] == s.requests[r]
  {}

  lemma OthersStayOk(s: System, a: Act, r: nat)
    requires Inv(s) && Enabled(s, a) && r in s.requests && !Acts(a, r)
    ensures RequestOk(Do(s, a).db, s.requests[r])
  {
    var q := s.requests[r];
    assert RequestOk(s.db, q);
    match a
    case CommitCreate(x) =>
      assert KeptApart(q, s.requests[x]);
      CreateKeepsRequest(s.db, s.requests[x].key, s.requests[x].player, q);
    case CommitLink(x) =>
      assert RequestOk(s.db, s.requests[x]);
      LinkKeepsRequest(s.db, s.requests[x].key, s.requests[x].player, q);
    case IssueToken(x, t) => IssueKeepsRequest(s.db, t, TokenRow(s.requests[x].player, false, t), q);
    case CommitRefresh(x) =>
      assert RequestOk(s.db, s.requests[x]) && KeptApart(q, s.requests[x]);
      RotateKeepsRequest(s.db, s.requests[x].token, s.requests[x].next, q);
    case CommitLogout(x) => RevokeKeepsRequest(s.db, s.requests[x].rows, q);
    case _ => assert Do(s, a).db == s.db;
  }

  lemma ActorStaysOk(s: System, a: Act, r: nat)
    requires Inv(s) && Enabled(s, a) && Acts(a, r)
    ensures r in Do(s, a).requests && RequestOk(Do(s, a).db, Do(s, a).requests[r])
  {
    assert r in s.requests ==> RequestOk(s.db, s.requests[r]);
    match a
    case CommitCreate(_) =>
    case CommitRefresh(_) =>
    case CommitLogout(_) =>
    case _ => SettlesOk(s, a, r);
  }

  lemma SettlesOk(s: System, a: Act, r: nat)
    requires Enabled(s, a) && Acts(a, r) && (r in s.requests ==> RequestOk(s.db, s.requests[r]))
    requires !a.CommitCreate? && !a.CommitRefresh? && !a.CommitLogout?
    ensures r in Do(s, a).requests && RequestOk(Do(s, a).db, Do(s, a).requests[r])
  {}

  /** Only these acts make their request hold an id or a token that others must not use. */
  lemma HoldsNothingNew(s: System, a: Act, r: nat)
    requires Enabled(s, a) && Acts(a, r) && !a.LoginMinted? && !a.Find? && !a.RevokeOld? && r in Do(s, a).requests
    ensures !Do(s, a).requests[r].Creating? && (Do(s, a).requests[r].Replacing? ==> Do(s, a).requests == s.requests)
  {}

  lemma HeldIsFresh(s: System, a: Act, r: nat, q: Request)
    requires Enabled(s, a) && Acts(a, r) && (a.LoginMinted? || a.Find? || a.RevokeOld?) && r in Do(s, a).requests
    requires q in s.requests.Values && (a.Find? ==> s.requests[r].key.Known?)
    ensures KeptApart(Do(s, a).requests[r], q) && KeptApart(q, Do(s, a).requests[r])
  {
    var o :| o in s.requests && s.requests[o] == q;
  }

  lemma RequestsStayApart(s: System, a: Act, r: nat, o: nat)
    requires Inv(s) && Enabled(s, a) && r in Do(s, a).requests && o in Do(s, a).requests && r != o
    ensures KeptApart(Do(s, a).requests[r], Do(s, a).requests[o])
  {
    assert r in s.requests && o in s.requests ==> KeptApart(s.requests[r], s.requests[o]);
    if Acts(a, r) || Acts(a, o) {
      var x, y := if Acts(a, r) then r else o, if Acts(a, r) then o else r;
      OthersStayPut(s, a, y);
      if a.LoginMinted? || a.Find? || a.RevokeOld? {
        assert a.Find? ==> RequestOk(s.db, s.requests[x]);
        HeldIsFresh(s, a, x, s.requests[y]);
      } else {
        HoldsNothingNew(s, a, x);
      }
    } else {
      OthersStayPut(s, a, r);
      OthersStayPut(s, a, o);
    }
  }

  lemma DoKeepsInv(s: System, a: Act)
    requires Inv(s) && Enabled(s, a)
    ensures Inv(Do(s, a))
  {
    var s' := Do(s, a);
    DoKeepsDb(s, a);
    DoExtends(s, a);
    forall r | r in s'.requests ensures RequestOk(s'.db, s'.requests[r]) {
      if Acts(a, r) {
        ActorStaysOk(s, a, r);
      } else {
        OthersStayPut(s, a, r);
        OthersStayOk(s, a, r);
      }
    }
    forall r, o | r in s'.requests && o in s'.requests && r != o ensures KeptApart(s'.requests[r], s'.requests[o]) {
      RequestsStayApart(s, a, r, o);
    }
    RedeemedOnce(s, a);
  }

  lemma RedeemedOnce(s: System, a: Act)
    requires Inv(s) && Enabled(s, a)
    ensures TokensOk(Do(s, a))
  {
    DoExtends(s, a);
    if !a.CommitRefresh? {
      assert Do(s, a).redeemed == s.redeemed;
    }
  }

  lemma {:induction false} RunKeepsInv(acts: seq<Act>)
    requires Run(acts).Some?
    ensures Inv(Run(acts).value)
  {
    if acts != [] {
      RunKeepsInv(acts[..|acts| - 1]);
      DoKeepsInv(Run(acts[..|acts| - 1]).value, acts[|acts| - 1]);
    }
  }

  /** Two successful logins for one identity returned one player. */
  ghost predicate SamePlayer(q: Request, o: Request) {
    q.LoggedIn? && o.LoggedIn? && q.key == o.key ==> q.player == o.player
  }

  /**
   * Over every interleaving of logins and links: no login fails unless its own transaction is made to, in
   * particular not by losing a race, so the one retry is enough; all successful logins for one identity return one
   * player; and every stored player owns an identity.
   */
  lemma OneRetrySuffices(acts: seq<Act>)
    requires Run(acts).Some?
    ensures var s := Run(acts).value;
            && (forall r :: r in s.requests && s.requests[r].LoginFailed? ==> Fail(r) in acts)
            && (forall r :: r in s.requests ==> s.requests[r] != LoginFailed(AlreadyLinked))
            && (forall r, o :: r in s.requests && o in s.requests ==> SamePlayer(s.requests[r], s.requests[o]))
            && (forall p :: p in s.db.players ==> exists k :: k in s.db.identities && s.db.identities[k] == p)
  {
    RunKeepsInv(acts);
    var s := Run(acts).value;
    forall r | r in s.requests ensures RequestOk(s.db, s.requests[r]) {}
    forall r | r in s.requests && s.requests[r].LoginFailed? ensures Fail(r) in acts {
      LoginFailsOnlyIfMadeTo(acts, r);
    }
  }

  /** Whatever happens later, an identity keeps its owner. */
  lemma {:induction false} OwnersNeverChange(before: seq<Act>, n: nat, key: Key)
    requires n <= |before| && Run(before).Some? && Run(before[..n]).Some?
    requires key in Run(before[..n]).value.db.identities
    ensures key in Run(before).value.db.identities
    ensures Run(before).value.db.identities[key] == Run(before[..n]).value.db.identities[key]
    decreases |before|
  {
    if n < |before| {
      var init := before[..|before| - 1];
      assert init[..n] == before[..n];
      OwnersNeverChange(init, n, key);
      RunKeepsInv(init);
      DoExtends(Run(init).value, before[|before| - 1]);
    } else {
      assert before[..n] == before;
    }
  }

  /** However refreshes of one token race, it is redeemed at most once, and then it is revoked. */
  lemma RefreshRotatesOnce(acts: seq<Act>, t: Token)
    requires Run(acts).Some?
    ensures Run(acts).value.redeemed[t] <= 1
    ensures t in Run(acts).value.redeemed ==>
              t in Run(acts).value.db.tokens && Run(acts).value.db.tokens[t].revoked
  {
    RunKeepsInv(acts);
  }

  // ---- chains of tokens ----

  /** Every token goes back to a login of its player, and each login has at most one live token. */
  ghost predicate ChainsOk(tokens: map<Token, TokenRow>) {
    && (forall t :: t in tokens ==> IsRoot(tokens, tokens[t].root) && tokens[tokens[t].root].player == tokens[t].player)
    && (forall t, u :: t in tokens && u in tokens && BothLive(tokens[t], tokens[u]) ==> t == u)
  }

  /** Two live tokens of one login. */
  ghost predicate BothLive(a: TokenRow, b: TokenRow) { a.root == b.root && !a.revoked && !b.revoked }

  ghost predicate IsRoot(tokens: map<Token, TokenRow>, t: Token) { t in tokens && tokens[t].root == t }

  lemma RotateKeepsChains(db: Db, t: Token, next: Token)
    requires ChainsOk(db.tokens) && t in db.tokens && next !in db.tokens
    ensures ChainsOk(RotateTx(db, t, next).0.tokens)
  {
    var after := RotateTx(db, t, next).0.tokens;
    forall u | u in after ensures IsRoot(after, after[u].root) && after[after[u].root].player == after[u].player {
      assert IsRoot(db.tokens, db.tokens[if u == next then t else u].root);
    }
    if !db.tokens[t].revoked {
      forall u, v | u in after && v in after && BothLive(after[u], after[v]) ensures u == v {
        var u', v' := if u == next then t else u, if v == next then t else v;
        assert BothLive(db.tokens[u'], db.tokens[v']);
      }
    }
  }

  lemma IssueKeepsChains(tokens: map<Token, TokenRow>, player: UUID, t: Token)
    requires ChainsOk(tokens) && t !in tokens
    ensures ChainsOk(tokens[t := TokenRow(player, false, t)])
  {
    var after := tokens[t := TokenRow(player, false, t)];
    forall u | u in after ensures IsRoot(after, after[u].root) && after[after[u].root].player == after[u].player {
      assert u != t ==> IsRoot(tokens, tokens[u].root);
    }
  }

  lemma RevokeKeepsChains(tokens: map<Token, TokenRow>, rows: set<Token>)
    requires ChainsOk(tokens)
    ensures ChainsOk(Revoke(tokens, rows))
  {
    var after := Revoke(tokens, rows);
    forall u | u in after ensures IsRoot(after, after[u].root) && after[after[u].root].player == after[u].player {
      assert IsRoot(tokens, tokens[u].root);
    }
  }

  lemma DoKeepsChains(s: System, a: Act)
    requires Inv(s) && Enabled(s, a) && ChainsOk(s.db.tokens)
    ensures ChainsOk(Do(s, a).db.tokens)
  {
    match a
    case CommitRefresh(r) =>
      assert RequestOk(s.db, s.requests[r]);
      RotateKeepsChains(s.db, s.requests[r].token, s.requests[r].next);
    case IssueToken(r, t) => IssueKeepsChains(s.db.tokens, s.requests[r].player, t);
    case CommitLogout(r) => RevokeKeepsChains(s.db.tokens, s.requests[r].rows);
    case _ => OthersLeaveTokens(s, a);
  }

  lemma OthersLeaveTokens(s: System, a: Act)
    requires Enabled(s, a) && !a.CommitRefresh? && !a.IssueToken? && !a.CommitLogout?
    ensures Do(s, a).db.tokens == s.db.tokens
  {}

  /**
   * Over every interleaving of logins, refreshes and logouts: the tokens that go back to one login belong to its
   * player, and at most one of them is live.
   */
  lemma {:induction false} OneLiveTokenPerLogin(acts: seq<Act>)
    requires Run(acts).Some?
    ensures ChainsOk(Run(acts).value.db.tokens)
  {
    if acts != [] {
      OneLiveTokenPerLogin(acts[..|acts| - 1]);
      RunKeepsInv(acts[..|acts| - 1]);
      DoKeepsChains(Run(acts[..|acts| - 1]).value, acts[|acts| - 1]);
    }
  }

  // ---- logout ----

  lemma RevokedIsNotRedeemed(s: System, a: Act, t: Token)
    requires Inv(s) && Enabled(s, a) && t in s.db.tokens && s.db.tokens[t].revoked
    ensures Do(s, a).redeemed[t] == s.redeemed[t]
  {
    if a.CommitRefresh? {
      assert RequestOk(s.db, s.requests[a.r]);
    } else {
      assert Do(s, a).redeemed == s.redeemed;
    }
  }

  /** A token that is revoked at some point of a run stays revoked, and is never redeemed after it. */
  lemma {:induction false} RevokedForGood(acts: seq<Act>, n: nat, t: Token)
    requires n <= |acts| && Run(acts).Some? && Run(acts[..n]).Some?
    requires t in Run(acts[..n]).value.db.tokens && Run(acts[..n]).value.db.tokens[t].revoked
    ensures t in Run(acts).value.db.tokens && Run(acts).value.db.tokens[t].revoked
    ensures Run(acts).value.redeemed[t] == Run(acts[..n]).value.redeemed[t]
    decreases |acts|
  {
    if n < |acts| {
      var init := acts[..|acts| - 1];
      assert init[..n] == acts[..n];
      RevokedForGood(init, n, t);
      RunKeepsInv(init);
      DoExtends(Run(init).value, acts[|acts| - 1]);
      RevokedIsNotRedeemed(Run(init).value, acts[|acts| - 1], t);
    } else {
      assert acts[..n] == acts;
    }
  }

  /** Once a logout is done, no token that was live when it began is ever redeemed again. */
  lemma LogoutEndsTokens(acts: seq<Act>, n: nat, r: nat, t: Token)
    requires n <= |acts| && Run(acts).Some? && Run(acts[..n]).Some?
    requires r in Run(acts[..n]).value.requests && Run(acts[..n]).value.requests[r].LoggedOut?
    requires t in Run(acts[..n]).value.requests[r].rows
    ensures t in Run(acts).value.db.tokens && Run(acts).value.db.tokens[t].revoked
    ensures Run(acts).value.redeemed[t] == Run(acts[..n]).value.redeemed[t]
  {
    RunKeepsInv(acts[..n]);
    assert RequestOk(Run(acts[..n]).value.db, Run(acts[..n]).value.requests[r]);
    RevokedForGood(acts, n, t);
  }

  // ---- which logins survive a logout ----

  /** Some token of the login that t goes back to is live. */
  ghost predicate LoginLives(tokens: map<Token, TokenRow>, t: Token)
    requires t in tokens
  {
    exists u: Token :: u in tokens && !tokens[u].revoked && tokens[u].root == tokens[t].root
  }

  /** A live token of t's login that a logout over these rows does not see. */
  ghost predicate Heir(tokens: map<Token, TokenRow>, rows: set<Token>, t: Token, u: Token)
    requires t in tokens
  {
    u in tokens && u !in rows && !tokens[u].revoked && tokens[u].root == tokens[t].root
  }

  /** While a logout is under way, each row it saw is live, or was redeemed and has an heir. */
  ghost predicate Tracked(s: System, rows: set<Token>, player: UUID, t: Token) {
    && t in s.db.tokens && s.db.tokens[t].player == player
    && if s.redeemed[t] > 0 then exists u: Token :: Heir(s.db.tokens, rows, t, u) else !s.db.tokens[t].revoked
  }

  ghost predicate LogsOut(s: System, a: Act, player: UUID) {
    a.CommitLogout? && a.r in s.requests && s.requests[a.r].LoggingOut? && s.requests[a.r].player == player
  }

  lemma HeirAfterRotation(db: Db, v: Token, next: Token, rows: set<Token>, t: Token, u: Token)
    requires ChainsOk(db.tokens) && v in db.tokens && !db.tokens[v].revoked && next !in db.tokens
    requires rows <= db.tokens.Keys && t in db.tokens
    requires v == t || Heir(db.tokens, rows, t, u)
    ensures Heir(RotateTx(db, v, next).0.tokens, rows, t, if v == t || u == v then next else u)
  {}

  lemma RefreshTracks(s: System, r: nat, rows: set<Token>, player: UUID, t: Token)
    requires Inv(s) && ChainsOk(s.db.tokens) && Enabled(s, CommitRefresh(r)) && rows <= s.db.tokens.Keys
    requires Tracked(s, rows, player, t)
    ensures Tracked(Do(s, CommitRefresh(r)), rows, player, t)
  {
    var v, next, s' := s.requests[r].token, s.requests[r].next, Do(s, CommitRefresh(r));
    assert RequestOk(s.db, s.requests[r]);
    assert s'.db == RotateTx(s.db, v, next).0 && s'.redeemed == s.redeemed + multiset{v};
    if v == t {
      HeirAfterRotation(s.db, v, next, rows, t, t);
    } else if s.redeemed[t] > 0 {
      var u: Token :| Heir(s.db.tokens, rows, t, u);
      HeirAfterRotation(s.db, v, next, rows, t, u);
    }
  }

  lemma LogoutTracks(s: System, r: nat, rows: set<Token>, player: UUID, t: Token)
    requires Inv(s) && ChainsOk(s.db.tokens) && Enabled(s, CommitLogout(r)) && !LogsOut(s, CommitLogout(r), player)
    requires Tracked(s, rows, player, t)
    ensures Tracked(Do(s, CommitLogout(r)), rows, player, t)
  {
    assert RequestOk(s.db, s.requests[r]);
    assert IsRoot(s.db.tokens, s.db.tokens[t].root);
    if s.redeemed[t] > 0 {
      var u: Token :| Heir(s.db.tokens, rows, t, u);
      assert s.db.tokens[u].player == player;
      assert Heir(Do(s, CommitLogout(r)).db.tokens, rows, t, u);
    }
  }

  lemma OtherTracks(s: System, a: Act, rows: set<Token>, player: UUID, t: Token)
    requires Enabled(s, a) && !a.CommitRefresh? && !a.CommitLogout? && Tracked(s, rows, player, t)
    ensures Tracked(Do(s, a), rows, player, t)
  {
    var after := Do(s, a).db.tokens;
    assert Do(s, a).redeemed == s.redeemed;
    if !a.IssueToken? {
      OthersLeaveTokens(s, a);
    }
    if s.redeemed[t] > 0 {
      var u: Token :| Heir(s.db.tokens, rows, t, u);
      assert Heir(after, rows, t, u);
    }
  }

  lemma DoTracks(s: System, a: Act, rows: set<Token>, player: UUID, t: Token)
    requires Inv(s) && ChainsOk(s.db.tokens) && Enabled(s, a) && rows <= s.db.tokens.Keys && !LogsOut(s, a, player)
    requires Tracked(s, rows, player, t)
    ensures Tracked(Do(s, a), rows, player, t)
  {
    if a.CommitRefresh? {
      RefreshTracks(s, a.r, rows, player, t);
    } else if a.CommitLogout? {
      LogoutTracks(s, a.r, rows, player, t);
    } else {
      OtherTracks(s, a, rows, player, t);
    }
  }

  /** Request r is the logout that began with these rows, or has been rolled back. */
  ghost predicate StillThat(s: System, r: nat, player: UUID, rows: set<Token>) {
    r in s.requests && (s.requests[r] == LoggingOut(player, rows) || !s.requests[r].LoggingOut?)
  }

  /** The logout of the player that began at m is the only one of theirs to commit. */
  ghost predicate OnlyLogout(acts: seq<Act>, m: nat, player: UUID) {
    forall k :: m < k < |acts| && Run(acts[..k]).Some? ==> !LogsOut(Run(acts[..k]).value, acts[k], player)
  }

  lemma OnlyLogoutOfPrefix(acts: seq<Act>, m: nat, player: UUID)
    requires acts != [] && OnlyLogout(acts, m, player)
    ensures OnlyLogout(acts[..|acts| - 1], m, player)
  {
    var init := acts[..|acts| - 1];
    forall k | m < k < |init| && Run(init[..k]).Some? ensures !LogsOut(Run(init[..k]).value, init[k], player) {
      assert init[..k] == acts[..k];
    }
  }

  lemma {:induction false} TrackedThroughout(acts: seq<Act>, m: nat, r: nat, player: UUID, t: Token)
    requires Run(acts).Some? && m < |acts| && acts[m] == Logout(r, player) && OnlyLogout(acts, m, player)
    requires Run(acts[..m]).Some? && t in LiveTokens(Run(acts[..m]).value.db, player)
    ensures var s, rows := Run(acts).value, LiveTokens(Run(acts[..m]).value.db, player);
            rows <= s.db.tokens.Keys && Tracked(s, rows, player, t) && StillThat(s, r, player, rows)
    decreases |acts|
  {
    var init, a := acts[..|acts| - 1], acts[|acts| - 1];
    var s, rows := Run(init).value, LiveTokens(Run(acts[..m]).value.db, player);
    RunKeepsInv(init);
    if m < |acts| - 1 {
      assert init[..m] == acts[..m];
      OnlyLogoutOfPrefix(acts, m, player);
      TrackedThroughout(init, m, r, player, t);
      OneLiveTokenPerLogin(init);
      assert acts[..|acts| - 1] == init && !LogsOut(s, a, player);
      DoTracks(s, a, rows, player, t);
      DoExtends(s, a);
      LogoutStays(s, a, r, player, rows);
    } else {
      assert acts[..m] == init;
    }
  }

  lemma LogoutStays(s: System, a: Act, r: nat, player: UUID, rows: set<Token>)
    requires Enabled(s, a) && StillThat(s, r, player, rows)
    ensures StillThat(Do(s, a), r, player, rows)
  {
    if !Acts(a, r) {
      OthersStayPut(s, a, r);
    }
  }

  /** What the commit does to a tracked login. */
  lemma CommitEndsUnlessRedeemed(s: System, r: nat, rows: set<Token>, player: UUID, t: Token)
    requires ChainsOk(s.db.tokens) && Enabled(s, CommitLogout(r)) && s.requests[r] == LoggingOut(player, rows)
    requires Tracked(s, rows, player, t) && t in rows
    ensures var after := Do(s, CommitLogout(r));
            t in after.db.tokens && (LoginLives(after.db.tokens, t) <==> after.redeemed[t] > 0)
  {
    var after := Do(s, CommitLogout(r)).db.tokens;
    if s.redeemed[t] > 0 {
      var u: Token :| Heir(s.db.tokens, rows, t, u);
      assert u in after && !after[u].revoked && after[u].root == after[t].root;
    } else {
      forall u: Token | u in after && after[u].root == after[t].root ensures after[u].revoked {
        if !s.db.tokens[u].revoked {
          assert BothLive(s.db.tokens[u], s.db.tokens[t]);
        }
      }
    }
  }

  /**
   * A logout begins at m and commits at the end, with no other logout of the player in between: a login that had a
   * live token when it began has one afterwards if and only if that token was redeemed meanwhile.
   */
  lemma SurvivesLogoutIff(acts: seq<Act>, m: nat, r: nat, player: UUID, t: Token)
    requires Run(acts + [CommitLogout(r)]).Some?
    requires m < |acts| && acts[m] == Logout(r, player) && OnlyLogout(acts, m, player)
    requires Run(acts[..m]).Some? && t in LiveTokens(Run(acts[..m]).value.db, player)
    ensures var s := Run(acts + [CommitLogout(r)]).value;
            t in s.db.tokens && (LoginLives(s.db.tokens, t) <==> s.redeemed[t] > 0)
  {
    assert (acts + [CommitLogout(r)])[..|acts|] == acts;
    TrackedThroughout(acts, m, r, player, t);
    OneLiveTokenPerLogin(acts);
    CommitEndsUnlessRedeemed(Run(acts).value, r, LiveTokens(Run(acts[..m]).value.db, player), player, t);
  }

  lemma DeadStaysDead(s: System, a: Act, t: Token)
    requires Inv(s) && ChainsOk(s.db.tokens) && Enabled(s, a) && t in s.db.tokens && !LoginLives(s.db.tokens, t)
    ensures t in Do(s, a).db.tokens && !LoginLives(Do(s, a).db.tokens, t)
  {
    var after := Do(s, a).db.tokens;
    DoExtends(s, a);
    if a.CommitRefresh? {
      assert RequestOk(s.db, s.requests[a.r]);
    } else if a.IssueToken? {
      assert IsRoot(s.db.tokens, s.db.tokens[t].root);
    } else if !a.CommitLogout? {
      OthersLeaveTokens(s, a);
    }
  }

  /** A login without a live token never gets one again: the player has to log in anew. */
  lemma {:induction false} DeadLoginStaysDead(acts: seq<Act>, n: nat, t: Token)
    requires n <= |acts| && Run(acts).Some? && Run(acts[..n]).Some?
    requires t in Run(acts[..n]).value.db.tokens && !LoginLives(Run(acts[..n]).value.db.tokens, t)
    ensures t in Run(acts).value.db.tokens && !LoginLives(Run(acts).value.db.tokens, t)
    decreases |acts|
  {
    if n < |acts| {
      var init := acts[..|acts| - 1];
      assert init[..n] == acts[..n];
      DeadLoginStaysDead(init, n, t);
      RunKeepsInv(init);
      OneLiveTokenPerLogin(init);
      DeadStaysDead(Run(init).value, acts[|acts| - 1], t);
    } else {
      assert acts[..n] == acts;
    }
  }

  lemma Follow(acts: seq<Act>, a: Act) returns (acts': seq<Act>)
    requires Run(acts).Some? && Enabled(Run(acts).value, a)
    ensures acts' == acts + [a] && Run(acts') == Some(Do(Run(acts).value, a))
  {
    acts' := acts + [a];
    assert acts'[..|acts|] == acts;
  }

  /** Wherever a run stands with a live token and nobody else refreshing, its replacement can survive a logout. */
  lemma OverlappingRefreshSurvives(acts: seq<Act>, rf: nat, lo: nat, t: Token, next: Token) returns (acts': seq<Act>)
    requires Run(acts).Some? && rf != lo && rf !in Run(acts).value.requests && lo !in Run(acts).value.requests
    requires t in Run(acts).value.db.tokens && !Run(acts).value.db.tokens[t].revoked
    requires next !in Run(acts).value.db.tokens
    requires forall r :: r in Run(acts).value.requests ==> !Run(acts).value.requests[r].Replacing?
    ensures Run(acts').Some?
    ensures var s, p := Run(acts').value, Run(acts).value.db.tokens[t].player;
            && lo in s.requests && s.requests[lo].LoggedOut? && s.requests[lo].player == p && t in s.requests[lo].rows
            && next in s.db.tokens && s.db.tokens[next].player == p && !s.db.tokens[next].revoked
  {
    var s, p := Run(acts).value, Run(acts).value.db.tokens[t].player;
    acts' := Follow(acts, Refresh(rf, t));
    var s1 := Run(acts').value;
    assert s1.requests == s.requests[rf := Rotating(t)] && s1.db == s.db;
    acts' := Follow(acts', RevokeOld(rf, next));
    var s2 := Run(acts').value;
    assert s2.requests == s.requests[rf := Replacing(t, next)] && s2.db == s.db;
    acts' := Follow(acts', Logout(lo, p));
    var s3, rows := Run(acts').value, LiveTokens(s.db, p);
    assert s3.requests == s.requests[rf := Replacing(t, next)][lo := LoggingOut(p, rows)] && s3.db == s.db;
    acts' := Follow(acts', CommitRefresh(rf));
    var s4 := Run(acts').value;
    assert s4.requests == s.requests[rf := Refreshed(t, p)][lo := LoggingOut(p, rows)];
    assert s4.db.tokens[next] == s.db.tokens[t] && next !in rows;
    assert forall r :: r in s4.requests ==> !s4.requests[r].Replacing?;
    acts' := Follow(acts', CommitLogout(lo));
  }

  // ---- logins succeed ----

  lemma OnlyFailFails(s: System, a: Act, r: nat)
    requires Inv(s) && Enabled(s, a) && r in Do(s, a).requests && Do(s, a).requests[r].LoginFailed?
    ensures a == Fail(r) || (r in s.requests && s.requests[r].LoginFailed?)
  {
    if Acts(a, r) {
      assert r in s.requests ==> RequestOk(s.db, s.requests[r]);
    } else {
      assert r in s.requests;
      OthersStayPut(s, a, r);
    }
  }

  /** In every run a login has failed only if its own transaction was made to fail: losing a race never fails it. */
  lemma {:induction false} LoginFailsOnlyIfMadeTo(acts: seq<Act>, r: nat)
    requires Run(acts).Some? && r in Run(acts).value.requests && Run(acts).value.requests[r].LoginFailed?
    ensures Fail(r) in acts
  {
    if acts != [] {
      var init, a := acts[..|acts| - 1], acts[|acts| - 1];
      RunKeepsInv(init);
      OnlyFailFails(Run(init).value, a, r);
      if a != Fail(r) {
        LoginFailsOnlyIfMadeTo(init, r);
      }
      assert acts == init + [a];
    }
  }

  /** The login of request r for this key: on its way, done, or made to fail. */
  ghost predicate LogsIn(q: Request, key: Key) {
    q.LoginFailed? || ((q.Finding? || q.Creating? || q.LoggedIn?) && q.key == key)
  }

  /** In every run a login stays with the identity it was asked for. */
  lemma {:induction false} LoginKeepsItsKey(acts: seq<Act>, r: nat, key: Key)
    requires Run(acts).Some? && Login(r, key) in acts
    ensures r in Run(acts).value.requests && LogsIn(Run(acts).value.requests[r], key)
  {
    var init, a := acts[..|acts| - 1], acts[|acts| - 1];
    var s := Run(init).value;
    assert acts == init + [a];
    if a != Login(r, key) {
      LoginKeepsItsKey(init, r, key);
      if !Acts(a, r) {
        OthersStayPut(s, a, r);
      }
    }
  }

  /** A login without a device creates the player it minted the identity for, and nobody can take that from it. */
  ghost predicate LogsInMinted(q: Request, serial: nat, player: UUID) {
    || q.LoginFailed? || q == Creating(Minted(serial), 1, player) || q == LoggedIn(Minted(serial), player)
  }

  lemma {:induction false} MintedLoginKeepsItsPlayer(acts: seq<Act>, r: nat, serial: nat, player: UUID)
    requires Run(acts).Some? && LoginMinted(r, serial, player) in acts
    ensures r in Run(acts).value.requests && LogsInMinted(Run(acts).value.requests[r], serial, player)
  {
    var init, a := acts[..|acts| - 1], acts[|acts| - 1];
    var s := Run(init).value;
    assert acts == init + [a];
    if a != LoginMinted(r, serial, player) {
      MintedLoginKeepsItsPlayer(init, r, serial, player);
      RunKeepsInv(init);
      assert RequestOk(s.db, s.requests[r]);
      if !Acts(a, r) {
        OthersStayPut(s, a, r);
      }
    }
  }

  /** Finding the identity logs its owner in; not finding it leads to creating the candidate. */
  lemma FindOutcome(s: System, r: nat, candidate: UUID)
    requires Enabled(s, Find(r, candidate))
    ensures var s', q := Do(s, Find(r, candidate)), s.requests[r];
            && s'.db == s.db
            && s'.requests[r] == if q.key in s.db.identities then LoggedIn(q.key, s.db.identities[q.key])
                                 else Creating(q.key, q.attempt, candidate)
  {}

  /** Creating a free identity logs the new player in; losing it to another leads back to finding it. */
  lemma CreateOutcome(s: System, r: nat)
    requires Inv(s) && Enabled(s, CommitCreate(r))
    ensures var s', q := Do(s, CommitCreate(r)), s.requests[r];
            if q.key in s.db.identities then s'.db == s.db && s'.requests[r] == Finding(q.key, 2)
            else
              && s'.requests[r] == LoggedIn(q.key, q.player) && q.player in s'.db.players
              && s'.db.identities == s.db.identities[q.key := q.player]
  {
    assert RequestOk(s.db, s.requests[r]);
  }

  /** Where the login stands after its next look. */
  ghost function LoggedInNext(s: System, r: nat, candidate: UUID): Request
    requires r in s.requests && s.requests[r].Finding? && FreshPlayer(s, candidate)
  {
    Do(s, Find(r, candidate)).requests[r]
  }

  /** The login is to be found under this key, which has this owner. */
  ghost predicate WillFind(s: System, r: nat, key: Key, owner: UUID) {
    && r in s.requests && s.requests[r] == Finding(key, 2)
    && key in s.db.identities && s.db.identities[key] == owner
  }

  lemma {:induction false} WillFindAfter(acts: seq<Act>, r: nat, key: Key, owner: UUID, later: seq<Act>)
    requires Run(acts).Some? && WillFind(Run(acts).value, r, key, owner)
    requires Run(acts + later).Some? && forall i :: 0 <= i < |later| ==> !Acts(later[i], r)
    ensures WillFind(Run(acts + later).value, r, key, owner)
    decreases |later|
  {
    if later == [] {
      assert acts + later == acts;
    } else {
      var init := later[..|later| - 1];
      assert (acts + later)[..|acts + later| - 1] == acts + init;
      WillFindAfter(acts, r, key, owner, init);
      RunKeepsInv(acts + init);
      WillStillFind(Run(acts + init).value, later[|later| - 1], r, key, owner);
    }
  }

  /**
   * A login that loses the race for its identity returns the winner's player on its one retry, whatever other
   * requests do between the two.
   */
  lemma RaceLoserGetsTheWinner(acts: seq<Act>, r: nat, later: seq<Act>)
    requires Run(acts).Some? && Enabled(Run(acts).value, CommitCreate(r))
    requires Run(acts).value.requests[r].key in Run(acts).value.db.identities
    requires Run(acts + [CommitCreate(r)] + later).Some? && forall i :: 0 <= i < |later| ==> !Acts(later[i], r)
    ensures var s, key := Run(acts + [CommitCreate(r)] + later).value, Run(acts).value.requests[r].key;
            var owner := Run(acts).value.db.identities[key];
            && WillFind(s, r, key, owner)
            && forall c :: FreshPlayer(s, c) ==> LoggedInNext(s, r, c) == LoggedIn(key, owner)
  {
    var lost, key := acts + [CommitCreate(r)], Run(acts).value.requests[r].key;
    var owner := Run(acts).value.db.identities[key];
    RunKeepsInv(acts);
    CreateOutcome(Run(acts).value, r);
    assert lost[..|acts|] == acts;
    WillFindAfter(lost, r, key, owner, later);
    var s := Run(lost + later).value;
    forall c | FreshPlayer(s, c) ensures LoggedInNext(s, r, c) == LoggedIn(key, owner) {
      FindsTheOwner(s, r, key, owner, c);
    }
  }

  lemma WillStillFind(s: System, a: Act, r: nat, key: Key, owner: UUID)
    requires Inv(s) && Enabled(s, a) && WillFind(s, r, key, owner) && !Acts(a, r)
    ensures WillFind(Do(s, a), r, key, owner)
  {
    OthersStayPut(s, a, r);
    DoExtends(s, a);
  }

  /** Then whoever it offers as a candidate, it returns the owner. */
  lemma FindsTheOwner(s: System, r: nat, key: Key, owner: UUID, candidate: UUID)
    requires WillFind(s, r, key, owner) && FreshPlayer(s, candidate)
    ensures Enabled(s, Find(r, candidate)) && Do(s, Find(r, candidate)).requests[r] == LoggedIn(key, owner)
  {}

  // ---- tokens and links ----

  lemma LoggedInStays(s: System, a: Act, r: nat)
    requires Enabled(s, a) && r in s.requests && s.requests[r].LoggedIn?
    ensures r in Do(s, a).requests && Do(s, a).requests[r] == s.requests[r]
  {
    if !Acts(a, r) {
      OthersStayPut(s, a, r);
    }
  }

  /** In every run a token issued for a login belongs to the player that login returned, and starts a chain. */
  lemma {:induction false} IssuedToThatPlayer(acts: seq<Act>, r: nat, t: Token)
    requires Run(acts).Some? && IssueToken(r, t) in acts
    ensures var s := Run(acts).value;
            && r in s.requests && s.requests[r].LoggedIn?
            && t in s.db.tokens && s.db.tokens[t].player == s.requests[r].player && s.db.tokens[t].root == t
  {
    var init, a := acts[..|acts| - 1], acts[|acts| - 1];
    assert acts == init + [a];
    if a != IssueToken(r, t) {
      IssuedToThatPlayer(init, r, t);
      RunKeepsInv(init);
      DoExtends(Run(init).value, a);
      LoggedInStays(Run(init).value, a, r);
    }
  }

  /** A new token is live, and no other token changes. */
  lemma IssueOutcome(s: System, r: nat, t: Token)
    requires Enabled(s, IssueToken(r, t))
    ensures var after := Do(s, IssueToken(r, t)).db.tokens;
            && t in after && !after[t].revoked && after.Keys == s.db.tokens.Keys + {t}
            && forall u :: u in s.db.tokens ==> after[u] == s.db.tokens[u]
  {}

  /** A link is granted exactly when the identity is the player's already, or is free at both looks and they exist. */
  lemma LinkOutcome(s: System, r: nat, key: Key, player: UUID)
    requires Inv(s) && Enabled(s, Link(r, key, player))
    ensures var s' := Do(s, Link(r, key, player));
            && s'.db == s.db
            && (s'.requests[r].Linked? <==> key in s.db.identities && s.db.identities[key] == player)
            && (s'.requests[r].Linking? <==> key !in s.db.identities && player in s.db.players)
            && (s'.requests[r] == OtherFailed(AlreadyLinked) <==>
                  key in s.db.identities && s.db.identities[key] != player)
            && (s'.requests[r] == OtherFailed(NotFound) <==> key !in s.db.identities && player !in s.db.players)
            && (!s'.requests[r].OtherFailed? ==> s'.requests[r].key == key && s'.requests[r].player == player)
  {}

  lemma CommitLinkOutcome(s: System, r: nat)
    requires Enabled(s, CommitLink(r))
    ensures var s', q := Do(s, CommitLink(r)), s.requests[r];
            if q.key in s.db.identities then s'.db == s.db && s'.requests[r] == OtherFailed(AlreadyLinked)
            else
              && s'.requests[r] == Linked(q.key, q.player) && s'.db.players == s.db.players
              && s'.db.identities == s.db.identities[q.key := q.player] && s'.db.tokens == s.db.tokens
  {}

  /** A refresh goes ahead exactly while its token is live, and then replaces it by a live one of the same login. */
  lemma RefreshOutcome(s: System, r: nat, t: Token)
    requires Enabled(s, Refresh(r, t))
    ensures var s' := Do(s, Refresh(r, t));
            && s'.db == s.db
            && s'.requests[r] == if t in s.db.tokens && !s.db.tokens[t].revoked then Rotating(t)
                                 else OtherFailed(TokenInvalid)
  {}

  lemma RevokeOutcome(s: System, r: nat, next: Token)
    requires Inv(s) && Enabled(s, RevokeOld(r, next))
    ensures var s', t := Do(s, RevokeOld(r, next)), s.requests[r].token;
            && s'.db == s.db && t in s.db.tokens
            && s'.requests[r] == if s.db.tokens[t].revoked then OtherFailed(TokenInvalid) else Replacing(t, next)
  {
    assert RequestOk(s.db, s.requests[r]);
  }

  lemma ReplaceOutcome(s: System, r: nat)
    requires Inv(s) && Enabled(s, CommitRefresh(r))
    ensures var s', t, next := Do(s, CommitRefresh(r)), s.requests[r].token, s.requests[r].next;
            && t in s.db.tokens && s'.requests[r] == Refreshed(t, s.db.tokens[t].player)
            && s'.db.players == s.db.players && s'.db.identities == s.db.identities
            && s'.db.tokens.Keys == s.db.tokens.Keys + {next} && s'.db.tokens[t].revoked && !s'.db.tokens[next].revoked
            && s'.db.tokens[next].player == s.db.tokens[t].player && s'.db.tokens[next].root == s.db.tokens[t].root
            && (forall u :: u in s.db.tokens && u != t ==> s'.db.tokens[u] == s.db.tokens[u])
            && s'.redeemed[t] == s.redeemed[t] + 1
  {
    assert RequestOk(s.db, s.requests[r]);
  }

  /** A logout revokes every token of the player that is live when it begins, and nothing else. */
  lemma LogoutOutcome(s: System, r: nat, player: UUID)
    requires Enabled(s, Logout(r, player))
    ensures Do(s, Logout(r, player)).db == s.db
    ensures Do(s, Logout(r, player)).requests[r] == LoggingOut(player, LiveTokens(s.db, player))
  {}

  lemma CommitLogoutOutcome(s: System, r: nat, t: Token)
    requires Inv(s) && Enabled(s, CommitLogout(r)) && t in s.db.tokens
    ensures var s', rows := Do(s, CommitLogout(r)), s.requests[r].rows;
            && s'.requests[r] == LoggedOut(s.requests[r].player, rows) && s'.db.tokens.Keys == s.db.tokens.Keys
            && s'.db.players == s.db.players && s'.db.identities == s.db.identities
            && s'.db.tokens[t] == if t in rows then s.db.tokens[t].(revoked := true) else s.db.tokens[t]
  {}

  /** A transaction that is made to fail leaves no trace in the database. */
  lemma FailureRollsBack(s: System, r: nat)
    requires Enabled(s, Fail(r))
    ensures Do(s, Fail(r)).db == s.db && Do(s, Fail(r)).redeemed == s.redeemed
    ensures Do(s, Fail(r)).requests[r].LoginFailed? || Do(s, Fail(r)).requests[r].OtherFailed?
  {}
}
