/** The client's own tokens in every state of the session protocol: which are revoked, where the
    successors are, and which abandoned rotation is to blame for what. */
module SessionTokens {
  import opened Wrappers
  import opened RefreshTokens
  import opened AuthService
  import opened ApiClient
  import opened SessionProtocol
  import TokenFamilies

  // --- invariants of the tokens -------------------------------------------------------------

  /** The server exchanged this token before. */
  ghost predicate Exchanged(log: seq<Answer>, raw: RawToken) {
    exists a :: a in log && a.cookie == raw && a.outcome.Issued?
  }

  /** The reuse detector answered this client before. */
  ghost predicate Detected(log: seq<Answer>) {
    exists a :: a in log && a.outcome.ReplayDetected?
  }

  ghost predicate Void(log: seq<Answer>, raw: RawToken) {
    Exchanged(log, raw) || Detected(log)
  }

  /** `raw` is the token of a row of the family, revoked or not. */
  ghost predicate KnownAs(t: TokenTable, family: FamilyId, raw: RawToken, revoked: bool) {
    exists id ::
      HasHash(t, HashRefreshToken(raw), id) && t[id].familyId == family && (t[id].IsRevoked() <==> revoked)
  }

  function Carried(m: Message): Option<RawToken> {
    match m
    case Ask(_, cookie) => Some(cookie)
    case Reply(_, setCookie) => setCookie
    case Body(_) => None
  }

  /** Every token the client holds or is about to, and every token presented and not yet answered,
      is stored, and revoked exactly when it was exchanged before or the detector has fired. */
  ghost predicate Accounted(s: System) {
    && KnownAs(s.world.db.tokens, s.family, s.client.cookie, Void(s.log, s.client.cookie))
    && (forall m :: m in s.wire && Carried(m).Some? ==>
          KnownAs(s.world.db.tokens, s.family, Carried(m).value, Void(s.log, Carried(m).value)))
    && (forall a :: a in s.log ==> a.cookie < s.world.supply)
    && (Detected(s.log) <==> TokenFamilies.Dead(s.world.db.tokens, s.family))
  }

  /** A successor on its way is nowhere else and has never been presented. */
  ghost predicate Unpresented(s: System, k: nat)
    requires k < |s.wire| && IsGrant(s.wire[k])
  {
    var raw := s.wire[k].setCookie.value;
    && s.client.cookie != raw
    && (forall a :: a in s.log ==> a.cookie != raw)
    && (forall l :: 0 <= l < |s.wire| && l != k ==> Carried(s.wire[l]) != Some(raw))
  }

  ghost predicate InTransit(s: System) {
    forall k :: 0 <= k < |s.wire| && IsGrant(s.wire[k]) ==> Unpresented(s, k)
  }

  ghost predicate GrantUnderway(s: System, p: PromiseId) {
    s.client.refreshInFlight == Some(p) && exists m :: m in s.wire && m.promise == p && IsGrant(m)
  }

  function Earlier(p: PromiseId, q: PromiseId): PromiseId {
    if p < q then p else q
  }

  /** Whatever can go wrong is put down to a rotation the client abandoned: what is outstanding and
      not awaited; one of two rotations with the same token; and the exchange of the cookie held. */
  ghost predicate Blamed(s: System) {
    && (forall m :: m in s.wire && Outstanding(m) && !Awaited(s.client, m) ==> m.promise in s.forsaken)
    && (forall a, m :: a in s.log && m in s.wire && a.outcome.Issued? && m.Ask? && m.cookie == a.cookie ==>
          Earlier(a.promise, m.promise) in s.forsaken)
    && (forall a :: a in s.log && a.outcome.Issued? && a.cookie == s.client.cookie ==>
          a.promise in s.forsaken || GrantUnderway(s, a.promise))
    && (forall a :: a in s.log ==> a.promise < s.client.nextPromise)
    && (Detected(s.log) ==> s.forsaken != {})
  }

  ghost predicate Inv(s: System) {
    && Fresh(s.world) && TokenFamilies.HasChains(s.world)
    && SingleFlight(s.client, s.wire) && PromisesKept(s.client) && RetriesBounded(s.client)
    && RequestsTold(s.client) && Accounted(s) && InTransit(s) && Blamed(s)
  }

  /** Just after a login: the cookie is the only token of a new family. */
  ghost predicate LoggedIn(s: System) {
    && Inv(s)
    && s.client.requests == [] && s.client.nextPromise == 0
    && s.wire == [] && s.log == [] && s.forsaken == {}
  }

  /** A login, at any time in the life of the server, starts the protocol. */
  lemma LoginStartsSession(w0: World, actions: seq<TokenFamilies.Action>, user: UserId, ttl: Time)
    requires TokenFamilies.Initial(w0)
    requires Login(TokenFamilies.Run(w0, actions, ttl).world, user, true, ttl, NoFault).1.Issued?
    ensures var (w, issued) := Login(TokenFamilies.Run(w0, actions, ttl).world, user, true, ttl, NoFault);
      LoggedIn(System(w, Client(issued.raw, None, None, map[], 0, []), [], issued.family, [], {}))
  {
    var chains := TokenFamilies.FamiliesAreChains(w0, actions, ttl);
    LoginIsStart(TokenFamilies.Run(w0, actions, ttl).world, user, ttl);
  }

  lemma LoginOpensFamily(before: World, user: UserId, ttl: Time)
    requires Fresh(before) && Login(before, user, true, ttl, NoFault).1.Issued?
    ensures var (w, issued) := Login(before, user, true, ttl, NoFault);
      KnownAs(w.db.tokens, issued.family, issued.raw, false) && !TokenFamilies.Dead(w.db.tokens, issued.family)
  {
    var t := Login(before, user, true, ttl, NoFault).0.db.tokens;
    assert HasHash(t, HashRefreshToken(before.supply), before.supply + 2);
    assert LiveIn(t, before.supply + 1, before.supply + 2);
  }

  lemma EmptySessionIsStart(w: World, family: FamilyId, raw: RawToken)
    requires Fresh(w) && TokenFamilies.HasChains(w)
    requires KnownAs(w.db.tokens, family, raw, false) && !TokenFamilies.Dead(w.db.tokens, family)
    ensures LoggedIn(System(w, Client(raw, None, None, map[], 0, []), [], family, [], {}))
  {
    FirstTokenAccounted(System(w, Client(raw, None, None, map[], 0, []), [], family, [], {}));
  }

  lemma FirstTokenAccounted(s: System)
    requires KnownAs(s.world.db.tokens, s.family, s.client.cookie, false)
    requires !TokenFamilies.Dead(s.world.db.tokens, s.family) && s.wire == [] && s.log == []
    ensures Accounted(s)
  {
  }

  lemma LoginIsStart(before: World, user: UserId, ttl: Time)
    requires Fresh(before) && TokenFamilies.HasChains(before) && Login(before, user, true, ttl, NoFault).1.Issued?
    ensures var (w, issued) := Login(before, user, true, ttl, NoFault);
      LoggedIn(System(w, Client(issued.raw, None, None, map[], 0, []), [], issued.family, [], {}))
  {
    var a := TokenFamilies.LoginAs(user, true, NoFault);
    TokenFamilies.StepKeepsFresh(before, a, ttl);
    TokenFamilies.StepKeepsChains(before, a, ttl);
    LoginOpensFamily(before, user, ttl);
    var (w, issued) := Login(before, user, true, ttl, NoFault);
    EmptySessionIsStart(w, issued.family, issued.raw);
  }

  // --- what the server does to the client's own tokens --------------------------------------

  /** What the table says about a token of the family. */
  lemma VerdictOnOwnToken(db: AuthDb, family: FamilyId, raw: RawToken, revoked: bool, now: Time)
    requires UniqueHashes(db.tokens) && KnownAs(db.tokens, family, raw, revoked)
    ensures var verdict := Classify(db, raw, now);
      && !verdict.Unknown? && (verdict.Replay? <==> revoked)
      && verdict.id in db.tokens && db.tokens[verdict.id].familyId == family
      && HasHash(db.tokens, HashRefreshToken(raw), verdict.id)
  {
    var id: TokenId :| HasHash(db.tokens, HashRefreshToken(raw), id) && db.tokens[id].familyId == family
                       && (db.tokens[id].IsRevoked() <==> revoked);
    assert FindByHash(db.tokens, HashRefreshToken(raw)) == Some(id);
  }

  /** The family after one of its tokens, `id`, was replaced. */
  lemma RotatedOwnTokens(t: TokenTable, supply: nat, family: FamilyId, raw: RawToken, id: TokenId, now: Time, ttl: Time,
                         other: RawToken, otherRevoked: bool)
    requires FreshTable(t, supply) && HasHash(t, HashRefreshToken(raw), id) && t[id].familyId == family
    requires KnownAs(t, family, other, otherRevoked)
    ensures var t' := Rotated(t, id, supply, supply + 1, now, ttl);
      && other < supply && KnownAs(t', family, other, otherRevoked || other == raw)
      && KnownAs(t', family, supply, false) && !TokenFamilies.Dead(t', family)
  {
    var t' := Rotated(t, id, supply, supply + 1, now, ttl);
    var otherId: TokenId :| HasHash(t, HashRefreshToken(other), otherId) && t[otherId].familyId == family
                            && (t[otherId].IsRevoked() <==> otherRevoked);
    assert HasHash(t', HashRefreshToken(other), otherId);
    assert HasHash(t', HashRefreshToken(supply), supply + 1) && LiveIn(t', family, supply + 1);
  }

  lemma RevokedOwnTokens(t: TokenTable, family: FamilyId, now: Time, other: RawToken, otherRevoked: bool)
    requires KnownAs(t, family, other, otherRevoked)
    ensures KnownAs(FamilyRevoked(t, family, now), family, other, true)
    ensures TokenFamilies.Dead(FamilyRevoked(t, family, now), family)
  {
    var id: TokenId :| HasHash(t, HashRefreshToken(other), id) && t[id].familyId == family;
    assert HasHash(FamilyRevoked(t, family, now), HashRefreshToken(other), id);
  }

  /** A rotation with token `raw` of the family, seen from any token `other` of the family. */
  lemma RefreshOfOwnToken(w: World, family: FamilyId, raw: RawToken, revoked: bool, ttl: Time, fault: Fault,
                          other: RawToken, otherRevoked: bool)
    requires Fresh(w) && KnownAs(w.db.tokens, family, raw, revoked) && KnownAs(w.db.tokens, family, other, otherRevoked)
    ensures var (w', outcome) := Refresh(w, raw, ttl, fault);
      && (outcome.ReplayDetected? <==> revoked && !BreaksReplay(fault))
      && (outcome.ReplayDetected? ==>
            && outcome.family == family && KnownAs(w'.db.tokens, family, other, true)
            && TokenFamilies.Dead(w'.db.tokens, family))
      && (outcome.Issued? ==>
            && !revoked && outcome.raw == w.supply && other < w.supply && w.supply < w'.supply
            && KnownAs(w'.db.tokens, family, other, otherRevoked || other == raw)
            && KnownAs(w'.db.tokens, family, outcome.raw, false) && !TokenFamilies.Dead(w'.db.tokens, family))
      && (!outcome.ReplayDetected? && !outcome.Issued? ==> w'.db == w.db && w.supply <= w'.supply)
  {
    VerdictOnOwnToken(w.db, family, raw, revoked, w.now);
    var verdict := Classify(w.db, raw, w.now);
    var (w', outcome) := Refresh(w, raw, ttl, fault);
    if outcome.ReplayDetected? {
      assert w'.db.tokens == FamilyRevoked(w.db.tokens, family, w.now);
      RevokedOwnTokens(w.db.tokens, family, w.now, other, otherRevoked);
    } else if outcome.Issued? {
      assert w'.db.tokens == Rotated(w.db.tokens, verdict.id, w.supply, w.supply + 1, w.now, ttl);
      RotatedOwnTokens(w.db.tokens, w.supply, family, raw, verdict.id, w.now, ttl, other, otherRevoked);
    }
  }

  lemma ElsewhereKeepsRow(s: System, a: TokenFamilies.Action, ttl: Time, id: TokenId)
    requires Fresh(s.world) && ByOthers(s, a) && id in s.world.db.tokens && s.world.db.tokens[id].familyId == s.family
    ensures var t' := TokenFamilies.Step(s.world, a, ttl).0.db.tokens;
      id in t' && t'[id] == s.world.db.tokens[id]
  {
    var e := TokenFamilies.StepHasEffect(s.world, a, ttl);
    match a
    case RefreshWith(other, _) => assert !OwnToken(s, other);
    case LogoutWith(Some(other), _) => assert !OwnToken(s, other);
    case _ =>
  }

  lemma ElsewhereKeepsKnown(s: System, a: TokenFamilies.Action, ttl: Time, raw: RawToken, revoked: bool)
    requires Fresh(s.world) && ByOthers(s, a) && KnownAs(s.world.db.tokens, s.family, raw, revoked)
    ensures KnownAs(TokenFamilies.Step(s.world, a, ttl).0.db.tokens, s.family, raw, revoked)
  {
    var t := s.world.db.tokens;
    var id: TokenId :| HasHash(t, HashRefreshToken(raw), id) && t[id].familyId == s.family
        && (t[id].IsRevoked() <==> revoked);
    ElsewhereKeepsRow(s, a, ttl, id);
    assert HasHash(TokenFamilies.Step(s.world, a, ttl).0.db.tokens, HashRefreshToken(raw), id);
  }

  lemma ElsewhereKeepsDead(s: System, a: TokenFamilies.Action, ttl: Time)
    requires Fresh(s.world) && ByOthers(s, a) && s.family < s.world.supply
    ensures TokenFamilies.Dead(TokenFamilies.Step(s.world, a, ttl).0.db.tokens, s.family)
      <==> TokenFamilies.Dead(s.world.db.tokens, s.family)
  {
    if TokenFamilies.Dead(s.world.db.tokens, s.family) {
      TokenFamilies.StepKeepsDead(s.world, a, ttl, s.family);
    } else {
      var id :| LiveIn(s.world.db.tokens, s.family, id);
      ElsewhereKeepsRow(s, a, ttl, id);
      assert LiveIn(TokenFamilies.Step(s.world, a, ttl).0.db.tokens, s.family, id);
    }
  }

  // --- one event keeps the tokens accounted for ---------------------------------------------

  /** The tokens after a rotation was processed. */
  lemma ProcessKeepsKnown(s: System, k: nat, fault: Fault, ttl: Time, other: RawToken)
    requires Fresh(s.world) && Accounted(s) && k < |s.wire| && s.wire[k].Ask?
    requires KnownAs(s.world.db.tokens, s.family, other, Void(s.log, other))
    ensures var s' := Processed(s, k, fault, ttl);
      && KnownAs(s'.world.db.tokens, s.family, other, Void(s'.log, other))
      && (Detected(s'.log) <==> TokenFamilies.Dead(s'.world.db.tokens, s.family))
      && s.wire[k].cookie < s'.world.supply && s.world.supply <= s'.world.supply
      && (IsGrant(s'.wire[k]) ==>
            var raw := s'.wire[k].setCookie.value;
            && other < raw && raw == s.world.supply && s.wire[k].cookie < raw
            && KnownAs(s'.world.db.tokens, s.family, raw, Void(s'.log, raw)))
  {
    var c, s' := s.wire[k].cookie, Processed(s, k, fault, ttl);
    assert s.wire[k] in s.wire && Carried(s.wire[k]) == Some(c);
    var a := s'.log[|s.log|];
    RefreshOfOwnToken(s.world, s.family, c, Void(s.log, c), ttl, fault, other, Void(s.log, other));
    RefreshOfOwnToken(s.world, s.family, c, Void(s.log, c), ttl, fault, c, Void(s.log, c));
    LogGrows(s.log, a, other);
    LogGrows(s.log, a, s.world.supply);
  }

  lemma LogGrows(log: seq<Answer>, a: Answer, raw: RawToken)
    ensures Exchanged(log + [a], raw) <==> Exchanged(log, raw) || (a.cookie == raw && a.outcome.Issued?)
    ensures Detected(log + [a]) <==> Detected(log) || a.outcome.ReplayDetected?
  {
    assert a in log + [a];
    assert forall b :: b in log ==> b in log + [a];
  }

  /** What an event may do to the tokens without the server: the wire holds no token that was not
      held before, by it or by the client. */
  ghost predicate NoNewTokens(s: System, s': System) {
    && s'.world == s.world && s'.log == s.log && s'.family == s.family
    && (s'.client.cookie == s.client.cookie || exists m :: m in s.wire && Carried(m) == Some(s'.client.cookie))
    && (forall m :: m in s'.wire && Carried(m).Some? ==>
          Carried(m) == Some(s.client.cookie) || exists m0 :: m0 in s.wire && Carried(m0) == Carried(m))
  }

  lemma NoNewTokensKeepAccounted(s: System, s': System)
    requires Accounted(s) && NoNewTokens(s, s')
    ensures Accounted(s')
  {
  }

  lemma OthersAddNoTokens(s: System, e: Event, ttl: Time)
    requires Fresh(s.world) && Enabled(s, e) && !e.Process? && !e.Elsewhere?
    ensures NoNewTokens(s, Next(s, e, ttl))
  {
    var s' := Next(s, e, ttl);
    match e
    case Drop(k) => WithoutKeepsRest(s.wire, k);
    case Read(k, _) => WithoutKeepsRest(s.wire, k);
    case Arrive(k) =>
      WithoutKeepsRest(s.wire, k);
      assert s.wire[k] in s.wire && Carried(s.wire[k]) == s.wire[k].setCookie;
    case _ =>
  }

  lemma WithoutKeepsRest(wire: seq<Message>, k: nat)
    requires k < |wire|
    ensures forall m :: m in Without(wire, k) ==> m in wire
  {
  }

  lemma ProcessKeepsAccounted(s: System, k: nat, fault: Fault, ttl: Time)
    requires Fresh(s.world) && Accounted(s) && k < |s.wire| && s.wire[k].Ask?
    ensures Accounted(Processed(s, k, fault, ttl))
  {
    var s' := Processed(s, k, fault, ttl);
    ProcessKeepsKnown(s, k, fault, ttl, s.client.cookie);
    forall m | m in s'.wire && Carried(m).Some?
      ensures KnownAs(s'.world.db.tokens, s'.family, Carried(m).value, Void(s'.log, Carried(m).value))
    {
      if m != s'.wire[k] {
        assert m in s.wire;
        ProcessKeepsKnown(s, k, fault, ttl, Carried(m).value);
      }
    }
  }

  lemma ElsewhereKeepsAccounted(s: System, a: TokenFamilies.Action, ttl: Time)
    requires Fresh(s.world) && Accounted(s) && ByOthers(s, a)
    ensures Accounted(s.(world := TokenFamilies.Step(s.world, a, ttl).0))
  {
    var s' := s.(world := TokenFamilies.Step(s.world, a, ttl).0);
    ElsewhereKeepsKnown(s, a, ttl, s.client.cookie, Void(s.log, s.client.cookie));
    ElsewhereKeepsDead(s, a, ttl);
    assert s.world.supply <= s'.world.supply by { var _ := TokenFamilies.StepHasEffect(s.world, a, ttl); }
    forall m | m in s'.wire && Carried(m).Some?
      ensures KnownAs(s'.world.db.tokens, s'.family, Carried(m).value, Void(s'.log, Carried(m).value))
    {
      ElsewhereKeepsKnown(s, a, ttl, Carried(m).value, Void(s.log, Carried(m).value));
    }
  }

  lemma NextKeepsAccounted(s: System, e: Event, ttl: Time)
    requires Fresh(s.world) && Accounted(s)
    ensures Accounted(Next(s, e, ttl))
  {
    if Enabled(s, e) {
      if e.Process? {
        ProcessKeepsAccounted(s, e.slot, e.fault, ttl);
      } else if e.Elsewhere? {
        ElsewhereKeepsAccounted(s, e.action, ttl);
      } else {
        OthersAddNoTokens(s, e, ttl);
        NoNewTokensKeepAccounted(s, Next(s, e, ttl));
      }
    }
  }

  // --- successors on their way --------------------------------------------------------------

  lemma AskingKeepsTransit(s: System)
    requires InTransit(s)
    ensures InTransit(Asked(s))
  {
    var s' := Asked(s);
    forall k | 0 <= k < |s'.wire| && IsGrant(s'.wire[k])
      ensures Unpresented(s', k)
    {
      assert Unpresented(s, k);
    }
  }

  lemma RemovalKeepsTransit(s: System, k: nat)
    requires InTransit(s) && k < |s.wire|
    ensures InTransit(s.(wire := Without(s.wire, k)))
  {
    var s' := s.(wire := Without(s.wire, k));
    forall i | 0 <= i < |s'.wire| && IsGrant(s'.wire[i])
      ensures Unpresented(s', i)
    {
      assert Unpresented(s, if i < k then i else i + 1);
    }
  }

  lemma ArrivalKeepsTransit(s: System, k: nat)
    requires InTransit(s) && k < |s.wire| && s.wire[k].Reply?
    ensures InTransit(Arrived(s, k))
  {
    if IsGrant(s.wire[k]) {
      var s' := Arrived(s, k);
      assert Unpresented(s, k);
      forall i | 0 <= i < |s'.wire| && IsGrant(s'.wire[i])
        ensures Unpresented(s', i)
      {
        assert Unpresented(s, i) && Carried(s.wire[i]) != s.wire[k].setCookie;
      }
    } else {
      RemovalKeepsTransit(s, k);
    }
  }

  /** A new token is larger than any token in use. */
  lemma GrantIsNew(s: System, k: nat, fault: Fault, ttl: Time)
    requires Fresh(s.world) && Accounted(s) && k < |s.wire| && s.wire[k].Ask?
    requires IsGrant(Processed(s, k, fault, ttl).wire[k])
    ensures var raw := Processed(s, k, fault, ttl).wire[k].setCookie.value;
      && raw == s.world.supply && s.client.cookie < raw && s.wire[k].cookie < raw
      && (forall l :: 0 <= l < |s.wire| && Carried(s.wire[l]).Some? ==> Carried(s.wire[l]).value < raw)
  {
    ProcessKeepsKnown(s, k, fault, ttl, s.client.cookie);
    forall l | 0 <= l < |s.wire| && Carried(s.wire[l]).Some?
      ensures Carried(s.wire[l]).value < s.world.supply
    {
      assert s.wire[l] in s.wire;
      ProcessKeepsKnown(s, k, fault, ttl, Carried(s.wire[l]).value);
    }
  }

  lemma ProcessKeepsTransit(s: System, k: nat, fault: Fault, ttl: Time)
    requires Fresh(s.world) && Accounted(s) && InTransit(s) && k < |s.wire| && s.wire[k].Ask?
    ensures InTransit(Processed(s, k, fault, ttl))
  {
    var s' := Processed(s, k, fault, ttl);
    if IsGrant(s'.wire[k]) { GrantIsNew(s, k, fault, ttl); }
    forall i | 0 <= i < |s'.wire| && IsGrant(s'.wire[i])
      ensures Unpresented(s', i)
    {
      if i != k {
        assert Unpresented(s, i) && Carried(s.wire[k]) != s.wire[i].setCookie;
      }
    }
  }

  /** An event that changes neither the cookie, the wire nor the log. */
  lemma TransitIgnoresRest(s: System, s': System)
    requires InTransit(s) && s'.client.cookie == s.client.cookie && s'.wire == s.wire && s'.log == s.log
    ensures InTransit(s')
  {
    forall k | 0 <= k < |s'.wire| && IsGrant(s'.wire[k])
      ensures Unpresented(s', k)
    {
      assert Unpresented(s, k);
    }
  }

  lemma NextKeepsTransit(s: System, e: Event, ttl: Time)
    requires Fresh(s.world) && Accounted(s) && InTransit(s)
    ensures InTransit(Next(s, e, ttl))
  {
    var s' := Next(s, e, ttl);
    if Enabled(s, e) {
      match e
      case Restore => AskingKeepsTransit(s);
      case Reload => ReloadKeepsTransit(s);
      case Respond(_, _, _) => RespondKeepsTransit(s, e, ttl);
      case Process(k, fault) => ProcessKeepsTransit(s, k, fault, ttl);
      case Arrive(k) => ArrivalKeepsTransit(s, k);
      case Read(k, _) =>
        RemovalKeepsTransit(s, k);
        TransitIgnoresRest(s.(wire := Without(s.wire, k)), s');
      case Drop(k) =>
        RemovalKeepsTransit(s, k);
        TransitIgnoresRest(s.(wire := Without(s.wire, k)), s');
      case _ => TransitIgnoresRest(s, s');
    }
  }

  lemma ReloadKeepsTransit(s: System)
    requires InTransit(s)
    ensures InTransit(Reloaded(s))
  {
    var left := GivenUp(s);
    var cleared := left.(client := left.client.(accessToken := None, requests := []));
    TransitIgnoresRest(s, cleared);
    AskingKeepsTransit(cleared);
  }

  lemma RespondKeepsTransit(s: System, e: Event, ttl: Time)
    requires Fresh(s.world) && InTransit(s) && e.Respond? && Enabled(s, e)
    ensures InTransit(Next(s, e, ttl))
  {
    AskingKeepsTransit(s);
    var s' := Next(s, e, ttl);
    if s'.wire == s.wire { TransitIgnoresRest(s, s'); } else { TransitIgnoresRest(Asked(s), s'); }
  }

  // --- who is to blame ----------------------------------------------------------------------

  lemma AskingKeepsBlame(s: System)
    requires SingleFlight(s.client, s.wire) && Blamed(s)
    ensures Blamed(Asked(s))
  {
    var s' := Asked(s);
    if s.client.refreshInFlight.None? {
      assert forall m :: m in s'.wire <==> m in s.wire || m == Ask(s.client.nextPromise, s.client.cookie);
    }
  }

  lemma GivingUpKeepsBlame(s: System)
    requires Blamed(s)
    ensures Blamed(GivenUp(s))
  {
  }

  lemma RemovalKeepsBlame(s: System, k: nat)
    requires Blamed(s) && k < |s.wire|
    ensures Blamed(Dropped(s, k))
  {
    WithoutKeepsRest(s.wire, k);
    var s' := Dropped(s, k);
    forall a | a in s'.log && a.outcome.Issued? && a.cookie == s'.client.cookie
      ensures a.promise in s'.forsaken || GrantUnderway(s', a.promise)
    {
      if a.promise !in s'.forsaken {
        assert GrantUnderway(s, a.promise);
        var m :| m in s.wire && m.promise == a.promise && IsGrant(m);
        assert m in Without(s.wire, k);
      }
    }
  }

  lemma SettlingKeepsBlame(s: System, k: nat, token: Option<AccessToken>)
    requires SingleFlight(s.client, s.wire) && Blamed(s) && k < |s.wire|
    requires Awaited(s.client, s.wire[k]) && !Outstanding(s.wire[k])
    ensures Blamed(s.(client := Settled(s.client, s.wire[k].promise, token)))
  {
  }

  lemma ArrivalOfGrantKeepsBlame(s: System, k: nat)
    requires Blamed(s) && InTransit(s) && k < |s.wire| && IsGrant(s.wire[k])
    ensures Blamed(Arrived(s, k))
  {
    var s' := Arrived(s, k);
    assert Unpresented(s, k);
    assert forall m :: m in s'.wire ==> m in s.wire || m == Body(s.wire[k].promise);
  }

  /** Of two rotations with one token, the earlier is the abandoned one. */
  lemma EarlierIsForsaken(s: System, k: nat, l: nat)
    requires SingleFlight(s.client, s.wire) && Blamed(s) && k < |s.wire| && l < |s.wire| && k != l
    requires Outstanding(s.wire[k]) && Outstanding(s.wire[l])
    ensures Earlier(s.wire[k].promise, s.wire[l].promise) in s.forsaken
  {
    assert s.wire[k] in s.wire && s.wire[l] in s.wire;
    assert s.wire[k].promise != s.wire[l].promise;
  }

  /** Every exchange of a token that is presented again is put down to the earlier rotation. */
  lemma ProcessBlamesReuse(s: System, k: nat, fault: Fault, ttl: Time, b: Answer, l: nat)
    requires Fresh(s.world) && SingleFlight(s.client, s.wire) && Blamed(s)
    requires k < |s.wire| && s.wire[k].Ask? && l < |s.wire| && l != k && s.wire[l].Ask?
    requires b in Processed(s, k, fault, ttl).log && b.outcome.Issued? && b.cookie == s.wire[l].cookie
    ensures Earlier(b.promise, s.wire[l].promise) in s.forsaken
  {
    assert s.wire[l] in s.wire;
    if b !in s.log { EarlierIsForsaken(s, k, l); }
  }

  /** An exchange of the cookie held is under way to the client, or put down to its rotation. */
  lemma ProcessBlamesExchange(s: System, k: nat, fault: Fault, ttl: Time, b: Answer)
    requires Fresh(s.world) && Blamed(s) && k < |s.wire| && s.wire[k].Ask?
    requires b in Processed(s, k, fault, ttl).log && b.outcome.Issued? && b.cookie == s.client.cookie
    ensures b.promise in s.forsaken || GrantUnderway(Processed(s, k, fault, ttl), b.promise)
  {
    var s' := Processed(s, k, fault, ttl);
    if b in s.log {
      if b.promise !in s.forsaken {
        var l :| 0 <= l < |s.wire| && s.wire[l].promise == b.promise && IsGrant(s.wire[l]);
        assert s'.wire[l] in s'.wire;
      }
    } else {
      assert s.wire[k] in s.wire && s'.wire[k] in s'.wire;
    }
  }

  lemma ProcessBlamesDetection(s: System, k: nat, fault: Fault, ttl: Time)
    requires Fresh(s.world) && Accounted(s) && Blamed(s) && k < |s.wire| && s.wire[k].Ask?
    requires Detected(Processed(s, k, fault, ttl).log)
    ensures s.forsaken != {}
  {
    var s', c := Processed(s, k, fault, ttl), s.wire[k].cookie;
    assert s.wire[k] in s.wire && Carried(s.wire[k]) == Some(c);
    LogGrows(s.log, s'.log[|s.log|], c);
    RefreshOfOwnToken(s.world, s.family, c, Void(s.log, c), ttl, fault, c, Void(s.log, c));
  }

  lemma ProcessKeepsBlame(s: System, k: nat, fault: Fault, ttl: Time)
    requires Fresh(s.world) && SingleFlight(s.client, s.wire) && Accounted(s) && Blamed(s)
    requires k < |s.wire| && s.wire[k].Ask?
    ensures Blamed(Processed(s, k, fault, ttl))
  {
    var s' := Processed(s, k, fault, ttl);
    assert s.wire[k] in s.wire;
    forall b, n | b in s'.log && n in s'.wire && b.outcome.Issued? && n.Ask? && n.cookie == b.cookie
      ensures Earlier(b.promise, n.promise) in s'.forsaken
    {
      var l :| 0 <= l < |s'.wire| && s'.wire[l] == n;
      ProcessBlamesReuse(s, k, fault, ttl, b, l);
    }
    forall b | b in s'.log && b.outcome.Issued? && b.cookie == s'.client.cookie
      ensures b.promise in s'.forsaken || GrantUnderway(s', b.promise)
    {
      ProcessBlamesExchange(s, k, fault, ttl, b);
    }
    if Detected(s'.log) { ProcessBlamesDetection(s, k, fault, ttl); }
  }

  lemma ReadingKeepsBlame(s: System, k: nat, token: Option<AccessToken>)
    requires SingleFlight(s.client, s.wire) && Blamed(s) && k < |s.wire|
    requires Awaited(s.client, s.wire[k]) && !Outstanding(s.wire[k])
    ensures Blamed(s.(client := Settled(s.client, s.wire[k].promise, token), wire := Without(s.wire, k)))
  {
    SettlingKeepsBlame(s, k, token);
    var settled := s.(client := Settled(s.client, s.wire[k].promise, token));
    RemovalKeepsBlame(settled, k);
    assert settled.forsaken + {} == settled.forsaken;
  }

  lemma ArrivalKeepsBlame(s: System, k: nat)
    requires SingleFlight(s.client, s.wire) && Blamed(s) && InTransit(s) && k < |s.wire| && s.wire[k].Reply?
    ensures Blamed(Arrived(s, k))
  {
    if IsGrant(s.wire[k]) {
      ArrivalOfGrantKeepsBlame(s, k);
    } else if Awaited(s.client, s.wire[k]) {
      ReadingKeepsBlame(s, k, None);
    } else {
      RemovalKeepsBlame(s, k);
      assert s.forsaken + {} == s.forsaken;
    }
  }

  lemma ReloadKeepsBlame(s: System)
    requires SingleFlight(s.client, s.wire) && Blamed(s)
    ensures Blamed(Reloaded(s))
  {
    GivingUpKeepsBlame(s);
    GivingUpKeepsFlight(s);
    var left := GivenUp(s);
    var cleared := left.(client := left.client.(accessToken := None, requests := []));
    BlameIgnoresRest(left, cleared);
    AskingKeepsBlame(cleared);
  }

  lemma RespondKeepsBlame(s: System, i: nat, unauthorized: bool, ok: bool)
    requires SingleFlight(s.client, s.wire) && Blamed(s) && i < |s.client.requests|
    ensures Blamed(Responding(s, i, unauthorized, ok))
  {
    AskingKeepsBlame(s);
    var s' := Responding(s, i, unauthorized, ok);
    if s'.wire == s.wire { BlameIgnoresRest(s, s'); } else { BlameIgnoresRest(Asked(s), s'); }
  }

  lemma BlameIgnoresRest(s: System, s': System)
    requires Blamed(s) && s'.wire == s.wire && s'.log == s.log && s'.forsaken == s.forsaken
    requires s'.client.cookie == s.client.cookie && s'.client.refreshInFlight == s.client.refreshInFlight
    requires s'.client.nextPromise == s.client.nextPromise
    ensures Blamed(s')
  {
    assert forall p :: GrantUnderway(s, p) ==> GrantUnderway(s', p);
  }

  lemma NextKeepsBlame(s: System, e: Event, ttl: Time)
    requires Fresh(s.world) && SingleFlight(s.client, s.wire) && Accounted(s) && InTransit(s) && Blamed(s)
    ensures Blamed(Next(s, e, ttl))
  {
    if Enabled(s, e) {
      match e
      case Restore => AskingKeepsBlame(s);
      case Reload => ReloadKeepsBlame(s);
      case Respond(i, unauthorized, ok) => RespondKeepsBlame(s, i, unauthorized, ok);
      case Process(k, fault) => ProcessKeepsBlame(s, k, fault, ttl);
      case Arrive(k) => ArrivalKeepsBlame(s, k);
      case Read(k, token) => ReadingKeepsBlame(s, k, token);
      case GiveUp => GivingUpKeepsBlame(s);
      case Drop(k) => RemovalKeepsBlame(s, k);
      case _ => BlameIgnoresRest(s, Next(s, e, ttl));
    }
  }

  lemma NextKeepsInv(s: System, e: Event, ttl: Time)
    requires Inv(s)
    ensures Inv(Next(s, e, ttl))
  {
    NextKeepsFresh(s, e, ttl);
    NextKeepsSingleFlight(s, e, ttl);
    NextKeepsPromises(s, e, ttl);
    NextKeepsRetriesBounded(s, e, ttl);
    NextKeepsRequestsTold(s, e, ttl);
    NextKeepsAccounted(s, e, ttl);
    NextKeepsTransit(s, e, ttl);
    NextKeepsBlame(s, e, ttl);
  }
}
