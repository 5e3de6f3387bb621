/** What a login and a rotation hand out: to whom, in which family, and how long it is accepted. */
module TokenLifetimes {
  import opened Wrappers
  import opened RefreshTokens
  import opened AuthService
  import opened TokenFamilies

  /** The one row of `raw`: whose it is, in which family, and when it expires. */
  ghost predicate Holds(t: TokenTable, raw: RawToken, id: TokenId, user: UserId, family: FamilyId, expires: Time) {
    HasHash(t, HashRefreshToken(raw), id) && t[id].userId == user && t[id].familyId == family && t[id].expiresAt == expires
  }

  /** `raw` has just been issued: its row is new, unrevoked and not replaced. */
  ghost predicate JustIssued(t: TokenTable, t': TokenTable, raw: RawToken, user: UserId, family: FamilyId, expires: Time) {
    && (forall id :: !HasHash(t, HashRefreshToken(raw), id))
    && exists id ::
         id !in t && Holds(t', raw, id, user, family, expires) && !t'[id].IsRevoked() && t'[id].replacedBy == None
  }

  /** A login hands out a token exactly for a known address with the right password and an active
      account, on a database that does not fail. It then adds that one row, in a family of its own,
      for that account, valid for `ttl`; otherwise it changes nothing and says why. */
  lemma LoginIssuesExactly(w: World, user: UserId, verified: bool, ttl: Time, fault: Fault)
    requires Fresh(w)
    ensures var (w', outcome) := Login(w, user, verified, ttl, fault);
      && (outcome.Issued? <==>
            && user in w.db.users && verified && w.db.users[user]
            && fault != OnLookup && fault != OnInsert && fault != OnFinalCommit)
      && (outcome == BadCredentials <==> fault != OnLookup && (user !in w.db.users || !verified))
      && (outcome == AccountUnavailable <==>
            fault != OnLookup && user in w.db.users && verified && !w.db.users[user])
      && (!outcome.Issued? ==> w'.db == w.db)
      && (outcome.Issued? ==>
            && w'.db.users == w.db.users
            && JustIssued(w.db.tokens, w'.db.tokens, outcome.raw, user, outcome.family, w.now + ttl)
            && (forall id :: id in w.db.tokens ==>
                  w.db.tokens[id].familyId != outcome.family && id in w'.db.tokens && w'.db.tokens[id] == w.db.tokens[id])
            && |w'.db.tokens| == |w.db.tokens| + 1)
  {
    var (w', outcome) := Login(w, user, verified, ttl, fault);
    if outcome.Issued? {
      assert w.supply + 2 !in w.db.tokens;
      assert Holds(w'.db.tokens, outcome.raw, w.supply + 2, user, outcome.family, w.now + ttl);
    }
  }

  /** What a refresh answers, told by the row of the token presented. */
  lemma RefreshAnswersExactly(w: World, raw: RawToken, ttl: Time, fault: Fault, id: TokenId)
    requires Fresh(w) && HasHash(w.db.tokens, HashRefreshToken(raw), id) && fault != OnLookup
    ensures var row, outcome := w.db.tokens[id], Refresh(w, raw, ttl, fault).1;
      var active := row.userId in w.db.users && w.db.users[row.userId];
      if row.IsRevoked() then outcome == if BreaksReplay(fault) then DatabaseError else ReplayDetected(row.familyId)
      else if row.expiresAt <= w.now then outcome == TokenExpired
      else if fault == OnUserLookup then outcome == DatabaseError
      else if !active then outcome == AccountUnavailable
      else if BreaksRotation(fault) then outcome == DatabaseError
      else outcome.Issued? && outcome.family == row.familyId
  {
    assert FindByHash(w.db.tokens, HashRefreshToken(raw)) == Some(id);
  }

  lemma UnknownTokenIsRefused(w: World, raw: RawToken, ttl: Time, fault: Fault)
    requires Fresh(w) && (forall id :: !HasHash(w.db.tokens, HashRefreshToken(raw), id))
    ensures Refresh(w, raw, ttl, fault) == (w, if fault == OnLookup then DatabaseError else UnknownToken)
  {
  }

  /** A rotation hands the account of the token presented an heir in the same family, valid for `ttl`
      from now, and stamps the token presented with the time and the heir. */
  lemma RotationIssuesHeir(w: World, raw: RawToken, ttl: Time, fault: Fault) returns (spent: TokenId)
    requires Fresh(w) && Refresh(w, raw, ttl, fault).1.Issued?
    ensures HasHash(w.db.tokens, HashRefreshToken(raw), spent)
    ensures var (w', outcome) := Refresh(w, raw, ttl, fault);
      var row := w.db.tokens[spent];
      && JustIssued(w.db.tokens, w'.db.tokens, outcome.raw, row.userId, row.familyId, w.now + ttl)
      && outcome.family == row.familyId && w'.db.users == w.db.users
      && spent in w'.db.tokens && w'.db.tokens[spent].replacedBy.Some?
      && HasHash(w'.db.tokens, HashRefreshToken(outcome.raw), w'.db.tokens[spent].replacedBy.value)
      && w'.db.tokens[spent] == row.(revokedAt := Some(w.now), replacedBy := w'.db.tokens[spent].replacedBy)
  {
    spent := Classify(w.db, raw, w.now).id;
    var (w', outcome) := Refresh(w, raw, ttl, fault);
    assert w.supply + 1 !in w.db.tokens;
    assert Holds(w'.db.tokens, outcome.raw, w.supply + 1, w.db.tokens[spent].userId, outcome.family, w.now + ttl);
  }

  /** A detected replay stamps the live tokens of its family with the time and touches no other row;
      so does a logout. */
  lemma RevocationIsExact(t: TokenTable, family: FamilyId, now: Time, id: TokenId)
    ensures id in FamilyRevoked(t, family, now) <==> id in t
    ensures id in t ==>
      FamilyRevoked(t, family, now)[id] ==
      if t[id].familyId == family && t[id].revokedAt == None then t[id].(revokedAt := Some(now)) else t[id]
  {
  }

  /** An unrevoked token is accepted exactly until it expires, while its account is active. */
  lemma AcceptedExactlyUntilExpiry(w: World, raw: RawToken, ttl: Time, id: TokenId, user: UserId, family: FamilyId,
                                   expires: Time)
    requires Fresh(w) && Holds(w.db.tokens, raw, id, user, family, expires)
    ensures Refresh(w, raw, ttl, NoFault).1.Issued? <==>
      !w.db.tokens[id].IsRevoked() && w.now < expires && user in w.db.users && w.db.users[user]
  {
    RefreshAnswersExactly(w, raw, ttl, NoFault, id);
  }

  /** The token of a login is accepted at exactly the times before the login plus `ttl`. */
  lemma LoginTokenIsAccepted(w: World, user: UserId, ttl: Time, fault: Fault, n: Time)
    requires Fresh(w) && Login(w, user, true, ttl, fault).1.Issued?
    ensures var (w', outcome) := Login(w, user, true, ttl, fault);
      Fresh(w'.(now := n)) && (Refresh(w'.(now := n), outcome.raw, ttl, NoFault).1.Issued? <==> n < w.now + ttl)
  {
    LoginIssuesExactly(w, user, true, ttl, fault);
    StepKeepsFresh(w, LoginAs(user, true, fault), ttl);
    var (w', outcome) := Login(w, user, true, ttl, fault);
    var id :| id !in w.db.tokens && Holds(w'.db.tokens, outcome.raw, id, user, outcome.family, w.now + ttl)
              && !w'.db.tokens[id].IsRevoked();
    AcceptedExactlyUntilExpiry(w'.(now := n), outcome.raw, ttl, id, user, outcome.family, w.now + ttl);
  }

  /** So is the heir of a rotation. */
  lemma HeirIsAccepted(w: World, raw: RawToken, ttl: Time, fault: Fault, n: Time)
    requires Fresh(w) && Refresh(w, raw, ttl, fault).1.Issued?
    ensures var (w', outcome) := Refresh(w, raw, ttl, fault);
      Fresh(w'.(now := n)) && (Refresh(w'.(now := n), outcome.raw, ttl, NoFault).1.Issued? <==> n < w.now + ttl)
  {
    var spent := RotationIssuesHeir(w, raw, ttl, fault);
    RefreshCommitsAllOrNothing(w, raw, ttl, fault);
    StepKeepsFresh(w, RefreshWith(raw, fault), ttl);
    var (w', outcome) := Refresh(w, raw, ttl, fault);
    var user, family := w.db.tokens[spent].userId, w.db.tokens[spent].familyId;
    var id :| id !in w.db.tokens && Holds(w'.db.tokens, outcome.raw, id, user, family, w.now + ttl)
              && !w'.db.tokens[id].IsRevoked();
    AcceptedExactlyUntilExpiry(w'.(now := n), outcome.raw, ttl, id, user, family, w.now + ttl);
  }

  // --- over a run ---------------------------------------------------------------------------

  /** The account a request issues to: the one that logs in, or that of the token presented. */
  ghost predicate IssuedTo(w: World, a: Action, user: UserId) {
    match a
    case LoginAs(u, _, _) => u == user
    case RefreshWith(raw, _) =>
      exists id :: HasHash(w.db.tokens, HashRefreshToken(raw), id) && w.db.tokens[id].userId == user
    case _ => false
  }

  lemma StepIssues(w: World, a: Action, ttl: Time) returns (id: TokenId, user: UserId)
    requires Fresh(w) && Step(w, a, ttl).1.Issued?
    ensures IssuedTo(w, a, user)
    ensures var (w', outcome) := Step(w, a, ttl);
      Holds(w'.db.tokens, outcome.raw, id, user, outcome.family, w.now + ttl)
  {
    var (w', outcome) := Step(w, a, ttl);
    match a
    case LoginAs(u, verified, fault) =>
      LoginIssuesExactly(w, u, verified, ttl, fault);
      user := u;
      id :| id !in w.db.tokens && Holds(w'.db.tokens, outcome.raw, id, u, outcome.family, w.now + ttl);
    case RefreshWith(raw, fault) =>
      var spent := RotationIssuesHeir(w, raw, ttl, fault);
      user := w.db.tokens[spent].userId;
      id :| id !in w.db.tokens && Holds(w'.db.tokens, outcome.raw, id, user, outcome.family, w.now + ttl);
    case _ =>
  }

  /** In any run, a token issued at any point belongs for ever to the account it was issued to, and at
      the end of the run it is accepted exactly when its row is unrevoked, less than `ttl` has passed
      since, and the account is active. */
  lemma TokenLivesUntilRevokedOrExpired(w: World, actions: seq<Action>, ttl: Time, n: nat)
    returns (id: TokenId, user: UserId)
    requires Initial(w) && n < |actions| && Step(Run(w, actions[..n], ttl).world, actions[n], ttl).1.Issued?
    ensures IssuedTo(Run(w, actions[..n], ttl).world, actions[n], user)
    ensures var before, after := Run(w, actions[..n], ttl).world, Run(w, actions, ttl).world;
      var outcome := Step(before, actions[n], ttl).1;
      && Holds(after.db.tokens, outcome.raw, id, user, outcome.family, before.now + ttl)
      && (Refresh(after, outcome.raw, ttl, NoFault).1.Issued? <==>
            && !after.db.tokens[id].IsRevoked() && after.now < before.now + ttl
            && user in after.db.users && after.db.users[user])
  {
    var before := Run(w, actions[..n], ttl).world;
    var outcome := Step(before, actions[n], ttl).1;
    id, user := StepIssues(before, actions[n], ttl);
    RunOfPrefix(w, actions, n, ttl);
    RunContinues(w, actions, n + 1, ttl);
    AcceptedExactlyUntilExpiry(Run(w, actions, ttl).world, outcome.raw, ttl, id, user, outcome.family, before.now + ttl);
  }

  /** A detected replay, and a logout, stamp every unrevoked token of the family with the present time. */
  lemma RevocationIsStampedNow(w: World, raw: RawToken, ttl: Time, fault: Fault, id: TokenId)
    requires Fresh(w) && id in w.db.tokens && !w.db.tokens[id].IsRevoked()
    ensures var (w', outcome) := Refresh(w, raw, ttl, fault);
      outcome.ReplayDetected? && w.db.tokens[id].familyId == outcome.family ==>
        id in w'.db.tokens && w'.db.tokens[id] == w.db.tokens[id].(revokedAt := Some(w.now))
    ensures var w' := Logout(w, Some(raw), fault).0;
      w'.db != w.db && id in w'.db.tokens && w'.db.tokens[id].IsRevoked() ==>
        w'.db.tokens[id] == w.db.tokens[id].(revokedAt := Some(w.now))
  {
  }
}
