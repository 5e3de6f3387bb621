/** Login, rotation and logout over the token table, each request one unit of work. */
module AuthService {
  import opened Wrappers
  import opened RefreshTokens
  import opened UnitOfWork

  /** `users` maps an account to its `is_active` flag. */
  datatype AuthDb = AuthDb(users: map<UserId, bool>, tokens: TokenTable)

  /** A database error raised by one of the statements of a request. */
  datatype Fault =
    | NoFault
    | OnLookup
    | OnUserLookup
    | OnInsert
    | OnSuccessorLookup
    | OnRevoke
    | OnReplayRevoke
    | OnReplayCommit
    | OnFinalCommit

  /** The statements a replayed token reaches before its family's revocation is committed. */
  predicate BreaksReplay(fault: Fault) {
    fault == OnLookup || fault == OnReplayRevoke || fault == OnReplayCommit
  }

  /** The statements an accepted rotation needs. */
  predicate BreaksRotation(fault: Fault) {
    fault != NoFault && fault != OnReplayRevoke && fault != OnReplayCommit
  }

  /** Why a request ended as it did. The API answers every rejection with the same 401. */
  datatype Outcome =
    | Issued(raw: RawToken, family: FamilyId)
    | BadCredentials
    | UnknownToken
    | ReplayDetected(family: FamilyId)
    | TokenExpired
    | AccountUnavailable
    | LoggedOut
    | DatabaseError

  /** What the stored state says about a presented token, before anything is written. */
  datatype Verdict = Unknown | Replay(id: TokenId) | Stale(id: TokenId) | NoAccount(id: TokenId) | Rotate(id: TokenId)

  ghost function Classify(db: AuthDb, raw: RawToken, now: Time): Verdict {
    match FindByHash(db.tokens, HashRefreshToken(raw))
    case None => Unknown
    case Some(id) =>
      var row := db.tokens[id];
      if row.IsRevoked() then Replay(id)
      else if row.expiresAt <= now then Stale(id)
      else if row.userId !in db.users || !db.users[row.userId] then NoAccount(id)
      else Rotate(id)
  }

  function NewRow(user: UserId, raw: RawToken, family: FamilyId, expires: Time): TokenRow {
    TokenRow(user, HashRefreshToken(raw), family, expires, None, None)
  }

  /** The table after a rotation: the successor is added and the spent row points at it. */
  function Rotated(t: TokenTable, id: TokenId, newRaw: RawToken, newId: TokenId, now: Time, ttl: Time): TokenTable
    requires id in t && newId != id
  {
    Revoked(t[newId := NewRow(t[id].userId, newRaw, t[id].familyId, now + ttl)], id, now, Some(newId))
  }

  /** Committed state, the supply of fresh identifiers, and the clock. */
  datatype World = World(db: AuthDb, supply: nat, now: Time)

  /** Hashes are unique and everything stored was drawn from the supply. */
  ghost predicate FreshTable(t: TokenTable, supply: nat) {
    && UniqueHashes(t)
    && forall id :: id in t ==> id < supply && t[id].tokenHash.preimage < supply && t[id].familyId < supply
  }

  ghost predicate Fresh(w: World) {
    FreshTable(w.db.tokens, w.supply)
  }

  /** The committed effect and the outcome of `POST /auth/refresh` on a whole unit of work. */
  ghost function Refresh(w: World, raw: RawToken, ttl: Time, fault: Fault): (World, Outcome)
    requires Fresh(w)
  {
    if fault == OnLookup then (w, DatabaseError)
    else
    match Classify(w.db, raw, w.now)
    case Unknown => (w, UnknownToken)
    case Stale(_) => (w, TokenExpired)
    case NoAccount(_) => (w, if fault == OnUserLookup then DatabaseError else AccountUnavailable)
    case Replay(id) =>
      if BreaksReplay(fault) then (w, DatabaseError)
      else
        var family := w.db.tokens[id].familyId;
        (w.(db := w.db.(tokens := FamilyRevoked(w.db.tokens, family, w.now))), ReplayDetected(family))
    case Rotate(id) =>
      var w' := if fault == OnUserLookup then w else w.(supply := w.supply + 2);
      if BreaksRotation(fault) then (w', DatabaseError)
      else
        (w'.(db := w.db.(tokens := Rotated(w.db.tokens, id, w.supply, w.supply + 1, w.now, ttl))),
         Issued(w.supply, w.db.tokens[id].familyId))
  }

  /** `POST /auth/login` for the account with the email address given, if there is one; the last
      two checks come after the password: a new family of one token. */
  ghost function Login(w: World, user: UserId, verified: bool, ttl: Time, fault: Fault): (World, Outcome)
  {
    if fault == OnLookup then (w, DatabaseError)
    else if user !in w.db.users || !verified then (w, BadCredentials)
    else if !w.db.users[user] then (w, AccountUnavailable)
    else
      var w' := w.(supply := w.supply + 3);
      if fault == OnInsert || fault == OnFinalCommit then (w', DatabaseError)
      else
        var row := NewRow(user, w.supply, w.supply + 1, w.now + ttl);
        (w'.(db := w.db.(tokens := w.db.tokens[w.supply + 2 := row])), Issued(w.supply, w.supply + 1))
  }

  /** `POST /auth/logout`: idempotent, and silent about absent or unknown tokens. */
  ghost function Logout(w: World, raw: Option<RawToken>, fault: Fault): (World, Outcome)
  {
    if raw.None? then (w, LoggedOut)
    else if fault == OnLookup then (w, DatabaseError)
    else
      match FindByHash(w.db.tokens, HashRefreshToken(raw.value))
      case None => (w, LoggedOut)
      case Some(id) =>
        if fault == OnReplayRevoke || fault == OnFinalCommit then (w, DatabaseError)
        else (w.(db := w.db.(tokens := FamilyRevoked(w.db.tokens, w.db.tokens[id].familyId, w.now))), LoggedOut)
  }

  /** One request's service: the session it was given, the clock and the random source. */
  class AuthService {
    const session: Session<AuthDb>
    const ttl: Time
    var supply: nat
    var now: Time

    constructor (session: Session<AuthDb>, ttl: Time, supply: nat, now: Time)
      ensures this.session == session && this.ttl == ttl && this.supply == supply && this.now == now
    {
      this.session, this.ttl, this.supply, this.now := session, ttl, supply, now;
    }

    /** Committed state, at the start of a request: nothing is pending. */
    ghost predicate Idle()
      reads this, session
    {
      session.working == session.committed && Fresh(View())
    }

    ghost function View(): World
      reads this, session
    {
      World(session.committed, supply, now)
    }

    method GetByHash(h: Digest) returns (r: Option<TokenId>)
      requires UniqueHashes(session.working.tokens)
      ensures r == FindByHash(session.working.tokens, h)
    {
      var t := session.working.tokens;
      if id :| id in t && t[id].tokenHash == h {
        assert HasHash(t, h, id);
        r := Some(id);
      } else {
        r := None;
        assert forall id :: !HasHash(t, h, id);
      }
    }

    method RevokeFamily(family: FamilyId) returns (count: nat)
      modifies session
      ensures session.committed == old(session.committed)
      ensures session.working == old(session.working).(tokens := FamilyRevoked(old(session.working.tokens), family, now))
      ensures count == |set id | id in old(session.working.tokens) && LiveIn(old(session.working.tokens), family, id)|
    {
      var t := session.working.tokens;
      count := |set id | id in t && LiveIn(t, family, id)|;
      session.working := session.working.(tokens := FamilyRevoked(t, family, now));
    }

    /** Issue a token in `family`, or in a new family; false when the insert raises. */
    method IssueTokens(user: UserId, family: Option<FamilyId>, fault: Fault)
      returns (ok: bool, raw: RawToken, usedFamily: FamilyId, id: TokenId)
      modifies this, session
      ensures now == old(now)
      ensures session.committed == old(session.committed)
      ensures ok == (fault != OnInsert)
      ensures raw == old(supply)
      ensures usedFamily == if family.Some? then family.value else old(supply) + 1
      ensures id == supply - 1 && supply == old(supply) + if family.Some? then 2 else 3
      ensures session.working == if ok
        then old(session.working).(tokens := old(session.working.tokens)[id := NewRow(user, raw, usedFamily, now + ttl)])
        else old(session.working)
    {
      raw := supply;
      supply := supply + 1;
      if family.Some? {
        usedFamily := family.value;
      } else {
        usedFamily := supply;
        supply := supply + 1;
      }
      id := supply;
      supply := supply + 1;
      ok := fault != OnInsert;
      if ok {
        session.working := session.working.(tokens :=
            session.working.tokens[id := NewRow(user, raw, usedFamily, now + ttl)]);
      }
    }

    /** The body of `rotate_refresh_token`. Note the commit before the replay branch raises. */
    method RotateRefreshToken(raw: RawToken, fault: Fault) returns (outcome: Outcome)
      requires Idle()
      modifies this, session
      ensures now == old(now)
      // A raising body has committed exactly what its request commits.
      ensures var (w, rejected) := Refresh(old(View()), raw, ttl, fault);
        supply == w.supply && (!outcome.Issued? ==> View() == w && outcome == rejected)
      // A returning body has committed nothing yet.
      ensures outcome.Issued? ==> session.committed == old(session.committed)
      ensures outcome.Issued? ==> Classify(old(session.committed), raw, now).Rotate?
      ensures outcome.Issued? ==> var id := Classify(old(session.committed), raw, now).id;
        && outcome == Issued(old(supply), old(session.committed.tokens)[id].familyId)
        && (BreaksRotation(fault) ==> fault == OnFinalCommit)
        && session.working == old(session.committed).(tokens :=
             Rotated(old(session.committed.tokens), id, old(supply), old(supply) + 1, now, ttl))
    {
      if fault == OnLookup { return DatabaseError; }
      var stored := GetByHash(HashRefreshToken(raw));
      if stored.None? { return UnknownToken; }
      var row := session.working.tokens[stored.value];

      if row.IsRevoked() {
        outcome := RevokeReplayed(row.familyId, fault);
        return;
      }

      if row.expiresAt <= now { return TokenExpired; }
      if fault == OnUserLookup { return DatabaseError; }
      if row.userId !in session.working.users || !session.working.users[row.userId] { return AccountUnavailable; }

      assert Classify(session.committed, raw, now) == Rotate(stored.value);
      outcome := Succeed(stored.value, fault);
    }

    /** The replay branch: revoke the family, and commit that before raising. */
    method RevokeReplayed(family: FamilyId, fault: Fault) returns (outcome: Outcome)
      requires Idle() && fault != OnLookup
      modifies session
      ensures outcome == if BreaksReplay(fault) then DatabaseError else ReplayDetected(family)
      ensures session.committed == if BreaksReplay(fault) then old(session.committed)
        else old(session.committed).(tokens := FamilyRevoked(old(session.committed.tokens), family, now))
    {
      if fault == OnReplayRevoke { return DatabaseError; }
      var _ := RevokeFamily(family);
      var committed := session.Commit(fault == OnReplayCommit);
      outcome := if committed then ReplayDetected(family) else DatabaseError;
    }

    /** The end of `rotate_refresh_token`: issue a successor, look it up, point the spent token at it. */
    method Succeed(id: TokenId, fault: Fault) returns (outcome: Outcome)
      requires Idle() && id in session.working.tokens
      modifies this, session
      ensures now == old(now) && supply == old(supply) + 2 && session.committed == old(session.committed)
      ensures if fault == OnInsert || fault == OnSuccessorLookup || fault == OnRevoke then outcome == DatabaseError
        else
          && outcome == Issued(old(supply), old(session.committed.tokens)[id].familyId)
          && session.working == old(session.committed).(tokens :=
               Rotated(old(session.committed.tokens), id, old(supply), old(supply) + 1, now, ttl))
    {
      var row := session.working.tokens[id];
      var ok, newRaw, family, newId := IssueTokens(row.userId, Some(row.familyId), fault);
      if !ok || fault == OnSuccessorLookup { return DatabaseError; }
      assert HasHash(session.working.tokens, HashRefreshToken(newRaw), newId);
      var successor := GetByHash(HashRefreshToken(newRaw));
      assert successor == Some(newId);
      if fault == OnRevoke { return DatabaseError; }
      session.working := session.working.(tokens := Revoked(session.working.tokens, id, now, successor));
      return Issued(newRaw, family);
    }

    /** The whole refresh request: the body inside `Database.session`. */
    method RefreshRequest(raw: RawToken, fault: Fault) returns (outcome: Outcome)
      requires Idle()
      modifies this, session
      ensures (View(), outcome) == Refresh(old(View()), raw, ttl, fault)
      ensures session.working == session.committed
    {
      outcome := RotateRefreshToken(raw, fault);
      var ok := session.Close(!outcome.Issued?, fault == OnFinalCommit);
      if outcome.Issued? && !ok { outcome := DatabaseError; }
    }

    /** `authenticate`: None when every check passes. The caller sees one and the same 401. */
    method Authenticate(user: UserId, verified: bool, fault: Fault) returns (rejection: Option<Outcome>)
      ensures rejection == None <==>
        fault != OnLookup && user in session.working.users && verified && session.working.users[user]
      ensures rejection.Some? ==>
        rejection.value ==
        if fault == OnLookup then DatabaseError
        else if user !in session.working.users || !verified then BadCredentials
        else AccountUnavailable
    {
      if fault == OnLookup { return Some(DatabaseError); }
      if user !in session.working.users { return Some(BadCredentials); }
      if !verified { return Some(BadCredentials); }
      if !session.working.users[user] { return Some(AccountUnavailable); }
      return None;
    }

    method LoginRequest(user: UserId, verified: bool, fault: Fault) returns (outcome: Outcome)
      requires Idle()
      modifies this, session
      ensures (View(), outcome) == Login(old(View()), user, verified, ttl, fault)
      ensures session.working == session.committed
    {
      var rejection := Authenticate(user, verified, fault);
      if rejection.Some? {
        var _ := session.Close(true, false);
        return rejection.value;
      }
      var ok, raw, family, id := IssueTokens(user, None, fault);
      ok := session.Close(!ok, fault == OnFinalCommit);
      outcome := if ok then Issued(raw, family) else DatabaseError;
    }

    method LogoutRequest(raw: Option<RawToken>, fault: Fault) returns (outcome: Outcome)
      requires Idle()
      modifies this, session
      ensures (View(), outcome) == Logout(old(View()), raw, fault)
      ensures session.working == session.committed
    {
      outcome := LoggedOut;
      if raw.Some? {
        if fault == OnLookup {
          var _ := session.Close(true, false);
          return DatabaseError;
        }
        var stored := GetByHash(HashRefreshToken(raw.value));
        if stored.Some? {
          var failed := fault == OnReplayRevoke;
          if !failed {
            var _ := RevokeFamily(session.working.tokens[stored.value].familyId);
          }
          var ok := session.Close(failed, fault == OnFinalCommit);
          return if ok then LoggedOut else DatabaseError;
        }
      }
      var _ := session.Close(false, false);
    }
  }
}
