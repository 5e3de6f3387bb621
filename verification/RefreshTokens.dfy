/** The refresh-token table and the statements `RefreshTokenRepository` runs against it. */
module RefreshTokens {
  import opened Wrappers

  type Time = int
  type UserId = nat
  type TokenId = nat
  type FamilyId = nat
  type RawToken = nat

  /** The stored SHA-256 digest. Hashing is taken to be injective. */
  datatype Digest = Digest(preimage: RawToken)

  datatype TokenRow = TokenRow(
    userId: UserId,
    tokenHash: Digest,
    familyId: FamilyId,
    expiresAt: Time,
    revokedAt: Option<Time>,
    replacedBy: Option<TokenId>)
  {
    predicate IsRevoked() { revokedAt.Some? }
  }

  type TokenTable = map<TokenId, TokenRow>

  function HashRefreshToken(raw: RawToken): Digest {
    Digest(raw)
  }

  /** The unique index on `token_hash`. */
  ghost predicate UniqueHashes(t: TokenTable) {
    forall i, j :: i in t && j in t && t[i].tokenHash == t[j].tokenHash ==> i == j
  }

  ghost predicate HasHash(t: TokenTable, h: Digest, id: TokenId) {
    id in t && t[id].tokenHash == h
  }

  /** `SELECT ... WHERE token_hash = h`, at most one row. */
  ghost function FindByHash(t: TokenTable, h: Digest): (r: Option<TokenId>)
    ensures r.Some? ==> HasHash(t, h, r.value)
    ensures r.None? ==> forall id :: !HasHash(t, h, id)
  {
    if exists id :: HasHash(t, h, id) then
      var id :| HasHash(t, h, id);
      Some(id)
    else
      None
  }

  function Revoked(t: TokenTable, id: TokenId, now: Time, successor: Option<TokenId>): TokenTable
    requires id in t
  {
    t[id := t[id].(revokedAt := Some(now), replacedBy := successor)]
  }

  predicate LiveIn(t: TokenTable, family: FamilyId, id: TokenId) {
    id in t && t[id].familyId == family && !t[id].IsRevoked()
  }

  /** `UPDATE ... SET revoked_at = now WHERE family_id = f AND revoked_at IS NULL`. */
  function FamilyRevoked(t: TokenTable, family: FamilyId, now: Time): TokenTable {
    map id | id in t :: if LiveIn(t, family, id) then t[id].(revokedAt := Some(now)) else t[id]
  }

  /** What every statement of the repository keeps: no row disappears, identity columns are
      fixed, and a revoked row is frozen. */
  ghost predicate Evolves(before: TokenTable, after: TokenTable) {
    forall id :: id in before ==>
      && id in after
      && after[id].userId == before[id].userId
      && after[id].tokenHash == before[id].tokenHash
      && after[id].familyId == before[id].familyId
      && after[id].expiresAt == before[id].expiresAt
      && (before[id].IsRevoked() ==> after[id] == before[id])
  }

  lemma EvolvesTransitive(a: TokenTable, b: TokenTable, c: TokenTable)
    requires Evolves(a, b) && Evolves(b, c)
    ensures Evolves(a, c)
  {
    forall id | id in a
      ensures id in c && c[id].userId == a[id].userId && c[id].tokenHash == a[id].tokenHash
      ensures c[id].familyId == a[id].familyId && c[id].expiresAt == a[id].expiresAt
      ensures a[id].IsRevoked() ==> c[id] == a[id]
    {
      assert id in b;
    }
  }
}
