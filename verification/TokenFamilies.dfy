/** Invariants of refresh-token families over every run of login, refresh and logout requests. */
module TokenFamilies {
  import opened Wrappers
  import opened RefreshTokens
  import opened AuthService

  datatype Action =
    | LoginAs(user: UserId, verified: bool, fault: Fault)
    | RefreshWith(raw: RawToken, fault: Fault)
    | LogoutWith(token: Option<RawToken>, fault: Fault)
    | SetUser(user: UserId, active: bool)
    | Advance(seconds: nat)

  datatype Entry = Entry(action: Action, outcome: Outcome)
  {
    /** A rotation that handed out a successor inside `family`. */
    predicate Rotates(family: FamilyId) {
      action.RefreshWith? && outcome.Issued? && outcome.family == family
    }

    predicate Exchanges(raw: RawToken) {
      action.RefreshWith? && outcome.Issued? && action.raw == raw
    }
  }

  ghost function Step(w: World, a: Action, ttl: Time): (World, Outcome)
    requires Fresh(w)
  {
    match a
    case LoginAs(user, verified, fault) => Login(w, user, verified, ttl, fault)
    case RefreshWith(raw, fault) => Refresh(w, raw, ttl, fault)
    case LogoutWith(token, fault) => Logout(w, token, fault)
    case SetUser(user, active) => (w.(db := w.db.(users := w.db.users[user := active])), LoggedOut)
    case Advance(seconds) => (w.(now := w.now + seconds), LoggedOut)
  }

  /** An empty token table, with accounts and clock as they happen to be. */
  ghost predicate Initial(w: World) {
    w.db.tokens == map[]
  }

  datatype History = History(world: World, log: seq<Entry>)

  /** All requests in order, from an empty token table. */
  ghost function Run(w: World, actions: seq<Action>, ttl: Time): (h: History)
    requires Initial(w)
    ensures Fresh(h.world)
  {
    if actions == [] then History(w, [])
    else
      var h := Run(w, actions[..|actions| - 1], ttl);
      Extend(h, actions[|actions| - 1], ttl)
  }

  ghost function Extend(h: History, a: Action, ttl: Time): (h': History)
    requires Fresh(h.world)
    ensures Fresh(h'.world)
  {
    var (w, outcome) := Step(h.world, a, ttl);
    StepKeepsFresh(h.world, a, ttl);
    History(w, h.log + [Entry(a, outcome)])
  }

  /** How many rotations of `family` succeeded. */
  function Rotations(log: seq<Entry>, family: FamilyId): nat {
    if log == [] then 0
    else Rotations(log[..|log| - 1], family) + if log[|log| - 1].Rotates(family) then 1 else 0
  }

  // --- the chain invariant ------------------------------------------------------------------

  ghost predicate Links(t: TokenTable, from: TokenId, to: TokenId) {
    && from in t && to in t
    && t[from].replacedBy == Some(to)
    && t[from].IsRevoked()
    && t[from].userId == t[to].userId
  }

  /** `chain` lists the tokens of `family`, each once, oldest first, each replaced by the next;
      only the last may be unrevoked, and it has not been replaced. */
  ghost predicate IsChain(t: TokenTable, family: FamilyId, chain: seq<TokenId>) {
    && |chain| > 0
    && (forall i, j :: 0 <= i < j < |chain| ==> chain[i] != chain[j])
    && (forall i :: 0 <= i < |chain| ==> chain[i] in t && t[chain[i]].familyId == family)
    && (forall id :: id in t && t[id].familyId == family ==> id in chain)
    && (forall i, j :: 0 <= i < j < |chain| && j == i + 1 ==> Links(t, chain[i], chain[j]))
    && t[chain[|chain| - 1]].replacedBy == None
  }

  type Chains = map<FamilyId, seq<TokenId>>

  ghost predicate Chained(t: TokenTable, chains: Chains, supply: nat) {
    && (forall f :: f in chains ==> f < supply && IsChain(t, f, chains[f]))
    && (forall id :: id in t ==> t[id].familyId in chains)
  }

  ghost predicate Counted(log: seq<Entry>, chains: Chains) {
    && (forall f :: f in chains ==> |chains[f]| == 1 + Rotations(log, f))
    && (forall f :: f !in chains ==> Rotations(log, f) == 0)
  }

  /** A token that was exchanged is revoked and stays known. */
  ghost predicate Spent(t: TokenTable, log: seq<Entry>) {
    forall i {:trigger log[i]} :: 0 <= i < |log| && log[i].action.RefreshWith? && log[i].outcome.Issued? ==>
      exists id :: HasHash(t, HashRefreshToken(log[i].action.raw), id) && t[id].IsRevoked()
  }

  /** The outcome of a successful rotation names the family of the token presented. */
  ghost predicate Inv(h: History, chains: Chains) {
    && Fresh(h.world)
    && Chained(h.world.db.tokens, chains, h.world.supply)
    && Counted(h.log, chains)
    && Spent(h.world.db.tokens, h.log)
  }

  /** What one request commits to the token table. */
  datatype Effect =
    | Nothing
    | Opens(row: TokenRow, newId: TokenId)
    | Extends(id: TokenId, newRaw: RawToken, newId: TokenId)
    | Kills(family: FamilyId)

  ghost predicate Possible(t: TokenTable, supply: nat, e: Effect, supply': nat) {
    && supply <= supply'
    && match e
       case Nothing => true
       case Opens(row, newId) =>
         && newId !in t && row.replacedBy == None
         && supply <= newId < supply' && supply <= row.familyId < supply' && supply <= row.tokenHash.preimage < supply'
       case Extends(id, newRaw, newId) =>
         && id in t && newId !in t && !t[id].IsRevoked()
         && supply <= newId < supply' && supply <= newRaw < supply'
       case Kills(_) => true
  }

  ghost function Effected(t: TokenTable, e: Effect, now: Time, ttl: Time): TokenTable
    requires e.Extends? ==> e.id in t && e.newId != e.id
  {
    match e
    case Nothing => t
    case Opens(row, newId) => t[newId := row]
    case Extends(id, newRaw, newId) => Rotated(t, id, newRaw, newId, now, ttl)
    case Kills(family) => FamilyRevoked(t, family, now)
  }

  /** The chains after an effect. */
  ghost function NextChains(t: TokenTable, e: Effect, chains: Chains): Chains
    requires e.Extends? ==> e.id in t && t[e.id].familyId in chains
  {
    match e
    case Opens(row, newId) => chains[row.familyId := [newId]]
    case Extends(id, _, newId) => chains[t[id].familyId := chains[t[id].familyId] + [newId]]
    case _ => chains
  }

  /** What a request with this outcome does to the token table. */
  ghost predicate HasEffect(w: World, e: Effect, w': World, ttl: Time) {
    && Possible(w.db.tokens, w.supply, e, w'.supply)
    && w'.db.tokens == Effected(w.db.tokens, e, w.now, ttl)
  }

  lemma LoginHasEffect(w: World, user: UserId, verified: bool, fault: Fault, ttl: Time) returns (e: Effect)
    requires Fresh(w)
    ensures var (w', outcome) := Login(w, user, verified, ttl, fault);
      HasEffect(w, e, w', ttl) && !e.Extends? && (e.Opens? <==> outcome.Issued?)
  {
    e := Nothing;
    if Login(w, user, verified, ttl, fault).1.Issued? {
      e := Opens(NewRow(user, w.supply, w.supply + 1, w.now + ttl), w.supply + 2);
    }
  }

  lemma RefreshHasEffect(w: World, raw: RawToken, fault: Fault, ttl: Time) returns (e: Effect)
    requires Fresh(w)
    ensures var (w', outcome) := Refresh(w, raw, ttl, fault);
      && HasEffect(w, e, w', ttl) && !e.Opens? && (e.Extends? <==> outcome.Issued?)
      && (e.Extends? ==> outcome.family == w.db.tokens[e.id].familyId && HasHash(w.db.tokens, HashRefreshToken(raw), e.id))
  {
    e := Nothing;
    var outcome := Refresh(w, raw, ttl, fault).1;
    if outcome.Issued? { e := Extends(Classify(w.db, raw, w.now).id, w.supply, w.supply + 1); }
    if outcome.ReplayDetected? { e := Kills(outcome.family); }
  }

  lemma LogoutHasEffect(w: World, token: Option<RawToken>, fault: Fault, ttl: Time) returns (e: Effect)
    requires Fresh(w)
    ensures HasEffect(w, e, Logout(w, token, fault).0, ttl) && (e.Nothing? || e.Kills?)
    ensures !Logout(w, token, fault).1.Issued?
  {
    e := Nothing;
    if Logout(w, token, fault).0.db != w.db {
      e := Kills(w.db.tokens[FindByHash(w.db.tokens, HashRefreshToken(token.value)).value].familyId);
    }
  }

  /** Every request has one of the four effects, and its outcome says which. */
  lemma StepHasEffect(w: World, a: Action, ttl: Time) returns (e: Effect)
    requires Fresh(w)
    ensures var (w', outcome) := Step(w, a, ttl);
      && HasEffect(w, e, w', ttl)
      && (e.Extends? <==> a.RefreshWith? && outcome.Issued?)
      && (e.Opens? <==> a.LoginAs? && outcome.Issued?)
      && (e.Extends? ==> outcome.family == w.db.tokens[e.id].familyId)
      && (e.Extends? ==> HasHash(w.db.tokens, HashRefreshToken(a.raw), e.id))
  {
    match a
    case LoginAs(user, verified, fault) => e := LoginHasEffect(w, user, verified, fault, ttl);
    case RefreshWith(raw, fault) => e := RefreshHasEffect(w, raw, fault, ttl);
    case LogoutWith(token, fault) => e := LogoutHasEffect(w, token, fault, ttl);
    case SetUser(_, _) => e := Nothing;
    case Advance(_) => e := Nothing;
  }

  lemma EffectKeepsFresh(t: TokenTable, supply: nat, e: Effect, supply': nat, now: Time, ttl: Time)
    requires FreshTable(t, supply) && Possible(t, supply, e, supply')
    ensures FreshTable(Effected(t, e, now, ttl), supply')
  {
  }

  lemma EffectEvolves(t: TokenTable, supply: nat, e: Effect, supply': nat, now: Time, ttl: Time)
    requires Possible(t, supply, e, supply')
    ensures Evolves(t, Effected(t, e, now, ttl))
  {
  }

  /** Every request keeps hashes unique and stored identifiers below the supply. */
  lemma StepKeepsFresh(w: World, a: Action, ttl: Time)
    requires Fresh(w)
    ensures Fresh(Step(w, a, ttl).0)
  {
    var e := StepHasEffect(w, a, ttl);
    EffectKeepsFresh(w.db.tokens, w.supply, e, Step(w, a, ttl).0.supply, w.now, ttl);
  }

  /** Requests only add rows and revoke unrevoked ones; a revoked row never changes again, so
      `revoked_at` and `replaced_by_id` are written once and never cleared or overwritten. */
  lemma StepEvolves(w: World, a: Action, ttl: Time)
    requires Fresh(w)
    ensures Evolves(w.db.tokens, Step(w, a, ttl).0.db.tokens)
  {
    var e := StepHasEffect(w, a, ttl);
    EffectEvolves(w.db.tokens, w.supply, e, Step(w, a, ttl).0.supply, w.now, ttl);
  }

  lemma FamilyRevokedKeepsChain(t: TokenTable, g: FamilyId, now: Time, f: FamilyId, chain: seq<TokenId>)
    requires IsChain(t, f, chain)
    ensures IsChain(FamilyRevoked(t, g, now), f, chain)
  {
    var t' := FamilyRevoked(t, g, now);
    forall i, j | 0 <= i < j < |chain| && j == i + 1
      ensures Links(t', chain[i], chain[j])
    {
      assert Links(t, chain[i], chain[j]);
    }
  }

  /** Rotating the unrevoked tail of a chain appends exactly one token to it. */
  lemma RotationExtendsChain(t: TokenTable, id: TokenId, newRaw: RawToken, newId: TokenId,
                             now: Time, ttl: Time, chain: seq<TokenId>)
    requires id in t && newId !in t && !t[id].IsRevoked()
    requires IsChain(t, t[id].familyId, chain)
    ensures chain[|chain| - 1] == id
    ensures IsChain(Rotated(t, id, newRaw, newId, now, ttl), t[id].familyId, chain + [newId])
  {
    var n := |chain|;
    assert id in chain;
    var k :| 0 <= k < n && chain[k] == id;
    assert k == n - 1 || Links(t, chain[k], chain[k + 1]);
    var t' := Rotated(t, id, newRaw, newId, now, ttl);
    var chain' := chain + [newId];
    forall i, j | 0 <= i < j < |chain'| && j == i + 1
      ensures Links(t', chain'[i], chain'[j])
    {
      if j < n {
        assert Links(t, chain[i], chain[j]);
        assert chain[i] != id;
      }
    }
  }

  lemma RotationKeepsOtherChain(t: TokenTable, id: TokenId, newRaw: RawToken, newId: TokenId,
                                now: Time, ttl: Time, f: FamilyId, chain: seq<TokenId>)
    requires id in t && newId !in t && t[id].familyId != f
    requires IsChain(t, f, chain)
    ensures IsChain(Rotated(t, id, newRaw, newId, now, ttl), f, chain)
  {
    var t' := Rotated(t, id, newRaw, newId, now, ttl);
    forall i, j | 0 <= i < j < |chain| && j == i + 1
      ensures Links(t', chain[i], chain[j])
    {
      assert Links(t, chain[i], chain[j]);
    }
  }

  lemma LoginKeepsChain(t: TokenTable, newId: TokenId, row: TokenRow, f: FamilyId, chain: seq<TokenId>)
    requires newId !in t && row.familyId != f
    requires IsChain(t, f, chain)
    ensures IsChain(t[newId := row], f, chain)
  {
    forall i, j | 0 <= i < j < |chain| && j == i + 1
      ensures Links(t[newId := row], chain[i], chain[j])
    {
      assert Links(t, chain[i], chain[j]);
    }
  }

  lemma ChainedAfterRevocation(t: TokenTable, chains: Chains, supply: nat, g: FamilyId, now: Time)
    requires Chained(t, chains, supply)
    ensures Chained(FamilyRevoked(t, g, now), chains, supply)
  {
    forall f | f in chains
      ensures IsChain(FamilyRevoked(t, g, now), f, chains[f])
    {
      FamilyRevokedKeepsChain(t, g, now, f, chains[f]);
    }
  }

  /** The first token of a family that had none. */
  lemma NewFamilyIsChain(t: TokenTable, newId: TokenId, row: TokenRow)
    requires row.replacedBy == None && forall id :: id in t ==> t[id].familyId != row.familyId
    ensures IsChain(t[newId := row], row.familyId, [newId])
  {
  }

  lemma ChainedAfterLogin(t: TokenTable, chains: Chains, supply: nat, newId: TokenId, row: TokenRow, supply': nat)
    requires Chained(t, chains, supply) && newId !in t && supply <= row.familyId < supply'
    requires row.replacedBy == None
    ensures Chained(t[newId := row], chains[row.familyId := [newId]], supply')
  {
    var t', chains' := t[newId := row], chains[row.familyId := [newId]];
    NewFamilyIsChain(t, newId, row);
    forall f | f in chains'
      ensures f < supply' && IsChain(t', f, chains'[f])
    {
      if f != row.familyId { LoginKeepsChain(t, newId, row, f, chains[f]); }
    }
    assert forall id :: id in t' ==> t'[id].familyId in chains';
  }

  lemma ChainedAfterRotation(t: TokenTable, chains: Chains, supply: nat, id: TokenId,
                             newRaw: RawToken, newId: TokenId, now: Time, ttl: Time, supply': nat)
    requires Chained(t, chains, supply) && id in t && newId !in t && !t[id].IsRevoked() && supply <= supply'
    ensures t[id].familyId in chains
    ensures Chained(Rotated(t, id, newRaw, newId, now, ttl),
                    chains[t[id].familyId := chains[t[id].familyId] + [newId]], supply')
  {
    var t' := Rotated(t, id, newRaw, newId, now, ttl);
    var own := t[id].familyId;
    var chains' := chains[own := chains[own] + [newId]];
    assert IsChain(t', own, chains'[own]) by {
      RotationExtendsChain(t, id, newRaw, newId, now, ttl, chains[own]);
    }
    forall f | f in chains'
      ensures f < supply' && IsChain(t', f, chains'[f])
    {
      if f != own { RotationKeepsOtherChain(t, id, newRaw, newId, now, ttl, f, chains[f]); }
    }
    forall k | k in t'
      ensures t'[k].familyId in chains'
    {
      assert k == newId || t'[k].familyId == t[k].familyId;
    }
  }

  lemma EffectKeepsChained(t: TokenTable, supply: nat, e: Effect, supply': nat, now: Time, ttl: Time, chains: Chains)
    requires Chained(t, chains, supply) && Possible(t, supply, e, supply')
    ensures e.Extends? ==> t[e.id].familyId in chains
    ensures Chained(Effected(t, e, now, ttl), NextChains(t, e, chains), supply')
  {
    match e
    case Nothing =>
    case Opens(row, newId) => ChainedAfterLogin(t, chains, supply, newId, row, supply');
    case Extends(id, newRaw, newId) =>
      ChainedAfterRotation(t, chains, supply, id, newRaw, newId, now, ttl, supply');
    case Kills(family) => ChainedAfterRevocation(t, chains, supply, family, now);
  }

  /** Every family of the table is a chain. */
  ghost predicate HasChains(w: World) {
    exists chains :: Chained(w.db.tokens, chains, w.supply)
  }

  lemma StepKeepsChains(w: World, a: Action, ttl: Time)
    requires Fresh(w) && HasChains(w)
    ensures HasChains(Step(w, a, ttl).0)
  {
    var chains :| Chained(w.db.tokens, chains, w.supply);
    var e := StepHasEffect(w, a, ttl);
    EffectKeepsChained(w.db.tokens, w.supply, e, Step(w, a, ttl).0.supply, w.now, ttl, chains);
  }

  lemma RotationsOfExtended(log: seq<Entry>, e: Entry, f: FamilyId)
    ensures Rotations(log + [e], f) == Rotations(log, f) + if e.Rotates(f) then 1 else 0
  {
    assert (log + [e])[..|log|] == log;
  }

  lemma EffectKeepsCounted(t: TokenTable, e: Effect, chains: Chains, log: seq<Entry>, entry: Entry)
    requires Counted(log, chains)
    requires e.Extends? ==> e.id in t && t[e.id].familyId in chains && entry.Rotates(t[e.id].familyId)
    requires e.Opens? ==> e.row.familyId !in chains
    requires !e.Extends? ==> !(entry.action.RefreshWith? && entry.outcome.Issued?)
    ensures Counted(log + [entry], NextChains(t, e, chains))
  {
    var chains' := NextChains(t, e, chains);
    forall f
      ensures f in chains' ==> |chains'[f]| == 1 + Rotations(log + [entry], f)
      ensures f !in chains' ==> Rotations(log + [entry], f) == 0
    {
      RotationsOfExtended(log, entry, f);
    }
  }

  lemma StepKeepsSpent(h: History, a: Action, ttl: Time)
    requires Fresh(h.world) && Spent(h.world.db.tokens, h.log)
    ensures Spent(Extend(h, a, ttl).world.db.tokens, Extend(h, a, ttl).log)
  {
    var h' := Extend(h, a, ttl);
    var t, t' := h.world.db.tokens, h'.world.db.tokens;
    StepEvolves(h.world, a, ttl);
    forall i {:trigger h'.log[i]} | 0 <= i < |h'.log| && h'.log[i].action.RefreshWith? && h'.log[i].outcome.Issued?
      ensures exists id :: HasHash(t', HashRefreshToken(h'.log[i].action.raw), id) && t'[id].IsRevoked()
    {
      if i < |h.log| {
        assert h'.log[i] == h.log[i];
        var id :| HasHash(t, HashRefreshToken(h.log[i].action.raw), id) && t[id].IsRevoked();
        assert HasHash(t', HashRefreshToken(h.log[i].action.raw), id);
      } else {
        var id := Classify(h.world.db, a.raw, h.world.now).id;
        assert HasHash(t', HashRefreshToken(a.raw), id);
      }
    }
  }

  // --- what holds of every run --------------------------------------------------------------

  /** In every reachable state each family is one acyclic chain through `replaced_by`, with one
      user, every non-tail token revoked, and length one plus its successful rotations. */
  lemma {:induction false} FamiliesAreChains(w: World, actions: seq<Action>, ttl: Time) returns (chains: Chains)
    requires Initial(w)
    ensures Inv(Run(w, actions, ttl), chains)
  {
    if actions == [] {
      chains := map[];
    } else {
      var before := actions[..|actions| - 1];
      var a := actions[|actions| - 1];
      var h := Run(w, before, ttl);
      var earlier := FamiliesAreChains(w, before, ttl);
      var e := StepHasEffect(h.world, a, ttl);
      var (w', outcome) := Step(h.world, a, ttl);
      EffectKeepsChained(h.world.db.tokens, h.world.supply, e, w'.supply, h.world.now, ttl, earlier);
      EffectKeepsCounted(h.world.db.tokens, e, earlier, h.log, Entry(a, outcome));
      StepKeepsSpent(h, a, ttl);
      chains := NextChains(h.world.db.tokens, e, earlier);
    }
  }

  /** One user throughout a chain, not only between neighbours. */
  lemma {:induction false} ChainHasOneUser(t: TokenTable, family: FamilyId, chain: seq<TokenId>, i: nat)
    requires IsChain(t, family, chain) && i < |chain|
    ensures chain[0] in t && chain[i] in t && t[chain[i]].userId == t[chain[0]].userId
  {
    assert chain[0] in chain && chain[i] in chain;
    if i > 0 {
      ChainHasOneUser(t, family, chain, i - 1);
      assert Links(t, chain[i - 1], chain[i - 1 + 1]);
    }
  }

  /** The unrevoked token of a family, when there is one, is the tail of its chain. */
  lemma LiveTokenIsTail(t: TokenTable, family: FamilyId, chain: seq<TokenId>, id: TokenId)
    requires IsChain(t, family, chain) && LiveIn(t, family, id)
    ensures chain[|chain| - 1] == id
  {
    assert id in chain;
    var k :| 0 <= k < |chain| && chain[k] == id;
    assert k == |chain| - 1 || Links(t, chain[k], chain[k + 1]);
  }

  /** At most one token of a family is unrevoked, and all its tokens belong to one user. */
  lemma AtMostOneLiveToken(w: World, actions: seq<Action>, ttl: Time, i: TokenId, j: TokenId)
    requires Initial(w)
    requires i in Run(w, actions, ttl).world.db.tokens && j in Run(w, actions, ttl).world.db.tokens
    ensures var t := Run(w, actions, ttl).world.db.tokens;
      t[i].familyId == t[j].familyId ==>
        && t[i].userId == t[j].userId
        && (!t[i].IsRevoked() && !t[j].IsRevoked() ==> i == j)
  {
    var chains := FamiliesAreChains(w, actions, ttl);
    var t := Run(w, actions, ttl).world.db.tokens;
    if t[i].familyId == t[j].familyId {
      var chain := chains[t[i].familyId];
      assert i in chain && j in chain;
      var a :| 0 <= a < |chain| && chain[a] == i;
      var b :| 0 <= b < |chain| && chain[b] == j;
      ChainHasOneUser(t, t[i].familyId, chain, a);
      ChainHasOneUser(t, t[i].familyId, chain, b);
      if !t[i].IsRevoked() { LiveTokenIsTail(t, t[i].familyId, chain, i); }
      if !t[j].IsRevoked() { LiveTokenIsTail(t, t[i].familyId, chain, j); }
    }
  }

  /** A longer run extends the log of a shorter one and its table evolves from it. */
  ghost predicate Continues(h: History, h': History) {
    && h.log <= h'.log
    && h.world.supply <= h'.world.supply
    && Evolves(h.world.db.tokens, h'.world.db.tokens)
  }

  lemma ContinuesTransitive(a: History, b: History, c: History)
    requires Continues(a, b) && Continues(b, c)
    ensures Continues(a, c)
  {
    EvolvesTransitive(a.world.db.tokens, b.world.db.tokens, c.world.db.tokens);
  }

  lemma ExtendContinues(h: History, a: Action, ttl: Time)
    requires Fresh(h.world)
    ensures Continues(h, Extend(h, a, ttl))
  {
    StepEvolves(h.world, a, ttl);
  }

  lemma RunOfPrefix(w: World, actions: seq<Action>, n: nat, ttl: Time)
    requires Initial(w) && n < |actions|
    ensures Run(w, actions[..n + 1], ttl) == Extend(Run(w, actions[..n], ttl), actions[n], ttl)
  {
    assert actions[..n + 1][..n] == actions[..n];
  }

  lemma {:induction false} RunContinues(w: World, actions: seq<Action>, n: nat, ttl: Time)
    requires Initial(w) && n <= |actions|
    ensures Continues(Run(w, actions[..n], ttl), Run(w, actions, ttl))
    decreases |actions| - n
  {
    if n == |actions| {
      assert actions[..n] == actions;
    } else {
      RunContinues(w, actions, n + 1, ttl);
      RunOfPrefix(w, actions, n, ttl);
      ExtendContinues(Run(w, actions[..n], ttl), actions[n], ttl);
      ContinuesTransitive(Run(w, actions[..n], ttl), Run(w, actions[..n + 1], ttl), Run(w, actions, ttl));
    }
  }

  lemma {:induction false} LogLength(w: World, actions: seq<Action>, ttl: Time)
    requires Initial(w)
    ensures |Run(w, actions, ttl).log| == |actions|
  {
    if actions != [] { LogLength(w, actions[..|actions| - 1], ttl); }
  }

  /** The j-th log entry is the request answered in the state the first j requests left. */
  lemma LogEntry(w: World, actions: seq<Action>, ttl: Time, j: nat)
    requires Initial(w) && j < |actions|
    ensures var h := Run(w, actions[..j], ttl);
      && |h.log| == j
      && h.log <= Run(w, actions, ttl).log
      && j < |Run(w, actions, ttl).log|
      && Run(w, actions, ttl).log[j] == Entry(actions[j], Step(h.world, actions[j], ttl).1)
  {
    LogLength(w, actions[..j], ttl);
    LogLength(w, actions, ttl);
    RunContinues(w, actions, j, ttl);
    RunContinues(w, actions, j + 1, ttl);
    RunOfPrefix(w, actions, j, ttl);
  }

  /** Each raw refresh token is exchanged for a successor at most once in any run. */
  lemma ExchangedAtMostOnce(w: World, actions: seq<Action>, ttl: Time, raw: RawToken, i: nat, j: nat)
    requires Initial(w)
    requires i < j < |Run(w, actions, ttl).log|
    requires Run(w, actions, ttl).log[i].Exchanges(raw)
    ensures !Run(w, actions, ttl).log[j].Exchanges(raw)
  {
    LogLength(w, actions, ttl);
    LogEntry(w, actions, ttl, j);
    var h := Run(w, actions[..j], ttl);
    SpentInRun(w, actions[..j], ttl);
    assert h.log[i].Exchanges(raw);
    SpentTokenIsRefused(h, raw, i, actions[j], ttl);
  }

  lemma SpentInRun(w: World, actions: seq<Action>, ttl: Time)
    requires Initial(w)
    ensures Spent(Run(w, actions, ttl).world.db.tokens, Run(w, actions, ttl).log)
  {
    var _ := FamiliesAreChains(w, actions, ttl);
  }

  lemma SpentTokenIsRefused(h: History, raw: RawToken, i: nat, a: Action, ttl: Time)
    requires Fresh(h.world) && Spent(h.world.db.tokens, h.log)
    requires i < |h.log| && h.log[i].Exchanges(raw)
    ensures !Entry(a, Step(h.world, a, ttl).1).Exchanges(raw)
  {
    var id :| HasHash(h.world.db.tokens, HashRefreshToken(raw), id) && h.world.db.tokens[id].IsRevoked();
    assert Classify(h.world.db, raw, h.world.now) == Replay(id);
  }

  ghost predicate Dead(t: TokenTable, family: FamilyId) {
    forall id :: !LiveIn(t, family, id)
  }

  lemma StepKeepsDead(w: World, a: Action, ttl: Time, family: FamilyId)
    requires Fresh(w) && family < w.supply && Dead(w.db.tokens, family)
    ensures Dead(Step(w, a, ttl).0.db.tokens, family)
  {
    var t' := Step(w, a, ttl).0.db.tokens;
    forall id
      ensures !LiveIn(t', family, id)
    {
      assert !LiveIn(w.db.tokens, family, id);
      if a.RefreshWith? && Classify(w.db, a.raw, w.now).Rotate? {
        assert !LiveIn(w.db.tokens, family, Classify(w.db, a.raw, w.now).id);
      }
    }
  }

  lemma ExtendKeepsDead(h: History, a: Action, ttl: Time, family: FamilyId)
    requires Fresh(h.world) && family < h.world.supply && Dead(h.world.db.tokens, family)
    ensures family < Extend(h, a, ttl).world.supply && Dead(Extend(h, a, ttl).world.db.tokens, family)
  {
    StepKeepsDead(h.world, a, ttl, family);
    ExtendContinues(h, a, ttl);
  }

  /** A family that was issued and has no unrevoked token never regains one. */
  lemma {:induction false} DeadFamilyStaysDead(w: World, actions: seq<Action>, n: nat, ttl: Time, family: FamilyId)
    requires Initial(w) && n <= |actions|
    requires family < Run(w, actions[..n], ttl).world.supply
    requires Dead(Run(w, actions[..n], ttl).world.db.tokens, family)
    ensures Dead(Run(w, actions, ttl).world.db.tokens, family)
    decreases |actions| - n
  {
    if n == |actions| {
      assert actions[..n] == actions;
    } else {
      RunOfPrefix(w, actions, n, ttl);
      ExtendKeepsDead(Run(w, actions[..n], ttl), actions[n], ttl, family);
      DeadFamilyStaysDead(w, actions, n + 1, ttl, family);
    }
  }

  // --- transaction refinement ---------------------------------------------------------------

  /** The stored row that makes a refresh acceptable: live, unexpired, of an active account. */
  ghost predicate Acceptable(w: World, raw: RawToken, id: TokenId) {
    && HasHash(w.db.tokens, HashRefreshToken(raw), id)
    && !w.db.tokens[id].IsRevoked()
    && w.now < w.db.tokens[id].expiresAt
    && w.db.tokens[id].userId in w.db.users && w.db.users[w.db.tokens[id].userId]
  }

  /** A refresh succeeds exactly for acceptable tokens and a database that does not fail. It then
      commits successor and revocation together; every other outcome but a detected replay leaves
      committed state untouched. */
  lemma RefreshCommitsAllOrNothing(w: World, raw: RawToken, ttl: Time, fault: Fault)
    requires Fresh(w)
    ensures var (w', outcome) := Refresh(w, raw, ttl, fault);
      && (outcome.Issued? <==>
            (exists id :: Acceptable(w, raw, id)) && !BreaksRotation(fault))
      && (outcome.Issued? ==>
            exists spent, heir ::
              && Acceptable(w, raw, spent)
              && HasHash(w'.db.tokens, HashRefreshToken(outcome.raw), heir)
              && Links(w'.db.tokens, spent, heir)
              && heir !in w.db.tokens && !w'.db.tokens[heir].IsRevoked()
              && w'.db.users == w.db.users
              && w'.db.tokens - {spent, heir} == w.db.tokens - {spent})
      && (!outcome.Issued? && !outcome.ReplayDetected? ==> w'.db == w.db)
  {
    var (w', outcome) := Refresh(w, raw, ttl, fault);
    if id :| Acceptable(w, raw, id) {
      assert Classify(w.db, raw, w.now) == Rotate(id);
    }
    if outcome.Issued? {
      var spent := Classify(w.db, raw, w.now).id;
      var heir := w.supply + 1;
      assert Acceptable(w, raw, spent);
      assert Links(w'.db.tokens, spent, heir);
      assert HasHash(w'.db.tokens, HashRefreshToken(outcome.raw), heir);
      assert w'.db.tokens - {spent, heir} == w.db.tokens - {spent};
    }
  }

  /** Presenting a known, revoked token leaves its whole family revoked in committed state although
      the request raises, unless the database itself failed before that commit. */
  lemma ReplayRevokesFamily(w: World, raw: RawToken, ttl: Time, fault: Fault, id: TokenId)
    requires Fresh(w) && HasHash(w.db.tokens, HashRefreshToken(raw), id) && w.db.tokens[id].IsRevoked()
    ensures var (w', outcome) := Refresh(w, raw, ttl, fault);
      if BreaksReplay(fault) then w' == w && outcome == DatabaseError
      else outcome == ReplayDetected(w.db.tokens[id].familyId) && Dead(w'.db.tokens, w.db.tokens[id].familyId)
  {
    assert Classify(w.db, raw, w.now) == Replay(id);
  }

  /** Logging out with a known token leaves its family without a live token; with no token, or one
      that is not known, it changes nothing and is no error. */
  lemma LogoutKillsFamily(w: World, token: Option<RawToken>, fault: Fault)
    requires Fresh(w)
    ensures var (w', outcome) := Logout(w, token, fault);
      && (outcome == LoggedOut || (outcome == DatabaseError && w' == w))
      && (outcome == LoggedOut && token.Some? ==>
            forall id :: HasHash(w.db.tokens, HashRefreshToken(token.value), id) ==>
                Dead(w'.db.tokens, w.db.tokens[id].familyId))
      && (token.None? ==> w' == w && outcome == LoggedOut)
      && (token.Some? && (forall id :: !HasHash(w.db.tokens, HashRefreshToken(token.value), id)) ==>
            w' == w && (outcome == LoggedOut <==> fault != OnLookup))
  {
    if token.Some? {
      var found := FindByHash(w.db.tokens, HashRefreshToken(token.value));
      assert found.Some? ==> HasHash(w.db.tokens, HashRefreshToken(token.value), found.value);
    }
  }
}
