/** Whole runs of the session protocol: what an honest client is owed, exactly when the reuse detector
    answers it, and what abandoning a rotation can do. */
module SessionRuns {
  import opened Wrappers
  import opened RefreshTokens
  import opened AuthService
  import opened ApiClient
  import opened SessionProtocol
  import opened SessionTokens
  import TokenFamilies

  // --- whole runs ---------------------------------------------------------------------------

  lemma NextKeepsFamily(s: System, e: Event, ttl: Time)
    requires Fresh(s.world)
    ensures Next(s, e, ttl).family == s.family
  {
  }

  ghost function Execute(s: System, events: seq<Event>, ttl: Time): System {
    if events == [] then s else Next(Execute(s, events[..|events| - 1], ttl), events[|events| - 1], ttl)
  }

  lemma {:induction false} ExecuteKeepsInv(s: System, events: seq<Event>, ttl: Time)
    requires Inv(s)
    ensures Inv(Execute(s, events, ttl)) && Execute(s, events, ttl).family == s.family
  {
    if events != [] {
      var before := Execute(s, events[..|events| - 1], ttl);
      ExecuteKeepsInv(s, events[..|events| - 1], ttl);
      NextKeepsInv(before, events[|events| - 1], ttl);
      NextKeepsFamily(before, events[|events| - 1], ttl);
    }
  }

  /** What a rotation is answered, and what it leaves, in any state. */
  lemma ProcessAnswers(s: System, k: nat, fault: Fault, ttl: Time)
    requires Fresh(s.world) && Accounted(s) && k < |s.wire| && s.wire[k].Ask?
    ensures var s' := Processed(s, k, fault, ttl);
      && |s'.log| == |s.log| + 1
      && var answer := s'.log[|s.log|];
        && answer.cookie == s.wire[k].cookie && answer.promise == s.wire[k].promise
        && (answer.outcome.ReplayDetected? <==> Void(s.log, s.wire[k].cookie) && !BreaksReplay(fault))
        && (answer.outcome.ReplayDetected? ==> TokenFamilies.Dead(s'.world.db.tokens, s.family))
        && (answer.outcome.Issued? ==> Exchanged(s'.log, s.wire[k].cookie))
  {
    var c := s.wire[k].cookie;
    assert s.wire[k] in s.wire && Carried(s.wire[k]) == Some(c);
    RefreshOfOwnToken(s.world, s.family, c, Void(s.log, c), ttl, fault, c, Void(s.log, c));
    LogGrows(s.log, Processed(s, k, fault, ttl).log[|s.log|], c);
  }

  /** The reuse detector answers a rotation of this client exactly when its token was exchanged
      before, or the detector has fired before, and the database does not fail first; the session is
      then dead. The first time, the token was exchanged by another rotation, and the earlier of the
      two is one the client abandoned. */
  lemma DetectorFiresExactlyOnReusedToken(s: System, events: seq<Event>, ttl: Time, k: nat, fault: Fault)
    requires LoggedIn(s)
    requires Enabled(Execute(s, events, ttl), Process(k, fault))
    ensures var before := Execute(s, events, ttl);
      var m := before.wire[k];
      var after := Next(before, Process(k, fault), ttl);
      && |after.log| == |before.log| + 1
      && var answer := after.log[|before.log|].outcome;
        && (answer.ReplayDetected? <==> (Exchanged(before.log, m.cookie) || Detected(before.log)) && !BreaksReplay(fault))
        && (answer.ReplayDetected? ==> TokenFamilies.Dead(after.world.db.tokens, s.family))
        && (answer.ReplayDetected? && !Detected(before.log) ==>
              exists a :: a in before.log && a.cookie == m.cookie && a.outcome.Issued?
                          && Earlier(a.promise, m.promise) in before.forsaken)
  {
    ExecuteKeepsInv(s, events, ttl);
    var before := Execute(s, events, ttl);
    ProcessAnswers(before, k, fault, ttl);
    assert before.wire[k] in before.wire;
  }

  /** What the client is owed in a state. It waits for one rotation at most, every request was sent
      at most twice, and the session lives exactly as long as the detector has not fired. As long as
      no rotation was abandoned, the detector has not fired and one request for a rotation at most
      is on its way to the server. */
  ghost predicate Served(s: System) {
    && (forall k, l :: 0 <= k < l < |s.wire| ==> !Awaited(s.client, s.wire[k]) || !Awaited(s.client, s.wire[l]))
    && (forall r :: r in s.client.requests ==> r.sends <= 2)
    && (TokenFamilies.Dead(s.world.db.tokens, s.family) <==> Detected(s.log))
    && (s.forsaken == {} ==>
          && !Detected(s.log)
          && forall k, l :: 0 <= k < l < |s.wire| ==> !s.wire[k].Ask? || !s.wire[l].Ask?)
  }

  lemma InvServes(s: System)
    requires Inv(s)
    ensures Served(s)
  {
    forall r | r in s.client.requests
      ensures r.sends <= 2
    {
      var i :| 0 <= i < |s.client.requests| && s.client.requests[i] == r;
      assert RequestBounded(s.client, s.client.requests[i]);
    }
    forall k, l | 0 <= k < l < |s.wire| && s.wire[k].Ask? && s.wire[l].Ask?
      ensures s.forsaken != {}
    {
      EarlierIsForsaken(s, k, l);
    }
  }

  /** An honest single-tab client that abandons no rotation never trips the reuse detector, in any
      interleaving of any number of concurrent requests, and its session is never revoked. */
  lemma HonestSessionIsNeverRevoked(s: System, events: seq<Event>, ttl: Time)
    requires LoggedIn(s)
    ensures Served(Execute(s, events, ttl)) && Execute(s, events, ttl).family == s.family
  {
    ExecuteKeepsInv(s, events, ttl);
    InvServes(Execute(s, events, ttl));
  }

  /** In every run, a request was sent twice exactly if it waited for a rotation that succeeded, and a
      request that waited for one that failed has failed without being sent again. */
  lemma RetriedExactlyAfterSuccess(s: System, events: seq<Event>, ttl: Time, r: Request)
    requires LoggedIn(s) && r in Execute(s, events, ttl).client.requests
    ensures var settled := Execute(s, events, ttl).client.settled;
      && (r.sends == 1 || r.sends == 2)
      && (r.sends == 2 <==>
            r.waited.Some? && r.waited.value in settled && settled[r.waited.value] && !r.phase.AwaitingRefresh?)
      && (r.phase.Finished? && r.waited.Some? && r.sends == 1 ==>
            !r.phase.ok && r.waited.value in settled && !settled[r.waited.value])
  {
    ExecuteKeepsInv(s, events, ttl);
    var c := Execute(s, events, ttl).client;
    var i :| 0 <= i < |c.requests| && c.requests[i] == r;
    assert RequestTold(c, c.requests[i]);
  }

  /** In every run the family is one chain, and a presented cookie is its unrevoked tail exactly
      when it was not exchanged before and the detector has not fired; so always, as long as the
      client has abandoned no rotation. */
  lemma PresentedCookieIsTail(s: System, events: seq<Event>, ttl: Time, m: Message) returns (chain: seq<TokenId>)
    requires LoggedIn(s) && m in Execute(s, events, ttl).wire && m.Ask?
    ensures var s' := Execute(s, events, ttl);
      var t := s'.world.db.tokens;
      && TokenFamilies.IsChain(t, s.family, chain)
      && var tail := chain[|chain| - 1];
        && (HasHash(t, HashRefreshToken(m.cookie), tail) && LiveIn(t, s.family, tail) <==> !Void(s'.log, m.cookie))
        && (s'.forsaken == {} ==> !Void(s'.log, m.cookie))
  {
    ExecuteKeepsInv(s, events, ttl);
    var s' := Execute(s, events, ttl);
    chain := CookieAndTail(s', m);
  }

  lemma CookieAndTail(s: System, m: Message) returns (chain: seq<TokenId>)
    requires Inv(s) && m in s.wire && m.Ask?
    ensures TokenFamilies.IsChain(s.world.db.tokens, s.family, chain)
    ensures var t := s.world.db.tokens;
      var tail := chain[|chain| - 1];
      HasHash(t, HashRefreshToken(m.cookie), tail) && LiveIn(t, s.family, tail) <==> !Void(s.log, m.cookie)
    ensures s.forsaken == {} ==> !Void(s.log, m.cookie)
  {
    var t := s.world.db.tokens;
    var chains :| TokenFamilies.Chained(t, chains, s.world.supply);
    assert Carried(m) == Some(m.cookie);
    var id: TokenId :| HasHash(t, HashRefreshToken(m.cookie), id) && t[id].familyId == s.family
                       && (t[id].IsRevoked() <==> Void(s.log, m.cookie));
    chain := chains[s.family];
    if !Void(s.log, m.cookie) { TokenFamilies.LiveTokenIsTail(t, s.family, chain, id); }
  }

  // --- what abandoning a rotation can do ----------------------------------------------------

  lemma ExecuteOne(s: System, e: Event, ttl: Time)
    ensures Execute(s, [e], ttl) == Next(s, e, ttl)
  {
    assert [e][..0] == [] && Execute(s, [], ttl) == s;
  }

  /** A client that waits for no rotation starts one. */
  lemma AskIsPosted(s: System, ttl: Time)
    requires Fresh(s.world) && s.client.refreshInFlight.None?
    ensures var asked := Next(s, Restore, ttl);
      && asked == s.(client := asked.client, wire := s.wire + [Ask(s.client.nextPromise, s.client.cookie)])
      && asked.client.cookie == s.client.cookie && asked.client.refreshInFlight == Some(s.client.nextPromise)
  {
  }

  /** A client that waits for the last message of the wire gives up on it. */
  lemma GivingUpLeavesMessage(s: System, ttl: Time)
    requires Fresh(s.world) && s.wire != [] && Outstanding(s.wire[|s.wire| - 1]) && Awaited(s.client, s.wire[|s.wire| - 1])
    ensures var left := Next(s, GiveUp, ttl);
      && left == s.(client := left.client, forsaken := s.forsaken + {s.wire[|s.wire| - 1].promise})
      && left.client.cookie == s.client.cookie && left.client.refreshInFlight.None?
  {
  }

  /** A rotation with an exchanged token, or after the detector has fired, ends the session. */
  lemma VoidTokenIsDetected(s: System, k: nat, ttl: Time)
    requires Fresh(s.world) && Accounted(s) && k < |s.wire| && s.wire[k].Ask? && Void(s.log, s.wire[k].cookie)
    ensures TokenFamilies.Dead(Next(s, Process(k, NoFault), ttl).world.db.tokens, s.family)
  {
    ProcessAnswers(s, k, NoFault, ttl);
  }

  /** A rotation with an acceptable token is granted. */
  lemma AcceptableIsGranted(s: System, k: nat, ttl: Time)
    requires Fresh(s.world) && Accounted(s) && k < |s.wire| && s.wire[k].Ask?
    requires exists id :: TokenFamilies.Acceptable(s.world, s.wire[k].cookie, id)
    ensures var granted := Next(s, Process(k, NoFault), ttl);
      && Fresh(granted.world) && Accounted(granted) && Void(granted.log, s.wire[k].cookie)
      && IsGrant(granted.wire[k]) && granted.wire[k].promise == s.wire[k].promise
      && granted == s.(world := granted.world, log := granted.log, wire := s.wire[k := granted.wire[k]])
  {
    TokenFamilies.RefreshCommitsAllOrNothing(s.world, s.wire[k].cookie, ttl, NoFault);
    ProcessAnswers(s, k, NoFault, ttl);
    NextKeepsFresh(s, Process(k, NoFault), ttl);
    ProcessKeepsAccounted(s, k, NoFault, ttl);
  }

  /** A client that holds an exchanged token kills its session with its next rotation. */
  lemma SpentCookieKillsSession(s: System, ttl: Time)
    requires Fresh(s.world) && Accounted(s) && s.client.refreshInFlight.None? && Void(s.log, s.client.cookie)
    ensures var asked := Next(s, Restore, ttl);
      TokenFamilies.Dead(Next(asked, Process(|s.wire|, NoFault), ttl).world.db.tokens, s.family)
  {
    AskIsPosted(s, ttl);
    NextKeepsAccounted(s, Restore, ttl);
    VoidTokenIsDetected(Next(s, Restore, ttl), |s.wire|, ttl);
  }

  /** An abandoned request that still carries the client's cookie is enough: overtaken by the next
      rotation, it revokes the family that rotation has just extended. */
  lemma OvertakenRequestKillsSession(s: System, k: nat, ttl: Time)
    requires Fresh(s.world) && Accounted(s) && s.client.refreshInFlight.None?
    requires k < |s.wire| && s.wire[k].Ask? && s.wire[k].cookie == s.client.cookie
    requires exists id :: TokenFamilies.Acceptable(s.world, s.client.cookie, id)
    ensures var overtaken := Next(Next(s, Restore, ttl), Process(|s.wire|, NoFault), ttl);
      TokenFamilies.Dead(Next(overtaken, Process(k, NoFault), ttl).world.db.tokens, s.family)
  {
    AskIsPosted(s, ttl);
    NextKeepsAccounted(s, Restore, ttl);
    var asked := Next(s, Restore, ttl);
    AcceptableIsGranted(asked, |s.wire|, ttl);
    VoidTokenIsDetected(Next(asked, Process(|s.wire|, NoFault), ttl), k, ttl);
  }

  /** A request, given up and overtaken by the next one. */
  const OVERTAKEN: seq<Event> := [Restore, GiveUp, Restore, Process(1, NoFault), Process(0, NoFault)]

  /** A granted rotation, given up before its reply arrives, and the next one. */
  const REPLY_LOST: seq<Event> := [Restore, Process(0, NoFault), GiveUp, Restore, Process(1, NoFault)]

  lemma ExecuteFive(s: System, es: seq<Event>, ttl: Time)
    requires |es| == 5
    ensures Execute(s, es, ttl) ==
      Next(Next(Next(Next(Next(s, es[0], ttl), es[1], ttl), es[2], ttl), es[3], ttl), es[4], ttl)
  {
    assert es[..4][..3] == es[..3] && es[..3][..2] == es[..2] && es[..2][..1] == es[..1];
    ExecuteOne(s, es[0], ttl);
    assert es[..1] == [es[0]];
    assert Execute(s, es[..2], ttl) == Next(Execute(s, es[..1], ttl), es[1], ttl);
    assert Execute(s, es[..3], ttl) == Next(Execute(s, es[..2], ttl), es[2], ttl);
    assert Execute(s, es[..4], ttl) == Next(Execute(s, es[..3], ttl), es[3], ttl);
  }

  /** From any quiet, acceptable session: giving up on a request that the next rotation overtakes
      revokes the session, though no reply was lost. */
  lemma AbandonedRequestCanKillSession(s: System, ttl: Time)
    requires Fresh(s.world) && Accounted(s) && s.wire == [] && s.client.refreshInFlight.None?
    requires exists id :: TokenFamilies.Acceptable(s.world, s.client.cookie, id)
    ensures TokenFamilies.Dead(Execute(s, OVERTAKEN, ttl).world.db.tokens, s.family)
  {
    AskIsPosted(s, ttl);
    NextKeepsAccounted(s, Restore, ttl);
    var asked := Next(s, Restore, ttl);
    GivingUpLeavesMessage(asked, ttl);
    NextKeepsAccounted(asked, GiveUp, ttl);
    OvertakenRequestKillsSession(Next(asked, GiveUp, ttl), 0, ttl);
    ExecuteFive(s, OVERTAKEN, ttl);
  }

  /** From any quiet, acceptable session: giving up on a granted rotation before its reply arrives
      makes the client's next rotation revoke its own family. */
  lemma LostReplyKillsSession(s: System, ttl: Time)
    requires Fresh(s.world) && Accounted(s) && s.wire == [] && s.client.refreshInFlight.None?
    requires exists id :: TokenFamilies.Acceptable(s.world, s.client.cookie, id)
    ensures TokenFamilies.Dead(Execute(s, REPLY_LOST, ttl).world.db.tokens, s.family)
  {
    AskIsPosted(s, ttl);
    NextKeepsAccounted(s, Restore, ttl);
    var asked := Next(s, Restore, ttl);
    AcceptableIsGranted(asked, 0, ttl);
    var granted := Next(asked, Process(0, NoFault), ttl);
    GivingUpLeavesMessage(granted, ttl);
    NextKeepsAccounted(granted, GiveUp, ttl);
    SpentCookieKillsSession(Next(granted, GiveUp, ttl), ttl);
    ExecuteFive(s, REPLY_LOST, ttl);
  }
}
