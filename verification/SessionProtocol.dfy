/** The browser client and the token server composed: any number of concurrent requests, any
    interleaving, failing databases, and unrelated traffic on other families.

    A client that gives up on a rotation does not take its message back: the request may still reach
    the server, and its answer may still reach the cookie jar. Messages may also be dropped. */
module SessionProtocol {
  import opened Wrappers
  import opened RefreshTokens
  import opened AuthService
  import opened ApiClient
  import TokenFamilies

  /** What the server answered the rotation of a promise. */
  datatype Answer = Answer(promise: PromiseId, cookie: RawToken, outcome: Outcome)

  /** `log` holds the server's answers to this client. `forsaken` holds the promises whose request
      or whose successful reply was still outstanding when the client gave up, or whose successful
      reply was dropped. */
  datatype System = System(
    world: World,
    client: Client,
    wire: seq<Message>,
    family: FamilyId,
    log: seq<Answer>,
    forsaken: set<PromiseId>)

  datatype Event =
    | Open(mayRefresh: bool)
    | Restore
    | Reload
    | Respond(request: nat, unauthorized: bool, ok: bool)
    | Process(slot: nat, fault: Fault)
    | Arrive(slot: nat)
    | Read(slot: nat, token: Option<AccessToken>)
    | GiveUp
    | Drop(slot: nat)
    | Resume(request: nat)
    | Elsewhere(action: TokenFamilies.Action)

  function Without(wire: seq<Message>, k: nat): seq<Message>
    requires k < |wire|
  {
    wire[..k] + wire[k + 1..]
  }

  function Posted(wire: seq<Message>, ask: Option<Message>): seq<Message> {
    if ask.Some? then wire + [ask.value] else wire
  }

  /** A token of the client's own family, which nobody else holds. */
  ghost predicate OwnToken(s: System, raw: RawToken) {
    exists id :: HasHash(s.world.db.tokens, HashRefreshToken(raw), id) && s.world.db.tokens[id].familyId == s.family
  }

  ghost predicate ByOthers(s: System, a: TokenFamilies.Action) {
    match a
    case RefreshWith(raw, _) => !OwnToken(s, raw)
    case LogoutWith(Some(raw), _) => !OwnToken(s, raw)
    case _ => true
  }

  /** Whether the client is still waiting for this message's rotation. */
  predicate Awaited(c: Client, m: Message) {
    c.refreshInFlight == Some(m.promise)
  }

  predicate IsGrant(m: Message) {
    m.Reply? && m.setCookie.Some?
  }

  /** A request the server may still serve, or a successor the browser has yet to receive. */
  predicate Outstanding(m: Message) {
    m.Ask? || IsGrant(m)
  }

  ghost predicate Enabled(s: System, e: Event) {
    match e
    case Respond(i, _, _) => i < |s.client.requests| && s.client.requests[i].phase.AwaitingResponse?
    case Process(k, _) => k < |s.wire| && s.wire[k].Ask?
    case Arrive(k) => k < |s.wire| && s.wire[k].Reply?
    case Read(k, _) => k < |s.wire| && s.wire[k].Body? && Awaited(s.client, s.wire[k])
    case GiveUp => s.client.refreshInFlight.Some?
    case Drop(k) => k < |s.wire|
    case Resume(i) =>
      i < |s.client.requests| && s.client.requests[i].phase.AwaitingRefresh?
      && s.client.requests[i].phase.promise in s.client.settled
    case Elsewhere(a) => ByOthers(s, a)
    case _ => true
  }

  /** `fetch` rejects, or the page goes away: the promise ends, whatever is on the wire stays there. */
  ghost function GivenUp(s: System): System {
    if s.client.refreshInFlight.None? then s
    else
      var p := s.client.refreshInFlight.value;
      var risky := exists m :: m in s.wire && m.promise == p && Outstanding(m);
      s.(client := Settled(s.client, p, None), forsaken := s.forsaken + if risky then {p} else {})
  }

  function Asked(s: System): System {
    var (c, _, ask) := Joined(s.client);
    s.(client := c, wire := Posted(s.wire, ask))
  }

  function Responding(s: System, i: nat, unauthorized: bool, ok: bool): System
    requires i < |s.client.requests|
  {
    var (c, ask) := Responded(s.client, i, unauthorized, ok);
    s.(client := c, wire := Posted(s.wire, ask))
  }

  ghost function Processed(s: System, k: nat, fault: Fault, ttl: Time): System
    requires Fresh(s.world) && k < |s.wire| && s.wire[k].Ask?
  {
    var (w, outcome) := Refresh(s.world, s.wire[k].cookie, ttl, fault);
    var setCookie := if outcome.Issued? then Some(outcome.raw) else None;
    s.(world := w,
       wire := s.wire[k := Reply(s.wire[k].promise, setCookie)],
       log := s.log + [Answer(s.wire[k].promise, s.wire[k].cookie, outcome)])
  }

  /** The browser stores a cookie even when the script no longer waits for the response. */
  function Arrived(s: System, k: nat): System
    requires k < |s.wire| && s.wire[k].Reply?
  {
    var m := s.wire[k];
    if m.setCookie.Some? then
      s.(client := s.client.(cookie := m.setCookie.value), wire := s.wire[k := Body(m.promise)])
    else
      s.(client := if Awaited(s.client, m) then Settled(s.client, m.promise, None) else s.client,
         wire := Without(s.wire, k))
  }

  function Dropped(s: System, k: nat): System
    requires k < |s.wire|
  {
    s.(wire := Without(s.wire, k), forsaken := s.forsaken + if IsGrant(s.wire[k]) then {s.wire[k].promise} else {})
  }

  /** A new page: module state starts over, and the session is restored from the cookie. */
  ghost function Reloaded(s: System): System {
    var left := GivenUp(s);
    Asked(left.(client := left.client.(accessToken := None, requests := [])))
  }

  /** One event; an event that is not enabled does nothing. */
  ghost function Next(s: System, e: Event, ttl: Time): System {
    if !Fresh(s.world) || !Enabled(s, e) then s
    else
      match e
      case Open(mayRefresh) =>
        s.(client := s.client.(requests := s.client.requests + [Request(AwaitingResponse, mayRefresh, 1, None)]))
      case Restore => Asked(s)
      case Reload => Reloaded(s)
      case Respond(i, unauthorized, ok) => Responding(s, i, unauthorized, ok)
      case Process(k, fault) => Processed(s, k, fault, ttl)
      case Arrive(k) => Arrived(s, k)
      case Read(k, token) =>
        s.(client := Settled(s.client, s.wire[k].promise, token), wire := Without(s.wire, k))
      case GiveUp => GivenUp(s)
      case Drop(k) => Dropped(s, k)
      case Resume(i) =>
        s.(client := Resumed(s.client, i, s.client.settled[s.client.requests[i].phase.promise]))
      case Elsewhere(a) =>
        s.(world := TokenFamilies.Step(s.world, a, ttl).0)
  }

  // --- invariants of the client -------------------------------------------------------------

  /** Each rotation has at most one message on the wire. The client waits for at most one rotation,
      the newest; every other has settled. */
  ghost predicate SingleFlight(c: Client, wire: seq<Message>) {
    && (forall k, l :: 0 <= k < l < |wire| ==> wire[k].promise != wire[l].promise)
    && (forall k :: 0 <= k < |wire| ==>
          wire[k].promise < c.nextPromise && (Awaited(c, wire[k]) || wire[k].promise in c.settled))
    && (c.refreshInFlight.Some? ==>
          c.refreshInFlight.value == c.nextPromise - 1 && c.refreshInFlight.value !in c.settled)
    && (forall p :: p in c.settled ==> p < c.nextPromise)
  }

  /** No promise is forgotten, and the access token says how the last settled rotation ended: it is
      held after a success and dropped after a failure. */
  ghost predicate PromisesKept(c: Client) {
    && (forall p: PromiseId :: p < c.nextPromise ==> p in c.settled || c.refreshInFlight == Some(p))
    && (c.refreshInFlight.None? && c.nextPromise > 0 ==> (c.accessToken.Some? <==> c.settled[c.nextPromise - 1]))
  }

  ghost predicate RequestBounded(c: Client, r: Request) {
    && (if r.mayRefresh then r.sends == 1 else r.sends <= 2)
    && (r.phase.AwaitingRefresh? ==>
          && r.mayRefresh
          && (r.phase.promise in c.settled || c.refreshInFlight == Some(r.phase.promise)))
  }

  /** Every request was sent at most twice, and one that waits has a promise that will settle. */
  ghost predicate RetriesBounded(c: Client) {
    forall i :: 0 <= i < |c.requests| ==> RequestBounded(c, c.requests[i])
  }

  /** A request that waited for a rotation was sent again exactly if that rotation succeeded, and
      failed otherwise; one that did not wait was sent once. */
  ghost predicate RequestTold(c: Client, r: Request) {
    match r.waited
    case None => r.sends == 1 && !r.phase.AwaitingRefresh?
    case Some(p) =>
      if r.phase.AwaitingRefresh? then r.phase.promise == p && r.sends == 1
      else
        && p in c.settled
        && (if c.settled[p] then r.sends == 2 && !r.mayRefresh else r.sends == 1 && r.phase == Finished(false))
  }

  ghost predicate RequestsTold(c: Client) {
    forall i :: 0 <= i < |c.requests| ==> RequestTold(c, c.requests[i])
  }

  // --- one event keeps the invariant --------------------------------------------------------

  lemma NextKeepsFresh(s: System, e: Event, ttl: Time)
    requires Fresh(s.world)
    ensures Fresh(Next(s, e, ttl).world)
    ensures TokenFamilies.HasChains(s.world) ==> TokenFamilies.HasChains(Next(s, e, ttl).world)
  {
    if Enabled(s, e) && (e.Process? || e.Elsewhere?) {
      var a := if e.Process? then TokenFamilies.RefreshWith(s.wire[e.slot].cookie, e.fault) else e.action;
      TokenFamilies.StepKeepsFresh(s.world, a, ttl);
      if TokenFamilies.HasChains(s.world) { TokenFamilies.StepKeepsChains(s.world, a, ttl); }
    }
  }

  lemma JoiningKeepsFlight(c: Client, wire: seq<Message>)
    requires SingleFlight(c, wire)
    ensures SingleFlight(Joined(c).0, Posted(wire, Joined(c).2))
  {
  }

  lemma SettlingKeepsFlight(c: Client, wire: seq<Message>, p: PromiseId, token: Option<AccessToken>)
    requires SingleFlight(c, wire) && c.refreshInFlight == Some(p)
    ensures SingleFlight(Settled(c, p, token), wire)
  {
  }

  lemma RemovalKeepsFlight(c: Client, wire: seq<Message>, k: nat)
    requires SingleFlight(c, wire) && k < |wire|
    ensures SingleFlight(c, Without(wire, k))
  {
  }

  lemma ReplacementKeepsFlight(c: Client, wire: seq<Message>, k: nat, m: Message)
    requires SingleFlight(c, wire) && k < |wire| && m.promise == wire[k].promise
    ensures SingleFlight(c, wire[k := m])
  {
  }

  lemma RespondingKeepsFlight(s: System, i: nat, unauthorized: bool, ok: bool)
    requires SingleFlight(s.client, s.wire) && i < |s.client.requests|
    ensures SingleFlight(Responding(s, i, unauthorized, ok).client, Responding(s, i, unauthorized, ok).wire)
  {
    JoiningKeepsFlight(s.client, s.wire);
  }

  lemma ReloadingKeepsFlight(s: System)
    requires SingleFlight(s.client, s.wire)
    ensures SingleFlight(Reloaded(s).client, Reloaded(s).wire)
  {
    GivingUpKeepsFlight(s);
    var left := GivenUp(s);
    JoiningKeepsFlight(left.client.(accessToken := None, requests := []), left.wire);
  }

  lemma ReadingKeepsFlight(c: Client, wire: seq<Message>, k: nat, token: Option<AccessToken>)
    requires SingleFlight(c, wire) && k < |wire| && Awaited(c, wire[k])
    ensures SingleFlight(Settled(c, wire[k].promise, token), Without(wire, k))
  {
    SettlingKeepsFlight(c, wire, wire[k].promise, token);
    RemovalKeepsFlight(Settled(c, wire[k].promise, token), wire, k);
  }

  lemma GivingUpKeepsFlight(s: System)
    requires SingleFlight(s.client, s.wire)
    ensures SingleFlight(GivenUp(s).client, GivenUp(s).wire)
  {
    if s.client.refreshInFlight.Some? { SettlingKeepsFlight(s.client, s.wire, s.client.refreshInFlight.value, None); }
  }

  lemma ArrivalKeepsFlight(s: System, k: nat)
    requires SingleFlight(s.client, s.wire) && k < |s.wire| && s.wire[k].Reply?
    ensures SingleFlight(Arrived(s, k).client, Arrived(s, k).wire)
  {
    if s.wire[k].setCookie.Some? {
      ReplacementKeepsFlight(s.client, s.wire, k, Body(s.wire[k].promise));
    } else {
      if Awaited(s.client, s.wire[k]) { SettlingKeepsFlight(s.client, s.wire, s.wire[k].promise, None); }
      RemovalKeepsFlight(Arrived(s, k).client, s.wire, k);
    }
  }

  lemma NextKeepsSingleFlight(s: System, e: Event, ttl: Time)
    requires Fresh(s.world) && SingleFlight(s.client, s.wire)
    ensures SingleFlight(Next(s, e, ttl).client, Next(s, e, ttl).wire)
  {
    if Enabled(s, e) {
      match e
      case Restore => JoiningKeepsFlight(s.client, s.wire);
      case Reload => ReloadingKeepsFlight(s);
      case Respond(i, unauthorized, ok) => RespondingKeepsFlight(s, i, unauthorized, ok);
      case Process(k, fault) => ReplacementKeepsFlight(s.client, s.wire, k, Processed(s, k, fault, ttl).wire[k]);
      case Arrive(k) => ArrivalKeepsFlight(s, k);
      case Read(k, token) => ReadingKeepsFlight(s.client, s.wire, k, token);
      case GiveUp => GivingUpKeepsFlight(s);
      case Drop(k) => RemovalKeepsFlight(s.client, s.wire, k);
      case _ =>
    }
  }

  lemma NextKeepsPromises(s: System, e: Event, ttl: Time)
    requires Fresh(s.world) && SingleFlight(s.client, s.wire) && PromisesKept(s.client)
    ensures PromisesKept(Next(s, e, ttl).client)
  {
  }

  lemma NextKeepsRetriesBounded(s: System, e: Event, ttl: Time)
    requires Fresh(s.world) && SingleFlight(s.client, s.wire) && RetriesBounded(s.client)
    ensures RetriesBounded(Next(s, e, ttl).client)
  {
    var c, c' := s.client, Next(s, e, ttl).client;
    forall i | 0 <= i < |c'.requests|
      ensures RequestBounded(c', c'.requests[i])
    {
      assert i < |c.requests| ==> RequestBounded(c, c.requests[i]);
    }
  }

  /** A promise settles once. */
  lemma NextKeepsSettled(s: System, e: Event, ttl: Time)
    requires Fresh(s.world) && SingleFlight(s.client, s.wire)
    ensures forall p :: p in s.client.settled ==>
              p in Next(s, e, ttl).client.settled && Next(s, e, ttl).client.settled[p] == s.client.settled[p]
  {
  }

  /** What a response makes of a request that waits for one. */
  predicate AfterResponse(r: Request, after: Request) {
    if after.phase.AwaitingRefresh? then
      r.mayRefresh && after == r.(phase := after.phase, waited := Some(after.phase.promise))
    else
      after.phase.Finished? && after == r.(phase := after.phase)
  }

  /** What the settlement of its promise makes of a request that waits for it. */
  predicate AfterSettlement(r: Request, succeeded: bool, after: Request) {
    if succeeded then after == r.(phase := AwaitingResponse, mayRefresh := false, sends := r.sends + 1)
    else after == r.(phase := Finished(false))
  }

  ghost predicate AfterEvent(c: Client, e: Event, i: nat, after: Request) {
    if i < |c.requests| then
      var r := c.requests[i];
      after == r
      || (e.Respond? && r.phase.AwaitingResponse? && AfterResponse(r, after))
      || (e.Resume? && r.phase.AwaitingRefresh? && r.phase.promise in c.settled
          && AfterSettlement(r, c.settled[r.phase.promise], after))
    else e.Open? && after == Request(AwaitingResponse, e.mayRefresh, 1, None)
  }

  /** An event leaves a request as it was, or makes of it what a response or a settlement does. */
  lemma NextChangesRequest(s: System, e: Event, ttl: Time, i: nat)
    requires Fresh(s.world) && i < |Next(s, e, ttl).client.requests|
    ensures AfterEvent(s.client, e, i, Next(s, e, ttl).client.requests[i])
  {
  }

  lemma NextKeepsRequestsTold(s: System, e: Event, ttl: Time)
    requires Fresh(s.world) && SingleFlight(s.client, s.wire) && RetriesBounded(s.client) && RequestsTold(s.client)
    ensures RequestsTold(Next(s, e, ttl).client)
  {
    var c, c' := s.client, Next(s, e, ttl).client;
    NextKeepsSettled(s, e, ttl);
    forall i | 0 <= i < |c'.requests|
      ensures RequestTold(c', c'.requests[i])
    {
      NextChangesRequest(s, e, ttl, i);
      assert i < |c.requests| ==> RequestTold(c, c.requests[i]) && RequestBounded(c, c.requests[i]);
    }
  }

  // --- what becomes of one request ----------------------------------------------------------

  /** The first 401 leaves a request waiting for the rotation then in flight, unless it may not
      refresh; any other response finishes it, with an error for every 401. No other request changes. */
  lemma ResponseDecides(s: System, i: nat, unauthorized: bool, ok: bool, ttl: Time)
    requires Fresh(s.world) && Enabled(s, Respond(i, unauthorized, ok))
    ensures var s' := Next(s, Respond(i, unauthorized, ok), ttl);
      var r, r' := s.client.requests[i], s'.client.requests[i];
      && |s'.client.requests| == |s.client.requests|
      && (forall j :: 0 <= j < |s.client.requests| && j != i ==> s'.client.requests[j] == s.client.requests[j])
      && r'.sends == r.sends && r'.mayRefresh == r.mayRefresh
      && (if unauthorized && r.mayRefresh
          then r'.phase.AwaitingRefresh? && s'.client.refreshInFlight == Some(r'.phase.promise)
          else r'.phase == Finished(ok && !unauthorized) && s'.client.refreshInFlight == s.client.refreshInFlight)
  {
  }

  /** Once its rotation has settled, a waiting request is sent a second time, without the right to
      refresh, exactly if the rotation succeeded; otherwise it fails unsent. No other request changes. */
  lemma SettlementDecides(s: System, i: nat, ttl: Time)
    requires Fresh(s.world) && RequestsTold(s.client) && Enabled(s, Resume(i))
    ensures var s' := Next(s, Resume(i), ttl);
      var r := s.client.requests[i];
      && s'.client.requests == s.client.requests[i := s'.client.requests[i]]
      && s'.client.requests[i] == if s.client.settled[r.phase.promise]
           then Request(AwaitingResponse, false, 2, Some(r.phase.promise))
           else Request(Finished(false), r.mayRefresh, 1, Some(r.phase.promise))
  {
    assert RequestTold(s.client, s.client.requests[i]);
  }

  /** A rotation that was read to its end settles its promise by whether it brought an access token,
      and the client then holds that token or none. */
  lemma ReadSettles(s: System, k: nat, token: Option<AccessToken>, ttl: Time)
    requires Fresh(s.world) && Enabled(s, Read(k, token))
    ensures var c' := Next(s, Read(k, token), ttl).client;
      && c'.accessToken == token && c'.refreshInFlight == None
      && c'.settled == s.client.settled[s.wire[k].promise := token.Some?]
      && c'.cookie == s.client.cookie && c'.requests == s.client.requests
  {
  }
}
