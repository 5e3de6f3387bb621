# InsightAgent: a verified model of sessions, streamed chat turns and the usage ledger

The project models three connected parts of InsightAgent and proves what they promise.

**Sessions.** Refresh tokens live in a table of families. A rotation revokes the presented token and
inserts its successor; presenting a revoked token revokes the whole family, and that revocation is
committed before the request raises, inside a unit of work that rolls back on exceptions
(`UnitOfWork`, `RefreshTokens`, `AuthService`). `TokenFamilies` proves what holds over every sequence of
requests, `TokenLifetimes` to whom a token is issued and how long it is accepted; `ApiClient` is the browser
client with its one shared in-flight rotation; `SessionProtocol` composes the two, with any interleaving of
concurrent requests, abandoned rotations whose request may still reach the server, dropped messages, page
reloads, failing databases and traffic on other families; `SessionTokens` follows the client's tokens, and
`SessionRuns` proves what holds over whole runs.
It is the rotation and reuse detection of section 4.14.2 of RFC 9700, though the code does not claim OAuth.

**A streamed turn.** Text travels from a provider attempt (`ProviderLoops`) through the retrying base class
(`LlmProvider`, `LlmErrors`), the chat service that persists and then announces (`Conversations`,
`ChatUnits`, `ChatService`), the endpoint (`ChatEndpoint`), JSON and event-stream framing (`Unicode`, `Json`,
`SseFrames`, `ChatEvents`; sections 9.2.5 and 9.2.6 of the WHATWG HTML standard and section 7 of RFC 8259),
arbitrary chunking and the incremental parser (`ChatStream`), to the client's state (`UseChat`).
`EndToEnd` proves that what was reported, stored and seen is one text, `Accounting` that what was reported,
recorded and shown is one account of it.

**The log and the ledger.** `TurnSystem` interleaves any number of turns at every read of the next
sequence number, every commit and every yield; `LoneTurn` proves that a turn running alone there is the
turn of `ChatService`, and `Replicas` that in every interleaving clients see what is stored. `Pricing` and `Ledger` are the cost arithmetic and the aggregate, `PromptRegistry`
the decoding of prompt file names.

Objects whose methods update fields are classes, and each method is proved against a function of the old
state; the laws are lemmas about those functions. Conventions: random values are drawn from a supply and
never repeat; the token digest is injective; Python strings are sequences of code points and JavaScript
strings of UTF-16 code units; money is counted in millionths of a dollar, exact prices in billionths.

Where the code and its own text disagree, the model follows the code:

- The page trims a draft as JavaScript does, and the server strips the content as Python does. Python also
  strips U+001C to U+001F and U+0085, so the client's list and the log agree exactly for content with none
  of these at either end (`EndToEnd.TrimmedTurnKeepsSyncExactly`; at an input,
  `Divergences.NextLineBreaksSync`).
- The endpoint promises exactly one of done and error. A turn that a database error ends sends neither; its
  client is released only by the exception that reading a broken response throws
  (`Divergences.SendingAfterTurnExactlyWhenCrashedQuietly`, `UseChat.ReleasedExactlyWhenEnded`).
- The `partial` flag and the stored partial text differ for a provider that streams only empty deltas
  (`EndToEnd.PartialFlagIsTruthfulUnlessAllDeltasEmpty`; at an input, `Divergences.EmptyDeltaMakesFlagUntrue`).
- The scripted provider breaks the streaming contract for a negative chunk size and raises ValueError for
  zero (`ProviderLoops.FakeProvider.Stream`).
- Single flight does not by itself keep an honest client off the reuse detector: the shared promise ends when
  `fetch` rejects or the page goes away, though the request may still be served. The detector fires exactly on
  a token that was exchanged before, and the earlier of the two rotations is then one the client abandoned
  (`SessionRuns.DetectorFiresExactlyOnReusedToken`); an overtaken request and a lost reply are both enough
  (`SessionRuns.AbandonedRequestCanKillSession`, `SessionRuns.LostReplyKillsSession`).

## Model

| member | source | states |
|---|---|---|
| `UnitOfWork.Session.Close` | backend/app/db/session.py:32-41 | Committed state becomes the working state exactly when the body returned and the commit succeeded; otherwise it is what it was. |
| `AuthService.AuthService.GetByHash` | backend/app/repositories/refresh_token.py:16-20 | Finds the one row with a digest, or reports that there is none. |
| `AuthService.AuthService.RevokeFamily` | backend/app/repositories/refresh_token.py:49-66 | Revokes exactly the unrevoked tokens of the family, counts them, and commits nothing by itself. |
| `AuthService.AuthService.IssueTokens` | backend/app/services/auth.py:104-132 | Adds one unrevoked row with a fresh token in the given or a fresh family, or raises and adds none. |
| `AuthService.AuthService.RotateRefreshToken` | backend/app/services/auth.py:136-173 | A body that raises has already committed exactly what its request commits, a body that returns has committed nothing yet. |
| `AuthService.AuthService.RefreshRequest` | backend/app/api/v1/auth.py:91-107 | The whole unit of work, with a failure possible at each query, write and commit, has the committed effect and outcome of the refresh specification. |
| `AuthService.AuthService.Authenticate` | backend/app/services/auth.py:88-100 | Passes exactly a known address with a matching password and an active account, and says which check failed. |
| `AuthService.AuthService.LoginRequest` | backend/app/api/v1/auth.py:75-88 | A login opens a family of one token when authentication passes and the database does not fail, or commits nothing. |
| `AuthService.AuthService.LogoutRequest` | backend/app/api/v1/auth.py:110-118 | The whole logout request has the effect of the logout specification. |
| `TokenFamilies.RefreshCommitsAllOrNothing` | backend/app/services/auth.py:143-173 | A refresh succeeds exactly for a known, live, unexpired token of an active account on a database that does not fail; it then adds one heir, links and revokes the spent row and touches no other; every other outcome but a detected replay leaves committed state unchanged. |
| `TokenFamilies.ReplayRevokesFamily` | backend/app/services/auth.py:147-159 | A known revoked token leaves its whole family revoked in committed state although the request raises, unless the database fails first. |
| `TokenFamilies.LogoutKillsFamily` | backend/app/services/auth.py:177-185 | Logging out with a known token leaves no live token in its family; absent and unknown tokens change nothing and are no error unless the query fails. |
| `TokenFamilies.RotationExtendsChain` | backend/app/services/auth.py:168-172 | The unrevoked token being rotated is the tail of its chain, and the rotation appends exactly its heir. |
| `TokenFamilies.FamiliesAreChains` | backend/app/services/auth.py:136-173 | In every reachable state each family is one duplicate-free chain through replaced_by with every non-tail token revoked, and its length is one plus its successful rotations. |
| `TokenFamilies.ChainHasOneUser` | backend/app/services/auth.py:164-172 | All tokens of a chain belong to one user. |
| `TokenFamilies.LiveTokenIsTail` | backend/app/models/refresh_token.py:17-25 | An unrevoked token is the tail of its family's chain. |
| `TokenFamilies.AtMostOneLiveToken` | backend/app/models/refresh_token.py:17-25 | In every reachable state two unrevoked tokens of one family are the same token, and a family has one user. |
| `TokenFamilies.StepEvolves` | backend/app/repositories/refresh_token.py:22-66 | Requests only add rows and revoke unrevoked ones; a revoked row never changes again. |
| `TokenFamilies.RunContinues` | backend/app/repositories/refresh_token.py:22-66 | The same over any number of requests: no row disappears and revoked_at and replaced_by are written once. |
| `TokenFamilies.ExchangedAtMostOnce` | backend/app/services/auth.py:147-173 | Over any run each raw token is exchanged for a successor at most once. |
| `TokenFamilies.DeadFamilyStaysDead` | backend/app/services/auth.py:147-185 | A family without an unrevoked token never regains one. |
| `TokenLifetimes.LoginIssuesExactly` | backend/app/services/auth.py:88-132 | A login issues exactly for a known address, the right password, an active account and a working database: one new row, for that account, in a family of its own, valid for the configured time; otherwise nothing changes and the outcome says why. |
| `TokenLifetimes.RefreshAnswersExactly` | backend/app/services/auth.py:143-166 | Which answer a known token gets is told by its row, in the order of the checks, and by the statement that fails. |
| `TokenLifetimes.UnknownTokenIsRefused` | backend/app/services/auth.py:143-145 | A token with no row is refused as unknown and changes nothing. |
| `TokenLifetimes.RotationIssuesHeir` | backend/app/services/auth.py:168-173 | A rotation issues to the account of the token presented, in its family, valid from now, and stamps the spent row with the time and the heir. |
| `TokenLifetimes.RevocationIsExact` | backend/app/repositories/refresh_token.py:49-66 | Revoking a family stamps its unrevoked rows with the time and changes no other row or column. |
| `TokenLifetimes.RevocationIsStampedNow` | backend/app/repositories/refresh_token.py:49-66 | A detected replay and a logout stamp the tokens they revoke with the present time. |
| `TokenLifetimes.LoginTokenIsAccepted` | backend/app/services/auth.py:104-132 | The token of a login is accepted by a refresh at exactly the times before the login plus its time to live. |
| `TokenLifetimes.HeirIsAccepted` | backend/app/services/auth.py:161-173 | So is the heir of a rotation, from the time of the rotation. |
| `TokenLifetimes.TokenLivesUntilRevokedOrExpired` | backend/app/services/auth.py:143-173 | In any run a token belongs for ever to the account it was issued to and is accepted exactly while unrevoked, unexpired and its account active. |
| `ApiClient.ApiClient.RefreshAccessToken` | frontend/services/api-client.ts:65-88 | Joins the rotation in flight, or starts one with the cookie held now and remembers its promise. |
| `ApiClient.ApiClient.FinishRefresh` | frontend/services/api-client.ts:72-85 | On every path the access token is stored or dropped, the promise settles accordingly and the in-flight variable is cleared. |
| `ApiClient.ApiClient.OnResponse` | frontend/services/api-client.ts:113-128 | Only a first 401 waits for a rotation; any other response finishes the request. |
| `ApiClient.ApiClient.OnRefreshed` | frontend/services/api-client.ts:117-121 | A waiting request is sent once more without the right to refresh, or finishes with its error. |
| `SessionTokens.LoginStartsSession` | backend/app/api/v1/auth.py:75-88 | A login after any run of the server leads to an initial state of the protocol, with the chain of every family. |
| `SessionProtocol.NextKeepsSingleFlight` | frontend/services/api-client.ts:58-88 | Every event keeps the client waiting for at most one rotation, the newest; abandoned ones may still have one message each under way. |
| `SessionProtocol.NextKeepsPromises` | frontend/services/api-client.ts:72-85 | Every promise settles or is in flight, and the access token is held exactly when the last settled rotation succeeded. |
| `SessionProtocol.NextKeepsRetriesBounded` | frontend/services/api-client.ts:115-121 | Every request is sent at most twice and waits only for a promise that has settled or is the one in flight. |
| `SessionProtocol.ResponseDecides` | frontend/services/api-client.ts:113-128 | The first 401 leaves a request waiting for the rotation then in flight, any other response finishes it, and no other request changes. |
| `SessionProtocol.SettlementDecides` | frontend/services/api-client.ts:115-121 | A waiting request is sent a second time, without the right to refresh, exactly if its rotation succeeded, and fails unsent otherwise. |
| `SessionProtocol.ReadSettles` | frontend/services/api-client.ts:76-85 | A rotation read to its end settles its own promise by whether it brought an access token, and the client then holds that token or none. |
| `SessionRuns.RetriedExactlyAfterSuccess` | frontend/services/api-client.ts:115-121 | In every run the requests sent twice are those that waited for a rotation that succeeded, and one that waited for a failed rotation has failed without a second send. |
| `SessionRuns.PresentedCookieIsTail` | frontend/services/api-client.ts:65-71 | In every run the family has one chain, and a presented cookie is its unrevoked tail exactly when it was not exchanged before and the detector has not fired; so always while no rotation was abandoned. |
| `SessionRuns.HonestSessionIsNeverRevoked` | frontend/services/api-client.ts:58-88 | In every interleaving of any number of requests the client awaits one rotation at most and the family is dead exactly when the detector has fired; it never has, and one request for a rotation at most is under way, while no rotation was abandoned with its request or successful reply outstanding. |
| `SessionRuns.DetectorFiresExactlyOnReusedToken` | backend/app/services/auth.py:147-159 | The replay branch answers this client exactly when the token was exchanged before, or the detector had fired, and the database does not fail; the first time, the earlier of the two rotations with that token is one the client abandoned. |
| `SessionRuns.OvertakenRequestKillsSession` | frontend/services/api-client.ts:72-85 | In any state with an abandoned request that carries the client's acceptable cookie, the next rotation, served first, leads to the revocation of the family. |
| `SessionRuns.AbandonedRequestCanKillSession` | frontend/services/api-client.ts:72-85 | From any quiet, acceptable session, giving up on a request that the next rotation overtakes revokes the session, though no reply was lost. |
| `SessionRuns.LostReplyKillsSession` | docs/adr/0003-refresh-token-rotation-in-httponly-cookie.md:49-54 | From any quiet, acceptable session, giving up on a granted rotation before its reply arrives makes the client's next rotation revoke its own family. |
| `LlmProvider.LLMProvider.Stream` | backend/app/llm/base.py:169-221 | Exactly the attempts up to the deciding one are made, at most max_retries + 1, each before it a transient failure that nothing was heard of; everything they yield is emitted in order, the deciding attempt's error is raised, and the sleep is base * (2^retries - 1). |
| `LlmProvider.StreamMeetsContract` | backend/app/llm/base.py:177-221 | With attempts that meet their contract only the deciding attempt is heard: deltas, then one Finished, last, with that attempt's own text, usage and finish reason, the provider and model, and the number of failed attempts, or that attempt's error, which was unretryable, after a delta or at the end of the budget. |
| `LlmProvider.DecidingAttemptIsUnique` | backend/app/llm/base.py:185-221 | There is only one deciding attempt. |
| `LlmProvider.LLMProvider.Complete` | backend/app/llm/base.py:114-167 | The first reply that is not retried, or the last allowed, is returned exactly if it came in time, with its text, usage and reason under provider, requested or default model and retries; a late one is a timeout; the time is that of all attempts and waits. |
| `LlmProvider.CompleteTimeBound` | backend/app/llm/base.py:126-157 | Whatever the provider does, the call is over within (max_retries + 1) * timeout + base * (2^max_retries - 1). |
| `LlmProvider.WaitsDouble` | backend/app/llm/base.py:223-232 | The first wait is the base delay and each further one twice the last. |
| `LlmProvider.ElapsedIsSum` | backend/app/llm/base.py:126-140 | The calls of a completion take their own time, or the timeout when they are late, and nothing else is counted. |
| `LlmErrors.RetryableExactly` | backend/app/llm/errors.py:66-79 | Rate limits, timeouts, outages and unclassified failures are retried; rejected credentials, bad or filtered requests and wrong configuration are not. |
| `LlmErrors.CodeTellsClass` | backend/app/llm/errors.py:30-62 | The error code determines the class of the error. |
| `ProviderLoops.OpenAiStream` | backend/app/llm/openai_provider.py:149-178 | The loop meets the contract; deltas are the non-empty contents, usage and finish reason the last reported ones. |
| `ProviderLoops.OpenAiUsageIsLastReported` | backend/app/llm/openai_provider.py:91-101 | Prompt tokens of the last chunk that reports usage are the input, completion tokens the output, and the cached part is none when unreported. |
| `ProviderLoops.OpenAiReasonIsLastGiven` | backend/app/llm/openai_provider.py:149-178 | The finish reason is the last non-empty one given. |
| `ProviderLoops.OpenAiLosesNothing` | backend/app/llm/openai_provider.py:149-178 | The streamed text is the join of all contents of all chunks. |
| `ProviderLoops.OllamaStream` | backend/app/llm/ollama_provider.py:130-170 | The loop meets the contract; deltas are the non-empty contents of the readable lines, usage and finish reason those of the last done line. |
| `ProviderLoops.OllamaUsageIsLastDone` | backend/app/llm/ollama_provider.py:92-96 | The counters and the reason of the last done line are kept: evaluated prompt tokens as input, generated ones as output, none cached. |
| `ProviderLoops.OllamaLosesNothing` | backend/app/llm/ollama_provider.py:130-170 | The streamed text is the join of the contents of all readable lines. |
| `ProviderLoops.AnthropicStream` | backend/app/llm/anthropic_provider.py:145-172 | The loop meets the contract, yields every delta, empty ones included, and reports the folded usage and the stop reason, `end_turn` when there is none. |
| `ProviderLoops.AnthropicInputIsEverythingSent` | backend/app/llm/anthropic_provider.py:100-111 | Input tokens are everything sent, and the cached ones never more than that. |
| `ProviderLoops.ChunkLoop` | backend/app/llm/fake.py:142-143 | With a positive size the slices are non-empty, at most that long and join to the text; with a negative size there are none; zero raises. |
| `ProviderLoops.FakeProvider.NextText` | backend/app/llm/fake.py:91-104 | Scripted texts come in order and the last repeats; without a script the fallback is used. |
| `ProviderLoops.FakeProvider.Stream` | backend/app/llm/fake.py:130-154 | Fails while failures are queued, then crashes exactly for a chunk size of zero and otherwise meets the contract exactly when the size is positive or the text empty. |
| `ProviderLoops.RecoveryAfterFailures` | backend/app/llm/base.py:185-221 | A provider failing n times is heard after n retries exactly when the failure is transient and n is within the budget. |
| `Json.JsonRoundTrip` | backend/app/services/chat.py:54-57 | JSON.parse of json.dumps gives back every payload, its text as UTF-16, for all text including quotes, control characters, surrogates and characters beyond the BMP. |
| `Json.DumpsIsPlain` | backend/app/services/chat.py:55-57 | A dumped payload is printable ASCII and never holds a bare newline. |
| `Json.OtherSpellings` | frontend/services/chat.ts:50 | Hexadecimal digits read alike in either case, and an escaped slash is a slash. |
| `SseFrames.FramingIsUnique` | frontend/services/chat.ts:107-118 | A stream can be split into frames and an unterminated tail in only one way. |
| `SseFrames.ParseFrame` | frontend/services/chat.ts:36-47 | The event is that of the last event line, the data the join of the data lines or an empty object; no event gives null. |
| `SseFrames.ReadBack` | frontend/services/chat.ts:36-47 | A written frame is read back as the same one-line name and payload. |
| `SseFrames.MultilineReadBack` | frontend/services/chat.ts:36-47 | Data over several lines is read back joined by line breaks, and a frame without data as an empty object. |
| `SseFrames.LastEventWins` | frontend/services/chat.ts:40-43 | A later event line replaces the name, a data line does not, and other lines count for nothing. |
| `SseFrames.NamelessIsNoEvent` | frontend/services/chat.ts:45 | A frame is no event exactly when its last event line is empty or missing. |
| `ChatEvents.EventReadBack` | frontend/services/chat.ts:49-75 | Every event the server sends is understood by the client as the event that was meant. |
| `ChatEvents.LookupField` | frontend/services/chat.ts:53-69 | The client finds the last member of a name with the value the server wrote. |
| `ChatEvents.AccountingIsReadBack` | frontend/services/chat.ts:61-62 | The client reads each of the nine members of a done event as the server meant it. |
| `ChatEvents.LooseMembers` | frontend/services/chat.ts:49-70 | Missing texts read as undefined, null ones as null, and a flag is set by anything not missing, null, false, empty or zero. |
| `ChatStream.ReadChunks` | frontend/services/chat.ts:96-123 | The nested loops deliver, for any chunking and any handling of a frame, exactly what reading the whole text at once delivers, the point of a thrown error included. |
| `ChatStream.StreamMessage` | frontend/services/chat.ts:83-123 | The same for the real frame handling. |
| `ChatStream.ChunksDoNotMatter` | frontend/services/chat.ts:77-123 | Two splits of one text deliver the same events, and dropping the unterminated tail changes nothing. |
| `ChatStream.EventsRoundTrip` | backend/app/services/chat.py:54-57 | Encoding any list of events, concatenating and parsing gives back the same events. |
| `ChatStream.UnknownEventsAreIgnored` | frontend/services/chat.ts:71-74 | Frames with unknown names anywhere in a stream change nothing of what is delivered. |
| `ChatStream.MalformedFrameEndsStream` | frontend/services/chat.ts:49-50 | A frame that is no JSON ends the stream with an exception: what came before is delivered and nothing after. |
| `ChatStream.BrokenConnectionDeliversPrefix` | frontend/services/chat.ts:100-119 | A body cut anywhere delivers exactly the events whose frames arrived completely, and no parse error. |
| `ChatStream.WireIsAscii` | backend/app/services/chat.py:54-57 | The whole body is ASCII. |
| `ChatStream.NameSurvivesExactlyWhenOneLine` | backend/app/services/chat.py:57 | An event name survives the wire exactly when it is a non-empty single line. |
| `Conversations.ConversationRepository.AddMessage` | backend/app/repositories/conversation.py:61-72 | Appends a row numbered one past the highest of its conversation, which the unique index accepts when nobody else writes. |
| `Conversations.ConversationRepository.ListMessages` | backend/app/repositories/conversation.py:74-95 | The rows of the conversation in sequence order, or the newest ones. |
| `Conversations.OrderByIsInOrder` | backend/app/repositories/conversation.py:77-81 | The ordering sorts. |
| `Conversations.OrderByKeepsRows` | backend/app/repositories/conversation.py:77-81 | The ordering is a permutation. |
| `Conversations.TailIsSuffixOfLog` | backend/app/repositories/conversation.py:82-92 | Order descending, limit, reverse is the last min(limit, n) rows of the ascending log, in whatever order the table holds them. |
| `ChatUnits.TitleSetByFirstMessage` | backend/app/services/chat.py:168-169 | Exactly the first message sets the title: the message, or its first 80 characters and an ellipsis. |
| `ChatUnits.ModelSeesLogSuffix` | backend/app/services/chat.py:171-182 | The model is shown the end of the log in order, and the last message is the one just stored. |
| `ChatUnits.ShownOneByOne` | backend/app/services/chat.py:174-181 | Every stored message of that suffix is shown with its own role and content. |
| `Unicode.WhitespaceListed` | backend/app/services/chat.py:69 | The characters that Python strips and those that JavaScript trims, listed. |
| `Unicode.BlankLeavesNothing` | frontend/features/chat/use-chat.ts:38 | A message is blank exactly when no trimmed part of it is left. |
| `Unicode.PairGivesCodePoint` | frontend/services/chat.ts:104 | A code point beyond the basic plane becomes a surrogate pair that gives it back. |
| `ChatService.ChatService.PersistUserTurn` | backend/app/services/chat.py:154-182 | Commits the question, the title and nothing else for an owned conversation, or commits nothing. |
| `ChatService.ChatService.PersistAssistantTurn` | backend/app/services/chat.py:184-225 | Commits the reply and its ledger row together, or neither. |
| `ChatService.ChatService.RecordFailure` | backend/app/services/chat.py:227-260 | Commits the partial reply, if any, and the failed ledger row together, or neither. |
| `ChatService.Relay` | backend/app/services/chat.py:91-101 | Yields every delta in order and collects its text, up to the point where the consumer stops. |
| `ChatService.ChatService.FinishTurn` | backend/app/services/chat.py:102-150 | Either path commits before it yields its one terminal event, and yields none when the database fails. |
| `ChatService.ChatService.StreamTurn` | backend/app/services/chat.py:66-150 | For every provider behaviour, database failure and early stop, the events, the state committed at each of them and the ending are those of the turn specification; the provider is sent the system message and the history. |
| `ChatEndpoint.SendMessage` | backend/app/api/v1/conversations.py:104-124 | The body is the encoding of the turn's events up to the disconnect, an error before streaming becomes one error event, and what stays committed is what was committed by then. |
| `ChatEndpoint.StreamFollowsGrammar` | backend/app/api/v1/conversations.py:96-100 | Every stream is a prefix of user_message delta* (done or error), or a lone error, and is complete unless the database failed or the client left. |
| `ChatEndpoint.PersistedBeforeAnnounced` | backend/app/services/chat.py:75-150 | Whatever an event announces, question, reply with its ledger row and accounting, or kept part with the failed call, was committed by this very turn, in rows that were not there before, before the event was yielded, and stays committed. |
| `ChatEndpoint.StoredQuestionIsStripped` | backend/app/services/chat.py:69-75 | The stored question is one non-empty slice of the content sent, without whitespace at its ends and with only whitespace left out around it. |
| `ChatEndpoint.RefusedExactly` | backend/app/services/chat.py:69-73 | A request is refused exactly for blank or overlong content or a conversation of somebody else, with the error that says which and nothing stored. |
| `UseChat.ChatHook.Send` | frontend/features/chat/use-chat.ts:36-139 | The loop leaves the state that applying the events one by one specifies. |
| `UseChat.SendAppends` | frontend/features/chat/use-chat.ts:54-124 | A send appends the user's message and the replies of the events and alters no earlier role or content. |
| `UseChat.ReleasedExactlyWhenEnded` | frontend/features/chat/use-chat.ts:63-136 | The hook stops sending exactly when the stream delivered done or error, or threw. |
| `UseChat.ShownWhileStreaming` | frontend/features/chat/use-chat.ts:54-82 | Until the stream ends, the page shows the whole text so far, and no error or accounting of an earlier turn. |
| `UseChat.ShownAfterEnd` | frontend/features/chat/use-chat.ts:84-124 | The terminal event clears the stream and leaves the accounting of a finished or the message of a failed turn. |
| `UseChat.ShownAfterThrow` | frontend/features/chat/use-chat.ts:127-136 | An exception clears the stream and shows its message, and changes no message of the list. |
| `UseChat.BlankIsIgnored` | frontend/features/chat/use-chat.ts:38 | Sending a blank message changes nothing. |
| `UseChat.EchoIsLast` | frontend/features/chat/use-chat.ts:46-62 | The question is echoed at once at the end, numbered after everything, under a made-up id. |
| `UseChat.EventChangesMessages` | frontend/features/chat/use-chat.ts:69-124 | Only the confirmation of its own id changes a listed message; a reply is numbered on and carries the stored or a made-up id. |
| `EndToEnd.SeenStoredAndReportedAgree` | backend/app/services/chat.py:91-150 | For every provider behaviour and chunking, the text the client accumulated, the reply stored by the server and, on done, the provider's reported text are the same. |
| `EndToEnd.LossyClientSeesPrefix` | frontend/services/chat.ts:96-119 | However the body breaks off, the client has accumulated a prefix of the streamed text. |
| `EndToEnd.ShownIsDelivered` | frontend/features/chat/use-chat.ts:80-82 | With any part of the body read, the page shows the join of the deltas whose frames have arrived, until done or error has. |
| `Accounting.TurnRecordsWhatWasReported` | backend/app/services/chat.py:102-150 | The ledger row and the done event of a turn carry the usage, finish reason, cost and retries of what its deciding attempt itself reported; a failed turn's row names that attempt's error and claims nothing else. |
| `Accounting.PageShowsWhatWasReported` | frontend/features/chat/use-chat.ts:84-124 | After a turn read in any chunks the page holds the accounting that the deciding attempt reported, or the message of its error. |
| `EndToEnd.TurnKeepsSyncExactlyWhenStripped` | frontend/features/chat/use-chat.ts:44-124 | A completed turn keeps the client's list equal to the server's log exactly when the server has nothing to strip from the content. |
| `EndToEnd.TrimmedTurnKeepsSyncExactly` | frontend/features/chat/chat-workspace.tsx:75-87 | For content as the page trims it, exactly when neither end is one of the characters that Python strips and JavaScript does not. |
| `EndToEnd.ReplicaFollowsLog` | frontend/features/chat/use-chat.ts:63-126 | Over any sequence of confirmed, completed turns, with anything between them that happens in other conversations, the client's (role, content) list equals the server's ordered log. |
| `EndToEnd.OtherTurnsLeaveRowsAlone` | backend/app/services/chat.py:154-260 | A turn of another conversation, however it ends, leaves the rows of this one alone. |
| `EndToEnd.PartialFlagIsTruthfulUnlessAllDeltasEmpty` | backend/app/services/chat.py:134-150 | The partial flag tells whether a partial reply was stored exactly when there was no delta or some delta was not empty. |
| `EndToEnd.ClientHoldsStoredIds` | frontend/features/chat/use-chat.ts:71-102 | After a completed turn, however its body was cut, the client's list holds the question under the id of the row stored for it, and after a success the reply under the id of its row. |
| `Divergences.NextLineBreaksSync` | backend/app/services/chat.py:69-70 | A next-line control before the text passes the page's trim and leaves client and server with different lists. |
| `Divergences.EmptyDeltaMakesFlagUntrue` | backend/app/services/chat.py:134-150 | One empty delta before a failure makes the error say partial while only the question is stored. |
| `Divergences.SendingAfterTurnExactlyWhenCrashedQuietly` | frontend/features/chat/use-chat.ts:63-136 | A client that has read the whole body of a turn goes on sending exactly when a database error ended the turn and the next read throws nothing. |
| `Divergences.UnrecordedFailureIsReleasedOnlyByThrow` | backend/app/services/chat.py:134-150 | Such a turn: the provider fails and the commit that records it fails too. |
| `TurnSystem.CommitExtendsLog` | backend/app/models/conversation.py:63-65 | A number read earlier is accepted only while it is still next, and then extends the log by one. |
| `TurnSystem.NumbersAreOneToN` | backend/app/repositories/conversation.py:52-72 | In every interleaving with conflicts aborting, the committed numbers of a conversation are exactly 1..n, each once, in commit order. |
| `TurnSystem.ReplyFollowsItsQuestion` | backend/app/services/chat.py:164-203 | In every interleaving each reply a turn stored is numbered after the question that turn stored and holds the relayed text. |
| `TurnSystem.AnnouncedIsCommitted` | backend/app/services/chat.py:75-150 | In every interleaving each client has been sent a prefix of the grammar and everything it was told is committed, in rows of its own turn that no other turn claims. |
| `TurnSystem.LedgerIsConserved` | backend/app/services/chat.py:184-260 | Over any interleaving, with turns at any stage, the user messages, replies and ledger rows added are as many as the turns that stored one, in new rows no two turns share; each ended turn has its question, its call and a reply exactly when there was one to store. |
| `TurnSystem.EachEndedTurnCounts` | backend/app/services/chat.py:184-260 | When all turns have ended, each has added one user message and one ledger row. |
| `LoneTurn.LoneTurnIsWholeTurn` | backend/app/services/chat.py:66-150 | A turn run alone in the interleaved system sends the events and commits the rows of the sequential turn, for every provider behaviour and database failure. |
| `Replicas.SeenIsStoredInEveryInterleaving` | frontend/services/chat.ts:96-119 | In every interleaving, a client has accumulated a prefix of the text its turn relayed, all of it once the body arrived, and a stored reply is that text. |
| `Replicas.ReplicaFollowsInterleavedLog` | frontend/features/chat/use-chat.ts:63-126 | In every interleaving with other turns, between and during its own, a client that sends stripped questions one at a time, each completed, holds the server's ordered log. |
| `TurnSystem.SummaryOfRunIsConsistent` | backend/app/repositories/llm_call.py:43-70 | In every state calls = succeeded + failed, failed <= unpriced, the coverage is a share and the total cost is within half a millionth of a dollar per priced call. |
| `Ledger.SummaryIsConsistent` | backend/app/repositories/llm_call.py:14-70 | The same for any ledger the service writes, with full coverage exactly when no call is unpriced. |
| `Ledger.TotalCostIsClose` | backend/app/repositories/llm_call.py:53 | For any ledger the service writes, failed and unpriced calls included, the reported total is within half a millionth of a dollar per priced call of the exact cost. |
| `Ledger.SummariesAdd` | backend/app/repositories/llm_call.py:43-70 | The summary of two windows together is the sum of their counts, token sums and totals. |
| `Ledger.SummaryOfOne` | backend/app/repositories/llm_call.py:43-70 | A single call is summarised as itself. |
| `Ledger.CoverageIsPricedShare` | backend/app/repositories/llm_call.py:30-33 | The coverage times the calls is the number of priced calls, and an empty window is covered. |
| `Pricing.RoundingIsNearest` | backend/app/llm/pricing.py:103-105 | The recorded cost is the nearest millionth to the exact price, the even one of two equally near. |
| `Pricing.CostIsMonotone` | backend/app/llm/pricing.py:94-105 | More input with the cached part fixed, or more output, never costs less. |
| `Pricing.CachingPaysExactlyWithinInput` | backend/app/llm/pricing.py:94-101 | For a table entry one more cached token does not raise the exact price exactly when an uncached one is left or cached tokens are free. |
| `Pricing.CachingNeverCostsMore` | backend/app/llm/pricing.py:94-105 | Moving input tokens to the cache never raises the exact or the recorded cost of a table entry. |
| `Pricing.LocalInferenceIsFree` | backend/app/llm/pricing.py:64-84 | Local inference and the test double cost zero under any model name, not unknown. |
| `Pricing.AnthropicFoldingBillsOnce` | backend/app/llm/anthropic_provider.py:100-111 | Folding cache reads into the input bills every token once at its own rate. |
| `Pricing.EveryTokenIsBilled` | backend/app/llm/pricing.py:94-101 | Each uncached input, cached and output token is billed once at its own rate, also when more are cached than sent. |
| `Pricing.PricedExactlyWhenListed` | backend/app/llm/pricing.py:83-92 | A model has a cost exactly if the table lists it or its provider as a whole, the model's own entry first. |
| `Pricing.ListedModels` | backend/app/llm/pricing.py:42-64 | The three vendor models have their listed rates. |
| `Pricing.MillionCostsListed` | backend/app/llm/pricing.py:94-105 | A million input, output or cached tokens cost the rate listed per million, to the millionth of a dollar. |
| `Pricing.CostTextIsFaithful` | backend/app/services/chat.py:123 | The printed cost determines the recorded one. |
| `PromptRegistry.DecodeIsExact` | backend/app/prompts/registry.py:25 | A file name decodes to a pair exactly when it is that name, `_v`, that numeral and `.md`, with at most one newline after it, also for names containing `_v` and digits. |
| `PromptRegistry.MarkdownDecodesUniquely` | backend/app/prompts/registry.py:56-63 | Two files the scan for `*.md` passes on never decode alike. |
| `PromptRegistry.PrintedVersionRoundTrip` | backend/app/prompts/registry.py:63-66 | A printed version number comes back as the number. |
| `PromptRegistry.LoadAll` | backend/app/prompts/registry.py:52-72 | The registry holds exactly the prompts of the files, or the first file against the convention is reported. |
| `PromptRegistry.GetPrompt` | backend/app/prompts/registry.py:75-87 | Over any directory, answers with the text of a file of that name and version, the latest being numerically at least every other of that name; not found exactly when there is none, and an error exactly when some file breaks the convention. |

## Left out

- Vendor SDK calls, HTTP transport and the translation of vendor exceptions: an attempt is the list of chunks the library yields and the error that ends it.
- Password hashing, access-token encoding and SHA-256: a digest is injective, and an access token is an opaque value.
- Concurrent units of work on the same token: the code takes no row lock, so each auth request is one atomic step, and the client's single flight covers the requests it still awaits.
- Several tabs, a logout or second login of the same client during the protocol, and deletion of users or conversations.
- Whether a browser stores the cookie of a response whose page is gone: the model allows both.
- `ChatStream.BrokenConnectionDeliversPrefix`: the exception that `reader.read` throws on a broken connection is not part of the stream; it is the `thrown` of `UseChat.ChatHook.Send`.
- `revoke_all_for_user`, registration and the bootstrap admin: single-statement operations.
- Audit and attribution columns (user agent, IP address, user of a call, prompt name, version and checksum, latency column, timestamps) and the average latency of the summary.
- The database engine: tables are maps and sequences, a commit with its unique-index check is one step, and a session sees its own copy plus what is committed.
- `Json.Parse`: reads the flat, whitespace-free objects the server writes; numbers stay the literals that were printed, so the precision of a JavaScript number is not modelled.
- The wording of the timeout error, which names provider and seconds.
- Decimal precision beyond 28 digits, which the default context would signal; token counts of that size do not occur.
- `ChatStream.StreamMessage`: for bodies the server does not write, a payload with whitespace or nested values counts as malformed, as in `Json.Parse`.
- `LlmProvider.LLMProvider.Stream`: has no timeout, as in the code; consumer cancellation is modelled in `ChatService.StreamTurn` instead.
- `get_prompt` failing during a turn and `Template.substitute`: the chat template is part of the package; a turn is given the rendered system text.
- `PromptRegistry.DecodeIsExact`: digits are the ASCII ones, where the pattern accepts those of every script; two files may carry one number with different leading zeros, and either may then be the latest.
- `useChat` cancel, load and reset during a stream, and timestamps of messages.
- FastAPI wiring, middleware, cookie attributes, request schemas, health probes, settings, logging, the Redis wrapper and the React components.
