# Verification of svpchain-evm-agent

A Dafny 4.11 model of the stateful parts of the EVM agent and proofs about them. The main results
are for-all statements: over every input, every stream, every reply of a backend, or every run of
a state machine. The lemmas named after an example or a counterexample show one input each.
`dafny verify dfyconfig.toml` checks the whole project.

Backends, clocks, random generators and decoders are parameters. A backend or a model is an
arbitrary function from the number of the attempt to its outcome, so what is proved holds for
whatever it answers. Random identifiers are assumed fresh; times are integers (nanoseconds where
the source keeps a time, milliseconds for the retry delay).

| file | models |
|---|---|
| `Text.dfy`, `Sorting.dfy` | Go's string functions and sorts, as far as the agent uses them |
| `Decimal.dfy` | compare and subtract on unbounded decimal strings, and the funding decision |
| `RateLimiter.dfy` | the per-address fixed-window counter |
| `Challenge.dfy` | the challenge text and its decoder |
| `NonceStore.dfy`, `TenantStore.dfy` | the two expiring stores |
| `AuthRun.dfy` | the authentication protocol as a state machine over interleaved steps |
| `AuthService.dfy` | the service that runs that machine on the stores |
| `McpClient.dfy` | the private MCP session: connect, call, reconnect, close |
| `Sse.dfy`, `EventStream.dfy` | the event-stream scanner, and the reading the HTML standard prescribes |
| `Assembly.dfy` | tool calls from shards: the abstract fold |
| `OpenAi.dfy`, `Anthropic.dfy` | the two adapters, each proved against that fold |
| `LlmClient.dfy` | one chat round over attempts, and the retry rule |
| `Translation.dfy`, `Runner.dfy` | the Anthropic request, and the tool-calling loop that builds the history |
| `Registration.dfy` | reconciling the on-chain record |
| `Toolbridge.dfy` | the registry, list_tools, the startup loop and the card's skills |

Five properties that one would expect do not hold of the code on all inputs. Each is proved with
the exact condition under which it holds.

* `decimal_subtract` pads `right` to the length of `left` but never strips it. The difference is
  exact if and only if no significant digit of `right` sticks out (`Decimal.ExactWhen`); `5` minus
  `03` gives `5` (`Decimal.UncanonicalCounterexample`). A top-up never falls short even then.
* The Anthropic adapter agrees with the abstract fold, block for block, if and only if no block that
  was started as a tool use is started again or started after a delta (`Anthropic.Refinement`). Such
  a block gives two calls or more if its last start is a tool use again (`Anthropic.RestartExample`),
  and otherwise its call is lost (`Anthropic.LostCallExample`, `Anthropic.CallsPerBlock`).
* The challenge text decodes to its fields if and only if the chain id and the nonce are non-empty
  and free of colons and the time fits 64 bits (`Challenge.RoundTrip`); an accepted text is its own
  normal form if and only if its time is written plainly (`Challenge.NormalForm`).
* A status outside 200 to 299 is final if and only if it is 4, 40 to 49, or 4xx other than 429: the
  test looks at the first digit of the printed number. A redirect or an informational status is
  retried too, although internal/llm/llm_retry.go:10 speaks only of 429 and 5xx
  (`LlmClient.FinalStatuses`).
* The Anthropic request keeps the meaning of an assistant turn if and only if the arguments of each
  of its calls are there and decode, or stand for the empty object anyway; others go out as an empty
  object (`Translation.TranslationKeepsMeaning`). The runner lets only the JSON null through to that
  (`Runner.RequestKeepsMeaning`).

Tenant ids must be fresh: a mint leaves another bearer's lookups alone if and only if it does not
overwrite that bearer's record (`TenantStore.MintKeepsOthers`). Every run of `AuthRun` assumes it.

The rate limiter's bound is sharper than the one a fixed window suggests: n windows admit at most
(n+1) caps less one (`RateLimiter.SlidingBound`). Some run reaches that if and only if the cap is
one, or n is positive and a window lasts longer than one moment; otherwise n caps are the most
(`RateLimiter.BoundIsTight`, `RateLimiter.BoundIsMissed`).

## Model

| member | source | states |
|---|---|---|
| `Decimal.StripZeros` | scripts/local-evm-agent.sh:227-228 | leading zeros go, the value stays, the last digit is kept |
| `Decimal.DecimalGe` | scripts/local-evm-agent.sh:224-230 | decides numeric ≥ for all digit strings, leading zeros included |
| `Decimal.LexIsNumeric` | scripts/local-evm-agent.sh:230 | on digit strings of equal length, lexicographic and numeric order agree |
| `Decimal.LongerIsLarger` | scripts/local-evm-agent.sh:229 | without leading zeros the longer number is the larger |
| `Decimal.PadZeros` | scripts/local-evm-agent.sh:235 | zeros in front up to a width change no value; a longer number is untouched |
| `Decimal.SubtractColumns` | scripts/local-evm-agent.sh:236-241 | digits and final borrow make up the exact difference of `left` and the digits of `right` that line up with it |
| `Decimal.DecimalSubtract` | scripts/local-evm-agent.sh:232-243 | fails exactly on underflow; otherwise a canonical number, `left` minus the part of `right` that lines up with it |
| `Decimal.ExactWhen` | scripts/local-evm-agent.sh:235-241 | that part is all of `right` if and only if `right` is no longer than `left` or is zero |
| `Decimal.CanonicalIsExact` | scripts/local-evm-agent.sh:232-243 | a canonical `right` no larger than `left` is always subtracted exactly |
| `Decimal.UncanonicalCounterexample` | scripts/local-evm-agent.sh:235-241 | one inexact case |
| `Decimal.TopUp` | scripts/local-evm-agent.sh:249-258 | nothing is sent when the balance suffices; else balance plus top-up reaches the target, and equals it exactly under the stated condition |
| `RateLimiter.IPRateLimiter.Allow` | internal/mcp/auth/ip_rate_limiter.go:58-72 | an unknown address always passes; else the answer and the new entry, by value and as the step of the run model |
| `RateLimiter.IPRateLimiter.Sweep` | internal/mcp/auth/ip_rate_limiter.go:76-85 | exactly the expired entries go, in any order of visiting |
| `RateLimiter.StoreTracksWindow` | internal/mcp/auth/ip_rate_limiter.go:58-85 | in every run the store holds the unswept window of an address, or nothing once it has run out |
| `RateLimiter.OnlyOwnCallsMatter` | internal/mcp/auth/ip_rate_limiter.go:58-85 | sweeps and other addresses never change an answer |
| `RateLimiter.WindowsUsed` | internal/mcp/auth/ip_rate_limiter.go:65-71 | what was admitted since a time was spent in full windows one window length apart |
| `RateLimiter.SlidingBound` | internal/mcp/auth/ip_rate_limiter.go:58-85 | over every run, any n window lengths admit at most (n+1)·max(1,max) − 1 requests of an address |
| `RateLimiter.BoundIsReached` | internal/mcp/auth/ip_rate_limiter.go:66-71 | for every number, cap and length of windows, but for windows one moment long or none at all with a cap above one, a run that reaches the bound |
| `RateLimiter.BoundIsMissed` | internal/mcp/auth/ip_rate_limiter.go:66-71 | in those two cases no run admits more than n caps |
| `RateLimiter.BoundIsTight` | internal/mcp/auth/ip_rate_limiter.go:58-72 | the bound is the best possible exactly outside those two cases |
| `Challenge.SplitFour` | internal/mcp/auth/challenge.go:45 | colon-free fields split back into themselves |
| `Challenge.JoinFour` | internal/mcp/auth/challenge.go:45 | the four parts rebuild the text |
| `Challenge.ParseFormatted` | internal/mcp/auth/challenge.go:22-54 | a formatted integer parses to itself exactly when it fits 64 bits |
| `Challenge.RoundTrip` | internal/mcp/auth/challenge.go:21-69 | decoding undoes formatting if and only if the fields are non-empty and colon-free and the time fits |
| `Challenge.Injective` | internal/mcp/auth/challenge.go:21-23 | the text determines all three fields if the first two are free of colons, empty or not |
| `Challenge.InjectiveForChain` | internal/mcp/auth/challenge.go:21-23 | texts of one chain determine nonce and time, whatever the chain is called |
| `Challenge.AcceptedShape` | internal/mcp/auth/challenge.go:36-69 | every accepted text is the prefix, a chain id, a nonce and a 64-bit time |
| `Challenge.NormalForm` | internal/mcp/auth/challenge.go:21-69 | rebuilding an accepted text keeps its fields, and gives the same text if and only if the time was written plainly |
| `NonceStore.NonceStore.Issue` | internal/mcp/auth/nonce_store.go:63-78 | the nonce is stored for its owner with its expiry, or nothing changes |
| `NonceStore.NonceStore.Consume` | internal/mcp/auth/nonce_store.go:87-99 | bound, expired or not found; the nonce is gone in every case |
| `NonceStore.NonceStore.Sweep` | internal/mcp/auth/nonce_store.go:104-113 | exactly the expired nonces go |
| `TenantStore.DynamicTenantStore.Mint` | internal/mcp/auth/dynamic_tenants.go:68-91 | both maps gain the new bearer, or neither changes |
| `TenantStore.DynamicTenantStore.LookupByBearer` | internal/mcp/auth/dynamic_tenants.go:95-110 | the record, expired or not found |
| `TenantStore.MintKeepsOthers` | internal/mcp/auth/dynamic_tenants.go:86-110 | a mint leaves another bearer's lookups alone at every time if and only if it does not overwrite that bearer's record |
| `TenantStore.ExamineOne` | internal/mcp/auth/dynamic_tenants.go:119-125 | what a sweep decides about a bearer does not depend on the bearers visited before it |
| `TenantStore.DynamicTenantStore.Sweep` | internal/mcp/auth/dynamic_tenants.go:115-126 | one result for every order of visiting, even when bearers share a tenant id |
| `AuthRun.Invariant` | internal/mcp/auth/nonce_store.go:63-113 | every reachable state: live, pending and proven nonces are apart, proofs are sound, mints are injective, bearers map one to one onto the stored tenant ids |
| `AuthRun.SweepKeepsTenants` | internal/mcp/auth/dynamic_tenants.go:115-126 | a sweep keeps the bijection between bearers and tenant ids |
| `AuthRun.OwnershipOfProof` | internal/agenttools/service.go:92-113 | each passed verification follows the issue of its nonce to that owner, in time, over the issued text |
| `AuthRun.OwnershipOfMint` | internal/agenttools/service.go:92-118 | each mint follows such a verification |
| `AuthRun.AcceptedBearerHasHistory` | internal/mcp/auth/dynamic_tenants.go:95-110 | every bearer accepted in any run has that history and has not expired |
| `AuthRun.OneBearerPerNonce` | internal/agenttools/service.go:92-118 | distinct mints used distinct nonces |
| `AuthRun.VerifyBurns` | internal/mcp/auth/nonce_store.go:94 | any verification of a stored nonce, passed or failed, burns it |
| `AuthRun.BurntForever` | internal/mcp/auth/nonce_store.go:87-99 | a burnt nonce verifies in no continuation, with no signature |
| `AuthRun.NonceWaits` | internal/mcp/auth/nonce_store.go:63-113 | a stored nonce that nobody verifies stays until it expires, whatever else happens |
| `AuthRun.HonestProofPasses` | internal/agenttools/service.go:71-113 | an owner who signs the issued text in time passes, unless somebody used up the nonce before |
| `AuthRun.BearerWaits` | internal/mcp/auth/dynamic_tenants.go:68-126 | a stored bearer leads to its own record until that expires, whatever else happens |
| `AuthRun.ProvenOwnerIsAdmitted` | internal/agenttools/service.go:114-118 | a proof gives a bearer that is accepted for that owner until it expires |
| `AuthRun.RunsAgree` | internal/mcp/auth/dynamic_tenants.go:115-126 | a run and the same run without sweeps differ only in expired entries |
| `AuthRun.SweepsFitIn` | internal/mcp/auth/nonce_store.go:104-113 | sweeps put anywhere into a legal run leave it legal |
| `AuthRun.SweepTransparency` | internal/mcp/auth/nonce_store.go:104-113 | a run is legal if and only if it is legal without its sweeps; sweeps change no success, and turn failures only from expired into not found |
| `AuthService.TextDeterminesNonce` | internal/agenttools/service.go:79 | no two colon-free nonces share a challenge text, whatever the chain id |
| `AuthService.TextNamesFields` | internal/agenttools/service.go:79 | the text to sign decodes to the chain, the nonce and the expiry in seconds |
| `AuthService.PresentedToken` | internal/a2aserver/auth.go:43-53 | a bearer header in any case gives its trimmed token and comes before the envelope |
| `AuthService.Service.AuthChallenge` | internal/agenttools/service.go:71-80 | the text, nonce and expiry returned, and the protocol steps taken |
| `AuthService.Service.Check` | internal/agenttools/service.go:93-113 | succeeds exactly when the stored nonce is live and the signature recovers to its owner; the nonce is gone either way |
| `AuthService.Service.Grant` | internal/agenttools/service.go:114-118 | the bearer, owner and expiry returned, and the protocol steps taken |
| `AuthService.Service.AuthVerify` | internal/agenttools/service.go:92-119 | when it succeeds, what it returns, and that a failure adds no bearer and still uses up the nonce |
| `AuthService.Service.Authenticate` | internal/mcp/auth/dynamic_tenants.go:95-110 | whoever presents an accepted bearer has proved, through this service, to own the address |
| `AuthService.Service.Attach` | internal/a2aserver/auth.go:27-53 | the tenant of a request: the header's bearer, else the envelope's; none for no bearer or one that is unknown or expired; a tenant has the whole history of its bearer |
| `McpClient.PlainIsNotSessionFailure` | internal/defimcp/client.go:214-229 | texts without certain letters match no pattern of a session failure |
| `McpClient.NotConnectedIsNotSessionFailure` | internal/defimcp/client.go:172-174 | the error for a missing session triggers no reconnect |
| `McpClient.ReadListing` | internal/defimcp/client.go:104-120 | accepts exactly the non-empty listings of valid tools with distinct trimmed names, and yields their catalog |
| `McpClient.AcceptedCatalog` | internal/defimcp/client.go:104-116 | an accepted catalog holds exactly the listed tools, each with its description and schema under its own, trimmed, non-empty name |
| `McpClient.SameCatalog` | internal/defimcp/client.go:201-212 | holds if and only if the names and the schemas coincide |
| `McpClient.Client.ConnectSession` | internal/defimcp/client.go:89-122 | every failed connection is closed again |
| `McpClient.Client.Reconnect` | internal/defimcp/client.go:183-199 | the state afterwards, on every error path |
| `McpClient.Client.CallTool` | internal/defimcp/client.go:171-178 | one send on the current session, or none without one |
| `McpClient.Client.Call` | internal/defimcp/client.go:141-169 | the state, with the retry rule, and what the caller gets |
| `McpClient.CallDelivers` | internal/defimcp/client.go:141-169 | the result is the text of the reply that counts: the second if the call is sent again, else the first; tool errors, other failures, a session that cannot be replaced or is missing and unknown tools are errors |
| `McpClient.Client.Close` | internal/defimcp/client.go:243-255 | the session is closed and forgotten |
| `McpClient.Client.Tools` | internal/defimcp/client.go:131-139 | every catalog tool once, in some order |
| `McpClient.Connect` | internal/defimcp/client.go:73-87 | a client over an open session, or nothing left open; nothing is tried without a token |
| `McpClient.NoSessionLeak` | internal/defimcp/client.go:89-255 | in every run at most one session is open at any moment, nothing is open but the current one, only catalog tools are sent, only on the open session, and the catalog never changes |
| `McpClient.DisconnectIsFinal` | internal/defimcp/client.go:141-199 | without a session nothing is ever opened or sent again |
| `McpClient.LostForGood` | internal/defimcp/client.go:148-151 | a broken session that cannot be replaced leads there |
| `McpClient.SendDiscipline` | internal/defimcp/client.go:141-199 | a call sends at most once, or twice exactly when the tool may be retried, the first send met a broken session and the catalog came back unchanged; then the second goes to the new session |
| `Sse.ScanSse` | internal/llm/llm_sse.go:13-34 | the payloads delivered and the error, against the lines of the body |
| `Sse.PayloadIsTrimmed` | internal/llm/llm_sse.go:17-24 | a line's payload is the trimmed text after the field name, whatever carriage returns end it |
| `Sse.LinesOfPrinted` | internal/llm/llm_sse.go:14-17 | splitting undoes printing, with either line ending |
| `Sse.RoundTrip` | internal/llm/llm_sse.go:13-34 | scanning what was printed delivers exactly the payloads, in order, up to the first stop |
| `Sse.TooLong` | internal/llm/llm_sse.go:14-33 | a line that does not fit ends the scan with an error after the payloads before it, whatever follows |
| `EventStream.DispatchOfPrinted` | internal/llm/llm_sse.go:13-34 | section 9.2.6 of the WHATWG HTML standard dispatches those payloads too |
| `EventStream.AgreesWithStandard` | internal/llm/llm_sse.go:13-34 | on events of one data line each, the scanner delivers what that section dispatches |
| `Assembly.OrderIsDistinct` | internal/llm/llm_openai.go:128-133 | each index appears once in the order of first appearance |
| `Assembly.CallFromAtoms` | internal/llm/llm_openai.go:134-140 | an index's ids, names and argument characters determine its call |
| `Assembly.OrderIsByFirstAppearance` | internal/llm/llm_openai.go:128-133 | calls come in the order in which their indices first appear |
| `Assembly.LastIdIsLast` | internal/llm/llm_openai.go:134-136 | the id is the last one that is not empty |
| `Assembly.LastNameIsLast` | internal/llm/llm_openai.go:137-139 | so is the name |
| `Assembly.WholeCallsComeBack` | internal/llm/llm_openai.go:127-160 | any list of calls comes back from its shards |
| `Assembly.ShardingIndependence` | internal/llm/llm_openai.go:101-160 | the message depends only on the order of first appearance and on each index's own atoms |
| `Assembly.SplitAnywhere` | internal/llm/llm_openai.go:140 | cutting a shard anywhere changes nothing |
| `Assembly.SwapAnywhere` | internal/llm/llm_openai.go:127-141 | reordering shards of different calls changes nothing once either has begun |
| `OpenAi.SameReply` | internal/llm/llm_openai.go:101-161 | frame, choice and shard boundaries and interleaving do not change the reply |
| `OpenAi.StreamsConcatenate` | internal/llm/llm_openai.go:109-143 | a stream says what its parts say, one after the other |
| `OpenAi.OneFrame` | internal/llm/llm_openai.go:109-143 | a frame says what its choices say; a choice its non-empty text and its shards; a malformed frame nothing |
| `OpenAi.Accumulator.AddShard` | internal/llm/llm_openai.go:128-140 | the accumulators keep holding the abstract calls |
| `OpenAi.Accumulator.AddChoice` | internal/llm/llm_openai.go:122-141 | content is what was emitted; empty content is not emitted |
| `OpenAi.Accumulator.AddFrame` | internal/llm/llm_openai.go:109-143 | a frame adds its choices, a malformed one nothing |
| `OpenAi.Accumulator.Finish` | internal/llm/llm_openai.go:149-161 | the reply is the abstract fold of the whole stream |
| `OpenAi.ReadStream` | internal/llm/llm_openai.go:98-162 | text emitted and reply, for every body and decoder |
| `OpenAi.StreamLaw` | internal/llm/llm_openai.go:98-162 | the payloads before the first [DONE], or all if the body ends well, make the reply; a stream that breaks off is exactly its read error |
| `OpenAi.LongLineLaw` | internal/llm/llm_openai.go:145-147 | so is one with a line too long for the scanner |
| `Anthropic.Accumulator.AddEvent` | internal/llm/llm_anthropic.go:107-139 | blocks, order, content and emitted text follow the events so far |
| `Anthropic.Accumulator.Finish` | internal/llm/llm_anthropic.go:145-163 | one call for each place of a tool block in the order, blank arguments as an empty object |
| `Anthropic.ReadStream` | internal/llm/llm_anthropic.go:94-168 | text emitted and reply, for every body and decoder |
| `Anthropic.TextsConcatenate` | internal/llm/llm_anthropic.go:131-134 | the text is that of the text deltas, in order |
| `Anthropic.StreamLaw` | internal/llm/llm_anthropic.go:94-168 | the payloads before the first message_stop, or all if the body ends well, make the reply; a stream that breaks off is exactly its read error |
| `Anthropic.LongLineLaw` | internal/llm/llm_anthropic.go:141-143 | so is one with a line too long for the scanner |
| `Anthropic.PrefixesAgree` | internal/llm/llm_anthropic.go:107-139 | without restarts the fold agrees with the abstract one after every event |
| `Anthropic.CallsOfPlaces` | internal/llm/llm_anthropic.go:146-163 | which block each call of the reply comes from |
| `Anthropic.CallsPerBlock` | internal/llm/llm_anthropic.go:115-163 | a block started as a tool use gives one call if and only if it is not restarted; a restarted one gives two or more, or none |
| `Anthropic.Refinement` | internal/llm/llm_anthropic.go:97-163 | block for block, the calls are those of the abstract fold over all blocks ever started as tool uses, if and only if none of them is restarted |
| `Anthropic.RestartExample` | internal/llm/llm_anthropic.go:115-124 | a concrete restart and its doubled call |
| `Anthropic.LostCallExample` | internal/llm/llm_anthropic.go:115-149 | a concrete restart and its lost call |
| `LlmClient.ProvidersAgree` | internal/llm/llm_anthropic.go:97-163 | streams of either format that carry the same text and calls give the same reply, but for blank arguments, without restarts |
| `LlmClient.FinalStatuses` | internal/llm/llm_sse.go:37-44 | for every status, an error is final if and only if the status is 4, 40 to 49, or 400 to 499 other than 429 |
| `LlmClient.ModelChat` | internal/llm/llm_openai.go:85-96 | one exchange: transport error, error status or stream |
| `LlmClient.WithRetry` | internal/llm/llm_retry.go:33-62 | which attempts are made, how the round ends, everything the caller hears, and the delay |
| `LlmClient.TotalDelay` | internal/llm/llm_retry.go:55-59 | all delays together are at most three times the base |
| `LlmClient.NoTokenTwice` | internal/llm/llm_retry.go:33-62 | what the caller hears is all that any attempt emitted, it comes from the last attempt, and after a reply it spells its content |
| `LlmClient.RoundIsDetermined` | internal/llm/llm_retry.go:33-62 | the contract of the retry loop fixes its outcome |
| `LlmClient.WholeStreamReplies` | internal/llm/llm_retry.go:33-51 | the first response with a status from 200 to 299 and a whole stream, in either format, ends the round with its reply, and its text is what is heard |
| `LlmClient.BrokenStreamFails` | internal/llm/llm_retry.go:51-61 | a stream that breaks off fails with its own error, and is worth another attempt exactly if nothing was heard and the error does not begin like a 4xx |
| `LlmClient.BadStatusFails` | internal/llm/llm_openai.go:94-96 | any other status fails with that status and in silence, and is retried exactly if it is not final |
| `LlmClient.NoResponseFails` | internal/llm/llm_openai.go:90-92 | without a response the transport's error is the failure, retried exactly if it does not begin like a 4xx |
| `Translation.AssistantContent` | internal/llm/llm_anthropic.go:189-207 | the blocks of an assistant message |
| `Translation.ToAnthropicMessages` | internal/llm/llm_anthropic.go:173-214 | system texts joined, every other message translated in its place |
| `Translation.TranslationsConcatenate` | internal/llm/llm_anthropic.go:173-214 | conversations translate piece by piece; system messages alone are hoisted |
| `Translation.TranslationKeepsMeaning` | internal/llm/llm_anthropic.go:173-214 | reading the request back gives every turn, text, id and name, and every input but for an empty object in place of a missing one; a turn keeps its meaning exactly when nothing was missing |
| `Translation.SuppliedIsMeant` | internal/llm/llm_anthropic.go:194-200 | filling in empty objects changes nothing if and only if every call's arguments survive |
| `Translation.RoundsAppend` | internal/agentrunner/runner.go:41-61 | a history of whole rounds stays one when a round is added |
| `Translation.PairingSurvives` | internal/llm/llm_anthropic.go:173-214 | a well-paired history goes out with every tool_use answered in order |
| `Runner.OneCall` | internal/agentrunner/runner.go:49-56 | a read-only call sends only tools the model is offered |
| `Runner.CallsExtend` | internal/agentrunner/runner.go:48-61 | whatever the calls lead to, nothing is sent but offered tools |
| `Runner.OwnToolOwnReply` | internal/agentrunner/runner.go:48-60 | each call sends its own tool, and its answer, under its own id and name, is what that tool delivered or its error |
| `Runner.AnswerCalls` | internal/agentrunner/runner.go:48-61 | the states the client goes through, call by call; each answer is the result of its own call; the first call that is not allowed ends it |
| `Runner.RequestsAreTranscript` | internal/agentrunner/runner.go:31-62 | every request is a well-paired history, one round longer than the one before |
| `Runner.Run` | internal/agentrunner/runner.go:31-64 | at most eight requests, each the one before with the model's own reply and the results of its calls, state by state; the result is the trimmed content of a reply without calls, or (no response), or the error that ended it; nothing sent but read-only catalog tools |
| `Runner.RequestKeepsMeaning` | internal/agentrunner/runner.go:48-55 | a message of a request keeps its meaning in translation if and only if no call's arguments were null |
| `Runner.ReadOnlyIsRetrySafe` | internal/agentrunner/runner.go:66-69 | a read-only name is one the client may retry |
| `Sorting.SortedUnique` | internal/agentchain/register.go:130-134 | a multiset of strings has one sorted arrangement |
| `Sorting.Sort` | internal/agentchain/register.go:132-133 | a sorted permutation |
| `Registration.BuildUpdate` | internal/agentchain/register.go:64-82 | the message, with open fields filled in from the record |
| `Registration.SameSet` | internal/agentchain/register.go:126-135 | holds if and only if the tags agree as multisets |
| `Registration.Drift` | internal/agentchain/register.go:92-117 | exactly the disagreements, each once and in order; none if and only if the record is current |
| `Registration.DriftIsExact` | internal/agentchain/register.go:64-117 | no drift if and only if the update would change nothing but the order of tags |
| `Registration.UpdateIsAccepted` | internal/agentchain/register.go:56-83 | an update built from a stored record is never refused, changes that record only, leaves it current, and clears neither identity, bond, metadata nor pricing |
| `Registration.RegistrationIsAccepted` | internal/agentchain/register.go:36-54 | a registration under a free id is never refused and leaves a current record of its owner |
| `Registration.Submit` | cmd/agent-register/main.go:192-223 | register, update, leave alone or refuse, as steps on the chain |
| `Registration.Converges` | cmd/agent-register/main.go:192-223 | after one run the owner's record is current, nothing is left to submit, and nobody else's record is touched |
| `Registration.RunsConverge` | cmd/agent-register/main.go:192-223 | over any sequence of runs metadata and pricing are the last ones supplied, the rest follows the last desired state, identity and bond stay, and other records too |
| `Registration.FirstRegistration` | cmd/agent-register/main.go:192-204 | unpriced desired states before the first registration leave no trace |
| `Toolbridge.Registry.Add` | internal/toolbridge/adapter.go:84-90 | refuses exactly the names already registered |
| `Toolbridge.Registry.AddProxy` | internal/toolbridge/adapter.go:32-49 | the same, keeping the private schema |
| `Toolbridge.Registry.List` | internal/toolbridge/adapter.go:108-115 | one listing, for every order of the map |
| `Toolbridge.Registry.BySkill` | internal/toolbridge/adapter.go:119-128 | one grouping, for every order of the map |
| `Toolbridge.Registry.ListTools` | internal/toolbridge/meta.go:64-81 | the descriptors of the skill's operations |
| `Toolbridge.OneOrder` | internal/toolbridge/adapter.go:113 | a set of operations has one listing by increasing name |
| `Toolbridge.Build` | internal/wire/wire.go:36-53 | the agent's own operations never clash |
| `Toolbridge.Startup` | cmd/svpchain-evm-agent/main.go:62-72 | the proxy loop never fails, and the registry depends on the catalog alone |
| `Toolbridge.AdvertisedIsDispatched` | internal/a2aserver/executor.go:74-83 | list_tools is strictly increasing and lists exactly what the executor dispatches; each proxy names a catalog tool |
| `Toolbridge.CatalogIsAdvertised` | cmd/svpchain-evm-agent/main.go:62-85 | every catalog tool but the reserved ones is listed with its own schema |
| `Toolbridge.OwnToolsAreAdvertised` | internal/wire/wire.go:36-53 | so are the agent's own three tools, under their own skills |
| `Toolbridge.AuthToolsAreNotServed` | cmd/svpchain-evm-agent/main.go:78-85 | the tools of the authentication protocol are never served from the registry |
| `Toolbridge.BuildCardSkills` | internal/a2aserver/card.go:27-40 | the card's skills, as a function of the registry |
| `Toolbridge.CardMatchesListing` | internal/a2aserver/card.go:27-40 | a skill is on the card exactly when list_tools has something for it, and its entry names those tools |
| `Toolbridge.CardsConcatenate` | internal/a2aserver/card.go:27-40 | the card keeps the fixed order of the skills |
| `Toolbridge.StartupCard` | cmd/svpchain-evm-agent/main.go:57-75 | card skills and listing are functions of the catalog, whatever the orders of iteration |

## Left out

- HTTP, gRPC, MCP and A2A transports, configuration, signals and deployment scripts: input and output; they appear as arbitrary outcomes.
- JSON decoding, base64, keccak, signature recovery and bech32: library code; they appear as arbitrary functions.
- Pointers inside maps (per-address entries, per-index accumulators, content blocks): the maps hold values that are put back after each change; the objects are private to their maps, so no aliasing is lost.
- Sse.ScanSse: the callback is a log of payloads and a stop condition on the payload, because neither adapter's callback returns an error or stops for another reason; a last line without newline that fills the buffer exactly counts as too long.
- EventStream.AgreesWithStandard: speaks of decoded text without a byte order mark.
- Text.ToLower: only the characters that lower to ASCII are mapped, since every pattern compared with is ASCII.
- LlmClient.ModelChat: the response body quoted after the status in an error message, and its truncation, are not part of the message.
- Token usage, the response model name, latency and the missing API key check of a chat round: accounting that would only add easy members.
- McpClient.Client.Call: the texts of an answer's content items arrive already joined, the untrimmed text that comes beside a tool error is dropped, and so are the details of a wrapped reconnect error.
- AuthService.Service.Attach: which value of a repeated header counts, and a resolver without a store.
- Registration.Submit: a dry run, a bond that cannot be resolved and a failed broadcast leave the record alone and are not steps of a run.
- Registration.Drift: reasons are named, not worded.
- Registration: the chain's handlers are not part of this repository. The model lets a message speak only for the owner that signed it, register only a free id and update only what that owner owns, and gives pricing the two fields the agent compares; other chain-side validation, bond resolution and status are left out.
- Toolbridge: the wording and tags of the three skills are parameters; the proxy's decoding of arguments and the card's fixed fields are left out.
- Runner.Run: the system prompt is a parameter, and what the model answers does not depend on the request, being arbitrary anyway.
- The polling loop after a funding transaction, and the broadcast and transaction-status handlers: single calls to the chain.
- The duplicate-broadcast check of the tool service: it is not called anywhere.
- Decimal: arguments are digit strings of at least one digit, as `coin_amount` and the chain's query yield them.
- Overflow of counters and saturation of time differences: counts and times are mathematical integers.
