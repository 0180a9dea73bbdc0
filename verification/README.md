# ExoRoute gateway core: a Dafny model

ExoRoute is an AI gateway: it takes client requests in one of three protocols (Chat Completions, Responses,
Messages), picks a provider target and a credential for each, guards providers with concurrency gates and circuit
breakers, and translates responses back. This project models the parts where a mistake would be hard to see:

- `Semaphore`, `CircuitBreaker`, `ProviderPermits`, `ProviderUsage`: concurrent protocols as transition systems in
  which every atomic operation, lock section and wake-up is a step of its own. Theorems are about all interleavings.
- `KeyCursor`, `RouteFlattening`, `RouteAddresses`, `TargetOrder`, `ApiKeyScopes`: choosing credentials and targets.
- `LocalRpm`: the sliding-window request counter against a plain log of requests.
- `TokenUsage`, `ContentBlocks`, `ResponseCodec`, `ResponseRoundTrip`, `ResponseDelivery`, `ResponseLoops`: responses on the wire.
- `ThinkingPayload`, `ThinkingPipeline`, `RequestDecoding`, `RequestRoundTrip`: the two-pass encoding of requests against a
  one-pass specification, and what the client decoder reads of the result.
- `ApiKeyIndex`, `ApiKeyPages`: the order-reversing index of API keys and its pages.
- `StreamAccumulator`, `StreamReconstruction`, `ResponsesStream`: rebuilding a response from its stream.
- `Collections`, `ByteOrder`, `Protocols`, `JsonValues`: shared vocabulary.

`dafny verify dfyconfig.toml` checks the whole project with Dafny's default settings.

## Where the code and its documentation differ

The model follows the code. Each difference has a lemma with a concrete case and a lemma with the exact condition.

- `src/state/runtime_controls.rs:11-13` promises no new permit until the active count falls below a lowered limit. A
  slot reserved before the lowering is still confirmed (`LoweringCanOvershoot`, `LoweringHonouredIff`). What always
  holds is `PermitsBounded`.
- `src/state/runtime_gates.rs:168-170` promises that a restore cannot bypass provider limits. It can when a call is
  between its map step and its acquire step (`RestoreCanOvershoot`, `StrandedOvershoots`, `RestoreKeepsLimitIff`).
- `src/provider_adapters/keys.rs:83-85` promises that a rotating scan wraps around. Without an active key after the
  position it goes to the cooled-down keys instead (`RotatingSkipsLastActiveKey`, `RotatingReachesActiveIff`).
- `src/security/api_key_scope.rs:8-9` promises that a stored scope means the same when written and when enforced. A
  scope within all entry limits can be too long for the reader, which then refuses it (`AcceptedButUnreadable`,
  `RecordRoundTripIff`).
- `src/protocol/parse.rs:555-557` says that the cached subset added back rebuilds the inclusive total exactly. It does
  unless more tokens are cached than were read (`CachedBeyondInputGrows`, `TokensConservedIff`).

## Model

| member | source | states |
|---|---|---|
| `Semaphore.SlotsStep` | src/state/runtime_controls.rs:51-110 | every atomic step keeps `active` equal to permits held plus reservations not yet confirmed or rolled back, and takes one away only from a positive counter |
| `Semaphore.SlotsConserved` | src/state/runtime_controls.rs:51-110 | in every interleaving the counter equals the occupied slots and never underflows |
| `Semaphore.InvRun` | src/state/runtime_controls.rs:51-110 | slot accounting, the scope of `Notified` futures and the wake-up invariant hold in every reachable state, cancelled waits included |
| `Semaphore.NoLostWakeUp` | src/state/runtime_controls.rs:80-103 | beside a parked, un-notified waiter every free slot (all of them under limit 0) is matched by a wake-up in flight |
| `Semaphore.NobodySleepsBesideAFreeSlot` | src/state/runtime_controls.rs:80-103 | when nothing is moving, no waiter is parked while a slot is free |
| `Semaphore.ActiveBounded` | src/state/runtime_controls.rs:51-78 | under an unchanged non-zero limit the occupied slots never exceed it |
| `Semaphore.PermitsBounded` | src/state/runtime_controls.rs:51-97 | after `set_limit(l)`, until the next change, permits never exceed the larger of `l` and the slots occupied at that moment |
| `Semaphore.LoweringHonouredIff` | src/state/runtime_controls.rs:11-97 | the documented promise holds for all continuations exactly when no confirmable reservation is pending at the change, or all claims fit under the limit |
| `Semaphore.LoweringCanOvershoot` | src/state/runtime_controls.rs:11-97 | a reachable state in which the promise fails |
| `CircuitBreaker.CircuitBreakers.PermitProvider` | src/state/runtime_gates.rs:42-94 | the new breaker map and the lease are those of the admission step; the lemmas below say when that admits |
| `CircuitBreaker.CooldownHolds` | src/state/runtime_gates.rs:68-83 | after a failure at time t opened a circuit, every request before t + cooldown is refused without a trace, until the circuit is closed or cleared |
| `CircuitBreaker.ProbeAfterCooldown` | src/state/runtime_gates.rs:68-83 | without another failure, a request is admitted exactly at or after t + cooldown with the slot free, and then owns the slot |
| `CircuitBreaker.ClosedAdmitsAll` | src/state/runtime_gates.rs:54-94 | a closed circuit admits every request with a lease of its generation and no probe |
| `CircuitBreaker.FailuresAddUp` | src/state/runtime_controls.rs:182-210 | between successes the counter is the number of failures reported about this circuit |
| `CircuitBreaker.SuccessResets` | src/state/runtime_controls.rs:148-180 | which successes reset the counter and leave the circuit closed |
| `CircuitBreaker.OpensAtThreshold` | src/state/runtime_controls.rs:182-210 | counted from a reset, a circuit is open exactly when at least the threshold of failures was reported |
| `CircuitBreaker.CircuitBreakers.ClearProvider` | src/state/runtime_gates.rs:96-107 | clearing removes the breaker of that provider and no other |
| `CircuitBreaker.CircuitProbePermit.Succeeded` | src/state/runtime_controls.rs:148-180 | a success report closes the circuit only from its own generation and, on an open circuit, only as slot owner |
| `CircuitBreaker.CircuitProbePermit.Failed` | src/state/runtime_controls.rs:182-210 | a failure report counts, opens at the threshold and gives up the probe slot it owns |
| `CircuitBreaker.CircuitProbePermit.ReleaseProbe` | src/state/runtime_controls.rs:212-240 | abort and drop free the slot only when they own it |
| `CircuitBreaker.LinkedRun` | src/state/runtime_controls.rs:148-240 | fresh ids, distinct probe ids, ownership of every occupied slot: in every reachable state |
| `CircuitBreaker.OneProbePerProvider` | src/state/runtime_controls.rs:148-240 | an occupied half-open slot has exactly one live owner, a free one none |
| `CircuitBreaker.LiveProbesAreProbers` | src/state/runtime_controls.rs:148-240 | the live probe leases of the current generation are exactly the slot owners |
| `CircuitBreaker.SlotFreedIff` | src/state/runtime_controls.rs:148-240 | a slot is freed by a report of its owner or by clearing the provider, and by nothing else |
| `CircuitBreaker.CircuitOpenIff` | src/state/runtime_controls.rs:182-210 | with a threshold of at least 1 and no clock overflow, a circuit is open exactly when its consecutive failures reached the threshold |
| `CircuitBreaker.ProbesOnlyOpenRun` | src/state/runtime_gates.rs:54-83 | half-open slots exist on open circuits only |
| `CircuitBreaker.StaysOpenIff` | src/state/runtime_controls.rs:148-210 | an open circuit closes only by the success of the slot owner, by clearing, or by a reopening time past the end of the clock |
| `CircuitBreaker.StaleLeaseStaysStale` | src/state/runtime_gates.rs:54-94 | however often a provider is cleared and admitted again, a lease that is not current never becomes current |
| `CircuitBreaker.StaleLeaseChangesNothing` | src/state/runtime_controls.rs:148-240 | after any run, everything a lease of an older generation reports over any continuation leaves the shared state as if it had not been reported |
| `ProviderPermits.InvRun` | src/state/runtime_gates.rs:13-34 | every unreleased call is attached to the semaphore the map names, counters agree with the calls, at most 256 semaphores are tracked |
| `ProviderPermits.ProviderPermitsBounded` | src/state/runtime_gates.rs:13-34 | over lookups, acquires, drops and clears in any order, permits per provider never exceed an unchanged non-zero limit |
| `ProviderPermits.StrandedOvershoots` | src/state/runtime_gates.rs:168-191 | a call between its two steps at a restore lets its provider exceed the limit |
| `ProviderPermits.RestoreCanOvershoot` | src/state/runtime_gates.rs:168-191 | a run from the start in which a restore lets a provider exceed its limit |
| `ProviderPermits.RestoreKeepsLimitIff` | src/state/runtime_gates.rs:168-191 | a restore keeps the limits in every continuation exactly when no such call exists |
| `ProviderUsage.InvRun` | src/state/provider_usage.rs:72-106 | the epoch and lock invariant holds after any interleaving of reads, inserts and invalidations |
| `ProviderUsage.NoStaleReads` | src/state/provider_usage.rs:72-106 | once an invalidation returned, no read yields an entry whose epoch was taken before it began |
| `ProviderUsage.ExhaustedStaysEmpty` | src/state/provider_usage.rs:92-106 | once the epoch is exhausted the cache is empty for good |
| `ProviderUsage.CacheBounded` | src/state/provider_usage.rs:196-226 | the cache never exceeds 512 entries |
| `ProviderUsage.StoredKeeps` | src/state/provider_usage.rs:196-226 | storing keeps every entry that is not too old, but for the oldest when the cache is full |
| `ProviderUsage.UndisturbedRefresh` | src/state/provider_usage.rs:196-226 | a refresh that no invalidation overtakes is stored |
| `KeyCursor.ProviderApiKeyCursor.ChangePhase` | src/provider_adapters/keys.rs:128-147 | an exhausted pass is followed by the wrapped pass, then recovery, then the end |
| `KeyCursor.ReadWindow` | src/provider_adapters/keys.rs:159-223 | one bounded read finds the first usable key of the pass, or says how far it came |
| `KeyCursor.ProviderApiKeyCursor.Scan` | src/provider_adapters/keys.rs:127-223 | one window takes the head off the remaining keys or leaves them unchanged and moves on |
| `KeyCursor.ProviderApiKeyCursor.Advance` | src/provider_adapters/keys.rs:127-223 | one turn of the loop: a key, the end, or progress in the order of passes and positions |
| `KeyCursor.ProviderApiKeyCursor.Next` | src/provider_adapters/keys.rs:127-223 | on an unchanged table each call returns the head of the remaining keys, or none when none remain, and terminates |
| `KeyCursor.ProviderApiKeyCursor.NextAcross` | src/provider_adapters/keys.rs:127-223 | with another snapshot for every window, a returned key is usable in the snapshot it was read from and the cursor moved forward only; the call returns within a budget of passes times positions |
| `KeyCursor.StartAndDrain` | src/provider_adapters/keys.rs:76-81 | a sequential cursor returns the active keys, then the cooled-down ones, then none, for every window size |
| `KeyCursor.ListsExact` | src/provider_adapters/keys.rs:28-46 | the two lists hold exactly the keys of their kind, in order, without a common key |
| `KeyCursor.ActiveIff` | src/provider_adapters/keys.rs:160-223 | an enabled valid key of the provider is always tried; a disabled or foreign key never |
| `KeyCursor.CooledDownIff` | src/provider_adapters/keys.rs:28-46 | an enabled invalid key is probed from 30 seconds after its failure on, and not before or without a readable time |
| `KeyCursor.StartRotating` | src/provider_adapters/keys.rs:86-100 | everything a rotating cursor will return, from its first key on |
| `KeyCursor.RotatesActiveKeys` | src/provider_adapters/keys.rs:86-100 | with an active key after the position the active keys come as a rotation of their order |
| `KeyCursor.RotatingReachesActiveIff` | src/provider_adapters/keys.rs:83-100 | all active keys are reached exactly when there is none or one lies after the position |
| `KeyCursor.RotatingSkipsLastActiveKey` | src/provider_adapters/keys.rs:83-100 | a table on which the only active key is skipped |
| `KeyCursor.NoPositionTwice` | src/provider_adapters/keys.rs:127-223 | however the table changes between calls, no position is returned twice among active keys, nor twice in recovery |
| `RouteFlattening.FlattenRouteTargets` | src/gateway/request_preparation.rs:400-485 | the recursive walk terminates on every graph; it reports no issue exactly for sound, small enough expansions, then appends the in-place expansion; a reported issue is real and the first one in walk order |
| `RouteFlattening.WalkRows` | src/gateway/request_preparation.rs:420-472 | the row loop stops at the issue of the earliest row that has one |
| `RouteFlattening.FlattenRow` | src/gateway/request_preparation.rs:424-470 | one row: nothing, a leaf that may exceed the limit, or a reference |
| `RouteFlattening.FlattenReference` | src/gateway/request_preparation.rs:432-470 | a reference: a cycle, too deep, missing, skipped, or expanded in place |
| `RouteFlattening.LoadStoredRoute` | src/gateway/request_preparation.rs:349-385 | the stored route with its expansion or its issue |
| `RouteAddresses.FlattenedByAddress` | src/gateway/request_preparation.rs:400-522 | a clean route flattens to exactly the targets at its row addresses: every address once, in the order of the rows at every depth, with the provider and model of its row |
| `RouteAddresses.FlattenedIff` | src/gateway/request_preparation.rs:400-522 | a target is in the list exactly when some chain of references reaches an enabled row with its provider and model |
| `RouteAddresses.EarlierRowsFirst` | src/gateway/request_preparation.rs:400-474 | a target of an earlier row precedes a target of a later one |
| `RouteAddresses.FollowedCombosAccept` | src/gateway/request_preparation.rs:445-466 | only combos that are enabled and accept the protocol are followed |
| `RouteFlattening.CleanIffRouteOk` | src/gateway/request_preparation.rs:400-485 | the depth-bounded walk finds a problem exactly when some chain of references of any length has a cycle, a missing combo, too deep a nesting or too many rows |
| `RouteFlattening.CyclesAreReported` | src/gateway/request_preparation.rs:432-444 | a combo that contains itself, however deep, is always reported |
| `RouteFlattening.LeavesEnabled` | src/gateway/request_preparation.rs:424-470 | disabled rows contribute nothing at any depth |
| `TargetOrder.ApplyApiKeyScope` | src/gateway/request_preparation.rs:210-237 | model rules first, then the provider filter in order, an error when nothing is left |
| `TargetOrder.LoadCandidates` | src/gateway/request_preparation.rs:239-306 | which targets a request may use, and which error otherwise |
| `TargetOrder.RoundRobin.ResolveTargets` | src/gateway/request_preparation.rs:239-338 | the candidates rotated by the counter or the retry offset; the counter advances only on a round-robin success |
| `TargetOrder.RoundRobin.PrepareTargets` | src/gateway/request_preparation.rs:210-338 | the candidates turned by counter or offset, then scoped, or the refusal; the counter moves even when the scope refuses |
| `TargetOrder.PreparedIsRotation` | src/gateway/request_preparation.rs:210-338 | for every offset and counter the prepared list is a rotation of the allowed targets: none lost, duplicated or reordered |
| `TargetOrder.PreparedTargetsAreOffered` | src/gateway/request_preparation.rs:210-338 | whatever the turn, a request only reaches an enabled target that its key may use and that its route, enabled and accepting the protocol, offers through a chain of references |
| `TargetOrder.AllowedRotation` | src/gateway/request_preparation.rs:210-338 | filtering a rotation is rotating the filtered list |
| `TargetOrder.EachLeadsOnce` | src/gateway/request_preparation.rs:307-338 | among n consecutive turns each target leads exactly once |
| `TargetOrder.RoundRobinCycle` | src/gateway/request_preparation.rs:307-331 | n consecutive round-robin requests lead with a rotation of the n targets |
| `TargetOrder.ExecuteWithServerRetries` | src/gateway/flow.rs:274-331 | attempt i prepares the request with offset i and the counter as earlier attempts left it; attempts stop at the first answer that is not a server error, a refusal included, or at the limit |
| `TargetOrder.RefusalsRetried` | src/gateway/flow.rs:311-316 | unknown and forbidden requests are answered at once, an unavailable route counts as a server error |
| `TargetOrder.AttemptLeads` | src/gateway/flow.rs:274-331 | an attempt whose turn falls on a target the key may use leads with that target |
| `TargetOrder.RetriesLeadWithEachTarget` | src/gateway/flow.rs:274-331 | while all attempts fail, the attempts of one request lead with the n targets in order, each once in n attempts (from the counter on for round robin); a scoped key leads with every target it may use |
| `ApiKeyScopes.ScopeFromEntries` | src/security/api_key_scope.rs:94-146 | entries are trimmed, checked and kept once in order, or the first error is returned |
| `ApiKeyScopes.RuleCanonical` | src/security/api_key_scope.rs:30-82 | the stored form of a rule is the trimmed entry and parses to the same rule |
| `ApiKeyScopes.ScopeMeans` | src/security/api_key_scope.rs:94-173 | the scope admits exactly what the entries name; no entries admit everything |
| `ApiKeyScopes.AcceptedScopeBounds` | src/security/api_key_scope.rs:30-146 | an accepted scope has at most 64 entries of each kind, of 1 to 128 printable bytes, with a star only at the end of a rule |
| `ApiKeyScopes.EntriesRoundTrip` | src/security/api_key_scope.rs:94-161 | an accepted scope is accepted again as the same scope |
| `ApiKeyScopes.RecordRoundTripIff` | src/security/api_key_scope.rs:177-213 | with a parser that reads back lists without control characters, a written scope is read back as itself exactly when both texts have at most 8 KiB |
| `ApiKeyScopes.AcceptedButUnreadable` | src/security/api_key_scope.rs:177-213 | 64 ids of 128 bytes are accepted and written, and refused on reading |
| `LocalRpm.RecordInWindow` | src/state/local_rpm.rs:44-52 | recording keeps the ring in agreement with the log |
| `LocalRpm.RequestsLast60s` | src/state/local_rpm.rs:54-64 | the fold over the ring is the number of logged requests of the last 60 seconds |
| `LocalRpm.SlotContributes` | src/state/local_rpm.rs:54-64 | each slot contributes exactly the recent requests of its residue class |
| `LocalRpm.PruneKeeps` | src/state/local_rpm.rs:137-146 | pruning never changes an answer |
| `LocalRpm.ProviderRpmTracker.Prune` | src/state/local_rpm.rs:137-146 | logs unchanged, every window left was active less than 61 seconds ago |
| `LocalRpm.RecordFor` | src/state/local_rpm.rs:82-100 | one accepted request keeps windows and logs in agreement for all providers |
| `LocalRpm.ActiveMeansLogged` | src/state/local_rpm.rs:82-100 | a window that was active less than 61 seconds ago belongs to a provider with a logged request at most 61 whole seconds old |
| `LocalRpm.ProviderRpmTracker.Record` | src/state/local_rpm.rs:82-100 | accepted requests are logged; a refusal means 512 other providers each have a logged request that recent |
| `LocalRpm.ProviderRpmTracker.TakeSnapshot` | src/state/local_rpm.rs:102-125 | the reported count is the number of accepted requests of the last 60 whole seconds |
| `LocalRpm.ProviderRpmTracker.RemoveProvider` | src/state/local_rpm.rs:127-129 | one provider is forgotten, the others keep their answers |
| `LocalRpm.ProviderRpmTracker.Reset` | src/state/local_rpm.rs:131-135 | everything is forgotten and the epoch starts anew |
| `TokenUsage.HopTokens` | src/protocol/parse.rs:511-580 | what one encode and decode step does to inclusive input, cached and output tokens |
| `TokenUsage.UsageStable` | src/protocol/response_encode.rs:97-108 | a second step through a protocol sends what the first sent, saturation included |
| `TokenUsage.TokensConservedIff` | src/protocol/response_encode.rs:211-223 | over any chain of protocols the triple is conserved exactly when cached is at most the inclusive input or Messages is not in the chain |
| `TokenUsage.CachedBeyondInputGrows` | src/protocol/response_encode.rs:211-223 | a usage whose inclusive input doubles on its way through Messages |
| `TokenUsage.AnthropicInputAddsUp` | src/protocol/parse.rs:526-544 | input, cache reads and cache creation reported by Anthropic add up to the inclusive input |
| `TokenUsage.ChatInputIsInclusive` | src/protocol/parse.rs:511-580 | Chat prompt tokens already include the cached ones |
| `TokenUsage.ReportedTotals` | src/protocol/response_encode.rs:97-223 | the totals sent add up, and the two Messages input counts sum to the inclusive input exactly when no more is cached |
| `ContentBlocks.ThinkingRoundTripIff` | src/protocol/parse.rs:35-73 | a thinking block parses back to itself exactly when its extra fields reuse none of its own names |
| `ContentBlocks.ParsedThinking` | src/protocol/parse.rs:35-73 | parsing yields clean extra fields, and encoding undoes parsing exactly when no null signature was sent |
| `JsonValues.JoinedLines` | src/protocol/response_encode.rs:22-34 | joined reasoning texts of one line each can be told apart again |
| `ResponseLoops.EncodeOutput` | src/protocol/response_encode.rs:112-155 | the output list: numbered reasoning, the text, the calls |
| `ResponseLoops.DecodeToolCalls` | src/protocol/response_decoding.rs:150-168 | the tool calls of a Chat response in order |
| `ResponseLoops.DecodeOutput` | src/protocol/response_decoding.rs:198-292 | the blocks of all output items, or the error of the first item that has one |
| `ResponseLoops.DecodeBlocks` | src/protocol/response_decoding.rs:350-387 | the blocks of a Messages response, or the error of the first part that has one |
| `ResponseRoundTrip.ChatDecoded` | src/protocol/response_decoding.rs:130-192 | what a Chat client reads of a response, block by block |
| `ResponseRoundTrip.ResponsesDecoded` | src/protocol/response_decoding.rs:194-322 | what a Responses client reads of a response |
| `ResponseRoundTrip.MessagesDecoded` | src/protocol/response_decoding.rs:350-411 | what a Messages client reads of a response |
| `ResponseRoundTrip.ChatFinishStable` | src/protocol/response_encode.rs:229-237 | normalizing a Chat finish reason twice changes nothing |
| `ResponseRoundTrip.MessagesFinishStable` | src/protocol/response_encode.rs:239-249 | normalizing a Messages stop reason twice changes nothing |
| `ResponseRoundTrip.EncodeDecodeEncode` | src/protocol/response_encode.rs:10-249 | for each protocol, encoding what was decoded from an encoding gives the same JSON |
| `ResponseRoundTrip.NullSignatureIsLost` | src/protocol/request_encode.rs:494-505 | extra fields that reuse a name do break that |
| `ResponseRoundTrip.DecodedIsBuilt` | src/protocol/response_decoding.rs:12-34 | what a decoder returns meets the round trip's condition (Chat content with tool results aside) |
| `ResponseRoundTrip.ChainConserves` | src/protocol/response_decoding.rs:12-34 | through any chain of protocols the id, the model and all tool calls arrive unchanged, so does text without separate reasoning, and usage follows the token law |
| `ResponseRoundTrip.FinishSurvivesResponsesIff` | src/protocol/response_decoding.rs:324-348 | exactly when the finish reason a Chat client sees survives a step through Responses |
| `ResponseRoundTrip.FinishSurvivesMessages` | src/protocol/response_encode.rs:239-249 | the finish reason a Chat client sees always survives a step through Messages: truncation is reported as truncation |
| `ResponseRoundTrip.FinishSurvivesChatIff` | src/protocol/response_encode.rs:229-249 | the stop reason a Messages client sees survives a step through Chat exactly when it is not a stop sequence |
| `ResponseDelivery.AcceptedIff` | src/protocol/response_decoding.rs:12-116 | an encoded response is decoded exactly when its reasoning is within 4 MiB and it shows something |
| `ResponseDelivery.EncodedIsRecognised` | src/protocol/response_decoding.rs:56-86 | every encoded response is detected as a payload of its own protocol |
| `ResponseDelivery.FunctionCallDecodes` | src/protocol/response_decoding.rs:272-290 | a function call goes by its call id, and arguments that are not JSON stay text |
| `ResponseDelivery.CustomCallDecodes` | src/protocol/response_decoding.rs:239-271 | a custom tool call goes by its call id and keeps its input; without a name it is no call |
| `ResponseDelivery.ReasoningItemReads` | src/protocol/thinking.rs:25-41 | reasoning is read from the content of its item, then from its summary |
| `ResponseDelivery.ReasoningIdsDiffer` | src/protocol/response_encode.rs:117-122 | reasoning items have different ids |
| `ResponseDelivery.OutputIsAssistant` | src/protocol/response_encode.rs:125-132 | every message item sent is the assistant's |
| `ThinkingPayload.EncodeInput` | src/protocol/request_encode.rs:66-103 | the input items of one message, gathered in one loop |
| `ThinkingPayload.RewriteContentBlocks` | src/protocol/thinking.rs:176-251 | markers are replaced or removed, all else stays; reports removal exactly when the list got shorter |
| `ThinkingPayload.RewriteMessage` | src/protocol/thinking.rs:153-172 | a message that lost all content is taken out unless a Chat message still has tool calls |
| `ThinkingPayload.RewriteMessagesField` | src/protocol/thinking.rs:142-174 | the rewritten messages, and whether the request lost everything it had |
| `ThinkingPipeline.EncodeRequest` | src/protocol/mod.rs:70-121 | the two passes with all their errors equal the one-pass specification for every request, protocol and handling mode |
| `RequestDecoding.DecodeTurns` | src/protocol/request_decoding.rs:11-241 | the messages of a client request in order, or the first error |
| `RequestRoundTrip.EncodedRequestReads` | src/protocol/request_encode.rs:4-179 | the client decoder reads an encoded request of any protocol back as its roles, names, texts, tool calls and tool results in order, with thinking handled as asked; it refuses exactly Chat reasoning beyond 4 MiB |
| `RequestRoundTrip.CallInputReads` | src/protocol/request_encode.rs:76 | a call item of a Responses request is read back as the call, by the request and by the response decoder |
| `RequestRoundTrip.ResultInputReads` | src/protocol/request_encode.rs:77 | a result item is read back under its call id with its joined texts |
| `RequestRoundTrip.ChatReads` | src/protocol/request_encode.rs:217-287 | a Chat message is read back with its role, name, reasoning, texts and calls |
| `RequestRoundTrip.MessageReads` | src/protocol/request_encode.rs:153-156 | an Anthropic message is read back with its role, texts, thinking, calls and results |
| `RequestRoundTrip.PreserveLosesNoThinking` | src/protocol/mod.rs:76-104 | under Preserve an accepted request loses no thinking block |
| `RequestRoundTrip.NeverSentEmpty` | src/protocol/thinking.rs:131-135 | a request with something to send is refused or keeps something to send |
| `RequestRoundTrip.ResponsesTextKinds` | src/protocol/request_encode.rs:357-417 | texts of a Responses request are output text from the assistant and input text from everyone else |
| `ThinkingPipeline.MarkerIsHandled` | src/protocol/thinking.rs:53-79 | writing and rewriting a marker gives what the block becomes directly; preserved for Messages this is `content_to_anthropic` |
| `ThinkingPipeline.PartsAgree` | src/protocol/thinking.rs:176-251 | marking then rewriting content equals mapping and filtering it once |
| `ThinkingPipeline.ChatAgrees` | src/protocol/request_encode.rs:217-287 | the same for a whole Chat message with its calls, reasoning and name |
| `ThinkingPipeline.ItemsAgree` | src/protocol/request_encode.rs:66-103 | the same for Responses items; calls and their arguments are untouched |
| `ThinkingPipeline.MessageAgrees` | src/protocol/request_encode.rs:153-156 | the same for an Anthropic message |
| `ThinkingPipeline.AllAgree` | src/protocol/thinking.rs:81-174 | the same for a whole request |
| `ThinkingPipeline.NothingToRewrite` | src/protocol/mod.rs:113-119 | skipping the second pass when no block holds thinking changes nothing |
| `ThinkingPipeline.MarkerSurvivesIff` | src/protocol/thinking.rs:176-251 | in one content list a marker is left exactly when thinking is preserved for Messages and a block's own extra fields pose as a marker |
| `ThinkingPipeline.RequestHoldsMarkerIff` | src/protocol/mod.rs:70-121 | the same for every message of an encoded request |
| `ThinkingPipeline.PreservedThinkingReturns` | src/protocol/parse.rs:25-73 | preserved for Messages, the thinking blocks of one content list parse back to exactly the blocks sent, in order |
| `ThinkingPipeline.EncodedThinkingReturns` | src/protocol/mod.rs:70-121 | an encoded Messages request has one message per turn, and each parses back to the thinking of its turn |
| `ApiKeyIndex.ReverseLexicalComponent` | src/admin/api_keys.rs:161-169 | the loop writes the reversed encoding |
| `ApiKeyIndex.ReverseOrder` | src/admin/api_keys.rs:161-169 | on NUL-free text the encoding reverses the order strictly, whatever follows it |
| `ApiKeyIndex.ReversePrefixFree` | src/admin/api_keys.rs:161-169 | no encoding starts another; different texts have different encodings |
| `ApiKeyIndex.NulBreaksTheOrder` | src/admin/api_keys.rs:161-169 | a NUL byte breaks both |
| `ApiKeyIndex.IndexOrderIff` | src/admin/api_keys.rs:146-155 | ascending index order is exactly descending (created_at, id) order |
| `ApiKeyIndex.IndexKeyRefusedIff` | src/admin/api_keys.rs:146-155 | a key is refused exactly when it is longer than 500 bytes or its id holds a NUL |
| `ApiKeyIndex.CursorRoundTripIff` | src/admin/api_keys.rs:266-299 | decoding undoes encoding exactly for timestamps of 1 to 64 and ids of 1 to 256 bytes |
| `ApiKeyPages.ScanBatch` | src/admin/api_keys.rs:205-238 | one batch collects the matches it passes and stops one past the limit |
| `ApiKeyPages.QueryFrom` | src/admin/api_keys.rs:184-263 | invalid exactly when an entry that is read is missing or malformed; otherwise the first `limit` matches after the start and a cursor exactly when there are more, or busy exactly when 100,000 entries hold too few |
| `ApiKeyPages.QueryPage` | src/admin/api_keys.rs:171-264 | the same from a cursor; an unusable cursor is an error |
| `ApiKeyPages.CursorResumes` | src/admin/api_keys.rs:177-179 | a cursor made from an entry, sent out and back, resumes right after that entry |
| `ApiKeyPages.FollowCursor` | src/admin/api_keys.rs:171-299 | one page of a clean index, and a cursor that resumes where it ended |
| `ApiKeyPages.ListAll` | src/admin/api_keys.rs:171-299 | following the cursors terminates and returns every match once, for every page size |
| `ApiKeyPages.ListedNewestFirst` | src/admin/api_keys.rs:146-264 | the listing is in strictly descending (created_at, id) order |
| `ApiKeyPages.ListedIff` | src/admin/api_keys.rs:206-241 | a record is listed exactly when an entry points at it and it matches |
| `ApiKeyPages.ListedCounts` | src/admin/api_keys.rs:216-234 | a row is the record of an entry with the request count of the current statistics generation, or zero |
| `StreamAccumulator.BoundedStep` | src/provider_adapters/sse.rs:232-380 | no event takes a gathered text over a non-zero limit, accepted or not |
| `StreamAccumulator.BoundedRun` | src/provider_adapters/sse.rs:486-501 | over a whole stream every gathered text stays within the limit |
| `StreamAccumulator.SplittingChangesNothing` | src/provider_adapters/sse.rs:260-344 | anywhere in a stream a delta may arrive in pieces: same end, same refusal |
| `StreamAccumulator.ElsewhereUnchanged` | src/provider_adapters/sse.rs:232-380 | an event leaves all other output items alone |
| `StreamAccumulator.OwnItemDecides` | src/provider_adapters/sse.rs:232-380 | what an event does to its item, and whether it is refused, depends on that item alone |
| `StreamAccumulator.InterleavingDoesNotMatter` | src/provider_adapters/sse.rs:232-380 | two streams with the same events for every item, in any interleaving, are both refused or end alike |
| `StreamAccumulator.DeltasGathered` | src/provider_adapters/sse.rs:260-279 | each position holds all its deltas joined in order |
| `StreamAccumulator.LastDoneGathered` | src/provider_adapters/sse.rs:280-314 | each position holds its last completed text |
| `StreamAccumulator.ArgumentsGathered` | src/provider_adapters/sse.rs:315-330 | each call holds all its argument deltas joined in order |
| `StreamAccumulator.InputGathered` | src/provider_adapters/sse.rs:331-344 | the same for the input of custom tools |
| `StreamAccumulator.LastCallGathered` | src/provider_adapters/sse.rs:345-377 | each call holds its last completed arguments and input |
| `StreamAccumulator.LastItemGathered` | src/provider_adapters/sse.rs:239-259 | each index holds the last item put there |
| `StreamAccumulator.IdsGathered` | src/provider_adapters/sse.rs:239-270 | each index has the id of its last item with one, or else of its first delta with one |
| `StreamAccumulator.ItemsWithinRun` | src/provider_adapters/sse.rs:239-259 | every gathered item is within a non-zero limit as text |
| `StreamAccumulator.WrittenEventRead` | src/provider_adapters/sse.rs:238-377 | an event written with its type, indexes and fields is read as what it was written for |
| `StreamAccumulator.PartialEventsRead` | src/provider_adapters/sse.rs:260-314 | missing indexes mean the first position, a part's text wins, an event without its field is ignored |
| `StreamAccumulator.FindIndex` | src/provider_adapters/sse.rs:476-483 | the smallest index with the item id |
| `StreamReconstruction.MergeItems` | src/provider_adapters/sse.rs:383-395 | sent items with the streamed ones merged in |
| `StreamReconstruction.MergeTexts` | src/provider_adapters/sse.rs:397-429 | texts merged position by position |
| `StreamReconstruction.MergeField` | src/provider_adapters/sse.rs:431-467 | completed or gathered call texts written into items of their kind only |
| `StreamReconstruction.Reconstruct` | src/provider_adapters/sse.rs:382-474 | none when no index was sent, streamed or shown; otherwise the final items of exactly those indexes in increasing order, and all other fields of the response as they were |
| `StreamReconstruction.ListedInOrder` | src/provider_adapters/sse.rs:382-474 | the output is the item of every present index, in strictly increasing index order |
| `StreamReconstruction.MergedField` | src/provider_adapters/sse.rs:503-515 | a sent field that says something survives the merge, a vacant one is filled |
| `StreamReconstruction.SentFieldSurvives` | src/provider_adapters/sse.rs:382-474 | such a field is in the final item, whatever was streamed |
| `StreamReconstruction.CallCarriesArguments` | src/provider_adapters/sse.rs:431-446 | a function call item carries its completed or gathered arguments, or else its own |
| `StreamReconstruction.FilledParts` | src/provider_adapters/sse.rs:524-554 | a text fills only the first text part, and only when that is empty |
| `StreamReconstruction.AddedPart` | src/provider_adapters/sse.rs:524-554 | without a text part the text is added at the end |
| `StreamReconstruction.DoneReplacesDeltas` | src/provider_adapters/sse.rs:397-402 | a completed text that is not blank makes the deltas of its position irrelevant |
| `StreamReconstruction.StreamedTextBecomesMessage` | src/provider_adapters/sse.rs:411-429 | an item streamed only as text becomes one message with its first text shown; later parts are not added |
| `ResponsesStream.ResponsesStreamAccumulator.Observe` | src/provider_adapters/sse.rs:232-380 | the whole new state and the verdict of one event |
| `ResponsesStream.ResponsesStreamAccumulator.ReconstructResponse` | src/provider_adapters/sse.rs:382-474 | the present items of the gathered state in increasing index order, or none |
| `ResponsesStream.SameStreamSameResponse` | src/provider_adapters/sse.rs:382-474 | interleaving items differently and cutting deltas rebuilds the same response |
| `ResponsesStream.StreamedCallArguments` | src/provider_adapters/sse.rs:431-446 | over a whole stream a call carries its last completed arguments unless empty, else all its deltas joined |
| `ResponsesStream.StreamedText` | src/provider_adapters/sse.rs:397-412 | over a whole stream a position shows its last completed text unless blank, else its joined deltas, else the text of the whole response at the first position |

## Left out

- Semaphore: atomics are sequentially consistent steps; `Notify` is modelled by its documented behaviour (one stored permit, forwarding when a notified waiter is dropped).
- CircuitBreaker: `Instant` is a natural number with a largest value; the settings are fixed during a run.
- ProviderPermits: the acquire is one step here; its own interleavings are the subject of `Semaphore`. Provider ids and semaphores are values, not heap objects.
- ProviderUsage: the per-credential lock map and the Antigravity quota breaker are simple maps and not modelled.
- KeyCursor: storage errors, record decoding and the secret itself; a snapshot is a sorted sequence of entries.
- RouteFlattening: storage errors and the decoding of rows.
- TargetOrder: request decoding, authentication, delays, and the stream-continuity branch of the retry loop. The store does not change during the attempts of one request, and requests of other clients do not move the counter in between.
- LocalRpm: the 60 buckets are a sequence inside a value, not an array updated in place; the clock must not go backwards.
- ApiKeyScopes: the JSON parser is a parameter that reads back written lists without control characters; no accepted entry holds one, so the writer is modelled without escapes for them.
- TokenUsage: the floating-point cost field and token counts that are not unsigned 64-bit numbers.
- ResponseCodec: images, documents and the Google protocol; a part that holds media is refused, and generated images in a Responses output are dropped. JSON printing and parsing is a parameter with the law that printed JSON parses back. Field names are constructors, JSON numbers are integers.
- ResponseRoundTrip: `EncodeDecodeEncode` is stated for blocks as the decoders build them (clean extra fields, no tool results), since a tool result is not part of an assistant response.
- RequestDecoding: models, tools, options and instructions of a request; only its messages are read.
- ThinkingPayload: images and documents, the other request options (they are carried along unchanged) and the Google arm. JSON arrays are rewritten as values, not in place.
- ApiKeyPages: base64 and UTF-8 checks of the cursor; the lower-case search is a predicate on records; the index is fixed while its pages are read.
- StreamAccumulator: `InterleavingDoesNotMatter` needs an explicit output index on call events; finding an item by id depends on the ids seen so far. Overflow of `usize` lengths is not modelled.
- StreamReconstruction: the response must be a JSON object, as the source indexes into it; several text parts of one item are not all kept by the source and no such claim is made.
- The event-stream line parser, transport error classes, LMDB storage, HTTP routing, cookies, cryptography, the dashboard and the launcher are not part of this model.
