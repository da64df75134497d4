# GNL client, CLI and durable protocols: a Dafny model

GNL is a TypeScript framework for durable agents. This project models the parts of it that are
state machines, streaming decoders, event transducers and small algorithms, and proves what they
promise for every input, every chunking or every interleaving.

| file | system part |
|---|---|
| `TokenCell.dfy`, `TokenFlow.dfy` | the bearer token of `GnlClient`: single-flight refresh, generation counter, one retry after a 401, over all interleavings and for one request from end to end |
| `BatchPlan.dfy`, `BatchProtocol.dfy`, `BatchRun.dfy` | batches: canonical plan and token, first-wins claim, preflight, item loop and report |
| `AgentRegistry.dfy` | approval of agents with drift detection |
| `RunCancel.dfy` | durable cancellation and the outcome record it races for |
| `ResultCache.dfy` | the best-effort result cache on a shared, failing store |
| `SseParser.dfy`, `PromptKeys.dfy` | decoders that must not depend on how their input is cut |
| `PromptAnswers.dfy` | what the checkbox prompt answers for what was typed |
| `AgentStream.dfy`, `AguiConvert.dfy`, `AguiRoute.dfy`, `ChatReducer.dfy` | the agent stream, its conversion to AG-UI, the second copy of the part mapping, and the client that reads the same events |
| `EditDistance.dfy` | "did you mean" |
| `Ansi.dfy`, `Repaint.dfy` | column-accurate truncation, viewport and repaint arithmetic |
| `CounterShards.dfy` | sharded counters over 32-bit FNV-1a |
| `Exposure.dfy` | the network exposure rule and its mirror in the CLI |
| `Common.dfy` | options, UTF-16 text, small sequence lemmas |

Text is a sequence of UTF-16 code units, so a lone surrogate is an ordinary value. Asynchronous code
is cut at every `await`: a stretch between two of them is one step, an event list is one interleaving,
and a theorem about `Run(events)` is about all of them. Where the source updates fields in place the
model has a class whose methods are proved equal to the steps; where it fills tables or grows buffers
in loops the model has methods with loop invariants, proved against functions whose meaning is then
proved separately.

What the code relies on but does not contain enters as a stated assumption:

- `argsHash` is injective on canonical values (`BatchPlan.IsInjective`) and its text has no colon (`ResultCache.Hash`).
- `putIfAbsent`, `putIfMatch` and `incrBy` of a journal are atomic. What happens without `putIfAbsent` is stated for the batch claim.
- `getToken`, the network, clocks, `compute`, the wrapped tool, `resolveApprovals`, `admitRun`, `readXid`, `amountsDifferOf` and `identityUnusableReason` answer arbitrarily; their answers are inputs.
- `limitBreachFromSteps`, `blockedFromSteps` and `surfacedInterrupts` are inputs of the stream model.
- `TextDecoder` yields text and `JSON.parse` is a partial function from text to values.

## Findings

The model follows the code. These are the places where the code does less than the text beside it says,
or than a caller would expect. A lemma shows the case, and another states when the promise does hold.

- A `getToken` that throws synchronously leaves its rejected promise in the slot; until `clearToken` is called, `getToken` is not asked again and no request begun from then on is sent, though one that already had its token still is (`TokenCell.AThrowWedges`, `TokenCell.SynchronousThrowWedgesTheClient`; the slot only ever holds running calls if and only if no call throws so, `TokenCell.SlotIsInFlight`).
- A request that began before a logout and is refused after the next user's token has come is sent again on that user's token (`TokenCell.RetryMayCarryTheNextUsersToken`). A retry stays in the session its request began in if and only if nobody logged out between its beginning and its 401 (`TokenCell.RetryStaysInSessionIff`).
- A tool call that was announced is started a second time for the AG-UI client exactly when text comes between announcement and call, because opening a text message drops the announced ids (`AguiConvert.OneStartIffNoTextBetween`).
- On a journal with its own clock the canceled outcome carries that clock and not the moment of the first cancel, against packages/durable/src/cancel.ts:57-61; over every interleaving it carries the moment exactly if there is no such clock or the cancel that wrote it read just that moment there (`RunCancel.JournalClockReplacesTheMoment`; a case is `RunCancel.LoneCancelIsRestamped`).
- Boots and decisions of the agent registry are a get and a later put. An approval that read before a drifting boot wrote puts the agent back in service with the drift erased (`AgentRegistry.LostUpdateHidesDrift`). Only the configuration last seen is ever served exactly if no approval pins another one and no boot passes silently over another one in service (`AgentRegistry.ServesLastSeenIff`), and the whole record follows the sequential history of the puts exactly if each put still finds what it depends on (`AgentRegistry.SequentialIffPutsAreTimely`).
- Two boots of one configuration that overlap are not always harmless, against packages/durable/src/agent-registry.ts:84-85: an approval between their puts is erased (`AgentRegistry.DoubleBootErasesAnApproval`). The second boot does what a boot would do then if and only if the record still has the status and pin a boot leaves on the one both read, or, if it has nothing to write, there is still nothing to write (`AgentRegistry.SecondBootIsHarmlessIff`); with nothing in between it always does (`AgentRegistry.DoubleBootIsHarmless`).
- Without `putIfAbsent` two different plans can run under one batch id (`BatchProtocol.FallbackClaimAdmitsTwoPlans`); with it never (`BatchProtocol.OneBatchOnePlan`).
- A frame of the prompt fills a two-row terminal completely, so its last newline scrolls; and a terminal that shrinks below the frame on it keeps ghost rows (`Repaint.FrameLeavesARow`, `Repaint.TooTallLosesTheBlock`, `Repaint.ShrinkingLeavesGhosts`). Over every sequence of reads and resizes the screen is exactly the current frame if and only if each redraw met a terminal of at least three rows, or two and an empty list, that was taller than the frame on it (`Repaint.PromptShowsItsFrame`).
- Truncation keeps as much as fits, except that the scanner counts a column too many for each one-column surrogate pair with a colour sequence between its halves; pairs of two columns are measured right (`Ansi.SeveredPairWastesAColumn`, `Ansi.MeasuresAgreeIff`). The cut is maximal if and only if fewer such pairs precede it than the next token overflows by (`Ansi.CutIsMaximal`).
- `known` of a cache instance follows the order in which answers arrive, so a key the instance itself deleted can stay known (`ResultCache.LateAnswerKeepsADeletedKey`; exactly what it holds: `ResultCache.KnownIsExact`).
- `decideExposure` prints `localhost` for bracketed wildcards and `resolveBind` prints them as they are: six spellings, and nothing else differs (`Exposure.CopiesAgree`).
- The event-stream parser trims the data lines of a frame, joins them without a line feed and drops a frame whose data is empty, unlike section 9.2.6 of the WHATWG HTML Standard (`SseParser.TwoDataLinesRunTogether`, `SseParser.EmptyDataIsDropped`). What it yields is what the standard dispatches if and only if a frame has no data line, or one whose value is not empty and has no white space at its ends beyond the one leading space (`SseParser.OutputIsStandardIff`).
- `error` is documented as terminal (packages/durable/src/agent-stream.ts:9-10), but an error part of the model stream yields it in mid-stream, and `done` may follow (`AgentStream.DoneMayFollowError`). It is only ever the last word if and only if no part is an error, for the stream and for RUN_ERROR of an AG-UI run (`AgentStream.ErrorIsTerminalIff`, `AguiRoute.RunErrorIsTerminalIff`).
- A turn of `{messages}`, which appends no user message, finds the previous answer last, and its own answer is glued onto it (`ChatReducer.AnswerIsGluedOn`). A turn adds a message of its own if and only if the last one is not the assistant's or the turn says nothing (`ChatReducer.TurnAddsOneAnswer`); and a streamed answer leaves the same messages as the plain one if and only if nothing was said, or the last message is not the assistant's and there is no reasoning (`ChatReducer.StreamedAndPlainRunsAgree`).
- A one-answer prompt may begin with marks. If there are several, or one that is no item, and nobody presses SPACE, Enter keeps them as they are (`PromptKeys.SinglePromptAnswersOnce`).

## Model

| member | source | states |
|---|---|---|
| `TokenCell.HeldTokenIsCurrent` | packages/client/src/index.ts:171-203 | after every interleaving the held token came from a `getToken` begun in the current generation |
| `TokenCell.SingleFlight` | packages/client/src/index.ts:185-203 | no two unsettled `getToken` calls share a generation, and the current generation's one is in the slot |
| `TokenCell.NoTokenFromAnEarlierSession` | packages/client/src/index.ts:174-229 | every token a request sends comes from a `getToken` asked after each `clearToken` that precedes the request and before the send |
| `TokenCell.OneRefreshTwoSends` | packages/client/src/index.ts:212-229 | each request starts at most one `getToken` and is sent at most twice |
| `TokenCell.SecondSendIsTheRetry` | packages/client/src/index.ts:219-228 | a second send follows a 401 on a token not minted for the request and carries another, non-empty token |
| `TokenCell.RetryStaysInSessionIff` | packages/client/src/index.ts:219-228 | a second send carries a token of the session its 401 fell in, which is the request's own if and only if nobody logged out between its beginning and the 401 |
| `TokenCell.RetryMayCarryTheNextUsersToken` | packages/client/src/index.ts:223-228 | a run in which a request of the session that ended is resent on the token of the next |
| `TokenCell.EveryRequestIsLegal` | packages/client/src/index.ts:206-229 | the observable history of every request is accepted by an automaton of begin, ask, send, 401, ask, send |
| `TokenCell.CachedTokenIsNotAboutToExpire` | packages/client/src/index.ts:190-220 | in every run a first send with a token not minted for the request, however late, carries the token held when the request began; if it is a token at all, an earlier event settled its `getToken` with it and with an expiry then more than the skew away |
| `TokenCell.HeldComesFromItsSettlement` | packages/client/src/index.ts:190-200 | in every run the held token and its expiry are those of the event that settled its `getToken` |
| `TokenFlow.FreshTokenIsUsed` | packages/client/src/index.ts:206-220 | with no refresh running and a held token that is null or expires later than the skew, a request is sent at once on that token and nobody is asked |
| `TokenFlow.OtherwiseItAsks` | packages/client/src/index.ts:206-220 | otherwise it asks once, is sent on the answer, which is held with its expiry, and fails without one |
| `TokenFlow.RunningRefreshIsJoined` | packages/client/src/index.ts:206-207 | a request that finds a refresh running is sent on its answer and asks for nothing |
| `TokenFlow.NewerTokenIsUsed` | packages/client/src/index.ts:223-228 | after a 401, another token held by then is sent instead if it is one, and nobody is asked |
| `TokenFlow.OtherwiseItRefreshes` | packages/client/src/index.ts:223-228 | otherwise one answer of `getToken`, joined or asked for, is sent exactly if it is a token and another than the one refused |
| `TokenCell.StepKeepsInv` | packages/client/src/index.ts:171-229 | the conjunction of the cell, request, log and history invariants survives every step |
| `TokenCell.StepKeepsCell` | packages/client/src/index.ts:179-203 | every step keeps the slot and flight invariants; refreshes are only added, keep their generation and settle once |
| `TokenCell.AThrowWedges` | packages/client/src/index.ts:186-203 | a step that asks and meets a synchronous throw leaves a rejected promise in the slot |
| `TokenCell.SynchronousThrowWedgesTheClient` | packages/client/src/index.ts:186-210 | from then on, until `clearToken`, the log shows no `getToken` call and no send of a request begun since |
| `TokenCell.SlotIsInFlight` | packages/client/src/index.ts:186-203 | in every run the slot only ever holds a running `getToken` if and only if no call of it throws synchronously |
| `TokenCell.GnlClient.ClearToken` | packages/client/src/index.ts:179-183 | the object's fields change exactly as the machine's logout step |
| `TokenCell.GnlClient.AskOrJoin` | packages/client/src/index.ts:186-203 | joins the call in the slot or starts one, as the machine does |
| `TokenCell.GnlClient.OnTokenSettled` | packages/client/src/index.ts:190-200 | keeps the token only in its own generation and frees only its own slot |
| `TokenCell.GnlClient.BeginRequest` | packages/client/src/index.ts:206-219 | a request up to its first await is the machine's begin step |
| `TokenCell.GnlClient.ResumeRequest` | packages/client/src/index.ts:207-226 | a request resumed by a settled `getToken` is the machine's resume step |
| `TokenCell.GnlClient.SendRequest` | packages/client/src/index.ts:213-228 | a send is the machine's send step |
| `TokenCell.GnlClient.OnResponse` | packages/client/src/index.ts:220-228 | the code after a response is the machine's receive step: done, someone else's newer token, or a refresh |
| `BatchPlan.PlanIsSorted` | packages/durable/src/batch.ts:109-117 | a canonical plan holds every item once under its own key, in strictly ascending key order |
| `BatchPlan.PlanIffKeysAreGood` | packages/durable/src/batch.ts:98-113 | a list is accepted if and only if its keys are safe and distinct |
| `BatchPlan.PlanIdentifiesTheItems` | packages/durable/src/batch.ts:108-117 | permutations of a list get the same plan or refusal, and lists with the same plan are permutations of each other |
| `BatchPlan.TokenApprovesExactlyOnePlan` | packages/durable/src/batch.ts:109-117 | two tokens are equal if and only if policy and collection of items are |
| `BatchPlan.AscendingIsCanonical` | packages/durable/src/batch.ts:114 | a collection with distinct keys has only one ascending arrangement |
| `BatchPlan.SortPermutes` | packages/durable/src/batch.ts:114 | sorting by key loses and invents nothing |
| `BatchProtocol.OneBatchOnePlan` | packages/durable/src/batch.ts:218-237 | any two calls on one batch that reach the item loop carry the same policy, plan and items, those of the frozen token |
| `BatchProtocol.ReplayIffSameItems` | packages/durable/src/batch.ts:227-237 | a later call with the approved token reaches the loop if and only if policy and items agree up to order, and never changes the plan |
| `BatchProtocol.LoneCallLoopsIff` | packages/durable/src/batch.ts:218-237 | a call on its own reaches the loop if and only if its ids are safe, its keys distinct, its token that of its policy and items, and no other plan frozen under its id; then its token is frozen, otherwise nothing is |
| `BatchProtocol.FirstCallRuns` | packages/durable/src/batch.ts:218-238 | a first call on a batch id runs with the approved token and with no other |
| `BatchProtocol.FrozenMeansRunning` | packages/durable/src/batch.ts:227-238 | in every run a batch id is frozen if and only if some call reached the item loop on it |
| `BatchProtocol.StepKeepsInv` | packages/durable/src/batch.ts:218-237 | every step keeps each call's token canonical and each looping call on the frozen plan; frozen plans never change |
| `BatchProtocol.FallbackClaimAdmitsTwoPlans` | packages/durable/src/journal.ts:391-405 | with the get-then-put claim two different plans loop under one batch id |
| `BatchRun.RunItems` | packages/durable/src/batch.ts:238-304 | there is no report exactly if an item that is not cut is refused; a report lists every key once in plan order with its stated outcome, counts each outcome, and exactly the items before the cut were executed |
| `BatchRun.Execute` | packages/durable/src/batch.ts:287-298 | one item's outcome from its tool's answer, never not-run, and whether it cuts the rest |
| `BatchRun.NotRunIsASuffix` | packages/durable/src/batch.ts:243-246 | not-run items form a suffix and occur only under fail-batch after a duplicate block |
| `BatchRun.NotRunIff` | packages/durable/src/batch.ts:130-134 | an item is not run if and only if the policy is fail-batch and an earlier answer is a duplicate block |
| `BatchRun.ItemRunIdsDiffer` | packages/durable/src/batch.ts:98-103 | with safe ids, batch and item are read back from an item's run id |
| `BatchRun.RowsAreSortedByKey` | packages/durable/src/batch.ts:238-299 | report rows are strictly ascending by key, so no key is listed twice |
| `BatchRun.ReportListsEachItemOnce` | packages/durable/src/batch.ts:109-303 | from the caller's list: as many rows as items, strictly ascending by key, every item's key in exactly one row and no other key |
| `BatchRun.SummaryAddsUp` | packages/durable/src/batch.ts:238-303 | the seven counters add up to the number of items |
| `BatchRun.IntraBatchDuplicates` | packages/durable/src/batch.ts:168-175 | lists exactly the items with an earlier twin |
| `BatchRun.Preflight` | packages/durable/src/batch.ts:161-216 | each list of the plan is the keys of its class in plan order, and `fresh` counts its class |
| `BatchRun.PreflightPartitions` | packages/durable/src/batch.ts:176-214 | the five classes' sizes add up to the number of items |
| `BatchRun.ClassListsItsItems` | packages/durable/src/batch.ts:176-214 | a key is listed under a class if and only if its item is in it |
| `BatchRun.ClassesAreDisjoint` | packages/durable/src/batch.ts:176-214 | no key is listed under two classes |
| `BatchRun.UnusableIff` | packages/durable/src/batch.ts:187-192 | an item is reported with unusable identity exactly if it would be looked up by it and cannot be |
| `BatchRun.TwinIff` | packages/durable/src/batch.ts:168-175 | an item is reported as duplicate within the batch exactly if an earlier one has the same arguments |
| `AgentRegistry.ServableIffApprovalStands` | packages/durable/src/agent-registry.ts:80-154 | over every sequential history an agent is servable if and only if some approval was followed only by boots of the configuration it pinned; the record shows the configuration last seen |
| `AgentRegistry.StatusTellsTheHistory` | packages/durable/src/agent-registry.ts:80-139 | the status after any sequential history: pending without a decision, blocked after a block, changed after an approval and drift, approved otherwise, with the fingerprint pinned |
| `AgentRegistry.OnlyAdminsApprove` | packages/durable/src/agent-registry.ts:87-139 | in every interleaving an approved record pins the configuration it shows, and no boot ever writes one |
| `AgentRegistry.SequentialIffPutsAreTimely` | packages/durable/src/agent-registry.ts:84-139 | an interleaving agrees at every moment with the sequential history of its puts if and only if every put is timely |
| `AgentRegistry.TimelyIffSequential` | packages/durable/src/agent-registry.ts:87-139 | a late put does what its operation would do now if and only if what it depends on in the record it read still stands |
| `AgentRegistry.DoubleBootIsHarmless` | packages/durable/src/agent-registry.ts:84-85 | of two overlapping boots of one configuration, the second put changes nothing when nothing came between the two |
| `AgentRegistry.SecondBootIsHarmlessIff` | packages/durable/src/agent-registry.ts:84-109 | whatever comes between the two puts, the second does what a boot would do then if and only if status and pin are what a boot leaves, or, if it writes nothing, there is nothing to write |
| `AgentRegistry.DoubleBootErasesAnApproval` | packages/durable/src/agent-registry.ts:84-128 | an approval between the puts of two first boots is gone afterwards, with the configuration unchanged |
| `AgentRegistry.ServableUnderInterleaving` | packages/durable/src/agent-registry.ts:87-154 | under timely puts an agent is servable if and only if an approval stands in the order of the puts |
| `AgentRegistry.ServesLastSeenIff` | packages/durable/src/agent-registry.ts:96-128 | in an interleaving only the configuration last seen by a boot is ever served if and only if no put hides drift |
| `AgentRegistry.LostUpdateHidesDrift` | packages/durable/src/agent-registry.ts:111-128 | an approval that read before a drifting boot wrote leaves an approved record without the drift |
| `AgentRegistry.Registry.RecordAgent` | packages/durable/src/agent-registry.ts:87-109 | a boot changes its own record as stated and no other |
| `AgentRegistry.Registry.ApproveAgent` | packages/durable/src/agent-registry.ts:112-128 | an approval pins the fingerprint on record and touches no other agent |
| `AgentRegistry.Registry.BlockAgent` | packages/durable/src/agent-registry.ts:131-139 | a block touches only its own record |
| `AgentRegistry.Registry.IsAgentServable` | packages/durable/src/agent-registry.ts:151-154 | true exactly for a recorded, approved agent |
| `RunCancel.FirstCancelWins` | packages/durable/src/cancel.ts:50-56 | a set flag never changes, whatever follows |
| `RunCancel.NoEntryAfterCancel` | packages/durable/src/cancel.ts:69-74 | after the first claim every entry check refuses and no second flag is set |
| `RunCancel.EntryIsAdmittedIff` | packages/durable/src/cancel.ts:64-74 | in every interleaving an entry check admits if and only if no claim came before it |
| `RunCancel.UndisturbedVerdictStandsIff` | packages/durable/src/outcome.ts:110-169 | a verdict that is not a cancel, stamped with the journal's clock if there is one, is recorded under just that condition |
| `RunCancel.CanceledVerdictFollowsTheFlag` | packages/durable/src/cancel.ts:44-62 | a canceled outcome is written only after the flag was set and its cancel read it back, and carries the first cancel's time or, with a journal clock, what that cancel read there |
| `RunCancel.VerdictsMoveForward` | packages/durable/src/outcome.ts:122-170 | whatever races, outcomes come in time order, only a running run is canceled, and no start or second cancel directly follows a cancel |
| `RunCancel.JournalClockReplacesTheMoment` | packages/durable/src/outcome.ts:118-121 | over every interleaving a canceled outcome carries the flag's moment if and only if the journal has no clock or the clock its cancel read agrees |
| `RunCancel.LoneCancelIsRestamped` | packages/durable/src/outcome.ts:118-121 | one cancel alone ends with the flag's time, or the clock's on a journal that has one |
| `RunCancel.StepKeepsInv` | packages/durable/src/outcome.ts:110-175 | every journal access of every cancel, writer and entry keeps the invariant behind these results |
| `ResultCache.CacheIsTransparent` | packages/cache/src/index.ts:53-108 | for callers that agree with a pure function, under any interleaving, failure, expiry and invalidation `getOrCompute` returns that function of its key and `get` returns it or a miss |
| `ResultCache.LoneGet` | packages/cache/src/index.ts:88-95 | `get` returns what the store holds, a stored `undefined` included, and counts a hit; otherwise, or if the store fails, a miss |
| `ResultCache.LoneCompute` | packages/cache/src/index.ts:103-107 | what is computed is stored and returned, and returned even if it could not be stored; a `compute` that throws stores nothing |
| `ResultCache.SetThenGet` | packages/cache/src/index.ts:89-98 | what was set is got, by any instance of the namespace |
| `ResultCache.InvalidateAllForgets` | packages/cache/src/index.ts:117-121 | `invalidate()` on a working store removes every known key, forgets them and returns how many there were |
| `ResultCache.KeysDiffer` | packages/cache/src/index.ts:54 | a store key determines its namespace and hash |
| `ResultCache.KnownIsExact` | packages/cache/src/index.ts:57-86 | `known` holds exactly the keys this instance learned were stored or readable and has not since learned were deleted |
| `ResultCache.HitsAndMissesAreTheLookups` | packages/cache/src/index.ts:89-112 | hits plus misses is the number of lookups of that instance that were answered, failures included |
| `ResultCache.LookupsAreCounted` | packages/cache/src/index.ts:89-108 | hits count exactly the records found, misses the rest, each lookup once; `compute` runs only after a miss of its own call |
| `ResultCache.InvalidateCountsItsDeletions` | packages/cache/src/index.ts:113-121 | the number returned is the number of deletions acknowledged to that call |
| `ResultCache.LateAnswerKeepsADeletedKey` | packages/cache/src/index.ts:67-86 | a late acknowledgement keeps a key known that the same instance deleted |
| `ResultCache.Cache.OnRead` | packages/cache/src/index.ts:89-103 | a found record, even of `undefined`, is a hit and makes the key known; anything else is a miss |
| `ResultCache.Cache.OnWritten` | packages/cache/src/index.ts:67-74 | a key becomes known exactly if the write was acknowledged |
| `ResultCache.Cache.OnDeleted` | packages/cache/src/index.ts:75-84 | a key is forgotten exactly if the deletion was acknowledged |
| `ResultCache.Cache.Stats` | packages/cache/src/index.ts:109-112 | the rate lies between 0 and 1, times the total it gives the hits, and it is 0 without lookups |
| `SseParser.ParseStream` | packages/client/src/sse.ts:19-41 | whatever the chunks are, the frames are the meanings of the pieces of the whole text, the unterminated last piece included |
| `SseParser.Drain` | packages/client/src/sse.ts:29-34 | takes every complete frame off the buffer and leaves a rest without a break |
| `SseParser.PiecesAreAFraming` | packages/client/src/sse.ts:19-41 | the pieces, joined by breaks, are the text; all but the last are closed and none contains a break |
| `SseParser.FramingIsUnique` | packages/client/src/sse.ts:19-41 | no other list of pieces has that property |
| `SseParser.MoreTextReopensOnlyTheRest` | packages/client/src/sse.ts:26-35 | later text affects only the piece that is still open |
| `SseParser.ParseFrame` | packages/client/src/sse.ts:4-17 | the last event line names the frame, the data lines are concatenated, a frame without data means nothing, text that is not JSON stays text |
| `SseParser.EveryMeaningIsYielded` | packages/client/src/sse.ts:19-41 | every piece with a meaning is among the frames, in its place, and nothing else is |
| `SseParser.LinesAreTheText` | packages/client/src/sse.ts:7 | the lines joined by line feeds are the text, and none holds one |
| `SseParser.LastEventLineCounts` | packages/client/src/sse.ts:5-9 | the event is what the last event line says, and `message` if there is none |
| `SseParser.OutputIsStandardIff` | packages/client/src/sse.ts:4-17 | a frame yields what the WHATWG standard dispatches if and only if it has no data line, or one with a value that is not empty and has no white space to trim beyond the one leading space |
| `SseParser.TwoDataLinesRunTogether` | packages/client/src/sse.ts:8-12 | two data lines that the standard separates by a line feed run together |
| `SseParser.EmptyDataIsDropped` | packages/client/src/sse.ts:11 | a frame with one empty data line is dropped where the standard dispatches empty data |
| `PromptKeys.PromptIgnoresChunking` | packages/cli/src/prompt.ts:380-398 | for every text and every way of cutting it into reads the prompt ends in the state of the whole text |
| `PromptKeys.ChunkingDoesNotMatter` | packages/cli/src/prompt.ts:265-318 | the keys of a cut text are those of the whole plus one Enter per cut between CR and LF; equal if and only if there is no such cut; the reducer cannot tell |
| `PromptKeys.CleanCut` | packages/cli/src/prompt.ts:265-293 | a cut that splits no keystroke splits the keys |
| `PromptKeys.DecodeStream` | packages/cli/src/prompt.ts:313-318 | at most two characters are carried to the next read |
| `PromptKeys.DecodeKeys` | packages/cli/src/prompt.ts:265-293 | the scanning loop yields the keys of the keystrokes in order |
| `PromptKeys.FeedingReducesTheStream` | packages/cli/src/prompt.ts:380-398 | reading chunk by chunk, with the early break and the listener removed at the end, is the reducer folded over the stream's keys |
| `PromptKeys.ApplyKeys` | packages/cli/src/prompt.ts:386-389 | stopping at the first terminal key equals folding over all of them |
| `PromptKeys.SinglePromptAnswersOnce` | packages/cli/src/prompt.ts:24-35 | whatever marks it begins with and whatever keys come, a confirmed one-answer list has exactly one of its items marked if and only if it has items and SPACE was pressed before, or it began with no mark or one item's |
| `PromptKeys.ReduceKeepsCursor` | packages/cli/src/prompt.ts:50-94 | the cursor stays on the list |
| `PromptKeys.ArrowsUndoEachOther` | packages/cli/src/prompt.ts:54-57 | each arrow undoes the other, at the ends of the list too |
| `PromptKeys.DownWalksTheList` | packages/cli/src/prompt.ts:56-57 | from the top, k presses of down reach item k |
| `PromptKeys.SpaceUndoesItself` | packages/cli/src/prompt.ts:58-69 | on a multi-select SPACE twice changes nothing |
| `PromptKeys.ToggleAllIsAllOrNone` | packages/cli/src/prompt.ts:70-78 | after `a` the selection is the whole list, or empty if everything was marked |
| `PromptKeys.SelectionIsTheMarkedItems` | packages/cli/src/prompt.ts:96-99 | the selection holds exactly the marked items, and splits where the list splits, so in list order |
| `PromptAnswers.StrokeMeans` | packages/cli/src/prompt.ts:265-293 | the first keystroke of a text means a key if and only if it is one of that key's spellings |
| `PromptAnswers.TypedKeysAreRead` | packages/cli/src/prompt.ts:265-293 | any keys, typed each in any of its spellings, are read back, unless a CR meets an LF meant as another Enter |
| `PromptAnswers.CursorIsTheSumOfArrows` | packages/cli/src/prompt.ts:50-57 | while the prompt is open the cursor is downs less ups, around the list |
| `PromptAnswers.MarksAreTheReducers` | packages/cli/src/prompt.ts:58-78 | an item is marked if and only if its mark after the last `a`, or at the start, was flipped an even number of times and it was marked then, or an odd number and it was not |
| `PromptAnswers.ConfirmedSelection` | packages/cli/src/prompt.ts:50-99 | whatever the keys, a confirmed multi-select hands back exactly its marked items, and later keys change nothing |
| `PromptAnswers.EndsWith` | packages/cli/src/prompt.ts:51-90 | the first Enter or Cancel decides how the prompt ends and leaves the marks of a multi-select as they are |
| `PromptAnswers.ConfirmedAnswer` | packages/cli/src/prompt.ts:64-88 | a confirmed one-answer list has what SPACE left marked, and where nothing is, the item the arrows add up to |
| `PromptAnswers.TypedSelection` | packages/cli/src/prompt.ts:265-398 | end to end: whatever is typed, in whatever spellings and reads, the prompt hands back exactly the items so marked |
| `AgentStream.AgentStreamEvents` | packages/durable/src/agent-stream.ts:40-86 | yields the events of the parts, one by one, and then the stated ending, on every path |
| `AgentStream.StreamSaysEveryPart` | packages/durable/src/agent-stream.ts:40-86 | for every result, the events read back are the parts of the model's stream in order with all their data, less those that say nothing, and the error it ends in |
| `AgentStream.LastWords` | packages/durable/src/agent-stream.ts:67-85 | the last event for a failure, a breach, a block and a good end, with message, code, detail, address and the interrupts before it |
| `AgentStream.InterruptsFromSteps` | packages/durable/src/agent-stream.ts:28-36 | concatenates what every suspended part of every step surfaces, in order |
| `AgentStream.StreamIsWellEnded` | packages/durable/src/agent-stream.ts:40-86 | every stream ends in done or error, done comes once and last and exactly when nothing threw and there is no breach or block; no sentinel shows as a tool result |
| `AgentStream.ErrorIsTerminalIff` | packages/durable/src/agent-stream.ts:61-85 | error is only ever the last event if and only if no part of the model stream is an error |
| `AgentStream.DoneMayFollowError` | packages/durable/src/agent-stream.ts:61-82 | one error part in a run that ends well yields error and then done |
| `AguiConvert.TextIsWellFramed` | packages/agui/src/convert.ts:47-166 | an independent reader accepts the output of every event sequence: no nesting, ids numbered 0, 1, 2, nothing open after done or error |
| `AguiConvert.ConvertStaysInStep` | packages/agui/src/convert.ts:60-166 | one event in, the reader follows what comes out and agrees with the returned state |
| `AguiConvert.MessageIdsAreFresh` | packages/agui/src/convert.ts:74-81 | no text message id is used twice |
| `AguiConvert.OneStartIffNoTextBetween` | packages/agui/src/convert.ts:80-119 | a call announced once and made once is started once if the announcement comes first and no text lies between, twice otherwise |
| `AguiConvert.StartsAreCounted` | packages/agui/src/convert.ts:93-119 | for every source a tool call is started once for each announcement and once for each call whose announcement is not remembered |
| `AguiConvert.RememberedIffStreamed` | packages/agui/src/convert.ts:80-108 | an id is remembered exactly if it was announced and no text came since |
| `AguiConvert.NothingIsDropped` | packages/agui/src/convert.ts:121-165 | every tool result arrives once, in order, under its call; every event without an AG-UI name arrives as CUSTOM with its data |
| `AguiConvert.ArgumentsArrive` | packages/agui/src/convert.ts:93-119 | the argument text of a call is what was streamed for it, or its whole input when nothing is remembered as announced |
| `AguiConvert.ToolFramesArrive` | packages/agui/src/convert.ts:93-119 | over a whole run the client sees of every call exactly the frames the source says, in order, with the tool's name and arguments |
| `AguiRoute.PipeAguiStream` | packages/agui/src/route.ts:50-161 | what is written is RUN_STARTED and the converter folded over the agent stream of the same result, with the run's address on interrupts |
| `AguiRoute.PartEvents` | packages/agui/src/route.ts:67-127 | the second copy of the part switch yields the same events as the first, which are pinned part by part |
| `AguiRoute.EndingEvents` | packages/agui/src/route.ts:129-160 | the second copy of the ending yields the same events as the first, stamped |
| `AguiRoute.RunIsWellFormed` | packages/agui/src/route.ts:50-161 | every run starts with RUN_STARTED, is well framed, leaves nothing open and ends in RUN_FINISHED or RUN_ERROR, the former exactly when nothing threw and there is no breach or block |
| `AguiRoute.RunEndsAsTheStream` | packages/agui/src/route.ts:129-160 | the client's last event carries what the stream's last one says: message, code and detail, or reason and usage |
| `AguiRoute.InterruptsCarryTheAddress` | packages/agui/src/route.ts:148-154 | every interrupt reaches the client once, in order, with the run's address in each record and on the envelope |
| `AguiRoute.NoFinishAfterBreachOrBlock` | packages/agui/src/route.ts:129-160 | RUN_FINISHED appears nowhere in a run that did not end well |
| `AguiRoute.RunErrorIsTerminalIff` | packages/agui/src/route.ts:119-160 | RUN_ERROR is only ever the last event of a run if and only if no part of the stream is an error |
| `AguiRoute.ConvertAppend` | packages/agui/src/route.ts:56-61 | converting in two goes with the state handed over equals converting at once |
| `ChatReducer.TurnAddsOneAnswer` | packages/client/src/accumulator.ts:72-93 | over any state and events, earlier messages stay and the concatenated text and reasoning become one message of their own if and only if the last message is not the assistant's or the events say nothing |
| `ChatReducer.AnswerIsGluedOn` | packages/client/src/accumulator.ts:45-93 | from a state that ends with an answer, the concatenated text and reasoning are appended to that answer and nothing else changes |
| `ChatReducer.TurnShowsItsOwnFailures` | packages/client/src/accumulator.ts:45-99 | after a turn the tool errors are exactly those of its events |
| `ChatReducer.TurnLeavesItsApprovals` | packages/client/src/accumulator.ts:45-109 | after a streamed turn the pending interrupts are those its steps surfaced, none if it ended in error, and the run id is set exactly if it ended well |
| `ChatReducer.ContentIsText` | packages/agui/src/convert.ts:66-82 | the CONTENT deltas concatenate to the text of the events |
| `ChatReducer.BothClientsShowTheSameText` | packages/client/src/accumulator.ts:49-93 | for every stream result the GNL client shows one answer with the concatenated text and reasoning of the model's parts, and the AG-UI client receives the same text |
| `ChatReducer.StreamSpeaksForItsParts` | packages/durable/src/agent-stream.ts:44-51 | text and reasoning of the stream are those of the model's parts, whole and in order |
| `ChatReducer.NoBadgeFromAnEarlierTurn` | packages/client/src/accumulator.ts:45-106 | a streamed turn ends without the badge of replayed calls |
| `ChatReducer.StreamedAndPlainStatesAgree` | packages/client/src/accumulator.ts:45-106 | a run that ends well leaves the same approvals and address streamed and in one piece; the badge comes only with the latter |
| `ChatReducer.StreamedAndPlainRunsAgree` | packages/client/src/accumulator.ts:56-93 | streamed and plain, the same answer leaves the same messages if and only if nothing was said, or the last message is not the assistant's and there is no reasoning |
| `EditDistance.Levenshtein` | packages/cli/src/cli.ts:48-57 | the last cell of the loop-filled table is `Dist` |
| `EditDistance.DistIsEditDistance` | packages/cli/src/cli.ts:48-57 | `Dist` is the least length of a script of insertions, deletions and substitutions |
| `EditDistance.ShortcutIsExact` | packages/cli/src/cli.ts:53-55 | taking the diagonal on equal characters loses nothing: the full three-way recurrence holds |
| `EditDistance.NeighboursWithinOne` | packages/cli/src/cli.ts:48-57 | neighbouring cells differ by at most one |
| `EditDistance.DistZeroIffEqual` | packages/cli/src/cli.ts:48-57 | distance zero if and only if equal |
| `EditDistance.DistSymmetric` | packages/cli/src/cli.ts:48-57 | the distance is symmetric |
| `EditDistance.TriangleInequality` | packages/cli/src/cli.ts:48-57 | the triangle inequality |
| `EditDistance.Suggest` | packages/cli/src/cli.ts:59-66 | the first of the nearest names if it is within two edits; nothing exactly if every name is farther |
| `Ansi.TruncateToWidth` | packages/cli/src/ansi.ts:80-111 | never wider than the width; unchanged if it fits; otherwise empty, an ellipsis, or the greedy prefix and an ellipsis |
| `Ansi.CutPosition` | packages/cli/src/ansi.ts:94-109 | the scanning loop stops at the last token boundary within the budget |
| `Ansi.MeasureWidth` | packages/cli/src/ansi.ts:73-78 | the loop over code points measures the stripped text |
| `Ansi.WidthOfScripts` | packages/cli/src/ansi.ts:43-71 | two columns for CJK, kana, Hangul, full-width forms and emoji, none for combining marks and selectors, one for Latin |
| `Ansi.BoundaryKeepsPairs` | packages/cli/src/ansi.ts:81-86 | a cut at a boundary never splits a surrogate pair |
| `Ansi.BoundaryKeepsEscapes` | packages/cli/src/ansi.ts:98-102 | a colour sequence that starts before the cut ends before it |
| `Ansi.ScanBoundsDisplay` | packages/cli/src/ansi.ts:38-111 | the scanner measures what `displayWidth` does plus one column for each one-column pair an escape severs |
| `Ansi.MeasuresAgreeIff` | packages/cli/src/ansi.ts:38-111 | the two measures agree if and only if at no token boundary an escape severs a one-column pair |
| `Ansi.StripSplits` | packages/cli/src/ansi.ts:38-41 | stripping distributes over a cut at a boundary: the scanner and `stripAnsi` see the same escapes |
| `Ansi.CutIsMaximal` | packages/cli/src/ansi.ts:94-109 | no longer run of whole tokens would fit if and only if fewer one-column pairs are severed up to the next token than that token overflows by; always if none is |
| `Ansi.SeveredPairWastesAColumn` | packages/cli/src/ansi.ts:98-109 | a concrete text on which the cut is not maximal |
| `Ansi.Clamp` | packages/cli/src/prompt.ts:133-140 | a line that fits is untouched, any other is its cut with the colours reset, within the width |
| `Repaint.DrawWidth` | packages/cli/src/prompt.ts:158-165 | one less than the columns from 21 to 401, 79 where none are reported, between 20 and 400, and narrower than the terminal exactly from 21 columns up |
| `Repaint.WindowHoldsCursor` | packages/cli/src/prompt.ts:188-206 | the cursor's item is in the window if and only if an option row fits |
| `Repaint.WindowUsesTheRoom` | packages/cli/src/prompt.ts:188-206 | the window shows everything, or the frame leaves just the last row free |
| `Repaint.WindowIsCentred` | packages/cli/src/prompt.ts:183-205 | the cursor stands in the middle of the window except where it has reached an end of the list |
| `Repaint.FrameFits` | packages/cli/src/prompt.ts:208-242 | the final slice is a no-op if and only if there are two rows or the list is empty |
| `Repaint.FrameLeavesARow` | packages/cli/src/prompt.ts:194-195 | a frame leaves a row free exactly from three rows up, or in two with an empty list |
| `Repaint.RenderLines` | packages/cli/src/prompt.ts:208-244 | as many lines as the frame has, at most the rows given, each the frame's line clamped |
| `Repaint.PaintOver` | packages/cli/src/prompt.ts:335-351 | the writes of `draw`: back up, the lines, blanks over what is left of a taller frame, back again |
| `Repaint.DrawReplacesFrame` | packages/cli/src/prompt.ts:335-351 | if both frames leave a row, the new one stands where the old one began, the cursor below it, nothing after it |
| `Repaint.ScreenShowsLastFrame` | packages/cli/src/prompt.ts:335-368 | after any sequence of draws and resizes the screen shows exactly the last frame, in place, if and only if every draw met old and new frames shorter than the terminal |
| `Repaint.PromptShowsItsFrame` | packages/cli/src/prompt.ts:332-398 | over any sequence of reads and resizes from the start the last redraw renders the current state, every item of its window on its own line and the cursor's among them as soon as a row fits; the screen is exactly that frame if and only if every redraw had room for it and for the one before |
| `Repaint.RenderingShowsItsItems` | packages/cli/src/prompt.ts:208-244 | the lines of a rendering hold the clamped row of every item of the window, and the window the cursor as soon as a row fits |
| `Repaint.TooTallLosesTheBlock` | packages/cli/src/prompt.ts:336-340 | a draw with the old or the new frame as tall as the terminal scrolls the block's first row out of reach |
| `Repaint.RenderingHasRoom` | packages/cli/src/prompt.ts:208-244 | a rendering is shorter than the terminal exactly from three rows up, or in two with an empty list; without a reported height exactly if list and chrome are shorter |
| `Repaint.ShrinkingLeavesGhosts` | packages/cli/src/prompt.ts:336-340 | if the terminal becomes no taller than the frame on it, the frame's first row stays behind |
| `Repaint.CheckboxPrompt.Draw` | packages/cli/src/prompt.ts:335-351 | a draw renders the current state for the reported size and paints it over the last frame |
| `Repaint.CheckboxPrompt.OnData` | packages/cli/src/prompt.ts:381-398 | one read is one step of the prompt: keys, at most one redraw, and the selection or a cancellation exactly when it ends |
| `Repaint.CheckboxPrompt.OnResize` | packages/cli/src/prompt.ts:367-371 | a resize redraws the current state while the prompt is open and does nothing afterwards |
| `CounterShards.ShardSuffix` | packages/durable/src/counter-shard.ts:58-66 | the wrapping loop is FNV-1a; the suffix names a shard below the count, none when sharding is off |
| `CounterShards.OneUnitChangesTheHash` | packages/durable/src/counter-shard.ts:60-64 | ids of one length that differ in just one place have different hashes: every unit counts |
| `CounterShards.SumShards` | packages/durable/src/counter-shard.ts:76-88 | the sum over the bare key and the shard keys that exist |
| `CounterShards.AddInto` | packages/durable/src/counter-shard.ts:85-86 | adding field by field, in any order, is field-wise addition |
| `CounterShards.SumIsTheVisibleTotal` | packages/durable/src/counter-shard.ts:68-88 | for every history under varying counts a reader gets the total of exactly the increments it can see |
| `CounterShards.ShardingIsInvisible` | packages/durable/src/counter-shard.ts:68-88 | read with at least the largest count used, the sum equals the one unsharded counter |
| `CounterShards.NothingWritten` | packages/durable/src/counter-shard.ts:83-84 | what is returned is undefined if and only if no increment the reader can see was written |
| `CounterShards.ShardKeysDiffer` | packages/durable/src/counter-shard.ts:81 | shard keys of plain logical keys never collide |
| `CounterShards.VisibleIffKeyIsRead` | packages/durable/src/counter-shard.ts:71-74 | lowering the count hides exactly the higher shards |
| `Exposure.CopiesAgree` | packages/cli/src/bind.ts:91-124 | for every host, credential set and flag both copies refuse together and otherwise agree, up to the printed host of six bracketed wildcards |
| `Exposure.RefusedIff` | packages/auth/src/exposure.ts:36-183 | refused if and only if reachable from outside, without auth that counts and without the flag; what is served, and with which warning, follows from the same three |
| `Exposure.LoopbackIsExactly` | packages/auth/src/exposure.ts:44-59 | loopback are exactly `localhost`, `::1` and well-formed dotted quads in 127.0.0.0/8 |
| `Exposure.ReadsWhatIsWritten` | packages/auth/src/exposure.ts:54-56 | written octets are read back as their values |
| `Exposure.WritesWhatIsRead` | packages/auth/src/exposure.ts:54-56 | what is read is the dotted join of octets with those values |
| `Exposure.WildcardSpellings` | packages/auth/src/exposure.ts:61-65 | the wildcards are the two addresses and their six bracketed spellings |

## Left out

- The engine (`durable-tool`, `run`, `taint`, `xid`, `hash`, `metrics`): only what the modelled code asks of it enters, as inputs and assumptions.
- HTTP routes and hosts, JWT, HMAC and constant-time comparison, authorization tables, scaffolding, documentation server, studio: wiring, cryptography and templates.
- Texts of messages, details, notes, reasons and timestamps in reports, registry records, warnings and notices; `exposureNotice` only prints.
- Sorting a batch in place, the journal calls of `cancelAgentRun` and `recordRunOutcome`, and the plan claim are modelled on values, not as updates of a journal object.
- The get-then-put fallbacks of the cancel flag and of the outcome record on journals without `putIfAbsent` or `putIfMatch`.
- The item loop takes one answer per item; how the tool, approvals and admission arrive at it, and the stored copy of the report, are not modelled.
- Configuration checks of `createBatch` and the map from batch policy to tool policy.
- Terminals of 20 columns or fewer, or that report no columns and have fewer than 80, where a line may wrap, text reflow on a change of width, and raw mode; a row's words are inputs of the frame, and a terminal that reports a height reports its real one.
- Carriage returns, comments, event names and the other fields of the WHATWG event-stream format, and its rule that an unterminated last frame is not dispatched: the comparison with it is about the data of frames cut at LF.
- `AguiRoute.PipeAguiStream`: a failing write to the response is not modelled; a client that goes away is, as the parts after that point not being read.
- `CounterShards.SumShards`: reads one store, so increments that arrive between its reads are not modelled; counts are integers, not floating point numbers.
- `Exposure.LoopbackIsExactly`: lower-casing is ASCII only; no other character lower-cases into one of `localhost`.
- An `onError` callback of the cache that throws, and time-to-live as a number: expiry is an event that may come at any time.
- UTF-8 decoding, JSON parsing and the regular expression engine: patterns are written out as scanners.
