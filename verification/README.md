# Poolstatis, verified

A Dafny 4.11 model of the stateful and algebraic core of the Poolstatis analytics platform, with
proofs. Check it with `dafny verify dfyconfig.toml`.

Code that updates state across `await` points is modelled twice. A *step function* on a value gives
the state after one synchronous piece of code; an `await` is a place where any other step may run.
A *class* updates the same fields in place, and its methods are proved to give exactly the step
function's state. The theorems are about all runs: sequences of steps in any order, with any
outcome of every request. What a step may change and what it answers is also told without the step
functions, on the states before and after it (`…Steps`, `EngagementHandlers`). What only computes
is a function with lemmas.

| part | modules |
|---|---|
| SDK client: batching, retries, discards, storage by batch id | `SdkClient`, `SdkConservation`, `SdkDelivery`, `SdkDrain`, `SdkForming`, `SdkPoolstatis`, `BatchStore` |
| Bounded interaction queue and its rate limit | `ExperienceClient`, `ExperienceSteps`, `ExperienceQueue`, `ExperienceDelivery`, `ExperienceRequeue`, `ExperienceBrowser` |
| Session replay: chunks, uploads, completion | `ReplayRecorder`, `ReplaySteps`, `ReplayDelivery`, `ReplayLoss`, `ReplayEviction`, `ReplaySession` |
| Replay privacy: the browser pass and the server pass | `ReplayValues`, `ReplaySanitizer`, `ReplayPrivacy`, `ReplayMasking`, `ReplayTwoPass`, `ReplayWalk`, `ReplayBlocking`, `ReplayText`, `ReplayAttributes`, `ReplayLimits`, `StructuralTokens`, `CssScanner`, `CssSanitizer`, `CssGrammar`, `CssMeaning` |
| Canonical JSON behind fingerprints | `JsonText`, `CanonicalJson`, `CanonicalReadback`, `CanonicalOrder`, `CanonicalForm`, `ViewFingerprint` |
| Measurement contracts | `Contracts`, `ContractStore`, `ContractHistory`, `ContractReapply`, `ContractMeaning` |
| Evidence, releases, decisions, actions | `Evaluation`, `Releases`, `Decisions`, `DecisionChain`, `DecisionSteps`, `Actions`, `ActionGate`, `ActionExecuted`, `ActionSteps` |
| Page views and engagement, and their validator | `Engagement`, `EngagementChain`, `EngagementClock`, `EngagementHandlers`, `BrowserAnalytics`, `BrowserValidator`, `BrowserAgreement`, `BrowserRules`, `LegacyProperties` |
| Calendar months | `UtcCalendar` |

`Wrappers`, `Sequences` and `StableSort` are helpers.

## Where the code does not keep what one would expect

In each case the code is modelled as it is, a named input or run shows the failure, and a theorem
gives the exact condition under which the expectation holds.

| expectation | input or run on which it fails | when it holds |
|---|---|---|
| an event is stored at most once | `SdkDelivery.LateResendStoredTwice`: the store forgets a batch id after 35 days | `SdkDelivery.StoredAtMostOnce` |
| an accepted valid event is stored | `SdkDelivery.RefusedThenAccepted`: only the request that claims the id stores anything | `SdkDelivery.AcceptedStoredIff` |
| a delivered interaction batch is not queued again | `ExperienceRequeue.KeepaliveFailsLate`, `DrainFailsLate`: a keepalive flush shares the batch in flight | `ExperienceRequeue.DeliveredReturnsIff`, `NeverSharedGone`; the stable id keeps it from being stored twice |
| replay chunks arrive in order, and only evicted ones are missing | `ReplayEviction.EvictionLosesNextChunk`: the chunk being uploaded is evicted | `ReplayDelivery.PrefixDelivery`, `ReplayLoss.LostIff` |
| canonical JSON ignores key order | `CanonicalOrder.TiedTextsDiffer`, for any two keys the comparator calls equal | `CanonicalOrder.KeyOrderIrrelevantIff` |
| different values have different canonical texts | `CanonicalReadback.ListOfUndefined` | `CanonicalOrder.CanonicalTextIff`: but for that list and for key order |
| an applied contract diffs as unchanged | `ContractReapply.FilteredNeverSettles`: filters are hashed in the key order of the schema, and a jsonb column returns another one | `ContractReapply.NoopIffNoFilters`, `ReapplyIff` |
| month subtraction keeps the order of instants | `UtcCalendar.ClampSwapsInstants` | `UtcCalendar.SubtractMonotone` |
| month subtraction lands in the wanted month | `UtcCalendar.CenturyMoved`: `Date.UTC` moves the years 0 to 99 | `UtcCalendar.LandsOnWantedMonth` |
| a decided release has an approved decision | `DecisionChain.DecidedUnreviewed`: a release can be moved to decided directly | `DecisionChain.DecidedWithoutApprovalIff` |
| an executed action stays executed | `ActionExecuted.SingleExecutionFails`, `SecondExecutionFails` | `ActionExecuted.ExecutedFinalIff` |

## What is assumed

- What the server makes of an event can change from request to request (`valid` in a delivery), but one
  request judges each of its events once.
- Ids that the code creates (`uuid`, `opaqueId`, `createId`) are fresh: they are counters, or in
  `Engagement` an injective sequence.
- Digests stand for what they are taken of: two are equal exactly when their inputs are.
- `localeCompare` is a total preorder and `sort` is stable. Nothing more is assumed of the comparator;
  where distinct keys must not tie, the theorem says so.
- The allow lists and secret patterns of the replay sanitizers are parameters. `CssSanitizer.Sound` and
  `ReplayValues.SoundEnv` say what is used of them: names are letters and hyphens, a redaction only
  writes bullets, plain ASCII names are their own lower case, bullets match no pattern.
  `ReplayWalk.SameConversions` says that both passes convert to lower case alike, and that the server
  knows no more location keys than the browser.
- A transaction is one atomic step. A query outside a transaction is a step of its own.
- The monotonic clock does not go back; the wall clock may, except in `ExperienceQueue.EveryWindowLimited`.
- A character of a replay event's JSON counts as one byte of the sizes in `ReplayRecorder`.

## Model

| member | source | states |
|---|---|---|
| BatchStore.AppendConsistent | src/stores/postgresEventStore.ts:165-247 | Writing a batch under its id keeps the log consistent: every stored event lies under the id that owns it, and every claimed id stays claimed; a known id writes nothing |
| BatchStore.AppendAtMostOnce | src/stores/postgresEventStore.ts:185-222 | A batch keeps every event stored at most once if and only if it does not take over a claim older than 35 days while carrying an event already stored |
| SdkPoolstatis.Send | sdk/src/index.ts:317-338 | Of the answers to one request the first decisive one is the result and nothing is sent after it; `retry` means that every attempt (one with keepalive, four without) was transient |
| SdkPoolstatis.Poolstatis.Capture | sdk/src/index.ts:187-191 | Updating the fields in place gives exactly the state of the step function: push, evict the oldest above the cap, flush at a full batch |
| SdkPoolstatis.Poolstatis.DiscardQueuedEvents | sdk/src/index.ts:194-201 | The filtered queues are the step function's: selected events go, entity batches stay, an emptied batch goes |
| SdkPoolstatis.Poolstatis.Flush | sdk/src/index.ts:270-291 | A flush takes every retry batch with it and suspends at its first request; a second periodic flush changes nothing |
| SdkPoolstatis.Poolstatis.Settle | sdk/src/index.ts:283-314 | The continuation after a response: record the outcome, requeue a transient failure under the cap of 100, go on to the next request |
| SdkConservation.CaptureKeeps | sdk/src/index.ts:187-191 | Capturing, with the eviction and the flush it may start, keeps the whole invariant: conservation, bounds, one periodic flush, one batch id for life, no id held twice |
| SdkConservation.SettleKeeps | sdk/src/index.ts:287-314 | Settling any request with any outcome keeps that invariant |
| SdkConservation.DiscardKeeps | sdk/src/index.ts:194-201 | Discarding keeps that invariant, and what it removes is counted as discarded |
| SdkConservation.DiscardReach | sdk/src/index.ts:194-201 | A discard removes exactly the selected events from both queues and never reaches what a drain has claimed, nor entities |
| SdkDelivery.Conservation | sdk/src/index.ts:187-201 | On every interleaving each captured item is in exactly one place: queued, waiting for a retry, claimed by a drain, or gone as accepted, rejected, evicted or discarded; at most 100 retry batches and at most maxQueue events |
| SdkDelivery.DrainsDisjoint | sdk/src/index.ts:281-301 | No two drains ever hold the same item, however they interleave |
| SdkDelivery.OnePeriodicFlush | sdk/src/index.ts:270-279 | On every run the number of periodic flushes under way is 1 exactly while the flag is set, else 0 |
| SdkDelivery.StoredAtMostOnce | sdk/src/index.ts:283-301 | On every run with lost responses, resends and shrunk batches, every event is stored at most once if and only if no request takes over an expired claim (35 days) with an event already stored |
| SdkDelivery.AcceptedStoredIff | sdk/src/index.ts:317-331 | Every event of a request that was reported as accepted was carried by a request that claimed its id, and is in the store exactly if one of those found it valid; validity is judged anew by every request |
| SdkDelivery.ExactlyOnce | sdk/src/index.ts:287-300 | When all requests arrive within one reclaim interval, exactly one request carries an accepted event into a claim, and the event is stored once if that request found it valid, else never |
| SdkDelivery.RefusedThenAccepted | src/stores/postgresEventStore.ts:206-222 | The concrete run on which an event that was refused when its id was claimed is reported as accepted by a resend that finds it valid, and is never stored |
| SdkDelivery.LateResendStoredTwice | src/stores/postgresEventStore.ts:196-205 | The concrete run on which a resend one millisecond after the reclaim interval is stored a second time |
| SdkDrain.UndisturbedDrain | sdk/src/index.ts:281-314 | A drain that nothing disturbs sends the retry batches as they were, then the entities, then the events, each queue oldest first in chunks of 25 for a keepalive flush and of maxBatchSize else; it empties both queues, records every outcome, and keeps the newest 100 batches that failed in a way that may pass |
| SdkForming.FormsOldest | sdk/src/index.ts:283-300 | On every run, whenever any step makes a drain form a batch, the batch is the oldest min(cap, length) items of one queue in order, under a fresh id, entities before events, with a cap of 25 for a keepalive drain and maxBatchSize else, and what is left is the rest of the queue |
| SdkForming.QueuesItem | sdk/src/index.ts:187-212 | A captured event or identified entity joins the end of its queue, the oldest events above maxQueue go, and a periodic flush starts exactly when the queue has maxBatchSize items and none is under way |
| ExperienceBrowser.BrowserExperience.TotalQueuedEvents | sdk/src/experience.ts:287-289 | The loop returns the pending events plus the events of all retry batches |
| ExperienceBrowser.BrowserExperience.EvictForOne | sdk/src/experience.ts:275-278 | The eviction loop ends, and leaves what dropping oldest pending events and then newest retry batches leaves |
| ExperienceBrowser.BrowserExperience.Enqueue | sdk/src/experience.ts:269-281 | The in-place update is the step function: prune, refuse above the rate, evict, append |
| ExperienceBrowser.BrowserExperience.Flush | sdk/src/experience.ts:181-229 | A flush up to its first request is the step function, with the keepalive flush sharing the batch in flight |
| ExperienceBrowser.BrowserExperience.Settle | sdk/src/experience.ts:190-228 | The continuation of a suspended call is the step function, for a drain and for a keepalive flush |
| ExperienceQueue.RoomMade | sdk/src/experience.ts:275-278 | After the eviction there is room for one event, and what is kept is a suffix of the pending events and a prefix of the retry batches |
| ExperienceQueue.QueueStaysBounded | sdk/src/experience.ts:181-240 | On every run the queue never exceeds maxQueue, pending events and the events of every batch are in strictly increasing sequence order, and every batch has 1 to 25 events |
| ExperienceQueue.EveryWindowLimited | sdk/src/experience.ts:269-281 | With a clock that never goes back, every half-open window of 60,000 ms over the whole run holds at most maxEventsPerMinute accepted events, although old times are pruned |
| ExperienceDelivery.StoredAtMostOnce | sdk/src/experience.ts:183-240 | Every interaction is stored at most once on every run exactly when no request takes over an expired claim with an event already stored |
| ExperienceDelivery.WithinInterval | src/services/experience.ts:479-485 | Requests that all arrive within one reclaim interval never store an interaction twice |
| ExperienceRequeue.QueuesIff | sdk/src/experience.ts:187-217 | A step puts a batch back into the queue exactly if it settles, retryably failed, an open call of that batch while there is room, and the call is the drain's or the batch is not in flight |
| ExperienceRequeue.DeliveredReturnsIff | sdk/src/experience.ts:183-222 | On every run a batch that is just reported delivered can be queued again later exactly if another open call or queue slot holds it at that time |
| ExperienceRequeue.NeverSharedGone | sdk/src/experience.ts:183-199 | On every run on which no keepalive flush takes along a batch in flight, the client holds at most one copy of each batch, and none of a delivered one |
| ExperienceRequeue.KeepaliveFailsLate | sdk/src/experience.ts:187-199 | The run on which the drain is told of delivery first and the failing keepalive request queues the batch again |
| ExperienceRequeue.DrainFailsLate | sdk/src/experience.ts:206-222 | The run on which the keepalive request is told of delivery first and the failing drain queues the batch again |
| ExperienceSteps.RunFollows | sdk/src/experience.ts:153-289 | On every run, what the last step did: an event is accepted exactly below the limit of the last 60,000 ms, just enough oldest events and newest batches are dropped for it, each request is the first waiting batch or the 25 oldest events, and a failed batch goes to the front exactly if the failure may pass, it fits and it is not in flight elsewhere |
| ReplaySession.RequestWithRetry | sdk/src/replay.ts:351-377 | Every attempt but the last met a retryable failure; the last succeeded, met a terminal status, was not retryable, or used up the attempts; the pauses double from 250 ms |
| ReplaySession.RecorderSession.AcceptEvent | sdk/src/replay.ts:287-308 | Accepting in place is the step function: seal first when the event does not fit, close the session at a limit |
| ReplaySession.RecorderSession.EvictOverCap | sdk/src/replay.ts:325 | The loop shifts exactly the oldest chunks until the queue fits its byte cap |
| ReplaySession.RecorderSession.DrainResume | sdk/src/replay.ts:335-349 | After the response the first queued chunk is shifted and the drain goes on, or the error ends it and nothing is shifted |
| ReplayDelivery.SerializedLength | sdk/src/replay.ts:287-303 | The JSON of a chunk is exactly one byte shorter than the two brackets plus what the chunker booked for its events |
| ReplayDelivery.ChunkFits | sdk/src/replay.ts:289-302 | A chunk of several events is at most MAX-1 bytes, a single event at most MAX+1, and only a single event booked at the limit exceeds MAX |
| ReplayDelivery.EvictsOverCap | sdk/src/replay.ts:324-325 | On every run a seal job evicts nothing exactly when the queue and the new chunk fit the byte cap |
| ReplayDelivery.PrefixDelivery | sdk/src/replay.ts:208-246 | On every run, over concurrent flushes and failed uploads, acknowledged chunks followed by queued and not yet hashed ones are the sealed chunks in order if and only if the cap never evicted a chunk |
| ReplayDelivery.ServerHoldsPrefix | sdk/src/replay.ts:335-349 | Without eviction the server holds every acknowledged chunk and at most the next one |
| ReplayDelivery.CompleteAfterAll | sdk/src/replay.ts:227-246 | Without eviction completion is requested only after every chunk up to last_sequence was acknowledged |
| ReplayDelivery.Accounting | sdk/src/replay.ts:287-327 | On every run sealed chunks followed by the current one are the accepted events in order; numbers count from 0 and stay below 120; 1 to 500 events a chunk; at most 50,000 events and 20 MiB a session |
| ReplayDelivery.SealedSizes | sdk/src/replay.ts:54-65 | The serialized size of every sealed chunk on every run, with the exact case in which it passes the limit |
| ReplayLoss.LostIff | sdk/src/replay.ts:324-346 | On every run a sealed chunk is lost (not acknowledged, evicted, sent, queued or being sealed) exactly if it stood first in the queue when the acknowledgement of another chunk arrived |
| ReplayLoss.PendingIsSuffix | sdk/src/replay.ts:310-349 | On every run the queued and the not yet hashed chunks are the end of what was sealed, in order, whatever was evicted or lost |
| ReplayEviction.EvictionLosesNextChunk | sdk/src/replay.ts:324-346 | On the run `LosingRun` only chunk 0 is evicted, while it is being uploaded, and its acknowledgement shifts away chunk 1, which is lost |
| ReplaySteps.RunFollows | sdk/src/replay.ts:204-349 | On every run, what the last step did, with the limits of the protocol: a chunk is sealed at 500 events or 512 KiB, the session ends at 120 chunks, 50,000 events or 20 MiB, just enough is evicted above 5 MiB, a keepalive request stays within 60 KiB, and a stop or a flush waits for exactly the chunks sealed before it |
| JsonText.QuoteRoundTrip | src/services/analysisViews.ts:1011-1020 | A quoted string reads back as itself and the reader stops right after it, for all strings of UTF-16 units, lone surrogates included |
| CanonicalReadback.ReadPrint | src/services/analysisViews.ts:1011-1020 | Reading a printed value gives its meaning (objects without order) and the untouched rest of the text |
| CanonicalReadback.SameTextSameMeaning | src/services/analysisViews.ts:1011-1020 | Equal canonical texts mean values that are equal up to key order, whatever the comparator does |
| CanonicalReadback.ListOfUndefined | src/services/analysisViews.ts:1011-1012 | The list of one `undefined` has the text of the empty list, and the list of two has another one |
| CanonicalOrder.CanonicalTextIff | src/services/analysisViews.ts:1011-1020 | Canonical texts are equal exactly when the values are equal up to key order, as long as no object has two keys the comparator calls equal |
| CanonicalOrder.KeyOrderIrrelevantIff | src/services/automationWorkerShared.ts:33-40 | The printer ignores key order on all values exactly when the comparator never calls two different keys equal |
| CanonicalOrder.TiedTextsDiffer | src/services/analysisViews.ts:1014-1017 | Two keys that tie give two objects, equal up to key order, with different texts |
| ViewFingerprint.FingerprintIff | src/services/analysisViews.ts:954-965 | The hashed text of two snapshots is equal exactly when specification, answer and evidence each agree up to key order |
| CanonicalForm.QuoteForm | src/services/analysisViews.ts:1016 | A string stands between quotes with each unit as `JSON.stringify` writes it: short escapes, six-character ones for other control characters and lone surrogates, pairs and everything else as they are |
| CanonicalForm.ScalarForm | src/services/analysisViews.ts:1019 | The texts of null, booleans, numbers, strings and a nested undefined; only undefined itself has no text |
| CanonicalForm.ListForm | src/services/analysisViews.ts:1012 | A list is the texts of its items between brackets with commas between them, and nothing for an item that is undefined |
| CanonicalForm.ObjectForm | src/services/analysisViews.ts:1013-1018 | An object is its members, a permutation of them ascending by the comparator, each as quoted key, colon and value, between braces with commas between them |
| CanonicalForm.RecordForm | src/services/analysisViews.ts:954-965 | What is hashed means version 1, the specification, the answer and the evidence under their four names, and nothing else |
| StructuralTokens.Fnv1a | src/replay/sanitize.ts:462-469 | The loop over the text computes the 32-bit FNV-1a hash, printed in hexadecimal |
| StructuralTokens.HashTextSound | src/replay/sanitize.ts:462-469 | It always prints eight lower-case hexadecimal digits, and they read back as the hash |
| StructuralTokens.CanonicalTokenStable | src/replay/sanitize.ts:349-352 | Every token becomes `rr-` and eight lower-case digits, and a second pass leaves it alone |
| StructuralTokens.TokensStable | src/replay/sanitize.ts:231-233 | A token list that one pass wrote is unchanged by the next |
| CssScanner.FindBrace | src/replay/sanitize.ts:445-448 | The loop returns the least position of the brace, or -1 |
| CssScanner.MatchingBrace | src/replay/sanitize.ts:450-460 | The running depth finds the least position that closes the brace, or -1 when nothing does |
| CssScanner.SplitDeclarations | src/replay/sanitize.ts:428-443 | The pieces rejoin to the input, none has a semicolon outside parentheses, and all but the last close theirs |
| CssScanner.SplitUnique | src/replay/sanitize.ts:428-443 | No other decomposition of the text has those properties |
| CssSanitizer.SanitizeDeclarations | src/replay/sanitize.ts:408-426 | The loop keeps the first 500 allowed declarations of the split |
| CssSanitizer.SanitizeStylesheet | src/replay/sanitize.ts:359-385 | For every text the scan ends and writes exactly the rules that the recursive definition keeps |
| CssGrammar.HashNamesStable | src/replay/sanitize.ts:387-397 | Class and id names hashed in a selector are unchanged by a second pass |
| CssGrammar.RulesWellFormed | src/replay/sanitize.ts:359-426 | Every kept rule has a clean selector with 1 to 500 clean declarations, or is a media, supports, container or layer group of such rules, nested to what the depth leaves |
| CssGrammar.RenderReadsBack | src/replay/sanitize.ts:373-380 | A brace matcher reads the written sheet back as exactly the kept rules |
| CssGrammar.OutputGrammar | src/replay/sanitize.ts:359-385 | For every input, however unbalanced: the output derives from the grammar, its braces balance and nest at most 7 deep, and it reads back as the kept rules |
| CssMeaning.RulesPicked | src/replay/sanitize.ts:359-385 | Down to the seventh level the rules of a sheet are exactly those that its outermost blocks give, in order: a group of the rules of its body, or a style rule, if something is kept of head and body; below there are none |
| CssMeaning.SelectorPicked | src/replay/sanitize.ts:387-397 | A selector list becomes the first hundred of its parts between commas that are, trimmed, 1 to 2,000 allowed characters long, each with its class and id names replaced by tokens and nothing else changed |
| CssMeaning.PreludeIff | src/replay/sanitize.ts:399-406 | The head of a group is kept exactly if it begins with the word media, supports, container or layer in any case, is at most 2,000 allowed characters long and no location; secrets are written over |
| CssMeaning.DeclarationsPicked | src/replay/sanitize.ts:408-426 | The declarations of a text are the first 500 of its pieces between semicolons that read as an allowed property, their first colon and an allowed value, in order, custom names hashed |
| CssMeaning.CommentGone | src/replay/sanitize.ts:362 | A text with a comment is stripped as what stands before its first comment, closed at the first chance, followed by what stands after it, stripped |
| CssMeaning.StatementGone | src/replay/sanitize.ts:363 | The same of the first import, charset or namespace statement, up to and with its semicolon, or up to a brace |
| CssMeaning.TokenIs | src/replay/sanitize.ts:349-352 | A token in any case becomes itself in lower case, and any other text `rr-` and the eight digits that read back as its hash |
| CssMeaning.TokensWritten | src/replay/sanitize.ts:231-233 | A class or id list becomes the tokens of its first 20 words, in order, with spaces between them |
| CssMeaning.TrimIff | src/replay/sanitize.ts:371 | What is trimmed is the text between the white space at both ends |
| CssMeaning.SpaceIff | src/replay/sanitize.ts:232 | White space is that of ECMAScript: the 25 white space characters and line terminators |
| CssMeaning.CleanIs | src/replay/sanitize.ts:361-363 | A sheet is cut at 100,000 characters, then its comments go, then its statements |
| CssMeaning.HashVectors | src/replay/sanitize.ts:462-469 | The hash of the empty text and of `a` are the published values of 32-bit FNV-1a |
| ReplaySanitizer.SanitizeAttributes | src/replay/sanitize.ts:192-229 | The loop writes exactly the cleaned attributes in order |
| ReplaySanitizer.SanitizeValue | src/replay/sanitize.ts:113-190 | The walk with the shared node counter gives the recursive definition's output or its first error, and leaves the counter at the count |
| ReplayPrivacy.CloneValue | sdk/src/replayPrivacy.ts:106-219 | The loops of the browser pass give the recursive definition's copy |
| ReplayBlocking.ServerBlocksIff | src/replay/sanitize.ts:128-176 | An element with attributes leaves the server pass as the marked, childless, textless `div` exactly if two of its attribute names collide, it carries one of the four blocking attributes or the class rr-block, is an input of a sensitive type or autocomplete value, matches a block selector, or its tag runs code; told on the recorded entries |
| ReplayBlocking.BrowserBlocksIff | sdk/src/replayPrivacy.ts:127-209 | The same of the browser pass, for elements with a tag that is not empty |
| ReplayText.ServerWrites | src/replay/sanitize.ts:128-190 | Every string that the server reaches, anywhere in a tree, is written as its key and the objects above it say: as a style sheet, the placeholder, bullets, its shape when one of them forces a mask (input, textarea, contenteditable, source 5, the mask attribute, class or selectors), or redacted |
| ReplayText.BrowserWrites | sdk/src/replayPrivacy.ts:106-219 | The same of the browser pass |
| ReplayAttributes.ServerElement | src/replay/sanitize.ts:151-229 | An element that the server does not block keeps its tag if it is a structural one, else `div`, and of its attributes exactly the allowed ones, each in the form of its kind, and masked below a forced mask |
| ReplayAttributes.BrowserElement | sdk/src/replayPrivacy.ts:145-195 | The same of the browser pass, which keeps every tag |
| ReplayAttributes.KeepsSetIff | src/replay/sanitize.ts:257-267 | A recorded style declaration is kept exactly if its property and value read back from an allowed declaration, with its priority only if important |
| ReplayAttributes.KeepsRemoveIff | src/replay/sanitize.ts:269-275 | A removed style property is kept exactly if it is an allowed one or a custom one, which is hashed |
| ReplayLimits.RefusesIff | src/replay/sanitize.ts:113-126 | The server refuses a value exactly if the part that it walks is nested more than 40 deep, holds more than 50,000 objects, a list of more than 50,000 items or a string of more than 100,000 units, and else counts exactly the objects it walked through |
| ReplayLimits.ServerKeysIff | src/replay/sanitize.ts:151-188 | The server writes exactly the keys of an object that could not reach a prototype and are no event handlers, but for style records that it empties |
| ReplayLimits.BrowserKeysIff | sdk/src/replayPrivacy.ts:146-217 | The same of the browser pass |
| ReplayMasking.MaskedIff | src/replay/sanitize.ts:471-473 | Two texts mask alike exactly when they have the same length and the same white space in the same places |
| ReplayMasking.NonInterference | src/replay/sanitize.ts:113-190 | Recordings that agree on structure, tags, attributes and style text, and elsewhere differ only in masked text of the same shape, are sanitized to the same output or fail alike |
| ReplayMasking.TwoPassNonInterference | sdk/src/replayPrivacy.ts:106-219 | Recordings that differ only in text that the browser masks leave the browser alike, so that the server writes the same or fails alike |
| ReplayWalk.MaskedLeafKept | sdk/src/replayPrivacy.ts:106-126 | Text that the browser masked, anywhere in a tree, stands unchanged at the same place in what the server writes, whatever the two policies are, unless the server decides an entry above it as a whole |
| ReplayTwoPass.MaskedTextKept | src/replay/sanitize.ts:235-248 | Text that the browser masked is a fixed point of the server pass, whatever the two policies are |
| ReplayTwoPass.MaskedStringKept | sdk/src/replayPrivacy.ts:108-120 | In masked mode the server writes every string outside style sheets just as the browser did |
| ReplayTwoPass.TokensKept | sdk/src/replayPrivacy.ts:156-166 | A class or id attribute that the browser wrote is written again unchanged by the server: no token is hashed twice |
| ReplayTwoPass.NeutralisedStays | sdk/src/replayPrivacy.ts:128-209 | An object that the browser blocked or neutralised leaves the server pass as the same marked, childless, textless `div`, under any server policy and in any context; attributes that were no object stay none, and without a tag name the marker may be masked |
| UtcCalendar.CivilOfDay | src/services/retentionPolicy.ts:8-22 | Day numbers and valid dates correspond one to one (section 21.4.1 of ECMA-262) |
| UtcCalendar.Epoch | src/services/retentionPolicy.ts:8-22 | Day 0 is 1 January 1970, day 11,016 is 29 February 2000, and 1900 has no such day |
| UtcCalendar.MonthLengths | src/services/retentionPolicy.ts:8-22 | The lengths of the twelve months, in leap years and in others |
| UtcCalendar.LandsOnWantedMonth | src/services/retentionPolicy.ts:8-22 | The result lies exactly `months` months earlier if and only if the target year is not one of 0 to 99; then on the greatest day of that month not after the original day, time of day kept |
| UtcCalendar.SubtractNone | src/services/retentionPolicy.ts:8-22 | Subtracting no months is the identity exactly outside the years 0 to 99 |
| UtcCalendar.SubtractMonotone | src/services/retentionPolicy.ts:12-21 | Later dates never land on earlier days; later instants land earlier exactly when the clamp puts two dates on one day and the earlier one has the later time of day |
| UtcCalendar.ClampSwapsInstants | src/services/retentionPolicy.ts:12-21 | Noon of 30 March and midnight of 31 March 2026 land, one month back, at noon and at midnight of 28 February: in the other order |
| UtcCalendar.CenturyMoved | src/services/retentionPolicy.ts:13-21 | One month before 15 January of the year 100 is computed as 15 December 1999 |
| UtcCalendar.SubtractAntitone | src/services/retentionPolicy.ts:8-22 | More months land strictly earlier |
| UtcCalendar.SubtractTwice | src/services/retentionPolicy.ts:8-22 | Two subtractions land no later than one of the sum, and on the same instant exactly when the month in between has the day the single one lands on |
| UtcCalendar.ParseMonthsLater | src/dates.ts:15-24 | The overflowing relative date is later by exactly max(0, day - last day) days |
| ContractHistory.CanonicalTwice | src/services/contracts.ts:471-504 | Canonicalising a contract again changes nothing |
| ContractHistory.DeclarationTwice | src/services/contracts.ts:246-253 | Canonicalising a declaration again changes nothing |
| ContractStore.Store.ApplyDeclaration | src/services/contracts.ts:107-179 | The loop over the changes gives the step function's tables, and every refusal leaves them alone |
| ContractStore.Store.UpdateContract | src/services/contracts.ts:357-385 | Exactly one row is replaced, under the next revision number, with its creator kept, and one revision is appended |
| ContractHistory.OthersUntouched | src/services/contracts.ts:155-162 | A contract that the declaration does not name keeps its row and its history |
| ContractHistory.HistoriesInStep | src/services/contracts.ts:335-385 | On every sequence of applies each history is revisions 1 to n, only the first a creation, the last snapshot and hash those of the current row |
| ContractReapply.RevisionsAppendOnly | src/services/contracts.ts:405-421 | No apply rewrites or removes a revision |
| ContractReapply.NoopIffNoFilters | src/services/contracts.ts:88-98 | Right after an apply, a contract of the declaration diffs as noop exactly when it has no target filters, else as update, because the jsonb column returns filter keys in another order |
| ContractReapply.ReapplyIff | src/services/contracts.ts:146-162 | Applying the same declaration again is refused without confirmation, and with it changes the tables, exactly when some contract has target filters; otherwise it changes nothing |
| ContractReapply.FilteredNeverSettles | src/services/contracts.ts:88-98 | A named declaration with one filter, applied to empty tables, shows an update in its very next diff and asks for confirmation |
| ContractReapply.AppliesWhatWasShown | src/services/contracts.ts:138-162 | A request that expects the revision its diff was produced with applies exactly the changes that were shown or leaves the tables alone; it is a conflict exactly when the revision has changed |
| ContractMeaning.AppliedRecords | src/services/contracts.ts:471-504 | After a request that applied, the row and the last revision of every declared contract hold its terms and status, its guardrails as an ascending permutation, its filters as a multiset up to the order of values, and its references up to empty links and the case of the sha |
| ContractMeaning.AppliedRevision | src/services/contracts.ts:335-385 | A contract that was declared is created as revision 1, left alone if it recorded the same already, or updated under the next number with the action archived or updated |
| ContractMeaning.DecideIff | src/services/contracts.ts:107-153 | A request applies exactly if it is valid, expects the current revision or none, and is confirmed or would revise no contract; each refusal has its own exact condition |
| ContractMeaning.ChangesInOrder | src/services/contracts.ts:80-105 | The changes of an applied request are one for each declared contract, in the order of their keys |
| ContractMeaning.CurrentIs | src/services/contracts.ts:506-508 | The current revision is taken of the canonical form of every row, in the order of their keys |
| Evaluation.EvaluateRelease | src/services/evaluation.ts:111-202 | Pushing the blockers one by one gives the defined blockers, readiness, trust and proposal |
| Evaluation.ReadyIff | src/services/evaluation.ts:133-182 | Evidence is ready exactly when the primary metric was measured, seen, fully registered, at least 90% covered and large enough, all guardrails were measured, the contract is valid and the window is over |
| Evaluation.RollbackIff | src/services/evaluation.ts:247-265 | Rollback is proposed exactly for a movement of at least the meaningful effect against the declared direction, on ready evidence without guardrail regression |
| Evaluation.KeepIff | src/services/evaluation.ts:247-265 | Keep is proposed exactly for a movement of at least the effect in the declared direction, or within the range, on ready evidence without guardrail regression |
| Evaluation.FixIff | src/services/evaluation.ts:247-265 | Fix is proposed exactly on ready evidence when a guardrail fell by more than the effect, or the primary metric moved by less than the effect, or left its range |
| Evaluation.InconclusiveIff | src/services/evaluation.ts:254-256 | Nothing is concluded exactly when the evidence is not ready or the baseline of the primary metric is zero |
| Evaluation.BlockersIff | src/services/evaluation.ts:111-182 | Each blocker is there exactly for its reason: an unavailable metric, no observations, unregistered events, low coverage, a small sample, an open window, or an issue of the contract |
| Evaluation.TrustedIff | src/services/evaluation.ts:477-485 | Evidence is trusted exactly when no blocker is a failed evaluation or has a part that tells of distrust |
| Decisions.DecisionTables.PersistEvaluation | src/services/evaluation.ts:348-397 | New evidence adds one evidence row, one proposed decision and its first revision; known evidence changes nothing |
| Decisions.DecisionTables.ReviseDecision | src/services/decisions.ts:122-206 | A review gives the step function's tables and reply, finalising an observed release on approval |
| DecisionChain.RunChained | src/services/decisions.ts:166-194 | On every run a decision's revisions are 1 to n, each starts from the snapshot before, the last is the row, and nothing follows an approval |
| DecisionChain.ApprovedAbsorbs | src/services/decisions.ts:141-146 | Nothing changes an approved decision or its history |
| DecisionChain.AcceptedNeedsEvidence | src/services/decisions.ts:157-165 | On every run an accepted keep, fix or rollback stands on ready and trusted evidence |
| DecisionChain.ProposalsApprovable | src/services/decisions.ts:152-165 | On every run a decision can be approved exactly while it is proposed, and then accepts the proposed outcome |
| Decisions.DecisionTables.TransitionRelease | src/services/releases.ts:201-249 | A transition gives the step function's rows, revision and reply: unknown release, move that is not allowed, invalid contract, or the move |
| DecisionChain.RunReleasesChained | src/services/releases.ts:273-296 | On every run the log of a release is its registration and then allowed moves, each from where the one before ended, the last one at the row: four revisions at most |
| DecisionChain.DecidedIff | src/services/releases.ts:273-278 | On every run a release is decided exactly if some step, while it was observed, approved a decision about it or moved it directly |
| DecisionChain.DecidedOnce | src/services/decisions.ts:208-232 | No two steps of a run decide the same release |
| DecisionChain.DecidedWithoutApprovalIff | src/services/decisions.ts:208-232 | A decided release has no approved decision about it exactly if it was moved directly and no decision about it was ever approved |
| DecisionChain.DecidedUnreviewed | src/services/releases.ts:273-278 | The run from planned over deployed and observing to decided without a single decision |
| DecisionSteps.RunFollows | src/services/decisions.ts:122-232 | On every run, what the last step did to releases, evidence, decisions and their logs: only evidence of a release that was deployed and that is new is recorded, a review writes the next revision with its actor and rationale, and only an approval or an edit finalises an observed release |
| DecisionSteps.MoveIff | src/services/releases.ts:201-278 | The six moves of a release, and the exact condition of every answer to a move |
| DecisionSteps.ReviewIff | src/services/decisions.ts:134-165 | The exact condition of every answer to a review: unknown, reviewed already, approved already, a directional outcome without ready and trusted evidence, or accepted |
| Actions.ActionTables.PrepareAction | src/services/actions.ts:72-107 | A known idempotency key changes nothing and tells whether the frozen payload matches; a new one adds a prepared action and its audit entry |
| Actions.ActionTables.ApproveAction | src/services/actions.ts:147-195 | The approval transaction: its verdict for every refusal, and on success the row, the audit entry and the started execution |
| Actions.ActionTables.ExecuteNext | src/services/actions.ts:249-311 | One query of a running execution, with success and failure of each, is the step function |
| ActionGate.ApprovalGate | src/services/actions.ts:164-189 | Under every interleaving an action is approved, executed or failed exactly if its own fingerprint was confirmed; whatever is running was confirmed; a confirmed action is supported and its decision approved |
| ActionGate.RejectedIsFinal | src/services/actions.ts:212-218 | A rejected action stays rejected, is never running, and never gets an executed audit entry, on every continuation |
| ActionExecuted.ExecutedFinalIff | src/services/actions.ts:282-308 | An executed action stays executed on every continuation exactly if no execution of it can still write its status; the one that wrote `executed` can, until its audit entry is in |
| ActionExecuted.SingleExecutionFails | src/services/actions.ts:282-308 | The run of one approval on which `executed` is written, its audit entry fails, and `failed` is written over it |
| ActionExecuted.SecondExecutionFails | src/services/actions.ts:167-194 | The run of two approvals on which the first execution writes `executed` and the second one `failed` over it |
| ActionSteps.RunFollows | src/services/actions.ts:53-311 | On every run, what the last step did to the actions, the audit log, the executions and the confirmations, for success and failure of every query |
| ActionSteps.ApprovalIff | src/services/actions.ts:147-180 | The exact condition of every answer to an approval: unknown, another fingerprint, executed, rejected, not supported, no approved decision, or accepted |
| BrowserAnalytics.Analytics.TickClock | sdk/src/browser.ts:326-333 | The in-place clock update is the step function: foreground grows by the gap, at most 30 s, only while active |
| BrowserAnalytics.Analytics.Flush | sdk/src/browser.ts:335-355 | A flush counts the next sequence number and emits the cumulative snapshot under the identity the page was opened with |
| BrowserAnalytics.Analytics.ViewPage | sdk/src/browser.ts:393-403 | Navigation closes the old page and opens the new one in the old or a new session |
| BrowserAnalytics.Analytics.HeartbeatTick | sdk/src/browser.ts:477-480 | A timer tick rolls a long page over or sends a snapshot, never both |
| EngagementChain.SnapshotsFormChains | sdk/src/browser.ts:326-420 | On every run each page view id has one page.viewed first, then snapshots 1, 2, 3 and so on with non-decreasing counts, foreground within elapsed within seven days, all under the actor and session of the page view, whatever was identified or rotated meanwhile |
| EngagementChain.HighestSequenceWins | src/stores/postgresEventStore.ts:961-975 | Of any received subset, in any order and with repetitions, the snapshot with the highest sequence covers all that arrived, and is the last one when that arrived |
| EngagementChain.ReceiversAgree | src/stores/postgresEventStore.ts:961-975 | Two receivers that both got the last snapshot agree, whatever else they lost, repeated or reordered |
| EngagementClock.SnapshotsMeasureForeground | sdk/src/browser.ts:326-355 | On every run each snapshot says, rounded and cut at the elapsed time, the sum of min(30,000 ms, gap) over exactly the intervals between readings of the clock during which its page was in the foreground |
| EngagementClock.ScrollIff | sdk/src/browser.ts:315-324 | The scroll percentage is 100 for a document that fits the window, else the rounded share, cut to 0 and 100 |
| EngagementHandlers.RunFollows | sdk/src/browser.ts:326-480 | On every run, for each handler: which readings of the clock it takes and whether the page was in the foreground before each, which snapshot and page view it emits with which counts and at what time, and whether the page stays, in the foreground or not, is dropped or replaced |
| EngagementHandlers.RunIdentifies | sdk/src/browser.ts:227-275 | On every run, for each step, who the visitor and the actor are and whether the session is kept or begins anew: exactly when the last activity is longer ago than a session lasts |
| BrowserAgreement.EmittedAcceptedIff | src/services/browserAnalytics.ts:492-567 | Every event the tracker emits on any run is accepted by the validator exactly if its route is safe and in the vocabulary, its page view id opaque, its zone name not cut right after a slash, and its counters stay below 2^31 |
| BrowserAgreement.LongZoneRefused | sdk/src/browser.ts:671-678 | Were a browser to report a zone of 65 characters whose 64th is a slash, it would send it cut and the validator would refuse the page view |
| BrowserRules.ValidIff | src/services/browserAnalytics.ts:492-567 | Exactly which events the validator accepts, with the keys, alphabets, lengths and ranges of every property written out |
| BrowserRules.WireIs | sdk/src/browser.ts:296-313 | What an event says under a key: its own property, else its context, else the marker or its route, else where the visit came from |
| BrowserRules.OwnIs | sdk/src/browser.ts:346-354 | A page view carries its page id, an engagement event also its six counts, each under its own name |
| BrowserRules.SelectedContext | sdk/src/browser.ts:279-293 | Exactly the selected context properties are written, each with its own value |
| BrowserRules.AgentIs | sdk/src/browser.ts:643-664 | Device, browser and system are told apart by what the user agent names, one of them before the other |
| BrowserRules.PlaceIs | sdk/src/browser.ts:666-678 | A primary language code and a zone name are written, the zone cut at 64 characters, and anything else is unknown |
| BrowserRules.SizeIff | sdk/src/browser.ts:635-641 | The five widths of the size buckets |
| BrowserRules.ReasonIs | sdk/src/browser.ts:128-136 | The eight reasons of a snapshot as they are written |
| LegacyProperties.NormalizeLegacyBrowserProperties | src/services/browserAnalytics.ts:446-490 | Editing the properties in place gives the defined result, and the flag tells whether anything was legacy |
| LegacyProperties.NormalizedIsSafe | src/services/browserAnalytics.ts:446-490 | A legacy payload keeps no raw path and is not edited again; promoted, the validator can only object to something other than marker, session and route; not promoted, it keeps no browser key and is accepted unless it is an engagement event |
| BrowserRules.NormalizedIs | src/services/browserAnalytics.ts:446-490 | What a legacy payload holds under every key, promoted to a page event or not |
| BrowserRules.LegacyRouteIff | src/services/browserAnalytics.ts:417-427 | The trusted route that a raw path names, after a slash or not; else the route other, if it is trusted; else none |
| BrowserRules.RawLandingIs | src/services/browserAnalytics.ts:456-459 | Where a legacy visit landed is the first of its landing path, its page path and, for a page view, its path that holds something |
| BrowserRules.LegacyIff | src/services/browserAnalytics.ts:452-454 | A payload is edited exactly if it has a page path or a landing path |

## Left out

- Timers, delays and scheduling: when a flush, a retry or a heartbeat happens is any step of a run.
- HTTP, SQL text, Postgres locks, the DOM, rrweb, storage and Web Crypto: they are outcomes, inputs or atomic steps.
- Replay start, withdrawal and its races, and the failure of the checksum of a chunk.
- Entity upserts are conserved by the SDK client like events, but have no batch id: the storage theorems are about events only.
- The `failed` and `processing` states of a batch claim, which the store never writes, and its advisory lock.
- Feature flag evaluation in the SDK client.
- `onScroll` milestones and `captureSections` of the interaction observer: they only decide which events are signalled.
- Non-integral and not-a-number options of the clients.
- Numbers inside JSON are the text that `JSON.stringify` prints; a Date, which prints as an empty object, and not-a-number, which prints as null, are not modelled.
- Comments and import statements are stripped from a style sheet in one pass, as in the source; a second pass may find new ones.
- Cycles in replay values, which an inductive value cannot have, and numbers that are not finite.
- The envelope checks of `sanitizeReplayEvents` (event types, timestamps, chunk size) around the walk.
- ReplayWalk.MaskedLeafKept: says nothing of text below an entry that the server decides as a whole (attributes, style declarations, what a blocked node drops).
- ReplayMasking.NonInterference: attributes and style text must agree, as they are kept in part and not masked by shape.
- The semantic checks of a contract against the metric, property, flag and experiment registries are one verdict per request.
- UtcCalendar.LandsOnWantedMonth: times beyond the range of a Date, which become invalid there, are computed on.
- Idempotency keys and provenance of releases, and their evaluation schedule; of a release the status and its revisions are modelled.
- The status test at the start of an evaluation: an evaluation that ends may find its release moved on, so it is accepted for every release that has been deployed.
- The effects that an execution has outside its action row: flags, schedules and webhooks.
- A route mapper that throws or returns an unsafe key, and storage that cannot be cleared: both make the browser tracker throw.
- The acquisition values themselves, which another validator checks.
- Attention ranking, sampling, funnels, country lookup, cursors and configuration: arithmetic or plumbing that would only add easy members.
