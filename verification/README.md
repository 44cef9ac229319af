# Trading assistant: spending, notes, voice and input handling

A Dafny model of the parts of the repository that must not go wrong under interleaving, crashes or odd input,
with what their code is for proved for all inputs and all runs.

* **Voice spending ledger** (`VoiceConfig`, `VoiceLedger`, `VoiceInvariants`, `VoiceTheorems`, `VoiceHistory`,
  `VoiceBudget`, `VoiceOverrun`, `VoiceTokens`, `VoiceAdmissions`, `VoiceExact`, `VoiceSettlement`, `VoiceDatabase`).
  A session reserves its worst case, admits audio, responses, tools, reasoning and embedding calls against caps,
  settles from provider receipts, and is closed or swept, with late receipts racing both. Each database transaction
  is a transition of one value; a run is any sequence of transactions of any number of sessions. The class
  `Database` holds the two tables, is proved against the transitions, and keeps its contents reachable.
* **Evaluation spending guard** (`SpendingGuard`). A write-ahead budget as a machine with one step per statement,
  so that a crash may fall between any two of them and any `persist` may raise, and the object whose methods
  follow that machine.
* **Capture and note history** (`Capture`, `CaptureTheorems`, `CaptureRuns`, `CaptureProvenance`,
  `CaptureExact`, `CaptureService`). Prepare, a slow planner, then apply, interleaved with edits and undo of any
  number of owners.
* **Live delegation** (`LiveDelegation`, `LiveTheorems`, `LiveSession`) and the chunker of results
  (`ContextParts`). One step is the code between two awaits.
* **Parsers and printers** (`CsvImport` and `CsvPlain`, section 2 of RFC 4180; `ConfirmationIdentity`).
* **Posture refresh** (`PostureRefresh`), **price levels** (`PriceLevels`), **order validation**
  (`OrderValidation`).
* `Options`, `Sums` and `Utf8` hold missing values, finite sums, and the white space and size of text.

How the source is read: money and prices are exact reals; `uuid5` identifiers and digests are injective; a
transaction under its row and organization locks is atomic; time is an argument of each step; the result of a
query that is not modelled (a quota row, a search for candidate entries, a linked trade) is an argument too.

Three properties hold only under a condition, and the condition is part of the result. A CSV table does not survive
printing and parsing when its header line makes the reader detect another delimiter (`RoundTripIff`,
`SemicolonHeaderFails`). A Live provider may report more seconds than were reserved: the code records and flags
such a receipt, and spend stays within the hold if no receipt is flagged (`InsideMeansCovered`), a duration exactly
then (`DurationWithinHoldIff`); `OverrunReachable` is a run that exceeds it. A `finish` whose `persist` raises leaves
its case open with the unused attempts already returned: a later call keeps the attempts charged exactly when it
leaves such a case alone (`StrandedChargeIff`), as the evaluation does by stopping; `StrandedRequestIff` and
`StrandedFinishIff` say exactly when a request or a second `finish` leaves the persisted report short otherwise, and
`StrandedRequestUncovered` is such a run.

## Model

| member | source | states |
|---|---|---|
| `VoiceBudget.BudgetNeverExceeded` | backend/src/app/agent_voice/accounting.py:65-168 | in every state of every interleaving of any number of sessions, the holds of all rows ever created under one organization and budget reference, whatever their status, add up to at most the approved budget |
| `VoiceBudget.TotalSpendNeverExceedsBudget` | backend/src/app/agent_voice/accounting.py:65-168 | over every run, what all those sessions together admitted at worst case stays within the approved budget, plus only what a provider measured beyond a reserved Live duration |
| `VoiceBudget.ReservationDominatesSpend` | backend/src/app/agent_voice/config.py:79-113 | in every reachable state a session's priced responses, priced embeddings, reasoning attempts at worst case and admitted audio (or measured duration) are covered by its hold plus its overrun; there is an overrun if and only if the session is Live and its receipt was flagged as outside the reservation |
| `VoiceOverrun.DurationWithinHoldIff` | backend/src/app/agent_voice/live_accounting.py:136-168 | in every reachable state a Live duration is within the voice part of the hold if and only if no receipt is recorded or it was flagged as inside the reservation, and it never exceeds that part plus the overrun |
| `VoiceOverrun.InsideMeansCovered` | backend/src/app/agent_voice/live_accounting.py:136-168 | without a receipt flagged as outside, everything a session admitted is within its hold |
| `VoiceOverrun.TotalSpendWithinBudget` | backend/src/app/agent_voice/accounting.py:65-168 | over every run, if no session of the organization and reference has such a receipt, they together spend at most the approved budget |
| `VoiceOverrun.OverrunReachable` | backend/src/app/agent_voice/live_accounting.py:136-168 | a concrete run (reserve, start, one final receipt of more seconds than reserved) that takes the spend beyond the hold |
| `VoiceBudget.ResponsesBounded` | backend/src/app/agent_voice/accounting.py:202-297 | distinct response events of a session number at most its admitted responses and each costs at most the worst case, so together at most the response part of the hold; a Live session has none |
| `VoiceBudget.EmbeddingsBounded` | backend/src/app/agent_voice/accounting.py:352-451 | one priced embedding event per admitted key and at most one key per turn, so together at most the embedding part of the hold |
| `VoiceBudget.VoiceCostBounded` | backend/src/app/agent_voice/accounting.py:193-200 | admitted audio bytes at the approved token rate, or the Live duration, stay within the voice part of the hold plus the flagged overrun |
| `VoiceAdmissions.LedgerRecordsAdmissions` | backend/src/app/agent_voice/accounting.py:193-397 | in every state of every run the ledger records exactly what the session's accepted actions added: bytes of audio, responses, tool calls, reasoning attempts and embeddings |
| `VoiceAdmissions.AcceptedIffWithinCap` | backend/src/app/agent_voice/accounting.py:193-397 | at any point of any run, an admission on an open, unexpired session is accepted if and only if it meets its own conditions and, added to what was accepted before, stays within what was approved (48000 bytes per approved second, the approved responses, turns and attempts) |
| `VoiceAdmissions.HoldCoversAdmissions` | backend/src/app/agent_voice/config.py:79-113 | at every point of every run the hold covers everything the accepted actions admitted, each at its worst case, and for a Live session the reserved seconds as well |
| `VoiceAdmissions.SpendWithinAdmissions` | backend/src/app/agent_voice/config.py:79-113 | at every point of every run the hold plus a Live overrun covers the priced events, the accepted attempts at worst case and the accepted audio, read off the actions, or the measured duration |
| `VoiceAdmissions.ReleasedMeansSettled` | backend/src/app/agent_voice/accounting.py:453-476 | a realtime row is released only if the accepted actions admitted no audio, reasoning or embedding, and every accepted response is settled with a price |
| `VoiceAdmissions.AcceptedEffect` | backend/src/app/agent_voice/accounting.py:190-397 | what each accepted admission changes, field by field, and that a refused or repeated one changes nothing |
| `VoiceAdmissions.OthersIff` | backend/src/app/agent_voice/live_accounting.py:58-87 | when activation, binding, acknowledgement, receipt of reasoning, Live start and transcripts are accepted, and when a call or fragment is only answered again |
| `VoiceAdmissions.RefusalExact` | backend/src/app/agent_voice/accounting.py:193-397 | the reason of a refused admission on an open, unexpired session is the first of its conditions that fails |
| `VoiceAdmissions.EmbeddingAttemptIff` | backend/src/app/agent_voice/accounting.py:352-397 | an embedding attempt is accepted if and only if its receipt, model, deadline, size and quota hold and its admission is |
| `VoiceAdmissions.NothingAfterDeadline` | backend/src/app/agent_voice/accounting.py:153-184 | the deadline fixed by the reserve lies within its seconds and every receipt it relies on, stays for the rest of the run, and no action on the session succeeds at or after it |
| `VoiceExact.HoldExact` | backend/src/app/agent_voice/config.py:79-113 | the hold of either kind of session in plain arithmetic |
| `VoiceExact.LiveHoldExact` | backend/src/app/agent_voice/live_config.py:98-102 | the Live hold for any number of seconds in plain arithmetic |
| `VoiceExact.ReserveIff` | backend/src/app/agent_voice/accounting.py:65-168 | a reserve is accepted if and only if the identifier is new and all six conditions hold on the sums over the stored rows and events; it adds one pending row |
| `VoiceExact.ReserveReason` | backend/src/app/agent_voice/accounting.py:83-138 | the reason of a refused reserve is the first of the conditions that fails, in the order of the checks |
| `VoiceExact.ReserveKeepsQuotas` | backend/src/app/agent_voice/accounting.py:105-136 | after every accepted reserve usage and unreleased holds together are within the monthly cost limit, and in tokens within the monthly token limit |
| `VoiceExact.ResponseDoneIff` | backend/src/app/agent_voice/accounting.py:222-297 | a response receipt is accepted if and only if the first admission bound to its id is unsettled; it settles that one at exactly input and output at the dearer rates, or as unknown outside the ceilings |
| `VoiceSettlement.EmbeddingDoneIff` | backend/src/app/agent_voice/retrieval.py:77-110 | an embedding result is accepted if and only if its attempt is still open; it is priced exactly when every part of the validity test holds |
| `VoiceSettlement.SettledEventsExact` | backend/src/app/agent_voice/accounting.py:222-451 | in every state of every run each response and embedding event was left by one accepted receipt and carries exactly its price and tokens |
| `VoiceSettlement.LiveUsageIff` | backend/src/app/agent_voice/live_accounting.py:89-168 | a Live receipt is recorded if and only if it is well formed, in order and from the started session; it leaves exactly the reported seconds and their price |
| `VoiceSettlement.LiveUsageReason` | backend/src/app/agent_voice/live_accounting.py:89-133 | the reason of a refused Live receipt is the first of its conditions that fails; an exact copy of a final receipt is answered again |
| `VoiceSettlement.CloseIff` | backend/src/app/agent_voice/live_accounting.py:170-196 | closing releases a row if and only if its spend is fully known, and accounts exactly nothing or the measured duration |
| `VoiceSettlement.SweepIff` | backend/src/app/agent_voice/reservations_sweep.py:44-148 | the sweep closes a row at its whole hold if and only if it is a started, unfinished Live row without secondary work, past its deadline and margin; every other row and event stays |
| `VoiceBudget.UnknownSpendStaysCounted` | backend/src/app/agent_voice/reservations_sweep.py:44-148 | in every interleaving of usage, close, sweeps and late receipts: while any spend of a session is unknown, what `reserve` counts for it is at least the whole hold, and once seconds are recorded at least seconds times rate |
| `VoiceBudget.QuotaSeesEverySession` | backend/src/app/agent_voice/accounting.py:117-131 | the two totals of the monthly check are at least the sum over the organization's sessions of what each must be counted for |
| `VoiceBudget.LiveReceiptsExact` | backend/src/app/agent_voice/live_accounting.py:89-168 | the duration event exists exactly when seconds are recorded and equals them times the rate; a finalized session has no expired-hold charge; such a charge equals the hold however often swept |
| `VoiceBudget.RealtimeReleaseJustified` | backend/src/app/agent_voice/accounting.py:453-476 | a realtime row is closed or accounted only if every admitted response is done with an event equal to its estimate, every tool is acknowledged, and no audio, reasoning or embedding was admitted |
| `VoiceTheorems.RunEvolves` | backend/src/app/agent_voice/accounting.py:170-188 | between any two moments of any run a row never disappears, its hold never changes, once shut it never reopens and admits nothing, Live seconds never decrease, a finalized receipt never changes |
| `VoiceTheorems.LiveUsageEvolves` | backend/src/app/agent_voice/live_accounting.py:99-168 | a Live receipt never lowers recorded seconds and never alters a finalized one |
| `VoiceTheorems.SweepEvolves` | backend/src/app/agent_voice/reservations_sweep.py:102-148 | the sweep changes no hold, reopens nothing and admits nothing |
| `VoiceHistory.RunGrows` | backend/src/app/agent_voice/accounting.py:193-451 | over any stretch of any run a session's ledger only grows: admissions, first bindings, settled estimates, tool bodies, acknowledgements, attempts, resolved embeddings and transcripts are never lost or rewritten |
| `VoiceHistory.ResponseReceiptOnce` | backend/src/app/agent_voice/accounting.py:222-297 | however much later in a run the same provider response is delivered again, with whatever usage, it is replayed and changes nothing |
| `VoiceHistory.EmbeddingReceiptOnce` | backend/src/app/agent_voice/accounting.py:399-451 | however much later in a run another result for a resolved embedding comes, it is replayed and changes nothing |
| `VoiceHistory.FinalReceiptOnce` | backend/src/app/agent_voice/live_accounting.py:99-168 | after a final Live receipt every receipt at any later point of a run leaves the database alone, and is accepted if and only if it is an exact copy |
| `VoiceTokens.TokenHoldDominates` | backend/src/app/agent_voice/config.py:119-128 | in every reachable state the token hold is the one reserved, and covers the tokens of all the session's events, its reasoning attempts at their ceiling and its audio at the approved rate |
| `VoiceTokens.UnknownTokensStayCounted` | backend/src/app/agent_voice/accounting.py:117-145 | in every reachable state the whole token hold is counted while any tokens of the session are unresolved, and the tokens of its events always are |
| `VoiceTokens.RunKeepsTokens` | backend/src/app/agent_voice/accounting.py:222-451 | in every state of every run each event carries at most the tokens its kind was reserved for, durations and hold charges none |
| `VoiceInvariants.RunKeeps` | backend/src/app/agent_voice/accounting.py:65-476 | every state of every run satisfies the row and event invariant: caps, first binding of provider ids, events bounded by worst cases, exact durations, hold charges and justified releases |
| `VoiceInvariants.StepKeeps` | backend/src/app/agent_voice/accounting.py:170-476 | every transaction keeps that invariant for every session, including the ones it does not touch |
| `VoiceInvariants.AdmitKeeps` | backend/src/app/agent_voice/accounting.py:193-397 | every admission (audio, response, binding, tool, reasoning, embedding, Live start, transcript) keeps its row within the caps the hold was computed from |
| `VoiceInvariants.SettleResponse` | backend/src/app/agent_voice/accounting.py:222-297 | settling a response prices the first admission bound to the provider id, exactly once |
| `VoiceInvariants.EmbeddingDoneRow` | backend/src/app/agent_voice/retrieval.py:77-110 | an embedding receipt is priced within the receipt ceiling or at zero as unresolved, for an admitted key of this session only |
| `VoiceInvariants.LiveUsageRow` | backend/src/app/agent_voice/live_accounting.py:89-168 | recording usage keeps the row invariant; a final receipt removes the expired-hold charge |
| `VoiceInvariants.CloseKeeps` | backend/src/app/agent_voice/live_accounting.py:170-196 | closing, in either kind of session, releases only what is fully known |
| `VoiceInvariants.SweepKeeps` | backend/src/app/agent_voice/reservations_sweep.py:102-148 | any sweep, repeated or not, keeps the invariant |
| `VoiceDatabase.Database.Reserve` | backend/src/app/agent_voice/accounting.py:65-168 | the locked checks in order (budget, quota, daily, feature, monthly cost, monthly tokens), then a fresh pending row; a refusal changes nothing; afterwards the holds of every organization and reference are within every budget approved for them |
| `VoiceDatabase.Database.Update` | backend/src/app/agent_voice/accounting.py:170-188 | every admission runs on an open, unexpired row and commits the changed row or nothing |
| `VoiceDatabase.Database.EmbeddingAttempt` | backend/src/app/agent_voice/accounting.py:352-397 | receipt, size and quota checks before the locked admission |
| `VoiceDatabase.Database.ResponseDone` | backend/src/app/agent_voice/accounting.py:222-297 | one response settled and one event inserted if missing; a repetition is a no-op |
| `VoiceDatabase.Database.EmbeddingDone` | backend/src/app/agent_voice/accounting.py:399-451 | one attempt resolved and one event inserted if missing; a repetition is a no-op |
| `VoiceDatabase.Database.LiveUsage` | backend/src/app/agent_voice/live_accounting.py:89-168 | the receipt checks in order, then the new live state, the duration event, and removal of the hold charge on a final receipt |
| `VoiceDatabase.Database.Close` | backend/src/app/agent_voice/accounting.py:453-476 | closed with an accounted cost when nothing is ambiguous, uncertain otherwise |
| `VoiceDatabase.Database.ChargeFullReservation` | backend/src/app/agent_voice/reservations_sweep.py:59-99 | the row is closed at its hold and the single charge event is inserted or raised to it |
| `VoiceDatabase.Database.ReleaseExpiredVoiceHolds` | backend/src/app/agent_voice/reservations_sweep.py:102-148 | the loop over candidates, in any order, equals charging every due session at once, and returns their number |
| `VoiceDatabase.Total` | backend/src/app/agent_voice/accounting.py:84-131 | the aggregate over any set of rows or events equals the mathematical sum |
| `VoiceConfig.LongestAffordableSession` | backend/src/app/agent_voice/live_config.py:76-120 | a session of n >= 1 seconds fits the smaller of ceiling and budget if and only if n is at most the computed maximum, including when that is 0 |
| `VoiceConfig.PricedWithinWorst` | backend/src/app/agent_voice/config.py:79-113 | a receipt within both token ceilings is priced between zero and the worst case |
| `VoiceConfig.WorstCasesNonNegative` | backend/src/app/agent_voice/config.py:79-113 | holds and worst cases are never negative and the Live rate is positive, for every valid receipt |
| `SpendingGuard.CrashSafe` | backend/src/app/agent_capture/provider_evaluation.py:109-181 | at every statement boundary of every run, whichever `persist` raises, the charge and the persisted bound are within the cap, and the last persisted report's bound and attempt list cover every transport that may have started |
| `SpendingGuard.ChargeExact` | backend/src/app/agent_capture/provider_evaluation.py:134-181 | between calls the charge is exactly the listed attempts, and two for an open case not yet returned; transports are exactly the attempts marked invoked; disk equals memory unless the latest `persist` raised before it replaced the file |
| `SpendingGuard.StrandedChargeIff` | backend/src/app/agent_capture/provider_evaluation.py:173-181 | after a `finish` whose `persist` raised, a call keeps the listed attempts charged if and only if it leaves an open case with unused attempts alone |
| `SpendingGuard.StrandedRequestIff` | backend/src/app/agent_capture/provider_evaluation.py:192-197 | a request sent after such a `finish` is covered by the persisted report if and only if some listed attempt was never handed to the provider |
| `SpendingGuard.StrandedFinishIff` | backend/src/app/agent_capture/provider_evaluation.py:173-181 | a second `finish` after such a `finish` leaves the started transports covered by the persisted report if and only if at least as many listed attempts were never handed to the provider as the case left unused |
| `SpendingGuard.StrandedRequestUncovered` | backend/src/app/agent_capture/provider_evaluation.py:173-181 | a concrete run in which a request sent after such a `finish` is not covered by the persisted report |
| `SpendingGuard.AnswerWithinAttempt` | backend/src/app/agent_capture/provider_evaluation.py:126-129 | an answer that passes the route and token ceilings costs at most what its attempt was charged |
| `SpendingGuard.StepKeeps` | backend/src/app/agent_capture/provider_evaluation.py:134-220 | every single statement, including a `persist` that raises before or after the file is replaced, keeps the write-ahead invariant |
| `SpendingGuard.GuardObject.BeginCase` | backend/src/app/agent_capture/provider_evaluation.py:134-149 | admitted exactly when no case is open and two more attempts fit under the cap; a refusal changes nothing |
| `SpendingGuard.GuardObject.BeforeTransport` | backend/src/app/agent_capture/provider_evaluation.py:151-171 | admitted exactly when a case is open with fewer than two attempts, the request is on the verified route within its token and prompt-size ceilings, and the attempt could be persisted; the attempt is on disk first |
| `SpendingGuard.BytesExact` | backend/src/app/agent_capture/provider_evaluation.py:159-163 | the size of a prompt is the sum of the UTF-8 sizes of its messages, however they are grouped |
| `SpendingGuard.GuardObject.StartTransport` | backend/src/app/agent_capture/provider_evaluation.py:192-197 | the attempt is marked and exactly one transport is counted, with its attempt already on disk |
| `SpendingGuard.GuardObject.SettleTransport` | backend/src/app/agent_capture/provider_evaluation.py:198-220 | the outcome is marked and persisted whether or not the provider answered |
| `SpendingGuard.GuardObject.CompleteRequest` | backend/src/app/agent_capture/provider_evaluation.py:192-220 | sent exactly when admitted; the report then gains one attempt marked admitted and invoked, received only for an answer inside the verified route and ceilings; every transport started so far is listed and bounded on disk; a refused request changes nothing |
| `SpendingGuard.GuardObject.ReturnUnused` | backend/src/app/agent_capture/provider_evaluation.py:173-179 | exactly the attempts not used are returned |
| `SpendingGuard.GuardObject.FinishCase` | backend/src/app/agent_capture/provider_evaluation.py:173-181 | the record is completed and charged for the attempts it used, the rest is returned, and disk equals memory; if its `persist` raises the case stays open |
| `CaptureRuns.RevisesOnlyUntouched` | backend/src/app/agent_capture/service.py:252-313 | a capture whose candidates were read in earlier states of a run, not necessarily all in one, writes if and only if its source is new, its plan is sure and valid, and no step since its reading touched any entry it revises, even one edited and undone back |
| `CaptureRuns.QueriesRead` | backend/src/app/agent_capture/service.py:197-226 | two candidate queries that ran in two states of a run, merged with the later one winning, are such a reading |
| `CaptureRuns.RevisionCountsChanges` | backend/src/app/agent_capture/store.py:98-127 | over every run the revision difference is the number of changing steps, so equal revisions mean the row was untouched throughout |
| `CaptureTheorems.ApplyAllOrNothing` | backend/src/app/agent_capture/service.py:252-313 | either every suggestion is written and the source recorded, or the store is exactly as before; the condition is exact |
| `CaptureTheorems.PersistExact` | backend/src/app/agent_capture/service.py:346-436 | after the checks the write loop cannot fail: each suggestion writes its own row once under distinct identifiers, and every other entry is unchanged |
| `CaptureExact.CreatedExact` | backend/src/app/agent_capture/service.py:375-424 | a new entry carries the suggestion's own category, title, summary, quotes and draft, the contributed text, at most twenty distinct tags, at revision one with no history |
| `CaptureExact.RevisedExact` | backend/src/app/agent_capture/service.py:365-424 | a revised entry carries the same on top of what it had: earlier text kept, one history snapshot more, a draft, document or trade kept when none is given |
| `CaptureExact.ContributionExact` | backend/src/app/agent_capture/service.py:360-364 | the contributed text is the cited prior messages, oldest first, and the current one, a blank line between neighbours |
| `CaptureExact.ValidPlanExact` | backend/src/app/agent_capture/service.py:315-344 | a plan is valid if and only if every suggestion quotes what the user wrote, some of it in the current contribution, targets only candidates and drafts every strategy, and no two are alike or share a target |
| `CaptureExact.AllowedExact` | backend/src/app/agent_capture/service.py:322-322 | quotes may come from the current contribution and the prior messages, a newline between neighbours |
| `CaptureExact.SuggestionErrorExact` | backend/src/app/agent_capture/service.py:325-344 | the reported error is the first fault of the suggestion in the order of the checks |
| `CaptureExact.TargetErrorExact` | backend/src/app/agent_capture/service.py:290-302 | a missing or foreign target is not found; an undone or changed one is a conflict |
| `CaptureExact.UpdateIff` | backend/src/app/agent_capture/store.py:98-127 | when a correction or undo is refused, absorbed or effective, and what it leaves in every case |
| `CaptureExact.ApplyReply` | backend/src/app/agent_capture/service.py:271-288 | every answer of apply: standing entries of a known source, a request for clarification below 0.8 confidence, nothing to save, the first error, or the written entries |
| `CaptureTheorems.ValidationExact` | backend/src/app/agent_capture/service.py:315-344 | validation passes if and only if every suggestion is supported and no two are equal up to confidence or share a target |
| `CaptureTheorems.TargetCheckExact` | backend/src/app/agent_capture/service.py:290-302 | the check under lock passes if and only if every target is owned, not undone and at its prepared revision |
| `CaptureRuns.TargetsBumpedOnce` | backend/src/app/agent_capture/service.py:365-373 | a capture that writes raises the revision of each of its targets by exactly one and of no other entry |
| `CaptureRuns.CapturedOnce` | backend/src/app/agent_capture/service.py:264-280 | once a source is recorded, every later capture of it writes nothing and answers with the entries of the first that are not undone |
| `CaptureRuns.RunKeeps` | backend/src/app/agent_capture/service.py:427-434 | in every state of every run no owner has two recorded captures of one digest, they name entries of their owner, and every entry is a version stack |
| `CaptureRuns.OwnersIsolated` | backend/src/app/agent_capture/store.py:40-51 | no edit or capture changes an entry of another owner |
| `CaptureRuns.UndoneForever` | backend/src/app/agent_capture/store.py:104-105 | an undone entry never changes again in any run |
| `CaptureTheorems.UpdateRefinesStack` | backend/src/app/agent_capture/store.py:98-127 | a correction pushes a version, undo pops to exactly the previous one or leaves an undone entry with no history, an undone entry absorbs; the revision rises by one exactly when something changed |
| `CaptureTheorems.RevisionRefinesStack` | backend/src/app/agent_capture/service.py:365-373 | a capture revision pushes a version and keeps every earlier one |
| `CaptureTheorems.UndoInvertsEdits` | backend/src/app/agent_capture/store.py:98-127 | any number of corrections and capture revisions, undone as often, restore content and history exactly |
| `CaptureTheorems.FindSourceExact` | backend/src/app/agent_capture/service.py:264-270 | the lookup finds a recorded capture of this owner and digest if and only if there is one |
| `CaptureProvenance.ProvenanceKept` | backend/src/app/agent_capture/service.py:359-401 | a capture revision keeps the whole earlier text and every source message, and adds exactly the current message and the prior messages it quotes, each once |
| `CaptureProvenance.ProvenanceOverRuns` | backend/src/app/agent_capture/store.py:117-123 | over any stretch of a run without an undo of the entry its text is only extended and no source message is lost; if no capture revised it either, text, sources and draft are unchanged, however it was corrected |
| `CaptureProvenance.StepProvenance` | backend/src/app/agent_capture/service.py:359-423 | the text, sources and draft of an entry change only by a capture that revises it or an undo of it |
| `CaptureProvenance.CitedExact` | backend/src/app/agent_capture/service.py:360-362 | the cited messages are exactly the prior ones that hold one of the quotes |
| `CaptureProvenance.DistinctExact` | backend/src/app/agent_capture/service.py:393-396 | removing repetitions keeps the same elements, none twice |
| `CaptureService.Validate` | backend/src/app/agent_capture/service.py:315-344 | the pass with growing seen-sets raises the first error of the plan and none exactly for valid plans |
| `CaptureService.CaptureStore.FindPrior` | backend/src/app/agent_capture/service.py:166-182 | a source is answered at once exactly when it was captured before, and that answer cannot fail |
| `CaptureService.CaptureStore.ReadCandidates` | backend/src/app/agent_capture/service.py:197-198 | a candidate query yields exactly its entries, each at its revision in the state it runs in |
| `CaptureService.Assemble` | backend/src/app/agent_capture/service.py:199-226 | the snapshot holds exactly the candidates of both queries, the second one deciding the revision |
| `CaptureService.CaptureStore.UpdateEntry` | backend/src/app/agent_capture/store.py:98-127 | the row in place: conflict, absorbed, refused, popped or pushed, with the version stack it leads to; an error changes nothing |
| `CaptureService.CaptureStore.CheckTargets` | backend/src/app/agent_capture/service.py:290-302 | the locking loop reports the first target that changed and none exactly when all are current |
| `CaptureService.CaptureStore.PersistPlan` | backend/src/app/agent_capture/service.py:346-436 | the write loop succeeds and records one source naming the written entries |
| `CaptureService.CaptureStore.ApplyPlan` | backend/src/app/agent_capture/service.py:252-313 | one transaction with the outcome of the specification, keeping every entry a version stack; an error leaves the store unchanged |
| `LiveTheorems.OneTurnPerFragment` | backend/src/app/agent_voice/live_service.py:234-281 | over a whole run, two messages that share a transcript fragment are the same delegation's |
| `LiveTheorems.MessagesFaithful` | backend/src/app/agent_voice/live_service.py:181-207 | in every reachable state there are at most `maximum_turns` delegations, and each message is exactly the deltas of recorded fragments in arrival order, none starting after its offset, with visible text and at most 8000 characters |
| `LiveDelegation.MessageExact` | backend/src/app/agent_voice/live_service.py:263-263 | the delegated text is exactly the chosen deltas one after another in arrival order |
| `LiveTheorems.SpeechIsCurrent` | backend/src/app/agent_voice/live_service.py:289-310 | a result is handed to speech if and only if it is within 24000 bytes, no user fragment and no interruption came after the step that captured its revision, and the session is neither muted nor closing |
| `LiveTheorems.DelegationsSerialized` | backend/src/app/agent_voice/live_service.py:234-240 | a delegation begins only after every earlier one returned, and never behind one that failed |
| `LiveTheorems.ObservedExact` | backend/src/app/agent_voice/live_service.py:244-249 | the chosen fragments are exactly the unconsumed ones that start no later than the offset, in arrival order |
| `LiveTheorems.TakenForever` | backend/src/app/agent_voice/live_service.py:274-274 | what a delegation consumed never changes |
| `LiveTheorems.InterruptionGrows` | backend/src/app/agent_voice/live_service.py:166-171 | the interruption counter is unchanged between two states if and only if no user fragment and no interruption came between them |
| `LiveTheorems.RunKeeps` | backend/src/app/agent_voice/live_service.py:154-207 | unique fragment identifiers, disjoint messages, consumed fragments accounted for, counted and serialized delegations in every state of every run |
| `LiveSession.Live.HearTranscript` | backend/src/app/agent_voice/live_service.py:154-166 | a fragment is registered exactly when the session is ready and open, its interval is ordered and its identifier new |
| `LiveSession.Live.RecordTranscript` | backend/src/app/agent_voice/live_service.py:167-171 | the fragment becomes last in arrival order and supersedes running results |
| `LiveSession.Live.InterruptResponse` | backend/src/app/agent_voice/live_service.py:109-119 | an interruption mutes the output and supersedes running results |
| `LiveSession.Live.SessionStarted` | backend/src/app/agent_voice/live_service.py:140-153 | a session becomes ready once, and only with the configuration asked for |
| `LiveSession.Live.RequestClose` | backend/src/app/agent_voice/live_service.py:318-326 | a close request starts the closing, once and for all, and keeps the invariant |
| `LiveSession.Live.ResumePlayback` | backend/src/app/agent_voice/live_service.py:127-131 | resuming unmutes the output and changes nothing else |
| `LiveSession.Live.HearReply` | backend/src/app/agent_voice/live_service.py:154-166 | a reply fragment is remembered but delegates and supersedes nothing |
| `LiveSession.Live.DelegationCreated` | backend/src/app/agent_voice/live_service.py:181-207 | a delegation is queued exactly when valid, new and under the turn cap |
| `LiveSession.Live.Observe` | backend/src/app/agent_voice/live_service.py:244-249 | the comprehension yields exactly the unconsumed fragments up to the offset |
| `LiveSession.Live.ConsumeFragments` | backend/src/app/agent_voice/live_service.py:263-274 | the message is the chosen deltas in order; a blank or oversized one delegates and consumes nothing, otherwise exactly the chosen fragments are consumed |
| `LiveSession.Live.BeginDelegation` | backend/src/app/agent_voice/live_service.py:234-263 | superseded or closing ends it; without eligible text it listens; otherwise the message is exactly the unconsumed fragments up to the offset, in arrival order |
| `LiveSession.Live.WakeDelegation` | backend/src/app/agent_voice/live_service.py:252-263 | after the wait the message is exactly the unconsumed fragments, and there is none if any fragment belongs to a later request |
| `LiveSession.Live.ResultReturned` | backend/src/app/agent_voice/live_service.py:297-310 | spoken exactly when current, unmuted, open and within the context cap |
| `ContextParts.Chunk` | backend/src/app/agent_voice/live_protocol.py:38-49 | lossless and in order, every part nonempty and at most 480 UTF-8 bytes, no split within the bound has fewer parts, and content within 24000 bytes gives at most 51 |
| `ContextParts.GreedyMinimal` | backend/src/app/agent_voice/live_protocol.py:38-49 | a split in which no part could take the next character has the fewest parts of all splits within the bound |
| `ContextParts.GreedyDense` | backend/src/app/agent_voice/live_service.py:299-310 | all parts but the last carry more than 476 bytes, which bounds the number of parts of a capped result |
| `ConfirmationIdentity.FooterRoundTrip` | backend/src/app/agents/confirmation_identity.py:68-108 | for every identity and every preceding text that is empty or ends in a newline, whatever earlier blocks it holds, parsing the text with the printed footer returns exactly that identity |
| `ConfirmationIdentity.BlockGrammar` | backend/src/app/agents/confirmation_identity.py:18-33 | the deterministic matcher finds a block at a position if and only if the regular expression, with every repetition left open, derives it there, with the same end and groups |
| `ConfirmationIdentity.FormatExact` | backend/src/app/agents/confirmation_identity.py:68-86 | the printed block is the marker, seven labelled lines in this order, the end marker and the closing sentence, one newline between neighbours |
| `ConfirmationIdentity.PatternExact` | backend/src/app/agents/confirmation_identity.py:21-33 | the elements of the expression in order, with white space between them |
| `ConfirmationIdentity.MarkersExact` | backend/src/app/agents/confirmation_identity.py:18-86 | the two markers and the closing sentence, character by character |
| `ConfirmationIdentity.UuidExact` | backend/src/app/agents/confirmation_identity.py:21-21 | an identifier is eight, four, four, four and twelve hexadecimal digits of either case with dashes between |
| `ConfirmationIdentity.HashExact` | backend/src/app/agents/confirmation_identity.py:24-24 | a hash is sixty-four hexadecimal digits of either case |
| `ConfirmationIdentity.FoldExact` | backend/src/app/agents/confirmation_identity.py:32-33 | a letter matches itself in either case and, beyond ASCII, only the four folding variants |
| `ConfirmationIdentity.ParseCanonical` | backend/src/app/agents/confirmation_identity.py:89-104 | whatever the text holds, a parsed identity has lower-case digits in every field, or none |
| `ConfirmationIdentity.MatcherAgrees` | backend/src/app/agents/confirmation_identity.py:22-33 | the same for every sub-pattern in which white space is followed by a visible element: there is at most one match |
| `ConfirmationIdentity.BlockStaysAbove` | backend/src/app/agents/confirmation_identity.py:89-92 | a block that starts above a footer ends above it |
| `ConfirmationIdentity.ScanReachesFooter` | backend/src/app/agents/confirmation_identity.py:89-93 | the scan for non-overlapping matches passes every earlier block and ends with the footer |
| `ConfirmationIdentity.LastPresentedExact` | backend/src/app/agents/confirmation_identity.py:107-120 | an identity is presented exactly when some assistant turn parses to it and no later assistant turn parses to any |
| `ConfirmationIdentity.FromHistory` | backend/src/app/agents/confirmation_identity.py:107-120 | the loop over the turns returns the identity presented last, in that sense |
| `ConfirmationIdentity.UserTurnsIgnored` | backend/src/app/agents/confirmation_identity.py:107-120 | removing all other turns never changes the result, whatever they quote |
| `ConfirmationIdentity.HistoryRoundTrip` | backend/src/app/agents/confirmation_identity.py:68-120 | a history whose last presenting assistant turn ends in a printed footer yields that identity |
| `CsvImport.RoundTrip` | frontend/src/lib/journal-import.ts:161-215 | a table of trimmed cells, a nonempty cell in each record, printed with every cell quoted, parses back to itself whatever the data cells contain, if header cells hold no newline, semicolon or tab |
| `CsvImport.RoundTripIff` | frontend/src/lib/journal-import.ts:161-215 | such a table, with any header, parses back if and only if the detected delimiter is the comma or every record has one cell |
| `CsvPlain.EitherRoundTrip` | frontend/src/lib/journal-import.ts:161-215 | a table of trimmed cells with some text in each record, each cell written quoted, plain or in alternating stretches, separated by any of the three delimiters its header is detected by, with either line ending and with or without the last one, parses back to itself |
| `CsvPlain.PlainRoundTrip` | frontend/src/lib/journal-import.ts:161-215 | the same without a single quote in the text |
| `CsvPlain.ParseEither` | frontend/src/lib/journal-import.ts:161-215 | any table written so, with padded or empty cells and blank lines, parses to its trimmed records that hold some text |
| `CsvPlain.DelimiterExact` | frontend/src/lib/journal-import.ts:142-165 | the detected delimiter depends only on the first line without its return, by the counts in it |
| `CsvPlain.CountExact` | frontend/src/lib/journal-import.ts:143-155 | the count of a candidate is the number of positions of the header that hold it |
| `CsvPlain.TrimExact` | frontend/src/lib/journal-import.ts:172-175 | a cell is the part of its text between leading and trailing white space |
| `CsvPlain.UnclosedQuote` | frontend/src/lib/journal-import.ts:184-211 | text that ends inside quotes is read as if the quote were closed |
| `CsvPlain.MarkIgnored` | frontend/src/lib/journal-import.ts:162-162 | a leading byte-order mark is ignored |
| `CsvImport.ParsePrinted` | frontend/src/lib/journal-import.ts:161-215 | any table printed this way parses to its trimmed, non-blank records under the detected delimiter |
| `CsvImport.PlainHeaderDetected` | frontend/src/lib/journal-import.ts:142-165 | a header without newline, semicolon and tab is detected as comma-separated |
| `CsvImport.SemicolonHeaderFails` | frontend/src/lib/journal-import.ts:143-155 | a concrete header with semicolons for which the round trip fails |
| `CsvImport.ParseCsv` | frontend/src/lib/journal-import.ts:161-215 | the index loop with lookahead equals the recursive reading of the text |
| `CsvImport.DetectDelimiter` | frontend/src/lib/journal-import.ts:143-155 | the most frequent candidate of the header line, the earlier on a tie |
| `PostureRefresh.LatestWins` | frontend/src/contexts/AppContext.tsx:67-147 | in every interleaving the generations of applied reads strictly increase, and an in-flight flag is up exactly while the current generation's request is outstanding |
| `PostureRefresh.ShownIsLatest` | frontend/src/contexts/AppContext.tsx:72-85 | at every point of every run what is shown is what the last showing action put there: the answer of a read that was current when it settled, a mutation's response, or nothing |
| `PostureRefresh.StepExact` | frontend/src/contexts/AppContext.tsx:67-147 | every step field by field: what is shown, the generation, the flag, the outstanding reads and the error |
| `PostureRefresh.MutationIsAuthoritative` | frontend/src/contexts/AppContext.tsx:213-238 | a read started before a mutation's successful response changes nothing after it |
| `PostureRefresh.FlagReleases` | frontend/src/contexts/AppContext.tsx:86-90 | answering the current request lowers the flag and the next background tick starts a read, so the flag never sticks |
| `PostureRefresh.SourceRefs.StartRefresh` | frontend/src/contexts/AppContext.tsx:67-71 | the part before the await: skipped for a background tick in flight, otherwise a new generation |
| `PostureRefresh.SourceRefs.SettleRefresh` | frontend/src/contexts/AppContext.tsx:72-90 | the part after the await, for an answer and for a failure |
| `PostureRefresh.SourceRefs.InvalidateReads` | frontend/src/contexts/AppContext.tsx:221-222 | a mutation invalidates outstanding reads and lowers the flag |
| `PostureRefresh.SourceRefs.MutationAnswered` | frontend/src/contexts/AppContext.tsx:229-236 | the mutation's response is shown and reads of its window are discarded |
| `PostureRefresh.SourceRefs.MutationRefused` | frontend/src/contexts/AppContext.tsx:239-247 | a refused mutation leaves what is shown and raises the error |
| `PostureRefresh.SourceRefs.ClearSignedOut` | frontend/src/contexts/AppContext.tsx:121-124 | without a signed-in user the kill-switch status is cleared and nothing is sent |
| `PriceLevels.ClusteringMinimal` | backend/src/app/analysis/structure.py:62-72 | no cover of the prices by groups with maximum at most (1 + tolerance) times minimum has fewer groups |
| `PriceLevels.ClusterLevels` | backend/src/app/analysis/structure.py:62-85 | from unsorted prices to levels: touches add up to the prices and the most touched level comes first with strength 1; for positive prices equally touched levels ascend in price, and the levels stand for a division of the prices into as few groups within the tolerance as there can be, each the mean of its group, with its share of the largest group as strength, between the lowest price of its group and that price times (1 + tolerance) |
| `PriceLevels.TightIsGrouped` | backend/src/app/analysis/structure.py:66-72 | a cluster in order is itself a group within the tolerance, so the minimum is attained |
| `PriceLevels.Cluster` | backend/src/app/analysis/structure.py:66-72 | the loop partitions the sorted prices in order into clusters, each within tolerance of its anchor and none whose anchor could have joined the cluster before |
| `PriceLevels.JoinsExact` | backend/src/app/analysis/structure.py:68-69 | a price joins exactly a positive anchor it is within the tolerance of |
| `PriceLevels.SortedExact` | backend/src/app/analysis/structure.py:65-65 | the sorted prices are the given prices in ascending order |
| `PriceLevels.TotalExact` | backend/src/app/analysis/structure.py:77-77 | the sum behind a level's mean is additive over any division of its prices |
| `PriceLevels.LevelsFaithful` | backend/src/app/analysis/structure.py:74-85 | one level per cluster, most touched first, touches adding up to the number of prices |
| `PriceLevels.LevelPriceBounded` | backend/src/app/analysis/structure.py:75-83 | a level's price lies between its anchor and the anchor times (1 + tolerance) |
| `PriceLevels.StrongestFirst` | backend/src/app/analysis/structure.py:74-85 | the first level has strength 1 and every strength is in (0, 1] |
| `OrderValidation.ValidateIff` | frontend/src/lib/manual-demo-validation.ts:13-36 | an order is accepted if and only if every field is a positive decimal and, over exact rationals, quantity, lot and tick conditions hold and for every fill within 0.1 percent of the reference price stop and target lie strictly on their sides and the notional meets the minimum |
| `OrderValidation.ProblemExact` | frontend/src/lib/manual-demo-validation.ts:13-36 | the reported problem is exactly the first of: unreadable order, unreadable instrument, quantity, increment, geometry and notional, over exact rationals |
| `OrderValidation.NotationExact` | frontend/src/lib/manual-demo-validation.ts:7-7 | a decimal is one to 24 digits, alone or with a point and one to 18 more |
| `OrderValidation.PlaceValue` | frontend/src/lib/manual-demo-validation.ts:9-9 | digits count by place |
| `OrderValidation.ValueExact` | frontend/src/lib/manual-demo-validation.ts:8-10 | a decimal denotes its whole part plus its fraction |
| `OrderValidation.DecimalExact` | frontend/src/lib/manual-demo-validation.ts:6-11 | the scaled integer is exactly 10^18 times the denoted value, and absent exactly when the text does not denote a positive decimal |
| `OrderValidation.FillsIff` | frontend/src/lib/manual-demo-validation.ts:31-34 | the two ends of the entry range decide the condition on all fills |

## Left out

- Decimal arithmetic is exact here; the 28-digit rounding of the `Decimal` context and the float rounding of price clustering are not modelled.
- Usage is one accounting window; calendar days and months, time zones and the clock are not modelled.
- Authentication, roles and tenant lookup: the caller's identity is an argument.
- Database isolation below the level of a committed transaction, lock waits and connection failures.
- WebSocket proxying, provider clients, timeouts, HTTP routes and `RealtimeSession`: no claim is made about overlapping provider responses.
- Sending of appended context part by part, its limit of 128 unacknowledged events, and audio forwarding in a Live session: a result counts as spoken when it is handed to `append`.
- Text search and ranking of candidate entries (`matching_entries`, `list_entries`): candidates are an argument, with what the queries filter on as a precondition.
- Timestamps, `model_usage` and the wording of messages in saved entries and errors.
- `LiveLedger.history`, `load_limits`, `score_case`, `autoDetectMapping`, `buildRows`, `find_swings`, `market_structure` and `fibonacci_levels`: they would add only branch-level facts.
- Intent classification, prompts, indicators, setup detectors and user-interface components.
- CsvImport.ParseCsv: a character is a Unicode scalar value, where the source indexes UTF-16 code units; no code point the reader compares with lies outside the basic plane.
- ConfirmationIdentity.FooterRoundTrip: an identity is its canonical lower-case text; conversion to and from a 128-bit UUID is not modelled.
