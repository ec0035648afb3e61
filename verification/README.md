# Blueski messaging, modelled and proved in Dafny

Blueski lets programs send and receive Apple Messages on a Mac. A daemon keeps a durable
queue of sends and an append-only journal of events in `state.db`, drives Messages through a
sender, watches `chat.db` for inbound rows and status changes, and hands the journal to
readers, streams and webhooks. This project models that protocol and its algorithms and
proves what they promise, over every run, with a crash possible between any two steps.

Three transition systems carry the main results, and one more covers the fan-out.

- `Outbound`: HTTP requests, one send worker, the correlator, the receive worker, Messages
  itself and crashes act on three tables (`Tables`). `Lifecycle` reads the journal of one
  message as a word of a small automaton; `JournalRuns`, `JournalFields`, `Idempotency`,
  `Watermark` and `SendQueue` prove the promises over all runs, `Reopening` what older
  databases are turned into, and `FreshGuids` and `SharedGuid` say when two
  sends can come to share a provider guid.
- `Receive`: the receive worker, the journal task behind its queue, the saved state and a
  `chat.db` whose rows grow and are enriched in place. `InboundCapture`, `Duplication`,
  `Quarantine`, `ScanProgress` and `Recheck` prove its promises.
- `Stream`: one streaming subscription among the writers of the journal and the broadcaster;
  `Paging` has the cursor queries it and the HTTP readers use.
- `Fanout`: the emitter, the bounded destination queues, their workers and statuses.

Code that works step by step is modelled as classes and methods: `Store` (one method per
transaction, tied to the function in `Tables` that specifies it), `SendWorker`,
`ReceiveWorker`, `StreamTask` and `Webhooks`. The last four carry a ghost trace, and each
method proves that it extends the trace to a run of the transition system, whatever the
environment answers; so the theorems about runs hold of these programs. What a method learns
from outside (a query, the clock, the network, the steps of other actors) comes from small
methods whose callers know only their contracts. Those methods, and no others, write down
what they were asked and what they answered, and a step joins the trace only with exactly
the answers it rests on (`Rests`, `Done`, `Noted`): no step can ignore, repeat or invent one.

`AttributedBody`, `Utf8`, `Resolver`, `Targets`, `Fingerprint`, `InboundEvent`, `EventFields`,
`Journal` and `Strings` hold the pure algorithms, `Model` and `Wrappers` the shared datatypes.

`dafny verify dfyconfig.toml` checks everything.

Three properties one might expect are false of the code, and are proved with the exact
condition under which they hold:

- Two sends can be bound to one provider guid, because `src/store.rs:147` indexes the guid
  without making it unique. `Lifecycle.FreshGuidExactly` shows that the journal and the table
  stay in agreement, then and after every later status, if and only if the guid was fresh;
  `SharedGuid.SharedGuidHappens` is a run in which it is not, and `FreshGuids.SoloRunsAreFresh`
  says when it is sure to be: if no send is in flight at any claim and every watermark was read.
- A long attributed body is read back only when nothing behind the text completes another
  length reading first: `AttributedBody.LongRoundTripExactly`, with a concrete blob in
  `AttributedBody.LongWithTrailingFails`.
- A stream can lose entries when broadcasts leave the journal order: `Stream.ExactExactly`,
  with a concrete run in `Stream.OutOfOrderIsLost`.

The comment above `MAX_RECHECKS` (`src/receive.rs:107-109`) speaks of about five minutes; 150
rechecks at the ten-second backstop take twenty-five. The model counts rechecks, as the code
does.

## Model

| member | source | states |
|---|---|---|
| Store.Store.Reopen | src/store.rs:127-241 | reopening runs the two migrations and nothing else: the tables become `Backfill` of `MigrateUnknown` of what they were |
| Store.Store.AcceptAndRecordQueued | src/store.rs:473-565 | acceptance is one transaction: on an error the tables are unchanged, otherwise row, key and `message.queued` entry appear together as `Tables.Accept` says |
| Store.Store.MarkDispatching | src/store.rs:663-672 | claims exactly a queued row and writes its watermark; otherwise changes nothing |
| Store.Store.RecordSentAcceptance | src/store.rs:674-684 | row state and `message.sent` entry change together, with no guard on the state |
| Store.Store.RecordFailed | src/store.rs:686-704 | row state, status and `message.failed` entry change together, with no guard on the state |
| Store.Store.BindAndRecordSent | src/store.rs:728-760 | binds an unbound row and journals the status of the first row holding the guid, or changes nothing |
| Store.Store.AdvanceStatusAndRecord | src/store.rs:762-786 | raises the status of every row holding the guid and journals it once, only above the first row's rank |
| Store.Store.NextQueued | src/store.rs:581-590 | the oldest queued row decoded, or none |
| Store.Store.RecoverableSends | src/store.rs:592-612 | every row in flight, in queue order |
| Outbound.RunInv | src/store.rs:663-704 | in every reachable state the worker's position and each row's state fit, which is what makes the unguarded transactions safe |
| Outbound.AtMostOnceDispatch | src/send_worker.rs:74-128 | over all runs with crashes anywhere, the sender is invoked at most once per message id, and only once the row left the queue |
| Outbound.OnlyAClaimEnablesDispatch | src/send_worker.rs:85-104 | whoever is about to invoke the sender took this row out of the queue himself, and has not been interrupted since |
| Outbound.NeverRequeued | src/store.rs:663-786 | no step, recovery or reopening returns a row to the queue, and rows keep their place and id |
| Outbound.RecoveryExactly | src/store.rs:592-612 | recovery takes up every row in flight, no other, and none twice |
| Outbound.NothingStalled | src/store.rs:183-192 | on databases this code created the reopening migration finds nothing |
| Reopening.GivenUpIsRecovered | src/store.rs:181-190 | a send an earlier version gave up on, with its command still at hand, is taken up by recovery after reopening |
| Reopening.OthersUntouched | src/store.rs:181-190 | every other row stays as it is |
| Reopening.MinIdExactly | src/store.rs:198-203 | the id chosen for a client_ref is the least of its message ids |
| Reopening.BackfillExactly | src/store.rs:191-203 | a client_ref without key gets one to that id, without fingerprint, unless another key has the id; existing keys stay |
| Lifecycle.PhaseSpells | src/store.rs:814-845 | a word the automaton accepts is queued, then failed, or an optional sent event and the statuses sent, delivered, read, each at most once and in that order |
| Lifecycle.InsertIsSound | src/store.rs:473-565 | acceptance keeps journal words legal and table columns equal to their replay |
| Lifecycle.BindIsSound | src/store.rs:728-760 | binding a fresh guid keeps that agreement |
| Lifecycle.AdvanceIsSound | src/store.rs:762-786 | any observed status, in any order, keeps that agreement |
| Lifecycle.InboundIsSound | src/store.rs:273-304 | inbound entries do not disturb it |
| Lifecycle.ObservationsAreSound | src/store.rs:762-786 | neither does any sequence of observations |
| Lifecycle.StatusConverges | src/store.rs:762-786 | for a bound guid and any observations, the journaled statuses are exactly the strict running maxima by rank and the final status is the maximum |
| Lifecycle.HighestIsMaximum | src/store.rs:972-982 | that maximum is at least every status seen, and is one of them |
| Lifecycle.HighestIgnoresOrder | src/store.rs:972-982 | and it does not depend on the order of the observations |
| Lifecycle.FreshGuidExactly | src/store.rs:728-760 | binding keeps journal and table in agreement, now and after every later status, if and only if the guid is fresh |
| Lifecycle.SharedGuidBreaksBind | src/store.rs:728-760 | a guid an earlier row holds journals the binding for the wrong message |
| Lifecycle.SharedGuidBreaksAdvance | src/store.rs:762-786 | a guid a later row holds lets a status change a row that journals nothing |
| SharedGuid.SharedGuidHappens | src/send_worker.rs:130-204 | such a guid occurs: a send claimed before a crash and never sent is resolved to the row of a later send to the same target, the selection being certain of it, and the run ends with table and journal in disagreement |
| SharedGuid.BothSelect | src/send_worker.rs:306-370 | the lone row on the target of both sends is the unique answer for either |
| SharedGuid.Example | src/send_worker.rs:373-435 | two jobs and a row as the run needs them |
| JournalRuns.RunSound | src/store.rs:473-786 | from a fresh database with fresh guids the agreement holds in every reachable state |
| JournalRuns.JournalGrammar | src/store.rs:473-786 | so every message's events spell a legal story, and its status and its binding are exactly what that story says |
| FreshGuids.SoloRunsAreFresh | src/send_worker.rs:74-128 | when every claim finds no send in flight and has read its watermark, every binding gets a guid no message holds |
| FreshGuids.SoloJournalGrammar | src/store.rs:473-786 | so in such runs every message's events spell a legal story, with no hypothesis about guids |
| JournalRuns.RankNeverDecreases | src/store.rs:762-786 | the rank of a row's status never decreases along a run |
| JournalFields.EntryCarries | src/store.rs:814-845 | in every reachable state every outbound journal entry carries the message id, client_ref and protocol of the command accepted for its row; a queued entry its text and address, a sent or failed one its address, a status entry the provider guid and chat the row is bound to and the handle shown for it; and no other field |
| JournalFields.EntryOfStep | src/store.rs:847-885 | the entry a step adds has the next id, the clock of the step, the sender's reason, the guid bound or the status and time observed |
| JournalFields.BoundAsResolved | src/store.rs:728-760 | every bound row holds the guid, ROWID and chat of a chat.db row that the resolver answered for that very send |
| JournalFields.RankOrder | src/store.rs:972-982 | the order of the status words |
| JournalFields.FinalStays | src/store.rs:762-786 | a message that was read, has failed or is unknown is changed by no observation |
| JournalFields.FreshRequestExactly | src/store.rs:473-565 | without a client_ref a request is accepted exactly when its message id is new, and then its command is the last row, queued, with its entry journaled |
| JournalFields.KeyedRequestExactly | src/store.rs:490-565 | under a client_ref without fingerprint a new message is accepted the same way and takes the key, unless another key has its id |
| Idempotency.RunIdem | src/store.rs:473-565 | every key maps to a message whose row, fingerprint and replies agree, in every reachable state |
| Idempotency.OneMessagePerClientRef | src/store.rs:490-565 | all accepted requests under one client_ref got the same message id, have one row and at most one dispatch |
| Idempotency.ReplayExactly | src/store.rs:490-520 | under a known key nothing changes, and the answer is the stored message exactly when kind, target, protocol and text are those of the stored request, else a conflict |
| Idempotency.FirstRequestFixesKey | src/store.rs:473-565 | a first request and its repetition get the same message id, and the repetition changes nothing |
| Idempotency.NothingToBackfill | src/store.rs:193-206 | on databases this code created the key backfill of reopening adds nothing |
| Fingerprint.ComputeFingerprint | src/store.rs:567-579 | feeding the fields one by one hashes the specified preimage |
| Fingerprint.PreimageLayout | src/store.rs:567-579 | those bytes are the kind word, the address, the protocol and the text, in this order, each behind its length in eight bytes |
| Fingerprint.PreimageExactly | src/store.rs:567-579 | for lengths below 2^64 two preimages are equal exactly when kind, target, protocol and text are |
| Fingerprint.FingerprintExactly | src/store.rs:567-579 | so fingerprints are, unless the digest collides on the two |
| Watermark.RunWatermark | src/send_worker.rs:85-103 | in every reachable state the recorded watermarks bound what earlier sends were bound to and what later ones may find |
| Watermark.LaterSendsResolveAbove | src/send_worker.rs:264-303 | when B was claimed after A was bound and B's watermark read succeeded, whatever the resolver finds for B lies above A's row |
| Watermark.LaterSendsBindAbove | src/send_worker.rs:147-204 | in every later state the row of B, once it holds a chat.db row, holds one above A's |
| Watermark.MarkPersists | src/send_worker.rs:85-103 | the watermark of a claim survives every later step |
| SendQueue.NextQueuedExactly | src/store.rs:581-590 | the queue reads empty exactly when no row is queued; otherwise the answer is the first in order of acceptance time and id |
| SendQueue.OvertakenOnlyWithinASecond | src/store.rs:581-590 | with a clock that does not run back, a queued job is overtaken only by one accepted in the same second |
| SendQueue.RunClock | src/store.rs:473-565 | with such a clock rows stay in order of acceptance time |
| SendQueue.ClaimTakesOne | src/send_worker.rs:46-59 | a claim at the loaded job takes exactly one row out of the queue |
| SendQueue.OnlyClaimsDequeue | src/store.rs:663-786 | no other step takes a row out of the queue |
| SendQueue.StepLength | src/send_worker.rs:46-59 | every step changes the length of the queue by the rows it adds, less one for a claim that takes effect |
| SendQueue.QueueConserved | src/send_worker.rs:46-59 | in every reachable state the rows are those queued plus the claims made, each row being one or the other |
| SendQueue.DrainedExactly | src/send_worker.rs:46-59 | between two states of a run, the queue reads empty at the second exactly when the claims in between equal the rows queued at the first plus those accepted in between |
| SendQueue.LoadedIsAccepted | src/store.rs:629-661 | the job loaded from the queue is the accepted job, field by field |
| Strings.LeExactly | src/store.rs:581-590 | the order of text columns: the first character that differs decides, and a prefix comes first |
| SendQueue.InFlightInOrder | src/store.rs:592-612 | the rows in flight come in order of acceptance time and id |
| SendWorker.SendWorker.ProcessQueued | src/send_worker.rs:74-128 | one loaded job: the claim stores the ROWID chat.db answered just before, or the remembered one when it did not answer, and marks the send when it did; the sender is called once behind a claim that took effect and not at all otherwise; all of it is steps of the transition system back to idle |
| SendWorker.SendWorker.CaptureWatermark | src/send_worker.rs:85-94 | chat.db is asked once: what it answers is its highest ROWID, is the watermark and is remembered; the remembered watermark is used only when it does not answer |
| SendWorker.SendWorker.SendClaimed | src/send_worker.rs:105-127 | behind the claim the sender is called first, with the claimed job, and its answer decides which outcome is recorded next |
| SendWorker.SendWorker.FinishAccepted | src/send_worker.rs:107-115 | the acceptance is one transaction, and its journal entry is published exactly when that goes through |
| SendWorker.SendWorker.BindFound | src/send_worker.rs:147-204 | a found row is bound in one transaction, a step of the transition system; exactly when it took effect its ROWID raises the remembered watermark and its journal entry is published |
| SendWorker.SendWorker.ResolveAndFinish | src/send_worker.rs:147-204 | the queries for the send decide as below, and the row they decide on, if any, is the one a binding is tried for |
| SendWorker.SendWorker.ResolveSentRow | src/send_worker.rs:230-256 | between 1 and 32 queries, all above the watermark of the send; every one but the last left the selection pending without the fallback, and the last decides: the row the selection answers, or none when the query failed, when it is ambiguous or when it was the thirty-second, on which alone the fallback is allowed |
| SendWorker.SendWorker.ResolveOnce | src/send_worker.rs:264-304 | one query and one selection on what it returned; a failed query ends the attempts like an ambiguity |
| SendWorker.SendWorker.RecoverInflight | src/send_worker.rs:130-145 | one query for the sends in flight; unless it fails its steps start from all of them and take each to an end, asking chat.db for each |
| SendWorker.SendWorker.Drain | src/send_worker.rs:46-59 | the inner loop ends on an empty queue, or every turn took one row or met a failed queue read or claim |
| SendWorker.SendWorker.DrainAll | src/send_worker.rs:46-59 | without such failures and new requests, and with more turns than rows queued, it ends with an empty queue after exactly as many claims as rows were queued |
| SendWorker.SendWorker.Run | src/send_worker.rs:26-72 | for any number of turns the loop is a run of the transition system; it asks for the sends in flight once at its start and once for every wait for a wake-up that runs out, and reads the queue in every turn |
| Resolver.ComputeDistinctChatGuids | src/send_worker.rs:405-416 | split, drop empties, sort, dedup computes the set of chat guids in strictly increasing order |
| Resolver.DistinctExactly | src/send_worker.rs:405-416 | that list has exactly the set's elements, each once |
| Resolver.HandleChatId | src/send_worker.rs:418-427 | for a handle target the chat id is set exactly when the chat-guid set is a singleton |
| Resolver.SelectionExactly | src/send_worker.rs:306-370 | the selection is unique exactly when a row is the only one on target, or the only one on target with equal text, or on the last attempt the only candidate and has equal text; and it is that row |
| Resolver.SelectionPermutes | src/send_worker.rs:306-370 | the answer does not depend on the order of the rows |
| Resolver.OffTargetOnlyAsLastResort | src/send_worker.rs:306-370 | a unique answer is one of the rows on target, or, on the last attempt, the only row there is, off target and with equal text |
| Resolver.AmbiguityExactly | src/send_worker.rs:306-370 | an ambiguity is reported exactly when no row is picked and rows tie, with the number of places in the answer of the query at which they pass: with target and text, or, when none has both and this is the last attempt, with the text |
| Resolver.PendingExactly | src/send_worker.rs:306-370 | the resolver asks again exactly when no row is picked and none tie |
| Targets.SplitInverts | src/send_worker.rs:391-416 | splitting a joined column at commas gives back the values, when none holds a comma |
| Targets.OnlyRowOnTarget | src/send_worker.rs:306-326 | the only row whose joined chats hold the chat of a chat send, or whose joined handles hold the handle of a handle send, is the answer at any attempt, whatever its text; its chat id is the chat sent to, or for a handle send the only chat of the row |
| Targets.NoRowOnTarget | src/send_worker.rs:306-370 | before the last attempt the send waits as long as no row is in that chat, or has that handle |
| Targets.TextDecides | src/send_worker.rs:327-346 | of several such rows the only one that says the text is the answer, where a row says its text, or the text in its attributed body when it has none |
| Targets.LoneRowOffTarget | src/send_worker.rs:348-362 | a lone row off the target is the answer exactly on the last attempt and when it says the text |
| InboundCapture.RunInv | src/receive.rs:219-280 | in every reachable state of the inbound system what lies under a watermark, saved or held, is journaled or pending |
| InboundCapture.NoInboundLoss | src/receive.rs:219-280 | over all runs with crashes, failed saves and journal failures, every inbound row above the base and up to the saved watermark is in the journal as `message.received` or saved as pending |
| InboundCapture.WatermarkNeverDecreases | src/receive.rs:262-279 | the saved watermark never decreases, across restarts too, and its base is fixed once it is set |
| InboundCapture.PendingIsWellFormed | src/receive.rs:456-512 | every pending entry, a lone one too, has its row at or below the watermark, attempts at most 2^32-1, quarantine exactly from the ninetieth attempt, and a guid no other entry has |
| InboundCapture.LeavesOnlyJournaled | src/receive.rs:456-512 | an entry leaves the saved list only after its event was journaled; while it stays its attempts never decrease |
| Quarantine.RunPasses | src/receive.rs:456-512 | in every reachable state of a pass an entry still waiting is as it was, and one tried since is the same entry with exactly one more attempt, capped at 2^32-1, an error, and quarantine from the ninetieth on |
| Quarantine.AttemptsExactly | src/receive.rs:486-504 | between two saved states that hold a message as pending its attempts grew by exactly the passes saved in between, through any crashes; its ROWID, first sighting and quarantine time are kept |
| Quarantine.CapturedFresh | src/receive.rs:235-262 | every pending message was captured by a saved scan step, with no attempt counted |
| Quarantine.QuarantinedExactly | src/receive.rs:490-493 | so its attempts are the passes saved since, and it is quarantined if and only if there were at least ninety |
| InboundCapture.StepSaved | src/config.rs:403-427 | one step changes the saved state only by those moves |
| Duplication.RunBudget | src/webhook.rs:39-51 | in every reachable state the journaled entries for a guid and what the worker may yet cause without a fault stay within one plus the faults, which are counted where an entry is stored |
| Duplication.BoundedDuplication | src/receive.rs:235-279 | at most 1 + (crashes, failed saves, entries stored while their request was answered with an error or awaited by nobody) entries for one provider guid, so at most one without such faults; a request that timed out and was never stored costs nothing |
| ScanProgress.ScanReachesHighest | src/receive.rs:219-280 | a scan whose query, journal writes and saves give no trouble ends with the watermark at the highest ROWID read, through any interleaving |
| InboundEvent.BuiltEventsAreValid | src/receive.rs:353-395 | every event built from a row with a guid passes the journal's validation, whatever its classification, service, text or attachment path |
| InboundEvent.ClassificationIsSafe | src/receive.rs:405-454 | direct, group and conflict are each claimed exactly on the evidence named, and a conflict is never classified |
| Strings.ContainsExactly | src/receive.rs:410-412 | a chat guid contains a marker exactly when it stands somewhere in it |
| EventFields.EventExactly | src/receive.rs:353-376 | a row becomes an event exactly when it has a handle, one chat and something to say: its text unless blank, else the text of its body unless blank, else a placeholder for attachments |
| EventFields.FieldsExactly | src/receive.rs:378-394 | handle, chat, text, destination, counts, status and ids of the event are those of the row |
| EventFields.ReasonExactly | src/receive.rs:363-376 | an incomplete row is reported with what it lacks, in order |
| EventFields.ProtocolExactly | src/receive.rs:514-522 | the protocol is the service in small letters without surrounding white space, and imessage when there is none |
| EventFields.BlankExactly | src/receive.rs:354-361 | a text is blank exactly when it is white space throughout |
| EventFields.ValidExactly | src/store.rs:307-341 | the journal refuses exactly the received events that lack a provider field, a known kind or a text that is not blank |
| EventFields.StatusFollowsMarks | src/receive.rs:583-605 | a row is read, delivered or sent by its marks, read before delivered, and as marks are only set its rank never falls |
| ReceiveWorker.ForeignRun | src/webhook.rs:150-164 | the other actors leave the worker's state alone; they only answer its request, and refuse it only with trouble |
| ReceiveWorker.ReceiveWorker.constructor | src/receive.rs:142-167 | the start takes the saved state, or the tail of chat.db when there is none, and tracks the active guids |
| ReceiveWorker.ReceiveWorker.HandleRow | src/receive.rs:323-351 | an inbound row is journaled or reported incomplete with the reason; an outbound one is reported to the correlator with the status its marks stand for, and tracked unless it is read |
| ReceiveWorker.ReceiveWorker.CaptureRow | src/receive.rs:235-262 | an incomplete row becomes a pending entry with no attempts, its reason and the time, unless its guid is pending already, and the watermark moves over it |
| ReceiveWorker.ReceiveWorker.Advance | src/receive.rs:268-279 | the file is replaced once, and the state changes exactly when that is reported as done |
| ReceiveWorker.ReceiveWorker.ScanRows | src/receive.rs:219-280 | a scan is steps of the inbound system; without trouble nothing chat.db held at its query is above the watermark afterwards |
| ReceiveWorker.ReceiveWorker.RetryPending | src/receive.rs:456-512 | a retry pass takes every entry pending at its start through steps of the inbound system and ends with one save; the state changes exactly when that succeeds, and then every entry left has exactly one more attempt and every other was journaled |
| ReceiveWorker.ReceiveWorker.RecheckActive | src/receive.rs:527-581 | one poll when anything is tracked; exactly the rows returned are counted and their statuses reported to the correlator |
| ReceiveWorker.ReceiveWorker.Turn | src/receive.rs:180-189 | every wake-up retries the pending entries, if there are any, scans once, and polls, if anything is tracked |
| ReceiveWorker.ReceiveWorker.Run | src/receive.rs:169-189 | the whole loop is a run of the inbound system for any number of turns, with one scan in each |
| Recheck.PollRows | src/receive.rs:563-580 | the loop over the rows computes the specified counts and observations |
| Recheck.PollExactly | src/receive.rs:563-580 | a guid not returned keeps its count; a returned one is counted once, and dropped exactly when read or used up |
| Recheck.CountsStayBelowCap | src/receive.rs:575-579 | between calls every count is below 150, with insertions too |
| Recheck.RecheckSpends | src/receive.rs:527-581 | each recheck lowers the polls left over the tracked guids in chat.db by at least one per row returned |
| Recheck.RecheckTerminates | src/receive.rs:527-581 | with nothing newly tracked, 150 rechecks leave exactly the guids absent from chat.db, counts unchanged |
| AttributedBody.DecodeAttributedBody | src/receive.rs:625-663 | the index loops compute the recursive reading of the bytes after the first marker |
| AttributedBody.ShortRoundTrip | src/receive.rs:638-645 | a text with a one-byte length is read back, whatever follows, behind any prefix without marker and an inert gap of at most 15 bytes |
| AttributedBody.LongRoundTripExactly | src/receive.rs:645-660 | with a two-byte length in either order and bytes behind the text, it is read back if and only if the condition on the other length reading holds |
| AttributedBody.LongRoundTrip | src/receive.rs:645-660 | it is always read back when the text ends the blob |
| AttributedBody.LongWithTrailingFails | src/receive.rs:645-660 | a concrete blob with bytes behind the text that is read wrongly |
| AttributedBody.DecodedIsSlice | src/receive.rs:625-663 | whatever is decoded is an in-bounds slice behind the first marker |
| Utf8.RoundTrip | src/receive.rs:640-643 | the decoder inverts the encoder of section 4 of RFC 3629 |
| Utf8.Canonical | src/receive.rs:640-643 | the decoder accepts only canonical encodings |
| Journal.Append | src/store.rs:273-304 | ids stay positive and strictly increasing along the journal |
| Paging.ListEventsSince | src/store.rs:344-373 | the collected rows are the first entries after the cursor, up to the limit, where a limit above the signed range is none |
| Paging.PagesAreTheJournal | src/store.rs:344-373 | with any limits and appends between pages, the pages together are exactly the journal between the first and the last cursor |
| Paging.EmptyPageExactly | src/store.rs:344-373 | with limits of at least one a page is empty exactly when nothing is left, and then the pages hold everything after the first cursor |
| Paging.PageSize | src/store.rs:344-373 | for limits below 2^63 a page has at most that many entries, and a shorter one holds everything after the cursor; so does any page with a greater limit or none |
| Paging.MessagesPageExactly | src/store.rs:375-396 | a message page holds exactly the latest-per-message entries between its cursors, a thousand at most |
| Paging.NoMessageIsMissed | src/store.rs:375-396 | the pages hold the latest entry of every message whose latest entry lies between the first cursor and the last |
| Paging.PagedIsLatest | src/store.rs:375-396 | every entry returned lay above the first cursor and was its message's latest when its page was read |
| Paging.EmptyPageMissesNothing | src/store.rs:375-396 | once a page is empty they hold it for every message above the first cursor |
| Paging.MessagesPageSize | src/store.rs:375-396 | a message page has at most the limit, 100 by default and 1000 at most, and a shorter one leaves out no message |
| Stream.EmitsInOrder | src/server.rs:250-304 | in every interleaving with appends, broadcasts, lag and failed queries, every entry emitted is a journal entry above the start, with a smaller id than all that follow, and the cursor is the last |
| Stream.BacklogIsServed | src/server.rs:255-300 | from its start, and from every lag, until it is live again the stream emits everything the journal held behind its cursor, unless a query fails |
| Stream.ExactExactly | src/server.rs:274-284 | what was emitted is exactly the journal up to the cursor if and only if no live emission jumped over an entry |
| Stream.InOrderIsExact | src/server.rs:250-304 | so it is whenever broadcasts follow the journal without loss and queries succeed, through any lag, and a live stream has emitted all it was sent |
| Stream.OutOfOrderIsLost | src/server.rs:276-279 | a run in which the later of two entries is broadcast first and the earlier is lost to the stream |
| StreamTask.StreamTask.ReplayJournal | src/server.rs:255-270 | asks the journal once and sends exactly the entries it held after the cursor when it was read, or nothing when the query failed |
| StreamTask.StreamTask.Turn | src/server.rs:272-300 | one live turn is what the channel answered: an entry, the repair after a lag, or the end when it is closed |
| StreamTask.StreamTask.Run | src/server.rs:250-304 | the whole response is a run of it; its body begins with what the journal held after `since` when it was read, holds, unless a query failed, everything behind the cursor at every lag, and is increasing and journaled; it ends early only when the channel is closed |
| Fanout.Spawn | src/webhook.rs:99-138 | a status for every webhook, a destination for exactly the enabled ones, no two with one status |
| Fanout.RunIsLocal | src/webhook.rs:187-212 | queue, deliveries and status of a destination are a function of its own history |
| Fanout.Isolation | src/webhook.rs:187-312 | two runs that agree on that history give it the same deliveries and status, whatever the other destinations do |
| Fanout.DeliversInOrder | src/webhook.rs:148-312 | accepted entries are a subsequence of the emitter's order, taken first in first out from at most 256, at most three attempts each, all journaled |
| Fanout.NothingDroppedExactly | src/webhook.rs:187-211 | a destination got everything it was offered if and only if its worker was there and its queue had room each time |
| Webhooks.Webhooks.TrySend | src/webhook.rs:187-211 | one offer queues the entry, or marks the status queue_full or worker_closed, and touches nothing else |
| Webhooks.Webhooks.FanOutEntry | src/webhook.rs:183-212 | every destination is offered the entry once, in order |
| Webhooks.Webhooks.EmitItem | src/webhook.rs:148-170 | a committed entry goes out as it is; a new event goes out once journaled, and nothing goes out only when the journal refused it |
| Webhooks.Webhooks.Try | src/webhook.rs:250-304 | one post of the entry; the attempt ends the delivery exactly when the endpoint accepted that post or it was the third, and the status shows the answer |
| Webhooks.Webhooks.Deliver | src/webhook.rs:241-312 | as many posts as tries, all of this entry and all rejected but for the last, which was accepted exactly when the delivery succeeded; at most three, three when it gives up; the status shows the last answer |
| Webhooks.Webhooks.Emitter | src/webhook.rs:148-215 | every item taken is broadcast and handed to all destinations, but for the events the journal refused, in steps of the fan-out system; it ends only with the sink |
| Webhooks.Webhooks.Worker | src/webhook.rs:221-239 | in every turn the worker takes an entry and finishes its delivery, unless its queue is empty |
| Webhooks.Webhooks.SetError | src/webhook.rs:314-319 | writes the one status and no other |

## Left out

Hypotheses the model states openly:

- One SQLite transaction is one atomic step; a transaction that fails or is dropped changes nothing.
- chat.db ROWIDs only grow and are never reused, message guids are unique and nonempty, and `is_from_me` of a row never changes.
- Saving the receive state replaces the file or leaves it unchanged, and loading returns what was saved; a file that no longer parses is not modelled. `base`, the watermark at initialisation, is history the file does not hold.
- One send worker and one receive worker run at a time.
- Fresh provider guids are a hypothesis of the runs in `JournalRuns`, never built in; `Lifecycle.FreshGuidExactly` says what happens without it, and `FreshGuids.SoloRunsAreFresh` gives runs that meet it.
- SHA-256 is a function parameter, and results about fingerprints exclude a collision of the two requests at hand.
- Timestamps, message ids and other text from the clock or a generator are parameters.

Simplifications and parts not modelled:

- A lookup that SQL leaves unordered meets rows in insertion order (`Tables.Find`, `Tables.FindGuid`).
- Lower-casing is ASCII only; trimming covers the characters of Unicode's White_Space property.
- The event payload column and its JSON encoding: entries hold the event itself, and serialization never fails.
- Installation ids beyond a constant, table creation, column upgrades and rows of versions before 0.2.
- `record_unknown`, which only the repository's tests call.
- `active_provider_guids`: the guids tracked at the start of the receive worker are any set.
- The candidate query of the resolver: it is any set of at most 25 rows above the watermark, so uniqueness is relative to the rows returned.
- The receive worker's `max_rowid.store`: to the send worker it is one of the writes others may make between its steps.
- The statuses the receive worker reports are a list without their times (`pick_time`); their way through the correlator is the arbitrary mail of `Outbound`.
- Waiting for room in the sink of the journal task: its queue is unbounded in `Receive`.
- The loops of workers and streams run for any given number of turns instead of forever.
- Scheduling, sleeps, wake-ups and timeouts are arbitrary interleavings.
- AppleScript and `osascript`: the sender is an arbitrary success or failure.
- HTTP routing, bearer authentication, request validation and the shape of replies; a request is the transaction it leads to.
- Signing of webhook bodies, URL validation, webhook configuration beyond enabled or not.
- launchd, tunnels, permissions, kqueue, the command line, attachments, the default sender and the debug endpoint: no protocol of their own.
- Eventual delivery of every status: an observation before the binding is ignored by the code, and a read seen at the scan is not tracked, so no such promise holds.
