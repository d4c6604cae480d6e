# Verification of the dealership bot

AutoKart is a Go service that sells used cars over WhatsApp. This project models its step-by-step protocols and
state machines in Dafny and proves what they keep over whole runs. Paths below are those of the repository.

| module | what it models |
|---|---|
| `Lease` | the leader lease that lets one process hold the WhatsApp socket |
| `Bookings` | booking transactions, staff patches and booking patches, interleaved statement by statement |
| `Followups` | the claim-first scheduler queue: follow-ups and test-drive reminders |
| `Outbox` | undelivered replies and the flush that retries them |
| `Inbound` | deduplication and the customer, conversation, lead and review rows of an inbound message |
| `LoginLimiter`, `RateLimiter`, `RollingLogs`, `Windows` | counters over windows of time |
| `Validate`, `Engine`, `EngineRuns`, `Circuits`, `SeededBot` | the live bot: answers, the interpreter of question graphs, its runs, when they end, the seeded graphs |
| `SlotMachine`, `SlotRuns`, `SlotChat` | the deterministic slot-filling chat, its runs, and the chat as its driver keeps it |
| `Prices`, `Budgets`, `Valuation` | printing and reading prices and budgets, the price estimate |
| `StockParser`, `StockRecords` | the parser of pasted stock lists |
| `Text`, `Wrappers` | string operations of Go's library; the optional value |

Objects whose methods update them are classes (`Worker`, `Server`, `Queue`, `Box`, `Tables`, `Limiter`, `IpLimiter`,
`RollingLog`, `Conversation`, `Chat`). Each method is proved equal to a function of the old state, and the theorems
are about runs of those functions: any number of processes, any order of statements, any messages. SQL statements
are atomic steps on maps and sequences; a partial unique index is a condition under which an insert does nothing.
Times are integers. `dafny verify dfyconfig.toml` checks everything.

## Where the code and its words differ

- The login limiter's comment counts more than ten failures; the code bans on the tenth
  (`LoginLimiter.TenAreLetThrough`).
- "Two workers can never send the same follow-up": recovery compares `scheduled_at`, not the time of the claim, so a
  follow-up more than ten minutes overdue can be claimed from a working pass and sent twice
  (`Followups.SecondWorkerClaimsExactlyWhenOverdue`, `Followups.OverdueFollowupIsSentTwice`).
- "A restart or overlapping tick can never double-send" a reminder: that holds while no pass is cut off
  (`Followups.ReminderSucceedsAtMostOnce`). `runOnce` does not look at the type of the rows it recovers, so a reminder
  whose pass died before its send becomes a follow-up that is always stale, and overlapping workers send it twice
  (`Followups.AbandonedReminderCanBeSentTwice`).
- One owner of the socket: pairing holds it for 160 seconds without a heartbeat, longer than the lease
  (`Lease.PairingWindowAllowsTwoSockets`).
- The rate limiter lets through up to 2 * limit - 1 requests in an interval of one window length, and that many are
  reached (`RateLimiter.FewerThanTwoLimitsInAnyInterval`, `RateLimiter.BoundIsMet`).
- Pairing that ends because its QR channel was closed leaves the socket open without the lease, for as long as others
  lead (`Lease.LingeringSocketStays`).
- Two cancellations of one booking that both read it while it was active put a vehicle that was booked again back on
  offer (`Bookings.DoubleCancelFreesABookedVehicle`). So does a cancellation under way while staff offer the vehicle by
  hand (`Bookings.FreeingUnderwayAndPatch`), and a booking that is over can be revived on a vehicle on offer
  (`Bookings.RevivedBookingIsOnOffer`).
- The comment on `vehicleTransitions` says that terminal states need force: overlapping patches and the completion of a
  booking leave SOLD without it (`Bookings.OverlappingPatchesLeaveSold`, `Bookings.CompletionLeavesSold`); exactly which
  statements do is `Bookings.TerminalChangesExactlyWhen`.
- The engine cuts only a question that leads to itself: a customer can be kept answering without end exactly when some
  answers lead from a cursor back to it (`Circuits.EndsExactlyWithoutCircuits`), for example through two questions that
  point to each other (`Circuits.MutualPointersNeverEnd`).
- The seeded questions invite the answer "Any"; number questions know any-phrases only in lower case and reject it
  (`Validate.WordsOnNumberQuestions`, `Validate.TitleCaseAnyIsRejected`).
- "k lakh" and "kL" are one budget, among figures that fit 64 bits, only while eight times the figure fits too
  (`Budgets.LakhSpellingsAgree`). Beyond that products wrap, and the spellings agree again here and there: exactly when
  is `Budgets.LakhSpellingsAgreeExactlyWhen`, and two such figures are in `Budgets.AgreementBeyondTheRange`.
- With a known mileage, a vehicle older than fifteen years is worth no less than one a year newer, and can be worth more
  (`Valuation.NewerWithMileage`, `Valuation.OlderCanBeWorthMore`).
- A stock line that begins with "Incoming Stock" and names another location loses those two words, and its record
  is that of the line without them (`StockRecords.OverriddenIncomingIsForgotten`). A mileage of commas alone stops
  the script; `MileageOfCommas` stands for that.

## Model

| member | source | states |
|---|---|---|
| `Lease.Worker.ClaimLeadership` | internal/whatsapp/worker.go:217-252 | the claim gives the row to the caller exactly when the caller owns it, nobody does, or it is over 90 s old; otherwise the row is untouched |
| `Lease.RunKeepsInv` | internal/whatsapp/worker.go:388-465 | over every run of any processes, whoever claimed within the last 90 s owns the row, with the time of that claim |
| `Lease.HandoverNeedsSilence` | internal/whatsapp/worker.go:224-246 | in every reachable fleet the lease passes between owners only when the old owner's last claim is over 90 s old |
| `Lease.AtMostOneFreshClaim` | internal/whatsapp/worker.go:438-450 | at every moment of every run at most one process has claimed within 90 s; of processes with an open socket all others are stale |
| `Lease.HeartbeatSucceedsWhileFresh` | internal/whatsapp/worker.go:623-629 | a holder's heartbeat succeeds whenever it is due in time, and fails exactly when another owns a fresh row |
| `Lease.SecondSocketExactlyWhenStale` | migrations/09_whatsapp_leader.sql:1-13 | a second process gets onto the socket beside the owner if and only if the owner's claim is stale |
| `Lease.PairingWindowAllowsTwoSockets` | internal/whatsapp/worker.go:640-696 | a concrete run in which pairing outlives the lease and two sockets are open |
| `Lease.LingeringSocketStays` | internal/whatsapp/worker.go:655-658 | a socket left open by pairing stays open over every run in which others keep a fresh lease |
| `Lease.LingeringSocketClosesExactlyWhenElected` | internal/whatsapp/worker.go:499-504 | the old client is disconnected exactly when its process's next claim succeeds |
| `Bookings.Server.CreateBooking` | internal/api/crud.go:684-742 | on its own the transaction books exactly a vehicle on offer without an active booking and reserves it, and reports every refusal |
| `Bookings.Server.PatchVehicle` | internal/api/crud.go:259-314 | the status changes exactly along the transition table, to itself, or by force; a missing vehicle and a refused transition change nothing |
| `Bookings.Server.PatchBooking` | internal/api/crud.go:744-777 | for any booking and state: what is written, a status that the unique index refuses not; consistency survives if and only if the patch neither revives a booking of a vehicle on offer nor cancels a finished booking of a vehicle that another one holds |
| `Bookings.RunKeepsInv` | internal/api/crud.go:684-777 | every careful interleaving keeps consistency, that a lock is held by one live transaction, and that nobody frees a vehicle that another booking has |
| `Bookings.EveryInterleavingIsConsistent` | migrations/02_fullflow.sql:91-94 | from an idle, consistent state every careful interleaving has at most one active booking per vehicle and none on a vehicle on offer |
| `Bookings.BookingsAgainstSalesAreConsistent` | scripts/races.py:85-103 | bookings interleaved with staff patches to any status but AVAILABLE stay consistent without any care |
| `Bookings.ExactlyOneBookingWins` | scripts/races.py:45-49 | of any number of interleaved bookings of one free vehicle exactly one commits, or every one of them died; all others are turned away |
| `Bookings.UninterruptedBookingIsCreated` | internal/api/crud.go:698-738 | the four statements run without interruption do what the handler does as a whole |
| `Bookings.StaffPatchIsSafeExactlyWhen` | internal/api/crud.go:279-314 | a staff patch keeps consistency if and only if it does not put a vehicle with an active booking on offer |
| `Bookings.WriteIsSafeExactlyWhenCareful` | internal/api/crud.go:300-314 | it keeps the invariant of all handlers if and only if the vehicle it offers has no active booking and is not being freed |
| `Bookings.FreeingUnderwayAndPatch` | internal/api/crud.go:765-768 | offering a vehicle that is being freed: each statement consistent, until the freeing hits the next booking |
| `Bookings.UpdateIsSafeExactlyWhen` | internal/api/crud.go:757-761 | the UPDATE of a booking keeps consistency if and only if the index refuses it, the booking is active, it is not made active, or its vehicle is not on offer |
| `Bookings.RevivedBookingIsOnOffer` | internal/api/crud.go:757-761 | confirming a cancelled booking of a vehicle on offer breaks consistency |
| `Bookings.FreeingIsSafeExactlyWhen` | internal/api/crud.go:765-775 | freeing a vehicle keeps consistency if and only if no active booking holds it at that moment or it is not held |
| `Bookings.CancelThenRebook` | internal/api/crud.go:744-777 | one cancellation and a rebooking are fine while a second cancellation still waits with its old reading |
| `Bookings.DoubleCancelFreesABookedVehicle` | internal/api/crud.go:744-777 | that second cancellation then leaves an active booking on a vehicle on offer |
| `Bookings.TerminalChangesExactlyWhen` | internal/api/crud.go:245-262 | in every reachable world exactly two statements change a SOLD or DELIVERED vehicle: the UPDATE of a cleared patch to another status, and the completion of a booking of a SOLD one |
| `Bookings.TerminalStaysExactlyWhen` | internal/api/crud.go:245-262 | over every run a terminal status is kept throughout if and only if no statement is one of those |
| `Bookings.OrderlyKeepsTerminal` | internal/api/crud.go:245-262 | the table binds when nobody else writes a vehicle between a patch's check and its UPDATE, none is forced, and no booking of a sold vehicle is completed |
| `Bookings.OverlappingPatchesLeaveSold` | internal/api/crud.go:250-299 | from every idle state two overlapping patches take a vehicle on offer into SOLD and out again, which no transition leaves |
| `Bookings.CompletionLeavesSold` | internal/api/crud.go:769-773 | and completing the booking of a vehicle sold meanwhile makes it DELIVERED, with no overlap |
| `Bookings.ForcedPatchLeavesSold` | internal/api/crud.go:279-299 | a patch takes a vehicle out of SOLD by itself exactly when it is forced |
| `Followups.Queue.Settle` | internal/scheduler/followups.go:77-91 | a claimed row ends sent, pending or deleted again, or still claimed when the pass dies before or after the send |
| `Followups.Queue.RunOnce` | internal/scheduler/followups.go:41-92 | one pass makes stale rows pending, claims the due rows picked, at most twenty, and settles each, leaving every other row alone |
| `Followups.Queue.RemindTestDrives` | internal/scheduler/followups.go:96-151 | one pass deletes stale rows, then inserts and settles each due reminder that has no row |
| `Followups.RowsAreSeparate` | internal/scheduler/followups.go:41-151 | no statement lets one row decide what happens to another |
| `Followups.StepKeepsRowInv` | internal/scheduler/followups.go:41-151 | every statement keeps sends done and to come within the licences: the one out now, one per cut after a send, one per claim taken from a working pass |
| `Followups.SendsAreLicensed` | internal/scheduler/followups.go:41-151 | over every interleaving of any passes a row is sent at most 1 + cuts + steals times |
| `Followups.SecondWorkerClaimsExactlyWhenOverdue` | internal/scheduler/followups.go:44-53 | a second worker gets a row that is being worked on if and only if it is over ten minutes overdue |
| `Followups.OverdueFollowupIsSentTwice` | internal/scheduler/followups.go:44-91 | for every overdue follow-up a run of two workers without a cut that sends it twice |
| `Followups.ReminderSucceedsAtMostOnce` | migrations/03_deepqa.sql:22-25 | overlapping workers, failing sends and retries, short passes and no cut: at most one successful reminder, and its claim is never abandoned |
| `Followups.AbandonedReminderCanBeSentTwice` | internal/scheduler/followups.go:44-99 | conversely, from every abandoned claim short passes without a cut send the reminder two times more |
| `Followups.SentAtMostOncePlusCuts` | internal/scheduler/followups.go:20-39 | a single loop, any ticks, failures and interruptions: each follow-up and reminder is sent at most 1 + k times, k its passes cut between send and mark; sent is final |
| `Outbox.Box.Enqueue` | internal/whatsapp/worker.go:1250-1261 | a reply is queued unless the same body already waits for that phone |
| `Outbox.Box.OldestPending` | internal/whatsapp/worker.go:1276-1281 | the batch is exactly the twenty oldest pending rows, or all of them, in order |
| `Outbox.Box.Attempt` | internal/whatsapp/worker.go:1293-1305 | one send: sent, one attempt more, or failed for good at the tenth |
| `Outbox.Box.FlushOutbox` | internal/whatsapp/worker.go:1268-1307 | a connected flush attempts exactly the batch, each row once; unconnected it does nothing |
| `Outbox.FlushKeepsValid` | migrations/04_dedup.sql:9-10 | pending rows keep 0 to 9 attempts, failed ones exactly 10, and no phone and body wait twice |
| `Outbox.FlushUsesAttempts` | internal/whatsapp/worker.go:1268-1307 | each flush takes at least min(20, pending) off the attempts left over all pending rows |
| `Outbox.SmallQueueEmpties` | internal/whatsapp/worker.go:1268-1307 | a queue of up to twenty is empty after as many flushes as any row has attempts left |
| `Outbox.QueueDrains` | internal/whatsapp/worker.go:1263-1307 | any queue is empty after attempts-left / 20 + 10 flushes, every row sent or failed ten times |
| `Inbound.Tables.UpsertCustomer` | internal/whatsapp/worker.go:1351-1365 | finds the phone's customer or creates it, and fills in a name only where none was known |
| `Inbound.Tables.OpenSession` | internal/whatsapp/worker.go:1367-1388 | finds the open conversation, or closes an idle one and opens another that keeps the old takeover flag for this message |
| `Inbound.Tables.PickLead` | internal/whatsapp/worker.go:1389-1397 | takes the latest lead unless the session is new or the lead is finished |
| `Inbound.Tables.Reply` | internal/whatsapp/worker.go:1399-1479 | stores the message; then silence under takeover, else a review with its thanks, else the engine's changes and reply |
| `Inbound.Tables.HandleDelivery` | internal/whatsapp/worker.go:1330-1479 | a whole delivery, text or photo, equals the functional model, and a repeated id changes nothing |
| `Inbound.RepeatsLeaveNoTrace` | internal/whatsapp/worker.go:1338-1343 | any sequence of deliveries ends in the very state that its first occurrences alone lead to |
| `Inbound.FailedDeliveryIsLost` | internal/whatsapp/worker.go:1338-1349 | the price of marking ids first: a message whose transaction failed is ignored whenever it is delivered again, whatever came between |
| `Inbound.SessionKeepsInv` | internal/whatsapp/worker.go:1367-1388 | the session used is open and the customer's, and is new exactly when every open one was idle for over thirty minutes, or there was none |
| `Inbound.OneCustomerAndOneOpenChat` | internal/whatsapp/worker.go:1351-1388 | over any deliveries: one customer per phone, at most one open conversation per customer |
| `Inbound.EveryFirstDeliveryIsStoredOnce` | internal/whatsapp/worker.go:1399-1401 | over any deliveries the stored inbound messages grow by exactly the number of first occurrences that commit |
| `Inbound.NothingIsLostExactlyWhen` | internal/whatsapp/worker.go:1338-1349 | every message is stored if and only if every first occurrence commits |
| `Inbound.SilenceExactlyUnderTakeover` | internal/whatsapp/worker.go:1403-1412 | a message that goes through is stored, and no reply with it if and only if the open conversation is taken over |
| `Inbound.TakeoverEndsExactlyByTimeout` | internal/whatsapp/worker.go:1375-1388 | a text ends a takeover if and only if the conversation was idle for over thirty minutes |
| `Inbound.TakeoverOutlivesItsSessionByOneMessage` | internal/whatsapp/worker.go:1367-1412 | under takeover a text gets no reply, and the message after it gets one if and only if the text came after the timeout |
| `Inbound.EachPromptYieldsOneReview` | internal/whatsapp/worker.go:1416-1450 | over any deliveries a lead's reviews and its waiting prompt add up to what they were: one review a prompt |
| `Windows.RecentOfRecent` | internal/whatsapp/worker.go:158-172 | pruning early loses nothing: pruning a pruned list later is pruning the whole history |
| `Windows.SpacingBoundsEveryWindow` | internal/auth/auth.go:43-59 | when any n + 1 consecutive entries stretch over a window, no half-open window, wherever it starts, holds more than n |
| `RollingLogs.RollingLog.Prune` | internal/whatsapp/worker.go:256-268 | the in-place compaction keeps exactly the young entries, in order, in the same array |
| `RollingLogs.RollingLog.Note` | internal/whatsapp/worker.go:158-172 | prune and append: the length is the number of events of the last window in the whole history |
| `RollingLogs.RollingLog.Count` | internal/whatsapp/worker.go:256-268 | the count equals filtering the whole history since the last wipe, whatever was pruned before |
| `RollingLogs.RollingLog.Wipe` | internal/whatsapp/worker.go:779-800 | wiping forgets every event: the history starts anew |
| `RollingLogs.RecordAutoRepair` | internal/whatsapp/worker.go:806-824 | granted exactly when at most three logouts, this one included, fall into the last half hour |
| `RollingLogs.AtMostThreeRepairsInAnyHalfHour` | internal/whatsapp/worker.go:802-824 | every half-open half hour of every history sees at most three granted repairs |
| `LoginLimiter.Limiter.LoginBlocked` | internal/auth/auth.go:31-41 | blocks exactly while the ban lasts, lifts it afterwards, and touches no other address |
| `LoginLimiter.Limiter.LoginFail` | internal/auth/auth.go:43-59 | keeps the failures of the last five minutes and this one, and on the tenth bans and forgets |
| `LoginLimiter.Limiter.Login` | internal/auth/auth.go:150-171 | one attempt moves its own address by the gate, the failure or the success, and no other address |
| `LoginLimiter.AtMostTenFailuresInAnyWindow` | internal/auth/auth.go:31-59 | whatever the times of failing attempts, every half-open five minutes holds at most ten that were let through |
| `LoginLimiter.StoredListIsRecentFailures` | internal/auth/auth.go:43-59 | the stored list is the failures since the last ban that were younger than five minutes at the last of them, at most nine |
| `LoginLimiter.BlockedWhileBanned` | internal/auth/auth.go:31-41 | an attempt is turned away if and only if the last ban is under five minutes old |
| `LoginLimiter.TenAreLetThrough` | internal/auth/auth.go:43-59 | the bound is reached: ten failures at one instant count, the eleventh attempt is blocked |
| `RateLimiter.IpLimiter.Allow` | internal/api/prod.go:60-70 | one hit moves its own address's window and no other |
| `RateLimiter.AddressesAreIndependent` | internal/api/prod.go:43-70 | after any run an address's window is the one its own requests alone would leave |
| `RateLimiter.FewerThanTwoLimitsInAnyInterval` | internal/api/prod.go:60-70 | every half-open interval of one window length lets through at most 2 * limit - 1 requests of an address |
| `RateLimiter.BoundIsMet` | internal/api/prod.go:60-70 | for every limit some run reaches that number |
| `Validate.AllHold` | internal/botengine/validate.go:160-181 | the early-returning scan accepts exactly when every part that can be read as a limit holds |
| `Validate.MinMaxRule` | internal/botengine/validate.go:160-181 | for all limits the printed rule min:lo,max:hi accepts exactly the numbers from lo to hi |
| `Validate.NumberAnswerIsWithin` | internal/botengine/validate.go:56-98 | through all four readings, what is recorded for a number is a decimal that meets every limit of the rule |
| `Validate.SelectAnswer` | internal/botengine/validate.go:100-125 | an accepted choice is one of the allowed values |
| `Validate.RecordedAnswersAreWellTyped` | internal/botengine/validate.go:15-158 | any recorded answer fits its question: number, choice, yes/no, or blank where optional |
| `Validate.ZeroOutsideTheRuleIsAnAnyPhrase` | internal/botengine/validate.go:26-42 | a recorded 0 that breaks the rule came from an any-phrase |
| `Validate.WordsOnNumberQuestions` | internal/botengine/nlp.go:212-220 | an answer without digits is accepted by a number question if and only if it is an any-phrase as typed |
| `Validate.TitleCaseAnyIsRejected` | internal/botengine/nlp.go:212-220 | "any" is recorded as 0 and "Any" is rejected |
| `Validate.DigitsPickByPosition` | internal/botengine/validate.go:100-104 | a number k always picks the k-th choice, whatever the choices are called |
| `Engine.Least` | internal/botengine/engine.go:323-331 | the first question, or the next by order index: the least index among the eligible, the eldest among equals |
| `Engine.Router` | internal/botengine/engine.go:356-376 | the condition that should route: of those that apply, least priority, then eldest |
| `Engine.SortedScanFindsRouter` | internal/botengine/engine.go:358-376 | the first hit in the sorted rows is that condition |
| `Engine.EvaluateNextStep` | internal/botengine/engine.go:356-392 | the loop over the rows chooses the declared route: router, else pointer, else least larger order index |
| `Engine.Conversation.CompleteFlow` | internal/botengine/engine.go:454-607 | the cursor is cleared; a filed sell request ends sell mode, otherwise a matching flow records what it matched |
| `Engine.Conversation.RestartFlow` | internal/botengine/engine.go:432-452 | the cursor goes to the flow's first question, data and log untouched |
| `Engine.Conversation.ResetConversation` | internal/botengine/engine.go:291-315 | the cursor goes to the entry flow's first question, or nowhere without one |
| `Engine.Conversation.AnswerPhotoQuestion` | internal/botengine/engine.go:169-213 | skip, done, a photo or a remark: counts kept as the source keeps them, and all but a first photo complete the flow |
| `Engine.Conversation.FollowRoute` | internal/botengine/engine.go:233-288 | switching flows, the loop guard and the missing question, in the source's order |
| `Engine.Conversation.ProcessMessage` | internal/botengine/engine.go:93-288 | the statements of one message together equal the step function that the theorems are about |
| `EngineRuns.IndexAgreesWithLog` | internal/botengine/engine.go:215-231 | over any messages and resets, every field but the engine's own keys holds the last answer logged for it, else what it held before |
| `EngineRuns.OneMessageOneAnswer` | internal/botengine/engine.go:159-218 | a message logs nothing or the one accepted answer to the question at the cursor; a rejected one changes nothing |
| `EngineRuns.OneMessageOneQuestion` | internal/botengine/engine.go:232-288 | the cursor stays exactly on a rejection or a first photo, clears exactly on completion, and otherwise moves to one active question, logging one answer |
| `EngineRuns.CursorIsLiveAndLogIsTyped` | internal/botengine/engine.go:140-231 | over every run the cursor stands at an active question or nowhere, and every logged answer fits the question it is logged for |
| `EngineRuns.PhotosAreCounted` | internal/botengine/engine.go:169-213 | a photo adds one, "done" without photos counts two, nothing else changes the count, and the note read back as a number is the count |
| `EngineRuns.ResetIsAFreshStart` | internal/botengine/engine.go:291-315 | after a reset every later conversation goes on as from a first message, with data and log kept |
| `EngineRuns.RouteDescends` | internal/botengine/engine.go:356-392 | where pointers, conditions and order indexes lower a depth, so does every route taken |
| `EngineRuns.AcceptedAnswerIsProgress` | internal/botengine/engine.go:159-288 | there, an accepted answer completes the flow or leaves strictly fewer answers to give |
| `EngineRuns.DriveIsBounded` | internal/botengine/engine.go:159-288 | there, no more answers are accepted than the depth of the question and the photos wanted, whatever is said |
| `EngineRuns.FlowsEnd` | internal/botengine/engine.go:159-288 | where pointers and conditions lead onward, a flow is complete once as many answers are accepted as there are active questions, plus one photo |
| `EngineRuns.FallbackAloneEnds` | internal/botengine/engine.go:382-391 | without pointers and conditions every conversation ends within that bound, with nothing assumed about the order |
| `Circuits.CircuitNeverEnds` | internal/botengine/engine.go:265-271 | answers that lead from a cursor back to it can be repeated any number of times: all accepted, nothing complete |
| `Circuits.NoCircuitEnds` | internal/botengine/engine.go:159-288 | without such a circuit within reach no more answers are accepted than there are cursors, plus the photos wanted |
| `Circuits.EndsExactlyWithoutCircuits` | internal/botengine/engine.go:159-288 | the accepted answers are bounded, over everything a customer can say, if and only if no circuit is within reach |
| `Circuits.NoRecurrenceEnds` | internal/botengine/engine.go:159-288 | where no question can recur, no more answers are accepted than there are active questions, plus the photos wanted |
| `Circuits.OneFlowEndsExactlyWithoutCircuits` | internal/botengine/engine.go:232-288 | where no condition names another flow, the bound of active questions plus one holds if and only if no circuit is within reach |
| `Circuits.MutualPointersNeverEnd` | internal/botengine/engine.go:265-271 | two questions without conditions that point to each other are never left |
| `Circuits.RecurringQuestionStillEnds` | internal/botengine/engine.go:232-260 | a question may recur in another flow without a circuit: three active questions, five answers, and the flow is complete |
| `SeededBot.SeededIsOrdered` | migrations/10_rule_engine.sql:86-134 | the seeded flows lead onward |
| `SeededBot.SeededFlowsEnd` | migrations/12_sell_photos.sql:1-34 | a customer of the seeded bot is done after at most eleven accepted answers |
| `SeededBot.ElevenAreReached` | migrations/12_sell_photos.sql:1-34 | selling, "any" to every question and two photos: eleven are accepted, and the flow is complete with the last |
| `SlotChat.Chat.Bank` | internal/whatsapp/statemachine_test.go:8-20 | folding a patch entry by entry overwrites exactly its keys |
| `SlotChat.Chat.Receive` | internal/whatsapp/statemachine_test.go:8-20 | one message moves the stored chat by Next, wiping before the patch is folded; the state stays the first missing slot, only DONE loses an answer, a move fills a slot |
| `SlotRuns.BudgetStepIsGood` | internal/whatsapp/statemachine.go:632-688 | the budget step leads to the first missing slot, never blanks a filled one, never learns a model without its brand |
| `SlotRuns.BrandStepIsGood` | internal/whatsapp/statemachine.go:689-749 | so does the brand step, through its five ways of reading a name and its shortcut to fuel |
| `SlotRuns.ModelStepIsGood` | internal/whatsapp/statemachine.go:750-773 | so does the model step |
| `SlotRuns.FuelStepIsGood` | internal/whatsapp/statemachine.go:774-796 | so does the fuel step |
| `SlotRuns.TransStepIsGood` | internal/whatsapp/statemachine.go:797-819 | so does the transmission step |
| `SlotRuns.AskIntentIsGood` | internal/whatsapp/statemachine.go:573-631 | so does the menu, also when a vehicle is named without an intent |
| `SlotRuns.NextIsGood` | internal/whatsapp/statemachine.go:515-947 | from any state: the next state is valid, filled slots are kept unless DONE wipes them, a slot state is the first missing one |
| `SlotRuns.SlotStateIsFirstMissing` | internal/whatsapp/statemachine.go:471-491 | along every conversation a state that waits for a slot is exactly nextMissingBuy of the data |
| `SlotRuns.NewChatsAreKept` | internal/whatsapp/statemachine.go:471-491 | in particular from NEW with no data |
| `SlotRuns.FilledStaysFilled` | internal/whatsapp/statemachine.go:557-572 | a filled slot stays filled until DONE wipes the answers |
| `SlotRuns.MoveFillsASlot` | internal/whatsapp/statemachine.go:632-827 | each move between slot states strictly lowers the number of missing slots |
| `SlotRuns.MovesAreBounded` | internal/whatsapp/statemachine.go:632-827 | between wipes there are at most as many moves as slots get filled, so at most six |
| `SlotRuns.VehicleIsStored` | internal/whatsapp/statemachine.go:586-750 | a vehicle named in full at the menu or the brand step is known by its brand and its model, in this order |
| `SlotRuns.AnswerIsStored` | internal/whatsapp/statemachine.go:750-819 | the model, fuel and transmission steps store what they read off the message in the slot asked for, and elsewhere only the message's hints |
| `SlotRuns.TappingZeroEnds` | internal/whatsapp/statemachine.go:237-245 | a customer who only taps 0 sees the results after as many taps as slots were missing |
| `SlotChat.Drive` | internal/whatsapp/statemachine_test.go:8-20 | the driving loop ends in the state and data of the functional run, in a valid state |
| `Prices.GroupingsAgree` | internal/botengine/matching.go:180-199 | two groupings print a number alike if and only if they put commas in the same places |
| `Prices.PrintPrice` | internal/botengine/matching.go:180-199 | the loop that cuts pairs off from the right prints Indian grouping, for every int |
| `Prices.PrintWithCommas` | internal/whatsapp/photos.go:183-196 | the loop from the left prints groups of three, for every int |
| `Prices.PrintersDifferInCommasOnly` | internal/whatsapp/photos.go:183-196 | both print the decimal apart from commas, and agree exactly up to five characters |
| `Prices.NumberOfPrinted` | internal/botengine/matching.go:216-240 | getNumber reads back what formatPrice printed, for every 64-bit int |
| `Budgets.ReadBudget` | internal/whatsapp/statemachine.go:34-90 | the collecting loop reads the specified range |
| `Budgets.BareFigure` | internal/whatsapp/statemachine.go:34-90 | from 1,000 up a bare figure n is the greatest price while it fits 64 bits, else nothing; the least is 8n/10 if and only if 8n fits |
| `Budgets.RupeeFigure` | internal/whatsapp/statemachine.go:34-90 | the printed price of n behind a rupee sign is read as n written out, for every n |
| `Budgets.LakhSpellingsAgreeExactlyWhen` | internal/whatsapp/statemachine.go:54-85 | for every k "k lakh" and "kL" are one budget if and only if k does not fit 64 bits or ten times the wrapped least price of "kL" fits |
| `Budgets.LakhSpellingsAgree` | internal/whatsapp/statemachine.go:54-85 | among figures that fit, if and only if eight times the figure fits, and then both are the budget meant |
| `Budgets.WrittenOutExactlyWhen` | internal/whatsapp/statemachine.go:54-85 | the figure written out is "k lakh" if and only if it fits, or k does not, or the product wraps to zero |
| `Budgets.BeyondTheBound` | internal/whatsapp/statemachine.go:54-85 | just beyond that, the spelled lakh overflows to a negative least price and the short form does not |
| `Budgets.AgreementBeyondTheRange` | internal/whatsapp/statemachine.go:54-85 | 2^59 lakhs are no budget in every spelling; 922337203685478 lakhs are one small budget in both short ones |
| `Valuation.EstimateVehicleValuation` | internal/botengine/valuation.go:9-92 | the loop and the adjustments compute the specified value |
| `Valuation.ValueIsRoundAndBounded` | internal/botengine/valuation.go:79-91 | always a multiple of 5,000 from 75,000 to 95,000,000, whatever price was named |
| `Valuation.MileageNeverRaises` | internal/botengine/valuation.go:46-55 | more kilometres never raise the value, across the change of slope |
| `Valuation.ConditionNeverLowers` | internal/botengine/valuation.go:57-69 | a better condition never lowers it, even when the mileage makes the estimate negative |
| `Valuation.NewerNeverLowersWithoutMileage` | internal/botengine/valuation.go:32-44 | with unknown mileage a newer year never lowers it |
| `Valuation.NewerWithMileage` | internal/botengine/valuation.go:32-55 | with known mileage one year newer is worth no less up to fifteen years of age, and no more beyond |
| `Valuation.OlderCanBeWorthMore` | internal/botengine/valuation.go:32-55 | a premium car of 2011 with one kilometre: 500,000, the same of 2010: 505,000 |
| `StockParser.SplitMerged` | scripts/parse_pasted_stock.py:44-57 | registration and chassis split off a merged token join to it again |
| `StockParser.FirstMatchIsLongest` | scripts/parse_pasted_stock.py:151-169 | the first name that fits, longest first, is the longest that fits |
| `StockParser.FindUpholstery` | scripts/parse_pasted_stock.py:226-235 | the descending loop finds the longest upholstery among the last seven tokens, else takes the last one |
| `StockParser.ParseLine` | scripts/parse_pasted_stock.py:141-237 | the cursor reads exactly the columns that the functional parser reads, with the same rejections |
| `StockParser.LineIsRebuilt` | scripts/parse_pasted_stock.py:141-237 | an accepted line is its columns in order, token by token, if and only if "Incoming Stock" was not overridden by a location |
| `StockParser.ChoicesAreLongest` | scripts/parse_pasted_stock.py:151-235 | location, brand and upholstery are the longest that fit |
| `StockRecords.RecordRebuildsLine` | scripts/parse_pasted_stock.py:236-250 | the line can be rebuilt from its record plus merge flag, parentheticals, mileage spelling and the corrected misspelling, if and only if "Incoming Stock" was not overridden |
| `StockRecords.OverriddenIncomingIsForgotten` | scripts/parse_pasted_stock.py:144-158 | an overridden "Incoming Stock" leaves no trace in the record |

## Left out

- The fail-open branch of `claimLeadership` (database missing or failing) and equal instance ids: the lease theorems assume a reachable database and distinct ids.
- The socket library, pairing screens, HTTP routing, JSON, JWT and password hashing, files and images, SQL text: sends are success or failure, statements are atomic.
- The keyword lists and regular expressions of the language layer (`nlp.go`) and its branches that answer, jump or clear the cursor themselves: the engine is modelled for messages that pass through untouched.
- Spacing of sends by two seconds, concurrent outbox flushers, what clears `parked`.
- `Inbound.Tables.Reply`: the engine is a parameter; where review prompts and bookings come from is not modelled, only which leads have one.
- `Inbound.Handle`: a store whose dedup insert itself fails is not modelled, nor several phones at once, which the phone locks separate.
- `Bookings.EveryInterleavingIsConsistent`: needs careful runs; a staff patch that offers a booked vehicle or one being freed, and a revived booking, break it: `StaffPatchIsSafeExactlyWhen`, `FreeingUnderwayAndPatch` and `RevivedBookingIsOnOffer`.
- `Followups.Queue.RunOnce`: which of the due rows form the batch of twenty is left open; the order by `scheduled_at` is not in the contract.
- `Followups.Queue.RemindTestDrives`: the due test drives are given, and the check for other texts of the same drive is left out.
- `Followups.SentAtMostOncePlusCuts`: delivery at least once is not claimed, since a stale claim can be deleted; a test drive that is rescheduled has another reminder text and counts as another slot.
- `LoginLimiter.Limiter.Login`: an attempt is atomic; bad JSON, which counts as nothing, is not a step.
- `Engine.Conversation.AnswerQuestion`: how an operator's spelling is read, and the casing and spacing of type names.
- `Validate.Validate`: regular expressions, e-mail addresses, phone digits, and the readers of years and budgets are parameters; letters are ASCII when folded.
- `Engine.Conversation.CompleteFlow`: the row of the sell request, lead status, intent and reply texts; the matcher is reduced to the ids it records.
- `Engine.EvaluateNextStep`: rows of one table are ordered by creation, so two created in the same instant are not modelled; infinite numbers in comparisons are not either.
- `EngineRuns.IndexAgreesWithLog`: one conversation per lead, and a bot that is not edited while a customer is in it.
- `Circuits.EndsExactlyWithoutCircuits`: no question may be asked for the engine's own photo counter, which an answer could then set to any number.
- `SlotMachine.Next`: reply texts are named, not spelled; numbers, choices and names in a message are read by parameters, of which only one promise is used: no model without a brand.
- `SlotChat.Chat.Receive`: the worker's page and photo side effects of a patch, and a patch as a map that the handlers assign to entry by entry: it is built as a value.
- `Valuation.Value`: floating point is exact, so the theorems are about reals.
- `Budgets.ParseBudget`: the currency words are modelled, their spellings beyond the rupee sign are not proved.
- `StockParser.ParseLine`: the columns right of the status; word lists are parameters, and letters and digits ASCII.
- Calendar and time-zone parsing, listing and admin handlers, configuration, load and persona scripts.
