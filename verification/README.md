# A verified model of the barbershop assistant

The system answers a barbershop's customers on WhatsApp. Messages arrive in an inbox, a language
model drafts the answers and may call scheduling tools, bookings live in an agenda shared by several
chairs, and replies leave through an outbox. This project models the parts whose correctness is
hardest to see from the code and proves what they promise.

| files | subject |
|---|---|
| `Prelude`, `Calendar` | filtering, stable sorting, runs of steps; dates, fixed-offset time, HH:MM text, months |
| `Agenda`, `AgendaSafety`, `SchedulingService` | the scheduling tables, the create, cancel and reschedule transactions, and what every run of them keeps |
| `Availability`, `AvailabilityAgreement` | the slot grid walked with one prefetch per chair, and its exact agreement with booking |
| `Packing` | the dashboard's available minutes bound the booked minutes of every reachable agenda |
| `ConcurrentBooking` | check and write as separate steps of many workers, with the table constraints deciding at the write |
| `PendingActions`, `SchedulingActionService`, `ActionProtocol`, `ActionDeadlines`, `MessageOrder` | prepare, then confirm from a different message: the statements, the service, every crash point between its three commits, what the deadline bounds, and which message may confirm which |
| `PreviewFaithfulness`, `RescheduleFaithfulness` | what was shown to the customer is what is booked, and where an appointment is moved |
| `ToolLoop` | the language model as an adversary that may call any tool in any order |
| `InboundQueue`, `InboundSafety`, `InboundProcessor` | debounced registration, claims that absorb older fragments, retries, termination, one worker cycle |
| `OutboundQueue`, `Delivery` | the deduplicated outbox, and the delivery protocol over both queues and any number of workers |
| `Conversation` | how buffer and history divide the customer's texts between them |
| `HoursSeed` | reconciling stored opening hours with the shop's catalog |

Objects that update fields are classes whose methods are proved equal to a specification function;
the lemmas then speak about those functions, over all inputs and all runs. `dafny verify
dfyconfig.toml` covers every file.

How the tables are read:

- A table is a sequence of rows that never shrinks; a row's id is its position, so ids are fresh by construction.
- A customer is its unique (instance, phone) pair. Instants are whole seconds and the shop's zone is a fixed offset, as in the fallback of `app/domain/scheduling.py:64-70`.
- Clock readings, random confirmation codes, answers of the messaging API and everything the language model says are arbitrary inputs.
- The fingerprint hash and the explicit-confirmation and explicit-rejection phrases are arbitrary fixed functions.
- Each committed transaction is one step. Row locks and `SKIP LOCKED` make a claim one atomic step; partial unique indexes and the exclusion constraint are conditions evaluated at the write.

What the code does that a reader might not expect, each proved below:

- Repeating a request under its idempotency key is refused once the appointment was moved to another chair or start (`ReplayFailsAfterMove`, and `MovedBookingIsNotRepeated` for one concrete shop); it is answered exactly while both are unchanged (`RepeatIsAnsweredIffUnmoved`), and then even if the row is cancelled.
- A confirmation whose execution fails is never marked failed. The recovery looks for the row among those awaiting confirmation, but it is executing by then, so it stays executing for ever and is never run again (`FailedExecutionIsAbandoned`, `AbandonedForEver`).
- The "confirmation data changed" branch cannot be reached: the preview is compared with a hash stored together with it (`DataNeverChanges`).
- Seconds in a requested start are validated by prepare and dropped by the stored HH:MM text, so confirm may refuse what prepare accepted (`PreparedSecondsMayBeRefused`, `OneSecondIsRefused`); `PreparedIsBookedIff` gives the exact condition.
- Two equally new fragments of a conversation are both claimed (`EqualTimesAreBothClaimed`). A batch takes at most one message per conversation, whatever its size, exactly when there is no such tie (`OnePerConversationIff`); everything else the debounce promises holds with ties too (`DebouncedClaim`).
- The booked-minutes bound needs no disjointness of the opening intervals (`PackingBound`).
- The confirmation deadline bounds the claim and not the agenda transaction that follows it: an action claimed in time can be booked after its deadline (`LateExecutionBooks`), because that transaction never looks at the deadline (`ExecutionIgnoresDeadline`). The executions of a run are in time exactly when each is by its own clock (`RunIsInTimeIff`).
- The desk asks for a different message, not for a newer one: an older message that is still being processed can confirm what a newer one prepared (`OlderMessageConfirms`). `ConfirmedInOrderIff` says exactly when a run has no such confirmation, and `ReadInOrderConfirmsInOrder` gives an order of processing that excludes them.
- A reschedule that was checked before a concurrent cancellation still writes its new interval on the cancelled row (`CancelledRowIsMoved`); the exclusion constraint looks at scheduled rows only. A row that is not scheduled is final exactly when no worker still holds a checked move or cancellation of it that would write something new (`EndedRowIsFinalIff`).

## Model

| member | source | states |
|---|---|---|
| Calendar.CombineRoundTrip | app/domain/scheduling.py:73-89 | cutting an instant into a local date and a time of day, and joining them, are inverse |
| Calendar.HhmmRoundTrip | app/services/scheduling_action_service.py:147-153 | a start written as HH:MM and read back is that start without its seconds, never later, and shows the same text |
| Calendar.MonthLength | app/services/admin_dashboard_service.py:104-120 | the next month begins exactly as many days after this one as the month has, so the day-by-day walk and the query range cover the same days |
| Calendar.DaysBeforeYearClosedForm | app/services/admin_dashboard_service.py:163-175 | counting years one by one gives the ordinals of the closed leap-year formula |
| Calendar.MonthsAreInverse | app/services/admin_dashboard_service.py:104-113 | previous and next month undo each other |
| Agenda.OpenIntervalsInOrder | app/repositories/business_hours_repository.py:11-34 | a chair's active intervals of a weekday come in order of opening, each as often as the table holds it |
| SchedulingServices.FindOverlappingAppointments | app/repositories/appointment_repository.py:12-41 | the result is every scheduled row of that chair, other than the excluded one, that shares an instant with the interval, ordered by start; it is non-empty exactly when there is a conflict |
| SchedulingServices.GetActiveServicesByIds | app/repositories/service_repository.py:43-69 | success returns the snapshots in the requested order when all ids are known, distinct and bookable; an unknown or repeated id wins over an inactive one |
| SchedulingServices.AnyIntervalFits | app/domain/scheduling.py:133-143 | true exactly when start and end lie on one local day inside one opening interval |
| SchedulingServices.SchedulingService.NewConfirmationCode | app/services/scheduling_service.py:388-399 | the first of ten drawn codes that no row carries, or none when all are taken |
| SchedulingServices.SchedulingService.CheckSlot | app/services/scheduling_service.py:120-142 | notice, horizon, closed day, hours and overlap are refused in this order; otherwise the exact interval is returned |
| SchedulingServices.SchedulingService.CreateAppointment | app/services/scheduling_service.py:66-201 | new tables and result equal the specification: replay, conflict, or one new row with its snapshots and totals; every error leaves the tables as they were |
| SchedulingServices.SchedulingService.ReturnIdempotentReplay | app/services/scheduling_service.py:419-456 | the stored row is returned exactly when instance, chair, phone, start and ordered services all match |
| SchedulingServices.SchedulingService.InsertBooking | app/services/scheduling_service.py:104-181 | services, slot and code are settled before the row is added; running out of codes also undoes the customer update |
| SchedulingServices.SchedulingService.CancelAppointment | app/services/scheduling_service.py:242-275 | only the owner's scheduled row changes, to cancelled with its time and cleaned reason |
| SchedulingServices.SchedulingService.RescheduleAppointment | app/services/scheduling_service.py:277-358 | only chair and interval of the owner's scheduled row change, checked against every other row |
| AgendaSafety.CreateKeepsAgenda | app/services/scheduling_service.py:66-201 | a create keeps: no double booking, totals equal to the snapshot sums, interval as long as the total, unique keys and codes |
| AgendaSafety.CancelKeepsAgenda | app/repositories/appointment_repository.py:173-184 | a cancel keeps the same invariant |
| AgendaSafety.RescheduleKeepsAgenda | app/repositories/appointment_repository.py:187-198 | a reschedule keeps the same invariant, relying on the overlap check that ignores the moved row itself |
| AgendaSafety.RunKeepsAgenda | app/services/scheduling_service.py:137-161 | in every state reached by creates, cancels, reschedules and edits of catalog, hours and chairs, scheduled rows of a chair are disjoint and every total is conserved |
| AgendaSafety.RunExtends | app/repositories/appointment_repository.py:123-140 | whatever runs later, a row keeps its owner, code, key, ordered snapshots and totals, and a row that is no longer scheduled never changes at all |
| AgendaSafety.SuccessShape | app/services/scheduling_service.py:85-102 | a successful create, new or replayed, returns a stored row with the requested services in order, chair, start, owner and key |
| AgendaSafety.UsedKeyReplaysOrFails | app/services/scheduling_service.py:85-102 | with the key on a row the agenda never changes: the call returns that row if and only if the request matches it, and otherwise reports a conflict |
| AgendaSafety.KeyDenotesOneAppointment | app/database/models.py:314-315 | after one success with a key, over any run in between, every later success with it returns the same appointment and every later call leaves the agenda alone |
| AgendaSafety.ImmediateReplay | app/services/scheduling_service.py:419-456 | repeating a successful call at once replays its row on an unchanged agenda |
| AgendaSafety.RepeatIsAnsweredIffUnmoved | app/services/scheduling_service.py:442-456 | the very same request is answered later if and only if the row still has the chair and the start it was given |
| AgendaSafety.ReplayFailsAfterMove | app/services/scheduling_service.py:435-450 | after a reschedule to another start the creating request itself is refused as a conflict |
| AgendaSafety.MovedBookingIsNotRepeated | app/services/scheduling_service.py:442-450 | the concrete case: booked Monday at ten under a key, moved to eleven, the first request repeated, a conflict |
| Availability.PrefetchLosesNothing | app/services/availability_service.py:84-100 | for every slot inside the day, the whole table has a conflict exactly when one of the prefetched rows overlaps it |
| Availability.AnyOverlap | app/services/availability_service.py:110-128 | true exactly when some fetched row shares an instant with the slot |
| Availability.FreeFromStep | app/services/availability_service.py:104-133 | one turn of the cursor moves the slot under it, if free, from what is left to what was found |
| Availability.AvailabilityService.IsFree | app/services/availability_service.py:104-128 | the loop's three conditions over the prefetch equal notice, hours and conflict over the whole tables |
| Availability.AvailabilityService.TrySlot | app/services/availability_service.py:104-133 | the loop body neither loses nor invents a slot |
| Availability.AvailabilityService.WalkInterval | app/services/availability_service.py:100-133 | the cursor loop appends exactly the free slots of one opening interval, in order |
| Availability.AvailabilityService.WalkDay | app/services/availability_service.py:84-133 | the free slots of all the day's intervals, interval by interval |
| Availability.AvailabilityService.SlotsForResource | app/services/availability_service.py:72-135 | one chair's list, its intervals taken by opening time, equals the filter of its whole grid by the booking conditions on the full tables |
| Availability.AvailabilityService.CollectSlots | app/services/availability_service.py:60-70 | the lists of all chairs asked about, concatenated in order |
| Availability.AvailabilityService.ListAvailableSlots | app/services/availability_service.py:38-70 | errors in the code's order, otherwise the sorted list of all free grid slots |
| AvailabilityAgreement.CandidateMember | app/services/availability_service.py:100-108 | the cursor visits exactly the starts `opens_at + k * step` whose service ends by closing time |
| AvailabilityAgreement.AllSlotsMember | app/services/availability_service.py:50-70 | a slot is listed exactly when it is on the grid of a chair asked about and passes every booking check |
| AvailabilityAgreement.OfferedIffAccepted | app/services/availability_service.py:50-70 | a slot is offered if and only if a booking of exactly that slot on the grid is accepted in the same state, and then exactly the offered interval and chair are booked |
| AvailabilityAgreement.AcceptedDateIsListed | app/domain/scheduling.py:92-118 | whenever a booking is accepted, the availability question for its date and services has an answer |
| AvailabilityAgreement.BookingRemovesOverlaps | app/repositories/appointment_repository.py:21-27 | booking turns every slot list, for any chair, date, services and clock, into the same list filtered by non-overlap with the new row |
| AvailabilityAgreement.OtherChairsLoseNothing | app/repositories/appointment_repository.py:21-27 | the slot list of every other chair, and of every other shop, is exactly what it was before the booking |
| AvailabilityAgreement.CancellingRestoresSlots | app/repositories/appointment_repository.py:173-184 | cancelling that booking restores every slot list exactly, order included |
| Packing.AvailableMinutesForMonth | app/services/admin_dashboard_service.py:163-175 | the nested loop computes the sum, over the month's days, of the minutes of the intervals on that weekday |
| Packing.RunRespectsHours | app/services/scheduling_service.py:130-142 | with fixed hours, every scheduled row of every reachable state lies inside one active opening interval of its chair |
| Packing.BookedTicksCount | app/repositories/admin_dashboard_repository.py:163-180 | the counted minutes are the number of distinct minute marks the counted rows own, because rows that do not overlap share none |
| Packing.PackingBound | app/services/admin_dashboard_service.py:267-282 | in every reachable state the summed minutes of a chair, or of all chairs, in a local month are at most the month's available minutes |
| Packing.OccupancyAtMostFull | app/services/admin_dashboard_service.py:283-287 | the occupancy lies between 0 and 100, before and after rounding to two decimals, and without available minutes nothing is booked |
| ConcurrentBooking.NoInterleavingDoubleBooks | migrations/versions/202607050001_create_scheduling_domain.py:122-134 | with check and write interleaved among any number of crashing workers, no reachable state double-books a chair, reuses a key or code, or breaks a total |
| ConcurrentBooking.CheckThenWriteIsAtomic | app/services/scheduling_service.py:137-181 | an undisturbed check followed by its write is the atomic transaction |
| ConcurrentBooking.SecondWriterLoses | app/services/scheduling_service.py:182-201 | of two workers that checked the same free interval the second is refused at its write on an unchanged agenda, as an unavailable slot unless its key was taken |
| ConcurrentBooking.RacingKeyDenotesOneAppointment | app/services/scheduling_service.py:182-201 | once a row carries a key no racing write with it inserts, and a call that succeeds returns that row |
| ConcurrentBooking.RowsKeepTheirRecord | app/repositories/appointment_repository.py:123-140 | over every interleaving a row keeps its owner, code, key, ordered snapshots and totals, and is never scheduled again once it is not |
| ConcurrentBooking.KeyStaysOnItsRow | app/services/scheduling_service.py:182-201 | from the moment a row carries a key, over every interleaving, no write with that key inserts and a call that succeeds returns that row |
| ConcurrentBooking.EndedRowIsFinalIff | app/repositories/appointment_repository.py:173-198 | no interleaving ever changes a row that is not scheduled if and only if no open, already checked move or cancellation of it would write something new |
| ConcurrentBooking.CancelledRowIsMoved | app/services/scheduling_service.py:277-358 | the concrete run: move checked, cancellation checked and written, move written, and the cancelled row has the new interval |
| ConcurrentBooking.CheckAloneIsNotEnough | app/services/scheduling_service.py:368-386 | the concrete run: two customers' checks of the same slot both pass; written without the constraint they double-book, with it the second write is refused |
| SchedulingActionServices.SchedulingActionService.ExpirePendingActions | app/repositories/pending_scheduling_action_repository.py:10-27 | exactly the customer's awaiting rows at or past their deadline become expired |
| SchedulingActionServices.SchedulingActionService.SupersedeActivePendingAction | app/repositories/pending_scheduling_action_repository.py:71-87 | exactly the customer's awaiting rows become superseded |
| SchedulingActionServices.SchedulingActionService.StorePendingAction | app/services/scheduling_action_service.py:370-395 | expire, supersede and insert in one commit; the new row is then the customer's only awaiting one |
| SchedulingActionServices.SchedulingActionService.PreviewCreate | app/services/scheduling_action_service.py:97-156 | payload and preview of a create, or the first check that fails |
| SchedulingActionServices.SchedulingActionService.PrepareCreate | app/services/scheduling_action_service.py:88-157 | a create is validated, previewed and stored in one commit; an error commits nothing |
| SchedulingActionServices.SchedulingActionService.PrepareCancel | app/services/scheduling_action_service.py:159-188 | only the owner's scheduled appointment can be prepared for cancelling, previewed as stored |
| SchedulingActionServices.SchedulingActionService.PreviewReschedule | app/services/scheduling_action_service.py:199-229 | payload and preview of a reschedule, checked against every other row |
| SchedulingActionServices.SchedulingActionService.PrepareReschedule | app/services/scheduling_action_service.py:190-247 | a reschedule is validated, previewed and stored in one commit |
| SchedulingActionServices.SchedulingActionService.ClaimPendingAction | app/services/scheduling_action_service.py:249-277 | first commit: claims the awaiting row, or refuses in the code's order; a refusal leaves even the expiry unwritten |
| SchedulingActionServices.SchedulingActionService.RunAction | app/services/scheduling_action_service.py:330-368 | second commit: the scheduling transaction of the payload, a create under the action's own key |
| SchedulingActionServices.SchedulingActionService.ConfirmPendingAction | app/services/scheduling_action_service.py:249-312 | the three commits in a row equal the specification, the recovery branch included |
| SchedulingActionServices.SchedulingActionService.DiscardPendingAction | app/services/scheduling_action_service.py:314-328 | rejects the awaiting action on an explicit text, otherwise changes nothing |
| ActionProtocol.EventKeepsWorld | app/services/scheduling_action_service.py:249-306 | each commit, crash, prepare, discard and foreign agenda transaction keeps the protocol invariant |
| ActionProtocol.RunKeepsWorld | app/services/scheduling_action_service.py:249-306 | so every interleaving of workers and crashes does |
| ActionProtocol.AtMostOneEffect | app/services/scheduling_action_service.py:275-306 | each action is executed at most once, at most one appointment carries its key, and a completed create points to exactly that appointment |
| ActionProtocol.ExecutionsAreConfirmedInTime | app/services/scheduling_action_service.py:253-277 | every executed action was claimed, at a clock reading before prepare time plus lifetime, by a different message of the same customer with an explicit confirmation |
| ActionProtocol.ActionLifecycle | app/repositories/pending_scheduling_action_repository.py:71-145 | over every run proposals are immutable, statuses follow an acyclic graph without return to awaiting, one action per customer awaits, attempts is 1 exactly when executing or completed, and the preview matches its fingerprint |
| ActionProtocol.DataNeverChanges | app/services/scheduling_action_service.py:265-274 | in every sound state no confirmation ends with the data-changed error |
| ActionProtocol.FailedExecutionIsAbandoned | app/services/scheduling_action_service.py:281-293 | after an execution its action is executing and held by no worker if and only if the execution failed, and a failure leaves agenda and action rows as they were |
| ActionProtocol.AbandonedForEver | app/repositories/pending_scheduling_action_repository.py:49-68 | such an action stays executing and is never executed again, whatever runs later |
| ActionDeadlines.ExecutionIgnoresDeadline | app/services/scheduling_action_service.py:279-280 | with any other deadline the agenda transaction of a claimed action does exactly the same, at its own clock reading |
| ActionDeadlines.RunIsInTimeIff | app/services/scheduling_action_service.py:257-280 | every agenda transaction of a run is tried before its action's deadline if and only if each one is by its own clock: logged clocks and deadlines never change afterwards |
| ActionDeadlines.LateExecutionBooks | app/services/scheduling_action_service.py:249-306 | the concrete run: prepared, claimed before the deadline, executed after it, and booked |
| ActionDeadlines.ClosedShopAbandons | app/services/scheduling_action_service.py:281-293 | the concrete run: prepared, hours removed, claimed, execution failed, abandoned |
| MessageOrder.OpenActionIsClaimed | app/services/scheduling_action_service.py:253-277 | an explicit yes from any other message, older or newer, claims the sender's one open action |
| MessageOrder.ConfirmedInOrderIff | app/services/scheduling_action_service.py:259-260 | every claim of a run comes from a message no older than the preparing one if and only if no step reads a yes in an older message while its sender's open action was prepared by a newer one |
| MessageOrder.ReadInOrderConfirmsInOrder | app/services/scheduling_action_service.py:259-260 | when no message is read for a yes after a newer one of the same customer prepared something, every confirmation of the run is in order, whatever crashes and interleaves |
| MessageOrder.OlderMessageConfirms | app/services/scheduling_action_service.py:249-306 | the concrete run: prepared from the newer message, claimed by the older one, executed and booked |
| PreviewFaithfulness.BookedAsPreviewed | app/services/scheduling_action_service.py:338-351 | a confirmed create has the previewed date, start and chair, and reads exactly as the preview if and only if the catalog rows of its services are unchanged |
| PreviewFaithfulness.ConfirmedCreateIsFaithful | app/services/scheduling_action_service.py:102-155 | over every run of the protocol the execution of a claimed create is a new booking faithful to its preview, or fails on an unchanged agenda |
| RescheduleFaithfulness.RunKeepsMoves | app/services/scheduling_action_service.py:202-245 | over every run the preview of each reschedule shows its payload's chair, date and start, and the end that the appointment's own length gives |
| RescheduleFaithfulness.ConfirmedMoveIsFaithful | app/services/scheduling_action_service.py:358-368 | over every run the execution of a claimed reschedule puts exactly the shown appointment on the shown date, start, end and chair and changes nothing else, or fails on an unchanged agenda |
| PreviewFaithfulness.TakenSlotIsRefused | app/services/scheduling_service.py:137-142 | a slot taken between prepare and confirm makes the confirmation fail with the agenda unchanged |
| PreviewFaithfulness.PreparedWholeMinuteIsBooked | app/services/scheduling_action_service.py:147-153 | what prepare accepts at a whole minute, confirming at once books at that start |
| PreviewFaithfulness.PreparedIsBookedIff | app/services/scheduling_action_service.py:147-153 | in general, exactly when the start without its seconds still keeps the notice, the hours and all other appointments |
| PreviewFaithfulness.PreparedSecondsMayBeRefused | app/services/scheduling_action_service.py:119-150 | at the last instant the notice allows, a start with seconds is prepared and then refused |
| PreviewFaithfulness.OneSecondIsRefused | app/services/scheduling_action_service.py:119-150 | the concrete case: a start at 10:00:01 is prepared at that very instant and its confirmation refused |
| ToolLoop.CarlosSchedulingWriteService.ExecuteCall | app/tools/scheduling_write_executor.py:87-150 | the only gate from a tool call to the tables: prepare, confirm, discard or nothing |
| ToolLoop.CarlosSchedulingWriteService.GenerateReply | app/services/carlos_scheduling_write_service.py:82-148 | whatever the model answers, the tables end as the executed calls leave them, those calls are the model's in order and at most the configured rounds, and a reply comes out exactly when a guard, a listing of slots or a non-empty text ends the loop |
| ToolLoop.ToolEffect | app/tools/scheduling_write_executor.py:87-134 | one call leaves the agenda alone, or executes the awaited action and leaves this message nothing to confirm |
| ToolLoop.NothingToConfirmNothingChanges | app/services/scheduling_action_service.py:254-262 | without an action another message prepared, no sequence of calls changes the agenda |
| ToolLoop.OneChangePerReply | app/services/carlos_scheduling_write_service.py:82-148 | in one reply run the agenda changes at most once, and only by executing the unexpired action that awaited this customer when the run began, prepared by another message and confirmed by this message's own text |
| InboundQueues.InboundQueue.RegisterMessage | app/repositories/inbound_message_repository.py:19-90 | invalid and duplicate messages change nothing; a new one is appended and resets the deadline of its conversation's pending rows |
| InboundQueues.SelectedAreEligible | app/repositories/inbound_message_repository.py:290-316 | the claim query returns eligible rows, each once, oldest first, and all of them when the limit is not reached |
| InboundQueues.InboundQueue.ClaimMessage | app/repositories/inbound_message_repository.py:149-169 | the absorption loop completes exactly the older pending fragments and locks the message |
| InboundQueues.InboundQueue.ClaimPendingMessages | app/repositories/inbound_message_repository.py:129-173 | the selected rows are claimed one after the other |
| InboundQueues.InboundQueue.MarkMessageCompleted | app/repositories/inbound_message_repository.py:176-193 | only a processing row is completed and unlocked; otherwise the call is refused |
| InboundQueues.InboundQueue.MarkMessageFailed | app/repositories/inbound_message_repository.py:196-221 | a processing row goes back to pending with its retry time while attempts remain, else fails |
| InboundQueues.InboundQueue.MarkMessagePermanentlyFailed | app/repositories/inbound_message_repository.py:224-242 | a processing row fails at once |
| InboundQueues.InboundQueue.ReleaseStaleProcessingMessages | app/repositories/inbound_message_repository.py:245-279 | exactly the rows locked before the limit are released, and their number is returned |
| InboundSafety.ClaimIsInTurn | app/repositories/inbound_message_repository.py:149-171 | the sequential claim loop, which looks at rows it changed itself, equals one look at the original rows |
| InboundSafety.ClaimIsAtOnceIff | app/repositories/inbound_message_repository.py:149-171 | the plain reading, in which claimed rows are only locked, is right exactly when absorbing a claimed message before its own turn left no mark on it |
| InboundSafety.DebouncedClaim | app/repositories/inbound_message_repository.py:141-173 | for every inbox: each claimed message is due and no pending one of its conversation is newer, that conversation has no pending message left, other conversations' unclaimed rows are untouched, and exactly the older pending fragments became history |
| InboundSafety.OnePerConversationIff | app/repositories/inbound_message_repository.py:290-316 | every batch takes at most one message per debounced conversation if and only if no conversation has two equally new messages ready to be claimed |
| InboundSafety.EqualTimesAreBothClaimed | app/repositories/inbound_message_repository.py:304-312 | two newest fragments with equal creation times are both selected |
| InboundSafety.RegistrationDebounces | app/repositories/inbound_message_repository.py:49-82 | a duplicate leaves every deadline alone; a new fragment gives all pending fragments of its conversation, itself included, the new deadline and touches nothing else |
| InboundSafety.RetrySafety | app/repositories/inbound_message_repository.py:166-279 | over every run pending means attempts are left, processing holds exactly when locked, attempts equals the number of claims, and completed and failed rows never change |
| InboundSafety.MovingStepsBound | app/repositories/inbound_message_repository.py:176-279 | termination: the steps of a run that move some row are at most twice the maximum attempts per message |
| InboundSafety.ClaimBudget | app/repositories/inbound_message_repository.py:166-169 | from an empty inbox all claims together are at most the maximum attempts times the number of messages |
| InboundProcessors.HandlingReplies | app/handlers/carlos_scheduling_write_handler.py:28-56 | the handler returns exactly when the reply is in the outbox, adds at most one row, none when one exists, and changes nothing when it raises |
| InboundProcessors.AttemptReplies | app/services/inbound_message_processor.py:75-155 | whatever the media services and the model answer, at most one reply is added, none when one exists, and a message that returns has its reply |
| InboundProcessors.InboundMessageProcessor.Handle | app/handlers/carlos_scheduling_write_handler.py:28-56 | outbox and ending equal the specification: existing reply, missing phone, empty text, unsupported media, generated reply, refused enqueue |
| InboundProcessors.InboundMessageProcessor.ProcessMessage | app/services/inbound_message_processor.py:75-198 | media, handler and their failures decide the row's end and the outbox exactly as specified, and a sender outside the allowlist is completed unanswered |
| InboundProcessors.InboundMessageProcessor.ProcessAll | app/services/inbound_message_processor.py:74-198 | every claimed row leaves processing, no other row moves, and each allowed row that completed has its reply |
| InboundProcessors.InboundMessageProcessor.ReleaseAndClaim | app/services/inbound_message_processor.py:48-64 | stale rows are released before the batch is selected |
| InboundProcessors.InboundMessageProcessor.ProcessOnce | app/services/inbound_message_processor.py:47-198 | after an undisturbed cycle every unclaimed row is as release and claim left it, and every claimed one ended by its own outcome at its own clock reading, with its reply stored when it was answered |
| OutboundQueues.OutboundQueue.EnqueueTextMessage | app/repositories/outbound_message_repository.py:20-75 | bad arguments and a taken key change nothing; otherwise one pending row is appended with the cleaned-up text |
| OutboundQueues.SelectedAreEligible | app/repositories/outbound_message_repository.py:91-113 | the claim query returns due pending rows, each once, oldest first, and all of them when the limit is not reached |
| OutboundQueues.OutboundQueue.ClaimPendingOutboundMessages | app/repositories/outbound_message_repository.py:91-113 | exactly the selected rows are locked and counted once more |
| OutboundQueues.OutboundQueue.MarkOutboundMessageSent | app/repositories/outbound_message_repository.py:116-135 | only a sending row becomes sent; otherwise the call is refused |
| OutboundQueues.OutboundQueue.MarkOutboundMessageTemporaryError | app/repositories/outbound_message_repository.py:138-162 | a sending row is retried while attempts remain, else fails |
| OutboundQueues.OutboundQueue.MarkOutboundMessagePermanentError | app/repositories/outbound_message_repository.py:165-182 | a sending row fails at once |
| OutboundQueues.OutboundQueue.ReleaseStaleOutboundMessages | app/repositories/outbound_message_repository.py:185-218 | exactly the rows locked before the limit are released, and their number is returned |
| OutboundQueues.OutboundQueue.SendAll | app/services/outbound_message_processor.py:55-123 | one send per claimed row, each recorded by its own answer, nothing else moves |
| OutboundQueues.OutboundQueue.ProcessOnce | app/services/outbound_message_processor.py:32-125 | release, then claim, then send and record: every row's final value, and the sends made |
| Delivery.EventKeepsWorld | app/services/outbound_message_processor.py:55-123 | every step of every worker, late and crashed ones included, keeps the delivery invariant |
| Delivery.RunKeepsWorld | app/services/inbound_message_processor.py:47-198 | so every interleaving does |
| Delivery.SentRowsAreFinal | app/repositories/outbound_message_repository.py:116-218 | over every interleaving outbox rows keep their keys and never lose an attempt, and a sent or failed row never changes again |
| Delivery.AtMostOneReplyBoundedSends | app/handlers/carlos_scheduling_write_handler.py:28-56 | for every interleaving an inbound message has at most one reply row, exactly one once completed after its handler, and the messaging API is called for it at most the maximum number of attempts |
| Conversations.ExactlyOnceInContext | app/services/carlos_conversation_context.py:42-48 | below the history limit every completed non-blank text no newer than the current message appears exactly once, in the buffer or in the history |
| Conversations.BufferTextIsTheBurst | app/services/carlos_conversation_context.py:120-134 | the consolidated text is the stripped, non-empty texts of the burst, oldest first, joined by blanks; the fallback is taken only when the burst has none, and a text message is always in its own burst |
| Conversations.TextIsReadOnce | app/services/carlos_conversation_context.py:42-48 | below the history limit such a text is part of the consolidated text, at its place, if and only if it is no line of the history |
| Conversations.CurrentIsOnlyInBuffer | app/services/carlos_conversation_context.py:120-134 | the current text is in its own buffer once and never in its history |
| Conversations.AbsorbedTextIsKept | app/repositories/inbound_message_repository.py:152-165 | a text completed unanswered by absorption still reaches the model exactly once |
| Conversations.HistoryKeepsTheNewest | app/repositories/conversation_history_repository.py:89-106 | beyond the limit only entries no newer than every kept one are dropped |
| Conversations.BufferIdsAreRows | app/services/carlos_conversation_context.py:123-134 | the buffer's rows are exactly the text fragments of the current burst, each once |
| HoursSeeds.HoursTable.VisitInterval | app/domain/barbershop_catalog.py:289-311 | one catalog interval is created, kept or reactivated, and counted accordingly |
| HoursSeeds.HoursTable.VisitCatalog | app/domain/barbershop_catalog.py:289-311 | after the catalog loop, in any order, rows and counters are those of the visited set |
| HoursSeeds.HoursTable.DeactivateRest | app/domain/barbershop_catalog.py:313-318 | exactly the active stored intervals outside the catalog are deactivated, and counted |
| HoursSeeds.HoursTable.Reconcile | app/domain/barbershop_catalog.py:268-322 | the active set becomes the catalog's, the counters are the sizes of the corresponding differences and intersections, other chairs are untouched |
| HoursSeeds.HoursTable.FillGaps | app/domain/barbershop_catalog.py:304-306 | without updating, stored rows stay as they are and only missing intervals are added |
| HoursSeeds.HoursTable.SeedConfirmedBusinessHours | app/domain/barbershop_catalog.py:256-322 | both modes of the seed, and the unique-interval constraint kept |
| HoursSeeds.NoErrorsIffAllMatch | app/domain/barbershop_catalog.py:438-443 | the hours check is silent if and only if every chair's active set is its catalog's |
| HoursSeeds.SeedAllHours | app/domain/barbershop_catalog.py:438-443 | seeding every chair makes the hours check silent |
| HoursSeeds.SecondSeedIsQuiet | app/domain/barbershop_catalog.py:268-322 | a second reconciliation changes no row, creates and updates nothing, and counts every catalog interval as unchanged |
| HoursSeeds.ReconcileKeepsOthers | app/domain/barbershop_catalog.py:273-278 | reconciling one chair leaves the other chairs' active sets alone |

## Left out

- Web routes, middleware, templates, the messaging and language-model clients, prompts, CLI output and logging: plumbing over libraries that are not part of this model.
- Daylight saving and general time zones: local time is a fixed offset from UTC, under which wall-clock and elapsed durations agree.
- The audio and image services themselves: what they make of a message is an arbitrary input.
- The rewriting of replies (`sanitize_carlos_reply`, `secure_outbound_text`) is an arbitrary fixed function of the text.
- Conversation state merging and field extraction (`_merge_state`, `_next_field`): pattern matching on text.
- A conversation without a phone: missing phones match no row here, where the history query would compare with an empty phone; the handler refuses such messages before.
- Blank text means spaces, tabs and line breaks, and digits mean ASCII digits; Unicode blanks and digits are not modelled.
- Dashboard figures other than available minutes, booked minutes and occupancy.
- Seeding and checking of services, resources and the barbershop record: the same pattern as the hours, without their set reasoning.
- Listing future appointments and the read-only tools: they change nothing.
- Stored error texts of pending actions, update timestamps and the estimate and display fields of previews: no branch depends on them.
- A prepare uses one clock reading; the code reads the clock once for the deadline and again for the slot check.
- Row locks, `SKIP LOCKED` and isolation levels: transactions are atomic steps, except in `ConcurrentBooking`, where checks and writes interleave.
- Two claim transactions that skip each other's locked rows are modelled as one after the other.
- The interleaved model of `ConcurrentBooking` covers appointments; two customers' upserts racing on one customer row are decided by write order.
- InboundProcessors.InboundMessageProcessor.ProcessOnce: the cycle is undisturbed; interleavings are the subject of `Delivery`, where the safe replies to media appear as a handler that enqueues and completes.
- Packing.OccupancyAtMostFull: speaks of agendas reached from one that respects the hours, with hours fixed along the run; an edit of the hours can leave earlier bookings outside them.
- ActionProtocol.RunKeepsWorld: other callers of the scheduling service are taken not to use the keys reserved for confirmed actions.
