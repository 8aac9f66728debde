# RayCarwash backend: verified model

RayCarwash is a marketplace for car detailing: customers book a detailer for
one or more vehicles or request a ride-style dispatch, pay through a held
Stripe authorization, and log in with rotating refresh tokens.  This project
models the parts of its backend that carry a protocol, a state machine or
arithmetic, and proves what they keep over every input and every run.

`dafny verify dfyconfig.toml` checks everything.

## How it is put together

| file | what it models |
|---|---|
| `Support.dfy` | options, results, UUIDs as sixteen bytes, time in integer microseconds |
| `AppointmentModel.dfy` | the appointment row, its transition table, the overlap predicate |
| `Booking.dfy` | concurrent booking transactions: advisory lock, count, insert, commit, interleaved with status changes |
| `Pricing.dfy` | the three price and duration loops, line items, size multipliers in tenths, the fare's column sum |
| `Slots.dfy` | the slot generator against the authoritative overlap count |
| `Lifecycle.dfy` | one appointment's whole life: transitions, history, timestamps, cancellation row, Stripe effects, refund tiers |
| `Creation.dfy` | `create_appointment` as a function, from validation to the rows it writes |
| `AppointmentService.dfy` | the service as a class over its table, each method equal to those functions |
| `RefreshTokens.dfy` | refresh-token rotation at statement granularity, with uncommitted writes, row locks, commit and rollback; the repository and endpoint as a class |
| `SessionRevocation.dfy` | the session rows beside the tokens and their locks: logins with and without a session, the session write of a rotation, revocation by session, by user and by token, and the cleanup; every run is a run of the machine in `RefreshTokens.dfy` |
| `Offers.dfy` | the assignment worker racing the accept and decline handlers, whose reads and writes are separate steps; as a machine and as a class |
| `Ledger.dfy` | the append-only payment ledger and its daily seal |
| `SessionCache.dfy` | the read-through session cache with its expiry, evictions and failures |
| `SessionSweep.dfy` | the daily session cleanup and how it meets the token cleanup |
| `Lockout.dfy` | password login with a failure counter and a timed lock, and what of it is committed |
| `Webhooks.dfy` | the Stripe webhook endpoint: deduplication and dispatch |
| `Refunds.dfy` | administrator refunds on top of the lifecycle machine |
| `Base64Url.dfy`, `JsonStrings.dfy`, `Timestamps.dfy`, `Cursor.dfy` | the opaque pagination cursor, layer by layer |
| `RequestIds.dfy` | time-sortable request ids |

Protocols are machines: a total `Step` (an action that is blocked or makes no
sense changes nothing), a `Run` that folds it over any list of actions, an
invariant every step keeps, and theorems over all runs.  Code that updates
tables or objects in place is a class whose methods are proved equal to the
specification functions those theorems are about.  What such a function decides is
stated once more over the rows' own fields, with the code's constants written out.

### Where the code does not do what its documentation says

The model follows the code; each of these is a lemma with the exact condition.

- Token reuse is answered with a revocation of the family and then a 401, and the
  session dependency rolls back whatever an exception leaves uncommitted: the
  revocation never happens.  No refused rotation changes the table, and reuse leaves
  the family alive (`RefreshTokens.ReuseChangesNothing`,
  `RefreshTokens.ReuseGoesUnpunished`).  Which steps do end a family is
  `RefreshTokens.FamilyDiesWhen`.
- For the same reason a claim is given back when the user turns out to be gone
  (`RefreshTokens.ClaimGivenBack`), and of the login history only successes are kept
  (`Lockout.AuthService.Login`).
- A request that revokes tokens without writing a session row misses the successor of
  a rotation in flight: a revocation of a family that has no session row, one of all
  tokens of a user after a contact change, a logout
  (`SessionRevocation.TokenRevocationEndsFamily`, `SessionRevocation.LogoutEndsFamily`,
  `SessionRevocation.TokenRevocationMissesSuccessor`), and there is a schedule for it
  wherever a live, unexpired token is free
  (`SessionRevocation.TokenRevocationCanMiss`).  A revocation that finds an
  unrevoked session row never misses, since a rotation must write the same row
  before it issues (`SessionRevocation.SessionRevocationEndsFamily`); at worst the
  two deadlock and the database rolls one of them back
  (`SessionRevocation.DeadlockLasts`).
- The handlers and the timer write without looking at what they read before.  The
  protocol survives every step but three: a timeout over an accept, a decline over an
  accept, and an accept that comes too late (`Offers.ProtocolUnlessClobbered`), and
  each of these ends in something a reader can see (`Offers.EveryClobberShows`).  The
  runs they lead to: a captured ride found by nobody (`Offers.AcceptCanBeLost`), an
  accepted assignment on a ride found by nobody (`Offers.LateAcceptLeavesNobody`), a
  ride confirmed on a declined assignment (`Offers.DeclineCanCoverAccept`), a payment
  captured twice (`Offers.DoubleAcceptCapturesTwice`).
- The slot engine reads only rows that start on the requested UTC date, so it can
  offer a slot the booking then refuses, and a ride row without a buffer end makes
  it fail (`Slots.SlotAgainstBooking`, `Slots.OffDateBookingIsMissed`,
  `Slots.RideRowBreaksTheEngine`).
- The login docstring says the lock resets automatically; the counter stays, so one
  more failure locks again (`Lockout.ExpiryKeepsTheCounter`).
- The refund preview says it predicts the refund; it does so only for a confirmed
  booking whose void fails, or when it announces nothing (`Lifecycle.PreviewIsExact`,
  `Lifecycle.PreviewCanBeWrong`).
- A cancellation refund writes no refund row, so the refund cap does not count it
  (`Refunds.CapMissesTheCancellation`, `Refunds.PaidBackTwice`).
- The daily seal is wrong if an entry of that day is still uncommitted when it is
  taken and is committed later (`Ledger.SealStaysTrue`, `Ledger.EverySealIsTrue`,
  `Ledger.SealCanBeWrong`).
- Running the token cleanup first leaves the session sweep nothing to revoke, as
  both use the same grace period (`SessionSweep.CleanupFirstStarvesSweep`).
- A string id that reads as a UUID comes back from a cursor as a UUID
  (`Cursor.IdComesBack`).
- Webhook events without an id are all taken for one event
  (`Webhooks.EventsWithoutIdCollide`).
- The route's documentation calls the final price required on completion; the
  service falls back to the estimate, and so does `Lifecycle.Moved`.

## Model

| member | source | states |
|---|---|---|
| AppointmentModel.WhoMayAct | backend/domains/appointments/models.py:45-70 | an administrator may take every edge, a customer only the customer cancellation, a detailer exactly the others |
| AppointmentModel.EdgesInto | backend/domains/appointments/models.py:45-70 | the whole table by target status: what can lead to CONFIRMED, ARRIVED, IN_PROGRESS, COMPLETED, NO_SHOW and the two cancellations, and nothing else is an edge |
| AppointmentModel.OpenStatuses | backend/domains/appointments/models.py:38-70 | an edge leaves a status exactly while the appointment is open, and every open one can still reach COMPLETED |
| Booking.LockKeyIsPrefix | backend/domains/appointments/repository.py:47-56 | the lock key fits a signed 64-bit integer, and two detailers share it exactly when the first eight bytes of their ids agree |
| Booking.CountZero | backend/domains/appointments/repository.py:88-117 | the overlap count is zero exactly when every row is another detailer's, deleted, in one of the four terminal statuses, without a buffer end, or outside the half-open window |
| Booking.StepKeepsInv | backend/domains/appointments/service.py:354-389 | every step of any booking process, status change or soft delete keeps rows pairwise disjoint, lock holders exclusive and counted windows clear |
| Booking.NeverDoubleBooked | backend/domains/appointments/service.py:354-389 | in every state any interleaving can reach, no two rows of one detailer, neither deleted nor in one of the four terminal statuses, hold the same instant |
| Booking.NoSharedInstant | backend/domains/appointments/service.py:354-389 | the same for any two rows and any instant over their own start and buffer-end fields |
| Booking.ConflictIsASharedInstant | backend/domains/appointments/repository.py:88-117 | for windows that are not empty, a blocking row is counted exactly when some instant lies in both half-open windows |
| Booking.StepKeepsBooking | backend/domains/appointments/service.py:448-691 | a step moves a committed row along an edge of the table if it is not deleted, or deletes it, and changes neither its detailer nor its window |
| Booking.CommittedRowBlocks | backend/domains/appointments/repository.py:88-117 | through any further run a committed row is counted against every overlapping request of its detailer, which is then refused, until it is deleted or in one of the four terminal statuses |
| Booking.UndisturbedTransaction | backend/domains/appointments/service.py:354-389 | a transaction left alone commits its row if the overlap count is zero and is refused with the table unchanged otherwise |
| Booking.FreeWindowKeepsClear | backend/domains/appointments/repository.py:88-117 | inserting a row whose window counted zero conflicts keeps the whole table free of double bookings |
| Booking.TerminalForever | backend/domains/appointments/models.py:38-70 | a row in a terminal status keeps that row and status through every later run |
| Booking.CollisionsOnlyBlock | backend/domains/appointments/repository.py:68-86 | a run under colliding lock keys is a run of an ideal per-detailer lock over the same actions in the same order, less some attempts to take the lock, so collisions only delay |
| Pricing.MatchingTotals | backend/domains/matching/router.py:89-97 | the matching loop computes the quote: ceiled size shares plus every listed addon, repeats included |
| Pricing.CalculateMulti | backend/domains/appointments/service.py:103-131 | the multi-vehicle calculation computes the same quote, and its end and buffer end follow from it |
| Pricing.BookingTotals | backend/domains/appointments/service.py:332-352 | the booking's nested loops compute the booking total of the resolved vehicle entries |
| Pricing.QuoteCharges | backend/domains/matching/router.py:95-97 | one more listed addon raises the quoted price by that addon's catalogue price and the time by its minutes; an unknown id adds nothing |
| Pricing.VehicleCharges | backend/domains/matching/router.py:89-94 | one more vehicle adds its size's rounded-up share of the base price to the price and of the base minutes to the time |
| Pricing.BookingCharges | backend/domains/appointments/service.py:338-346 | one more addon on a booked vehicle raises the booking by that addon's own price and minutes; an unknown one by nothing |
| Pricing.BookedVehicleCharges | backend/domains/appointments/service.py:332-337 | a vehicle without addons adds its size's share of its own service |
| Pricing.BookingTotalSplits | backend/domains/appointments/service.py:332-352 | for vehicles of one service the nested loops charge each vehicle once and each attachment once, as a quote over the flattened addon list |
| Pricing.RepeatsCostMore | backend/domains/appointments/service.py:332-346 | charging a list of addon ids never costs less than charging each distinct id once, the same without repeats, more with a repeat of positive cost |
| Pricing.BookingMatchesQuote | backend/domains/matching/router.py:89-97 | a quote over the addons a booking attaches, repeats included and in any order, names exactly the booking's price and duration |
| Pricing.DistinctQuoteMatches | backend/domains/services_catalog/repository.py:57-67 | a quote that mentions each attached addon once agrees in duration if and only if none is attached twice; then prices agree, otherwise the booking is never cheaper |
| Pricing.WriteLines | backend/domains/appointments/service.py:391-406 | the writing loop produces one line per vehicle followed by one per addon attached to it |
| Pricing.LinesOfOneMore | backend/domains/appointments/service.py:391-406 | one more vehicle adds its own line and then one line for each addon, which carries that addon's catalogue price and minutes |
| Pricing.HeaderIsSumOfLines | backend/domains/appointments/service.py:391-406 | header price and duration equal the sums over the vehicle and addon lines, for any entries |
| Pricing.StorableIsDuplicateFree | backend/domains/appointments/models.py:187-193 | a booking whose lines satisfy the unique and check constraints attaches no addon twice and none of zero length |
| Pricing.StorableWhen | backend/domains/appointments/models.py:161-192 | the child rows are accepted if and only if no vehicle and no addon comes twice and every vehicle and addon takes some time |
| Pricing.ScaleIsCeiling | backend/app/db/seed.py:185-202 | the size share is the least whole number not below the exact product, with the factors 1, 1.2, 1.5 and 2 written out |
| Pricing.FareIsCeilSum | backend/domains/payments/fare_router.py:55-58 | for a seeded service the fare's column sum equals the booking's ceil-sum, is never below the exact product and exceeds it by less than one cent a vehicle |
| Slots.ScanDay | backend/domains/appointments/service.py:242-245 | the inner loop computes the scan of the day's rows |
| Slots.ScanIsFirstHit | backend/domains/appointments/service.py:242-245 | the scan is free exactly when every row has an end and none overlaps, and fails exactly when a row without an end comes before any overlapping one |
| Slots.GetAvailableSlots | backend/domains/appointments/service.py:133-255 | the generator returns exactly the slot list of the window, or the error of an unknown detailer or of a row without an end at some slot |
| Slots.SlotsTileTheDay | backend/domains/appointments/service.py:188-248 | slots are thirty minutes, consecutive, disjoint, and cover every working instant |
| Slots.ScanAgainstBooking | backend/domains/appointments/service.py:188-248 | a scan that does not break and the booking's overlap count differ only by rows that start on another UTC date |
| Slots.DayRows | backend/domains/appointments/repository.py:145-172 | the day query returns exactly the detailer's rows, neither deleted nor terminal, that start within the twenty-four hours |
| Slots.SlotAgainstBooking | backend/domains/appointments/service.py:188-248 | an offered slot is past the advance limit and fits the day; it is right about the booking check exactly when no off-date row conflicts alone |
| Slots.SlotIsBookable | backend/domains/appointments/service.py:188-248 | when every active row in the working window starts on the date, a slot is offered exactly if it starts more than sixty minutes from now, ends in time, and the booking's own count is zero |
| Slots.OffDateBookingIsMissed | backend/domains/appointments/repository.py:145-172 | a concrete table where a slot past midnight UTC is offered and the booking check refuses it |
| Slots.RideRowBreaksTheEngine | backend/domains/payments/rides_router.py:53-78 | a row without a buffer end never conflicts with a booking, and makes the engine fail exactly when an eligible slot's scan reaches it first |
| Lifecycle.TierNeverRises | backend/domains/appointments/service.py:588-600 | for all prices, hour limits and percents the refund tier never rises as time passes and never exceeds the price |
| Lifecycle.EdgesClimb | backend/domains/appointments/models.py:38-70 | every allowed transition climbs a rank of at most five and leaves neither a terminal status nor COMPLETED |
| Lifecycle.SettleEffects | backend/domains/appointments/service.py:513-615 | a transition makes at most one Stripe effect: capture only on completion at the final price, void or refund only on cancellation, refund only from CONFIRMED within the estimate |
| Lifecycle.TransitionKeepsInv | backend/domains/appointments/service.py:448-691 | a successful transition keeps the case invariant: history path, clock order, settlement, one cancellation row |
| Lifecycle.TransitionRefusedWhen | backend/domains/appointments/service.py:448-493 | each refusal exactly when its check is the first to fail, with participants and roles written out; the same status again succeeds and changes nothing |
| Lifecycle.TransitionWrites | backend/domains/appointments/service.py:495-691 | the new status, the one stamp that goes with it, the final price on completion, one history entry, one cancellation row by its actor; every other field as it was |
| Lifecycle.TransitionMoney | backend/domains/appointments/service.py:513-580 | capture of the given price or else the estimate on completion, void on cancellation, and nothing for stubs, failed voids of unconfirmed bookings or other edges |
| Lifecycle.FullWindow | backend/domains/appointments/service.py:581-615 | a confirmed booking cancelled at or above the full limit after a failed void is refunded its whole estimate, or the transition fails if Stripe refuses |
| Lifecycle.PartialWindow | backend/domains/appointments/service.py:581-615 | below that, at or above the partial limit, the percentage of the estimate rounded down to a cent |
| Lifecycle.NoRefundWindow | backend/domains/appointments/service.py:581-615 | below both limits nothing, recorded as no policy |
| Lifecycle.IntentIsAttachedOnce | backend/domains/payments/service.py:136-201 | an intent is attached once, to a pending or confirmed booking, and no step replaces it |
| Lifecycle.StepKeepsInv | backend/domains/appointments/service.py:448-691 | creation, attaching an intent, transitions and the clock keep that invariant for every appointment |
| Lifecycle.EveryRunIsWellKept | backend/domains/appointments/service.py:471-511 | over any run each history is a path from nothing over PENDING to the present status, at most five entries, each allowed for a role held; arrival, start and completion are ordered; at most one capture, void or refund and one cancellation row |
| Lifecycle.PreviewIsExact | backend/domains/appointments/router.py:331-383 | for a successful customer cancellation the preview equals the refund if and only if it is zero or the booking was CONFIRMED on a live intent whose void failed |
| Lifecycle.PreviewWindows | backend/domains/appointments/router.py:331-383 | the announced amount by status and window: nothing once terminal or completed, the estimate while pending, else whole, percentage or nothing by the two hour limits |
| Lifecycle.PreviewCanBeWrong | backend/domains/appointments/router.py:331-383 | from the empty database, every booking confirmed and then cancelled early with its hold released was announced its whole price and is refunded nothing |
| Lifecycle.RefundIsTheTier | backend/domains/appointments/service.py:581-615 | a transition refunds exactly when it cancels out of CONFIRMED after a failed void with a positive tier, and pays exactly the previewed tier |
| Creation.VehiclesKnown | backend/domains/appointments/service.py:257-330 | vehicle validation passes exactly when every vehicle exists and belongs to the customer |
| Creation.AcceptedWhen | backend/domains/appointments/service.py:257-446 | accepted if and only if a customer asks for another, active detailer, own vehicles, known services and addons, no blocking row meets the window, and the child rows can be stored |
| Creation.RefusedWhen | backend/domains/appointments/service.py:257-330 | the first refusals in order: not a customer, own booking, inactive detailer, unknown service |
| Creation.EntriesRefusedWhen | backend/domains/appointments/service.py:257-330 | then the first vehicle that is missing or somebody else's, and last an unknown addon |
| Creation.AcceptedRow | backend/domains/appointments/service.py:354-446 | the stored row is pending, of that customer and detailer, starts when asked, ends with its lines' minutes and the buffer, and costs its lines' sum; nothing else changes |
| Creation.AcceptedLines | backend/domains/appointments/service.py:391-406 | its lines are one for each vehicle, by the size on file and the service asked for, one for each addon with that addon's price and minutes, and no more |
| Creation.CreateKeepsClear | backend/domains/appointments/service.py:354-389 | an accepted booking leaves the table free of double bookings |
| Creation.CreateIsOneTransaction | backend/domains/appointments/service.py:354-389 | lock, count, insert and commit of the concurrent machine, run undisturbed, give exactly the table `create_appointment` gives when it accepts or finds the slot taken; a row the constraints reject is counted free, inserted and rolled back to the table as it was |
| Creation.AcceptedBookingKeepsTheQuote | backend/domains/appointments/service.py:332-352 | every accepted booking costs and lasts what matching quoted for its vehicles and addons, and its lines sum to its header |
| Creation.OfferedSlotCanBeBooked | backend/domains/matching/router.py:89-118 | a slot offered for the quoted duration can be booked in the same state by any otherwise valid request |
| AppointmentService.Service.FindProblem | backend/domains/appointments/service.py:257-330 | the validation loops report the first problem in the endpoint's order |
| AppointmentService.Service.CreateAppointment | backend/domains/appointments/service.py:257-446 | adds exactly the specified case, or leaves every row as it was with the specified error |
| AppointmentService.Service.MoveMoney | backend/domains/appointments/service.py:513-615 | the Stripe calls and policy code of a transition are the specified ones, and for a confirmed booking with a failed void the refund in each window of the policy is written out |
| AppointmentService.Service.TransitionStatus | backend/domains/appointments/service.py:448-691 | the table changes by exactly the specified transition, or not at all on any error |
| AppointmentService.Service.CancelAppointment | backend/domains/appointments/router.py:397-487 | on success the announced amount is the preview of the state before and the row is cancelled by that transition; each refusal exactly when its check fails first, with nothing changed |
| RefreshTokens.StepKeepsInv | backend/domains/auth/service.py:663-750 | every statement, commit and rollback of every request keeps the family chains, the row locks and each claim on a row live for everyone else |
| RefreshTokens.RotationConserved | backend/domains/auth/service.py:674-750 | in every reachable state of any interleaving, a family's tokens still to be redeemed and its rotations in flight make up exactly its live tokens, at most one |
| RefreshTokens.RotationsConserve | backend/domains/auth/service.py:674-750 | no step of a rotation, committed, refused or rolled back, changes how many live tokens any family has, and none but a commit changes the table |
| RefreshTokens.ClaimGivenBack | backend/domains/auth/service.py:718-721 | while a rotation is in flight nothing else of its family can be redeemed, and rolling it back makes exactly its token redeemable again |
| RefreshTokens.FamilyIsAChain | backend/domains/auth/service.py:744-749 | every row lies on its family's single chain, and a committed successor goes directly after the token it was exchanged for, at the chain's end |
| RefreshTokens.StepSpendsExchange | backend/domains/auth/refresh_token_repository.py:70-92 | each committed rotation uses up the only exchange its token will ever have |
| RefreshTokens.ExchangedAtMostOnce | backend/domains/auth/refresh_token_repository.py:70-92 | over any run no token is exchanged twice, however many requests present it and however many are rolled back |
| RefreshTokens.OnlyCommitsWrite | backend/infrastructure/db/session.py:36-44 | only a login, the cleanup job and a request that commits a rotation or a revocation change the table |
| RefreshTokens.RefusedNeverCommits | backend/domains/auth/service.py:686-721 | a refused rotation can do nothing but be rolled back, through any run |
| RefreshTokens.ReuseChangesNothing | backend/domains/auth/service.py:686-697 | presenting any used or revoked token, in any state, ends with the table and the chains as they were |
| RefreshTokens.ReuseGoesUnpunished | backend/domains/auth/routers/core.py:576-584 | a run in which a token is reused after its rotation and the family keeps a live token that can be claimed |
| RefreshTokens.DeadStaysDead | backend/domains/auth/refresh_token_repository.py:70-101 | a family without a live token has none in any future state, whatever is in flight |
| RefreshTokens.ExpiryDecidesAtTheRead | backend/domains/auth/service.py:699-700 | a live token can be presented up to its expiry and not after it, and the check is made once, when it is read |
| RefreshTokens.RevocationIsExact | backend/domains/auth/refresh_token_repository.py:94-127 | an undisturbed revocation marks exactly the rows of its family, user or token and changes no other |
| RefreshTokens.CleanupIsExact | backend/domains/auth/refresh_token_repository.py:225-238 | the cleanup deletes only rows expired before its cutoff, all of them if none is locked |
| RefreshTokens.FamilyDiesWhen | backend/domains/auth/refresh_token_repository.py:94-238 | a living family dies in a step if and only if an explicit revocation that covers its live token commits or the cleanup deletes that token; never by a rotation |
| RefreshTokens.RefreshTokenRepository.Create | backend/domains/auth/refresh_token_repository.py:29-45 | inserts one unused, unrevoked row |
| RefreshTokens.RefreshTokenRepository.MarkUsedAtomic | backend/domains/auth/refresh_token_repository.py:70-92 | succeeds exactly for a live row and marks only that row |
| RefreshTokens.RefreshTokenRepository.RevokeFamily | backend/domains/auth/refresh_token_repository.py:94-101 | revokes every row of the family the request sees and leaves every other row as it was |
| RefreshTokens.RefreshTokenRepository.DeleteExpired | backend/domains/auth/refresh_token_repository.py:225-238 | deletes exactly the rows expired before the grace cutoff and counts them |
| RefreshTokens.RefreshTokenRepository.RotateRefreshToken | backend/domains/auth/service.py:663-750 | each outcome exactly when the row read, the row at the claim, the clock and the user call for it, for any table other requests leave between read and claim; nothing is committed |
| RefreshTokens.RefreshTokenRepository.RefreshAccessToken | backend/domains/auth/routers/core.py:576-584 | a new pair exactly for a token unused, unrevoked and unexpired when read, still unused and unrevoked at the claim, of an active user; then the claim and the successor are committed, and otherwise the table is as others made it |
| RefreshTokens.RotationMatchesMachine | backend/domains/auth/service.py:674-750 | the service's rotation makes exactly the steps of one request of the machine, case by case, for active and inactive users: what it writes, what it commits, and that a refusal is rolled back |
| SessionRevocation.RunProjects | backend/domains/auth/service.py:674-750 | whatever is done to session rows in between, the token statements of a run are a run of the token machine, so session rows only restrict it |
| SessionRevocation.StepKeepsInv | backend/domains/auth/session_repository.py:53-100 | every session and token statement keeps session locks exclusive, a rotation about to issue in possession of its unrevoked session, the live token of every session a revocation has marked among its picks, and every session a request closed without a live token |
| SessionRevocation.PicksWhat | backend/domains/auth/session_repository.py:64-82 | a revocation by id is out for that session, one of everything for exactly the unrevoked sessions of its user |
| SessionRevocation.SessionClosesWhen | backend/domains/auth/session_repository.py:64-82 | an open session closes exactly when a revocation that was asked for it and marked it commits, or when the cleanup finds all its tokens run out and nobody holding it |
| SessionRevocation.SessionGoesWhen | backend/workers/session_cleanup_worker.py:99-112 | a session row goes only once revoked and unlocked, and a revoked one is never opened again |
| SessionRevocation.SessionIsMarkedFirst | backend/domains/auth/routers/sessions.py:121-129 | over any run the token rows of one family are picked for revocation only after its open session is marked |
| SessionRevocation.RevokedSessionIsDead | backend/domains/auth/routers/sessions.py:107-137 | over any run, a session row that is revoked, other than by the cleanup of expired families, has no live token in its family and never gets one |
| SessionRevocation.SessionRevocationEndsFamily | backend/domains/auth/routers/sessions.py:107-200 | a request that picks a family's unrevoked session, by id or with all of its user's, unless rolled back is either still at work or has left the family dead (or the cleanup closed the expired session first), whatever rotations are in flight and however all interleaves |
| SessionRevocation.SessionRevocationIsFinal | backend/domains/auth/routers/sessions.py:121-130 | its commit leaves the session revoked and the family without a live token through every future |
| SessionRevocation.DeadlockLasts | backend/domains/auth/service.py:733-736 | a revocation that has the session row and a rotation that has claimed the token wait for each other through any run in which neither is rolled back |
| SessionRevocation.RevocationGivesWay | backend/domains/auth/routers/sessions.py:121-130 | rolling the revocation back leaves both tables as they were, and the rotation gets the session row |
| SessionRevocation.RotationGivesWay | backend/domains/auth/service.py:733-736 | rolling the rotation back makes its token the one to redeem, and the revocation has already picked it |
| SessionRevocation.DeadlockCanHappen | backend/domains/auth/routers/sessions.py:121-130 | a run from the empty database into that deadlock; with the rotation rolled back the revocation then ends the family |
| SessionRevocation.TokenRevocationEndsFamily | backend/domains/auth/routers/sessions.py:153-163 | a revocation that marks no session, for a family without an unrevoked one or for all tokens of a user, ends a family it covers if and only if no rotation of it commits in between or it was dead anyway |
| SessionRevocation.TokenRevocationCanMiss | backend/domains/auth/routers/sessions.py:153-163 | from every state with a live, unexpired token whose rows are free, such a revocation or a logout can be overtaken by a rotation and leave exactly its successor live |
| SessionRevocation.TokenRevocationMissesSuccessor | backend/domains/users/contact_change_service.py:222-224 | runs from the empty database, for a family without session, for all tokens of a user and for a logout, after which the old token is revoked and its successor live |
| SessionRevocation.LogoutEndsFamily | backend/domains/auth/routers/core.py:193-207 | a logout ends the family if and only if the presented token is its live one when the logout writes it, or it was dead anyway |
| Offers.OffersBounded | backend/domains/matching/service.py:83-154 | a ride is offered to at most three detailers |
| Offers.QueueIsTheBest | backend/domains/matching/service.py:83 | the queue is the front of the ranking, three candidates or all there are, in order |
| Offers.OnlyTheBestAreAsked | backend/domains/matching/service.py:83-154 | over every run, harmful writes included, every assignment belongs to one of the three best-ranked |
| Offers.AskedInTurn | backend/domains/matching/service.py:83-154 | candidate k is asked by a worker that has come to it and left every better one, none of whom has an open offer then or ever again |
| Offers.GivesUpAtTheEnd | backend/domains/matching/service.py:150-154 | nobody is announced as found only by a worker that has gone through the whole queue |
| Offers.HandlersReadTheirGuards | backend/domains/payments/rides_router.py:103-197 | a handler may write only after having read a searching ride and the open offer, each at its own time |
| Offers.HandlersWrite | backend/domains/payments/rides_router.py:120-197 | what an accept and a decline then write, and what they leave alone |
| Offers.StepKeepsInv | backend/domains/matching/service.py:83-154 | every single statement but the three harmful writes keeps the protocol: one open offer and only while searching, CONFIRMED exactly with the appointment's accepted assignment, none accepted when nobody was found, one capture equal to the authorization; and a ride found by nobody stays so |
| Offers.FreshWritesAreHarmless | backend/domains/payments/rides_router.py:103-137 | a timeout, decline or accept that lands on the open offer of a searching ride, as its writer read it, is never one of them |
| Offers.ProtocolUnlessClobbered | backend/domains/payments/rides_router.py:103-197 | with any number of requests under way, a step keeps the invariant and the announcement if and only if it is not a timeout or decline over an accept, nor an accept after the search ended or the worker moved on or is told of a decline |
| Offers.EveryClobberShows | backend/domains/payments/rides_router.py:103-197 | after each of those three writes a ride announced as found by nobody is confirmed after all, or some future breaks the protocol as seen from outside |
| Offers.CleanRunsFollowProtocol | backend/domains/matching/service.py:83-154 | every run of single statements without such a write follows the protocol |
| Offers.AtomicRunsFollowProtocol | backend/domains/payments/rides_router.py:97-161 | with offer-publish-register taken whole and each handler taken whole from its first read to its signal, every run of any length follows the protocol |
| Offers.AcceptCanBeLost | backend/domains/matching/service.py:130-154 | a run in which a captured ride ends as found by nobody |
| Offers.LateAcceptLeavesNobody | backend/domains/payments/rides_router.py:103-137 | a run in which an accept read in time and written late leaves an accepted assignment on a ride found by nobody |
| Offers.DeclineCanCoverAccept | backend/domains/payments/rides_router.py:181-197 | a run in which a ride is confirmed for a detailer whose assignment is declined |
| Offers.DoubleAcceptCapturesTwice | backend/domains/payments/rides_router.py:97-161 | a run in which two accepts of one detailer capture the payment twice |
| Offers.WorkerTerminates | backend/domains/matching/service.py:83-154 | the worker takes at most ten steps, whatever the handlers do |
| Offers.WorkerProgresses | backend/domains/matching/service.py:83-154 | until it is done the worker always has a step to take |
| Offers.Dispatch.constructor | backend/domains/payments/rides_router.py:53-78 | a request starts searching, with the price authorised and the three best-ranked candidates queued in order |
| Offers.Dispatch.SetEvent | backend/domains/payments/rides_router.py:139-144 | setting a response event reaches the worker only when it waits on that candidate |
| Offers.Dispatch.AcceptRide | backend/domains/payments/rides_router.py:97-164 | undisturbed, succeeds exactly for a searching ride with an open offer to this detailer, and then confirms, signals and captures the authorised price |
| Offers.Dispatch.DeclineRide | backend/domains/payments/rides_router.py:175-207 | undisturbed, succeeds exactly on an open offer and records and signals the decline |
| Offers.Dispatch.MakeOffer | backend/domains/matching/service.py:91-115 | inserts, publishes and registers the offer to the current candidate |
| Offers.Dispatch.Conclude | backend/domains/matching/service.py:117-141 | an accept ends the search; a decline or timeout is written and the next candidate is tried |
| Offers.AnswerIsTheFirst | backend/domains/payments/rides_router.py:97-197 | of the requests served while an offer stands, the first of the candidate asked is the answer |
| Offers.Dispatch.Ask | backend/domains/matching/service.py:91-148 | asking one candidate finds the ride its detailer and charges for it if the first answer accepts, and otherwise records a decline or a timeout and moves on |
| Offers.Dispatch.Assign | backend/domains/matching/service.py:47-154 | the worker's loop is a run of the protocol machine; it asks exactly those with a free offer lock, in order, up to the first who accepts, who gets the ride and is charged for once, and otherwise nobody is found; every assignment records its candidate's answer |
| Ledger.SortedIsUnique | backend/workers/ledger_seal_worker.py:31-32 | only one sorted arrangement of given ids exists |
| Ledger.LexIsFirstDifference | backend/workers/ledger_seal_worker.py:31 | ids are ordered by their first differing code point, a prefix first |
| Ledger.JoinInjective | backend/workers/ledger_seal_worker.py:31-32 | joining 36-character ids without separator loses nothing |
| Ledger.HashInputIsTheIds | backend/workers/ledger_seal_worker.py:31-32 | two days hash the same text exactly when they hold the same ids, in whatever order they were read |
| Ledger.HashInputIsInOrder | backend/workers/ledger_seal_worker.py:31-32 | what is hashed is the ids in ascending order, joined with nothing between |
| Ledger.DigestPinsTheIds | backend/workers/ledger_seal_worker.py:31-32 | unless the hash collides on the two, their digests are equal exactly when their ids are |
| Ledger.SealIgnoresOrder | backend/workers/ledger_seal_worker.py:28-39 | count, sum and digest do not depend on the order of retrieval, for any hash |
| Ledger.OnDayIsExact | backend/domains/payments/repository.py:34-45 | the entries of a date are those stamped within its twenty-four hours, each as often as it is on file |
| Ledger.SealTakesYesterday | backend/workers/ledger_seal_worker.py:15-45 | the step seals the day before the present one, whole and not empty, unless it is sealed already, and changes nothing else |
| Ledger.ClosedDayIsFrozen | backend/domains/payments/repository.py:34-45 | a past day with no open insertion never changes in any later run |
| Ledger.SealStaysTrue | backend/workers/ledger_seal_worker.py:15-45 | a right seal of a past day stays right in every future if and only if no transaction is open with an entry of that day |
| Ledger.OneSealPerDateAlways | backend/domains/payments/repository.py:47-56 | no run ever makes two seals of one date |
| Ledger.OpenOnPastDayWasOpen | backend/workers/ledger_seal_worker.py:15-45 | an insertion open on a past day was open on it already when the day was sealed |
| Ledger.EverySealIsTrue | backend/workers/ledger_seal_worker.py:15-45 | from an empty ledger, every seal equals its recomputation at the end of a run if and only if no entry was committed into a day after it was sealed |
| Ledger.SealCanBeWrong | backend/workers/ledger_seal_worker.py:15-45 | a run from the empty ledger that ends with a wrong seal |
| Ledger.LedgerRepository.Create | backend/domains/payments/repository.py:21-24 | appends the entry and changes nothing else |
| Ledger.LedgerRepository.SealDay | backend/workers/ledger_seal_worker.py:15-45 | seals exactly a non-empty unsealed day, with count, sum and digest of its entries whatever order they were returned in |
| SessionCache.StepKeepsGrounded | backend/domains/auth/service.py:784-825 | everything a cache key or a fill under way says stood in the table at the moment it was read |
| SessionCache.AdmissionIsFresh | backend/domains/auth/service.py:994-1018 | a request admitted at time t had its session present and unrevoked at some moment after t minus lifetime minus fill time and no later than t; with fills as one step that is (t - TTL, t] |
| SessionCache.RevokedAnswersAreRight | backend/domains/auth/service.py:784-825 | a cached revocation is never wrong, and without the cache admission is exactly the table's answer |
| SessionCache.RevocationIsExact | backend/domains/auth/session_repository.py:64-82 | revoking one session, or all of a user's, closes those still open, stamped now, and touches no other row, nor the cache |
| SessionCache.TableAndCacheAreApart | backend/domains/auth/service.py:784-840 | no write to the table touches the cache and none to the cache the table |
| SessionCache.ForgottenForever | backend/domains/auth/session_repository.py:64-82 | a closed session nothing remembers as good is never admitted or remembered again |
| SessionCache.EvictionIsFinal | backend/domains/auth/service.py:828-840 | a revoked session is shut out of every future if and only if neither a live key nor a fill under way still calls it good |
| SessionCache.SessionService.GetSessionCached | backend/domains/auth/service.py:784-825 | answers from the cache or the table and fills the cache just on a reachable miss, with what the machine's read and write would leave |
| SessionCache.SessionService.CheckSession | backend/domains/auth/service.py:994-1018 | admits exactly when the looked-up session exists, is unrevoked and is the user's |
| SessionCache.SessionService.InvalidateSessionCache | backend/domains/auth/service.py:828-840 | deletes the session key and then the last-seen marker, as far as neither call raises; with the key gone it is the machine's eviction |
| SessionSweep.LatestIsGreatest | backend/workers/session_cleanup_worker.py:76-92 | the aggregate is absent exactly without rows and otherwise the greatest expiry of the family |
| SessionSweep.SweepIsExact | backend/workers/session_cleanup_worker.py:57-119 | revokes precisely the active sessions with tokens all expired past the grace period, deletes precisely those revoked over ninety days ago, the two disjoint, every other row untouched |
| SessionSweep.SweepIsIdempotent | backend/workers/session_cleanup_worker.py:57-119 | a second sweep at the same instant changes nothing |
| SessionSweep.CleanupFirstStarvesSweep | backend/domains/auth/refresh_token_repository.py:225-238 | running the token cleanup first keeps exactly the due sessions whose family outlives its cutoff, none at an equal cutoff |
| SessionSweep.WhatIsGone | backend/workers/session_cleanup_worker.py:39-54 | a touched session loses its key if Redis is there and that deletion does not raise, and its marker if the second does not either |
| SessionSweep.CleanupWorker.EvictCaches | backend/workers/session_cleanup_worker.py:39-54 | deletes the session key and then the last-seen marker of each touched session as far as neither call raises, and counts those where both are gone |
| SessionSweep.CleanupWorker.RevokeAndPurge | backend/workers/session_cleanup_worker.py:63-112 | table and both id lists are those of the specified sweep |
| SessionSweep.CleanupWorker.RunOnce | backend/workers/session_cleanup_worker.py:57-128 | table, counts, cache and markers are those of the specified sweep and its evictions |
| Lockout.RateBound | backend/domains/auth/service.py:550-578 | from any account state, logins within time T none of which succeeds compare the password at most 5 + floor(T / 15 min) times |
| Lockout.RateBoundIsTight | backend/domains/auth/service.py:550-578 | for every number of lock periods some run reaches that bound exactly |
| Lockout.OutcomeWhen | backend/domains/auth/service.py:510-589 | each outcome of a login exactly when its check is the first to decide, and the counter and lock it leaves, with five failures and fifteen minutes written out |
| Lockout.CounterIsTheFailures | backend/domains/auth/service.py:561-583 | the counter is the number of wrong passwords since the last success, and a lock is stored exactly when that is at least five |
| Lockout.ExpiryKeepsTheCounter | backend/domains/auth/service.py:550-578 | a wrong password locks the account at once if and only if it is checked at all and at least four others preceded it since the last success, however many locks ran out |
| Lockout.AuthService.AuthenticateUser | backend/domains/auth/service.py:510-589 | account, login history and result are those of the specified outcome, branch by branch; only a wrong password commits, and without its history row |
| Lockout.AuthService.Login | backend/domains/auth/routers/core.py:116-139 | counter and lock are committed as specified whether the login succeeds or not; of the history exactly the successes are |
| Webhooks.OneEffectPerEvent | backend/domains/payments/webhook_router.py:117-136 | for any stream and any handler, faults included, an event takes effect once if it is on file and never otherwise |
| Webhooks.ExactlyOnce | backend/domains/payments/webhook_router.py:113-185 | if every first delivery is handled without fault, the database equals that of handling only the first delivery of each event, in order |
| Webhooks.RepeatsAndFailuresVanish | backend/domains/payments/webhook_router.py:117-136 | a delivery that repeats or fails can be removed from any stream without changing where it leads |
| Webhooks.EventsWithoutIdCollide | backend/domains/payments/webhook_router.py:113-136 | after one event without an id has taken effect every other one is ignored |
| Webhooks.ProfilesFollowTheirSessions | backend/domains/payments/webhook_router.py:192-223 | handling keeps the profiles and their sessions, and each profile changes only by its own session's events |
| Webhooks.VerdictStands | backend/domains/payments/webhook_router.py:344-378 | through any stream with repeats a profile is approved and open, or rejected and closed, as the last event delivered for the first time said |
| Webhooks.StripTrims | backend/domains/payments/webhook_router.py:348-351 | the stored rejection reason is the middle part left when colons and blanks are cut off both ends, and no more |
| Webhooks.PaymentIsAudited | backend/domains/payments/service.py:383-415 | a payment of exactly one live booking adds one audit entry with that booking's client, intent and estimate and changes nothing else |
| Webhooks.OddPayments | backend/domains/payments/service.py:392-403 | a payment of no live booking is ignored, one of several fails, one without an intent fails |
| Webhooks.IdentityWrites | backend/domains/payments/webhook_router.py:192-223 | an identity event sets verification, review time, reason and availability of its session's profile, and of no other |
| Webhooks.OtherEventsWriteNothing | backend/domains/payments/webhook_router.py:139-185 | no other event writes bookings, profiles or the audit; only saved cards change at all |
| Webhooks.Endpoint.StripeWebhook | backend/domains/payments/webhook_router.py:57-185 | one request is one step of the machine; acknowledged exactly when it is a repeat or was handled, and a fault leaves nothing behind |
| Refunds.CeilingOnlyRises | backend/domains/appointments/service.py:503-505 | no step of an appointment lowers the larger of its two prices |
| Refunds.StepKeepsInv | backend/domains/admin/repository.py:704-787 | every lifecycle step, refund request and failed refund keeps the non-failed total within that ceiling |
| Refunds.RefundsStayWithinThePrice | backend/domains/admin/repository.py:698-768 | over any run non-failed refund rows never exceed the larger of estimate and final price, though the cap changes at completion |
| Refunds.AcceptedWhen | backend/domains/admin/repository.py:698-746 | over any run a positive refund is issued exactly for a live appointment with an intent when, with the rows before it, it fits the final price once completed (unless that is zero) and the estimate until then |
| Refunds.AnsweredWhen | backend/domains/admin/repository.py:704-768 | every answer to a refund request exactly when its check is the first to decide, zero, negative and refused amounts included |
| Refunds.PaidBackBound | backend/domains/admin/repository.py:698-768 | over any run, refund rows and cancellation refund together stay within the ceiling, or, after a cancellation that paid, within twice the estimate |
| Refunds.CapMissesTheCancellation | backend/domains/admin/repository.py:731-746 | every request the cap accepts keeps the customer within the cap if and only if the cancellation paid nothing or the rows have used the cap up |
| Refunds.CancelledThenRefundedTwice | backend/domains/appointments/service.py:581-615 | from any state, an early cancellation with a failed void followed by a full refund by hand pays the price twice |
| Refunds.PaidBackTwice | backend/domains/appointments/service.py:581-615 | a run from the empty database that does so, for every price, participants and policy |
| Refunds.AdminRepository.RefundAppointment | backend/domains/admin/repository.py:704-787 | one refund row with its audit rows, or the specified error and nothing at all |
| Base64Url.RoundTrip | backend/app/core/cursor.py:61-74 | every byte string survives encoding, stripping the padding, restoring it by the length modulo four and decoding; the token holds only letters, digits, '-' and '_' |
| Base64Url.PaddingIsRestored | backend/app/core/cursor.py:62-73 | stripping and restoring the padding is the identity on every encoding |
| Base64Url.RestoredTextDecodes | backend/app/core/cursor.py:73-74 | text over the alphabet decodes after restoring its padding unless its length is one over a multiple of four |
| Base64Url.KnownEncodings | backend/app/core/cursor.py:62 | published vectors with and without padding, and the two characters of the URL-safe alphabet |
| Base64Url.ForeignIsSkipped | backend/app/core/cursor.py:73-74 | a character of neither alphabet is skipped wherever the decoder meets it |
| JsonStrings.ReadInvertsWrite | backend/app/core/cursor.py:61-75 | reading a written JSON string gives it back with split surrogate pairs fused, and stops right after its quote |
| JsonStrings.FuseIsIdentity | backend/app/core/cursor.py:61-75 | that changes a string exactly when it spells a pair as two code points |
| JsonStrings.BodyIsAscii | backend/app/core/cursor.py:61 | whatever the text, what is written is ASCII |
| JsonStrings.KnownBodies | backend/app/core/cursor.py:61 | a quote, a line feed, an accented letter and an emoji as they are written |
| JsonStrings.KnownReads | backend/app/core/cursor.py:75 | an escaped slash and hexadecimal digits of either case are read |
| Timestamps.NextDayIsOneMore | backend/app/core/cursor.py:96-99 | the next date has the next ordinal, and there is none only after 9999-12-31 |
| Timestamps.PreviousDayIsOneLess | backend/app/core/cursor.py:96-99 | the previous date has the previous ordinal, and there is none only before 0001-01-01 |
| Timestamps.KnownOrdinals | backend/app/core/cursor.py:96-99 | the model's day count agrees with the published ordinals of five dates, leap days and both ends of the calendar included |
| Timestamps.MonthStarts | backend/app/core/cursor.py:96-99 | where each month starts within its year, leap years by the Gregorian rule |
| Timestamps.InstantIs | backend/app/core/cursor.py:96-99 | the instant is days and clock less the offset, with a reading that crosses the year end on the way to UTC |
| Timestamps.NormalizeKeepsTheInstant | backend/app/core/cursor.py:96-99 | converting to UTC keeps the instant for every date, clock and offset, across day, month and year ends |
| Timestamps.NormalizeFailsAtTheEnds | backend/app/core/cursor.py:96-99 | conversion fails exactly when it would leave the calendar |
| Timestamps.IsoReads | backend/app/core/cursor.py:76-99 | printing a UTC datetime in ISO form and parsing it gives it back, with or without a fraction |
| Timestamps.KnownIsoText | backend/app/core/cursor.py:58-61 | a leap-day timestamp with microseconds as it is printed |
| Timestamps.KnownOffsets | backend/app/core/cursor.py:76-78 | no offset, one east and one west of Greenwich as they are read |
| Cursor.CursorRoundTrip | backend/app/core/cursor.py:48-87 | for every row that can be encoded the cursor is non-empty URL-safe text and decodes to the same UTC instant and the id it should come back with |
| Cursor.EncodingFailsWhen | backend/app/core/cursor.py:48-62 | encoding fails exactly on a missing field or a time that leaves the calendar on the way to UTC |
| Cursor.PayloadIsJson | backend/app/core/cursor.py:58-61 | the encoded text is the JSON object with the members ts and id, byte for byte |
| Cursor.DecodedIsAware | backend/app/core/cursor.py:64-87 | an empty token is refused as such, and a decoded time without an offset is taken as UTC |
| Cursor.IdComesBack | backend/app/core/cursor.py:79-84 | a UUID always comes back; a string does exactly when it does not read as a UUID and spells no surrogate pair in halves |
| RequestIds.DigitsAreTheTime | backend/app/middleware/request_id.py:33-36 | the base-32 digits read back to the timestamp modulo 2^(5n) |
| RequestIds.SymbolsAreCrockfords | backend/app/middleware/request_id.py:20-36 | the digits are those of Crockford's table |
| RequestIds.GeneratedShape | backend/app/middleware/request_id.py:31-38 | the prefix, ten digits of the time from the highest, one digit for each random one |
| RequestIds.TimeIsReadBack | backend/app/middleware/request_id.py:33-38 | the ten characters give the timestamp back exactly when it is in [0, 2^50) |
| RequestIds.IdsSortByTime | backend/app/middleware/request_id.py:31-38 | ids compare as their timestamps modulo 2^50, then as their random parts; so below 2^50 earlier ids sort first whatever the random parts |
| RequestIds.IdSurvivesForwarding | backend/app/middleware/request_id.py:44-53 | an id chosen by one service is kept by every further one, and a client's id is kept exactly when the pattern accepts it |
| RequestIds.AcceptsWhen | backend/app/middleware/request_id.py:20-53 | a client's id is kept exactly if it is eight to sixty-four letters, digits, underscores and hyphens, perhaps with one final newline |

## Assumptions

- Reads are of committed rows.  Each modelled statement is atomic, sees what is
  committed when it starts, and waits for rows another transaction has written.
- Atomic steps beyond that: a status transition; and, only where a theorem says
  so, an offer with its publication and registration, and a handler from its first
  read to its signal.
- One assignment worker process, distinct candidate user ids, and one admin refund
  request at a time.
- Prices are natural numbers of cents, size multipliers exact tenths, percentages
  exact; floating-point rounding stays below one unit for the values in use.
- The database ends a deadlock by rolling back one of the two transactions.
- `Refunds.PaidBackTwice` and `Refunds.CancelledThenRefundedTwice` are about the
  backend's own bookkeeping: both need Stripe to answer a second full refund of one
  intent with "issued", as the stub without an API key does.  The live service
  refuses to refund more than was charged.
- SHA-256, password checks, UUID printing and parsing, Stripe and Redis are
  parameters or nondeterministic answers.

## Left out

- Admin `force_appointment_status` and `reassign_appointment`: they bypass the overlap check and the transition table by design.
- Booking.NeverDoubleBooked: rides accepted through `accept_ride` are not among its actions, because that handler does not check overlap.
- Timezone lookups: the slot engine is given its working window as UTC instants.
- Slots.GetAvailableSlots: the default duration taken from a service id is not modelled, only the resulting duration.
- Candidate search and scoring: the ranking is an input; only its first three entries matter to the protocol.
- The legacy single-vehicle body of `create_appointment` and the address, notes and weather fields: they do not reach price, window or status.
- Detailer notes, metadata and audit rows of transitions: written beside the fields modelled, read by nothing modelled.
- RefreshTokens: JWT signing, token hashing, and what the role-switch endpoint does after a rotation.
- SessionRevocation: device data and time stamps of session rows, and the last-active writes of the session dependency, which commit at once and hold no lock after that.
- SessionCache: the last-active throttle and the write-behind of `last_active_at`.
- Lockout: concurrent logins of one account, and case folding of e-mail addresses (keys are lower-cased already).
- Webhooks: the saved-card handlers are one parameter of the dispatcher; their table effects are not spelled out.
- Refunds.RefundsStayWithinThePrice: concurrent refund requests on one appointment, which the code does not lock against each other.
- Refunds: no code marks a refund as failed; the machine allows it at any time because the cap's query excludes such rows.
- Cursor.CursorRoundTrip: about tokens the encoder makes; of tokens made by hand the model rejects some that the decoder takes (other member order, blanks, raw UTF-8, other ISO forms).
- Timestamps.IsoReads: offsets with seconds are normalised but only whole-minute offsets are parsed.
- Payouts, commissions, promotions, credits, reviews, dashboards, role administration and messaging: plumbing or easy members.
- Request and response schemas, middleware order, migrations and the web and mobile clients.
