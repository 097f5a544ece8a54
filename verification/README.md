# Salon booking backend: a Dafny model

A model of the stateful parts of a multi-tenant salon booking backend, with
proofs of the properties they are there for. Money is integer pence, time is
integer milliseconds, identifiers are fresh naturals. Interleaved protocols are
state machines run on arbitrary action sequences (an action that is not enabled
changes nothing), so a theorem about `Exec` covers every interleaving. Code that
updates documents in place is a class whose methods are proved equal to the
state machine's own functions; the theorems are about those functions. A request may be
resolved to a tenant, its context; where a model carries the multi-tenant plugin
the context is part of the protocol.

| module | models |
|---|---|
| `GiftCards`, `GiftCardStore` | the gift-card document, its ledger methods, and any number of writers under optimistic concurrency with a moving clock |
| `Booking` | booking with three-minute unpaid holds, cancelling, rescheduling, status changes, and the index that deletes lapsed holds |
| `Cancellation` | read, refund under an idempotency key, conditional update: interleaved, crashed and retried |
| `CacheKeys`, `TenantCache`, `TenantLookups` | canonical JSON cache keys, the bounded five-minute tenant cache, and lookups interleaving at the await |
| `RefreshTokens`, `Lockout` | refresh-token rotation with reuse detection; login lockout |
| `Isolation` | the multi-tenant query and save hooks |
| `Analytics` | the one-pass profit aggregation and the top-products report |
| `Consent` | the two consent decisions, publishing and versioning |
| `Slugs` | slug normalisation and the two uniqueness loops |
| `Wrappers`, `StableSort`, `Decimals` | options and results; the array sort; numbers in decimal |

Beside the theorems, each operation has lemmas that state in the fields of its
input when it is accepted and what it then leaves, without naming the functions
that compute it.

## What the proofs found

In these places the code does less than one would hope for. Each comes with the
exact condition under which it does keep its promise, and with a concrete input
or run for when it does not.

- **Tenant cache, age of an answer.** An answer is stamped when its call begins,
  so a call that waits five minutes or more can return an answer older than five
  minutes. A recent answer is guaranteed exactly to calls shorter than that
  (`TenantLookups.RecentExactlyWhenPrompt`).
- **Tenant cache, clearing.** A lookup that has loaded a tenant before it was
  changed stores the old answer after the clear. A clear is final exactly when no
  such load is in flight (`TenantLookups.ClearIsFinalExactlyWhen`).
- **Cancellation without a recorded payment reference.** Recording the reference
  found through the checkout session moves `updatedAt`, from which the idempotency
  key is made, so two cancels can refund under two keys. At most one refund exists
  in every run exactly when no cancel has to look the reference up
  (`Cancellation.OneRefundExactlyWhenSettled`).
- **Cancellation retried.** When a refund was made but its answer lost, no retry
  makes another, but a retry that by then finds nothing to refund cancels the
  appointment without recording the refund, and one that asks for a different
  amount is turned down and leaves the appointment as it was
  (`Cancellation.RetryAfterALostAnswer`). An update that finds a refund made always
  records it exactly when the policy does not refund something at one time and
  nothing at another (`Cancellation.RefundIsRecordedExactlyWhen`).
- **Cancelling a visit that is over.** A cancel of a completed or missed visit
  refunds like any other, and its update then never applies: no such refund is ever
  recorded (`Cancellation.OverIsRefundedUnrecorded`).
- **Rescheduling.** With only some of start, end and specialist sent, the conflict
  check is skipped or made against another end than the one stored
  (`Booking.PartialRescheduleCanDoubleBook`). With another tenant's specialist sent,
  which nothing rules out, it does not see that specialist's appointments
  (`Booking.ForeignSpecialistCanDoubleBook`). The exact condition for both is in
  `Booking.RescheduleIsSafeExactlyWhen`. Its query also counts lapsed holds, so
  physical deletion changes its answers (`Booking.DeletionIsVisibleToRescheduling`;
  exactly when, in `Booking.ReschedulingMissesDeletionExactlyWhen`).
- **Status changes.** Reviving a cancelled appointment can double-book its slot
  (`Booking.RevivalCanDoubleBook`; exact condition in
  `Booking.SetStatusIsSafeExactlyWhen`).
- **Cache keys.** Normalising a query drops `__proto__` members, so two different
  queries can share a key (`CacheKeys.ProtoCollides`); keys agree exactly up to
  key order and those members (`CacheKeys.KeyIsCanonical`). This concerns the key
  function alone: the lookups in the same file build their queries from fixed
  keys, none of which is that one.
- **Lockout.** Login finds the account whatever tenant the request is for, but the
  failure counter is a hooked update: in another tenant's context it matches no
  document and nothing is counted. The rate bound holds exactly when requests come
  for no tenant or for the account's own (`Lockout.RateHoldsExactlyWhen`); the
  failures that are counted obey it in every run (`Lockout.LockoutRateBound`).
- **Reuse detection.** The token's owner is found by a hooked lookup. When the admin
  no longer exists, or belongs to another tenant than the request is for, presenting
  a revoked token ends in a server error and revokes nothing
  (`RefreshTokens.ReuseElsewhereGoesUndetected`; exact condition in
  `RefreshTokens.ReuseRevokesEverything`).
- **Profit by category.** The category table is a plain object, so a category named
  like a property every object inherits (`constructor`, say) never gets a bucket:
  its sales are in the totals and in no category
  (`Analytics.InheritedCategoryIsLost`); exactly those lines are missing
  (`Analytics.AnalyticsConserve`).
- **Isolation.** A query's own tenant option overrides the context: runs in a
  tenant's context see, and change, only that tenant's documents exactly when no call
  carries another tenant's option (`Isolation.IsolationHoldsExactlyWhen`). An update
  or create that names another tenant reaches that tenant: it gains exactly what the
  operation makes of the matching documents of the tenant in effect
  (`Isolation.HandingOverReachesTheOther`); a single operation spares it exactly when
  it does not name it or nothing matches (`Isolation.OthersAreSparedExactlyWhen`).
- **Consent.** The content-hash comparison can never fire
  (`Consent.ContentBranchNeverFires`), and the simplified check ignores a record's
  own expiry and a signature for the appointment at hand
  (`Consent.SimplifiedCheckIsSafe` gives the exact differences).

## Model

| member | source | states |
|---|---|---|
| GiftCards.EffectIsSound | src/models/GiftCard.js:224-382 | one accepted run of any ledger method, however far the clock moves between its own reads, leaves distinct positive holds, an exact reserved sum, spent plus held within the amount, and "redeemed" only when spent in full |
| GiftCards.ExhaustedRefuses | src/models/GiftCard.js:204-222 | a card spent in full has no live hold and refuses every redeem, reserve and consume |
| GiftCards.HoldOrigin | src/models/GiftCard.js:294-313 | every hold on the saved card was reserved by this run, or was there before and is not of the appointment this run concerns |
| GiftCards.ReservedCanBeConsumed | src/models/GiftCard.js:276-382 | a reservation can be consumed by any run that starts before it lapses, exactly for its own amount, which is then spent |
| GiftCards.ReleaseUndoesReserve | src/models/GiftCard.js:276-336 | reserving and then releasing leaves the card that releasing alone would have left |
| GiftCards.CleanupKeepsHeld | src/models/GiftCard.js:204-238 | dropping lapsed holds never changes what is held from then on |
| GiftCards.WithoutFrees | src/models/GiftCard.js:326-328 | removing an appointment's hold frees exactly the amount that hold was blocking |
| GiftCards.HeldIsTheLiveSum | src/models/GiftCard.js:204-238 | the held amount is the sum of the live holds, which is what a cleanup stores |
| GiftCards.RedeemIsAcceptedExactlyWhen | src/models/GiftCard.js:194-274 | a redeem is accepted if and only if the card is sent, unexpired and not spent, and spent plus held plus the amount is within the card; and which error it gets otherwise |
| GiftCards.ReserveIsAcceptedExactlyWhen | src/models/GiftCard.js:276-321 | a reserve is accepted if and only if the amount is positive and left, whatever the status; the appointment then has one hold, of that amount and of the minutes asked for, and the other live holds stay |
| GiftCards.ConsumeIsAcceptedExactlyWhen | src/models/GiftCard.js:338-362 | a consume is accepted if and only if the appointment has a live hold of the amount; and which error it gets otherwise |
| GiftCards.SpendingShows | src/models/GiftCard.js:264-271 | accepted spending shows in the amount, the client, the appointment and the holds, and makes the card redeemed if and only if nothing is left |
| GiftCards.ReleasingAndSendingShow | src/models/GiftCard.js:241-336 | a release drops the appointment's hold and lapsed ones, a sending sets status and date, and nothing else changes |
| GiftCards.GiftCard.CleanupExpiredReservations | src/models/GiftCard.js:224-238 | keeps the unexpired holds in order and recomputes the reserved sum |
| GiftCards.GiftCard.MarkAsSent | src/models/GiftCard.js:241-245 | sets status and date only, and never refuses |
| GiftCards.GiftCard.Redeem | src/models/GiftCard.js:248-274 | refuses in the order of the checks, having cleaned up, or spends the amount and marks a spent card redeemed |
| GiftCards.GiftCard.ReserveForAppointment | src/models/GiftCard.js:276-321 | refuses in the order of the checks, or rewrites the appointment's hold where it stands or pushes a new one |
| GiftCards.GiftCard.ReleaseReservation | src/models/GiftCard.js:323-336 | removes the appointment's hold, and never refuses |
| GiftCards.GiftCard.ConsumeReservation | src/models/GiftCard.js:338-382 | refuses without a live hold of exactly the amount, or turns that hold into spending |
| GiftCardStore.Serializable | src/models/GiftCard.js:173-176 | every interleaving of writers equals the serial run of its accepted saves in the order accepted, each succeeding on what its predecessors left, on a clock that only moves forward |
| GiftCardStore.UndisturbedWriterCommits | src/models/GiftCard.js:172-382 | a writer nobody disturbs, waiting any time before each clock reading, has exactly its method's effect saved, unless the method refuses |
| GiftCardStore.NeverOverspentInAnyInterleaving | src/models/GiftCard.js:172-382 | in every interleaving, at every moment, spent plus live holds is within the amount; holds are distinct, positive and exactly summed; a redeemed card is spent in full with no live hold |
| GiftCardStore.NothingLeftToSpend | src/models/GiftCard.js:248-379 | once the stored card is redeemed or spent in full it stays spent in full in every continuation, and no later redeem, reserve or consume is accepted |
| GiftCardStore.LedgerTotal | src/models/GiftCard.js:264-264 | the redeemed amount is the sum of the committed redeems and consumes |
| GiftCardStore.ConsumeIsBacked | src/models/GiftCard.js:350-372 | each committed consume has an earlier committed reserve of its appointment, for its amount, untouched in between |
| GiftCardStore.CommittedHistoryIsALedger | src/models/GiftCard.js:248-382 | over every interleaving: total, pairing of consumes with their last reserve, and no reserve consumed twice |
| Booking.NoDoubleBookingEver | src/routes/appointments.js:159-243 | over every run of bookings, cancels, full reschedules onto the tenant's own specialists, status changes of live appointments, ticks and deletions, no two live appointments of one specialist overlap, whatever their tenants |
| Booking.ForeignSpecialistCanDoubleBook | src/routes/appointments.js:706-731 | a full reschedule onto another tenant's specialist can double-book |
| Booking.BookedSlotIsHeld | src/routes/appointments.js:159-243 | an accepted booking adds exactly its own slot to what any later request, of any tenant and specialist, finds taken: for good when settled, for three minutes when not |
| Booking.PostIsAcceptedExactlyWhen | src/routes/appointments.js:144-199 | when a booking is accepted and which answer refuses it otherwise, in the fields of the request, the specialist's owner and the stored appointments |
| Booking.PostStores | src/routes/appointments.js:159-243 | an accepted booking stores one document, with the request's tenant, specialist and start, the duration and both buffers, and the time and status it was made with; a refused one stores nothing |
| Booking.RescheduleInFields | src/routes/appointments.js:701-736 | which other appointments make a reschedule conflict, the hour assumed when no end is sent, and that otherwise exactly the fields sent are written |
| Booking.StatusAndCancelInFields | src/routes/appointments.js:579-686 | a status change writes the status, and a cancel its outcome over a confirmed appointment and no refund over an unpaid one; nothing else changes |
| Booking.PurgeInFields | src/models/Appointment.js:177-183 | deletion takes exactly unpaid holds over three minutes old |
| Booking.RewriteIsSafe | src/routes/appointments.js:171-187 | rewriting one appointment keeps the book free of double bookings exactly when it ends up dead or in a slot free in every tenant's book |
| Booking.RescheduleIsSafeExactlyWhen | src/routes/appointments.js:701-736 | a reschedule, with any subset of its fields and any context, creates no double booking exactly when the appointment is not found, the check stops it, it is dead, or the slot it ends up in is free in every tenant's book |
| Booking.SetStatusIsSafeExactlyWhen | src/routes/appointments.js:667-686 | a status change creates no double booking exactly when the status is not allowed, the appointment is not found, live already or left dead, or its slot is free |
| Booking.PartialRescheduleCanDoubleBook | src/routes/appointments.js:707-733 | a start sent alone can double-book |
| Booking.RevivalCanDoubleBook | src/routes/appointments.js:685-686 | confirming a cancelled appointment can double-book |
| Booking.DeletionIsInvisibleToBooking | src/models/Appointment.js:177-183 | a book that purges lapsed holds at arbitrary times and one that never does answer every sequence of booking requests alike |
| Booking.ReschedulingMissesDeletionExactlyWhen | src/routes/appointments.js:701-725 | deletion leaves a reschedule's answer alone exactly when it has not deleted the appointment itself nor, where the conflict check is made and passes, anything that would have stopped it |
| Booking.DeletionIsVisibleToRescheduling | src/routes/appointments.js:713-725 | such a deletion happens: the rescheduling query counts lapsed holds |
| Booking.AppointmentStore.PostAppointment | src/routes/appointments.js:128-243 | the handler's refusals in order, the computed end and status, and nothing stored unless accepted |
| Booking.AppointmentStore.CancelAppointment | src/routes/appointments.js:391-591 | already cancelled, unchangeable or cancelled, by the status found; an unpaid hold without a refund |
| Booking.AppointmentStore.PatchAppointment | src/routes/appointments.js:701-736 | conflict check only with start and specialist, against a sixty-minute default end that is not stored |
| Booking.AppointmentStore.PatchStatus | src/routes/appointments.js:667-686 | any listed status is written over any other |
| Cancellation.AtMostOneRefundAndOneUpdate | src/routes/appointments.js:391-591 | over any interleaved, crashed and retried cancels with the reference settled: one key, at most one refund, within the fee cap when fees were known; at most one update, which cancels and records that refund or none |
| Cancellation.LaterCancelsChangeNothing | src/routes/appointments.js:393-406 | after the one update no step of any cancel changes the appointment, and a new cancel ends at its read |
| Cancellation.UndisturbedCancelRefunds | src/routes/appointments.js:441-591 | a cancel on its own refunds its outcome's amount under the key, or what the fee leaves of it when the fees are known and positive, sets the outcome's status and appends the refund |
| Cancellation.UndisturbedCancelUpdates | src/routes/appointments.js:424-583 | without a refund to make a cancel on its own updates an unpaid or confirmed appointment to the right status, and leaves a visit that is over as it was |
| Cancellation.RetryAfterALostAnswer | src/routes/appointments.js:434-583 | after a refund whose answer was lost no retry makes another: with nothing to refund it cancels unrecorded, with the same amount it cancels and records the refund, with any other it changes nothing |
| Cancellation.RefundIsRecordedExactlyWhen | src/routes/appointments.js:441-591 | over every run of a paid, confirmed appointment an update that finds a refund made records it, if and only if the policy does not both refund something at one time and nothing at another |
| Cancellation.OverIsRefundedUnrecorded | src/routes/appointments.js:441-583 | over every run of a paid visit that is completed or missed the appointment is never changed, and a refund is made in some run exactly when the policy can refund something |
| Cancellation.UnsettledReferenceRefundsTwice | src/routes/appointments.js:463-503 | when a cancel has to look the reference up, a run with two refunds exists |
| Cancellation.OneRefundExactlyWhenSettled | src/routes/appointments.js:441-444 | at most one refund in every run if and only if no cancel has to look the reference up |
| Cancellation.SafeAmount | src/payments/stripe.js:56-83 | the amount requested when there is no cap or the cap leaves it, what the cap leaves otherwise |
| Cancellation.SafeAmountIsTheLargestAllowed | src/payments/stripe.js:56-95 | no larger amount is within both the request and the cap, and nothing is asked only when nothing positive is |
| Cancellation.StripeAccount.CreateRefund | src/payments/stripe.js:111-111 | a known key creates nothing and returns its refund or an error |
| Cancellation.StripeAccount.RefundPayment | src/payments/stripe.js:51-111 | refuses bad amounts and missing references, keeps existing refunds, and creates at most one under the key, of the full amount when the fee leaves it and else within the cap |
| CacheKeys.KeyIsCanonical | src/middleware/resolveTenant.js:43-59 | two queries share a key if and only if they are equal up to object key order, `__proto__` members aside |
| CacheKeys.KeyIsCollisionFree | src/middleware/resolveTenant.js:57-59 | without `__proto__` members, keys agree exactly when the queries mean the same |
| CacheKeys.ProtoCollides | src/middleware/resolveTenant.js:48-51 | two queries with different meanings and the same key |
| CacheKeys.ValuesAreWellFormed | src/middleware/resolveTenant.js:43-55 | the queries covered are all JSON values: every string, boolean, null and number text, and lists and objects of them without a repeated key |
| CacheKeys.NormalizeWorks | src/middleware/resolveTenant.js:43-55 | normalising orders keys strictly at every level and keeps the meaning |
| CacheKeys.NormalFormIsUnique | src/middleware/resolveTenant.js:47-52 | normal forms with the same meaning are the same value |
| CacheKeys.WriteIsPrefixFree | src/middleware/resolveTenant.js:57-59 | JSON text (sections 4 to 7 of RFC 8259) determines the value it starts with and where it ends |
| CacheKeys.PlainExactlyWhenKept | src/middleware/resolveTenant.js:48-51 | a query loses nothing in normalising but key order if and only if it has no `__proto__` member |
| CacheKeys.KeyOrderInFields | src/middleware/resolveTenant.js:49-51 | the keys of a normalised object are listed with array indices first, in numeric order, and the others as sorted text |
| CacheKeys.IndicesAreDecimals | src/middleware/resolveTenant.js:48-51 | the array indices among keys are the numbers below 2^32 - 1 in decimal |
| CacheKeys.EscapesInFields | src/middleware/resolveTenant.js:58-58 | which characters of a string are escaped, and how (section 7 of RFC 8259) |
| TenantCache.PruneKeepsTheNewest | src/middleware/resolveTenant.js:61-83 | pruning drops every expired entry first, then only the excess over a thousand, and every survivor is at least as new as every unexpired entry dropped |
| TenantCache.ClearingOneSparesOthers | src/middleware/resolveTenant.js:111-117 | clearing one tenant drops exactly its entries |
| TenantCache.StoringKeepsOthers | src/middleware/resolveTenant.js:99-102 | while there is room, storing an answer keeps every other fresh entry |
| TenantCache.Cache.PruneTenantCache | src/middleware/resolveTenant.js:61-83 | the two loops compute that pruning in place |
| TenantCache.Cache.DropExpired | src/middleware/resolveTenant.js:62-66 | deleting while iterating leaves exactly the fresh entries in order |
| TenantCache.Cache.DropOldest | src/middleware/resolveTenant.js:72-82 | deletes the first n in timestamp order |
| TenantCache.Cache.Probe | src/middleware/resolveTenant.js:89-95 | no hit exactly when no entry of the query's key is under five minutes old; a hit is that entry's tenant |
| TenantCache.Cache.Remember | src/middleware/resolveTenant.js:99-102 | stores a found tenant under the call's own start time, then prunes; stores nothing otherwise |
| TenantCache.Cache.ClearTenantCache | src/middleware/resolveTenant.js:110-122 | empties the cache, or drops exactly one tenant's entries |
| TenantLookups.StalenessIsBounded | src/middleware/resolveTenant.js:88-105 | in every interleaving a cached answer was the database's within the last five minutes, and a loaded one during the call |
| TenantLookups.RecentExactlyWhenPrompt | src/middleware/resolveTenant.js:89-102 | an answer under five minutes old is guaranteed to calls of a given length if and only if that is under five minutes |
| TenantLookups.SlowCallIsStale | src/middleware/resolveTenant.js:97-100 | for every query, a run in which a call of that length or longer returns an answer that is too old |
| TenantLookups.StoredAnswerIsReused | src/middleware/resolveTenant.js:88-102 | while there is room a stored answer is what the next lookup of the same query gets, until exactly five minutes after the loading call began |
| TenantLookups.CapacityIsRespected | src/middleware/resolveTenant.js:99-102 | at most a thousand entries with distinct keys, after every step of every interleaving |
| TenantLookups.ClearIsFinalExactlyWhen | src/middleware/resolveTenant.js:110-122 | after a clear every later answer naming the tenant dates from the clear or later, if and only if no stale load of it is in flight; so always when no lookup is |
| TenantLookups.StaleLoadsHappen | src/middleware/resolveTenant.js:97-101 | for every query such a load is reachable |
| RefreshTokens.FamiliesAreSafe | src/routes/auth.js:261-314 | over every run, each login's family has at most one unrevoked token, and replacement links stay in the family and never return |
| RefreshTokens.RotationReplacesTheToken | src/routes/auth.js:303-314 | a rotation issues a fresh token of the same admin, links to it and changes no other; exactly in the contexts that find the admin is the old one then reuse and does the new one refresh until it expires |
| RefreshTokens.RefreshIssuesExactlyWhen | src/routes/auth.js:262-307 | a refresh issues a token if and only if the one presented is stored, unrevoked and unexpired and its admin exists, is active and is of the request's tenant if there is one |
| RefreshTokens.RefusedRefreshInFields | src/routes/auth.js:266-301 | an open token without a usable admin ends revoked and nothing else changes; other refusals change nothing, but reuse revokes exactly the admin's unrevoked tokens |
| RefreshTokens.RefusalInFields | src/routes/auth.js:266-292 | which refusal an unknown, a revoked and an expired token gets |
| RefreshTokens.LoginAndLogoutInFields | src/routes/auth.js:176-370 | a login issues a week's token exactly to an active admin; a logout stamps a stored unrevoked token |
| RefreshTokens.OtherActionsInFields | src/models/RefreshToken.js:50-50 | deletion takes exactly expired tokens; time and administration change nothing stored |
| RefreshTokens.PasswordChangesExactlyWhen | src/routes/auth.js:596-640 | a password change goes through if and only if the admin is found, both passwords are given, the new one has eight characters and the current one is right |
| RefreshTokens.ReuseRevokesEverything | src/routes/auth.js:262-285 | presenting a stored revoked token revokes all of its admin's tokens exactly when the admin exists and is found in the request's context, or they were all revoked |
| RefreshTokens.ReuseElsewhereGoesUndetected | src/routes/auth.js:262-285 | presented in another tenant's context, an active admin's revoked token changes nothing |
| RefreshTokens.NoEarlierTokenRefreshesAgain | src/models/RefreshToken.js:92-107 | after a detected reuse, no token the admin had by then refreshes again in any continuation and any context |
| RefreshTokens.PasswordChangeLeavesOne | src/routes/auth.js:628-640 | after a password change the new token is the admin's only unrevoked one, and other admins' tokens are untouched |
| RefreshTokens.TokenCollection.CreateForAdmin | src/models/RefreshToken.js:79-89 | adds one token with a seven-day life |
| RefreshTokens.TokenCollection.Revoke | src/models/RefreshToken.js:63-71 | stamps one token, keeping an earlier link when none is given |
| RefreshTokens.TokenCollection.RevokeAllForAdmin | src/models/RefreshToken.js:92-107 | stamps exactly the admin's unrevoked tokens |
| RefreshTokens.TokenCollection.PostRefresh | src/routes/auth.js:261-314 | the handler's outcomes in order, with the owner looked up in the request's context |
| RefreshTokens.TokenCollection.PostLogout | src/routes/auth.js:362-370 | revokes the presented token once |
| RefreshTokens.TokenCollection.PatchPassword | src/routes/auth.js:596-640 | the refusals in order, with the admin looked up in the request's context; otherwise revokes all, then issues one |
| Lockout.LockoutRateBound | src/models/Admin.js:105-126 | in any serial run of wrong passwords, in any contexts, every window of length w sees at most 5 (w / 2h + 1) comparisons whose failure is counted; so of all comparisons when every context reaches the account |
| Lockout.RateHoldsExactlyWhen | src/routes/auth.js:176-226 | for requests in given contexts the bound holds over every run if and only if each context is none or the account's own tenant |
| Lockout.UncountedComparisons | src/middleware/multiTenantPlugin.js:44-67 | in any other context any number of comparisons go through at one instant |
| Lockout.FiveThenLocked | src/models/Admin.js:117-123 | the bound is reached: in a context that reaches the account, five comparisons at one instant, which lock it |
| Lockout.LockHoldsForTwoHours | src/models/Admin.js:100-126 | that lock refuses every login, in any context and even with the right password, for exactly two hours, after which the right password in a context that reaches the account clears it |
| Lockout.LoginKeepsValid | src/routes/auth.js:199-234 | an account is below five failures when it carries no lock, and at five or more when it does |
| Lockout.LoginInFields | src/routes/auth.js:199-233 | when a login is refused unseen, fails at saving, or goes by the password |
| Lockout.LoginCountsInFields | src/models/Admin.js:105-134 | what a success and a failure leave of count and lock, in a context that reaches the account and in another |
| Lockout.RunIsSpaced | src/routes/auth.js:199-226 | any six counted comparisons in a row take at least the lock time |
| Lockout.Admin.IncLoginAttempts | src/models/Admin.js:105-126 | restarts at one after an expired lock, otherwise counts and locks at five; nothing in a context that does not reach the account |
| Lockout.Admin.ResetLoginAttempts | src/models/Admin.js:129-134 | clears count and lock in a context that reaches the account, and nothing otherwise |
| Lockout.Admin.PostLogin | src/routes/auth.js:199-234 | ends an expired lock, or fails at the save hooks in doing so, refuses under a lock, counts a failure, resets on success |
| Isolation.Noninterference | src/middleware/multiTenantPlugin.js:44-105 | stores that agree on a tenant's documents give any run in its context, with no tenant options or its own, the same replies and the same documents of it |
| Isolation.OthersAreUntouched | src/middleware/multiTenantPlugin.js:44-105 | a run that names another tenant in no option, update or create never changes that tenant's documents |
| Isolation.IsolationHoldsExactlyWhen | src/middleware/multiTenantPlugin.js:44-54 | for runs whose calls may carry given tenant options, both halves of isolation hold if and only if none is another tenant's |
| Isolation.ForeignOptionReaches | src/middleware/multiTenantPlugin.js:45-51 | with another tenant's option a find returns, and a removal removes, that tenant's documents |
| Isolation.StepSeesOnlyTheView | src/middleware/multiTenantPlugin.js:44-70 | each hooked operation's reply and effect on the tenant are a function of the tenant's own documents |
| Isolation.ActsAsOnItsOwnDatabase | src/middleware/multiTenantPlugin.js:44-70 | under the hooks each operation on the shared collection answers, and changes the tenant's documents, as it would without hooks on a database of that tenant alone |
| Isolation.FindAndDeleteInFields | src/middleware/multiTenantPlugin.js:57-70 | a find returns every match as often as stored, a count their number, and a removal of many leaves exactly the others |
| Isolation.UpdateManyInFields | src/middleware/multiTenantPlugin.js:68-68 | every match gets the change and the tenant set, if one is; the others and all ids stay |
| Isolation.OneDocumentInFields | src/middleware/multiTenantPlugin.js:58-69 | the operations on one document act on the first match, and what each makes of it |
| Isolation.SavesInFields | src/middleware/multiTenantPlugin.js:76-105 | what a save and a create store, and when each is refused |
| Isolation.HandingOverReachesTheOther | src/middleware/multiTenantPlugin.js:59-105 | an operation that names another tenant gives it exactly what it makes of the matching documents of the tenant in effect, on top of what it has |
| Isolation.OthersAreSparedExactlyWhen | src/middleware/multiTenantPlugin.js:56-105 | one operation leaves another tenant's documents alone if and only if it does not name it, or is no create and matches no document of the tenant in effect |
| Isolation.Query.AddTenantFilter | src/middleware/multiTenantPlugin.js:44-54 | the query's own option, else the context, and no filter without either |
| Isolation.SavedDocument.AttachTenant | src/middleware/multiTenantPlugin.js:76-95 | attaches the context's tenant only where none is set, and fails without one |
| Isolation.Model.Find | src/middleware/multiTenantPlugin.js:57-57 | a hooked find |
| Isolation.Model.UpdateMany | src/middleware/multiTenantPlugin.js:68-68 | a hooked update of every match |
| Isolation.Model.DeleteMany | src/middleware/multiTenantPlugin.js:70-70 | a hooked removal of every match |
| Isolation.Model.Create | src/middleware/multiTenantPlugin.js:76-95 | a create through the save hooks |
| Isolation.Model.LoadAndSave | src/middleware/multiTenantPlugin.js:76-105 | load, edit and save through both save hooks; whatever was set, every document keeps the tenant it was loaded with |
| Analytics.AnalyticsConserve | src/controllers/analyticsController.js:66-210 | product and specialist buckets sum to the totals, months to the money totals, categories to the totals less exactly the lines that table leaves out; profit is revenue less cost |
| Analytics.TotalsAreOfTheItemsSold | src/controllers/analyticsController.js:66-106 | overall revenue is the sum of price times quantity, and cost of unit cost times quantity, over the items that have a product |
| Analytics.UnitCostByCases | src/controllers/analyticsController.js:84-94 | the unit cost is the item's own price when set, else that of the variant it names when there are variants, else the product's |
| Analytics.LineInFields | src/controllers/analyticsController.js:77-188 | the key under which each table files an item, and the amounts |
| Analytics.QuantitiesAdd | src/controllers/analyticsController.js:96-210 | an item of quantity m + n reports as two items of m and n, in the totals and every table |
| Analytics.CategoriesConserve | src/controllers/analyticsController.js:129-155 | categories sum to the totals when none has an inherited name |
| Analytics.InheritedCategoryIsLost | src/controllers/analyticsController.js:129-139 | a sale in the category `constructor` is in the totals and in no category |
| Analytics.GroupIsExact | src/controllers/analyticsController.js:101-127 | each bucket holds exactly its own lines' totals, and the margin kept while adding is that of the final totals |
| Analytics.EveryBucketIsConsistent | src/controllers/analyticsController.js:101-210 | in all four tables profit is revenue less cost, and the margin kept while adding is the percentage that profit is of revenue, or zero without revenue |
| Analytics.GetProfitAnalytics | src/controllers/analyticsController.js:66-210 | the nested loops compute that report in one pass, skipping items without a product |
| Analytics.ProfitPass.AddItem | src/controllers/analyticsController.js:72-210 | one item adds price times quantity to revenue, unit cost times quantity to cost, and its line to each table |
| Analytics.GetTopProducts | src/controllers/analyticsController.js:324-382 | the separate loop yields the first k of the profit report's products by profit |
| Analytics.NoneLeftOutEarnsMore | src/controllers/analyticsController.js:366-368 | no omitted product has more profit than an included one |
| Analytics.TopProductsAreTop | src/controllers/analyticsController.js:366-382 | the ranking is a permutation of the profit report's products, each with exactly its own lines' totals |
| Consent.ActiveForService | src/models/ConsentTemplate.js:291-305 | a published template of the service of the highest version, and none only when there is none |
| Consent.LatestConsent | src/models/ConsentTemplate.js:377-382 | the client's latest signed record of the template, and none only when there is none |
| Consent.ContentBranchNeverFires | src/models/ConsentTemplate.js:446-464 | the content comparison compares a template with itself |
| Consent.SimplifiedCheckIsSafe | src/models/ConsentTemplate.js:325-553 | the simplified check asks for less than the full one exactly on an until-changed template whose latest consent has only expired, and for more exactly on an every-visit template signed for the appointment |
| Consent.ConsentIsRequiredExactlyWhen | src/models/ConsentTemplate.js:325-489 | when the full check demands a signature, for each frequency, in the fields of the template, the appointment and the latest signed consent |
| Consent.PublishingForcesResigning | src/models/ConsentTemplate.js:236-305 | publishing an unsigned draft as the highest version makes both checks demand a signature from every client |
| Consent.NewVersionForcesResigning | src/models/ConsentTemplate.js:212-279 | so does a new version of the active template, once published |
| Consent.TemplateCollection.Publish | src/models/ConsentTemplate.js:236-279 | only a draft is published; it gets its hash and keeps its version |
| Consent.TemplateCollection.Archive | src/models/ConsentTemplate.js:282-288 | only the status of the one template changes |
| Consent.TemplateCollection.CreateNewVersion | src/models/ConsentTemplate.js:212-233 | adds a draft with the next version number and no validity period |
| Slugs.BaseSlugIsNormalForm | src/models/Tenant.js:284-287 | the base transform is idempotent and yields the alphanumeric words joined by single dashes, or nothing exactly when there are none |
| Slugs.AsciiIsLowered | src/models/Tenant.js:284-285 | on ASCII text lower-casing moves A to Z by 32 and nothing else |
| Slugs.SlugCharacters | src/models/Tenant.js:286-287 | only small letters, digits and dashes appear in a base slug |
| Slugs.PlainWordIsKept | src/models/Tenant.js:284-287 | a word of small letters and digits is its own base slug |
| Slugs.KelvinAndDottedI | src/models/Tenant.js:285-285 | the two other characters that lower-case to an ASCII letter |
| Slugs.CandidatesDiffer | src/models/Tenant.js:313-313 | distinct counters give distinct slugs |
| Slugs.CandidateIsSlug | src/models/Tenant.js:313-313 | a candidate of a slug is a slug: the base, a dash and the counter in decimal |
| Slugs.TakenCandidatesFit | src/models/Location.js:131-140 | n candidates can all be taken only with n taken slugs |
| Slugs.UniqueTenantSlug | src/models/Tenant.js:299-324 | the first free of base, base-1 … base-99, and failure exactly when all are taken |
| Slugs.UniqueLocationSlug | src/models/Location.js:127-142 | the first free candidate, within one probe more than there are taken slugs |
| Slugs.Tenant.PreSave | src/models/Tenant.js:280-344 | keeps a slug that is set, otherwise generates one or fails with the document unchanged |

## Left out

- Booking.NoDoubleBookingEver: the conflict check and the write after it are one
  step; two requests between each other's check and write are not modelled.
- Booking.DeletionIsInvisibleToBooking: reschedules are excluded, because their
  query does see deletion, and status changes find their appointment live.
- Cancellation.AtMostOneRefundAndOneUpdate: no other writer touches the
  appointment, and Stripe remembers a key forever.
- Lockout.LockoutRateBound: requests are serial; interleaved logins are not
  modelled. The document that login builds from the raw record is taken to be as
  loaded, with no field modified until the route sets one.
- RefreshTokens.FamiliesAreSafe: requests are serial; interleaved refreshes of one
  token are not modelled.
- TenantLookups.StalenessIsBounded: queries are JSON values; `undefined` and date
  values are not modelled, nor is an ObjectId, which src/middleware/resolveTenant.js:260
  passes and the normaliser walks as an object, so that its key text depends on how
  the driver represents it.
- Isolation.Noninterference: a filter that names a tenant itself stands for what the
  hook leaves of it, its own tenant condition being overwritten; the
  `estimatedDocumentCount` hook is left out, and so are unique indexes spanning
  tenants, through which a failed insert depends on other tenants' documents.
- Analytics.GetProfitAnalytics: per-month order counts, profitable-item counts,
  the product and specialist pre-filters, the sorting of the other tables, display
  rounding, and the order in which number-like category names are listed.
- Slugs.UniqueLocationSlug: the base is a parameter, because the location's
  transform is a library's; the taken slugs are those its query finds, which in
  another tenant's context are that tenant's; the single-primary-location hook is
  left out.
- Cancellation.SafeAmount: `computeCancellationOutcome` is not part of this model;
  each read may come up with any amount and cancelled status. Connected accounts,
  transfer reversal, `payment.status`, e-mails and the waitlist are left out too.
- GiftCards.GiftCard.ReserveForAppointment: the session id kept on a hold.
- Booking.AppointmentStore.PostAppointment: a missing service and a missing variant
  are one case, and the payment fields, which no conflict check reads, are left out.
- Booking.AppointmentStore.CancelAppointment: the refund that comes before the
  update is in `Cancellation`.
- GiftCardStore.NeverOverspentInAnyInterleaving: writers that change a card other
  than through its ledger methods, and fractions of a penny.
- Text is ordered by Unicode scalar values, not by UTF-16 code units, so keys
  outside the basic plane may sort elsewhere than in JavaScript; no stated property
  depends on which order is used.
- Password hashing, signing, random token and code generation, template hashing:
  opaque values or fresh identifiers.
- Routing, validation, logging, e-mail templates, uploads, scripts, seminar seats,
  referral statistics and the slot engine: plumbing, or only easy invariants.
