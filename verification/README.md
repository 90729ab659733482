# Checkout service: the confirm protocol, its money and its watch

A Dafny model of the checkout service: what the database statements do, what one confirm does step by step while
everything else interleaves, what is stored as money, how promo uses are counted, how an abandoned session is expired,
and how the background redialer owns its client. `dafny verify dfyconfig.toml` checks all of it.

## How the model is built

| file | contents |
|---|---|
| `Base`, `Domain` | Go's int64 arithmetic with wrap-around; the session row, its quote, the state machine table |
| `Money`, `Catalog` | shipping price, flat tax, discount, order bounds; aggregation, merge, re-validation (the loops, proved against functions) |
| `Ledger`, `PromoTx` | one redemption as an atomic act; the redemption transaction statement by statement under a row lock |
| `Store` | every SQL statement of the repository as a WHERE guard and an assignment on tables; the idempotency claims |
| `Repository` | the repository object: one method per statement, updating the tables in place, proved equal to `Store` |
| `Protocol` | the whole system as a step machine: `Next(state, event)`, `Run(state, events)` |
| `Safety` | the multi-table invariant, kept by every event |
| `Rows`, `Steps` | what each event makes of the row, the claim and the ledger it finds, in terms of the tables alone |
| `Answers`, `Codes` | what every refusal of confirm proves about the run, and that orders and their discounts were earned |
| `Theorems`, `Quotes`, `Subtotals`, `Discounts`, `Bounds`, `Clean`, `Progress`, `FirstDrive` | what holds over all runs |
| `Confirm`, `Service` | `CheckoutService` as imperative code; confirm is proved to be a run of the machine |
| `Watch`, `Lateness`, `Abandon` | the abandonment watch as a machine beside the protocol, its timing, and the workflow loop that refines it |
| `Witnesses`, `Race`, `Poison` | concrete runs showing where a guarantee stops, and what follows from one |
| `Lazy`, `Keys` | the redialer; the composed order key |

A `State` holds the tables, order-service's orders, every confirm execution (with its program counter, its re-read
snapshot and the deadline of its current context) and every user call between its read and its write. An `Event` is
one of: time passing, a session being created, either half of a user call, a deadline bump, either UPDATE of the
expiry timer, a reap, a confirm starting, a confirm taking one step, a crash. Each remote call may be acknowledged,
applied but reported failed, not applied, or (order-service) refused as invalid; a redemption judges the code's expiry
at any instant of its execution up to its commit. "In every run" below means for every sequence of events from an
empty database with any tax table and promo codes the schema admits.

A run is *clean* when no user write that was decided on a read of a confirming row hits a row; reads, refused calls and
writes that miss are fine. It is *serial* when every user write lands on the row revision its call read.

## Assumptions

- `pkg/idempotency`: Claim is one atomic act on UNIQUE (user, key). Another session id conflicts, a finished row
  replays, a lock younger than the takeover window is refused, and otherwise the lock is taken now and the stored
  subject returned. Release makes the lock read as stale. Row ids are never reused.
- order-service: CreateOrder is create-or-replay on (user, composed key).
- One clock for the database and all processes; `updated_at` is different for every write of a row; API and worker share
  one takeover value. A call bounded by a context takes effect before that context's deadline or never, and code between
  two calls takes no time.
- Tax rules, and the kind, value, limits and expiry of promo codes, do not change during a run. Region names are already
  upper case. The shipping quoter is configured.
- A finalize signal is sent only after its session was completed or cancelled.
- Order ids returned by order-service are positive and parse as integers.

## Findings

- MaxConfirmWrite (18 s) is not the latest a confirm can write: abortPreAttempt runs two detached writes in sequence, so
  the release after an abort lands up to ConfirmDeadline + 2 x releaseTimeout (21 s) after the start, and does
  (`Witnesses.LatestWriteAttained`). Exactly the aborts made past ConfirmDeadline hand out such a deadline
  (`Theorems.GoesLateExactly`), and exactly the release under it acts past 18 s (`Theorems.LatestWrite`). A confirm's
  writes keep to 18 s in the runs without such an abort (`Theorems.WriteBoundHolds`), and one such abort is enough to
  break that (`Theorems.WriteBoundFails`). The startup gate on the takeover window covers 21 s, so the fencing argument
  stands (`Theorems.Fenced`).
- The `confirming` row of the state machine table lists `shipping_set` and `ready` for the confirm flow, but PUT shipping
  and PUT payment consult the same table. They can take an attempted session out of confirming, after which it can be
  cancelled while its order exists (`Witnesses.AttemptedSessionCancelled`). One order per session survives. "Charged
  equals shown" and "never cancelled once attempted" hold in clean runs. `Clean.SealBreaksExactly` says exactly which
  events take an attempted row out of confirming, and `Clean.ChargedDiffersExactly` exactly which make an order differ
  from its row.
- ExpireDue reads the status and the claim binding in two statements. If the row leaves confirming in between, the join
  is empty, the watch takes that for "gone" and ends on a live session (`Race.WatchAbandonsLiveSession`).
  `Watch.WatchEndsExactly` gives the exact condition. Lazy expiry still covers such a row when it is next read.
- SetPromo and SetAddress are fenced by status only, so a discount can exceed what is payable when calls interleave
  (`Witnesses.InterleavedTotalCanBeNegative`); `Discounts.ClampMovesExactly` says exactly when such a write keeps the
  clamp, and that every other write keeps it.
- For the same reason a PUT address decided while a code was applied can land after the code was removed: the row then has
  a discount and no code for it, so a confirm orders at that discount without redeeming anything
  (`Witnesses.StrayDiscountIsReached`). `Codes.StrayMovesExactly` says exactly which writes leave such a row, and
  `Codes.DiscountsAreRedeemed` that in serial clean runs no order is placed at an unredeemed discount.
- The poison-pill guard checks the order-side bounds on the row read before the claim, and nothing checks them again. A
  stale discount landing between that read and the entry gate gets an attempt authorized whose CreateOrder call is out of
  bounds (`Poison.PoisonedAttempt`); every later confirm under that key is refused (`Poison.PoisonIsForever`).
  `Bounds.BoundsMoveExactly` says exactly which events take a row out of the bounds, `Bounds.AttemptsAreBounded` that
  without one the guard keeps its promise, and `Bounds.SerialAttemptsAreBounded` that serial calls do not break it.
- With a repeated SKU a requote updates the rows by product id but sums its lines one by one. The stored subtotal is then
  the sum of the stored lines exactly when it counts every line at the price of its product's last line
  (`Subtotals.SubtotalMovesExactly`), which it always does for a cart that prices each product once
  (`Subtotals.EvenCartSums`).
- With a repeated SKU mergeCatalog compares each line with the last line's quantity, so a basket inventory cleared can
  still be reported short (`Catalog.RepeatedSkuBlocked`); `Catalog.CleanIffCleared` gives the exact condition.

## Model

| member | source | states |
|---|---|---|
| Theorems.OneOrderKeyPerSession | internal/logic/v1/confirm.go:291-313 | In every run CreateOrder is never called with two different keys for one session |
| Theorems.OneOrderPerSession | internal/logic/v1/confirm.go:109-203 | In every run order-service holds at most one order per session |
| Theorems.MarkedClaimStaysBound | internal/logic/v1/confirm.go:315-335 | A claim that ever carries the attempt marker is the binding of its session in every later state |
| Safety.CoreRun | internal/core/repository/postgres/session.go:176-287 | The invariant over lock, marker, binding, order key and execution state holds in every reachable state |
| Safety.CoreStep | internal/logic/v1/confirm.go:109-203 | Every single event, in any state satisfying it, keeps that invariant |
| Theorems.Fenced | internal/logic/v1/confirm.go:47-62 | While an execution can write under a claim it is the only one, the claim cannot be taken over, and parked expiry of its session does nothing |
| Theorems.LatestWrite | internal/logic/v1/confirm.go:515-526 | No step of an execution changes anything later than 21 s after its start, which is inside every takeover window the gate accepts; it changes something past 18 s if and only if it is a release under a deadline that late, and then writes the database if and only if the call arrives and the claim exists |
| Theorems.GoesLateExactly | internal/logic/v1/confirm.go:499-526 | In every run an event gives an execution a context that outlasts 18 s after its start if and only if it is that execution's abort made past ConfirmDeadline |
| Theorems.WriteBoundHolds | internal/logic/v1/confirm.go:61-62 | In a run without an abort made past ConfirmDeadline, MaxConfirmWrite bounds everything the execution does |
| Theorems.WriteBoundFails | internal/logic/v1/confirm.go:515-526 | After any abort made past ConfirmDeadline, the release at its own deadline writes the database past MaxConfirmWrite |
| Witnesses.LatestWriteAttained | internal/logic/v1/confirm.go:515-526 | A reachable state in which a confirm writes exactly 21 s after its start |
| Theorems.NoABA | internal/core/repository/postgres/session.go:201-287 | When Complete, Requote, Strip or Abort hits, the row's quote is the one that execution re-read after the gate |
| Theorems.AnswersAgree | internal/logic/v1/confirm.go:205-224 | All successful answers for a session (fresh, replayed, recovered, adopted) carry one order id and one quote: the row's and order-service's |
| Theorems.AnswerShowsRow | internal/logic/v1/confirm.go:378-404 | In every run a successful answer shows the completed row and the order of the session's composed key |
| Theorems.FinishedMeansCompleted | internal/logic/v1/confirm.go:583-592 | A claim is finished only if its session is completed under it, and its body is what the row shows |
| Theorems.BoundClaimNeverReaped | internal/core/repository/postgres/session.go:461-481 | The claim bound to a confirming session exists, and survives any reap |
| Theorems.AbortSawTheClaim | internal/core/repository/postgres/session.go:201-220 | An abort that matches saw the claim row itself, unmarked: its NOT EXISTS is never true because the row was deleted |
| Theorems.StatusChangesAreEdges | internal/logic/v1/fsm.go:10-49 | Every status change of every event is an edge of the table, except the parked-confirm expiry out of confirming |
| Domain.EnteredFrom | internal/logic/v1/fsm.go:10-49 | The state machine table read backwards: each state can be entered from exactly the listed ones |
| Theorems.TerminalForever | internal/core/repository/postgres/session.go:505-524 | A terminal row is never written again |
| Theorems.OneActivePerUser | db/migrations/sql/000001_init_schema.up.sql:28-31 | In every run a user has at most one non-terminal session |
| Quotes.QuotesStayCoherent | internal/core/repository/postgres/session.go:292-316 | A row with a shipping method holds a fee quoted for its current country and the floored tax on its current subtotal and fee, under every interleaving |
| Rows.TaxFollowsTable | internal/core/repository/postgres/session.go:442-459 | In every reachable row with a method the tax is floor((subtotal + fee) x rate / 10000) at the country's own row of the tax table, and at the DEFAULT row only if it has none |
| Rows.RequoteFollowsTable | internal/logic/v1/confirm.go:558-578 | A requote derives its tax by the same table and the stored code's discount on it, and derives nothing without a rate, a taxable base or a discount |
| Quotes.TotalsAlwaysCompose | internal/core/repository/postgres/session.go:238-260 | total = subtotal + fee + tax - discount in every reachable row |
| Quotes.SubtotalIsSum | internal/core/repository/postgres/session.go:238-260 | With distinct products the subtotal is the int64 sum of the lines; within the order bounds, the exact sum |
| Subtotals.SubtotalMovesExactly | internal/core/repository/postgres/session.go:238-260 | In every run a landing requote leaves the subtotal equal to the sum of the lines if and only if it counts every line at the price of its product's last line; every other event leaves that equality as it was |
| Subtotals.EvenCartSums | internal/logic/v1/confirm.go:442-471 | A session created from a cart that prices each product once keeps one price per product and a subtotal that is the sum of its lines |
| Quotes.ReadyRowsAreComplete | internal/logic/v1/fsm.go:10-49 | Every ready, confirming or completed row has an address, a method and a valid payment token |
| Discounts.SerialTotalsNonNegative | internal/logic/v1/promo.go:42-58 | In serial runs a row with a non-negative subtotal has 0 <= discount <= subtotal + fee + tax and total >= 0 |
| Discounts.ClampMovesExactly | internal/core/repository/postgres/promo.go:54-71 | In every run, a landing SetPromo or SetAddress leaves the row clamped if and only if its code is gone, or the row's subtotal is negative (nothing is clamped there), or something was payable in the call's snapshot and the code's worth fits what is payable now or the row did not get cheaper since; every other event keeps a clamped row clamped |
| Witnesses.InterleavedTotalCanBeNegative | internal/core/repository/postgres/promo.go:54-71 | Two interleaved calls store a discount above everything payable, with a positive subtotal |
| Codes.StrayMovesExactly | internal/core/repository/postgres/promo.go:54-71 | In every run an event leaves a row with a discount and no code if and only if it is a landing PUT address decided on a snapshot whose code, worth something, the row has since lost, or both were so before and are untouched |
| Codes.SerialNeverStray | internal/logic/v1/promo.go:42-58 | In serial runs a row without a code has no discount |
| Codes.DiscountsAreRedeemed | internal/logic/v1/confirm.go:315-335 | In serial clean runs a CreateOrder call with a discount carries a code whose use is counted for its session |
| Witnesses.StrayDiscountIsReached | internal/core/repository/postgres/promo.go:54-71 | A reachable row with no code, a discount of its whole subtotal and a total of zero |
| Bounds.BoundsMoveExactly | internal/logic/v1/confirm.go:603-630 | In every run an event takes a row out of the order-side bounds if and only if it lands a discount that does not fit what the row has become, or a requote that stores a price order-service does not take |
| Bounds.AttemptsAreBounded | internal/logic/v1/confirm.go:67-75 | Unless such an event came since the confirm started, every quote it holds past its re-read, so at every CreateOrder call, is within the bounds |
| Bounds.SerialAttemptsAreBounded | internal/logic/v1/confirm.go:67-75 | In serial runs, with a cart that prices each product once and no requote to a price out of bounds since the confirm started, every CreateOrder call is within the bounds |
| Poison.PoisonedAttempt | internal/logic/v1/confirm.go:67-75 | A reachable state in which the attempt is authorized and about to order with a discount above everything payable |
| Poison.PoisonIsForever | internal/logic/v1/confirm.go:250-285 | In clean runs a session attempted out of bounds refuses every acknowledged same-key confirm, at any later time |
| Discounts.LedgerRun | internal/core/repository/postgres/promo.go:105-182 | In every run of the protocol each code's count is its number of redemptions and no cap is passed |
| Codes.UseCounted | internal/core/repository/postgres/promo.go:156-175 | In every run a use is counted only by a confirm of that session started no later than the code's deadline, with a redemption left of the code and of the user; it adds exactly that use and one to the count |
| Codes.RedemptionCounts | internal/core/repository/postgres/promo.go:105-182 | A first redemption of a code in date and not spent is counted and the confirm goes on to its marker |
| Clean.AttemptedStaysAttempted | internal/core/repository/postgres/session.go:195-220 | In clean runs a session whose claim carries the marker is bound to it and confirming or completed |
| Clean.ChargedEqualsShown | internal/logic/v1/confirm.go:291-313 | In clean runs an order was created from exactly the items, token, fee, tax and discount its session's row shows |
| Clean.ChargedDiffersExactly | internal/logic/v1/service.go:606-707 | After a clean run an event makes an order differ from its session's row if and only if it is a hitting PUT shipping or PUT payment decided on a read of the confirming row that stores another token, fee, tax or discount |
| Clean.CompletedIsCharged | internal/core/repository/postgres/session.go:271-287 | In clean runs a completed row's order exists and was created from what the row shows |
| Clean.RedeemedBeforeOrdering | internal/logic/v1/confirm.go:315-335 | In clean runs a CreateOrder call carrying a code follows a committed redemption of it, on first drives and re-drives |
| Answers.RefusalTells | internal/logic/v1/confirm.go:109-203 | In every run each refusal confirm answers, or is about to, has its literal cause in what one of its own steps found: a price that moved, a line that cannot be sold, an unknown SKU, a code past its deadline or spent, a foreign or locked key, a row moved by somebody else, a call that failed |
| Answers.OrdersAreCleared | internal/logic/v1/confirm.go:315-335 | In every run an execution on the way to its own marker or order re-validated exactly the lines it orders and found them clean |
| Answers.OrdersAreCounted | internal/logic/v1/confirm.go:315-335 | In every run an execution that set its own marker had the code it carries counted for its session |
| Clean.SealBreaksExactly | internal/logic/v1/service.go:606-707 | An attempted confirming session leaves {confirming, completed} on an event if and only if that event is a hitting PUT shipping or PUT payment decided on a read of the confirming row |
| Witnesses.AttemptedSessionCancelled | internal/logic/v1/service.go:682-707 | A reachable cancelled session whose order exists and was created from a token the row no longer shows |
| Progress.RedriveFinishes | internal/logic/v1/confirm.go:250-285 | In clean runs, whatever others do meanwhile to other rows and claims, a same-key confirm whose calls are acknowledged completes and finishes an unfinished attempted session if and only if its row passes the order bounds and its lock is free or stale when it claims; otherwise it is refused |
| FirstDrive.FirstConfirmCompletes | internal/logic/v1/confirm.go:109-203 | Whatever others do meanwhile to other rows and claims, an acknowledged confirm of a ready session with a clean re-check and a redeemable code places one order from the row's quote, completes the row, finishes the claim and counts the code once |
| Confirm.Confirm | internal/logic/v1/confirm.go:109-203 | The imperative confirm, under every schedule of others and every fate of its calls, is a run of the machine from the state it began in, ending in the machine's answer; success shows the completed row and its order |
| Confirm.ClaimConfirm | internal/logic/v1/confirm.go:205-224 | Claim outcomes become replay, proceed, key conflict, in flight or unavailable, as the machine's |
| Confirm.EnterConfirm | internal/logic/v1/confirm.go:250-285 | The entry gate proceeds, recovers a completed session, or refuses, leaving the claim to be released |
| Confirm.AuthorizeAttempt | internal/logic/v1/confirm.go:315-335 | It makes the calls of re-validation, then of redemption if the row holds a code, then of the marker; the first refusal ends it and is the answer, and it proceeds exactly when the marker was acknowledged |
| Confirm.RevalidateConfirm | internal/logic/v1/confirm.go:410-497 | By the verdict on what its reads returned: clean makes no further call; a retry, or drift without a lookup, aborts, releases and answers upstream; a data gap or drift requotes and releases with its own refusal, or answers in flight when the requote did not land |
| Confirm.RequoteComponents | internal/logic/v1/confirm.go:558-578 | Tax and discount are those of the fresh subtotal, or the requote fails |
| Confirm.RedeemForConfirm | internal/logic/v1/confirm.go:343-372 | By the ledger its call found: counted goes on; expired or exhausted strips the code and releases with that refusal, or answers in flight when the strip did not land; a failed call aborts and releases |
| Confirm.PlaceOrder | internal/logic/v1/confirm.go:291-313 | An acknowledged call yields the id stored under the composed key and is noted on the claim; an invalid one releases the claim as rejected, any other failure as upstream |
| Confirm.CompleteConfirm | internal/logic/v1/confirm.go:374-404 | A completion that landed is answered with the order id; a stale one only with a row found completed under this very claim; otherwise in flight or unavailable |
| Confirm.AbortPreAttempt | internal/logic/v1/confirm.go:499-526 | Exactly two calls, the abort and then the release, whatever comes of either, and a retryable refusal |
| Steps.StartsWithDeadline | internal/logic/v1/confirm.go:47-62 | A confirm runs under a deadline of 15 s; the startup gate accepts takeover windows above 4 x 18 s only |
| Steps.DeadDoNothing | internal/logic/v1/confirm.go:499-526 | An execution that answered, or whose context expired, changes nothing any more |
| Steps.NewKeyIsClaimed | internal/logic/v1/confirm.go:205-224 | An unused key is claimed with a locked row of its own, also when the answer is lost |
| Steps.KnownKeyIsAnswered | internal/logic/v1/confirm.go:205-224 | A used key conflicts for another session, replays its answer, is refused while its lock is within the window, and is otherwise taken over |
| Steps.LostClaimLocks | internal/logic/v1/confirm.go:205-224 | A claim whose answer is lost locks the key under the same conditions, and one that fails does not |
| Steps.EntryBinds | internal/logic/v1/confirm.go:250-285 | Entering binds a row if and only if it is ready and free or bound to this claim already |
| Steps.VerdictDecides | internal/logic/v1/confirm.go:410-497 | Where each verdict leads and what a requote will store |
| Steps.VerdictIsStep | internal/logic/v1/confirm.go:410-441 | The step takes the verdict of exactly the two answers it got, on the lines it re-read |
| Steps.MarkerRecords | internal/logic/v1/confirm.go:291-335 | The marker is 0 before CreateOrder is called and the order id after it |
| Steps.OrderPlaces | internal/logic/v1/confirm.go:291-313 | A new composed key orders exactly the lines, token, fee, tax and discount re-read; a known one changes nothing |
| Steps.RequoteLands | internal/logic/v1/confirm.go:442-497 | A requote lands exactly on the row bound to the claim, unbinds it to shipping_set, and gives each line the price of the last requoted line of its product |
| Steps.StripLands | internal/logic/v1/confirm.go:343-372 | A strip lands exactly on the row bound to the claim, and takes the code and all of its discount off |
| Steps.AbortLands | internal/logic/v1/confirm.go:499-526 | An abort lands exactly on the row bound to the claim whose claim is neither marked nor answered |
| Steps.CompletionLands | internal/logic/v1/confirm.go:374-404 | A completion lands exactly on the row bound to the claim, which keeps the binding and gets the order id |
| Steps.LapseExpires | internal/logic/v1/service.go:790-811 | A confirm that finds the deadline passed expires the row if it is still being edited |
| Steps.AnswerRecords | internal/logic/v1/confirm.go:583-592 | Finishing records the answer on the claim; releasing frees its lock and keeps the rest |
| Repository.SessionRepository.CreateSession | internal/core/repository/postgres/session.go:48-91 | The insert succeeds exactly when the id is new, quantities are positive and the user has no active session, and stores the given lines and subtotal as a fresh open row |
| Repository.SessionRepository.UpdateStatus | internal/core/repository/postgres/session.go:125-141 | The status compare-and-set, and nothing else |
| Repository.SessionRepository.SetAddress | internal/core/repository/postgres/session.go:147-170 | The address write invalidates the quote and recomposes the total |
| Repository.SessionRepository.BeginConfirm | internal/core/repository/postgres/session.go:176-193 | ready to confirming with the binding, for an unbound row or the same claim only |
| Repository.SessionRepository.AbortConfirm | internal/core/repository/postgres/session.go:201-220 | confirming to ready, only under this claim and only while it carries no marker or answer |
| Repository.SessionRepository.RequoteItems | internal/core/repository/postgres/session.go:227-265 | The row update and the per-product item updates, all or nothing |
| Store.RepriceDistinct | internal/core/repository/postgres/session.go:252-260 | Updating items by product id is updating them line by line when no product repeats |
| Repository.SessionRepository.CompleteSession | internal/core/repository/postgres/session.go:271-287 | confirming to completed with the order id, keeping the binding |
| Repository.SessionRepository.SetShipping | internal/core/repository/postgres/session.go:292-316 | The shipping write, fenced to the revision it was priced on, recomposes the total |
| Repository.SessionRepository.SetPaymentToken | internal/core/repository/postgres/session.go:321-337 | The token write moves the row to ready |
| Repository.SessionRepository.ExpireTimer | internal/core/repository/postgres/session.go:348-359 | Only a lapsed deadline of a row that is not confirming or terminal expires it |
| Repository.SessionRepository.ExpireParked | internal/core/repository/postgres/session.go:361-383 | A confirming row expires only past its deadline and under a present, unattempted claim with a stale lock |
| Repository.SessionRepository.ReapFinished | internal/core/repository/postgres/session.go:461-481 | Finished claims past their retention are deleted, and no others |
| Repository.SessionRepository.Touch | internal/core/repository/postgres/session.go:488-500 | The deadline bump leaves terminal rows alone |
| Repository.SessionRepository.MarkExpired | internal/core/repository/postgres/session.go:505-524 | Lazy expiry never touches confirming or terminal rows, and has no deadline test |
| Repository.SessionRepository.SetPromo | internal/core/repository/postgres/promo.go:54-71 | The promo write recomposes the total under a status guard |
| Repository.SessionRepository.StripPromo | internal/core/repository/postgres/promo.go:77-99 | The strip, under its binding, drops the row to shipping_set with no code, no discount and the total recomposed |
| Repository.SessionRepository.RedeemPromo | internal/core/repository/postgres/promo.go:105-182 | Insert first, then check, then count, rolling back on refusal: exactly one atomic redemption or nothing; refused as expired exactly when a first use is judged after the deadline, as exhausted only with no redemption left of the code or of the user |
| Repository.SessionRepository.Claim | internal/logic/v1/confirm.go:205-224 | Conflict, locked, replay or (re)taken, as assumed of pkg/idempotency |
| Steps.ReapDrops | internal/core/repository/postgres/session.go:461-481 | A reap deletes a claim if and only if it is answered and older than the retention, and changes no other |
| PromoTx.CommitIsRedeem | internal/core/repository/postgres/promo.go:105-182 | In any interleaving of transactions a commit changes the ledger exactly as one atomic redemption at an instant between the transaction's begin and its commit would; the protocol's redemption step carries that instant |
| PromoTx.ExpiredBeforeBegin | internal/core/repository/postgres/promo.go:156-175 | No statement of a transaction records a use of a code whose deadline lay before the transaction began, whose count has reached its maximum, or of which the user holds the limit |
| PromoTx.RefusalIsRedeem | internal/core/repository/postgres/promo.go:156-175 | A refusal is the atomic redemption's refusal of the ledger as it then stands, at an instant within the transaction, and records nothing |
| PromoTx.LedgerAlwaysOk | db/migrations/sql/000005_promo_codes.up.sql:6-27 | redeemed_count is the number of committed redemptions and neither cap is ever passed |
| PromoTx.UsesArePermanent | internal/core/repository/postgres/promo.go:142-155 | A committed redemption is never lost or reassigned |
| Ledger.RedeemKeepsLedger | internal/core/repository/postgres/promo.go:105-182 | One redemption keeps counts and caps, adds exactly its own use and keeps every other |
| Ledger.RedeemIs | internal/core/repository/postgres/promo.go:105-182 | A first redemption is refused as expired exactly when the deadline lies before the judged instant, as exhausted exactly when the count has reached its maximum or the user holds the limit, and otherwise adds one use and one count; a repeated one changes nothing |
| Ledger.RedeemAgain | internal/core/repository/postgres/promo.go:142-155 | A session that redeemed once succeeds again without a second count, even past expiry or exhaustion |
| Money.FlatTaxExact | internal/logic/v1/service.go:713-718 | The tax is the exact floor, on exactly the bases whose product cannot wrap |
| Money.PriceShippingExact | internal/logic/v1/service.go:653-677 | Pricing succeeds exactly on a non-negative quoted fee, a known rate and an unwrapped base, its sums are exact, and only an unknown method is reported as an invalid quote |
| Money.DiscountClamped | internal/logic/v1/promo.go:21-40 | A code takes off its worth or everything payable, whichever is less, and fails exactly for a percentage of a subtotal that is negative or too large |
| Money.ValidateOrderBounds | internal/logic/v1/confirm.go:603-630 | The loop accepts exactly the baskets of 1 to 200 lines with 32-bit ids, quantities of 1 to 10,000, names of at most 255 runes, prices up to 10^12, a well-formed token and a discount within what is payable |
| Money.BoundedSum | internal/logic/v1/confirm.go:67-75 | Within the bounds no product or partial sum of the item loop can leave int64 |
| Domain.SumConcat | internal/logic/v1/confirm.go:442-471 | A line sums to price times quantity, and sums of carts put end to end add up |
| Money.NumeralIsInt32Id | internal/logic/v1/confirm.go:633-637 | Reading a decimal numeral back gives its number; as an id exactly those of 1 to 2^31 - 1 pass, with or without a plus sign |
| Money.OnlyDigitsCount | internal/logic/v1/confirm.go:633-637 | Only digits read as a number, and zero is no id |
| Money.PaymentTokenIs | internal/core/domain/payment_token.go:9-30 | A token passes exactly if it is tok_ followed by letters, digits and underscores, at most 64 characters and at most 11 digits, wherever they stand |
| Catalog.AggregateBySKU | internal/logic/v1/service.go:336-351 | Distinct SKUs in first-seen order, each with its int64 total over all lines; the units of the result add up, in int64, to the units of the lines |
| Catalog.TotalConcat | internal/logic/v1/service.go:336-351 | A line counts its quantity for its own SKU only, and the totals of two baskets put together add up |
| Catalog.TotalPermuted | internal/logic/v1/service.go:336-351 | The order of the lines changes no total |
| Catalog.FirstSeenOrder | internal/logic/v1/service.go:336-351 | Of two SKUs the one listed first was asked for before the other was |
| Catalog.MergeCatalog | internal/logic/v1/service.go:353-397 | The merge omits unpriced and unsellable rows and carries the last line's quantity of each SKU |
| Catalog.MergedLookup | internal/logic/v1/service.go:353-397 | What byID holds for a product after the merge, in terms of its last price, last line and the shortages |
| Catalog.LastQuantityIs | internal/logic/v1/service.go:353-397 | The quantity the merge uses is that of the last line of the SKU |
| Catalog.LastPriceIs | internal/logic/v1/service.go:353-397 | The price it uses is that of the product's last row that is sellable in dollars, an empty currency being dollars |
| Catalog.ResolveCatalog | internal/logic/v1/service.go:206-299 | The decision after the two reads: unreachable, unknown SKU, or the merge and whether we were answered |
| Catalog.IntersectAsked | internal/logic/v1/service.go:301-319 | The unknown ids that were asked for, in the upstream's order |
| Catalog.PricedAnyRequested | internal/logic/v1/service.go:321-334 | True exactly when a price row names an asked SKU |
| Catalog.RecheckLines | internal/logic/v1/confirm.go:442-471 | The line loop: every line at the price looked up for it, or its old one, their int64 subtotal, and both drift flags exactly |
| Catalog.Revalidate | internal/logic/v1/confirm.go:410-497 | The verdict of re-validation for any answers of the two reads |
| Catalog.DriftLines | internal/logic/v1/confirm.go:442-471 | A drifted basket carries the price quoted now on every line, or the old one if product does not offer it, flags exactly the lines that moved or are not offered or were flagged, and changes nothing else |
| Catalog.DriftShort | internal/logic/v1/confirm.go:442-497 | It is reported short exactly when a line is not offered, not cleared, or asks for more than the last line of its SKU |
| Catalog.DriftSettles | internal/logic/v1/confirm.go:410-497 | Re-validating the requoted lines against the same answers is clean, or exactly the same shortage again: no price moves twice |
| Catalog.UntrackedIffUnknown | internal/logic/v1/confirm.go:419-441 | Unknown availability is reported exactly when both reads answered and inventory does not know a line's SKU |
| Catalog.CleanMeansPromisable | internal/logic/v1/confirm.go:410-497 | With a truthful inventory a clean bounded basket is promisable in total per SKU at unchanged prices |
| Catalog.CleanIffCleared | internal/logic/v1/service.go:353-397 | Clean if and only if inventory cleared every line at the shown price and no line exceeds the last line of its SKU |
| Catalog.DistinctCovers | internal/logic/v1/service.go:353-397 | With distinct SKUs the last-line condition always holds |
| Catalog.RetryIffUnanswered | internal/logic/v1/confirm.go:419-441 | Re-validation asks for a retry if and only if a read failed or the answers were not about this basket |
| Catalog.RepeatedSkuBlocked | internal/logic/v1/service.go:353-397 | A basket with a repeated SKU that inventory cleared and the gate reports short |
| Service.CheckoutService.SetAddress | internal/logic/v1/service.go:563-600 | For any fate of its store calls: the call writes what its snapshot decides, bumps the deadline after an acknowledged write, and answers a session exactly when its statement applied and was acknowledged |
| Service.CheckoutService.SetShipping | internal/logic/v1/service.go:606-648 | The same for the shipping choice, priced on the snapshot and fenced to its revision; without an address or from another status it is refused |
| Service.CheckoutService.SetPayment | internal/logic/v1/service.go:682-707 | The same for the payment token, refused before anything is read when malformed |
| Service.CheckoutService.AttachPromo | internal/logic/v1/promo.go:64-121 | The same for applying a code, behind the advisory checks and with its lookups answered |
| Service.CheckoutService.DetachPromo | internal/logic/v1/promo.go:127-152 | The same for removing the code |
| Service.CheckoutService.CancelSession | internal/logic/v1/service.go:735-768 | Cancel succeeds exactly on its own acknowledged write, a cancelled snapshot, or a re-read that finds the row terminal |
| Service.CheckoutService.LazyExpire | internal/logic/v1/service.go:790-811 | Expired exactly past the deadline of the read, recorded best effort, never for confirming rows |
| Rows.ReadsOwnOnly | internal/logic/v1/service.go:772-788 | A read of an absent or foreign session comes to nothing; of one's own it is the row as it stands |
| Rows.CallsAreOwned | internal/logic/v1/service.go:772-788 | In every run a call that may still write was started by the owner of its session |
| Rows.LapsedCallExpires | internal/logic/v1/service.go:790-811 | A call that found an editable session at or past its deadline expires it if it is still editable, and does nothing else |
| Rows.PutAddressLands | internal/logic/v1/service.go:563-600 | Exactly when PUT address lands; the new address replaces the old one, method, fee and tax go, and the discount is what the snapshot's code is worth on its subtotal |
| Rows.CallsAreEarlier | internal/logic/v1/service.go:606-648 | In every run a pending call's snapshot is an earlier state of its row, and the row itself if the revisions agree |
| Rows.PutShippingLands | internal/logic/v1/service.go:606-677 | PUT shipping lands exactly on the row it read, when it can be priced, with the quoted fee, its tax by the table and the code's discount |
| Rows.PutPaymentLands | internal/logic/v1/service.go:682-707 | Exactly when PUT payment lands; it stores the token and makes the session ready |
| Rows.ApplyPromoLands | internal/logic/v1/promo.go:64-121 | Exactly when applying a code lands, with its worth on the snapshot as the discount |
| Rows.RemovePromoLands | internal/logic/v1/promo.go:127-152 | Exactly when removing the code lands; the discount goes with it |
| Rows.CancelLands | internal/logic/v1/service.go:735-768 | Cancel ends exactly the sessions still being edited |
| Rows.CodeWorth | internal/logic/v1/promo.go:42-58 | A stored code takes off nothing if it is gone, else its worth up to everything payable |
| Rows.CreateLands | internal/core/repository/postgres/session.go:48-91 | A session is created exactly on a new id with positive quantities for a user without a live one, holding the lines, their int64 subtotal and nothing else |
| Rows.TimerExpires | internal/core/repository/postgres/session.go:348-359 | The timer expires exactly an editable row whose deadline has come |
| Rows.ParkedExpires | internal/core/repository/postgres/session.go:361-383 | The parked expiry ends and unbinds exactly a confirming row past its deadline under a claim that is present, unmarked, unanswered and unlocked or stale |
| Rows.TouchBumps | internal/core/repository/postgres/session.go:488-500 | A bump moves the deadline of a row that is not over, and nothing else |
| Rows.QuoteWriters | internal/core/repository/postgres/session.go:147-337 | Over all events, each column of the quote is written only by its own calls and to what they name |
| Rows.BindingWriters | internal/core/repository/postgres/session.go:176-287 | Over all events, order and binding are written only by a confirm or a parked expiry, the deadline only by a bump, the owner never |
| Service.ToldIsStored | internal/logic/v1/service.go:563-707 | If nobody wrote the row in between, the answered session is the stored row, totals included; only a lost deadline bump leaves the old deadline |
| Service.SnapshotCart | internal/logic/v1/service.go:482-511 | One item per cart line at the catalog price, or flagged at the cart price, with the cart's own id, name and quantity, and the int64 subtotal |
| Watch.WatchEndsExactly | internal/workflow/abandon.go:97-159 | For every pattern of signals, retries and rotations the watch ends only on a terminal, absent or attempted-confirming row if and only if the row did not leave confirming between ExpireDue's last two reads |
| Watch.UnwrittenEndsSafely | internal/core/repository/postgres/session.go:385-438 | If nobody wrote the row between the two reads the watch ends safely |
| Race.WatchAbandonsLiveSession | internal/core/repository/postgres/session.go:385-438 | A reachable run in which the watch ends on a live, unbound, ready session |
| Watch.NoFinalizeLost | internal/workflow/abandon.go:200-209 | A finalize once buffered is never dropped, at the reset cap or elsewhere, and a run consumes at most 500 activity signals |
| Watch.WaitsPositive | internal/workflow/abandon.go:211-236 | Every armed wait is strictly positive |
| Watch.SelectorChooses | internal/workflow/abandon.go:161-198 | Finalize before activity before timer, the reset cap at 500, and what each leaves of the buffers and the timer |
| Watch.RotationChooses | internal/workflow/abandon.go:200-209 | At the cap a buffered finalize ends the watch, otherwise it starts over with nothing buffered |
| Watch.LookDecides | internal/core/repository/postgres/session.go:385-417 | A row that is gone or over ends the watch, one still edited re-arms to its deadline or by one second, a confirming one is looked into |
| Watch.JudgeDecides | internal/core/repository/postgres/session.go:426-438 | A bound, unmarked and unanswered claim is waited for by the takeover window; any other ends the watch |
| Watch.FailedReadRetries | internal/core/repository/postgres/session.go:385-438 | A failed read starts the activity over |
| Watch.SignalsBuffer | internal/workflow/abandon.go:161-198 | Every signal is buffered while the watch goes on |
| Lateness.ShoppingRowExpires | internal/workflow/abandon.go:121-159 | Through any moves that leave the row alone, with no more signals and each command at most d late: a row that is not confirming is not expired before expires_at, and the watch does not outlast max(expires_at, armed deadline) + 1 s + 4d or its sixth command without having expired it |
| Lateness.ParkedRowExpires | internal/core/repository/postgres/session.go:361-417 | The same for a parked unattempted confirm: never before it is provably dead; by the first firing if dead by then, else less than one takeover window + 5d after it is; within a bounded number of commands |
| Lateness.TicksAreMoves | internal/workflow/abandon.go:121-159 | The timed watch the lateness bounds speak of is the watch itself with a clock beside it: every timed run is a run of the watch |
| Abandon.Workflow.Run | internal/workflow/abandon.go:97-159 | The workflow loop is a run of the watch machine; it consumes at most 500 activity signals and continues as new only with no finalize buffered |
| Abandon.Workflow.AwaitNext | internal/workflow/abandon.go:161-198 | Buffered finalize wins over activity, activity over the timer |
| Abandon.Workflow.RotateAtCap | internal/workflow/abandon.go:200-209 | At the cap a buffered finalize completes the run, otherwise it starts over |
| Abandon.Workflow.ExpireDue | internal/core/repository/postgres/session.go:343-438 | The four statements in order, each landing when it lands, and the outcome they add up to |
| Abandon.Workflow.ExpireOnce | internal/workflow/abandon.go:219-236 | Unlimited retries end in a re-arm with a positive wait or the end of the watch |
| Abandon.Workflow.Drain | internal/workflow/abandon.go:238-248 | Both channels are emptied and a buffered finalize is reported |
| Lazy.Redialer.Interleave | internal/workflow/lazy.go:62-110 | Under any interleaving no client is closed twice or usable after a Close returned, and once all parties are through every dialled client was closed exactly once |
| Lazy.Redialer.Redial | internal/workflow/lazy.go:62-110 | One action of the loop keeps the ownership invariant; a landed client the select takes is installed, a failed dial is retried |
| Lazy.Redialer.LoopLeaves | internal/workflow/lazy.go:152-168 | Once stop is closed, and whatever its dial does and whichever ready case each select takes, the loop is gone after four of its own actions, plus three more for each time the pacing timer beats the closed stop channel |
| Lazy.Redialer.CloseCall | internal/workflow/lazy.go:152-168 | Close waits for the loop, closes what it installed, and may be called any number of times |
| Lazy.Redialer.Current | internal/workflow/lazy.go:123-130 | A caller gets exactly the installed client, never a closed one, and none at all after a Close returned |
| Keys.ComposedInjective | internal/logic/v1/confirm.go:291-296 | The composed order key determines session and caller key, because session ids hold no colon |
| Keys.ColonCollides | internal/logic/v1/confirm.go:291-296 | Were colons allowed in session ids, two sessions could share one key |

## Left out

- Abandon.Workflow.Run: follows a finite script of signals and actions, at whose end the watch may still be waiting.
- Lateness.ShoppingRowExpires: assumes that each command of the watch succeeds, at most d late; an outage delays expiry by its own length.
- Lateness.ParkedRowExpires: assumes the same.
- BackfillRedemptionOrder: writes a provenance column nobody reads back.
- The session body returned beside a 409 requote or strip answer; the refusal itself is modelled.
- Previews of ApplyPromo inside the protocol machine: there an apply may land whatever the previews say, which only adds runs. `Service.CheckoutService.AttachPromo` has them.
- The moment of the lookups of one call: tax and promo rows are read when the call writes, which is the same because those rows are fixed.
- CreateSession's reuse of an active session and its lost-race re-read; the insert, its unique index and the snapshot loop are modelled.
- A nil shipping quoter (the development stub that prices everything at zero).
- Operators editing tax rules or promo codes while sessions are open.
- Activity attempts that outlive their timeout: their statements are the protocol's own timer events, which interleave freely.
- Workflow cancellation by an operator, which ends a watch by design.
- HTTP and gRPC transport, status mapping, SQLSTATE classification, JSON and UUID encoding, configuration, telemetry, probes and shutdown.
- Goroutine panics and context cancellation in resolveCatalog; its two reads are any pair of answers or failures.
- Temporal SDK internals and the notifier's goroutines; signals arrive any number of times, late, or never.
- Unicode: a product name is carried as its number of runes.
