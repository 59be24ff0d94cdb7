# Kitaza: stock, sync, billing and sessions

Kitaza is an offline-first point of sale. Phones queue sales, deliveries, counts and deletions, push
them when they have signal, and pull what other phones did. This project models the backend logic
that has to stay right through retries, edits, races and late signals, and proves what it keeps.

SQL statements inside the repositories are part of the algorithm, so they are modelled as state
updates. A call that is refused leaves every row alone, because its transaction rolls back.
Quantities are integers in thousandths, money in centavos, time in seconds or microseconds.

## Layout

- `Prelude`, `SetSums`, `StableSort`: shared types, sums over finite sets, and the standard
  library's stable sort with the proof that no other stable sort could differ.
- `Ledger`: products, movements, sales, lines, expenses and withdrawals, and what each service call
  does to them. `LedgerDatabase` is the same as a class over mutable tables, with the loops of the
  source; every method is proved equal to a function of `Ledger`.
- `RowAnswers`, `PushOrder`, `PushAnswers`: what every row of a push does to the tables and is
  answered, over the rows' own fields, and in which order.
- `Books`, `RestoreChoice`, `Replay`, `RepeatedId`, `Convergence`, `Timelines`, `Lifecycle`: what
  runs of these calls keep.
- `RowLocks`, `LockedStatements`, `LockedCommits`, `Interleavings`, `Completion`, `FirstRecordings`:
  the same calls as transactions, one statement at a time under row locks. Every interleaving ends in
  the rows the atomic calls give in commit order, which is what entitles the modules above to treat a
  call as one step, and no call is stuck for any other reason than another. `FirstRecordings`,
  `RacingStatements` and `RacedRuns` are about the one race that has no row to lock.
- `Paging`, `SettleWindow`, `Replica`, `PulledRows`, `PullService`: the pull protocol.
- `Calendar`, `Plans`, `SwitchingBack`, `Billing`, `BillingDatabase`: subscriptions, payments, account
  deletion; `PurgeRace` is a purge taken as the two statements it is.
- `Sessions`, `SessionEffects`, `SessionDatabase`, `SessionCache`, `SessionAnswers`: refresh tokens,
  join codes, the session directory; `StrandedRefresh` is housekeeping that runs in the middle of a
  refresh, `JoinCodes` the issuing of a code as two statements, `Revocation` a device signed out while
  lookups are under way.
- `Outliers`, `UnusualExpenses`, `SaleTotals`: two kernels with real bounds.

## Hypotheses, by name

- `Books.SafeLines`: no product stands on two lines of a sale, unless those lines are for nothing.
  `restore_stock_for` changes a product row once however many lines join to it.
  `RestoreChoice.VoidBalancesIffSafe` shows that this is exactly the condition.
- `Books.PlainNote`: a client's note on a movement is never the text a sale writes.
  `RestoreChoice.NoteClashIff` shows what happens otherwise.
- `Replay.SaneBatch`: both of these for a whole batch, and versions of one sale in a batch that have
  the same lines. That is sufficient; `RepeatedId.RepeatedIdIsNotRepeatable` is a family of batches
  without it that do not replay.
- `Interleavings.Unraced`: a sale that is not stored yet is not written by two transactions at once;
  there is no row to lock. `RacedRuns.BalancedIffNeverHarms` does without it, and says exactly which
  runs keep the books balanced. `Interleavings.CountIsExact` needs none of this, only `RowsHeld`.
- `LockedStatements.Sensible`: the lines of a sale were resolved before its transaction began.
- `SettleWindow.Punctual`: every transaction commits within a given time of its start.
  `SettleWindow.LosslessIffWithinWindow` shows that the settle window is exactly that time.
- `readers` in `Paging`, `SettleWindow` and `Replica`: the kinds of reader a phone has been. A row is
  held as one of them is shown it; for a single kind that is one exact version.
- `Replica` needs a page size of at least one to finish; the setting is not validated, and
  `Replica.EmptyPagesNeverEnd` is what zero does.
- `PurgeRace.RequestsAhead`: a deletion asked for between the two statements of a purge is not due
  yet. `PurgeRace.DeleteLosesIffMissed` says what is lost without it, `PurgeRace.TwiceIffSpared` what
  is counted twice.
- `Billing.MintsFresh`, `PurgeRace.FreshBetween` and the `used` set of `Sessions`: ids minted at random
  are never reused.
- `SessionCache.Prompt`: an insert comes at most a given time after its query.

## Where the code falls short of its comments

- `sale_repository.rs` says a restore gives back what the lines took out: only with `SafeLines`.
- `session_directory.rs` says that revoking through an instance is immediate there. It is exactly when
  no lookup of that session has found it alive and not stored its answer yet: such a lookup puts the
  answer back after `forget_all`, and later requests are let in with it:
  `Revocation.RevokingIsImmediateIff`. `SessionCache.ForgettingLastsIff` is the like for all sessions.
- `staff_repository.rs` says that only the most recently shared code works. Two `replace_invite` calls
  for one member can overlap: each DELETE misses the other's INSERT, and both codes let a phone in. A
  run has one open code a member throughout exactly when no INSERT follows another for that member
  that was published since its own DELETE and is not used yet: `JoinCodes.OneCodeIffNotOvertaken`,
  with `JoinCodes.TwoPhonesJoin` a run that gets there.
- `sale_repository.rs` says a re-sent sale must not deduct stock twice. When two first recordings of
  one sale race, the second commit finds no row to lock and takes it again. The sale is left wrong
  exactly when the version it replaces took anything, or, if that one is voided, when the new one does,
  or when its lines are another store's: `FirstRecordings.RacedCommitIsSoundIff`. Over whole runs,
  the books stay balanced exactly when no such commit occurs: `RacedRuns.BalancedIffNeverHarms`.
- `plan.rs` says nothing already bought is lost. True exactly when every payment that changes the plan
  finds a time left that is whole seconds and comes to whole seconds of the other plan; otherwise less
  than 29,800 centavo-seconds a switch goes, and nothing is ever gained: `Plans.ConversionLoss`,
  `Plans.ValueIsConserved`.
- `retention.rs` copies payments out before deleting accounts, in two statements. A payment that is
  paid between them is recorded nowhere exactly when its account is still due at the second:
  `PurgeRace.PurgeKeepsMoneyIff`, with `PurgeRace.ConfirmBetweenIsLost` a run that gets there. A
  deletion cancelled between them leaves a payment in both tables: `PurgeRace.PurgeKeepsApartIff`.
- `auth_repository.rs` says that what `purge_dead_sessions` deletes can never be used again. True of
  every lookup (`Sessions.PurgeIsInvisible`), but a refresh already let through stores its new token
  exactly when no delete has taken its session since its lookup: `StrandedRefresh.StoresIffNotTaken`.
  `StrandedRefresh.SessionOutlivesPurgeIff` says which sessions a purge leaves.

## Model

| member | source | states |
|---|---|---|
| Books.RunKeepsBooks | backend/src/features/sales/sale_repository.rs:68-194 | over every run of saves, movements, sales, edits, replays and voids, stock is opening plus live movements, a live sale's lines are exactly its live movements, a voided sale has none |
| Books.ReachableKeepsBooks | backend/src/features/sales/sale_repository.rs:68-194 | so every state reached from empty tables satisfies the law |
| Books.SaleKeepsBooks | backend/src/features/sales/sale_repository.rs:100-187 | reversing and writing again keeps that law, the manual rows and the openings |
| Books.SaleItems | backend/src/features/sales/sale_repository.rs:135-156 | an accepted sale stores exactly the lines it was sent, keeps its first recorder, and touches no other sale |
| Books.VoidKeepsBooks | backend/src/features/sales/sale_repository.rs:255-279 | a void keeps the law |
| Books.EntryKeepsBooks | backend/src/features/inventory/stock_repository.rs:63-130 | a movement keeps the law |
| Books.ApplyKeepsReversible | backend/src/features/sales/sale_repository.rs:296-314 | every stored sale can be reversed exactly as long as the sales sent can |
| Books.StockFromFacts | backend/src/features/sales/sale_repository.rs:162-187 | stock is opening plus manual deltas minus the lines of live sales |
| RestoreChoice.VoidBalancesIffSafe | backend/src/features/sales/sale_repository.rs:296-314 | a void balances for every line the restoring UPDATE may use, if and only if no product stands on two lines with anything to give back |
| RestoreChoice.SafePickIrrelevant | backend/src/features/sales/sale_repository.rs:302-307 | with safe lines the database's choice of line does not matter |
| RestoreChoice.NoteClashIff | backend/src/features/sales/sale_repository.rs:316-331 | a manual movement and a void stay in step, if and only if its note is not the sale's tag or it moved nothing |
| Replay.PushTwice | backend/src/features/sync/sync_service.rs:62-130 | pushing a batch again, at any later time and however much of it was refused, leaves stock, live lines and manual movements as the first push left them, even if it repeats a sale with the same lines |
| RepeatedId.RepeatedIdIsNotRepeatable | backend/src/features/sync/sync_service.rs:80-123 | from any state, a batch that sends one sale id with two different products and then deletes the second ends differently when pushed again |
| Replay.FactsFixStock | backend/src/features/sales/sale_repository.rs:100-105 | states with the same openings, manual movements, sales and lines have the same stock |
| Convergence.StockAfterRun | backend/src/features/inventory/stock_repository.rs:88-109 | a product's stock after any run of fixed-content sales and changes, as a sum over the ids that are new |
| Convergence.RunsConverge | backend/src/features/sync/sync_service.rs:80-97 | two runs that mention the same ids end with the same stock, whatever their order and repeats |
| Convergence.PushesConverge | backend/src/features/sync/sync_service.rs:62-130 | and so do any two ways of splitting them into pushes, from any devices |
| Timelines.TimelineIsStable | backend/src/features/sync/push_timeline.rs:26-40 | the timeline is a permutation of the queue, sorted by time, sales before movements and queue order kept on ties |
| Timelines.TimelineIsTheOnlyOne | backend/src/features/sync/push_timeline.rs:13-40 | and the only one |
| Timelines.StockWithoutCount | backend/src/features/inventory/stock_repository.rs:83-86 | applied to fresh rows with no count, starting stock plus every change |
| Timelines.StockFromLastCount | backend/src/features/inventory/stock_repository.rs:83-86 | with counts, the last counted total plus the changes behind it |
| Timelines.LatestCountDecides | backend/src/features/sync/push_timeline.rs:21-40 | in a push the count that happened last decides, with exactly the rows that happened after it behind it |
| Lifecycle.CreatedOnce | backend/src/features/sales/sale_repository.rs:71-105 | in any run a sale id is created at most once |
| Lifecycle.SaleIsForever | backend/src/features/sales/sale_repository.rs:79-133 | its store and recorder never change, and once voided it stays voided with its lines |
| Lifecycle.PushLeavesOthers | backend/src/features/sync/sync_service.rs:99-123 | a push by staff who may not delete leaves every sale and expense someone else recorded, and every withdrawal, as they were |
| RowAnswers.RowIsAnswered | backend/src/features/sync/sync_service.rs:62-130 | every row of a push, whatever its kind, is answered and leaves the tables as the six predicates below say, over the rows' own fields |
| RowAnswers.RecordIsAnswered | backend/src/features/sales/sale_repository.rs:71-187 | a resolved sale is stored with exactly its lines, if and only if it is new, or live in the same store and the caller's own or the owner's; each product's stock then moves by the old lines less the new ones; otherwise nothing changes, and the answer is a conflict, nothing to do, or forbidden |
| RowAnswers.SaleIsAnswered | backend/src/features/sales/sale_service.rs:46-103 | before that, the payment method and then the first line that names no live product, or no price, decides the error |
| RowAnswers.MovementIsAnswered | backend/src/features/inventory/inventory_service.rs:43-100 | stock moves by kind, a count may be of nothing and any other movement may not, a delivery's visible cost becomes the product's, an id that is there is not entered again |
| RowAnswers.ProductIsAnswered | backend/src/features/products/product_service.rs:50-98 | who may save, what cost is stored, what is refused for selling below it, and that stock is only ever given on insert |
| RowAnswers.ExpenseIsAnswered | backend/src/features/expenses/expense_repository.rs:31-69 | who may write, who is noted, and that a re-sent expense is live again |
| RowAnswers.WithdrawalIsAnswered | backend/src/features/withdrawals/withdrawal_service.rs:41-65 | the owner alone, within the store |
| RowAnswers.DeletionIsAnswered | backend/src/features/sync/sync_service.rs:204-224 | what each permission may delete, that a row which is there goes and nothing else does, and that a voided sale's lines return to stock |
| PushOrder.PushInPhases | backend/src/features/sync/sync_service.rs:70-123 | a push tries every row once: products, then sales and movements by the time they happened, then expenses, withdrawals and deletions as sent |
| PushOrder.DeletedInTheEnd | backend/src/features/sync/sync_service.rs:115-123 | a row that a push also deletes is gone in the end, whatever else the push does with it |
| PushAnswers.OutcomeAnswers | backend/src/features/sync/sync_service.rs:235-265 | a row that was refused stands among the rejected, with its kind, id and error, any other among the applied, each list in the order tried and nothing else in them |
| PushAnswers.OnlyOneAnswer | backend/src/features/sync/sync_service.rs:235-265 | and no other answer says so |
| LedgerDatabase.Database.RestoreStockFor | backend/src/features/sales/sale_repository.rs:297-314 | each joined product gets back its first line's quantity, once |
| LedgerDatabase.Database.RetireMovementsFor | backend/src/features/sales/sale_repository.rs:316-331 | rows of the store with the sale's note stop counting |
| LedgerDatabase.Database.RecordSale | backend/src/features/sales/sale_repository.rs:68-194 | the loop over the lines leaves the rows of `Ledger.AfterSale`, with its verdict, and is answered as `RowAnswers.RecordAnswered` says |
| LedgerDatabase.Database.VoidSale | backend/src/features/sales/sale_repository.rs:255-279 | likewise for a void |
| LedgerDatabase.Database.RecordMovement | backend/src/features/inventory/stock_repository.rs:63-130 | likewise for one ledger row, idempotent on its id |
| LedgerDatabase.Database.RecordMovementRequest | backend/src/features/inventory/inventory_service.rs:43-100 | the kind of movement decides its effect, and costs are hidden news from some staff |
| LedgerDatabase.Database.RecordSaleRequest | backend/src/features/sales/sale_service.rs:46-103 | every line is resolved before anything is written |
| LedgerDatabase.Database.SaveProduct | backend/src/features/products/product_service.rs:50-98 | stock is set on insert only, and a hidden cost is kept |
| LedgerDatabase.Database.RecordExpense | backend/src/features/expenses/expense_repository.rs:31-69 | only the owner or the first recorder overwrites, and a re-sent expense is revived |
| LedgerDatabase.Database.RecordWithdrawal | backend/src/features/withdrawals/withdrawal_service.rs:41-65 | only the owner records withdrawals |
| LedgerDatabase.Database.Delete | backend/src/features/sync/sync_service.rs:204-224 | removing what is already gone is a success |
| LedgerDatabase.Database.RecordAll | backend/src/features/sync/sync_service.rs:235-265 | one phase of a push: the rows in turn, each answered as applied or rejected |
| LedgerDatabase.Database.PushBatch | backend/src/features/sync/sync_service.rs:62-130 | the four phases leave the rows of the run of all rows, and the answer says of each whether it was applied or why not |
| LedgerDatabase.IntoTimeline | backend/src/features/sync/push_timeline.rs:26-40 | the built and sorted vector is the timeline |
| Interleavings.InterleavingsAreAtomic | backend/src/features/inventory/stock_repository.rs:54-125 | however transactions interleave under row locks, the committed rows are those of the atomic calls in the order they ended, and the ledger law holds in each |
| Completion.CallCompletes | backend/src/features/sales/sale_repository.rs:68-194 | and from balanced books some series of statements carries any sensible call through to its atomic outcome |
| Interleavings.CountIsExact | backend/src/features/inventory/stock_repository.rs:69-125 | whatever runs beside it, races included, a counted adjustment leaves exactly the counted total when it commits |
| Interleavings.CountKeepsLedger | backend/src/features/inventory/stock_repository.rs:69-125 | without such races its stock agrees with its ledger then |
| Interleavings.StepRefines | backend/src/features/sales/sale_repository.rs:68-194 | each single statement keeps what every open transaction relies on |
| LockedCommits.RecordCommits | backend/src/features/sales/sale_repository.rs:135-189 | a sale's own row versions and new rows, published at commit, are the atomic sale |
| LockedCommits.UndoCommits | backend/src/features/sales/sale_repository.rs:255-279 | likewise for a void |
| LockedCommits.EntryCommits | backend/src/features/inventory/stock_repository.rs:83-125 | likewise for a movement |
| FirstRecordings.RacedCommitIsSoundIff | backend/src/features/sales/sale_repository.rs:97-105 | a first recording that commits over another one leaves lines and movements in step, if and only if the version it replaces took nothing (or, that one voided, the new one takes nothing) and its lines are of the sale's store |
| FirstRecordings.RacedCommitTakesAgain | backend/src/features/sales/sale_repository.rs:135-187 | such a commit takes its lines from stock on top of what the other took |
| FirstRecordings.FirstRecordingsRace | backend/src/features/sales/sale_repository.rs:71-77 | two first recordings of one sale at once reach such a commit, and its stock is taken twice |
| RacedRuns.BalancedIffNeverHarms | backend/src/features/sales/sale_repository.rs:68-194 | in every interleaving, races included, the books stay balanced throughout, if and only if no transaction that found no row commits over a version stored since whose effects stay |
| RacedRuns.MeetingDecides | backend/src/features/sales/sale_repository.rs:71-105 | a transaction whose search found nothing and whose INSERT meets a stored row commits as a raced one, and whether that does harm is decided by the version it met |
| Paging.OrderedPrefix | backend/src/features/sync/sync_repository.rs:83-116 | a page is the first rows in `(updated_at, id)` order, as many as the limit allows |
| Paging.RestComesLater | backend/src/features/sync/sync_repository.rs:35-63 | what a page leaves out comes after all it holds |
| Paging.PageMoves | backend/src/features/sync/sync_service.rs:153-164 | a page's rows are held and passed; no other row of the table is passed by it |
| Paging.PageKeepsLossless | backend/src/features/sync/sync_repository.rs:35-63 | a page never moves a mark past a row the device does not hold as its reader is shown it |
| SettleWindow.LosslessIffWithinWindow | backend/src/config/sync_settings.rs:7-11 | for phones whose readers are of any given kinds, no run loses a row or leaves an old version, if and only if transactions commit within the settle window of their start |
| SettleWindow.RunKeepsSafe | backend/src/features/sync/sync_repository.rs:83-116 | in every such interleaving of transactions, page queries, lost answers and restarts, each row at or below a mark is held in its current version, as a reader of one of the phone's kinds is shown it |
| SettleWindow.CopyIsExact | backend/src/features/sync/sync_service.rs:132-188 | in every such run a phone whose permission does not change holds each row it has passed exactly: with its cost if the reader sees costs, blanked if not |
| SettleWindow.SlowCommitLoses | backend/src/config/sync_settings.rs:7-11 | one later commit is enough to lose a row |
| SettleWindow.LostForGood | backend/src/features/sync/sync_cursor.rs:53-63 | a row that was missed, be it new or a later version of one the phone has, is brought back by no later pull until it is written again or the device starts over |
| SettleWindow.CopyHidesCosts | backend/src/features/sync/sync_service.rs:132-188 | in every run the copy of a phone without profit access holds no withheld row and no cost |
| Replica.PullingEnds | backend/src/config/sync_settings.rs:13-15 | pulling a store nobody writes to ends, after at most one pull per page of what was left |
| Replica.EmptyPagesNeverEnd | backend/src/config/sync_settings.rs:22 | with a page size of zero it never does |
| Replica.DeliveredIffSettled | backend/src/features/sync/sync_service.rs:147-165 | once a pull reports no more, what was delivered is exactly what was settled and not yet passed |
| Replica.LogAscends | backend/src/features/sync/sync_repository.rs:35-37 | each table's rows arrive in strictly increasing order across page ends and ties, so none twice |
| PulledRows.FreshPhoneHolds | backend/src/features/sync/sync_service.rs:136-200 | once pulling has ended a phone that started over holds exactly the settled rows: of all five tables as stored, or, without profit access, of products, sales and movements with every cost at zero |
| PulledRows.PhoneHolds | backend/src/features/sync/sync_service.rs:136-200 | and so does a phone that went on from marks whose rows it holds; what it is not sent stays as it was |
| Replica.DeviceCatchesUp | backend/src/features/sync/sync_service.rs:136-200 | a device whose marks are sound then holds every settled row as its readers are shown it, and is otherwise unchanged |
| Replica.FreshDeviceAgrees | backend/src/features/sync/sync_cursor.rs:69-76 | a device that starts over ends with exactly the settled rows |
| Replica.WithheldStaysPut | backend/src/features/sync/sync_service.rs:132-151 | staff without profit access get nothing of the withheld tables, and those marks do not move |
| PullService.PullShowsRows | backend/src/features/sync/sync_service.rs:147-185 | every row of an answer is one of the store, in the page of its table, and as that reader may see it |
| PullService.SyncService.Pull | backend/src/features/sync/sync_service.rs:136-200 | the loop over the tables, with the cursor, `has_more` and the blanked costs, is one specified pull, and shows the store's rows as the reader may see them |
| PullService.SyncService.TakePage | backend/src/features/sync/sync_service.rs:147-165 | one turn of that loop |
| PullService.SyncService.ZeroCosts | backend/src/features/sync/sync_service.rs:227-233 | every row of the page has its cost zeroed and nothing else |
| PullService.ApplyIsPulled | backend/src/features/sync/sync_cursor.rs:69-72 | a device that upserts the answer is where the specification of a pull puts it |
| Calendar.YearStart | backend/src/features/billing/plan.rs:234-236 | counting days month by month agrees with the closed Gregorian form |
| Calendar.MonthLengths | backend/src/features/billing/plan.rs:234-236 | January to December by their lengths |
| Calendar.AddMonthsLands | backend/src/features/billing/plan.rs:234-236 | adding months keeps the time of day and the day of the month, or its last day |
| Calendar.AddMonthsSpan | backend/src/features/billing/plan.rs:234-236 | and moves on by 28 to 31 days a month |
| Plans.PaidThroughLands | backend/src/features/billing/plan.rs:204-237 | the paid period ends the calendar months bought behind the trial and the time already paid for: at the same time of day, on the same day of the month or its last, or thirty days a month where the calendar ends |
| Plans.ComputePaidThrough | backend/src/features/billing/plan.rs:204-237 | the step-by-step computation is the specified one and ends so many calendar months behind its start |
| Plans.ValueIsConserved | backend/src/features/billing/plan.rs:197-237 | over any run of payments, the calendar time bought at the plan's price is value used, value left and value lost; the loss is under 29,800 centavo-seconds a switch, never negative, and zero if and only if every payment finds time that converts without rounding |
| Plans.ConversionLoss | backend/src/features/billing/plan.rs:221-229 | a conversion never gains, loses less than 29,800 centavo-seconds, and loses nothing if and only if the time is whole seconds that come to whole seconds of the other plan |
| SwitchingBack.ProBasicPro | backend/src/features/billing/plan.rs:221-229 | Pro to Basic and back loses at most one whole second and gains none |
| SwitchingBack.BasicProBasic | backend/src/features/billing/plan.rs:221-229 | Basic to Pro and back at most two |
| SwitchingBack.SwitchingBackIsFreeIff | backend/src/features/billing/plan.rs:221-229 | switching and switching back restores the time left, if and only if the first conversion rounds nothing away |
| SwitchingBack.SwitchingBackCosts | backend/src/features/billing/plan.rs:221-229 | that is, for whole multiples of 99 s of Pro or of 199 s of Basic; both bounds are reached |
| Plans.YearForTenMonths | backend/src/features/billing/plan.rs:16-36 | what a month costs, and that a year costs ten |
| Plans.WhichPlan | backend/src/features/billing/plan.rs:107-165 | Pro while the trial runs, then the plan paid for to the end of its grace, Pro for a trial that lapsed unpaid, else none |
| Plans.PaymentOutlastsTrial | backend/src/features/billing/plan.rs:213-236 | after any payment the paid period ends after the trial and after now |
| Plans.OpenIffPaidReachesTrial | backend/src/features/billing/plan.rs:136-157 | uploads stay open to the grace period's end after whichever ran out last, if and only if payment is not before the trial's end |
| Plans.StandingNeverReturns | backend/src/features/billing/plan.rs:107-158 | trial, active, grace, paused, in that order and never back |
| Plans.NoGap | backend/src/features/billing/plan.rs:121-158 | the end a standing announces is where the next begins |
| Plans.PaymentOpensUploads | backend/src/features/billing/plan.rs:107-171 | right after a payment the account is on trial or active, and uploads stay open until exactly the end of its grace |
| Plans.TrialRunsItsCourse | backend/src/features/billing/plan.rs:123-129 | paying during a trial changes neither its plan nor its end, and the paid time comes after it |
| Billing.RunKeepsSound | backend/src/features/billing/billing_repository.rs:103-171 | references stay unique and every reachable subscription is paid past its trial |
| Billing.MoneyIsWhatWasPaid | backend/src/features/privacy/retention.rs:81-111 | after any run a payment counts, in `payments` or in `accounting_records`, if and only if some event paid it |
| Billing.PaidForGood | backend/src/features/billing/billing_repository.rs:116-130 | once paid it stays paid, at the same amount, through purges |
| Billing.PaidOnce | backend/src/features/billing/billing_repository.rs:106-130 | no later event pays it again |
| Billing.SubscriptionIsPaidUp | backend/src/features/billing/billing_repository.rs:132-153 | in every run a subscription is its trial carried through the first confirmations of its payments, in order |
| Billing.RepeatsChangeNothing | backend/src/features/billing/billing_repository.rs:106-130 | any sequence of confirmations, with duplicates and unknown references, equals the one with each reference's first only |
| Billing.PurgeTwice | backend/src/features/privacy/retention.rs:46-111 | purging twice at one moment is purging once |
| PurgeRace.PurgeKeepsMoneyIff | backend/src/features/privacy/retention.rs:86-111 | whatever runs between the copy and the delete, all money is kept, if and only if nothing there pays a payment whose account is still due at the delete |
| PurgeRace.DeleteLosesIffMissed | backend/src/features/privacy/retention.rs:89-107 | payment by payment, and with requests of any age: lost exactly when the account is due at the delete and the payment was paid after the copy, or paid before it by an account not due then |
| PurgeRace.PurgeKeepsApartIff | backend/src/features/privacy/retention.rs:86-107 | a purge leaves no payment in both tables, if and only if nobody cancelled, between its statements, the deletion of an account with a copied payment that is still there |
| PurgeRace.TwiceIffSpared | backend/src/features/privacy/retention.rs:89-107 | payment by payment, and with requests of any age: in both tables exactly when it was copied and its account is not due at the delete |
| PurgeRace.ConfirmBetweenIsLost | backend/src/features/privacy/retention.rs:86-111 | a run from empty tables in which a confirmation between the two statements is lost |
| Billing.DatesAreFirstRequest | backend/src/features/privacy/consent_repository.rs:90-125 | an account's dates are its first request since the last cancellation and the full grace after it |
| Billing.DeletedIffAged | backend/src/features/privacy/retention.rs:103-107 | an account goes, if and only if a sweep finds that request aged by the full grace |
| BillingDatabase.Database.OpenPayment | backend/src/features/billing/billing_repository.rs:68-91 | a pending payment at the plan's price, refused for a known id or an unknown owner |
| BillingDatabase.Database.SetReference | backend/src/features/billing/billing_repository.rs:93-101 | the reference is stored unless another payment has it |
| BillingDatabase.Database.ConfirmPayment | backend/src/features/billing/billing_repository.rs:109-171 | a pending payment and its owner's subscription change together, or nothing does |
| BillingDatabase.Database.RequestDeletion | backend/src/features/privacy/consent_repository.rs:90-113 | asking twice does not move the date |
| BillingDatabase.Database.CancelDeletion | backend/src/features/privacy/consent_repository.rs:115-125 | both dates are cleared |
| BillingDatabase.Database.PurgeAccounts | backend/src/features/privacy/retention.rs:86-111 | paid amounts are copied, then owners that are due go with their rows |
| BillingDatabase.Database.Sweep | backend/src/features/privacy/retention.rs:48-79 | every table is pruned to its date and the counts are what went |
| BillingDatabase.PrunedByDate | backend/src/features/privacy/retention.rs:48-79 | each kind of record is kept for its own time, and a session that is not revoked for good |
| BillingDatabase.PurgedByDate | backend/src/features/privacy/retention.rs:86-111 | exactly the accounts whose date has come go, with exactly their payments and subscriptions |
| BillingDatabase.RecordedByPurge | backend/src/features/privacy/retention.rs:89-101 | their paid payments are on record with plan, months, amount, reference and time, and no earlier record changes |
| BillingDatabase.PruneTwice | backend/src/features/privacy/retention.rs:46-79 | pruning again, at the same or a later moment, is pruning at the later one |
| SessionEffects.AcceptedIff | backend/src/features/authentication/auth_service.rs:189-211 | a refresh is let through exactly for a token that is stored, not revoked, not expired, not long exchanged, and of a live session and member |
| SessionEffects.SigningInMakesOne | backend/src/features/authentication/auth_repository.rs:139-187 | a sign-in makes one session from now on, and its token is of the session's owner |
| SessionEffects.RevokingEndsOne | backend/src/features/devices/device_repository.rs:66-99 | revoking ends the owner's one live session with its tokens, and no other |
| SessionEffects.SigningOutEndsOne | backend/src/features/authentication/auth_repository.rs:222-239 | signing out ends the token's session and no other |
| SessionEffects.RemovingEndsTheirs | backend/src/features/staff/staff_repository.rs:149-191 | removing a member ends exactly their sessions and takes exactly their unused codes |
| SessionEffects.PurgingTakesSpent | backend/src/features/authentication/auth_repository.rs:241-265 | housekeeping takes exactly the owner's tokens that expired, or were revoked or exchanged a week ago, and their day-old sessions without any |
| SessionEffects.RedeemedIff | backend/src/features/staff/staff_repository.rs:236-274 | a code is redeemed exactly while it is unused, unexpired and of a member who is there, and is then used |
| Sessions.DeadStaysShut | backend/src/features/authentication/auth_service.rs:189-223 | once a session is revoked or its staff member removed, no refresh whose lookup comes later is let through, even with tokens stored by one in flight |
| Sessions.EndingIsDeath | backend/src/features/devices/device_repository.rs:66-99 | revoking, signing out with any token and removing staff all end a session |
| Sessions.ExchangedTokenExpires | backend/src/features/authentication/auth_service.rs:197-211 | an exchanged token is let through only until 24 hours after its first exchange, however often it is retried |
| Sessions.PurgeIsInvisible | backend/src/features/authentication/auth_repository.rs:241-265 | housekeeping changes no token's fate, now or later |
| StrandedRefresh.SessionOutlivesPurgeIff | backend/src/features/authentication/auth_repository.rs:254-262 | a session outlives housekeeping, if and only if it is another owner's, not a day old, or has a token that is not spent |
| StrandedRefresh.StoresIffNotTaken | backend/src/features/authentication/auth_service.rs:189-223 | in every run, a refresh that was let through stores its new token, if and only if no delete took its session between its lookup and its store |
| StrandedRefresh.PurgeCanStrandARefresh | backend/src/features/authentication/auth_repository.rs:241-265 | a run in which a refresh let through before its token expired finds its session gone |
| JoinCodes.OneCodeIffNotOvertaken | backend/src/features/staff/staff_repository.rs:193-219 | a run leaves every staff member at most one unused code throughout, if and only if none of its INSERTs follows another for that member, published since its own DELETE and not used yet |
| JoinCodes.PublishingKeepsOneIff | backend/src/features/staff/staff_repository.rs:202-216 | one publication keeps that, if and only if its DELETE found every unused code there is at the commit |
| JoinCodes.TwoPhonesJoin | backend/src/features/staff/staff_repository.rs:195-219 | a run from empty tables in which two overlapping calls leave two working codes, and both are redeemed |
| JoinCodes.WhichCodesWork | backend/src/features/staff/staff_repository.rs:193-219 | in every run, a new code works until it expires, and beside it exactly the member's codes that worked and were published since its call's DELETE |
| JoinCodes.RedeemedOnce | backend/src/features/staff/staff_repository.rs:236-274 | a code lets one phone in |
| SessionDatabase.Database.FindRefreshToken | backend/src/features/authentication/auth_repository.rs:189-208 | the token with whether its session and staff member are live |
| SessionDatabase.Database.MarkRotated | backend/src/features/authentication/auth_repository.rs:210-220 | only the first exchange is noted |
| SessionDatabase.Database.StoreRefreshToken | backend/src/features/authentication/auth_repository.rs:168-187 | a live token for a session that has a row |
| SessionDatabase.Database.EndSessionForToken | backend/src/features/authentication/auth_repository.rs:222-239 | the whole session ends, with every token of it |
| SessionDatabase.Database.PurgeDeadSessions | backend/src/features/authentication/auth_repository.rs:241-265 | spent tokens go, then day-old sessions left without any |
| SessionDatabase.Database.RevokeDevice | backend/src/features/devices/device_repository.rs:66-99 | one session and its tokens are revoked, if it is the owner's and live |
| SessionDatabase.Database.RemoveStaff | backend/src/features/staff/staff_repository.rs:149-191 | the member, their sessions, tokens and unused codes, in one transaction |
| SessionDatabase.Database.ReplaceInvite | backend/src/features/staff/staff_repository.rs:193-219 | unused codes of theirs go and the new one comes |
| SessionDatabase.Database.RedeemCode | backend/src/features/staff/staff_repository.rs:236-274 | a live code of a present member is used up |
| SessionDatabase.Database.Refresh | backend/src/features/authentication/auth_service.rs:189-223 | the whole exchange, when nothing comes between its steps |
| SessionDatabase.RefreshHandsOver | backend/src/features/authentication/auth_service.rs:28-35 | the new token works for its lifetime, the old until its grace ends, and no other is affected |
| SessionAnswers.AnswersAreRight | backend/src/features/access/session_directory.rs:67-150 | in every run an answer is an actor exactly if the session was live when its query saw it, and of the owner or a live member with a store; and then that owner or member with that grant |
| SessionAnswers.RemovedIsShutOut | backend/src/features/access/session_directory.rs:101-150 | after a removal and `forget_all`, with no live answer in flight, no later request is let in while the row stays so |
| SessionCache.StalenessBound | backend/src/features/access/session_directory.rs:16-19 | an answer is never as stale as 20 s plus the slowest lookup, and that bound is exact |
| SessionCache.NeverTooMany | backend/src/features/access/session_directory.rs:21-23 | at most 10,000 answers are held in any run |
| Revocation.RevokingIsImmediateIff | backend/src/features/access/session_directory.rs:16-19 | once the database has ended a session and the directory forgotten all, no later request is let in with it as long as it stays ended, if and only if no lookup of it had found it alive and not stored its answer |
| SessionCache.ForgettingLastsIff | backend/src/features/access/session_directory.rs:101-108 | after `forget_all` every later request sees the database as of then or later, if and only if no lookup had already queried |
| SessionCache.RunKeepsInHand | backend/src/features/access/session_directory.rs:67-99 | the shape of reachable states that this needs |
| SessionCache.SessionDirectory.Resolve | backend/src/features/access/session_directory.rs:67-99 | a trusted answer is repeated; otherwise the row decides, field by field, and is remembered beside the answers already there |
| SessionCache.SessionDirectory.Remembered | backend/src/features/access/session_directory.rs:110-114 | an answer is repeated only inside the trust window |
| SessionCache.SessionDirectory.ForgetAll | backend/src/features/access/session_directory.rs:101-108 | nothing is remembered |
| UnusualExpenses.ReportedAreUnusual | backend/src/features/reports/insight_engine.rs:19-69 | every expense reported is at least two and a half times the average of a category with four or more, and is shown with that multiple to the nearest tenth |
| UnusualExpenses.UnusualAreReported | backend/src/features/reports/insight_engine.rs:19-69 | and every such expense is reported, unless five are that are at least as far out |
| Outliers.DetectUnusualExpenses | backend/src/features/reports/insight_engine.rs:19-69 | the loops, the sort and the truncation compute the specified list |
| Outliers.FlaggedIffFarOut | backend/src/features/reports/insight_engine.rs:40-44 | exactly the entries at least two and a half times the average are flagged |
| Outliers.FlagShowsMultiple | backend/src/features/reports/insight_engine.rs:46-49 | a flag shows its multiple to the nearest tenth, and at least 2.5 |
| Outliers.FlaggedAreFew | backend/src/features/reports/insight_engine.rs:40-44 | at most two entries in five of a category are flagged |
| Outliers.AtMostTwoInFive | backend/src/features/reports/insight_engine.rs:30-59 | and of all entries together |
| Outliers.FarthestAreKept | backend/src/features/reports/insight_engine.rs:61-68 | at most five, greatest multiple first, nothing lost or made up, and nothing dropped beats anything kept |
| Outliers.OrderMovesOnlyTies | backend/src/features/reports/insight_engine.rs:20-30 | the multiples shown do not depend on the map's iteration order |
| SaleTotals.PriceIsRight | backend/src/features/sales/sale_service.rs:52-83 | every line has the request's quantity, its own price or the catalogue's, its own cost if it may be seen or the catalogue's, and is rounded to the nearest; totals are the sums; or else the first line that cannot be priced decides the error |
| SaleTotals.Price | backend/src/features/sales/sale_service.rs:46-91 | the loop over the lines computes the specified totals, or the first line's error |
| SaleTotals.TotalsAddUp | backend/src/features/sales/sale_service.rs:64-83 | total and discount make up the lines, the total is not negative, no more is taken off than asked, and rounding is off by at most half a centavo a line |
| SaleTotals.RoundingIsNearest | backend/src/shared/money.rs:18-30 | half-to-even rounding is the only nearest rounding that settles ties evenly |
| SaleTotals.HiddenCostsAreIgnored | backend/src/features/sales/sale_service.rs:52-59 | costs sent by a device that may not see them make no difference |
| SaleTotals.HiddenCostsAreCatalogued | backend/src/features/sales/sale_service.rs:194-249 | such lines are costed from the catalogue |

## Left out

- Routing, extractors, handlers, JSON shapes, tracing, the audit trail, the Redis cache, the rate limiter and the broadcaster: I/O around the logic.
- The PayMongo client, HMAC, JWT, Argon2, SHA-256 and random codes: tokens and codes are modelled by ids that stand for their digests.
- The Flutter frontend: its sync coordinator is not part of this model; a device is what applies an answer and keeps the cursor.
- Money on ledger lines: `Ledger` keeps the product and quantity of a line, `SaleTotals` its prices and rounding. The NUMERIC rounding PostgreSQL does on storing a cost is not modelled.
- Replay stability of `cost_price`, flags and catalogue-costed totals, and permanence of expense deletion: the code does not promise them.
- Barcode uniqueness and clashes of line ids: a push that meets one is rejected by the database.
- Absent ids and times: a request carries its id, and the time a server would supply is a parameter.
- Trimming, case folding and parsing of names, notes, kinds and payment methods: they arrive normalised.
- The lines of pulled sales: they are read by a statement of their own after the sales page, and are not part of the device's copy here.
- Rows removed by cascade when an account is purged, in the pull protocol: tables there only grow and change.
- `RowLocks` treats saves and deletions of products, expenses and withdrawals as single statements; the read of the old cost before a product save is not separate from it.
- Deadlocks: a step that has to wait leaves the world as it is, and any transaction may abort at any time.
- The removal of staff and the redeeming of a code are one step each. A code found by a DELETE that is still open can be redeemed in `JoinCodes`, where the database would make the redeemer wait.
- Sub-microsecond parts of the clock in `Plans`, and the range in which chrono's arithmetic overflows.
- The 28-digit division and the f64 ratio of the outlier detector: average and ratio are exact.
- Negative page sizes: the query is refused by the database.
- Dashboard and report aggregates, benchmarks, exports, health rating, permissions lists: finite case analysis or SQL arithmetic that would only add easy members.
