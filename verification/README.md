# MockSim back-end engine: a verified model

MockSim imitates an acquirer and a bank: merchants sell, days are settled, payments move money,
webhooks tell the outside world, and a simulated clock drives it all. This project models the
engine behind its endpoints and proves what that engine keeps over whole runs.

| file | what it models |
|---|---|
| `Outbox.dfy` | the webhook queue: claim, delivery, back-off, dead letters, replay, crashes |
| `SimScheduler.dfy` | advancing the clock in slices on the synchronous, asynchronous and hand-off paths; jobs that schedule jobs |
| `Pos.dfy`, `PosEngine.dfy` | point-of-sale transactions, their fees and settlement batches; the backfill endpoint |
| `PosSchedule.dfy` | the two point-of-sale engines as scheduled jobs: the daily generation chain, and settlement of all that is sold |
| `Ledger.dfy`, `Payments.dfy` | accounts, entries, pools and virtual accounts; the payment lifecycle and its redelivery |
| `Idempotency.dfy` | idempotent endpoints over concurrent sessions, failures and pruning |
| `Paging.dfy` | cursor pages of statements and transactions |
| `Iban.dfy`, `Calendar.dfy`, `Fees.dfy` | MOD 97-10 (ISO/IEC 7064, the check-digit system of ISO 13616-1), business days, fee rounding |
| `Prelude.dfy`, `Arithmetic.dfy` | shared results and division lemmas |

Conventions. A database table is a sequence held by a class; rows that are never deleted are
known by their index. A committed transaction is one step. Each class method is proved equal to a
step of a state machine (`Apply`, `RunSlice`, `Settle`, `Process`, `Transfer`, ...) and the laws
are lemmas about every run of those steps. Where SQL leaves an order open (ties in `fire_at` or
`created_at`), the order is an input of the step, so the laws hold for each. A date is an ordinal,
an instant a number of microseconds (seconds in the outbox and the idempotency store), money an
integer of minor units that may be negative, as the source's money type admits.

## Where the code and its documentation disagree

The model follows the code; each difference has a lemma.

- `core/outbox.py:7-8` and DESIGN.md promise that the events of a partition arrive in creation
  order, retries included. A failed event does not hold back the later ones. In crash-free runs
  first attempts are in creation order. In every run, crashes and replays included, arrivals are
  in creation order exactly when no success passes an older event that has not arrived. That no
  success passes an older event without `delivered_at` is sufficient in every run, and exact
  unless a crash falls between the answer of a successful call and its commit
  (`Outbox.ArrivalsInCreationOrderIff`, `Outbox.CutHidesArrival`). An event without it that is
  passed is backing off, dead, stranded by a crash, or has been replayed (`Outbox.OvertakenAre`).
  The promise can fail under every retry schedule (`Outbox.ContractCanFail`).
- `persistence/models.py:143-144` promises at-least-once delivery across crashes. A row that a
  crash leaves `in_flight` is never attempted again unless it is replayed (`Outbox.StrandedForGood`,
  `Outbox.CrashLoses`). After every run, an event that is neither delivered nor dead can still be
  delivered by dispatching alone exactly if no crash of the run held it in flight without a replay
  after it (`Outbox.AtLeastOnceIff`).
- `core/accounts.py:8-9` promises the pool invariant after every operation that touches a pool or
  its children. No operation promises it by itself: over a run it holds after every operation
  exactly if none of them upsets a pool (`Payments.RunKeepsPoolsIff`).
  - A transfer checks the parent of a virtual account, and a pool itself, but not the parent of an
    external account or of a pool, which `POST /accounts` allows to have one. A transfer that
    returns keeps every pool in balance exactly if it is neutral (`Ledger.TransferReturnsIff`). It
    always is if each end that a pool counts is a virtual account
    (`Ledger.GuardedTransferReturnsIff`); with an external child it need not be
    (`Ledger.ExternalChildBreaksPool`).
  - Settling a payment checks no pool (`Payments.PaymentKeepsPoolsIff`; a payment that breaks one:
    `Payments.UnownedPaymentBreaksPool`).
  - Opening an account, of any kind, breaks its parent pool exactly if it is the first child of a
    funded one (`Ledger.OpeningKeepsPoolsIff`, `Payments.FirstChildBreaksPool`).
- `core/accounts.py` guards debits only. With a negative amount entries no longer add up to
  balances (`Ledger.WriteKeepsSoundIff`, `Payments.RunSoundIff`; from an empty account:
  `Payments.NegativePaymentUnsound`).
- The idempotency design promises the first response to every repeated call. That holds exactly
  when the handler has flushed before `complete` (`Idempotency.EffectsRecordedIff`,
  `Idempotency.LaterCalls`); mandate creation has not, and its repeated calls are refused
  (`Idempotency.RecordedIffFlushed`).
- The admin endpoint advances the clock under the all-zero tenant, so the jobs of tenants do not
  run (`SimScheduler.AdminAdvanceSkipsTenants`).
- On a hand-off, `slices_done` ends one short of `slices_total` when whole days remain
  (`SimScheduler.HandOffProgressIff`; two days handed off after the first: `SimScheduler.TwoDaysHandedOff`).
- The backfill schedules the next day's generation for every date it generates, so a merchant that
  had one chain of generation jobs has `days` more afterwards (`PosEngine.Engine.GeneratePos`).

## Model

| member | source | states |
|---|---|---|
| `Outbox.ShapeKept` | src/mocksim/core/outbox.py:77-170 | After every step: pending means no attempts and no due time, retrying 1 to 6 attempts and a due time, dead letter 7, and the claimed batch holds distinct existing rows. |
| `Outbox.FirstAttemptsInCreationOrder` | src/mocksim/core/outbox.py:77-100 | In every crash-free run of enqueues, dispatches of any size, successes, failures and replays, an older event of a partition has its first attempt before a newer one. |
| `Outbox.ToldKept` | src/mocksim/core/outbox.py:106-163 | After every step, replays and crashes included, an event with `delivered_at` has arrived; that every event that has arrived has it is kept exactly unless a crash cuts a successful call of one that lacks it between its answer and its commit. |
| `Outbox.SuccessKeepsOrderIff` | src/mocksim/core/outbox.py:99-137 | In every state, a success, committed or cut by a crash, keeps arrivals in creation order exactly if it passes no older event that has not arrived. |
| `Outbox.ArrivalsInCreationOrderIff` | src/mocksim/core/outbox.py:7-8 | Over every run, arrivals are in creation order if and only if no success passes an older event that has not arrived; that none passes an older one without `delivered_at` is sufficient in every run, and exact if no crash cuts a successful call. |
| `Outbox.CutHidesArrival` | src/mocksim/core/outbox.py:113-163 | A run in which an answered call is cut by a crash: arrivals are in order although a success passes an older event without `delivered_at`. |
| `Outbox.OvertakenAre` | src/mocksim/core/outbox.py:77-155 | In every run, an older undelivered event that the next delivery would pass is retrying, dead, stranded by a crash, or has been replayed. |
| `Outbox.FailureFreeArrivalsInOrder` | src/mocksim/core/outbox.py:77-137 | In every crash-free run in which no attempt fails, arrivals are in creation order, replays or not. |
| `Outbox.ContractCanFail` | src/mocksim/core/outbox.py:7-8 | For every retry schedule there is a run in which a newer event of a partition arrives and the older one has not. |
| `Outbox.ConsecutiveAttempts` | src/mocksim/core/outbox.py:127-170 | In every run, crashes within a delivery included, of two consecutive attempts of one event the later is numbered 1 again, or it is the next number, the earlier failed, and they are at least the n-th delay of the schedule apart, n being the earlier's number; beyond the schedule, its last delay. |
| `Outbox.AttemptsApart` | src/mocksim/core/outbox.py:127-170 | Consecutive attempts of an event that is not replayed are numbered on, the earlier failed, and attempt n + 1 comes at least the n-th delay of the schedule, or its last, after attempt n. |
| `Outbox.DefaultDelays` | src/mocksim/config.py:51 | With the default schedule, the six waits of an event that is not replayed are at least 60, 300, 900, 3600, 21600 and 86400 seconds, in this order. |
| `Outbox.AttemptsTakeTime` | src/mocksim/core/outbox.py:139-170 | In every run, the n-th attempt of an event since it was enqueued or last replayed is later than the first since then by at least the first n - 1 back-offs together. |
| `Outbox.DeadLetterTakesTime` | src/mocksim/core/outbox.py:139-163 | In every run the last attempt of a dead event is the failed seventh of its series, at least the first six back-offs after the first of that series, which is no earlier than the event. |
| `Outbox.DefaultDeadLetterTime` | src/mocksim/config.py:51 | With the default schedule, in every run, an event is dead no sooner than 112860 seconds after it was created and first attempted. |
| `Outbox.DeliveriesPaidFor` | src/mocksim/core/outbox.py:103-163 | With nothing enqueued or replayed, each committed delivery uses up an attempt that the open events had left. |
| `Outbox.SevenDeliveriesEach` | src/mocksim/core/outbox.py:26-163 | With nothing enqueued or replayed, n open events take at most 7n committed deliveries, and 7n of them close them all. |
| `Outbox.ClaimTakes` | src/mocksim/core/outbox.py:77-96 | A claim puts in flight rows that are pending, or retrying and due, and changes no other; it leaves such a row out only if its batch is full, of rows whose partition, and then creation, is not later. |
| `Outbox.ClaimSorts` | src/mocksim/core/outbox.py:86-88 | The claimed rows are distinct and in order of partition and, within one, of creation. |
| `Outbox.ClaimFindsWork` | src/mocksim/core/outbox.py:77-92 | In every reachable state, a dispatch claims an open event that is due, or fills its batch with others, unless that event is stranded; then it never claims it. |
| `Outbox.CrashStrands` | src/mocksim/core/outbox.py:94-163 | After any step an event is stranded exactly if it was, or the step is a crash, between deliveries or within one, that held it in flight, and the step is not its replay; a crash drops the batch and leaves every row as it was, and one within a delivery leaves its call logged. |
| `Outbox.StrandedIff` | src/mocksim/core/outbox.py:77-100 | Over every run, the events stranded at its end are those that were and have not been replayed, and those a crash of the run held in flight without a replay after it. |
| `Outbox.StrandedForGood` | src/mocksim/core/outbox.py:77-84 | A stranded event is never attempted again by any run that does not replay it. |
| `Outbox.CanStillArriveIff` | src/mocksim/core/outbox.py:68-137 | For every batch size, waiting and dispatching alone can still deliver an open event if and only if it is not stranded. |
| `Outbox.AtLeastOnceIff` | src/mocksim/persistence/models.py:143-144 | After every run, an event neither delivered nor dead can still be delivered by dispatching alone if and only if no crash of the run held it in flight without a replay after it. |
| `Outbox.CrashLoses` | src/mocksim/persistence/models.py:143-144 | Under every schedule: one event enqueued, claimed and caught by a crash is stranded. |
| `Outbox.Queue.Enqueue` | src/mocksim/core/outbox.py:29-65 | Appends a pending row of the partition without attempts or due time, created now; nothing else changes. |
| `Outbox.Queue.SelectDue` | src/mocksim/core/outbox.py:77-89 | The claiming query: due pending and retrying rows, by partition and creation, cut off at the limit, none left out before the cut. |
| `Outbox.Queue.ClaimBatch` | src/mocksim/core/outbox.py:77-96 | Marks exactly the selected rows as in flight. |
| `Outbox.Queue.DeliverNext` | src/mocksim/core/outbox.py:103-163 | One delivery counts the attempt and changes no other row: delivered now if answered well, dead at the seventh attempt, otherwise retrying and due exactly the n-th delay of the schedule after now, n being its attempts, or the last delay beyond the schedule. |
| `Outbox.Queue.DispatchBatch` | src/mocksim/core/outbox.py:68-100 | A dispatch is a claim and then one delivery of each claimed row, in the order claimed, the k-th with the k-th answer, whatever the receivers answer. |
| `Outbox.Queue.ReplayEvent` | src/mocksim/admin/api.py:350-367 | Resets any existing event to pending with no attempts and no due time, leaving `delivered_at`; an unknown one changes nothing. |
| `SimScheduler.SlicesSum` | src/mocksim/core/sim_scheduler.py:91-98 | The slices of a duration are positive, at most the slice size and, but for the last, exactly that, and they add up to the duration. |
| `SimScheduler.SlicesCount` | src/mocksim/core/sim_scheduler.py:91-98 | There are as many slices as the duration divided by the slice size, rounded up. |
| `SimScheduler.SlicesCompose` | src/mocksim/core/sim_scheduler.py:91-98 | Slicing a and then b is slicing a + b if and only if a is whole slices or b is nothing. |
| `SimScheduler.AdvanceComposes` | src/mocksim/core/sim_scheduler.py:60-110 | If a is whole slices, advancing by a and then b can end in exactly the states in which advancing by a + b can. |
| `SimScheduler.RunJobEffect` | src/mocksim/core/sim_scheduler.py:138-152 | Running a job changes its status and no other job's, logs it once, and leaves what it schedules waiting. |
| `SimScheduler.RunJobOutcome` | src/mocksim/core/sim_scheduler.py:138-152 | A job without a handler ends failed and changes nothing else; any other is handed the clock and the world as they are, keeps what it committed even if it raises, has fired exactly if it returned, and each job it asked for waits with its tenant, time and payload. |
| `SimScheduler.SliceEffect` | src/mocksim/core/sim_scheduler.py:113-154 | A slice moves the clock to its end and takes up exactly the jobs due by then, each once; jobs its handlers schedule wait. |
| `SimScheduler.AdvanceClock` | src/mocksim/core/sim_scheduler.py:91-98 | Over any slices the clock ends at its start plus their lengths, and the log grows by the jobs taken up. |
| `SimScheduler.AdvanceTakesDue` | src/mocksim/core/sim_scheduler.py:121-152 | Over a whole advance, every job of the tenant or of none that was pending at the start, with a fire time up to the end, becomes fired or failed and is otherwise unchanged; every other job that existed is unchanged. |
| `SimScheduler.AdvanceLogsDue` | src/mocksim/core/sim_scheduler.py:121-152 | A job that existed at the start is taken up if and only if it was due by the end. |
| `SimScheduler.DoneStaysDone` | src/mocksim/core/sim_scheduler.py:123-132 | A fired or failed job is never taken up again. |
| `SimScheduler.TakenOnce` | src/mocksim/core/sim_scheduler.py:123-152 | No job, old or scheduled on the way, is taken up twice in an advance. |
| `SimScheduler.TakenOnTime` | src/mocksim/core/sim_scheduler.py:117-136 | No job is taken up before the clock has reached its fire time. |
| `SimScheduler.TakenWasDue` | src/mocksim/core/sim_scheduler.py:123-131 | A job of the start that is taken up was waiting, matched the tenant and keeps its fire time. |
| `SimScheduler.AdvanceInOrder` | src/mocksim/core/sim_scheduler.py:123-138 | The jobs that existed at the start are taken up in order of fire time, across all slices. |
| `SimScheduler.OverdueIsNew` | src/mocksim/core/sim_scheduler.py:121-152 | After a slice, a matching job that is overdue was scheduled during that slice. |
| `SimScheduler.Simulator.ScheduleAt` | src/mocksim/core/sim_scheduler.py:38-57 | Appends one waiting job with the requested tenant, time and payload. |
| `SimScheduler.Simulator.SelectDue` | src/mocksim/core/sim_scheduler.py:123-134 | The query of due jobs: all pending ones up to the slice's end, of the tenant or of none, by fire time. |
| `SimScheduler.Simulator.RunOneSlice` | src/mocksim/core/sim_scheduler.py:113-154 | The loop over the due jobs is a slice of the state machine. |
| `SimScheduler.Simulator.CreateAdvanceJob` | src/mocksim/core/sim_scheduler.py:157-184 | Records an advance towards the clock plus what remains, with no slice done. |
| `SimScheduler.Simulator.RunAdvanceAsync` | src/mocksim/core/sim_scheduler.py:187-221 | The background loop runs the slices of the whole duration and counts each of them. |
| `SimScheduler.Simulator.Advance` | src/mocksim/core/sim_scheduler.py:60-110 | On all three paths the slices run are those of the duration, the clock ends at exactly start plus duration, and a recorded advance ends complete, at its target, with its slices counted and with the total the source records; it is asynchronous at once exactly if its days, a remainder of a second or more counting as one, exceed the threshold. |
| `SimScheduler.HandOffIff` | src/mocksim/core/sim_scheduler.py:91-108 | An advance is handed off exactly if some slice ends over budget; then after the first that does, and what is handed over adds up to the slices that have not run. |
| `SimScheduler.AsyncProgressIff` | src/mocksim/core/sim_scheduler.py:75-84 | For one-day slices on the immediate asynchronous path, `slices_done` ends equal to `slices_total` unless the duration ends in a fraction of a second after whole days. |
| `SimScheduler.HandOffProgressIff` | src/mocksim/core/sim_scheduler.py:100-103 | On a hand-off `slices_done` ends equal to `slices_total` if and only if what remains is not a whole number of days; otherwise it ends one short. |
| `SimScheduler.TwoDaysHandedOff` | src/mocksim/core/sim_scheduler.py:100-103 | Two days in one-day slices, handed off after the first, leave one slice to do and two recorded. |
| `SimScheduler.AdminAdvanceSkipsTenants` | src/mocksim/admin/api.py:52-66 | An advance under the admin's all-zero tenant never takes up, and never changes, a job of another tenant. |
| `Calendar.ExpectedSettlementDate` | src/mocksim/pos/generator.py:173-185 | If some weekday is worked the loop ends, with the least date by which the given number of business days after the sale have passed. |
| `Calendar.NextBusinessDay` | src/mocksim/bank/payments.py:243-247 | The next business day is the settlement date of one business day. |
| `Calendar.SettlementUnique` | src/mocksim/pos/generator.py:173-185 | There is only one such date. |
| `Calendar.WeekdaysFollow` | src/mocksim/pos/generator.py:173-185 | Ordinal 1 is a Monday, weekdays follow one another from 1 to 7, and the first of January 2024 is a Monday. |
| `Calendar.SettlementDateIs` | src/mocksim/pos/generator.py:173-185 | The function used elsewhere in the model is that date. |
| `Calendar.NothingWorked` | src/mocksim/pos/generator.py:173-185 | If no weekday is worked no date is ever a positive number of business days away. |
| `Calendar.SettlementComposes` | src/mocksim/pos/generator.py:173-185 | Settling a business days later and b days after that is settling a + b days later. |
| `Calendar.SettlementMonotone` | src/mocksim/pos/generator.py:173-185 | A later sale never settles earlier. |
| `Calendar.WeekCount` | src/mocksim/pos/generator.py:173-185 | Any seven consecutive days hold 7 - w business days, w being the weekend days of a week. |
| `Calendar.SettlementWeekly` | src/mocksim/pos/generator.py:173-185 | 7 - w further business days are exactly a week later. |
| `Calendar.OneDayReach` | src/mocksim/pos/generator.py:173-185 | With a weekend of at most two consecutive days, T+1 is at most three days away, and three exactly when the next two days are weekend. |
| `Calendar.TwoDayReach` | src/mocksim/pos/generator.py:173-185 | With such a weekend, T+2 is at most four days away. |
| `Fees.FeeRounding` | src/mocksim/pos/generator.py:154-170 | Each fee is its rate rounded down by less than a minor unit, and the fees and the net add up to the amount. |
| `Fees.NetNonNegative` | src/mocksim/pos/generator.py:154-170 | The net is not negative when the combined rates are at most 100%. |
| `Pos.SellKeeps` | src/mocksim/pos/generator.py:342-415 | Committing any part of a merchant's day keeps the tables consistent and leaves settled transactions and batches unchanged. |
| `Pos.NewBatchBalanced` | src/mocksim/pos/settlement.py:104-142 | A new batch states count, gross, MDR, VAT and net of exactly the transactions that now name it, and gross less the rest is their withholding tax. |
| `Pos.SettleKeeps` | src/mocksim/pos/settlement.py:62-142 | Settling keeps the tables consistent and changes only pending transactions, which get the new batch. |
| `Pos.RunKeeps` | src/mocksim/pos/settlement.py:62-142 | Over every run each settled transaction names one batch of its merchant and date, each batch states the sums over its members, and settled transactions and batches never change. |
| `Pos.StartConsistent` | src/mocksim/pos/settlement.py:62-142 | The empty tables satisfy what every run keeps. |
| `Pos.DayIs` | src/mocksim/pos/generator.py:290-432 | A generated day: an unknown merchant sells and asks for nothing; an inactive one sells nothing and asks for its next day; an active one sells exactly the amounts drawn, in order, expected on the settlement date of its region, and asks for its next day and, if it sold, for the settlement of that date. |
| `Pos.SettleIs` | src/mocksim/pos/settlement.py:49-142 | A settlement does nothing unless the merchant is the tenant's and has rows of the date pending; then one new batch, of the merchant and date, takes exactly those rows. |
| `Pos.Conserved` | src/mocksim/pos/settlement.py:104-142 | For count, gross, each fee and net, the batches and the pending transactions together make up all transactions. |
| `Pos.SalesAccounted` | src/mocksim/pos/generator.py:342-415 | Over every run, the gross of the batches plus the pending amounts is exactly what was sold. |
| `Pos.SettleSettles` | src/mocksim/pos/settlement.py:62-142 | Settling a known merchant's date leaves none of its transactions of that date pending. |
| `Pos.SettleAgain` | src/mocksim/pos/settlement.py:74-80 | Settling a date again returns None and changes nothing. |
| `Pos.BatchDrift` | src/mocksim/pos/settlement.py:104-111 | For a batch of n transactions, 10000 times the MDR is at most gross times rate and less than that of MDR + n, the VAT falls short of its rate on the MDR by less than n, and what the net leaves besides those two falls short of the withholding rate on the gross by less than n. |
| `PosEngine.Engine.CommitDay` | src/mocksim/pos/generator.py:346-415 | The loops over batches of a hundred write one transaction for each amount, in order, charged and dated by the region's terms. |
| `PosEngine.Engine.GenerateMerchantDay` | src/mocksim/pos/generator.py:265-432 | Count, rows and jobs by case: none for an unknown merchant; no rows and the next day's job for an inactive one; for an active one a row for each amount drawn, in order, the next day's job, and the settlement job of their expected date if there are any. Without `schedule_next` no job is asked for. |
| `PosEngine.Engine.Aggregate` | src/mocksim/pos/settlement.py:104-109 | Summing a column over the selected rows is summing it over the merchant's pending transactions of the date. |
| `PosEngine.Engine.SettleMerchantDay` | src/mocksim/pos/settlement.py:49-185 | Makes one batch of the pending transactions and marks them with it, or returns None and changes nothing. |
| `PosEngine.SellAppends` | src/mocksim/pos/generator.py:350-396 | A sale appends one pending transaction per amount, dated that day and expected no earlier, and changes nothing else. |
| `PosEngine.DayStartsChain` | src/mocksim/pos/generator.py:427-430 | A generated day of a known merchant asks for exactly one more generation job of that merchant, for the next day, and of no other. |
| `PosEngine.Engine.GenerateDays` | src/mocksim/admin/api.py:737-749 | The backfill's first loop adds, date by date from the first, one row for each amount drawn for that date, in order, counts them by date, and asks for one generation job for each following day. |
| `PosEngine.Engine.Drain` | src/mocksim/admin/api.py:751-774 | The drain settles exactly the merchant's pending transactions expected from the first date up to two days from today. |
| `PosEngine.Engine.GeneratePos` | src/mocksim/admin/api.py:716-788 | For every merchant found, in turn, the rows added are those drawn for each date, in order and counted by date, and one generation job is asked for the day after each. After an error-free backfill the rows it made that are pending are exactly those expected later than two days from today, and older pending rows are settled exactly if their merchant sold something and they are expected within the window. |
| `PosEngine.BackfillLeaves` | src/mocksim/admin/api.py:751-774 | With a weekend of at most two consecutive days, what is left is T+1 sales of today, and then the next two days are weekend, or T+2 sales of the last two dates; never same-day sales. |
| `PosSchedule.ChainMoves` | src/mocksim/pos/generator.py:507-532 | Running a merchant's one generation job leaves exactly one, for the next date, and new settlement jobs only for the settlement date of the day it generated. |
| `PosSchedule.ChainStays` | src/mocksim/pos/generator.py:472-491 | Running any other job leaves the merchant's chain and its generated dates as they are. |
| `PosSchedule.GenerationRuns` | src/mocksim/pos/generator.py:472-491 | A scheduled generation job, by case of its merchant: which rows it adds, which jobs wait afterwards, and that it has fired. |
| `PosSchedule.SettlementRuns` | src/mocksim/pos/settlement.py:253-271 | A scheduled settlement job gives the new batch to each pending row of its merchant and date, changes no other row and schedules nothing. |
| `PosSchedule.SliceChain` | src/mocksim/core/sim_scheduler.py:113-154 | A slice generates the chain's date if the clock reaches it, and never more than that one date. |
| `PosSchedule.LostSliceForks` | src/mocksim/core/sim_scheduler.py:119-154 | A slice that generates a merchant's day and then loses its own transaction leaves two waiting generation jobs: of that day again, and of the next. |
| `PosSchedule.ChainKept` | src/mocksim/pos/generator.py:427-532 | Over every run of slices a merchant has exactly one waiting generation job, for the first date not generated; the generated dates have no gap and no repeat, at most one a slice. |
| `PosSchedule.DailyDates` | src/mocksim/pos/generator.py:427-532 | Once the first date is due, k one-day slices generate exactly k dates. |
| `PosSchedule.CreatedDates` | src/mocksim/pos/api.py:105-122 | From a merchant's creation on, k one-day slices generate exactly the clock's day and the k - 1 following ones. |
| `PosSchedule.SalesFollowDates` | src/mocksim/pos/generator.py:265-432 | Over every run of slices of any length a merchant's rows are exactly what was drawn for the dates generated, in order. |
| `PosSchedule.CreatedSales` | src/mocksim/pos/generator.py:265-432 | From a merchant's creation on, k one-day slices sell for it exactly what is drawn for the clock's day and the k - 1 following ones, date by date and amount by amount; nothing if it is inactive. |
| `PosSchedule.CoveredJob` | src/mocksim/pos/generator.py:342-430 | Every job keeps a settlement job waiting for the date of each pending transaction of a merchant. |
| `PosSchedule.WaitingAfterSlice` | src/mocksim/core/sim_scheduler.py:121-136 | A settlement job found waiting after a slice is for later, or for the settlement date of the day generated in that slice. |
| `PosSchedule.SteadySlice` | src/mocksim/pos/generator.py:427-430 | A one-day slice takes a merchant from the steady state of one day to that of the next: one chain, everything open recent and scheduled to settle. |
| `PosSchedule.CreatedSteady` | src/mocksim/pos/generator.py:435-467 | A merchant just created is in that state. |
| `PosSchedule.NothingLeftBehind` | src/mocksim/pos/settlement.py:62-142 | Driven by one-day slices since its creation, every transaction of a merchant is settled as soon as the clock is one day past its expected date (two for a same-day region), by the one batch it names, of its merchant and date. |
| `Ledger.WriteKeepsSoundIff` | src/mocksim/core/accounts.py:61-99 | An entry keeps balances equal to opening plus signed entries, and recorded balances equal to prefix sums, if and only if its amount is not negative. |
| `Ledger.WriteKeepsSolventIff` | src/mocksim/core/accounts.py:67-80 | A debit that is booked overdraws nobody; a credit leaves every balance non-negative exactly if its account's balance covers its amount, should that be negative. |
| `Ledger.MoveKeepsSoundIff` | src/mocksim/core/accounts.py:45-142 | A debit and credit of one amount, aliased accounts included, keep the ledger sound if and only if the amount is not negative, and then nobody is overdrawn. |
| `Ledger.NegativeUnsound` | src/mocksim/core/accounts.py:67-90 | Once a negative amount is booked the ledger is unsound, whatever is booked later. |
| `Ledger.WriteOutcome` | src/mocksim/core/accounts.py:61-100 | An entry is refused for the currency exactly if that differs, for the funds exactly if a debit of the right currency exceeds the balance, and otherwise sets both balances and records side, amount, currency and balance. |
| `Ledger.MoveOutcome` | src/mocksim/core/accounts.py:127-137 | A debit and credit take the amount from the source and give it to the destination, change no other account, and append the two entries in this order. |
| `Ledger.TransferErrorIff` | src/mocksim/core/accounts.py:30-142 | The exact condition of every error of a transfer: unknown account, closed, dormant (the source before the destination), currency, funds, and the pool checks last. |
| `Ledger.TransferReturnsIff` | src/mocksim/core/accounts.py:103-179 | Whatever kinds and parents the accounts have: a transfer returns if and only if both accounts exist, are active and of its currency, the source is funded, and what the ends weigh makes up the gap of each account whose children the two checks add up; it then is the debit and credit; and, pools being in balance before, one that returns keeps them so exactly if it is neutral. |
| `Ledger.GuardedTransferReturnsIff` | src/mocksim/core/accounts.py:103-179 | If each end that a pool counts is a virtual account, a transfer that returns keeps every pool in balance; and if the ends' checks look at pools only, a payable one returns exactly when it is neutral: within one account, or between ends that head no children and are counted by one pool or by none. |
| `Ledger.ExternalChildBreaksPool` | src/mocksim/core/accounts.py:145-154 | A transfer to the external child of a pool returns, and the pool is out of balance. |
| `Ledger.LocalChecksSuffice` | src/mocksim/core/accounts.py:145-179 | The two local checks of a transfer imply the invariant for every pool if each end that a pool counts is a virtual account, and follow from it if they look at pools only. |
| `Ledger.MoveKeepsPoolsIfWeighed` | src/mocksim/core/accounts.py:157-179 | A debit and credit keep every pool in balance exactly if both ends weigh the same in every pool with children. |
| `Ledger.MoveKeepsPoolsIff` | src/mocksim/core/accounts.py:157-179 | A debit and credit keep every pool in balance exactly if they move nothing, or within one account, or between two that head no children and are counted by the same pool or by none. |
| `Ledger.ChangeKeepsPoolsIff` | src/mocksim/core/accounts.py:67-76 | A one-sided change keeps every pool in balance exactly when it is nothing, or of an account that heads no children and that no pool counts. |
| `Ledger.OpeningKeepsPoolsIff` | src/mocksim/bank/api.py:123-149 | Opening an empty account of any kind keeps every pool in balance if and only if it is not the first child of a funded pool. |
| `Ledger.TransferKeepsMoney` | src/mocksim/core/accounts.py:103-142 | A transfer keeps the total of every currency. |
| `Ledger.AccountStore.GetAccount` | src/mocksim/core/accounts.py:30-35 | Finds the account of an owned IBAN, and none other. |
| `Ledger.AccountStore.WriteEntry` | src/mocksim/core/accounts.py:45-100 | Rejects another currency and then an overdraft by debit, with nothing written; otherwise sets both balances and appends the entry. |
| `Ledger.AccountStore.CheckPoolSum` | src/mocksim/core/accounts.py:157-179 | Raises exactly if the pool has children and their balances do not add up to its own. |
| `Ledger.AccountStore.AssertPoolInvariant` | src/mocksim/core/accounts.py:145-154 | Looks at the parent pool of a virtual account, or at a pool itself, and at nothing else. |
| `Ledger.AccountStore.InternalTransfer` | src/mocksim/core/accounts.py:103-142 | Books both entries of a transfer that passes all its tests; any error leaves accounts and entries as they were. |
| `Payments.SettleShape` | src/mocksim/bank/payments.py:115-144 | Settling adds exactly one debit of the debtor and, if the creditor is owned, one credit of it, both of the instructed amount, currency and reference. |
| `Payments.OutcomeIff` | src/mocksim/bank/payments.py:77-167 | An accepted payment is refused, and keeps the reason, for an unknown, closed or dormant debtor or one whose balance is below the amount, each exactly then; it is settled exactly if its debtor can pay and the currencies agree, and otherwise raises for the currencies with nothing changed. |
| `Payments.EndedOrUnknown` | src/mocksim/bank/payments.py:77-84 | A payment that is not the tenant's is not found, one that has ended is answered its status, and neither changes anything. |
| `Payments.SettledBalances` | src/mocksim/bank/payments.py:115-144 | A settled payment takes its amount from the debtor, gives it to the creditor if that is owned, and changes no other account. |
| `Payments.OpenOutcome` | src/mocksim/bank/api.py:118-149 | A virtual account without a parent, or a parent that is not there, is refused; any other account is appended as asked for, active and empty. |
| `Payments.ProcessAgain` | src/mocksim/bank/payments.py:82-84 | Processing a settled or rejected payment again answers its status and changes nothing. |
| `Payments.StepPaysOnce` | src/mocksim/bank/payments.py:77-167 | Every step, repeated processing included, keeps one debit per settled payment and none for others, and leaves terminal payments unchanged. |
| `Payments.RunPaysOnce` | src/mocksim/bank/payments.py:77-167 | Over every run a payment moves money at most once, and exactly once if it is settled; settled and rejected are final. |
| `Payments.SlicesAreSteps` | src/mocksim/core/sim_scheduler.py:119-154 | Whatever slices run, and whichever of them lose their own transaction after the handlers committed, the bank goes through exactly the processing of the payments of the jobs due in each slice, in the order listed. |
| `Payments.RedeliveredOnce` | src/mocksim/core/sim_scheduler.py:138-154 | Payments are paid at most once although lost slices run their jobs again. |
| `Payments.RunConserves` | src/mocksim/bank/payments.py:115-144 | Over every run the money in the accounts of a currency falls by exactly the settled payments whose creditor no account owned. |
| `Payments.StepSound` | src/mocksim/core/accounts.py:45-100 | A step that books no negative amount keeps the ledger sound and nobody overdrawn. |
| `Payments.RunSoundIff` | src/mocksim/core/accounts.py:45-100 | Over every run, new accounts included, balances and recorded balances are what the entries add up to if and only if no negative amount was booked; then nobody is overdrawn. |
| `Payments.PaymentKeepsPoolsIff` | src/mocksim/bank/payments.py:115-144 | A settled payment keeps every pool in balance exactly when it is neutral or, with an unowned creditor, moves nothing or leaves from an account that heads no children and that no pool counts. |
| `Payments.StepKeepsPoolsIff` | src/mocksim/core/accounts.py:145-179 | Every step, account openings included, keeps every pool in balance if and only if it upsets none. |
| `Payments.RunKeepsPoolsIff` | src/mocksim/core/accounts.py:8-9 | Over every run the pool invariant holds after every operation if and only if none of them upsets a pool. |
| `Payments.NegativePaymentUnsound` | src/mocksim/core/accounts.py:67-90 | From one empty account, a payment of minus 5 settles and leaves entries that do not add up to the balance. |
| `Payments.UnownedPaymentBreaksPool` | src/mocksim/bank/payments.py:115-144 | A funded virtual account pays an unowned creditor, and its pool is out of balance. |
| `Payments.FirstChildBreaksPool` | src/mocksim/bank/api.py:123-149 | The first virtual account under a funded pool puts the pool out of balance. |
| `Payments.DuePaymentEnds` | src/mocksim/bank/payments.py:77-167 | An advance under the tenant that reaches the fire time of a payment's job leaves the payment settled or rejected, or the job failed and, if it was the only one, the payment accepted. |
| `Payments.InitiatedPaymentEnds` | src/mocksim/bank/api.py:350-374 | An initiated payment has ended once an advance under its tenant reaches its fire time, exactly if its job has fired; otherwise processing raised, the job has failed and the payment is accepted still. It is for the tenant, parties, amount and currency asked for; if settled, one debit of the debtor and at most one credit of the creditor were booked for it, of that amount and currency, and none otherwise. |
| `Payments.ComputeFireAt` | src/mocksim/bank/payments.py:223-247 | Instant rails fire thirty seconds from now, the others on the first business day after today, at the region's cut-off hour or at nine; always later than now. |
| `Payments.PaymentProcessor.InitiatePayment` | src/mocksim/bank/api.py:338-374 | If the debtor's account exists, appends one accepted instruction of exactly the tenant, parties, amount and currency asked for, and one job for it, at its rail's time; otherwise nothing. Every other row stays. |
| `Payments.PaymentProcessor.ProcessPayment` | src/mocksim/bank/payments.py:64-167 | The method's writes and rollback are one step of the lifecycle. |
| `Idempotency.StartSafe` | src/mocksim/core/idempotency.py:35-117 | The empty table satisfies what every step keeps. |
| `Idempotency.StepSafe` | src/mocksim/core/idempotency.py:35-117 | Every step keeps the row of each effect until it may expire, and one writer for each key. |
| `Idempotency.AtMostOnce` | src/mocksim/core/idempotency.py:35-117 | Over every run of requests, failures, concurrent first requests, pruning and passing time, nothing takes effect under a key after a money effect, and effects of other keys are 24 hours from the beginning of the one before. |
| `Idempotency.LaterCalls` | src/mocksim/core/idempotency.py:47-92 | Every later call under a money key changes nothing: another body is refused, the same body gets the first response exactly if `complete` had found the row. |
| `Idempotency.PruneFreesIff` | src/mocksim/core/scheduler.py:58-74 | After every run and a pruning a key may be used anew if and only if no request under it moved money and each that took effect began at least 24 hours ago. |
| `Idempotency.RecordedIffFlushed` | src/mocksim/bank/api.py:335-382 | A first request whose key no other session has inserted takes effect, and its response is recorded if and only if the handler flushed before `complete`. |
| `Idempotency.EffectsRecordedIff` | src/mocksim/core/idempotency.py:95-117 | Over every run, however requests interleave, each effect comes from one session's beginning, completion and commit, and its response is recorded if and only if that session flushed before it completed. |
| `Idempotency.SecondCommitRollsBack` | src/mocksim/persistence/models.py:106-109 | Of two first requests in flight together the second to commit takes no effect. |
| `Idempotency.FailureUndone` | src/mocksim/persistence/database.py:111-121 | Over every run, a session that never commits leaves no trace: the other requests alone could run just so, and end with the same rows, effects and sessions. |
| `Idempotency.Store.GetOrStart` | src/mocksim/core/idempotency.py:35-92 | Proceeds with a new session exactly if the key is unused; otherwise conflicts on another body, returns the recorded response, or refuses while there is none, changing nothing. |
| `Idempotency.Store.FlushSession` | src/mocksim/bank/api.py:369-370 | A flush inserts the session's row, or rolls the session back if the key is taken. |
| `Idempotency.Store.CompleteSession` | src/mocksim/core/idempotency.py:95-117 | Records the response only in a row that has been flushed. |
| `Idempotency.Store.CommitSession` | src/mocksim/persistence/database.py:111-121 | A commit publishes the row, with its response if recorded and its expiry, and the effect together, or neither if the key is taken. |
| `Idempotency.Store.PruneRecords` | src/mocksim/core/scheduler.py:58-74 | Deletes exactly the expired rows of endpoints that move no money. |
| `Paging.ListPage` | src/mocksim/pos/api.py:221-246 | One request returns the first rows past the cursor, at most the clamped limit, and a next cursor exactly if there are more. |
| `Paging.PageIs` | src/mocksim/pos/api.py:221-246 | A page is the first rows past the cursor, as many as asked for but between 1 and 200, and its next cursor is the key of its last row, exactly if there are more. |
| `Paging.CursorMoves` | src/mocksim/pos/api.py:231-246 | After a full page the next cursor leaves strictly fewer rows, so following cursors ends; it skips rows exactly if the page ended between two rows of one key. |
| `Paging.WalkNeverRepeats` | src/mocksim/bank/api.py:271-292 | The pages never hold a row more often than the table does. |
| `Paging.WalkCompleteIff` | src/mocksim/bank/api.py:271-292 | The pages are the whole list past the starting cursor if and only if none of them ends between two rows of one key. |
| `Paging.StatementPages` | src/mocksim/bank/api.py:271-292 | Following the cursor of a statement yields every entry in order, none twice, exactly if no page ends between two entries booked at one time. |
| `Paging.TransactionPages` | src/mocksim/pos/api.py:221-246 | Following the cursor of the transaction list yields the whole list, in max(1, ceil(n / limit)) requests. |
| `Iban.IbanChecksum` | src/mocksim/core/identifiers.py:37-47 | The two digits are those of 98 less the remainder of BBAN, country and 00, a number from 02 to 98. |
| `Iban.ValidateIban` | src/mocksim/core/identifiers.py:68-84 | Answers true exactly for alphanumeric text of four or more characters that reads 1 modulo 97 once rearranged. |
| `Iban.GenIban` | src/mocksim/core/identifiers.py:50-65 | For every supported region and all drawn digits the result is the region, two check digits, the bank code and the digits, has the region's length and validates; its length assertion cannot fail. |
| `Iban.GeneratedValidates` | src/mocksim/core/identifiers.py:37-84 | For every alphanumeric BBAN the computed check digits validate. |
| `Iban.CaseIgnored` | src/mocksim/core/identifiers.py:68-84 | Writing a capital letter small changes no answer of the validation. |
| `Iban.CheckDigitsUnique` | src/mocksim/core/identifiers.py:37-84 | Of 02 to 98 only the computed check digits validate. |
| `Iban.SubstitutionDetected` | src/mocksim/core/identifiers.py:68-84 | Replacing one digit by another digit, or one letter by another letter, of a valid IBAN always fails validation. |
| `Iban.TranspositionDetected` | src/mocksim/core/identifiers.py:68-84 | Swapping two neighbours of a valid IBAN, other than the fourth and fifth characters, keeps it valid if and only if they have one value or are 1 and B, 2 and M, or 3 and X. |
| `Iban.BlindValues` | src/mocksim/core/identifiers.py:68-84 | Those pairs are exactly a digit next to a letter of eleven times its value. |

## Left out

- HTTP delivery, HMAC signing, URL validation and webhook payloads: a delivery's outcome and duration are inputs.
- Deletion of outbox rows delivered more than 30 days ago: they are never attempted again.
- Rounding of due times to floating-point seconds in `_deliver`.
- Events of one partition created at the same instant, or committed out of creation order: nothing is claimed about their order.
- A replay that reads its row while a delivery has it and commits afterwards: it writes only the columns it saw change, so a row can end pending with an attempt counted and a due time. Replays are single steps, before or after a delivery.
- A replay, or any other transaction, holding the lock of an outbox row while the claiming query runs: the query skips locked rows, so it would pass over that row and a newer one could be attempted first. The claim is taken to find no row locked.
- Concurrent dispatchers, concurrent advances and `clock.set`: one of each runs at a time, and a background advance is taken to run to its end before anything else happens.
- SimScheduler.Simulator.RunAdvanceAsync: does not model a slice that raises, which would mark the record failed; handlers' exceptions are caught inside a slice, so only a failing database makes one raise.
- Poisson, lognormal, card and timestamp sampling: a merchant's day is an arbitrary list of amounts that depends on tenant, merchant and date, as the seeded source does.
- Fees.FeeRounding: is about exact real rates, where the source multiplies in binary floating point.
- Fees.NetNonNegative: is about exact real rates, where the source multiplies in binary floating point.
- Pos.BatchDrift: is about exact real rates, where the source multiplies in binary floating point.
- Dates past year 9999, where Python's date arithmetic raises.
- PosSchedule.ChainKept: assumes that no slice loses its own transaction after its handlers have committed; `PosSchedule.LostSliceForks` says what one that does leaves.
- PosSchedule.SalesFollowDates: assumes the same, and that handlers do not raise; so does `PosSchedule.CreatedSales`.
- PosSchedule.NothingLeftBehind: assumes that handlers do not raise, that no slice loses its own transaction, and that the region, if it settles later than the same day, has a working weekday.
- PosEngine.Engine.GeneratePos: does not model a generation or settlement that raises inside the endpoint's error handling.
- Settlement webhooks, acquirer mapping and the shared currency of a batch.
- Iban.ValidateIban: is about ASCII text; outside it Python's `isdigit` and `isalpha` accept more characters.
- Iban.TranspositionDetected: does not cover swapping the fourth character with the fifth, which stand at opposite ends once rearranged.
- The random source of IBANs, ULIDs and UUIDs: ids are taken to be fresh.
- Tenancy filters on accounts, scenario middleware, sharia flags, mandates and their limits: each is one comparison.
- Integer width: balances are unbounded, where the columns hold 64 bits.
- Row locks of `get_or_start` on committed rows: they delay a request and change no row.
- Hash collisions: two bodies with one hash are one body.
- Paging.StatementPages: takes rows of one booking time to be listed in one order by every query.
- User interface, seed scripts, migrations, authentication and routing.
