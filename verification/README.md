# Ad-budget spend accounting and enforcement, modelled in Dafny

This project models the engine of a Django app that tracks advertising spend
against brand budgets. A **brand** carries a daily and a monthly budget. A
**campaign** belongs to one brand. It has an active flag, a running daily
total and a running monthly total, and an optional **dayparting schedule**
(allowed hours `[start, end)`). A **spend log** is an append-only ledger
entry for one campaign.

The engine has these operations:

- `log_spend` records a spend as one transaction. It appends a ledger entry
  and adds the amount to both totals. It pauses the campaign when a total
  strictly exceeds the brand's limit. It refuses a paused campaign.
- `enforce_budget` is the budget check the sweep uses. It pauses a campaign
  whose total is at or over its limit.
- `is_within_dayparting` is the hour-window check.
- The periodic jobs are the enforcement sweep and the daily and monthly
  resets.

The model works on one immutable `Store`. The store holds a brand map, a
campaign map and a ledger sequence. Every operation is a pure function from
store to store. Transactional operations return an `Outcome`, which is the
new store plus an optional error. On an error, the store is the one the
transaction started from.

Modelling choices:

- Money is a whole number of cents (`Cents = int`). Every column holds a
  decimal with two places, so cents represent it exactly.
- The sweep reads the current time. Here it takes the hour of that time as a
  parameter (`Hour`, 0..23).
- Schedule hours are `HourColumn = nat`. The source comment gives 0-23
  (`campaigns/models.py:42-43`), but the column only has to be non-negative.
  Its upper bound depends on the database, so the model sets none. Such
  hours do no harm (`Services.OutOfDayHours`): a start of 24 or more never
  opens the window, and an end of 24 or more acts as 24. Nothing checks that
  a window is non-empty, so windows with `end <= start` are kept and are
  never open.
- The store's foreign keys are the predicate `Models.Valid`. Every operation
  preserves it.

Files and modules:

- `models.dfy` (`Models`): the records and the store; campaign creation with
  its defaults; the one-to-one schedule relation; per-campaign ledger views.
- `services.dfy` (`Services`): the dayparting check, the budget check, the
  resets and the spend logger.
- `tasks.dfy` (`Tasks`): the enforcement sweep, both as one map over all
  campaigns and as the per-row loop the job runs. Also the reset jobs.
- `commands.dfy` (`Commands`): the operator command's check that the amount
  is positive.
- `ledger.dfy` (`Ledger`): any interleaving of spends, sweeps and resets.
  Proves that each total is the sum of the ledger entries logged since that
  total's own last reset.

Facts about the code that the model keeps as written:

- The spend service itself does not check that the amount is positive
  (`campaigns/services.py:37-69`). Only the operator command does
  (`campaigns/management/commands/log_spend.py:20`). So `Services.LogSpend`
  takes any amount, and `Commands.LogSpendCommand` adds the check.
- The sweep and reset jobs have no per-campaign error handling
  (`campaigns/tasks.py:22-39`, `campaigns/services.py:24-34`). Store
  failures are not modelled (see below), so no failure can stop them here.
- Spend totals are not guaranteed to be non-negative, because neither the
  store nor the spend service forbids negative amounts.
- The spend logger pauses only when a total strictly exceeds its limit
  (`campaigns/services.py:61-63`). The sweep's budget check pauses at or
  over the limit (`campaigns/services.py:17-18`). Both are kept as written.

## Model

| member | source | states |
|---|---|---|
| `Models.CreateCampaign` | campaigns/models.py:14-23 | A new campaign for an existing brand is active, has daily and monthly totals of 0 and no schedule. Other campaigns, brands and the ledger are unchanged. A missing brand is refused and the store is left unchanged. |
| `Models.AttachSchedule` | campaigns/models.py:38-43 | A campaign gets at most one schedule. Attaching a second schedule, or attaching one to a missing campaign, fails and leaves the store unchanged. Otherwise only that campaign's schedule changes. Any non-negative hours are accepted. |
| `Models.Valid` | campaigns/models.py:14-41 | Every campaign's brand exists and every ledger entry's campaign exists (the required foreign keys). So every ledger entry leads, through its campaign, to a brand and its limits. |
| `Services.IsWithinDayparting` | campaigns/services.py:7-11 | Without a schedule the check is true. With a schedule it is true iff the hour lies in the integer interval `[start_hour, end_hour)`. |
| `Services.OutOfDayHours` | campaigns/models.py:42-43 | Schedule hours of 24 or more, which the column accepts, do no harm. An end of 24 or more behaves exactly like 24, and a start of 24 or more never opens the window. |
| `Services.AttachedScheduleGovernsDayparting` | campaigns/services.py:7-11 | Once a schedule is attached, the dayparting check is true iff `start <= hour < end`, and attaching a second schedule is refused with the store unchanged. |
| `Services.AllowedHoursCount` | campaigns/services.py:7-11 | Counts the hours of a day at which the check is true. The count is 24 without a schedule. With a schedule it is the size of `[start, min(end, 24))`, so 0 when `end <= start`. |
| `Services.NoScheduleAlwaysWithin` | campaigns/services.py:8-9 | A campaign without a schedule is within dayparting at every hour 0..23. |
| `Services.InvertedWindowNeverWithin` | campaigns/services.py:11 | A window with `end_hour <= start_hour` is closed at every hour, because wrap-around is not supported. |
| `Services.EnforceBudget` | campaigns/services.py:14-21 | The campaign is active afterwards iff it was active and both totals are strictly under their limits. The check is inclusive, so a total equal to its limit pauses. Only the active flag can change, and never to true. |
| `Services.EnforceBudgetIdempotent` | campaigns/services.py:14-21 | Applying the budget check twice gives the same campaign as applying it once. |
| `Services.ResetDailyBudgets` | campaigns/services.py:24-28 | Every campaign ends with a daily total of 0 and active, whatever paused it. Its monthly total, brand and schedule are kept. The campaign set, brands and ledger are unchanged, and foreign keys stay valid. |
| `Services.ResetMonthlyBudgets` | campaigns/services.py:31-34 | Every campaign ends with a monthly total of 0. Its daily total, active flag, brand and schedule are kept. Brands and the ledger are unchanged. |
| `Services.ResetDailyIdempotent` | campaigns/services.py:24-28 | Running the daily reset twice gives the same store as running it once. |
| `Services.ResetMonthlyIdempotent` | campaigns/services.py:31-34 | Running the monthly reset twice gives the same store as running it once. |
| `Services.ResetsCommute` | campaigns/services.py:24-34 | The daily and monthly resets give the same store in either order. |
| `Services.LogSpend` | campaigns/services.py:37-69 | A missing campaign fails with not-found, and a paused one fails with inactive. In both cases the store is unchanged. Otherwise the ledger gains exactly the entry (id, amount), and both totals rise by exactly the amount. The campaign stays active iff both new totals are at most their limits (the check is strict). Brand and schedule are kept, and no other campaign or brand changes. |
| `Services.LogSpendLedger` | campaigns/services.py:53-54 | A successful spend adds exactly one entry, with the amount, to that campaign's ledger. Its ledger sum rises by the amount. Other campaigns' ledgers are unchanged. |
| `Services.LogSpendThenEnforce` | campaigns/services.py:14-65 | If a spend leaves its campaign active, the sweep's budget check pauses it iff a new total equals its limit exactly. This is the gap between the strict and the inclusive checks. |
| `Services.SpendToExactLimitStaysActive` | campaigns/services.py:14-65 | Example: with a daily limit of 50.00 and 10.00 spent, a spend of 40.00 keeps the campaign active, and the budget check then pauses it. |
| `Services.ResetDailyAdmitsSpend` | campaigns/services.py:24-51 | After a daily reset, a spend on any existing campaign is accepted. |
| `Services.NewCampaignAcceptsSpend` | campaigns/models.py:14-23 | A new campaign is within dayparting at every hour. Its first spend is accepted and becomes both of its totals. |
| `Tasks.SweepCampaign` | campaigns/tasks.py:25-29 | For one campaign: it is active afterwards iff it was active, is inside its window, and both totals are strictly under their limits. Only the active flag changes. |
| `Tasks.EnforceCampaignStatus` | campaigns/tasks.py:22-29 | Over all campaigns: the active-flag rule above holds for each. Brands, the ledger, the campaign set and all other columns are unchanged, and foreign keys stay valid. |
| `Tasks.EnforceCampaignStatusLoop` | campaigns/tasks.py:22-29 | The row-by-row loop, in any order that covers every campaign (repeats allowed), gives exactly the same store as the whole-store sweep. |
| `Tasks.SweepPausesOutsideWindow` | campaigns/tasks.py:27-29 | A campaign outside its window is paused by the sweep, even when it is under budget. |
| `Tasks.SweepInsideWindowIsBudgetCheck` | campaigns/tasks.py:25-26 | A campaign inside its window comes out of the sweep exactly as the budget check leaves it. |
| `Tasks.SweepIdempotent` | campaigns/tasks.py:22-29 | A second sweep at the same hour changes nothing. |
| `Tasks.ResetThenSweep` | campaigns/tasks.py:22-34 | Take a daily reset followed by a sweep at some hour. A campaign is active afterwards iff it is inside its window, its brand's daily limit is positive, and its monthly total is under its limit. |
| `Tasks.ResetDaily` | campaigns/tasks.py:32-34 | The daily job has exactly the effect of the daily reset: every daily total is 0 and every campaign is active. |
| `Tasks.ResetMonthly` | campaigns/tasks.py:37-39 | The monthly job has exactly the effect of the monthly reset: every monthly total is 0. |
| `Commands.LogSpendCommand` | campaigns/management/commands/log_spend.py:18-28 | A non-positive amount is refused before the transaction, and the store is left unchanged. A positive amount is passed to the spend logger. Every refusal leaves the store unchanged. Every accepted amount of at least one cent strictly raises both totals of the campaign. |
| `Ledger.Apply` | campaigns/tasks.py:21-39 | Serving one event (a spend, a sweep, a daily or a monthly reset) keeps foreign keys valid, never adds or removes campaigns or changes brands, and only appends to the ledger. |
| `Ledger.Run` | budget_management/celery.py:12-27 | Any interleaving of spends and the three periodic jobs keeps foreign keys valid, never adds or removes campaigns or changes brands, and only appends to the ledger. |
| `Ledger.ApplyMatchesLedger` | campaigns/services.py:53-58 | One event raises a total by exactly the sum of the ledger entries it appends for the campaign, unless the event is that total's own reset. |
| `Ledger.RunMatchesDailyLedger` | campaigns/services.py:53-58 | Over any run with no daily reset, including sweeps and monthly resets, each campaign's daily total rises by exactly the sum of the ledger entries appended for it. |
| `Ledger.RunMatchesMonthlyLedger` | campaigns/services.py:53-58 | Over any run with no monthly reset, including sweeps and daily resets, each campaign's monthly total rises by exactly the sum of the ledger entries appended for it. |
| `Ledger.DailyTotalIsLedgerSinceReset` | campaigns/services.py:24-58 | After a daily reset and until the next one, whatever sweeps and monthly resets run, a campaign's daily total equals the sum of its ledger entries since the reset. |
| `Ledger.MonthlyTotalIsLedgerSinceReset` | campaigns/services.py:31-58 | After a monthly reset and until the next one, whatever sweeps and daily resets run, a campaign's monthly total equals the sum of its ledger entries since the reset. |

## Left out

- Concurrency and row locking: the transaction and `select_for_update` in
  `log_spend` are modelled as one atomic step. It either commits entirely or
  leaves the store unchanged.
- Lost updates: the sweep and the resets save whole rows read at the start of
  the job. A concurrent spend could therefore be overwritten. This is not
  modelled, because the model has no interleaving.
- Store failures during a transaction, and the 12-digit limit of the decimal
  columns: a total that outgrows that limit would make the save fail, and
  this is not modelled.
- Amounts with more than two decimal places: the store rounds them when it
  saves. The model takes amounts already in cents.
- Commands.LogSpendCommand: its promise that an accepted spend strictly
  raises both totals holds only for amounts of at least one cent. The
  command also accepts a positive amount below one cent, such as 0.001
  (`campaigns/management/commands/log_spend.py:19-20`). The spend logger
  adds it to the totals in memory (`campaigns/services.py:57-58`) and runs
  its budget test on those unrounded totals (`campaigns/services.py:61-63`).
  The saved totals are then rounded back, so they do not rise. A campaign
  sitting exactly at its limit is paused by such a spend while its stored
  total stays at the limit. The model has no sub-cent amounts, so this case
  is not represented.
- Ledger timestamps, and the names of brands and campaigns: they carry no
  logic.
- The scheduler configuration (`budget_management/celery.py`): it fires the
  sweep every 5 minutes, the daily reset at midnight, and the monthly reset
  at midnight on the 1st. It is plumbing, and here the jobs are called
  directly.
- The admin registration (`campaigns/admin.py`): it is UI with no logic.
- The operator command's argument parsing and decimal-string parsing: only
  its positive-amount check is modelled.
- Cascading deletes of brands and campaigns: no operation of the engine
  deletes anything.
