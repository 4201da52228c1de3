# Finance management: a Dafny model of the services

This project models the service layer of a personal finance application, a
Spring Boot back end. Users record expenses and incomes, group expenses into
their own sub-categories of seven fixed categories, and read statistics over
what they recorded. The modelled services are:

- **Statistics** (`stats_service.dfy`, with generic grouping in `aggregation.dfy`):
  - per-month and per-day sums and counts;
  - minimum and maximum year;
  - category breakdown;
  - month-on-month and year-on-year comparison;
  - monthly savings rate (rounded HALF_UP);
  - grand totals.
- **Recurring-expense job** (`expense_cron_jobs.dfy`): materialises the next
  occurrence of each recurring expense and moves the original forward. The
  date arithmetic is in `dates.dfy` and follows `plusWeeks`/`plusMonths`/`plusYears`,
  including the day clamped at the month's end.
- **Per-address request limiter** (`rate_limit_service.dfy`).
- **Expense, income and expense sub-category endpoints** (`expense_service.dfy`,
  `income_service.dfy`, `expense_subcategory_service.dfy`): create, list,
  partially edit and delete, with ownership checks and HTTP statuses.
- **Exchange-rate import and listing** (`currency_service.dfy`).

Repositories are modelled in `repositories.dfy` as a `Table` class. It holds
rows in repository order, each with an identifier, and the next identity value.
Its `Insert`, `Update` and `Delete` methods update the table in place and keep
the identifiers unique. Entities and responses are datatypes (`ledger.dfy`).

`BigDecimal` amounts are `real`. A response is a status with an optional body.
The repository failures that the code catches are boolean inputs of the model:
a save or delete that throws, and a lookup inside a `try` block that throws.
So each caught error path is a branch of the model rather than a
precondition.

## Model

| member | source | states |
|---|---|---|
| Ledger.DisplayName | src/main/java/org/balaur/financemanagement/utils/expense/ExpenseCategory.java:7-19 | every category carries a non-empty, capitalised display name, one per enum constant |
| Ledger.DisplayNameInjective | src/main/java/org/balaur/financemanagement/utils/expense/ExpenseCategory.java:7-15 | distinct categories have distinct display names |
| Repositories.FindByIdSpec | src/main/java/org/balaur/financemanagement/service/expense/ExpenseService.java:66-67 | with unique identifiers, `findById` finds a row exactly when one has that identifier, and returns that row's entity |
| Repositories.FindByIdAppend | src/main/java/org/balaur/financemanagement/service/expense/ExpenseService.java:49-50 | appending a row with a fresh identifier keeps identifiers unique; only the new identifier's lookup changes |
| Repositories.FindByIdReplace | src/main/java/org/balaur/financemanagement/service/expense/ExpenseService.java:98 | replacing a row in place changes the lookup of that identifier only |
| Repositories.FindByIdRemove | src/main/java/org/balaur/financemanagement/service/expense/ExpenseService.java:75 | removing a row makes its identifier absent and leaves every other lookup alone |
| Repositories.DeleteUndoesInsert | src/main/java/org/balaur/financemanagement/service/expense/ExpenseService.java:75 | deleting the row just inserted under a fresh identifier gives back the previous rows |
| Repositories.Table.Insert | src/main/java/org/balaur/financemanagement/service/expense/ExpenseService.java:49-50 | saving a new entity appends it under the next identity value, which then advances; other lookups unchanged |
| Repositories.Table.Update | src/main/java/org/balaur/financemanagement/service/expense/ExpenseService.java:98 | saving an existing entity replaces its row in place; identity counter and other lookups unchanged |
| Repositories.Table.Delete | src/main/java/org/balaur/financemanagement/service/expense/ExpenseService.java:75 | deleting removes exactly that row; its identifier is no longer found, other lookups unchanged |
| Aggregation.Where | src/main/java/org/balaur/financemanagement/repository/ExpenseStatsRepository.java:11-15 | a query returns only rows of the table that satisfy its condition, no more rows than the table, and every row that satisfies it |
| Aggregation.SumByKey | src/main/java/org/balaur/financemanagement/service/StatsService.java:57-61 | the loop's map holds, for each key that occurs, the sum of the amounts with that key, and no other key |
| Aggregation.SumAndCountByKey | src/main/java/org/balaur/financemanagement/service/StatsService.java:171-189 | the loop's two maps hold per key the sum and the number of records, with the same key set |
| Aggregation.SumValuesAccumulate | src/main/java/org/balaur/financemanagement/service/StatsService.java:57-61 | adding an amount into a bucket raises the sum of all buckets by that amount |
| Aggregation.BucketOfWhere | src/main/java/org/balaur/financemanagement/service/StatsService.java:88-90 | the bucket of a key in a wide query equals the total and count of the narrower query that also fixes the key |
| Dates.PlusWeek | src/main/java/org/balaur/financemanagement/service/expense/ExpenseCronJobs.java:67 | one week later is seven days later and strictly after the date |
| Dates.PlusMonth | src/main/java/org/balaur/financemanagement/service/expense/ExpenseCronJobs.java:68 | the next calendar month, the day clamped to that month's length, strictly after the date |
| Dates.PlusYear | src/main/java/org/balaur/financemanagement/service/expense/ExpenseCronJobs.java:69 | the same month of the next year, the day clamped (29 February to 28 February), strictly after the date |
| Dates.MonthEndClamping | src/main/java/org/balaur/financemanagement/service/expense/ExpenseCronJobs.java:67-69 | 31 January plus a month is 29 or 28 February; 29 February 2024 plus a year is 28 February 2025; a week crosses the year end |
| StatsService.IsIncomes | src/main/java/org/balaur/financemanagement/service/StatsService.java:40-44 | only a seven-letter word can select incomes, and "incomes", "INCOMES" and "Incomes" all do |
| StatsService.IsIncomesOnAscii | src/main/java/org/balaur/financemanagement/service/StatsService.java:40-44 | on ASCII input the type test is a case-insensitive comparison with "incomes" |
| StatsService.IsIncomesExamples | src/main/java/org/balaur/financemanagement/service/StatsService.java:40-44 | any case of "incomes" selects incomes, including the dotted capital I and long s that `equalsIgnoreCase` accepts; anything else selects expenses |
| StatsService.Records | src/main/java/org/balaur/financemanagement/service/StatsService.java:92-94 | the records returned are the income rows or the expense rows of the chosen type, one per row, in order |
| StatsService.MonthlyTotals | src/main/java/org/balaur/financemanagement/service/StatsService.java:57-61 | the monthly map is the grouped sum per month and the yearly total is the sum of all amounts |
| StatsService.StatsByYearType | src/main/java/org/balaur/financemanagement/service/StatsService.java:35-70 | a lookup failure is a 500; otherwise the year's records of the type, their per-month sums and a yearly total equal to the sum of the month sums |
| StatsService.StatsByMonthType | src/main/java/org/balaur/financemanagement/service/StatsService.java:72-102 | 500 on a lookup failure; otherwise the month query's records of the type, and a total and record count equal to that month's bucket of the yearly statistics |
| StatsService.MonthOfYearBucket | src/main/java/org/balaur/financemanagement/repository/ExpenseStatsRepository.java:11-15 | the month query returns exactly that month's bucket of the year query, for expenses and incomes |
| StatsService.MinYearOf | src/main/java/org/balaur/financemanagement/repository/ExpenseStatsRepository.java:17-18 | `MIN(YEAR(date))` is absent exactly for no records, is some record's year and no record's year is smaller |
| StatsService.MaxYearOf | src/main/java/org/balaur/financemanagement/repository/ExpenseStatsRepository.java:20-21 | `MAX(YEAR(date))` is absent exactly for no records, is some record's year and no record's year is larger |
| StatsService.MinYear | src/main/java/org/balaur/financemanagement/service/StatsService.java:104-126 | 500 on a lookup failure, 204 when the user has no record of the type, else the earliest year among them |
| StatsService.MaxYear | src/main/java/org/balaur/financemanagement/service/StatsService.java:128-148 | 500 on a lookup failure, 204 when the user has no record of the type, else the latest year among them |
| StatsService.YearQueriesStayInYear | src/main/java/org/balaur/financemanagement/service/StatsService.java:156-157 | every record a year query returns is dated in that year |
| StatsService.ScanMonths | src/main/java/org/balaur/financemanagement/service/StatsService.java:171-189 | the loop's per-month sums and counts are the grouped ones, and its running minimum and maximum year are those passed in, extended by each record's year in turn |
| StatsService.ExtremesSnoc | src/main/java/org/balaur/financemanagement/service/StatsService.java:173-174 | one more record extends the running minimum and maximum year by its own year |
| StatsService.FoldExtremes | src/main/java/org/balaur/financemanagement/service/StatsService.java:171-189 | carrying the extremes of the expenses into the income loop yields the minimum and maximum year of both lists together |
| StatsService.OneYearExtremes | src/main/java/org/balaur/financemanagement/service/StatsService.java:171-189 | records all from one year have that year as minimum and maximum, and none when there are none |
| StatsService.StatsByYear | src/main/java/org/balaur/financemanagement/service/StatsService.java:150-201 | 500 on a lookup failure; otherwise per-month sums and counts of the year's expenses and incomes, and minimum and maximum year absent exactly when both lists are empty, otherwise the year asked for |
| StatsService.StatsByYearAndMonth | src/main/java/org/balaur/financemanagement/service/StatsService.java:203-241 | as written: per-day sums and counts over the whole year's records, whatever the month asked for |
| StatsService.DayBucketsMixMonths | src/main/java/org/balaur/financemanagement/service/StatsService.java:209-210 | two expenses on the same day of January and February both fall into the day bucket returned for February, while the February query holds only one |
| StatsService.JanuaryAndFebruaryQueries | src/main/java/org/balaur/financemanagement/repository/ExpenseStatsRepository.java:11-15 | the year query returns both of those expenses, the February query only the second |
| StatsService.StatsByMonthDays | src/main/java/org/balaur/financemanagement/service/StatsService.java:203-241 | corrected: per-day sums and counts of the month's records only |
| StatsService.MonthDayBucketIsThatDay | src/main/java/org/balaur/financemanagement/service/StatsService.java:221-231 | a day bucket of the corrected summary holds exactly the records of that calendar day |
| StatsService.CategoryBreakdown | src/main/java/org/balaur/financemanagement/service/StatsService.java:243-275 | the year's expenses summed per category display name and incomes per source; every expense key is a category's display name |
| StatsService.Comparison | src/main/java/org/balaur/financemanagement/service/StatsService.java:309-381 | as written: this month's and the "previous" month's totals, both within `year`, so January's previous month is December of the same year; year and previous-year totals |
| StatsService.PreviousMonth | src/main/java/org/balaur/financemanagement/service/StatsService.java:324-325 | corrected: the calendar month exactly one month before, January stepping back into December of the previous year |
| StatsService.ComparisonCorrected | src/main/java/org/balaur/financemanagement/service/StatsService.java:309-381 | corrected: the previous-month totals come from the calendar month before, in the previous year for January |
| StatsService.JanuaryPreviousMonth | src/main/java/org/balaur/financemanagement/service/StatsService.java:324-325 | with one expense in December 2023, January 2024's previous month reports 0 as written and the expense's amount when corrected |
| StatsService.HalfUp | src/main/java/org/balaur/financemanagement/service/StatsService.java:413-414 | rounding to the nearest integer, halves away from zero |
| StatsService.SavingsRate | src/main/java/org/balaur/financemanagement/service/StatsService.java:410-419 | 0 without income, otherwise the rounded percentage of income saved |
| StatsService.SavingsRateBounds | src/main/java/org/balaur/financemanagement/service/StatsService.java:413-418 | the rate is within half a point of the exact percentage, non-negative when spending is within income, and negative only once spending reaches 1.005 times income |
| StatsService.SavingsRateExamples | src/main/java/org/balaur/financemanagement/service/StatsService.java:413-418 | 1000/600 gives 40; 8/7 gives 13; 8/9 gives -13; 1000/1000.1 gives 0; no income gives 0 |
| StatsService.MonthlyRates | src/main/java/org/balaur/financemanagement/service/StatsService.java:410-419 | a rate for each month 1 to 12 and no other key, missing months counting as zero |
| StatsService.SavingsRateData | src/main/java/org/balaur/financemanagement/service/StatsService.java:383-426 | 500 on a lookup failure; otherwise each month's rate is computed from that month's income and expense sums |
| StatsService.GrandTotals | src/main/java/org/balaur/financemanagement/service/StatsService.java:428-452 | 500 on a lookup failure; total incomes and total expenses are the sums over all the user's records, the balance is their difference, all zero for a user with no records |
| StatsService.GrandTotalsAfterExpense | src/main/java/org/balaur/financemanagement/service/StatsService.java:441-443 | one more expense of the user raises total expenses and lowers the balance by its amount; another user's expense changes nothing |
| StatsService.GrandTotalsAfterIncome | src/main/java/org/balaur/financemanagement/service/StatsService.java:441-443 | one more income of the user raises total incomes and the balance by its amount; another user's income changes nothing |
| ExpenseCronJobs.NextOccurrence | src/main/java/org/balaur/financemanagement/service/expense/ExpenseCronJobs.java:65-72 | defined exactly for WEEKLY, MONTHLY and YEARLY; always strictly later; one week, one calendar month or one year on |
| ExpenseCronJobs.CopyAt | src/main/java/org/balaur/financemanagement/service/expense/ExpenseCronJobs.java:53-63 | the new expense is dated at the occurrence and keeps the original's owner, description, amount, sub-category, recurring flag and period |
| ExpenseCronJobs.CopyMatchesAdvancedOriginal | src/main/java/org/balaur/financemanagement/service/expense/ExpenseCronJobs.java:53-63 | the copy is the original with the new date: same owner, description, amount, sub-category, recurrence |
| ExpenseCronJobs.Due | src/main/java/org/balaur/financemanagement/service/expense/ExpenseCronJobs.java:26-38 | no occurrence for a non-recurring expense or one without a period; an occurrence it gives is the period's next occurrence, strictly before now and strictly after the expense's date |
| ExpenseCronJobs.DueExactlyWhenPassed | src/main/java/org/balaur/financemanagement/service/expense/ExpenseCronJobs.java:28-38 | the guard against an occurrence before the expense's date never fires; an expense is processed exactly when its next occurrence is strictly before now |
| ExpenseCronJobs.NotDueAtNow | src/main/java/org/balaur/financemanagement/service/expense/ExpenseCronJobs.java:32-34 | an occurrence falling exactly at now is not materialised |
| ExpenseCronJobs.DueAgain | src/main/java/org/balaur/financemanagement/service/expense/ExpenseCronJobs.java:25-50 | after processing, the expense is due again at the same now exactly when the following occurrence has passed too |
| ExpenseCronJobs.SecondRunGeneratesAgain | src/main/java/org/balaur/financemanagement/service/expense/ExpenseCronJobs.java:25-50 | the job is not idempotent: a weekly expense from 1 January, run on 20 January, is copied for 8 January and, on a second run, for 15 January |
| ExpenseCronJobs.SecondsDecideDue | src/main/java/org/balaur/financemanagement/service/expense/ExpenseCronJobs.java:32-34 | the due test compares times of day to the nanosecond: an occurrence fifteen seconds before now is due, one exactly at now is not |
| ExpenseCronJobs.Advanced | src/main/java/org/balaur/financemanagement/service/expense/ExpenseCronJobs.java:45-46 | one row per row, each advanced to its next occurrence when processed and both saves succeed, else unchanged |
| ExpenseCronJobs.Copies | src/main/java/org/balaur/financemanagement/service/expense/ExpenseCronJobs.java:40-43 | the saved copies take consecutive fresh identifiers, at most one per expense, each recurring with a period |
| ExpenseCronJobs.CopiesCoverCopiedRows | src/main/java/org/balaur/financemanagement/service/expense/ExpenseCronJobs.java:40-43 | every due expense whose copy saves has a copy at its next occurrence |
| ExpenseCronJobs.CopiesComeFromCopiedRows | src/main/java/org/balaur/financemanagement/service/expense/ExpenseCronJobs.java:40-43 | every copy is the copy of a due expense whose copy save succeeded |
| ExpenseCronJobs.ProgressDone | src/main/java/org/balaur/financemanagement/service/expense/ExpenseCronJobs.java:25-50 | after the last item the table is the advanced originals followed by the copies |
| ExpenseCronJobs.ProcessRecurringExpenses | src/main/java/org/balaur/financemanagement/service/expense/ExpenseCronJobs.java:19-51 | a recurring expense without a period rolls the rows back, and only then, while the identity counter never goes back; otherwise the table becomes the advanced originals followed by their copies, and the counter advances by the number of copies |
| RateLimitService.Increment | src/main/java/org/balaur/financemanagement/service/RateLimitService.java:18-20 | one request raises that address's count by one and leaves every other count alone |
| RateLimitService.CountAfterIncrements | src/main/java/org/balaur/financemanagement/service/RateLimitService.java:18-20 | n requests raise that address's count by exactly n and leave every other count alone |
| RateLimitService.LimitedFromTheFifthRequest | src/main/java/org/balaur/financemanagement/service/RateLimitService.java:11-16 | after a reset an address is limited exactly once it has made five requests |
| RateLimitService.IncrementIsMonotonic | src/main/java/org/balaur/financemanagement/service/RateLimitService.java:18-20 | a request never lowers any count |
| RateLimitService.CountsExceedTheLimit | src/main/java/org/balaur/financemanagement/service/RateLimitService.java:18-20 | the increment does not consult the limit: seven requests count seven |
| RateLimitService.RecordedIffCounted | src/main/java/org/balaur/financemanagement/service/RateLimitService.java:13-20 | while every stored count is positive, an address is in the map exactly when it has made a request since the reset |
| RateLimitService.IncrementKeepsCountsPositive | src/main/java/org/balaur/financemanagement/service/RateLimitService.java:18-20 | a request keeps every stored count positive |
| RateLimitService.RateLimiter.constructor | src/main/java/org/balaur/financemanagement/service/RateLimitService.java:10 | a limiter starts with no counts |
| RateLimitService.RateLimiter.IsRateLimitRequest | src/main/java/org/balaur/financemanagement/service/RateLimitService.java:13-16 | limited exactly when the address's count, 0 if unseen, has reached five |
| RateLimitService.RateLimiter.IncrementRequestCount | src/main/java/org/balaur/financemanagement/service/RateLimitService.java:18-20 | the counts become those after one more request by the address |
| RateLimitService.RateLimiter.ResetDailyLimits | src/main/java/org/balaur/financemanagement/service/RateLimitService.java:22-24 | all counts are forgotten and no address is limited |
| ExpenseService.BuildExpenseResponse | src/main/java/org/balaur/financemanagement/service/expense/ExpenseService.java:136-146 | the response carries no identifier, no username and no sub-category identifier |
| ExpenseService.ResponseDeterminesShownFields | src/main/java/org/balaur/financemanagement/service/expense/ExpenseService.java:136-146 | equal responses come from expenses with equal description, amount, date, recurrence, category and sub-category name |
| ExpenseService.ListResponses | src/main/java/org/balaur/financemanagement/service/expense/ExpenseService.java:158-169 | 200 with one entry per expense, in order, each with its owner's username |
| ExpenseService.FindAllExpenses | src/main/java/org/balaur/financemanagement/service/expense/ExpenseService.java:148-151 | one entry per stored expense, in repository order |
| ExpenseService.FindAllRecurringExpenses | src/main/java/org/balaur/financemanagement/service/expense/ExpenseService.java:153-156 | exactly the recurring expenses: every entry is recurring and every recurring expense is listed |
| ExpenseService.AddExpense | src/main/java/org/balaur/financemanagement/service/expense/ExpenseService.java:32-60 | 400 unless the sub-category exists and is the caller's; 500 and no change when the save fails; else 201 and the new expense appended under the next identifier |
| ExpenseService.DeleteExpense | src/main/java/org/balaur/financemanagement/service/expense/ExpenseService.java:62-83 | 500 when the lookup throws or the identifier is unknown, 403 for another user's expense, 500 when the delete fails, all leaving the table unchanged; else 200 with the message and the expense gone, nothing else changed |
| ExpenseService.PatchedExpense | src/main/java/org/balaur/financemanagement/service/expense/ExpenseService.java:112-134 | the owner never changes; each given field overwrites and each absent one keeps; a sub-category identifier that resolves takes that sub-category, one that does not keeps the old one |
| ExpenseService.EmptyEditKeepsExpense | src/main/java/org/balaur/financemanagement/service/expense/ExpenseService.java:112-134 | an edit with no field changes nothing |
| ExpenseService.EditIsIdempotent | src/main/java/org/balaur/financemanagement/service/expense/ExpenseService.java:112-134 | applying the same edit twice is applying it once |
| ExpenseService.EditChecksNeitherPeriodNorSubCategoryOwner | src/main/java/org/balaur/financemanagement/service/expense/ExpenseService.java:119-133 | an edit can attach another user's sub-category and keep a period on a non-recurring expense |
| ExpenseService.UpdateExpenseFields | src/main/java/org/balaur/financemanagement/service/expense/ExpenseService.java:112-134 | the sequence of setters yields the patched expense |
| ExpenseService.EditExpense | src/main/java/org/balaur/financemanagement/service/expense/ExpenseService.java:85-110 | 500 when the lookup throws, 404 for an unknown identifier, 403 for another user's, 500 when the sub-category lookup throws or the save fails, all leaving the table unchanged; else 200 with the patched expense stored in place, nothing else changed |
| IncomeService.BuildIncomeResponse | src/main/java/org/balaur/financemanagement/service/income/IncomeService.java:54-64 | the response carries the row's identifier and no username |
| IncomeService.ResponsesOfRowsDiffer | src/main/java/org/balaur/financemanagement/service/income/IncomeService.java:54-64 | rows with different identifiers give different responses |
| IncomeService.ListResponses | src/main/java/org/balaur/financemanagement/service/income/IncomeService.java:41-52 | 200 with one entry per income, in order, each with its owner's username |
| IncomeService.FindAllIncomes | src/main/java/org/balaur/financemanagement/service/income/IncomeService.java:31-34 | one entry per stored income, in repository order |
| IncomeService.FindAllRecurringIncomes | src/main/java/org/balaur/financemanagement/service/income/IncomeService.java:36-39 | exactly the recurring incomes: every entry is recurring and every recurring income is listed |
| IncomeService.AddIncome | src/main/java/org/balaur/financemanagement/service/income/IncomeService.java:66-89 | 500 and no change when the save fails; else 201 and the new income appended under the next identifier |
| IncomeService.DeleteIncome | src/main/java/org/balaur/financemanagement/service/income/IncomeService.java:92-113 | 500 when the lookup throws or the identifier is unknown, 403 for another user's income, 500 when the delete fails, all leaving the table unchanged; else 200 with the message and the income gone |
| IncomeService.PatchedIncome | src/main/java/org/balaur/financemanagement/service/income/IncomeService.java:143-171 | the owner never changes; each given field overwrites and each absent one keeps; an edit making the income non-recurring clears its period, otherwise the period stays unless one is given |
| IncomeService.EmptyEditKeepsIncome | src/main/java/org/balaur/financemanagement/service/income/IncomeService.java:143-171 | an edit with no field changes nothing |
| IncomeService.EditIsIdempotent | src/main/java/org/balaur/financemanagement/service/income/IncomeService.java:143-171 | applying the same edit twice is applying it once |
| IncomeService.EditedNonRecurringHasNoNewPeriod | src/main/java/org/balaur/financemanagement/service/income/IncomeService.java:160-170 | an edit that sets the recurring flag leaves a non-recurring income without a period |
| IncomeService.PeriodClearedEvenWhenGiven | src/main/java/org/balaur/financemanagement/service/income/IncomeService.java:164-170 | a period given together with "not recurring" is discarded |
| IncomeService.UpdateIncomeFields | src/main/java/org/balaur/financemanagement/service/income/IncomeService.java:143-171 | the sequence of setters, with the final clearing, yields the patched income |
| IncomeService.EditIncome | src/main/java/org/balaur/financemanagement/service/income/IncomeService.java:115-141 | 500 when the lookup throws, 404 for an unknown identifier, 403 for another user's, 500 when the save fails, all leaving the table unchanged; else 200 with the patched income stored and the caller's username |
| ExpenseSubCategoryService.ResponseOf | src/main/java/org/balaur/financemanagement/service/expense/ExpenseSubCategoryService.java:60-65 | the response carries the row's identifier and the caller's username |
| ExpenseSubCategoryService.ResponseDeterminesCategory | src/main/java/org/balaur/financemanagement/service/expense/ExpenseSubCategoryService.java:64 | equal category names in responses mean equal categories |
| ExpenseSubCategoryService.CreateSubCategory | src/main/java/org/balaur/financemanagement/service/expense/ExpenseSubCategoryService.java:27-50 | 500 and no change when the save fails; else 201 and one sub-category owned by the caller appended, named by its category's display name |
| ExpenseSubCategoryService.GetUserSubCategories | src/main/java/org/balaur/financemanagement/service/expense/ExpenseSubCategoryService.java:52-75 | 500 on a lookup failure; else one response per sub-category of the caller, in order, and none for another user's |
| CurrencyService.CurrencyName | src/main/java/org/balaur/financemanagement/service/currency/CurrencyService.java:58-224 | a listed code gets its entry of the 162-entry table, any other code "Unknown Currency", as `getOrDefault` gives |
| CurrencyService.EuroName | src/main/java/org/balaur/financemanagement/service/currency/CurrencyService.java:103 | EUR is named "Euro" |
| CurrencyService.UnlistedCodeName | src/main/java/org/balaur/financemanagement/service/currency/CurrencyService.java:223 | an unlisted code is named "Unknown Currency" |
| CurrencyService.IndexOfCode | src/main/java/org/balaur/financemanagement/service/currency/CurrencyService.java:46-47 | `findByCode` finds a row holding the code, and none exactly when no row holds it |
| CurrencyService.UpsertFrame | src/main/java/org/balaur/financemanagement/service/currency/CurrencyService.java:46-53 | an upsert keeps identifiers and positions, changes only the row with the code or appends one, and keeps codes unique |
| CurrencyService.UpsertAllStoresEveryRate | src/main/java/org/balaur/financemanagement/service/currency/CurrencyService.java:41-54 | after the loop, every fetched code has a row with its rate, its name and the document's time, and codes stay unique |
| CurrencyService.UpsertAllKeepsOtherRows | src/main/java/org/balaur/financemanagement/service/currency/CurrencyService.java:41-54 | rows of codes not fetched are untouched, identifiers kept, and every added row holds a fetched rate |
| CurrencyService.SaveRate | src/main/java/org/balaur/financemanagement/service/currency/CurrencyService.java:46-53 | saving a rate updates the row with its code or inserts a new one |
| CurrencyService.FetchAndSaveCurrencies | src/main/java/org/balaur/financemanagement/service/currency/CurrencyService.java:30-56 | no document or no rates changes nothing; otherwise every rate is upserted in turn with the document's time |
| CurrencyService.GetCurrencies | src/main/java/org/balaur/financemanagement/service/currency/CurrencyService.java:226-243 | 200 with one response per stored currency, in repository order |

## Left out

- Authentication, controllers, the mail and user services, and scheduling are not part of this model. The caller is a `User` given as input, and each job is a method called directly.
- The exchange-rate HTTP request is an input, a document or none. The conversion of each rate through `double` and of the epoch timestamp to local time are not modelled: rates are `real` and the time is a given date.
- The currency association of incomes and expenses (`src/main/java/org/balaur/financemanagement/model/income/Income.java:40-42`) and the request's currency code are not modelled, since the modelled services never set or read them.
- Amounts are exact reals. The scale of `BigDecimal` (trailing zeros, `equals` versus `compareTo`) is not modelled.
- A user is identified by its identifier. The ownership tests that compare `User` objects (`src/main/java/org/balaur/financemanagement/service/expense/ExpenseService.java:69`, `:92`, `src/main/java/org/balaur/financemanagement/service/income/IncomeService.java:99`, `:122`) are modelled as identifier equality, i.e. as the persistence context returning one instance per row.
- Row order is repository order. The order a database returns for `findAll`, `findRecurringExpenses` and the statistics queries is not modelled.
- ExpenseCronJobs.ProcessRecurringExpenses: a save that throws inside the transaction marks it rollback-only, and the commit then undoes the whole run. The model keeps the caught failure local to that expense, as the code reads. Dirty checking that would store an advanced date despite a failed save is not modelled either.
- ExpenseCronJobs.ProcessRecurringExpenses: on a rollback the identity counter keeps the identifiers handed out to the discarded copies, as a database identity column does. The contract states only that the counter never goes back; its exact value after a rollback is not stated.
- ExpenseService.AddExpense: the sub-category lookup at `src/main/java/org/balaur/financemanagement/service/expense/ExpenseService.java:35` is outside any `try`. A lookup that throws there ends the request through the framework's error handling, which is not part of this model; so are the uncaught repository failures of the job, the currency import and the listing endpoints.
- ExpenseCronJobs.CopyAt: `setCategory` in `src/main/java/org/balaur/financemanagement/service/expense/ExpenseCronJobs.java:58` has no counterpart among the entity's fields, which have a sub-category (`src/main/java/org/balaur/financemanagement/model/expense/Expense.java:36-38`). The copy is modelled as keeping the sub-category.
- ExpenseSubCategoryService.CreateSubCategory: the request's category is always present in the model. The controller (`src/main/java/org/balaur/financemanagement/controller/expense/ExpenseSubCategoryController.java:20`) does not validate the body, so the `@NotNull` at `src/main/java/org/balaur/financemanagement/request/expense/ExpenseSubCategoryRequest.java:15` is not enforced. A request without a category is then saved, because the column is nullable and the service is not transactional. It then fails with a `NullPointerException` at `src/main/java/org/balaur/financemanagement/service/expense/ExpenseSubCategoryService.java:44`, outside the `try`, so the caller gets a 500 while the row stays stored. Afterwards that user's listing fails inside its `try` and answers 500, which the model expresses only through the `lookupFails` input of `GetUserSubCategories`. A sub-category without a category is not representable, since the stored entity's category is not optional.
- ExpenseService.EditExpense and IncomeService.EditIncome: after a failed save the modified entity is still managed and may be flushed later. The model leaves the table unchanged on a 500.
- StatsService.GrandTotals: `ExpenseStatsRepository` declares no `findByUserId`, yet `src/main/java/org/balaur/financemanagement/service/StatsService.java:434-435` calls it. The model reads it as the user's expenses, like the income query.
- StatsService.IsIncomes: `equalsIgnoreCase` is modelled per character through the Latin letters it folds together with i, n, c, o, m, e and s; other Unicode case pairs do not occur in "incomes".
- CurrencyService.CurrencyName: the 162-entry table is a `match` in `ListedName`. Its entries are stated by the table itself and by the example lemmas `EuroName` and `UnlistedCodeName`; no lemma states facts about all entries at once, such as that no listed name is "Unknown Currency".
- CurrencyService.FetchAndSaveCurrencies: the rates map is a sequence of distinct codes in iteration order. With duplicate stored codes, `findByCode` would throw; the model takes the first one, and it proves that unique codes stay unique.
- RateLimitService.RateLimiter.IncrementRequestCount: the count is an unbounded integer. The 32-bit `Integer` wrap-around after 2^31 - 1 requests is not modelled.
- The concurrent use of the limiter's `HashMap` is not modelled.

## Findings

| source | as written | input that shows it | evidently intended | confidence | as-written member | corrected member |
|---|---|---|---|---|---|---|
| src/main/java/org/balaur/financemanagement/service/StatsService.java:324-325 | the previous month of January is month 12 of the same year | one expense dated 2023-12-15, comparison asked for January 2024: previous month reports 0 | December of the previous year, which reports the expense | not executed | StatsService.Comparison, StatsService.JanuaryPreviousMonth | StatsService.ComparisonCorrected, StatsService.PreviousMonth |
| src/main/java/org/balaur/financemanagement/service/StatsService.java:209-210 | the month parameter is never read; the year's records are bucketed by day of month | expenses on 15 January and 15 February, stats asked for February: day 15 holds both amounts | only the month's records (`findByMonth`), bucketed by day | not executed | StatsService.StatsByYearAndMonth, StatsService.DayBucketsMixMonths | StatsService.StatsByMonthDays, StatsService.MonthDayBucketIsThatDay |

The savings rate rounds the percentage before its sign is known. A small
overspend (income 1000, expenses 1000.1) therefore shows a rate of 0 rather
than a negative one. This is `HALF_UP` working as specified, so it is not
listed as a finding; `SavingsRateBounds` states where the rate turns negative.
