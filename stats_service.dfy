/**
 * The statistics endpoints: read-only summaries of one user's expenses and
 * incomes. The repositories are the expense and income tables, queried by
 * owner and date; a failing repository query is the `lookupFails` flag, and
 * then the answer is a 500 with no body, never a partial summary.
 */
module StatsService {
  import opened Wrappers
  import opened Dates
  import opened Ledger
  import opened Aggregation

  // ----- Repository queries -----

  /** `ExpenseStatsRepository.findByYear(year, userId)`. */
  function ExpensesOfYear(rows: seq<Row<Expense>>, year: int, userId: nat): seq<Row<Expense>> {
    Where(rows, (e: Expense) => e.owner.id == userId && e.date.year == year)
  }

  /** `ExpenseStatsRepository.findByMonth(year, month, userId)`. */
  function ExpensesOfMonth(rows: seq<Row<Expense>>, year: int, month: int, userId: nat): seq<Row<Expense>> {
    Where(rows, (e: Expense) => e.owner.id == userId && e.date.year == year && e.date.month == month)
  }

  /** The user's expenses, whatever their date (what `findMinYear`, `findMaxYear` range over). */
  function ExpensesOf(rows: seq<Row<Expense>>, userId: nat): seq<Row<Expense>> {
    Where(rows, (e: Expense) => e.owner.id == userId)
  }

  /** `IncomeStatsRepository.findByYear(year, userId)`. */
  function IncomesOfYear(rows: seq<Row<Income>>, year: int, userId: nat): seq<Row<Income>> {
    Where(rows, (i: Income) => i.owner.id == userId && i.date.year == year)
  }

  /** `IncomeStatsRepository.findByMonth(year, month, userId)`. */
  function IncomesOfMonth(rows: seq<Row<Income>>, year: int, month: int, userId: nat): seq<Row<Income>> {
    Where(rows, (i: Income) => i.owner.id == userId && i.date.year == year && i.date.month == month)
  }

  /** `IncomeStatsRepository.findByUserId(userId)`. */
  function IncomesOf(rows: seq<Row<Income>>, userId: nat): seq<Row<Income>> {
    Where(rows, (i: Income) => i.owner.id == userId)
  }

  /** An expense as the summaries read it: grouped under its category's display name. */
  function ExpenseEntry(e: Expense): Entry {
    Entry(e.amount, e.date, DisplayName(e.subCategory.value.category))
  }

  /** An income as the summaries read it: grouped under its source. */
  function IncomeEntry(i: Income): Entry {
    Entry(i.amount, i.date, i.source)
  }

  // ----- Choosing the record type -----

  /**
   * Whether `c` equals the lower-case ASCII letter `lower` ignoring case, as
   * `String.equalsIgnoreCase` decides it: through upper case and back to
   * lower case, so dotted and dotless i (U+0130, U+0131) match `i` and the
   * long s (U+017F) matches `s`.
   */
  predicate SameLetterIgnoringCase(c: char, lower: char)
    requires 'a' <= lower <= 'z'
  {
    || c == lower
    || c as int == lower as int - 32
    || (lower == 'i' && (c == '\U{130}' || c == '\U{131}'))
    || (lower == 's' && c == '\U{17F}')
  }

  /** `type.equalsIgnoreCase("incomes")`: which repository a typed endpoint reads. */
  predicate IsIncomes(kind: string): (b: bool)
    ensures b ==> |kind| == 7
    ensures kind == "incomes" || kind == "INCOMES" || kind == "Incomes" ==> b
  {
    |kind| == 7 && forall i :: 0 <= i < 7 ==> SameLetterIgnoringCase(kind[i], "incomes"[i])
  }

  /** ASCII lower-casing, the reference `IsIncomes` is checked against. */
  function AsciiLower(c: char): char {
    if 'A' <= c <= 'Z' then (c as int + 32) as char else c
  }

  /** On ASCII input, `IsIncomes` is "lower-cases to `incomes`"; any other word reads expenses. */
  lemma IsIncomesOnAscii(kind: string)
    requires forall i :: 0 <= i < |kind| ==> kind[i] < 128 as char
    ensures IsIncomes(kind) <==> (|kind| == 7 && forall i :: 0 <= i < 7 ==> AsciiLower(kind[i]) == "incomes"[i])
  {
  }

  lemma IsIncomesExamples()
    ensures IsIncomes("incomes") && IsIncomes("INCOMES") && IsIncomes("Incomes")
    ensures IsIncomes("\U{130}ncomes") && IsIncomes("income\U{17F}")
    ensures !IsIncomes("expenses") && !IsIncomes("income") && !IsIncomes("incomes ")
  {
    assert !SameLetterIgnoringCase('x', 'i');
  }

  // ----- Record conversion -----

  /** `convertToFinancialResponse`: the record list entry of a typed summary. */
  datatype FinancialRecord = ExpenseRecord(expense: ExpenseResponse) | IncomeRecord(income: IncomeResponse)

  function ExpenseRecordOf(r: Row<Expense>): FinancialRecord {
    var e := r.value;
    ExpenseRecord(ExpenseResponse(Some(r.id), Some(e.owner.username), e.description, e.amount,
      DisplayName(e.subCategory.value.category), e.subCategory.value.name, Some(e.subCategory.id),
      e.date, e.recurring, e.recurrencePeriod))
  }

  function IncomeRecordOf(r: Row<Income>): FinancialRecord {
    var i := r.value;
    IncomeRecord(IncomeResponse(Some(r.id), Some(i.owner.username), i.description, i.amount,
      i.source, i.date, i.recurring, i.recurrencePeriod))
  }

  /** The records a typed summary lists, one per row of the chosen query, in its order. */
  function Records(kind: string, expenseRows: seq<Row<Expense>>, incomeRows: seq<Row<Income>>): (r: seq<FinancialRecord>)
    ensures IsIncomes(kind) ==> |r| == |incomeRows| && forall i :: 0 <= i < |r| ==> r[i].IncomeRecord? && r[i].income.id == Some(incomeRows[i].id)
    ensures !IsIncomes(kind) ==> |r| == |expenseRows| && forall i :: 0 <= i < |r| ==> r[i].ExpenseRecord? && r[i].expense.id == Some(expenseRows[i].id)
  {
    if IsIncomes(kind) then seq(|incomeRows|, i requires 0 <= i < |incomeRows| => IncomeRecordOf(incomeRows[i]))
    else seq(|expenseRows|, i requires 0 <= i < |expenseRows| => ExpenseRecordOf(expenseRows[i]))
  }

  /** The records of `year` of the chosen type, as the summaries read them. */
  function YearEntries(kind: string, expenses: seq<Row<Expense>>, incomes: seq<Row<Income>>, user: User, year: int): seq<Entry> {
    if IsIncomes(kind) then Project(IncomesOfYear(incomes, year, user.id), IncomeEntry)
    else Project(ExpensesOfYear(expenses, year, user.id), ExpenseEntry)
  }

  // ----- Summaries -----

  datatype YearlySummary = YearlySummary(records: seq<FinancialRecord>, monthlyTotals: map<int, real>, yearlyTotal: real)

  datatype MonthlySummary = MonthlySummary(records: seq<FinancialRecord>, monthlyTotal: real)

  datatype YearlyFinancialSummary = YearlyFinancialSummary(
    monthlyExpenses: map<int, real>,
    monthlyIncomes: map<int, real>,
    monthlyExpenseTransactions: map<int, int>,
    monthlyIncomeTransactions: map<int, int>,
    minYear: Option<int>,
    maxYear: Option<int>)

  datatype MonthlyFinancialSummary = MonthlyFinancialSummary(
    dailyExpenses: map<int, real>,
    dailyIncomes: map<int, real>,
    dailyExpenseTransactions: map<int, int>,
    dailyIncomeTransactions: map<int, int>)

  datatype CategoryBreakdownSummary = CategoryBreakdownSummary(
    expensesByCategory: map<string, real>,
    incomesBySource: map<string, real>)

  datatype ComparisonSummary = ComparisonSummary(
    currentMonthExpenses: real,
    previousMonthExpenses: real,
    currentMonthIncomes: real,
    previousMonthIncomes: real,
    currentYearExpenses: real,
    previousYearExpenses: real,
    currentYearIncomes: real,
    previousYearIncomes: real)

  datatype SavingsSummary = SavingsSummary(monthlySavingsRate: map<int, real>)

  datatype GrandTotalSummary = GrandTotalSummary(totalIncomes: real, totalExpenses: real, netBalance: real)

  /**
   * The loop of `getStatsByYearType`: each record's amount goes into its
   * month's sum and into the year's total.
   */
  method MonthlyTotals(entries: seq<Entry>) returns (monthlyTotals: map<int, real>, yearlyTotal: real)
    ensures IsGroupedSum(entries, MonthOf, monthlyTotals)
    ensures yearlyTotal == Total(entries)
  {
    monthlyTotals := map[];
    yearlyTotal := 0.0;
    var i := 0;
    while i < |entries|
      invariant 0 <= i <= |entries|
      invariant IsGroupedSum(entries[..i], MonthOf, monthlyTotals)
      invariant yearlyTotal == Total(entries[..i])
    {
      assert entries[..i + 1] == entries[..i] + [entries[i]];
      GroupedSumStep(entries[..i], MonthOf, monthlyTotals, entries[i]);
      SnocTotals(entries[..i], entries[i], MonthOf, 0);
      monthlyTotals := Accumulate(monthlyTotals, MonthOf(entries[i]), entries[i].amount);
      yearlyTotal := yearlyTotal + entries[i].amount;
      i := i + 1;
    }
    assert entries[..|entries|] == entries;
  }

  /**
   * `getStatsByYearType`: the year's records of the chosen type, their sums
   * per month (a month appears only if it has a record) and the year's total,
   * which is the sum of the month sums.
   */
  method StatsByYearType(expenses: seq<Row<Expense>>, incomes: seq<Row<Income>>, user: User,
                         kind: string, year: int, lookupFails: bool)
    returns (r: Response<YearlySummary>)
    ensures lookupFails ==> r == Empty(InternalServerError)
    ensures !lookupFails ==> r.status == Ok && r.body.Some?
    ensures !lookupFails ==>
      var summary, entries := r.body.value, YearEntries(kind, expenses, incomes, user, year);
      && summary.records == Records(kind, ExpensesOfYear(expenses, year, user.id), IncomesOfYear(incomes, year, user.id))
      && IsGroupedSum(entries, MonthOf, summary.monthlyTotals)
      && summary.yearlyTotal == Total(entries)
      && summary.yearlyTotal == SumValues(summary.monthlyTotals)
  {
    if lookupFails {
      return Empty(InternalServerError);
    }
    var records := Records(kind, ExpensesOfYear(expenses, year, user.id), IncomesOfYear(incomes, year, user.id));
    var monthlyTotals, yearlyTotal := MonthlyTotals(YearEntries(kind, expenses, incomes, user, year));
    r := Response(Ok, Some(YearlySummary(records, monthlyTotals, yearlyTotal)));
  }

  /**
   * `getStatsByMonthType`: the month's records of the chosen type and their
   * sum, which is exactly that month's bucket in the yearly summary.
   */
  function StatsByMonthType(expenses: seq<Row<Expense>>, incomes: seq<Row<Income>>, user: User,
                            kind: string, year: int, month: int, lookupFails: bool): (r: Response<MonthlySummary>)
    ensures lookupFails ==> r == Empty(InternalServerError)
    ensures !lookupFails ==> r.status == Ok && r.body.Some?
    ensures !lookupFails ==>
      && r.body.value.records == Records(kind, ExpensesOfMonth(expenses, year, month, user.id), IncomesOfMonth(incomes, year, month, user.id))
      && r.body.value.monthlyTotal == KeyTotal(YearEntries(kind, expenses, incomes, user, year), MonthOf, month)
      && |r.body.value.records| == KeyCount(YearEntries(kind, expenses, incomes, user, year), MonthOf, month)
  {
    if lookupFails then Empty(InternalServerError)
    else
      var expenseRows, incomeRows := ExpensesOfMonth(expenses, year, month, user.id), IncomesOfMonth(incomes, year, month, user.id);
      var total :=
        if IsIncomes(kind) then Total(Project(incomeRows, IncomeEntry))
        else Total(Project(expenseRows, ExpenseEntry));
      MonthOfYearBucket(expenses, incomes, user, year, month);
      Response(Ok, Some(MonthlySummary(Records(kind, expenseRows, incomeRows), total)))
  }

  /** A month's query is the month bucket of the year's query, for either type. */
  lemma MonthOfYearBucket(expenses: seq<Row<Expense>>, incomes: seq<Row<Income>>, user: User, year: int, month: int)
    ensures KeyTotal(Project(ExpensesOfYear(expenses, year, user.id), ExpenseEntry), MonthOf, month)
         == Total(Project(ExpensesOfMonth(expenses, year, month, user.id), ExpenseEntry))
    ensures KeyCount(Project(ExpensesOfYear(expenses, year, user.id), ExpenseEntry), MonthOf, month)
         == |ExpensesOfMonth(expenses, year, month, user.id)|
    ensures KeyTotal(Project(IncomesOfYear(incomes, year, user.id), IncomeEntry), MonthOf, month)
         == Total(Project(IncomesOfMonth(incomes, year, month, user.id), IncomeEntry))
    ensures KeyCount(Project(IncomesOfYear(incomes, year, user.id), IncomeEntry), MonthOf, month)
         == |IncomesOfMonth(incomes, year, month, user.id)|
  {
    BucketOfWhere(expenses, ExpenseEntry,
      (e: Expense) => e.owner.id == user.id && e.date.year == year,
      (e: Expense) => e.owner.id == user.id && e.date.year == year && e.date.month == month,
      MonthOf, month);
    BucketOfWhere(incomes, IncomeEntry,
      (i: Income) => i.owner.id == user.id && i.date.year == year,
      (i: Income) => i.owner.id == user.id && i.date.year == year && i.date.month == month,
      MonthOf, month);
  }

  /** `MIN(YEAR(date))` over some records: none when there are none. */
  function MinYearOf(s: seq<Entry>): (r: Option<int>)
    ensures r.None? <==> s == []
    ensures r.Some? ==> (exists i :: 0 <= i < |s| && s[i].date.year == r.value)
    ensures r.Some? ==> forall i :: 0 <= i < |s| ==> r.value <= s[i].date.year
  {
    if s == [] then None
    else
      var r := ExtendMin(MinYearOf(s[..|s| - 1]), s[|s| - 1].date.year);
      assert forall i :: 0 <= i < |s| - 1 ==> s[..|s| - 1][i] == s[i];
      r
  }

  /** `MAX(YEAR(date))` over some records: none when there are none. */
  function MaxYearOf(s: seq<Entry>): (r: Option<int>)
    ensures r.None? <==> s == []
    ensures r.Some? ==> (exists i :: 0 <= i < |s| && s[i].date.year == r.value)
    ensures r.Some? ==> forall i :: 0 <= i < |s| ==> s[i].date.year <= r.value
  {
    if s == [] then None
    else
      var r := ExtendMax(MaxYearOf(s[..|s| - 1]), s[|s| - 1].date.year);
      assert forall i :: 0 <= i < |s| - 1 ==> s[..|s| - 1][i] == s[i];
      r
  }

  /** `if (minYear == null || y < minYear) minYear = y`. */
  function ExtendMin(m: Option<int>, y: int): Option<int> {
    if m.None? || y < m.value then Some(y) else m
  }

  /** `if (maxYear == null || y > maxYear) maxYear = y`. */
  function ExtendMax(m: Option<int>, y: int): Option<int> {
    if m.None? || y > m.value then Some(y) else m
  }

  /** All the user's records of the chosen type, as the summaries read them. */
  function OwnedEntries(kind: string, expenses: seq<Row<Expense>>, incomes: seq<Row<Income>>, user: User): seq<Entry> {
    if IsIncomes(kind) then Project(IncomesOf(incomes, user.id), IncomeEntry)
    else Project(ExpensesOf(expenses, user.id), ExpenseEntry)
  }

  /**
   * `getMinYear`: 204 No Content when the user has no record of the type,
   * otherwise the earliest year among them.
   */
  function MinYear(expenses: seq<Row<Expense>>, incomes: seq<Row<Income>>, user: User,
                   kind: string, lookupFails: bool): (r: Response<int>)
    ensures lookupFails ==> r == Empty(InternalServerError)
    ensures !lookupFails && OwnedEntries(kind, expenses, incomes, user) == [] ==> r == Empty(NoContent)
    ensures !lookupFails && OwnedEntries(kind, expenses, incomes, user) != [] ==>
      var s := OwnedEntries(kind, expenses, incomes, user);
      && r.status == Ok && r.body.Some?
      && (exists i :: 0 <= i < |s| && s[i].date.year == r.body.value)
      && (forall i :: 0 <= i < |s| ==> r.body.value <= s[i].date.year)
  {
    if lookupFails then Empty(InternalServerError)
    else match MinYearOf(OwnedEntries(kind, expenses, incomes, user))
      case None => Empty(NoContent)
      case Some(y) => Response(Ok, Some(y))
  }

  /**
   * `getMaxYear`: 204 No Content when the user has no record of the type,
   * otherwise the latest year among them.
   */
  function MaxYear(expenses: seq<Row<Expense>>, incomes: seq<Row<Income>>, user: User,
                   kind: string, lookupFails: bool): (r: Response<int>)
    ensures lookupFails ==> r == Empty(InternalServerError)
    ensures !lookupFails && OwnedEntries(kind, expenses, incomes, user) == [] ==> r == Empty(NoContent)
    ensures !lookupFails && OwnedEntries(kind, expenses, incomes, user) != [] ==>
      var s := OwnedEntries(kind, expenses, incomes, user);
      && r.status == Ok && r.body.Some?
      && (exists i :: 0 <= i < |s| && s[i].date.year == r.body.value)
      && (forall i :: 0 <= i < |s| ==> s[i].date.year <= r.body.value)
  {
    if lookupFails then Empty(InternalServerError)
    else match MaxYearOf(OwnedEntries(kind, expenses, incomes, user))
      case None => Empty(NoContent)
      case Some(y) => Response(Ok, Some(y))
  }

  /** Every record a year query returns is dated in that year. */
  lemma YearQueriesStayInYear(expenses: seq<Row<Expense>>, incomes: seq<Row<Income>>, user: User, year: int)
    ensures forall e :: e in Project(ExpensesOfYear(expenses, year, user.id), ExpenseEntry) ==> e.date.year == year
    ensures forall e :: e in Project(IncomesOfYear(incomes, year, user.id), IncomeEntry) ==> e.date.year == year
  {
  }

  /**
   * One loop of `getStatsByYear`: each record's amount and a tick go into its
   * month's buckets, and its year extends the running minimum and maximum,
   * which start from `minYear` and `maxYear`.
   */
  method ScanMonths(s: seq<Entry>, minYear: Option<int>, maxYear: Option<int>)
    returns (totals: map<int, real>, counts: map<int, int>, minYear': Option<int>, maxYear': Option<int>)
    ensures IsGroupedSum(s, MonthOf, totals) && IsGroupedCount(s, MonthOf, counts)
    ensures minYear' == FoldMin(minYear, s) && maxYear' == FoldMax(maxYear, s)
  {
    totals, counts := map[], map[];
    minYear', maxYear' := minYear, maxYear;
    var i := 0;
    while i < |s|
      invariant 0 <= i <= |s|
      invariant IsGroupedSum(s[..i], MonthOf, totals) && IsGroupedCount(s[..i], MonthOf, counts)
      invariant minYear' == FoldMin(minYear, s[..i]) && maxYear' == FoldMax(maxYear, s[..i])
    {
      assert s[..i + 1] == s[..i] + [s[i]];
      assert s[..i + 1][..i] == s[..i];
      GroupedSumStep(s[..i], MonthOf, totals, s[i]);
      GroupedCountStep(s[..i], MonthOf, counts, s[i]);
      totals := Accumulate(totals, MonthOf(s[i]), s[i].amount);
      counts := Tick(counts, MonthOf(s[i]));
      minYear' := ExtendMin(minYear', s[i].date.year);
      maxYear' := ExtendMax(maxYear', s[i].date.year);
      i := i + 1;
    }
    assert s[..|s|] == s;
  }

  /** The running minimum year after the records `s`, starting from `m`. */
  function FoldMin(m: Option<int>, s: seq<Entry>): Option<int> {
    if s == [] then m else ExtendMin(FoldMin(m, s[..|s| - 1]), s[|s| - 1].date.year)
  }

  /** The running maximum year after the records `s`, starting from `m`. */
  function FoldMax(m: Option<int>, s: seq<Entry>): Option<int> {
    if s == [] then m else ExtendMax(FoldMax(m, s[..|s| - 1]), s[|s| - 1].date.year)
  }

  /**
   * Running on from the extremes of `before` through `s` gives the extremes
   * of `before + s`: the two loops of `getStatsByYear` share one minimum and
   * one maximum.
   */
  lemma {:induction false} FoldExtremes(before: seq<Entry>, s: seq<Entry>)
    ensures FoldMin(MinYearOf(before), s) == MinYearOf(before + s)
    ensures FoldMax(MaxYearOf(before), s) == MaxYearOf(before + s)
  {
    if s == [] {
      assert before + s == before;
    } else {
      var t, e := s[..|s| - 1], s[|s| - 1];
      FoldExtremes(before, t);
      assert before + s == (before + t) + [e];
      ExtremesSnoc(before + t, e);
    }
  }

  /** One more record extends the minimum and the maximum year by its own year. */
  lemma ExtremesSnoc(s: seq<Entry>, e: Entry)
    ensures MinYearOf(s + [e]) == ExtendMin(MinYearOf(s), e.date.year)
    ensures MaxYearOf(s + [e]) == ExtendMax(MaxYearOf(s), e.date.year)
  {
    assert (s + [e])[..|s|] == s;
  }

  /** Records all dated in one year have that year as their minimum and maximum. */
  lemma OneYearExtremes(s: seq<Entry>, year: int)
    requires forall e :: e in s ==> e.date.year == year
    ensures MinYearOf(s) == (if s == [] then None else Some(year))
    ensures MaxYearOf(s) == (if s == [] then None else Some(year))
  {
  }

  /**
   * `getStatsByYear`: per month, the sum and the number of the year's
   * expenses and of its incomes; the counts add up to the list lengths; the
   * minimum and maximum year are absent exactly when both lists are empty,
   * and are otherwise `year` itself, since both lists come from that year.
   */
  method StatsByYear(expenses: seq<Row<Expense>>, incomes: seq<Row<Income>>, user: User, year: int, lookupFails: bool)
    returns (r: Response<YearlyFinancialSummary>)
    ensures lookupFails ==> r == Empty(InternalServerError)
    ensures !lookupFails ==> r.status == Ok && r.body.Some?
    ensures !lookupFails ==>
      var summary := r.body.value;
      var es := Project(ExpensesOfYear(expenses, year, user.id), ExpenseEntry);
      var ins := Project(IncomesOfYear(incomes, year, user.id), IncomeEntry);
      && IsGroupedSum(es, MonthOf, summary.monthlyExpenses)
      && IsGroupedCount(es, MonthOf, summary.monthlyExpenseTransactions)
      && IsGroupedSum(ins, MonthOf, summary.monthlyIncomes)
      && IsGroupedCount(ins, MonthOf, summary.monthlyIncomeTransactions)
      && summary.minYear == MinYearOf(es + ins) && summary.maxYear == MaxYearOf(es + ins)
      && (summary.minYear.None? <==> es == [] && ins == [])
      && (summary.minYear.Some? ==> summary.minYear.value == year)
      && (summary.maxYear.None? <==> es == [] && ins == [])
      && (summary.maxYear.Some? ==> summary.maxYear.value == year)
  {
    if lookupFails {
      return Empty(InternalServerError);
    }
    var es := Project(ExpensesOfYear(expenses, year, user.id), ExpenseEntry);
    var ins := Project(IncomesOfYear(incomes, year, user.id), IncomeEntry);
    var monthlyExpenses, monthlyExpenseTransactions, minYear, maxYear := ScanMonths(es, None, None);
    var monthlyIncomes, monthlyIncomeTransactions, minYear', maxYear' := ScanMonths(ins, minYear, maxYear);
    FoldExtremes([], es);
    assert [] + es == es;
    FoldExtremes(es, ins);
    minYear, maxYear := minYear', maxYear';
    YearQueriesStayInYear(expenses, incomes, user, year);
    OneYearExtremes(es + ins, year);
    r := Response(Ok, Some(YearlyFinancialSummary(monthlyExpenses, monthlyIncomes,
      monthlyExpenseTransactions, monthlyIncomeTransactions, minYear, maxYear)));
  }

  /**
   * `getStatsByYearAndMonth` as written: `month` is never read. The whole
   * year is loaded and bucketed by day of month, so the bucket of day d
   * holds day d of every month of the year.
   */
  method StatsByYearAndMonth(expenses: seq<Row<Expense>>, incomes: seq<Row<Income>>, user: User,
                             year: int, month: int, lookupFails: bool)
    returns (r: Response<MonthlyFinancialSummary>)
    ensures lookupFails ==> r == Empty(InternalServerError)
    ensures !lookupFails ==> r.status == Ok && r.body.Some?
    ensures !lookupFails ==>
      var summary := r.body.value;
      var es := Project(ExpensesOfYear(expenses, year, user.id), ExpenseEntry);
      var ins := Project(IncomesOfYear(incomes, year, user.id), IncomeEntry);
      && IsGroupedSum(es, DayOf, summary.dailyExpenses)
      && IsGroupedCount(es, DayOf, summary.dailyExpenseTransactions)
      && IsGroupedSum(ins, DayOf, summary.dailyIncomes)
      && IsGroupedCount(ins, DayOf, summary.dailyIncomeTransactions)
  {
    if lookupFails {
      return Empty(InternalServerError);
    }
    var dailyExpenses, dailyExpenseTransactions := SumAndCountByKey(Project(ExpensesOfYear(expenses, year, user.id), ExpenseEntry), DayOf);
    var dailyIncomes, dailyIncomeTransactions := SumAndCountByKey(Project(IncomesOfYear(incomes, year, user.id), IncomeEntry), DayOf);
    r := Response(Ok, Some(MonthlyFinancialSummary(dailyExpenses, dailyIncomes, dailyExpenseTransactions, dailyIncomeTransactions)));
  }

  /**
   * Two expenses of one user on the same day of January and of February: the
   * bucket of that day that `StatsByYearAndMonth` returns for February holds
   * both amounts, while February's records on that day hold only the second.
   */
  lemma DayBucketsMixMonths(a: Row<Expense>, b: Row<Expense>)
    requires a.value.owner == b.value.owner
    requires a.value.date.year == b.value.date.year && a.value.date.day == b.value.date.day
    requires a.value.date.month == 1 && b.value.date.month == 2
    ensures var (year, day, userId) := (a.value.date.year, a.value.date.day, a.value.owner.id);
      && KeyTotal(Project(ExpensesOfYear([a, b], year, userId), ExpenseEntry), DayOf, day) == a.value.amount + b.value.amount
      && KeyTotal(Project(ExpensesOfMonth([a, b], year, 2, userId), ExpenseEntry), DayOf, day) == b.value.amount
  {
    JanuaryAndFebruaryQueries(a, b);
    var ea, eb := ExpenseEntry(a.value), ExpenseEntry(b.value);
    assert Project([a, b], ExpenseEntry) == [ea, eb];
    assert Project([b], ExpenseEntry) == [eb];
    SnocTotals([], ea, DayOf, a.value.date.day);
    SnocTotals([ea], eb, DayOf, a.value.date.day);
    SnocTotals([], eb, DayOf, a.value.date.day);
    assert [] + [ea] == [ea] && [ea] + [eb] == [ea, eb] && [] + [eb] == [eb];
  }

  lemma JanuaryAndFebruaryQueries(a: Row<Expense>, b: Row<Expense>)
    requires a.value.owner == b.value.owner && a.value.date.year == b.value.date.year
    requires a.value.date.month == 1 && b.value.date.month == 2
    ensures ExpensesOfYear([a, b], a.value.date.year, a.value.owner.id) == [a, b]
    ensures ExpensesOfMonth([a, b], a.value.date.year, 2, a.value.owner.id) == [b]
  {
    var (year, userId) := (a.value.date.year, a.value.owner.id);
    assert [a, b][..1] == [a] && [a][..0] == [];
    assert ExpensesOfYear([a], year, userId) == [a];
    assert ExpensesOfMonth([a], year, 2, userId) == [];
  }

  /**
   * `getStatsByYearAndMonth` as evidently intended: the month's records
   * (`findByMonth`), bucketed by day of month.
   */
  method StatsByMonthDays(expenses: seq<Row<Expense>>, incomes: seq<Row<Income>>, user: User,
                          year: int, month: int, lookupFails: bool)
    returns (r: Response<MonthlyFinancialSummary>)
    ensures lookupFails ==> r == Empty(InternalServerError)
    ensures !lookupFails ==> r.status == Ok && r.body.Some?
    ensures !lookupFails ==>
      var summary := r.body.value;
      var es := Project(ExpensesOfMonth(expenses, year, month, user.id), ExpenseEntry);
      var ins := Project(IncomesOfMonth(incomes, year, month, user.id), IncomeEntry);
      && IsGroupedSum(es, DayOf, summary.dailyExpenses)
      && IsGroupedCount(es, DayOf, summary.dailyExpenseTransactions)
      && IsGroupedSum(ins, DayOf, summary.dailyIncomes)
      && IsGroupedCount(ins, DayOf, summary.dailyIncomeTransactions)
  {
    if lookupFails {
      return Empty(InternalServerError);
    }
    var dailyExpenses, dailyExpenseTransactions := SumAndCountByKey(Project(ExpensesOfMonth(expenses, year, month, user.id), ExpenseEntry), DayOf);
    var dailyIncomes, dailyIncomeTransactions := SumAndCountByKey(Project(IncomesOfMonth(incomes, year, month, user.id), IncomeEntry), DayOf);
    r := Response(Ok, Some(MonthlyFinancialSummary(dailyExpenses, dailyIncomes, dailyExpenseTransactions, dailyIncomeTransactions)));
  }

  /** The user's expenses dated on one calendar day. */
  function ExpensesOfDay(rows: seq<Row<Expense>>, year: int, month: int, day: int, userId: nat): seq<Row<Expense>> {
    Where(rows, (e: Expense) => e.owner.id == userId && e.date.year == year && e.date.month == month && e.date.day == day)
  }

  /** The user's incomes dated on one calendar day. */
  function IncomesOfDay(rows: seq<Row<Income>>, year: int, month: int, day: int, userId: nat): seq<Row<Income>> {
    Where(rows, (i: Income) => i.owner.id == userId && i.date.year == year && i.date.month == month && i.date.day == day)
  }

  /**
   * In `StatsByMonthDays`, the bucket of day d holds exactly the records
   * dated on that calendar day.
   */
  lemma MonthDayBucketIsThatDay(expenses: seq<Row<Expense>>, incomes: seq<Row<Income>>, user: User, year: int, month: int, day: int)
    ensures KeyTotal(Project(ExpensesOfMonth(expenses, year, month, user.id), ExpenseEntry), DayOf, day)
         == Total(Project(ExpensesOfDay(expenses, year, month, day, user.id), ExpenseEntry))
    ensures KeyCount(Project(ExpensesOfMonth(expenses, year, month, user.id), ExpenseEntry), DayOf, day)
         == |ExpensesOfDay(expenses, year, month, day, user.id)|
    ensures KeyTotal(Project(IncomesOfMonth(incomes, year, month, user.id), IncomeEntry), DayOf, day)
         == Total(Project(IncomesOfDay(incomes, year, month, day, user.id), IncomeEntry))
    ensures KeyCount(Project(IncomesOfMonth(incomes, year, month, user.id), IncomeEntry), DayOf, day)
         == |IncomesOfDay(incomes, year, month, day, user.id)|
  {
    BucketOfWhere(expenses, ExpenseEntry,
      (e: Expense) => e.owner.id == user.id && e.date.year == year && e.date.month == month,
      (e: Expense) => e.owner.id == user.id && e.date.year == year && e.date.month == month && e.date.day == day,
      DayOf, day);
    BucketOfWhere(incomes, IncomeEntry,
      (i: Income) => i.owner.id == user.id && i.date.year == year && i.date.month == month,
      (i: Income) => i.owner.id == user.id && i.date.year == year && i.date.month == month && i.date.day == day,
      DayOf, day);
  }

  /**
   * `getCategoryBreakdown`: the year's expenses summed per category display
   * name and its incomes summed per source; each map's values add up to
   * that list's total, and every expense key is a category's display name.
   */
  method CategoryBreakdown(expenses: seq<Row<Expense>>, incomes: seq<Row<Income>>, user: User, year: int, lookupFails: bool)
    returns (r: Response<CategoryBreakdownSummary>)
    ensures lookupFails ==> r == Empty(InternalServerError)
    ensures !lookupFails ==> r.status == Ok && r.body.Some?
    ensures !lookupFails ==>
      var summary := r.body.value;
      var es := Project(ExpensesOfYear(expenses, year, user.id), ExpenseEntry);
      var ins := Project(IncomesOfYear(incomes, year, user.id), IncomeEntry);
      && IsGroupedSum(es, GroupOf, summary.expensesByCategory)
      && IsGroupedSum(ins, GroupOf, summary.incomesBySource)
      && (forall k :: k in summary.expensesByCategory ==> exists c :: k == DisplayName(c))
  {
    if lookupFails {
      return Empty(InternalServerError);
    }
    var es := Project(ExpensesOfYear(expenses, year, user.id), ExpenseEntry);
    var expensesByCategory := SumByKey(es, GroupOf);
    var incomesBySource := SumByKey(Project(IncomesOfYear(incomes, year, user.id), IncomeEntry), GroupOf);
    forall k | k in expensesByCategory ensures exists c :: k == DisplayName(c) {
      KeyCountPositive(es, GroupOf, k);
      var i :| 0 <= i < |es| && GroupOf(es[i]) == k;
      assert k == DisplayName(ExpensesOfYear(expenses, year, user.id)[i].value.subCategory.value.category);
    }
    r := Response(Ok, Some(CategoryBreakdownSummary(expensesByCategory, incomesBySource)));
  }

  /** The month a comparison calls "previous", as written: January looks at December of the same year. */
  function PreviousMonthAsWritten(month: int): int {
    if month == 1 then 12 else month - 1
  }

  /**
   * `getComparisonData` as written: the month's and the previous month's
   * totals, the year's and the previous year's totals. Each month total is
   * the matching month bucket of `year` — also for January, whose
   * "previous month" is December of the same year.
   */
  function Comparison(expenses: seq<Row<Expense>>, incomes: seq<Row<Income>>, user: User,
                      year: int, month: int, lookupFails: bool): (r: Response<ComparisonSummary>)
    ensures lookupFails ==> r == Empty(InternalServerError)
    ensures !lookupFails ==> r.status == Ok && r.body.Some?
    ensures !lookupFails ==>
      var c := r.body.value;
      var es := Project(ExpensesOfYear(expenses, year, user.id), ExpenseEntry);
      var ins := Project(IncomesOfYear(incomes, year, user.id), IncomeEntry);
      && c.currentMonthExpenses == KeyTotal(es, MonthOf, month)
      && c.currentMonthIncomes == KeyTotal(ins, MonthOf, month)
      && c.previousMonthExpenses == KeyTotal(es, MonthOf, PreviousMonthAsWritten(month))
      && c.previousMonthIncomes == KeyTotal(ins, MonthOf, PreviousMonthAsWritten(month))
      && c.currentYearExpenses == Total(es) && c.currentYearIncomes == Total(ins)
      && c.previousYearExpenses == Total(Project(ExpensesOfYear(expenses, year - 1, user.id), ExpenseEntry))
      && c.previousYearIncomes == Total(Project(IncomesOfYear(incomes, year - 1, user.id), IncomeEntry))
  {
    if lookupFails then Empty(InternalServerError)
    else
      var previous := PreviousMonthAsWritten(month);
      MonthOfYearBucket(expenses, incomes, user, year, month);
      MonthOfYearBucket(expenses, incomes, user, year, previous);
      Response(Ok, Some(ComparisonSummary(
        Total(Project(ExpensesOfMonth(expenses, year, month, user.id), ExpenseEntry)),
        Total(Project(ExpensesOfMonth(expenses, year, previous, user.id), ExpenseEntry)),
        Total(Project(IncomesOfMonth(incomes, year, month, user.id), IncomeEntry)),
        Total(Project(IncomesOfMonth(incomes, year, previous, user.id), IncomeEntry)),
        Total(Project(ExpensesOfYear(expenses, year, user.id), ExpenseEntry)),
        Total(Project(ExpensesOfYear(expenses, year - 1, user.id), ExpenseEntry)),
        Total(Project(IncomesOfYear(incomes, year, user.id), IncomeEntry)),
        Total(Project(IncomesOfYear(incomes, year - 1, user.id), IncomeEntry)))))
  }

  /** The calendar month before (year, month): January steps back into December of year - 1. */
  function PreviousMonth(year: int, month: int): (r: (int, int))
    ensures 1 <= month <= 12 ==> 1 <= r.1 <= 12 && r.0 * 12 + r.1 == year * 12 + month - 1
  {
    if month == 1 then (year - 1, 12) else (year, month - 1)
  }

  /**
   * `getComparisonData` as evidently intended: the previous month is the
   * calendar month before, so January is compared with December of the
   * previous year.
   */
  function ComparisonCorrected(expenses: seq<Row<Expense>>, incomes: seq<Row<Income>>, user: User,
                               year: int, month: int, lookupFails: bool): (r: Response<ComparisonSummary>)
    ensures lookupFails ==> r == Empty(InternalServerError)
    ensures !lookupFails ==> r.status == Ok && r.body.Some?
    ensures !lookupFails ==>
      var c := r.body.value;
      var (py, pm) := PreviousMonth(year, month);
      && c.currentMonthExpenses == KeyTotal(Project(ExpensesOfYear(expenses, year, user.id), ExpenseEntry), MonthOf, month)
      && c.currentMonthIncomes == KeyTotal(Project(IncomesOfYear(incomes, year, user.id), IncomeEntry), MonthOf, month)
      && c.previousMonthExpenses == KeyTotal(Project(ExpensesOfYear(expenses, py, user.id), ExpenseEntry), MonthOf, pm)
      && c.previousMonthIncomes == KeyTotal(Project(IncomesOfYear(incomes, py, user.id), IncomeEntry), MonthOf, pm)
      && c.currentYearExpenses == Total(Project(ExpensesOfYear(expenses, year, user.id), ExpenseEntry))
      && c.currentYearIncomes == Total(Project(IncomesOfYear(incomes, year, user.id), IncomeEntry))
      && c.previousYearExpenses == Total(Project(ExpensesOfYear(expenses, year - 1, user.id), ExpenseEntry))
      && c.previousYearIncomes == Total(Project(IncomesOfYear(incomes, year - 1, user.id), IncomeEntry))
  {
    if lookupFails then Empty(InternalServerError)
    else
      var (py, pm) := PreviousMonth(year, month);
      MonthOfYearBucket(expenses, incomes, user, year, month);
      MonthOfYearBucket(expenses, incomes, user, py, pm);
      Response(Ok, Some(ComparisonSummary(
        Total(Project(ExpensesOfMonth(expenses, year, month, user.id), ExpenseEntry)),
        Total(Project(ExpensesOfMonth(expenses, py, pm, user.id), ExpenseEntry)),
        Total(Project(IncomesOfMonth(incomes, year, month, user.id), IncomeEntry)),
        Total(Project(IncomesOfMonth(incomes, py, pm, user.id), IncomeEntry)),
        Total(Project(ExpensesOfYear(expenses, year, user.id), ExpenseEntry)),
        Total(Project(ExpensesOfYear(expenses, year - 1, user.id), ExpenseEntry)),
        Total(Project(IncomesOfYear(incomes, year, user.id), IncomeEntry)),
        Total(Project(IncomesOfYear(incomes, year - 1, user.id), IncomeEntry)))))
  }

  /**
   * A single expense of 50 on 2023-12-15: asked about January 2024, the
   * comparison as written reports 0 for the previous month; the corrected
   * one reports the 50.
   */
  lemma JanuaryPreviousMonth()
    ensures var user := User(1, "ana");
      var sub := Row(3, SubCategory(Utilities, user, "power"));
      var expenses := [Row(1, Expense(user, "bill", 50.0, sub, DateTime(2023, 12, 15, 0), false, None))];
      && Comparison(expenses, [], user, 2024, 1, false).body.value.previousMonthExpenses == 0.0
      && ComparisonCorrected(expenses, [], user, 2024, 1, false).body.value.previousMonthExpenses == 50.0
  {
    var user := User(1, "ana");
    var sub := Row(3, SubCategory(Utilities, user, "power"));
    var a := Row(1, Expense(user, "bill", 50.0, sub, DateTime(2023, 12, 15, 0), false, None));
    assert [a][..0] == [];
    assert ExpensesOfMonth([a], 2024, 12, 1) == [];
    assert ExpensesOfMonth([a], 2023, 12, 1) == [a];
    var ms := Project([a], ExpenseEntry);
    assert ms[..0] == [];
  }

  // ----- Savings rate -----

  /**
   * Rounding to a whole number with `RoundingMode.HALF_UP`: the nearest
   * integer, a tie going away from zero.
   */
  function HalfUp(x: real): (n: int)
    ensures -0.5 <= n as real - x <= 0.5
    ensures x >= 0.0 ==> n >= 0 && n as real - x > -0.5
    ensures x <= 0.0 ==> n <= 0 && n as real - x < 0.5
  {
    if x >= 0.0 then (x + 0.5).Floor else -((-x + 0.5).Floor)
  }

  /** `q.divide(1, 2, HALF_UP)`-style rounding of `q` to two decimals. */
  function ScaleTwoHalfUp(q: real): real {
    HalfUp(q * 100.0) as real / 100.0
  }

  /**
   * A month's savings rate: `(income - expense) / income` rounded HALF_UP to
   * two decimals, times 100 — a whole-number percent; 0 without income.
   */
  function SavingsRate(income: real, expense: real): (r: real)
    ensures income <= 0.0 ==> r == 0.0
    ensures income > 0.0 ==> r == HalfUp(100.0 * (income - expense) / income) as real
  {
    if income > 0.0 then
      assert (income - expense) / income * 100.0 == 100.0 * (income - expense) / income;
      ScaleTwoHalfUp((income - expense) / income) * 100.0
    else 0.0
  }

  /** The rate is within half a percent of the exact one, and its sign follows the balance. */
  lemma SavingsRateBounds(income: real, expense: real)
    requires income > 0.0
    ensures -0.5 <= SavingsRate(income, expense) - 100.0 * (income - expense) / income <= 0.5
    ensures expense <= income ==> SavingsRate(income, expense) >= 0.0
    ensures expense >= income ==> SavingsRate(income, expense) <= 0.0
    ensures expense >= income * 1.005 ==> SavingsRate(income, expense) < 0.0
  {
    var x := 100.0 * (income - expense) / income;
    if expense >= income * 1.005 {
      assert income - expense <= -0.005 * income;
      assert x <= -0.5;
    }
    if expense <= income {
      assert x >= 0.0;
    }
    if expense >= income {
      assert x <= 0.0;
    }
  }

  lemma SavingsRateExamples()
    ensures SavingsRate(1000.0, 600.0) == 40.0
    ensures SavingsRate(8.0, 7.0) == 13.0
    ensures SavingsRate(8.0, 9.0) == -13.0
    ensures SavingsRate(1000.0, 1000.1) == 0.0
    ensures SavingsRate(0.0, 50.0) == 0.0
  {
    assert (1000.0 - 600.0) / 1000.0 * 100.0 == 40.0;
    assert (8.0 - 7.0) / 8.0 * 100.0 == 12.5;
    assert (8.0 - 9.0) / 8.0 * 100.0 == -12.5;
    assert (1000.0 - 1000.1) / 1000.0 * 100.0 == -0.01;
  }

  /** `getOrDefault(k, ZERO)`. */
  function GetOrZero(m: map<int, real>, k: int): real {
    if k in m then m[k] else 0.0
  }

  /**
   * The month loop of `getSavingsRateData`: for each month 1 to 12, the rate
   * of that month's income and expense sums, a missing sum reading as zero.
   */
  method MonthlyRates(incomeTotals: map<int, real>, expenseTotals: map<int, real>) returns (rates: map<int, real>)
    ensures forall m :: m in rates <==> 1 <= m <= 12
    ensures forall m :: 1 <= m <= 12 ==> rates[m] == SavingsRate(GetOrZero(incomeTotals, m), GetOrZero(expenseTotals, m))
  {
    rates := map[];
    for month := 1 to 13
      invariant forall m :: m in rates <==> 1 <= m < month
      invariant forall m :: 1 <= m < month ==> rates[m] == SavingsRate(GetOrZero(incomeTotals, m), GetOrZero(expenseTotals, m))
    {
      var income := GetOrZero(incomeTotals, month);
      var expense := GetOrZero(expenseTotals, month);
      if income > 0.0 {
        rates := rates[month := ScaleTwoHalfUp((income - expense) / income) * 100.0];
      } else {
        rates := rates[month := 0.0];
      }
    }
  }

  /**
   * `getSavingsRateData`: a rate for each of the months 1 to 12 and no
   * other key, computed from that month's income and expense sums.
   */
  method SavingsRateData(expenses: seq<Row<Expense>>, incomes: seq<Row<Income>>, user: User, year: int, lookupFails: bool)
    returns (r: Response<SavingsSummary>)
    ensures lookupFails ==> r == Empty(InternalServerError)
    ensures !lookupFails ==> r.status == Ok && r.body.Some?
    ensures !lookupFails ==>
      var rates := r.body.value.monthlySavingsRate;
      var es := Project(ExpensesOfYear(expenses, year, user.id), ExpenseEntry);
      var ins := Project(IncomesOfYear(incomes, year, user.id), IncomeEntry);
      && (forall m :: m in rates <==> 1 <= m <= 12)
      && (forall m :: 1 <= m <= 12 ==> rates[m] == SavingsRate(KeyTotal(ins, MonthOf, m), KeyTotal(es, MonthOf, m)))
  {
    if lookupFails {
      return Empty(InternalServerError);
    }
    var es := Project(ExpensesOfYear(expenses, year, user.id), ExpenseEntry);
    var ins := Project(IncomesOfYear(incomes, year, user.id), IncomeEntry);
    var monthlyIncomeTotals := SumByKey(ins, MonthOf);
    var monthlyExpenseTotals := SumByKey(es, MonthOf);
    var rates := MonthlyRates(monthlyIncomeTotals, monthlyExpenseTotals);
    forall m | 1 <= m <= 12
      ensures rates[m] == SavingsRate(KeyTotal(ins, MonthOf, m), KeyTotal(es, MonthOf, m))
    {
      if m !in monthlyIncomeTotals { KeyTotalOfAbsent(ins, MonthOf, m); }
      if m !in monthlyExpenseTotals { KeyTotalOfAbsent(es, MonthOf, m); }
    }
    r := Response(Ok, Some(SavingsSummary(rates)));
  }

  // ----- Grand totals -----

  /** `getGrandTotals`: everything the user ever recorded, and the balance. */
  function GrandTotals(expenses: seq<Row<Expense>>, incomes: seq<Row<Income>>, user: User, lookupFails: bool): (r: Response<GrandTotalSummary>)
    ensures lookupFails ==> r == Empty(InternalServerError)
    ensures !lookupFails ==> r.status == Ok && r.body.Some?
    ensures !lookupFails ==> r.body.value.totalIncomes == Total(Project(IncomesOf(incomes, user.id), IncomeEntry))
    ensures !lookupFails ==> r.body.value.totalExpenses == Total(Project(ExpensesOf(expenses, user.id), ExpenseEntry))
    ensures !lookupFails ==> r.body.value.netBalance == r.body.value.totalIncomes - r.body.value.totalExpenses
    ensures !lookupFails && ExpensesOf(expenses, user.id) == [] && IncomesOf(incomes, user.id) == [] ==>
      r.body.value == GrandTotalSummary(0.0, 0.0, 0.0)
  {
    if lookupFails then Empty(InternalServerError)
    else
      var totalIncomes := Total(Project(IncomesOf(incomes, user.id), IncomeEntry));
      var totalExpenses := Total(Project(ExpensesOf(expenses, user.id), ExpenseEntry));
      Response(Ok, Some(GrandTotalSummary(totalIncomes, totalExpenses, totalIncomes - totalExpenses)))
  }

  /**
   * Recording one more expense raises the owner's total expenses by its
   * amount and lowers the balance by as much; anyone else's totals stay.
   */
  lemma GrandTotalsAfterExpense(expenses: seq<Row<Expense>>, incomes: seq<Row<Income>>, user: User, x: Row<Expense>)
    ensures var before := GrandTotals(expenses, incomes, user, false).body.value;
      var after := GrandTotals(expenses + [x], incomes, user, false).body.value;
      && after.totalIncomes == before.totalIncomes
      && (x.value.owner.id == user.id ==>
            after.totalExpenses == before.totalExpenses + x.value.amount && after.netBalance == before.netBalance - x.value.amount)
      && (x.value.owner.id != user.id ==> after == before)
  {
    var rows := expenses + [x];
    assert rows[..|rows| - 1] == expenses;
    var before := ExpensesOf(expenses, user.id);
    if x.value.owner.id == user.id {
      assert ExpensesOf(rows, user.id) == before + [x];
      ProjectSnoc(before, x, ExpenseEntry);
      SnocTotals(Project(before, ExpenseEntry), ExpenseEntry(x.value), MonthOf, 0);
    } else {
      assert ExpensesOf(rows, user.id) == before;
    }
  }

  /**
   * Recording one more income raises the owner's total incomes and the
   * balance by its amount; anyone else's totals stay.
   */
  lemma GrandTotalsAfterIncome(expenses: seq<Row<Expense>>, incomes: seq<Row<Income>>, user: User, x: Row<Income>)
    ensures var before := GrandTotals(expenses, incomes, user, false).body.value;
      var after := GrandTotals(expenses, incomes + [x], user, false).body.value;
      && after.totalExpenses == before.totalExpenses
      && (x.value.owner.id == user.id ==>
            after.totalIncomes == before.totalIncomes + x.value.amount && after.netBalance == before.netBalance + x.value.amount)
      && (x.value.owner.id != user.id ==> after == before)
  {
    var rows := incomes + [x];
    assert rows[..|rows| - 1] == incomes;
    var before := IncomesOf(incomes, user.id);
    if x.value.owner.id == user.id {
      assert IncomesOf(rows, user.id) == before + [x];
      ProjectSnoc(before, x, IncomeEntry);
      SnocTotals(Project(before, IncomeEntry), IncomeEntry(x.value), MonthOf, 0);
    } else {
      assert IncomesOf(rows, user.id) == before;
    }
  }
}
