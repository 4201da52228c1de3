/**
 * The daily job that materialises recurring expenses. One run walks the
 * recurring expenses in repository order and, for each one whose next
 * occurrence has already passed, saves a copy dated at that occurrence and
 * moves the original's date forward to it. The run is one transaction: an
 * exception that escapes the loop rolls every change back.
 */
module ExpenseCronJobs {
  import opened Wrappers
  import opened Dates
  import opened Ledger
  import opened Repositories

  /**
   * `calculateNextOccurrence`: one week, month or year later for the three
   * recognised periods, nothing for any other period. The result is always
   * strictly later and keeps the time of day.
   */
  function NextOccurrence(date: LocalDateTime, period: string): (r: Option<LocalDateTime>)
    ensures r.Some? <==> period == "WEEKLY" || period == "MONTHLY" || period == "YEARLY"
    ensures r.Some? ==> IsBefore(date, r.value) && r.value.nanoOfDay == date.nanoOfDay
    ensures period == "WEEKLY" ==> r == Some(PlusDays(date, 7))
    ensures period == "MONTHLY" ==> MonthIndex(r.value) == MonthIndex(date) + 1
    ensures period == "YEARLY" ==> r.value.year == date.year + 1 && r.value.month == date.month
  {
    if period == "WEEKLY" then Some(PlusWeek(date))
    else if period == "MONTHLY" then Some(PlusMonth(date))
    else if period == "YEARLY" then Some(PlusYear(date))
    else None
  }

  /**
   * `createNewExpense`: a new expense with the original's user, description,
   * amount, classification, recurring flag and period, dated `next`.
   */
  function CopyAt(e: Expense, next: LocalDateTime): (c: Expense)
    ensures c.date == next
    ensures c.owner == e.owner && c.description == e.description && c.amount == e.amount
    ensures c.subCategory == e.subCategory && c.recurring == e.recurring && c.recurrencePeriod == e.recurrencePeriod
  {
    Expense(e.owner, e.description, e.amount, e.subCategory, next, e.recurring, e.recurrencePeriod)
  }

  /** After a processed item, the copy and the advanced original agree in every field. */
  lemma CopyMatchesAdvancedOriginal(e: Expense, next: LocalDateTime)
    ensures CopyAt(e, next) == e.(date := next)
  {
  }

  /**
   * The occurrence a run materialises for a recurring expense with a
   * period, if it is processed: the next occurrence exists, lies strictly
   * before `now` and is not before the expense's own date.
   */
  function Due(e: Expense, now: LocalDateTime): (r: Option<LocalDateTime>)
    ensures !e.recurring || e.recurrencePeriod.None? ==> r.None?
    ensures r.Some? ==> e.recurrencePeriod.Some? && r == NextOccurrence(e.date, e.recurrencePeriod.value)
    ensures r.Some? ==> IsBefore(r.value, now) && IsBefore(e.date, r.value)
  {
    if !e.recurring || e.recurrencePeriod.None? then None
    else match NextOccurrence(e.date, e.recurrencePeriod.value)
      case None => None
      case Some(next) => if IsBefore(next, now) && !IsBefore(next, e.date) then Some(next) else None
  }

  /** `IsBefore` is a strict order: never both ways. */
  lemma BeforeIsAsymmetric(a: DateTime, b: DateTime)
    ensures IsBefore(a, b) ==> !IsBefore(b, a)
    ensures !IsBefore(a, a)
  {
  }

  /**
   * The guard "next occurrence before the expense's date" never fires: a
   * recognised period always moves the date forward. A recurring expense
   * is processed exactly when its next occurrence is strictly before `now`.
   */
  lemma DueExactlyWhenPassed(e: Expense, now: LocalDateTime)
    requires e.recurring && e.recurrencePeriod.Some?
    ensures var next := NextOccurrence(e.date, e.recurrencePeriod.value);
      Due(e, now) == if next.Some? && IsBefore(next.value, now) then next else None
  {
    var next := NextOccurrence(e.date, e.recurrencePeriod.value);
    if next.Some? {
      BeforeIsAsymmetric(e.date, next.value);
    }
  }

  /** An occurrence falling exactly at `now` is not yet materialised. */
  lemma NotDueAtNow(e: Expense, now: LocalDateTime)
    requires e.recurring && e.recurrencePeriod.Some?
    requires NextOccurrence(e.date, e.recurrencePeriod.value) == Some(now)
    ensures Due(e, now).None?
  {
    BeforeIsAsymmetric(now, now);
  }

  /**
   * Once processed (its date moved to `next`), an item is processed again at
   * the same `now` exactly when the occurrence after `next` has also passed:
   * that is, when two periods after its old date lie before `now`.
   */
  lemma DueAgain(e: Expense, now: LocalDateTime)
    requires Due(e, now).Some?
    ensures var next := Due(e, now).value;
      var later := NextOccurrence(next, e.recurrencePeriod.value);
      later.Some? && (Due(e.(date := next), now).Some? <==> IsBefore(later.value, now))
  {
    var next := Due(e, now).value;
    DueExactlyWhenPassed(e, now);
    DueExactlyWhenPassed(e.(date := next), now);
  }

  /**
   * The job is not idempotent: a weekly expense dated 2024-01-01, with the
   * job running on 2024-01-20, is materialised on 2024-01-08 and, on a
   * second run at the same moment, again on 2024-01-15.
   */
  lemma SecondRunGeneratesAgain()
    ensures var sub := Row(1, SubCategory(Subscription, User(1, "ana"), "music"));
      var e := Expense(User(1, "ana"), "music", 10.0, sub, DateTime(2024, 1, 1, 0), true, Some("WEEKLY"));
      var now := DateTime(2024, 1, 20, 0);
      && Due(e, now) == Some(DateTime(2024, 1, 8, 0))
      && Due(e.(date := DateTime(2024, 1, 8, 0)), now) == Some(DateTime(2024, 1, 15, 0))
  {
  }

  /**
   * The time of day is compared down to the nanosecond: a weekly expense
   * dated 2024-01-01T10:00:30 is due when the job runs at
   * 2024-01-08T10:00:45, fifteen seconds after its next occurrence.
   */
  lemma SecondsDecideDue()
    ensures var sub := Row(1, SubCategory(Subscription, User(1, "ana"), "music"));
      var e := Expense(User(1, "ana"), "music", 10.0, sub, DateTime(2024, 1, 1, 36_030_000_000_000), true, Some("WEEKLY"));
      && Due(e, DateTime(2024, 1, 8, 36_045_000_000_000)) == Some(DateTime(2024, 1, 8, 36_030_000_000_000))
      && Due(e, DateTime(2024, 1, 8, 36_030_000_000_000)).None?
  {
  }

  /** Faults of the two saves, by the identifier of the expense being processed. */
  datatype SaveFaults = SaveFaults(copyFails: set<nat>, originalFails: set<nat>)

  /** What a run ends in: completion, or an exception that rolled it back. */
  datatype RunOutcome = Completed | RolledBack

  /**
   * A row as a completed run leaves it: a processed expense whose two saves
   * both succeeded carries its next occurrence; every other row is as it was.
   */
  function Advance(r: Row<Expense>, now: LocalDateTime, faults: SaveFaults): (a: Row<Expense>)
    ensures a.id == r.id
  {
    match Due(r.value, now)
    case Some(next) =>
      if r.id !in faults.copyFails && r.id !in faults.originalFails then Row(r.id, r.value.(date := next)) else r
    case None => r
  }

  function Advanced(rows: seq<Row<Expense>>, now: LocalDateTime, faults: SaveFaults): (r: seq<Row<Expense>>)
    ensures |r| == |rows|
    ensures forall k :: 0 <= k < |rows| ==> r[k] == Advance(rows[k], now, faults)
  {
    seq(|rows|, k requires 0 <= k < |rows| => Advance(rows[k], now, faults))
  }

  /**
   * The copies a run saves, in the order of their originals, numbered from
   * `firstId`: one for each processed expense whose copy saved. Each copy is
   * itself recurring with a period, so later runs pick it up.
   */
  function Copies(rows: seq<Row<Expense>>, now: LocalDateTime, faults: SaveFaults, firstId: nat): (r: seq<Row<Expense>>)
    ensures |r| <= |rows|
    ensures forall k :: 0 <= k < |r| ==> r[k].id == firstId + k
    ensures forall k :: 0 <= k < |r| ==> r[k].value.recurring && r[k].value.recurrencePeriod.Some?
  {
    if rows == [] then []
    else
      var prev := Copies(rows[..|rows| - 1], now, faults, firstId);
      var last := rows[|rows| - 1];
      match Due(last.value, now)
      case Some(next) =>
        if last.id !in faults.copyFails then prev + [Row(firstId + |prev|, CopyAt(last.value, next))] else prev
      case None => prev
  }

  /** Whether the run saves a copy for `r`: it is processed and its copy's save succeeds. */
  predicate Copied(r: Row<Expense>, now: LocalDateTime, faults: SaveFaults) {
    Due(r.value, now).Some? && r.id !in faults.copyFails
  }

  /** `c` holds the copy that a run saves for the processed expense `r`. */
  predicate CopyOf(c: Row<Expense>, r: Row<Expense>, now: LocalDateTime, faults: SaveFaults) {
    Copied(r, now, faults) && c.value == CopyAt(r.value, Due(r.value, now).value)
  }

  /** The copies of a longer prefix extend those of the shorter one by at most the last row's copy. */
  lemma CopiesSnoc(rows: seq<Row<Expense>>, now: LocalDateTime, faults: SaveFaults, firstId: nat)
    requires rows != []
    ensures var prev, all, last := Copies(rows[..|rows| - 1], now, faults, firstId), Copies(rows, now, faults, firstId), rows[|rows| - 1];
      && |prev| <= |all|
      && (forall k :: 0 <= k < |prev| ==> all[k] == prev[k])
      && (Copied(last, now, faults) ==> |all| == |prev| + 1 && CopyOf(all[|prev|], last, now, faults))
      && (!Copied(last, now, faults) ==> |all| == |prev|)
  {
  }

  /** Every processed expense whose copy saved has its copy among the run's copies. */
  lemma {:induction false} CopiesCoverCopiedRows(rows: seq<Row<Expense>>, now: LocalDateTime, faults: SaveFaults, firstId: nat)
    ensures var cs := Copies(rows, now, faults, firstId);
      forall j :: 0 <= j < |rows| && Copied(rows[j], now, faults) ==>
        exists k :: 0 <= k < |cs| && CopyOf(cs[k], rows[j], now, faults)
  {
    if rows != [] {
      var init := rows[..|rows| - 1];
      CopiesCoverCopiedRows(init, now, faults, firstId);
      CopiesSnoc(rows, now, faults, firstId);
      var prev, all := Copies(init, now, faults, firstId), Copies(rows, now, faults, firstId);
      forall j | 0 <= j < |rows| && Copied(rows[j], now, faults)
        ensures exists k :: 0 <= k < |all| && CopyOf(all[k], rows[j], now, faults)
      {
        if j < |init| {
          assert rows[j] == init[j];
          var k :| 0 <= k < |prev| && CopyOf(prev[k], init[j], now, faults);
          assert all[k] == prev[k];
        } else {
          assert CopyOf(all[|prev|], rows[j], now, faults);
        }
      }
    }
  }

  /** Every copy of the run is the copy of a processed expense whose copy saved. */
  lemma {:induction false} CopiesComeFromCopiedRows(rows: seq<Row<Expense>>, now: LocalDateTime, faults: SaveFaults, firstId: nat)
    ensures var cs := Copies(rows, now, faults, firstId);
      forall k :: 0 <= k < |cs| ==> exists j :: 0 <= j < |rows| && CopyOf(cs[k], rows[j], now, faults)
  {
    if rows != [] {
      var init := rows[..|rows| - 1];
      CopiesComeFromCopiedRows(init, now, faults, firstId);
      CopiesSnoc(rows, now, faults, firstId);
      var prev, all := Copies(init, now, faults, firstId), Copies(rows, now, faults, firstId);
      forall k | 0 <= k < |all| ensures exists j :: 0 <= j < |rows| && CopyOf(all[k], rows[j], now, faults) {
        if k < |prev| {
          var j :| 0 <= j < |init| && CopyOf(prev[k], init[j], now, faults);
          assert rows[j] == init[j];
          assert all[k] == prev[k];
        } else {
          assert CopyOf(all[k], rows[|rows| - 1], now, faults);
        }
      }
    }
  }

  /** Whether a recurring expense without a period is among the rows: the switch on it throws. */
  predicate HasNullPeriod(rows: seq<Row<Expense>>) {
    exists k :: 0 <= k < |rows| && NullPeriod(rows[k])
  }

  predicate NullPeriod(r: Row<Expense>) {
    r.value.recurring && r.value.recurrencePeriod.None?
  }

  /**
   * `processRecurringExpenses`, with `now` given. A recurring expense
   * without a period aborts the run and rolls back the rows it saved, while
   * the identity counter keeps the values already handed out, as a database
   * sequence does; otherwise each processed expense gets its copy appended
   * under the next identifier and, when both saves succeed, its date
   * advanced, and nothing else changes.
   */
  method ProcessRecurringExpenses(table: Table<Expense>, now: LocalDateTime, faults: SaveFaults) returns (outcome: RunOutcome)
    requires table.Valid()
    modifies table
    ensures table.Valid() && table.nextId >= old(table.nextId)
    ensures outcome == RolledBack <==> HasNullPeriod(old(table.rows))
    ensures outcome == RolledBack ==> table.rows == old(table.rows)
    ensures outcome == Completed ==>
      && table.rows == Advanced(old(table.rows), now, faults) + Copies(old(table.rows), now, faults, old(table.nextId))
      && table.nextId == old(table.nextId) + |Copies(old(table.rows), now, faults, old(table.nextId))|
  {
    ghost var rows0, id0 := table.rows, table.nextId;
    var saved := table.rows;
    var n := |table.rows|;
    var i := 0;
    assert rows0[..0] == [] && rows0[0..] == rows0;
    while i < n
      invariant 0 <= i <= n == |rows0| && saved == rows0
      invariant table.Valid()
      invariant Progress(table.rows, table.nextId, rows0, id0, i, now, faults)
    {
      var row := table.rows[i];
      assert row == rows0[i];
      if row.value.recurring && row.value.recurrencePeriod.None? {
        table.rows := saved;
        assert NullPeriod(rows0[i]);
        return RolledBack;
      }
      ProcessItem(table, rows0, id0, i, now, faults);
      i := i + 1;
    }
    ProgressDone(table.rows, table.nextId, rows0, id0, now, faults);
    return Completed;
  }

  /**
   * How far a run has got after the first `i` rows: no period was missing
   * among them, those rows are as a completed run leaves them, the rest are
   * untouched, and their copies follow.
   */
  ghost predicate Progress(rows: seq<Row<Expense>>, nextId: nat, rows0: seq<Row<Expense>>, id0: nat, i: nat,
                           now: LocalDateTime, faults: SaveFaults) {
    && i <= |rows0|
    && !HasNullPeriod(rows0[..i])
    && rows == Advanced(rows0[..i], now, faults) + rows0[i..] + Copies(rows0[..i], now, faults, id0)
    && nextId == id0 + |Copies(rows0[..i], now, faults, id0)|
  }

  /** A run that got past every row without a missing period has completed. */
  lemma ProgressDone(rows: seq<Row<Expense>>, nextId: nat, rows0: seq<Row<Expense>>, id0: nat,
                     now: LocalDateTime, faults: SaveFaults)
    requires Progress(rows, nextId, rows0, id0, |rows0|, now, faults)
    ensures !HasNullPeriod(rows0)
    ensures rows == Advanced(rows0, now, faults) + Copies(rows0, now, faults, id0)
    ensures nextId == id0 + |Copies(rows0, now, faults, id0)|
  {
    var all, rest := rows0[..|rows0|], rows0[|rows0|..];
    assert all == rows0 && rest == [];
    assert Advanced(all, now, faults) == Advanced(rows0, now, faults);
    assert Copies(all, now, faults, id0) == Copies(rows0, now, faults, id0);
    var adv, cps := Advanced(rows0, now, faults), Copies(rows0, now, faults, id0);
    assert adv + rest == adv;
    assert rows == adv + rest + cps;
  }

  /**
   * One iteration for the i-th row, which is not a recurring expense
   * without a period: skip it if the query would not return it or it is not
   * due, otherwise run the `try` block.
   */
  method ProcessItem(table: Table<Expense>, ghost rows0: seq<Row<Expense>>, ghost id0: nat, i: nat,
                     now: LocalDateTime, faults: SaveFaults)
    requires table.Valid() && i < |rows0|
    requires Progress(table.rows, table.nextId, rows0, id0, i, now, faults)
    requires !NullPeriod(rows0[i])
    modifies table
    ensures table.Valid()
    ensures Progress(table.rows, table.nextId, rows0, id0, i + 1, now, faults)
  {
    ghost var before := table.rows;
    assert before[i] == rows0[i];
    var row := table.rows[i];
    if !row.value.recurring {
      StepSkip(rows0, i, now, faults, id0);
      return;
    }
    var next := NextOccurrence(row.value.date, row.value.recurrencePeriod.value);
    if next.None? || !IsBefore(next.value, now) || IsBefore(next.value, row.value.date) {
      StepSkip(rows0, i, now, faults, id0);
      return;
    }
    SaveOccurrence(table, i, next.value, faults);
    StepProcessed(rows0, i, now, faults, id0, before, table.rows);
  }

  /**
   * The `try` block: save the copy, then move the original's date and save
   * it; a failing save ends the block and the loop goes on.
   */
  method SaveOccurrence(table: Table<Expense>, i: nat, next: LocalDateTime, faults: SaveFaults)
    requires table.Valid() && i < |table.rows|
    modifies table
    ensures table.Valid()
    ensures var row, copy := old(table.rows[i]), Row(old(table.nextId), CopyAt(old(table.rows[i].value), next));
      && table.nextId == old(table.nextId) + (if row.id in faults.copyFails then 0 else 1)
      && table.rows == if row.id in faults.copyFails then old(table.rows)
                       else if row.id in faults.originalFails then old(table.rows) + [copy]
                       else (old(table.rows) + [copy])[i := Row(row.id, row.value.(date := next))]
  {
    var row := table.rows[i];
    if row.id !in faults.copyFails {
      var copyId := table.Insert(CopyAt(row.value, next));
      if row.id !in faults.originalFails {
        FindByIdAt(table.rows, i);
        table.Update(row.id, row.value.(date := next));
      }
    }
  }

  /** The run state after a skipped row: the row moves from "pending" to "done" unchanged. */
  lemma StepSkip(rows0: seq<Row<Expense>>, i: nat, now: LocalDateTime, faults: SaveFaults, id0: nat)
    requires i < |rows0| && Due(rows0[i].value, now).None?
    requires rows0[i].value.recurring ==> rows0[i].value.recurrencePeriod.Some?
    requires !HasNullPeriod(rows0[..i])
    ensures !HasNullPeriod(rows0[..i + 1])
    ensures Copies(rows0[..i + 1], now, faults, id0) == Copies(rows0[..i], now, faults, id0)
    ensures Advanced(rows0[..i], now, faults) + rows0[i..] == Advanced(rows0[..i + 1], now, faults) + rows0[i + 1..]
  {
    assert rows0[..i + 1][..i] == rows0[..i];
    var a, b := Advanced(rows0[..i], now, faults) + rows0[i..], Advanced(rows0[..i + 1], now, faults) + rows0[i + 1..];
    assert |a| == |b|;
    forall k | 0 <= k < |a| ensures a[k] == b[k] {
      if k == i { assert b[k] == Advance(rows0[i], now, faults); }
    }
    assert !HasNullPeriod(rows0[..i + 1]) by {
      var p := rows0[..i + 1];
      forall k | 0 <= k < |p| ensures !NullPeriod(p[k]) {
        if k < i { assert p[k] == rows0[..i][k]; }
      }
    }
  }

  /** The run state after a processed row, whichever of its saves failed. */
  lemma StepProcessed(rows0: seq<Row<Expense>>, i: nat, now: LocalDateTime, faults: SaveFaults, id0: nat,
                      before: seq<Row<Expense>>, after: seq<Row<Expense>>)
    requires i < |rows0| && rows0[i].value.recurring && rows0[i].value.recurrencePeriod.Some?
    requires Due(rows0[i].value, now).Some?
    requires !HasNullPeriod(rows0[..i])
    requires before == Advanced(rows0[..i], now, faults) + rows0[i..] + Copies(rows0[..i], now, faults, id0)
    requires var next, id, nextId := Due(rows0[i].value, now).value, rows0[i].id, id0 + |Copies(rows0[..i], now, faults, id0)|;
      after == if id in faults.copyFails then before
               else if id in faults.originalFails then before + [Row(nextId, CopyAt(rows0[i].value, next))]
               else (before + [Row(nextId, CopyAt(rows0[i].value, next))])[i := Row(id, rows0[i].value.(date := next))]
    ensures !HasNullPeriod(rows0[..i + 1])
    ensures after == Advanced(rows0[..i + 1], now, faults) + rows0[i + 1..] + Copies(rows0[..i + 1], now, faults, id0)
  {
    assert rows0[..i + 1][..i] == rows0[..i];
    assert !HasNullPeriod(rows0[..i + 1]) by {
      var p := rows0[..i + 1];
      forall k | 0 <= k < |p| ensures !NullPeriod(p[k]) {
        if k < i { assert p[k] == rows0[..i][k]; }
      }
    }
    var target := Advanced(rows0[..i + 1], now, faults) + rows0[i + 1..] + Copies(rows0[..i + 1], now, faults, id0);
    assert |after| == |target|;
    forall k | 0 <= k < |after| ensures after[k] == target[k] {
      if k == i { assert target[k] == Advance(rows0[i], now, faults); }
    }
  }
}
