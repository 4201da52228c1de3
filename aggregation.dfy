/**
 * The arithmetic every statistics summary is made of: sums and counts of
 * record amounts, overall and grouped by a key (month, day of month,
 * category or source), and the `put(k, getOrDefault(k, 0) + x)` loops that
 * fill the grouped maps.
 */
module Aggregation {
  import opened Dates
  import opened Ledger

  /**
   * A record as the summaries read it: its amount, its date and its grouping
   * label (the category display name of an expense, the source of an income).
   */
  datatype Entry = Entry(amount: real, date: LocalDateTime, group: string)

  function MonthOf(e: Entry): int { e.date.month }
  function DayOf(e: Entry): int { e.date.day }
  function GroupOf(e: Entry): string { e.group }

  /** The sum of all amounts: `stream().map(amount).reduce(ZERO, add)`. */
  function Total(s: seq<Entry>): real {
    if s == [] then 0.0 else Total(s[..|s| - 1]) + s[|s| - 1].amount
  }

  /** The sum of the amounts of the records whose key is `k`. */
  function KeyTotal<K(==)>(s: seq<Entry>, key: Entry -> K, k: K): real {
    if s == [] then 0.0
    else KeyTotal(s[..|s| - 1], key, k) + (if key(s[|s| - 1]) == k then s[|s| - 1].amount else 0.0)
  }

  /** The number of records whose key is `k`. */
  function KeyCount<K(==)>(s: seq<Entry>, key: Entry -> K, k: K): nat {
    if s == [] then 0
    else KeyCount(s[..|s| - 1], key, k) + (if key(s[|s| - 1]) == k then 1 else 0)
  }

  /** A key has a positive count exactly when some record carries it. */
  lemma {:induction false} KeyCountPositive<K>(s: seq<Entry>, key: Entry -> K, k: K)
    ensures KeyCount(s, key, k) > 0 <==> exists i :: 0 <= i < |s| && key(s[i]) == k
  {
    if s != [] {
      var init := s[..|s| - 1];
      KeyCountPositive(init, key, k);
      assert forall i :: 0 <= i < |init| ==> init[i] == s[i];
      if KeyCount(init, key, k) > 0 {
        var i :| 0 <= i < |init| && key(init[i]) == k;
        assert key(s[i]) == k;
      }
    }
  }

  /** `m.put(k, m.getOrDefault(k, ZERO).add(a))`. */
  function Accumulate<K>(m: map<K, real>, k: K, a: real): map<K, real> {
    m[k := (if k in m then m[k] else 0.0) + a]
  }

  /** `m.put(k, m.getOrDefault(k, 0L) + 1)`. */
  function Tick<K>(m: map<K, int>, k: K): map<K, int> {
    m[k := (if k in m then m[k] else 0) + 1]
  }

  /** Some key of a non-empty map: the one the sums below take out first. */
  ghost function Pick<K, V>(m: map<K, V>): (k: K)
    requires |m| > 0
    ensures k in m
  {
    var k :| k in m; k
  }

  lemma RemoveShrinks<K, V>(m: map<K, V>, k: K)
    requires k in m
    ensures |m - {k}| == |m| - 1
  {
    assert (m - {k}).Keys == m.Keys - {k};
  }

  /** The sum of all the values of a map. */
  ghost function SumValues<K>(m: map<K, real>): real
    decreases |m|
  {
    if |m| == 0 then 0.0
    else
      RemoveShrinks(m, Pick(m));
      m[Pick(m)] + SumValues(m - {Pick(m)})
  }

  /** The sum of all the values of a map of counts. */
  ghost function SumCounts<K>(m: map<K, int>): int
    decreases |m|
  {
    if |m| == 0 then 0
    else
      RemoveShrinks(m, Pick(m));
      m[Pick(m)] + SumCounts(m - {Pick(m)})
  }

  /** The sum does not depend on which key is taken out first. */
  lemma {:induction false} SumValuesRemove<K>(m: map<K, real>, k: K)
    requires k in m
    ensures SumValues(m) == m[k] + SumValues(m - {k})
    decreases |m|
  {
    var j := Pick(m);
    if j != k {
      RemoveShrinks(m, j);
      RemoveShrinks(m, k);
      SumValuesRemove(m - {j}, k);
      SumValuesRemove(m - {k}, j);
      assert m - {j} - {k} == m - {k} - {j};
    }
  }

  lemma {:induction false} SumCountsRemove<K>(m: map<K, int>, k: K)
    requires k in m
    ensures SumCounts(m) == m[k] + SumCounts(m - {k})
    decreases |m|
  {
    var j := Pick(m);
    if j != k {
      RemoveShrinks(m, j);
      RemoveShrinks(m, k);
      SumCountsRemove(m - {j}, k);
      SumCountsRemove(m - {k}, j);
      assert m - {j} - {k} == m - {k} - {j};
    }
  }

  /** Accumulating `a` under any key raises the sum of the values by exactly `a`. */
  lemma SumValuesAccumulate<K>(m: map<K, real>, k: K, a: real)
    ensures SumValues(Accumulate(m, k, a)) == SumValues(m) + a
  {
    var m' := Accumulate(m, k, a);
    SumValuesRemove(m', k);
    if k in m {
      SumValuesRemove(m, k);
      assert m' - {k} == m - {k};
    } else {
      assert m' - {k} == m;
    }
  }

  /** A tick under any key raises the sum of the counts by exactly one. */
  lemma SumCountsTick<K>(m: map<K, int>, k: K)
    ensures SumCounts(Tick(m, k)) == SumCounts(m) + 1
  {
    var m' := Tick(m, k);
    SumCountsRemove(m', k);
    if k in m {
      SumCountsRemove(m, k);
      assert m' - {k} == m - {k};
    } else {
      assert m' - {k} == m;
    }
  }

  /** A key no record carries has a zero sum. */
  lemma {:induction false} KeyTotalOfAbsent<K>(s: seq<Entry>, key: Entry -> K, k: K)
    requires KeyCount(s, key, k) == 0
    ensures KeyTotal(s, key, k) == 0.0
  {
    if s != [] {
      KeyTotalOfAbsent(s[..|s| - 1], key, k);
    }
  }

  /**
   * `totals` is the grouped sum of `s`: one key per group present, holding
   * that group's sum; its values add up to the overall total.
   */
  ghost predicate IsGroupedSum<K(!new)>(s: seq<Entry>, key: Entry -> K, totals: map<K, real>) {
    && (forall k :: k in totals <==> KeyCount(s, key, k) > 0)
    && (forall k :: k in totals ==> totals[k] == KeyTotal(s, key, k))
    && SumValues(totals) == Total(s)
  }

  /**
   * `counts` is the grouped count of `s`: one key per group present, holding
   * the number of records in it; the counts add up to the number of records.
   */
  ghost predicate IsGroupedCount<K(!new)>(s: seq<Entry>, key: Entry -> K, counts: map<K, int>) {
    && (forall k :: k in counts <==> KeyCount(s, key, k) > 0)
    && (forall k :: k in counts ==> counts[k] == KeyCount(s, key, k))
    && SumCounts(counts) == |s|
  }

  /** One more record, accumulated under its key, keeps the grouped sum exact. */
  lemma GroupedSumStep<K(!new)>(s: seq<Entry>, key: Entry -> K, totals: map<K, real>, e: Entry)
    requires IsGroupedSum(s, key, totals)
    ensures IsGroupedSum(s + [e], key, Accumulate(totals, key(e), e.amount))
  {
    var s' := s + [e];
    assert s'[..|s|] == s;
    var k0 := key(e);
    var next := Accumulate(totals, k0, e.amount);
    SumValuesAccumulate(totals, k0, e.amount);
    forall k | k in next ensures next[k] == KeyTotal(s', key, k) {
      if k == k0 && k0 !in totals {
        KeyTotalOfAbsent(s, key, k);
      }
    }
  }

  /** One more record, ticked under its key, keeps the grouped count exact. */
  lemma GroupedCountStep<K(!new)>(s: seq<Entry>, key: Entry -> K, counts: map<K, int>, e: Entry)
    requires IsGroupedCount(s, key, counts)
    ensures IsGroupedCount(s + [e], key, Tick(counts, key(e)))
  {
    assert (s + [e])[..|s|] == s;
    SumCountsTick(counts, key(e));
  }

  /** The grouped-sum loop `for (r : s) m.put(k, m.getOrDefault(k, ZERO).add(r.amount))`. */
  method SumByKey<K(==,!new)>(s: seq<Entry>, key: Entry -> K) returns (totals: map<K, real>)
    ensures IsGroupedSum(s, key, totals)
  {
    totals := map[];
    var i := 0;
    while i < |s|
      invariant 0 <= i <= |s|
      invariant IsGroupedSum(s[..i], key, totals)
    {
      assert s[..i + 1] == s[..i] + [s[i]];
      GroupedSumStep(s[..i], key, totals, s[i]);
      totals := Accumulate(totals, key(s[i]), s[i].amount);
      i := i + 1;
    }
    assert s[..|s|] == s;
  }

  /** The loop that fills a sum map and a count map side by side, keyed alike. */
  method SumAndCountByKey<K(==,!new)>(s: seq<Entry>, key: Entry -> K) returns (totals: map<K, real>, counts: map<K, int>)
    ensures IsGroupedSum(s, key, totals)
    ensures IsGroupedCount(s, key, counts)
    ensures totals.Keys == counts.Keys
  {
    totals, counts := map[], map[];
    var i := 0;
    while i < |s|
      invariant 0 <= i <= |s|
      invariant IsGroupedSum(s[..i], key, totals)
      invariant IsGroupedCount(s[..i], key, counts)
    {
      assert s[..i + 1] == s[..i] + [s[i]];
      GroupedSumStep(s[..i], key, totals, s[i]);
      GroupedCountStep(s[..i], key, counts, s[i]);
      totals := Accumulate(totals, key(s[i]), s[i].amount);
      counts := Tick(counts, key(s[i]));
      i := i + 1;
    }
    assert s[..|s|] == s;
  }

  /**
   * A repository query: the rows satisfying `p`, in repository order
   * (`findByYear`, `findByMonth`, `findByUserId` are instances).
   */
  function Where<T>(rows: seq<Row<T>>, p: T -> bool): (r: seq<Row<T>>)
    ensures |r| <= |rows|
    ensures forall i :: 0 <= i < |r| ==> r[i] in rows && p(r[i].value)
    ensures forall i :: 0 <= i < |rows| && p(rows[i].value) ==> rows[i] in r
  {
    if rows == [] then []
    else
      var init := rows[..|rows| - 1];
      assert rows == init + [rows[|rows| - 1]];
      Where(init, p) + (if p(rows[|rows| - 1].value) then [rows[|rows| - 1]] else [])
  }

  /** The records as the summaries read them. */
  function Project<T>(rows: seq<Row<T>>, f: T -> Entry): (r: seq<Entry>)
    ensures |r| == |rows|
    ensures forall i :: 0 <= i < |rows| ==> r[i] == f(rows[i].value)
  {
    seq(|rows|, i requires 0 <= i < |rows| => f(rows[i].value))
  }

  /** The sums and counts of a sequence grown by one record. */
  lemma SnocTotals<K>(s: seq<Entry>, e: Entry, key: Entry -> K, k: K)
    ensures Total(s + [e]) == Total(s) + e.amount
    ensures KeyTotal(s + [e], key, k) == KeyTotal(s, key, k) + (if key(e) == k then e.amount else 0.0)
    ensures KeyCount(s + [e], key, k) == KeyCount(s, key, k) + (if key(e) == k then 1 else 0)
  {
    assert (s + [e])[..|s|] == s;
  }

  lemma ProjectSnoc<T>(rows: seq<Row<T>>, x: Row<T>, f: T -> Entry)
    ensures Project(rows + [x], f) == Project(rows, f) + [f(x.value)]
  {
    var a, b := Project(rows + [x], f), Project(rows, f) + [f(x.value)];
    assert |a| == |b|;
    forall i | 0 <= i < |a| ensures a[i] == b[i] {
      if i < |rows| { assert (rows + [x])[i] == rows[i]; }
    }
  }

  /** The projection of a query result grown by one row. */
  lemma ProjectWhereSnoc<T>(rows: seq<Row<T>>, p: T -> bool, f: T -> Entry)
    requires rows != []
    ensures var x := rows[|rows| - 1];
      Project(Where(rows, p), f) ==
        Project(Where(rows[..|rows| - 1], p), f) + (if p(x.value) then [f(x.value)] else [])
  {
    var init, x := rows[..|rows| - 1], rows[|rows| - 1];
    if p(x.value) {
      assert Where(rows, p) == Where(init, p) + [x];
      ProjectSnoc(Where(init, p), x, f);
    } else {
      assert Where(rows, p) == Where(init, p);
    }
  }

  /**
   * Narrowing a query by one key value and summing gives that key's bucket
   * of the wider query: a month's total is the month bucket of its year.
   */
  lemma {:induction false} BucketOfWhere<T, K>(rows: seq<Row<T>>, f: T -> Entry, wide: T -> bool,
                                              narrow: T -> bool, key: Entry -> K, k: K)
    requires forall x :: narrow(x) == (wide(x) && key(f(x)) == k)
    ensures KeyTotal(Project(Where(rows, wide), f), key, k) == Total(Project(Where(rows, narrow), f))
    ensures KeyCount(Project(Where(rows, wide), f), key, k) == |Where(rows, narrow)|
  {
    if rows != [] {
      var init, x := rows[..|rows| - 1], rows[|rows| - 1];
      BucketOfWhere(init, f, wide, narrow, key, k);
      ProjectWhereSnoc(rows, wide, f);
      ProjectWhereSnoc(rows, narrow, f);
      var w, n := Project(Where(init, wide), f), Project(Where(init, narrow), f);
      var e := f(x.value);
      if narrow(x.value) {
        assert wide(x.value) && key(e) == k;
        SnocTotals(w, e, key, k);
        SnocTotals(n, e, key, k);
      } else if wide(x.value) {
        assert key(e) != k;
        SnocTotals(w, e, key, k);
        assert Project(Where(rows, narrow), f) == n;
      } else {
        assert Project(Where(rows, wide), f) == w;
        assert Project(Where(rows, narrow), f) == n;
      }
    }
  }
}
