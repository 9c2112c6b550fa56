/** The numbers of `OutputCSV`: one column pair per key of the totals (the
    day's count and the running cumulative), one row per day in the order
    of the days dictionary. The text (separators, date formatting, the
    file) is not modelled; rows are numbers. */
module CsvOutput {
  import opened Dictionaries
  import opened Steam
  import opened PicsInfo
  import opened Aggregation
  import opened AggregationProperties

  /** One column pair: `{t};{cums[key]}`. */
  datatype Cell = Cell(daily: int, cumulative: int)

  /** One line after the header: the day and one cell per key of the totals. */
  datatype Row = Row(date: int, cells: seq<Cell>)

  /** The day enumerated `i`-th. */
  function DayAt(data: DailyReport, i: nat): DayInfo
    requires Valid(data.days) && i < |data.days.keys|
  {
    data.days.items[data.days.keys[i]]
  }

  /** `t`: the day's count of `key`, 0 when the day lacks the key. */
  function Daily(day: DayInfo, key: string): int {
    if key in day.entries then day.entries[key] else 0
  }

  /** The running total of `key` after the first `n` days. */
  function Cumulative(data: DailyReport, n: nat, key: string): int
    requires Valid(data.days) && n <= |data.days.keys|
  {
    if n == 0 then 0 else Cumulative(data, n - 1, key) + Daily(DayAt(data, n - 1), key)
  }

  /** `cums` after the first `n` days: every key of the totals, and no other. */
  function CumulativeAt(data: DailyReport, n: nat): map<string, int>
    requires Valid(data.days) && n <= |data.days.keys|
  {
    map key | key in data.totals.items :: Cumulative(data, n, key)
  }

  /** Row `i`: that day's date, and per column the day's count and the
      cumulative through that day. */
  ghost predicate RowIs(data: DailyReport, i: nat, row: Row)
    requires Valid(data.days) && i < |data.days.keys|
  {
    && row.date == data.days.keys[i]
    && |row.cells| == |data.totals.keys|
    && forall c | 0 <= c < |row.cells| ::
         row.cells[c] == Cell(Daily(DayAt(data, i), data.totals.keys[c]), Cumulative(data, i + 1, data.totals.keys[c]))
  }

  /** The header loop and the day loop of `OutputCSV`, with the columns the
      header names. */
  method CumulativeRows(data: DailyReport) returns (columns: seq<string>, rows: seq<Row>, cums: map<string, int>)
    requires Valid(data.days) && Valid(data.totals)
    ensures columns == data.totals.keys
    ensures |rows| == |data.days.keys|
    ensures forall i | 0 <= i < |rows| :: RowIs(data, i, rows[i])
    ensures cums == CumulativeAt(data, |data.days.keys|)
  {
    columns := data.totals.keys;
    cums := map[];
    var j := 0;
    while j < |columns|
      invariant 0 <= j <= |columns|
      invariant cums.Keys == Elements(columns[..j])
      invariant forall key | key in cums :: cums[key] == 0
    {
      assert columns[..j + 1] == columns[..j] + [columns[j]];
      cums := cums[columns[j] := 0];
      j := j + 1;
    }
    assert columns[..j] == columns;
    assert cums == CumulativeAt(data, 0);
    rows := [];
    var i := 0;
    while i < |data.days.keys|
      invariant 0 <= i <= |data.days.keys|
      invariant |rows| == i
      invariant forall r | 0 <= r < i :: RowIs(data, r, rows[r])
      invariant cums == CumulativeAt(data, i)
    {
      var date := data.days.keys[i];
      var cells;
      cells, cums := DayRow(data, i, cums);
      rows := rows + [Row(date, cells)];
      i := i + 1;
    }
  }

  /** The key loop for day `i`: each cell, and `cums` advanced by that day. */
  method DayRow(data: DailyReport, i: nat, cums0: map<string, int>) returns (cells: seq<Cell>, cums: map<string, int>)
    requires Valid(data.days) && Valid(data.totals) && i < |data.days.keys|
    requires cums0 == CumulativeAt(data, i)
    ensures RowIs(data, i, Row(data.days.keys[i], cells))
    ensures cums == CumulativeAt(data, i + 1)
  {
    var columns := data.totals.keys;
    var day := data.days.items[data.days.keys[i]];
    cums := cums0;
    cells := [];
    var j := 0;
    while j < |columns|
      invariant 0 <= j <= |columns|
      invariant |cells| == j
      invariant forall c | 0 <= c < j ::
        cells[c] == Cell(Daily(day, columns[c]), Cumulative(data, i + 1, columns[c]))
      invariant cums.Keys == data.totals.items.Keys
      invariant forall c | 0 <= c < j :: cums[columns[c]] == Cumulative(data, i + 1, columns[c])
      invariant forall c | j <= c < |columns| :: cums[columns[c]] == Cumulative(data, i, columns[c])
    {
      var key := columns[j];
      assert forall c | 0 <= c < |columns| && c != j :: columns[c] != key;
      var t := if key in day.entries then day.entries[key] else 0;
      cums := cums[key := cums[key] + t];
      cells := cells + [Cell(t, cums[key])];
      j := j + 1;
    }
    forall key | key in cums ensures cums[key] == Cumulative(data, i + 1, key) {
      var c :| 0 <= c < |columns| && columns[c] == key;
    }
  }

  // ---------------------------------------------------------------------
  // What the cumulative columns mean.

  /** The cumulative after `n` days is the sum over those days of the
      key's count. */
  lemma {:induction false} CumulativeIsPrefixSum(data: DailyReport, n: nat, key: string)
    requires Valid(data.days) && n <= |data.days.keys|
    ensures Cumulative(data, n, key) == SumOver(data.days.keys[..n], data.days.items, EntryCount(key))
  {
    if n > 0 {
      CumulativeIsPrefixSum(data, n - 1, key);
      assert data.days.keys[..n][..n - 1] == data.days.keys[..n - 1];
      assert data.days.keys[..n][n - 1] == data.days.keys[n - 1];
    }
  }

  /** The last row's cumulative is the sum of the key over all days. */
  lemma FinalCumulativeIsDaySum(data: DailyReport, key: string)
    requires Valid(data.days)
    ensures Cumulative(data, |data.days.keys|, key) == DaySum(data.days, key)
  {
    CumulativeIsPrefixSum(data, |data.days.keys|, key);
    assert data.days.keys[..|data.days.keys|] == data.days.keys;
  }

  ghost predicate NoNegativeCounts(days: Dict<int, DayInfo>) {
    forall d, key | d in days.items && key in days.items[d].entries :: days.items[d].entries[key] >= 0
  }

  /** With no negative daily count, each cumulative column is
      non-decreasing down the rows. */
  lemma {:induction false} CumulativeMonotone(data: DailyReport, n: nat, m: nat, key: string)
    requires Valid(data.days) && NoNegativeCounts(data.days)
    requires n <= m <= |data.days.keys|
    ensures Cumulative(data, n, key) <= Cumulative(data, m, key)
  {
    if n < m {
      CumulativeMonotone(data, n, m - 1, key);
      var d := data.days.keys[m - 1];
      assert d in data.days.items;
      if key in data.days.items[d].entries {
        assert data.days.items[d].entries[key] >= 0;
      }
    }
  }

  /** Rendering the aggregation of `Main`: every cumulative column only
      grows, and the last row holds exactly the key's total. */
  lemma SummaryCumulatives(licenses: seq<License>, packages: map<nat, PackageInfo>, apps: map<nat, AppInfo>)
    requires Resolves(licenses, packages, apps)
    ensures var t := Summarize(licenses, packages, apps);
      var data := DailyReport(t.totals, t.days);
      && (forall key: string, n: nat, m: nat | n <= m <= |data.days.keys| :: Cumulative(data, n, key) <= Cumulative(data, m, key))
      && CumulativeAt(data, |data.days.keys|) == data.totals.items
  {
    var t := Summarize(licenses, packages, apps);
    var data := DailyReport(t.totals, t.days);
    RunCountsPositive(Ordered(licenses), packages, apps);
    TotalsAreDaySums(Ordered(licenses), packages, apps);
    forall key: string, n: nat, m: nat | n <= m <= |data.days.keys| ensures Cumulative(data, n, key) <= Cumulative(data, m, key) {
      CumulativeMonotone(data, n, m, key);
    }
    forall key | key in data.totals.items
      ensures CumulativeAt(data, |data.days.keys|)[key] == data.totals.items[key]
    {
      FinalCumulativeIsDaySum(data, key);
    }
  }
}
