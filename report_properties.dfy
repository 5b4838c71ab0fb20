/**
 * What the expense-report pipeline promises: both row layouts give the same
 * report, unparseable dates are tolerated, the date range is inclusive, and the
 * two series hold per-key sums that agree with each other.
 */
module ReportProperties {
  import opened Wrappers
  import opened Series
  import opened ExpenseReport

  /** The 6-column rows obtained by giving every 5-column row a leading id. */
  function WithIds(rows: seq<Row>, ids: seq<Cell>): (r: seq<Row>)
    requires |ids| == |rows|
    ensures |r| == |rows|
    ensures forall i :: 0 <= i < |rows| ==> r[i] == [ids[i]] + rows[i]
  {
    if rows == [] then [] else [[ids[0]] + rows[0]] + WithIds(rows[1..], ids[1..])
  }

  /** A 6-column row and the same row without its id name the same fields. */
  lemma LabelWithId(id: Cell, row: Row)
    ensures Label([id] + row, WithId) == Label(row, WithoutId)
  {
  }

  lemma WidthWithIds(rows: seq<Row>, ids: seq<Cell>)
    requires |ids| == |rows| && rows != []
    ensures Width(WithIds(rows, ids)) == Width(rows) + 1
  {
  }

  lemma {:induction false} ParsedWithIds(rows: seq<Row>, ids: seq<Cell>, parse: Cell -> Option<Day>)
    requires |ids| == |rows|
    ensures Parsed(WithIds(rows, ids), WithId, parse) == Parsed(rows, WithoutId, parse)
  {
    if rows != [] {
      var six := WithIds(rows, ids);
      assert six[1..] == WithIds(rows[1..], ids[1..]);
      LabelWithId(ids[0], rows[0]);
      ParsedWithIds(rows[1..], ids[1..], parse);
    }
  }

  /**
   * Shape invariance: the 5-column rows and the same rows with a leading id
   * column give the same outcome.
   */
  lemma ShapeInvariance(rows: seq<Row>, ids: seq<Cell>, start: Day, end: Day, parse: Cell -> Option<Day>)
    requires |ids| == |rows| && Width(rows) == 5
    ensures PlotExpensesCharts(WithIds(rows, ids), start, end, parse) == PlotExpensesCharts(rows, start, end, parse)
  {
    WidthWithIds(rows, ids);
    ParsedWithIds(rows, ids, parse);
  }

  /** A row whose date does not parse changes nothing, as long as the column count stays. */
  lemma UnparseableRowIgnored(bad: Row, rows: seq<Row>, start: Day, end: Day, parse: Cell -> Option<Day>)
    requires rows != [] && |bad| <= Width(rows)
    requires LayoutOf(Width(rows)).Some?
    requires ToDay(parse, Label(bad, LayoutOf(Width(rows)).value).date) == None
    ensures PlotExpensesCharts([bad] + rows, start, end, parse) == PlotExpensesCharts(rows, start, end, parse)
  {
  }

  /** A row dated outside the range changes nothing, as long as the column count stays. */
  lemma OutOfRangeRowIgnored(bad: Row, d: Day, rows: seq<Row>, start: Day, end: Day, parse: Cell -> Option<Day>)
    requires rows != [] && |bad| <= Width(rows)
    requires LayoutOf(Width(rows)).Some?
    requires ToDay(parse, Label(bad, LayoutOf(Width(rows)).value).date) == Some(d)
    requires d < start || end < d
    ensures PlotExpensesCharts([bad] + rows, start, end, parse) == PlotExpensesCharts(rows, start, end, parse)
  {
    var all := [bad] + rows;
    assert Width(all) == Width(rows) by {
      assert all[1..] == rows;
    }
    KeptSkipsOutOfRange(bad, d, rows, LayoutOf(Width(rows)).value, start, end, parse);
  }

  lemma KeptSkipsOutOfRange(bad: Row, d: Day, rows: seq<Row>, layout: Layout, start: Day, end: Day, parse: Cell -> Option<Day>)
    requires ToDay(parse, Label(bad, layout).date) == Some(d)
    requires d < start || end < d
    ensures KeptRows([bad] + rows, layout, start, end, parse) == KeptRows(rows, layout, start, end, parse)
  {
    var all := [bad] + rows;
    assert all[1..] == rows;
    var parsed := Parsed(all, layout, parse);
    assert parsed[1..] == Parsed(rows, layout, parse);
  }

  /**
   * When every row's date either does not parse or falls outside the range, the
   * outcome is "none in range", not a report and not "no expenses".
   */
  lemma NothingKept(rows: seq<Row>, start: Day, end: Day, parse: Cell -> Option<Day>)
    requires rows != [] && LayoutOf(Width(rows)).Some?
    requires forall row :: row in rows ==>
               var t := ToDay(parse, Label(row, LayoutOf(Width(rows)).value).date);
               t == None || t.value < start || end < t.value
    ensures PlotExpensesCharts(rows, start, end, parse) == NoneInRange
  {
    var kept := KeptRows(rows, LayoutOf(Width(rows)).value, start, end, parse);
    assert forall x :: x !in kept;
  }

  /** A reversed range keeps nothing. */
  lemma ReversedRange(rows: seq<Row>, start: Day, end: Day, parse: Cell -> Option<Day>)
    requires rows != [] && LayoutOf(Width(rows)).Some? && start > end
    ensures PlotExpensesCharts(rows, start, end, parse) == NoneInRange
  {
  }

  lemma {:induction false} DaysIn(xs: seq<Dated>, d: Day)
    ensures d in Days(xs) <==> exists x :: x in xs && x.day == d
  {
    if xs != [] {
      DaysIn(xs[1..], d);
      assert forall x :: x in xs[1..] ==> x in xs;
      assert forall x :: x in xs ==> x == xs[0] || x in xs[1..];
    }
  }

  lemma {:induction false} CategoriesIn(xs: seq<Dated>, c: Cell)
    ensures c in Categories(xs) <==> c != Null && exists x :: x in xs && x.expense.category == c
  {
    if xs != [] {
      CategoriesIn(xs[1..], c);
      assert forall x :: x in xs[1..] ==> x in xs;
      assert forall x :: x in xs ==> x == xs[0] || x in xs[1..];
    }
  }

  /**
   * Inclusive bounds: a row whose date parses to a day from `start` to `end`,
   * the two ends included, yields a report whose daily series has that day.
   */
  lemma InclusiveBounds(rows: seq<Row>, row: Row, d: Day, start: Day, end: Day, parse: Cell -> Option<Day>)
    requires row in rows && LayoutOf(Width(rows)).Some?
    requires ToDay(parse, Label(row, LayoutOf(Width(rows)).value).date) == Some(d)
    requires start <= d <= end
    ensures PlotExpensesCharts(rows, start, end, parse).Report?
    ensures d in Keys(PlotExpensesCharts(rows, start, end, parse).daily)
  {
    var layout := LayoutOf(Width(rows)).value;
    var x := Dated(Label(row, layout), d);
    var kept := KeptRows(rows, layout, start, end, parse);
    assert x in kept;
    DaysIn(kept, d);
  }

  /**
   * The daily series: strictly ascending dates, exactly one entry per distinct
   * kept date, every date inside the range, and each total the sum of the kept
   * rows of that date.
   */
  lemma DailySeries(rows: seq<Row>, start: Day, end: Day, parse: Cell -> Option<Day>)
    ensures var o := PlotExpensesCharts(rows, start, end, parse);
            o.Report? ==>
              var kept := KeptRows(rows, LayoutOf(Width(rows)).value, start, end, parse);
              && (forall i, j :: 0 <= i < j < |o.daily| ==> o.daily[i].key < o.daily[j].key)
              && Keys(o.daily) == Days(kept)
              && |o.daily| == |Days(kept)|
              && (forall i :: 0 <= i < |o.daily| ==> start <= o.daily[i].key <= end)
              && (forall i :: 0 <= i < |o.daily| ==> o.daily[i].total == DaySum(kept, o.daily[i].key))
  {
    var o := PlotExpensesCharts(rows, start, end, parse);
    if o.Report? {
      var daily := o.daily;
      var kept := KeptRows(rows, LayoutOf(Width(rows)).value, start, end, parse);
      AscendingAt(daily);
      AscendingDistinct(daily);
      DistinctCount(daily);
      forall i | 0 <= i < |daily|
        ensures start <= daily[i].key <= end && daily[i].total == DaySum(kept, daily[i].key)
      {
        KeysIndex(daily, daily[i].key);
        DaysIn(kept, daily[i].key);
        LookupAt(daily, i);
      }
    }
  }

  /**
   * The category series: one entry per distinct category of the kept rows,
   * compared exactly, each total the sum of that category's kept rows.
   */
  lemma CategorySeries(rows: seq<Row>, start: Day, end: Day, parse: Cell -> Option<Day>)
    ensures var o := PlotExpensesCharts(rows, start, end, parse);
            o.Report? ==>
              var kept := KeptRows(rows, LayoutOf(Width(rows)).value, start, end, parse);
              && DistinctKeys(o.byCategory)
              && Keys(o.byCategory) == Categories(kept)
              && |o.byCategory| == |Categories(kept)|
              && (forall i :: 0 <= i < |o.byCategory| ==> o.byCategory[i].total == CategorySum(kept, o.byCategory[i].key))
  {
    var o := PlotExpensesCharts(rows, start, end, parse);
    if o.Report? {
      var byCategory := o.byCategory;
      var kept := KeptRows(rows, LayoutOf(Width(rows)).value, start, end, parse);
      DistinctCount(byCategory);
      forall i | 0 <= i < |byCategory|
        ensures byCategory[i].total == CategorySum(kept, byCategory[i].key)
      {
        KeysIndex(byCategory, byCategory[i].key);
        CategoriesIn(kept, byCategory[i].key);
        LookupAt(byCategory, i);
      }
    }
  }

  /**
   * Cross-series totals: the daily series sums to the kept amount; the category
   * series to the same amount less the rows without a category, so the two
   * agree when every kept row has one.
   */
  lemma CrossTotals(rows: seq<Row>, start: Day, end: Day, parse: Cell -> Option<Day>)
    ensures var o := PlotExpensesCharts(rows, start, end, parse);
            o.Report? ==>
              var kept := KeptRows(rows, LayoutOf(Width(rows)).value, start, end, parse);
              && SeriesTotal(o.daily) == Total(kept)
              && SeriesTotal(o.byCategory) == Total(kept) - CategorySum(kept, Null)
              && ((forall x :: x in kept ==> x.expense.category != Null) ==> SeriesTotal(o.byCategory) == SeriesTotal(o.daily))
  {
    var o := PlotExpensesCharts(rows, start, end, parse);
    if o.Report? {
      var kept := KeptRows(rows, LayoutOf(Width(rows)).value, start, end, parse);
      if forall x :: x in kept ==> x.expense.category != Null {
        NoNullCategory(kept);
      }
    }
  }

  /**
   * A row with a missing amount adds nothing: the overall total, every date's
   * total and every category's total are what they are without it.
   */
  lemma MissingAmountSkipped(x: Dated, xs: seq<Dated>)
    requires x.expense.amount == Null
    ensures Total([x] + xs) == Total(xs)
    ensures forall d :: DaySum([x] + xs, d) == DaySum(xs, d)
    ensures forall c :: CategorySum([x] + xs, c) == CategorySum(xs, c)
  {
    assert ([x] + xs)[1..] == xs;
  }

  lemma {:induction false} NoNullCategory(xs: seq<Dated>)
    requires forall x :: x in xs ==> x.expense.category != Null
    ensures CategorySum(xs, Null) == 0
  {
    if xs != [] {
      assert xs[0] in xs;
      NoNullCategory(xs[1..]);
    }
  }
}
