/**
 * The date range of the report view (`expense_tracker`, app.py): its default
 * start and end, and the guard that refuses a reversed range before any
 * aggregation.
 */
module ReportRange {
  import opened Wrappers
  import opened ExpenseReport

  /** Days the default range reaches back from today. */
  const Lookback: nat := 30

  /**
   * The default start: 30 days before today, or the date of the last expense
   * added in this session when that is earlier. No such date counts as today.
   */
  function DefaultStart(today: Day, lastAdded: Option<Day>): (d: Day)
    ensures d <= today - Lookback
    ensures d <= lastAdded.GetOr(today)
    ensures d == today - Lookback || d == lastAdded.GetOr(today)
  {
    var last := lastAdded.GetOr(today);
    if today - Lookback <= last then today - Lookback else last
  }

  /** The default end: today, never before the default start. */
  function DefaultEnd(today: Day): (e: Day)
    ensures e == today
    ensures forall lastAdded :: DefaultStart(today, lastAdded) <= e
  {
    today
  }

  /** What the report view shows for a chosen range. */
  datatype View =
    | RangeRefused    // "Start date must be before or equal to end date."
    | Shown(outcome: Outcome)

  /** Refuses a reversed range; otherwise aggregates the user's rows. */
  function ViewExpenses(rows: seq<Row>, start: Day, end: Day, parse: Cell -> Option<Day>): (v: View)
    ensures v == RangeRefused <==> start > end
    ensures v.Shown? ==> v.outcome == PlotExpensesCharts(rows, start, end, parse)
  {
    if start > end then RangeRefused
    else Shown(PlotExpensesCharts(rows, start, end, parse))
  }

  /** The default range is never refused, even when the last expense is dated after today. */
  lemma DefaultRangeShown(rows: seq<Row>, today: Day, lastAdded: Option<Day>, parse: Cell -> Option<Day>)
    ensures ViewExpenses(rows, DefaultStart(today, lastAdded), DefaultEnd(today), parse).Shown?
  {
  }

  /** Every day from 30 days ago to today, both included, lies inside the default range. */
  lemma DefaultRangeCoversLookback(today: Day, lastAdded: Option<Day>, d: Day)
    requires today - Lookback <= d <= today
    ensures DefaultStart(today, lastAdded) <= d <= DefaultEnd(today)
  {
  }
}
