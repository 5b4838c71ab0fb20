/**
 * The data behind the two expense charts (`plot_expenses_charts`, app.py): the
 * rows of one user are given a column layout by their column count, their dates
 * are coerced (rows whose date does not parse are dropped), the rows inside the
 * inclusive date range are kept, and their amounts are summed per date (the bar
 * chart) and per category (the pie chart).
 */
module ExpenseReport {
  import opened Wrappers
  import opened Series

  /** A calendar date, as a day number. */
  type Day = int

  /** One stored value: SQL NULL (pandas' missing value), a number, or text. */
  datatype Cell = Null | Num(n: int) | Text(s: string)

  /** One row as the storage returns it: a tuple of cells. */
  type Row = seq<Cell>

  /** The two column layouts the storage may return. */
  datatype Layout =
    | WithId    // id, user_id, amount, category, date, description
    | WithoutId // user_id, amount, category, date, description

  /** A row with its columns named. */
  datatype Expense = Expense(userId: Cell, amount: Cell, category: Cell, date: Cell, description: Cell)

  /** An expense whose date field parsed, with the parsed date. */
  datatype Dated = Dated(expense: Expense, day: Day)

  /** What the report view ends with. */
  datatype Outcome =
    | ShapeError(columns: nat) // "Unexpected number of columns"
    | NoExpenses               // "No expenses found"
    | NoneInRange              // "No expenses found in the selected date range"
    | Report(daily: seq<Entry<Day>>, byCategory: seq<Entry<Cell>>)

  /**
   * The column count of the frame built from `rows`: the longest row, since
   * shorter rows are padded with missing values.
   */
  function Width(rows: seq<Row>): (w: nat)
    ensures forall row :: row in rows ==> |row| <= w
    ensures rows != [] ==> exists row :: row in rows && |row| == w
    ensures rows == [] ==> w == 0
  {
    if rows == [] then 0
    else if |rows[0]| >= Width(rows[1..]) then |rows[0]|
    else Width(rows[1..])
  }

  /** Column `i` of a row, missing when the row is shorter than the frame. */
  function At(row: Row, i: nat): Cell
  {
    if i < |row| then row[i] else Null
  }

  /** The layout a column count selects; no other count is accepted. */
  function LayoutOf(columns: nat): (l: Option<Layout>)
    ensures l == Some(WithId) <==> columns == 6
    ensures l == Some(WithoutId) <==> columns == 5
    ensures l == None <==> columns != 5 && columns != 6
  {
    if columns == 6 then Some(WithId)
    else if columns == 5 then Some(WithoutId)
    else None
  }

  /** The five named fields of an expense, in column order. */
  function Fields(e: Expense): seq<Cell>
  {
    [e.userId, e.amount, e.category, e.date, e.description]
  }

  /** `n` missing values: the padding of a row shorter than the frame. */
  function Missing(n: nat): seq<Cell>
  {
    seq(n, _ => Null)
  }

  /**
   * Names the columns of one row according to the layout: the cells after the
   * id, if any, are the five fields in order, and the fields past the end of a
   * short row are missing.
   */
  function Label(row: Row, layout: Layout): (r: Expense)
    ensures layout == WithoutId && |row| <= 5 ==> Fields(r) == row + Missing(5 - |row|)
    ensures layout == WithId && |row| <= 6 ==> Fields(r) == (row + Missing(6 - |row|))[1..]
  {
    var first := if layout == WithId then 1 else 0;
    Expense(At(row, first), At(row, first + 1), At(row, first + 2), At(row, first + 3), At(row, first + 4))
  }

  /** Date coercion of one field: a missing value never parses. */
  function ToDay(parse: Cell -> Option<Day>, c: Cell): Option<Day>
  {
    if c == Null then None else parse(c)
  }

  /** The amount a row contributes to a sum: a missing or non-numeric amount adds nothing. */
  function Amount(x: Dated): int
  {
    if x.expense.amount.Num? then x.expense.amount.n else 0
  }

  /**
   * Every row labelled, its date coerced, and the rows whose date does not
   * parse dropped.
   */
  function Parsed(rows: seq<Row>, layout: Layout, parse: Cell -> Option<Day>): (r: seq<Dated>)
    ensures |r| <= |rows|
    ensures forall x :: x in r ==> x.expense.date != Null
    ensures forall x :: x in r ==> ToDay(parse, x.expense.date) == Some(x.day)
    ensures forall x :: x in r ==> exists row :: row in rows && Label(row, layout) == x.expense
    ensures forall row :: row in rows && ToDay(parse, Label(row, layout).date).Some? ==>
              Dated(Label(row, layout), ToDay(parse, Label(row, layout).date).value) in r
    ensures forall x :: multiset(r)[x] == Matches(rows, layout, parse, x)
  {
    if rows == [] then []
    else
      var e := Label(rows[0], layout);
      var rest := Parsed(rows[1..], layout, parse);
      match ToDay(parse, e.date)
      case None => rest
      case Some(d) => [Dated(e, d)] + rest
  }

  /** How many of `rows` are labelled `x.expense` and have a date that parses to `x.day`. */
  function Matches(rows: seq<Row>, layout: Layout, parse: Cell -> Option<Day>, x: Dated): nat
  {
    if rows == [] then 0
    else
      var hit := Label(rows[0], layout) == x.expense && ToDay(parse, x.expense.date) == Some(x.day);
      (if hit then 1 else 0) + Matches(rows[1..], layout, parse, x)
  }

  /** The rows dated within `start..end`, both ends included. */
  function InRange(xs: seq<Dated>, start: Day, end: Day): (r: seq<Dated>)
    ensures |r| <= |xs|
    ensures forall x :: x in r <==> x in xs && start <= x.day <= end
    ensures forall x :: multiset(r)[x] == if start <= x.day <= end then multiset(xs)[x] else 0
  {
    if xs == [] then []
    else
      var rest := InRange(xs[1..], start, end);
      assert xs == [xs[0]] + xs[1..];
      if start <= xs[0].day <= end then [xs[0]] + rest else rest
  }

  /** The rows a report is built from. */
  function KeptRows(rows: seq<Row>, layout: Layout, start: Day, end: Day, parse: Cell -> Option<Day>): seq<Dated>
  {
    InRange(Parsed(rows, layout, parse), start, end)
  }

  // Reference sums over the kept rows, one row at a time.

  function Total(xs: seq<Dated>): int
  {
    if xs == [] then 0 else Amount(xs[0]) + Total(xs[1..])
  }

  /** The summed amount of the rows dated `d`. */
  function DaySum(xs: seq<Dated>, d: Day): int
  {
    if xs == [] then 0 else (if xs[0].day == d then Amount(xs[0]) else 0) + DaySum(xs[1..], d)
  }

  /** The summed amount of the rows whose category is exactly `c`. */
  function CategorySum(xs: seq<Dated>, c: Cell): int
  {
    if xs == [] then 0
    else (if xs[0].expense.category == c then Amount(xs[0]) else 0) + CategorySum(xs[1..], c)
  }

  /** The distinct dates of the rows. */
  function Days(xs: seq<Dated>): set<Day>
  {
    if xs == [] then {} else {xs[0].day} + Days(xs[1..])
  }

  /** The distinct categories of the rows; a missing category forms no group. */
  function Categories(xs: seq<Dated>): set<Cell>
  {
    if xs == [] then {}
    else if xs[0].expense.category == Null then Categories(xs[1..])
    else {xs[0].expense.category} + Categories(xs[1..])
  }

  /** `groupby('date')['amount'].sum()`: one entry per date, in date order. */
  function DailyTotals(xs: seq<Dated>): (r: seq<Entry<Day>>)
    ensures Ascending(r)
    ensures Keys(r) == Days(xs)
    ensures forall d :: Lookup(r, d) == DaySum(xs, d)
    ensures SeriesTotal(r) == Total(xs)
  {
    if xs == [] then [] else Insert(DailyTotals(xs[1..]), xs[0].day, Amount(xs[0]))
  }

  /**
   * `groupby('category')['amount'].sum()`: one entry per category; rows with a
   * missing category are left out of every group.
   */
  function CategoryTotals(xs: seq<Dated>): (r: seq<Entry<Cell>>)
    ensures DistinctKeys(r)
    ensures Keys(r) == Categories(xs)
    ensures forall c :: c != Null ==> Lookup(r, c) == CategorySum(xs, c)
    ensures SeriesTotal(r) == Total(xs) - CategorySum(xs, Null)
  {
    if xs == [] then []
    else if xs[0].expense.category == Null then CategoryTotals(xs[1..])
    else Add(CategoryTotals(xs[1..]), xs[0].expense.category, Amount(xs[0]))
  }

  /** The expense-report pipeline of the charts view, ending at the two series. */
  function PlotExpensesCharts(rows: seq<Row>, start: Day, end: Day, parse: Cell -> Option<Day>): (o: Outcome)
    ensures o == NoExpenses <==> rows == []
    ensures o.ShapeError? <==> rows != [] && Width(rows) != 5 && Width(rows) != 6
    ensures o.ShapeError? ==> o.columns == Width(rows)
    ensures o.Report? ==> o.daily != []
  {
    if rows == [] then NoExpenses
    else
      match LayoutOf(Width(rows))
      case None => ShapeError(Width(rows))
      case Some(layout) =>
        var kept := KeptRows(rows, layout, start, end, parse);
        if kept == [] then NoneInRange
        else Report(DailyTotals(kept), CategoryTotals(kept))
  }
}
