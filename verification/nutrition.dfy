/** Meal items, their calorie and macro totals, the meal preview built
    after an extraction and the daily summary built from today's rows. */
module Nutrition {
  import opened Wrappers
  import Chart

  /** One food entry as the extractor returns it and as a `food_logs`
      row stores it. A field the extractor left out (`item.get(...)`
      giving None) or a NULL column is `None`. Quantities are modelled as
      integers. */
  datatype Item = Item(
    food: Option<string>,
    quantity: Option<string>,
    calories: Option<int>,
    protein: Option<int>,
    carbs: Option<int>,
    fat: Option<int>)

  /** The six columns `get_daily_summary` selects are an item's fields. */
  type Row = Item

  datatype Column = Calories | Protein | Carbs | Fat

  /** A numeric column with a missing value counted as 0 (`x or 0`). */
  function Value(it: Item, c: Column): int {
    match c
    case Calories => it.calories.GetOr(0)
    case Protein => it.protein.GetOr(0)
    case Carbs => it.carbs.GetOr(0)
    case Fat => it.fat.GetOr(0)
  }

  /** Sum of one column over a list of items, missing values counted as 0. */
  function Sum(items: seq<Item>, c: Column): int {
    if items == [] then 0 else Sum(items[..|items| - 1], c) + Value(items[|items| - 1], c)
  }

  /** Column sums split over concatenation. */
  lemma {:induction false} SumAppend(a: seq<Item>, b: seq<Item>, c: Column)
    ensures Sum(a + b, c) == Sum(a, c) + Sum(b, c)
  {
    if b == [] {
      assert a + b == a;
    } else {
      assert (a + b)[..|a + b| - 1] == a + b[..|b| - 1];
      SumAppend(a, b[..|b| - 1], c);
    }
  }

  /** A column sum is never negative when no item holds a negative value. */
  lemma {:induction false} SumNonNegative(items: seq<Item>, c: Column)
    requires forall k :: 0 <= k < |items| ==> Value(items[k], c) >= 0
    ensures Sum(items, c) >= 0
  {
    if items != [] {
      SumNonNegative(items[..|items| - 1], c);
    }
  }

  datatype Totals = Totals(calories: int, protein: int, carbs: int, fat: int)

  function TotalsOf(rows: seq<Row>): Totals {
    Totals(Sum(rows, Calories), Sum(rows, Protein), Sum(rows, Carbs), Sum(rows, Fat))
  }

  /** One line of the preview: quantity (default ""), food (default
      "Unknown") and calories (default 0). */
  datatype PreviewLine = PreviewLine(quantity: string, food: string, calories: int)

  function LineOf(it: Item): PreviewLine {
    PreviewLine(it.quantity.GetOr(""), it.food.GetOr("Unknown"), it.calories.GetOr(0))
  }

  function Lines(items: seq<Item>): seq<PreviewLine> {
    seq(|items|, k requires 0 <= k < |items| => LineOf(items[k]))
  }

  /** The preview loop of the webhook: one line per item in extraction
      order and the running calorie total. */
  method BuildPreview(items: seq<Item>) returns (lines: seq<PreviewLine>, total: int)
    ensures |lines| == |items|
    ensures forall k :: 0 <= k < |items| ==> lines[k] == LineOf(items[k])
    ensures total == Sum(items, Calories)
  {
    lines, total := [], 0;
    var i := 0;
    while i < |items|
      invariant 0 <= i <= |items|
      invariant |lines| == i
      invariant forall k :: 0 <= k < i ==> lines[k] == LineOf(items[k])
      invariant total == Sum(items[..i], Calories)
    {
      var it := items[i];
      var calories := it.calories.GetOr(0);
      lines := lines + [PreviewLine(it.quantity.GetOr(""), it.food.GetOr("Unknown"), calories)];
      total := total + calories;
      assert items[..i + 1][..i] == items[..i];
      i := i + 1;
    }
    assert items[..i] == items;
  }

  /** What `get_daily_summary` answers. */
  datatype DailySummary =
    | QueryFailed                  // the store could not be queried
    | NothingLogged                // no row today: fixed text, no chart
    | Report(rows: seq<Row>, totals: Totals, chart: Option<Chart.Chart>)

  /** The summary for the rows the store returned, or for a failed query. */
  function SummaryOf(fetched: Option<seq<Row>>): (r: DailySummary)
    ensures r == QueryFailed <==> fetched.None?
    ensures r == NothingLogged <==> fetched == Some([])
    ensures r.Report? ==> r.rows == fetched.value && r.totals == TotalsOf(r.rows)
    ensures r.Report? ==> (r.chart.None? <==> r.totals.protein <= 0 && r.totals.carbs <= 0 && r.totals.fat <= 0)
  {
    match fetched
    case None => QueryFailed
    case Some(rows) =>
      if rows == [] then NothingLogged
      else
        var t := TotalsOf(rows);
        Report(rows, t, Chart.ChartFor(t.protein, t.carbs, t.fat))
  }

  /** The aggregation of `get_daily_summary`: a failed query gives the
      apology; no rows give the fixed "nothing logged" answer and no
      chart; otherwise the rows are listed in store order and each of the
      four totals is the column sum with NULL counted as 0, and the chart
      is built from the protein, carbs and fat totals. */
  method Summarize(fetched: Option<seq<Row>>) returns (s: DailySummary)
    ensures fetched.None? ==> s == QueryFailed
    ensures fetched == Some([]) ==> s == NothingLogged
    ensures fetched.Some? && fetched.value != [] ==>
      && s.Report?
      && s.rows == fetched.value
      && s.totals.calories == Sum(fetched.value, Calories)
      && s.totals.protein == Sum(fetched.value, Protein)
      && s.totals.carbs == Sum(fetched.value, Carbs)
      && s.totals.fat == Sum(fetched.value, Fat)
      && s.chart == Chart.ChartFor(s.totals.protein, s.totals.carbs, s.totals.fat)
  {
    if fetched.None? {
      return QueryFailed;
    }
    var rows := fetched.value;
    if rows == [] {
      return NothingLogged;
    }
    var calories, protein, carbs, fat := 0, 0, 0, 0;
    var i := 0;
    while i < |rows|
      invariant 0 <= i <= |rows|
      invariant calories == Sum(rows[..i], Calories)
      invariant protein == Sum(rows[..i], Protein)
      invariant carbs == Sum(rows[..i], Carbs)
      invariant fat == Sum(rows[..i], Fat)
    {
      var r := rows[i];
      calories := calories + r.calories.GetOr(0);
      protein := protein + r.protein.GetOr(0);
      carbs := carbs + r.carbs.GetOr(0);
      fat := fat + r.fat.GetOr(0);
      assert rows[..i + 1][..i] == rows[..i];
      i := i + 1;
    }
    assert rows[..i] == rows;
    s := Report(rows, Totals(calories, protein, carbs, fat), Chart.ChartFor(protein, carbs, fat));
  }

  /** With non-negative values, as the extractor's estimates are meant
      to be, the chart shows the macro totals unclamped, and it is left
      out exactly when protein, carbs and fat all total zero. */
  lemma ChartShowsTotals(rows: seq<Row>)
    requires rows != []
    requires forall k, c :: 0 <= k < |rows| ==> Value(rows[k], c) >= 0
    ensures var r := SummaryOf(Some(rows));
      && r.Report?
      && (r.chart.None? <==> Sum(rows, Protein) == 0 && Sum(rows, Carbs) == 0 && Sum(rows, Fat) == 0)
      && (r.chart.Some? ==> r.chart.value.sizes == [Sum(rows, Protein), Sum(rows, Carbs), Sum(rows, Fat)])
  {
    SumNonNegative(rows, Protein);
    SumNonNegative(rows, Carbs);
    SumNonNegative(rows, Fat);
  }
}
