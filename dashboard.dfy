/** src/app.py: the sales and the costs joined on the product key, the
    unsold items dropped, the menu classified, the KPI counts and the two
    extracts handed to the assistant. */
module Dashboard {
  import opened Optional
  import opened Dataloader
  import opened Menu
  import opened Ranking

  /** A sales row with its product's total cost attached. */
  function Joined(r: SalesRecord, cost: real): Line {
    Line(r.name, r.popularity, r.price, cost, r.revenue)
  }

  /** pd.merge(vendas, custos, on='produto_nome', how='inner'): the sales rows
      in their own order, each with the cost of its key, the rows whose key
      has no cost left out (the cost keys are unique). */
  function Join(sales: seq<SalesRecord>, costs: map<string, real>): (r: seq<Line>)
    ensures |r| <= |sales|
  {
    if sales == [] then []
    else
      var before := Join(sales[..|sales| - 1], costs);
      var last := sales[|sales| - 1];
      if last.name in costs then before + [Joined(last, costs[last.name])] else before
  }

  /** The merge as a pass over the sales rows. */
  method Merge(sales: seq<SalesRecord>, costs: map<string, real>) returns (lines: seq<Line>)
    ensures lines == Join(sales, costs)
  {
    lines := [];
    for i := 0 to |sales|
      invariant lines == Join(sales[..i], costs)
    {
      assert sales[..i + 1][..i] == sales[..i];
      if sales[i].name in costs {
        lines := lines + [Joined(sales[i], costs[sales[i].name])];
      }
    }
    assert sales[..|sales|] == sales;
  }

  /** df_final[df_final['popularidade'] > 0]. */
  function Sold(lines: seq<Line>): (r: seq<Line>)
    ensures |r| <= |lines|
  {
    if lines == [] then []
    else
      var before := Sold(lines[..|lines| - 1]);
      var last := lines[|lines| - 1];
      if last.popularity > 0.0 then before + [last] else before
  }

  /** The popularity filter as a pass over the joined rows. */
  method KeepSold(lines: seq<Line>) returns (kept: seq<Line>)
    ensures kept == Sold(lines)
  {
    kept := [];
    for i := 0 to |lines|
      invariant kept == Sold(lines[..i])
    {
      assert lines[..i + 1][..i] == lines[..i];
      if lines[i].popularity > 0.0 {
        kept := kept + [lines[i]];
      }
    }
    assert lines[..|lines|] == lines;
  }

  /** What the dashboard ends with: nothing to show (a normalizer came back
      empty), "no data in common" (the join is empty), no item left after
      the popularity filter, or the classified menu with its two thresholds. */
  datatype Outcome = NoData | NoCommonItems | NothingSold
                   | Analysed(items: seq<MenuItem>, popMean: real, profitMean: real)

  /** The dashboard as a function of the two normalized tables. */
  function Analysis(sales: Option<seq<SalesRecord>>, costs: Option<map<string, real>>): Outcome {
    if sales.None? || costs.None? || |sales.value| == 0 || |costs.value| == 0 then NoData
    else
      var sold := Sold(Join(sales.value, costs.value));
      if Join(sales.value, costs.value) == [] then NoCommonItems
      else if sold == [] then NothingSold
      else Analysed(Classified(sold), PopMean(sold), ProfitMean(sold))
  }

  /** Lines 76-88 of src/app.py step by step. */
  method AnalyseMenu(sales: Option<seq<SalesRecord>>, costs: Option<map<string, real>>) returns (o: Outcome)
    ensures o == Analysis(sales, costs)
  {
    if sales.None? || costs.None? || |sales.value| == 0 || |costs.value| == 0 {
      return NoData;
    }
    var merged := Merge(sales.value, costs.value);
    if merged == [] {
      return NoCommonItems;
    }
    var sold := KeepSold(merged);
    if sold == [] {
      return NothingSold;
    }
    var items, popMean, profitMean := AddMetrics(sold);
    o := Analysed(items, popMean, profitMean);
  }

  // ---------------------------------------------------------------------
  // The join
  // ---------------------------------------------------------------------

  /** Every joined row is a sales row whose key has a cost, carrying that cost. */
  lemma {:induction false} JoinSound(sales: seq<SalesRecord>, costs: map<string, real>, l: Line)
    requires l in Join(sales, costs)
    ensures l.name in costs && l.cost == costs[l.name]
    ensures exists i :: 0 <= i < |sales| && sales[i].name in costs && l == Joined(sales[i], costs[sales[i].name])
  {
    var init := sales[..|sales| - 1];
    if l in Join(init, costs) {
      JoinSound(init, costs, l);
      var i :| 0 <= i < |init| && init[i].name in costs && l == Joined(init[i], costs[init[i].name]);
      assert sales[i] == init[i];
    } else {
      assert l == Joined(sales[|sales| - 1], costs[sales[|sales| - 1].name]);
    }
  }

  /** Every sales row whose key has a cost is in the join. */
  lemma {:induction false} JoinComplete(sales: seq<SalesRecord>, costs: map<string, real>, i: nat)
    requires i < |sales| && sales[i].name in costs
    ensures Joined(sales[i], costs[sales[i].name]) in Join(sales, costs)
  {
    var init := sales[..|sales| - 1];
    if i < |sales| - 1 {
      JoinComplete(init, costs, i);
      assert init[i] == sales[i];
    }
  }

  /** The rows of a table whose key has a cost. */
  function Known(sales: seq<SalesRecord>, costs: map<string, real>): set<nat> {
    set i | 0 <= i < |sales| && sales[i].name in costs
  }

  /** The join has one row per sales row whose key has a cost. */
  lemma {:induction false} JoinSize(sales: seq<SalesRecord>, costs: map<string, real>)
    ensures |Join(sales, costs)| == |Known(sales, costs)|
  {
    if sales != [] {
      var n := |sales| - 1;
      JoinSize(sales[..n], costs);
      KnownStep(sales, costs);
      if sales[n].name in costs {
        assert |Known(sales, costs)| == |Known(sales[..n], costs)| + 1;
      }
    }
  }

  /** One more sales row adds its own index to the known rows, or nothing. */
  lemma KnownStep(sales: seq<SalesRecord>, costs: map<string, real>)
    requires sales != []
    ensures var n := |sales| - 1;
      && n !in Known(sales[..n], costs)
      && Known(sales, costs) == Known(sales[..n], costs) + (if sales[n].name in costs then {n} else {})
  {
    var n := |sales| - 1;
    forall i | 0 <= i < n ensures sales[..n][i] == sales[i] { }
  }

  /** A sales key ending in '.' never finds a cost, since cost keys have
      their trailing dots removed. */
  lemma DottedNamesNeverJoin(sales: seq<SalesRecord>, costs: map<string, real>, l: Line)
    requires forall k :: k in costs ==> k == [] || k[|k| - 1] != '.'
    requires l in Join(sales, costs)
    ensures l.name == [] || l.name[|l.name| - 1] != '.'
  {
    JoinSound(sales, costs, l);
  }

  // ---------------------------------------------------------------------
  // The popularity filter
  // ---------------------------------------------------------------------

  /** Exactly the rows with a positive popularity survive. */
  lemma {:induction false} SoldMembers(lines: seq<Line>, l: Line)
    ensures l in Sold(lines) <==> l in lines && l.popularity > 0.0
  {
    if lines != [] {
      var init := lines[..|lines| - 1];
      SoldMembers(init, l);
      assert lines == init + [lines[|lines| - 1]];
    }
  }

  /** The filter keeps the surviving rows in their relative order. */
  lemma {:induction false} SoldAppend(a: seq<Line>, b: seq<Line>)
    ensures Sold(a + b) == Sold(a) + Sold(b)
    decreases |b|
  {
    if b == [] {
      assert a + b == a;
    } else {
      var init := b[..|b| - 1];
      assert (a + b)[..|a + b| - 1] == a + init;
      SoldAppend(a, init);
    }
  }

  // ---------------------------------------------------------------------
  // The outcome
  // ---------------------------------------------------------------------

  /** Every analysed item was sold, under a key that occurs in both tables,
      and its profit is its average price less its total cost. */
  lemma AnalysedItems(sales: Option<seq<SalesRecord>>, costs: Option<map<string, real>>, i: nat)
    requires Analysis(sales, costs).Analysed? && i < |Analysis(sales, costs).items|
    ensures var it := Analysis(sales, costs).items[i];
      && it.name in costs.value
      && it.popularity > 0.0
      && it.profit == it.price - costs.value[it.name]
      && exists j :: 0 <= j < |sales.value| && sales.value[j].name == it.name
  {
    var joined := Join(sales.value, costs.value);
    var sold := Sold(joined);
    var l := sold[i];
    ClassifiedItems(sold, i);
    SoldMembers(joined, l);
    JoinSound(sales.value, costs.value, l);
    var it := Analysis(sales, costs).items[i];
    assert it.price == l.price;
  }

  /** An analysed menu has at least one item, and as many as the sold rows of the join. */
  lemma AnalysedSize(sales: Option<seq<SalesRecord>>, costs: Option<map<string, real>>)
    requires Analysis(sales, costs).Analysed?
    ensures 0 < |Analysis(sales, costs).items| <= |Known(sales.value, costs.value)|
  {
    JoinSize(sales.value, costs.value);
  }

  // ---------------------------------------------------------------------
  // KPIs and extracts
  // ---------------------------------------------------------------------

  /** Number of items whose label (in the dataloader's wording) is `tag`. */
  function LabelCount(items: seq<MenuItem>, tag: string): (n: nat)
    ensures n <= |items|
  {
    if items == [] then 0
    else LabelCount(items[..|items| - 1], tag) + (if DataloaderLabel(items[|items| - 1].quadrant) == tag then 1 else 0)
  }

  /** Counting labels counts quadrants, since the labels are distinct; so the
      KPI cards count stars, puzzles and dogs of the menu. */
  lemma {:induction false} LabelCountIsCount(items: seq<MenuItem>, q: Quadrant)
    ensures LabelCount(items, DataloaderLabel(q)) == Count(items, q)
  {
    if items != [] {
      LabelCountIsCount(items[..|items| - 1], q);
      var p := items[|items| - 1].quadrant;
      if DataloaderLabel(p) == DataloaderLabel(q) {
        DataloaderLabelInjective(p, q);
      }
    }
  }

  /** The context of the chat: the 50 items with the highest revenue, highest first. */
  function ChatContext(items: seq<MenuItem>): (r: seq<MenuItem>)
    ensures |r| == Min(50, |items|)
    ensures Ordered(r, ByRevenue, true)
    ensures multiset(r) <= multiset(items)
  {
    Head(items, ByRevenue, true, 50)
  }

  /** The report's extract: the 25 most profitable items, most profitable first. */
  function ReportExtract(items: seq<MenuItem>): (r: seq<MenuItem>)
    ensures |r| == Min(25, |items|)
    ensures Ordered(r, ByProfit, true)
    ensures multiset(r) <= multiset(items)
  {
    Head(items, ByProfit, true, 25)
  }
}
