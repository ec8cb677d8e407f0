/** The menu-engineering stage shared by both dashboards: profit per item,
    the two mean thresholds, and the quadrant of every item. */
module Menu {
  import opened Dataloader

  /** A menu item before classification: what the sales, the costs or the
      manual list say about it. */
  datatype Line = Line(name: string, popularity: real, price: real, cost: real, revenue: real)

  /** A classified menu item; profit is the margin per unit sold. */
  datatype MenuItem = MenuItem(name: string, popularity: real, price: real, cost: real,
                               profit: real, revenue: real, quadrant: Quadrant)

  function Sum(xs: seq<real>): real {
    if xs == [] then 0.0 else Sum(xs[..|xs| - 1]) + xs[|xs| - 1]
  }

  /** The arithmetic mean, as Series.mean computes it. */
  function Mean(xs: seq<real>): real
    requires |xs| > 0
  {
    Sum(xs) / (|xs| as real)
  }

  function Popularities(lines: seq<Line>): (r: seq<real>)
    ensures |r| == |lines| && forall i :: 0 <= i < |lines| ==> r[i] == lines[i].popularity
  {
    seq(|lines|, i requires 0 <= i < |lines| => lines[i].popularity)
  }

  function Profits(lines: seq<Line>): (r: seq<real>)
    ensures |r| == |lines| && forall i :: 0 <= i < |lines| ==> r[i] == lines[i].price - lines[i].cost
  {
    seq(|lines|, i requires 0 <= i < |lines| => lines[i].price - lines[i].cost)
  }

  /** The popularity threshold: the mean over the items analysed. */
  function PopMean(lines: seq<Line>): real
    requires |lines| > 0
  {
    Mean(Popularities(lines))
  }

  /** The profit threshold: the mean margin over the items analysed. */
  function ProfitMean(lines: seq<Line>): real
    requires |lines| > 0
  {
    Mean(Profits(lines))
  }

  /** One line with its profit and its quadrant against the given thresholds. */
  function Rate(l: Line, popMean: real, profitMean: real): MenuItem {
    var profit := l.price - l.cost;
    MenuItem(l.name, l.popularity, l.price, l.cost, profit, l.revenue,
             Classify(l.popularity, profit, popMean, profitMean))
  }

  function RatedAgainst(lines: seq<Line>, popMean: real, profitMean: real): (items: seq<MenuItem>)
    ensures |items| == |lines|
  {
    seq(|lines|, i requires 0 <= i < |lines| => Rate(lines[i], popMean, profitMean))
  }

  /** The classified menu: every line rated against the means of all lines. */
  function Classified(lines: seq<Line>): seq<MenuItem>
    requires |lines| > 0
  {
    RatedAgainst(lines, PopMean(lines), ProfitMean(lines))
  }

  /** Adds the profit column, computes the two means and classifies each row. */
  method AddMetrics(lines: seq<Line>) returns (items: seq<MenuItem>, popMean: real, profitMean: real)
    requires |lines| > 0
    ensures popMean == PopMean(lines) && profitMean == ProfitMean(lines)
    ensures items == Classified(lines)
  {
    var popTotal, profitTotal := 0.0, 0.0;
    for i := 0 to |lines|
      invariant popTotal == Sum(Popularities(lines)[..i])
      invariant profitTotal == Sum(Profits(lines)[..i])
    {
      assert Popularities(lines)[..i + 1][..i] == Popularities(lines)[..i];
      assert Profits(lines)[..i + 1][..i] == Profits(lines)[..i];
      popTotal := popTotal + lines[i].popularity;
      profitTotal := profitTotal + (lines[i].price - lines[i].cost);
    }
    assert Popularities(lines)[..|lines|] == Popularities(lines);
    assert Profits(lines)[..|lines|] == Profits(lines);
    popMean := popTotal / (|lines| as real);
    profitMean := profitTotal / (|lines| as real);
    items := [];
    for i := 0 to |lines|
      invariant items == RatedAgainst(lines[..i], popMean, profitMean)
    {
      items := items + [Rate(lines[i], popMean, profitMean)];
    }
    assert lines[..|lines|] == lines;
  }

  // ---------------------------------------------------------------------
  // What the classification promises
  // ---------------------------------------------------------------------

  /** Every item keeps its line's figures, gains profit = price - cost, and
      lies in the quadrant its figures give against the two means. */
  lemma ClassifiedItems(lines: seq<Line>, i: nat)
    requires 0 < |lines| && i < |lines|
    ensures |Classified(lines)| == |lines|
    ensures Classified(lines)[i].name == lines[i].name
    ensures Classified(lines)[i].popularity == lines[i].popularity
    ensures Classified(lines)[i].revenue == lines[i].revenue
    ensures Classified(lines)[i].price == lines[i].price
    ensures Classified(lines)[i].cost == lines[i].cost
    ensures Classified(lines)[i].profit == lines[i].price - lines[i].cost
    ensures var it := Classified(lines)[i];
      (it.quadrant == Star <==> it.popularity >= PopMean(lines) && it.profit >= ProfitMean(lines))
      && (it.quadrant == Workhorse <==> it.popularity >= PopMean(lines) && it.profit < ProfitMean(lines))
      && (it.quadrant == Puzzle <==> it.popularity < PopMean(lines) && it.profit >= ProfitMean(lines))
      && (it.quadrant == Dog <==> it.popularity < PopMean(lines) && it.profit < ProfitMean(lines))
  {
  }

  lemma {:induction false} SumOfOne(x: real)
    ensures Sum([x]) == x
  {
    assert [x][..0] == [];
  }

  /** A menu of one item is its own mean on both axes, so the item is a star. */
  lemma SingleItemIsStar(l: Line)
    ensures Classified([l])[0].quadrant == Star
  {
    assert Popularities([l]) == [l.popularity];
    assert Profits([l]) == [l.price - l.cost];
    SumOfOne(l.popularity);
    SumOfOne(l.price - l.cost);
  }

  /** If every value is below m, so is their mean. */
  lemma {:induction false} SumBelow(xs: seq<real>, m: real)
    requires forall i :: 0 <= i < |xs| ==> xs[i] < m
    ensures |xs| > 0 ==> Sum(xs) < (|xs| as real) * m
  {
    if |xs| > 1 {
      SumBelow(xs[..|xs| - 1], m);
    } else if |xs| == 1 {
      SumOfOne(xs[0]);
      assert xs == [xs[0]];
    }
  }

  /** Some value reaches the mean. */
  lemma SomeReachesMean(xs: seq<real>) returns (i: nat)
    requires |xs| > 0
    ensures i < |xs| && xs[i] >= Mean(xs)
  {
    if forall j :: 0 <= j < |xs| ==> xs[j] < Mean(xs) {
      SumBelow(xs, Mean(xs));
      assert false;
    }
    var j :| 0 <= j < |xs| && xs[j] >= Mean(xs);
    i := j;
  }

  /** Number of items in quadrant q. */
  function Count(items: seq<MenuItem>, q: Quadrant): (n: nat)
    ensures n <= |items|
  {
    if items == [] then 0
    else Count(items[..|items| - 1], q) + (if items[|items| - 1].quadrant == q then 1 else 0)
  }

  /** The quadrants partition the menu: their counts add up to its size. */
  lemma {:induction false} CountsAddUp(items: seq<MenuItem>)
    ensures Count(items, Star) + Count(items, Workhorse) + Count(items, Puzzle) + Count(items, Dog) == |items|
  {
    if items != [] {
      CountsAddUp(items[..|items| - 1]);
    }
  }

  /** An item at index i in quadrant q makes the count of q positive. */
  lemma {:induction false} CountPositive(items: seq<MenuItem>, i: nat)
    requires i < |items|
    ensures Count(items, items[i].quadrant) > 0
  {
    if i < |items| - 1 {
      CountPositive(items[..|items| - 1], i);
    }
  }

  /** A classified menu always has a popular item (a star or a workhorse) and
      a profitable one (a star or a puzzle). */
  lemma NeverAllBelowMean(lines: seq<Line>)
    requires |lines| > 0
    ensures Count(Classified(lines), Star) + Count(Classified(lines), Workhorse) > 0
    ensures Count(Classified(lines), Star) + Count(Classified(lines), Puzzle) > 0
  {
    var items := Classified(lines);
    var i := SomeReachesMean(Popularities(lines));
    var j := SomeReachesMean(Profits(lines));
    CountPositive(items, i);
    CountPositive(items, j);
  }
}
