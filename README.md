# ChefIA / VUCA Insights: the menu-engineering pipeline in Dafny

The repository is a restaurant dashboard (Streamlit, with LLM assistants).
The one piece of it with definite behaviour is its menu-engineering
pipeline, and that is what this project models and proves properties of.
The pipeline has these parts:

* **Sales normalizer** (`filtrar_vendas`). It reads a sales export. The
  headers are normalized: quotes are removed, then strip, then upper-case.
  The product name becomes the join key: strip, collapse runs of spaces,
  upper-case. The four unit and revenue columns are read as Brazilian
  numbers (`1.234,56`), and a number that does not parse becomes 0. From
  these it derives popularity, total revenue and a guarded average price.
* **Cost normalizer** (`processar_nova_ficha`). It reads a recipe sheet. The
  headers are normalized: quotes are removed, then strip, then lower-case.
  The cost column is renamed, and rows whose cost is not a plain decimal are
  dropped. The product key is the sales key with its trailing dots removed.
  The component costs are summed per product.
* **Quadrant rule** (`classificar_produto`). It compares popularity and
  profit with the two means, and reaching a mean counts as high. It gives
  one of four quadrants: Star, Workhorse, Puzzle, Dog. The rule exists
  twice, with two sets of labels.
* **Dashboard** (`src/app.py`). Sales and costs are inner-joined on the key.
  Unsold items are dropped. Profit is price minus cost. Every item is
  classified against the means. Then come the KPI counts and two extracts
  for the assistant: the top 50 by revenue and the top 25 by profit.
* **ChefIA** (`app.py`). It works on a list of dishes that the user keeps by
  hand. The operations on the list are CSV import, add, edit and clear.
  Revenue is price times quantity. The means are taken over all dishes,
  with no popularity filter. There are two more extracts: a report of the
  top-10 by profit, the top-10 by popularity and the bottom-5 by profit,
  with duplicates dropped, and a top-60 by revenue. The assistant's text
  has its `$` signs escaped.

A CSV file is modelled as its header labels plus rows of cells, as it is
after reading. A cell the reader turns into NaN is `None`, and its text is
`"nan"`, as `astype(str)` gives. The quantities are `real`, except a
ChefIA dish's popularity, which `astype(int)` makes an `int` truncated
toward zero (`Chefia.Truncate`). A normalizer's empty-DataFrame result
from a bad header or an exception is `None`. A sheet or export that passes
the header checks but has no rows, or a sheet whose every cost fails to
parse, gives an empty table or map under `Some`. `Dashboard.Analysis`
treats the two alike: both are `NoData`, as `.empty` is for pandas.

Files:
* `optional.dfy`: the Option type.
* `text.dfy`: the pandas string operations used.
* `decimal.dfy`: number parsing, and the Brazilian format with its round trip.
* `table.dfy`: the table shape and header lookups.
* `dataloader.dfy`: `src/dataloader.py`.
* `menu.dfy`: the classification stage shared by both dashboards.
* `ranking.dfy`: `sort_values().head()` and `drop_duplicates()`.
* `dashboard.dfy`: `src/app.py`.
* `chefia.dfy`: `app.py`.

Three behaviours of the code that a reader could easily miss:
* `processar_nova_ficha` does no comma conversion. `to_numeric` turns a
  cost written with a decimal comma, such as `2,50`, into NaN, and `dropna`
  then drops the row (src/dataloader.py:17-18). The row is dropped, not
  counted as 0. `CostExample` shows this: a `2,50` row is dropped and a
  `2.50` row is kept.
* `filtrar_vendas` needs all four unit and revenue columns. Lines 61-62 read
  each of them, and a missing one raises a KeyError. The exception handler
  then returns an empty table, so `SalesFrom` is `None` in that case.
* A header that occurs twice after normalization makes a column selection
  return a DataFrame instead of a Series. The `.str` or `to_numeric` call
  after it then raises, so the result is empty. This applies to the sales
  product column and the sales numeric columns, and to the cost and product
  columns of the recipe sheet. `SalesColumnsOk` and `CostColumnsOk` require
  each of these exactly once.

## Model

| member | source | states |
|---|---|---|
| `Dataloader.SalesName` | src/dataloader.py:49-51 | a sales key has no whitespace at either end, no two adjacent spaces, and no character upper-casing would change (what the key keeps of the name is `SalesNameKeepsLetters`) |
| `Dataloader.SalesNameKeepsLetters` | src/dataloader.py:49-51 | only spaces and case change: with its spaces deleted, the key is the stripped name with its spaces deleted, upper-cased; so names that differ in anything but spaces and case get different keys |
| `Dataloader.SalesNameIgnoresCase` | src/dataloader.py:49-51 | names that differ only in case get the same key: the key of the upper-cased name is the key of the name |
| `Dataloader.SalesNameIgnoresEdges` | src/dataloader.py:49-51 | whitespace at the ends of a name does not change its key |
| `Dataloader.SalesNameIgnoresRunLength` | src/dataloader.py:50 | inside a name that does not begin or end with whitespace, two spaces give the same key as one, so a run of spaces becomes one space in its place; with `SalesNameFixedPoints` these settle the key |
| `Text.CollapseRun` | src/dataloader.py:50 | collapsing a text with two spaces at some point gives what collapsing it with one space there gives |
| `Dataloader.SalesNameIdempotent` | src/dataloader.py:49-51 | normalizing a sales key again gives the same key |
| `Dataloader.SalesNameFixedPoints` | src/dataloader.py:49-51 | a string is its own sales key exactly when it is a normal name (both directions) |
| `Dataloader.CostName` | src/dataloader.py:21-23 | a cost key never ends in '.' |
| `Dataloader.CostNameNotIdempotent` | src/dataloader.py:21-23 | the cost key is not idempotent: "X ." gives "X ", which gives "X" |
| `Dataloader.CostNameStable` | src/dataloader.py:21-23 | a cost key that does not end in whitespace is a fixed point of the cost normalization |
| `Decimal.BrazilianRoundTrip` | src/dataloader.py:53-58 | `BrazilianNumber`, which is removing every '.', turning ',' into '.' and parsing reads back exactly any amount written in the Brazilian format with thousands groups and two decimals |
| `Decimal.BrazilianExample` | src/dataloader.py:53-58 | "1.234,56" reads as 1234.56 |
| `Decimal.ParseDecimal` | src/dataloader.py:17 | a text that reads as a number is not empty, and its value is non-negative unless the text starts with '-', and non-positive when it does |
| `Decimal.ParseDecimalShape` | src/dataloader.py:17 | a text reads as a number exactly when it is an optional '+' or '-', then digits, then optionally '.' and digits, with at least one digit (both directions); so "12abc", "", "." and "1.2.3" are NaN |
| `Decimal.ParseNumberText` | src/dataloader.py:17 | such a text reads as the value of its digits, negated after a '-' |
| `Decimal.ParseNegative` | src/dataloader.py:17 | "-w.f" reads as minus the value of "w.f" |
| `Decimal.ParseWhole` | src/dataloader.py:17 | a plain digit string reads as the whole number it denotes |
| `Decimal.ParsePointed` | src/dataloader.py:17 | digits, a '.', then digits read as the whole part plus the fraction digits over the matching power of ten |
| `Decimal.FromBrazilian` | src/dataloader.py:55-57 | after the locale conversion no ',' is left in the text |
| `Decimal.CommaIsNotANumber` | src/dataloader.py:17-18 | a cost text with a comma anywhere reads as NaN, so its row is dropped |
| `Dataloader.MakeSale` | src/dataloader.py:61-67 | popularity is store plus delivery units; revenue is store plus delivery revenue; with positive popularity price times popularity is the revenue, otherwise the price is 0 |
| `Dataloader.SalesExample` | src/dataloader.py:53-67 | 10 + 5 units with revenues "50,00" and "25,00" give popularity 15, price 5.0 and revenue 75.0 |
| `Dataloader.SalesFrom` | src/dataloader.py:37-71 | the result is present exactly when the product column and the four numeric columns each occur once; then it has one record per input row, with duplicate names not merged |
| `Dataloader.ConvertSales` | src/dataloader.py:37-69 | the header checks, the loop over the four numeric columns and the derived columns compute `SalesFrom` |
| `Dataloader.DuplicateRefused` | src/dataloader.py:53-58 | a numeric column that occurs twice makes the whole conversion fail |
| `Dataloader.SalesZeroFill` | src/dataloader.py:60-62 | in the record of row i, the popularity and the revenue are the sums of the row's converted cells, each unreadable cell counting as 0; with both unit cells unreadable the popularity and the price are 0 |
| `Dataloader.Assemble` | src/dataloader.py:60-69 | the NaN fill and the derived fields over the converted columns give exactly the rows of `SalesFrom` |
| `Dataloader.FilterSales` | src/dataloader.py:32-71 | the whole normalizer computes `SalesSpec`: the header normalized by `SalesHeaders` (quotes removed, strip, upper, line 35), then `SalesFrom` |
| `Dataloader.CostFrom` | src/dataloader.py:9-28 | the result is present exactly when a cost column is there under one of its two spellings and, after the renaming, there is one cost column and one product column |
| `Dataloader.TotalCosts` | src/dataloader.py:9-28 | the header checks, then the totals, compute `CostFrom` |
| `Dataloader.SumCosts` | src/dataloader.py:17-25 | one pass over the rows computes the group sum of the rows whose cost parses |
| `Dataloader.ProcessCostSheet` | src/dataloader.py:4-30 | the whole normalizer computes `CostSpec`: the header normalized by `CostHeaders` (quotes removed, strip, lower, line 7), then `CostFrom` |
| `Dataloader.Priced` | src/dataloader.py:17-23 | the surviving entries are no more than the rows, and no entry's key ends in '.' |
| `Dataloader.PricedMembers` | src/dataloader.py:17-23 | through `RowEntry` and `CostValue` (the cost cell read by `to_numeric`, the name cell cleaned into the key), an entry survives `dropna` exactly when some row's cost parses and that row gives the entry (both directions); a row whose cost is NaN gives none |
| `Dataloader.GroupedKeys` | src/dataloader.py:17-25 | a key has a total exactly when some row under that key has a cost that parses (both directions) |
| `Dataloader.CostTotalNeedsParsedRow` | src/dataloader.py:9-25 | in the cost table of a sheet, a product has a total exactly when one of its rows has a cost that parses, so a product whose every cost is unreadable has no total and never joins the sales |
| `Dataloader.GroupSumKeys` | src/dataloader.py:24-25 | in `GroupSum` (the groupby-sum), the products with a total are exactly the keys of the surviving rows |
| `Dataloader.GroupSumSums` | src/dataloader.py:24-25 | in `GroupSum`, each product's total is the sum of the costs of exactly the rows under its key |
| `Dataloader.CostKeysUndotted` | src/dataloader.py:21-26 | no key of the cost table ends in '.' |
| `Dataloader.CostExample` | src/dataloader.py:17-26 | rows "BURGER." 2.50, "BURGER" 1 and "FRIES" "2,50" give the single total BURGER = 3.5 |
| `Dataloader.Classify` | src/dataloader.py:73-81 | each quadrant holds exactly when its two comparisons hold, with ties going to the high side (both directions of every case) |
| `Dataloader.StarIsUpwardClosed` | src/dataloader.py:73-81 | raising popularity or profit never takes an item out of the stars |
| `Dataloader.DataloaderLabelInjective` | src/dataloader.py:73-81 | the four dataloader labels are distinct |
| `Menu.AddMetrics` | src/app.py:81-88 | the profit column, the two means and the classification loop compute `Classified` with the means `PopMean` and `ProfitMean` |
| `Menu.ClassifiedItems` | src/app.py:81-88 | every item keeps its name, popularity, price, cost and revenue, has profit = price - cost and lies in the quadrant its figures give against the means |
| `Menu.SingleItemIsStar` | src/app.py:83-88 | a menu of one item classifies it as a star |
| `Menu.NeverAllBelowMean` | src/app.py:83-88 | some item reaches the popularity mean (a star or a workhorse) and some reaches the profit mean (a star or a puzzle) |
| `Menu.CountsAddUp` | src/app.py:86-95 | the four quadrant counts add up to the number of items |
| `Ranking.Sort` | src/app.py:128 | sorting keeps the rows: same length, same multiset |
| `Ranking.SortOrdered` | src/app.py:128 | the sorted table is ordered by the key in the chosen direction |
| `Ranking.Head` | src/app.py:128 | sort-then-head(n) has min(n, size) rows, is ordered, and takes its rows from the table |
| `Ranking.HeadKeepsBest` | src/app.py:146 | no row left out of a sort-then-head extract ranks above a row kept in it |
| `Ranking.Dedup` | app.py:316 | dropping duplicates keeps exactly the rows of the table, and never more rows than it had |
| `Ranking.DedupDistinct` | app.py:316 | after dropping duplicates no row occurs twice |
| `Ranking.DedupPrefix` | app.py:316 | rows appended later never displace an earlier first occurrence |
| `Dashboard.Join` | src/app.py:77 | the inner join has no more rows than the sales table |
| `Dashboard.Merge` | src/app.py:77 | the pass over the sales rows computes the inner join `Join` |
| `Dashboard.JoinSound` | src/app.py:77 | every joined row is a sales row whose key has a cost, and it carries that cost |
| `Dashboard.JoinComplete` | src/app.py:77 | every sales row whose key has a cost is in the join |
| `Dashboard.JoinSize` | src/app.py:77 | the join has as many rows as there are sales rows whose key has a cost |
| `Dashboard.DottedNamesNeverJoin` | src/app.py:77 | when no cost key ends in '.', no joined row has a name ending in '.' |
| `Dashboard.Sold` | src/app.py:80 | the popularity filter keeps no more rows than it is given |
| `Dashboard.KeepSold` | src/app.py:80 | the pass over the joined rows computes the popularity filter `Sold` |
| `Dashboard.SoldMembers` | src/app.py:80 | a row survives the filter exactly when it is in the table and its popularity is positive |
| `Dashboard.SoldAppend` | src/app.py:80 | filtering two tables one after the other is filtering their concatenation, so the kept rows keep their order |
| `Dashboard.AnalyseMenu` | src/app.py:76-88 | the dashboard steps compute `Analysis`: no data, no common items, nothing sold, or the classified menu with its means |
| `Dashboard.AnalysedItems` | src/app.py:77-88 | every analysed item was sold, its key is in both tables, and its profit is its price minus its product's total cost |
| `Dashboard.AnalysedSize` | src/app.py:77-80 | an analysed menu is non-empty and no larger than the number of sales rows with a cost |
| `Dashboard.LabelCountIsCount` | src/app.py:92-95 | counting a dataloader label counts its quadrant |
| `Dashboard.ChatContext` | src/app.py:128 | the chat context has min(50, size) rows, highest revenue first, all from the menu |
| `Dashboard.ReportExtract` | src/app.py:146 | the report extract has min(25, size) rows, most profitable first, all from the menu |
| `Chefia.LabelOf` | app.py:17-21 | each ChefIA label holds exactly when its two comparisons hold, with ties going to "Estrela" |
| `Chefia.LabelCountIsCount` | app.py:280-284 | counting a ChefIA label counts its quadrant |
| `Chefia.KpisAddUp` | app.py:280-284 | the four KPI counts add up to the number of items |
| `Chefia.CleanText` | app.py:23-25 | the escaped text is longer by the number of '$' signs and does not start with '$' |
| `Chefia.CleanTextReversible` | app.py:23-25 | reading every "\$" back as '$' gives the original text, so no other character changed |
| `Chefia.CleanTextEscapes` | app.py:23-25 | every '$' of the escaped text is preceded by a backslash |
| `Chefia.Truncate` | app.py:186 | the integer popularity is the value truncated toward zero |
| `Chefia.ImportRow` | app.py:183-188 | a dish's cost and price are its cells' numbers, or 0 when the cell does not read as a number; its popularity is 0 for an unreadable cell, and otherwise the cell's number truncated toward zero for either sign (`Truncate`); the cells are read by `ImportNumber`, which accepts a decimal comma or point |
| `Chefia.ImportZeroFill` | app.py:183-188 | in the list an accepted file gives, the dish of row i has cost, price or popularity 0 wherever that cell does not read as a number, and keeps the row's name text |
| `Chefia.ImportFrom` | app.py:175-190 | on the header as `ImportLabels` normalizes it (stripped, lower-cased), a file is accepted exactly when the name column is present and each numeric column occurs once; then it gives one dish per row |
| `Chefia.ManualData.constructor` | app.py:164-165 | the session starts with an empty list and no import |
| `Chefia.ManualData.Import` | app.py:171-197 | a file already imported is ignored; a refused file changes nothing; an accepted file replaces the whole list and records the file's id |
| `Chefia.ManualData.Add` | app.py:208-216 | a named dish is appended with its name upper-cased and the dishes already there unchanged; an empty name changes nothing |
| `Chefia.ManualData.Edit` | app.py:247-248 | the edited rows become the list |
| `Chefia.ManualData.Clear` | app.py:265-266 | the list becomes empty |
| `Chefia.AnalyseList` | app.py:254-276 | the revenue and profit columns, the means and the labels compute `ManualAnalysis`, which is absent for an empty list |
| `Chefia.ManualItems` | app.py:254-257 | each analysed dish keeps its name, has profit = price - cost and revenue = price * quantity |
| `Chefia.SingleDishIsStar` | app.py:272-276 | a list of one dish shows a star |
| `Chefia.ReportExtract` | app.py:312-316 | the report extract has at most 25 rows, none twice, and holds exactly the rows of the three extracts; it begins with the top-10 by profit de-duplicated, and that block followed by the top-10 by popularity is again a prefix, so the bottom-5 rows come last |
| `Chefia.ReportExtractRows` | app.py:312-316 | a row is in the report extract exactly when it is in one of the three extracts (both directions), and then it is a row of the analysis |
| `Chefia.ChatContext` | app.py:345 | the chat context has min(60, size) rows, highest revenue first, all from the analysis |

## Left out

* Reading files. This covers `read_csv`, Latin-1 decoding, uploads, the
  default-file check (src/app.py:62-73) and the backup download
  (app.py:269-270). A file is given as the labels and cells the reader
  produces. For duplicate labels that means the labels after the reader's
  own renaming. The id of an uploaded file is a parameter.
* The reader's column-type inference. A column that `read_csv` parses as
  float is printed back by `astype(str)` before the sales conversion. For
  example, "1.50" becomes "1.5", and "12" in a column with an empty cell
  becomes "12.0". The sales conversion then removes the dots from that text.
  The model converts each cell's own text.
* In the import (app.py:175-188), whether `to_numeric` sees parsed floats or
  text depends on the whole column. The model accepts a decimal comma or a
  decimal point cell by cell.
* Python's number syntax beyond an optional sign, digits and one decimal
  point. This covers exponents, "inf", "nan", underscores and surrounding
  whitespace. Such cells read as NaN. In the import this hides one case:
  pandas reads "inf" as infinity, `astype(int)` (app.py:186) then raises,
  and the whole file is refused (app.py:196-197); the model accepts the file
  with popularity 0 for that dish.
* The width of `astype(int)`. pandas gives 64-bit integers; the model's
  `int` is unbounded, so a popularity beyond the int64 range is not refused.
* Unicode case mapping beyond Latin-1. This affects `Text.Upper` and
  `Text.Lower`, and through them `Chefia.ManualData.Add`. They map the
  Latin-1 letters. ß, µ, ÿ and every character above U+00FF are left as
  they are, although Python maps some of them.
* Floating-point rounding. Quantities are exact reals.
* The order of the group-by output. The cost table is a map. The join follows
  the sales order, as an inner merge does from pandas 2.2 on (earlier
  versions could group the rows of equal keys together), so nothing
  downstream depends on the map's order.
* Tie order in `sort_values`. `Ranking.Sort` is an insertion sort, so it
  fixes one order among equal keys. The `Ranking.Head` and
  `Ranking.HeadKeepsBest` contracts hold whatever the tie order is, but the
  rows an extract picks among equal keys may differ from pandas.
* An all-unsold join. In that case pandas goes on with an empty table and
  NaN means. The model stops with `NothingSold`.
* The product-name cell of an import that reads as NaN. pandas keeps it as
  NaN, since no `astype(str)` runs on the import; the model uses the text
  "nan" in its place. Columns beyond the four of an import are not kept. Line 226 fills
  columns that are missing from the list, but every modelled dish has all
  four.
* The editor's widget constraints: minimum values and required cells.
  `Chefia.ManualData.Edit` takes any list of dishes, including invalid ones.
* How `limpar_texto_ia` turns the assistant's result object into text.
  `CleanText` starts from that text.
* The Streamlit interface. This covers forms, reruns, chat history, charts,
  API keys and the provider selection.
* Every LLM call. This covers src/agentedeia.py and the agent functions in
  app.py:28-84.
