/** src/dataloader.py: the sales normalizer (filtrar_vendas), the cost
    normalizer (processar_nova_ficha) and the quadrant rule (classificar_produto). */
module Dataloader {
  import opened Optional
  import opened Text
  import opened Decimal
  import opened Table

  // ---------------------------------------------------------------------
  // Product names, the join key
  // ---------------------------------------------------------------------

  /** The sales key: strip, collapse runs of spaces, upper-case. The key has
      no whitespace at either end, no two adjacent spaces, and nothing
      upper-casing would change. */
  function SalesName(s: string): (r: string)
    ensures IsNormalName(r)
  {
    var c := CollapseSpaces(Strip(s));
    UpperKeepsNormal(c);
    Upper(c)
  }

  /** The cost key: the sales steps, then every trailing '.' removed. */
  function CostName(s: string): (r: string)
    ensures r == [] || r[|r| - 1] != '.'
  {
    TrimRightChar(SalesName(s), '.')
  }

  /** What a sales key looks like: no whitespace at the ends, no double
      space, and nothing upper-casing would change. */
  predicate IsNormalName(u: string) {
    NoEdgeSpace(u) && NoDoubleSpace(u) && forall i :: 0 <= i < |u| ==> UpperChar(u[i]) == u[i]
  }

  lemma UpperKeepsNormal(c: string)
    requires NoEdgeSpace(c) && NoDoubleSpace(c)
    ensures IsNormalName(Upper(c))
  {
    var u := Upper(c);
    if c != [] {
      UpperCharFacts(c[0]);
      UpperCharFacts(c[|c| - 1]);
    }
    forall i | 0 <= i < |u| - 1 ensures u[i] != ' ' || u[i + 1] != ' ' {
      UpperCharFacts(c[i]);
      UpperCharFacts(c[i + 1]);
    }
    forall i | 0 <= i < |u| ensures UpperChar(u[i]) == u[i] {
      UpperCharFacts(c[i]);
    }
  }

  lemma NormalNameIsFixed(u: string)
    requires IsNormalName(u)
    ensures SalesName(u) == u
  {
    CollapseFixes(u);
  }

  /** The normalization changes only spaces and case: apart from its spaces,
      the key is the stripped name upper-cased, so two names share a key only
      when they agree up to spaces and case. */
  lemma SalesNameKeepsLetters(s: string)
    ensures RemoveChar(SalesName(s), ' ') == Upper(RemoveChar(Strip(s), ' '))
  {
    var c := CollapseSpaces(Strip(s));
    CollapseKeepsNonSpaces(Strip(s));
    UpperRemoveSpaces(c);
  }

  /** Names that differ only in case share a key. */
  lemma SalesNameIgnoresCase(s: string)
    ensures SalesName(Upper(s)) == SalesName(s)
  {
    var c := CollapseSpaces(Strip(s));
    StripUpper(s);
    CollapseUpper(Strip(s));
    UpperTwice(c);
  }

  /** Whitespace at the ends does not change the key. */
  lemma SalesNameIgnoresEdges(s: string)
    ensures SalesName(Strip(s)) == SalesName(s)
  {
    assert Strip(Strip(s)) == Strip(s);
  }

  /** Two spaces inside a name give the same key as one: a run of spaces
      becomes a single space in its place. */
  lemma SalesNameIgnoresRunLength(a: string, b: string)
    requires NoEdgeSpace(a + " " + b)
    ensures SalesName(a + "  " + b) == SalesName(a + " " + b)
  {
    var s, t := a + "  " + b, a + " " + b;
    assert IsSpace(t[|a|]);
    assert 0 < |a| < |t| - 1;
    assert s[0] == t[0] && s[|s| - 1] == t[|t| - 1];
    assert Strip(s) == s && Strip(t) == t;
    CollapseRun(a, b);
  }

  /** Normalizing a sales name twice gives the same key as normalizing it once. */
  lemma SalesNameIdempotent(s: string)
    ensures SalesName(SalesName(s)) == SalesName(s)
  {
    NormalNameIsFixed(SalesName(s));
  }

  /** The sales keys are exactly the normal names. */
  lemma SalesNameFixedPoints(u: string)
    ensures SalesName(u) == u <==> IsNormalName(u)
  {
    if IsNormalName(u) {
      NormalNameIsFixed(u);
    }
  }

  /** The cost key is not idempotent: the trailing '.' goes after the strip, so
      a space in front of it survives the first pass and not the second. */
  lemma CostNameNotIdempotent(s: string)
    requires s == "X ."
    ensures CostName(s) == "X "
    ensures CostName(CostName(s)) == "X"
  {
    assert IsNormalName(s);
    NormalNameIsFixed(s);
    assert TrimRightChar(s, '.') == s[..2];
    SpaceEndedName(s[..2]);
  }

  lemma SpaceEndedName(t: string)
    requires t == "X "
    ensures CostName(t) == "X"
  {
    assert TrimLeft(t) == t;
    assert Strip(t) == t[..1] by { assert IsSpace(t[1]); assert t[..2][..1] == t[..1]; }
    assert IsNormalName(t[..1]);
    NormalNameIsFixed(t[..1]);
  }

  /** Unless the cost key ends in whitespace, it is a fixed point. */
  lemma CostNameStable(s: string)
    requires CostName(s) == [] || !IsSpace(CostName(s)[|CostName(s)| - 1])
    ensures CostName(CostName(s)) == CostName(s)
  {
    var u, v := SalesName(s), CostName(s);
    assert v == u[..|v|];
    NormalPrefix(u, |v|);
    NormalNameIsFixed(v);
  }

  /** A prefix of a normal name that does not end in whitespace is normal. */
  lemma NormalPrefix(u: string, m: nat)
    requires IsNormalName(u) && m <= |u|
    requires m == 0 || !IsSpace(u[m - 1])
    ensures IsNormalName(u[..m])
  {
    var v := u[..m];
    forall i | 0 <= i < |v| - 1 ensures v[i] != ' ' || v[i + 1] != ' ' {
      assert v[i] == u[i] && v[i + 1] == u[i + 1];
    }
    forall i | 0 <= i < |v| ensures UpperChar(v[i]) == v[i] {
      assert v[i] == u[i];
    }
    if v != [] { assert v[0] == u[0] && v[|v| - 1] == u[m - 1]; }
  }

  // ---------------------------------------------------------------------
  // Sales normalizer (filtrar_vendas)
  // ---------------------------------------------------------------------

  const ProductHeader := "PRODUTO DE VENDA"

  /** The four numeric columns, in the order the conversion loop visits them. */
  datatype SalesColumn = StoreUnits | DeliveryUnits | StoreRevenue | DeliveryRevenue

  const NumericColumns := [StoreUnits, DeliveryUnits, StoreRevenue, DeliveryRevenue]

  /** The position of c in NumericColumns. */
  function Rank(c: SalesColumn): (k: nat)
    ensures k < |NumericColumns| && NumericColumns[k] == c
  {
    match c
    case StoreUnits => 0
    case DeliveryUnits => 1
    case StoreRevenue => 2
    case DeliveryRevenue => 3
  }

  /** The export's header for each numeric column (renamed to vendas_loja,
      vendas_delivery, receita_loja and receita_delivery). */
  function SourceHeader(c: SalesColumn): string {
    match c
    case StoreUnits => "VENDA DE FRENTE DE LOJA"
    case DeliveryUnits => "VENDA DELIVERY"
    case StoreRevenue => "RECEITA FRENTE DE LOJA"
    case DeliveryRevenue => "RECEITA DELIVERY"
  }

  /** Quotes removed, stripped, upper-cased. */
  function SalesHeader(h: string): string {
    Upper(Strip(RemoveChar(h, '"')))
  }

  function SalesHeaders(t: RawTable): (hs: seq<string>)
    ensures |hs| == |t.header|
  {
    seq(|t.header|, i requires 0 <= i < |t.header| => SalesHeader(t.header[i]))
  }

  /** Every column the normalizer reads is present exactly once: a missing
      product column returns early, a missing numeric column fails at the
      sums, and a duplicated one fails the string conversion. */
  predicate SalesColumnsOk(hs: seq<string>) {
    && Occurrences(hs, {ProductHeader}) == 1
    && ColumnCount(hs, StoreUnits) == 1
    && ColumnCount(hs, DeliveryUnits) == 1
    && ColumnCount(hs, StoreRevenue) == 1
    && ColumnCount(hs, DeliveryRevenue) == 1
  }

  /** One normalized sales row. */
  datatype SalesRecord = SalesRecord(name: string, popularity: real, price: real, revenue: real)

  /** The derived fields: popularity and revenue are the store plus delivery
      figures, and the average price is guarded against a zero popularity. */
  function MakeSale(name: string, storeUnits: real, deliveryUnits: real,
                    storeRevenue: real, deliveryRevenue: real): (r: SalesRecord)
    ensures r.name == name
    ensures r.popularity == storeUnits + deliveryUnits
    ensures r.revenue == storeRevenue + deliveryRevenue
    ensures r.popularity > 0.0 ==> r.price * r.popularity == r.revenue
    ensures r.popularity <= 0.0 ==> r.price == 0.0
  {
    var popularity := storeUnits + deliveryUnits;
    var revenue := storeRevenue + deliveryRevenue;
    SalesRecord(name, popularity, if popularity > 0.0 then revenue / popularity else 0.0, revenue)
  }

  /** A numeric sales column: each cell converted from the Brazilian format (NaN when it does not parse). */
  function NumberColumn(t: RawTable, j: nat): (col: seq<Option<real>>)
    ensures |col| == |t.rows|
  {
    seq(|t.rows|, i requires 0 <= i < |t.rows| => BrazilianNumber(CellText(CellAt(t.rows[i], j))))
  }

  /** The sales key of every row. */
  function NameColumn(t: RawTable, j: nat): (col: seq<string>)
    ensures |col| == |t.rows|
  {
    seq(|t.rows|, i requires 0 <= i < |t.rows| => SalesName(CellText(CellAt(t.rows[i], j))))
  }

  /** The normalized row i, reading the columns found in hs. */
  function SalesRowAt(t: RawTable, hs: seq<string>, i: nat): SalesRecord
    requires SalesColumnsOk(hs) && i < |t.rows|
  {
    var row := t.rows[i];
    MakeSale(SalesName(CellText(CellAt(row, FirstIndex(hs, {ProductHeader})))),
             Value(row, hs, StoreUnits), Value(row, hs, DeliveryUnits),
             Value(row, hs, StoreRevenue), Value(row, hs, DeliveryRevenue))
  }

  /** How often the numeric column's header occurs. */
  function ColumnCount(hs: seq<string>, c: SalesColumn): nat {
    Occurrences(hs, {SourceHeader(c)})
  }

  /** The converted numeric column c. */
  function ColumnOf(t: RawTable, hs: seq<string>, c: SalesColumn): seq<Option<real>>
    requires ColumnCount(hs, c) > 0
  {
    NumberColumn(t, FirstIndex(hs, {SourceHeader(c)}))
  }

  /** A numeric cell of the row, as converted (None is NaN). */
  function SalesCell(row: seq<Cell>, hs: seq<string>, c: SalesColumn): Option<real>
    requires ColumnCount(hs, c) > 0
  {
    BrazilianNumber(CellText(CellAt(row, FirstIndex(hs, {SourceHeader(c)}))))
  }

  /** A numeric cell of the row, NaN filled with 0. */
  function Value(row: seq<Cell>, hs: seq<string>, c: SalesColumn): real
    requires ColumnCount(hs, c) > 0
  {
    SalesCell(row, hs, c).GetOr(0.0)
  }

  /** The sales normalizer once the header is normalized: None is the empty
      DataFrame it returns on a bad header; otherwise one record per row, in
      order, with duplicate names kept apart. */
  function SalesFrom(t: RawTable, hs: seq<string>): (r: Option<seq<SalesRecord>>)
    ensures r.Some? <==> SalesColumnsOk(hs)
    ensures r.Some? ==> |r.value| == |t.rows|
  {
    if SalesColumnsOk(hs) then Some(seq(|t.rows|, i requires 0 <= i < |t.rows| => SalesRowAt(t, hs, i)))
    else None
  }

  /** fillna(0): a cell that does not read as a number counts as 0 in the
      sums, and a row with no readable unit count has popularity 0 and price 0. */
  lemma SalesZeroFill(t: RawTable, hs: seq<string>, i: nat)
    requires SalesColumnsOk(hs) && i < |t.rows|
    ensures var row, r := t.rows[i], SalesFrom(t, hs).value[i];
      && r.popularity == SalesCell(row, hs, StoreUnits).GetOr(0.0) + SalesCell(row, hs, DeliveryUnits).GetOr(0.0)
      && r.revenue == SalesCell(row, hs, StoreRevenue).GetOr(0.0) + SalesCell(row, hs, DeliveryRevenue).GetOr(0.0)
      && (SalesCell(row, hs, StoreUnits).None? && SalesCell(row, hs, DeliveryUnits).None? ==>
            r.popularity == 0.0 && r.price == 0.0)
  {
  }

  /** filtrar_vendas as a function of the export. */
  function SalesSpec(t: RawTable): Option<seq<SalesRecord>> {
    SalesFrom(t, SalesHeaders(t))
  }

  /** filtrar_vendas: normalize the header, then convert. */
  method FilterSales(t: RawTable) returns (out: Option<seq<SalesRecord>>)
    ensures out == SalesSpec(t)
  {
    var hs := SalesHeaders(t);
    out := ConvertSales(t, hs);
  }

  /** The body of filtrar_vendas after the header line, step by step: the
      header checks, the conversion loop over the four numeric columns, the
      NaN fill and the derived fields. */
  method ConvertSales(t: RawTable, hs: seq<string>) returns (out: Option<seq<SalesRecord>>)
    ensures out == SalesFrom(t, hs)
  {
    var products := Occurrences(hs, {ProductHeader});
    if products != 1 {
      assert !SalesColumnsOk(hs);
      return None;  // missing: the early return; duplicated: .str on a DataFrame raises
    }
    var names := NameColumn(t, FirstIndex(hs, {ProductHeader}));
    var numbers: map<SalesColumn, seq<Option<real>>> := map[];
    for k := 0 to |NumericColumns|
      invariant forall c :: c in numbers <==> Rank(c) < k && ColumnCount(hs, c) == 1
      invariant forall c :: Rank(c) < k ==> ColumnCount(hs, c) <= 1
      invariant forall c :: c in numbers ==> ColumnCount(hs, c) == 1 && numbers[c] == ColumnOf(t, hs, c)
    {
      var c := NumericColumns[k];
      assert Rank(c) == k;
      var n := ColumnCount(hs, c);
      if n > 1 {
        DuplicateRefused(hs, c);
        return None;  // a duplicated column: .str raises
      }
      if n == 1 {
        numbers := numbers[c := ColumnOf(t, hs, c)];
      }
    }
    if StoreUnits !in numbers || DeliveryUnits !in numbers {
      assert !SalesColumnsOk(hs);
      return None;  // KeyError at the popularity sum
    }
    if StoreRevenue !in numbers || DeliveryRevenue !in numbers {
      assert !SalesColumnsOk(hs);
      return None;  // KeyError at the revenue sum
    }
    assert SalesColumnsOk(hs);
    var records := Assemble(t, hs, names, numbers[StoreUnits], numbers[DeliveryUnits],
                            numbers[StoreRevenue], numbers[DeliveryRevenue]);
    out := Some(records);
  }

  /** A numeric column that occurs twice makes the conversion fail. */
  lemma DuplicateRefused(hs: seq<string>, c: SalesColumn)
    requires ColumnCount(hs, c) > 1
    ensures !SalesColumnsOk(hs)
  {
    match c
    case StoreUnits =>
    case DeliveryUnits =>
    case StoreRevenue =>
    case DeliveryRevenue =>
  }

  /** The NaN fill and the derived fields, column by column. */
  method Assemble(t: RawTable, hs: seq<string>, names: seq<string>,
                  storeUnits: seq<Option<real>>, deliveryUnits: seq<Option<real>>,
                  storeRevenue: seq<Option<real>>, deliveryRevenue: seq<Option<real>>)
    returns (records: seq<SalesRecord>)
    requires SalesColumnsOk(hs)
    requires names == NameColumn(t, FirstIndex(hs, {ProductHeader}))
    requires storeUnits == ColumnOf(t, hs, StoreUnits) && deliveryUnits == ColumnOf(t, hs, DeliveryUnits)
    requires storeRevenue == ColumnOf(t, hs, StoreRevenue) && deliveryRevenue == ColumnOf(t, hs, DeliveryRevenue)
    ensures Some(records) == SalesFrom(t, hs)
  {
    records := seq(|t.rows|, i requires 0 <= i < |t.rows| =>
      MakeSale(names[i], storeUnits[i].GetOr(0.0), deliveryUnits[i].GetOr(0.0),
               storeRevenue[i].GetOr(0.0), deliveryRevenue[i].GetOr(0.0)));
    forall i | 0 <= i < |t.rows| ensures records[i] == SalesRowAt(t, hs, i) {
      assert storeUnits[i].GetOr(0.0) == Value(t.rows[i], hs, StoreUnits);
      assert deliveryUnits[i].GetOr(0.0) == Value(t.rows[i], hs, DeliveryUnits);
      assert storeRevenue[i].GetOr(0.0) == Value(t.rows[i], hs, StoreRevenue);
      assert deliveryRevenue[i].GetOr(0.0) == Value(t.rows[i], hs, DeliveryRevenue);
    }
    assert records == SalesFrom(t, hs).value;
  }

  /** A sales row of the export: 10 units in store and 5 delivered, for
      "50,00" and "25,00", is 15 units at 5.0 each, 75.0 in all. */
  lemma SalesExample()
    ensures BrazilianNumber("50,00") == Some(50.0) && BrazilianNumber("25,00") == Some(25.0)
    ensures MakeSale("COCA COLA", 10.0, 5.0, 50.0, 25.0) == SalesRecord("COCA COLA", 15.0, 5.0, 75.0)
  {
    FiftyExample();
    TwentyFiveExample();
  }

  lemma FiftyExample()
    ensures BrazilianNumber("50,00") == Some(50.0)
  {
    assert NatToDigits(50) == "50";
    assert GroupThousands("50") == "50";
    assert TwoDigits(0) == "00";
    FormatOf(5000, "50", "00");
    assert "50" + "," + "00" == "50,00";
    BrazilianRoundTrip(5000);
  }

  lemma TwentyFiveExample()
    ensures BrazilianNumber("25,00") == Some(25.0)
  {
    assert NatToDigits(25) == "25";
    assert GroupThousands("25") == "25";
    assert TwoDigits(0) == "00";
    FormatOf(2500, "25", "00");
    assert "25" + "," + "00" == "25,00";
    BrazilianRoundTrip(2500);
  }

  // ---------------------------------------------------------------------
  // Cost normalizer (processar_nova_ficha)
  // ---------------------------------------------------------------------

  /** The spellings the cost column may have in the sheet. */
  const CostSpellings: set<string> := {"valor_custo", "valor custo"}

  /** Every label that ends up as the cost column after the renaming. */
  const CostLabels: set<string> := {"valor_custo", "valor custo", "custo_componente"}

  /** Every label that ends up as the product column after the renaming. */
  const ProductLabels: set<string> := {"produto_principal", "produto principal", "produto_nome"}

  /** Quotes removed, stripped, lower-cased. */
  function CostHeader(h: string): string {
    Lower(Strip(RemoveChar(h, '"')))
  }

  function CostHeaders(t: RawTable): (hs: seq<string>)
    ensures |hs| == |t.header|
  {
    seq(|t.header|, i requires 0 <= i < |t.header| => CostHeader(t.header[i]))
  }

  /** The sheet is usable: a cost column under one of its two spellings, and
      after the renaming exactly one cost and one product column (a missing
      product column returns early, a duplicated column makes the numeric or
      the string conversion fail). */
  predicate CostColumnsOk(hs: seq<string>) {
    && Occurrences(hs, CostSpellings) > 0
    && Occurrences(hs, CostLabels) == 1
    && Occurrences(hs, ProductLabels) == 1
  }

  /** to_numeric with errors='coerce': NaN stays NaN, text must be a plain
      decimal (a comma makes it NaN). */
  function CostValue(c: Cell): Option<real> {
    match c
    case None => None
    case Some(s) => ParseDecimal(s)
  }

  /** A component of a product's recipe, with its cost. */
  datatype CostEntry = CostEntry(name: string, cost: real)

  /** The rows that survive dropna on the cost column, in order, each with its
      cost key. */
  function Priced(rows: seq<seq<Cell>>, nameCol: nat, costCol: nat): (es: seq<CostEntry>)
    ensures |es| <= |rows|
    ensures forall e :: e in es ==> e.name == [] || e.name[|e.name| - 1] != '.'
  {
    if rows == [] then []
    else
      var before := Priced(rows[..|rows| - 1], nameCol, costCol);
      match RowEntry(rows[|rows| - 1], nameCol, costCol)
      case None => before
      case Some(e) =>
        assert forall x :: x in before + [e] ==> x in before || x == e;
        before + [e]
  }

  /** A row's entry, unless its cost is NaN. */
  function RowEntry(row: seq<Cell>, nameCol: nat, costCol: nat): Option<CostEntry> {
    match CostValue(CellAt(row, costCol))
    case None => None
    case Some(v) => Some(CostEntry(CostName(CellText(CellAt(row, nameCol))), v))
  }

  /** groupby(name).sum(): one total per product, adding costs in row order. */
  function GroupSum(es: seq<CostEntry>): map<string, real> {
    if es == [] then map[] else AddEntry(GroupSum(es[..|es| - 1]), es[|es| - 1])
  }

  /** Adds the entry's cost to its product's running total. */
  function AddEntry(m: map<string, real>, e: CostEntry): (r: map<string, real>)
    ensures r.Keys == m.Keys + {e.name}
    ensures r[e.name] == (if e.name in m then m[e.name] else 0.0) + e.cost
    ensures forall k :: k in m && k != e.name ==> r[k] == m[k]
  {
    m[e.name := (if e.name in m then m[e.name] else 0.0) + e.cost]
  }

  /** The products with a total are exactly the names of the entries. */
  lemma {:induction false} GroupSumKeys(es: seq<CostEntry>)
    ensures GroupSum(es).Keys == set e | e in es :: e.name
  {
    if es != [] {
      var init, e := es[..|es| - 1], es[|es| - 1];
      GroupSumKeys(init);
      assert es == init + [e];
    }
  }

  /** One more row either adds its entry or nothing. */
  lemma PricedStep(rows: seq<seq<Cell>>, i: nat, nameCol: nat, costCol: nat)
    requires i < |rows|
    ensures RowEntry(rows[i], nameCol, costCol).None? ==>
      Priced(rows[..i + 1], nameCol, costCol) == Priced(rows[..i], nameCol, costCol)
    ensures RowEntry(rows[i], nameCol, costCol).Some? ==>
      Priced(rows[..i + 1], nameCol, costCol) == Priced(rows[..i], nameCol, costCol) + [RowEntry(rows[i], nameCol, costCol).value]
  {
    assert rows[..i + 1][..i] == rows[..i];
  }

  /** One more entry adds its cost to its own product's total. */
  lemma GroupSumStep(es: seq<CostEntry>, e: CostEntry)
    ensures GroupSum(es + [e]) == AddEntry(GroupSum(es), e)
  {
    assert (es + [e])[..|es|] == es;
  }

  /** The total cost of the entries named k. */
  function SumFor(es: seq<CostEntry>, k: string): real {
    if es == [] then 0.0
    else SumFor(es[..|es| - 1], k) + (if es[|es| - 1].name == k then es[|es| - 1].cost else 0.0)
  }

  /** Each product's total is the sum of exactly its own components. */
  lemma {:induction false} GroupSumSums(es: seq<CostEntry>)
    ensures forall k :: k in GroupSum(es) ==> GroupSum(es)[k] == SumFor(es, k)
  {
    if es != [] {
      var init := es[..|es| - 1];
      GroupSumSums(init);
      GroupSumKeys(init);
      forall k | k in GroupSum(es) ensures GroupSum(es)[k] == SumFor(es, k) {
        if k !in GroupSum(init) {
          SumForAbsent(init, k);
        }
      }
    }
  }

  /** A name no entry carries adds up to nothing. */
  lemma {:induction false} SumForAbsent(es: seq<CostEntry>, k: string)
    requires forall e :: e in es ==> e.name != k
    ensures SumFor(es, k) == 0.0
  {
    if es != [] {
      assert es[|es| - 1] in es;
      forall e | e in es[..|es| - 1] ensures e.name != k {
        assert e in es;
      }
      SumForAbsent(es[..|es| - 1], k);
    }
  }

  /** The cost normalizer once the header is normalized: None is the empty
      DataFrame; otherwise the total cost per product key. */
  function CostFrom(t: RawTable, hs: seq<string>): (r: Option<map<string, real>>)
    ensures r.Some? <==> CostColumnsOk(hs)
  {
    if CostColumnsOk(hs) then
      Some(GroupSum(Priced(t.rows, FirstIndex(hs, ProductLabels), FirstIndex(hs, CostLabels))))
    else None
  }

  /** processar_nova_ficha as a function of the sheet. */
  function CostSpec(t: RawTable): Option<map<string, real>> {
    CostFrom(t, CostHeaders(t))
  }

  /** processar_nova_ficha: normalize the header, then total the costs. */
  method ProcessCostSheet(t: RawTable) returns (out: Option<map<string, real>>)
    ensures out == CostSpec(t)
  {
    var hs := CostHeaders(t);
    out := TotalCosts(t, hs);
  }

  /** The body of processar_nova_ficha after the header line: the header
      checks, then the totals. */
  method TotalCosts(t: RawTable, hs: seq<string>) returns (out: Option<map<string, real>>)
    ensures out == CostFrom(t, hs)
  {
    if Occurrences(hs, CostSpellings) == 0 {
      return None;  // no cost column
    }
    if Occurrences(hs, CostLabels) != 1 {
      return None;  // a duplicated cost column: to_numeric raises
    }
    if Occurrences(hs, ProductLabels) != 1 {
      return None;  // missing: the final return; duplicated: .str raises
    }
    var totals := SumCosts(t.rows, FirstIndex(hs, ProductLabels), FirstIndex(hs, CostLabels));
    out := Some(totals);
  }

  /** dropna on the cost column, then groupby-sum, as one pass over the rows. */
  method SumCosts(rows: seq<seq<Cell>>, nameCol: nat, costCol: nat) returns (totals: map<string, real>)
    ensures totals == GroupSum(Priced(rows, nameCol, costCol))
  {
    totals := map[];
    for i := 0 to |rows|
      invariant totals == GroupSum(Priced(rows[..i], nameCol, costCol))
    {
      PricedStep(rows, i, nameCol, costCol);
      var entry := RowEntry(rows[i], nameCol, costCol);
      if entry.Some? {
        GroupSumStep(Priced(rows[..i], nameCol, costCol), entry.value);
        totals := AddEntry(totals, entry.value);
      }
    }
    assert rows[..|rows|] == rows;
  }

  /** No cost key ends in '.', so a sales name that does never finds a cost. */
  lemma CostKeysUndotted(t: RawTable, k: string)
    requires CostSpec(t).Some? && k in CostSpec(t).value
    ensures k == [] || k[|k| - 1] != '.'
  {
    var hs := CostHeaders(t);
    var es := Priced(t.rows, FirstIndex(hs, ProductLabels), FirstIndex(hs, CostLabels));
    assert CostSpec(t).value == GroupSum(es);
    GroupSumKeys(es);
    var e :| e in es && e.name == k;
  }

  /** dropna: the entries are exactly the rows whose cost parses; a row
      whose cost does not is dropped, not counted as 0. */
  lemma PricedMembers(rows: seq<seq<Cell>>, nameCol: nat, costCol: nat, e: CostEntry)
    ensures e in Priced(rows, nameCol, costCol) <==>
      exists i :: 0 <= i < |rows| && RowEntry(rows[i], nameCol, costCol) == Some(e)
  {
    if e in Priced(rows, nameCol, costCol) {
      PricedFromRow(rows, nameCol, costCol, e);
    }
    if exists i :: 0 <= i < |rows| && RowEntry(rows[i], nameCol, costCol) == Some(e) {
      var i :| 0 <= i < |rows| && RowEntry(rows[i], nameCol, costCol) == Some(e);
      RowIsPriced(rows, nameCol, costCol, i, e);
    }
  }

  /** Every entry comes from a row whose cost parses. */
  lemma {:induction false} PricedFromRow(rows: seq<seq<Cell>>, nameCol: nat, costCol: nat, e: CostEntry)
    requires e in Priced(rows, nameCol, costCol)
    ensures exists i :: 0 <= i < |rows| && RowEntry(rows[i], nameCol, costCol) == Some(e)
  {
    var init := rows[..|rows| - 1];
    if e in Priced(init, nameCol, costCol) {
      PricedFromRow(init, nameCol, costCol, e);
      var i :| 0 <= i < |init| && RowEntry(init[i], nameCol, costCol) == Some(e);
      assert rows[i] == init[i];
    } else {
      assert RowEntry(rows[|rows| - 1], nameCol, costCol) == Some(e);
    }
  }

  /** Every row whose cost parses gives an entry. */
  lemma {:induction false} RowIsPriced(rows: seq<seq<Cell>>, nameCol: nat, costCol: nat, i: nat, e: CostEntry)
    requires i < |rows| && RowEntry(rows[i], nameCol, costCol) == Some(e)
    ensures e in Priced(rows, nameCol, costCol)
  {
    if i + 1 < |rows| {
      var init := rows[..|rows| - 1];
      assert init[i] == rows[i];
      RowIsPriced(init, nameCol, costCol, i, e);
      PricedStep(rows, |rows| - 1, nameCol, costCol);
      assert rows[..|rows|] == rows;
    } else {
      PricedStep(rows, i, nameCol, costCol);
      assert rows[..i + 1] == rows;
    }
  }


  /** The keys with a total are the keys of the rows whose cost parses. */
  lemma GroupedKeys(rows: seq<seq<Cell>>, nameCol: nat, costCol: nat, k: string)
    ensures k in GroupSum(Priced(rows, nameCol, costCol)) <==>
      exists i :: 0 <= i < |rows| && CostValue(CellAt(rows[i], costCol)).Some?
        && CostName(CellText(CellAt(rows[i], nameCol))) == k
  {
    var es := Priced(rows, nameCol, costCol);
    GroupSumKeys(es);
    if k in GroupSum(es) {
      var e :| e in es && e.name == k;
      PricedFromRow(rows, nameCol, costCol, e);
      var i :| 0 <= i < |rows| && RowEntry(rows[i], nameCol, costCol) == Some(e);
      assert CostValue(CellAt(rows[i], costCol)).Some?;
    }
    if exists i :: 0 <= i < |rows| && CostValue(CellAt(rows[i], costCol)).Some?
                   && CostName(CellText(CellAt(rows[i], nameCol))) == k {
      var i :| 0 <= i < |rows| && CostValue(CellAt(rows[i], costCol)).Some?
               && CostName(CellText(CellAt(rows[i], nameCol))) == k;
      var e := RowEntry(rows[i], nameCol, costCol).value;
      RowIsPriced(rows, nameCol, costCol, i, e);
      assert e.name == k;
    }
  }

  /** A product has a total exactly when some row under its key has a cost
      that parses; a product whose every cost is unreadable has none, and so
      never joins the sales. */
  lemma CostTotalNeedsParsedRow(t: RawTable, k: string)
    requires CostSpec(t).Some?
    ensures var hs := CostHeaders(t);
      k in CostSpec(t).value <==>
        exists i :: 0 <= i < |t.rows|
          && CostValue(CellAt(t.rows[i], FirstIndex(hs, CostLabels))).Some?
          && CostName(CellText(CellAt(t.rows[i], FirstIndex(hs, ProductLabels)))) == k
  {
    var hs := CostHeaders(t);
    var n, c := FirstIndex(hs, ProductLabels), FirstIndex(hs, CostLabels);
    assert CostSpec(t).value == GroupSum(Priced(t.rows, n, c));
    GroupedKeys(t.rows, n, c, k);
  }


  /** The sheet's total for a product: the plain-decimal costs of its rows
      added up, a trailing '.' ignored, the comma-written ones dropped. */
  lemma CostExample(t: RawTable)
    requires t.header == ["produto_principal", "valor_custo"]
    requires t.rows == [[Some("BURGER."), Some("2.50")], [Some("BURGER"), Some("1")], [Some("FRIES"), Some("2,50")]]
    ensures CostFrom(t, t.header) == Some(map["BURGER" := 3.5])
  {
    ExampleHeader();
    ExampleEntries(t.rows);
    GroupSumOfTwo(CostEntry("BURGER", 2.5), CostEntry("BURGER", 1.0));
  }

  /** Two components of the same product. */
  lemma GroupSumOfTwo(e0: CostEntry, e1: CostEntry)
    requires e0.name == e1.name
    ensures GroupSum([e0, e1]) == map[e0.name := e0.cost + e1.cost]
  {
    assert [e0, e1][..1] == [e0];
    assert [e0][..0] == [];
    assert GroupSum([e0]) == AddEntry(map[], e0);
    assert GroupSum([e0]) == map[e0.name := e0.cost];
    assert GroupSum([e0, e1]) == AddEntry(GroupSum([e0]), e1);
  }

  lemma ExampleHeader()
    ensures CostColumnsOk(["produto_principal", "valor_custo"])
    ensures FirstIndex(["produto_principal", "valor_custo"], ProductLabels) == 0
    ensures FirstIndex(["produto_principal", "valor_custo"], CostLabels) == 1
  {
    var hs := ["produto_principal", "valor_custo"];
    assert Occurrences(hs, CostSpellings) == 1;
    assert Occurrences(hs, CostLabels) == 1;
    assert Occurrences(hs, ProductLabels) == 1;
  }

  lemma ExampleRow0(row: seq<Cell>)
    requires row == [Some("BURGER."), Some("2.50")]
    ensures RowEntry(row, 0, 1) == Some(CostEntry("BURGER", 2.5))
  {
    ExampleCost();
    ExampleDottedName();
    EntryOf(row, "BURGER.", "2.50", "BURGER", 2.5);
  }

  /** A row whose name and cost cells are known. */
  lemma EntryOf(row: seq<Cell>, name: string, cost: string, key: string, v: real)
    requires |row| == 2 && row[0] == Some(name) && row[1] == Some(cost)
    requires ParseDecimal(cost) == Some(v) && CostName(name) == key
    ensures RowEntry(row, 0, 1) == Some(CostEntry(key, v))
  {
  }

  lemma ExampleCost()
    ensures ParseDecimal("2.50") == Some(2.5)
  {
    assert DigitsValue("50") == 50 by { DigitsValueGrowsBy("5", '0'); assert "5" + ['0'] == "50"; }
    PointedValue("2", "50", 2.5);
    assert "2" + "." + "50" == "2.50";
  }

  lemma ExampleDottedName()
    ensures CostName("BURGER.") == "BURGER"
  {
    assert IsNormalName("BURGER.");
    NormalNameIsFixed("BURGER.");
  }

  lemma ExampleRow1(row: seq<Cell>)
    requires row == [Some("BURGER"), Some("1")]
    ensures RowEntry(row, 0, 1) == Some(CostEntry("BURGER", 1.0))
  {
    ExampleOne();
    ExamplePlainName("BURGER");
    EntryOf(row, "BURGER", "1", "BURGER", 1.0);
  }

  lemma ExampleOne()
    ensures ParseDecimal("1") == Some(1.0)
  {
    var w := "1";
    assert DotIndex(w) == 1;
    assert DigitsValue(w) == 1;
  }

  lemma ExamplePlainName(u: string)
    requires u == "BURGER"
    ensures CostName(u) == u
  {
    assert IsNormalName(u);
    NormalNameIsFixed(u);
  }

  lemma ExampleRow2(row: seq<Cell>)
    requires row == [Some("FRIES"), Some("2,50")]
    ensures RowEntry(row, 0, 1) == None
  {
    CommaIsNotANumber("2,50", 1);
  }

  lemma ExampleEntries(rows: seq<seq<Cell>>)
    requires rows == [[Some("BURGER."), Some("2.50")], [Some("BURGER"), Some("1")], [Some("FRIES"), Some("2,50")]]
    ensures Priced(rows, 0, 1) == [CostEntry("BURGER", 2.5), CostEntry("BURGER", 1.0)]
  {
    ExampleRow0(rows[0]);
    ExampleRow1(rows[1]);
    ExampleRow2(rows[2]);
    PricedOfThree(rows, 0, 1, CostEntry("BURGER", 2.5), CostEntry("BURGER", 1.0));
  }

  /** Three rows of which the last has no cost. */
  lemma PricedOfThree(rows: seq<seq<Cell>>, n: nat, c: nat, e0: CostEntry, e1: CostEntry)
    requires |rows| == 3
    requires RowEntry(rows[0], n, c) == Some(e0)
    requires RowEntry(rows[1], n, c) == Some(e1)
    requires RowEntry(rows[2], n, c) == None
    ensures Priced(rows, n, c) == [e0, e1]
  {
    assert rows[..0] == [];
    PricedStep(rows, 0, n, c);
    PricedStep(rows, 1, n, c);
    PricedStep(rows, 2, n, c);
    assert [] + [e0] + [e1] == [e0, e1];
    assert rows[..3] == rows;
  }

  // ---------------------------------------------------------------------
  // Quadrant rule (classificar_produto)
  // ---------------------------------------------------------------------

  /** The four menu-engineering quadrants. */
  datatype Quadrant = Star | Workhorse | Puzzle | Dog

  /** The quadrant of an item, from its popularity and profit against the
      menu's means; reaching a mean counts as high. */
  function Classify(popularity: real, profit: real, popMean: real, profitMean: real): (q: Quadrant)
    ensures q == Star <==> popularity >= popMean && profit >= profitMean
    ensures q == Workhorse <==> popularity >= popMean && profit < profitMean
    ensures q == Puzzle <==> popularity < popMean && profit >= profitMean
    ensures q == Dog <==> popularity < popMean && profit < profitMean
  {
    if popularity >= popMean && profit >= profitMean then Star
    else if popularity >= popMean && profit < profitMean then Workhorse
    else if popularity < popMean && profit >= profitMean then Puzzle
    else Dog
  }

  /** Selling more, or earning more per sale, never moves an item out of the stars. */
  lemma StarIsUpwardClosed(popularity: real, profit: real, popularity': real, profit': real,
                           popMean: real, profitMean: real)
    requires Classify(popularity, profit, popMean, profitMean) == Star
    requires popularity' >= popularity && profit' >= profit
    ensures Classify(popularity', profit', popMean, profitMean) == Star
  {
  }

  /** The labels the dataloader gives the quadrants. */
  function DataloaderLabel(q: Quadrant): string {
    match q
    case Star => "\U{2B50} Estrela"
    case Workhorse => "\U{1F434} Burro de Carga"
    case Puzzle => "\U{1F9E9} Quebra-cabe\U{E7}a"
    case Dog => "\U{1F436} C\U{E3}o"
  }

  /** Distinct quadrants get distinct labels, so the label determines the quadrant. */
  lemma DataloaderLabelInjective(q: Quadrant, q': Quadrant)
    requires DataloaderLabel(q) == DataloaderLabel(q')
    ensures q == q'
  {
  }
}
