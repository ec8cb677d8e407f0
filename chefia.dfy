/** app.py: the ChefIA variant of the dashboard over a list the user keeps by
    hand: its labels, the escaping of the assistant's text, the CSV import,
    the list operations, the analysis of the list and its two extracts. */
module Chefia {
  import opened Optional
  import opened Text
  import opened Decimal
  import opened Table
  import opened Dataloader
  import opened Menu
  import opened Ranking

  // ---------------------------------------------------------------------
  // Labels (classificar_produto) and KPI counts
  // ---------------------------------------------------------------------

  /** The labels ChefIA gives the quadrants. */
  function ChefLabel(q: Quadrant): string {
    match q
    case Star => "\U{2B50} Estrela"
    case Workhorse => "\U{1F6D2} Popular"
    case Puzzle => "\U{1F48E} Oportunidade"
    case Dog => "\U{26A0}\U{FE0F} Cr\U{ED}tico"
  }

  /** Distinct quadrants get distinct labels. */
  lemma ChefLabelInjective(q: Quadrant, q': Quadrant)
    requires ChefLabel(q) == ChefLabel(q')
    ensures q == q'
  {
  }

  /** The label of one row of the analysis: the quadrant rule in ChefIA's wording. */
  function LabelOf(popularity: real, profit: real, popMean: real, profitMean: real): (tag: string)
    ensures tag == "\U{2B50} Estrela" <==> popularity >= popMean && profit >= profitMean
    ensures tag == "\U{1F6D2} Popular" <==> popularity >= popMean && profit < profitMean
    ensures tag == "\U{1F48E} Oportunidade" <==> popularity < popMean && profit >= profitMean
    ensures tag == "\U{26A0}\U{FE0F} Cr\U{ED}tico" <==> popularity < popMean && profit < profitMean
  {
    ChefLabel(Classify(popularity, profit, popMean, profitMean))
  }

  /** Number of items shown under `tag`. */
  function LabelCount(items: seq<MenuItem>, tag: string): (n: nat)
    ensures n <= |items|
  {
    if items == [] then 0
    else LabelCount(items[..|items| - 1], tag) + (if ChefLabel(items[|items| - 1].quadrant) == tag then 1 else 0)
  }

  lemma {:induction false} LabelCountIsCount(items: seq<MenuItem>, q: Quadrant)
    ensures LabelCount(items, ChefLabel(q)) == Count(items, q)
  {
    if items != [] {
      LabelCountIsCount(items[..|items| - 1], q);
      var p := items[|items| - 1].quadrant;
      if ChefLabel(p) == ChefLabel(q) {
        ChefLabelInjective(p, q);
      }
    }
  }

  /** The four KPI cards (stars, opportunities, critical, popular) add up to
      the item count on the first card. */
  lemma KpisAddUp(items: seq<MenuItem>)
    ensures LabelCount(items, ChefLabel(Star)) + LabelCount(items, ChefLabel(Puzzle))
          + LabelCount(items, ChefLabel(Dog)) + LabelCount(items, ChefLabel(Workhorse)) == |items|
  {
    LabelCountIsCount(items, Star);
    LabelCountIsCount(items, Puzzle);
    LabelCountIsCount(items, Dog);
    LabelCountIsCount(items, Workhorse);
    CountsAddUp(items);
  }

  // ---------------------------------------------------------------------
  // limpar_texto_ia
  // ---------------------------------------------------------------------

  function CountOf(s: string, c: char): nat {
    if s == [] then 0 else (if s[0] == c then 1 else 0) + CountOf(s[1..], c)
  }

  /** Every '$' becomes "\$", so Markdown does not read it as mathematics. */
  function CleanText(s: string): (r: string)
    ensures |r| == |s| + CountOf(s, '$')
    ensures r == [] || r[0] != '$'
  {
    if s == [] then []
    else (if s[0] == '$' then "\\$" else [s[0]]) + CleanText(s[1..])
  }

  /** Reads "\$" back as '$'. */
  function Unescape(r: string): string {
    if |r| >= 2 && r[0] == '\\' && r[1] == '$' then "$" + Unescape(r[2..])
    else if r == [] then []
    else [r[0]] + Unescape(r[1..])
  }

  /** Dropping the inserted backslashes gives the text back: nothing else changed. */
  lemma {:induction false} CleanTextReversible(s: string)
    ensures Unescape(CleanText(s)) == s
  {
    if s != [] {
      var rest := CleanText(s[1..]);
      CleanTextReversible(s[1..]);
      if s[0] == '$' {
        assert CleanText(s) == "\\$" + rest;
        assert (("\\$" + rest)[2..]) == rest;
      } else {
        assert CleanText(s) == [s[0]] + rest;
        assert ([s[0]] + rest)[1..] == rest;
      }
    }
  }

  /** Every '$' of the cleaned text is escaped. */
  lemma {:induction false} CleanTextEscapes(s: string, i: nat)
    requires i < |CleanText(s)| && CleanText(s)[i] == '$'
    ensures i > 0 && CleanText(s)[i - 1] == '\\'
  {
    var rest := CleanText(s[1..]);
    var head := if s[0] == '$' then "\\$" else [s[0]];
    assert CleanText(s) == head + rest;
    if i >= |head| {
      assert CleanText(s)[i] == rest[i - |head|];
      CleanTextEscapes(s[1..], i - |head|);
    }
  }

  // ---------------------------------------------------------------------
  // The manual list and its CSV import
  // ---------------------------------------------------------------------

  /** One dish of the list, as the form and the import store it. */
  datatype ManualEntry = ManualEntry(name: string, cost: real, price: real, popularity: int)

  const ImportNameLabel := "produto_nome"

  /** The three numeric columns the import converts. */
  datatype ImportColumn = CostColumn | PriceColumn | PopularityColumn

  function ImportHeader(c: ImportColumn): string {
    match c
    case CostColumn => "custo_producao"
    case PriceColumn => "preco_venda"
    case PopularityColumn => "popularidade"
  }

  /** The import's header normalization: stripped and lower-cased. */
  function ImportLabels(t: RawTable): (hs: seq<string>)
    ensures |hs| == |t.header|
  {
    seq(|t.header|, i requires 0 <= i < |t.header| => Lower(Strip(t.header[i])))
  }

  /** The four columns are present; each numeric one exactly once, since a
      duplicated one makes the conversion raise. */
  predicate ImportColumnsOk(hs: seq<string>) {
    && Occurrences(hs, {ImportNameLabel}) > 0
    && Occurrences(hs, {ImportHeader(CostColumn)}) == 1
    && Occurrences(hs, {ImportHeader(PriceColumn)}) == 1
    && Occurrences(hs, {ImportHeader(PopularityColumn)}) == 1
  }

  /** A number as the reader with decimal=',' and to_numeric accept it: a
      decimal comma or a decimal point. */
  function ImportNumber(c: Cell): Option<real> {
    match c
    case None => None
    case Some(s) => ParseDecimal(ReplaceChar(s, ',', '.'))
  }

  /** astype(int): truncation toward zero. */
  function Truncate(x: real): (n: int)
    ensures x >= 0.0 ==> n as real <= x < n as real + 1.0
    ensures x < 0.0 ==> n as real - 1.0 < x <= n as real
  {
    if x >= 0.0 then x.Floor else -((-x).Floor)
  }

  /** The numeric cell of column c in an imported row, as read (None is NaN). */
  function ImportCell(row: seq<Cell>, hs: seq<string>, c: ImportColumn): Option<real>
    requires ImportColumnsOk(hs)
  {
    ImportNumber(CellAt(row, FirstIndex(hs, {ImportHeader(c)})))
  }

  /** One imported row: NaN figures become 0, popularity truncated to an
      integer; of duplicated name columns the last one is kept. */
  function ImportRow(row: seq<Cell>, hs: seq<string>): (e: ManualEntry)
    requires ImportColumnsOk(hs)
    ensures ImportCell(row, hs, CostColumn).None? ==> e.cost == 0.0
    ensures ImportCell(row, hs, PriceColumn).None? ==> e.price == 0.0
    ensures ImportCell(row, hs, PopularityColumn).None? ==> e.popularity == 0
    ensures ImportCell(row, hs, CostColumn).Some? ==> e.cost == ImportCell(row, hs, CostColumn).value
    ensures ImportCell(row, hs, PriceColumn).Some? ==> e.price == ImportCell(row, hs, PriceColumn).value
    ensures var p := ImportCell(row, hs, PopularityColumn);
      p.Some? && p.value >= 0.0 ==> e.popularity as real <= p.value < e.popularity as real + 1.0
    ensures var p := ImportCell(row, hs, PopularityColumn);
      p.Some? && p.value < 0.0 ==> e.popularity as real - 1.0 < p.value <= e.popularity as real
    ensures var p := ImportCell(row, hs, PopularityColumn); p.Some? ==> e.popularity == Truncate(p.value)
  {
    ManualEntry(CellText(CellAt(row, LastIndex(hs, {ImportNameLabel}))),
                ImportCell(row, hs, CostColumn).GetOr(0.0),
                ImportCell(row, hs, PriceColumn).GetOr(0.0),
                Truncate(ImportCell(row, hs, PopularityColumn).GetOr(0.0)))
  }

  /** The import once the header is normalized: None when the file is refused. */
  function ImportFrom(t: RawTable, hs: seq<string>): (r: Option<seq<ManualEntry>>)
    ensures r.Some? <==> ImportColumnsOk(hs)
    ensures r.Some? ==> |r.value| == |t.rows|
  {
    if ImportColumnsOk(hs) then Some(seq(|t.rows|, i requires 0 <= i < |t.rows| => ImportRow(t.rows[i], hs)))
    else None
  }

  /** The list a file imports as, or None. */
  function ImportSpec(t: RawTable): Option<seq<ManualEntry>> {
    ImportFrom(t, ImportLabels(t))
  }

  /** fillna(0) in the import: a dish whose cell does not read as a number
      gets 0 for that figure, and its name comes from the last name column. */
  lemma ImportZeroFill(t: RawTable, hs: seq<string>, i: nat)
    requires ImportColumnsOk(hs) && i < |t.rows|
    ensures var row, e := t.rows[i], ImportFrom(t, hs).value[i];
      && (ImportCell(row, hs, CostColumn).None? ==> e.cost == 0.0)
      && (ImportCell(row, hs, PriceColumn).None? ==> e.price == 0.0)
      && (ImportCell(row, hs, PopularityColumn).None? ==> e.popularity == 0)
      && e.name == CellText(CellAt(row, LastIndex(hs, {ImportNameLabel})))
  {
  }

  /** The dishes the user keeps (st.session_state.dados_manuais) and the id
      of the last file imported (ultimo_import_id). */
  class ManualData {
    var entries: seq<ManualEntry>
    var lastImport: Option<string>

    /** The session starts with an empty list and no import. */
    constructor ()
      ensures entries == [] && lastImport == None
    {
      entries := [];
      lastImport := None;
    }

    /** An upload: a file already imported is ignored; a refused one leaves
        everything as it was; an accepted one replaces the whole list. */
    method Import(fileId: string, t: RawTable) returns (accepted: bool)
      modifies this
      ensures old(lastImport) == Some(fileId) ==> !accepted
      ensures accepted <==> old(lastImport) != Some(fileId) && ImportSpec(t).Some?
      ensures accepted ==> entries == ImportSpec(t).value && lastImport == Some(fileId)
      ensures !accepted ==> entries == old(entries) && lastImport == old(lastImport)
    {
      if lastImport == Some(fileId) {
        return false;
      }
      var imported := ImportSpec(t);
      if imported.None? {
        return false;
      }
      entries := imported.value;
      lastImport := Some(fileId);
      accepted := true;
    }

    /** The form: a dish with a name is appended, its name upper-cased; the
        dishes already there stay as they were. */
    method Add(name: string, cost: real, price: real, quantity: int)
      modifies this
      ensures name != [] ==> entries == old(entries) + [ManualEntry(Upper(name), cost, price, quantity)]
      ensures name == [] ==> entries == old(entries)
      ensures lastImport == old(lastImport)
    {
      if name != [] {
        entries := entries + [ManualEntry(Upper(name), cost, price, quantity)];
      }
    }

    /** The table editor: its rows replace the list when they differ. */
    method Edit(edited: seq<ManualEntry>)
      modifies this
      ensures entries == edited && lastImport == old(lastImport)
    {
      if edited != entries {
        entries := edited;
      }
    }

    /** "Limpar Todos os Dados". */
    method Clear()
      modifies this
      ensures entries == [] && lastImport == old(lastImport)
    {
      entries := [];
    }
  }

  // ---------------------------------------------------------------------
  // The analysis of the list (no popularity filter)
  // ---------------------------------------------------------------------

  /** A dish with its revenue, price times quantity sold. */
  function ManualLine(e: ManualEntry): Line {
    Line(e.name, e.popularity as real, e.price, e.cost, e.price * (e.popularity as real))
  }

  function ManualLines(entries: seq<ManualEntry>): (lines: seq<Line>)
    ensures |lines| == |entries|
  {
    seq(|entries|, i requires 0 <= i < |entries| => ManualLine(entries[i]))
  }

  /** The dashboard over the list: None when the list is empty, otherwise
      every dish classified against the means of all dishes. */
  function ManualAnalysis(entries: seq<ManualEntry>): Option<seq<MenuItem>> {
    if entries == [] then None else Some(Classified(ManualLines(entries)))
  }

  /** Lines 254-276 of app.py: the revenue column, then the profit column,
      the means and the labels. */
  method AnalyseList(entries: seq<ManualEntry>) returns (result: Option<seq<MenuItem>>)
    ensures result == ManualAnalysis(entries)
  {
    if entries == [] {
      return None;
    }
    var lines: seq<Line> := [];
    for i := 0 to |entries|
      invariant lines == ManualLines(entries[..i])
    {
      lines := lines + [ManualLine(entries[i])];
    }
    assert entries[..|entries|] == entries;
    var items, _, _ := AddMetrics(lines);
    result := Some(items);
  }

  /** Each analysed dish keeps its figures; its profit is price less cost and
      its revenue price times quantity. */
  lemma ManualItems(entries: seq<ManualEntry>, i: nat)
    requires i < |entries|
    ensures ManualAnalysis(entries).Some? && |ManualAnalysis(entries).value| == |entries|
    ensures var it := ManualAnalysis(entries).value[i];
      && it.name == entries[i].name
      && it.profit == entries[i].price - entries[i].cost
      && it.revenue == entries[i].price * (entries[i].popularity as real)
  {
    ClassifiedItems(ManualLines(entries), i);
  }

  /** A list of one dish shows a star. */
  lemma SingleDishIsStar(e: ManualEntry)
    ensures ManualAnalysis([e]) == Some(Classified([ManualLine(e)]))
    ensures ManualAnalysis([e]).value[0].quadrant == Star
  {
    assert ManualLines([e]) == [ManualLine(e)];
    SingleItemIsStar(ManualLine(e));
  }

  // ---------------------------------------------------------------------
  // The extracts for the assistant
  // ---------------------------------------------------------------------

  /** The report's extract: the 10 most profitable dishes, then the 10 most
      popular, then the 5 least profitable, each row once: at most 25 rows,
      none twice, the most profitable first. */
  function ReportExtract(items: seq<MenuItem>): (r: seq<MenuItem>)
    ensures |r| <= 25
    ensures forall i, j :: 0 <= i < j < |r| ==> r[i] != r[j]
    ensures Dedup(Head(items, ByProfit, true, 10)) <= r
    ensures Dedup(Head(items, ByProfit, true, 10) + Head(items, ByPopularity, true, 10)) <= r
    ensures forall x :: x in r <==>
      x in Head(items, ByProfit, true, 10) || x in Head(items, ByPopularity, true, 10) || x in Head(items, ByProfit, false, 5)
  {
    var a, b, c := Head(items, ByProfit, true, 10), Head(items, ByPopularity, true, 10), Head(items, ByProfit, false, 5);
    DedupDistinct(a + b + c);
    DedupPrefix(a, b + c);
    DedupPrefix(a + b, c);
    assert a + (b + c) == a + b + c;
    assert forall x :: x in a + b + c <==> x in a || x in b || x in c;
    Dedup(a + b + c)
  }

  /** The extract holds exactly the rows of the three extracts, and so only
      rows of the analysis. */
  lemma ReportExtractRows(items: seq<MenuItem>, x: MenuItem)
    ensures x in ReportExtract(items) ==> x in items
    ensures x in ReportExtract(items) <==>
      x in Head(items, ByProfit, true, 10) || x in Head(items, ByPopularity, true, 10) || x in Head(items, ByProfit, false, 5)
  {
    var a, b, c := Head(items, ByProfit, true, 10), Head(items, ByPopularity, true, 10), Head(items, ByProfit, false, 5);
    if x in ReportExtract(items) {
      assert x in multiset(a) || x in multiset(b) || x in multiset(c);
    }
  }

  /** The chat's context: the 60 dishes with the highest revenue, highest first. */
  function ChatContext(items: seq<MenuItem>): (r: seq<MenuItem>)
    ensures |r| == Min(60, |items|)
    ensures Ordered(r, ByRevenue, true)
    ensures multiset(r) <= multiset(items)
  {
    Head(items, ByRevenue, true, 60)
  }
}
