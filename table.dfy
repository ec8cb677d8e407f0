/** A CSV export after the reader has split it: the column labels and, per row,
    the fields; a field the reader turns into NaN (empty, an NA marker, or
    missing at the end of a short row) is None. */
module Table {
  import opened Optional

  type Cell = Option<string>

  datatype RawTable = RawTable(header: seq<string>, rows: seq<seq<Cell>>)

  /** The field of `row` in column j; a row shorter than the header reads NaN. */
  function CellAt(row: seq<Cell>, j: nat): Cell {
    if j < |row| then row[j] else None
  }

  /** astype(str): a NaN cell becomes the text "nan". */
  function CellText(c: Cell): string {
    match c
    case Some(s) => s
    case None => "nan"
  }

  /** How many column labels are among `names`. */
  function Occurrences(hs: seq<string>, names: set<string>): (n: nat)
    ensures n <= |hs|
    ensures n == 0 <==> forall i :: 0 <= i < |hs| ==> hs[i] !in names
  {
    if hs == [] then 0 else Occurrences(hs[..|hs| - 1], names) + (if hs[|hs| - 1] in names then 1 else 0)
  }

  /** The first column whose label is among `names`. */
  function FirstIndex(hs: seq<string>, names: set<string>): (j: nat)
    requires Occurrences(hs, names) > 0
    ensures j < |hs| && hs[j] in names
    ensures forall i :: 0 <= i < j ==> hs[i] !in names
  {
    if hs[0] in names then 0
    else
      assert Occurrences(hs[1..], names) > 0 by {
        var i :| 0 <= i < |hs| && hs[i] in names;
        assert hs[1..][i - 1] == hs[i];
      }
      1 + FirstIndex(hs[1..], names)
  }

  /** The last column whose label is among `names`. */
  function LastIndex(hs: seq<string>, names: set<string>): (j: nat)
    requires Occurrences(hs, names) > 0
    ensures j < |hs| && hs[j] in names
    ensures forall i :: j < i < |hs| ==> hs[i] !in names
  {
    if hs[|hs| - 1] in names then |hs| - 1 else LastIndex(hs[..|hs| - 1], names)
  }

  /** A label in names at position k adds one to the count of the prefix before it. */
  lemma {:induction false} OccurrencesPrefix(hs: seq<string>, k: nat, names: set<string>)
    requires k < |hs| && hs[k] in names
    ensures Occurrences(hs, names) >= Occurrences(hs[..k], names) + 1
    decreases |hs|
  {
    if k < |hs| - 1 {
      assert hs[..|hs| - 1][..k] == hs[..k];
      OccurrencesPrefix(hs[..|hs| - 1], k, names);
    } else {
      assert hs[..|hs| - 1] == hs[..k];
    }
  }
}
