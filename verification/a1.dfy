/** A1 notation for spreadsheet ranges, as the write-backs spell them
    (`C12`, `P12`, `K12:R12`): rendering, parsing, and the round trip between
    the two. Only single-letter columns (A..Z) occur in the pipeline. */
module A1 {
  import opened Wrappers
  import opened Text

  /** A cell position, both coordinates 1-based. */
  datatype Cell = Cell(col: nat, row: nat)

  /** A rectangular range from its top-left to its bottom-right cell. */
  datatype Range = Range(first: Cell, last: Cell)

  predicate ValidCell(c: Cell) {
    1 <= c.col <= 26 && c.row >= 1
  }

  function ColumnLetter(col: nat): (c: char)
    requires 1 <= col <= 26
    ensures 'A' <= c <= 'Z'
  {
    ('A' as int + col - 1) as char
  }

  function CellName(c: Cell): (s: string)
    requires 1 <= c.col <= 26
    ensures |s| >= 2 && ':' !in s
  {
    [ColumnLetter(c.col)] + NatToString(c.row)
  }

  /** `X{row}` for one cell, `X{row}:Y{row'}` for a wider range. */
  function RangeName(r: Range): string
    requires 1 <= r.first.col <= 26 && 1 <= r.last.col <= 26
  {
    if r.first == r.last then CellName(r.first) else CellName(r.first) + ":" + CellName(r.last)
  }

  /** A column letter followed by a decimal row number of at least 1. */
  function ParseCell(s: string): (r: Option<Cell>)
    ensures r.Some? ==> ValidCell(r.value)
  {
    if |s| >= 2 && 'A' <= s[0] <= 'Z' && AllDigits(s[1..]) && DigitsValue(s[1..]) >= 1 then
      Some(Cell(s[0] as int - 'A' as int + 1, DigitsValue(s[1..])))
    else None
  }

  /** A single cell name, or two cell names separated by the first `:`. */
  function ParseRange(s: string): (r: Option<Range>)
    ensures r.Some? ==> ValidCell(r.value.first) && ValidCell(r.value.last)
  {
    var i := FirstIndex(s, ':');
    if i == |s| then
      match ParseCell(s)
      case None => None
      case Some(c) => Some(Range(c, c))
    else
      match (ParseCell(s[..i]), ParseCell(s[i + 1..]))
      case (Some(a), Some(b)) => Some(Range(a, b))
      case _ => None
  }

  lemma {:induction false} ParseCellName(c: Cell)
    requires ValidCell(c)
    ensures ParseCell(CellName(c)) == Some(c)
  {
    var s := CellName(c);
    assert s[1..] == NatToString(c.row);
    DigitsValueOfNatToString(c.row);
  }

  /** Every range the model writes to reads back as itself. */
  lemma {:induction false} ParseRangeName(r: Range)
    requires ValidCell(r.first) && ValidCell(r.last)
    ensures ParseRange(RangeName(r)) == Some(r)
  {
    ParseCellName(r.first);
    var a := CellName(r.first);
    if r.first == r.last {
      assert FirstIndex(a, ':') == |a|;
    } else {
      ParseCellName(r.last);
      var b := CellName(r.last);
      var s := a + ":" + b;
      assert s[|a|] == ':';
      assert forall k :: 0 <= k < |a| ==> s[k] == a[k];
      assert FirstIndex(s, ':') == |a|;
      assert s[..|a|] == a;
      assert s[|a| + 1..] == b;
    }
  }
}
