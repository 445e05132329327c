/** The tables the scraper hands to `tabulate`: a header row plus the rows
    that `itertools.zip_longest` builds from parallel columns. */
module Tables {
  import opened Wrappers

  /** One row of cells; `None` is the fill value `zip_longest` pads with. */
  type Row = seq<Option<string>>

  /** A table before rendering: its headers and its rows. */
  datatype Table = Table(headers: seq<string>, rows: seq<Row>)

  function Max(a: nat, b: nat): nat
  {
    if a < b then b else a
  }

  /** The length of the longest column. */
  function MaxLen(cols: seq<seq<string>>): (r: nat)
    ensures forall j :: 0 <= j < |cols| ==> |cols[j]| <= r
    ensures cols == [] ==> r == 0
    ensures cols != [] ==> exists j :: 0 <= j < |cols| && |cols[j]| == r
  {
    if cols == [] then 0
    else
      var rest := MaxLen(cols[1..]);
      assert forall j :: 1 <= j < |cols| ==> cols[j] == cols[1..][j - 1];
      Max(|cols[0]|, rest)
  }

  /** The cell that column `col` contributes to row `i`. */
  function Cell(col: seq<string>, i: nat): Option<string>
  {
    if i < |col| then Some(col[i]) else None
  }

  /** The next value drawn from every column iterator. */
  function Heads(cols: seq<seq<string>>): (r: Row)
    ensures |r| == |cols|
    ensures forall j :: 0 <= j < |cols| ==> r[j] == Cell(cols[j], 0)
  {
    if cols == [] then [] else [Cell(cols[0], 0)] + Heads(cols[1..])
  }

  /** Every column iterator after one step. */
  function Tails(cols: seq<seq<string>>): (r: seq<seq<string>>)
    ensures |r| == |cols|
    ensures forall j: nat, i: nat :: j < |cols| ==> Cell(r[j], i) == Cell(cols[j], i + 1)
    ensures MaxLen(r) == if MaxLen(cols) == 0 then 0 else MaxLen(cols) - 1
  {
    if cols == [] then []
    else
      var first := if cols[0] == [] then [] else cols[0][1..];
      var rest := Tails(cols[1..]);
      var r := [first] + rest;
      assert forall i: nat :: Cell(first, i) == Cell(cols[0], i + 1);
      assert forall j :: 1 <= j < |cols| ==> r[j] == rest[j - 1] && cols[j] == cols[1..][j - 1];
      r
  }

  /** `list(itertools.zip_longest(*cols))`: one row per step until every
      column is exhausted, a missing value filled with `None`. */
  function ZipLongest(cols: seq<seq<string>>): seq<Row>
    decreases MaxLen(cols)
  {
    if MaxLen(cols) == 0 then [] else [Heads(cols)] + ZipLongest(Tails(cols))
  }

  /** Pairing is positional: there are as many rows as the longest column has
      values, and row `i` holds the `i`-th value of every column, `None` where
      that column is shorter. */
  lemma {:induction false} ZipLongestAt(cols: seq<seq<string>>)
    ensures |ZipLongest(cols)| == MaxLen(cols)
    ensures forall i :: 0 <= i < MaxLen(cols) ==> |ZipLongest(cols)[i]| == |cols|
    ensures forall i, j :: 0 <= i < MaxLen(cols) && 0 <= j < |cols| ==>
      ZipLongest(cols)[i][j] == Cell(cols[j], i)
    decreases MaxLen(cols)
  {
    if MaxLen(cols) > 0 {
      var tails := Tails(cols);
      ZipLongestAt(tails);
      var z := ZipLongest(cols);
      var zt := ZipLongest(tails);
      assert z == [Heads(cols)] + zt;
      assert |zt| == MaxLen(cols) - 1;
      forall i, j | 0 <= i < MaxLen(cols) && 0 <= j < |cols|
        ensures |z[i]| == |cols| && z[i][j] == Cell(cols[j], i)
      {
        if i == 0 {
          assert z[0] == Heads(cols);
        } else {
          assert z[i] == zt[i - 1];
          assert Cell(tails[j], i - 1) == Cell(cols[j], i);
        }
      }
    }
  }

  /** `zip_longest` never emits a row made only of fill values. */
  lemma NoEmptyRow(cols: seq<seq<string>>, i: nat)
    requires i < MaxLen(cols)
    ensures i < |ZipLongest(cols)| && |ZipLongest(cols)[i]| == |cols|
    ensures exists j :: 0 <= j < |cols| && ZipLongest(cols)[i][j].Some?
  {
    ZipLongestAt(cols);
    var j :| 0 <= j < |cols| && |cols[j]| == MaxLen(cols);
    assert ZipLongest(cols)[i][j] == Cell(cols[j], i);
  }

  /** One column: one single-cell row per value, none of them padded. */
  lemma ZipOne(xs: seq<string>)
    ensures |ZipLongest([xs])| == |xs|
    ensures forall i :: 0 <= i < |xs| ==> ZipLongest([xs])[i] == [Some(xs[i])]
  {
    ZipLongestAt([xs]);
    assert MaxLen([xs]) == |xs|;
    forall i | 0 <= i < |xs| ensures ZipLongest([xs])[i] == [Some(xs[i])] {
      assert ZipLongest([xs])[i][0] == Cell([xs][0], i);
    }
  }

  /** Two columns: `max(|xs|, |ys|)` rows, row `i` is `(xs[i], ys[i])` with
      `None` past the end of the shorter column. */
  lemma ZipTwo(xs: seq<string>, ys: seq<string>)
    ensures |ZipLongest([xs, ys])| == Max(|xs|, |ys|)
    ensures forall i :: 0 <= i < Max(|xs|, |ys|) ==>
      ZipLongest([xs, ys])[i] == [Cell(xs, i), Cell(ys, i)]
  {
    var cols := [xs, ys];
    ZipLongestAt(cols);
    assert MaxLen(cols) == Max(|xs|, |ys|) by {
      assert |cols[0]| <= MaxLen(cols) && |cols[1]| <= MaxLen(cols);
    }
    forall i | 0 <= i < Max(|xs|, |ys|)
      ensures ZipLongest(cols)[i] == [Cell(xs, i), Cell(ys, i)]
    {
      assert ZipLongest(cols)[i][0] == Cell(cols[0], i);
      assert ZipLongest(cols)[i][1] == Cell(cols[1], i);
    }
  }
}
