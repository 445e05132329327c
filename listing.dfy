/** The list items of a fetched page and the filters the list extractors run
    over them (`soup.findAll('li')` followed by a test on each item's anchor). */
module Listing {
  import opened Wrappers
  import opened Strings
  import opened Tables

  /** A `<li>` element, reduced to its anchor's `href` and its anchor's text. */
  datatype Item = Item(href: string, text: string)

  /** The test a list comprehension applies to each item. */
  datatype Criterion =
    | HrefHas(fragment: string)             // `fragment in a['href']`
    | NumericTextHrefLacks(fragment: string) // `a.text.isnumeric() and not fragment in a['href']`

  predicate Accepts(c: Criterion, it: Item)
  {
    match c
    case HrefHas(f) => Contains(it.href, f)
    case NumericTextHrefLacks(f) => IsNumeric(it.text) && !Contains(it.href, f)
  }

  /** `[li for li in items if accepted]`, written over the last item so that
      indices into a prefix stay indices into the whole list. */
  function Select(c: Criterion, items: seq<Item>): seq<Item>
  {
    if items == [] then []
    else
      var last := items[|items| - 1];
      Select(c, items[..|items| - 1]) + (if Accepts(c, last) then [last] else [])
  }

  /** The positions of the accepted items, in document order. */
  function MatchIndices(c: Criterion, items: seq<Item>): seq<nat>
  {
    if items == [] then []
    else
      MatchIndices(c, items[..|items| - 1]) + (if Accepts(c, items[|items| - 1]) then [|items| - 1] else [])
  }

  predicate Increasing(xs: seq<nat>)
  {
    forall a, b :: 0 <= a < b < |xs| ==> xs[a] < xs[b]
  }

  /** `[a.text.strip(' \n\t') for a in anchors]`. */
  function AnchorTexts(items: seq<Item>): seq<string>
  {
    seq(|items|, i requires 0 <= i < |items| => Strip(items[i].text, AnchorWhitespace))
  }

  /** The `k`-th item the filter keeps is the item at the `k`-th accepted position. */
  lemma {:induction false} SelectAtIndices(c: Criterion, items: seq<Item>)
    ensures |Select(c, items)| == |MatchIndices(c, items)|
    ensures forall k :: 0 <= k < |MatchIndices(c, items)| ==>
      MatchIndices(c, items)[k] < |items| && Select(c, items)[k] == items[MatchIndices(c, items)[k]]
  {
    if items != [] {
      var n := |items| - 1;
      var prefix := items[..n];
      SelectAtIndices(c, prefix);
      assert forall i :: 0 <= i < n ==> items[i] == prefix[i];
    }
  }

  /** The accepted positions increase, and each is a position of the list. */
  lemma {:induction false} IndicesIncrease(c: Criterion, items: seq<Item>)
    ensures Increasing(MatchIndices(c, items))
    ensures forall x :: x in MatchIndices(c, items) ==> x < |items|
  {
    if items != [] {
      var n := |items| - 1;
      IndicesIncrease(c, items[..n]);
      var before := MatchIndices(c, items[..n]);
      if Accepts(c, items[n]) {
        var idx := before + [n];
        assert MatchIndices(c, items) == idx;
        forall a, b | 0 <= a < b < |idx| ensures idx[a] < idx[b] {
          if b == |before| {
            assert before[a] in before;
          }
        }
      }
    }
  }

  /** A position is listed exactly when its item passes. */
  lemma {:induction false} IndicesExact(c: Criterion, items: seq<Item>)
    ensures forall i :: 0 <= i < |items| ==> (i in MatchIndices(c, items) <==> Accepts(c, items[i]))
  {
    if items != [] {
      var n := |items| - 1;
      var prefix := items[..n];
      IndicesExact(c, prefix);
      IndicesIncrease(c, prefix);
      var before := MatchIndices(c, prefix);
      var idx := MatchIndices(c, items);
      assert idx == before + (if Accepts(c, items[n]) then [n] else []);
      forall i | 0 <= i < |items| ensures i in idx <==> Accepts(c, items[i]) {
        if i < n {
          assert items[i] == prefix[i];
          assert i in before <==> i in idx;
        }
      }
    }
  }

  /** The filter keeps exactly the accepted items and keeps them in document
      order: its `k`-th result is the item at the `k`-th accepted position,
      the positions increase, and a position is listed iff its item passes. */
  lemma SelectInOrder(c: Criterion, items: seq<Item>)
    ensures |Select(c, items)| == |MatchIndices(c, items)|
    ensures Increasing(MatchIndices(c, items))
    ensures forall k :: 0 <= k < |MatchIndices(c, items)| ==>
      MatchIndices(c, items)[k] < |items| && Select(c, items)[k] == items[MatchIndices(c, items)[k]]
    ensures forall i :: 0 <= i < |items| ==> (i in MatchIndices(c, items) <==> Accepts(c, items[i]))
  {
    SelectAtIndices(c, items);
    IndicesIncrease(c, items);
    IndicesExact(c, items);
  }

  /** The filter result is empty exactly when no item passes. */
  lemma NoMatchIffEmpty(c: Criterion, items: seq<Item>)
    ensures Select(c, items) == [] <==> forall i :: 0 <= i < |items| ==> !Accepts(c, items[i])
  {
    SelectInOrder(c, items);
    if Select(c, items) != [] {
      var i := MatchIndices(c, items)[0];
      assert i in MatchIndices(c, items);
    }
  }

  /** Two filters that never accept the same item pick disjoint positions, so
      together they pick at most as many items as the page has. */
  lemma {:induction false} DisjointSelectBound(a: Criterion, b: Criterion, items: seq<Item>)
    requires forall it :: !(Accepts(a, it) && Accepts(b, it))
    ensures |Select(a, items)| + |Select(b, items)| <= |items|
  {
    if items != [] {
      DisjointSelectBound(a, b, items[..|items| - 1]);
    }
  }

  /** `rows` lists the items `c` accepts, one single-cell row each, in document
      order, each holding that item's anchor text stripped of space, newline
      and tab. */
  predicate RowsOfMatches(rows: seq<Row>, c: Criterion, items: seq<Item>)
  {
    var idx := MatchIndices(c, items);
    && |rows| == |idx|
    && forall k :: 0 <= k < |idx| ==>
         && idx[k] < |items|
         && rows[k] == [Some(Strip(items[idx[k]].text, AnchorWhitespace))]
  }

  /** A one-column list (`zip_longest` of the stripped texts of the accepted
      items) has one row per accepted item, in document order. */
  lemma ListColumn(c: Criterion, items: seq<Item>)
    ensures RowsOfMatches(ZipLongest([AnchorTexts(Select(c, items))]), c, items)
  {
    SelectInOrder(c, items);
    ZipOne(AnchorTexts(Select(c, items)));
  }
}
