/**
 * filterByRating: keep the items rated at least 4, in their original order.
 */
module RatingFilter {

  /** A rated item; `rating` is a JavaScript number, modelled as a real. */
  datatype Item = Item(title: string, rating: real)

  /** The inclusive rating threshold. */
  const MinRating: real := 4.0

  predicate WellRated(item: Item) {
    item.rating >= MinRating
  }

  predicate AllWellRated(s: seq<Item>) {
    forall i :: 0 <= i < |s| ==> WellRated(s[i])
  }

  /** `s` is obtained from `t` by deleting elements: each element of `t` is skipped or matched. */
  predicate IsSubsequence<T(==)>(s: seq<T>, t: seq<T>)
    decreases |t|
  {
    s == [] ||
    (t != [] && ((s[0] == t[0] && IsSubsequence(s[1..], t[1..])) || IsSubsequence(s, t[1..])))
  }

  /**
   * The source's `items.filter(item => item.rating >= 4)`: the result holds
   * only well-rated items and is never longer than the input. The lemmas
   * below say that it holds all of them, in the input's order.
   */
  function FilterByRating(items: seq<Item>): (r: seq<Item>)
    ensures |r| <= |items|
    ensures AllWellRated(r)
  {
    if items == [] then []
    else if WellRated(items[0]) then [items[0]] + FilterByRating(items[1..])
    else FilterByRating(items[1..])
  }

  /** Every well-rated item occurs in the result as often as in the input; no other item occurs. */
  lemma {:induction false} FilterCounts(items: seq<Item>)
    ensures forall x :: multiset(FilterByRating(items))[x]
                        == if WellRated(x) then multiset(items)[x] else 0
  {
    if items != [] {
      FilterCounts(items[1..]);
      assert items == [items[0]] + items[1..];
    }
  }

  /** An item is in the result exactly when it is in the input and is well rated. */
  lemma FilterMembership(items: seq<Item>, x: Item)
    ensures x in FilterByRating(items) <==> x in items && WellRated(x)
  {
    FilterCounts(items);
    assert x in FilterByRating(items) <==> multiset(FilterByRating(items))[x] > 0;
  }

  /** The result keeps the input's relative order: it is a subsequence of the input. */
  lemma {:induction false} FilterIsSubsequence(items: seq<Item>)
    ensures IsSubsequence(FilterByRating(items), items)
  {
    if items != [] {
      FilterIsSubsequence(items[1..]);
      var r := FilterByRating(items);
      if WellRated(items[0]) {
        assert r[0] == items[0] && r[1..] == FilterByRating(items[1..]);
      }
    }
  }

  /** Filtering distributes over concatenation of item lists. */
  lemma {:induction false} FilterAppend(a: seq<Item>, b: seq<Item>)
    ensures FilterByRating(a + b) == FilterByRating(a) + FilterByRating(b)
  {
    if a != [] {
      var ab := a + b;
      assert ab[0] == a[0] && ab[1..] == a[1..] + b;
      FilterAppend(a[1..], b);
      if WellRated(a[0]) {
        calc {
          FilterByRating(ab);
          [a[0]] + FilterByRating(a[1..] + b);
          [a[0]] + (FilterByRating(a[1..]) + FilterByRating(b));
          ([a[0]] + FilterByRating(a[1..])) + FilterByRating(b);
        }
      }
    } else {
      assert a + b == b;
    }
  }

  /** The filter leaves a list unchanged exactly when every item in it is well rated. */
  lemma {:induction false} FilterKeepsAllIff(items: seq<Item>)
    ensures FilterByRating(items) == items <==> AllWellRated(items)
  {
    if AllWellRated(items) && items != [] {
      assert AllWellRated(items[1..]) by {
        forall i | 0 <= i < |items[1..]| ensures WellRated(items[1..][i]) {
          assert items[1..][i] == items[i + 1];
        }
      }
      FilterKeepsAllIff(items[1..]);
      assert items == [items[0]] + items[1..];
    }
  }

  /** Filtering twice is the same as filtering once. */
  lemma FilterIdempotent(items: seq<Item>)
    ensures FilterByRating(FilterByRating(items)) == FilterByRating(items)
  {
    FilterKeepsAllIff(FilterByRating(items));
  }

  /** A subsequence is never longer than the sequence, and equally long only when equal. */
  lemma {:induction false} SubsequenceLength<T>(s: seq<T>, t: seq<T>)
    requires IsSubsequence(s, t)
    ensures |s| <= |t|
    ensures |s| == |t| ==> s == t
    decreases |t|
  {
    if s == [] {
    } else if s[0] == t[0] && IsSubsequence(s[1..], t[1..]) {
      SubsequenceLength(s[1..], t[1..]);
      if |s| == |t| {
        assert s == [s[0]] + s[1..] && t == [t[0]] + t[1..];
      }
    } else {
      SubsequenceLength(s, t[1..]);
    }
  }

  /** Every well-rated subsequence of the input is a subsequence of the filter's result. */
  lemma {:induction false} RatedSubsequenceOfFilter(s: seq<Item>, items: seq<Item>)
    requires IsSubsequence(s, items) && AllWellRated(s)
    ensures IsSubsequence(s, FilterByRating(items))
    decreases |items|
  {
    if s == [] {
    } else if s[0] == items[0] && IsSubsequence(s[1..], items[1..]) {
      assert AllWellRated(s[1..]) by {
        forall i | 0 <= i < |s[1..]| ensures WellRated(s[1..][i]) {
          assert s[1..][i] == s[i + 1];
        }
      }
      RatedSubsequenceOfFilter(s[1..], items[1..]);
      var f := FilterByRating(items);
      assert f == [items[0]] + FilterByRating(items[1..]);
      assert f[0] == s[0] && f[1..] == FilterByRating(items[1..]);
    } else {
      RatedSubsequenceOfFilter(s, items[1..]);
      var f := FilterByRating(items);
      if WellRated(items[0]) {
        assert f[1..] == FilterByRating(items[1..]);
      }
    }
  }

  /**
   * The filter's result is the longest well-rated subsequence of the input,
   * and the only one of that length: "exactly the well-rated items, in order".
   */
  lemma FilterIsLongestRatedSubsequence(s: seq<Item>, items: seq<Item>)
    requires IsSubsequence(s, items) && AllWellRated(s)
    ensures |s| <= |FilterByRating(items)|
    ensures |s| == |FilterByRating(items)| ==> s == FilterByRating(items)
  {
    RatedSubsequenceOfFilter(s, items);
    SubsequenceLength(s, FilterByRating(items));
  }
}
