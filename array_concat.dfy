/**
 * concatenateArrays: flatten any number of arrays into one, in argument order.
 */
module ArrayConcat {

  /** The sum of the lengths of the argument arrays, counted from the first. */
  function TotalLength<T>(arrays: seq<seq<T>>): nat
  {
    if arrays == [] then 0 else |arrays[0]| + TotalLength(arrays[1..])
  }

  lemma {:induction false} TotalLengthAppend<T>(a: seq<seq<T>>, b: seq<seq<T>>)
    ensures TotalLength(a + b) == TotalLength(a) + TotalLength(b)
  {
    if a == [] {
      assert a + b == b;
    } else {
      assert (a + b)[1..] == a[1..] + b;
      TotalLengthAppend(a[1..], b);
    }
  }

  /**
   * The source's `[].concat(...arrays)`: starting from the empty array, each
   * argument array is appended in turn. With no arguments the result is empty;
   * otherwise its length is the sum of the argument lengths.
   */
  function ConcatenateArrays<T>(arrays: seq<seq<T>>): (r: seq<T>)
    ensures |r| == TotalLength(arrays)
  {
    if arrays == [] then []
    else
      var n := |arrays| - 1;
      assert arrays == arrays[..n] + [arrays[n]];
      TotalLengthAppend(arrays[..n], [arrays[n]]);
      ConcatenateArrays(arrays[..n]) + arrays[n]
  }

  /** Concatenating the arguments of two calls gives the two results one after the other. */
  lemma {:induction false} ConcatenateAppend<T>(a: seq<seq<T>>, b: seq<seq<T>>)
    ensures ConcatenateArrays(a + b) == ConcatenateArrays(a) + ConcatenateArrays(b)
    decreases |b|
  {
    if b == [] {
      assert a + b == a;
    } else {
      var n := |b| - 1;
      assert (a + b)[..|a + b| - 1] == a + b[..n];
      ConcatenateAppend(a, b[..n]);
    }
  }

  /** A single argument array is returned element for element. */
  lemma ConcatenateSingle<T>(s: seq<T>)
    ensures ConcatenateArrays([s]) == s
  {
    assert [s][..0] == [];
  }

  /**
   * Element order: element `j` of argument `i` lands at position
   * `TotalLength(arrays[..i]) + j`, just after the elements of all earlier arguments.
   */
  lemma ConcatenateAt<T>(arrays: seq<seq<T>>, i: nat, j: nat)
    requires i < |arrays| && j < |arrays[i]|
    ensures TotalLength(arrays[..i]) + j < |ConcatenateArrays(arrays)|
    ensures ConcatenateArrays(arrays)[TotalLength(arrays[..i]) + j] == arrays[i][j]
  {
    var before, after := arrays[..i], arrays[i + 1..];
    assert arrays == before + [arrays[i]] + after;
    ConcatenateAppend(before + [arrays[i]], after);
    ConcatenateAppend(before, [arrays[i]]);
    ConcatenateSingle(arrays[i]);
  }

  /** An element is in the result exactly when it is in one of the argument arrays. */
  lemma {:induction false} ConcatenateMembership<T>(arrays: seq<seq<T>>, x: T)
    ensures x in ConcatenateArrays(arrays) <==> exists i :: 0 <= i < |arrays| && x in arrays[i]
  {
    if arrays != [] {
      var n := |arrays| - 1;
      ConcatenateMembership(arrays[..n], x);
      if x in arrays[n] {
        assert 0 <= n < |arrays| && x in arrays[n];
      }
      if exists i :: 0 <= i < |arrays[..n]| && x in arrays[..n][i] {
        var i :| 0 <= i < |arrays[..n]| && x in arrays[..n][i];
        assert arrays[i] == arrays[..n][i];
      }
      if exists i :: 0 <= i < |arrays| && x in arrays[i] {
        var i :| 0 <= i < |arrays| && x in arrays[i];
        if i < n {
          assert arrays[..n][i] == arrays[i];
        }
      }
    }
  }
}
