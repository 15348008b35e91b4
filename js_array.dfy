/** `Array.prototype.filter` and the facts about it that the pages rely on. */
module JsArray {

  /** `s.filter(p)`: the elements that satisfy `p`, in their original order. */
  function Filter<T>(s: seq<T>, p: T -> bool): (r: seq<T>)
    ensures |r| <= |s|
    ensures forall i :: 0 <= i < |r| ==> r[i] in s && p(r[i])
    decreases |s|
  {
    if s == [] then []
    else (if p(s[0]) then [s[0]] else []) + Filter(s[1..], p)
  }

  /** The positions of the elements that satisfy `p`, in increasing order. */
  function SelectedIndices<T>(s: seq<T>, p: T -> bool): (idx: seq<nat>)
    ensures forall k :: 0 <= k < |idx| ==> idx[k] < |s|
    decreases |s|
  {
    if s == [] then []
    else
      var n := |s| - 1;
      SelectedIndices(s[..n], p) + (if p(s[n]) then [n] else [])
  }

  /** An element is in the result exactly when it is in the input and satisfies `p`. */
  lemma {:induction false} FilterMembership<T>(s: seq<T>, p: T -> bool, x: T)
    ensures x in Filter(s, p) <==> x in s && p(x)
    decreases |s|
  {
    if s != [] {
      FilterMembership(s[1..], p, x);
      assert s == [s[0]] + s[1..];
    }
  }

  /** Filtering distributes over concatenation: nothing is reordered. */
  lemma {:induction false} FilterAppend<T>(a: seq<T>, b: seq<T>, p: T -> bool)
    ensures Filter(a + b, p) == Filter(a, p) + Filter(b, p)
    decreases |a|
  {
    if a == [] {
      assert a + b == b;
    } else {
      assert (a + b)[1..] == a[1..] + b;
      FilterAppend(a[1..], b, p);
    }
  }

  /** Splitting off the last element of a non-empty input. */
  lemma FilterSnoc<T>(s: seq<T>, p: T -> bool)
    requires s != []
    ensures Filter(s, p) == Filter(s[..|s| - 1], p) + (if p(s[|s| - 1]) then [s[|s| - 1]] else [])
  {
    var n := |s| - 1;
    var last := [s[n]];
    assert s == s[..n] + last;
    FilterAppend(s[..n], last, p);
    assert last[1..] == [];
    assert Filter(last, p) == (if p(s[n]) then last else []) + Filter([], p);
  }

  /** There are as many selected positions as selected elements. */
  lemma {:induction false} SelectedIndicesLength<T>(s: seq<T>, p: T -> bool)
    ensures |SelectedIndices(s, p)| == |Filter(s, p)|
    decreases |s|
  {
    if s != [] {
      SelectedIndicesLength(s[..|s| - 1], p);
      FilterSnoc(s, p);
    }
  }

  /** The selected positions increase, and a position is selected exactly when its
      element satisfies `p`. */
  lemma {:induction false} SelectedIndicesExact<T>(s: seq<T>, p: T -> bool)
    ensures var idx := SelectedIndices(s, p);
      && (forall k, l :: 0 <= k < l < |idx| ==> idx[k] < idx[l])
      && (forall j :: 0 <= j < |s| ==> (j in idx <==> p(s[j])))
    decreases |s|
  {
    if s != [] {
      var n := |s| - 1;
      var init := s[..n];
      SelectedIndicesExact(init, p);
      var idx0 := SelectedIndices(init, p);
      forall j | 0 <= j < n ensures s[j] == init[j] {
      }
      assert n !in idx0;
    }
  }

  /** The k-th result is the element at the k-th selected position. */
  lemma {:induction false} FilterAtSelected<T>(s: seq<T>, p: T -> bool)
    ensures var r, idx := Filter(s, p), SelectedIndices(s, p);
      forall k :: 0 <= k < |idx| && k < |r| ==> r[k] == s[idx[k]]
    decreases |s|
  {
    if s != [] {
      var n := |s| - 1;
      var init := s[..n];
      FilterAtSelected(init, p);
      SelectedIndicesLength(init, p);
      FilterSnoc(s, p);
      var r0, idx0 := Filter(init, p), SelectedIndices(init, p);
      var r, idx := Filter(s, p), SelectedIndices(s, p);
      forall k | 0 <= k < |idx| && k < |r| ensures r[k] == s[idx[k]] {
        if k < |idx0| {
          assert r[k] == r0[k] && idx[k] == idx0[k];
          assert init[idx0[k]] == s[idx0[k]];
        }
      }
    }
  }

  /** The result is exactly the order-preserving subsequence of the input made of
      the elements that satisfy `p`: the k-th result is the element at the k-th
      selected position, the selected positions increase, and a position is
      selected exactly when its element satisfies `p`. */
  lemma FilterIsOrderedSelection<T>(s: seq<T>, p: T -> bool)
    ensures var r, idx := Filter(s, p), SelectedIndices(s, p);
      && |idx| == |r|
      && (forall k :: 0 <= k < |idx| ==> r[k] == s[idx[k]])
      && (forall k, l :: 0 <= k < l < |idx| ==> idx[k] < idx[l])
      && (forall j :: 0 <= j < |s| ==> (j in idx <==> p(s[j])))
  {
    SelectedIndicesLength(s, p);
    SelectedIndicesExact(s, p);
    FilterAtSelected(s, p);
  }

  /** When every element satisfies `p`, the result is the input itself. */
  lemma {:induction false} FilterAllPass<T>(s: seq<T>, p: T -> bool)
    requires forall i :: 0 <= i < |s| ==> p(s[i])
    ensures Filter(s, p) == s
    decreases |s|
  {
    if s != [] {
      FilterAllPass(s[1..], p);
      assert s == [s[0]] + s[1..];
    }
  }

  /** When no element satisfies `p`, the result is empty. */
  lemma {:induction false} FilterNonePass<T>(s: seq<T>, p: T -> bool)
    requires forall i :: 0 <= i < |s| ==> !p(s[i])
    ensures Filter(s, p) == []
    decreases |s|
  {
    if s != [] {
      FilterNonePass(s[1..], p);
    }
  }

  /** Predicates that agree on every element give the same result. */
  lemma {:induction false} FilterCongruent<T>(s: seq<T>, p: T -> bool, q: T -> bool)
    requires forall i :: 0 <= i < |s| ==> p(s[i]) == q(s[i])
    ensures Filter(s, p) == Filter(s, q)
    decreases |s|
  {
    if s != [] {
      FilterCongruent(s[1..], p, q);
    }
  }

  /** Filtering the result again with the same predicate changes nothing. */
  lemma FilterIdempotent<T>(s: seq<T>, p: T -> bool)
    ensures Filter(Filter(s, p), p) == Filter(s, p)
  {
    var r := Filter(s, p);
    FilterAllPass(r, p);
  }
}
