/** Sequence helpers shared by the phases of the game loop: distinctness
    and `Array.filter` by a mask. */
module Lists {

  /** Every element of s occurs once: the last element is not among the
      others, which are themselves distinct. */
  predicate Distinct<T(==)>(s: seq<T>)
    decreases |s|
  {
    |s| == 0 || (s[|s| - 1] !in s[..|s| - 1] && Distinct(s[..|s| - 1]))
  }

  /** Distinct means that two different positions never hold the same
      element. */
  lemma {:induction false} DistinctPairs<T>(s: seq<T>)
    ensures Distinct(s) <==> forall i, j :: 0 <= i < j < |s| ==> s[i] != s[j]
  {
    if |s| > 0 {
      var n := |s| - 1;
      DistinctPairs(s[..n]);
      assert forall i :: 0 <= i < n ==> s[..n][i] == s[i];
    }
  }

  /** The i-th element of a distinct sequence occurs nowhere else in it. */
  lemma DistinctAt<T>(s: seq<T>, i: int)
    requires Distinct(s) && 0 <= i < |s|
    ensures forall k :: 0 <= k < |s| && k != i ==> s[k] != s[i]
  {
    DistinctPairs(s);
  }

  /** No element of s occurs in t. */
  predicate Disjoint<T(==)>(s: seq<T>, t: seq<T>) {
    forall i :: 0 <= i < |s| ==> s[i] !in t
  }

  /** Appending an element that is new, and not in t, keeps s distinct
      and apart from t. */
  lemma Snoc<T>(s: seq<T>, x: T, t: seq<T>)
    requires Distinct(s) && Disjoint(s, t) && x !in s && x !in t
    ensures Distinct(s + [x]) && Disjoint(s + [x], t)
  {
    assert (s + [x])[..|s|] == s;
  }

  /** The elements of s whose mask entry is set, in order (`Array.filter`). */
  function Keep<T>(s: seq<T>, mask: seq<bool>): (r: seq<T>)
    requires |mask| == |s|
    ensures |r| <= |s|
    ensures forall x :: x in r ==> x in s
  {
    if |s| == 0 then []
    else Keep(s[..|s| - 1], mask[..|s| - 1]) + (if mask[|s| - 1] then [s[|s| - 1]] else [])
  }

  /** Keep holds exactly the masked elements, and keeps them distinct. */
  lemma {:induction false} KeepExactly<T>(s: seq<T>, mask: seq<bool>)
    requires |mask| == |s| && Distinct(s)
    ensures Distinct(Keep(s, mask))
    ensures forall i :: 0 <= i < |s| ==> (s[i] in Keep(s, mask) <==> mask[i])
  {
    if |s| > 0 {
      var n := |s| - 1;
      var front, m := s[..n], mask[..n];
      KeepExactly(front, m);
      DistinctAt(s, n);
      var r := Keep(front, m);
      if mask[n] {
        assert Keep(s, mask) == r + [s[n]];
        assert s[n] !in r;
        assert (r + [s[n]])[..|r|] == r;
      } else {
        assert Keep(s, mask) == r;
      }
      assert forall i :: 0 <= i < n ==> front[i] == s[i] && m[i] == mask[i];
    }
  }

  /** Filtering one more element. */
  lemma KeepSnoc<T>(s: seq<T>, mask: seq<bool>, i: int)
    requires |mask| == |s| && 0 <= i < |s|
    ensures Keep(s[..i + 1], mask[..i + 1]) == Keep(s[..i], mask[..i]) + (if mask[i] then [s[i]] else [])
  {
    assert s[..i + 1][..i] == s[..i];
    assert mask[..i + 1][..i] == mask[..i];
  }

  /** The whole of s as a slice. */
  lemma Whole<T>(s: seq<T>)
    ensures s[..|s|] == s
  {
  }

  /** Growing a prefix and shrinking a suffix by one element. */
  lemma Slices<T>(s: seq<T>, i: int)
    requires 0 <= i < |s|
    ensures s[..i + 1] == s[..i] + [s[i]] && s[i..] == [s[i]] + s[i + 1..]
  {
  }
}
