/** Sequence helpers shared by the list comprehensions of the source. */
module Seqs {

  /** `[x for x in s if p(x)]`: the elements of `s` that satisfy `p`, in their order in `s`. */
  function Filter<T(==)>(p: T -> bool, s: seq<T>): (r: seq<T>)
    ensures |r| <= |s|
    ensures forall i :: 0 <= i < |r| ==> r[i] in s && p(r[i])
  {
    if s == [] then [] else (if p(s[0]) then [s[0]] else []) + Filter(p, s[1..])
  }

  /** Nothing that satisfies `p` is dropped. */
  lemma {:induction false} FilterComplete<T>(p: T -> bool, s: seq<T>)
    ensures forall i :: 0 <= i < |s| && p(s[i]) ==> s[i] in Filter(p, s)
  {
    if s != [] {
      FilterComplete(p, s[1..]);
      forall i | 0 < i < |s| && p(s[i]) ensures s[i] in Filter(p, s) {
        assert s[i] == s[1..][i - 1];
      }
    }
  }

  /** Filtering keeps order: filtering a concatenation is the concatenation of the filtered parts. */
  lemma {:induction false} FilterAppend<T>(p: T -> bool, a: seq<T>, b: seq<T>)
    ensures Filter(p, a + b) == Filter(p, a) + Filter(p, b)
  {
    if a == [] {
      assert a + b == b;
    } else {
      assert (a + b)[0] == a[0];
      assert (a + b)[1..] == a[1..] + b;
      FilterAppend(p, a[1..], b);
    }
  }

  /** Filtering a sequence extended by one element, as a loop that appends sees it. */
  lemma FilterSnoc<T>(p: T -> bool, s: seq<T>, x: T)
    ensures Filter(p, s + [x]) == Filter(p, s) + (if p(x) then [x] else [])
  {
    FilterAppend(p, s, [x]);
    assert Filter(p, [x]) == (if p(x) then [x] else []) + Filter(p, []);
  }

  // Regrouping lemmas. The report proofs append string lines whose contents
  // the verifier would otherwise unfold when it regroups the appends; calling
  // these, stated once over any element type, regroups them without looking
  // inside the lines. Dafny proves each from the definition of `+` alone.

  /** Concatenation is associative. */
  lemma AppendAssoc<T>(a: seq<T>, b: seq<T>, c: seq<T>)
    ensures (a + b) + c == a + (b + c)
  {
  }

  /** Appending the parts of a block one by one appends the block. */
  lemma AppendParts<T>(a: seq<T>, b: seq<T>, c: seq<T>, d: seq<T>, e: seq<T>)
    ensures a + b + c + d + e == a + (b + c + d + e)
  {
  }

  /** The same block, nested to the right. */
  lemma AppendNested<T>(a: seq<T>, b: seq<T>, c: seq<T>, d: seq<T>, e: seq<T>)
    ensures a + b + c + d + e == a + (b + (c + d + e))
  {
  }

  /** The first part of a three-part concatenation is its prefix. */
  lemma PrefixOfAppend<T>(a: seq<T>, b: seq<T>, c: seq<T>)
    ensures |a + b + c| == |a| + |b| + |c|
    ensures (a + b + c)[..|a|] == a
    ensures forall i :: 0 <= i < |a| ==> (a + b + c)[i] == a[i]
  {
  }

  /** The inside of a sequence's tail, without its last element. */
  lemma InnerSlice<T>(r: seq<T>, s: seq<T>)
    requires |r| >= 3 && r[1..] == s
    ensures |r| == |s| + 1 && r[1] == s[0] && r[|r| - 1] == s[|s| - 1]
    ensures r[2..|r| - 1] == s[1..|s| - 1]
  {
  }

  /** Nothing survives a filter that rejects every element. */
  lemma FilterNone<T>(p: T -> bool, s: seq<T>)
    requires forall i :: 0 <= i < |s| ==> !p(s[i])
    ensures Filter(p, s) == []
  {
  }
}
