/** Order-preserving filtering of sequences, the model of JavaScript's
    `Array.prototype.filter`, and the facts the rest of the model draws from it. */
module Seqs {

  /** The elements of `s` that satisfy `p`, in their original order. */
  function Filter<T>(s: seq<T>, p: T -> bool): (r: seq<T>)
    ensures |r| <= |s|
    ensures forall i :: 0 <= i < |r| ==> p(r[i])
    decreases |s|
  {
    if |s| == 0 then []
    else Filter(s[..|s| - 1], p) + (if p(s[|s| - 1]) then [s[|s| - 1]] else [])
  }

  /** The number of elements of `s` that satisfy `p` (`s.filter(p).length`). */
  function Count<T>(s: seq<T>, p: T -> bool): nat
  {
    |Filter(s, p)|
  }

  /** The positions of `s` whose element satisfies `p`, in increasing order:
      an independent description of what `Filter` keeps. */
  function KeptIndices<T>(s: seq<T>, p: T -> bool): (r: seq<int>)
    decreases |s|
  {
    if |s| == 0 then []
    else KeptIndices(s[..|s| - 1], p) + (if p(s[|s| - 1]) then [|s| - 1] else [])
  }

  /** `idx` picks the elements of `r` out of `s` at strictly increasing positions,
      that is, `r` is an order-preserving subsequence of `s` witnessed by `idx`. */
  ghost predicate Embeds<T>(r: seq<T>, s: seq<T>, idx: seq<int>)
  {
    && |idx| == |r|
    && (forall k :: 0 <= k < |idx| ==> 0 <= idx[k] < |s| && r[k] == s[idx[k]])
    && (forall k, l :: 0 <= k < l < |idx| ==> idx[k] < idx[l])
  }

  /** `r` is an order-preserving subsequence of `s`. */
  ghost predicate IsSubsequence<T>(r: seq<T>, s: seq<T>)
  {
    exists idx :: Embeds(r, s, idx)
  }

  lemma SnocPrefix<T>(s: seq<T>, x: T)
    ensures (s + [x])[..|s|] == s
    ensures (s + [x])[|s|] == x
  {
  }

  /** Filtering distributes over appending one element. */
  lemma FilterSnoc<T>(s: seq<T>, x: T, p: T -> bool)
    ensures Filter(s + [x], p) == Filter(s, p) + (if p(x) then [x] else [])
  {
    SnocPrefix(s, x);
  }

  /** `Filter` keeps exactly the elements at the positions `KeptIndices` lists,
      in order, and those are exactly the positions whose element satisfies `p`. */
  lemma {:induction false} FilterEmbedding<T>(s: seq<T>, p: T -> bool)
    ensures Embeds(Filter(s, p), s, KeptIndices(s, p))
    ensures forall i :: 0 <= i < |s| ==> (p(s[i]) <==> i in KeptIndices(s, p))
    decreases |s|
  {
    if |s| > 0 {
      var s' := s[..|s| - 1];
      FilterEmbedding(s', p);
      var idx' := KeptIndices(s', p);
      assert forall k :: 0 <= k < |idx'| ==> idx'[k] < |s'|;
      forall i | 0 <= i < |s|
        ensures p(s[i]) <==> i in KeptIndices(s, p)
      {
        if i < |s| - 1 {
          assert s[i] == s'[i];
        }
      }
    }
  }

  /** The filter result is an order-preserving subsequence of its input. */
  lemma FilterIsSubsequence<T>(s: seq<T>, p: T -> bool)
    ensures IsSubsequence(Filter(s, p), s)
  {
    FilterEmbedding(s, p);
  }

  /** An element is kept exactly when it occurs in the input and satisfies `p`. */
  lemma {:induction false} FilterMembership<T>(s: seq<T>, p: T -> bool)
    ensures forall x :: x in Filter(s, p) <==> x in s && p(x)
    decreases |s|
  {
    if |s| > 0 {
      var s' := s[..|s| - 1];
      FilterMembership(s', p);
      assert s == s' + [s[|s| - 1]];
    }
  }

  /** Filtering keeps everything exactly when every element satisfies `p`;
      otherwise the result is strictly shorter. */
  lemma {:induction false} FilterKeepsAllIff<T>(s: seq<T>, p: T -> bool)
    ensures |Filter(s, p)| == |s| <==> forall i :: 0 <= i < |s| ==> p(s[i])
    ensures (forall i :: 0 <= i < |s| ==> p(s[i])) ==> Filter(s, p) == s
    decreases |s|
  {
    if |s| > 0 {
      var s' := s[..|s| - 1];
      FilterKeepsAllIff(s', p);
      assert s == s' + [s[|s| - 1]];
      if |Filter(s, p)| == |s| {
        forall i | 0 <= i < |s|
          ensures p(s[i])
        {
          if i < |s| - 1 {
            assert s[i] == s'[i];
          }
        }
      }
    }
  }

  /** Elements satisfying `p` and elements satisfying `q`, for `q` the negation
      of `p` on `s`, together account for all of `s`. */
  lemma {:induction false} CountComplement<T>(s: seq<T>, p: T -> bool, q: T -> bool)
    requires forall i :: 0 <= i < |s| ==> (p(s[i]) <==> !q(s[i]))
    ensures Count(s, p) + Count(s, q) == |s|
    decreases |s|
  {
    if |s| > 0 {
      var s' := s[..|s| - 1];
      assert forall i :: 0 <= i < |s'| ==> s'[i] == s[i];
      CountComplement(s', p, q);
    }
  }

  /** Elements satisfying `p` and elements satisfying `q`, when no element of
      `s` satisfies both, together are at most all of `s`. */
  lemma {:induction false} CountDisjoint<T>(s: seq<T>, p: T -> bool, q: T -> bool)
    requires forall i :: 0 <= i < |s| ==> !(p(s[i]) && q(s[i]))
    ensures Count(s, p) + Count(s, q) <= |s|
    decreases |s|
  {
    if |s| > 0 {
      var s' := s[..|s| - 1];
      assert forall i :: 0 <= i < |s'| ==> s'[i] == s[i];
      CountDisjoint(s', p, q);
    }
  }

  /** Predicates that agree on every element of `s` keep the same elements. */
  lemma {:induction false} FilterCongruent<T>(s: seq<T>, p: T -> bool, q: T -> bool)
    requires forall i :: 0 <= i < |s| ==> p(s[i]) == q(s[i])
    ensures Filter(s, p) == Filter(s, q)
    decreases |s|
  {
    if |s| > 0 {
      var s' := s[..|s| - 1];
      assert forall i :: 0 <= i < |s'| ==> s'[i] == s[i];
      FilterCongruent(s', p, q);
    }
  }

  /** The positions of `s` whose element satisfies `p`, as a set. */
  function IndexSet<T>(s: seq<T>, p: T -> bool): set<int>
  {
    set i | 0 <= i < |s| && p(s[i])
  }

  /** `Count` is the number of positions whose element satisfies `p`. */
  lemma {:induction false} CountIsIndexSetSize<T>(s: seq<T>, p: T -> bool)
    ensures Count(s, p) == |IndexSet(s, p)|
    decreases |s|
  {
    if |s| > 0 {
      var n := |s| - 1;
      var s' := s[..n];
      CountIsIndexSetSize(s', p);
      assert s == s' + [s[n]];
      FilterSnoc(s', s[n], p);
      if p(s[n]) {
        assert IndexSet(s, p) == IndexSet(s', p) + {n};
        assert n !in IndexSet(s', p);
      } else {
        assert IndexSet(s, p) == IndexSet(s', p);
      }
    }
  }
}
