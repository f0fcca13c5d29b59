/** Sequence helpers shared by the server model: mapping a function over a
    sequence, the indices 0..n-1, and permutations of them. */
module Seqs {
  function MapSeq<A, B>(f: A -> B, s: seq<A>): (r: seq<B>)
    ensures |r| == |s|
  {
    if |s| == 0 then [] else [f(s[0])] + MapSeq(f, s[1..])
  }

  /** The image's element `k` is the image of the element `k`. */
  lemma {:induction false} MapSeqAt<A, B>(f: A -> B, s: seq<A>)
    ensures forall k :: 0 <= k < |s| ==> MapSeq(f, s)[k] == f(s[k])
    decreases |s|
  {
    if |s| > 0 {
      MapSeqAt(f, s[1..]);
    }
  }

  lemma {:induction false} MapSeqAppend<A, B>(f: A -> B, a: seq<A>, b: seq<A>)
    ensures MapSeq(f, a + b) == MapSeq(f, a) + MapSeq(f, b)
    decreases |a|
  {
    if |a| > 0 {
      assert (a + b)[1..] == a[1..] + b;
      MapSeqAppend(f, a[1..], b);
    } else {
      assert a + b == b;
    }
  }

  /** Taking out the element at `j` takes one copy of it out of the multiset. */
  lemma RemoveAt<A>(b: seq<A>, j: nat)
    requires j < |b|
    ensures multiset(b[..j] + b[j + 1..]) == multiset(b) - multiset{b[j]}
  {
    assert b == b[..j] + [b[j]] + b[j + 1..];
  }

  lemma RemoveHead<A>(a: seq<A>)
    requires |a| > 0
    ensures multiset(a[1..]) == multiset(a) - multiset{a[0]}
  {
    assert a == [a[0]] + a[1..];
  }

  /** A sequence is what precedes `j`, the element at `j`, and what follows. */
  lemma SplitAt<A>(b: seq<A>, j: nat)
    requires j < |b|
    ensures b == b[..j] + ([b[j]] + b[j + 1..])
  {
  }

  /** The image of `b` is the image of `b` without its element at `j`, plus
      that element's image. */
  lemma MapSeqRemoveAt<A, B>(f: A -> B, b: seq<A>, j: nat)
    requires j < |b|
    ensures multiset(MapSeq(f, b)) == multiset(MapSeq(f, b[..j] + b[j + 1..])) + multiset{f(b[j])}
  {
    var pre, post := b[..j], b[j + 1..];
    SplitAt(b, j);
    MapSeqAppend(f, pre, [b[j]] + post);
    MapSeqAppend(f, [b[j]], post);
    MapSeqAppend(f, pre, post);
    var mp, mq := MapSeq(f, pre), MapSeq(f, post);
    assert MapSeq(f, [b[j]]) == [f(b[j])];
    assert MapSeq(f, b) == mp + ([f(b[j])] + mq);
    assert MapSeq(f, pre + post) == mp + mq;
    calc {
      multiset(MapSeq(f, b));
      multiset(mp) + (multiset{f(b[j])} + multiset(mq));
      multiset(mp + mq) + multiset{f(b[j])};
    }
  }

  /** Two sequences whose images agree once the head of `a` and a copy of
      it at `j` in `b` are taken out have images that agree. */
  lemma MatchedHeads<A, B>(f: A -> B, a: seq<A>, b: seq<A>, j: nat)
    requires 0 < |a| && j < |b| && b[j] == a[0]
    requires multiset(MapSeq(f, a[1..])) == multiset(MapSeq(f, b[..j] + b[j + 1..]))
    ensures multiset(MapSeq(f, a)) == multiset(MapSeq(f, b))
  {
    MapSeqRemoveAt(f, b, j);
    MapSeqRemoveAt(f, a, 0);
    assert a[..0] + a[1..] == a[1..];
  }

  /** Mapping respects permutation: equal multisets of inputs give equal
      multisets of images. */
  lemma {:induction false} MapSeqPermutation<A, B>(f: A -> B, a: seq<A>, b: seq<A>)
    requires multiset(a) == multiset(b)
    ensures multiset(MapSeq(f, a)) == multiset(MapSeq(f, b))
    decreases |a|
  {
    assert |a| == |multiset(a)| == |multiset(b)| == |b|;
    if |a| > 0 {
      var x := a[0];
      assert x in b by {
        assert x in multiset(b);
      }
      var j :| 0 <= j < |b| && b[j] == x;
      var rest := b[..j] + b[j + 1..];
      assert multiset(a[1..]) == multiset(rest) by {
        RemoveAt(b, j);
        RemoveHead(a);
        calc {
          multiset(a[1..]);
          multiset(a) - multiset{x};
          multiset(b) - multiset{x};
          multiset(rest);
        }
      }
      MapSeqPermutation(f, a[1..], rest);
      MatchedHeads(f, a, b, j);
    }
  }

  /** The indices 0, 1, ..., n-1 in increasing order. */
  function Range(n: nat): (r: seq<nat>)
    ensures |r| == n
    ensures forall i :: 0 <= i < n ==> r[i] == i
  {
    if n == 0 then [] else Range(n - 1) + [n - 1]
  }

  /** `order` lists each of 0..n-1 exactly once. */
  predicate IsPermutation(order: seq<nat>, n: nat)
  {
    multiset(order) == multiset(Range(n))
  }

  /** A permutation of 0..n-1 holds exactly the numbers below n. */
  lemma PermutationMembers(order: seq<nat>, n: nat)
    requires IsPermutation(order, n)
    ensures |order| == n
    ensures forall k :: 0 <= k < |order| ==> order[k] < n
    ensures forall i: nat :: i < n ==> i in order
  {
    assert |order| == |multiset(order)| == |multiset(Range(n))| == n;
    forall k | 0 <= k < |order|
      ensures order[k] < n
    {
      assert order[k] in multiset(Range(n));
    }
    forall i: nat | i < n
      ensures i in order
    {
      assert Range(n)[i] == i;
      assert i in multiset(order);
    }
  }
}
