/** StdDevService.Calculate of service/stddev.go, with the channel stream
    read in full: the sets in the order they arrive, and the results in the
    order they are emitted. The standard deviation itself (stats/stats.go,
    64-bit floating point) is a parameter of the model. */
module StdDevService {
  import Seqs

  datatype StdDevResult = StdDevResult(stdDev: real, data: seq<int>)

  /** The numeric primitive the aggregator calls on a set of integers. */
  type Deviation = seq<int> -> real

  /** All sets joined end to end, in arrival order. */
  function Concat(sets: seq<seq<int>>): seq<int>
  {
    if |sets| == 0 then [] else sets[0] + Concat(sets[1..])
  }

  /** The number of integers across all sets. */
  function TotalLength(sets: seq<seq<int>>): nat
  {
    if |sets| == 0 then 0 else |sets[0]| + TotalLength(sets[1..])
  }

  /** The result the aggregator emits for one slice of integers. */
  function Summary(xs: seq<int>, sd: Deviation): StdDevResult
  {
    StdDevResult(sd(xs), xs)
  }

  /** The goroutine's loop from the point where `setSum` holds what has
      been received so far and `sets` is still to come: one result per set,
      as it arrives, and after the stream ends one result over `setSum`
      unless it is empty. */
  function Drain(sets: seq<seq<int>>, setSum: seq<int>, sd: Deviation): (r: seq<StdDevResult>)
    ensures |r| == |sets| + (if |setSum + Concat(sets)| == 0 then 0 else 1)
    ensures forall i :: 0 <= i < |sets| ==> r[i] == Summary(sets[i], sd)
    ensures |setSum + Concat(sets)| > 0 ==> r[|sets|] == Summary(setSum + Concat(sets), sd)
    decreases |sets|
  {
    if |sets| == 0 then
      assert setSum + Concat(sets) == setSum;
      if |setSum| == 0 then [] else [Summary(setSum, sd)]
    else
      assert setSum + Concat(sets) == (setSum + sets[0]) + Concat(sets[1..]);
      [Summary(sets[0], sd)] + Drain(sets[1..], setSum + sets[0], sd)
  }

  /** Calculate: per-set results in arrival order, then the cumulative
      result over the concatenation of every set, emitted only when that
      concatenation is non-empty. */
  function Calculate(sets: seq<seq<int>>, sd: Deviation): (r: seq<StdDevResult>)
    ensures |r| == |sets| + (if |Concat(sets)| == 0 then 0 else 1)
    ensures forall i :: 0 <= i < |sets| ==> r[i] == StdDevResult(sd(sets[i]), sets[i])
    ensures |Concat(sets)| > 0 ==> r[|sets|] == StdDevResult(sd(Concat(sets)), Concat(sets))
  {
    assert [] + Concat(sets) == Concat(sets);
    Drain(sets, [], sd)
  }

  lemma {:induction false} ConcatLength(sets: seq<seq<int>>)
    ensures |Concat(sets)| == TotalLength(sets)
  {
    if |sets| > 0 {
      ConcatLength(sets[1..]);
    }
  }

  /** The concatenation is empty exactly when every set is. */
  lemma {:induction false} ConcatEmpty(sets: seq<seq<int>>)
    ensures |Concat(sets)| == 0 <==> forall i :: 0 <= i < |sets| ==> sets[i] == []
  {
    if |sets| > 0 {
      ConcatEmpty(sets[1..]);
      assert forall i :: 1 <= i < |sets| ==> sets[i] == sets[1..][i - 1];
    }
  }

  lemma {:induction false} ConcatAppend(a: seq<seq<int>>, b: seq<seq<int>>)
    ensures Concat(a + b) == Concat(a) + Concat(b)
  {
    if |a| == 0 {
      assert a + b == b;
    } else {
      assert (a + b)[1..] == a[1..] + b;
      ConcatAppend(a[1..], b);
    }
  }

  /** When every set has `length` integers, the cumulative data has
      `|sets| * length` of them. */
  lemma {:induction false} ConcatUniformLength(sets: seq<seq<int>>, length: nat)
    requires forall i :: 0 <= i < |sets| ==> |sets[i]| == length
    ensures |Concat(sets)| == |sets| * length
  {
    if |sets| > 0 {
      ConcatUniformLength(sets[1..], length);
      assert |sets| * length == length + (|sets| - 1) * length;
    }
  }

  /** Taking the set at `j` out of the stream takes its integers out of the
      concatenation. */
  lemma ConcatRemoveAt(b: seq<seq<int>>, j: nat)
    requires j < |b|
    ensures multiset(Concat(b)) == multiset(Concat(b[..j] + b[j + 1..])) + multiset(b[j])
  {
    var pre, post := b[..j], b[j + 1..];
    Seqs.SplitAt(b, j);
    ConcatAppend(pre, [b[j]] + post);
    assert Concat([b[j]] + post) == b[j] + Concat(post) by {
      assert ([b[j]] + post)[1..] == post;
    }
    ConcatAppend(pre, post);
    var cp, cq := Concat(pre), Concat(post);
    assert Concat(b) == cp + (b[j] + cq);
    assert Concat(pre + post) == cp + cq;
    calc {
      multiset(Concat(b));
      multiset(cp) + (multiset(b[j]) + multiset(cq));
      multiset(cp + cq) + multiset(b[j]);
    }
  }

  /** The cumulative data does not depend on the arrival order: streams
      holding the same sets concatenate to the same multiset of integers. */
  lemma {:induction false} ConcatPermutation(a: seq<seq<int>>, b: seq<seq<int>>)
    requires multiset(a) == multiset(b)
    ensures multiset(Concat(a)) == multiset(Concat(b))
    decreases |a|
  {
    assert |a| == |multiset(a)| == |multiset(b)| == |b|;
    if |a| > 0 {
      var x := a[0];
      assert x in b by {
        assert x in multiset(b);
      }
      var j :| 0 <= j < |b| && b[j] == x;
      var rest := b[..j] + b[j + 1..];
      assert multiset(a[1..]) == multiset(rest) by {
        Seqs.RemoveAt(b, j);
        Seqs.RemoveHead(a);
      }
      ConcatPermutation(a[1..], rest);
      ConcatRemoveAt(b, j);
    }
  }

  /** A stream that closes with no sets yields no results. */
  lemma EmptyStream(sd: Deviation)
    ensures Calculate([], sd) == []
  {
  }

  /** `n` empty sets give `n` results, all with empty data, and no
      cumulative result: the guard looks at the concatenation, not at how
      many sets arrived. */
  lemma AllEmptySets(sets: seq<seq<int>>, sd: Deviation)
    requires forall i :: 0 <= i < |sets| ==> sets[i] == []
    ensures |Calculate(sets, sd)| == |sets|
    ensures forall i :: 0 <= i < |sets| ==> Calculate(sets, sd)[i].data == []
  {
    ConcatEmpty(sets);
  }

  /** The cumulative result carries every integer received, in arrival
      order, and comes after all per-set results. */
  lemma CumulativeIsLast(sets: seq<seq<int>>, sd: Deviation)
    requires TotalLength(sets) > 0
    ensures |Calculate(sets, sd)| == |sets| + 1
    ensures Calculate(sets, sd)[|sets|].data == Concat(sets)
    ensures |Calculate(sets, sd)[|sets|].data| == TotalLength(sets)
  {
    ConcatLength(sets);
  }

  /** The one-set case: `[3]` yields two results with data `[3]` and the
      same deviation. */
  lemma SingleSet(sd: Deviation)
    ensures Calculate([[3]], sd) == [StdDevResult(sd([3]), [3]), StdDevResult(sd([3]), [3])]
  {
    var sets := [[3]];
    assert Concat(sets) == [3] by {
      assert sets[1..] == [];
    }
    assert |Calculate(sets, sd)| == 2;
  }
}
