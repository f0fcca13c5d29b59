/** RandomServer.Mean and doMean of server/server.go, read sequentially.
    The `requests` generator calls run concurrently in server/server.go;
    here each call is numbered 0..requests-1, its outcome is `gen(i, numbers)`,
    and the order in which the calls finish is a permutation `order` of
    those numbers. The calculator is the aggregator of StdDevService. */
module Server {
  import opened Results
  import opened UrlValues
  import Strconv
  import opened Seqs
  import opened StdDevService
  import Validation

  /** What one call of Integers(ctx, quantity) returns. */
  type Outcome = Result<seq<int>, string>

  /** The random integer generator: call number `i` asking for `quantity`
      integers yields `gen(i, quantity)`. */
  type Generator = (nat, int) -> Outcome

  const WrapText: string := "failed to calculate standard deviation: "

  /** The calls as a function of their number, all asking for `numbers`. */
  function Call(gen: Generator, numbers: int): nat -> Outcome
  {
    (i: nat) => gen(i, numbers)
  }

  /** What a goroutine puts into the pipe: the integers of a successful call. */
  function Payload(o: Outcome): seq<int>
  {
    if o.Ok? then o.value else []
  }

  /** The set call `i` delivers when it succeeds. */
  function Delivery(gen: Generator, numbers: int): nat -> seq<int>
  {
    (i: nat) => Payload(gen(i, numbers))
  }

  /** The sets in the pipe, in the order the calls finished. */
  function Received(gen: Generator, numbers: int, order: seq<nat>): (sets: seq<seq<int>>)
    ensures |sets| == |order|
  {
    MapSeq(Delivery(gen, numbers), order)
  }

  /** The position of the first failed outcome, or the number of outcomes
      when none failed: errgroup keeps the first error returned. */
  function FirstFailure(outs: seq<Outcome>): (i: nat)
    ensures i <= |outs|
    ensures forall k :: 0 <= k < i ==> outs[k].Ok?
    ensures i < |outs| ==> outs[i].Err?
  {
    if |outs| == 0 || outs[0].Err? then 0 else 1 + FirstFailure(outs[1..])
  }

  /** doMean: all or nothing. Any failed call makes the result an error
      wrapping one of the calls' errors; otherwise the result is the
      aggregator's output over every set, in the order they arrived. */
  function DoMean(requests: int, numbers: int, gen: Generator, order: seq<nat>, sd: Deviation)
    : (r: Result<seq<StdDevResult>, string>)
    requires requests >= 0 && IsPermutation(order, requests)
    ensures r.Ok? <==> forall i :: 0 <= i < requests ==> gen(i, numbers).Ok?
    ensures r.Ok? ==> r.value == Calculate(Received(gen, numbers, order), sd)
    ensures r.Ok? ==> |r.value| == requests + (if |Concat(Received(gen, numbers, order))| == 0 then 0 else 1)
    ensures r.Err? ==>
      exists i :: 0 <= i < requests && gen(i, numbers).Err? && r.error == WrapText + gen(i, numbers).error
  {
    var outs := MapSeq(Call(gen, numbers), order);
    var i := FirstFailure(outs);
    MapSeqAt(Call(gen, numbers), order);
    PermutationMembers(order, requests);
    if i < |outs| then
      assert order[i] < requests && outs[i] == gen(order[i], numbers);
      Err(WrapText + outs[i].error)
    else
      assert forall j :: 0 <= j < requests ==> gen(j, numbers).Ok? by {
        forall j | 0 <= j < requests
          ensures gen(j, numbers).Ok?
        {
          assert j in order;
          var k :| 0 <= k < |order| && order[k] == j;
          assert outs[k] == gen(j, numbers);
        }
      }
      var sets := MapSeq(Payload, outs);
      assert sets == Received(gen, numbers, order) by {
        MapSeqAt(Payload, outs);
        MapSeqAt(Delivery(gen, numbers), order);
      }
      Ok(Calculate(sets, sd))
  }

  datatype Body = NoBody | Json(results: seq<StdDevResult>) | Text(text: string)

  /** What the client sees: a status and a body, or no reply because the
      handler panicked. */
  datatype Reply = Reply(status: int, body: Body) | Panic

  const StatusOK: int := 200
  const StatusBadRequest: int := 400
  const StatusInternalServerError: int := 500

  /** The finishing order of the calls for each possible `requests`. */
  type Schedule = nat -> seq<nat>

  ghost predicate ValidSchedule(schedule: Schedule)
  {
    forall n: nat :: IsPermutation(schedule(n), n)
  }

  /** Mean: parse `requests`, then `length`, with Atoi; run doMean; answer
      500 with no body on error and the results otherwise. A negative
      `requests` reaches `make(chan []int, requests)`, which panics. */
  function Mean(q: Values<string>, gen: Generator, schedule: Schedule, sd: Deviation): (r: Reply)
    requires ValidSchedule(schedule)
    ensures Strconv.Atoi(Get(q, "requests")).Err? ==> r == Reply(StatusBadRequest, NoBody)
    ensures Strconv.Atoi(Get(q, "length")).Err? ==> r == Reply(StatusBadRequest, NoBody)
    ensures r == Panic <==>
      Strconv.Atoi(Get(q, "requests")).Ok? && Strconv.Atoi(Get(q, "length")).Ok?
      && Strconv.Atoi(Get(q, "requests")).value < 0
    ensures r.Reply? && r.status == StatusInternalServerError ==> r.body == NoBody
    ensures r.Reply? && r.status == StatusOK ==>
      Strconv.Atoi(Get(q, "requests")).Ok? && Strconv.Atoi(Get(q, "length")).Ok?
      && (forall i :: 0 <= i < Strconv.Atoi(Get(q, "requests")).value
            ==> gen(i, Strconv.Atoi(Get(q, "length")).value).Ok?)
    ensures r.Reply? ==> r.status in {StatusOK, StatusBadRequest, StatusInternalServerError}
    ensures r.Reply? && r.status == StatusBadRequest <==>
      Strconv.Atoi(Get(q, "requests")).Err? || Strconv.Atoi(Get(q, "length")).Err?
    ensures Strconv.Atoi(Get(q, "requests")).Ok? && Strconv.Atoi(Get(q, "length")).Ok?
            && Strconv.Atoi(Get(q, "requests")).value >= 0 ==>
      var requests := Strconv.Atoi(Get(q, "requests")).value;
      var outcome := DoMean(requests, Strconv.Atoi(Get(q, "length")).value, gen, schedule(requests), sd);
      && (outcome.Err? ==> r == Reply(StatusInternalServerError, NoBody))
      && (outcome.Ok? ==> r == Reply(StatusOK, Json(outcome.value)))
  {
    match Strconv.Atoi(Get(q, "requests"))
    case Err(_) => Reply(StatusBadRequest, NoBody)
    case Ok(requests) =>
      match Strconv.Atoi(Get(q, "length"))
      case Err(_) => Reply(StatusBadRequest, NoBody)
      case Ok(length) =>
        if requests < 0 then Panic
        else
          match DoMean(requests, length, gen, schedule(requests), sd)
          case Err(_) => Reply(StatusInternalServerError, NoBody)
          case Ok(res) => Reply(StatusOK, Json(res))
  }

  /** The result depends on the generator only through the `requests`
      calls, each asking for `numbers` integers: generators that agree on
      those calls give the same result. */
  lemma {:induction false} OnlyTheRequestedCalls(requests: int, numbers: int, gen1: Generator, gen2: Generator,
                                                  order: seq<nat>, sd: Deviation)
    requires requests >= 0 && IsPermutation(order, requests)
    requires forall i: nat :: i < requests ==> gen1(i, numbers) == gen2(i, numbers)
    ensures DoMean(requests, numbers, gen1, order, sd) == DoMean(requests, numbers, gen2, order, sd)
  {
    PermutationMembers(order, requests);
    MapSeqAt(Call(gen1, numbers), order);
    MapSeqAt(Call(gen2, numbers), order);
    assert MapSeq(Call(gen1, numbers), order) == MapSeq(Call(gen2, numbers), order);
  }

  /** The order in which the calls finish does not change whether the
      request succeeds, how many results there are, which per-set results
      there are, or which integers the cumulative result holds. */
  lemma {:induction false} ArrivalOrderIrrelevant(requests: int, numbers: int, gen: Generator,
                                                   o1: seq<nat>, o2: seq<nat>, sd: Deviation)
    requires requests >= 0 && IsPermutation(o1, requests) && IsPermutation(o2, requests)
    ensures DoMean(requests, numbers, gen, o1, sd).Ok? <==> DoMean(requests, numbers, gen, o2, sd).Ok?
    ensures DoMean(requests, numbers, gen, o1, sd).Ok? ==>
      |DoMean(requests, numbers, gen, o1, sd).value| == |DoMean(requests, numbers, gen, o2, sd).value|
    ensures DoMean(requests, numbers, gen, o1, sd).Ok? ==>
      multiset(DoMean(requests, numbers, gen, o1, sd).value[..requests])
        == multiset(DoMean(requests, numbers, gen, o2, sd).value[..requests])
    ensures DoMean(requests, numbers, gen, o1, sd).Ok? && |DoMean(requests, numbers, gen, o1, sd).value| > requests ==>
      multiset(DoMean(requests, numbers, gen, o1, sd).value[requests].data)
        == multiset(DoMean(requests, numbers, gen, o2, sd).value[requests].data)
  {
    var r1, r2 := DoMean(requests, numbers, gen, o1, sd), DoMean(requests, numbers, gen, o2, sd);
    if r1.Ok? {
      assert r2.Ok?;
      var s1, s2 := Received(gen, numbers, o1), Received(gen, numbers, o2);
      assert r1.value == Calculate(s1, sd) && r2.value == Calculate(s2, sd);
      assert |s1| == requests == |s2| by {
        PermutationMembers(o1, requests);
        PermutationMembers(o2, requests);
      }
      MapSeqPermutation(Delivery(gen, numbers), o1, o2);
      ConcatPermutation(s1, s2);
      PerSetResultsPermute(s1, s2, sd);
    }
  }

  /** Streams holding the same sets give the same per-set results, up to
      order. */
  lemma PerSetResultsPermute(s1: seq<seq<int>>, s2: seq<seq<int>>, sd: Deviation)
    requires multiset(s1) == multiset(s2)
    ensures |s1| == |s2|
    ensures multiset(Calculate(s1, sd)[..|s1|]) == multiset(Calculate(s2, sd)[..|s2|])
  {
    assert |s1| == |multiset(s1)| == |multiset(s2)| == |s2|;
    var summary := (xs: seq<int>) => Summary(xs, sd);
    MapSeqPermutation(summary, s1, s2);
    MapSeqAt(summary, s1);
    MapSeqAt(summary, s2);
    assert Calculate(s1, sd)[..|s1|] == MapSeq(summary, s1);
    assert Calculate(s2, sd)[..|s2|] == MapSeq(summary, s2);
  }

  /** When every call succeeds with `length` integers: one result per call,
      then, when there are integers at all, one cumulative result holding
      all `requests * length` of them. No calls give no results and no
      error. */
  lemma {:induction false} SuccessfulShape(requests: int, length: nat, gen: Generator, order: seq<nat>, sd: Deviation)
    requires requests >= 0 && IsPermutation(order, requests)
    requires forall i :: 0 <= i < requests ==> gen(i, length).Ok? && |gen(i, length).value| == length
    ensures DoMean(requests, length, gen, order, sd).Ok?
    ensures requests == 0 ==> DoMean(requests, length, gen, order, sd).value == []
    ensures length > 0 && requests > 0 ==>
      |DoMean(requests, length, gen, order, sd).value| == requests + 1
      && |DoMean(requests, length, gen, order, sd).value[requests].data| == requests * length
  {
    var sets := Received(gen, length, order);
    PermutationMembers(order, requests);
    MapSeqAt(Delivery(gen, length), order);
    ConcatUniformLength(sets, length);
  }

  /** A failure of any one call fails the whole request. */
  lemma AnyFailureFails(requests: int, numbers: int, gen: Generator, order: seq<nat>, sd: Deviation, i: nat)
    requires requests >= 0 && IsPermutation(order, requests)
    requires i < requests && gen(i, numbers).Err?
    ensures DoMean(requests, numbers, gen, order, sd).Err?
  {
  }

  /** A malformed `requests` or `length` is answered with 400 before any
      generator call: the reply is the same whatever the generator does. */
  lemma BadParametersMakeNoCall(q: Values<string>, gen1: Generator, gen2: Generator, schedule: Schedule, sd: Deviation)
    requires ValidSchedule(schedule)
    requires Strconv.Atoi(Get(q, "requests")).Err? || Strconv.Atoi(Get(q, "length")).Err?
    ensures Mean(q, gen1, schedule, sd) == Mean(q, gen2, schedule, sd) == Reply(StatusBadRequest, NoBody)
  {
  }

  /** The query `requests=-1&length=5` makes the handler panic: nothing on
      the route checks the sign of `requests` before the channel is made. */
  lemma MeanPanicsOnNegativeRequests(gen: Generator, schedule: Schedule, sd: Deviation)
    requires ValidSchedule(schedule)
    ensures Mean(Set(Set(map[], "requests", Strconv.Itoa(-1)), "length", Strconv.Itoa(5)), gen, schedule, sd) == Panic
  {
    var q := Set(Set(map[], "requests", Strconv.Itoa(-1)), "length", Strconv.Itoa(5));
    SetKeepsOthers(Set(map[], "requests", Strconv.Itoa(-1)), "length", Strconv.Itoa(5), "requests");
    assert Get(q, "requests") == Strconv.Itoa(-1);
    Strconv.AtoiItoa(-1);
    Strconv.AtoiItoa(5);
  }

  /** The handler with validationMiddleware in front of it: invalid
      parameters are answered with 400 and the middleware's message, valid
      ones reach Mean. */
  function ValidatedMean(q: Values<string>, gen: Generator, schedule: Schedule, sd: Deviation): (r: Reply)
    requires ValidSchedule(schedule)
    ensures r.Reply?
    ensures Validation.ValidationMiddleware(q).ServeNext? ==> r == Mean(q, gen, schedule, sd)
    ensures Validation.ValidationMiddleware(q).Reject? ==>
      r == Reply(StatusBadRequest, Text(Validation.ValidationMiddleware(q).body))
  {
    match Validation.ValidationMiddleware(q)
    case Reject(status, body) => Reply(status, Text(body))
    case ServeNext => Mean(q, gen, schedule, sd)
  }
}
