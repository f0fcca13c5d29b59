/** Random.Integers with the collaborators the program wires into it: the
    random.org request factory and the plain-text body parser. Only the
    sender, which talks to the network, stays a parameter. */
module Pipeline {
  import opened Results
  import opened ClientOptions
  import opened UrlValues
  import Strconv
  import RandomOrgRequest
  import RandomOrgBody
  import Random
  import Seqs
  import StdDevService
  import Server

  /** RequestFactory.NewRequest: building the request cannot fail for the
      fixed random.org address. */
  function RandomOrgFactory(): Random.Factory<RandomOrgRequest.Request>
  {
    (opts: seq<Option>) => Ok(RandomOrgRequest.NewRequest(opts))
  }

  /** BodyParser.ParseIntegers, its error reduced to the text it prints. */
  function RandomOrgParser(): Random.Parser
  {
    (body: string, contentType: string) => RandomOrgBody.ParseBody(body, contentType).MapErr(RandomOrgBody.ErrorText)
  }

  /** The request sent for `quantity` integers asks random.org for that many
      integers between the defaults 1 and 10. */
  lemma SentRequest(sender: Random.Sender<RandomOrgRequest.Request>, parser: Random.Parser, quantity: int)
    requires Strconv.InInt(quantity)
    ensures Random.Integers(RandomOrgFactory(), sender, parser, quantity).calls[1].Send?
    ensures var req := Random.Integers(RandomOrgFactory(), sender, parser, quantity).calls[1].req;
      Strconv.Atoi(Get(req.query, RandomOrgRequest.KeyNum)) == Ok(quantity)
      && Strconv.Atoi(Get(req.query, RandomOrgRequest.KeyMin)) == Ok(1)
      && Strconv.Atoi(Get(req.query, RandomOrgRequest.KeyMax)) == Ok(10)
  {
    var opts := [WithQuantity(quantity)];
    assert NewOptions(opts) == Options(1, 10, quantity) by {
      assert opts[1..] == [];
      assert ApplyAll(Defaults, opts) == ApplyAll(Apply(Defaults, WithQuantity(quantity)), []);
      assert Apply(Defaults, WithQuantity(quantity)) == Options(1, 10, quantity);
    }
    RandomOrgRequest.QueryRoundTrip(opts);
  }

  /** A sender that answers with the integers as plain text, one per line,
      makes the call return exactly those integers. */
  lemma {:induction false} PlainTextAnswer(sender: Random.Sender<RandomOrgRequest.Request>, quantity: int, xs: seq<int>)
    requires forall k :: 0 <= k < |xs| ==> Strconv.InInt(xs[k])
    requires sender(RandomOrgRequest.NewRequest([WithQuantity(quantity)]))
      == Ok(Random.Response(RandomOrgBody.Render(xs), RandomOrgBody.PlainText))
    ensures Random.Integers(RandomOrgFactory(), sender, RandomOrgParser(), quantity).result == Ok(xs)
  {
    RandomOrgBody.ValidContentTypeShape(RandomOrgBody.PlainText);
    RandomOrgBody.ParseRender(xs, RandomOrgBody.PlainText);
  }

  /** An answer in another content type is refused at the parsing stage. */
  lemma WrongContentType(sender: Random.Sender<RandomOrgRequest.Request>, quantity: int, body: string, contentType: string)
    requires !RandomOrgBody.ValidContentType(contentType)
    requires sender(RandomOrgRequest.NewRequest([WithQuantity(quantity)])) == Ok(Random.Response(body, contentType))
    ensures Random.Integers(RandomOrgFactory(), sender, RandomOrgParser(), quantity).result
      == Err(Random.GeneratorError(Random.ErrItems, "unsupported content type: " + contentType))
  {
  }

  /** RandomServer's generator: call number `i` runs Integers with the
      random.org factory and parser over the `i`-th sender, and its error
      is the text `Error()` gives for the wrapped failure. */
  function RandomOrgGenerator(senders: nat -> Random.Sender<RandomOrgRequest.Request>): Server.Generator
  {
    (i: nat, quantity: int) =>
      Random.Integers(RandomOrgFactory(), senders(i), RandomOrgParser(), quantity).result.MapErr(Random.Message)
  }

  /** Every failed doMean over this generator reports, after its own
      prefix, the message of a wrapped generator error. */
  lemma DoMeanErrorText(senders: nat -> Random.Sender<RandomOrgRequest.Request>, requests: int, numbers: int,
                        order: seq<nat>, sd: StdDevService.Deviation)
    requires requests >= 0 && Seqs.IsPermutation(order, requests)
    ensures var r := Server.DoMean(requests, numbers, RandomOrgGenerator(senders), order, sd);
      r.Err? ==> exists e: Random.GeneratorError :: r.error == Server.WrapText + Random.Message(e)
  {
    var gen := RandomOrgGenerator(senders);
    var r := Server.DoMean(requests, numbers, gen, order, sd);
    if r.Err? {
      var i :| 0 <= i < requests && gen(i, numbers).Err? && r.error == Server.WrapText + gen(i, numbers).error;
      var run := Random.Integers(RandomOrgFactory(), senders(i), RandomOrgParser(), numbers);
      assert gen(i, numbers) == run.result.MapErr(Random.Message);
      assert r.error == Server.WrapText + Random.Message(run.result.error);
    }
  }

  /** When random.org answers every call in another content type, the
      request fails with the whole chain of messages: doMean's prefix, the
      ErrItems text and the parser's refusal. */
  lemma AllAnswersWrongContentType(senders: nat -> Random.Sender<RandomOrgRequest.Request>, requests: int, numbers: int,
                                   order: seq<nat>, sd: StdDevService.Deviation, body: string, contentType: string)
    requires requests > 0 && Seqs.IsPermutation(order, requests)
    requires !RandomOrgBody.ValidContentType(contentType)
    requires forall i: nat :: i < requests ==>
      senders(i)(RandomOrgRequest.NewRequest([WithQuantity(numbers)])) == Ok(Random.Response(body, contentType))
    ensures Server.DoMean(requests, numbers, RandomOrgGenerator(senders), order, sd)
      == Err(Server.WrapText + Random.Message(Random.GeneratorError(Random.ErrItems, "unsupported content type: " + contentType)))
  {
    var gen := RandomOrgGenerator(senders);
    var r := Server.DoMean(requests, numbers, gen, order, sd);
    var text := Random.Message(Random.GeneratorError(Random.ErrItems, "unsupported content type: " + contentType));
    forall i: nat | i < requests
      ensures gen(i, numbers) == Err(text)
    {
      WrongContentTypeOutcome(senders, i, numbers, body, contentType);
    }
    assert !gen(0, numbers).Ok?;
    var i :| 0 <= i < requests && gen(i, numbers).Err? && r.error == Server.WrapText + gen(i, numbers).error;
  }

  lemma WrongContentTypeOutcome(senders: nat -> Random.Sender<RandomOrgRequest.Request>, i: nat, numbers: int,
                                body: string, contentType: string)
    requires !RandomOrgBody.ValidContentType(contentType)
    requires senders(i)(RandomOrgRequest.NewRequest([WithQuantity(numbers)])) == Ok(Random.Response(body, contentType))
    ensures RandomOrgGenerator(senders)(i, numbers)
      == Err(Random.Message(Random.GeneratorError(Random.ErrItems, "unsupported content type: " + contentType)))
  {
    var cause := "unsupported content type: " + contentType;
    WrongContentType(senders(i), numbers, body, contentType);
    var run := Random.Integers(RandomOrgFactory(), senders(i), RandomOrgParser(), numbers);
    assert run.result == Err(Random.GeneratorError(Random.ErrItems, cause));
  }
}
