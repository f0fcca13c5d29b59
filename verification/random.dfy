/** Random.Integers of random/random.go: build a request for the wanted
    quantity, send it, parse the answer. The three collaborators are
    parameters; each stage's failure is reported with its own error kind and
    stops the call before the next stage runs. */
module Random {
  import opened Results
  import opened ClientOptions

  /** The sentinel errors the call wraps, one per stage. */
  datatype ErrorKind = ErrInit | ErrGenerator | ErrItems

  datatype GeneratorError = GeneratorError(kind: ErrorKind, cause: string)

  /** The text `Error()` gives for a wrapped failure. */
  function Message(e: GeneratorError): string
  {
    match e.kind
    case ErrInit => "failed to initialize random generator: " + e.cause
    case ErrGenerator => "random generator failure: " + e.cause
    case ErrItems => "failed to obtain random items (integers): " + e.cause
  }

  /** What RequestSender.Send hands back on success: the body bytes and the
      content-type header. */
  datatype Response = Response(body: string, contentType: string)

  /** One call made to a collaborator, with its arguments. */
  datatype Call<Req> =
    | NewRequest(opts: seq<Option>)
    | Send(req: Req)
    | ParseIntegers(body: string, contentType: string)

  /** The calls made, in order, and the value returned. */
  datatype Run<Req> = Run(calls: seq<Call<Req>>, result: Result<seq<int>, GeneratorError>)

  type Factory<Req> = seq<Option> -> Result<Req, string>
  type Sender<-Req> = Req -> Result<Response, string>
  type Parser = (string, string) -> Result<seq<int>, string>

  function Integers<Req>(factory: Factory<Req>, sender: Sender<Req>, parser: Parser, quantity: int): (r: Run<Req>)
    ensures 1 <= |r.calls| <= 3
    ensures r.calls[0] == NewRequest([WithQuantity(quantity)])
    ensures factory([WithQuantity(quantity)]).Err? ==>
      |r.calls| == 1 && r.result == Err(GeneratorError(ErrInit, factory([WithQuantity(quantity)]).error))
    ensures factory([WithQuantity(quantity)]).Ok? ==>
      |r.calls| >= 2 && r.calls[1] == Send(factory([WithQuantity(quantity)]).value)
    ensures |r.calls| == 2 ==>
      r.calls[1].Send? && sender(r.calls[1].req).Err?
      && r.result == Err(GeneratorError(ErrGenerator, sender(r.calls[1].req).error))
    ensures |r.calls| == 3 ==>
      r.calls[1].Send? && sender(r.calls[1].req).Ok?
      && r.calls[2] == ParseIntegers(sender(r.calls[1].req).value.body, sender(r.calls[1].req).value.contentType)
    ensures |r.calls| == 3 ==>
      r.result == parser(r.calls[2].body, r.calls[2].contentType).MapErr((e: string) => GeneratorError(ErrItems, e))
  {
    var opts := [WithQuantity(quantity)];
    match factory(opts)
    case Err(e) => Run([NewRequest(opts)], Err(GeneratorError(ErrInit, e)))
    case Ok(req) =>
      match sender(req)
      case Err(e) => Run([NewRequest(opts), Send(req)], Err(GeneratorError(ErrGenerator, e)))
      case Ok(resp) =>
        var parsed := parser(resp.body, resp.contentType);
        Run([NewRequest(opts), Send(req), ParseIntegers(resp.body, resp.contentType)],
          parsed.MapErr((e: string) => GeneratorError(ErrItems, e)))
  }

  /** Whether each stage succeeded, for the request of `quantity`. */
  predicate BuildOk<Req>(factory: Factory<Req>, quantity: int) {
    factory([WithQuantity(quantity)]).Ok?
  }

  predicate SendOk<Req>(factory: Factory<Req>, sender: Sender<Req>, quantity: int) {
    BuildOk(factory, quantity) && sender(factory([WithQuantity(quantity)]).value).Ok?
  }

  function Answer<Req>(factory: Factory<Req>, sender: Sender<Req>, quantity: int): Response
    requires SendOk(factory, sender, quantity)
  {
    sender(factory([WithQuantity(quantity)]).value).value
  }

  /** The error kind names the stage that failed, and only that stage's
      failure produces it; a success hands back the parser's integers
      untouched. */
  lemma ErrorKindNamesStage<Req>(factory: Factory<Req>, sender: Sender<Req>, parser: Parser, quantity: int)
    ensures Integers(factory, sender, parser, quantity).result.Err? ==>
      (Integers(factory, sender, parser, quantity).result.error.kind == ErrInit <==> !BuildOk(factory, quantity))
    ensures Integers(factory, sender, parser, quantity).result.Err? ==>
      (Integers(factory, sender, parser, quantity).result.error.kind == ErrGenerator <==>
        BuildOk(factory, quantity) && !SendOk(factory, sender, quantity))
    ensures Integers(factory, sender, parser, quantity).result.Err? ==>
      (Integers(factory, sender, parser, quantity).result.error.kind == ErrItems <==> SendOk(factory, sender, quantity))
    ensures Integers(factory, sender, parser, quantity).result.Ok? <==>
      SendOk(factory, sender, quantity)
      && parser(Answer(factory, sender, quantity).body, Answer(factory, sender, quantity).contentType).Ok?
    ensures Integers(factory, sender, parser, quantity).result.Ok? ==>
      Integers(factory, sender, parser, quantity).result.value
        == parser(Answer(factory, sender, quantity).body, Answer(factory, sender, quantity).contentType).value
  {
  }
}
