/** server/validation.go: the query-parameter check placed in front of the
    mean handler. Both parameters must be positive integers; the first one
    that is not decides the 400 reply. */
module Validation {
  import opened Results
  import opened UrlValues
  import Strconv

  /** The two sentinel errors the parameter check wraps. */
  datatype Fault = NotInteger | NotPositiveInteger

  function Sentinel(f: Fault): string
  {
    match f
    case NotInteger => "parameter must be an integer"
    case NotPositiveInteger => "parameter must be a positive integer"
  }

  datatype ParamError = ParamError(param: string, fault: Fault)
  {
    /** `fmt.Errorf("%s %w", param, sentinel)`: the parameter name, one
        blank, the sentinel's text. */
    function Message(): string
    {
      param + " " + Sentinel(fault)
    }
  }

  /** paramPositiveInt: the first value of `param` in the query (the empty
      string when absent), read with Atoi and required to be above zero. */
  function ParamPositiveInt(q: Values<string>, param: string): (r: Result<int, ParamError>)
    ensures r.Ok? ==> r.value > 0 && Strconv.Atoi(Get(q, param)) == Ok(r.value)
    ensures r.Err? ==> r.error.param == param
    ensures r.Err? && r.error.fault == NotInteger ==> Strconv.Atoi(Get(q, param)).Err?
    ensures r.Err? && r.error.fault == NotPositiveInteger ==>
      Strconv.Atoi(Get(q, param)).Ok? && Strconv.Atoi(Get(q, param)).value <= 0
  {
    match Strconv.Atoi(Get(q, param))
    case Err(_) => Err(ParamError(param, NotInteger))
    case Ok(value) =>
      if value <= 0 then Err(ParamError(param, NotPositiveInteger)) else Ok(value)
  }

  /** What the middleware does with a request: answer it itself, or pass
      it on to the wrapped handler. */
  datatype Decision = Reject(status: int, body: string) | ServeNext

  const StatusBadRequest: int := 400

  /** validationMiddleware: `requests` first, then `length`. */
  function ValidationMiddleware(q: Values<string>): (d: Decision)
    ensures d.ServeNext? <==> ParamPositiveInt(q, "requests").Ok? && ParamPositiveInt(q, "length").Ok?
    ensures d.Reject? ==> d.status == StatusBadRequest
  {
    match ParamPositiveInt(q, "requests")
    case Err(e) => Reject(StatusBadRequest, e.Message())
    case Ok(_) =>
      match ParamPositiveInt(q, "length")
      case Err(e) => Reject(StatusBadRequest, e.Message())
      case Ok(_) => ServeNext
  }

  /** A value written with Itoa is handed back unchanged when it is a
      positive `int`; zero and negative values are refused as not positive. */
  lemma {:induction false} PositiveRoundTrip(q: Values<string>, param: string, n: int)
    requires Strconv.InInt(n)
    ensures ParamPositiveInt(Set(q, param, Strconv.Itoa(n)), param)
      == (if n > 0 then Ok(n) else Err(ParamError(param, NotPositiveInteger)))
  {
    Strconv.AtoiItoa(n);
  }

  /** A parameter that is absent from the query reads as the empty string,
      which is not an integer. */
  lemma MissingParam(q: Values<string>, param: string)
    requires param !in q
    ensures ParamPositiveInt(q, param) == Err(ParamError(param, NotInteger))
  {
  }

  /** The message can be read back: the ninth character from the end tells
      the sentinels apart ("an integer" against "positive integer"), and
      what precedes the blank and the sentinel is the parameter name. */
  lemma ReadMessage(e: ParamError)
    ensures |e.Message()| > |Sentinel(e.fault)|
    ensures e.fault == (if e.Message()[|e.Message()| - 9] == 'n' then NotInteger else NotPositiveInteger)
    ensures e.param == e.Message()[..|e.Message()| - |Sentinel(e.fault)| - 1]
  {
    var m, t := e.Message(), Sentinel(e.fault);
    assert m[|m| - 9] == t[|t| - 9];
    assert m[..|m| - |t| - 1] == e.param;
  }

  /** The reply body tells the two faults apart and names the parameter. */
  lemma MessagesDistinct(a: ParamError, b: ParamError)
    ensures a.Message() == b.Message() <==> a == b
  {
    ReadMessage(a);
    ReadMessage(b);
  }

  /** `requests` is checked first: when it is invalid the reply is about
      `requests`, whatever `length` holds. */
  lemma RequestsCheckedFirst(q: Values<string>)
    requires ParamPositiveInt(q, "requests").Err?
    ensures ValidationMiddleware(q) == Reject(StatusBadRequest, ParamPositiveInt(q, "requests").error.Message())
  {
  }

  /** With a valid `requests`, an invalid `length` decides the reply. */
  lemma LengthCheckedSecond(q: Values<string>)
    requires ParamPositiveInt(q, "requests").Ok? && ParamPositiveInt(q, "length").Err?
    ensures ValidationMiddleware(q) == Reject(StatusBadRequest, ParamPositiveInt(q, "length").error.Message())
  {
  }
}
