/** RequestFactory.NewRequest of client/randomorg/request.go: the GET
    request to random.org's plain-text integer generator, with the count and
    bounds taken from the client options. */
module RandomOrgRequest {
  import opened UrlValues
  import opened ClientOptions
  import Strconv
  import opened Results

  /** The query keys of the random.org request. */
  datatype QueryKey = KeyNum | KeyMin | KeyMax | KeyCol | KeyBase | KeyFormat | KeyRnd

  /** The name each key has on the wire. */
  function Name(k: QueryKey): string
  {
    match k
    case KeyNum => "num"
    case KeyMin => "min"
    case KeyMax => "max"
    case KeyCol => "col"
    case KeyBase => "base"
    case KeyFormat => "format"
    case KeyRnd => "rnd"
  }

  type Query = Values<QueryKey>

  /** Different keys have different names, so a map keyed by QueryKey is
      a map keyed by the names. */
  lemma NamesDistinct(a: QueryKey, b: QueryKey)
    requires a != b
    ensures Name(a) != Name(b)
  {
    if |Name(a)| == |Name(b)| && Name(a) != "base" && Name(a) != "format" {
      assert Name(a)[0] != Name(b)[0] || Name(a)[1] != Name(b)[1];
    }
  }

  datatype Request = Request(verb: string, scheme: string, host: string, path: string, query: Query)

  /** The query of the fixed URL
      `https://www.random.org/integers/?num=5&min=1&max=100&col=1&base=10&format=plain&rnd=new`
      after `url.Parse`: one value per key. */
  const Template: Query := map[
    KeyNum := ["5"], KeyMin := ["1"], KeyMax := ["100"], KeyCol := ["1"],
    KeyBase := ["10"], KeyFormat := ["plain"], KeyRnd := ["new"]]

  /** Keys copied from the template without change. */
  const FixedKeys: set<QueryKey> := {KeyCol, KeyBase, KeyFormat, KeyRnd}

  /** The query NewRequest must produce for a configuration: the three
      configured values in decimal and the four fixed settings. */
  function ExpectedQuery(cfg: Options): Query
  {
    map[
      KeyNum := [Strconv.Itoa(cfg.quantity)], KeyMin := [Strconv.Itoa(cfg.min)], KeyMax := [Strconv.Itoa(cfg.max)],
      KeyCol := ["1"], KeyBase := ["10"], KeyFormat := ["plain"], KeyRnd := ["new"]]
  }

  /** NewRequest: the template with `min`, `max` and `num` set, in that
      order, to the decimal renderings of the configured values. */
  function NewRequest(opts: seq<Option>): (r: Request)
    ensures r.verb == "GET" && r.scheme == "https"
    ensures r.host == "www.random.org" && r.path == "/integers/"
    ensures r.query == ExpectedQuery(NewOptions(opts))
  {
    var cfg := NewOptions(opts);
    var query := Set(Template, KeyMin, Strconv.Itoa(cfg.min));
    var query := Set(query, KeyMax, Strconv.Itoa(cfg.max));
    var query := Set(query, KeyNum, Strconv.Itoa(cfg.quantity));
    Request("GET", "https", "www.random.org", "/integers/", query)
  }

  /** The query has exactly the seven template keys, each with one value,
      and the four fixed settings are those of the template. */
  lemma QueryShape(opts: seq<Option>)
    ensures forall k: QueryKey :: k in NewRequest(opts).query
    ensures forall k :: k in NewRequest(opts).query ==> |NewRequest(opts).query[k]| == 1
    ensures forall k :: k in FixedKeys ==> NewRequest(opts).query[k] == Template[k]
  {
    var q := NewRequest(opts).query;
    forall k: QueryKey
      ensures k in q && |q[k]| == 1
    {
      match k
      case KeyNum => case KeyMin => case KeyMax => case KeyCol =>
      case KeyBase => case KeyFormat => case KeyRnd =>
    }
  }

  /** Reading `num`, `min` and `max` back from the query with Atoi gives the
      configured values, for every value a Go `int` holds. */
  lemma QueryRoundTrip(opts: seq<Option>)
    requires Strconv.InInt(NewOptions(opts).quantity)
    requires Strconv.InInt(NewOptions(opts).min) && Strconv.InInt(NewOptions(opts).max)
    ensures Strconv.Atoi(Get(NewRequest(opts).query, KeyNum)) == Ok(NewOptions(opts).quantity)
    ensures Strconv.Atoi(Get(NewRequest(opts).query, KeyMin)) == Ok(NewOptions(opts).min)
    ensures Strconv.Atoi(Get(NewRequest(opts).query, KeyMax)) == Ok(NewOptions(opts).max)
  {
    var cfg := NewOptions(opts);
    var q := NewRequest(opts).query;
    assert q == ExpectedQuery(cfg);
    assert Get(q, KeyNum) == Strconv.Itoa(cfg.quantity);
    assert Get(q, KeyMin) == Strconv.Itoa(cfg.min);
    assert Get(q, KeyMax) == Strconv.Itoa(cfg.max);
    Strconv.AtoiItoa(cfg.quantity);
    Strconv.AtoiItoa(cfg.min);
    Strconv.AtoiItoa(cfg.max);
  }

  /** Without options the template's `max=100` is replaced: num 5, min 1, max 10. */
  lemma DefaultQuery()
    ensures NewRequest([]).query == map[
      KeyNum := ["5"], KeyMin := ["1"], KeyMax := ["10"], KeyCol := ["1"],
      KeyBase := ["10"], KeyFormat := ["plain"], KeyRnd := ["new"]]
  {
    NoOptionsGiveDefaults();
    assert Strconv.Itoa(5) == "5" && Strconv.Itoa(1) == "1";
    assert Strconv.Itoa(10) == "10";
  }

  /** The custom-values case: quantity 23, min -11, max 435. */
  lemma CustomQuery()
    ensures var q := NewRequest([WithQuantity(23), WithMin(-11), WithMax(435)]).query;
      Get(q, KeyNum) == "23" && Get(q, KeyMin) == "-11" && Get(q, KeyMax) == "435"
      && Get(q, KeyCol) == "1" && Get(q, KeyBase) == "10" && Get(q, KeyFormat) == "plain" && Get(q, KeyRnd) == "new"
  {
    CustomOptions();
    CustomRenderings();
  }

  lemma CustomOptions()
    ensures NewOptions([WithQuantity(23), WithMin(-11), WithMax(435)]) == Options(-11, 435, 23)
  {
    var opts := [WithQuantity(23), WithMin(-11), WithMax(435)];
    var o1 := Apply(Defaults, WithQuantity(23));
    var o2 := Apply(o1, WithMin(-11));
    assert opts[1..] == [WithMin(-11), WithMax(435)];
    assert opts[1..][1..] == [WithMax(435)];
    assert ApplyAll(o2, [WithMax(435)]) == Options(-11, 435, 23);
  }

  lemma CustomRenderings()
    ensures Strconv.Itoa(23) == "23" && Strconv.Itoa(-11) == "-11" && Strconv.Itoa(435) == "435"
  {
    assert Strconv.Digits(2) == "2" && Strconv.Digits(23) == "23";
    assert Strconv.Digits(1) == "1" && Strconv.Digits(11) == "11";
    assert Strconv.Digits(4) == "4" && Strconv.Digits(43) == "43" && Strconv.Digits(435) == "435";
  }
}
