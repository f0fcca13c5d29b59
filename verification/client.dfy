/** ParseIntegers of client/client.go, written as the loop the Go code runs:
    scan a line, trim it, skip it when blank, convert it, stop at the first
    line that is not an integer. The function of the same name in
    RandomOrgBody is the reference the loop is proved to agree with. */
module Client {
  import opened Results
  import opened Strings
  import Strconv
  import RandomOrgBody

  /** The integers already collected, put in front of what the remaining
      lines give; an error from the remaining lines discards them. */
  function Prepend(done: seq<int>, rest: Result<seq<int>, RandomOrgBody.ParseError>): Result<seq<int>, RandomOrgBody.ParseError>
  {
    match rest
    case Ok(vs) => Ok(done + vs)
    case Err(e) => Err(e)
  }

  /** One step of the line loop: the first line decides whether the call
      fails here, skips the line or keeps its integer. */
  lemma {:induction false} ParseLinesStep(lines: seq<string>)
    requires |lines| > 0
    ensures TrimSpace(lines[0]) == "" ==> RandomOrgBody.ParseLines(lines) == RandomOrgBody.ParseLines(lines[1..])
    ensures TrimSpace(lines[0]) != "" && Strconv.Atoi(TrimSpace(lines[0])).Err? ==>
      RandomOrgBody.ParseLines(lines) == Err(RandomOrgBody.NotAnInteger(TrimSpace(lines[0])))
    ensures TrimSpace(lines[0]) != "" && Strconv.Atoi(TrimSpace(lines[0])).Ok? ==>
      RandomOrgBody.ParseLines(lines)
        == Prepend([Strconv.Atoi(TrimSpace(lines[0])).value], RandomOrgBody.ParseLines(lines[1..]))
  {
    var t := TrimSpace(lines[0]);
    var rest := RandomOrgBody.Words(lines[1..]);
    if t != "" {
      assert RandomOrgBody.Words(lines) == [t] + rest;
      assert ([t] + rest)[1..] == rest;
    }
  }

  /** Collecting the first integer and then the rest is the same as
      putting both in front at once. */
  lemma PrependAppend(done: seq<int>, v: int, rest: Result<seq<int>, RandomOrgBody.ParseError>)
    ensures Prepend(done, Prepend([v], rest)) == Prepend(done + [v], rest)
  {
    if rest.Ok? {
      assert done + ([v] + rest.value) == (done + [v]) + rest.value;
    }
  }

  lemma PrependNothing(rest: Result<seq<int>, RandomOrgBody.ParseError>)
    ensures Prepend([], rest) == rest
  {
    if rest.Ok? {
      assert [] + rest.value == rest.value;
    }
  }

  method ParseIntegers(bb: string, contentType: string) returns (r: Result<seq<int>, RandomOrgBody.ParseError>)
    ensures r == RandomOrgBody.ParseBody(bb, contentType)
  {
    if !RandomOrgBody.ValidContentType(contentType) {
      return Err(RandomOrgBody.UnsupportedContentType(contentType));
    }
    var lines := ScanLines(bb);
    ghost var whole := RandomOrgBody.ParseLines(lines);
    assert RandomOrgBody.ParseBody(bb, contentType) == whole;
    var integers: seq<int> := [];
    var i := 0;
    assert lines[i..] == lines;
    PrependNothing(whole);
    while i < |lines|
      invariant 0 <= i <= |lines|
      invariant whole == Prepend(integers, RandomOrgBody.ParseLines(lines[i..]))
      decreases |lines| - i
    {
      ghost var rest := RandomOrgBody.ParseLines(lines[i + 1..]);
      ParseLinesStep(lines[i..]);
      assert lines[i..][1..] == lines[i + 1..];
      var line := TrimSpace(lines[i]);
      if line != "" {
        var parsed := Strconv.Atoi(line);
        if parsed.Err? {
          assert whole == Err(RandomOrgBody.NotAnInteger(line));
          return Err(RandomOrgBody.NotAnInteger(line));
        }
        PrependAppend(integers, parsed.value, rest);
        integers := integers + [parsed.value];
      }
      i := i + 1;
    }
    assert lines[i..] == [];
    assert RandomOrgBody.ParseLines([]) == Ok([]);
    assert integers + [] == integers;
    return Ok(integers);
  }
}
