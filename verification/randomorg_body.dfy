/** BodyParser.ParseIntegers of client/randomorg/body.go: a plain-text
    response body, one integer per line, turned into the list of integers. */
module RandomOrgBody {
  import opened Results
  import opened Strings
  import Strconv

  datatype ParseError =
    | UnsupportedContentType(contentType: string)
    | NotAnInteger(line: string)

  /** The `error` text the Go code formats for each failure. */
  function ErrorText(e: ParseError): string
  {
    match e
    case UnsupportedContentType(ct) => "unsupported content type: " + ct
    case NotAnInteger(line) => "failed to convert line to int: " + line
  }

  const PlainText: string := "text/plain"

  /** validContentType: non-empty, and the text before the first `;` is
      exactly "text/plain". */
  function ValidContentType(contentType: string): bool
  {
    contentType != "" && Split(contentType, ';')[0] == PlainText
  }

  /** The content type is accepted exactly when it is "text/plain" alone or
      "text/plain" followed by `;` and parameters. */
  lemma ValidContentTypeShape(ct: string)
    ensures ValidContentType(ct) <==>
      ct == PlainText || (|ct| > |PlainText| && ct[..|PlainText| + 1] == PlainText + ";")
  {
    SplitFirst(ct, ';');
    assert ';' !in PlainText;
    HeadBeforeSeparator(ct, PlainText, ';');
  }

  /** For a head `p` free of the separator: the text before the first
      separator is `p` exactly when the text is `p` alone or starts with `p`
      and the separator. */
  lemma HeadBeforeSeparator(ct: string, p: string, sep: char)
    requires sep !in p
    ensures (IndexOf(ct, sep) == -1 && ct == p) || (IndexOf(ct, sep) >= 0 && ct[..IndexOf(ct, sep)] == p)
      <==> ct == p || (|ct| > |p| && ct[..|p| + 1] == p + [sep])
  {
    var i, n := IndexOf(ct, sep), |p|;
    if i >= 0 && ct[..i] == p {
      assert ct[..n + 1] == ct[..i] + [ct[i]];
    }
    if |ct| > n && ct[..n + 1] == p + [sep] {
      assert ct[n] == ct[..n + 1][n] == sep;
      assert ct[..n] == ct[..n + 1][..n] == p;
      IndexOfAtMost(ct, sep, n);
      IndexOfAtLeast(ct, sep, n);
    }
  }

  /** The first piece of a split is the text before the first separator. */
  lemma SplitFirst(s: string, sep: char)
    ensures Split(s, sep)[0] == (if IndexOf(s, sep) == -1 then s else s[..IndexOf(s, sep)])
  {
  }

  /** The lines that carry a number, in order: each line trimmed, blank
      ones dropped. */
  function Words(lines: seq<string>): (w: seq<string>)
    ensures |w| <= |lines|
  {
    if |lines| == 0 then []
    else
      var t := TrimSpace(lines[0]);
      if t == "" then Words(lines[1..]) else [t] + Words(lines[1..])
  }

  /** The position of the first word that is not an integer, or the number
      of words when all of them are. */
  function FirstBad(words: seq<string>): (i: nat)
    ensures i <= |words|
    ensures forall j :: 0 <= j < i ==> Strconv.Atoi(words[j]).Ok?
    ensures i < |words| ==> Strconv.Atoi(words[i]).Err?
  {
    if |words| == 0 || Strconv.Atoi(words[0]).Err? then 0 else 1 + FirstBad(words[1..])
  }

  /** Atoi on every word in order; the first word that is not an integer
      ends the call with an error and no integers. */
  function Convert(words: seq<string>): (r: Result<seq<int>, ParseError>)
    ensures r.Ok? <==> FirstBad(words) == |words|
    ensures r.Ok? ==> |r.value| == |words|
    ensures r.Ok? ==> forall k :: 0 <= k < |words| ==> Strconv.Atoi(words[k]) == Ok(r.value[k])
    ensures r.Err? ==> FirstBad(words) < |words| && r.error == NotAnInteger(words[FirstBad(words)])
  {
    if |words| == 0 then Ok([])
    else
      match Strconv.Atoi(words[0])
      case Err(_) => Err(NotAnInteger(words[0]))
      case Ok(v) =>
        match Convert(words[1..])
        case Err(e) => Err(e)
        case Ok(vs) => Ok([v] + vs)
  }

  /** The loop of ParseIntegers over the scanned lines: trim, skip blank
      lines, convert the rest with Atoi in order. */
  function ParseLines(lines: seq<string>): Result<seq<int>, ParseError>
  {
    Convert(Words(lines))
  }

  /** BodyParser.ParseIntegers: the content-type gate, then the line loop over what the
      line scanner yields. */
  function ParseBody(bb: string, contentType: string): (r: Result<seq<int>, ParseError>)
    ensures !ValidContentType(contentType) ==> r == Err(UnsupportedContentType(contentType))
    ensures ValidContentType(contentType) ==>
      var words := Words(ScanLines(bb));
      && (r.Ok? <==> forall k :: 0 <= k < |words| ==> Strconv.Atoi(words[k]).Ok?)
      && (r.Ok? ==> |r.value| == |words| && forall k :: 0 <= k < |words| ==> Strconv.Atoi(words[k]) == Ok(r.value[k]))
      && (r.Err? ==> FirstBad(words) < |words| && r.error == NotAnInteger(words[FirstBad(words)]))
  {
    if !ValidContentType(contentType) then Err(UnsupportedContentType(contentType))
    else
      var words := Words(ScanLines(bb));
      ConvertMeaning(words);
      Convert(words)
  }

  /** Convert succeeds exactly when Atoi accepts every word, and otherwise
      names a word Atoi refuses. */
  lemma ConvertMeaning(words: seq<string>)
    ensures Convert(words).Ok? <==> forall k :: 0 <= k < |words| ==> Strconv.Atoi(words[k]).Ok?
    ensures Convert(words).Err? ==>
      exists k :: 0 <= k < |words| && Strconv.Atoi(words[k]).Err? && Convert(words).error == NotAnInteger(words[k])
  {
    var k := FirstBad(words);
    if k < |words| {
      assert Strconv.Atoi(words[k]).Err?;
    }
  }

  /** An empty (or nil) body with an accepted content type gives no integers and no error. */
  lemma EmptyBody(contentType: string)
    requires ValidContentType(contentType)
    ensures ParseBody([], contentType) == Ok([])
  {
  }

  /** Scanning lines the way bufio does and splitting on every newline
      leave the same numbers once lines are trimmed and blank ones skipped:
      the carriage return bufio drops is trimmed anyway, and the empty piece
      after a final newline is blank. */
  lemma {:induction false} ScannerAgreesWithSplit(data: string)
    ensures Words(ScanLines(data)) == Words(Split(data, '\n'))
    ensures ParseLines(ScanLines(data)) == ParseLines(Split(data, '\n'))
    decreases |data|
  {
    var i := IndexOf(data, '\n');
    if |data| == 0 {
      assert Split(data, '\n') == [[]];
      assert Words([[]]) == Words([[]][1..]);
    } else if i == -1 {
      assert Split(data, '\n') == [data];
      SameTrimSameWords(DropCR(data), data, []);
    } else {
      var line, tail := data[..i], data[i + 1..];
      ScannerAgreesWithSplit(tail);
      ScanLinesAround(data, i);
      SplitAroundNewline(data, i);
      SameTrimSameWords(DropCR(line), line, ScanLines(tail));
      WordsOfCons(line, ScanLines(tail));
      WordsOfCons(line, Split(tail, '\n'));
    }
  }

  lemma WordsOfCons(h: string, t: seq<string>)
    ensures Words([h] + t) == (if TrimSpace(h) == "" then Words(t) else [TrimSpace(h)] + Words(t))
  {
    assert ([h] + t)[1..] == t;
  }

  lemma SameTrimSameWords(a: string, b: string, rest: seq<string>)
    requires a == DropCR(b)
    ensures Words([a] + rest) == Words([b] + rest)
  {
    if a != b {
      TrimSpaceIgnoresCarriageReturn(a);
    }
    WordsOfCons(a, rest);
    WordsOfCons(b, rest);
  }

  /** A random.org plain-text answer with one column: every integer in
      decimal followed by a newline. */
  function Render(xs: seq<int>): string
  {
    if |xs| == 0 then [] else Strconv.Itoa(xs[0]) + "\n" + Render(xs[1..])
  }

  /** Parsing the rendering of integers a Go `int` can hold gives them back
      in order, for any accepted content type. */
  lemma {:induction false} ParseRender(xs: seq<int>, contentType: string)
    requires ValidContentType(contentType)
    requires forall k :: 0 <= k < |xs| ==> Strconv.InInt(xs[k])
    ensures ParseBody(Render(xs), contentType) == Ok(xs)
  {
    ScanRender(xs);
    WordsOfItoa(xs);
    ConvertItoa(xs);
  }

  function ItoaAll(xs: seq<int>): (r: seq<string>)
    ensures |r| == |xs|
  {
    if |xs| == 0 then [] else [Strconv.Itoa(xs[0])] + ItoaAll(xs[1..])
  }

  lemma {:induction false} ScanRender(xs: seq<int>)
    ensures ScanLines(Render(xs)) == ItoaAll(xs)
  {
    if |xs| > 0 {
      var line := Strconv.Itoa(xs[0]);
      var data := Render(xs);
      Strconv.ItoaCharacters(xs[0]);
      assert '\n' !in line;
      assert data == line + "\n" + Render(xs[1..]);
      assert data[|line|] == '\n' && data[..|line|] == line;
      assert IndexOf(data, '\n') == |line|;
      assert data[|line| + 1..] == Render(xs[1..]);
      assert DropCR(line) == line;
      ScanRender(xs[1..]);
    }
  }

  lemma {:induction false} WordsOfItoa(xs: seq<int>)
    ensures Words(ItoaAll(xs)) == ItoaAll(xs)
  {
    if |xs| > 0 {
      var line := Strconv.Itoa(xs[0]);
      Strconv.ItoaCharacters(xs[0]);
      assert NoSpace(line);
      WordsOfCons(line, ItoaAll(xs[1..]));
      assert ItoaAll(xs) == [line] + ItoaAll(xs[1..]);
      WordsOfItoa(xs[1..]);
    }
  }

  lemma {:induction false} ConvertItoa(xs: seq<int>)
    requires forall k :: 0 <= k < |xs| ==> Strconv.InInt(xs[k])
    ensures Convert(ItoaAll(xs)) == Ok(xs)
  {
    if |xs| > 0 {
      Strconv.AtoiItoa(xs[0]);
      assert ItoaAll(xs)[1..] == ItoaAll(xs[1..]);
      ConvertItoa(xs[1..]);
      assert xs == [xs[0]] + xs[1..];
    }
  }
}
