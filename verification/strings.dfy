/** The pieces of Go's `strings` and `bufio` packages the body parsers use:
    `strings.TrimSpace` (ASCII white space only), `strings.Split` with a
    one-character separator, and the lines `bufio.ScanLines` yields once the
    whole input is available. */
module Strings {

  /** The ASCII white-space characters `strings.TrimSpace` removes:
      tab, newline, vertical tab, form feed, carriage return and space. */
  predicate IsSpace(c: char) {
    c == '\t' || c == '\n' || c == '\U{B}' || c == '\U{C}' || c == '\r' || c == ' '
  }

  predicate AllSpace(s: string) {
    forall k :: 0 <= k < |s| ==> IsSpace(s[k])
  }

  predicate NoSpace(s: string) {
    forall k :: 0 <= k < |s| ==> !IsSpace(s[k])
  }

  /** Drops the leading white space. */
  function TrimLeft(s: string): (r: string)
    ensures |r| <= |s| && r == s[|s| - |r|..]
    ensures forall k :: 0 <= k < |s| - |r| ==> IsSpace(s[k])
    ensures r == [] || !IsSpace(r[0])
  {
    if |s| > 0 && IsSpace(s[0]) then
      var r := TrimLeft(s[1..]);
      assert s[1..][|s| - 1 - |r|..] == s[|s| - |r|..];
      r
    else s
  }

  /** Drops the trailing white space. */
  function TrimRight(s: string): (r: string)
    ensures |r| <= |s| && r == s[..|r|]
    ensures forall k :: |r| <= k < |s| ==> IsSpace(s[k])
    ensures r == [] || !IsSpace(r[|r| - 1])
  {
    if |s| > 0 && IsSpace(s[|s| - 1]) then
      var r := TrimRight(s[..|s| - 1]);
      assert s[..|s| - 1][..|r|] == s[..|r|];
      r
    else s
  }

  /** `r` is a slice of `s` with only white space before and after it. */
  predicate SpaceAround(s: string, r: string) {
    exists i, j :: 0 <= i <= j <= |s| && r == s[i..j] && AllSpace(s[..i]) && AllSpace(s[j..])
  }

  /** strings.TrimSpace: the text between the leading and trailing white space. */
  function TrimSpace(s: string): (r: string)
    ensures r == [] <==> AllSpace(s)
    ensures r == [] || (!IsSpace(r[0]) && !IsSpace(r[|r| - 1]))
    ensures NoSpace(s) ==> r == s
    ensures SpaceAround(s, r)
  {
    var l := TrimLeft(s);
    assert AllSpace(s) ==> l == [] by {
      if l != [] {
        assert !IsSpace(s[|s| - |l|]);
      }
    }
    assert SpaceAround(s, TrimRight(l)) by {
      PrefixOfSuffix(s, l, TrimRight(l));
    }
    assert l == [] ==> AllSpace(s) by {
      if l == [] {
        assert s[..|s|] == s;
      }
    }
    TrimRight(l)
  }

  /** A prefix `m` of a suffix `l` of `s`, where only white space precedes
      `l` and only white space follows `m` inside `l`, is a slice of `s` with
      only white space outside it. */
  lemma PrefixOfSuffix(s: string, l: string, m: string)
    requires |l| <= |s| && l == s[|s| - |l|..]
    requires |m| <= |l| && m == l[..|m|]
    requires forall k :: 0 <= k < |s| - |l| ==> IsSpace(s[k])
    requires forall k :: |m| <= k < |l| ==> IsSpace(l[k])
    ensures m == s[|s| - |l|..|s| - |l| + |m|]
    ensures AllSpace(s[..|s| - |l|]) && AllSpace(s[|s| - |l| + |m|..])
  {
    var i, j := |s| - |l|, |s| - |l| + |m|;
    assert forall k :: 0 <= k < i ==> s[..i][k] == s[k];
    assert forall k :: 0 <= k < |s| - j ==> s[j..][k] == l[|m| + k];
  }

  /** Removing one trailing carriage return never changes what TrimSpace keeps. */
  lemma {:induction false} TrimSpaceIgnoresCarriageReturn(s: string)
    ensures TrimSpace(s + "\r") == TrimSpace(s)
  {
    var t := s + "\r";
    if |s| > 0 && IsSpace(s[0]) {
      assert t[1..] == s[1..] + "\r";
      TrimSpaceIgnoresCarriageReturn(s[1..]);
      assert TrimLeft(t) == TrimLeft(t[1..]);
      assert TrimLeft(s) == TrimLeft(s[1..]);
    } else if |s| == 0 {
      assert TrimLeft(t) == TrimLeft(t[1..]);
      assert t[1..] == [];
    } else {
      assert TrimLeft(t) == t;
      assert TrimLeft(s) == s;
      assert t[..|t| - 1] == s;
      assert TrimRight(t) == TrimRight(s);
    }
  }

  /** The position of the first `c` in `s`, or -1 (bytes.IndexByte). */
  function IndexOf(s: string, c: char): (i: int)
    ensures -1 <= i < |s|
    ensures i == -1 <==> c !in s
    ensures i >= 0 ==> s[i] == c && c !in s[..i]
  {
    if |s| == 0 then -1
    else if s[0] == c then 0
    else
      var j := IndexOf(s[1..], c);
      assert c in s <==> c in s[1..];
      if j == -1 then -1
      else
        assert s[..j + 1] == [s[0]] + s[1..][..j];
        j + 1
  }

  /** The first `c` is at or before any position holding `c`. */
  lemma {:induction false} IndexOfAtMost(s: string, c: char, j: nat)
    requires j < |s| && s[j] == c
    ensures 0 <= IndexOf(s, c) <= j
    decreases j
  {
    if s[0] != c {
      IndexOfAtMost(s[1..], c, j - 1);
    }
  }

  /** The first `c` is not inside a prefix free of `c`. */
  lemma {:induction false} IndexOfAtLeast(s: string, c: char, n: nat)
    requires n <= |s| && c !in s[..n]
    ensures IndexOf(s, c) == -1 || IndexOf(s, c) >= n
    decreases n
  {
    if n > 0 {
      assert s[0] == s[..n][0];
      assert s[1..][..n - 1] == s[..n][1..];
      IndexOfAtLeast(s[1..], c, n - 1);
    }
  }

  /** Glues pieces back together with `sep` between neighbours (strings.Join). */
  function Join(pieces: seq<string>, sep: char): string
  {
    if |pieces| == 0 then []
    else if |pieces| == 1 then pieces[0]
    else pieces[0] + [sep] + Join(pieces[1..], sep)
  }

  /** strings.Split with a one-character separator: the maximal runs between
      separators, at least one piece even for the empty string. */
  function Split(s: string, sep: char): (r: seq<string>)
    ensures |r| >= 1
    ensures forall k :: 0 <= k < |r| ==> sep !in r[k]
    ensures sep !in s ==> r == [s]
    decreases |s|
  {
    var i := IndexOf(s, sep);
    if i == -1 then [s] else [s[..i]] + Split(s[i + 1..], sep)
  }

  /** Joining the pieces with the separator gives back the split string. */
  lemma {:induction false} JoinSplit(s: string, sep: char)
    ensures Join(Split(s, sep), sep) == s
    decreases |s|
  {
    var i := IndexOf(s, sep);
    if i != -1 {
      var head, tail := s[..i], s[i + 1..];
      var rest := Split(tail, sep);
      JoinSplit(tail, sep);
      JoinCons(head, rest, sep);
      SplitAround(s, i);
    }
  }

  lemma JoinCons(head: string, rest: seq<string>, sep: char)
    requires |rest| > 0
    ensures Join([head] + rest, sep) == head + [sep] + Join(rest, sep)
  {
    assert ([head] + rest)[1..] == rest;
  }

  lemma SplitAround(s: string, i: nat)
    requires i < |s|
    ensures s == s[..i] + [s[i]] + s[i + 1..]
  {
  }

  /** bufio's dropCR: one trailing carriage return is not part of a line. */
  function DropCR(s: string): (r: string)
    ensures s == r || s == r + "\r"
  {
    if |s| > 0 && s[|s| - 1] == '\r' then s[..|s| - 1] else s
  }

  /** The tokens `bufio.Scanner` with `bufio.ScanLines` returns for the
      complete input `data`: each line without its newline and without one
      trailing carriage return; the text after the last newline is a line
      only if it is non-empty. */
  function ScanLines(data: string): (lines: seq<string>)
    ensures forall k :: 0 <= k < |lines| ==> '\n' !in lines[k]
    ensures data == [] ==> lines == []
    decreases |data|
  {
    if |data| == 0 then []
    else
      var i := IndexOf(data, '\n');
      if i == -1 then [DropCR(data)]
      else
        assert '\n' !in DropCR(data[..i]) by {
          assert DropCR(data[..i]) == data[..i][..|DropCR(data[..i])|];
        }
        [DropCR(data[..i])] + ScanLines(data[i + 1..])
  }

  /** What the scanned lines are: the pieces between newlines, each without
      one trailing carriage return, except that the empty piece after a
      final newline (or of an empty input) is not a line. */
  lemma {:induction false} ScanLinesContents(data: string)
    ensures |ScanLines(data)| == |Split(data, '\n')| - (if LastPieceEmpty(data) then 1 else 0)
    ensures forall k :: 0 <= k < |ScanLines(data)| ==> ScanLines(data)[k] == DropCR(Split(data, '\n')[k])
    decreases |data|
  {
    if |data| > 0 {
      var i := IndexOf(data, '\n');
      if i == -1 {
        assert data[|data| - 1] in data;
        assert ScanLines(data) == [DropCR(data)];
        assert !LastPieceEmpty(data);
      } else {
        var tail := data[i + 1..];
        ScanLinesContents(tail);
        ScanLinesAround(data, i);
        SplitAroundNewline(data, i);
        var tl, tp := ScanLines(tail), Split(tail, '\n');
        LinesOfCons(data[..i], tl, tp);
        LastPieceAfterNewline(data, i);
      }
    }
  }

  /** The last piece Split gives is empty: the input is empty or ends in
      a newline. */
  predicate LastPieceEmpty(data: string) {
    data == [] || data[|data| - 1] == '\n'
  }

  /** The text after a newline has an empty last piece exactly when the
      whole text has. */
  lemma LastPieceAfterNewline(data: string, i: nat)
    requires i < |data| && data[i] == '\n'
    ensures LastPieceEmpty(data[i + 1..]) == LastPieceEmpty(data)
  {
    var tail := data[i + 1..];
    if tail != [] {
      assert tail[|tail| - 1] == data[|data| - 1];
    }
  }

  /** Putting a piece in front of the pieces and its line in front of the
      lines keeps each line the piece at its position without its CR. */
  lemma LinesOfCons(piece: string, tl: seq<string>, tp: seq<string>)
    requires |tl| <= |tp|
    requires forall k :: 0 <= k < |tl| ==> tl[k] == DropCR(tp[k])
    ensures forall k :: 0 <= k < |tl| + 1 ==> ([DropCR(piece)] + tl)[k] == DropCR(([piece] + tp)[k])
  {
  }

  /** The line scanner's reading of a text with its first newline at `i`:
      the line before it, then the lines of the text after it. */
  lemma ScanLinesAround(data: string, i: nat)
    requires |data| > 0 && i == IndexOf(data, '\n')
    ensures ScanLines(data) == [DropCR(data[..i])] + ScanLines(data[i + 1..])
  {
  }

  /** Split's reading of the same text: the piece before the first
      newline, then the pieces of the text after it. */
  lemma SplitAroundNewline(data: string, i: nat)
    requires |data| > 0 && i == IndexOf(data, '\n')
    ensures Split(data, '\n') == [data[..i]] + Split(data[i + 1..], '\n')
  {
  }
}
