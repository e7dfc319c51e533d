/**
 * The few Python `str` builtins the bot applies to error texts: `strip()`,
 * `split('\n')` and `'\n'.join(...)`.
 */
module PyText {

  /** Python's `str.isspace()` for a single character. */
  predicate IsSpace(c: char) {
    var n := c as int;
    (9 <= n <= 13) || (28 <= n <= 32) || n == 0x85 || n == 0xA0 || n == 0x1680 ||
    (0x2000 <= n <= 0x200A) || n == 0x2028 || n == 0x2029 || n == 0x202F ||
    n == 0x205F || n == 0x3000
  }

  predicate AllSpace(s: string) {
    forall i :: 0 <= i < |s| ==> IsSpace(s[i])
  }

  /** `s.lstrip()`: a suffix of `s` that starts with a non-space, after only spaces were dropped. */
  function StripStart(s: string): (r: string)
    ensures |r| <= |s| && r == s[|s| - |r|..]
    ensures AllSpace(s[..|s| - |r|])
    ensures r == [] || !IsSpace(r[0])
  {
    if |s| > 0 && IsSpace(s[0]) then
      var r := StripStart(s[1..]);
      assert s[..|s| - |r|] == [s[0]] + s[1..][..|s| - 1 - |r|];
      r
    else s
  }

  /** `s.rstrip()`: a prefix of `s` that ends with a non-space, after only spaces were dropped. */
  function StripEnd(s: string): (r: string)
    ensures |r| <= |s| && r == s[..|r|]
    ensures AllSpace(s[|r|..])
    ensures r == [] || !IsSpace(r[|r| - 1])
  {
    if |s| > 0 && IsSpace(s[|s| - 1]) then
      var r := StripEnd(s[..|s| - 1]);
      assert s[|r|..] == s[..|s| - 1][|r|..] + [s[|s| - 1]];
      r
    else s
  }

  /** `s.strip()`: a slice of `s` with neither leading nor trailing whitespace. */
  function Strip(s: string): (r: string)
    ensures exists a, b :: 0 <= a <= b <= |s| && r == s[a..b]
    ensures r == [] || (!IsSpace(r[0]) && !IsSpace(r[|r| - 1]))
  {
    var t := StripStart(s);
    var r := StripEnd(t);
    assert r == s[|s| - |t|..|s| - |t| + |r|];
    r
  }

  /** `'\n'.join(lines)`. */
  function JoinLines(lines: seq<string>): string {
    if |lines| == 0 then ""
    else if |lines| == 1 then lines[0]
    else lines[0] + "\n" + JoinLines(lines[1..])
  }

  /** `s.split('\n')`: never empty, no piece holds a newline, and joining the pieces gives `s` back. */
  function SplitLines(s: string): (r: seq<string>)
    ensures |r| >= 1
    ensures forall i :: 0 <= i < |r| ==> '\n' !in r[i]
    ensures JoinLines(r) == s
  {
    if s == [] then [""]
    else if s[0] == '\n' then
      var rest := SplitLines(s[1..]);
      assert s == "\n" + s[1..];
      [""] + rest
    else
      var rest := SplitLines(s[1..]);
      var r := [[s[0]] + rest[0]] + rest[1..];
      assert r[1..] == rest[1..];
      assert JoinLines(r) == [s[0]] + JoinLines(rest) by {
        if |rest| > 1 {
          assert JoinLines(r) == r[0] + "\n" + JoinLines(rest[1..]);
        }
      }
      r
  }

  /** Splitting a join of newline-free lines gives the lines back. */
  lemma {:induction false} SplitJoin(lines: seq<string>)
    requires |lines| >= 1
    requires forall i :: 0 <= i < |lines| ==> '\n' !in lines[i]
    ensures SplitLines(JoinLines(lines)) == lines
  {
    if |lines| == 1 {
      NoNewlineSplitsToItself(lines[0]);
    } else {
      SplitJoin(lines[1..]);
      SplitAfterNewline(lines[0], JoinLines(lines[1..]));
    }
  }

  /** A newline-free text is a single line. */
  lemma {:induction false} NoNewlineSplitsToItself(s: string)
    requires '\n' !in s
    ensures SplitLines(s) == [s]
  {
    if s != [] {
      NoNewlineSplitsToItself(s[1..]);
      assert [s[0]] + s[1..] == s;
    }
  }

  /** A character other than a newline joins the first line. */
  lemma SplitConsChar(c: char, t: string)
    requires c != '\n'
    ensures var rest := SplitLines(t);
            SplitLines([c] + t) == [[c] + rest[0]] + rest[1..]
  {
    assert ([c] + t)[1..] == t;
  }

  /** The first line ends at the first newline. */
  lemma {:induction false} SplitAfterNewline(a: string, b: string)
    requires '\n' !in a
    ensures SplitLines(a + "\n" + b) == [a] + SplitLines(b)
  {
    if a == [] {
      assert a + "\n" + b == "\n" + b;
      assert ("\n" + b)[1..] == b;
    } else {
      var t := a[1..] + "\n" + b;
      SplitAfterNewline(a[1..], b);
      assert a + "\n" + b == [a[0]] + t;
      SplitConsChar(a[0], t);
      assert [a[0]] + a[1..] == a;
    }
  }

  /** Leading spaces are dropped and stripping stops at the first non-space. */
  lemma {:induction false} StripStartSkipsSpaces(w: string, t: string)
    requires AllSpace(w)
    requires t != [] && !IsSpace(t[0])
    ensures StripStart(w + t) == t
  {
    if w != [] {
      assert (w + t)[1..] == w[1..] + t;
      StripStartSkipsSpaces(w[1..], t);
    } else {
      assert w + t == t;
    }
  }

  /** Trailing spaces are dropped and stripping stops at the last non-space. */
  lemma {:induction false} StripEndSkipsSpaces(t: string, w: string)
    requires AllSpace(w)
    requires t != [] && !IsSpace(t[|t| - 1])
    ensures StripEnd(t + w) == t
  {
    if w != [] {
      assert (t + w)[..|t + w| - 1] == t + w[..|w| - 1];
      StripEndSkipsSpaces(t, w[..|w| - 1]);
    } else {
      assert t + w == t;
    }
  }

  /** Stripping text enclosed in whitespace gives the text back. */
  lemma StripEnclosed(lead: string, body: string, trail: string)
    requires AllSpace(lead) && AllSpace(trail)
    requires body != [] && !IsSpace(body[0]) && !IsSpace(body[|body| - 1])
    ensures Strip(lead + body + trail) == body
  {
    assert lead + body + trail == lead + (body + trail);
    StripStartSkipsSpaces(lead, body + trail);
    StripEndSkipsSpaces(body, trail);
  }

  /** A join of lines starts with the first line and ends with the last. */
  lemma {:induction false} JoinLinesEnds(lines: seq<string>)
    requires |lines| >= 1
    ensures var s := JoinLines(lines);
            |s| >= |lines[0]| && s[..|lines[0]|] == lines[0] &&
            |s| >= |lines[|lines| - 1]| && s[|s| - |lines[|lines| - 1]|..] == lines[|lines| - 1]
  {
    if |lines| > 1 {
      JoinLinesEnds(lines[1..]);
      var rest := JoinLines(lines[1..]);
      assert JoinLines(lines) == lines[0] + ("\n" + rest);
    }
  }

  /** A text without a newline stays without one when stripped. */
  lemma StripKeepsOneLine(s: string)
    requires '\n' !in s
    ensures '\n' !in Strip(s)
  {
    var a, b :| 0 <= a <= b <= |s| && Strip(s) == s[a..b];
  }
}
