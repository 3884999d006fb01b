/**
 * The pieces of Go's text handling that the generation core relies on:
 * the `%q` verb of `fmt` (which is `strconv.Quote`), `strings.Trim` with the
 * cutset `"`, and `strings.Split` on a newline, used here to describe the
 * line layout of generated text.
 */
module GoText {
  import opened Wrappers

  // ---------------------------------------------------------------------------
  // Quoting, as `fmt.Sprintf("%q", s)` does it
  // ---------------------------------------------------------------------------

  /** The lower-case hexadecimal digit for 0 <= n < 16. */
  function HexDigit(n: int): (d: char)
    requires 0 <= n < 16
    ensures IsHexDigit(d) && HexValue(d) == n
  {
    if n < 10 then ('0' as int + n) as char else ('a' as int + n - 10) as char
  }

  predicate IsHexDigit(d: char) {
    ('0' <= d <= '9') || ('a' <= d <= 'f')
  }

  function HexValue(d: char): (n: int)
    requires IsHexDigit(d)
    ensures 0 <= n < 16
  {
    if '0' <= d <= '9' then d as int - '0' as int else d as int - 'a' as int + 10
  }

  /** The ASCII characters that `strconv.Quote` does not copy as they are. */
  predicate NeedsEscape(c: char) {
    c == '"' || c == '\\' || c < ' ' || c as int == 0x7F
  }

  /**
   * How `strconv.Quote` writes one character: a backslash before `"` and `\`,
   * the short escapes for the seven C control characters, `\xHH` for the other
   * ASCII control characters, and every other character as it is.
   */
  function EscapeChar(c: char): (r: string)
    ensures NeedsEscape(c) <==> r != [c]
    ensures '\n' !in r
  {
    if c == '"' then "\\\""
    else if c == '\\' then "\\\\"
    else if c as int == 0x07 then "\\a"
    else if c as int == 0x08 then "\\b"
    else if c as int == 0x0C then "\\f"
    else if c == '\n' then "\\n"
    else if c == '\r' then "\\r"
    else if c == '\t' then "\\t"
    else if c as int == 0x0B then "\\v"
    else if c < ' ' || c as int == 0x7F then ['\\', 'x', HexDigit(c as int / 16), HexDigit(c as int % 16)]
    else [c]
  }

  /** The body of a Go string literal for `s`, without the surrounding quotes. */
  function Escape(s: string): string
  {
    if s == [] then [] else EscapeChar(s[0]) + Escape(s[1..])
  }

  /** `fmt.Sprintf("%q", s)`: a double-quoted Go string literal denoting `s`. */
  function Quote(s: string): (r: string)
    ensures |r| >= 2 && r[0] == '"' && r[|r| - 1] == '"'
  {
    "\"" + Escape(s) + "\""
  }

  /** Each string quoted, in order. */
  function QuoteAll(xs: seq<string>): (r: seq<string>)
    ensures |r| == |xs| && forall i :: 0 <= i < |xs| ==> r[i] == Quote(xs[i])
  {
    seq(|xs|, i requires 0 <= i < |xs| => Quote(xs[i]))
  }

  // ---------------------------------------------------------------------------
  // The inverse of Quote: `strconv.Unquote`, restricted to the escapes above
  // ---------------------------------------------------------------------------

  function Cons(c: char, rest: Option<string>): Option<string>
  {
    match rest
    case Some(s) => Some([c] + s)
    case None => None
  }

  /** Decodes the body of a double-quoted literal; None when it is malformed. */
  function Unescape(t: string): Option<string>
    decreases |t|
  {
    if t == [] then Some([])
    else if t[0] == '"' || t[0] == '\n' then None
    else if t[0] != '\\' then Cons(t[0], Unescape(t[1..]))
    else if |t| < 2 then None
    else match t[1]
      case '"' => Cons('"', Unescape(t[2..]))
      case '\\' => Cons('\\', Unescape(t[2..]))
      case 'a' => Cons(0x07 as char, Unescape(t[2..]))
      case 'b' => Cons(0x08 as char, Unescape(t[2..]))
      case 'f' => Cons(0x0C as char, Unescape(t[2..]))
      case 'n' => Cons('\n', Unescape(t[2..]))
      case 'r' => Cons('\r', Unescape(t[2..]))
      case 't' => Cons('\t', Unescape(t[2..]))
      case 'v' => Cons(0x0B as char, Unescape(t[2..]))
      case 'x' =>
        if |t| >= 4 && IsHexDigit(t[2]) && IsHexDigit(t[3])
        then Cons((HexValue(t[2]) * 16 + HexValue(t[3])) as char, Unescape(t[4..]))
        else None
      case _ => None
  }

  /** Reads back a double-quoted literal; None when `q` is not one. */
  function Unquote(q: string): Option<string>
  {
    if |q| >= 2 && q[0] == '"' && q[|q| - 1] == '"' then Unescape(q[1..|q| - 1]) else None
  }

  lemma UnescapeEscapeChar(c: char, rest: string)
    ensures Unescape(EscapeChar(c) + rest) == Cons(c, Unescape(rest))
  {
    var e := EscapeChar(c);
    var t := e + rest;
    assert t[|e|..] == rest;
    if c < ' ' || c as int == 0x7F {
      var n := c as int;
      if |e| == 4 {
        assert n / 16 * 16 + n % 16 == n;
        assert (HexValue(t[2]) * 16 + HexValue(t[3])) as char == c;
      }
    }
  }

  lemma {:induction false} UnescapeEscape(s: string)
    ensures Unescape(Escape(s)) == Some(s)
  {
    if s != [] {
      UnescapeEscapeChar(s[0], Escape(s[1..]));
      UnescapeEscape(s[1..]);
      assert [s[0]] + s[1..] == s;
    }
  }

  /** Quoting loses nothing: Unquote gives back exactly the quoted string. */
  lemma QuoteRoundTrip(s: string)
    ensures Unquote(Quote(s)) == Some(s)
  {
    var q := Quote(s);
    assert q[1..|q| - 1] == Escape(s);
    UnescapeEscape(s);
  }

  /** Distinct strings have distinct quoted forms. */
  lemma QuoteInjective(a: string, b: string)
    ensures Quote(a) == Quote(b) ==> a == b
  {
    QuoteRoundTrip(a);
    QuoteRoundTrip(b);
  }

  lemma {:induction false} EscapeHasNoNewline(s: string)
    ensures '\n' !in Escape(s)
  {
    if s != [] {
      EscapeHasNoNewline(s[1..]);
    }
  }

  /** A quoted string is always one line of text. */
  lemma QuoteHasNoNewline(s: string)
    ensures '\n' !in Quote(s)
  {
    EscapeHasNoNewline(s);
  }

  predicate Plain(s: string) {
    forall i :: 0 <= i < |s| ==> !NeedsEscape(s[i])
  }

  lemma {:induction false} EscapePlain(s: string)
    requires Plain(s)
    ensures Escape(s) == s
  {
    if s != [] {
      EscapePlain(s[1..]);
      assert [s[0]] + s[1..] == s;
    }
  }

  // ---------------------------------------------------------------------------
  // strings.Trim(s, `"`)
  // ---------------------------------------------------------------------------

  /** Drops every leading `"`. */
  function TrimLeftQuotes(s: string): (r: string)
    ensures |r| <= |s| && r == s[|s| - |r|..]
    ensures forall i :: 0 <= i < |s| - |r| ==> s[i] == '"'
    ensures r == [] || r[0] != '"'
  {
    if s != [] && s[0] == '"' then
      var r := TrimLeftQuotes(s[1..]);
      assert s[1..][|s| - 1 - |r|..] == s[|s| - |r|..];
      assert forall i :: 1 <= i < |s| - |r| ==> s[i] == s[1..][i - 1];
      r
    else s
  }

  /** Drops every trailing `"`. */
  function TrimRightQuotes(s: string): (r: string)
    ensures |r| <= |s| && r == s[..|r|]
    ensures forall i :: |r| <= i < |s| ==> s[i] == '"'
    ensures r == [] || r[|r| - 1] != '"'
  {
    if s != [] && s[|s| - 1] == '"' then
      var r := TrimRightQuotes(s[..|s| - 1]);
      assert s[..|s| - 1][..|r|] == s[..|r|];
      r
    else s
  }

  /**
   * `strings.Trim(s, "\"")`: the middle of `s` left once every leading and
   * every trailing `"` is removed.
   */
  function TrimQuotes(s: string): (r: string)
    ensures |r| <= |s|
    ensures r == [] || (r[0] != '"' && r[|r| - 1] != '"')
  {
    TrimRightQuotes(TrimLeftQuotes(s))
  }

  /**
   * What `strings.Trim(s, "\"")` keeps is a contiguous middle of `s`: every
   * character before it and every character after it is a `"`.
   */
  lemma TrimQuotesMiddle(s: string)
    ensures var r := TrimQuotes(s);
      var k := |s| - |TrimLeftQuotes(s)|;
      && k + |r| <= |s|
      && r == s[k..k + |r|]
      && (forall i :: 0 <= i < k ==> s[i] == '"')
      && (forall i :: k + |r| <= i < |s| ==> s[i] == '"')
  {
    var l := TrimLeftQuotes(s);
    var r := TrimRightQuotes(l);
    var k := |s| - |l|;
    assert l == s[k..];
    assert r == l[..|r|];
    forall i | k + |r| <= i < |s| ensures s[i] == '"' {
      assert s[i] == l[i - k];
    }
  }

  /**
   * A literal that the generators write for a plain import path is read back,
   * by trimming its quotes, as that same path.
   */
  lemma TrimQuotesOfQuote(s: string)
    requires Plain(s)
    ensures TrimQuotes(Quote(s)) == s
  {
    EscapePlain(s);
    var q := Quote(s);
    assert q == ['"'] + s + ['"'];
    assert q[1..] == s + ['"'];
    if s == [] {
      assert TrimLeftQuotes(q[1..][1..]) == [];
    } else {
      var u := s + ['"'];
      assert q[1..] == u && u[0] == s[0] != '"';
      assert TrimLeftQuotes(q) == u;
      assert u[..|u| - 1] == s && s[|s| - 1] != '"';
      assert TrimRightQuotes(u) == TrimRightQuotes(s) == s;
    }
  }

  // ---------------------------------------------------------------------------
  // strings.Split(s, "\n") and strings.Join(lines, "\n")
  // ---------------------------------------------------------------------------

  /** The lines of `s`: its pieces between newlines, as `strings.Split(s, "\n")`. */
  function SplitLines(s: string): (r: seq<string>)
    ensures |r| >= 1
    ensures forall i :: 0 <= i < |r| ==> '\n' !in r[i]
  {
    if s == [] then [[]]
    else
      var rest := SplitLines(s[1..]);
      if s[0] == '\n' then [[]] + rest else [[s[0]] + rest[0]] + rest[1..]
  }

  /** The lines joined with newlines, as `strings.Join(lines, "\n")`. */
  function JoinLines(lines: seq<string>): string
  {
    if |lines| == 0 then ""
    else if |lines| == 1 then lines[0]
    else lines[0] + "\n" + JoinLines(lines[1..])
  }

  predicate NoNewlines(lines: seq<string>) {
    forall i :: 0 <= i < |lines| ==> '\n' !in lines[i]
  }

  /** Joining two texts with a newline joins their lists of lines. */
  lemma {:induction false} SplitLinesConcat(a: string, b: string)
    ensures SplitLines(a + "\n" + b) == SplitLines(a) + SplitLines(b)
  {
    if a == [] {
      assert a + "\n" + b == "\n" + b;
      assert ("\n" + b)[1..] == b;
    } else {
      var t := a + "\n" + b;
      assert t[0] == a[0] && t[1..] == a[1..] + "\n" + b;
      SplitLinesConcat(a[1..], b);
    }
  }

  lemma {:induction false} SplitLinesOfLine(a: string)
    requires '\n' !in a
    ensures SplitLines(a) == [a]
  {
    if a != [] {
      SplitLinesOfLine(a[1..]);
      assert [a[0]] + a[1..] == a;
    }
  }

  /** A text that starts with a line `a` splits into `a` and the lines of the rest. */
  lemma SplitLinesCons(a: string, b: string)
    requires '\n' !in a
    ensures SplitLines(a + "\n" + b) == [a] + SplitLines(b)
  {
    SplitLinesConcat(a, b);
    SplitLinesOfLine(a);
  }

  /** Text put before `s` without a newline extends the first line of `s`. */
  lemma {:induction false} SplitLinesPrefix(a: string, s: string)
    requires '\n' !in a
    ensures SplitLines(a + s) == [a + SplitLines(s)[0]] + SplitLines(s)[1..]
  {
    if a == [] {
      assert a + s == s && a + SplitLines(s)[0] == SplitLines(s)[0];
      assert [SplitLines(s)[0]] + SplitLines(s)[1..] == SplitLines(s);
    } else {
      assert (a + s)[1..] == a[1..] + s;
      SplitLinesPrefix(a[1..], s);
      assert [a[0]] + (a[1..] + SplitLines(s)[0]) == a + SplitLines(s)[0];
    }
  }

  lemma {:induction false} JoinLinesAppend(xs: seq<string>, ys: seq<string>)
    requires |xs| >= 1 && |ys| >= 1
    ensures JoinLines(xs + ys) == JoinLines(xs) + "\n" + JoinLines(ys)
  {
    if |xs| > 1 {
      assert (xs + ys)[1..] == xs[1..] + ys;
      JoinLinesAppend(xs[1..], ys);
    }
  }

  /** Lines without newlines, joined and split again, are the same lines. */
  lemma {:induction false} SplitJoinLines(lines: seq<string>)
    requires |lines| >= 1 && NoNewlines(lines)
    ensures SplitLines(JoinLines(lines)) == lines
  {
    if |lines| == 1 {
      SplitLinesOfLine(lines[0]);
    } else {
      SplitJoinLines(lines[1..]);
      SplitLinesCons(lines[0], JoinLines(lines[1..]));
    }
  }

  /** Splitting a text into lines and joining them again gives the text back. */
  lemma {:induction false} JoinSplitLines(s: string)
    ensures JoinLines(SplitLines(s)) == s
  {
    if s != [] {
      JoinSplitLines(s[1..]);
      var rest := SplitLines(s[1..]);
      if s[0] == '\n' {
        assert s == "" + "\n" + s[1..];
      } else {
        if |rest| > 1 {
          assert JoinLines(rest) == rest[0] + "\n" + JoinLines(rest[1..]);
          assert ([[s[0]] + rest[0]] + rest[1..])[1..] == rest[1..];
        }
        assert [s[0]] + s[1..] == s;
      }
    }
  }

  /**
   * Splitting lines `before + [mid] + after`, newline-free except `mid`,
   * gives `before`, the lines of `mid`, then `after`.
   */
  lemma SplitJoinAround(before: seq<string>, mid: string, after: seq<string>)
    requires |before| >= 1 && |after| >= 1
    requires NoNewlines(before) && NoNewlines(after)
    ensures SplitLines(JoinLines(before + [mid] + after)) == before + SplitLines(mid) + after
  {
    var jb := JoinLines(before);
    var ja := JoinLines(after);
    JoinLinesAppend([mid], after);
    assert JoinLines([mid]) == mid;
    var tail := mid + "\n" + ja;
    assert JoinLines([mid] + after) == tail;
    JoinLinesAppend(before, [mid] + after);
    assert before + [mid] + after == before + ([mid] + after);
    assert JoinLines(before + [mid] + after) == jb + "\n" + tail;
    SplitLinesConcat(jb, tail);
    SplitLinesConcat(mid, ja);
    SplitJoinLines(before);
    SplitJoinLines(after);
  }
}
