/** The JavaScript string operations the renderer relies on: `split('\n')`, `trim()`,
    `startsWith` and number-to-string conversion inside template literals. */
module Strings {

  /** `text.split('\n')`: the pieces between line feeds, in order; never empty. */
  function Split(s: string): (lines: seq<string>)
    ensures |lines| >= 1
  {
    if s == [] then [""]
    else
      var rest := Split(s[1..]);
      assert s == [s[0]] + s[1..];
      if s[0] == '\n' then [""] + rest
      else [[s[0]] + rest[0]] + rest[1..]
  }

  /** No piece contains a line feed. */
  lemma {:induction false} SplitPieces(s: string)
    ensures forall i :: 0 <= i < |Split(s)| ==> '\n' !in Split(s)[i]
  {
    if s != [] {
      SplitPieces(s[1..]);
      var rest := Split(s[1..]);
      assert s == [s[0]] + s[1..];
      if s[0] != '\n' {
        assert forall i :: 1 <= i < |Split(s)| ==> Split(s)[i] == rest[i];
      }
    }
  }

  /** There is one more line than there are line feeds. */
  lemma {:induction false} SplitCount(s: string)
    ensures |Split(s)| == multiset(s)['\n'] + 1
  {
    if s != [] {
      SplitCount(s[1..]);
      assert s == [s[0]] + s[1..];
      assert multiset(s) == multiset{s[0]} + multiset(s[1..]);
    }
  }

  /** `lines.join('\n')`, the inverse of Split. */
  function Join(lines: seq<string>): string
    requires |lines| >= 1
  {
    if |lines| == 1 then lines[0] else lines[0] + "\n" + Join(lines[1..])
  }

  /** Re-joining the lines of a text with line feeds gives the text back. */
  lemma {:induction false} JoinSplit(s: string)
    ensures Join(Split(s)) == s
  {
    if s != [] {
      var rest := Split(s[1..]);
      JoinSplit(s[1..]);
      if s[0] == '\n' {
        JoinAfterBreak(rest);
        assert "\n" + s[1..] == s;
      } else {
        JoinAfterChar(s[0], rest);
        assert [s[0]] + s[1..] == s;
      }
    }
  }

  /** Putting an empty line before some lines puts a line feed before their join. */
  lemma JoinAfterBreak(rest: seq<string>)
    requires |rest| >= 1
    ensures Join([""] + rest) == "\n" + Join(rest)
  {
    var lines := [""] + rest;
    assert lines[0] == "" && lines[1..] == rest;
  }

  /** Putting a character at the front of the first line puts it at the front of the join. */
  lemma JoinAfterChar(c: char, rest: seq<string>)
    requires |rest| >= 1
    ensures Join([[c] + rest[0]] + rest[1..]) == [c] + Join(rest)
  {
    var lines := [[c] + rest[0]] + rest[1..];
    assert lines[0] == [c] + rest[0] && lines[1..] == rest[1..];
    if |rest| > 1 {
      var tail := Join(rest[1..]);
      assert Join(rest) == rest[0] + "\n" + tail;
      assert Join(lines) == [c] + rest[0] + "\n" + tail;
      ConcatAssoc(c, rest[0], tail);
    }
  }

  lemma ConcatAssoc(c: char, a: string, b: string)
    ensures [c] + a + "\n" + b == [c] + (a + "\n" + b)
  {
  }

  /** Splitting a join of line-feed-free lines gives the same lines back. */
  lemma {:induction false} SplitJoin(lines: seq<string>)
    requires |lines| >= 1
    requires forall i :: 0 <= i < |lines| ==> '\n' !in lines[i]
    ensures Split(Join(lines)) == lines
  {
    if |lines| == 1 {
      SplitNoBreak(lines[0]);
    } else {
      SplitJoin(lines[1..]);
      SplitAfterLine(lines[0], Join(lines[1..]));
      assert [lines[0]] + lines[1..] == lines;
    }
  }

  /** A text without line feeds is a single line. */
  lemma {:induction false} SplitNoBreak(s: string)
    requires '\n' !in s
    ensures Split(s) == [s]
  {
    if s != [] {
      SplitNoBreak(s[1..]);
      assert [s[0]] + s[1..] == s;
    }
  }

  /** Splitting `a + "\n" + b` yields `a` followed by the lines of `b`. */
  lemma {:induction false} SplitAfterLine(a: string, b: string)
    requires '\n' !in a
    ensures Split(a + "\n" + b) == [a] + Split(b)
  {
    var s := a + "\n" + b;
    if a == [] {
      assert s[0] == '\n' && s[1..] == b;
    } else {
      SplitAfterLine(a[1..], b);
      assert s[0] == a[0] && s[1..] == a[1..] + "\n" + b;
      var rest := Split(s[1..]);
      assert rest[0] == a[1..] && rest[1..] == Split(b);
      assert [a[0]] + a[1..] == a;
    }
  }

  /** Two line-feed-free texts joined by one line feed split into exactly those two lines. */
  lemma SplitTwoLines(a: string, b: string)
    requires '\n' !in a && '\n' !in b
    ensures Split(a + "\n" + b) == [a, b]
  {
    SplitAfterLine(a, b);
    SplitNoBreak(b);
  }

  /** The characters `String.prototype.trim` removes: ECMAScript white space and line terminators. */
  predicate IsWhitespace(c: char) {
    c == ' ' || c == '\t' || c == '\n' || c == '\r' || c == '\U{B}' || c == '\U{C}'
    || c == '\U{A0}' || c == '\U{1680}' || ('\U{2000}' <= c <= '\U{200A}')
    || c == '\U{2028}' || c == '\U{2029}' || c == '\U{202F}' || c == '\U{205F}'
    || c == '\U{3000}' || c == '\U{FEFF}'
  }

  function TrimStart(s: string): string {
    if s != [] && IsWhitespace(s[0]) then TrimStart(s[1..]) else s
  }

  function TrimEnd(s: string): string {
    if s != [] && IsWhitespace(s[|s| - 1]) then TrimEnd(s[..|s| - 1]) else s
  }

  /** `s.trim()`. */
  function Trim(s: string): string {
    TrimEnd(TrimStart(s))
  }

  /** A trimmed string is empty exactly when every character of the original is white space. */
  lemma {:induction false} TrimEmptyIffBlank(s: string)
    ensures |Trim(s)| == 0 <==> forall i :: 0 <= i < |s| ==> IsWhitespace(s[i])
  {
    TrimStartBlank(s);
    TrimEndEmpty(TrimStart(s));
  }

  lemma {:induction false} TrimStartBlank(s: string)
    ensures TrimStart(s) == [] <==> forall i :: 0 <= i < |s| ==> IsWhitespace(s[i])
    ensures TrimStart(s) != [] ==> !IsWhitespace(TrimStart(s)[0])
  {
    if s != [] && IsWhitespace(s[0]) {
      TrimStartBlank(s[1..]);
      assert forall i :: 1 <= i < |s| ==> s[i] == s[1..][i - 1];
    }
  }

  lemma {:induction false} TrimEndEmpty(s: string)
    requires s != [] ==> !IsWhitespace(s[0])
    ensures TrimEnd(s) == [] <==> s == []
  {
    if s != [] && IsWhitespace(s[|s| - 1]) {
      assert |s| > 1;
      TrimEndEmpty(s[..|s| - 1]);
    }
  }

  /** `s.startsWith('#')`. */
  predicate StartsWithHash(s: string) {
    |s| > 0 && s[0] == '#'
  }

  /** The decimal digit character for `d`. */
  function Digit(d: nat): char
    requires d < 10
  {
    ('0' as int + d) as char
  }

  function DigitString(n: nat): (r: string)
    ensures |r| >= 1
  {
    if n < 10 then [Digit(n)] else DigitString(n / 10) + [Digit(n % 10)]
  }

  /** The decimal text of an integer, as a template literal prints it. */
  function IntToString(n: int): string {
    if n < 0 then "-" + DigitString(-n) else DigitString(n)
  }

  predicate IsDigits(s: string) {
    forall i :: 0 <= i < |s| ==> '0' <= s[i] <= '9'
  }

  /** The number a run of decimal digits denotes, as `parseInt(s, 10)` reads it. */
  function DigitsValue(s: string): nat
    requires IsDigits(s)
  {
    if s == [] then 0 else DigitsValue(s[..|s| - 1]) * 10 + (s[|s| - 1] as int - '0' as int)
  }

  /** The digits of `n` are decimal digits without a leading zero, and read back as `n`. */
  lemma {:induction false} DigitStringValue(n: nat)
    ensures IsDigits(DigitString(n))
    ensures |DigitString(n)| > 1 ==> DigitString(n)[0] != '0'
    ensures DigitsValue(DigitString(n)) == n
  {
    var r := DigitString(n);
    if n >= 10 {
      var front := DigitString(n / 10);
      DigitStringValue(n / 10);
      assert r == front + [Digit(n % 10)];
      assert r[..|r| - 1] == front;
      assert r[0] == front[0];
      assert DigitsValue(r) == DigitsValue(front) * 10 + n % 10;
    }
  }

  /** The decimal text of an integer is a minus sign for a negative number followed by the
      digits of its magnitude, and those digits read back as the magnitude. */
  lemma IntToStringValue(n: int)
    ensures var t := IntToString(n);
      if n < 0 then t[0] == '-' && IsDigits(t[1..]) && DigitsValue(t[1..]) == -n
      else IsDigits(t) && DigitsValue(t) == n
  {
    if n < 0 {
      DigitStringValue(-n);
      assert IntToString(n)[1..] == DigitString(-n);
    } else {
      DigitStringValue(n);
    }
  }

  /** The CSS font shorthand `<size>px "<family>"` the renderer assigns to `ctx.font`. */
  function FontCss(size: int, family: string): string {
    IntToString(size) + "px \"" + family + "\""
  }
}
