/** The string operations the SIP and SDP code is written with, as Python has them
    on ASCII text, and what undoes what. */
module Text {
  import opened Prelude

  const CRLF: string := "\r\n"

  predicate IsSpace(c: char) {
    c == ' ' || '\t' <= c <= '\r' || (0x1C as char) <= c <= (0x1F as char)
  }

  predicate IsDigit(c: char) {
    '0' <= c <= '9'
  }

  predicate IsAscii(s: string) {
    forall i :: 0 <= i < |s| ==> s[i] as int < 0x80
  }

  /** No CRLF inside: a line that joining and splitting at CRLF leaves whole. */
  predicate Unbroken(s: string) {
    forall i :: 0 <= i < |s| - 1 && s[i] == '\r' ==> s[i + 1] != '\n'
  }

  function StripLeft(s: string): string {
    if s != [] && IsSpace(s[0]) then StripLeft(s[1..]) else s
  }

  function StripRight(s: string): string {
    if s != [] && IsSpace(Last(s)) then StripRight(Front(s)) else s
  }

  function Strip(s: string): string {
    StripRight(StripLeft(s))
  }

  lemma StripNothing(s: string)
    requires s == [] || (!IsSpace(s[0]) && !IsSpace(Last(s)))
    ensures Strip(s) == s
  {
  }

  function LowerChar(c: char): char {
    if 'A' <= c <= 'Z' then c + 32 as char else c
  }

  function Lower(s: string): (r: string)
    ensures |r| == |s| && forall i :: 0 <= i < |s| ==> r[i] == LowerChar(s[i])
  {
    seq(|s|, i requires 0 <= i < |s| => LowerChar(s[i]))
  }

  /** Where a character is first, or the length where it is not. */
  function IndexOf(s: string, c: char): (i: nat)
    ensures i <= |s|
    ensures i < |s| ==> s[i] == c
    ensures forall k :: 0 <= k < i ==> s[k] != c
  {
    if s == [] || s[0] == c then 0 else 1 + IndexOf(s[1..], c)
  }

  lemma IndexOfIs(s: string, c: char, i: nat)
    requires i < |s| && s[i] == c && forall k :: 0 <= k < i ==> s[k] != c
    ensures IndexOf(s, c) == i
  {
  }

  // ------------------------------------------------------------------ lines

  /** Where CRLF is first, or the length where it is not. */
  function LineEnd(s: string): (i: nat)
    ensures i <= |s|
    ensures i < |s| ==> i + 1 < |s| && s[i] == '\r' && s[i + 1] == '\n'
  {
    if s == [] then 0
    else if |s| >= 2 && s[0] == '\r' && s[1] == '\n' then 0
    else 1 + LineEnd(s[1..])
  }

  /** The pieces between CRLFs. */
  function SplitLines(s: string): (lines: seq<string>)
    ensures lines != []
    decreases |s|
  {
    var i := LineEnd(s);
    if i == |s| then [s] else [s[..i]] + SplitLines(s[i + 2..])
  }

  function JoinLines(lines: seq<string>): string
    requires lines != []
  {
    if |lines| == 1 then lines[0] else lines[0] + CRLF + JoinLines(lines[1..])
  }

  lemma {:induction false} LineEndAfter(line: string, rest: string)
    requires Unbroken(line)
    ensures LineEnd(line + CRLF + rest) == |line|
  {
    if line == [] {
      assert line + CRLF + rest == CRLF + rest;
    } else {
      LineEndAfter(line[1..], rest);
      assert (line + CRLF + rest)[1..] == line[1..] + CRLF + rest;
    }
  }

  lemma {:induction false} LineEndNone(line: string)
    requires Unbroken(line)
    ensures LineEnd(line) == |line|
  {
    if line != [] {
      LineEndNone(line[1..]);
    }
  }

  lemma SplitsOff(line: string, rest: string)
    requires Unbroken(line)
    ensures SplitLines(line + CRLF + rest) == [line] + SplitLines(rest)
  {
    LineEndAfter(line, rest);
    var s := line + CRLF + rest;
    assert s[..|line|] == line;
    assert s[|line| + 2..] == rest;
  }

  lemma JoinCons(line: string, lines: seq<string>)
    requires lines != []
    ensures JoinLines([line] + lines) == line + CRLF + JoinLines(lines)
  {
    assert ([line] + lines)[1..] == lines;
  }

  /** Lines joined are split into the same lines, whatever line breaks the last holds. */
  lemma {:induction false} SplitJoinedThen(lines: seq<string>, last: string)
    requires forall i :: 0 <= i < |lines| ==> Unbroken(lines[i])
    ensures SplitLines(JoinLines(lines + [last])) == lines + SplitLines(last)
  {
    if lines == [] {
      assert lines + [last] == [last];
      assert lines + SplitLines(last) == SplitLines(last);
    } else {
      var first, others := lines[0], lines[1..];
      SplitJoinedThen(others, last);
      JoinCons(first, others + [last]);
      SplitsOff(first, JoinLines(others + [last]));
      assert lines == [first] + others;
      Regroup([first], others, [last]);
      Regroup([first], others, SplitLines(last));
    }
  }

  lemma Regroup<T>(a: seq<T>, b: seq<T>, c: seq<T>)
    ensures a + b + c == a + (b + c)
  {
  }

  lemma SplitWhole(line: string)
    requires Unbroken(line)
    ensures SplitLines(line) == [line]
  {
    LineEndNone(line);
  }

  lemma SplitJoined(lines: seq<string>)
    requires lines != [] && forall i :: 0 <= i < |lines| ==> Unbroken(lines[i])
    ensures SplitLines(JoinLines(lines)) == lines
  {
    SplitJoinedThen(Front(lines), Last(lines));
    SplitWhole(Last(lines));
    FrontAndLast(lines);
  }

  /** What is split at CRLF holds none. */
  lemma {:induction false} SplitIsUnbroken(s: string)
    ensures forall i :: 0 <= i < |SplitLines(s)| ==> Unbroken(SplitLines(s)[i])
    decreases |s|
  {
    NoCrlfBefore(s);
    var end := LineEnd(s);
    if end < |s| {
      SplitIsUnbroken(s[end + 2..]);
    }
  }

  lemma {:induction false} NoCrlfBefore(s: string)
    ensures forall i :: 0 <= i < LineEnd(s) && i + 1 < |s| && s[i] == '\r' ==> s[i + 1] != '\n'
  {
    if s != [] && !(|s| >= 2 && s[0] == '\r' && s[1] == '\n') {
      NoCrlfBefore(s[1..]);
      forall i | 0 <= i < LineEnd(s) && i + 1 < |s| && s[i] == '\r' ensures s[i + 1] != '\n' {
        if i > 0 {
          assert s[i] == s[1..][i - 1] && s[i + 1] == s[1..][i];
        }
      }
    }
  }

  /** A stripped string is a piece of the original, without space at either end. */
  lemma {:induction false} StripLeftIs(s: string)
    ensures exists i :: 0 <= i <= |s| && StripLeft(s) == s[i..]
    ensures StripLeft(s) == [] || !IsSpace(StripLeft(s)[0])
  {
    if s != [] && IsSpace(s[0]) {
      StripLeftIs(s[1..]);
      var i :| 0 <= i <= |s[1..]| && StripLeft(s[1..]) == s[1..][i..];
      assert s[1..][i..] == s[i + 1..];
    } else {
      assert s[0..] == s;
    }
  }

  lemma {:induction false} StripRightIs(s: string)
    ensures |StripRight(s)| <= |s| && StripRight(s) == s[..|StripRight(s)|]
    ensures StripRight(s) == [] || !IsSpace(Last(StripRight(s)))
  {
    if s != [] && IsSpace(Last(s)) {
      StripRightIs(Front(s));
    }
  }

  lemma StripIs(s: string)
    ensures Strip(Strip(s)) == Strip(s)
    ensures Unbroken(s) ==> Unbroken(Strip(s))
  {
    StripLeftIs(s);
    StripRightIs(StripLeft(s));
    StripNothing(Strip(s));
  }

  // ------------------------------------------------------ space and spelling

  /** Nothing but space: the ten ASCII characters Python strips. */
  predicate Blank(s: string) {
    forall i :: 0 <= i < |s| ==> s[i] as int in {9, 10, 11, 12, 13, 28, 29, 30, 31, 32}
  }

  /** Neither begins nor ends with space. */
  predicate Edged(s: string) {
    s != "" ==> s[0] as int !in {9, 10, 11, 12, 13, 28, 29, 30, 31, 32}
                && Last(s) as int !in {9, 10, 11, 12, 13, 28, 29, 30, 31, 32}
  }

  lemma {:induction false} LeftStrips(a: string, s: string)
    requires Blank(a) && (s == "" || !IsSpace(s[0]))
    ensures StripLeft(a + s) == s
  {
    if a == "" {
      assert a + s == s;
    } else {
      LeftStrips(a[1..], s);
      assert (a + s)[0] == a[0] && (a + s)[1..] == a[1..] + s;
    }
  }

  lemma {:induction false} RightStrips(s: string, b: string)
    requires Blank(b) && (s == "" || !IsSpace(Last(s)))
    ensures StripRight(s + b) == s
  {
    if b == "" {
      assert s + b == s;
    } else {
      RightStrips(s, Front(b));
      assert Last(s + b) == Last(b) && Front(s + b) == s + Front(b);
      assert b[|b| - 1] == Last(b);
    }
  }

  /** Space around a text is what stripping takes away, all of it and nothing else. */
  lemma PaddedStrips(a: string, s: string, b: string)
    requires Blank(a) && Blank(b) && Edged(s)
    ensures Strip(a + s + b) == s
  {
    if s == "" {
      assert Blank(a + b) && a + s + b == (a + b) + "";
      LeftStrips(a + b, "");
    } else {
      assert a + s + b == a + (s + b);
      LeftStrips(a, s + b);
      RightStrips(s, b);
    }
  }

  /** Every letter of a word large or small. */
  predicate Spells(name: string, small: string, large: string) {
    |name| == |small| == |large| && forall i :: 0 <= i < |name| ==> name[i] == small[i] || name[i] == large[i]
  }

  /** A word in small letters, and the same in large ones. */
  predicate Cases(small: string, large: string) {
    && |small| == |large|
    && forall i :: 0 <= i < |small| ==>
         if 'a' <= small[i] <= 'z' then large[i] as int == small[i] as int - 32
         else large[i] == small[i] && !('A' <= small[i] <= 'Z')
  }

  lemma SpellsIff(name: string, small: string, large: string)
    requires Cases(small, large)
    ensures Lower(name) == small <==> Spells(name, small, large)
  {
    if |name| == |small| {
      forall i | 0 <= i < |name|
        ensures LowerChar(name[i]) == small[i] <==> name[i] == small[i] || name[i] == large[i]
      {
      }
    }
  }

  // ---------------------------------------------------------------- numbers

  function Digit(d: nat): char
    requires d < 10
  {
    '0' + d as char
  }

  function Decimal(n: nat): (s: string)
    ensures s != [] && forall i :: 0 <= i < |s| ==> IsDigit(s[i])
  {
    if n < 10 then [Digit(n)] else Decimal(n / 10) + [Digit(n % 10)]
  }

  /** Digits, with single underscores allowed between them. */
  function ParseDigits(s: string): (n: Option<int>)
    ensures n.Some? ==> n.value >= 0
  {
    if s == [] || !IsDigit(Last(s)) then None
    else
      var d := Last(s) as int - '0' as int;
      if |s| == 1 then Some(d)
      else
        var before := if s[|s| - 2] == '_' then s[..|s| - 2] else Front(s);
        match ParseDigits(before)
        case None => None
        case Some(n) => Some(10 * n + d)
  }

  /** `int` of a string without surrounding space: a sign may come first. */
  function ParseInt(s: string): Option<int> {
    if s != [] && (s[0] == '+' || s[0] == '-') then
      match ParseDigits(s[1..])
      case None => None
      case Some(n) => Some(if s[0] == '-' then -n else n)
    else
      match ParseDigits(s)
      case None => None
      case Some(n) => Some(n)
  }

  lemma {:induction false} DigitsReadBack(n: nat)
    ensures ParseDigits(Decimal(n)) == Some(n)
  {
    if n >= 10 {
      DigitsReadBack(n / 10);
      var s := Decimal(n);
      assert Front(s) == Decimal(n / 10);
      assert s[|s| - 2] == Last(Decimal(n / 10)) && IsDigit(s[|s| - 2]);
    }
  }

  lemma DecimalReadBack(n: nat)
    ensures ParseInt(Decimal(n)) == Some(n)
    ensures Strip(Decimal(n)) == Decimal(n)
  {
    DigitsReadBack(n);
    assert IsDigit(Decimal(n)[0]) && IsDigit(Last(Decimal(n)));
    StripNothing(Decimal(n));
  }

  /** A word of digits, and what it stands for. */
  predicate IsNumber(w: string) {
    w != "" && forall i :: 0 <= i < |w| ==> IsDigit(w[i])
  }

  function Value(w: string): nat
    requires forall i :: 0 <= i < |w| ==> IsDigit(w[i])
  {
    if w == "" then 0
    else
      assert IsDigit(Last(w));
      10 * Value(Front(w)) + (Last(w) as int - '0' as int)
  }

  lemma {:induction false} DecimalValue(n: nat)
    ensures IsNumber(Decimal(n)) && Value(Decimal(n)) == n
  {
    if n >= 10 {
      DecimalValue(n / 10);
      assert Front(Decimal(n)) == Decimal(n / 10);
    }
  }
}
