/** Messages of other implementations (bridge/sip_messages.py): header lines with any space
    around the name and the value, and the name in any spelling. What is said here is said
    about the characters of a line, not about how it is taken apart. */
module Foreign {
  import opened Prelude
  import opened Text
  import opened Framing
  import opened Requests
  import opened Headers

  // ----------------------------------------------------------- the length

  /** The two names a length goes by. */
  predicate SpellsLength(name: string) {
    Spells(name, "content-length", "CONTENT-LENGTH") || name == "l" || name == "L"
  }

  /** A line with a name in front of its first colon, and a text behind it. */
  function NamedLine(a: string, name: string, b: string, after: string): string {
    a + name + b + ":" + after
  }

  predicate Nameable(a: string, name: string, b: string) {
    Blank(a) && Blank(b) && Edged(name) && ':' !in name
  }

  lemma NamedLineSplits(a: string, name: string, b: string, after: string)
    requires Nameable(a, name, b)
    ensures var line := NamedLine(a, name, b, after);
      && IndexOf(line, ':') == |a + name + b| < |line| && line[..|a + name + b|] == a + name + b
      && line[|a + name + b| + 1..] == after && Strip(a + name + b) == name
  {
    var line, before := NamedLine(a, name, b, after), a + name + b;
    forall k | 0 <= k < |before| ensures line[k] != ':' {
      assert line[k] == before[k];
      assert before[k] in a || before[k] in name || before[k] in b;
    }
    assert line[|before|] == ':';
    IndexOfIs(line, ':', |before|);
    PaddedStrips(a, name, b);
  }

  /** A line announces a length if and only if its name is one of the two, in any letters
      and with any space around it; a line without a colon announces none. */
  lemma AnnouncesIff(a: string, name: string, b: string, after: string)
    requires Nameable(a, name, b)
    ensures AnnouncesLength(NamedLine(a, name, b, after)) <==> SpellsLength(name)
  {
    NamedLineSplits(a, name, b, after);
    SpellsIff(name, "content-length", "CONTENT-LENGTH");
    SpellsIff(name, "l", "L");
  }

  lemma NoColonNoLength(line: string)
    requires ':' !in line
    ensures !AnnouncesLength(line)
  {
  }

  /** Digits, with a single underscore allowed between two of them. */
  predicate Grouped(w: string) {
    && w != "" && IsDigit(w[0]) && IsDigit(Last(w))
    && (forall i :: 0 <= i < |w| ==> IsDigit(w[i]) || w[i] == '_')
    && (forall i :: 0 < i < |w| && w[i] == '_' ==> w[i - 1] != '_')
  }

  function DigitsIn(w: string): (d: string)
    ensures forall i :: 0 <= i < |d| ==> IsDigit(d[i])
  {
    if w == "" then ""
    else DigitsIn(Front(w)) + if IsDigit(Last(w)) then [Last(w)] else ""
  }

  lemma DigitsSnoc(w: string, c: char)
    ensures DigitsIn(w + [c]) == DigitsIn(w) + if IsDigit(c) then [c] else ""
  {
    assert Front(w + [c]) == w;
  }

  lemma GroupedEnd(w: string)
    requires |w| >= 2 && IsDigit(Last(w))
    ensures var before := if w[|w| - 2] == '_' then w[..|w| - 2] else Front(w);
      && (Grouped(w) <==> Grouped(before))
      && DigitsIn(w) == DigitsIn(before) + [Last(w)]
  {
    var n := |w|;
    assert w == Front(w) + [Last(w)];
    if w[n - 2] == '_' {
      assert Front(w) == w[..n - 2] + ['_'];
      DigitsSnoc(w[..n - 2], '_');
      if Grouped(w) {
        assert w[n - 3] != '_';
        assert Last(w[..n - 2]) == w[n - 3];
      }
    } else {
      if Grouped(w) {
        assert Last(Front(w)) == w[n - 2];
      }
    }
  }

  /** What reads as a number, and as which. */
  lemma {:induction false} DigitsReadIff(w: string)
    ensures ParseDigits(w) == if Grouped(w) then Some(Value(DigitsIn(w))) else None
  {
    if w != "" && IsDigit(Last(w)) {
      if |w| == 1 {
        assert w == [w[0]] && DigitsIn(w) == DigitsIn("") + [w[0]];
        assert Front(w) == "";
      } else {
        var before := if w[|w| - 2] == '_' then w[..|w| - 2] else Front(w);
        GroupedEnd(w);
        DigitsReadIff(before);
        assert Front(DigitsIn(before) + [Last(w)]) == DigitsIn(before);
      }
    }
  }

  lemma {:induction false} NumberIsGrouped(w: string)
    requires IsNumber(w)
    ensures Grouped(w) && DigitsIn(w) == w
  {
    if |w| == 1 {
      assert Front(w) == "";
    } else {
      NumberIsGrouped(Front(w));
    }
    assert w == Front(w) + [Last(w)];
  }

  /** What a value announces: digits, with a plus sign or underscores at most; anything
      else, and anything negative, counts as nothing. */
  function Announced(w: string): nat {
    if Grouped(w) then Value(DigitsIn(w))
    else if w != "" && w[0] == '+' && Grouped(w[1..]) then Value(DigitsIn(w[1..]))
    else 0
  }

  lemma LengthReads(a: string, name: string, b: string, c: string, w: string, d: string)
    requires Nameable(a, name, b) && SpellsLength(name) && Blank(c) && Blank(d) && Edged(w)
    ensures AnnouncesLength(NamedLine(a, name, b, c + w + d))
    ensures AnnouncedLength(NamedLine(a, name, b, c + w + d)) == Announced(w)
  {
    AnnouncesIff(a, name, b, c + w + d);
    NamedLineSplits(a, name, b, c + w + d);
    PaddedStrips(c, w, d);
    DigitsReadIff(w);
    if w != "" {
      DigitsReadIff(w[1..]);
      assert !IsDigit('+') && !IsDigit('-');
    }
  }

  lemma {:induction false} FirstLengthCounts(before: seq<string>, line: string, after: seq<string>)
    requires AnnouncesLength(line) && forall i :: 0 <= i < |before| ==> !AnnouncesLength(before[i])
    ensures LengthIn(before + [line] + after) == AnnouncedLength(line)
  {
    if before == [] {
      assert before + [line] + after == [line] + after;
    } else {
      FirstLengthCounts(before[1..], line, after);
      assert (before + [line] + after)[1..] == before[1..] + [line] + after;
    }
  }

  lemma {:induction false} NoLengthCounts(lines: seq<string>)
    requires forall i :: 0 <= i < |lines| ==> !AnnouncesLength(lines[i])
    ensures LengthIn(lines) == 0
  {
    if lines != [] {
      NoLengthCounts(lines[1..]);
    }
  }

  /** Header lines as they may come: none empty, none with a line break in it. */
  predicate Block(lines: seq<string>) {
    lines != [] && forall i :: 0 <= i < |lines| ==> lines[i] != "" && Unbroken(lines[i])
  }

  /** A header block announces what its first length line says, wherever that line stands. */
  lemma BlockAnnounces(start: string, before: seq<string>, a: string, name: string, b: string, c: string, w: string,
                       d: string, after: seq<string>)
    requires Nameable(a, name, b) && SpellsLength(name) && Blank(c) && Blank(d) && Edged(w)
    requires forall i :: 0 <= i < |before| ==> !AnnouncesLength(before[i])
    requires Block([start] + (before + [NamedLine(a, name, b, c + w + d)] + after))
    ensures ContentLengthOf(JoinLines([start] + (before + [NamedLine(a, name, b, c + w + d)] + after)))
         == Announced(w)
  {
    var line := NamedLine(a, name, b, c + w + d);
    var rest := before + [line] + after;
    SplitJoined([start] + rest);
    assert ([start] + rest)[1..] == rest;
    LengthReads(a, name, b, c, w, d);
    FirstLengthCounts(before, line, after);
  }

  /** And nothing where there is no such line. */
  lemma BlockAnnouncesNothing(start: string, lines: seq<string>)
    requires Block([start] + lines) && forall i :: 0 <= i < |lines| ==> !AnnouncesLength(lines[i])
    ensures ContentLengthOf(JoinLines([start] + lines)) == 0
  {
    SplitJoined([start] + lines);
    assert ([start] + lines)[1..] == lines;
    NoLengthCounts(lines);
  }

  lemma BlockLayout(lines: seq<string>, n: nat, m: Octets, body: Octets)
    requires Block(lines) && ContentLengthOf(JoinLines(lines)) == n
    requires m == JoinLines(lines) + CRLF + CRLF + body
    ensures !StartsWithCrlf(m) && HeaderEnd(m) < |m| && |m| == |JoinLines(lines)| + 4 + |body|
    ensures MessageEnd(m) == |JoinLines(lines)| + 4 + n
  {
    var block := JoinLines(lines);
    BlankLineIsBehind(lines, body);
    HeaderEndIs(block + CRLF + CRLF + body, |block|);
    assert block[0] == lines[0][0];
    assert |block| >= 2 ==> block[1] == if |lines[0]| > 1 then lines[0][1] else '\r';
    assert m[..|block|] == block;
  }

  lemma DecimalAnnounces(n: nat)
    ensures Announced(Decimal(n)) == n && Edged(Decimal(n))
  {
    DecimalValue(n);
    NumberIsGrouped(Decimal(n));
    assert IsDigit(Decimal(n)[0]) && IsDigit(Last(Decimal(n)));
  }

  /** A message of any maker ends where its first length line says: as many bytes behind its
      blank line. */
  lemma ForeignIsFramed(start: string, before: seq<string>, a: string, name: string, b: string, c: string, w: string,
                        d: string, after: seq<string>, m: Octets, body: Octets)
    requires Nameable(a, name, b) && SpellsLength(name) && Blank(c) && Blank(d) && Edged(w)
    requires forall i :: 0 <= i < |before| ==> !AnnouncesLength(before[i])
    requires Block([start] + (before + [NamedLine(a, name, b, c + w + d)] + after))
    requires m == JoinLines([start] + (before + [NamedLine(a, name, b, c + w + d)] + after)) + CRLF + CRLF + body
    ensures Framed(m) <==> |body| == Announced(w)
    ensures forall n: nat :: w == Decimal(n) ==> (Framed(m) <==> |body| == n)
  {
    forall n: nat | w == Decimal(n) ensures Announced(w) == n {
      DecimalAnnounces(n);
    }
    BlockAnnounces(start, before, a, name, b, c, w, d, after);
    BlockLayout([start] + (before + [NamedLine(a, name, b, c + w + d)] + after), Announced(w), m, body);
  }

  // ------------------------------------------------------------- the fields

  lemma StoreNamed(f: Fields, a: string, name: string, b: string, c: string, v: string, d: string)
    requires Nameable(a, name, b) && Blank(c) && Blank(d) && Edged(v)
    ensures Store(f, NamedLine(a, name, b, c + v + d)) == Put(f, Lower(name), v)
  {
    NamedLineSplits(a, name, b, c + v + d);
    PaddedStrips(c, v, d);
  }

  /** A line that gives no value to this name. */
  predicate Otherwise(line: string, small: string) {
    IndexOf(line, ':') < |line| ==> Lower(Strip(line[..IndexOf(line, ':')])) != small
  }

  lemma {:induction false} OthersKeep(f: Fields, lines: seq<string>, small: string)
    requires forall i :: 0 <= i < |lines| ==> Otherwise(lines[i], small)
    ensures Get(StoreAll(f, lines), small) == Get(f, small)
    decreases |lines|
  {
    if lines != [] {
      OthersKeep(Store(f, lines[0]), lines[1..], small);
    }
  }

  lemma OtherwiseIff(a: string, name: string, b: string, after: string, small: string, large: string)
    requires Nameable(a, name, b) && Cases(small, large)
    ensures Otherwise(NamedLine(a, name, b, after), small) <==> !Spells(name, small, large)
  {
    NamedLineSplits(a, name, b, after);
    SpellsIff(name, small, large);
  }

  /** The value of a header is that of the last line with its name, in whatever letters and
      with whatever space. */
  lemma FieldReads(start: string, before: seq<string>, a: string, name: string, b: string, c: string, v: string,
                   d: string, after: seq<string>, rest: string, small: string, large: string)
    requires Nameable(a, name, b) && Blank(c) && Blank(d) && Edged(v)
    requires Cases(small, large) && Spells(name, small, large) && small != "via" && small != "v"
    requires forall i :: 0 <= i < |after| ==> Otherwise(after[i], small)
    requires Block([start] + (before + [NamedLine(a, name, b, c + v + d)] + after))
    ensures Get(ParseHeaders(JoinLines([start] + (before + [NamedLine(a, name, b, c + v + d)] + after) + ["", rest])),
                small) == v
  {
    var line := NamedLine(a, name, b, c + v + d);
    var lines := before + [line] + after;
    ReadsLines(start, lines, rest);
    StoreAllAppend(NOTHING, before + [line], after);
    StoreAllSnoc(NOTHING, before, line);
    StoreNamed(StoreAll(NOTHING, before), a, name, b, c, v, d);
    SpellsIff(name, small, large);
    OthersKeep(StoreAll(NOTHING, before + [line]), after, small);
  }

  /** A header that is not there reads as nothing. */
  lemma MissingReads(start: string, lines: seq<string>, rest: string, small: string)
    requires Block([start] + lines) && forall i :: 0 <= i < |lines| ==> Otherwise(lines[i], small)
    ensures Get(ParseHeaders(JoinLines([start] + lines + ["", rest])), small) == ""
  {
    ReadsLines(start, lines, rest);
    OthersKeep(NOTHING, lines, small);
  }

  /** The lines up to the blank one are stored, one after the other. */
  lemma ReadsLines(start: string, lines: seq<string>, rest: string)
    requires Block([start] + lines)
    ensures ParseHeaders(JoinLines([start] + lines + ["", rest])) == StoreAll(NOTHING, lines)
  {
    var all := [start] + lines + [""];
    assert [start] + lines + ["", rest] == all + [rest];
    assert forall i :: 0 <= i < |all| ==> Unbroken(all[i]);
    SplitJoinedThen(all, rest);
    assert (all + SplitLines(rest))[1..] == lines + [""] + SplitLines(rest);
    assert forall i :: 0 <= i < |lines| ==> lines[i] == ([start] + lines)[i + 1];
    ReadUpToBlank(NOTHING, lines, SplitLines(rest));
  }

  /** The path back: what the Via lines say, as they come. */
  lemma ViaReads(f: Fields, a: string, name: string, b: string, c: string, v: string, d: string)
    requires Nameable(a, name, b) && Blank(c) && Blank(d) && Edged(v)
    ensures Store(f, NamedLine(a, name, b, c + v + d)).vias
         == f.vias + if Spells(name, "via", "VIA") || Spells(name, "v", "V") then [v] else []
  {
    StoreNamed(f, a, name, b, c, v, d);
    SpellsIff(name, "via", "VIA");
    SpellsIff(name, "v", "V");
    assert f.vias + [] == f.vias;
  }
}
