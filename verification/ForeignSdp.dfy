/** Session descriptions of other implementations (bridge/sip_sdp.py): lines that end in any
    line break, with any space in and around them, and other lines anywhere between them. */
module ForeignSdp {
  import opened Prelude
  import opened Text
  import opened Sdp

  // ------------------------------------------------------------------- lines

  /** No line break: none of the ten characters that are one. */
  predicate Flat(line: string) {
    forall i :: 0 <= i < |line| ==> line[i] as int !in {10, 11, 12, 13, 28, 29, 30, 0x85, 0x2028, 0x2029}
  }

  /** One line break, with this behind it: a carriage return belongs to a line feed. */
  predicate IsEnd(end: string, rest: string) {
    || end == CRLF
    || (|end| == 1 && end[0] as int in {10, 11, 12, 13, 28, 29, 30, 0x85, 0x2028, 0x2029}
        && !(end == "\r" && rest != "" && rest[0] == '\n'))
  }

  lemma BreaksOff(line: string, end: string, rest: string)
    requires Flat(line) && IsEnd(end, rest)
    ensures LinesOf(line + end + rest) == [line] + LinesOf(rest)
  {
    var s := line + end + rest;
    assert forall i :: 0 <= i < |line| ==> s[i] == line[i];
    assert s[|line|] == end[0];
    assert |end| == 2 ==> s[|line| + 1] == end[1];
    assert |end| == 1 && rest != "" ==> s[|line| + 1] == rest[0];
    assert BreakAt(s) == |line|;
    assert s[..|line|] == line;
    assert s[|line| + |end|..] == rest;
  }

  /** A description is read line by line, whichever breaks end its lines; a last line needs
      none. */
  function Broken(lines: seq<string>, ends: seq<string>, last: string): string
    requires |lines| == |ends|
  {
    if lines == [] then last else lines[0] + ends[0] + Broken(lines[1..], ends[1..], last)
  }

  predicate Breakable(lines: seq<string>, ends: seq<string>, last: string) {
    |lines| == |ends| && (lines == [] || (Flat(lines[0]) && IsEnd(ends[0], Broken(lines[1..], ends[1..], last))
                                          && Breakable(lines[1..], ends[1..], last)))
  }

  lemma {:induction false} LinesRead(lines: seq<string>, ends: seq<string>, last: string)
    requires Breakable(lines, ends, last) && Flat(last)
    ensures LinesOf(Broken(lines, ends, last)) == lines + if last == "" then [] else [last]
  {
    if lines == [] {
      assert BreakAt(last) == |last|;
    } else {
      LinesRead(lines[1..], ends[1..], last);
      BreaksOff(lines[0], ends[0], Broken(lines[1..], ends[1..], last));
      assert lines == [lines[0]] + lines[1..];
    }
  }

  // ------------------------------------------------------------------- words

  /** Characters and no space among them. */
  predicate Solid(w: string) {
    w != "" && forall i :: 0 <= i < |w| ==> w[i] as int !in {9, 10, 11, 12, 13, 28, 29, 30, 31, 32}
  }

  /** Words with space in front of each. */
  function Spread(gaps: seq<string>, words: seq<string>): string
    requires |gaps| == |words|
  {
    if words == [] then "" else gaps[0] + words[0] + Spread(gaps[1..], words[1..])
  }

  /** The words of a text are separated by space, of any kind and length. */
  predicate Spreadable(gaps: seq<string>, words: seq<string>) {
    && |gaps| == |words|
    && (forall i :: 0 <= i < |words| ==> Blank(gaps[i]) && Solid(words[i]))
    && (forall i :: 0 < i < |words| ==> gaps[i] != "")
  }

  lemma {:induction false} GapOff(gap: string, s: string)
    requires Blank(gap)
    ensures Words(gap + s) == Words(s)
  {
    if gap == "" {
      assert gap + s == s;
    } else {
      GapOff(gap[1..], s);
      assert (gap + s)[0] == gap[0] && (gap + s)[1..] == gap[1..] + s;
    }
  }

  lemma SpreadBegins(gaps: seq<string>, words: seq<string>, tail: string)
    requires Spreadable(gaps, words) && Blank(tail)
    requires words != [] ==> gaps[0] != ""
    ensures var s := Spread(gaps, words) + tail; s != "" ==> IsSpace(s[0])
  {
    if words != [] {
      assert (Spread(gaps, words) + tail)[0] == gaps[0][0];
    }
  }

  lemma {:induction false} SpreadReads(gaps: seq<string>, words: seq<string>, tail: string)
    requires Spreadable(gaps, words) && Blank(tail)
    ensures Words(Spread(gaps, words) + tail) == words
  {
    if words == [] {
      assert Spread(gaps, words) + tail == tail + "";
      GapOff(tail, "");
    } else {
      var w, rest := words[0], Spread(gaps[1..], words[1..]) + tail;
      assert Spread(gaps, words) + tail == gaps[0] + (w + rest);
      GapOff(gaps[0], w + rest);
      SpreadBegins(gaps[1..], words[1..], tail);
      assert (w + rest)[..|w|] == w && (w + rest)[|w|..] == rest;
      assert rest != "" ==> (w + rest)[|w|] == rest[0];
      WordOff(w + rest, w);
      SpreadReads(gaps[1..], words[1..], tail);
      assert words == [w] + words[1..];
    }
  }

  /** A text of words without the space around it. */
  function Inner(gaps: seq<string>, words: seq<string>): string
    requires |gaps| == |words| > 0
  {
    words[0] + Spread(gaps[1..], words[1..])
  }

  lemma InnerReads(gaps: seq<string>, words: seq<string>)
    requires Spreadable(gaps, words) && words != []
    ensures Words(Inner(gaps, words)) == words
  {
    var bare := [""] + gaps[1..];
    assert bare[1..] == gaps[1..];
    assert Spread(bare, words) + "" == Inner(gaps, words);
    SpreadReads(bare, words, "");
  }

  lemma SpreadStrips(gaps: seq<string>, words: seq<string>, tail: string)
    requires Spreadable(gaps, words) && Blank(tail) && words != []
    ensures Strip(Spread(gaps, words) + tail) == Inner(gaps, words)
  {
    var inner := Inner(gaps, words);
    SpreadEnds(words[0], gaps[1..], words[1..]);
    PaddedStrips(gaps[0], inner, tail);
    assert Spread(gaps, words) == gaps[0] + inner;
  }

  lemma {:induction false} SpreadEnds(first: string, gaps: seq<string>, words: seq<string>)
    requires Spreadable(gaps, words) && Solid(first)
    ensures Edged(first + Spread(gaps, words))
    decreases |words|
  {
    if words == [] {
      assert first + Spread(gaps, words) == first;
    } else {
      SpreadEnds(words[0], gaps[1..], words[1..]);
      var rest := words[0] + Spread(gaps[1..], words[1..]);
      assert first + Spread(gaps, words) == first + gaps[0] + rest;
      assert Last(first + gaps[0] + rest) == Last(rest);
    }
  }

  // ------------------------------------------------------------------- types

  /** A line is about audio if and only if its first characters, space aside, say so. */
  lemma AudioIff(a: string, s: string, b: string)
    requires Blank(a) && Blank(b) && Edged(s)
    ensures IsAudio(a + s + b) <==> |s| >= 7 && s[..7] == "m=audio"
  {
    PaddedStrips(a, s, b);
  }

  /** The numbers among some words, in order, and nothing else. */
  lemma {:induction false} NumbersAppend(a: seq<string>, b: seq<string>)
    ensures Numbers(a + b) == Numbers(a) + Numbers(b)
  {
    if a == [] {
      assert a + b == b;
    } else {
      var first, others := a[0], a[1..];
      NumbersAppend(others, b);
      assert (a + b)[0] == first && (a + b)[1..] == others + b;
      if IsNumber(first) {
        Regroup([Value(first)], Numbers(others), Numbers(b));
      }
    }
  }

  lemma NumbersOfOne(w: string)
    ensures Numbers([w]) == if w != "" && (forall i :: 0 <= i < |w| ==> '0' <= w[i] <= '9') then [Value(w)] else []
  {
    assert [w][1..] == [];
    assert Numbers([]) == [];
  }

  /** Whatever surrounds it, the first audio line says which types are offered. */
  lemma TypesRead(before: seq<string>, gaps: seq<string>, words: seq<string>, tail: string, after: seq<string>)
    requires Spreadable(gaps, words) && Blank(tail) && |words| >= 3
    requires |words[0]| >= 7 && words[0][..7] == "m=audio"
    requires forall i :: 0 <= i < |before| ==> !IsAudio(before[i])
    ensures TypesOf(before + [Spread(gaps, words) + tail] + after) == Numbers(words[3..])
  {
    var line := Spread(gaps, words) + tail;
    AudioLineIs(gaps, words, tail);
    TypesBehind(before, [line] + after);
    Regroup(before, [line], after);
    assert ([line] + after)[0] == line;
  }

  lemma AudioLineIs(gaps: seq<string>, words: seq<string>, tail: string)
    requires Spreadable(gaps, words) && Blank(tail) && words != []
    requires |words[0]| >= 7 && words[0][..7] == "m=audio"
    ensures var line := Spread(gaps, words) + tail; Words(Strip(line)) == words && IsAudio(line)
  {
    SpreadStrips(gaps, words, tail);
    InnerReads(gaps, words);
    assert Inner(gaps, words)[..7] == words[0][..7];
  }

  // ----------------------------------------------------------------- address

  /** A connection line: the address family, then the host up to a slash. */
  lemma HostReads(a: string, c: string, host: string, d: string, tail: string, b: string)
    requires Blank(a) && Blank(b) && Blank(c) && Blank(d) && host != "" && Edged(host) && '/' !in host
    requires Edged(tail) && (tail != "" ==> tail[0] == '/') && (tail == "" ==> d == "")
    ensures var line := a + ("c=IN IP4 " + c + host + d + tail) + b;
      StartsWith(Strip(line), CONNECTION) && HostIn(line) == host
  {
    var inner := "c=IN IP4 " + c + host + d + tail;
    assert inner[0] == 'c';
    if tail == "" {
      assert Last(inner) == Last(host);
    } else {
      assert Last(inner) == Last(tail);
    }
    PaddedStrips(a, inner, b);
    var rest, before := inner[|CONNECTION|..], c + host + d;
    assert rest == before + tail;
    forall k | 0 <= k < |before| ensures rest[k] != '/' {
      assert rest[k] == before[k];
      assert before[k] in c || before[k] in host || before[k] in d;
    }
    if tail != "" {
      IndexOfIs(rest, '/', |before|);
    }
    assert IndexOf(rest, '/') == |before| && rest[..|before|] == before;
    PaddedStrips(c, host, d);
  }

  predicate IsConnection(line: string) {
    StartsWith(Strip(line), CONNECTION)
  }

  lemma ConnectionIff(a: string, s: string, b: string)
    requires Blank(a) && Blank(b) && Edged(s)
    ensures IsConnection(a + s + b) <==> |s| >= 9 && s[..9] == "c=IN IP4 "
  {
    PaddedStrips(a, s, b);
  }

  /** The port a line names, where it is about audio and its second word is a number. */
  function PortIn(line: string): Option<nat> {
    var words := Words(Strip(line));
    if IsAudio(line) && |words| > 1 && IsNumber(words[1]) then Some(Value(words[1])) else None
  }

  lemma PortReads(gaps: seq<string>, words: seq<string>, tail: string)
    requires Spreadable(gaps, words) && Blank(tail) && words != []
    requires |words[0]| >= 7 && words[0][..7] == "m=audio"
    ensures PortIn(Spread(gaps, words) + tail)
         == if |words| >= 2 && (forall i :: 0 <= i < |words[1]| ==> '0' <= words[1][i] <= '9')
            then Some(Value(words[1])) else None
  {
    AudioLineIs(gaps, words, tail);
  }

  lemma NotBoth(s: string)
    ensures !StartsWith(s, CONNECTION) || !StartsWith(s, "m=audio")
  {
    assert |s| >= 9 ==> s[..9][0] == s[0];
    assert |s| >= 7 ==> s[..7][0] == s[0];
  }

  lemma SeeEach(seen: Seen, line: string)
    ensures See(seen, line) == Seen(if seen.host.None? && IsConnection(line) then Some(HostIn(line)) else seen.host,
                                    if PortIn(line).Some? then PortIn(line) else seen.port)
  {
    NotBoth(Strip(line));
  }

  predicate Hostless(lines: seq<string>) {
    forall i :: 0 <= i < |lines| ==> !IsConnection(lines[i])
  }

  predicate Portless(lines: seq<string>) {
    forall i :: 0 <= i < |lines| ==> PortIn(lines[i]).None?
  }

  /** The first host is kept. */
  lemma {:induction false} HostKept(seen: Seen, lines: seq<string>)
    requires seen.host.Some? || Hostless(lines)
    ensures SeeAll(seen, lines).host == seen.host
    decreases |lines|
  {
    if lines != [] {
      SeeEach(seen, lines[0]);
      HostKept(See(seen, lines[0]), lines[1..]);
    }
  }

  lemma {:induction false} PortKept(seen: Seen, lines: seq<string>)
    requires Portless(lines)
    ensures SeeAll(seen, lines).port == seen.port
    decreases |lines|
  {
    if lines != [] {
      SeeEach(seen, lines[0]);
      PortKept(See(seen, lines[0]), lines[1..]);
    }
  }

  lemma SeeAround(before: seq<string>, line: string, after: seq<string>)
    ensures SeeAll(Seen(None, None), before + [line] + after)
         == SeeAll(See(SeeAll(Seen(None, None), before), line), after)
  {
    var start := Seen(None, None);
    SeeAppend(start, before + [line], after);
    SeeAppend(start, before, [line]);
    SeeOne(SeeAll(start, before), line);
  }

  lemma Around<T>(s: seq<T>, i: nat)
    requires i < |s|
    ensures s == s[..i] + [s[i]] + s[i + 1..]
  {
  }

  lemma HostSeen(lines: seq<string>, i: nat)
    requires i < |lines| && IsConnection(lines[i]) && forall k :: 0 <= k < i ==> !IsConnection(lines[k])
    ensures SeeAll(Seen(None, None), lines).host == Some(HostIn(lines[i]))
  {
    Around(lines, i);
    SeeAround(lines[..i], lines[i], lines[i + 1..]);
    HostKept(Seen(None, None), lines[..i]);
    var before := SeeAll(Seen(None, None), lines[..i]);
    SeeEach(before, lines[i]);
    HostKept(See(before, lines[i]), lines[i + 1..]);
  }

  lemma PortSeen(lines: seq<string>, j: nat)
    requires j < |lines| && PortIn(lines[j]).Some? && forall k :: j < k < |lines| ==> PortIn(lines[k]).None?
    ensures SeeAll(Seen(None, None), lines).port == PortIn(lines[j])
  {
    Around(lines, j);
    SeeAround(lines[..j], lines[j], lines[j + 1..]);
    var before := SeeAll(Seen(None, None), lines[..j]);
    SeeEach(before, lines[j]);
    PortKept(See(before, lines[j]), lines[j + 1..]);
  }

  /** A description's address: the host of its first connection line, and the port of its
      last audio line that names one, wherever the two stand. */
  lemma AddressReads(body: string, i: nat, j: nat)
    requires var lines := LinesOf(body);
      && i < |lines| && IsConnection(lines[i]) && (forall k :: 0 <= k < i ==> !IsConnection(lines[k]))
      && j < |lines| && PortIn(lines[j]).Some? && (forall k :: j < k < |lines| ==> PortIn(lines[k]).None?)
    ensures var host, port := HostIn(LinesOf(body)[i]), PortIn(LinesOf(body)[j]).value;
      ParseAddress(body) == if host != "" && port > 0 then Some(Media(host, port)) else None
  {
    HostSeen(LinesOf(body), i);
    PortSeen(LinesOf(body), j);
  }

  /** And none where one of the two is missing. */
  lemma NoAddress(body: string)
    requires Hostless(LinesOf(body)) || Portless(LinesOf(body))
    ensures ParseAddress(body).None?
  {
    if Hostless(LinesOf(body)) {
      HostKept(Seen(None, None), LinesOf(body));
    } else {
      PortKept(Seen(None, None), LinesOf(body));
    }
  }

  // -------------------------------------------------------------- key presses

  const SMALL_MAP: string := "a=rtpmap:"
  const LARGE_MAP: string := "A=RTPMAP:"
  const SMALL_NAME: string := "telephone-event/"
  const LARGE_NAME: string := "TELEPHONE-EVENT/"

  lemma StartSpelled(s: string, small: string, large: string)
    requires Cases(small, large) && |s| >= |small|
    ensures StartsWith(Lower(s), small) <==> Spells(s[..|small|], small, large)
  {
    SpellsIff(s[..|small|], small, large);
    assert Lower(s)[..|small|] == Lower(s[..|small|]);
  }

  /** A text as its digits, the space behind them, and what follows. */
  predicate SplitsAs(t: string, digits: string, gap: string, name: string) {
    && t[..DigitsEnd(t)] == digits && t[DigitsEnd(t)..] == gap + name
    && SkipSpace(gap + name) == |gap| && (gap + name)[|gap|..] == name
  }

  lemma RestSplits(digits: string, gap: string, name: string)
    requires Blank(gap) && gap != "" && name != "" && Edged(name) && IsNumber(digits)
    ensures var t := digits + (gap + name); SplitsAs(t, digits, gap, name) && t != "" && Edged([Last(t)])
  {
    var t := digits + (gap + name);
    assert Last(t) == Last(name);
    DigitsThen(digits, gap + name);
    GapThen(gap, name);
  }

  lemma EventIs(line: string, s: string, t: string, digits: string, gap: string, name: string)
    requires Strip(line) == s && StartsWith(Lower(s), RTPMAP) && s[|RTPMAP|..] == t && digits != "" && gap != ""
    requires IsNumber(digits) && SplitsAs(t, digits, gap, name)
    ensures EventIn(line) == if StartsWith(Lower(name), SMALL_NAME) then Some(Value(digits)) else None
  {
  }

  /** A line that maps a number to a name: the number counts if and only if the name is that
      of key presses, in any letters. */
  lemma EventReads(a: string, key: string, digits: string, gap: string, name: string, b: string)
    requires Blank(a) && Blank(b) && Blank(gap) && gap != "" && name != "" && Edged(name)
    requires Spells(key, SMALL_MAP, LARGE_MAP) && IsNumber(digits)
    ensures EventIn(a + (key + (digits + (gap + name))) + b)
         == if |name| >= 16 && Spells(name[..16], SMALL_NAME, LARGE_NAME) then Some(Value(digits)) else None
  {
    var t := digits + (gap + name);
    RestSplits(digits, gap, name);
    MapStrips(a, key, t, b);
    NameSpelled(name);
    EventIs(a + (key + t) + b, key + t, t, digits, gap, name);
  }

  lemma NameSpelled(name: string)
    ensures StartsWith(Lower(name), SMALL_NAME) <==> |name| >= 16 && Spells(name[..16], SMALL_NAME, LARGE_NAME)
  {
    assert Cases(SMALL_NAME, LARGE_NAME);
    if |name| >= 16 {
      StartSpelled(name, SMALL_NAME, LARGE_NAME);
    }
  }

  lemma MapStrips(a: string, key: string, rest: string, b: string)
    requires Blank(a) && Blank(b) && Spells(key, SMALL_MAP, LARGE_MAP)
    requires rest != "" && Edged([Last(rest)])
    ensures Strip(a + (key + rest) + b) == key + rest && StartsWith(Lower(key + rest), RTPMAP)
    ensures (key + rest)[|RTPMAP|..] == rest
  {
    var s := key + rest;
    assert s[0] == key[0] && Last(s) == Last(rest);
    PaddedStrips(a, s, b);
    assert Cases(SMALL_MAP, LARGE_MAP) && s[..9] == key;
    StartSpelled(s, SMALL_MAP, LARGE_MAP);
  }

  lemma DigitsThen(digits: string, rest: string)
    requires IsNumber(digits) && rest != "" && !IsDigit(rest[0])
    ensures var t := digits + rest;
      DigitsEnd(t) == |digits| && t[..DigitsEnd(t)] == digits && t[DigitsEnd(t)..] == rest
  {
    var t := digits + rest;
    assert forall k :: 0 <= k < |digits| ==> t[k] == digits[k];
    DigitsEndIs(t, |digits|);
  }

  lemma {:induction false} GapThen(gap: string, name: string)
    requires Blank(gap) && name != "" && !IsSpace(name[0])
    ensures SkipSpace(gap + name) == |gap| && (gap + name)[|gap|..] == name
  {
    if gap == "" {
      assert gap + name == name;
    } else {
      GapThen(gap[1..], name);
      assert (gap + name)[0] == gap[0] && (gap + name)[1..] == gap[1..] + name;
    }
  }

  /** It begins with no digits, or no space follows them. */
  predicate NoGap(t: string, end: nat) {
    t != "" && Edged([Last(t)]) && DigitsEnd(t) == end && (end == 0 || SkipSpace(t[end..]) == 0)
  }

  lemma EventIsNone(line: string, s: string, t: string, end: nat)
    requires Strip(line) == s && |s| >= |RTPMAP| && s[|RTPMAP|..] == t && NoGap(t, end)
    ensures EventIn(line).None?
  {
  }

  lemma DigitsBefore(digits: string, rest: string)
    requires (forall i :: 0 <= i < |digits| ==> IsDigit(digits[i])) && rest != "" && !IsDigit(rest[0])
    requires Edged([Last(rest)]) && (digits == "" || !IsSpace(rest[0]))
    ensures NoGap(digits + rest, |digits|)
  {
    assert Last(digits + rest) == Last(rest);
    if digits != "" {
      DigitsThen(digits, rest);
    } else {
      assert digits + rest == rest;
    }
  }

  /** Without digits, or without space behind them, a line names no number. */
  lemma NoNumberNoEvent(a: string, key: string, digits: string, rest: string, b: string)
    requires Blank(a) && Blank(b) && Spells(key, SMALL_MAP, LARGE_MAP)
    requires (forall i :: 0 <= i < |digits| ==> IsDigit(digits[i])) && rest != "" && !IsDigit(rest[0])
    requires Edged([Last(rest)]) && (digits == "" || !IsSpace(rest[0]))
    ensures EventIn(a + (key + (digits + rest)) + b).None?
  {
    var t := digits + rest;
    DigitsBefore(digits, rest);
    MapStrips(a, key, t, b);
    EventIsNone(a + (key + t) + b, key + t, t, |digits|);
  }

  /** The first line that maps a number to key presses decides. */
  lemma FirstEventCounts(before: seq<string>, line: string, after: seq<string>)
    requires EventIn(line).Some? && forall i :: 0 <= i < |before| ==> EventIn(before[i]).None?
    ensures EventOf(before + [line] + after) == EventIn(line)
  {
    EventBehind(before, [line] + after);
    Regroup(before, [line], after);
    assert ([line] + after)[0] == line;
  }

  /** A line that begins otherwise names none. */
  lemma NoMapNoEvent(a: string, s: string, b: string)
    requires Blank(a) && Blank(b) && Edged(s)
    requires |s| < 9 || !Spells(s[..9], SMALL_MAP, LARGE_MAP)
    ensures EventIn(a + s + b).None?
  {
    PaddedStrips(a, s, b);
    if |s| >= 9 {
      assert Cases(SMALL_MAP, LARGE_MAP);
      StartSpelled(s, SMALL_MAP, LARGE_MAP);
    }
  }
}
