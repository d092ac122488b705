/** Building messages (bridge/sip_requests.py) and reading their headers back
    (bridge/sip_messages.py, parse_sip_headers). */
module Requests {
  import opened Prelude
  import opened Text
  import opened Framing

  // ------------------------------------------------------------------ UTF-8

  function EncodeChar(c: char): (b: Octets)
    ensures |b| >= 1 && (|b| == 1 <==> c as int < 0x80)
    ensures c as int < 0x80 ==> b == [c]
    ensures c as int >= 0x80 ==> forall i :: 0 <= i < |b| ==> b[i] as int >= 0x80
  {
    var n := c as int;
    if n < 0x80 then [c]
    else if n < 0x800 then [(0xC0 + n / 0x40) as char, (0x80 + n % 0x40) as char]
    else if n < 0x1_0000 then
      [(0xE0 + n / 0x1000) as char, (0x80 + n / 0x40 % 0x40) as char, (0x80 + n % 0x40) as char]
    else
      [(0xF0 + n / 0x4_0000) as char, (0x80 + n / 0x1000 % 0x40) as char,
       (0x80 + n / 0x40 % 0x40) as char, (0x80 + n % 0x40) as char]
  }

  /** What the bytes of a character stand for (section 3 of RFC 3629): the bits of the first
      one, by how many bytes there are, and six more of each one behind it. */
  function Lead(b: char, above: int, times: int): int {
    (b as int - above) * times
  }

  predicate Follows(b: char) {
    0x80 <= b as int < 0xC0
  }

  predicate TwoBytes(b: Octets, n: int) {
    |b| == 2 && 0xC2 <= b[0] as int < 0xE0 && Follows(b[1]) && n == Lead(b[0], 0xC0, 0x40) + Lead(b[1], 0x80, 1)
  }

  predicate ThreeBytes(b: Octets, n: int) {
    && |b| == 3 && 0xE0 <= b[0] as int < 0xF0 && Follows(b[1]) && Follows(b[2])
    && n == Lead(b[0], 0xE0, 0x1000) + Lead(b[1], 0x80, 0x40) + Lead(b[2], 0x80, 1)
  }

  predicate FourBytes(b: Octets, n: int) {
    && |b| == 4 && 0xF0 <= b[0] as int < 0xF5 && Follows(b[1]) && Follows(b[2]) && Follows(b[3])
    && n == Lead(b[0], 0xF0, 0x4_0000) + Lead(b[1], 0x80, 0x1000) + Lead(b[2], 0x80, 0x40) + Lead(b[3], 0x80, 1)
  }

  lemma EncodedAsDefined(c: char)
    ensures var b, n := EncodeChar(c), c as int;
      if n < 0x80 then b == [c] else if n < 0x800 then TwoBytes(b, n)
      else if n < 0x1_0000 then ThreeBytes(b, n) else FourBytes(b, n)
  {
    var n := c as int;
    SixBits(n);
    SixBits(n / 0x40);
    SixBits(n / 0x1000);
    assert n / 0x40 / 0x40 == n / 0x1000 && n / 0x1000 / 0x40 == n / 0x4_0000;
  }

  lemma SixBits(n: nat)
    ensures n == n / 0x40 * 0x40 + n % 0x40 && 0 <= n % 0x40 < 0x40
  {
  }

  function Encode(s: string): Octets {
    if s == [] then [] else EncodeChar(s[0]) + Encode(s[1..])
  }

  function EncodeAll(lines: seq<string>): (r: seq<Octets>)
    ensures |r| == |lines| && forall i :: 0 <= i < |lines| ==> r[i] == Encode(lines[i])
  {
    seq(|lines|, i requires 0 <= i < |lines| => Encode(lines[i]))
  }

  lemma {:induction false} EncodeAppend(a: string, b: string)
    ensures Encode(a + b) == Encode(a) + Encode(b)
  {
    if a == [] {
      assert a + b == b;
    } else {
      var others := a[1..];
      EncodeAppend(others, b);
      assert (a + b)[0] == a[0] && (a + b)[1..] == others + b;
      Regroup(EncodeChar(a[0]), Encode(others), Encode(b));
    }
  }

  lemma {:induction false} EncodeAscii(s: string)
    requires IsAscii(s)
    ensures Encode(s) == s
  {
    if s != [] {
      EncodeAscii(s[1..]);
    }
  }

  /** Encoding keeps the length of ASCII, and of nothing else. */
  lemma {:induction false} EncodeLength(s: string)
    ensures |Encode(s)| >= |s| && (|Encode(s)| == |s| <==> IsAscii(s))
  {
    if s != [] {
      EncodeLength(s[1..]);
      assert IsAscii(s) <==> s[0] as int < 0x80 && IsAscii(s[1..]) by {
        if s[0] as int < 0x80 && IsAscii(s[1..]) {
          forall i | 0 <= i < |s| ensures s[i] as int < 0x80 {
            if i > 0 {
              assert s[i] == s[1..][i - 1];
            }
          }
        }
      }
    }
  }

  lemma {:induction false} EncodeUnbroken(s: string)
    requires Unbroken(s)
    ensures Unbroken(Encode(s))
  {
    if s != [] {
      assert Unbroken(s[1..]);
      EncodeUnbroken(s[1..]);
      var first, others := EncodeChar(s[0]), Encode(s[1..]);
      assert s[1..] != [] ==> others[0] == EncodeChar(s[1])[0];
      if s[0] as int < 0x80 {
        assert Encode(s) == [s[0]] + others;
      }
    }
  }

  lemma {:induction false} EncodeJoin(lines: seq<string>)
    requires lines != []
    ensures Encode(JoinLines(lines)) == JoinLines(EncodeAll(lines))
  {
    if |lines| > 1 {
      EncodeJoin(lines[1..]);
      EncodeAppend(lines[0] + CRLF, JoinLines(lines[1..]));
      EncodeAppend(lines[0], CRLF);
      EncodeAscii(CRLF);
      assert EncodeAll(lines)[1..] == EncodeAll(lines[1..]);
    }
  }

  // --------------------------------------------------- what every message is

  function LengthLine(n: nat): string {
    "Content-Length: " + Decimal(n)
  }

  /** Start line and headers, the length of the body in characters, and the body. */
  function MessageText(lines: seq<string>, body: string): string {
    JoinLines(lines + [LengthLine(|body|), "", body])
  }

  function MessageBytes(lines: seq<string>, body: string): Octets {
    Encode(MessageText(lines, body))
  }

  /** Lines a builder may put in front of the length. */
  predicate HeaderLines(lines: seq<string>) {
    && lines != []
    && (forall i :: 0 <= i < |lines| ==> lines[i] != "" && Unbroken(lines[i]))
    && (forall i :: 0 < i < |lines| ==> !AnnouncesLength(Encode(lines[i])))
  }

  lemma LengthNameIsOne()
    ensures IsLengthName("Content-Length")
  {
    StripNothing("Content-Length");
    assert Lower("Content-Length") == "content-length";
  }

  lemma StripSpaceBefore(s: string)
    requires Strip(s) == s
    ensures Strip([' '] + s) == s
  {
    assert ([' '] + s)[1..] == s;
    assert StripLeft([' '] + s) == StripLeft(s);
  }

  lemma LengthLineReads(n: nat)
    ensures AnnouncesLength(LengthLine(n)) && AnnouncedLength(LengthLine(n)) == n
  {
    var line := LengthLine(n);
    IndexOfIs(line, ':', 14);
    assert line[..14] == "Content-Length";
    LengthNameIsOne();
    assert line[15..] == [' '] + Decimal(n);
    DecimalReadBack(n);
    StripSpaceBefore(Decimal(n));
  }

  lemma LengthLineFits(n: nat)
    ensures LengthLine(n) != "" && Unbroken(LengthLine(n)) && IsAscii(LengthLine(n))
  {
  }

  lemma {:induction false} LengthBehind(lines: seq<string>, n: nat)
    requires forall i :: 0 <= i < |lines| ==> !AnnouncesLength(lines[i])
    ensures LengthIn(lines + [LengthLine(n)]) == n
  {
    if lines == [] {
      LengthLineReads(n);
    } else {
      LengthBehind(lines[1..], n);
      assert (lines + [LengthLine(n)])[1..] == lines[1..] + [LengthLine(n)];
    }
  }

  lemma {:induction false} JoinSnoc(lines: seq<string>, more: seq<string>)
    requires lines != [] && more != []
    ensures JoinLines(lines + more) == JoinLines(lines) + CRLF + JoinLines(more)
  {
    if |lines| > 1 {
      JoinSnoc(lines[1..], more);
      assert (lines + more)[1..] == lines[1..] + more;
    } else {
      assert (lines + more)[1..] == more;
    }
  }

  // --------------------------------------------------------- the blank line

  lemma NoBlankLineInside(line: string, after: string)
    requires Unbroken(line)
    requires !(|after| >= 2 && after[0] == '\r' && after[1] == '\n')
    ensures forall k: nat :: k < |line| + 2 ==> !BlankLineAt(line + CRLF + after, k)
  {
    var s := line + CRLF + after;
    assert forall i :: 0 <= i < |line| ==> s[i] == line[i];
    assert s[|line|] == '\r' && s[|line| + 1] == '\n';
    assert forall i :: 0 <= i < |after| ==> s[|line| + 2 + i] == after[i];
  }

  /** The first blank line of a message is the one behind its headers. */
  lemma {:induction false} BlankLineIsBehind(lines: seq<string>, rest: string)
    requires lines != [] && forall i :: 0 <= i < |lines| ==> lines[i] != "" && Unbroken(lines[i])
    ensures forall k: nat :: k < |JoinLines(lines)| ==> !BlankLineAt(JoinLines(lines) + CRLF + CRLF + rest, k)
  {
    var s := JoinLines(lines) + CRLF + CRLF + rest;
    if |lines| == 1 {
      assert s == lines[0] + CRLF + (CRLF + rest);
      var line := lines[0];
      assert forall i :: 0 <= i < |line| ==> s[i] == line[i];
      assert s[|line|] == '\r';
    } else {
      BlankLineIsBehind(lines[1..], rest);
      var after := JoinLines(lines[1..]) + CRLF + CRLF + rest;
      assert s == lines[0] + CRLF + after;
      assert after[0] == lines[1][0];
      assert after[1] == if |lines[1]| > 1 then lines[1][1] else '\r';
      NoBlankLineInside(lines[0], after);
      assert forall k: nat :: k >= |lines[0]| + 2 ==> (BlankLineAt(s, k) <==> BlankLineAt(after, k - |lines[0]| - 2));
    }
  }

  lemma HeaderEndIs(s: string, i: nat)
    requires BlankLineAt(s, i) && forall k: nat :: k < i ==> !BlankLineAt(s, k)
    ensures HeaderEnd(s) == i
  {
    assert HeaderEnd(s) <= i;
  }

  /** The header block of a message, as it is on the wire. */
  function HeaderBlock(lines: seq<string>, n: nat): string {
    JoinLines(EncodeAll(lines + [LengthLine(n)]))
  }

  lemma TextLayout(lines: seq<string>, body: string)
    requires lines != []
    ensures MessageText(lines, body) == JoinLines(lines + [LengthLine(|body|)]) + (CRLF + (CRLF + body))
  {
    var all := lines + [LengthLine(|body|)];
    assert lines + [LengthLine(|body|), "", body] == all + ["", body];
    JoinSnoc(all, ["", body]);
    JoinSnoc([""], [body]);
    assert [""] + [body] == ["", body];
    assert JoinLines(["", body]) == CRLF + body;
    assert JoinLines(all) + CRLF + (CRLF + body) == JoinLines(all) + (CRLF + (CRLF + body));
  }

  lemma EncodeBehindCrlf(s: string)
    ensures Encode(CRLF + s) == CRLF + Encode(s)
  {
    EncodeAppend(CRLF, s);
    EncodeAscii(CRLF);
  }

  lemma Regrouped(a: string, b: string)
    ensures a + (CRLF + (CRLF + b)) == a + CRLF + CRLF + b
  {
  }

  lemma MessageLayout(lines: seq<string>, body: string)
    requires lines != []
    ensures MessageBytes(lines, body) == HeaderBlock(lines, |body|) + CRLF + CRLF + Encode(body)
  {
    var all := lines + [LengthLine(|body|)];
    TextLayout(lines, body);
    EncodeAppend(JoinLines(all), CRLF + (CRLF + body));
    EncodeBehindCrlf(CRLF + body);
    EncodeBehindCrlf(body);
    EncodeJoin(all);
    Regrouped(HeaderBlock(lines, |body|), Encode(body));
  }

  lemma HeaderLinesEncoded(lines: seq<string>, n: nat)
    requires HeaderLines(lines)
    ensures var all := EncodeAll(lines + [LengthLine(n)]);
      && |all| == |lines| + 1 && all[|lines|] == LengthLine(n)
      && (forall i :: 0 <= i < |all| ==> all[i] != "" && Unbroken(all[i]))
      && (forall i :: 0 < i < |lines| ==> !AnnouncesLength(all[i]))
  {
    var given := lines + [LengthLine(n)];
    LengthLineFits(n);
    EncodeAscii(LengthLine(n));
    forall i | 0 <= i < |given| ensures EncodeAll(given)[i] != "" && Unbroken(EncodeAll(given)[i]) {
      EncodeUnbroken(given[i]);
      EncodeLength(given[i]);
    }
  }

  lemma BlockAnnounces(lines: seq<string>, n: nat)
    requires HeaderLines(lines)
    ensures ContentLengthOf(HeaderBlock(lines, n)) == n
  {
    HeaderLinesEncoded(lines, n);
    var all := EncodeAll(lines + [LengthLine(n)]);
    SplitJoined(all);
    assert all[1..] == all[1..|lines|] + [LengthLine(n)];
    LengthBehind(all[1..|lines|], n);
  }

  lemma BlockBegins(lines: seq<string>, n: nat)
    requires HeaderLines(lines)
    ensures |HeaderBlock(lines, n)| >= 2 && !(HeaderBlock(lines, n)[0] == '\r' && HeaderBlock(lines, n)[1] == '\n')
  {
    HeaderLinesEncoded(lines, n);
    var all := EncodeAll(lines + [LengthLine(n)]);
    var first := all[0];
    assert HeaderBlock(lines, n) == first + CRLF + JoinLines(all[1..]);
  }

  /** The reader finds the end of the headers of a built message. */
  lemma BuiltHeaderEnds(lines: seq<string>, n: nat, after: Octets)
    requires HeaderLines(lines)
    ensures HeaderEnd(HeaderBlock(lines, n) + CRLF + CRLF + after) == |HeaderBlock(lines, n)|
  {
    HeaderLinesEncoded(lines, n);
    BlankLineIsBehind(EncodeAll(lines + [LengthLine(n)]), after);
    HeaderEndIs(HeaderBlock(lines, n) + CRLF + CRLF + after, |HeaderBlock(lines, n)|);
  }

  lemma LayoutEnds(m: Octets, block: string, after: Octets, n: nat)
    requires m == block + CRLF + CRLF + after
    requires |block| >= 2 && !(block[0] == '\r' && block[1] == '\n')
    requires HeaderEnd(m) == |block| && ContentLengthOf(block) == n
    ensures !StartsWithCrlf(m) && HeaderEnd(m) < |m| == |block| + 4 + |after|
    ensures MessageEnd(m) == |block| + 4 + n
  {
    assert m[..|block|] == block;
  }

  /** Where the reader takes a built message to end: as far behind the blank line as
      the body has characters. */
  lemma BuiltEnds(lines: seq<string>, body: string)
    requires HeaderLines(lines)
    ensures var m := MessageBytes(lines, body);
      && !StartsWithCrlf(m) && HeaderEnd(m) < |m| == |HeaderBlock(lines, |body|)| + 4 + |Encode(body)|
      && MessageEnd(m) == |HeaderBlock(lines, |body|)| + 4 + |body|
  {
    MessageLayout(lines, body);
    BuiltHeaderEnds(lines, |body|, Encode(body));
    BlockBegins(lines, |body|);
    BlockAnnounces(lines, |body|);
    LayoutEnds(MessageBytes(lines, body), HeaderBlock(lines, |body|), Encode(body), |body|);
  }

  /** A built message ends where it says exactly when its body is ASCII: the length it
      announces counts characters. */
  lemma FramedIffAscii(lines: seq<string>, body: string)
    requires HeaderLines(lines)
    ensures Framed(MessageBytes(lines, body)) <==> IsAscii(body)
  {
    BuiltEnds(lines, body);
    EncodeLength(body);
  }

  /** Otherwise it is cut short, and the end of its body is taken for the beginning
      of the next message. */
  lemma OthersAreCutShort(lines: seq<string>, body: string)
    requires HeaderLines(lines) && !IsAscii(body)
    ensures var m := MessageBytes(lines, body);
      && HeaderEnd(m) < |m| && MessageEnd(m) < |m|
      && Split(m) == Behind(m[..MessageEnd(m)], Split(m[MessageEnd(m)..]))
  {
    BuiltEnds(lines, body);
    EncodeLength(body);
    TakesMessageAlone(MessageBytes(lines, body));
  }

  /** One accented letter is two bytes and is counted as one, so the last byte of the
      message is left over. */
  lemma LetterCutShort(lines: seq<string>, letter: char)
    requires HeaderLines(lines) && 0x80 <= letter as int < 0x800
    ensures var m := MessageBytes(lines, [letter]);
            Split(m).messages != [] && Split(m).messages[0] == m[..|m| - 1]
  {
    assert Encode([letter]) == EncodeChar(letter);
    BuiltEnds(lines, [letter]);
    assert !IsAscii([letter]);
    OthersAreCutShort(lines, [letter]);
  }

  // ------------------------------------------------ a whole stream of them

  datatype Outgoing = Ping | Built(lines: seq<string>, body: string)

  function Sent(o: Outgoing): Token {
    match o
    case Ping => Keepalive
    case Built(lines, body) => Message(MessageBytes(lines, body))
  }

  function SentAll(out: seq<Outgoing>): seq<Token> {
    if out == [] then [] else [Sent(out[0])] + SentAll(out[1..])
  }

  predicate Sendable(o: Outgoing) {
    o.Built? ==> HeaderLines(o.lines) && IsAscii(o.body)
  }

  lemma {:induction false} SentIsProper(out: seq<Outgoing>)
    requires forall i :: 0 <= i < |out| ==> Sendable(out[i])
    ensures Proper(SentAll(out))
  {
    if out != [] {
      SentIsProper(out[1..]);
      if out[0].Built? {
        FramedIffAscii(out[0].lines, out[0].body);
      }
    }
  }

  /** Whatever is sent, with pings anywhere in between and in whatever chunks it
      arrives, is read as exactly the messages that were built. */
  method Arrives(out: seq<Outgoing>, chunks: seq<Octets>) returns (delivered: seq<Octets>, buffer: Octets)
    requires forall i :: 0 <= i < |out| ==> Sendable(out[i])
    requires forall k :: 0 <= k < |chunks| ==> chunks[k] != []
    requires Flatten(chunks) == Wire(SentAll(out), [])
    ensures delivered == Messages(SentAll(out)) && buffer == []
  {
    delivered, buffer := ReadLoop(chunks);
    ReceivedIs(chunks, |chunks|);
    assert chunks[..|chunks|] == chunks;
    SentIsProper(out);
    StreamSplits(SentAll(out), []);
  }
}
