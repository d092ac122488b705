/** Session descriptions: what this bridge offers and answers, and what it reads out
    of the far end's (bridge/sip_sdp.py, bridge/payload_types.py). */
module Sdp {
  import opened Prelude
  import opened Text

  const PCMU: nat := 0
  const PCMA: nat := 8
  const G722: nat := 9
  const EVENT: nat := 101

  predicate Supported(pt: nat) {
    pt == G722 || pt == PCMA || pt == PCMU
  }

  function CodecName(pt: nat): string
    requires Supported(pt)
  {
    if pt == G722 then "G722" else if pt == PCMA then "PCMA" else "PCMU"
  }

  // ------------------------------------------------------------------- text

  predicate IsBreak(c: char) {
    '\n' <= c <= '\r' || (0x1C as char) <= c <= (0x1E as char)
    || c as int == 0x85 || c as int == 0x2028 || c as int == 0x2029
  }

  function BreakAt(s: string): (i: nat)
    ensures i <= |s|
    ensures i < |s| ==> IsBreak(s[i])
    ensures forall k :: 0 <= k < i ==> !IsBreak(s[k])
  {
    if s == [] || IsBreak(s[0]) then 0 else 1 + BreakAt(s[1..])
  }

  /** Where the line behind a break begins: CRLF is one break. */
  function Behind(s: string, i: nat): (j: nat)
    requires i < |s|
    ensures i < j <= |s|
  {
    if s[i] == '\r' && i + 1 < |s| && s[i + 1] == '\n' then i + 2 else i + 1
  }

  function LinesOf(s: string): seq<string>
    decreases |s|
  {
    if s == [] then []
    else
      var i := BreakAt(s);
      if i == |s| then [s] else [s[..i]] + LinesOf(s[Behind(s, i)..])
  }

  function SkipSpace(s: string): (i: nat)
    ensures i <= |s| && (i < |s| ==> !IsSpace(s[i]))
    ensures forall k :: 0 <= k < i ==> IsSpace(s[k])
  {
    if s == [] || !IsSpace(s[0]) then 0 else 1 + SkipSpace(s[1..])
  }

  function WordEnd(s: string): (i: nat)
    ensures i <= |s| && (i < |s| ==> IsSpace(s[i]))
    ensures forall k :: 0 <= k < i ==> !IsSpace(s[k])
  {
    if s == [] || IsSpace(s[0]) then 0 else 1 + WordEnd(s[1..])
  }

  /** The words between stretches of space. */
  function Words(s: string): seq<string>
    decreases |s|
  {
    if s == [] then []
    else if IsSpace(s[0]) then Words(s[1..])
    else [s[..WordEnd(s)]] + Words(s[WordEnd(s)..])
  }

  predicate StartsWith(s: string, prefix: string) {
    |s| >= |prefix| && s[..|prefix|] == prefix
  }

  // ---------------------------------------------------------------- parsing

  /** parse_offered_payload_types: the numbers behind the third word of the first
      audio line. */
  function Numbers(words: seq<string>): seq<nat> {
    if words == [] then []
    else if IsNumber(words[0]) then [Value(words[0])] + Numbers(words[1..])
    else Numbers(words[1..])
  }

  predicate IsAudio(line: string) {
    StartsWith(Strip(line), "m=audio")
  }

  function TypesIn(line: string): seq<nat> {
    var words := Words(Strip(line));
    if |words| < 3 then [] else Numbers(words[3..])
  }

  function TypesOf(lines: seq<string>): seq<nat> {
    if lines == [] then []
    else if IsAudio(lines[0]) then TypesIn(lines[0])
    else TypesOf(lines[1..])
  }

  function ParseTypes(body: string): seq<nat> {
    TypesOf(LinesOf(body))
  }

  /** parse_sdp_media_address: the first connection line, the last audio line. */
  datatype Seen = Seen(host: Option<string>, port: Option<nat>)

  datatype Media = Media(host: string, port: nat)

  const CONNECTION: string := "c=IN IP4 "

  function HostIn(line: string): string
    requires StartsWith(Strip(line), CONNECTION)
  {
    var rest := Strip(line)[|CONNECTION|..];
    Strip(rest[..IndexOf(rest, '/')])
  }

  function See(seen: Seen, line: string): Seen {
    if StartsWith(Strip(line), CONNECTION) && seen.host.None? then seen.(host := Some(HostIn(line)))
    else if IsAudio(line) then
      var words := Words(Strip(line));
      if |words| > 1 && IsNumber(words[1]) then seen.(port := Some(Value(words[1]))) else seen
    else seen
  }

  function SeeAll(seen: Seen, lines: seq<string>): Seen
    decreases |lines|
  {
    if lines == [] then seen else SeeAll(See(seen, lines[0]), lines[1..])
  }

  function Whole(seen: Seen): Option<Media> {
    if seen.host.Some? && seen.port.Some? && seen.host.value != "" && seen.port.value != 0
    then Some(Media(seen.host.value, seen.port.value))
    else None
  }

  function ParseAddress(body: string): Option<Media> {
    Whole(SeeAll(Seen(None, None), LinesOf(body)))
  }

  /** parse_telephone_event_type, letter case aside. */
  const RTPMAP: string := "a=rtpmap:"

  function DigitsEnd(s: string): (i: nat)
    ensures i <= |s| && (i < |s| ==> !IsDigit(s[i]))
    ensures forall k :: 0 <= k < i ==> IsDigit(s[k])
  {
    if s == [] || !IsDigit(s[0]) then 0 else 1 + DigitsEnd(s[1..])
  }

  function EventIn(line: string): Option<nat> {
    var s := Strip(line);
    if !StartsWith(Lower(s), RTPMAP) then None
    else
      var t := s[|RTPMAP|..];
      var number := t[..DigitsEnd(t)];
      var gap := t[DigitsEnd(t)..];
      var name := gap[SkipSpace(gap)..];
      if number != "" && SkipSpace(gap) > 0 && StartsWith(Lower(name), "telephone-event/")
      then Some(Value(number)) else None
  }

  function EventOf(lines: seq<string>): Option<nat> {
    if lines == [] then None
    else if EventIn(lines[0]).Some? then EventIn(lines[0])
    else EventOf(lines[1..])
  }

  function ParseEvent(body: string): Option<nat> {
    EventOf(LinesOf(body))
  }

  // ------------------------------------------------- the loops they run as

  method ParseOfferedPayloadTypes(body: string) returns (types: seq<nat>)
    ensures types == ParseTypes(body)
  {
    var lines := LinesOf(body);
    var n := 0;
    while n < |lines|
      invariant 0 <= n <= |lines|
      invariant TypesOf(lines[n..]) == ParseTypes(body)
    {
      assert lines[n..][1..] == lines[n + 1..];
      if IsAudio(lines[n]) {
        return TypesIn(lines[n]);
      }
      n := n + 1;
    }
    types := [];
  }

  method ParseSdpMediaAddress(body: string) returns (media: Option<Media>)
    ensures media == ParseAddress(body)
  {
    var lines := LinesOf(body);
    var host, port := None, None;
    var n := 0;
    while n < |lines|
      invariant 0 <= n <= |lines|
      invariant SeeAll(Seen(host, port), lines[n..]) == SeeAll(Seen(None, None), lines)
    {
      assert lines[n..][1..] == lines[n + 1..];
      var line := Strip(lines[n]);
      if StartsWith(line, CONNECTION) && host.None? {
        host := Some(HostIn(lines[n]));
      } else if StartsWith(line, "m=audio") {
        var words := Words(line);
        if |words| > 1 && IsNumber(words[1]) {
          port := Some(Value(words[1]));
        }
      }
      n := n + 1;
    }
    media := Whole(Seen(host, port));
  }

  method ParseTelephoneEventType(body: string) returns (number: Option<nat>)
    ensures number == ParseEvent(body)
  {
    var lines := LinesOf(body);
    var n := 0;
    while n < |lines|
      invariant 0 <= n <= |lines|
      invariant EventOf(lines[n..]) == ParseEvent(body)
    {
      assert lines[n..][1..] == lines[n + 1..];
      if EventIn(lines[n]).Some? {
        return EventIn(lines[n]);
      }
      n := n + 1;
    }
    number := None;
  }

  // --------------------------------------------------------------- building

  /** Lines, each with its CRLF. */
  function Document(lines: seq<string>): string {
    if lines == [] then "" else lines[0] + CRLF + Document(lines[1..])
  }

  function Spaced(words: seq<string>): string
    requires words != []
  {
    if |words| == 1 then words[0] else words[0] + " " + Spaced(words[1..])
  }

  function Decimals(ns: seq<nat>): (r: seq<string>)
    ensures |r| == |ns| && forall i :: 0 <= i < |ns| ==> r[i] == Decimal(ns[i])
  {
    seq(|ns|, i requires 0 <= i < |ns| => Decimal(ns[i]))
  }

  function AudioWords(port: nat, types: seq<nat>): (words: seq<string>)
    ensures |words| == 3 + |types| && words[0] == "m=audio" && words[1] == Decimal(port)
    ensures words[3..] == Decimals(types)
  {
    ["m=audio", Decimal(port), "RTP/AVP"] + Decimals(types)
  }

  function AudioLine(port: nat, types: seq<nat>): string {
    Spaced(AudioWords(port, types))
  }

  function CodecLine(pt: nat): string
    requires Supported(pt)
  {
    RTPMAP + Decimal(pt) + " " + CodecName(pt) + "/8000"
  }

  const EVENT_NAME: string := "telephone-event/8000"

  function EventMap(number: nat): string {
    RTPMAP + Decimal(number) + " " + EVENT_NAME
  }

  function EventFormat(number: nat): string {
    "a=fmtp:" + Decimal(number) + " 0-15"
  }

  function EventLines(number: nat): seq<string> {
    [EventMap(number), EventFormat(number)]
  }

  function Opening(host: string): seq<string> {
    ["v=0", "o=- 0 0 IN IP4 " + host, "s=-"]
  }

  function BeforeAudio(host: string): seq<string> {
    Opening(host) + [CONNECTION + host] + ["t=0 0"]
  }

  function SessionLines(at: Media, types: seq<nat>): seq<string> {
    BeforeAudio(at.host) + [AudioLine(at.port, types)]
  }

  datatype Line = Line(localIp: string, relayed: bool, relayHost: string, relayPort: nat)

  /** Behind a media relay the relay's address is advertised. */
  function Advertised(line: Line, localPort: nat): Media {
    if line.relayed then Media(line.relayHost, line.relayPort) else Media(line.localIp, localPort)
  }

  function CodecLines(pts: seq<nat>): (r: seq<string>)
    requires forall i :: 0 <= i < |pts| ==> Supported(pts[i])
    ensures |r| == |pts| && forall i :: 0 <= i < |pts| ==> r[i] == CodecLine(pts[i])
  {
    seq(|pts|, i requires 0 <= i < |pts| => CodecLine(pts[i]))
  }

  /** Codecs, and key presses under a number of their own. */
  function Described(at: Media, pts: seq<nat>, number: nat): string
    requires forall i :: 0 <= i < |pts| ==> Supported(pts[i])
  {
    Document(SessionLines(at, pts + [number]) + (CodecLines(pts) + EventLines(number)))
  }

  function OfferSdp(line: Line, localPort: nat): string {
    Described(Advertised(line, localPort), [G722, PCMA, PCMU], EVENT)
  }

  function AnswerTypes(pt: nat, event: Option<nat>): seq<nat> {
    match event
    case None => [pt]
    case Some(number) => [pt, number]
  }

  function AnswerEvents(event: Option<nat>): seq<string> {
    match event
    case None => []
    case Some(number) => EventLines(number)
  }

  function AnswerSdp(line: Line, localPort: nat, pt: nat, event: Option<nat>): string
    requires Supported(pt)
  {
    Document(SessionLines(Advertised(line, localPort), AnswerTypes(pt, event))
             + (CodecLines([pt]) + AnswerEvents(event)))
  }

  // ----------------------------------------------------------- the codec

  function FirstSupported(offered: seq<nat>): Option<nat> {
    if offered == [] then None
    else if Supported(offered[0]) then Some(offered[0])
    else FirstSupported(offered[1..])
  }

  function Choose(offered: seq<nat>): Option<nat> {
    if G722 in offered then Some(G722) else FirstSupported(offered)
  }

  lemma {:induction false} FirstSupportedIs(offered: seq<nat>)
    ensures FirstSupported(offered).None? <==> forall i :: 0 <= i < |offered| ==> !Supported(offered[i])
    ensures forall pt :: FirstSupported(offered) == Some(pt) ==>
      exists i :: 0 <= i < |offered| && offered[i] == pt && Supported(pt)
                  && forall k :: 0 <= k < i ==> !Supported(offered[k])
  {
    if offered != [] && !Supported(offered[0]) {
      var others := offered[1..];
      FirstSupportedIs(others);
      assert forall i :: 1 <= i < |offered| ==> offered[i] == others[i - 1];
      if FirstSupported(others).Some? {
        var i :| 0 <= i < |others| && others[i] == FirstSupported(others).value
                 && forall k :: 0 <= k < i ==> !Supported(others[k]);
        assert offered[i + 1] == others[i];
      }
    }
  }

  /** A codec is chosen exactly when there is one in common; it is one both speak:
      G.722 where it is offered, and otherwise the caller's first that is spoken here. */
  lemma ChosenIsCommon(offered: seq<nat>)
    ensures Choose(offered).None? <==> forall i :: 0 <= i < |offered| ==> !Supported(offered[i])
    ensures forall pt :: Choose(offered) == Some(pt) ==> Supported(pt) && pt in offered
    ensures forall i :: 0 <= i < |offered| && Supported(offered[i])
              && (forall k :: 0 <= k < i ==> !Supported(offered[k]))
              ==> Choose(offered) == Some(if G722 in offered then G722 else offered[i])
  {
    FirstSupportedIs(offered);
  }

  // ------------------------------------------------- reading what was built

  predicate NoBreak(s: string) {
    forall i :: 0 <= i < |s| ==> !IsBreak(s[i])
  }

  predicate IsWord(w: string) {
    w != "" && forall i :: 0 <= i < |w| ==> !IsSpace(w[i])
  }

  /** An address a description can carry. */
  predicate IsHost(h: string) {
    IsWord(h) && NoBreak(h) && forall i :: 0 <= i < |h| ==> h[i] != '/'
  }

  lemma LineOff(line: string, rest: string)
    requires NoBreak(line)
    ensures LinesOf(line + CRLF + rest) == [line] + LinesOf(rest)
  {
    var s := line + CRLF + rest;
    assert forall i :: 0 <= i < |line| ==> s[i] == line[i];
    assert s[|line|] == '\r' && s[|line| + 1] == '\n';
    assert BreakAt(s) == |line|;
    assert s[..|line|] == line;
    assert s[|line| + 2..] == rest;
  }

  lemma {:induction false} DocumentReads(lines: seq<string>)
    requires forall i :: 0 <= i < |lines| ==> NoBreak(lines[i])
    ensures LinesOf(Document(lines)) == lines
  {
    if lines != [] {
      DocumentReads(lines[1..]);
      LineOff(lines[0], Document(lines[1..]));
    }
  }

  lemma FirstWordEnds(s: string, w: string)
    requires IsWord(w) && StartsWith(s, w) && (|s| > |w| ==> IsSpace(s[|w|]))
    ensures !IsSpace(s[0]) && WordEnd(s) == |w|
  {
    assert forall i :: 0 <= i < |w| ==> s[i] == w[i];
  }

  lemma WordOff(s: string, w: string)
    requires IsWord(w) && StartsWith(s, w) && (|s| > |w| ==> IsSpace(s[|w|]))
    ensures Words(s) == [w] + Words(s[|w|..])
  {
    FirstWordEnds(s, w);
  }

  lemma WordAlone(w: string)
    requires IsWord(w)
    ensures Words(w) == [w]
  {
    WordOff(w, w);
    assert w[|w|..] == [];
    assert Words([]) == [];
  }

  lemma SpaceOff(s: string)
    ensures Words(" " + s) == Words(s)
  {
    assert (" " + s)[1..] == s;
  }

  lemma FirstOfSpaced(w: string, others: string)
    requires IsWord(w)
    ensures Words(w + " " + others) == [w] + Words(others)
  {
    var s := w + " " + others;
    assert s[..|w|] == w && s[|w|..] == " " + others;
    WordOff(s, w);
    SpaceOff(others);
  }

  lemma {:induction false} SpacedReads(words: seq<string>)
    requires words != [] && forall i :: 0 <= i < |words| ==> IsWord(words[i])
    ensures Words(Spaced(words)) == words
  {
    if |words| == 1 {
      WordAlone(words[0]);
    } else {
      FirstOfSpaced(words[0], Spaced(words[1..]));
      SpacedReads(words[1..]);
    }
  }

  lemma {:induction false} SpacedEnds(words: seq<string>)
    requires words != [] && forall i :: 0 <= i < |words| ==> IsWord(words[i]) && NoBreak(words[i])
    ensures |Spaced(words)| >= |words[0]| > 0 && Spaced(words)[..|words[0]|] == words[0]
    ensures !IsSpace(Last(Spaced(words))) && NoBreak(Spaced(words))
  {
    if |words| > 1 {
      SpacedEnds(words[1..]);
    }
  }

  lemma DecimalIsWord(n: nat)
    ensures IsWord(Decimal(n)) && NoBreak(Decimal(n))
  {
    var s := Decimal(n);
    forall i | 0 <= i < |s| ensures !IsSpace(s[i]) && !IsBreak(s[i]) {
      assert IsDigit(s[i]);
    }
  }

  lemma {:induction false} NumbersRead(ns: seq<nat>)
    ensures Numbers(Decimals(ns)) == ns
  {
    if ns != [] {
      DecimalValue(ns[0]);
      NumbersRead(ns[1..]);
      assert Decimals(ns)[1..] == Decimals(ns[1..]);
    }
  }

  lemma AudioWordsFit(port: nat, types: seq<nat>)
    ensures forall i :: 0 <= i < 3 + |types| ==>
      IsWord(AudioWords(port, types)[i]) && NoBreak(AudioWords(port, types)[i])
  {
    DecimalIsWord(port);
    forall i | 3 <= i < 3 + |types| ensures IsWord(AudioWords(port, types)[i]) && NoBreak(AudioWords(port, types)[i]) {
      DecimalIsWord(types[i - 3]);
    }
  }

  lemma AudioLineFits(port: nat, types: seq<nat>)
    ensures var line := AudioLine(port, types);
      && Strip(line) == line && NoBreak(line) && StartsWith(line, "m=audio") && line[0] == 'm'
      && Words(line) == AudioWords(port, types)
  {
    AudioWordsFit(port, types);
    SpacedReads(AudioWords(port, types));
    SpacedEnds(AudioWords(port, types));
    var line := AudioLine(port, types);
    assert line[0] == line[..7][0];
    StripNothing(line);
  }

  /** What the audio line is read as. */
  lemma AudioReads(port: nat, types: seq<nat>)
    ensures IsAudio(AudioLine(port, types)) && TypesIn(AudioLine(port, types)) == types
  {
    AudioLineFits(port, types);
    NumbersRead(types);
  }

  lemma StartsElsewhere(line: string, prefix: string)
    requires line != "" && !IsSpace(line[0]) && !IsSpace(Last(line))
    requires prefix != "" && prefix[0] != line[0]
    ensures Strip(line) == line && !StartsWith(line, prefix)
  {
    StripNothing(line);
  }

  /** A line that says neither where to send audio nor what. */
  predicate Beside(line: string) {
    line != "" && !IsSpace(line[0]) && !IsSpace(Last(line)) && line[0] != 'c' && line[0] != 'm'
  }

  lemma {:induction false} BesideIsSkipped(seen: Seen, lines: seq<string>)
    requires AllBeside(lines)
    ensures SeeAll(seen, lines) == seen
    decreases |lines|
  {
    if lines != [] {
      StartsElsewhere(lines[0], CONNECTION);
      StartsElsewhere(lines[0], "m=audio");
      BesideIsSkipped(seen, lines[1..]);
    }
  }

  lemma ConnectionReads(host: string, port: Option<nat>)
    requires IsHost(host)
    ensures See(Seen(None, port), CONNECTION + host) == Seen(Some(host), port)
  {
    var line := CONNECTION + host;
    assert Last(line) == Last(host);
    StripNothing(line);
    assert line[|CONNECTION|..] == host;
    assert IndexOf(host, '/') == |host|;
    assert host[..|host|] == host;
    StripNothing(host);
  }

  lemma AudioSeen(seen: Seen, port: nat, types: seq<nat>)
    ensures See(seen, AudioLine(port, types)) == Seen(seen.host, Some(port))
  {
    AudioLineFits(port, types);
    DecimalValue(port);
  }

  lemma {:induction false} SeeAppend(seen: Seen, a: seq<string>, b: seq<string>)
    ensures SeeAll(seen, a + b) == SeeAll(SeeAll(seen, a), b)
    decreases |a|
  {
    if a == [] {
      assert a + b == b;
    } else {
      var first, others := a[0], a[1..];
      SeeAppend(See(seen, first), others, b);
      assert (a + b)[0] == first && (a + b)[1..] == others + b;
    }
  }

  lemma SeeOne(seen: Seen, line: string)
    ensures SeeAll(seen, [line]) == See(seen, line)
  {
    assert [line][1..] == [];
  }

  lemma {:induction false} TypesBehind(lines: seq<string>, rest: seq<string>)
    requires forall i :: 0 <= i < |lines| ==> !IsAudio(lines[i])
    ensures TypesOf(lines + rest) == TypesOf(rest)
  {
    if lines == [] {
      assert lines + rest == rest;
    } else {
      TypesBehind(lines[1..], rest);
      assert (lines + rest)[1..] == lines[1..] + rest;
    }
  }

  lemma {:induction false} EventBehind(lines: seq<string>, rest: seq<string>)
    requires forall i :: 0 <= i < |lines| ==> EventIn(lines[i]).None?
    ensures EventOf(lines + rest) == EventOf(rest)
  {
    if lines == [] {
      assert lines + rest == rest;
    } else {
      EventBehind(lines[1..], rest);
      assert (lines + rest)[1..] == lines[1..] + rest;
    }
  }

  lemma NotStarts(s: string, prefix: string)
    requires s != "" && prefix != "" && s[0] != prefix[0]
    ensures !StartsWith(s, prefix)
  {
    assert |s| >= |prefix| ==> s[..|prefix|][0] == s[0];
  }

  lemma NoEvent(line: string)
    requires line != "" && !IsSpace(line[0]) && !IsSpace(Last(line)) && LowerChar(line[0]) != 'a'
    ensures EventIn(line).None?
  {
    StripNothing(line);
    NotStarts(Lower(line), RTPMAP);
  }

  lemma DigitsEndIs(s: string, i: nat)
    requires i < |s| && !IsDigit(s[i]) && forall k :: 0 <= k < i ==> IsDigit(s[k])
    ensures DigitsEnd(s) == i
  {
  }

  lemma RtpmapStrips(number: nat, name: string)
    requires IsWord(name)
    ensures var s := RTPMAP + Decimal(number) + " " + name;
      && Strip(s) == s && StartsWith(Lower(s), RTPMAP) && s[|RTPMAP|..] == Decimal(number) + " " + name
  {
    var s := RTPMAP + Decimal(number) + " " + name;
    assert Last(s) == Last(name) && s[0] == 'a';
    StripNothing(s);
    assert forall i :: 0 <= i < |RTPMAP| ==> s[i] == RTPMAP[i];
    assert Lower(s)[..|RTPMAP|] == RTPMAP;
  }

  lemma NumberEnds(number: nat, after: string)
    requires after != "" && !IsDigit(after[0])
    ensures var t := Decimal(number) + after;
      && DigitsEnd(t) == |Decimal(number)| && t[..DigitsEnd(t)] == Decimal(number) && t[DigitsEnd(t)..] == after
  {
    var t := Decimal(number) + after;
    assert forall k :: 0 <= k < |Decimal(number)| ==> t[k] == Decimal(number)[k];
    DigitsEndIs(t, |Decimal(number)|);
  }

  lemma GapEnds(name: string)
    requires IsWord(name)
    ensures SkipSpace(" " + name) == 1 && (" " + name)[1..] == name
  {
    assert (" " + name)[1..] == name && SkipSpace(name) == 0;
  }

  /** What a line mapping a payload type is read as. */
  lemma RtpmapReads(number: nat, name: string)
    requires IsWord(name)
    ensures EventIn(RTPMAP + Decimal(number) + " " + name)
         == if StartsWith(Lower(name), "telephone-event/") then Some(number) else None
  {
    RtpmapStrips(number, name);
    assert Decimal(number) + " " + name == Decimal(number) + (" " + name);
    NumberEnds(number, " " + name);
    GapEnds(name);
    DecimalValue(number);
  }

  // --------------------------------------------------- the whole description

  /** Lines that stay whole, and lines beside those that place the audio. */
  predicate Intact(lines: seq<string>) {
    forall i :: 0 <= i < |lines| ==> NoBreak(lines[i])
  }

  predicate AllBeside(lines: seq<string>) {
    forall i :: 0 <= i < |lines| ==> Beside(lines[i])
  }

  lemma IntactJoin(a: seq<string>, b: seq<string>)
    requires Intact(a) && Intact(b)
    ensures Intact(a + b)
  {
  }

  lemma BesideJoin(a: seq<string>, b: seq<string>)
    requires AllBeside(a) && AllBeside(b)
    ensures AllBeside(a + b)
  {
  }

  lemma HostBehind(key: string, host: string)
    requires IsHost(host) && NoBreak(key)
    ensures NoBreak(key + host) && !IsSpace(Last(key + host))
  {
    assert Last(key + host) == Last(host);
  }

  lemma OpeningFits(host: string)
    requires IsHost(host)
    ensures AllBeside(Opening(host)) && Intact(Opening(host))
  {
    HostBehind("o=- 0 0 IN IP4 ", host);
  }

  lemma IntactSnoc(lines: seq<string>, line: string)
    requires Intact(lines) && NoBreak(line)
    ensures Intact(lines + [line])
  {
  }

  lemma BeforeAudioFits(host: string)
    requires IsHost(host)
    ensures Intact(BeforeAudio(host))
  {
    OpeningFits(host);
    HostBehind(CONNECTION, host);
    IntactSnoc(Opening(host), CONNECTION + host);
    IntactSnoc(Opening(host) + [CONNECTION + host], "t=0 0");
  }

  lemma SessionFits(at: Media, types: seq<nat>)
    requires IsHost(at.host)
    ensures Intact(SessionLines(at, types))
  {
    BeforeAudioFits(at.host);
    AudioLineFits(at.port, types);
    IntactSnoc(BeforeAudio(at.host), AudioLine(at.port, types));
  }

  lemma BeforeAudioSeen(host: string)
    requires IsHost(host)
    ensures SeeAll(Seen(None, None), BeforeAudio(host)) == Seen(Some(host), None)
  {
    var start, placed := Seen(None, None), Seen(Some(host), None);
    OpeningFits(host);
    BesideIsSkipped(start, Opening(host));
    SeeAppend(start, Opening(host), [CONNECTION + host]);
    SeeOne(start, CONNECTION + host);
    ConnectionReads(host, None);
    SeeAppend(start, Opening(host) + [CONNECTION + host], ["t=0 0"]);
    BesideIsSkipped(placed, ["t=0 0"]);
  }

  lemma SessionSeen(at: Media, types: seq<nat>, rest: seq<string>)
    requires IsHost(at.host) && AllBeside(rest)
    ensures SeeAll(Seen(None, None), SessionLines(at, types) + rest) == Seen(Some(at.host), Some(at.port))
  {
    var start, audio := Seen(None, None), AudioLine(at.port, types);
    BeforeAudioSeen(at.host);
    SeeAppend(start, BeforeAudio(at.host), [audio]);
    SeeOne(Seen(Some(at.host), None), audio);
    AudioSeen(Seen(Some(at.host), None), at.port, types);
    SeeAppend(start, SessionLines(at, types), rest);
    BesideIsSkipped(Seen(Some(at.host), Some(at.port)), rest);
  }

  /** A line that names neither payload types nor key presses. */
  predicate Silent(line: string) {
    !IsAudio(line) && EventIn(line).None?
  }

  lemma IsSilent(line: string)
    requires line != "" && !IsSpace(line[0]) && !IsSpace(Last(line)) && line[0] != 'm' && LowerChar(line[0]) != 'a'
    ensures Silent(line)
  {
    StartsElsewhere(line, "m=audio");
    NoEvent(line);
  }

  predicate AllSilent(lines: seq<string>) {
    forall i :: 0 <= i < |lines| ==> Silent(lines[i])
  }

  lemma SilentSnoc(lines: seq<string>, line: string)
    requires AllSilent(lines) && Silent(line)
    ensures AllSilent(lines + [line])
  {
  }

  lemma OpeningIsSilent(host: string)
    requires IsHost(host)
    ensures AllSilent(Opening(host))
  {
    HostBehind("o=- 0 0 IN IP4 ", host);
    IsSilent("v=0");
    IsSilent("o=- 0 0 IN IP4 " + host);
    IsSilent("s=-");
  }

  lemma BeforeAudioIsSilent(host: string)
    requires IsHost(host)
    ensures AllSilent(BeforeAudio(host))
  {
    OpeningIsSilent(host);
    HostBehind(CONNECTION, host);
    IsSilent(CONNECTION + host);
    IsSilent("t=0 0");
    SilentSnoc(Opening(host), CONNECTION + host);
    SilentSnoc(Opening(host) + [CONNECTION + host], "t=0 0");
  }

  lemma TypesAtAudio(before: seq<string>, audio: string, rest: seq<string>)
    requires AllSilent(before) && IsAudio(audio)
    ensures TypesOf(before + [audio] + rest) == TypesIn(audio)
  {
    Regroup(before, [audio], rest);
    TypesBehind(before, [audio] + rest);
  }

  lemma EventsBehindAudio(before: seq<string>, audio: string, rest: seq<string>)
    requires AllSilent(before) && EventIn(audio).None?
    ensures EventOf(before + [audio] + rest) == EventOf(rest)
  {
    Regroup(before, [audio], rest);
    EventBehind(before, [audio] + rest);
    EventBehind([audio], rest);
  }

  lemma SessionTypes(at: Media, types: seq<nat>, rest: seq<string>)
    requires IsHost(at.host)
    ensures TypesOf(SessionLines(at, types) + rest) == types
  {
    BeforeAudioIsSilent(at.host);
    AudioReads(at.port, types);
    TypesAtAudio(BeforeAudio(at.host), AudioLine(at.port, types), rest);
  }

  lemma AudioHasNoEvent(port: nat, types: seq<nat>)
    ensures EventIn(AudioLine(port, types)).None?
  {
    AudioLineFits(port, types);
    NotStarts(Lower(AudioLine(port, types)), RTPMAP);
  }

  lemma SessionHasNoEvent(at: Media, types: seq<nat>, rest: seq<string>)
    requires IsHost(at.host)
    ensures EventOf(SessionLines(at, types) + rest) == EventOf(rest)
  {
    BeforeAudioIsSilent(at.host);
    AudioHasNoEvent(at.port, types);
    EventsBehindAudio(BeforeAudio(at.host), AudioLine(at.port, types), rest);
  }

  lemma MapFits(number: nat, name: string)
    requires IsWord(name) && NoBreak(name)
    ensures var line := RTPMAP + Decimal(number) + " " + name; Beside(line) && NoBreak(line)
  {
    var line := RTPMAP + Decimal(number) + " " + name;
    DecimalIsWord(number);
    assert Last(line) == Last(name);
  }

  lemma CodecFits(pt: nat)
    requires Supported(pt)
    ensures Beside(CodecLine(pt)) && NoBreak(CodecLine(pt)) && EventIn(CodecLine(pt)).None?
  {
    var name := CodecName(pt) + "/8000";
    assert CodecLine(pt) == RTPMAP + Decimal(pt) + " " + name;
    MapFits(pt, name);
    RtpmapReads(pt, name);
    NotStarts(Lower(name), "telephone-event/");
  }

  lemma EventNameFits()
    ensures IsWord(EVENT_NAME) && NoBreak(EVENT_NAME)
  {
  }

  lemma EventNameIsRead()
    ensures StartsWith(Lower(EVENT_NAME), "telephone-event/")
  {
    assert Lower(EVENT_NAME)[..16] == EVENT_NAME[..16];
  }

  lemma EventMapFits(number: nat)
    ensures Beside(EventMap(number)) && NoBreak(EventMap(number)) && EventIn(EventMap(number)) == Some(number)
  {
    EventNameFits();
    EventNameIsRead();
    MapFits(number, EVENT_NAME);
    RtpmapReads(number, EVENT_NAME);
  }

  lemma EventFormatFits(number: nat)
    ensures Beside(EventFormat(number)) && NoBreak(EventFormat(number))
  {
    DecimalIsWord(number);
    assert Last(EventFormat(number)) == '5';
  }

  lemma EventFirst(line: string, after: string)
    ensures EventIn(line).Some? ==> EventOf([line, after]) == EventIn(line)
  {
  }

  lemma PairFits(a: string, b: string)
    requires Beside(a) && NoBreak(a) && Beside(b) && NoBreak(b)
    ensures AllBeside([a, b]) && Intact([a, b])
  {
  }

  lemma EventFits(number: nat)
    ensures AllBeside(EventLines(number)) && Intact(EventLines(number))
    ensures EventOf(EventLines(number)) == Some(number)
  {
    EventMapFits(number);
    EventFormatFits(number);
    PairFits(EventMap(number), EventFormat(number));
    EventFirst(EventMap(number), EventFormat(number));
  }

  /** What a whole description is read as, whatever maps follow its audio line. */
  lemma DescriptionReads(at: Media, types: seq<nat>, maps: seq<string>)
    requires IsHost(at.host) && AllBeside(maps) && Intact(maps)
    ensures var text := Document(SessionLines(at, types) + maps);
      && ParseAddress(text) == (if at.port > 0 then Some(at) else None)
      && ParseTypes(text) == types && ParseEvent(text) == EventOf(maps)
  {
    SessionFits(at, types);
    IntactJoin(SessionLines(at, types), maps);
    DocumentReads(SessionLines(at, types) + maps);
    SessionSeen(at, types, maps);
    SessionTypes(at, types, maps);
    SessionHasNoEvent(at, types, maps);
  }

  lemma CodecsFit(pts: seq<nat>)
    requires forall i :: 0 <= i < |pts| ==> Supported(pts[i])
    ensures AllBeside(CodecLines(pts)) && Intact(CodecLines(pts))
    ensures forall i :: 0 <= i < |pts| ==> EventIn(CodecLines(pts)[i]).None?
  {
    forall i | 0 <= i < |pts|
      ensures Beside(CodecLines(pts)[i]) && NoBreak(CodecLines(pts)[i]) && EventIn(CodecLines(pts)[i]).None?
    {
      CodecFits(pts[i]);
    }
  }

  lemma MapsFit(pts: seq<nat>, events: seq<string>)
    requires forall i :: 0 <= i < |pts| ==> Supported(pts[i])
    requires AllBeside(events) && Intact(events)
    ensures AllBeside(CodecLines(pts) + events) && Intact(CodecLines(pts) + events)
    ensures EventOf(CodecLines(pts) + events) == EventOf(events)
  {
    CodecsFit(pts);
    BesideJoin(CodecLines(pts), events);
    IntactJoin(CodecLines(pts), events);
    EventBehind(CodecLines(pts), events);
  }

  lemma DescribedReads(at: Media, pts: seq<nat>, number: nat)
    requires IsHost(at.host) && forall i :: 0 <= i < |pts| ==> Supported(pts[i])
    ensures var text := Described(at, pts, number);
      && ParseAddress(text) == (if at.port > 0 then Some(at) else None)
      && ParseTypes(text) == pts + [number] && ParseEvent(text) == Some(number)
  {
    EventFits(number);
    MapsFit(pts, EventLines(number));
    DescriptionReads(at, pts + [number], CodecLines(pts) + EventLines(number));
  }

  /** What is offered is read by the far end as it was meant. */
  lemma OfferReadsBack(line: Line, localPort: nat)
    requires IsHost(Advertised(line, localPort).host)
    ensures var text := OfferSdp(line, localPort); var at := Advertised(line, localPort);
      && ParseAddress(text) == (if at.port > 0 then Some(at) else None)
      && ParseTypes(text) == [G722, PCMA, PCMU] + [EVENT] && ParseEvent(text) == Some(EVENT)
  {
    DescribedReads(Advertised(line, localPort), [G722, PCMA, PCMU], EVENT);
  }

  /** What is answered is read back: the address, unless its port is 0, the codec first,
      and the number for key presses only where there is one. */
  lemma AnswerReadsBack(line: Line, localPort: nat, pt: nat, event: Option<nat>)
    requires Supported(pt) && IsHost(Advertised(line, localPort).host)
    ensures var text := AnswerSdp(line, localPort, pt, event); var at := Advertised(line, localPort);
      && ParseAddress(text) == (if at.port > 0 then Some(at) else None)
      && ParseTypes(text) == AnswerTypes(pt, event) && ParseEvent(text) == event
  {
    if event.Some? {
      EventFits(event.value);
    }
    MapsFit([pt], AnswerEvents(event));
    DescriptionReads(Advertised(line, localPort), AnswerTypes(pt, event), CodecLines([pt]) + AnswerEvents(event));
  }

  /** The names RFC 3551 and RFC 4733 give the formats, as they are printed. */
  lemma MapsNameCodecs(number: nat)
    ensures CodecLine(G722) == "a=rtpmap:9 G722/8000" && CodecLine(PCMA) == "a=rtpmap:8 PCMA/8000"
    ensures CodecLine(PCMU) == "a=rtpmap:0 PCMU/8000"
    ensures EventLines(number) == ["a=rtpmap:" + Decimal(number) + " " + "telephone-event/8000",
                                   "a=fmtp:" + Decimal(number) + " 0-15"]
  {
    assert Decimal(9) == "9" && Decimal(8) == "8" && Decimal(0) == "0";
  }

  lemma DecimalsCons(pt: nat, more: seq<nat>)
    ensures Decimals([pt] + more) == [Decimal(pt)] + Decimals(more)
  {
  }

  lemma AudioLinePrints(port: nat, types: seq<nat>)
    requires types != []
    ensures AudioLine(port, types) == "m=audio " + (Decimal(port) + " " + ("RTP/AVP " + Spaced(Decimals(types))))
  {
    AudioWordsPrint(Decimal(port), Decimals(types));
  }

  lemma AudioWordsPrint(port: string, types: seq<string>)
    requires types != []
    ensures Spaced(["m=audio", port, "RTP/AVP"] + types) == "m=audio " + (port + " " + ("RTP/AVP " + Spaced(types)))
  {
    SpacedCons("RTP/AVP", types);
    SpacedCons(port, ["RTP/AVP"] + types);
    SpacedCons("m=audio", [port] + (["RTP/AVP"] + types));
    assert ["m=audio", port, "RTP/AVP"] + types == ["m=audio"] + ([port] + (["RTP/AVP"] + types));
    assert "m=audio" + " " == "m=audio ";
    assert "RTP/AVP" + " " == "RTP/AVP ";
  }

  lemma SpacedCons(word: string, words: seq<string>)
    requires words != []
    ensures Spaced([word] + words) == word + " " + Spaced(words)
  {
    assert ([word] + words)[1..] == words;
  }

  lemma FourTypes()
    ensures Spaced([Decimal(9)] + Decimals([8, 0, 101])) == "9 8 0 101"
  {
    EventNumber();
    assert Decimals([8, 0, 101]) == [Decimal(8), Decimal(0), Decimal(101)];
    assert [Decimal(9)] + Decimals([8, 0, 101]) == [Decimal(9)] + ([Decimal(8)] + ([Decimal(0)] + [Decimal(101)]));
    assert Decimal(9) == "9" && Decimal(8) == "8" && Decimal(0) == "0";
    assert Spaced(["101"]) == "101";
    SpacedCons("0", ["101"]);
    SpacedCons("8", ["0"] + ["101"]);
    SpacedCons("9", ["8"] + (["0"] + ["101"]));
  }

  /** The lines of a description, in the words of RFC 4566 and RFC 3551. */
  function PrintedSession(host: string, port: nat, types: string): seq<string> {
    ["v=0", "o=- 0 0 IN IP4 " + host, "s=-", "c=IN IP4 " + host, "t=0 0",
     "m=audio " + (Decimal(port) + " " + ("RTP/AVP " + types))]
  }

  function PrintedCodec(pt: nat): string {
    if pt == 9 then "a=rtpmap:9 G722/8000" else if pt == 8 then "a=rtpmap:8 PCMA/8000" else "a=rtpmap:0 PCMU/8000"
  }

  function PrintedEvents(event: Option<nat>): seq<string> {
    match event
    case None => []
    case Some(number) =>
      ["a=rtpmap:" + Decimal(number) + " " + "telephone-event/8000", "a=fmtp:" + Decimal(number) + " 0-15"]
  }

  function PrintedTypes(event: Option<nat>): seq<string> {
    if event.Some? then [Decimal(event.value)] else []
  }

  lemma EventNumber()
    ensures Decimal(EVENT) == "101"
  {
    assert Decimal(101) == Decimal(10) + ['1'] && Decimal(10) == Decimal(1) + ['0'] && Decimal(1) == "1";
  }

  lemma DescribedLines(at: Media, pts: seq<nat>, number: nat)
    requires IsHost(at.host) && forall i :: 0 <= i < |pts| ==> Supported(pts[i])
    ensures LinesOf(Described(at, pts, number))
         == SessionLines(at, pts + [number]) + (CodecLines(pts) + EventLines(number))
  {
    EventFits(number);
    MapsFit(pts, EventLines(number));
    SessionFits(at, pts + [number]);
    IntactJoin(SessionLines(at, pts + [number]), CodecLines(pts) + EventLines(number));
    DocumentReads(SessionLines(at, pts + [number]) + (CodecLines(pts) + EventLines(number)));
  }

  /** What an offer says, line by line; behind a relay, with the relay's address. */
  lemma OfferPrints(line: Line, localPort: nat)
    requires IsHost(if line.relayed then line.relayHost else line.localIp)
    ensures var host := if line.relayed then line.relayHost else line.localIp;
            var port := if line.relayed then line.relayPort else localPort;
      LinesOf(OfferSdp(line, localPort))
      == PrintedSession(host, port, "9 8 0 101")
         + (["a=rtpmap:9 G722/8000", "a=rtpmap:8 PCMA/8000", "a=rtpmap:0 PCMU/8000"] + PrintedEvents(Some(101)))
  {
    var at := Advertised(line, localPort);
    DescribedLines(at, [G722, PCMA, PCMU], EVENT);
    OfferSession(at);
    OfferMaps();
  }

  lemma OfferSession(at: Media)
    ensures SessionLines(at, [G722, PCMA, PCMU] + [EVENT]) == PrintedSession(at.host, at.port, "9 8 0 101")
  {
    assert [G722, PCMA, PCMU] + [EVENT] == [9] + [8, 0, 101];
    AudioLinePrints(at.port, [9] + [8, 0, 101]);
    DecimalsCons(9, [8, 0, 101]);
    FourTypes();
  }

  lemma OfferMaps()
    ensures CodecLines([G722, PCMA, PCMU]) + EventLines(EVENT)
         == ["a=rtpmap:9 G722/8000", "a=rtpmap:8 PCMA/8000", "a=rtpmap:0 PCMU/8000"] + PrintedEvents(Some(101))
  {
    MapsNameCodecs(EVENT);
    assert CodecLines([G722, PCMA, PCMU]) == [CodecLine(G722), CodecLine(PCMA), CodecLine(PCMU)];
  }

  lemma AnsweredLines(at: Media, pt: nat, event: Option<nat>)
    requires Supported(pt) && IsHost(at.host)
    ensures LinesOf(Document(SessionLines(at, AnswerTypes(pt, event)) + (CodecLines([pt]) + AnswerEvents(event))))
         == SessionLines(at, AnswerTypes(pt, event)) + (CodecLines([pt]) + AnswerEvents(event))
  {
    if event.Some? {
      EventFits(event.value);
    }
    MapsFit([pt], AnswerEvents(event));
    SessionFits(at, AnswerTypes(pt, event));
    IntactJoin(SessionLines(at, AnswerTypes(pt, event)), CodecLines([pt]) + AnswerEvents(event));
    DocumentReads(SessionLines(at, AnswerTypes(pt, event)) + (CodecLines([pt]) + AnswerEvents(event)));
  }

  lemma AnswerMaps(pt: nat, event: Option<nat>)
    requires Supported(pt)
    ensures CodecLines([pt]) + AnswerEvents(event) == [PrintedCodec(pt)] + PrintedEvents(event)
  {
    MapsNameCodecs(if event.Some? then event.value else 0);
    assert CodecLines([pt]) == [CodecLine(pt)];
  }

  /** What an answer says, line by line: the codec by its number and its name, and how key
      presses are sent only where the caller has said so. */
  lemma AnswerPrints(line: Line, localPort: nat, pt: nat, event: Option<nat>)
    requires Supported(pt) && IsHost(if line.relayed then line.relayHost else line.localIp)
    ensures var host := if line.relayed then line.relayHost else line.localIp;
            var port := if line.relayed then line.relayPort else localPort;
      LinesOf(AnswerSdp(line, localPort, pt, event))
      == PrintedSession(host, port, Spaced([Decimal(pt)] + PrintedTypes(event)))
         + ([PrintedCodec(pt)] + PrintedEvents(event))
  {
    var at := Advertised(line, localPort);
    AnsweredLines(at, pt, event);
    AnswerMaps(pt, event);
    AnswerSession(at, pt, event);
  }

  lemma AnswerSession(at: Media, pt: nat, event: Option<nat>)
    ensures SessionLines(at, AnswerTypes(pt, event))
         == PrintedSession(at.host, at.port, Spaced([Decimal(pt)] + PrintedTypes(event)))
  {
    var more := if event.Some? then [event.value] else [];
    AudioLinePrints(at.port, [pt] + more);
    DecimalsCons(pt, more);
    assert AnswerTypes(pt, event) == [pt] + more;
    assert Decimals(more) == PrintedTypes(event);
  }

  /** Choosing again from the printed answer gives the codec that was answered exactly
      when key presses were not given the number of G.722 beside another codec. */
  lemma ChosenAgain(line: Line, localPort: nat, pt: nat, event: Option<nat>)
    requires Supported(pt) && IsHost(Advertised(line, localPort).host)
    ensures Choose(ParseTypes(AnswerSdp(line, localPort, pt, event))) == Some(pt)
            <==> (event == Some(G722) ==> pt == G722)
  {
    AnswerReadsBack(line, localPort, pt, event);
    ChosenIsCommon(AnswerTypes(pt, event));
    assert AnswerTypes(pt, event)[0] == pt;
  }

  /** Two of these bridges agree: what one answers to the other's offer both take to be
      G.722, with key presses under the number that was offered. */
  lemma BridgesAgree(caller: Line, callerPort: nat, called: Line, calledPort: nat)
    requires IsHost(Advertised(caller, callerPort).host) && IsHost(Advertised(called, calledPort).host)
    ensures var offer := OfferSdp(caller, callerPort);
      Choose(ParseTypes(offer)) == Some(G722) &&
      var answer := AnswerSdp(called, calledPort, G722, ParseEvent(offer));
      Choose(ParseTypes(answer)) == Some(G722) && ParseEvent(answer) == Some(EVENT)
  {
    OfferReadsBack(caller, callerPort);
    AnswerReadsBack(called, calledPort, G722, Some(EVENT));
  }
}
