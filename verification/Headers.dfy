/** The headers of a message: the lines a request or a response is built from
    (bridge/sip_requests.py), and what is read back out of them
    (bridge/sip_messages.py, parse_sip_headers). */
module Headers {
  import opened Prelude
  import opened Text
  import opened Framing
  import opened Requests

  /** Every Via in order; of any other header the last one counts. */
  datatype Fields = Fields(vias: seq<string>, named: map<string, string>)

  const NOTHING := Fields([], map[])

  function Get(f: Fields, name: string): string {
    if name in f.named then f.named[name] else ""
  }

  predicate IsVia(name: string) {
    name == "via" || name == "v"
  }

  function Put(f: Fields, name: string, value: string): Fields {
    if IsVia(name) then f.(vias := f.vias + [value]) else f.(named := f.named[name := value])
  }

  function Store(f: Fields, line: string): Fields {
    var colon := IndexOf(line, ':');
    if colon == |line| then f else Put(f, Lower(Strip(line[..colon])), Strip(line[colon + 1..]))
  }

  /** The lines up to the first empty one. */
  function ReadLines(f: Fields, lines: seq<string>): Fields
    decreases |lines|
  {
    if lines == [] || lines[0] == "" then f else ReadLines(Store(f, lines[0]), lines[1..])
  }

  function ParseHeaders(text: string): Fields {
    ReadLines(NOTHING, SplitLines(text)[1..])
  }

  method ParseSipHeaders(text: string) returns (f: Fields)
    ensures f == ParseHeaders(text)
  {
    var lines := SplitLines(text)[1..];
    f := NOTHING;
    var n := 0;
    while n < |lines|
      invariant 0 <= n <= |lines|
      invariant ReadLines(f, lines[n..]) == ParseHeaders(text)
    {
      var line := lines[n];
      assert lines[n..][1..] == lines[n + 1..];
      if line == "" {
        return;
      }
      f := Store(f, line);
      n := n + 1;
    }
  }

  // ------------------------------------------------- reading what was built

  function StoreAll(f: Fields, lines: seq<string>): Fields
    decreases |lines|
  {
    if lines == [] then f else StoreAll(Store(f, lines[0]), lines[1..])
  }

  lemma {:induction false} ReadUpToBlank(f: Fields, lines: seq<string>, rest: seq<string>)
    requires forall i :: 0 <= i < |lines| ==> lines[i] != ""
    ensures ReadLines(f, lines + [""] + rest) == StoreAll(f, lines)
    decreases |lines|
  {
    if lines != [] {
      ReadUpToBlank(Store(f, lines[0]), lines[1..], rest);
      assert (lines + [""] + rest)[1..] == lines[1..] + [""] + rest;
    }
  }

  predicate Fit(lines: seq<string>) {
    forall i :: 0 <= i < |lines| ==> lines[i] != "" && Unbroken(lines[i])
  }

  lemma Arranged<T>(start: T, lines: seq<T>, a: T, b: T, c: T)
    ensures [start] + lines + [a, b, c] == [start] + (lines + [a] + [b]) + [c]
  {
  }

  lemma UpToBlankIsUnbroken(start: string, lines: seq<string>, n: nat)
    requires Unbroken(start) && Fit(lines)
    ensures var all := [start] + (lines + [LengthLine(n)] + [""]);
      forall i :: 0 <= i < |all| ==> Unbroken(all[i])
  {
    LengthLineFits(n);
  }

  lemma LinesOfMessage(start: string, lines: seq<string>, body: string)
    requires Unbroken(start) && Fit(lines)
    ensures SplitLines(MessageText([start] + lines, body))
         == [start] + (lines + [LengthLine(|body|)] + [""] + SplitLines(body))
  {
    UpToBlankIsUnbroken(start, lines, |body|);
    Arranged(start, lines, LengthLine(|body|), "", body);
    SplitJoinedThen([start] + (lines + [LengthLine(|body|)] + [""]), body);
    Regroup([start], lines + [LengthLine(|body|)] + [""], SplitLines(body));
  }

  /** Reading a built message stores its header lines one after the other, and nothing
      of its body. */
  lemma BuiltReadsBack(start: string, lines: seq<string>, body: string)
    requires Unbroken(start) && Fit(lines)
    ensures ParseHeaders(MessageText([start] + lines, body))
         == Store(StoreAll(NOTHING, lines), LengthLine(|body|))
  {
    LinesOfMessage(start, lines, body);
    LengthLineFits(|body|);
    ReadUpToBlank(NOTHING, lines + [LengthLine(|body|)], SplitLines(body));
    StoreAllSnoc(NOTHING, lines, LengthLine(|body|));
  }

  lemma {:induction false} StoreAllAppend(f: Fields, a: seq<string>, b: seq<string>)
    ensures StoreAll(f, a + b) == StoreAll(StoreAll(f, a), b)
    decreases |a|
  {
    if a == [] {
      assert a + b == b;
    } else {
      var first, others := a[0], a[1..];
      StoreAllAppend(Store(f, first), others, b);
      assert (a + b)[0] == first && (a + b)[1..] == others + b;
    }
  }

  lemma StoreAllSnoc(f: Fields, lines: seq<string>, line: string)
    ensures StoreAll(f, lines + [line]) == Store(StoreAll(f, lines), line)
  {
    StoreAllAppend(f, lines, [line]);
    assert StoreAll(StoreAll(f, lines), [line]) == Store(StoreAll(f, lines), line);
  }

  // ------------------------------------------------------------ named lines

  function Field(name: string, value: string): string {
    name + ": " + value
  }

  predicate Clean(value: string) {
    Strip(value) == value && Unbroken(value)
  }

  /** A name that may stand in front of a colon and does not announce a length. */
  predicate PlainName(name: string) {
    && name != "" && !IsSpace(name[0]) && !IsSpace(Last(name))
    && IsAscii(name) && Unbroken(name) && ':' !in name
    && Lower(name) != "content-length" && Lower(name) != "l"
  }

  lemma FieldSplits(name: string, value: string)
    requires name != "" && !IsSpace(name[0]) && !IsSpace(Last(name)) && ':' !in name
    ensures var line := Field(name, value);
      && IndexOf(line, ':') == |name| && line[..|name|] == name && Strip(name) == name
      && line[|name| + 1..] == [' '] + value
  {
    var line := Field(name, value);
    assert line[|name|] == ':';
    forall k | 0 <= k < |name| ensures line[k] != ':' {
      assert line[k] == name[k];
    }
    IndexOfIs(line, ':', |name|);
    StripNothing(name);
  }

  lemma StoreField(f: Fields, name: string, value: string)
    requires PlainName(name) && Strip(value) == value
    ensures Store(f, Field(name, value)) == Put(f, Lower(name), value)
  {
    FieldSplits(name, value);
    StripSpaceBefore(value);
  }

  /** A line that may stand anywhere between the start line and the length. */
  predicate PlainLine(line: string) {
    line != "" && Unbroken(line) && !AnnouncesLength(Encode(line))
  }

  predicate Plain(lines: seq<string>) {
    forall i :: 0 <= i < |lines| ==> PlainLine(lines[i])
  }

  lemma FieldIsUnbroken(name: string, value: string)
    requires Unbroken(name) && Unbroken(value)
    ensures Unbroken(Field(name, value))
  {
    var line := Field(name, value);
    assert forall i :: 0 <= i < |value| ==> line[|name| + 2 + i] == value[i];
    assert line[|name|] == ':' && line[|name| + 1] == ' ';
  }

  lemma FieldEncodes(name: string, value: string)
    requires IsAscii(name)
    ensures Encode(Field(name, value)) == Field(name, Encode(value))
  {
    assert IsAscii(name + ": ");
    EncodeAppend(name + ": ", value);
    EncodeAscii(name + ": ");
  }

  lemma FieldFits(name: string, value: string)
    requires PlainName(name) && Unbroken(value)
    ensures PlainLine(Field(name, value))
  {
    FieldIsUnbroken(name, value);
    FieldEncodes(name, value);
    FieldSplits(name, Encode(value));
  }

  lemma NameVia()
    ensures PlainName("Via") && Lower("Via") == "via"
  {
    assert |Lower("Via")| == 3;
    assert Lower("Via") == "via";
  }

  lemma NameMaxForwards()
    ensures PlainName("Max-Forwards") && Lower("Max-Forwards") == "max-forwards"
  {
    assert |Lower("Max-Forwards")| == 12;
    assert Lower("Max-Forwards") == "max-forwards";
  }

  lemma NameFrom()
    ensures PlainName("From") && Lower("From") == "from"
  {
    assert |Lower("From")| == 4;
    assert Lower("From") == "from";
  }

  lemma NameTo()
    ensures PlainName("To") && Lower("To") == "to"
  {
    assert |Lower("To")| == 2;
    assert Lower("To") == "to";
  }

  lemma NameCallId()
    ensures PlainName("Call-ID") && Lower("Call-ID") == "call-id"
  {
    assert |Lower("Call-ID")| == 7;
    assert Lower("Call-ID") == "call-id";
  }

  lemma NameCSeq()
    ensures PlainName("CSeq") && Lower("CSeq") == "cseq"
  {
    assert |Lower("CSeq")| == 4;
    assert Lower("CSeq") == "cseq";
  }

  /** A line that says nothing about the dialog or the length of the body. */
  predicate Neutral(line: string) {
    && PlainLine(line) && IndexOf(line, ':') < |line|
    && !IsDialogName(Lower(Strip(line[..IndexOf(line, ':')])))
  }

  predicate IsDialogName(name: string) {
    IsVia(name) || name == "from" || name == "to" || name == "call-id" || name == "cseq"
  }

  /** The same path back and the same dialog. */
  predicate SameDialog(a: Fields, b: Fields) {
    && a.vias == b.vias
    && Get(a, "from") == Get(b, "from") && Get(a, "to") == Get(b, "to")
    && Get(a, "call-id") == Get(b, "call-id") && Get(a, "cseq") == Get(b, "cseq")
  }

  lemma PutKeepsDialog(f: Fields, name: string, value: string)
    requires !IsDialogName(name)
    ensures SameDialog(Put(f, name, value), f)
  {
  }

  lemma {:induction false} NeutralKeepsDialog(f: Fields, lines: seq<string>)
    requires forall i :: 0 <= i < |lines| ==> Neutral(lines[i])
    ensures SameDialog(StoreAll(f, lines), f)
    decreases |lines|
  {
    if lines != [] {
      var line := lines[0];
      PutKeepsDialog(f, Lower(Strip(line[..IndexOf(line, ':')])), Strip(line[IndexOf(line, ':') + 1..]));
      NeutralKeepsDialog(Store(f, line), lines[1..]);
    }
  }

  lemma LengthKeepsDialog(f: Fields, n: nat)
    ensures SameDialog(Store(f, LengthLine(n)), f)
  {
    var name := "Content-Length";
    assert LengthLine(n) == Field(name, Decimal(n));
    FieldSplits(name, Decimal(n));
    assert |Lower(name)| == 14;
    PutKeepsDialog(f, Lower(name), Strip(LengthLine(n)[15..]));
  }

  // --------------------------------------------------------------- responses

  predicate HasTag(s: string) {
    |s| >= 4 && (s[..4] == "tag=" || HasTag(s[1..]))
  }

  function Tagged(to: string, toTag: string): string {
    if toTag != "" && !HasTag(to) then to + ";tag=" + toTag else to
  }

  function ViaLines(vias: seq<string>): seq<string> {
    if vias == [] then [] else [Field("Via", vias[0])] + ViaLines(vias[1..])
  }

  function DialogLines(from: string, to: string, callId: string, cseq: string): seq<string> {
    [Field("From", from), Field("To", to), Field("Call-ID", callId), Field("CSeq", cseq)]
  }

  function EchoedLines(f: Fields, toTag: string): seq<string> {
    DialogLines(Get(f, "from"), Tagged(Get(f, "to"), toTag), Get(f, "call-id"), Get(f, "cseq"))
  }

  function ResponseLines(f: Fields, toTag: string, extra: seq<string>): seq<string> {
    ViaLines(f.vias) + EchoedLines(f, toTag) + extra
  }

  function ResponseText(status: string, f: Fields, toTag: string, extra: seq<string>, body: string): string {
    MessageText(["SIP/2.0 " + status] + ResponseLines(f, toTag, extra), body)
  }

  // ----------------------------------------------------- what comes back out

  lemma StoreVia(f: Fields, via: string)
    requires Strip(via) == via
    ensures Store(f, Field("Via", via)) == Fields(f.vias + [via], f.named)
  {
    NameVia();
    StoreField(f, "Via", via);
  }

  lemma StoreOneIs(f: Fields, line: string)
    ensures StoreAll(f, [line]) == Store(f, line)
  {
    assert [line][1..] == [];
  }

  lemma StoreViaFirst(f: Fields, via: string, lines: seq<string>)
    requires Strip(via) == via
    ensures StoreAll(f, [Field("Via", via)] + lines) == StoreAll(Fields(f.vias + [via], f.named), lines)
  {
    StoreVia(f, via);
    StoreAllAppend(f, [Field("Via", via)], lines);
    StoreOneIs(f, Field("Via", via));
  }

  lemma {:induction false} StoreVias(f: Fields, vias: seq<string>)
    requires forall i :: 0 <= i < |vias| ==> Strip(vias[i]) == vias[i]
    ensures StoreAll(f, ViaLines(vias)) == Fields(f.vias + vias, f.named)
    decreases |vias|
  {
    if vias == [] {
      assert f.vias + vias == f.vias;
    } else {
      StoreViaFirst(f, vias[0], ViaLines(vias[1..]));
      StoreVias(Fields(f.vias + [vias[0]], f.named), vias[1..]);
      Regroup(f.vias, [vias[0]], vias[1..]);
      assert [vias[0]] + vias[1..] == vias;
    }
  }

  /** The dialog four header lines name. */
  predicate Names(f: Fields, from: string, to: string, callId: string, cseq: string) {
    && Get(f, "from") == from && Get(f, "to") == to
    && Get(f, "call-id") == callId && Get(f, "cseq") == cseq
  }

  lemma DialogStored(f: Fields, from: string, to: string, callId: string, cseq: string)
    ensures var r := Put(Put(Put(Put(f, "from", from), "to", to), "call-id", callId), "cseq", cseq);
      r.vias == f.vias && Names(r, from, to, callId, cseq)
  {
  }

  lemma StoreFour(f: Fields, from: string, to: string, callId: string, cseq: string)
    requires Strip(from) == from && Strip(to) == to && Strip(callId) == callId && Strip(cseq) == cseq
    ensures var r := StoreAll(f, DialogLines(from, to, callId, cseq));
      r.vias == f.vias && Names(r, from, to, callId, cseq)
  {
    NameFrom();
    NameTo();
    NameCallId();
    NameCSeq();
    var f1 := Put(f, "from", from);
    var f2 := Put(f1, "to", to);
    var f3 := Put(f2, "call-id", callId);
    StoreField(f, "From", from);
    StoreField(f1, "To", to);
    StoreField(f2, "Call-ID", callId);
    StoreField(f3, "CSeq", cseq);
    StoreFourAre(f, Field("From", from), Field("To", to), Field("Call-ID", callId), Field("CSeq", cseq));
    DialogStored(f, from, to, callId, cseq);
  }

  lemma StoreTwoAre(f: Fields, a: string, b: string)
    ensures StoreAll(f, [a, b]) == Store(Store(f, a), b)
  {
    assert [a] + [b] == [a, b];
    StoreAllAppend(f, [a], [b]);
    StoreOneIs(f, a);
    StoreOneIs(Store(f, a), b);
  }

  lemma StoreFourAre(f: Fields, a: string, b: string, c: string, d: string)
    ensures StoreAll(f, [a, b, c, d]) == Store(Store(Store(Store(f, a), b), c), d)
  {
    assert [a, b] + [c, d] == [a, b, c, d];
    StoreAllAppend(f, [a, b], [c, d]);
    StoreTwoAre(f, a, b);
    StoreTwoAre(Store(Store(f, a), b), c, d);
  }

  /** Values as parsing leaves them: no line break, no space around them. */
  predicate WellRead(f: Fields) {
    && (forall i :: 0 <= i < |f.vias| ==> Clean(f.vias[i]))
    && (forall name :: name in f.named ==> Clean(f.named[name]))
  }

  lemma StoreIsWellRead(f: Fields, line: string)
    requires WellRead(f) && Unbroken(line)
    ensures WellRead(Store(f, line))
  {
    var colon := IndexOf(line, ':');
    if colon < |line| {
      var value := line[colon + 1..];
      assert Unbroken(value);
      StripIs(value);
    }
  }

  lemma {:induction false} ReadIsWellRead(f: Fields, lines: seq<string>)
    requires WellRead(f) && forall i :: 0 <= i < |lines| ==> Unbroken(lines[i])
    ensures WellRead(ReadLines(f, lines))
    decreases |lines|
  {
    if lines != [] && lines[0] != "" {
      StoreIsWellRead(f, lines[0]);
      ReadIsWellRead(Store(f, lines[0]), lines[1..]);
    }
  }

  lemma ParsedIsWellRead(text: string)
    ensures WellRead(ParseHeaders(text))
  {
    SplitIsUnbroken(text);
    ReadIsWellRead(NOTHING, SplitLines(text)[1..]);
  }

  lemma StripNonEmpty(s: string)
    requires Strip(s) == s && s != ""
    ensures !IsSpace(s[0]) && !IsSpace(Last(s))
  {
    StripLeftIs(s);
    StripRightIs(StripLeft(s));
  }

  lemma TaggedIsClean(to: string, toTag: string)
    requires Clean(to) && Clean(toTag)
    ensures Clean(Tagged(to, toTag))
  {
    if toTag != "" && !HasTag(to) {
      var t := to + ";tag=" + toTag;
      StripNonEmpty(toTag);
      assert Last(t) == Last(toTag);
      if to != "" {
        StripNonEmpty(to);
        assert t[0] == to[0];
      }
      StripNothing(t);
      TaggedIsUnbroken(to, toTag);
    }
  }

  lemma TaggedIsUnbroken(to: string, toTag: string)
    requires Unbroken(to) && Unbroken(toTag)
    ensures Unbroken(to + ";tag=" + toTag)
  {
    var t := to + ";tag=" + toTag;
    assert forall i :: 0 <= i < |toTag| ==> t[|to| + 5 + i] == toTag[i];
    assert t[|to|..|to| + 5] == ";tag=";
    assert t[|to|] == ';' && t[|to| + 1] == 't' && t[|to| + 2] == 'a' && t[|to| + 3] == 'g' && t[|to| + 4] == '=';
  }

  lemma AllStored(f: Fields, vias: seq<string>, dialog: seq<string>, extra: seq<string>, n: nat)
    requires forall i :: 0 <= i < |vias| ==> Strip(vias[i]) == vias[i]
    requires forall i :: 0 <= i < |extra| ==> Neutral(extra[i])
    ensures SameDialog(Store(StoreAll(f, ViaLines(vias) + dialog + extra), LengthLine(n)),
                       StoreAll(Fields(f.vias + vias, f.named), dialog))
  {
    StoreAllAppend(f, ViaLines(vias) + dialog, extra);
    StoreAllAppend(f, ViaLines(vias), dialog);
    StoreVias(f, vias);
    var before := StoreAll(Fields(f.vias + vias, f.named), dialog);
    NeutralKeepsDialog(before, extra);
    LengthKeepsDialog(StoreAll(before, extra), n);
  }

  lemma DialogFits(from: string, to: string, callId: string, cseq: string)
    requires Unbroken(from) && Unbroken(to) && Unbroken(callId) && Unbroken(cseq)
    ensures Plain(DialogLines(from, to, callId, cseq))
  {
    NameFrom();
    NameTo();
    NameCallId();
    NameCSeq();
    FieldFits("From", from);
    FieldFits("To", to);
    FieldFits("Call-ID", callId);
    FieldFits("CSeq", cseq);
  }

  lemma {:induction false} ViasFit(vias: seq<string>)
    requires forall i :: 0 <= i < |vias| ==> Unbroken(vias[i])
    ensures Plain(ViaLines(vias))
  {
    if vias != [] {
      NameVia();
      FieldFits("Via", vias[0]);
      ViasFit(vias[1..]);
    }
  }

  lemma ResponseFits(f: Fields, toTag: string, extra: seq<string>)
    requires WellRead(f) && Clean(toTag) && forall i :: 0 <= i < |extra| ==> Neutral(extra[i])
    ensures Plain(ResponseLines(f, toTag, extra))
  {
    ViasFit(f.vias);
    TaggedIsClean(Get(f, "to"), toTag);
    DialogFits(Get(f, "from"), Tagged(Get(f, "to"), toTag), Get(f, "call-id"), Get(f, "cseq"));
  }

  /** A response to anything that was received carries every Via of the request in
      order, its From, Call-ID and CSeq, and its To with a tag on it. */
  lemma ResponseEchoes(request: string, status: string, toTag: string, extra: seq<string>, body: string)
    requires Unbroken(status) && Clean(toTag)
    requires forall i :: 0 <= i < |extra| ==> Neutral(extra[i])
    ensures var f := ParseHeaders(request); var r := ParseHeaders(ResponseText(status, f, toTag, extra, body));
      && r.vias == f.vias
      && Names(r, Get(f, "from"), Tagged(Get(f, "to"), toTag), Get(f, "call-id"), Get(f, "cseq"))
  {
    var f := ParseHeaders(request);
    ParsedIsWellRead(request);
    ResponseFits(f, toTag, extra);
    BuiltReadsBack("SIP/2.0 " + status, ResponseLines(f, toTag, extra), body);
    AllStored(NOTHING, f.vias, EchoedLines(f, toTag), extra, |body|);
    TaggedIsClean(Get(f, "to"), toTag);
    StoreFour(Fields([] + f.vias, map[]), Get(f, "from"), Tagged(Get(f, "to"), toTag), Get(f, "call-id"),
              Get(f, "cseq"));
  }

  lemma StatusLineFits(status: string)
    requires Unbroken(status)
    ensures Unbroken("SIP/2.0 " + status)
  {
  }

  lemma PlainIsFramed(start: string, lines: seq<string>, body: string)
    requires start != "" && Unbroken(start) && Plain(lines)
    ensures Framed(Encode(MessageText([start] + lines, body))) <==> IsAscii(body)
  {
    PlainIsHeaderLines(start, lines);
    FramedIffAscii([start] + lines, body);
  }

  /** And whatever its headers are, it is taken whole off a stream exactly when its body
      is ASCII. */
  lemma ResponseIsFramed(request: string, status: string, toTag: string, extra: seq<string>, body: string)
    requires Unbroken(status) && Clean(toTag)
    requires forall i :: 0 <= i < |extra| ==> Neutral(extra[i])
    ensures Framed(Encode(ResponseText(status, ParseHeaders(request), toTag, extra, body))) <==> IsAscii(body)
  {
    var f := ParseHeaders(request);
    ParsedIsWellRead(request);
    ResponseFits(f, toTag, extra);
    StatusLineFits(status);
    PlainIsFramed("SIP/2.0 " + status, ResponseLines(f, toTag, extra), body);
  }

  lemma ViaLinesFrom(vias: seq<string>, n: nat)
    requires n < |vias|
    ensures ViaLines(vias[n..]) == [Field("Via", vias[n])] + ViaLines(vias[n + 1..])
  {
    assert vias[n..][1..] == vias[n + 1..];
  }

  lemma ResponseGrown(status: string, f: Fields, toTag: string, extra: seq<string>)
    ensures ["SIP/2.0 " + status] + ViaLines(f.vias) + EchoedLines(f, toTag) + extra
         == ["SIP/2.0 " + status] + ResponseLines(f, toTag, extra)
  {
    Regroup(["SIP/2.0 " + status], ViaLines(f.vias), EchoedLines(f, toTag));
    Regroup(["SIP/2.0 " + status], ViaLines(f.vias) + EchoedLines(f, toTag), extra);
  }

  /** Every Via line of a request, one by one. */
  method BuildResponse(status: string, f: Fields, toTag: string, extra: seq<string>, body: string)
    returns (message: Octets)
    ensures message == Encode(ResponseText(status, f, toTag, extra, body))
  {
    var lines := ["SIP/2.0 " + status];
    ghost var all := lines + ViaLines(f.vias);
    assert f.vias[0..] == f.vias;
    var n := 0;
    while n < |f.vias|
      invariant 0 <= n <= |f.vias|
      invariant lines + ViaLines(f.vias[n..]) == all
    {
      ViaLinesFrom(f.vias, n);
      Regroup(lines, [Field("Via", f.vias[n])], ViaLines(f.vias[n + 1..]));
      lines := lines + [Field("Via", f.vias[n])];
      n := n + 1;
    }
    assert ViaLines(f.vias[n..]) == [] && lines + [] == lines;
    lines := lines + EchoedLines(f, toTag);
    lines := lines + extra;
    ResponseGrown(status, f, toTag, extra);
    message := MessageBytes(lines, body);
  }

  // ---------------------------------------------- requests, and their answers

  function FirstWord(s: string): string {
    s[..IndexOf(s, ' ')]
  }

  /** Which CSeq a response answers, where it says a number. */
  function AnsweredCseq(f: Fields): Option<nat> {
    var word := FirstWord(Get(f, "cseq"));
    if IsNumber(word) then Some(Value(word)) else None
  }

  /** And which method, which is what follows the number. */
  function AnsweredMethod(f: Fields): string {
    AfterFirst(Get(f, "cseq"))
  }

  function AfterFirst(s: string): string {
    if IndexOf(s, ' ') == |s| then "" else s[IndexOf(s, ' ') + 1..]
  }

  lemma CseqReads(n: nat, name: string)
    ensures FirstWord(Decimal(n) + " " + name) == Decimal(n)
    ensures AfterFirst(Decimal(n) + " " + name) == name
  {
    var s := Decimal(n) + " " + name;
    forall k | 0 <= k < |Decimal(n)| ensures s[k] != ' ' {
      assert IsDigit(Decimal(n)[k]);
    }
    assert s[|Decimal(n)|] == ' ';
    IndexOfIs(s, ' ', |Decimal(n)|);
  }

  lemma CseqIsClean(n: nat, name: string)
    requires Clean(name) && name != ""
    ensures Clean(Decimal(n) + " " + name)
  {
    var s := Decimal(n) + " " + name;
    StripNonEmpty(name);
    assert IsDigit(Decimal(n)[0]) && s[0] == Decimal(n)[0] && Last(s) == Last(name);
    StripNothing(s);
    assert forall i :: 0 <= i < |Decimal(n)| ==> s[i] == Decimal(n)[i] && IsDigit(s[i]);
    assert forall i :: 0 <= i < |name| ==> s[|Decimal(n)| + 1 + i] == name[i];
    assert s[|Decimal(n)|] == ' ';
  }

  /** The method, path and dialog a request is built from. */
  datatype Request = Request(name: string, via: string, from: string, to: string, callId: string, cseq: nat)

  predicate Printable(q: Request) {
    && Clean(q.name) && q.name != "" && Clean(q.via) && Clean(q.from) && Clean(q.to) && Clean(q.callId)
  }

  function RequestLines(q: Request, headers: seq<string>): seq<string> {
    ViaLines([q.via]) + ([Field("Max-Forwards", "70")] + RequestDialog(q)) + headers
  }

  function RequestDialog(q: Request): seq<string> {
    DialogLines(q.from, q.to, q.callId, Decimal(q.cseq) + " " + q.name)
  }

  function RequestText(uri: string, q: Request, headers: seq<string>, body: string): string {
    MessageText([q.name + " " + uri + " SIP/2.0"] + RequestLines(q, headers), body)
  }

  lemma UnbrokenJoin(a: string, b: string)
    requires Unbroken(a) && Unbroken(b) && (a == "" || Last(a) != '\r' || b == "" || b[0] != '\n')
    ensures Unbroken(a + b)
  {
    assert forall i :: 0 <= i < |b| ==> (a + b)[|a| + i] == b[i];
  }

  lemma StartFits(name: string, uri: string)
    requires Unbroken(name) && Unbroken(uri)
    ensures Unbroken(name + " " + uri + " SIP/2.0")
  {
    UnbrokenJoin(name, " ");
    UnbrokenJoin(name + " ", uri);
    UnbrokenJoin(name + " " + uri, " SIP/2.0");
  }

  lemma RequestFits(q: Request, headers: seq<string>)
    requires Printable(q) && forall i :: 0 <= i < |headers| ==> Neutral(headers[i])
    ensures Plain(RequestLines(q, headers))
  {
    CseqIsClean(q.cseq, q.name);
    DialogFits(q.from, q.to, q.callId, Decimal(q.cseq) + " " + q.name);
    ForwardsFit();
    ViasFit([q.via]);
    PlainJoin([Field("Max-Forwards", "70")], RequestDialog(q));
    PlainJoin(ViaLines([q.via]), [Field("Max-Forwards", "70")] + RequestDialog(q));
    PlainJoin(ViaLines([q.via]) + ([Field("Max-Forwards", "70")] + RequestDialog(q)), headers);
  }

  lemma ForwardsFit()
    ensures Plain([Field("Max-Forwards", "70")])
  {
    NameMaxForwards();
    FieldFits("Max-Forwards", "70");
  }

  lemma PlainJoin(a: seq<string>, b: seq<string>)
    requires Plain(a) && Plain(b)
    ensures Plain(a + b)
  {
  }

  lemma PlainIsHeaderLines(start: string, lines: seq<string>)
    requires start != "" && Unbroken(start) && Plain(lines)
    ensures HeaderLines([start] + lines)
  {
    var all := [start] + lines;
    assert forall i :: 0 < i < |all| ==> all[i] == lines[i - 1];
  }

  lemma StoreForwards(f: Fields, dialog: seq<string>)
    ensures StoreAll(f, [Field("Max-Forwards", "70")] + dialog) == StoreAll(Put(f, "max-forwards", "70"), dialog)
  {
    NameMaxForwards();
    StripNothing("70");
    StoreField(f, "Max-Forwards", "70");
    StoreAllAppend(f, [Field("Max-Forwards", "70")], dialog);
    StoreOneIs(f, Field("Max-Forwards", "70"));
  }

  /** A request is read back as it was built: its one Via, and the dialog it names. */
  lemma RequestReadsBack(uri: string, q: Request, headers: seq<string>, body: string)
    requires Unbroken(uri) && Printable(q) && forall i :: 0 <= i < |headers| ==> Neutral(headers[i])
    ensures var r := ParseHeaders(RequestText(uri, q, headers, body));
      && r.vias == [q.via] && Names(r, q.from, q.to, q.callId, Decimal(q.cseq) + " " + q.name)
      && AnsweredCseq(r) == Some(q.cseq) && AnsweredMethod(r) == q.name
  {
    StartFits(q.name, uri);
    RequestFits(q, headers);
    BuiltReadsBack(q.name + " " + uri + " SIP/2.0", RequestLines(q, headers), body);
    AllStored(NOTHING, [q.via], [Field("Max-Forwards", "70")] + RequestDialog(q), headers, |body|);
    var f := Fields([] + [q.via], map[]);
    StoreForwards(f, RequestDialog(q));
    CseqIsClean(q.cseq, q.name);
    StoreFour(Put(f, "max-forwards", "70"), q.from, q.to, q.callId, Decimal(q.cseq) + " " + q.name);
    CseqReads(q.cseq, q.name);
    DecimalValue(q.cseq);
  }

  lemma RequestIsFramed(uri: string, q: Request, headers: seq<string>, body: string)
    requires Unbroken(uri) && Printable(q) && forall i :: 0 <= i < |headers| ==> Neutral(headers[i])
    ensures Framed(Encode(RequestText(uri, q, headers, body))) <==> IsAscii(body)
  {
    StartFits(q.name, uri);
    RequestFits(q, headers);
    PlainIsFramed(q.name + " " + uri + " SIP/2.0", RequestLines(q, headers), body);
  }

  /** What a request says, line by line. */
  lemma RequestPrints(uri: string, q: Request, headers: seq<string>, body: string)
    requires Unbroken(uri) && Printable(q) && forall i :: 0 <= i < |headers| ==> Neutral(headers[i])
    ensures SplitLines(RequestText(uri, q, headers, body))
         == [q.name + " " + uri + " SIP/2.0"]
            + (["Via: " + q.via, "Max-Forwards: 70", "From: " + q.from, "To: " + q.to, "Call-ID: " + q.callId,
                "CSeq: " + (Decimal(q.cseq) + " " + q.name)]
               + headers + ["Content-Length: " + Decimal(|body|)] + [""] + SplitLines(body))
  {
    StartFits(q.name, uri);
    RequestFits(q, headers);
    PlainLinesOf(q.name + " " + uri + " SIP/2.0", RequestLines(q, headers), body);
    RequestLinesPrint(q);
  }

  lemma PlainIsFit(lines: seq<string>)
    requires Plain(lines)
    ensures Fit(lines)
  {
    forall i | 0 <= i < |lines| ensures lines[i] != "" && Unbroken(lines[i]) {
      assert PlainLine(lines[i]);
    }
  }

  lemma RequestLinesPrint(q: Request)
    ensures ViaLines([q.via]) + ([Field("Max-Forwards", "70")] + RequestDialog(q))
         == ["Via: " + q.via, "Max-Forwards: 70", "From: " + q.from, "To: " + q.to, "Call-ID: " + q.callId,
             "CSeq: " + (Decimal(q.cseq) + " " + q.name)]
  {
    DialogPrints(q.from, q.to, q.callId, Decimal(q.cseq) + " " + q.name);
    assert ViaLines([q.via]) == [Field("Via", q.via)] + ViaLines([]);
    assert "Via" + ": " == "Via: " && "Max-Forwards" + ": " + "70" == "Max-Forwards: 70";
  }

  lemma DialogPrints(from: string, to: string, callId: string, cseq: string)
    ensures DialogLines(from, to, callId, cseq) == ["From: " + from, "To: " + to, "Call-ID: " + callId, "CSeq: " + cseq]
  {
    assert "From" + ": " == "From: " && "To" + ": " == "To: ";
    assert "Call-ID" + ": " == "Call-ID: " && "CSeq" + ": " == "CSeq: ";
  }

  predicate TagAt(s: string, i: nat) {
    i + 4 <= |s| && s[i] == 't' && s[i + 1] == 'a' && s[i + 2] == 'g' && s[i + 3] == '='
  }

  /** The To of a response: with the tag behind it, unless there is none to add or there is
      one somewhere already. */
  lemma TaggedIs(to: string, toTag: string)
    ensures Tagged(to, toTag)
         == if toTag != "" && forall i: nat :: !TagAt(to, i) then to + ";tag=" + toTag else to
  {
    HasTagIff(to);
  }

  lemma {:induction false} HasTagIff(s: string)
    ensures HasTag(s) <==> exists i: nat :: TagAt(s, i)
  {
    if |s| >= 4 {
      HasTagIff(s[1..]);
      assert s[..4] == "tag=" <==> TagAt(s, 0);
      if HasTag(s[1..]) {
        var i: nat :| TagAt(s[1..], i);
        assert TagAt(s, i + 1);
      } else if exists i: nat :: TagAt(s, i) {
        var i: nat :| TagAt(s, i);
        assert i > 0 ==> TagAt(s[1..], i - 1);
      }
    }
  }

  lemma PlainLinesOf(start: string, lines: seq<string>, body: string)
    requires Unbroken(start) && Plain(lines)
    ensures SplitLines(MessageText([start] + lines, body))
         == [start] + (lines + [LengthLine(|body|)] + [""] + SplitLines(body))
  {
    PlainIsFit(lines);
    LinesOfMessage(start, lines, body);
  }

  lemma ResponseLinesOf(f: Fields, status: string, toTag: string, extra: seq<string>, body: string)
    requires WellRead(f) && Unbroken(status) && Clean(toTag) && forall i :: 0 <= i < |extra| ==> Neutral(extra[i])
    ensures SplitLines(ResponseText(status, f, toTag, extra, body))
      == ["SIP/2.0 " + status] + (ResponseLines(f, toTag, extra) + [LengthLine(|body|)] + [""] + SplitLines(body))
  {
    ResponseFits(f, toTag, extra);
    StatusLineFits(status);
    PlainLinesOf("SIP/2.0 " + status, ResponseLines(f, toTag, extra), body);
  }

  /** What a response to anything received says, line by line. */
  lemma ResponsePrints(request: string, status: string, toTag: string, extra: seq<string>, body: string)
    requires Unbroken(status) && Clean(toTag) && forall i :: 0 <= i < |extra| ==> Neutral(extra[i])
    ensures var f := ParseHeaders(request);
      SplitLines(ResponseText(status, f, toTag, extra, body))
      == ["SIP/2.0 " + status]
         + (ViaLines(f.vias)
            + ["From: " + Get(f, "from"), "To: " + Tagged(Get(f, "to"), toTag), "Call-ID: " + Get(f, "call-id"),
               "CSeq: " + Get(f, "cseq")]
            + extra + ["Content-Length: " + Decimal(|body|)] + [""] + SplitLines(body))
  {
    var f := ParseHeaders(request);
    ParsedIsWellRead(request);
    ResponseLinesOf(f, status, toTag, extra, body);
    DialogPrints(Get(f, "from"), Tagged(Get(f, "to"), toTag), Get(f, "call-id"), Get(f, "cseq"));
  }

  /** One Via line each, in order. */
  lemma {:induction false} ViasPrint(vias: seq<string>)
    ensures |ViaLines(vias)| == |vias| && forall i :: 0 <= i < |vias| ==> ViaLines(vias)[i] == "Via: " + vias[i]
  {
    if vias != [] {
      ViasPrint(vias[1..]);
      assert "Via" + ": " == "Via: ";
      forall i | 0 <= i < |vias| ensures ViaLines(vias)[i] == "Via: " + vias[i] {
        if i > 0 {
          assert ViaLines(vias)[i] == ViaLines(vias[1..])[i - 1];
        }
      }
    }
  }

  /** Which number a response answers: the digits in front of the first space of its CSeq, and
      none where there is anything else; and which method, what is behind that space. */
  lemma AnsweredCseqIs(f: Fields, word: string, rest: string)
    requires ' ' !in word && (Get(f, "cseq") == word || Get(f, "cseq") == word + " " + rest)
    ensures AnsweredCseq(f)
         == if word != "" && (forall i :: 0 <= i < |word| ==> '0' <= word[i] <= '9') then Some(Value(word)) else None
    ensures AnsweredMethod(f) == if Get(f, "cseq") == word then "" else rest
  {
    var s := Get(f, "cseq");
    if s == word {
      assert IndexOf(s, ' ') == |s| && s[..|s|] == s;
    } else {
      assert s[|word|] == ' ';
      forall k | 0 <= k < |word| ensures s[k] != ' ' {
        assert s[k] == word[k] && word[k] in word;
      }
      IndexOfIs(s, ' ', |word|);
      assert s[..|word|] == word && s[|word| + 1..] == rest;
    }
  }

  /** What is answered says which request it answers: the response to a request with
      CSeq n is read as answering n, along the path the request came. */
  lemma AnswerNamesRequest(uri: string, q: Request, headers: seq<string>, offer: string,
                           status: string, toTag: string, extra: seq<string>, body: string)
    requires Unbroken(uri) && Printable(q) && forall i :: 0 <= i < |headers| ==> Neutral(headers[i])
    requires Unbroken(status) && Clean(toTag) && forall i :: 0 <= i < |extra| ==> Neutral(extra[i])
    ensures var asked := ParseHeaders(RequestText(uri, q, headers, offer));
            var r := ParseHeaders(ResponseText(status, asked, toTag, extra, body));
      && AnsweredCseq(r) == Some(q.cseq) && AnsweredMethod(r) == q.name
      && r.vias == [q.via] && Get(r, "call-id") == q.callId
  {
    RequestReadsBack(uri, q, headers, offer);
    ResponseEchoes(RequestText(uri, q, headers, offer), status, toTag, extra, body);
  }
}
