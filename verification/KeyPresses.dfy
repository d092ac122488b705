/** From `send_dtmf` on one side (bridge/rtp.py) to `DtmfEvents.feed` on the other
    (bridge/dtmf.py): what a caller types, and what of it is heard when packets
    are lost, repeated or reordered within a press. */
module KeyPresses {
  import opened Prelude
  import opened Bytes
  import opened Dtmf
  import opened Rtp

  /** The event branch of `_handle_packet`: a datagram of the negotiated payload
      type is fed under the timestamp of its header. */
  function HandlePacket(reported: Option<int>, data: seq<Byte>, payloadType: int): (Option<int>, Option<char>) {
    if |data| < 12 || data[1] % 0x80 != payloadType then (reported, None)
    else Feed(reported, FromU32(data[4..8]), data[12..])
  }

  /** A datagram, and when it came in. */
  datatype Arrival = Arrival(at: real, data: seq<Byte>)

  /** What the receiver remembers, and every digit it has made out so far. */
  datatype Ear = Ear(reported: Option<int>, reports: seq<Report>)

  const SILENT := Ear(None, [])

  function Hear(ear: Ear, a: Arrival, payloadType: int): Ear {
    var (reported, digit) := HandlePacket(ear.reported, a.data, payloadType);
    Ear(reported, if digit.Some? then ear.reports + [Report(digit.value, a.at)] else ear.reports)
  }

  function HearAll(ear: Ear, arrivals: seq<Arrival>, payloadType: int): Ear {
    if arrivals == [] then ear else Hear(HearAll(ear, Front(arrivals), payloadType), Last(arrivals), payloadType)
  }

  function DigitsOf(reports: seq<Report>): (digits: string)
    ensures |digits| == |reports| && forall i :: 0 <= i < |reports| ==> digits[i] == reports[i].digit
  {
    seq(|reports|, i requires 0 <= i < |reports| => reports[i].digit)
  }

  /** The keys a caller is taken to have pressed: what is made out, and passes the guard
      against one press that is announced twice. */
  function HeardKeys(arrivals: seq<Arrival>, payloadType: int, window: real): string {
    DigitsOf(Counted(HearAll(SILENT, arrivals, payloadType).reports, window))
  }

  /** What arrives of a press: something, and only packets of it. */
  ghost predicate ArrivedOf(arrivals: seq<Arrival>, p: Pressed, payloadType: int, ssrc: int)
    requires Key(p) && Fits(p, p.packets) && Negotiated(payloadType, ssrc)
  {
    && arrivals != []
    && forall i :: 0 <= i < |arrivals| ==> Press(arrivals[i].data) in PressPackets(p, p.packets + 3, payloadType, ssrc)
  }

  lemma PacketReads(reported: Option<int>, p: Pressed, k: nat, payloadType: int, ssrc: int)
    requires Key(p) && Fits(p, Min(k + 1, p.packets)) && Negotiated(payloadType, ssrc)
    ensures HandlePacket(reported, PressPacket(p, k, payloadType, ssrc), payloadType)
            == (Some(p.started), if reported == Some(p.started) then None else Some(EVENT_DIGITS[p.event]))
  {
    var duration := p.perPacket * Min(k + 1, p.packets);
    HeaderReadBack(k == 0, payloadType, (p.sequence + k) % 0x1_0000, p.started, ssrc,
                   EventPayload(p.event, k >= p.packets, duration));
    EventRoundTrip(p.event, k >= p.packets, duration);
  }

  /** Every packet of a press, the end markers included, reads as that press. */
  lemma PacketReadsAsPress(reported: Option<int>, data: seq<Byte>, p: Pressed, payloadType: int, ssrc: int)
    requires Key(p) && Fits(p, p.packets) && Negotiated(payloadType, ssrc)
    requires Press(data) in PressPackets(p, p.packets + 3, payloadType, ssrc)
    ensures HandlePacket(reported, data, payloadType)
            == (Some(p.started), if reported == Some(p.started) then None else Some(EVENT_DIGITS[p.event]))
  {
    var k :| 0 <= k < p.packets + 3 && Press(data) == PressPackets(p, p.packets + 3, payloadType, ssrc)[k];
    MulMonotone(Min(k + 1, p.packets), p.packets, p.perPacket);
    PacketReads(reported, p, k, payloadType, ssrc);
  }

  /** However much of a press arrives, it is one digit - or none, under the
      timestamp of the press before. */
  lemma {:induction false} PressHeardOnce(ear: Ear, arrivals: seq<Arrival>, p: Pressed, payloadType: int, ssrc: int)
    requires Key(p) && Fits(p, p.packets) && Negotiated(payloadType, ssrc)
    requires ArrivedOf(arrivals, p, payloadType, ssrc)
    ensures HearAll(ear, arrivals, payloadType)
            == Ear(Some(p.started),
                   ear.reports + if ear.reported == Some(p.started) then []
                                 else [Report(EVENT_DIGITS[p.event], arrivals[0].at)])
  {
    var before := HearAll(ear, Front(arrivals), payloadType);
    assert Last(arrivals) == arrivals[|arrivals| - 1];
    PacketReadsAsPress(before.reported, Last(arrivals).data, p, payloadType, ssrc);
    if |arrivals| > 1 {
      assert forall i :: 0 <= i < |Front(arrivals)| ==> Front(arrivals)[i] == arrivals[i];
      PressHeardOnce(ear, Front(arrivals), p, payloadType, ssrc);
    } else {
      assert before == ear;
    }
  }

  /** Any other datagram leaves the receiver as it is: audio, what is too short, and events
      that are no key. */
  lemma OthersPass(reported: Option<int>, data: seq<Byte>, payloadType: int)
    requires |data| < 16 || data[1] % 0x80 != payloadType || data[12] >= 16
    ensures HandlePacket(reported, data, payloadType) == (reported, None)
  {
  }

  // ---------------------------------------------------------- what is typed

  /** A key to be sent, after so many packets of audio: what its duration and its
      interval come to in packets, and in samples each. */
  datatype Typed = Typed(event: nat, perPacket: nat, packets: nat, audioBefore: nat)

  /** What `send_dtmf` makes of a key held so long, at a rate. */
  function Held(digit: char, durationMs: nat, intervalMs: nat, sampleRate: nat, audioBefore: nat): Typed
    requires intervalMs > 0 && KeyIndex(digit) >= 0
  {
    Typed(KeyIndex(digit), SamplesPer(sampleRate, intervalMs), PacketsHeld(durationMs, intervalMs), audioBefore)
  }

  /** Where a session stands, and the presses it has made. */
  datatype Sender = Sender(sequence: nat, timestamp: nat, presses: seq<Pressed>)

  ghost predicate Typable(t: Typed) {
    t.event < |EVENT_DIGITS| && t.packets >= 1 && Span(t) < 0x1_0000
  }

  /** How long a press lasts, in ticks of the clock: packet by packet. */
  function Span(t: Typed): nat
    decreases t.packets
  {
    if t.packets == 0 then 0 else t.perPacket + Span(t.(packets := t.packets - 1))
  }

  lemma {:induction false} SpanIsProduct(t: Typed)
    ensures Span(t) == t.perPacket * t.packets
    decreases t.packets
  {
    if t.packets > 0 {
      SpanIsProduct(t.(packets := t.packets - 1));
    }
  }

  /** How far the clock goes from the start of one press to that of the next. */
  function Advance(t: Typed, next: Typed): nat {
    Span(t) + 160 * next.audioBefore
  }

  /** `send_pcm` and then `send_dtmf`, as far as their numbers go. */
  function Types(s: Sender, t: Typed): Sender
    requires Typable(t)
  {
    var p := Pressed(t.event, (s.timestamp + 160 * t.audioBefore) % 0x1_0000_0000,
                     s.sequence + t.audioBefore, t.perPacket, t.packets);
    Sender(p.sequence + p.packets + 3, (p.started + Span(t)) % 0x1_0000_0000, s.presses + [p])
  }

  /** Those are the numbers of the session. Where `SendPcm` has left it after so many packets
      of audio, `SendDtmf` makes this same press of the key, and leaves the same sequence
      number and the same clock behind. */
  lemma TypesAsSent(s: Sender, digit: char, durationMs: nat, intervalMs: nat, sampleRate: nat, audio: nat)
    requires intervalMs > 0 && KeyIndex(digit) >= 0
    requires Typable(Held(digit, durationMs, intervalMs, sampleRate, audio))
    ensures var p := PressNow(digit, durationMs, intervalMs, sampleRate, s.sequence + audio, s.timestamp + 160 * audio);
            && Fits(p, p.packets)
            && Types(s, Held(digit, durationMs, intervalMs, sampleRate, audio))
               == Sender(p.sequence + PacketsMade(p), ClockAfter(p, s.timestamp + 160 * audio), s.presses + [p])
  {
    SpanIsProduct(Held(digit, durationMs, intervalMs, sampleRate, audio));
  }

  ghost predicate AllTypable(ts: seq<Typed>) {
    forall i :: 0 <= i < |ts| ==> Typable(ts[i])
  }

  function TypesAll(s: Sender, ts: seq<Typed>): (after: Sender)
    requires AllTypable(ts)
    ensures |after.presses| == |s.presses| + |ts|
  {
    if ts == [] then s
    else
      assert Last(ts) == ts[|ts| - 1];
      assert AllTypable(Front(ts)) by {
        assert forall i :: 0 <= i < |Front(ts)| ==> Front(ts)[i] == ts[i];
      }
      Types(TypesAll(s, Front(ts)), Last(ts))
  }

  ghost predicate TypedAs(p: Pressed, t: Typed) {
    Key(p) && Fits(p, p.packets) && p.event == t.event
  }

  lemma TypesOne(s: Sender, t: Typed)
    requires Typable(t)
    ensures var after := Types(s, t);
            && after.presses == s.presses + [Last(after.presses)]
            && TypedAs(Last(after.presses), t)
            && Last(after.presses).started == (s.timestamp + 160 * t.audioBefore) % 0x1_0000_0000
            && after.timestamp == (Last(after.presses).started + Span(t)) % 0x1_0000_0000
  {
    SpanIsProduct(t);
  }

  lemma ModAdd(a: int, b: int)
    ensures (a % 0x1_0000_0000 + b) % 0x1_0000_0000 == (a + b) % 0x1_0000_0000
  {
  }

  /** Each press carries its key, and starts where the clock has got to since the
      one before. */
  ghost predicate Timeline(ps: seq<Pressed>, ts: seq<Typed>) {
    && |ps| == |ts|
    && (forall i :: 0 <= i < |ts| ==> TypedAs(ps[i], ts[i]))
    && (forall i :: 0 < i < |ts| ==> ps[i].started == (ps[i - 1].started + Advance(ts[i - 1], ts[i])) % 0x1_0000_0000)
  }

  lemma TimelineSnoc(ps: seq<Pressed>, ts: seq<Typed>, p: Pressed, t: Typed)
    requires Timeline(ps, ts) && TypedAs(p, t)
    requires ts != [] ==> p.started == (Last(ps).started + Advance(Last(ts), t)) % 0x1_0000_0000
    ensures Timeline(ps + [p], ts + [t])
  {
  }

  /** The clock after a run of presses: at the end of the last one. */
  ghost predicate ClockAt(s: Sender, t: Typed) {
    s.presses != [] && s.timestamp == (Last(s.presses).started + Span(t)) % 0x1_0000_0000
  }

  lemma StartFollows(s: Sender, last: Typed, next: Typed)
    requires ClockAt(s, last) && Typable(next)
    ensures Last(Types(s, next).presses).started == (Last(s.presses).started + Advance(last, next)) % 0x1_0000_0000
  {
    TypesOne(s, next);
    ModAdd(Last(s.presses).started + Span(last), 160 * next.audioBefore);
  }

  lemma OneMorePress(before: Sender, ts: seq<Typed>, next: Typed)
    requires Timeline(before.presses, ts) && Typable(next) && (ts != [] ==> ClockAt(before, Last(ts)))
    ensures Timeline(Types(before, next).presses, ts + [next]) && ClockAt(Types(before, next), next)
  {
    TypesOne(before, next);
    if ts != [] {
      StartFollows(before, Last(ts), next);
    }
    TimelineSnoc(before.presses, ts, Last(Types(before, next).presses), next);
  }

  lemma {:induction false} PressesOnTimeline(s: Sender, ts: seq<Typed>)
    requires AllTypable(ts) && s.presses == []
    ensures Timeline(TypesAll(s, ts).presses, ts)
    ensures ts != [] ==> ClockAt(TypesAll(s, ts), Last(ts))
  {
    if ts != [] {
      assert forall k :: 0 <= k < |Front(ts)| ==> Front(ts)[k] == ts[k];
      assert Last(ts) == ts[|ts| - 1];
      PressesOnTimeline(s, Front(ts));
      OneMorePress(TypesAll(s, Front(ts)), Front(ts), Last(ts));
      assert ts == Front(ts) + [Last(ts)];
    }
  }

  lemma {:induction false} HearAppend(ear: Ear, a: seq<Arrival>, b: seq<Arrival>, payloadType: int)
    ensures HearAll(ear, a + b, payloadType) == HearAll(HearAll(ear, a, payloadType), b, payloadType)
  {
    if b == [] {
      assert a + b == a;
    } else {
      HearAppend(ear, a, Front(b), payloadType);
      assert Front(a + b) == a + Front(b);
    }
  }

  ghost predicate ArrivedAll(arrivals: seq<seq<Arrival>>, ps: seq<Pressed>, payloadType: int, ssrc: int) {
    && Negotiated(payloadType, ssrc) && |arrivals| == |ps|
    && forall i :: 0 <= i < |ps| ==>
         Key(ps[i]) && Fits(ps[i], ps[i].packets) && ArrivedOf(arrivals[i], ps[i], payloadType, ssrc)
  }

  /** Each press with a first packet, as a digit made out then. */
  ghost predicate Sounding(ps: seq<Pressed>, arrivals: seq<seq<Arrival>>) {
    |arrivals| == |ps| && forall i :: 0 <= i < |ps| ==> ps[i].event < |EVENT_DIGITS| && arrivals[i] != []
  }

  function FirstReport(p: Pressed, arrivals: seq<Arrival>): Report
    requires p.event < |EVENT_DIGITS| && arrivals != []
  {
    Report(EVENT_DIGITS[p.event], arrivals[0].at)
  }

  ghost function AllReports(ps: seq<Pressed>, arrivals: seq<seq<Arrival>>): (r: seq<Report>)
    requires Sounding(ps, arrivals)
    ensures |r| == |ps| && forall i :: 0 <= i < |ps| ==> r[i] == FirstReport(ps[i], arrivals[i])
  {
    seq(|ps|, i requires 0 <= i < |ps| => FirstReport(ps[i], arrivals[i]))
  }

  /** The same without the presses under the timestamp of their predecessor. */
  ghost function Distinct(ps: seq<Pressed>, arrivals: seq<seq<Arrival>>): (r: seq<Report>)
    requires Sounding(ps, arrivals)
    ensures |r| <= |ps|
  {
    if ps == [] then []
    else
      SoundingFront(ps, arrivals);
      Distinct(Front(ps), Front(arrivals)) + if SameStart(ps) then [] else [FirstReport(Last(ps), Last(arrivals))]
  }

  lemma SoundingFront(ps: seq<Pressed>, arrivals: seq<seq<Arrival>>)
    requires Sounding(ps, arrivals) && ps != []
    ensures Sounding(Front(ps), Front(arrivals)) && Last(ps).event < |EVENT_DIGITS| && Last(arrivals) != []
    ensures AllReports(ps, arrivals) == AllReports(Front(ps), Front(arrivals)) + [FirstReport(Last(ps), Last(arrivals))]
  {
    assert forall i :: 0 <= i < |ps| - 1 ==> Front(ps)[i] == ps[i] && Front(arrivals)[i] == arrivals[i];
  }

  lemma ArrivedFront(arrivals: seq<seq<Arrival>>, ps: seq<Pressed>, payloadType: int, ssrc: int)
    requires ArrivedAll(arrivals, ps, payloadType, ssrc) && ps != []
    ensures ArrivedAll(Front(arrivals), Front(ps), payloadType, ssrc)
    ensures Key(Last(ps)) && Fits(Last(ps), Last(ps).packets) && ArrivedOf(Last(arrivals), Last(ps), payloadType, ssrc)
  {
    assert forall i :: 0 <= i < |ps| - 1 ==> Front(ps)[i] == ps[i] && Front(arrivals)[i] == arrivals[i];
  }

  lemma ArrivedIsSounding(arrivals: seq<seq<Arrival>>, ps: seq<Pressed>, payloadType: int, ssrc: int)
    requires ArrivedAll(arrivals, ps, payloadType, ssrc)
    ensures Sounding(ps, arrivals)
  {
  }

  /** Exactly what is made out of any presses, whatever is lost, repeated or reordered
      within each of them. */
  lemma {:induction false} HeardExactly(arrivals: seq<seq<Arrival>>, ps: seq<Pressed>, payloadType: int, ssrc: int)
    requires ArrivedAll(arrivals, ps, payloadType, ssrc) && Sounding(ps, arrivals)
    ensures HearAll(SILENT, Flatten(arrivals), payloadType)
            == Ear(if ps == [] then None else Some(Last(ps).started), Distinct(ps, arrivals))
  {
    if ps != [] {
      ArrivedFront(arrivals, ps, payloadType, ssrc);
      SoundingFront(ps, arrivals);
      HeardExactly(Front(arrivals), Front(ps), payloadType, ssrc);
      HearAppend(SILENT, Flatten(Front(arrivals)), Last(arrivals), payloadType);
      PressHeardOnce(HearAll(SILENT, Flatten(Front(arrivals)), payloadType), Last(arrivals), Last(ps),
                     payloadType, ssrc);
    }
  }

  /** No press starts where the one before it did. */
  ghost predicate Apart(ps: seq<Pressed>) {
    forall i :: 0 < i < |ps| ==> ps[i - 1].started != ps[i].started
  }

  predicate SameStart(ps: seq<Pressed>) {
    |ps| > 1 && ps[|ps| - 2].started == Last(ps).started
  }

  lemma ApartSnoc(ps: seq<Pressed>)
    requires ps != []
    ensures Apart(ps) <==> Apart(Front(ps)) && !SameStart(ps)
  {
    assert forall i :: 0 <= i < |ps| - 1 ==> Front(ps)[i] == ps[i];
  }

  lemma {:induction false} DistinctIff(ps: seq<Pressed>, arrivals: seq<seq<Arrival>>)
    requires Sounding(ps, arrivals)
    ensures if Apart(ps) then Distinct(ps, arrivals) == AllReports(ps, arrivals) else |Distinct(ps, arrivals)| < |ps|
  {
    if ps != [] {
      SoundingFront(ps, arrivals);
      DistinctIff(Front(ps), Front(arrivals));
      ApartSnoc(ps);
    }
  }

  /** The keys as they were typed. */
  function Keys(ts: seq<Typed>): (keys: string)
    requires AllTypable(ts)
    ensures |keys| == |ts| && forall i :: 0 <= i < |ts| ==> keys[i] == EVENT_DIGITS[ts[i].event]
  {
    seq(|ts|, i requires 0 <= i < |ts| => EVENT_DIGITS[ts[i].event])
  }

  /** No press comes a whole turn of the 32-bit clock after the one before. */
  ghost predicate NoWholeTurn(ts: seq<Typed>) {
    forall i :: 0 < i < |ts| ==> Advance(ts[i - 1], ts[i]) % 0x1_0000_0000 != 0
  }

  /** No key comes in again within the window of itself. */
  ghost predicate NoQuickRepeat(ts: seq<Typed>, arrivals: seq<seq<Arrival>>, window: real)
    requires AllTypable(ts) && |arrivals| == |ts| && forall i :: 0 <= i < |ts| ==> arrivals[i] != []
  {
    forall i :: 0 < i < |ts| && Keys(ts)[i - 1] == Keys(ts)[i]
      ==> arrivals[i][0].at - arrivals[i - 1][0].at >= window
  }

  lemma ApartByAdvance(ps: seq<Pressed>, ts: seq<Typed>)
    requires Timeline(ps, ts)
    ensures Apart(ps) <==> NoWholeTurn(ts)
  {
    forall i | 0 < i < |ts|
      ensures ps[i - 1].started != ps[i].started <==> Advance(ts[i - 1], ts[i]) % 0x1_0000_0000 != 0
    {
      assert TypedAs(ps[i - 1], ts[i - 1]);
      TurnsOfTheClock(ps[i - 1].started, Advance(ts[i - 1], ts[i]));
    }
  }

  lemma ReportsAreKeys(ps: seq<Pressed>, ts: seq<Typed>, arrivals: seq<seq<Arrival>>, window: real)
    requires Timeline(ps, ts) && AllTypable(ts) && Sounding(ps, arrivals)
    ensures DigitsOf(AllReports(ps, arrivals)) == Keys(ts)
    ensures WellSpaced(AllReports(ps, arrivals), window) <==> NoQuickRepeat(ts, arrivals, window)
  {
    var reports := AllReports(ps, arrivals);
    forall i | 0 <= i < |ts|
      ensures reports[i] == Report(Keys(ts)[i], arrivals[i][0].at)
    {
      assert TypedAs(ps[i], ts[i]);
    }
  }

  /** Every string of keys, sent from anywhere on the clock and with any audio in between,
      is taken as typed - if and only if no two consecutive presses start a whole turn of
      the 32-bit clock apart, and no key comes in again within the window of itself. */
  lemma KeysHeardIff(s: Sender, ts: seq<Typed>, arrivals: seq<seq<Arrival>>, payloadType: int, ssrc: int, window: real)
    requires s.presses == [] && AllTypable(ts)
    requires ArrivedAll(arrivals, TypesAll(s, ts).presses, payloadType, ssrc)
    ensures |arrivals| == |ts| && forall i :: 0 <= i < |ts| ==> arrivals[i] != []
    ensures HeardKeys(Flatten(arrivals), payloadType, window) == Keys(ts)
            <==> NoWholeTurn(ts) && NoQuickRepeat(ts, arrivals, window)
  {
    var ps := TypesAll(s, ts).presses;
    ArrivedIsSounding(arrivals, ps, payloadType, ssrc);
    HeardExactly(arrivals, ps, payloadType, ssrc);
    PressesOnTimeline(s, ts);
    ApartByAdvance(ps, ts);
    DistinctIff(ps, arrivals);
    ReportsAreKeys(ps, ts, arrivals, window);
    AllCountIff(Distinct(ps, arrivals), window);
  }

  lemma TurnsOfTheClock(started: int, advance: int)
    requires 0 <= started < TIMESTAMPS
    ensures (started + advance) % 0x1_0000_0000 == started <==> advance % 0x1_0000_0000 == 0
  {
  }

  // ----------------------------------------------------- keys that are missed

  /** One key held for the default time at 8 kHz, after so many packets of audio. */
  function Five(audio: nat): Typed {
    Typed(5, 160, 10, audio)
  }

  lemma FiveIsTypable(audio: nat)
    ensures Typable(Five(audio)) && Span(Five(audio)) == 1600
  {
    SpanIsProduct(Five(audio));
  }

  lemma FirstFits(p: Pressed)
    requires Key(p) && Fits(p, p.packets)
    ensures Fits(p, Min(1, p.packets))
  {
    MulMonotone(1, p.packets, p.perPacket);
    assert p.perPacket * 1 <= p.perPacket * p.packets;
  }

  /** The first packet of a press. */
  function FirstPacket(p: Pressed, at: real, payloadType: int, ssrc: int): (a: Arrival)
    requires Key(p) && Fits(p, p.packets) && Negotiated(payloadType, ssrc)
    ensures a.at == at && Press(a.data) in PressPackets(p, p.packets + 3, payloadType, ssrc)
  {
    FirstFits(p);
    var data := PressPacket(p, 0, payloadType, ssrc);
    assert PressPackets(p, p.packets + 3, payloadType, ssrc)[0] == Press(data);
    Arrival(at, data)
  }

  lemma PressesFit(s: Sender, ts: seq<Typed>)
    requires AllTypable(ts) && s.presses == []
    ensures var ps := TypesAll(s, ts).presses;
            |ps| == |ts| && forall i :: 0 <= i < |ps| ==> Key(ps[i]) && Fits(ps[i], ps[i].packets)
  {
    PressesOnTimeline(s, ts);
    var ps := TypesAll(s, ts).presses;
    assert forall i :: 0 <= i < |ps| ==> TypedAs(ps[i], ts[i]);
  }

  lemma FivesFit(s: Sender, audio: nat)
    requires s.presses == []
    ensures AllTypable([Five(0), Five(audio)]) && Keys([Five(0), Five(audio)]) == "55"
    ensures var ps := TypesAll(s, [Five(0), Five(audio)]).presses;
            |ps| == 2 && forall i :: 0 <= i < 2 ==> Key(ps[i]) && Fits(ps[i], ps[i].packets)
  {
    FiveIsTypable(0);
    FiveIsTypable(audio);
    PressesFit(s, [Five(0), Five(audio)]);
  }

  lemma FivesMissed(s: Sender, audio: nat, first: seq<Arrival>, second: seq<Arrival>, payloadType: int, ssrc: int)
    requires s.presses == [] && AllTypable([Five(0), Five(audio)])
    requires ArrivedAll([first, second], TypesAll(s, [Five(0), Five(audio)]).presses, payloadType, ssrc)
    requires first != [] && second != []
    requires second[0].at - first[0].at < REPEAT_GUARD || (1600 + 160 * audio) % 0x1_0000_0000 == 0
    ensures HeardKeys(Flatten([first, second]), payloadType, REPEAT_GUARD) != "55"
  {
    var ts := [Five(0), Five(audio)];
    FiveIsTypable(0);
    KeysHeardIff(s, ts, [first, second], payloadType, ssrc, REPEAT_GUARD);
    assert Keys(ts) == "55" && Keys(ts)[0] == Keys(ts)[1];
    assert Advance(ts[0], ts[1]) == 1600 + 160 * audio;
    assert [first, second][1] == second && [first, second][0] == first;
  }

  /** One key typed twice: at the default pace it comes in again 0.2 s later and is missed;
      with 134217718 packets of audio in between it starts under the timestamp of its first
      press and is missed, however long ago that was. */
  lemma MissedKeys(s: Sender, payloadType: int, ssrc: int, audio: nat, later: real)
    requires s.presses == [] && Negotiated(payloadType, ssrc)
    requires (audio == 0 && later == 0.2) || audio == 134217718
    ensures AllTypable([Five(0), Five(audio)])
    ensures var ps := TypesAll(s, [Five(0), Five(audio)]).presses;
      && |ps| == 2 && (forall i :: 0 <= i < 2 ==> Key(ps[i]) && Fits(ps[i], ps[i].packets))
      && HeardKeys(Flatten([[FirstPacket(ps[0], 0.0, payloadType, ssrc)],
                            [FirstPacket(ps[1], later, payloadType, ssrc)]]), payloadType, REPEAT_GUARD) != "55"
  {
    FivesFit(s, audio);
    var ps := TypesAll(s, [Five(0), Five(audio)]).presses;
    var first, second := [FirstPacket(ps[0], 0.0, payloadType, ssrc)], [FirstPacket(ps[1], later, payloadType, ssrc)];
    TwoArrived(ps, first, second, payloadType, ssrc);
    FivesTooClose(audio, later);
    FivesMissed(s, audio, first, second, payloadType, ssrc);
  }

  lemma FivesTooClose(audio: nat, later: real)
    requires (audio == 0 && later == 0.2) || audio == 134217718
    ensures later - 0.0 < REPEAT_GUARD || (1600 + 160 * audio) % 0x1_0000_0000 == 0
  {
  }

  lemma TwoArrived(ps: seq<Pressed>, first: seq<Arrival>, second: seq<Arrival>, payloadType: int, ssrc: int)
    requires |ps| == 2 && (forall i :: 0 <= i < 2 ==> Key(ps[i]) && Fits(ps[i], ps[i].packets))
    requires Negotiated(payloadType, ssrc)
    requires ArrivedOf(first, ps[0], payloadType, ssrc) && ArrivedOf(second, ps[1], payloadType, ssrc)
    ensures ArrivedAll([first, second], ps, payloadType, ssrc)
  {
    var arrivals := [first, second];
    assert arrivals[0] == first && arrivals[1] == second;
  }
}
