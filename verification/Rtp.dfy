/** Sending and receiving over RTP (bridge/rtp.py): audio in whole packets, and key
    presses as events. What the codecs do to a packet's samples is not modelled:
    a packet carries the samples it encodes. */
module Rtp {
  import opened Prelude
  import opened Bytes
  import opened Dtmf

  const RTP_CLOCK_INCREMENT := 160
  const SEQUENCES := 0x1_0000
  const TIMESTAMPS := 0x1_0000_0000
  const PT_PCMU := 0
  const PT_PCMA := 8
  const PT_G722 := 9

  /** One packet of audio: the counters its header is made from, and the samples
      in it. */
  datatype AudioPacket = AudioPacket(payloadType: int, sequence: nat, timestamp: nat, samples: seq<int>)

  function Header(marker: bool, payloadType: int, sequence: int, timestamp: int, ssrc: int): (h: seq<Byte>)
    requires 0 <= payloadType < 0x80 && 0 <= ssrc < TIMESTAMPS
    requires 0 <= sequence < SEQUENCES && 0 <= timestamp < TIMESTAMPS
    ensures |h| == 12
  {
    [0x80, (if marker then 0x80 else 0) + payloadType] + U16(sequence) + U32(timestamp) + U32(ssrc)
  }

  lemma HeaderReadBack(marker: bool, payloadType: int, sequence: int, timestamp: int, ssrc: int, payload: seq<Byte>)
    requires 0 <= payloadType < 0x80 && 0 <= ssrc < TIMESTAMPS
    requires 0 <= sequence < SEQUENCES && 0 <= timestamp < TIMESTAMPS
    ensures var data := Header(marker, payloadType, sequence, timestamp, ssrc) + payload;
            && data[0] / 0x40 == 2 && data[0] % 0x40 == 0
            && data[1] % 0x80 == payloadType && (data[1] >= 0x80 <==> marker)
            && FromU16(data[2..4]) == sequence
            && FromU32(data[4..8]) == timestamp
            && FromU32(data[8..12]) == ssrc
            && Worth(data[2..4]) == sequence && Worth(data[4..8]) == timestamp && Worth(data[8..12]) == ssrc
            && data[12..] == payload
  {
    var data := Header(marker, payloadType, sequence, timestamp, ssrc) + payload;
    assert data[2..4] == U16(sequence);
    assert data[4..8] == U32(timestamp);
    assert data[8..12] == U32(ssrc);
    U16RoundTrip(sequence);
    U32RoundTrip(timestamp);
    U32RoundTrip(ssrc);
    WorthOfNumbers(sequence, timestamp);
    WorthOfNumbers(sequence, ssrc);
  }

  // ------------------------------------------------------------------ audio

  /** The header of an audio packet: the low 16 and 32 bits of the counters. */
  function AudioHeader(p: AudioPacket, ssrc: int): seq<Byte>
    requires 0 <= p.payloadType < 0x80 && 0 <= ssrc < TIMESTAMPS
  {
    Header(false, p.payloadType, p.sequence % 0x1_0000, p.timestamp % 0x1_0000_0000, ssrc)
  }

  datatype Datagram = Audio(packet: AudioPacket) | Press(data: seq<Byte>)

  /** The stretches of `size` samples from one place on, the last one filled up
      with silence. */
  function Chunks(pcm: seq<int>, from: nat, size: nat): (chunks: seq<seq<int>>)
    requires size > 0
    ensures forall k :: 0 <= k < |chunks| ==> |chunks[k]| == size
    decreases |pcm| - from
  {
    if from >= |pcm| then []
    else [Padded(pcm[from..Min(from + size, |pcm|)], size)] + Chunks(pcm, from + size, size)
  }

  function Zeros(n: nat): (zeros: seq<int>)
    ensures |zeros| == n && forall i :: 0 <= i < n ==> zeros[i] == 0
  {
    seq(n, _ => 0)
  }

  function Padded(chunk: seq<int>, size: nat): (padded: seq<int>)
    requires |chunk| <= size
    ensures |padded| == size && chunk <= padded && (|chunk| == size ==> padded == chunk)
  {
    chunk + Zeros(size - |chunk|)
  }

  lemma OneMoreChunk(sent: seq<seq<int>>, pcm: seq<int>, from: nat, size: nat)
    requires size > 0 && from < |pcm|
    ensures sent + Chunks(pcm, from, size)
         == sent + [Padded(pcm[from..Min(from + size, |pcm|)], size)] + Chunks(pcm, from + size, size)
  {
  }

  /** `send_pcm`: a packet for each stretch, numbered upwards, the clock advancing
      by one increment a packet. */
  function AudioPackets(chunks: seq<seq<int>>, payloadType: int, sequence: nat, timestamp: nat): (ps: seq<Datagram>)
    ensures |ps| == |chunks|
  {
    seq(|chunks|, k requires 0 <= k < |chunks| =>
      Audio(AudioPacket(payloadType, sequence + k, timestamp + RTP_CLOCK_INCREMENT * k, chunks[k])))
  }

  lemma AudioPacketsSnoc(chunks: seq<seq<int>>, chunk: seq<int>, payloadType: int, sequence: nat, timestamp: nat)
    ensures AudioPackets(chunks + [chunk], payloadType, sequence, timestamp)
            == AudioPackets(chunks, payloadType, sequence, timestamp)
               + [Audio(AudioPacket(payloadType, sequence + |chunks|,
                                    timestamp + RTP_CLOCK_INCREMENT * |chunks|, chunk))]
  {
  }

  lemma AudioHeaderReads(p: AudioPacket, ssrc: int)
    requires 0 <= p.payloadType < 0x80 && 0 <= ssrc < TIMESTAMPS
    ensures |AudioHeader(p, ssrc)| == 12 && AudioHeader(p, ssrc)[1] == p.payloadType
    ensures FromU16(AudioHeader(p, ssrc)[2..4]) == p.sequence % 0x1_0000
    ensures FromU32(AudioHeader(p, ssrc)[4..8]) == p.timestamp % 0x1_0000_0000
  {
    HeaderReadBack(false, p.payloadType, p.sequence % 0x1_0000, p.timestamp % 0x1_0000_0000, ssrc, []);
    assert AudioHeader(p, ssrc) + [] == AudioHeader(p, ssrc);
  }

  lemma NextNumber(n: nat, step: nat, turn: nat)
    requires turn == 0x1_0000 || turn == 0x1_0000_0000
    ensures (n + step) % turn == (n % turn + step) % turn
  {
  }

  /** What a receiver reads off two successive audio packets: one further, and one
      increment later, also where the counters wrap in the header. */
  lemma NumbersOnWire(chunks: seq<seq<int>>, payloadType: int, sequence: nat, timestamp: nat, ssrc: int, k: nat)
    requires k + 1 < |chunks| && 0 <= payloadType < 0x80 && 0 <= ssrc < TIMESTAMPS
    ensures var ps := AudioPackets(chunks, payloadType, sequence, timestamp);
      && ps[k].Audio? && ps[k + 1].Audio?
      && var one, next := AudioHeader(ps[k].packet, ssrc), AudioHeader(ps[k + 1].packet, ssrc);
      && |one| == |next| == 12 && one[1] == next[1] == payloadType
      && FromU16(next[2..4]) == (FromU16(one[2..4]) + 1) % 0x1_0000
      && FromU32(next[4..8]) == (FromU32(one[4..8]) + RTP_CLOCK_INCREMENT) % 0x1_0000_0000
  {
    var ps := AudioPackets(chunks, payloadType, sequence, timestamp);
    AudioHeaderReads(ps[k].packet, ssrc);
    AudioHeaderReads(ps[k + 1].packet, ssrc);
    NextNumber(sequence + k, 1, 0x1_0000);
    NextNumber(timestamp + RTP_CLOCK_INCREMENT * k, RTP_CLOCK_INCREMENT, 0x1_0000_0000);
  }

  /** The samples of the audio packets on the wire, in order. */
  function Sounded(wire: seq<Datagram>): seq<int> {
    if wire == [] then []
    else Sounded(Front(wire)) + if Last(wire).Audio? then Last(wire).packet.samples else []
  }

  lemma {:induction false} SoundedAppend(a: seq<Datagram>, b: seq<Datagram>)
    ensures Sounded(a + b) == Sounded(a) + Sounded(b)
  {
    if b == [] {
      assert a + b == a;
    } else {
      SoundedAppend(a, Front(b));
      assert a + b == (a + Front(b)) + [Last(b)];
      SoundedSnoc(a + Front(b), Last(b));
    }
  }

  lemma SoundedSnoc(wire: seq<Datagram>, d: Datagram)
    ensures Sounded(wire + [d]) == Sounded(wire) + if d.Audio? then d.packet.samples else []
  {
    assert Front(wire + [d]) == wire;
  }

  lemma {:induction false} SoundedChunks(chunks: seq<seq<int>>, payloadType: int, sequence: nat, timestamp: nat)
    ensures Sounded(AudioPackets(chunks, payloadType, sequence, timestamp)) == Flatten(chunks)
  {
    if chunks != [] {
      SoundedChunks(Front(chunks), payloadType, sequence, timestamp);
      AudioPacketsSnoc(Front(chunks), Last(chunks), payloadType, sequence, timestamp);
      assert Front(chunks) + [Last(chunks)] == chunks;
      SoundedSnoc(AudioPackets(Front(chunks), payloadType, sequence, timestamp),
                  Last(AudioPackets(chunks, payloadType, sequence, timestamp)));
    }
  }

  /** So many samples come to whole packets. */
  predicate Whole(n: nat, size: nat)
    requires size > 0
  {
    n == 0 || (n >= size && Whole(n - size, size))
  }

  lemma {:induction false} WholeIff(n: nat, size: nat)
    requires size > 0
    ensures Whole(n, size) <==> n % size == 0
  {
    if n > 0 && n % size == 0 {
      WholeOrMore(n, size);
    }
    if n >= size {
      WholeIff(n - size, size);
      RemainderStays(n, size);
    }
  }

  lemma RemainderStays(n: nat, size: nat)
    requires 0 < size <= n
    ensures n % size == 0 <==> (n - size) % size == 0
  {
    if n % size == 0 {
      WholeOrMore(n, size);
    }
    if (n - size) % size == 0 {
      RemainderOf(n, size, (n - size) / size + 1);
    }
  }

  /** Whole packets' worth of samples goes out as it is: nothing is added to it. */
  lemma {:induction false} WholeChunks(pcm: seq<int>, from: nat, size: nat)
    requires size > 0 && from <= |pcm| && Whole(|pcm| - from, size)
    ensures Flatten(Chunks(pcm, from, size)) == pcm[from..]
    decreases |pcm| - from
  {
    if from < |pcm| {
      WholeChunks(pcm, from + size, size);
      FlattenAppend([pcm[from..from + size]], Chunks(pcm, from + size, size));
      assert Front([pcm[from..from + size]]) == [];
    }
  }

  /** How much silence is added to so many samples to come to whole packets. */
  function Missing(n: nat, size: nat): nat
    requires size > 0
    decreases n
  {
    if n == 0 then 0 else if n <= size then size - n else Missing(n - size, size)
  }

  lemma {:induction false} MissingIs(n: nat, size: nat)
    requires size > 0
    ensures Missing(n, size) < size && Whole(n + Missing(n, size), size)
    decreases n
  {
    if n > size {
      MissingIs(n - size, size);
    }
  }

  /** Any samples go out in order, with silence behind them up to a whole packet and no
      further. */
  lemma {:induction false} ChunksAreAll(pcm: seq<int>, from: nat, size: nat)
    requires size > 0 && from <= |pcm|
    ensures Flatten(Chunks(pcm, from, size)) == pcm[from..] + Zeros(Missing(|pcm| - from, size))
    decreases |pcm| - from
  {
    if from < |pcm| {
      var first := Padded(pcm[from..Min(from + size, |pcm|)], size);
      var rest := Chunks(pcm, from + size, size);
      FlattenAppend([first], rest);
      assert Front([first]) == [] && Flatten([first]) == [] + first;
      if from + size < |pcm| {
        ChunksAreAll(pcm, from + size, size);
        Joined(pcm[from..from + size], pcm[from + size..], Zeros(Missing(|pcm| - from, size)));
        assert pcm[from..from + size] + pcm[from + size..] == pcm[from..];
      } else {
        assert pcm[from..Min(from + size, |pcm|)] == pcm[from..];
        assert rest == [] && Flatten(rest) == [];
        assert first == pcm[from..] + Zeros(size - (|pcm| - from));
      }
    } else {
      assert pcm[from..] == [] && Zeros(0) == [];
    }
  }

  lemma Joined(a: seq<int>, b: seq<int>, c: seq<int>)
    ensures a + (b + c) == a + b + c
  {
  }

  lemma WholeOrMore(n: nat, size: nat)
    requires size > 0 && n % size == 0 && n > 0
    ensures n >= size && (n - size) % size == 0
  {
    var q := n / size;
    assert n == q * size && q > 0;
    MulMonotone(1, q, size);
    RemainderOf(n - size, size, q - 1);
  }

  lemma RemainderOf(n: nat, size: nat, q: nat)
    requires size > 0 && n == q * size
    ensures n % size == 0
  {
    var r, d := n % size, n / size;
    assert (q - d) * size == r;
    if q > d {
      MulMonotone(1, q - d, size);
    }
  }

  // ------------------------------------------------------------- key presses

  function Upper(c: char): char {
    if 'a' <= c <= 'z' then c - 32 as char else c
  }

  /** Where a key stands among the events, or -1 for what is not a key. */
  function KeyIndex(c: char): (index: int)
    ensures -1 <= index < |EVENT_DIGITS|
    ensures index >= 0 ==> EVENT_DIGITS[index] == Upper(c)
    ensures index < 0 ==> Upper(c) !in EVENT_DIGITS
  {
    IndexOf(EVENT_DIGITS, Upper(c), 0)
  }

  function IndexOf(s: string, c: char, from: nat): (index: int)
    requires from <= |s| && c !in s[..from]
    ensures -1 <= index < |s|
    ensures index >= 0 ==> s[index] == c
    ensures index < 0 ==> c !in s
    decreases |s| - from
  {
    if from == |s| then assert s[..from] == s; -1
    else if s[from] == c then from
    else assert s[..from + 1] == s[..from] + [s[from]]; IndexOf(s, c, from + 1)
  }

  /** A press under way: its event, and the numbers its packets are made from. */
  datatype Pressed = Pressed(event: nat, started: int, sequence: nat, perPacket: nat, packets: nat)

  ghost predicate Key(p: Pressed) {
    p.event < |EVENT_DIGITS| && 0 <= p.started < TIMESTAMPS && p.packets >= 1
  }

  /** The durations of a press, up to its n-th packet, fit the 16 bits they have. */
  ghost predicate Fits(p: Pressed, n: nat) {
    p.perPacket * n < 0x1_0000
  }

  /** The payload type and the source id fit their fields. */
  ghost predicate Negotiated(payloadType: int, ssrc: int) {
    0 <= payloadType < 0x80 && 0 <= ssrc < TIMESTAMPS
  }

  function EventData(marker: bool, payloadType: int, sequence: nat, started: int, ssrc: int,
                     event: Byte, end: bool, samples: int): seq<Byte>
    requires Negotiated(payloadType, ssrc) && 0 <= started < TIMESTAMPS && 0 <= samples < 0x1_0000
  {
    Header(marker, payloadType, sequence % 0x1_0000, started, ssrc) + EventPayload(event, end, samples)
  }

  function PressPacket(p: Pressed, k: nat, payloadType: int, ssrc: int): seq<Byte>
    requires Key(p) && Fits(p, Min(k + 1, p.packets)) && Negotiated(payloadType, ssrc)
  {
    EventData(k == 0, payloadType, p.sequence + k, p.started, ssrc, p.event, k >= p.packets,
              p.perPacket * Min(k + 1, p.packets))
  }

  /** The first n packets of a press; those past its length carry the end marker. */
  function PressPackets(p: Pressed, n: nat, payloadType: int, ssrc: int): (ps: seq<Datagram>)
    requires Key(p) && Fits(p, Min(n, p.packets)) && Negotiated(payloadType, ssrc)
    ensures |ps| == n
  {
    seq(n, k requires 0 <= k < n =>
      MulMonotone(Min(k + 1, p.packets), Min(n, p.packets), p.perPacket);
      Press(PressPacket(p, k, payloadType, ssrc)))
  }

  function PacketsHeld(durationMs: nat, intervalMs: nat): nat
    requires intervalMs > 0
  {
    Max(1, durationMs / intervalMs)
  }

  /** How many samples one interval is at this rate. */
  function SamplesPer(sampleRate: nat, intervalMs: nat): nat {
    MulMonotone(0, sampleRate, intervalMs);
    sampleRate * intervalMs / 1000
  }

  /** How many packets of a press go out: all of them and the end three times, or
      those whose duration fits. */
  ghost function PacketsMade(p: Pressed): nat {
    if Fits(p, p.packets) || p.perPacket == 0 then p.packets + 3 else 0xFFFF / p.perPacket
  }

  /** The clock moves past a press only once all of it is sent. */
  ghost function ClockAfter(p: Pressed, timestamp: nat): int {
    if Fits(p, p.packets) then (p.started + p.perPacket * p.packets) % 0x1_0000_0000 else timestamp
  }

  datatype Outcome = Sent | NotNegotiated | NoSuchKey | TooLong

  class RtpSession {
    var sequence: nat
    var timestamp: nat
    const ssrc: int
    const payloadType: int
    const sampleRate: nat
    const samplesPerPacket: nat
    const dtmfPayloadType: Option<int>
    var wire: seq<Datagram>

    ghost predicate Valid() {
      && samplesPerPacket > 0 && sampleRate > 0 && 0 <= ssrc < TIMESTAMPS
      && (dtmfPayloadType.Some? ==> 0 <= dtmfPayloadType.value < 0x80)
    }

    constructor (payloadType: int, dtmfPayloadType: Option<int>, ssrc: int)
      requires payloadType == PT_PCMU || payloadType == PT_PCMA || payloadType == PT_G722
      requires dtmfPayloadType.Some? ==> 0 <= dtmfPayloadType.value < 0x80
      requires 0 <= ssrc < TIMESTAMPS
      ensures Valid() && wire == [] && sequence == timestamp == 0
      ensures this.payloadType == payloadType && this.dtmfPayloadType == dtmfPayloadType && this.ssrc == ssrc
      ensures (sampleRate, samplesPerPacket) == if payloadType == PT_G722 then (16000, 320) else (8000, 160)
    {
      this.payloadType, this.dtmfPayloadType, this.ssrc := payloadType, dtmfPayloadType, ssrc;
      sampleRate := if payloadType == PT_G722 then 16000 else 8000;
      samplesPerPacket := if payloadType == PT_G722 then 320 else 160;
      sequence, timestamp, wire := 0, 0, [];
    }

    method SendPcm(pcm: seq<int>)
      requires Valid()
      modifies this`wire, this`sequence, this`timestamp
      ensures var chunks := Chunks(pcm, 0, samplesPerPacket);
              && wire == old(wire) + AudioPackets(chunks, payloadType, old(sequence), old(timestamp))
              && sequence == old(sequence) + |chunks|
              && timestamp == old(timestamp) + RTP_CLOCK_INCREMENT * |chunks|
    {
      var i := 0;
      ghost var sent: seq<seq<int>> := [];
      ghost var before, first, clock := wire, sequence, timestamp;
      assert before + AudioPackets([], payloadType, first, clock) == before;
      while i < |pcm|
        invariant 0 <= i && sent + Chunks(pcm, i, samplesPerPacket) == Chunks(pcm, 0, samplesPerPacket)
        invariant wire == before + AudioPackets(sent, payloadType, first, clock)
        invariant sequence == first + |sent|
        invariant timestamp == clock + RTP_CLOCK_INCREMENT * |sent|
        decreases |pcm| - i
      {
        var chunk := pcm[i..Min(i + samplesPerPacket, |pcm|)];
        if |chunk| < samplesPerPacket {
          chunk := Padded(chunk, samplesPerPacket);
        }
        OneMoreChunk(sent, pcm, i, samplesPerPacket);
        AudioPacketsSnoc(sent, chunk, payloadType, first, clock);
        sent := sent + [chunk];
        SendAudio(chunk);
        i := i + samplesPerPacket;
      }
      assert sent + [] == sent;
    }

    method SendAudio(chunk: seq<int>)
      modifies this`wire, this`sequence, this`timestamp
      ensures wire == old(wire) + [Audio(AudioPacket(payloadType, old(sequence), old(timestamp), chunk))]
      ensures sequence == old(sequence) + 1 && timestamp == old(timestamp) + RTP_CLOCK_INCREMENT
    {
      wire := wire + [Audio(AudioPacket(payloadType, sequence, timestamp, chunk))];
      sequence := sequence + 1;
      timestamp := timestamp + RTP_CLOCK_INCREMENT;
    }

    /** One key press. A press whose duration outgrows its field stops where it
        does, with what was sent on the wire and the clock where it was. */
    method SendDtmf(digit: char, durationMs: nat, intervalMs: nat) returns (outcome: Outcome)
      requires Valid() && intervalMs > 0
      modifies this
      ensures outcome == NotNegotiated <==> dtmfPayloadType == None
      ensures outcome == NoSuchKey <==> dtmfPayloadType.Some? && KeyIndex(digit) < 0
      ensures outcome == NotNegotiated || outcome == NoSuchKey ==> unchanged(this)
      ensures outcome == Sent || outcome == TooLong ==>
        var p := PressNow(digit, durationMs, intervalMs, sampleRate, old(sequence), old(timestamp));
        && (outcome == Sent <==> Fits(p, p.packets))
        && Key(p) && Fits(p, Min(PacketsMade(p), p.packets))
        && wire == old(wire) + PressPackets(p, PacketsMade(p), dtmfPayloadType.value, ssrc)
        && sequence == old(sequence) + PacketsMade(p)
        && timestamp == ClockAfter(p, old(timestamp))
    {
      if dtmfPayloadType == None {
        return NotNegotiated;
      }
      if KeyIndex(digit) < 0 {
        return NoSuchKey;
      }
      var fits := SendPress(PressNow(digit, durationMs, intervalMs, sampleRate, sequence, timestamp));
      outcome := if fits then Sent else TooLong;
    }

    method SendPress(p: Pressed) returns (fits: bool)
      requires Valid() && dtmfPayloadType.Some? && Key(p) && p.sequence == sequence
      modifies this`wire, this`sequence, this`timestamp
      ensures fits <==> Fits(p, p.packets)
      ensures Fits(p, Min(PacketsMade(p), p.packets))
      ensures wire == old(wire) + PressPackets(p, PacketsMade(p), dtmfPayloadType.value, ssrc)
      ensures sequence == old(sequence) + PacketsMade(p)
      ensures timestamp == ClockAfter(p, old(timestamp))
    {
      fits := SendHeld(p);
      if fits {
        SendEnds(p, old(wire));
        timestamp := (p.started + p.perPacket * p.packets) % 0x1_0000_0000;
      }
    }

    /** A packet for each interval, for as long as the duration fits its field. */
    method SendHeld(p: Pressed) returns (fits: bool)
      requires Valid() && dtmfPayloadType.Some? && Key(p) && p.sequence == sequence
      modifies this`wire, this`sequence
      ensures fits <==> Fits(p, p.packets)
      ensures var n := if fits then p.packets else PacketsMade(p);
              && n <= p.packets && Fits(p, n)
              && wire == old(wire) + PressPackets(p, n, dtmfPayloadType.value, ssrc)
              && sequence == old(sequence) + n
    {
      for index := 0 to p.packets
        invariant Fits(p, index)
        invariant wire == old(wire) + PressPackets(p, index, dtmfPayloadType.value, ssrc)
        invariant sequence == old(sequence) + index
      {
        if p.perPacket * (index + 1) >= 0x1_0000 {
          LastThatFits(p.perPacket, index, p.packets);
          return false;
        }
        PressPacketsSnoc(p, index, dtmfPayloadType.value, ssrc);
        SendEvent(index == 0, p.started, p.event, p.perPacket * (index + 1), false);
      }
      fits := true;
    }

    /** The end of the press, said three times. */
    method SendEnds(p: Pressed, ghost before: seq<Datagram>)
      requires Valid() && dtmfPayloadType.Some? && Key(p) && Fits(p, p.packets) && sequence == p.sequence + p.packets
      requires wire == before + PressPackets(p, p.packets, dtmfPayloadType.value, ssrc)
      modifies this`wire, this`sequence
      ensures wire == before + PressPackets(p, p.packets + 3, dtmfPayloadType.value, ssrc)
      ensures sequence == p.sequence + p.packets + 3
    {
      for again := 0 to 3
        invariant wire == before + PressPackets(p, p.packets + again, dtmfPayloadType.value, ssrc)
        invariant sequence == p.sequence + p.packets + again
      {
        EndSnoc(p, p.packets + again, dtmfPayloadType.value, ssrc);
        SendEvent(false, p.started, p.event, p.perPacket * p.packets, true);
      }
    }

    method SendEvent(marker: bool, started: int, event: Byte, samples: int, end: bool)
      requires Valid() && dtmfPayloadType.Some? && 0 <= started < TIMESTAMPS && 0 <= samples < 0x1_0000
      modifies this`wire, this`sequence
      ensures sequence == old(sequence) + 1
      ensures wire == old(wire) + [Press(EventData(marker, dtmfPayloadType.value, old(sequence), started, ssrc,
                                                   event, end, samples))]
    {
      wire := wire + [Press(EventData(marker, dtmfPayloadType.value, sequence, started, ssrc, event, end, samples))];
      sequence := sequence + 1;
    }
  }

  /** The press that `send_dtmf` makes of a key, from where the session stands. */
  function PressNow(digit: char, durationMs: nat, intervalMs: nat, sampleRate: nat, sequence: nat,
                    timestamp: nat): Pressed
    requires intervalMs > 0 && KeyIndex(digit) >= 0
  {
    Pressed(KeyIndex(digit), timestamp % 0x1_0000_0000, sequence, SamplesPer(sampleRate, intervalMs),
            PacketsHeld(durationMs, intervalMs))
  }

  lemma TableIs(i: nat)
    requires i < |EVENT_DIGITS|
    ensures |EVENT_DIGITS| == 16
    ensures i < 10 ==> EVENT_DIGITS[i] as int == '0' as int + i
    ensures i == 10 ==> EVENT_DIGITS[i] == '*'
    ensures i == 11 ==> EVENT_DIGITS[i] == '#'
    ensures i >= 12 ==> EVENT_DIGITS[i] as int == 'A' as int + (i - 12)
  {
  }

  /** The number each key goes by; a letter large or small. */
  lemma KeysAre(c: char)
    requires KeyIndex(c) >= 0
    ensures KeyIndex(c) < 10 ==> c as int == '0' as int + KeyIndex(c)
    ensures KeyIndex(c) == 10 ==> c == '*'
    ensures KeyIndex(c) == 11 ==> c == '#'
    ensures KeyIndex(c) >= 12 ==> c as int == 'A' as int + (KeyIndex(c) - 12)
                                  || c as int == 'a' as int + (KeyIndex(c) - 12)
  {
    TableIs(KeyIndex(c));
  }

  /** And every one of them is a key. */
  lemma KeysHaveNumbers(c: char)
    requires '0' <= c <= '9' || c == '*' || c == '#' || 'A' <= c <= 'D' || 'a' <= c <= 'd'
    ensures KeyIndex(c) >= 0
  {
    var u := Upper(c);
    var i := if '0' <= u <= '9' then u as int - '0' as int else if u == '*' then 10 else if u == '#' then 11
             else 12 + (u as int - 'A' as int);
    TableIs(i);
    assert EVENT_DIGITS[i] == u;
  }

  /** The press of a key: as many packets as whole intervals fit into its duration, but one at
      least, each worth the whole samples of an interval. */
  lemma PressLasts(digit: char, durationMs: nat, intervalMs: nat, sampleRate: nat, sequence: nat, timestamp: nat)
    requires intervalMs > 0 && KeyIndex(digit) >= 0
    ensures var p := PressNow(digit, durationMs, intervalMs, sampleRate, sequence, timestamp);
      && p.event == KeyIndex(digit) && p.sequence == sequence && p.started == timestamp % 0x1_0000_0000
      && p.perPacket * 1000 <= sampleRate * intervalMs < (p.perPacket + 1) * 1000
      && p.packets >= 1 && durationMs < (p.packets + 1) * intervalMs
      && (p.packets > 1 ==> p.packets * intervalMs <= durationMs)
  {
    MulMonotone(0, sampleRate, intervalMs);
    var q := durationMs / intervalMs;
    assert q * intervalMs <= durationMs < q * intervalMs + intervalMs;
    MulMonotone(q + 1, Max(1, q) + 1, intervalMs);
  }

  /** What every packet of a press reads as: the marker on the first one alone, numbers that
      go up, one timestamp, the key, how long it has been held, and the end on those behind
      its length. */
  lemma PressReads(p: Pressed, k: nat, payloadType: int, ssrc: int)
    requires Key(p) && Fits(p, Min(k + 1, p.packets)) && Negotiated(payloadType, ssrc)
    ensures var data := PressPacket(p, k, payloadType, ssrc);
      && |data| == 16 && data[0] == 0x80
      && data[1] == (if k == 0 then 0x80 + payloadType else payloadType)
      && FromU16(data[2..4]) == (p.sequence + k) % 0x1_0000
      && FromU32(data[4..8]) == p.started && FromU32(data[8..12]) == ssrc
      && ParseEvent(data[12..])
         == Some(Event(EVENT_DIGITS[p.event], k >= p.packets, p.perPacket * Min(k + 1, p.packets)))
      && data[12] == p.event && data[13] == (if k >= p.packets then 0x80 + 10 else 10)
      && Worth(data[14..16]) == p.perPacket * Min(k + 1, p.packets)
  {
    var duration := p.perPacket * Min(k + 1, p.packets);
    MulMonotone(0, p.perPacket, Min(k + 1, p.packets));
    var payload := EventPayload(p.event, k >= p.packets, duration);
    HeaderReadBack(k == 0, payloadType, (p.sequence + k) % 0x1_0000, p.started, ssrc, payload);
    EventRoundTrip(p.event, k >= p.packets, duration);
    assert PressPacket(p, k, payloadType, ssrc)[12..] == payload;
    assert PressPacket(p, k, payloadType, ssrc)[14..16] == U16(duration);
    WorthOfNumbers(duration, 0);
  }

  /** A press too long for its field stops at the last packet whose duration still fits. */
  lemma StopsWhereItMust(p: Pressed)
    requires Key(p) && !Fits(p, p.packets)
    ensures PacketsMade(p) < p.packets && Fits(p, PacketsMade(p)) && !Fits(p, PacketsMade(p) + 1)
  {
    if p.perPacket > 0 {
      var q := 0xFFFF / p.perPacket;
      assert q * p.perPacket <= 0xFFFF < q * p.perPacket + p.perPacket;
      if q >= p.packets {
        MulMonotone(p.packets, q, p.perPacket);
      }
    }
  }

  lemma PressPacketsSnoc(p: Pressed, n: nat, payloadType: int, ssrc: int)
    requires Key(p) && Fits(p, Min(n + 1, p.packets)) && Negotiated(payloadType, ssrc)
    ensures Fits(p, Min(n, p.packets))
    ensures PressPackets(p, n + 1, payloadType, ssrc)
            == PressPackets(p, n, payloadType, ssrc) + [Press(PressPacket(p, n, payloadType, ssrc))]
  {
    MulMonotone(Min(n, p.packets), Min(n + 1, p.packets), p.perPacket);
  }

  lemma EndSnoc(p: Pressed, n: nat, payloadType: int, ssrc: int)
    requires Key(p) && Fits(p, p.packets) && Negotiated(payloadType, ssrc) && n >= p.packets
    ensures 0 <= p.perPacket * p.packets < 0x1_0000
    ensures PressPackets(p, n + 1, payloadType, ssrc)
            == PressPackets(p, n, payloadType, ssrc)
               + [Press(EventData(false, payloadType, p.sequence + n, p.started, ssrc, p.event, true,
                                  p.perPacket * p.packets))]
  {
    MulMonotone(0, p.perPacket, p.packets);
    PressPacketsSnoc(p, n, payloadType, ssrc);
  }

  lemma LastThatFits(perPacket: nat, n: nat, packets: nat)
    requires perPacket * n < 0x1_0000 <= perPacket * (n + 1) && n < packets
    ensures perPacket > 0 && 0xFFFF / perPacket == n && perPacket * packets >= 0x1_0000
  {
    MulMonotone(n + 1, packets, perPacket);
    var q := 0xFFFF / perPacket;
    assert q * perPacket <= 0xFFFF < q * perPacket + perPacket;
    if q < n {
      MulMonotone(q + 1, n, perPacket);
    } else if q > n {
      MulMonotone(n + 1, q, perPacket);
    }
  }
}
