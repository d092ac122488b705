/** Clocking the mix out to the telephone (bridge/mix_pump.py): resampled once,
    handed on in whole packets, on a schedule.

    The blocks are whatever the mixer hands out on successive reads, for as long as
    the pump is to run; the clock is any clock that does not run backwards, and
    a sleep lasts at least as long as it was asked to. */
module MixPump {
  import opened Prelude
  import opened Resampler
  import opened Rtp

  const SAMPLE_RATE := 48000

  class Clock {
    var time: real
    var ticks: nat
    const drift: nat -> real      // how much time passes around each look at the clock

    ghost predicate Valid() {
      forall n: nat :: drift(n) >= 0.0
    }

    constructor (time: real, drift: nat -> real)
      requires forall n: nat :: drift(n) >= 0.0
      ensures Valid()
    {
      this.time, this.drift, ticks := time, drift, 0;
    }

    method Now() returns (now: real)
      requires Valid()
      modifies this
      ensures now == time == old(time) + drift(old(ticks)) && ticks == old(ticks) + 1
    {
      time := time + drift(ticks);
      ticks := ticks + 1;
      now := time;
    }

    method Sleep(delay: real)
      requires Valid()
      modifies this
      ensures time == old(time) + delay + drift(old(ticks)) && ticks == old(ticks) + 1
    {
      time := time + delay + drift(ticks);
      ticks := ticks + 1;
    }
  }

  /** When block k is due on a schedule that never falls behind. */
  function DueAt(start: real, interval: real, k: nat): real {
    if k == 0 then start else DueAt(start, interval, k - 1) + interval
  }

  lemma {:induction false} DueAtIsLinear(start: real, interval: real, k: nat)
    ensures DueAt(start, interval, k) == start + k as real * interval
  {
    if k > 0 {
      DueAtIsLinear(start, interval, k - 1);
      assert k as real * interval == (k - 1) as real * interval + interval;
    }
  }

  /** What is on the wire are packets of these chunks, nothing else. */
  ghost predicate OnWire(session: RtpSession, before: seq<Datagram>, sequence: nat, timestamp: nat, sent: seq<seq<int>>)
    reads session
  {
    && session.wire == before + AudioPackets(sent, session.payloadType, sequence, timestamp)
    && session.sequence == sequence + |sent|
    && session.timestamp == timestamp + RTP_CLOCK_INCREMENT * |sent|
    && (forall k :: 0 <= k < |sent| ==> |sent[k]| == session.samplesPerPacket)
  }

  lemma AudioPacketsAppend(a: seq<seq<int>>, b: seq<seq<int>>, payloadType: int, sequence: nat, timestamp: nat)
    ensures AudioPackets(a + b, payloadType, sequence, timestamp)
            == AudioPackets(a, payloadType, sequence, timestamp)
               + AudioPackets(b, payloadType, sequence + |a|, timestamp + RTP_CLOCK_INCREMENT * |a|)
  {
  }

  lemma WholePart(n: nat, size: nat)
    requires size > 0
    ensures n % size < size && 0 <= n - n % size && Whole(n - n % size, size)
  {
    var q, r := n / size, n % size;
    assert n == q * size + r;
    MulMonotone(0, q, size);
    RemainderOf(n - r, size, q);
    WholeIff(n - r, size);
  }

  /** One block in, the whole packets it completes out; what remains is less than a
      packet. */
  method SendWhole(session: RtpSession, pending: seq<int>, ghost sent: seq<seq<int>>, ghost before: seq<Datagram>,
                   ghost sequence: nat, ghost timestamp: nat)
    returns (rest: seq<int>, ghost sent': seq<seq<int>>)
    requires session.Valid() && OnWire(session, before, sequence, timestamp, sent)
    modifies session
    ensures OnWire(session, before, sequence, timestamp, sent')
    ensures Flatten(sent') + rest == Flatten(sent) + pending
    ensures |rest| < session.samplesPerPacket
  {
    var packet := session.samplesPerPacket;
    var whole := |pending| - |pending| % packet;
    WholePart(|pending|, packet);
    rest, sent' := pending, sent;
    if whole > 0 {
      WholeChunks(pending[..whole], 0, packet);
      AudioPacketsAppend(sent, Chunks(pending[..whole], 0, packet), session.payloadType, sequence, timestamp);
      FlattenAppend(sent, Chunks(pending[..whole], 0, packet));
      session.SendPcm(pending[..whole]);
      sent' := sent + Chunks(pending[..whole], 0, packet);
      rest := pending[whole..];
      assert pending == pending[..whole] + rest;
    }
  }

  /** What a resampler has put out is what was sent and what is pending. */
  ghost predicate Delivered(r: StreamResampler, session: RtpSession, sent: seq<seq<int>>, pending: seq<int>)
    reads r
  {
    && r.Valid() && r.inRate == SAMPLE_RATE && r.outRate == session.sampleRate
    && Flatten(sent) + pending == Resampled(r.heard, r.inRate, r.outRate)
    && |pending| < session.samplesPerPacket
  }

  method PumpBlock(block: seq<int>, r: StreamResampler, session: RtpSession, pending: seq<int>,
                   ghost sent: seq<seq<int>>, ghost before: seq<Datagram>, ghost sequence: nat, ghost timestamp: nat)
    returns (rest: seq<int>, ghost sent': seq<seq<int>>)
    requires session.Valid() && OnWire(session, before, sequence, timestamp, sent)
    requires Delivered(r, session, sent, pending)
    modifies session, r
    ensures OnWire(session, before, sequence, timestamp, sent')
    ensures Delivered(r, session, sent', rest) && r.heard == old(r.heard) + block
  {
    var resampled := r.Process(block);
    assert Flatten(sent) + (pending + resampled) == Flatten(sent) + pending + resampled;
    rest, sent' := SendWhole(session, pending + resampled, sent, before, sequence, timestamp);
  }

  /** The wait until the next block is due: on the schedule, unless that has been missed by the
      time it is looked at, in which case it starts over from now. */
  method Pace(clock: Clock, due: real, interval: real) returns (next: real)
    requires clock.Valid() && interval >= 0.0
    modifies clock
    ensures next <= clock.time && old(clock.time) <= clock.time
    ensures if old(clock.time) + clock.drift(old(clock.ticks)) < due + interval then next == due + interval
            else next == clock.time >= due + interval
  {
    next := due + interval;
    var now := clock.Now();
    var delay := next - now;
    if delay > 0.0 {
      clock.Sleep(delay);
    } else {
      next := clock.Now();
    }
  }

  /** For any blocks, any codec and any clock: what was sent, and what is still
      pending, is the resampled mix, in whole unpadded packets numbered without a
      gap; and no block is read before its time. */
  method Pump(blocks: seq<seq<int>>, session: RtpSession, clock: Clock, interval: real)
    returns (readAt: seq<real>, pending: seq<int>, ghost sent: seq<seq<int>>, ghost dues: seq<real>)
    requires session.Valid() && clock.Valid() && interval >= 0.0
    modifies session, clock
    ensures OnWire(session, old(session.wire), old(session.sequence), old(session.timestamp), sent)
    ensures Flatten(sent) + pending == Resampled(Flatten(blocks), SAMPLE_RATE, session.sampleRate)
    ensures |pending| < session.samplesPerPacket
    ensures |readAt| == |blocks|
    ensures OnTime(readAt, old(clock.time), interval)
    ensures Scheduled(dues, readAt, interval) && dues != [] && dues[0] >= old(clock.time)
  {
    ghost var before, sequence, timestamp, start := session.wire, session.sequence, session.timestamp, clock.time;
    var r := new StreamResampler(SAMPLE_RATE, session.sampleRate);
    var due := clock.Now();
    readAt, pending, sent, dues := [], [], [], [due];
    for k := 0 to |blocks|
      invariant Delivered(r, session, sent, pending) && r.heard == Flatten(blocks[..k])
      invariant OnWire(session, before, sequence, timestamp, sent)
      invariant |readAt| == k && InTime(readAt, dues, start, interval)
      invariant Last(dues) == due <= clock.time
    {
      FlattenUpTo(blocks, k);
      ghost var dues0, readAt0 := dues, readAt;
      var at := clock.Now();
      readAt := readAt + [at];
      pending, sent := PumpBlock(blocks[k], r, session, pending, sent, before, sequence, timestamp);
      due := Pace(clock, due, interval);
      dues := dues + [due];
      InTimeSnoc(readAt0, dues0, start, interval, at, due);
    }
    assert blocks[..|blocks|] == blocks;
  }

  /** No block is read before it is due. */
  ghost predicate OnTime(readAt: seq<real>, start: real, interval: real) {
    forall k :: 0 <= k < |readAt| ==> DueAt(start, interval, k) <= readAt[k]
  }

  /** Each block is read once it is due, and the next one is due an interval later - or from
      a later moment on, where that one had already been missed. */
  ghost predicate Scheduled(dues: seq<real>, readAt: seq<real>, interval: real) {
    && |dues| == |readAt| + 1
    && (forall k :: 0 <= k < |readAt| ==> dues[k] <= readAt[k])
    && (forall k :: 0 <= k < |readAt| ==>
          dues[k + 1] == dues[k] + interval || (dues[k + 1] >= dues[k] + interval && dues[k + 1] >= readAt[k]))
  }

  /** A schedule that has been kept, and begun no earlier than it could. */
  ghost predicate InTime(readAt: seq<real>, dues: seq<real>, start: real, interval: real) {
    && Scheduled(dues, readAt, interval) && dues[0] >= start
    && forall k :: 0 <= k < |dues| ==> DueAt(start, interval, k) <= dues[k]
  }

  lemma InTimeSnoc(readAt: seq<real>, dues: seq<real>, start: real, interval: real, at: real, due: real)
    requires InTime(readAt, dues, start, interval) && Last(dues) <= at
    requires due == Last(dues) + interval || (due >= Last(dues) + interval && due >= at)
    ensures InTime(readAt + [at], dues + [due], start, interval)
  {
    assert DueAt(start, interval, |dues|) == DueAt(start, interval, |dues| - 1) + interval;
  }

  lemma FlattenUpTo(blocks: seq<seq<int>>, k: nat)
    requires k < |blocks|
    ensures Flatten(blocks[..k + 1]) == Flatten(blocks[..k]) + blocks[k]
  {
    FlattenSnoc(blocks[..k], blocks[k]);
    assert blocks[..k + 1] == blocks[..k] + [blocks[k]];
  }
}
