/** What one call's mixer computes (bridge/mixer.py, Mixer), as a machine on values,
    and what holds of every run of it. */
module MixModel {
  import opened Prelude
  import opened SourceBuffers
  import opened NoiseGates
  import opened Limiters

  /** Whose audio it is: a session id. */
  datatype Key = Key(id: string)

  const CAPACITY_BLOCKS := 10
  const BLOCK := 960
  const CAPACITY := CAPACITY_BLOCKS * BLOCK
  const HOLD_BLOCKS := 25
  const RELEASE := 0.9995

  datatype Settings = Settings(block: nat, gated: bool, threshold: int, ceiling: nat)

  datatype Participant = Participant(fifo: Fifo, gate: Gate)

  datatype Desk = Desk(participants: map<Key, Participant>, limiter: State, blocksRead: nat)

  datatype Op = Add(key: Key) | Remove(key: Key) | Write(key: Key, pcm: seq<int>) | Read

  const EMPTY_QUEUE := Fifo([], CAPACITY, 0, 0)

  function Newcomer(threshold: int): Participant {
    Participant(EMPTY_QUEUE, Closed(threshold, HOLD_BLOCKS))
  }

  function Joined(ps: map<Key, Participant>, key: Key, threshold: int): map<Key, Participant> {
    if key in ps then ps else ps[key := Newcomer(threshold)]
  }

  function Written(ps: map<Key, Participant>, key: Key, pcm: seq<int>, threshold: int): map<Key, Participant> {
    var joined := Joined(ps, key, threshold);
    joined[key := joined[key].(fifo := Put(joined[key].fifo, pcm))]
  }

  /** One participant's part in a read: its next block, and the gate after it. */
  function Drawn(p: Participant, c: Settings): Participant {
    var (fifo, block) := Take(p.fifo, c.block);
    Participant(fifo, if c.gated then Hear(p.gate, block) else p.gate)
  }

  /** What it adds to the sum: its block, or nothing while its gate is closed. */
  function Contribution(p: Participant, c: Settings): (block: seq<int>)
    ensures |block| == c.block
  {
    if c.gated && !Drawn(p, c).gate.open then Silence(c.block) else Take(p.fifo, c.block).1
  }

  /** What a 32-bit accumulator holds of a number. */
  function Wrap32(x: int): int {
    (x + 0x8000_0000) % 0x1_0000_0000 - 0x8000_0000
  }

  ghost function Sum(m: map<Key, int>): int {
    if m == map[] then 0
    else
      var k :| k in m;
      m[k] + Sum(m - {k})
  }

  /** The order of the summands makes no difference. */
  lemma {:induction false} SumTakeOut(m: map<Key, int>, k: Key)
    requires k in m
    ensures Sum(m) == m[k] + Sum(m - {k})
  {
    var j :| j in m && Sum(m) == m[j] + Sum(m - {j});
    if j != k {
      SumTakeOut(m - {j}, k);
      SumTakeOut(m - {k}, j);
      assert m - {j} - {k} == m - {k} - {j};
    }
  }

  /** The samples the participants contribute at one place of the block. */
  ghost function Column(ps: map<Key, Participant>, c: Settings, i: nat): map<Key, int>
    requires i < c.block
  {
    map k | k in ps :: Contribution(ps[k], c)[i]
  }

  ghost function Mixed(ps: map<Key, Participant>, c: Settings): (mix: seq<int>)
    ensures |mix| == c.block
  {
    seq(c.block, i requires 0 <= i < c.block => Wrap32(Sum(Column(ps, c, i))))
  }

  ghost function ReadBlock(d: Desk, c: Settings): (Desk, seq<int>) {
    var (limiter, out) := Limit(d.limiter, Mixed(d.participants, c), c.ceiling, RELEASE);
    (Desk(map k | k in d.participants :: Drawn(d.participants[k], c), limiter, d.blocksRead + 1), out)
  }

  ghost function Next(d: Desk, op: Op, c: Settings): Desk {
    match op
    case Add(key) => d.(participants := Joined(d.participants, key, c.threshold))
    case Remove(key) => d.(participants := d.participants - {key})
    case Write(key, pcm) => d.(participants := Written(d.participants, key, pcm, c.threshold))
    case Read => ReadBlock(d, c).0
  }

  const EMPTY_DESK := Desk(map[], State(1.0, None), 0)

  datatype Session = Session(desk: Desk, outs: seq<seq<int>>)

  ghost function Step(s: Session, op: Op, c: Settings): Session {
    Session(Next(s.desk, op, c), if op == Read then s.outs + [ReadBlock(s.desk, c).1] else s.outs)
  }

  ghost function Run(ops: seq<Op>, c: Settings): Session {
    if ops == [] then Session(EMPTY_DESK, []) else Step(Run(Front(ops), c), Last(ops), c)
  }

  // ------------------------------------------- each participant on its own

  /** The oldest samples of a queue, silence where there are none. */
  function OldestBlock(f: Fifo, n: nat): (block: seq<int>)
    ensures |block| == n && forall i :: 0 <= i < n ==> block[i] == Oldest(f.contents, i)
  {
    seq(n, i requires 0 <= i < n => Oldest(f.contents, i))
  }

  lemma TakesOldestBlock(f: Fifo, n: nat)
    ensures Take(f, n).1 == OldestBlock(f, n)
  {
    TakeIsOldest(f, n);
  }

  /** A participant as its own writes, its removal and the reads alone make it: its
      queue, and every block read from it since it joined. */
  datatype Track = Track(fifo: Fifo, blocks: seq<seq<int>>)

  function Tracked(t: Option<Track>, op: Op, key: Key, block: nat): Option<Track> {
    var joined := if t == None then Track(EMPTY_QUEUE, []) else t.value;
    match op
    case Add(k) => if k == key then Some(joined) else t
    case Remove(k) => if k == key then None else t
    case Write(k, pcm) => if k == key then Some(joined.(fifo := Put(joined.fifo, pcm))) else t
    case Read =>
      if t == None then None
      else Some(Track(Take(t.value.fifo, block).0, t.value.blocks + [OldestBlock(t.value.fifo, block)]))
  }

  function TrackOf(ops: seq<Op>, key: Key, block: nat): Option<Track> {
    if ops == [] then None else Tracked(TrackOf(Front(ops), key, block), Last(ops), key, block)
  }

  /** A participant counts while one of its last HOLD_BLOCKS + 1 blocks, the next one
      included, reached the threshold. */
  ghost predicate Audible(t: Track, c: Settings) {
    !c.gated || LatelyLoud(c.threshold, HOLD_BLOCKS, t.blocks + [OldestBlock(t.fifo, c.block)])
  }

  /** Its i-th sample in the next block: of its oldest ones. */
  ghost function NextSample(t: Track, c: Settings, i: nat): int {
    if Audible(t, c) then Oldest(t.fifo.contents, i) else 0
  }

  ghost predicate Matches(p: Participant, t: Track, c: Settings) {
    && p.fifo == t.fifo
    && p.gate == if c.gated then Heard(c.threshold, HOLD_BLOCKS, t.blocks) else Closed(c.threshold, HOLD_BLOCKS)
  }

  /** Drawing on a participant is drawing on its track. */
  lemma DrawnMatches(p: Participant, t: Track, c: Settings)
    requires Matches(p, t, c)
    ensures Matches(Drawn(p, c), Track(Take(t.fifo, c.block).0, t.blocks + [OldestBlock(t.fifo, c.block)]), c)
  {
    TakesOldestBlock(t.fifo, c.block);
    assert Front(t.blocks + [OldestBlock(t.fifo, c.block)]) == t.blocks;
  }

  lemma NextTracked(d: Desk, t: Option<Track>, op: Op, key: Key, c: Settings)
    requires key in d.participants <==> t.Some?
    requires key in d.participants ==> Matches(d.participants[key], t.value, c)
    ensures var ps, t' := Next(d, op, c).participants, Tracked(t, op, key, c.block);
            && (key in ps <==> t'.Some?)
            && (key in ps ==> Matches(ps[key], t'.value, c))
  {
    if op == Read && t.Some? {
      DrawnMatches(d.participants[key], t.value, c);
    }
  }

  lemma {:induction false} ParticipantsTracked(ops: seq<Op>, key: Key, c: Settings)
    ensures var ps, t := Run(ops, c).desk.participants, TrackOf(ops, key, c.block);
            && (key in ps <==> t.Some?)
            && (key in ps ==> Matches(ps[key], t.value, c))
  {
    if ops != [] {
      ParticipantsTracked(Front(ops), key, c);
      NextTracked(Run(Front(ops), c).desk, TrackOf(Front(ops), key, c.block), Last(ops), key, c);
    }
  }

  lemma ContributionTracked(p: Participant, t: Track, c: Settings)
    requires Matches(p, t, c)
    ensures forall i :: 0 <= i < c.block ==> Contribution(p, c)[i] == NextSample(t, c, i)
  {
    var next := OldestBlock(t.fifo, c.block);
    TakesOldestBlock(t.fifo, c.block);
    assert Front(t.blocks + [next]) == t.blocks;
    OpenIffLatelyLoud(c.threshold, HOLD_BLOCKS, t.blocks + [next]);
  }

  /** The samples the tracks of these keys contribute at one place of the block. */
  ghost function TrackColumn(ops: seq<Op>, keys: set<Key>, c: Settings, i: nat): map<Key, int>
    requires i < c.block
  {
    map k | k in keys && TrackOf(ops, k, c.block).Some? :: NextSample(TrackOf(ops, k, c.block).value, c, i)
  }

  lemma ContributionOfTrack(ops: seq<Op>, key: Key, c: Settings)
    ensures var ps, t := Run(ops, c).desk.participants, TrackOf(ops, key, c.block);
            && (key in ps <==> t.Some?)
            && (key in ps ==>
                  forall i :: 0 <= i < c.block ==> Contribution(ps[key], c)[i] == NextSample(t.value, c, i))
  {
    ParticipantsTracked(ops, key, c);
    var ps := Run(ops, c).desk.participants;
    if key in ps {
      ContributionTracked(ps[key], TrackOf(ops, key, c.block).value, c);
    }
  }

  /** For every run, and at every place of the next block: the sum is over the
      participants present, each adding its own next block while that one, or one
      of the blocks just before it, is loud - as its own history alone decides. */
  lemma MixIsSumOfTracks(ops: seq<Op>, c: Settings, i: nat)
    requires i < c.block
    ensures var ps := Run(ops, c).desk.participants;
            Mixed(ps, c)[i] == Wrap32(Sum(TrackColumn(ops, ps.Keys, c, i)))
    ensures forall k :: k in Run(ops, c).desk.participants <==> TrackOf(ops, k, c.block).Some?
  {
    var ps := Run(ops, c).desk.participants;
    forall k
      ensures k in ps <==> TrackOf(ops, k, c.block).Some?
      ensures k in ps ==> Contribution(ps[k], c)[i] == NextSample(TrackOf(ops, k, c.block).value, c, i)
    {
      ContributionOfTrack(ops, k, c);
    }
    assert Column(ps, c, i) == TrackColumn(ops, ps.Keys, c, i);
  }

  // -------------------------------------------------------- order of writes

  predicate Concerns(op: Op, key: Key) {
    op == Read || op.key == key
  }

  /** The operations that concern one participant, in their order. */
  function Concerning(ops: seq<Op>, key: Key): seq<Op> {
    if ops == [] then []
    else Concerning(Front(ops), key) + if Concerns(Last(ops), key) then [Last(ops)] else []
  }

  function TrackFrom(t: Option<Track>, ops: seq<Op>, key: Key, block: nat): Option<Track> {
    if ops == [] then t else Tracked(TrackFrom(t, Front(ops), key, block), Last(ops), key, block)
  }

  lemma {:induction false} OnlyOwnOpsMatter(t: Option<Track>, ops: seq<Op>, key: Key, block: nat)
    ensures TrackFrom(t, ops, key, block) == TrackFrom(t, Concerning(ops, key), key, block)
  {
    if ops != [] {
      OnlyOwnOpsMatter(t, Front(ops), key, block);
      if Concerns(Last(ops), key) {
        assert Front(Concerning(ops, key)) == Concerning(Front(ops), key);
      } else {
        assert Concerning(ops, key) == Concerning(Front(ops), key);
      }
    }
  }

  lemma {:induction false} TrackContinues(before: seq<Op>, ops: seq<Op>, key: Key, block: nat)
    ensures TrackOf(before + ops, key, block) == TrackFrom(TrackOf(before, key, block), ops, key, block)
  {
    if ops == [] {
      assert before + ops == before;
    } else {
      TrackContinues(before, Front(ops), key, block);
      assert before + ops == (before + Front(ops)) + [Last(ops)];
    }
  }

  lemma {:induction false} LimiterWaits(before: seq<Op>, ops: seq<Op>, c: Settings)
    requires Read !in ops
    ensures var a, b := Run(before, c), Run(before + ops, c);
            a.outs == b.outs && a.desk.limiter == b.desk.limiter && a.desk.blocksRead == b.desk.blocksRead
  {
    if ops == [] {
      assert before + ops == before;
    } else {
      assert Last(ops) in ops;
      LimiterWaits(before, Front(ops), c);
      assert before + ops == (before + Front(ops)) + [Last(ops)];
    }
  }

  /** Who was first between two reads makes no difference: any two interleavings
      that agree on what each participant did, and in which order, lead to the
      same desk. */
  lemma InterleavingIrrelevant(before: seq<Op>, one: seq<Op>, other: seq<Op>, c: Settings)
    requires Read !in one && Read !in other
    requires forall key :: Concerning(one, key) == Concerning(other, key)
    ensures Run(before + one, c) == Run(before + other, c)
  {
    LimiterWaits(before, one, c);
    LimiterWaits(before, other, c);
    var ps, qs := Run(before + one, c).desk.participants, Run(before + other, c).desk.participants;
    forall key
      ensures key in ps <==> key in qs
      ensures key in ps && key in qs ==> ps[key] == qs[key]
    {
      ParticipantsTracked(before + one, key, c);
      ParticipantsTracked(before + other, key, c);
      TrackContinues(before, one, key, c.block);
      TrackContinues(before, other, key, c.block);
      OnlyOwnOpsMatter(TrackOf(before, key, c.block), one, key, c.block);
      OnlyOwnOpsMatter(TrackOf(before, key, c.block), other, key, c.block);
    }
    assert ps == qs;
  }

  /** ... and so no sample that comes out later, whatever follows. */
  lemma {:induction false} LaterOutputSame(before: seq<Op>, one: seq<Op>, other: seq<Op>, later: seq<Op>, c: Settings)
    requires Read !in one && Read !in other
    requires forall key :: Concerning(one, key) == Concerning(other, key)
    ensures Run(before + one + later, c) == Run(before + other + later, c)
  {
    if later == [] {
      InterleavingIrrelevant(before, one, other, c);
      assert before + one + later == before + one && before + other + later == before + other;
    } else {
      LaterOutputSame(before, one, other, Front(later), c);
      assert before + one + later == (before + one + Front(later)) + [Last(later)];
      assert before + other + later == (before + other + Front(later)) + [Last(later)];
    }
  }

  // ------------------------------------------------------------ exact sums

  const MOST_SOURCES := 65536

  ghost predicate Pcm(s: seq<int>) {
    forall i :: 0 <= i < |s| ==> INT16_MIN <= s[i] <= INT16_MAX
  }

  lemma {:induction false} SumBounds(m: map<Key, int>)
    requires forall k :: k in m ==> INT16_MIN <= m[k] <= INT16_MAX
    ensures INT16_MIN * |m| <= Sum(m) <= INT16_MAX * |m|
  {
    if m != map[] {
      var k :| k in m;
      SumTakeOut(m, k);
      SumBounds(m - {k});
      assert |m - {k}| == |m| - 1 by {
        assert (m - {k}).Keys == m.Keys - {k};
      }
    }
  }

  lemma ContributionPcm(p: Participant, c: Settings)
    requires Pcm(p.fifo.contents)
    ensures Pcm(Contribution(p, c))
  {
  }

  /** Everything written in a run is 16-bit samples. */
  ghost predicate WritesPcm(ops: seq<Op>) {
    forall n :: 0 <= n < |ops| && ops[n].Write? ==> Pcm(ops[n].pcm)
  }

  ghost predicate HoldsPcm(ps: map<Key, Participant>, key: Key) {
    key in ps ==> Pcm(ps[key].fifo.contents)
  }

  lemma PutPcm(f: Fifo, pcm: seq<int>)
    requires Pcm(f.contents) && Pcm(pcm)
    ensures Pcm(Put(f, pcm).contents)
  {
  }

  lemma WrittenPcm(ps: map<Key, Participant>, key: Key, k: Key, pcm: seq<int>, threshold: int)
    requires HoldsPcm(ps, key) && Pcm(pcm)
    ensures HoldsPcm(Written(ps, k, pcm, threshold), key)
  {
    if k == key {
      PutPcm(Joined(ps, key, threshold)[key].fifo, pcm);
    }
  }

  lemma DrawnPcm(d: Desk, key: Key, c: Settings)
    requires HoldsPcm(d.participants, key)
    ensures HoldsPcm(ReadBlock(d, c).0.participants, key)
  {
  }

  lemma NextPcm(d: Desk, op: Op, key: Key, c: Settings)
    requires HoldsPcm(d.participants, key) && (op.Write? ==> Pcm(op.pcm))
    ensures HoldsPcm(Next(d, op, c).participants, key)
  {
    match op
    case Add(_) =>
    case Remove(_) =>
    case Write(k, pcm) => WrittenPcm(d.participants, key, k, pcm, c.threshold);
    case Read => DrawnPcm(d, key, c);
  }

  lemma {:induction false} HeldPcm(ops: seq<Op>, key: Key, c: Settings)
    requires WritesPcm(ops)
    ensures HoldsPcm(Run(ops, c).desk.participants, key)
  {
    if ops != [] {
      HeldPcm(Front(ops), key, c);
      assert ops[|ops| - 1] == Last(ops);
      NextPcm(Run(Front(ops), c).desk, Last(ops), key, c);
    }
  }

  /** Up to 65536 sources, in every run over 16-bit samples, the 32-bit sum is the
      sum itself. */
  lemma SumExact(ops: seq<Op>, c: Settings, i: nat)
    requires i < c.block && WritesPcm(ops)
    requires |Run(ops, c).desk.participants| <= MOST_SOURCES
    ensures var ps := Run(ops, c).desk.participants;
            Mixed(ps, c)[i] == Sum(Column(ps, c, i))
  {
    var ps := Run(ops, c).desk.participants;
    forall k | k in ps
      ensures Pcm(Contribution(ps[k], c))
    {
      HeldPcm(ops, k, c);
      ContributionPcm(ps[k], c);
    }
    ColumnExact(ps, c, i);
  }

  lemma ColumnExact(ps: map<Key, Participant>, c: Settings, i: nat)
    requires i < c.block && |ps| <= MOST_SOURCES
    requires forall k :: k in ps ==> Pcm(Contribution(ps[k], c))
    ensures Wrap32(Sum(Column(ps, c, i))) == Sum(Column(ps, c, i))
  {
    var column := Column(ps, c, i);
    assert column.Keys == ps.Keys;
    SumBounds(column);
    WrapExact(Sum(column), |ps|);
  }

  lemma WrapExact(x: int, n: nat)
    requires n <= MOST_SOURCES && INT16_MIN * n <= x <= INT16_MAX * n
    ensures Wrap32(x) == x
  {
  }

  lemma WrapSmall(x: int)
    requires INT16_MIN <= x <= INT16_MAX
    ensures Wrap32(x) == x
  {
  }

  lemma MixOfOne(ps: map<Key, Participant>, c: Settings, key: Key, i: nat, x: int)
    requires ps.Keys == {key} && i < c.block && Contribution(ps[key], c)[i] == x
    requires INT16_MIN <= x <= INT16_MAX
    ensures Mixed(ps, c)[i] == x
  {
    SumOfOne(Column(ps, c, i), key);
    WrapSmall(x);
  }

  lemma OldestIsPcm(f: Fifo, i: nat)
    requires Pcm(f.contents)
    ensures INT16_MIN <= Oldest(f.contents, i) <= INT16_MAX
  {
  }

  lemma OneSampleHeard(ops: seq<Op>, c: Settings, key: Key, i: nat)
    requires WritesPcm(ops) && Run(ops, c).desk.participants.Keys == {key} && i < c.block
    requires var t := TrackOf(ops, key, c.block); t.Some? && Audible(t.value, c)
    ensures var ps := Run(ops, c).desk.participants; Mixed(ps, c)[i] == Oldest(ps[key].fifo.contents, i)
  {
    var ps := Run(ops, c).desk.participants;
    HeldPcm(ops, key, c);
    OldestIsPcm(ps[key].fifo, i);
    ParticipantsTracked(ops, key, c);
    ContributionOfTrack(ops, key, c);
    MixOfOne(ps, c, key, i, Oldest(ps[key].fifo.contents, i));
  }

  /** With one source that is loud, a read hands that source's oldest block to the limiter,
      sample for sample. */
  lemma OneSourceHeard(ops: seq<Op>, c: Settings, key: Key, j: nat)
    requires WritesPcm(ops) && Run(ops, c).desk.participants.Keys == {key}
    requires j < c.block
    requires c.threshold <= Abs16(Oldest(Run(ops, c).desk.participants[key].fifo.contents, j))
    ensures var d := Run(ops, c).desk;
            Next(d, Read, c).limiter.held == Some(OldestBlock(d.participants[key].fifo, c.block))
  {
    var ps := Run(ops, c).desk.participants;
    LoudIsAudible(ops, key, c, j);
    forall i | 0 <= i < c.block
      ensures Mixed(ps, c)[i] == OldestBlock(ps[key].fifo, c.block)[i]
    {
      OneSampleHeard(ops, c, key, i);
    }
    assert Mixed(ps, c) == OldestBlock(ps[key].fifo, c.block);
  }

  lemma SumOfOne(m: map<Key, int>, k: Key)
    requires m.Keys == {k}
    ensures Sum(m) == m[k]
  {
    SumTakeOut(m, k);
    assert m - {k} == map[];
  }

  lemma LoudIsAudible(ops: seq<Op>, key: Key, c: Settings, j: nat)
    requires key in Run(ops, c).desk.participants && j < c.block
    requires c.threshold <= Abs16(Oldest(Run(ops, c).desk.participants[key].fifo.contents, j))
    ensures var t := TrackOf(ops, key, c.block);
            t.Some? && t.value.fifo == Run(ops, c).desk.participants[key].fifo && Audible(t.value, c)
  {
    ParticipantsTracked(ops, key, c);
    var t := TrackOf(ops, key, c.block).value;
    var block := OldestBlock(t.fifo, c.block);
    assert Abs16(block[j]) <= Peak16(block);
    LoudIff(block, c.threshold);
    assert (t.blocks + [block])[|t.blocks|] == block;
  }

  /** A 32-bit number, and the one meant but for whole turns. */
  lemma Wraps(x: int)
    ensures -0x8000_0000 <= Wrap32(x) < 0x8000_0000 && (x - Wrap32(x)) % 0x1_0000_0000 == 0
  {
  }

  /** What a run has summed up, read by read. */
  ghost function Mixes(ops: seq<Op>, c: Settings): seq<seq<int>> {
    if ops == [] then []
    else
      Mixes(Front(ops), c) + if Last(ops) == Read then [Mixed(Run(Front(ops), c).desk.participants, c)] else []
  }

  /** Over every run: what comes out is the sums and nothing else, through one limiter. */
  lemma {:induction false} OutsAreLimited(ops: seq<Op>, c: Settings)
    ensures var r := After(c.ceiling, RELEASE, Mixes(ops, c));
            && Run(ops, c).outs == r.outs && Run(ops, c).desk.limiter == r.state
            && Run(ops, c).desk.blocksRead == |Mixes(ops, c)|
  {
    if ops != [] {
      OutsAreLimited(Front(ops), c);
      if Last(ops) == Read {
        assert Front(Mixes(ops, c)) == Mixes(Front(ops), c);
      } else {
        assert Mixes(ops, c) == Mixes(Front(ops), c);
      }
    }
  }
}
