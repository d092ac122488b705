/** The mixer itself (bridge/mixer.py, Mixer), changed in place and tied to the
    machine of MixModel. What a participant's ring and gate hold is kept as the
    values that SourceBuffer and NoiseGate are proved to stand for.

    `Read` visits the sources in an order it does not choose: the source's sorted
    order is one of them, and the contract shows that it makes no difference. */
module Mixers {
  import opened Prelude
  import opened SourceBuffers
  import opened NoiseGates
  import Limiters
  import opened MixModel

  class Mixer {
    const block: nat
    const gated: bool
    const threshold: int
    var sources: map<Key, Fifo>
    var gates: map<Key, Gate>
    const limiter: Limiters.Limiter
    const accumulator: array<int>
    var blocksRead: nat

    function Config(): Settings {
      Settings(block, gated, threshold, limiter.ceiling)
    }

    ghost predicate Valid()
      reads this
    {
      sources.Keys == gates.Keys && accumulator.Length == block && limiter.release == RELEASE
    }

    ghost function Participants(): map<Key, Participant>
      requires Valid()
      reads this
    {
      map k | k in sources :: Participant(sources[k], gates[k])
    }

    ghost function View(): Desk
      requires Valid()
      reads this, limiter
    {
      Desk(Participants(), limiter.View(), blocksRead)
    }

    constructor (block: nat, gated: bool, threshold: int, ceiling: nat)
      ensures Valid() && fresh(limiter) && fresh(accumulator) && View() == EMPTY_DESK
      ensures Config() == Settings(block, gated, threshold, ceiling)
    {
      this.block, this.gated, this.threshold := block, gated, threshold;
      limiter := new Limiters.Limiter(ceiling, RELEASE);
      accumulator := new int[block](_ => 0);
      sources, gates, blocksRead := map[], map[], 0;
    }

    method AddSource(key: Key)
      requires Valid()
      modifies this
      ensures Valid() && key in sources && View() == Next(old(View()), Add(key), Config())
    {
      if key !in sources {
        sources := sources[key := EMPTY_QUEUE];
        gates := gates[key := Closed(threshold, HOLD_BLOCKS)];
      }
      assert Participants() == Joined(old(Participants()), key, threshold);
    }

    method RemoveSource(key: Key)
      requires Valid()
      modifies this
      ensures Valid() && View() == Next(old(View()), Remove(key), Config())
    {
      sources := sources - {key};
      gates := gates - {key};
      assert Participants() == old(Participants()) - {key};
    }

    method WriteTo(key: Key, pcm: seq<int>)
      requires Valid()
      modifies this
      ensures Valid() && View() == Next(old(View()), Write(key, pcm), Config())
    {
      AddSource(key);
      sources := sources[key := Put(sources[key], pcm)];
      assert Participants() == Written(old(Participants()), key, pcm, threshold);
    }

    /** One source's next block, and whether its gate lets it into the sum. */
    method Draw(key: Key) returns (next: seq<int>, passes: bool)
      requires Valid() && key in sources
      modifies this
      ensures Valid() && blocksRead == old(blocksRead) && sources.Keys == old(sources.Keys)
      ensures Participants() == old(Participants())[key := Drawn(old(Participants())[key], Config())]
      ensures Contribution(old(Participants())[key], Config()) == if passes then next else Silence(block)
    {
      var (fifo, samples) := Take(sources[key], block);
      sources := sources[key := fifo];
      next, passes := samples, true;
      if gated {
        gates := gates[key := Hear(gates[key], next)];
        passes := gates[key].open;
      }
      assert Participants() == old(Participants())[key := Drawn(old(Participants())[key], Config())];
    }

    method Accumulate(next: seq<int>)
      requires |next| == block == accumulator.Length
      modifies accumulator
      ensures accumulator[..] == Added(old(accumulator[..]), next)
    {
      forall i | 0 <= i < block {
        accumulator[i] := Wrap32(accumulator[i] + next[i]);
      }
    }

    /** One turn of the loop over the sources. */
    method SumOne(key: Key, ghost ps: map<Key, Participant>, ghost todo: set<Key>)
      requires Valid() && sources.Keys == ps.Keys && key in todo && todo <= ps.Keys
      requires Participants() == PartlyDrawn(ps, todo, Config()) && accumulator[..] == Mixed(ps - todo, Config())
      modifies this, accumulator
      ensures Valid() && sources.Keys == ps.Keys && blocksRead == old(blocksRead)
      ensures Participants() == PartlyDrawn(ps, todo - {key}, Config())
      ensures accumulator[..] == Mixed(ps - (todo - {key}), Config())
    {
      MixAdds(ps, todo, key, Config());
      SilenceAdds(ps - todo, Config());
      DrawnOne(ps, todo, key, Config());
      var next, passes := Draw(key);
      if passes {
        Accumulate(next);
      }
    }

    method SumUp()
      requires Valid()
      modifies this, accumulator
      ensures Valid() && blocksRead == old(blocksRead)
      ensures accumulator[..] == Mixed(old(Participants()), Config())
      ensures Participants() == map k | k in old(Participants()) :: Drawn(old(Participants())[k], Config())
    {
      ghost var ps := Participants();
      forall i | 0 <= i < block {
        accumulator[i] := 0;
      }
      var todo := sources.Keys;
      assert ps - todo == map[];
      while todo != {}
        invariant todo <= ps.Keys == sources.Keys && Valid() && blocksRead == old(blocksRead)
        invariant Participants() == PartlyDrawn(ps, todo, Config())
        invariant accumulator[..] == Mixed(ps - todo, Config())
        decreases todo
      {
        var key :| key in todo;
        SumOne(key, ps, todo);
        todo := todo - {key};
      }
      assert ps - {} == ps;
    }

    method ReadNext() returns (out: seq<int>)
      requires Valid()
      modifies this, accumulator, limiter
      ensures Valid() && (View(), out) == ReadBlock(old(View()), Config())
    {
      SumUp();
      blocksRead := blocksRead + 1;
      out := limiter.Apply(accumulator[..]);
    }
  }

  /** The participants while some of them are still to be drawn from. */
  ghost function PartlyDrawn(ps: map<Key, Participant>, todo: set<Key>, c: Settings): map<Key, Participant> {
    map k | k in ps :: if k in todo then ps[k] else Drawn(ps[k], c)
  }

  lemma DrawnOne(ps: map<Key, Participant>, todo: set<Key>, key: Key, c: Settings)
    requires key in todo && key in ps
    ensures PartlyDrawn(ps, todo, c)[key] == ps[key]
    ensures PartlyDrawn(ps, todo, c)[key := Drawn(ps[key], c)] == PartlyDrawn(ps, todo - {key}, c)
  {
  }

  ghost function Added(mix: seq<int>, block: seq<int>): seq<int>
    requires |mix| == |block|
  {
    seq(|mix|, i requires 0 <= i < |mix| => Wrap32(mix[i] + block[i]))
  }

  /** One more source in the sum, whatever was summed before. */
  lemma MixAdds(ps: map<Key, Participant>, todo: set<Key>, key: Key, c: Settings)
    requires key in todo && key in ps
    ensures Mixed(ps - (todo - {key}), c) == Added(Mixed(ps - todo, c), Contribution(ps[key], c))
  {
    forall i | 0 <= i < c.block
      ensures Mixed(ps - (todo - {key}), c)[i] == Wrap32(Mixed(ps - todo, c)[i] + Contribution(ps[key], c)[i])
    {
      SampleAdds(ps, todo, key, c, i);
    }
  }

  lemma MixedAt(ps: map<Key, Participant>, c: Settings, i: nat)
    requires i < c.block
    ensures Mixed(ps, c)[i] == Wrap32(Sum(Column(ps, c, i)))
  {
  }

  lemma SampleAdds(ps: map<Key, Participant>, todo: set<Key>, key: Key, c: Settings, i: nat)
    requires key in todo && key in ps && i < c.block
    ensures Mixed(ps - (todo - {key}), c)[i] == Wrap32(Mixed(ps - todo, c)[i] + Contribution(ps[key], c)[i])
  {
    var more, less := ps - (todo - {key}), ps - todo;
    var sum, x := Sum(Column(less, c, i)), Contribution(ps[key], c)[i];
    ColumnAdds(ps, todo, key, c, i);
    MixedAt(more, c, i);
    MixedAt(less, c, i);
    WrapAdds(sum, x);
  }

  lemma SilenceAdds(ps: map<Key, Participant>, c: Settings)
    ensures Added(Mixed(ps, c), Silence(c.block)) == Mixed(ps, c)
  {
    forall i | 0 <= i < c.block
      ensures Added(Mixed(ps, c), Silence(c.block))[i] == Mixed(ps, c)[i]
    {
      WrapAdds(Sum(Column(ps, c, i)), 0);
    }
  }

  lemma ColumnAdds(ps: map<Key, Participant>, todo: set<Key>, key: Key, c: Settings, i: nat)
    requires key in todo && key in ps && i < c.block
    ensures Sum(Column(ps - (todo - {key}), c, i)) == Sum(Column(ps - todo, c, i)) + Contribution(ps[key], c)[i]
  {
    var more, less := Column(ps - (todo - {key}), c, i), Column(ps - todo, c, i);
    SumTakeOut(more, key);
    assert more - {key} == less;
  }

  lemma WrapAdds(a: int, b: int)
    ensures Wrap32(Wrap32(a) + b) == Wrap32(a + b)
    ensures Wrap32(Wrap32(a)) == Wrap32(a)
  {
  }
}
