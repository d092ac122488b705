/** Holding the sum down (bridge/mixer.py, Limiter), in exact real arithmetic.

    A block is held back for one block; the gain is worked out from the block
    behind it, and the held one leaves ramped from the previous gain to that one. */
module Limiters {
  import opened Prelude
  import opened SourceBuffers

  datatype State = State(gain: real, held: Option<seq<int>>)

  const INT16_MIN := -0x8000
  const INT16_MAX := 0x7FFF
  const INT32_MIN := -0x8000_0000

  /** The magnitude of a 32-bit sample as numpy computes it. */
  function Abs32(x: int): int {
    if x == INT32_MIN then x else if x < 0 then -x else x
  }

  function Peak(mix: seq<int>): (peak: int)
    ensures peak >= 0
    ensures forall i :: 0 <= i < |mix| ==> Abs32(mix[i]) <= peak
    ensures peak == 0 || exists i :: 0 <= i < |mix| && Abs32(mix[i]) == peak
  {
    if mix == [] then 0 else Max(Peak(Front(mix)), Abs32(Last(mix)))
  }

  /** The highest gain at which a block of this peak stays within the ceiling. */
  function Needed(peak: nat, ceiling: nat): real {
    if peak <= ceiling then 1.0 else ceiling as real / peak as real
  }

  function Pow(r: real, n: nat): real {
    if n == 0 then 1.0 else r * Pow(r, n - 1)
  }

  /** How far a gain gets towards 1 over n samples. */
  function ReleasedGain(gain: real, n: nat, release: real): real {
    1.0 - (1.0 - gain) * Pow(release, n)
  }

  /** Down at once, and up no further than both allow. */
  function Chosen(gain: real, needed: real, released: real): real {
    if needed < gain then needed else if needed < released then needed else released
  }

  function NextGain(gain: real, mix: seq<int>, ceiling: nat, release: real): real {
    Chosen(gain, Needed(Peak(mix), ceiling), ReleasedGain(gain, |mix|, release))
  }

  /** The i-th of n gains from one to another, both included. */
  function RampAt(from: real, to: real, n: nat, i: nat): real
    requires i < n
  {
    if n == 1 then from else from + i as real / (n - 1) as real * (to - from)
  }

  function Truncate(x: real): int {
    if x >= 0.0 then x.Floor else -((-x).Floor)
  }

  /** Clipped to what 16 bits hold, then the fraction dropped. */
  function Clipped(x: real): int {
    if x < INT16_MIN as real then INT16_MIN else if x > INT16_MAX as real then INT16_MAX else Truncate(x)
  }

  function Sample(x: int, gain: real): int {
    Clipped(x as real * gain)
  }

  function Emitted(held: seq<int>, from: real, to: real): (out: seq<int>)
    ensures |out| == |held|
  {
    seq(|held|, i requires 0 <= i < |held| => Sample(held[i], RampAt(from, to, |held|, i)))
  }

  function Limit(s: State, mix: seq<int>, ceiling: nat, release: real): (State, seq<int>) {
    var gain := NextGain(s.gain, mix, ceiling, release);
    (State(gain, Some(mix)),
     if s.held == None then Silence(|mix|) else Emitted(s.held.value, s.gain, gain))
  }

  class Limiter {
    const ceiling: nat
    const release: real
    var gain: real
    var held: Option<seq<int>>

    function View(): State
      reads this
    {
      State(gain, held)
    }

    constructor (ceiling: nat, release: real)
      ensures this.ceiling == ceiling && this.release == release && View() == State(1.0, None)
    {
      this.ceiling, this.release := ceiling, release;
      gain, held := 1.0, None;
    }

    method Apply(mix: seq<int>) returns (out: seq<int>)
      modifies this
      ensures (View(), out) == Limit(old(View()), mix, ceiling, release)
    {
      var peak := Peak(mix);
      var needed := if peak <= ceiling then 1.0 else ceiling as real / peak as real;
      var previous := gain;
      if needed < gain {
        gain := needed;
      } else {
        var released := ReleasedGain(gain, |mix|, release);
        gain := if needed < released then needed else released;
      }
      var before := held;
      held := Some(mix);
      if before == None {
        return Silence(|mix|);
      }
      out := Emitted(before.value, previous, gain);
    }
  }

  // -------------------------------------------------------------- one block

  ghost predicate Within(block: seq<int>, bound: int) {
    forall i :: 0 <= i < |block| ==> -bound <= block[i] <= bound
  }

  /** A gain the limiter may stand at: audible, never amplifying. */
  predicate Gain(g: real) {
    0.0 < g <= 1.0
  }

  lemma MulLess(a: real, b: real, c: real)
    requires a <= b && 0.0 <= c
    ensures a * c <= b * c
  {
  }

  lemma UnitScale(p: real, x: real)
    requires 0.0 <= p <= 1.0 && 0.0 <= x
    ensures 0.0 <= p * x <= x
  {
    MulLess(p, 1.0, x);
    MulLess(0.0, p, x);
  }

  /** A fraction of something is as much of it as its parts say. */
  lemma Share(a: real, b: real)
    requires 0.0 <= a && 0.0 < b
    ensures a / b * b == a && 0.0 <= a / b
    ensures a <= b ==> a / b <= 1.0
    ensures 0.0 < a ==> 0.0 < a / b
  {
    var q := a / b;
    assert q * b == a;
    if q < 0.0 {
      MulLess(q, 0.0, b);
    }
    if q > 1.0 {
      MulStrict(1.0, q, b);
    }
  }

  lemma MulStrict(a: real, b: real, c: real)
    requires a < b && 0.0 < c
    ensures a * c < b * c
  {
  }

  lemma {:induction false} PowUnit(r: real, n: nat)
    requires 0.0 <= r <= 1.0
    ensures 0.0 <= Pow(r, n) <= 1.0
  {
    if n > 0 {
      PowUnit(r, n - 1);
      UnitScale(r, Pow(r, n - 1));
    }
  }

  lemma ReleasedAhead(g: real, p: real)
    requires Gain(g) && 0.0 <= p <= 1.0
    ensures g <= 1.0 - (1.0 - g) * p <= 1.0
  {
    UnitScale(p, 1.0 - g);
    assert (1.0 - g) * p == p * (1.0 - g);
  }

  lemma GainAllowed(g: real, peak: nat, ceiling: nat)
    requires Gain(g) && ceiling > 0 && g <= Needed(peak, ceiling)
    ensures g * peak as real <= ceiling as real
  {
    if peak > ceiling {
      Share(ceiling as real, peak as real);
      MulLess(g, ceiling as real / peak as real, peak as real);
    } else {
      MulLess(g, 1.0, peak as real);
    }
  }

  /** The gain stays in (0, 1] and never exceeds what the newest block allows. */
  lemma NextGainBounds(gain: real, mix: seq<int>, ceiling: nat, release: real)
    requires Gain(gain) && ceiling > 0 && 0.0 <= release <= 1.0
    ensures Gain(NextGain(gain, mix, ceiling, release))
    ensures NextGain(gain, mix, ceiling, release) <= Needed(Peak(mix), ceiling)
  {
    PowUnit(release, |mix|);
    var p := Pow(release, |mix|);
    ReleasedAhead(gain, p);
    assert 0.0 < 1.0 - (1.0 - gain) * p <= 1.0;
    NeededHolds(Peak(mix), ceiling);
  }

  lemma NeededHolds(peak: nat, ceiling: nat)
    requires ceiling > 0
    ensures Gain(Needed(peak, ceiling))
    ensures Needed(peak, ceiling) * peak as real <= ceiling as real
  {
    if peak > ceiling {
      Share(ceiling as real, peak as real);
    }
  }

  /** A ramp runs from its first gain to its last and stays between them. */
  lemma RampBetween(from: real, to: real, n: nat, i: nat)
    requires i < n
    ensures i == 0 ==> RampAt(from, to, n, i) == from
    ensures i == n - 1 && n >= 2 ==> RampAt(from, to, n, i) == to
    ensures from <= to ==> from <= RampAt(from, to, n, i) <= to
    ensures to <= from ==> to <= RampAt(from, to, n, i) <= from
  {
    if n > 1 {
      Share(i as real, (n - 1) as real);
      var share := i as real / (n - 1) as real;
      if i == n - 1 {
        assert share == 1.0;
      }
      if from <= to {
        UnitScale(share, to - from);
      } else {
        UnitScale(share, from - to);
        assert share * (to - from) == -(share * (from - to));
      }
    }
  }

  lemma ScaledWithin(x: int, g: real, most: real, peak: int)
    requires 0.0 <= g <= most && -peak <= x <= peak
    ensures -(most * peak as real) <= x as real * g <= most * peak as real
  {
    MulLess(g, most, peak as real);
    assert g * peak as real == peak as real * g;
    var y := if x >= 0 then x as real else (-x) as real;
    MulLess(y, peak as real, g);
    MulLess(0.0, y, g);
    assert x as real == y || x as real == -y;
    assert (-y) * g == -(y * g);
  }

  lemma ClippedWithin(x: real, ceiling: int)
    requires 0 <= ceiling && -((ceiling + 1) as real) < x < (ceiling + 1) as real
    ensures -ceiling <= Clipped(x) <= ceiling
  {
  }

  lemma SampleWithin(x: int, g: real, most: real, peak: int, ceiling: int)
    requires 0.0 <= g <= most && -peak <= x <= peak && 0 <= ceiling
    requires most * peak as real < (ceiling + 1) as real
    ensures -ceiling <= Sample(x, g) <= ceiling
  {
    ScaledWithin(x, g, most, peak);
    ClippedWithin(x as real * g, ceiling);
  }

  /** A held block leaves within the ceiling when both ends of its ramp do. */
  lemma EmittedWithin(held: seq<int>, from: real, to: real, peak: int, ceiling: int)
    requires 0 <= peak && 0 <= ceiling && Within(held, peak) && Gain(from) && Gain(to)
    requires from * peak as real < (ceiling + 1) as real && to * peak as real < (ceiling + 1) as real
    ensures Within(Emitted(held, from, to), ceiling)
  {
    forall i | 0 <= i < |held|
      ensures -ceiling <= Emitted(held, from, to)[i] <= ceiling
    {
      RampBetween(from, to, |held|, i);
      SampleWithin(held[i], RampAt(from, to, |held|, i), if from <= to then to else from, peak, ceiling);
    }
  }

  lemma SampleBelow(peak: nat, g: real, ceiling: nat)
    requires ceiling <= INT16_MAX && (ceiling + 1) as real <= g * peak as real
    ensures Sample(-(peak as int), g) < -(ceiling as int)
  {
    assert (-(peak as int)) as real * g == -(g * peak as real);
  }

  lemma BeyondSixteenBits(held: seq<int>, from: real, to: real, ceiling: nat)
    requires ceiling > INT16_MAX
    ensures Within(Emitted(held, from, to), ceiling)
  {
  }

  lemma AloneWithin(held: seq<int>, from: real, to: real, peak: nat, ceiling: nat)
    requires |held| < 2 && Within(held, peak) && Gain(from) && from * peak as real < (ceiling + 1) as real
    ensures Within(Emitted(held, from, to), ceiling)
  {
    if held != [] {
      SampleWithin(held[0], from, from, peak, ceiling);
    }
  }

  /** A gain holds a peak down. */
  predicate Holds(gain: real, peak: nat, ceiling: nat) {
    gain * peak as real < (ceiling + 1) as real
  }

  /** All blocks of a length and a peak leave this ramp within the ceiling. */
  ghost predicate RampHolds(n: nat, peak: nat, from: real, to: real, ceiling: nat) {
    forall held: seq<int> :: |held| == n && Within(held, peak) ==> Within(Emitted(held, from, to), ceiling)
  }

  /** On a ramp from a gain that was right for them, blocks of a length and a peak leave
      within the ceiling if and only if the gain it ends on still holds that peak down. */
  lemma RampHoldsIff(n: nat, peak: nat, from: real, to: real, ceiling: nat)
    requires n >= 2 && Gain(from) && Gain(to) && ceiling <= INT16_MAX
    requires from * peak as real <= ceiling as real
    ensures RampHolds(n, peak, from, to, ceiling) <==> Holds(to, peak, ceiling)
  {
    if Holds(to, peak, ceiling) {
      forall held: seq<int> | |held| == n && Within(held, peak)
        ensures Within(Emitted(held, from, to), ceiling)
      {
        EmittedWithin(held, from, to, peak, ceiling);
      }
    } else {
      RampBreaks(n, peak, from, to, ceiling);
    }
  }

  function Lowest(n: nat, peak: nat): (block: seq<int>)
    ensures |block| == n && forall i :: 0 <= i < n ==> block[i] == -(peak as int)
  {
    seq(n, _ => -(peak as int))
  }

  lemma RampBreaks(n: nat, peak: nat, from: real, to: real, ceiling: nat)
    requires n >= 2 && ceiling <= INT16_MAX && !Holds(to, peak, ceiling)
    ensures Within(Lowest(n, peak), peak) && !Within(Emitted(Lowest(n, peak), from, to), ceiling)
  {
    RampBetween(from, to, n, n - 1);
    SampleBelow(peak, to, ceiling);
    assert Emitted(Lowest(n, peak), from, to)[n - 1] == Sample(-(peak as int), to);
  }

  lemma ShortRampHolds(n: nat, peak: nat, from: real, to: real, ceiling: nat)
    requires n < 2 || ceiling > INT16_MAX
    requires Gain(from) && from * peak as real <= ceiling as real
    ensures RampHolds(n, peak, from, to, ceiling)
  {
    forall held: seq<int> | |held| == n && Within(held, peak)
      ensures Within(Emitted(held, from, to), ceiling)
    {
      if n < 2 {
        AloneWithin(held, from, to, peak, ceiling);
      } else {
        BeyondSixteenBits(held, from, to, ceiling);
      }
    }
  }

  /** Whether the ceiling is sure to hold for a block of a length and a peak, from the
      gain before and from the peak and the length of the block behind it: that block
      needs a gain low enough, or is too short for the gain to rise so far. */
  predicate HoldsCeiling(g: real, n: nat, peak: nat, next: seq<int>, ceiling: nat, release: real) {
    || n < 2 || ceiling > INT16_MAX
    || Holds(Needed(Peak(next), ceiling), peak, ceiling)
    || Holds(ReleasedGain(g, |next|, release), peak, ceiling)
  }

  lemma ChosenHolds(g: real, needed: real, released: real, peak: nat, ceiling: nat)
    requires g <= released
    ensures Holds(Chosen(g, needed, released), peak, ceiling)
            <==> Holds(needed, peak, ceiling) || Holds(released, peak, ceiling)
  {
    if needed < released {
      MulLess(needed, released, peak as real);
    } else {
      MulLess(released, needed, peak as real);
    }
  }

  lemma ReleasedGainAhead(g: real, n: nat, release: real)
    requires Gain(g) && 0.0 <= release <= 1.0
    ensures g <= ReleasedGain(g, n, release) <= 1.0
  {
    PowUnit(release, n);
    ReleasedAhead(g, Pow(release, n));
  }

  /** Every block of that length and peak, held at that gain, leaves within the ceiling. */
  ghost predicate StepHolds(g: real, n: nat, peak: nat, next: seq<int>, ceiling: nat, release: real) {
    forall held: seq<int> :: |held| == n && Within(held, peak)
      ==> Within(Limit(State(g, Some(held)), next, ceiling, release).1, ceiling)
  }

  lemma StepIsRamp(g: real, n: nat, peak: nat, next: seq<int>, ceiling: nat, release: real)
    ensures StepHolds(g, n, peak, next, ceiling, release)
            <==> RampHolds(n, peak, g, NextGain(g, next, ceiling, release), ceiling)
  {
    forall held: seq<int>
      ensures Limit(State(g, Some(held)), next, ceiling, release).1
           == Emitted(held, g, NextGain(g, next, ceiling, release))
    {
    }
  }

  /** Exactly when one step of the limiter keeps the ceiling: from any gain that was right
      for the block it holds, all blocks of that length and peak leave within the ceiling
      if and only if the guard says so beforehand. A quiet block lets the gain rise before
      the loud one ahead of it has left. */
  lemma CeilingHeldIff(g: real, n: nat, peak: nat, next: seq<int>, ceiling: nat, release: real)
    requires Gain(g) && ceiling > 0 && 0.0 <= release <= 1.0 && g <= Needed(peak, ceiling)
    ensures StepHolds(g, n, peak, next, ceiling, release) <==> HoldsCeiling(g, n, peak, next, ceiling, release)
  {
    var to := NextGain(g, next, ceiling, release);
    StepIsRamp(g, n, peak, next, ceiling, release);
    GainAllowed(g, peak, ceiling);
    if n < 2 || ceiling > INT16_MAX {
      ShortRampHolds(n, peak, g, to, ceiling);
    } else {
      NextGainBounds(g, next, ceiling, release);
      RampHoldsIff(n, peak, g, to, ceiling);
      ReleasedGainAhead(g, |next|, release);
      ChosenHolds(g, Needed(Peak(next), ceiling), ReleasedGain(g, |next|, release), peak, ceiling);
    }
  }

  /** The failure, with the source's own ceiling and release: a loud block followed
      by silence leaves above the ceiling. */
  lemma CeilingExceeded()
    ensures var loud := [240000, 240000];
            var (s, _) := Limit(State(1.0, None), loud, 30000, 0.9995);
            var (_, out) := Limit(s, [0, 0], 30000, 0.9995);
            out == [30000, 30209]
  {
    var loud, quiet := [240000, 240000], [0, 0];
    assert Front(loud) == [240000] && Front(quiet) == [0];
    assert Front([240000]) == [] && Front([0]) == [];
    assert Peak([240000]) == 240000 && Peak(loud) == 240000;
    assert Peak([0]) == 0 && Peak(quiet) == 0;
    assert Pow(0.9995, 2) == 0.99900025 by {
      assert Pow(0.9995, 0) == 1.0;
      assert Pow(0.9995, 1) == 0.9995;
    }
    var g := 1.0 - (1.0 - 0.125) * 0.99900025;
    assert NextGain(1.0, loud, 30000, 0.9995) == 0.125;
    assert NextGain(0.125, quiet, 30000, 0.9995) == g;
    RampBetween(0.125, g, 2, 0);
    RampBetween(0.125, g, 2, 1);
  }

  // ------------------------------------------------------------------- runs

  datatype Run = Run(state: State, outs: seq<seq<int>>)

  function After(ceiling: nat, release: real, blocks: seq<seq<int>>): Run {
    if blocks == [] then Run(State(1.0, None), [])
    else
      var before := After(ceiling, release, Front(blocks));
      var (state, out) := Limit(before.state, Last(blocks), ceiling, release);
      Run(state, before.outs + [out])
  }

  /** Over every run: the gain stays in (0, 1], never above what the newest block
      allows, and that block is the one held. */
  lemma {:induction false} GainKept(ceiling: nat, release: real, blocks: seq<seq<int>>)
    requires ceiling > 0 && 0.0 <= release <= 1.0
    ensures var r := After(ceiling, release, blocks);
            && |r.outs| == |blocks|
            && Gain(r.state.gain)
            && r.state.held == (if blocks == [] then None else Some(Last(blocks)))
            && (blocks != [] ==> r.state.gain <= Needed(Peak(Last(blocks)), ceiling))
  {
    if blocks != [] {
      GainKept(ceiling, release, Front(blocks));
      NextGainBounds(After(ceiling, release, Front(blocks)).state.gain, Last(blocks), ceiling, release);
    }
  }

  /** What the newest block brings out: silence at first, and then the block before it. */
  lemma NewestOut(ceiling: nat, release: real, blocks: seq<seq<int>>)
    requires ceiling > 0 && 0.0 <= release <= 1.0 && blocks != []
    ensures var r, before := After(ceiling, release, blocks), After(ceiling, release, Front(blocks));
      && |r.outs| == |blocks| && |before.outs| == |blocks| - 1 && Front(r.outs) == before.outs
      && Last(r.outs) == if |blocks| == 1 then Silence(|Last(blocks)|)
                         else Emitted(blocks[|blocks| - 2], before.state.gain, r.state.gain)
  {
    GainKept(ceiling, release, Front(blocks));
    if |blocks| > 1 {
      assert Last(Front(blocks)) == blocks[|blocks| - 2];
    }
  }

  /** Over every run: each block leaves one block later, on a ramp that begins at
      the gain the ramp before it ended on. */
  lemma {:induction false} RampsConnect(ceiling: nat, release: real, blocks: seq<seq<int>>, k: nat)
    requires ceiling > 0 && 0.0 <= release <= 1.0 && k < |blocks|
    ensures |After(ceiling, release, blocks).outs| == |blocks|
    ensures After(ceiling, release, blocks).outs[k]
            == if k == 0 then Silence(|blocks[0]|)
               else Emitted(blocks[k - 1], After(ceiling, release, blocks[..k]).state.gain,
                            After(ceiling, release, blocks[..k + 1]).state.gain)
  {
    NewestOut(ceiling, release, blocks);
    var front := Front(blocks);
    if k < |front| {
      RampsConnect(ceiling, release, front, k);
      assert front[..k] == blocks[..k] && front[..k + 1] == blocks[..k + 1];
    } else {
      assert blocks[..k] == front && blocks[..k + 1] == blocks;
    }
  }

  /** The i-th of n gains spread evenly from one to another. */
  predicate OnRamp(g: real, from: real, to: real, n: nat, i: nat) {
    if n == 1 then g == from else (g - from) * (n - 1) as real == (to - from) * i as real
  }

  lemma RampIsEven(from: real, to: real, n: nat, i: nat)
    requires i < n
    ensures OnRamp(RampAt(from, to, n, i), from, to, n, i)
  {
    if n > 1 {
      Share(i as real, (n - 1) as real);
      var share := i as real / (n - 1) as real;
      assert share * (to - from) * (n - 1) as real == share * (n - 1) as real * (to - from);
    }
  }

  lemma OneGainOnRamp(g: real, h: real, from: real, to: real, n: nat, i: nat)
    requires i < n && OnRamp(g, from, to, n, i) && OnRamp(h, from, to, n, i)
    ensures g == h
  {
    if n > 1 {
      assert (g - h) * (n - 1) as real == 0.0;
      if g < h {
        MulStrict(g, h, (n - 1) as real);
      } else if h < g {
        MulStrict(h, g, (n - 1) as real);
      }
    }
  }

  /** A sample at a gain as 16 bits hold it: kept within them, and otherwise without its
      fraction. */
  predicate LeavesAs(out: int, x: int, g: real) {
    var product := x as real * g;
    && (product > 32767.0 ==> out == 32767)
    && (product < -32768.0 ==> out == -32768)
    && (0.0 <= product <= 32767.0 ==> 0 <= out && out as real <= product < out as real + 1.0)
    && (-32768.0 <= product <= 0.0 ==> out <= 0 && out as real - 1.0 < product <= out as real)
  }

  lemma SampleLeaves(x: int, g: real)
    ensures LeavesAs(Sample(x, g), x, g)
  {
  }

  /** Every sample of a held block leaves at its own gain: those gains are spread evenly from
      the one before to the one behind. */
  lemma EmittedIs(held: seq<int>, from: real, to: real, i: nat, g: real)
    requires i < |held| && OnRamp(g, from, to, |held|, i)
    ensures LeavesAs(Emitted(held, from, to)[i], held[i], g)
  {
    var h := RampAt(from, to, |held|, i);
    RampIsEven(from, to, |held|, i);
    OneGainOnRamp(g, h, from, to, |held|, i);
    assert Emitted(held, from, to)[i] == Sample(held[i], g);
    SampleLeaves(held[i], g);
  }

  /** The peak of a block is the magnitude of its loudest sample; the lowest 32-bit value
      has none. */
  lemma PeakIsLoudest(mix: seq<int>)
    ensures forall i :: 0 <= i < |mix| && mix[i] != -0x8000_0000 ==> -Peak(mix) <= mix[i] <= Peak(mix)
    ensures Peak(mix) == 0
            || exists i :: 0 <= i < |mix| && mix[i] != -0x8000_0000 && (mix[i] == Peak(mix) || mix[i] == -Peak(mix))
  {
    assert forall i :: 0 <= i < |mix| ==> Abs32(mix[i]) <= Peak(mix);
    if Peak(mix) != 0 {
      var i :| 0 <= i < |mix| && Abs32(mix[i]) == Peak(mix);
      assert mix[i] != -0x8000_0000 && (mix[i] == Peak(mix) || mix[i] == -Peak(mix));
    }
  }

  lemma ChosenIsLower(gain: real, needed: real, released: real)
    requires gain <= released
    ensures var g := Chosen(gain, needed, released); g <= released && (g == released || (g == needed < released))
  {
  }

  lemma NeededIsExact(peak: nat, ceiling: nat)
    requires ceiling > 0
    ensures if peak > ceiling then Needed(peak, ceiling) * peak as real == ceiling as real
            else Needed(peak, ceiling) == 1.0
  {
    if peak > ceiling {
      Share(ceiling as real, peak as real);
    }
  }

  /** As high as the release lets it rise, or just as high as a peak allows. */
  predicate Highest(g: real, released: real, peak: nat, ceiling: nat) {
    g <= released && (g == released || (peak > ceiling && g * peak as real == ceiling as real))
  }

  lemma ChosenIsHighest(gain: real, released: real, peak: nat, ceiling: nat)
    requires gain <= released <= 1.0 && ceiling > 0
    ensures Highest(Chosen(gain, Needed(peak, ceiling), released), released, peak, ceiling)
  {
    ChosenIsLower(gain, Needed(peak, ceiling), released);
    NeededIsExact(peak, ceiling);
  }

  /** The gain is no lower than it must be: it is as high as the release has let it rise, or
      just as high as the loudest sample allows. */
  lemma GainIsHighest(gain: real, mix: seq<int>, ceiling: nat, release: real)
    requires Gain(gain) && ceiling > 0 && 0.0 <= release <= 1.0
    ensures Highest(NextGain(gain, mix, ceiling, release), ReleasedGain(gain, |mix|, release), Peak(mix), ceiling)
  {
    ReleasedGainAhead(gain, |mix|, release);
    ChosenIsHighest(gain, ReleasedGain(gain, |mix|, release), Peak(mix), ceiling);
  }

  /** The gain behind a block of a length and a peak. */
  function GainBehind(gain: real, n: nat, peak: nat, ceiling: nat, release: real): real {
    Chosen(gain, Needed(peak, ceiling), ReleasedGain(gain, n, release))
  }

  /** What comes out last of a run that ends in these two blocks. */
  function LastOut(ceiling: nat, release: real, before: seq<seq<int>>, held: seq<int>, next: seq<int>): seq<int> {
    Limit(After(ceiling, release, before + [held]).state, next, ceiling, release).1
  }

  lemma LastOutIs(ceiling: nat, release: real, before: seq<seq<int>>, held: seq<int>, next: seq<int>)
    ensures var r := After(ceiling, release, before + [held] + [next]);
      && r.outs != [] && Last(r.outs) == LastOut(ceiling, release, before, held, next)
    ensures After(ceiling, release, before + [held]).state
         == State(GainBehind(After(ceiling, release, before).state.gain, |held|, Peak(held), ceiling, release),
                  Some(held))
  {
    assert Front(before + [held] + [next]) == before + [held];
    assert Front(before + [held]) == before;
  }

  lemma {:induction false} PeakOfLowest(n: nat, peak: nat)
    requires n > 0 && peak <= 0x7FFF_FFFF
    ensures Peak(Lowest(n, peak)) == peak && INT32_MIN !in Lowest(n, peak)
  {
    assert Front(Lowest(n, peak)) == Lowest(n - 1, peak);
    if n > 1 {
      PeakOfLowest(n - 1, peak);
    } else {
      assert Peak([]) == 0;
    }
  }

  /** Over every run, whatever has gone before: all blocks of a length and a peak leave
      within the ceiling, ahead of a given next block, if and only if the guard says so
      of the gain behind them. */
  lemma CeilingKeptIff(ceiling: nat, release: real, before: seq<seq<int>>, n: nat, peak: nat, next: seq<int>)
    requires ceiling > 0 && 0.0 <= release <= 1.0 && peak <= 0x7FFF_FFFF
    ensures (forall held: seq<int> :: |held| == n && Peak(held) == peak && INT32_MIN !in held
               ==> Within(LastOut(ceiling, release, before, held, next), ceiling))
            <==> HoldsCeiling(GainBehind(After(ceiling, release, before).state.gain, n, peak, ceiling, release),
                              n, peak, next, ceiling, release)
  {
    var g := GainBehind(After(ceiling, release, before).state.gain, n, peak, ceiling, release);
    GainBehindAllowed(ceiling, release, before, n, peak);
    CeilingHeldIff(g, n, peak, next, ceiling, release);
    if HoldsCeiling(g, n, peak, next, ceiling, release) {
      forall held: seq<int> | |held| == n && Peak(held) == peak && INT32_MIN !in held
        ensures Within(LastOut(ceiling, release, before, held, next), ceiling)
      {
        LastOutIs(ceiling, release, before, held, next);
        PeakBounds(held);
      }
    } else {
      PeakOfLowest(n, peak);
      LastOutIs(ceiling, release, before, Lowest(n, peak), next);
      StepBreaks(g, n, peak, next, ceiling, release);
    }
  }

  lemma GainBehindAllowed(ceiling: nat, release: real, before: seq<seq<int>>, n: nat, peak: nat)
    requires ceiling > 0 && 0.0 <= release <= 1.0
    ensures var g := GainBehind(After(ceiling, release, before).state.gain, n, peak, ceiling, release);
            Gain(g) && g <= Needed(peak, ceiling)
  {
    var gain := After(ceiling, release, before).state.gain;
    GainKept(ceiling, release, before);
    ReleasedGainAhead(gain, n, release);
    NeededHolds(peak, ceiling);
  }

  lemma StepBreaks(g: real, n: nat, peak: nat, next: seq<int>, ceiling: nat, release: real)
    requires Gain(g) && ceiling > 0 && 0.0 <= release <= 1.0 && g <= Needed(peak, ceiling)
    requires !HoldsCeiling(g, n, peak, next, ceiling, release)
    ensures !Within(Limit(State(g, Some(Lowest(n, peak))), next, ceiling, release).1, ceiling)
  {
    ReleasedGainAhead(g, |next|, release);
    ChosenHolds(g, Needed(Peak(next), ceiling), ReleasedGain(g, |next|, release), peak, ceiling);
    RampBreaks(n, peak, g, NextGain(g, next, ceiling, release), ceiling);
  }

  /** Over every run: a block whose successor is as loud or louder leaves within
      the ceiling. (The lowest 32-bit value has no magnitude to go by.) */
  lemma LouderSuccessorHoldsCeiling(ceiling: nat, release: real, blocks: seq<seq<int>>)
    requires ceiling > 0 && 0.0 <= release <= 1.0 && |blocks| >= 2
    requires var held, next := blocks[|blocks| - 2], Last(blocks);
             INT32_MIN !in held && Peak(held) <= Peak(next)
    ensures |After(ceiling, release, blocks).outs| == |blocks|
    ensures Within(Last(After(ceiling, release, blocks).outs), ceiling)
  {
    var before := Front(blocks);
    GainKept(ceiling, release, before);
    GainKept(ceiling, release, blocks);
    HeldUnderLouder(Last(before), Last(blocks), After(ceiling, release, before).state.gain,
                    After(ceiling, release, blocks).state.gain, ceiling);
  }

  lemma HeldUnderLouder(held: seq<int>, next: seq<int>, from: real, to: real, ceiling: nat)
    requires ceiling > 0 && Gain(from) && Gain(to)
    requires INT32_MIN !in held && Peak(held) <= Peak(next)
    requires from <= Needed(Peak(held), ceiling) && to <= Needed(Peak(next), ceiling)
    ensures Within(Emitted(held, from, to), ceiling)
  {
    NeededFalls(Peak(held), Peak(next), ceiling);
    PeakBounds(held);
    forall i | 0 <= i < |held|
      ensures -(ceiling as int) <= Emitted(held, from, to)[i] <= ceiling
    {
      RampBetween(from, to, |held|, i);
      SampleAllowed(held[i], RampAt(from, to, |held|, i), Peak(held), ceiling);
    }
  }

  lemma SampleAllowed(x: int, g: real, peak: nat, ceiling: nat)
    requires Gain(g) && ceiling > 0 && g <= Needed(peak, ceiling) && -(peak as int) <= x <= peak
    ensures -(ceiling as int) <= Sample(x, g) <= ceiling
  {
    GainAllowed(g, peak, ceiling);
    SampleWithin(x, g, g, peak, ceiling);
  }

  lemma NeededFalls(p: nat, q: nat, ceiling: nat)
    requires ceiling > 0 && p <= q
    ensures Needed(q, ceiling) <= Needed(p, ceiling)
  {
    if q > ceiling {
      Share(ceiling as real, q as real);
      if p > ceiling {
        Share(ceiling as real, p as real);
        var a, b := ceiling as real / p as real, ceiling as real / q as real;
        if b > a {
          MulStrict(a, b, p as real);
          MulLess(p as real, q as real, b);
        }
      }
    }
  }

  lemma PeakBounds(block: seq<int>)
    requires INT32_MIN !in block
    ensures Within(block, Peak(block))
  {
    forall i | 0 <= i < |block|
      ensures -(Peak(block) as int) <= block[i] <= Peak(block)
    {
      assert block[i] in block;
      assert Abs32(block[i]) <= Peak(block);
    }
  }

  lemma UnityStays(mix: seq<int>, ceiling: nat, release: real)
    requires 0 < ceiling && 0.0 <= release <= 1.0 && Within(mix, ceiling)
    ensures NextGain(1.0, mix, ceiling, release) == 1.0
  {
    PeakWithin(mix, ceiling);
    assert (1.0 - 1.0) * Pow(release, |mix|) == 0.0;
  }

  /** Blocks one block later, behind silence. */
  function OneLater(blocks: seq<seq<int>>): seq<seq<int>> {
    if blocks == [] then [] else [Silence(|blocks[0]|)] + Front(blocks)
  }

  lemma OneLaterSnoc(blocks: seq<seq<int>>)
    requires blocks != []
    ensures OneLater(blocks) == OneLater(Front(blocks))
              + [if |blocks| == 1 then Silence(|Last(blocks)|) else blocks[|blocks| - 2]]
  {
    if |blocks| > 1 {
      assert Front(blocks) == Front(Front(blocks)) + [blocks[|blocks| - 2]];
    }
  }

  /** Over every run of blocks that stay within a ceiling that fits 16 bits: the
      limiter is a delay of exactly one block and nothing else. */
  lemma {:induction false} TransparentBelowCeiling(ceiling: nat, release: real, blocks: seq<seq<int>>)
    requires 0 < ceiling <= INT16_MAX && 0.0 <= release <= 1.0
    requires forall k :: 0 <= k < |blocks| ==> Within(blocks[k], ceiling)
    ensures After(ceiling, release, blocks).state.gain == 1.0
    ensures After(ceiling, release, blocks).outs == OneLater(blocks)
  {
    if blocks != [] {
      var n := |blocks| - 1;
      TransparentBelowCeiling(ceiling, release, Front(blocks));
      UnityStays(blocks[n], ceiling, release);
      NewestOut(ceiling, release, blocks);
      OneLaterSnoc(blocks);
      if n > 0 {
        UnityEmits(blocks[n - 1]);
      }
      FrontAndLast(After(ceiling, release, blocks).outs);
    }
  }

  lemma {:induction false} PeakWithin(block: seq<int>, ceiling: nat)
    requires Within(block, ceiling)
    ensures Peak(block) <= ceiling
  {
    if block != [] {
      PeakWithin(Front(block), ceiling);
    }
  }

  lemma UnityEmits(held: seq<int>)
    requires Within(held, INT16_MAX)
    ensures Emitted(held, 1.0, 1.0) == held
  {
    forall i | 0 <= i < |held|
      ensures Emitted(held, 1.0, 1.0)[i] == held[i]
    {
      RampBetween(1.0, 1.0, |held|, i);
      assert held[i] as real * 1.0 == held[i] as real;
    }
  }

  function Released(gain: real, ceiling: nat, release: real, blocks: seq<seq<int>>): real {
    if blocks == [] then gain
    else NextGain(Released(gain, ceiling, release, Front(blocks)), Last(blocks), ceiling, release)
  }

  /** A distance after the release of n samples: times the n-th power. */
  function Shrunk(distance: real, release: real, n: nat): real {
    if n == 0 then distance else release * Shrunk(distance, release, n - 1)
  }

  lemma {:induction false} ShrunkIsPower(distance: real, release: real, n: nat)
    ensures Shrunk(distance, release, n) == distance * Pow(release, n)
  {
    if n > 0 {
      ShrunkIsPower(distance, release, n - 1);
    }
  }

  lemma {:induction false} ShrunkAdd(distance: real, release: real, m: nat, n: nat)
    ensures Shrunk(Shrunk(distance, release, m), release, n) == Shrunk(distance, release, m + n)
  {
    if n > 0 {
      ShrunkAdd(distance, release, m, n - 1);
    }
  }

  lemma ReleaseStep(g: real, block: seq<int>, ceiling: nat, release: real)
    requires Gain(g) && ceiling > 0 && 0.0 <= release <= 1.0 && Peak(block) <= ceiling
    ensures Gain(NextGain(g, block, ceiling, release))
    ensures 1.0 - NextGain(g, block, ceiling, release) == Shrunk(1.0 - g, release, |block|)
  {
    NextGainBounds(g, block, ceiling, release);
    PowUnit(release, |block|);
    ReleasedAhead(g, Pow(release, |block|));
    ShrunkIsPower(1.0 - g, release, |block|);
  }

  /** While every block is within the ceiling, the distance of the gain from 1
      shrinks by the release of every sample that passes - neither faster nor slower. */
  lemma {:induction false} ReleaseIsGeometric(gain: real, ceiling: nat, release: real, blocks: seq<seq<int>>)
    requires ceiling > 0 && 0.0 <= release <= 1.0 && Gain(gain)
    requires forall k :: 0 <= k < |blocks| ==> Within(blocks[k], ceiling)
    ensures Gain(Released(gain, ceiling, release, blocks))
    ensures 1.0 - Released(gain, ceiling, release, blocks) == Shrunk(1.0 - gain, release, |Flatten(blocks)|)
  {
    if blocks != [] {
      ReleaseIsGeometric(gain, ceiling, release, Front(blocks));
      PeakWithin(Last(blocks), ceiling);
      ReleaseStep(Released(gain, ceiling, release, Front(blocks)), Last(blocks), ceiling, release);
      ShrunkAdd(1.0 - gain, release, |Flatten(Front(blocks))|, |Last(blocks)|);
    }
  }
}
