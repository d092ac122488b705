/** When a participant is mixed in and when not (bridge/mixer.py, NoiseGate). */
module NoiseGates {
  import opened Prelude

  /** The magnitude of a 16-bit sample as numpy computes it: the lowest value has
      no positive counterpart and stays what it is. */
  function Abs16(x: int): int {
    if x == -0x8000 then x else if x < 0 then -x else x
  }

  /** The highest magnitude in a block, and 0 in an empty one. */
  function Peak16(block: seq<int>): (peak: int)
    ensures peak >= 0
    ensures forall i :: 0 <= i < |block| ==> Abs16(block[i]) <= peak
    ensures peak == 0 || exists i :: 0 <= i < |block| && Abs16(block[i]) == peak
  {
    if block == [] then 0 else Max(Peak16(Front(block)), Abs16(Last(block)))
  }

  predicate Loud(block: seq<int>, threshold: int) {
    Peak16(block) >= threshold
  }

  datatype Gate = Gate(threshold: int, hold: nat, quietBlocks: nat, open: bool)

  function Closed(threshold: int, hold: nat): Gate {
    Gate(threshold, hold, hold + 1, false)
  }

  function Hear(g: Gate, block: seq<int>): Gate {
    if Loud(block, g.threshold) then g.(quietBlocks := 0, open := true)
    else g.(quietBlocks := g.quietBlocks + 1, open := g.open && g.quietBlocks + 1 <= g.hold)
  }

  class NoiseGate {
    const threshold: int
    const hold: nat
    var quietBlocks: nat
    var open: bool

    function View(): Gate
      reads this
    {
      Gate(threshold, hold, quietBlocks, open)
    }

    constructor (threshold: int, hold: nat)
      ensures View() == Closed(threshold, hold)
    {
      this.threshold, this.hold := threshold, hold;
      quietBlocks := hold + 1;
      open := false;
    }

    method Passes(block: seq<int>) returns (passes: bool)
      modifies this
      ensures View() == Hear(old(View()), block) && passes == View().open
    {
      if Peak16(block) >= threshold {
        quietBlocks := 0;
        open := true;
      } else {
        quietBlocks := quietBlocks + 1;
        if quietBlocks > hold {
          open := false;
        }
      }
      passes := open;
    }
  }

  // ---------------------------------------------------------------- runs

  function Heard(threshold: int, hold: nat, blocks: seq<seq<int>>): Gate {
    if blocks == [] then Closed(threshold, hold)
    else Hear(Heard(threshold, hold, Front(blocks)), Last(blocks))
  }

  /** Some sample of a block is as far from 0 as the threshold, on either side; the lowest
      16-bit value never counts, and a threshold that is not positive is always reached. */
  ghost predicate Reaches(block: seq<int>, threshold: int) {
    threshold <= 0
    || exists i :: 0 <= i < |block| && block[i] != -0x8000 && (block[i] >= threshold || -block[i] >= threshold)
  }

  lemma LoudIff(block: seq<int>, threshold: int)
    ensures Loud(block, threshold) <==> Reaches(block, threshold)
  {
    if threshold > 0 {
      if Loud(block, threshold) {
        var i :| 0 <= i < |block| && Abs16(block[i]) == Peak16(block);
        assert block[i] >= threshold || -block[i] >= threshold;
      }
      if Reaches(block, threshold) {
        var i :| 0 <= i < |block| && block[i] != -0x8000 && (block[i] >= threshold || -block[i] >= threshold);
        assert Abs16(block[i]) <= Peak16(block);
      }
    }
  }

  /** Whether any of the newest `hold + 1` blocks is loud. */
  ghost predicate LatelyLoud(threshold: int, hold: nat, blocks: seq<seq<int>>) {
    exists i :: 0 <= i < |blocks| && |blocks| - i <= hold + 1 && Reaches(blocks[i], threshold)
  }

  /** Over every run: a gate is open exactly when one of the last hold + 1 blocks
      reached the threshold. */
  lemma OpenIffLatelyLoud(threshold: int, hold: nat, blocks: seq<seq<int>>)
    ensures var g := Heard(threshold, hold, blocks);
            && g.threshold == threshold && g.hold == hold
            && (g.open <==> LatelyLoud(threshold, hold, blocks))
  {
    QuietCounted(threshold, hold, blocks);
    forall i | 0 <= i < |blocks|
      ensures Loud(blocks[i], threshold) <==> Reaches(blocks[i], threshold)
    {
      LoudIff(blocks[i], threshold);
    }
  }

  /** What the counter counts: the blocks since the last loud one, or, if none
      was, more than the hold. */
  lemma {:induction false} QuietCounted(threshold: int, hold: nat, blocks: seq<seq<int>>)
    ensures var g := Heard(threshold, hold, blocks);
            && g.threshold == threshold && g.hold == hold
            && (g.open <==> g.quietBlocks <= hold)
            && (forall i :: 0 <= i < |blocks| && |blocks| - i <= g.quietBlocks ==> !Loud(blocks[i], threshold))
            && (g.quietBlocks < |blocks| ==> Loud(blocks[|blocks| - 1 - g.quietBlocks], threshold))
            && (g.quietBlocks >= |blocks| ==> g.quietBlocks > hold)
  {
    if blocks != [] {
      QuietCounted(threshold, hold, Front(blocks));
    }
  }
}
