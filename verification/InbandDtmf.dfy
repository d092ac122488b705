/** Hearing key presses that arrive as sound (bridge/dtmf_inband.py, InbandDtmf).
    Which key a block of audio carries, if any, is an arbitrary function; what is
    proved is what becomes of the answers. */
module InbandDtmf {
  import opened Prelude

  datatype Settings = Settings(minBlocks: nat, maxGapBlocks: nat)

  datatype Listener = Listener(candidate: Option<char>, blocks: nat, gap: nat, reported: Option<char>)

  const NOTHING_HEARD := Listener(None, 0, 0, None)

  function Feed(l: Listener, heard: Option<char>, c: Settings): (Listener, Option<char>) {
    match heard
    case None =>
      if l.gap + 1 > c.maxGapBlocks then (Listener(None, 0, l.gap + 1, None), None)
      else (l.(gap := l.gap + 1), None)
    case Some(digit) =>
      var same := if l.candidate == heard then l.(gap := 0) else Listener(heard, 0, 0, None);
      var more := same.(blocks := same.blocks + 1);
      if more.reported == heard || more.blocks < c.minBlocks then (more, None)
      else (more.(reported := heard), heard)
  }

  class Detector {
    const digitInBlock: seq<int> -> Option<char>
    const minBlocks: nat
    const maxGapBlocks: nat
    var candidate: Option<char>
    var blocks: nat
    var gap: nat
    var reported: Option<char>

    function View(): Listener
      reads this
    {
      Listener(candidate, blocks, gap, reported)
    }

    constructor (digitInBlock: seq<int> -> Option<char>, minBlocks: nat, maxGapBlocks: nat)
      ensures View() == NOTHING_HEARD
      ensures this.digitInBlock == digitInBlock && this.minBlocks == minBlocks && this.maxGapBlocks == maxGapBlocks
    {
      this.digitInBlock, this.minBlocks, this.maxGapBlocks := digitInBlock, minBlocks, maxGapBlocks;
      candidate, blocks, gap, reported := None, 0, 0, None;
    }

    method Hear(samples: seq<int>) returns (completed: Option<char>)
      modifies this
      ensures (View(), completed)
              == Feed(old(View()), digitInBlock(samples), Settings(minBlocks, maxGapBlocks))
    {
      var digit := digitInBlock(samples);
      if digit == None {
        gap := gap + 1;
        if gap > maxGapBlocks {
          candidate, blocks, reported := None, 0, None;
        }
        return None;
      }
      gap := 0;
      if digit != candidate {
        candidate, blocks, reported := digit, 0, None;
      }
      blocks := blocks + 1;
      if digit == reported || blocks < minBlocks {
        return None;
      }
      reported := digit;
      return digit;
    }
  }

  datatype Hearing = Hearing(listener: Listener, digits: string)

  /** A detector after a stream of blocks, and every digit it has reported. */
  function Hear(stream: seq<Option<char>>, c: Settings): Hearing {
    if stream == [] then Hearing(NOTHING_HEARD, [])
    else
      var before := Hear(Front(stream), c);
      var (listener, digit) := Feed(before.listener, Last(stream), c);
      Hearing(listener, if digit.Some? then before.digits + [digit.value] else before.digits)
  }

  // -------------------------------------------------- the stream, in presses

  /** Blocks of one key, in order, by where they are in the stream. */
  datatype Segment = Segment(key: char, blocks: seq<nat>)

  /** Where the stream carries a key at all. */
  function Sounding(stream: seq<Option<char>>): seq<nat> {
    if stream == [] then []
    else Sounding(Front(stream)) + if Last(stream).Some? then [|stream| - 1] else []
  }

  function BlocksOf(segments: seq<Segment>): seq<nat> {
    if segments == [] then [] else BlocksOf(Front(segments)) + Last(segments).blocks
  }

  /** One press: one key throughout, and no gap in it longer than allowed. */
  ghost predicate OnePress(s: Segment, stream: seq<Option<char>>, c: Settings) {
    && s.blocks != []
    && (forall i :: 0 <= i < |s.blocks| ==> s.blocks[i] < |stream| && stream[s.blocks[i]] == Some(s.key))
    && (forall i :: 0 < i < |s.blocks| ==> s.blocks[i - 1] < s.blocks[i] <= s.blocks[i - 1] + 1 + c.maxGapBlocks)
  }

  /** Two presses: another key, or too long a gap between them. */
  ghost predicate Parted(s: Segment, t: Segment, c: Settings) {
    s.blocks != [] && t.blocks != [] && (s.key != t.key || Last(s.blocks) + 1 + c.maxGapBlocks < t.blocks[0])
  }

  /** The stream as maximal presses: every block that carries a key is in one of
      them, in order, and no two neighbours could be one. */
  ghost predicate Segmentation(segments: seq<Segment>, stream: seq<Option<char>>, c: Settings) {
    && BlocksOf(segments) == Sounding(stream)
    && (forall k :: 0 <= k < |segments| ==> OnePress(segments[k], stream, c))
    && (forall k :: 0 < k < |segments| ==> Parted(segments[k - 1], segments[k], c))
  }

  /** The keys of the presses that last. */
  function Lasting(segments: seq<Segment>, c: Settings): string {
    if segments == [] then []
    else
      Lasting(Front(segments), c)
      + if |Last(segments).blocks| >= Max(1, c.minBlocks) then [Last(segments).key] else []
  }

  lemma {:induction false} SoundingBelow(stream: seq<Option<char>>)
    ensures forall x :: x in Sounding(stream) ==> x < |stream|
  {
    if stream != [] {
      SoundingBelow(Front(stream));
    }
  }

  lemma {:induction false} BlockIn(segments: seq<Segment>, k: nat, i: nat)
    requires k < |segments| && i < |segments[k].blocks|
    ensures segments[k].blocks[i] in BlocksOf(segments)
  {
    if k < |segments| - 1 {
      BlockIn(Front(segments), k, i);
    }
  }

  lemma BlocksSnoc(segments: seq<Segment>, s: Segment)
    ensures BlocksOf(segments + [s]) == BlocksOf(segments) + s.blocks
  {
    assert Front(segments + [s]) == segments;
  }

  /** A press of the stream's beginning is one of the stream, and back. */
  lemma OnePressOfFront(s: Segment, stream: seq<Option<char>>, c: Settings)
    requires stream != []
    ensures OnePress(s, Front(stream), c) ==> OnePress(s, stream, c)
    ensures OnePress(s, stream, c) && (forall i :: 0 <= i < |s.blocks| ==> s.blocks[i] != |stream| - 1)
            ==> OnePress(s, Front(stream), c)
  {
  }

  /** Without the last block, which carries no key, the presses are the same. */
  lemma SilenceDropped(segments: seq<Segment>, stream: seq<Option<char>>, c: Settings)
    requires Segmentation(segments, stream, c) && stream != [] && Last(stream) == None
    ensures Segmentation(segments, Front(stream), c)
  {
    forall k | 0 <= k < |segments|
      ensures OnePress(segments[k], Front(stream), c)
    {
      OnePressOfFront(segments[k], stream, c);
    }
  }

  /** The presses without their last block. */
  function Shortened(segments: seq<Segment>): seq<Segment>
    requires segments != [] && Last(segments).blocks != []
  {
    var last := Last(segments);
    if |last.blocks| == 1 then Front(segments) else Front(segments) + [Segment(last.key, Front(last.blocks))]
  }

  lemma LastBlockEndsPress(segments: seq<Segment>, stream: seq<Option<char>>, c: Settings)
    requires Segmentation(segments, stream, c) && stream != [] && Last(stream).Some?
    ensures segments != [] && Last(segments).blocks != []
    ensures Last(Last(segments).blocks) == |stream| - 1 && Last(stream) == Some(Last(segments).key)
    ensures BlocksOf(Shortened(segments)) == Sounding(Front(stream))
  {
    var last := segments[|segments| - 1];
    assert OnePress(last, stream, c);
    assert Last(BlocksOf(segments)) == Last(last.blocks);
    if |last.blocks| > 1 {
      BlocksSnoc(Front(segments), Segment(last.key, Front(last.blocks)));
    }
    assert BlocksOf(Shortened(segments)) == Front(BlocksOf(segments));
  }

  lemma BlockDropped(segments: seq<Segment>, stream: seq<Option<char>>, c: Settings)
    requires Segmentation(segments, stream, c) && stream != [] && Last(stream).Some?
    ensures segments != [] && Last(segments).blocks != []
    ensures Segmentation(Shortened(segments), Front(stream), c)
  {
    LastBlockEndsPress(segments, stream, c);
    var shorter := Shortened(segments);
    forall k | 0 <= k < |shorter|
      ensures OnePress(shorter[k], Front(stream), c)
    {
      PressShortened(segments, stream, c, k);
    }
    forall k | 0 < k < |shorter|
      ensures Parted(shorter[k - 1], shorter[k], c)
    {
      assert Parted(segments[k - 1], segments[k], c);
    }
  }

  lemma PressShortened(segments: seq<Segment>, stream: seq<Option<char>>, c: Settings, k: nat)
    requires Segmentation(segments, stream, c) && stream != []
    requires segments != [] && Last(segments).blocks != []
    requires BlocksOf(Shortened(segments)) == Sounding(Front(stream)) && k < |Shortened(segments)|
    ensures OnePress(Shortened(segments)[k], Front(stream), c)
  {
    SoundingBelow(Front(stream));
    var s := Shortened(segments)[k];
    assert OnePress(segments[k], stream, c);
    forall i | 0 <= i < |s.blocks|
      ensures s.blocks[i] != |stream| - 1
    {
      BlockIn(Shortened(segments), k, i);
    }
    OnePressOfFront(s, stream, c);
  }

  /** What the detector remembers of the presses so far: the last of them, while
      it may still go on. */
  ghost predicate Remembers(l: Listener, segments: seq<Segment>, n: nat, c: Settings) {
    if segments != [] && Last(segments).blocks != [] && n <= Last(Last(segments).blocks) + 1 + c.maxGapBlocks then
      var last := Last(segments);
      && l.candidate == Some(last.key) && l.blocks == |last.blocks| && l.gap == n - 1 - Last(last.blocks)
      && l.reported == (if |last.blocks| >= Max(1, c.minBlocks) then Some(last.key) else None)
    else
      l.candidate == None && l.blocks == 0 && l.reported == None && (segments != [] ==> l.gap > c.maxGapBlocks)
  }

  lemma SilenceHeard(before: Hearing, segments: seq<Segment>, n: nat, c: Settings)
    requires Remembers(before.listener, segments, n, c)
    requires segments != [] ==> Last(segments).blocks != [] && Last(Last(segments).blocks) < n
    ensures Remembers(Feed(before.listener, None, c).0, segments, n + 1, c)
  {
  }

  lemma KeyHeard(l: Listener, segments: seq<Segment>, stream: seq<Option<char>>, c: Settings)
    requires Segmentation(segments, stream, c) && stream != [] && Last(stream).Some?
    requires segments != [] && Last(segments).blocks != []
    requires Remembers(l, Shortened(segments), |stream| - 1, c)
    ensures var (after, digit) := Feed(l, Last(stream), c);
            && Remembers(after, segments, |stream|, c)
            && digit == if |Last(segments).blocks| == Max(1, c.minBlocks) then Some(Last(segments).key) else None
  {
    var last := segments[|segments| - 1];
    LastBlockEndsPress(segments, stream, c);
    assert OnePress(last, stream, c);
    if |last.blocks| > 1 {
      assert Last(Shortened(segments)).blocks == Front(last.blocks);
    } else if |segments| > 1 {
      assert Parted(segments[|segments| - 2], last, c);
    }
  }

  lemma LastingSnoc(segments: seq<Segment>, s: Segment, c: Settings)
    ensures Lasting(segments + [s], c)
            == Lasting(segments, c) + if |s.blocks| >= Max(1, c.minBlocks) then [s.key] else []
  {
    assert Front(segments + [s]) == segments;
  }

  lemma LastingGrows(segments: seq<Segment>, c: Settings)
    requires segments != [] && Last(segments).blocks != []
    ensures Lasting(segments, c)
            == Lasting(Shortened(segments), c)
               + if |Last(segments).blocks| == Max(1, c.minBlocks) then [Last(segments).key] else []
  {
    var last := Last(segments);
    LastingSnoc(Front(segments), last, c);
    assert segments == Front(segments) + [last];
    if |last.blocks| > 1 {
      LastingSnoc(Front(segments), Segment(last.key, Front(last.blocks)), c);
    }
  }

  /** For every stream of detections: the digits reported are the keys of the
      maximal presses that last long enough, in order, one each. */
  lemma {:induction false} DigitsAreLastingPresses(stream: seq<Option<char>>, segments: seq<Segment>, c: Settings)
    requires Segmentation(segments, stream, c)
    ensures Hear(stream, c).digits == Lasting(segments, c)
    ensures Remembers(Hear(stream, c).listener, segments, |stream|, c)
    decreases |stream|
  {
    if stream == [] {
      NoBlocksNoPresses(segments, stream, c);
    } else if Last(stream) == None {
      SilenceDropped(segments, stream, c);
      DigitsAreLastingPresses(Front(stream), segments, c);
      if segments != [] {
        assert OnePress(segments[|segments| - 1], Front(stream), c);
      }
      SilenceHeard(Hear(Front(stream), c), segments, |stream| - 1, c);
    } else {
      LastBlockEndsPress(segments, stream, c);
      BlockDropped(segments, stream, c);
      DigitsAreLastingPresses(Front(stream), Shortened(segments), c);
      KeyHeard(Hear(Front(stream), c).listener, segments, stream, c);
      LastingGrows(segments, c);
    }
  }

  lemma NoBlocksNoPresses(segments: seq<Segment>, stream: seq<Option<char>>, c: Settings)
    requires Segmentation(segments, stream, c) && stream == []
    ensures segments == []
  {
  }

  /** Every stream has its maximal presses: they are found from the left. */
  function Presses(stream: seq<Option<char>>, c: Settings): seq<Segment> {
    if stream == [] then []
    else
      var before, n := Presses(Front(stream), c), |stream| - 1;
      if Last(stream) == None then before
      else if before != [] && Last(before).blocks != [] && Last(before).key == Last(stream).value
              && n <= Last(Last(before).blocks) + 1 + c.maxGapBlocks then
        Front(before) + [Segment(Last(before).key, Last(before).blocks + [n])]
      else before + [Segment(Last(stream).value, [n])]
  }

  lemma {:induction false} PressesFound(stream: seq<Option<char>>, c: Settings)
    ensures Segmentation(Presses(stream, c), stream, c)
  {
    if stream != [] {
      PressesFound(Front(stream), c);
      PressesExtended(Presses(Front(stream), c), stream, c);
    }
  }

  lemma PressesExtended(before: seq<Segment>, stream: seq<Option<char>>, c: Settings)
    requires stream != [] && before == Presses(Front(stream), c) && Segmentation(before, Front(stream), c)
    ensures Segmentation(Presses(stream, c), stream, c)
  {
    forall k | 0 <= k < |before|
      ensures OnePress(before[k], Front(stream), c) && OnePress(before[k], stream, c)
    {
      OnePressOfFront(before[k], stream, c);
    }
    if Last(stream).Some? {
      var after, n := Presses(stream, c), |stream| - 1;
      if before != [] && after == Front(before) + [Segment(Last(before).key, Last(before).blocks + [n])] {
        PressGrows(before, stream, c);
      } else {
        PressBegins(before, stream, c);
      }
    }
  }

  lemma PressGrows(before: seq<Segment>, stream: seq<Option<char>>, c: Settings)
    requires stream != [] && Segmentation(before, Front(stream), c)
    requires forall k :: 0 <= k < |before| ==> OnePress(before[k], stream, c)
    requires before != [] && Last(before).blocks != [] && Last(stream) == Some(Last(before).key)
    requires |stream| - 1 <= Last(Last(before).blocks) + 1 + c.maxGapBlocks
    ensures Segmentation(Front(before) + [Segment(Last(before).key, Last(before).blocks + [|stream| - 1])], stream, c)
  {
    var last := before[|before| - 1];
    var grown := Segment(last.key, last.blocks + [|stream| - 1]);
    assert OnePress(last, Front(stream), c);
    OnePressGrows(last, |stream| - 1, stream, c);
    BlocksSnoc(Front(before), grown);
    BlocksSnoc(Front(before), last);
    assert before == Front(before) + [last];
    PartedStays(before, grown, c);
  }

  /** A press that goes on begins where it began. */
  lemma PartedStays(before: seq<Segment>, grown: Segment, c: Settings)
    requires before != [] && forall k :: 0 < k < |before| ==> Parted(before[k - 1], before[k], c)
    requires Last(before).blocks != [] && Last(before).blocks <= grown.blocks && grown.key == Last(before).key
    ensures var after := Front(before) + [grown];
            forall k :: 0 < k < |after| ==> Parted(after[k - 1], after[k], c)
  {
    var after := Front(before) + [grown];
    forall k | 0 < k < |after|
      ensures Parted(after[k - 1], after[k], c)
    {
      assert Parted(before[k - 1], before[k], c);
    }
  }

  lemma OnePressGrows(s: Segment, n: nat, stream: seq<Option<char>>, c: Settings)
    requires OnePress(s, stream, c) && n < |stream| && stream[n] == Some(s.key)
    requires Last(s.blocks) < n <= Last(s.blocks) + 1 + c.maxGapBlocks
    ensures OnePress(Segment(s.key, s.blocks + [n]), stream, c)
  {
  }

  lemma PressBegins(before: seq<Segment>, stream: seq<Option<char>>, c: Settings)
    requires stream != [] && Segmentation(before, Front(stream), c) && Last(stream).Some?
    requires forall k :: 0 <= k < |before| ==> OnePress(before[k], stream, c)
    requires before != [] ==>
      Last(before).blocks == [] || Last(before).key != Last(stream).value
      || Last(Last(before).blocks) + 1 + c.maxGapBlocks < |stream| - 1
    ensures Segmentation(before + [Segment(Last(stream).value, [|stream| - 1])], stream, c)
  {
    BlocksSnoc(before, Segment(Last(stream).value, [|stream| - 1]));
    if before != [] {
      assert OnePress(before[|before| - 1], stream, c);
    }
  }
}
