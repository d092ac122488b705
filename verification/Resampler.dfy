/** Resampling a stream that arrives in pieces (bridge/media.py, StreamResampler).

    Arithmetic is exact: a position is counted in units of 1/outRate of an input
    sample, so that one output sample further on is inRate units further on. The
    truncation of every sample to an integer is the source's own. */
module Resampler {
  import opened Prelude

  /** Division that drops the fraction, as converting to int16 does. */
  function Truncate(n: int, d: nat): int
    requires d > 0
  {
    if n >= 0 then n / d else -((-n) / d)
  }

  /** The value at `pos` units into `s`: on the line between the two samples
      around it. */
  function ValueAt(s: seq<int>, pos: nat, outRate: nat): int
    requires outRate > 0 && s != [] && pos <= (|s| - 1) * outRate
  {
    PositionInside(|s|, pos, outRate);
    var i, fraction := pos / outRate, pos % outRate;
    if fraction == 0 then s[i]
    else Truncate(s[i] * (outRate - fraction) + s[i + 1] * fraction, outRate)
  }

  lemma PositionInside(n: nat, pos: nat, outRate: nat)
    requires outRate > 0 && n > 0 && pos <= (n - 1) * outRate
    ensures 0 <= pos / outRate <= n - 1
    ensures pos % outRate != 0 ==> pos / outRate + 1 <= n - 1
  {
    var q, r := pos / outRate, pos % outRate;
    assert pos == q * outRate + r;
    if q >= n - 1 {
      MulMonotone(n - 1, q, outRate);
      if q > n - 1 {
        MulMonotone(n, q, outRate);
      }
    }
  }

  /** A value on the line between two samples, truncated, is no further out than
      the samples are. */
  lemma LineInRange(a: int, b: int, fraction: nat, outRate: nat, lo: int, hi: int)
    requires 0 <= fraction < outRate && lo <= a <= hi && lo <= b <= hi
    ensures lo <= Truncate(a * (outRate - fraction) + b * fraction, outRate) <= hi
  {
    var n := a * (outRate - fraction) + b * fraction;
    MulMonotone(lo, a, outRate - fraction);
    MulMonotone(a, hi, outRate - fraction);
    MulMonotone(lo, b, fraction);
    MulMonotone(b, hi, fraction);
    assert lo * (outRate - fraction) + lo * fraction == lo * outRate;
    assert hi * (outRate - fraction) + hi * fraction == hi * outRate;
    if n >= 0 {
      QuotientBounds(n, outRate, lo, hi);
    } else {
      QuotientBounds(-n, outRate, -hi, -lo);
    }
  }

  lemma QuotientBounds(n: nat, d: nat, lo: int, hi: int)
    requires d > 0 && lo * d <= n <= hi * d
    ensures lo <= n / d <= hi
  {
    var q := n / d;
    CountPositive(n, d);
    if q < lo {
      MulMonotone(q + 1, lo, d);
    }
    if q > hi {
      MulMonotone(hi + 1, q, d);
    }
  }

  /** How many output samples n input samples are worth. */
  function SampleCount(n: nat, inRate: nat, outRate: nat): (count: nat)
    requires inRate > 0 && outRate > 0
  {
    if n == 0 then 0 else CountPositive((n - 1) * outRate, inRate); (n - 1) * outRate / inRate + 1
  }

  lemma CountPositive(a: int, b: int)
    requires b > 0
    ensures a >= 0 ==> a / b >= 0
    ensures a / b * b <= a < a / b * b + b
  {
  }

  /** The whole stream resampled in one piece: its value at 0, in/out, 2 in/out,
      ... for as long as there is input to read it off. */
  function Resampled(s: seq<int>, inRate: nat, outRate: nat): (out: seq<int>)
    requires inRate > 0 && outRate > 0
    ensures |out| == SampleCount(|s|, inRate, outRate)
  {
    seq(SampleCount(|s|, inRate, outRate), k requires 0 <= k < SampleCount(|s|, inRate, outRate) =>
      KthInside(|s|, k, inRate, outRate); ValueAt(s, k * inRate, outRate))
  }

  lemma KthInside(n: nat, k: nat, inRate: nat, outRate: nat)
    requires inRate > 0 && outRate > 0
    requires k < SampleCount(n, inRate, outRate)
    ensures n > 0 && 0 <= k * inRate <= (n - 1) * outRate
  {
    var q := (n - 1) * outRate / inRate;
    CountPositive((n - 1) * outRate, inRate);
    assert k * inRate <= q * inRate;
  }

  lemma KthOutside(n: nat, k: nat, inRate: nat, outRate: nat)
    requires inRate > 0 && outRate > 0 && n > 0
    requires k * inRate <= (n - 1) * outRate
    ensures k < SampleCount(n, inRate, outRate)
  {
    CountPositive((n - 1) * outRate, inRate);
    var q := (n - 1) * outRate / inRate;
    if k >= q + 1 {
      MulMonotone(q + 1, k, inRate);
    }
  }

  lemma DivShift(a: int, b: int, c: int)
    requires b > 0
    ensures (a - c * b) / b == a / b - c
    ensures (a - c * b) % b == a % b
  {
    var q, r := a / b, a % b;
    assert a - c * b == (q - c) * b + r;
    DivUnique(a - c * b, b, q - c, r);
  }

  lemma DivUnique(a: int, b: int, q: int, r: int)
    requires b > 0 && 0 <= r < b && a == q * b + r
    ensures a / b == q && a % b == r
  {
    var q', r' := a / b, a % b;
    assert (q' - q) * b == r - r';
    if q' > q {
      MulMonotone(1, q' - q, b);
    } else if q' < q {
      MulMonotone(q' - q, -1, b);
    }
  }

  lemma CountMonotone(m: nat, n: nat, inRate: nat, outRate: nat)
    requires inRate > 0 && outRate > 0 && m <= n
    ensures SampleCount(m, inRate, outRate) <= SampleCount(n, inRate, outRate)
  {
    if 0 < m {
      var count := SampleCount(m, inRate, outRate);
      KthInside(m, count - 1, inRate, outRate);
      MulMonotone(m - 1, n - 1, outRate);
      KthOutside(n, count - 1, inRate, outRate);
    }
  }

  /** Reading off a tail of the stream is reading off the stream, further on. */
  lemma ValueInTail(s: seq<int>, from: nat, pos: nat, outRate: nat)
    requires outRate > 0 && from < |s| && pos <= (|s| - 1 - from) * outRate
    ensures pos + from * outRate <= (|s| - 1) * outRate
    ensures ValueAt(s[from..], pos, outRate) == ValueAt(s, pos + from * outRate, outRate)
  {
    DivShift(pos + from * outRate, outRate, from);
    assert (|s| - 1 - from) * outRate == (|s| - 1) * outRate - from * outRate;
    PositionInside(|s[from..]|, pos, outRate);
  }

  /** The k-th new output sample after `done` of them, read off the tail that
      `process` still knows, is the (done + k)-th of the whole stream. */
  lemma NextValue(s: seq<int>, from: nat, done: nat, k: nat, inRate: nat, outRate: nat)
    requires inRate > 0 && outRate > 0 && from < |s|
    requires done * inRate >= from * outRate
    requires done + k < SampleCount(|s|, inRate, outRate)
    ensures var pos := done * inRate - from * outRate + k * inRate;
            && 0 <= pos <= (|s| - 1 - from) * outRate
            && ValueAt(s[from..], pos, outRate) == Resampled(s, inRate, outRate)[done + k]
  {
    KthInside(|s|, done + k, inRate, outRate);
    assert (done + k) * inRate == done * inRate + k * inRate;
    assert (|s| - 1 - from) * outRate == (|s| - 1) * outRate - from * outRate;
    ValueInTail(s, from, done * inRate - from * outRate + k * inRate, outRate);
  }

  /** How many new samples `process` finds: those the stream has gained. */
  lemma CountAhead(n: nat, from: nat, done: nat, inRate: nat, outRate: nat)
    requires inRate > 0 && outRate > 0 && from < n
    ensures ((n - 1 - from) * outRate - (done * inRate - from * outRate)) / inRate + 1
            == SampleCount(n, inRate, outRate) - done
  {
    assert (n - 1 - from) * outRate - (done * inRate - from * outRate) == (n - 1) * outRate - done * inRate;
    DivShift((n - 1) * outRate, inRate, done);
  }

  /** What is out already does not change when more comes in. */
  lemma ResampledPrefix(s: seq<int>, pcm: seq<int>, inRate: nat, outRate: nat)
    requires inRate > 0 && outRate > 0
    ensures Resampled(s, inRate, outRate) <= Resampled(s + pcm, inRate, outRate)
  {
    CountMonotone(|s|, |s + pcm|, inRate, outRate);
    forall k | 0 <= k < SampleCount(|s|, inRate, outRate)
      ensures Resampled(s, inRate, outRate)[k] == Resampled(s + pcm, inRate, outRate)[k]
    {
      KthInside(|s|, k, inRate, outRate);
      PositionInside(|s|, k * inRate, outRate);
    }
  }

  lemma SameRate(s: seq<int>, rate: nat)
    requires rate > 0
    ensures Resampled(s, rate, rate) == s
  {
    if s != [] {
      DivUnique((|s| - 1) * rate, rate, |s| - 1, 0);
    }
    forall k | 0 <= k < |s|
      ensures Resampled(s, rate, rate)[k] == s[k]
    {
      DivUnique(k * rate, rate, k, 0);
    }
  }

  /** Where the next output sample lies, counted from the last input sample. */
  function Ahead(n: nat, inRate: nat, outRate: nat): int
    requires inRate > 0 && outRate > 0
  {
    if n == 0 then 0 else SampleCount(n, inRate, outRate) * inRate - (n - 1) * outRate
  }

  /** The stream never drifts: however long it gets, the output ends less than
      one output sample past the last input sample. */
  lemma NoDrift(n: nat, inRate: nat, outRate: nat)
    requires inRate > 0 && outRate > 0 && n > 0
    ensures 0 < SampleCount(n, inRate, outRate) * inRate - (n - 1) * outRate <= inRate
  {
    CountPositive((n - 1) * outRate, inRate);
  }

  lemma NothingToResample(heard: seq<int>, pcm: seq<int>, inRate: nat, outRate: nat)
    requires inRate > 0 && outRate > 0 && (inRate == outRate || pcm == [])
    ensures Resampled(heard + pcm, inRate, outRate) == Resampled(heard, inRate, outRate) + pcm
  {
    if inRate == outRate {
      SameRate(heard, inRate);
      SameRate(heard + pcm, inRate);
    } else {
      assert heard + pcm == heard;
    }
  }

  /** The samples `process` works on: the last one of before, and the new piece. */
  ghost predicate Known(heard: seq<int>, pcm: seq<int>, known: seq<int>) {
    known == (if heard == [] then [] else [Last(heard)]) + pcm
  }

  /** How many samples a piece yields, and where it leaves the position. */
  lemma PieceCount(heard: seq<int>, pcm: seq<int>, known: seq<int>, inRate: nat, outRate: nat)
    requires inRate > 0 && outRate > 0 && pcm != [] && Known(heard, pcm, known)
    ensures var position, last := Ahead(|heard|, inRate, outRate), |known| - 1;
            var count := (last * outRate - position) / inRate + 1;
            && count == SampleCount(|heard + pcm|, inRate, outRate) - SampleCount(|heard|, inRate, outRate)
            && 0 <= count
            && (count == 0 ==> position - last * outRate == Ahead(|heard + pcm|, inRate, outRate))
            && position + (count - 1) * inRate + inRate - last * outRate == Ahead(|heard + pcm|, inRate, outRate)
  {
    var from := if heard == [] then 0 else |heard| - 1;
    var done := SampleCount(|heard|, inRate, outRate);
    var total := SampleCount(|heard + pcm|, inRate, outRate);
    CountAhead(|heard + pcm|, from, done, inRate, outRate);
    CountMonotone(|heard|, |heard + pcm|, inRate, outRate);
    assert (total - done - 1) * inRate + inRate == total * inRate - done * inRate;
    assert (|known| - 1) * outRate == (|heard + pcm| - 1) * outRate - from * outRate;
  }

  /** Each value read off what is known is the stream's own next sample. */
  lemma PieceValue(heard: seq<int>, pcm: seq<int>, known: seq<int>, k: nat, inRate: nat, outRate: nat)
    requires inRate > 0 && outRate > 0 && pcm != [] && Known(heard, pcm, known)
    requires SampleCount(|heard|, inRate, outRate) + k < SampleCount(|heard + pcm|, inRate, outRate)
    ensures var pos := Ahead(|heard|, inRate, outRate) + k * inRate;
            && 0 <= pos <= (|known| - 1) * outRate
            && ValueAt(known, pos, outRate)
               == Resampled(heard + pcm, inRate, outRate)[SampleCount(|heard|, inRate, outRate) + k]
  {
    var from := if heard == [] then 0 else |heard| - 1;
    assert known == (heard + pcm)[from..];
    if heard != [] {
      NoDrift(|heard|, inRate, outRate);
    }
    NextValue(heard + pcm, from, SampleCount(|heard|, inRate, outRate), k, inRate, outRate);
  }

  ghost predicate Readable(known: seq<int>, position: int, count: nat, inRate: nat, outRate: nat) {
    known != [] && forall k :: 0 <= k < count ==> 0 <= position + k * inRate <= (|known| - 1) * outRate
  }

  /** `count` values, read off at `position` and every inRate units after it. */
  function Values(known: seq<int>, position: int, count: nat, inRate: nat, outRate: nat): (out: seq<int>)
    requires outRate > 0 && Readable(known, position, count, inRate, outRate)
    ensures |out| == count
  {
    seq(count, k requires 0 <= k < count => ValueAt(known, position + k * inRate, outRate))
  }

  /** A piece's values continue the one-piece resampling of what came before. */
  lemma PieceValues(heard: seq<int>, pcm: seq<int>, known: seq<int>, inRate: nat, outRate: nat)
    requires inRate > 0 && outRate > 0 && pcm != [] && Known(heard, pcm, known)
    ensures var done, total := SampleCount(|heard|, inRate, outRate), SampleCount(|heard + pcm|, inRate, outRate);
            && done <= total
            && Readable(known, Ahead(|heard|, inRate, outRate), total - done, inRate, outRate)
            && Resampled(heard + pcm, inRate, outRate)
               == Resampled(heard, inRate, outRate)
                  + Values(known, Ahead(|heard|, inRate, outRate), total - done, inRate, outRate)
  {
    var done, total := SampleCount(|heard|, inRate, outRate), SampleCount(|heard + pcm|, inRate, outRate);
    CountMonotone(|heard|, |heard + pcm|, inRate, outRate);
    ResampledPrefix(heard, pcm, inRate, outRate);
    forall k | 0 <= k < total - done
      ensures var pos := Ahead(|heard|, inRate, outRate) + k * inRate;
              && 0 <= pos <= (|known| - 1) * outRate
              && ValueAt(known, pos, outRate) == Resampled(heard + pcm, inRate, outRate)[done + k]
    {
      PieceValue(heard, pcm, known, k, inRate, outRate);
    }
  }

  class StreamResampler {
    const inRate: nat
    const outRate: nat
    var previous: Option<int>
    var position: int
    ghost var heard: seq<int>      // every sample given to this resampler

    ghost predicate Valid()
      reads this
    {
      && inRate > 0 && outRate > 0
      && (inRate != outRate ==>
            && previous == (if heard == [] then None else Some(Last(heard)))
            && position == Ahead(|heard|, inRate, outRate))
    }

    constructor (inRate: nat, outRate: nat)
      requires inRate > 0 && outRate > 0
      ensures Valid() && heard == [] && this.inRate == inRate && this.outRate == outRate
    {
      this.inRate, this.outRate := inRate, outRate;
      previous, position, heard := None, 0, [];
    }

    /** Whatever came before, the output so far stays the one-piece resampling of
        the input so far. */
    method Process(pcm: seq<int>) returns (out: seq<int>)
      requires Valid()
      modifies this
      ensures Valid() && heard == old(heard) + pcm
      ensures Resampled(heard, inRate, outRate) == Resampled(old(heard), inRate, outRate) + out
    {
      if inRate == outRate || |pcm| == 0 {
        NothingToResample(heard, pcm, inRate, outRate);
        heard := heard + pcm;
        return pcm;
      }
      var known := if previous == None then pcm else [previous.value] + pcm;
      var last := |known| - 1;
      var count := (last * outRate - position) / inRate + 1;
      PieceCount(heard, pcm, known, inRate, outRate);
      PieceValues(heard, pcm, known, inRate, outRate);
      previous := Some(pcm[|pcm| - 1]);
      heard := heard + pcm;
      if count <= 0 {
        position := position - last * outRate;
        assert Resampled(heard, inRate, outRate) == Resampled(old(heard), inRate, outRate) + [];
        return [];
      }
      out := Values(known, position, count, inRate, outRate);
      position := position + (count - 1) * inRate + inRate - last * outRate;
    }
  }

  /** Interpolation adds no level: the output stays within the range of the input,
      so converting it to int16 never wraps. */
  lemma ResampledInRange(s: seq<int>, inRate: nat, outRate: nat, lo: int, hi: int, k: nat)
    requires inRate > 0 && outRate > 0 && (forall i :: 0 <= i < |s| ==> lo <= s[i] <= hi)
    requires k < SampleCount(|s|, inRate, outRate)
    ensures lo <= Resampled(s, inRate, outRate)[k] <= hi
  {
    KthInside(|s|, k, inRate, outRate);
    var pos := k * inRate;
    PositionInside(|s|, pos, outRate);
    var i, fraction := pos / outRate, pos % outRate;
    if fraction != 0 {
      LineInRange(s[i], s[i + 1], fraction, outRate, lo, hi);
    }
  }

  /** `out` is exact/d without its fraction: never further from zero, and less than 1
      nearer to it. */
  predicate Drops(out: int, exact: int, d: nat) {
    && (exact >= 0 ==> 0 <= out * d <= exact < out * d + d)
    && (exact <= 0 ==> out * d - d < exact <= out * d <= 0)
  }

  lemma TruncateDrops(exact: int, d: nat)
    requires d > 0
    ensures Drops(Truncate(exact, d), exact, d)
  {
    if exact >= 0 {
      CountPositive(exact, d);
    } else {
      CountPositive(-exact, d);
      assert -(Truncate(exact, d)) * d == -(Truncate(exact, d) * d);
    }
  }

  /** Every output sample is on the line between two input samples, in proportion to where
      it falls between them, with the fraction dropped: the k-th falls r/outRate behind
      the i-th, where i outRate + r = k inRate. */
  lemma ResampledOnLine(s: seq<int>, inRate: nat, outRate: nat, k: nat)
    requires inRate > 0 && outRate > 0 && k < SampleCount(|s|, inRate, outRate)
    ensures var i, r := k * inRate / outRate, k * inRate % outRate;
      && 0 <= i < |s| && (r > 0 ==> i + 1 < |s|)
      && (r == 0 ==> Resampled(s, inRate, outRate)[k] == s[i])
      && (r > 0 ==> Drops(Resampled(s, inRate, outRate)[k], s[i] * outRate + (s[i + 1] - s[i]) * r, outRate))
  {
    KthInside(|s|, k, inRate, outRate);
    PositionInside(|s|, k * inRate, outRate);
    var i, r := k * inRate / outRate, k * inRate % outRate;
    if r > 0 {
      var exact := s[i] * (outRate - r) + s[i + 1] * r;
      assert exact == s[i] * outRate + (s[i + 1] - s[i]) * r;
      TruncateDrops(exact, outRate);
    }
  }

  /** A stream that lies on a line comes out on that line. */
  lemma LineStaysLine(s: seq<int>, inRate: nat, outRate: nat, a: int, slope: int, k: nat)
    requires inRate > 0 && outRate > 0 && k < SampleCount(|s|, inRate, outRate)
    requires forall j :: 0 <= j < |s| ==> s[j] == a + slope * j
    ensures Drops(Resampled(s, inRate, outRate)[k], a * outRate + slope * (k * inRate), outRate)
  {
    ResampledOnLine(s, inRate, outRate, k);
    var pos := k * inRate;
    LineAt(Resampled(s, inRate, outRate)[k], a, slope, pos / outRate, pos % outRate, outRate, pos);
  }

  lemma LineAt(out: int, a: int, slope: int, i: nat, r: nat, d: nat, at: nat)
    requires d > 0 && at == i * d + r
    requires r == 0 ==> out == a + slope * i
    requires r > 0 ==> Drops(out, (a + slope * i) * d + (a + slope * (i + 1) - (a + slope * i)) * r, d)
    ensures Drops(out, a * d + slope * at, d)
  {
    OnLine(a, slope, i, r, d, at);
    if r == 0 {
      DropsNothing(out, d);
    }
  }

  lemma OnLine(a: int, slope: int, i: int, r: int, d: int, at: int)
    requires at == i * d + r
    ensures (a + slope * i) * d + (a + slope * (i + 1) - (a + slope * i)) * r == a * d + slope * at
  {
    assert slope * at == slope * (i * d) + slope * r;
    assert slope * i * d == slope * (i * d);
    assert (a + slope * i) * d == a * d + slope * i * d;
    assert a + slope * (i + 1) - (a + slope * i) == slope;
  }

  lemma DropsNothing(n: int, d: nat)
    requires d > 0
    ensures Drops(n, n * d, d)
  {
    if n >= 0 {
      MulMonotone(0, n, d);
    } else {
      MulMonotone(n, 0, d);
    }
  }

  /** A resampler that was given these pieces, and put out those. */
  ghost predicate Resampling(r: StreamResampler, pieces: seq<seq<int>>, outs: seq<seq<int>>)
    reads r
  {
    r.Valid() && r.heard == Flatten(pieces) && Flatten(outs) == Resampled(r.heard, r.inRate, r.outRate)
  }

  method ResamplePiece(r: StreamResampler, piece: seq<int>, ghost pieces: seq<seq<int>>, outs: seq<seq<int>>)
    returns (more: seq<seq<int>>)
    requires Resampling(r, pieces, outs)
    modifies r
    ensures Resampling(r, pieces + [piece], more) && |more| == |outs| + 1
  {
    var out := r.Process(piece);
    FlattenSnoc(outs, out);
    FlattenSnoc(pieces, piece);
    more := outs + [out];
  }

  /** A stream resampled piece by piece, cut anywhere and as often as it likes,
      empty pieces included, is the stream resampled whole. */
  method ResamplePieces(pieces: seq<seq<int>>, inRate: nat, outRate: nat) returns (outs: seq<seq<int>>)
    requires inRate > 0 && outRate > 0
    ensures |outs| == |pieces|
    ensures Flatten(outs) == Resampled(Flatten(pieces), inRate, outRate)
  {
    var resampler := new StreamResampler(inRate, outRate);
    outs := [];
    for n := 0 to |pieces|
      invariant resampler.inRate == inRate && resampler.outRate == outRate
      invariant |outs| == n && Resampling(resampler, pieces[..n], outs)
    {
      assert pieces[..n + 1] == pieces[..n] + [pieces[n]];
      outs := ResamplePiece(resampler, pieces[n], pieces[..n], outs);
    }
    assert pieces[..|pieces|] == pieces;
  }
}
