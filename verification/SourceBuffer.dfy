/** One participant's audio (bridge/mixer.py, SourceBuffer): a ring buffer that
    behaves as a bounded queue of samples.

    `Put` and `Take` say what a bounded queue does; the class is the ring, and
    its methods are tied to them. The lemmas are about every run of the queue. */
module SourceBuffers {
  import opened Prelude

  datatype Fifo = Fifo(contents: seq<int>, capacity: nat, underruns: nat, dropped: nat)

  function Tail(s: seq<int>, n: nat): seq<int> {
    if |s| <= n then s else s[|s| - n..]
  }

  function Silence(n: nat): seq<int> {
    seq(n, _ => 0)
  }

  /** Writing keeps the newest samples that fit and counts the others. */
  function Put(f: Fifo, pcm: seq<int>): Fifo {
    f.(contents := Tail(f.contents + pcm, f.capacity),
       dropped := f.dropped + Max(0, |f.contents| + |pcm| - f.capacity))
  }

  /** Reading takes the oldest samples and fills up with silence. */
  function Take(f: Fifo, count: nat): (Fifo, seq<int>) {
    var have := Min(count, |f.contents|);
    (f.(contents := f.contents[have..], underruns := f.underruns + if have < count then 1 else 0),
     f.contents[..have] + Silence(count - have))
  }

  /** What was held before: oldest sample i, or silence where there is none. */
  function Oldest(contents: seq<int>, i: nat): int {
    if i < |contents| then contents[i] else 0
  }

  /** A read hands out the oldest samples in order, with silence behind them, and keeps the
      others; it counts as an underrun when there were too few. */
  lemma TakeIsOldest(f: Fifo, count: nat)
    ensures var (after, out) := Take(f, count);
      && |out| == count && (forall i :: 0 <= i < count ==> out[i] == Oldest(f.contents, i))
      && |after.contents| == Max(0, |f.contents| - count)
      && (forall i :: 0 <= i < |after.contents| ==> after.contents[i] == f.contents[count + i])
      && after.underruns == f.underruns + (if |f.contents| < count then 1 else 0)
      && after.capacity == f.capacity && after.dropped == f.dropped
  {
  }

  /** A write keeps the newest samples that fit, and counts every other one as dropped. */
  lemma PutIsNewest(f: Fifo, pcm: seq<int>)
    requires |f.contents| <= f.capacity
    ensures var after := Put(f, pcm); var both := f.contents + pcm;
      && |after.contents| == Min(|both|, f.capacity)
      && (forall i :: 0 <= i < |after.contents| ==> after.contents[i] == both[|both| - |after.contents| + i])
      && after.dropped - f.dropped == |both| - |after.contents|
      && after.capacity == f.capacity && after.underruns == f.underruns
  {
  }

  /** Where the i-th sample of a ring lies: one subtraction is the remainder. */
  function Slot(i: nat, capacity: nat): int {
    if i < capacity then i else i - capacity
  }

  lemma SlotIsRemainder(i: nat, capacity: nat)
    requires 0 < capacity && i < 2 * capacity
    ensures i % capacity == Slot(i, capacity)
  {
    if i >= capacity {
      assert i == 1 * capacity + (i - capacity);
    }
  }

  /** The n samples of a ring from one place on, across its end. */
  function Ring(d: seq<int>, from: nat, n: nat): (s: seq<int>)
    requires from < |d| && n <= |d|
    ensures |s| == n
    ensures forall i {:trigger s[i]} :: 0 <= i < n ==> s[i] == d[Slot(from + i, |d|)]
  {
    seq(n, i requires 0 <= i < n => d[Slot(from + i, |d|)])
  }

  lemma RingDrop(d: seq<int>, from: nat, n: nat, k: nat)
    requires from < |d| && k <= n <= |d|
    ensures var later := (from + k) % |d|;
            Ring(d, later, n - k) == Ring(d, from, n)[k..]
  {
    SlotIsRemainder(from + k, |d|);
    var later := (from + k) % |d|;
    forall i | 0 <= i < n - k
      ensures Ring(d, later, n - k)[i] == Ring(d, from, n)[k..][i]
    {
      assert Ring(d, from, n)[k..][i] == Ring(d, from, n)[k + i];
    }
  }

  lemma RingTake(d: seq<int>, from: nat, n: nat, k: nat)
    requires from < |d| && k <= n <= |d|
    ensures var first := Min(k, |d| - from);
            d[from..from + first] + d[..k - first] == Ring(d, from, n)[..k]
  {
  }

  /** Reading k samples off a ring: what they are, where the rest begins, and what it is. */
  lemma RingRead(d: seq<int>, from: nat, n: nat, k: nat)
    requires from < |d| && 0 < k <= n <= |d|
    ensures var first := Min(k, |d| - from);
      && d[from..from + first] + (if first < k then d[..k - first] else []) == Ring(d, from, n)[..k]
      && 0 <= (from + k) % |d| < |d|
      && Ring(d, (from + k) % |d|, n - k) == Ring(d, from, n)[k..]
  {
    RingTake(d, from, n, k);
    RingDrop(d, from, n, k);
    SlotIsRemainder(from + k, |d|);
  }

  lemma RingWhole(d: seq<int>)
    requires d != []
    ensures Ring(d, 0, |d|) == d
  {
  }

  /** What `Put` keeps, by whether the new samples alone fill the queue. */
  lemma TailOfBoth(contents: seq<int>, pcm: seq<int>, capacity: nat)
    requires |contents| <= capacity
    ensures |pcm| >= capacity ==> Tail(contents + pcm, capacity) == pcm[|pcm| - capacity..]
    ensures |pcm| < capacity ==>
      Tail(contents + pcm, capacity) == contents[Max(0, |contents| + |pcm| - capacity)..] + pcm
  {
  }

  /** A ring after `pcm` was stored behind its n samples, in one or two copies. */
  lemma RingStored(d: seq<int>, d': seq<int>, from: nat, n: nat, pcm: seq<int>)
    requires from < |d| == |d'| && n + |pcm| <= |d| && 0 < |d|
    requires var at := (from + n) % |d|; var first := Min(|pcm|, |d| - at);
             && (forall i :: at <= i < at + first ==> d'[i] == pcm[i - at])
             && (forall i :: 0 <= i < |pcm| - first ==> d'[i] == pcm[first + i])
             && (forall i :: |pcm| - first <= i < |d| && !(at <= i < at + first) ==> d'[i] == d[i])
    ensures Ring(d', from, n + |pcm|) == Ring(d, from, n) + pcm
  {
    SlotIsRemainder(from + n, |d|);
    forall i | 0 <= i < n + |pcm|
      ensures Ring(d', from, n + |pcm|)[i] == (Ring(d, from, n) + pcm)[i]
    {
    }
  }

  class SourceBuffer {
    const data: array<int>
    const capacity: nat
    var readAt: nat
    var available: nat
    var underruns: nat
    var dropped: nat
    ghost var contents: seq<int>      // the samples held, oldest first

    ghost predicate Valid()
      reads this, data
    {
      && 0 < capacity == data.Length && readAt < capacity && available <= capacity
      && contents == Ring(data[..], readAt, available)
    }

    ghost function View(): Fifo
      reads this
    {
      Fifo(contents, capacity, underruns, dropped)
    }

    constructor (capacity: nat)
      requires capacity > 0
      ensures Valid() && fresh(data) && View() == Fifo([], capacity, 0, 0)
    {
      data := new int[capacity](_ => 0);
      this.capacity := capacity;
      readAt, available, underruns, dropped := 0, 0, 0, 0;
      contents := [];
    }

    method Write(pcm: seq<int>)
      requires Valid()
      modifies this, data
      ensures Valid() && View() == Put(old(View()), pcm)
    {
      TailOfBoth(contents, pcm, capacity);
      if |pcm| >= capacity {
        // more than the whole buffer: its tail is the most recent audio
        dropped := dropped + available + |pcm| - capacity;
        Replace(pcm[|pcm| - capacity..]);
        return;
      }
      var free := capacity - available;
      if |pcm| > free {
        var behind := |pcm| - free;
        RingDrop(data[..], readAt, available, behind);
        readAt := (readAt + behind) % capacity;
        available := available - behind;
        dropped := dropped + behind;
        contents := contents[behind..];
      }
      Append(pcm);
    }

    /** Everything held makes way for as much as the buffer holds. */
    method Replace(pcm: seq<int>)
      requires Valid() && |pcm| == capacity
      modifies this`readAt, this`available, this`contents, data
      ensures Valid() && contents == pcm
    {
      forall i | 0 <= i < capacity {
        data[i] := pcm[i];
      }
      readAt := 0;
      available := capacity;
      contents := pcm;
      assert data[..] == pcm;
      RingWhole(pcm);
    }

    /** The copy into the ring, once there is room: in one piece or in two. */
    method Append(pcm: seq<int>)
      requires Valid() && available + |pcm| <= capacity
      modifies this`available, this`contents, data
      ensures Valid() && contents == old(contents) + pcm
    {
      ghost var d := data[..];
      SlotIsRemainder(readAt + available, capacity);
      var at := (readAt + available) % capacity;
      var first := Min(|pcm|, capacity - at);
      forall i | 0 <= i < first {
        data[at + i] := pcm[i];
      }
      forall i | 0 <= i < |pcm| - first {
        data[i] := pcm[first + i];
      }
      RingStored(d, data[..], readAt, available, pcm);
      available := available + |pcm|;
      contents := contents + pcm;
    }

    /** The oldest samples, as many as there are of the `have` asked for, in one piece or two. */
    method Fetch(have: nat) returns (out: seq<int>)
      requires Valid() && have <= available
      modifies this`readAt, this`available, this`contents
      ensures Valid() && out == old(contents)[..have] && contents == old(contents)[have..]
    {
      out := [];
      if have > 0 {
        var first := Min(have, capacity - readAt);
        out := data[readAt..readAt + first];
        if first < have {
          out := out + data[..have - first];
        }
        RingRead(data[..], readAt, available, have);
        readAt := (readAt + have) % capacity;
        available := available - have;
        contents := contents[have..];
      }
    }

    /** The oldest samples, with silence behind them if they run out. */
    method Read(count: nat) returns (out: seq<int>)
      requires Valid()
      modifies this
      ensures Valid() && (View(), out) == Take(old(View()), count)
      ensures |out| == count && forall i :: 0 <= i < count ==> out[i] == Oldest(old(contents), i)
    {
      ghost var before := View();
      var have := Min(count, available);
      out := Fetch(have);
      out := out + Silence(count - have);
      if have < count {
        underruns := underruns + 1;
      }
      TakeIsOldest(before, count);
    }
  }

  // ---------------------------------------------------------------- runs

  datatype Access = Writes(pcm: seq<int>) | Reads(count: nat)

  /** A queue with everything ever written to it and everything its reads have handed out,
      without the silence they were filled up with, which was never in it. */
  datatype Ledger = Ledger(fifo: Fifo, written: seq<int>, taken: seq<int>)

  function Accessed(l: Ledger, a: Access): Ledger {
    match a
    case Writes(pcm) => Ledger(Put(l.fifo, pcm), l.written + pcm, l.taken)
    case Reads(count) =>
      var (fifo, out) := Take(l.fifo, count);
      Ledger(fifo, l.written, l.taken + out[..Min(count, |l.fifo.contents|)])
  }

  function Run(capacity: nat, accesses: seq<Access>): Ledger {
    if accesses == [] then Ledger(Fifo([], capacity, 0, 0), [], [])
    else Accessed(Run(capacity, Front(accesses)), Last(accesses))
  }

  ghost predicate Accounted(l: Ledger, capacity: nat) {
    && |l.fifo.contents| <= capacity == l.fifo.capacity
    && |l.written| == |l.taken| + |l.fifo.contents| + l.fifo.dropped
    && l.fifo.contents == l.written[|l.written| - |l.fifo.contents|..]
    && (l.fifo.dropped == 0 ==> l.written == l.taken + l.fifo.contents)
  }

  lemma NewestStays(written: seq<int>, contents: seq<int>, pcm: seq<int>, capacity: nat)
    requires |contents| <= |written| && contents == written[|written| - |contents|..]
    ensures var kept, all := Tail(contents + pcm, capacity), written + pcm;
            |kept| <= |all| && kept == all[|all| - |kept|..]
  {
    var both, all := contents + pcm, written + pcm;
    assert both == all[|written| - |contents|..];
  }

  lemma WriteAccounted(l: Ledger, capacity: nat, pcm: seq<int>)
    requires Accounted(l, capacity)
    ensures Accounted(Accessed(l, Writes(pcm)), capacity)
  {
    NewestStays(l.written, l.fifo.contents, pcm, capacity);
    Regrouped(l.taken, l.fifo.contents, pcm);
  }

  lemma Regrouped(a: seq<int>, b: seq<int>, c: seq<int>)
    ensures a + b + c == a + (b + c)
  {
  }

  lemma OldestFirst(contents: seq<int>, have: nat, count: nat)
    requires have == Min(count, |contents|)
    ensures (contents[..have] + Silence(count - have))[..have] == contents[..have]
    ensures contents[..have] + contents[have..] == contents
  {
  }

  lemma ReadAccounted(l: Ledger, capacity: nat, count: nat)
    requires Accounted(l, capacity)
    ensures Accounted(Accessed(l, Reads(count)), capacity)
  {
    var contents := l.fifo.contents;
    var have := Min(count, |contents|);
    OldestFirst(contents, have, count);
    assert contents[have..] == l.written[|l.written| - (|contents| - have)..];
    Regrouped(l.taken, contents[..have], contents[have..]);
  }

  /** For every run: what is held is the newest of what was written and never more
      than the capacity, every sample written was taken, is held or was dropped,
      and if none was dropped they come out as they went in. */
  lemma {:induction false} SamplesAccounted(capacity: nat, accesses: seq<Access>)
    ensures Accounted(Run(capacity, accesses), capacity)
  {
    if accesses != [] {
      SamplesAccounted(capacity, Front(accesses));
      match Last(accesses)
      case Writes(pcm) => WriteAccounted(Run(capacity, Front(accesses)), capacity, pcm);
      case Reads(count) => ReadAccounted(Run(capacity, Front(accesses)), capacity, count);
    }
  }
}
