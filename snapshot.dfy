/**
 * The snapshot assembler: the four response messages the server sends, each a
 * 4-byte little-endian tag followed by a payload copied from a hardware window,
 * and the unwrapping of the circular scope buffer.
 */
module Snapshot {
  import opened Bytes
  import opened Registers

  function TimerTag(ch: Chan): (t: nat) { ch }
  function HistogramTag(ch: Chan): (t: nat) { 2 + ch }
  const StatusTag: nat := 4
  const ScopeTag: nat := 5

  /** Offset of channel ch's 64-bit elapsed-timer value in the status page. */
  function TimerStatusOffset(ch: Chan): (off: nat) { if ch == 0 then 12 else 20 }
  /** Offset of the 32-bit scope status word (write pointer in bits 1 and up) in the status page. */
  const ScopeStatusOffset: nat := 44

  /** The slot at which a scope read is split when it wraps: 0x7FFFFF, one below the buffer size. */
  const ScopeSplit: nat := 0x7F_FFFF

  /** A response: the tag as a little-endian u32, then the payload. */
  function Frame(tag: nat, payload: seq<byte>): (m: seq<byte>)
    requires tag < 0x1_0000_0000
    ensures |m| == 4 + |payload|
    ensures Unle(m[..4]) == tag && m[4..] == payload
  {
    Pow256Widths();
    UnleLe(tag, 4);
    assert (Le(tag, 4) + payload)[..4] == Le(tag, 4);
    Le(tag, 4) + payload
  }

  /** Response to "read timer" on channel ch: 12 bytes, the timer value copied from the status page. */
  function TimerReply(ch: Chan, sts: seq<byte>): (m: seq<byte>)
    requires |sts| == StsBytes
    ensures |m| == 12 && Unle(m[..4]) == ch
    ensures m[4..] == sts[TimerStatusOffset(ch)..TimerStatusOffset(ch) + 8]
  {
    Frame(TimerTag(ch), sts[TimerStatusOffset(ch)..TimerStatusOffset(ch) + 8])
  }

  /** Response to "read histogram" on channel ch: all 16384 bins of that channel's histogram window. */
  function HistogramReply(ch: Chan, hist: seq<byte>): (m: seq<byte>)
    requires |hist| == HistBytes
    ensures |m| == 4 + 4 * HistBins && Unle(m[..4]) == 2 + ch && m[4..] == hist
  {
    Frame(HistogramTag(ch), hist)
  }

  /** Response to "read scope status": 8 bytes, the status word copied from the status page. */
  function StatusReply(sts: seq<byte>): (m: seq<byte>)
    requires |sts| == StsBytes
    ensures |m| == 8 && Unle(m[..4]) == StatusTag
    ensures m[4..] == sts[ScopeStatusOffset..ScopeStatusOffset + 4]
  {
    Frame(StatusTag, sts[ScopeStatusOffset..ScopeStatusOffset + 4])
  }

  /** Number of samples before the trigger: the stored count plus one, in u32 arithmetic. */
  function ScopePre(cfg: seq<byte>): (pre: nat)
    requires |cfg| == CfgBytes
    ensures pre < 0x1_0000_0000
  {
    Pow256Widths();
    Wrap(Load(cfg, PreCount) + 1, 4)
  }

  /** Total number of samples of a scope read: the stored count plus one, in u32 arithmetic. */
  function ScopeTotal(cfg: seq<byte>): (tot: nat)
    requires |cfg| == CfgBytes
    ensures tot < 0x1_0000_0000
  {
    Pow256Widths();
    Wrap(Load(cfg, TotalCount) + 1, 4)
  }

  /** The scope status word, a u32 read from the status page. */
  function ScopeStatus(sts: seq<byte>): (raw: nat)
    requires |sts| == StsBytes
    ensures raw < 0x1_0000_0000
  {
    Pow256Widths();
    Unle(sts[ScopeStatusOffset..ScopeStatusOffset + 4])
  }

  /**
   * First slot of a scope read, computed on u32 values: the status word shifted right by one,
   * minus the pre-trigger count, masked to its low 23 bits.
   * The shift is a division by two, the u32 subtraction wraps modulo 2^32 and the mask
   * keeps the low 23 bits.
   */
  function ScopeStart(raw: nat, pre: nat): (start: nat)
    requires raw < 0x1_0000_0000 && pre < 0x1_0000_0000
    ensures start < ScopeSlots
  {
    Pow256Widths();
    Wrap(raw / 2 - pre, 4) % ScopeSlots
  }

  /** The start slot is the write pointer minus the pre-trigger count, modulo the buffer size. */
  lemma ScopeStartIsModular(raw: nat, pre: nat)
    requires raw < 0x1_0000_0000 && pre < 0x1_0000_0000
    ensures ScopeStart(raw, pre) == (raw / 2 - pre) % ScopeSlots
  {
    Pow256Widths();
  }

  /** Sample k (4 bytes) of a byte sequence. */
  function Sample(bs: seq<byte>, k: nat): (sample: seq<byte>)
    requires 4 * k + 4 <= |bs|
    ensures |sample| == 4
  {
    bs[4 * k..4 * k + 4]
  }

  /**
   * The scope payload: tot samples starting at slot start. When start + tot is at most
   * 0x7FFFFF they are one contiguous run; otherwise the run from start up to (not
   * including) slot 0x7FFFFF is followed by the rest taken from slot 0.
   */
  function ScopeWindow(region: seq<byte>, start: nat, tot: nat): (w: seq<byte>)
    requires |region| == ScopeBytes && start < ScopeSlots && tot <= ScopeSlots
    ensures |w| == 4 * tot
  {
    if start + tot <= ScopeSplit then
      region[4 * start..4 * (start + tot)]
    else
      region[4 * start..4 * ScopeSplit] + region[..4 * (start + tot - ScopeSplit)]
  }

  /** The buffer slot from which sample k of a read starting at start is taken. */
  function Slot(start: nat, k: nat): (slot: nat)
  {
    if start + k < ScopeSplit then start + k else start + k - ScopeSplit
  }

  /** Every sample of the payload is the whole sample held at its slot, in read order. */
  lemma ScopeWindowSamples(region: seq<byte>, start: nat, tot: nat, k: nat)
    requires |region| == ScopeBytes && start < ScopeSlots && tot <= ScopeSlots && k < tot
    ensures Slot(start, k) < ScopeSlots
    ensures Sample(ScopeWindow(region, start, tot), k) == Sample(region, Slot(start, k))
  {
    var w := ScopeWindow(region, start, tot);
    var s := Slot(start, k);
    forall j | 0 <= j < 4
      ensures Sample(w, k)[j] == Sample(region, s)[j]
    {
      if start + tot <= ScopeSplit {
        assert w[4 * k + j] == region[4 * start + 4 * k + j];
      } else {
        var one := 4 * (ScopeSplit - start);
        var head := region[4 * start..4 * ScopeSplit];
        var tail := region[..4 * (start + tot - ScopeSplit)];
        assert w == head + tail;
        if start + k < ScopeSplit {
          assert w[4 * k + j] == head[4 * k + j];
        } else {
          assert w[4 * k + j] == tail[4 * k + j - one];
        }
      }
    }
  }

  /** For k + 1 < 0x7FFFFF, samples k and k + 1 come from consecutive slots of a ring of 0x7FFFFF slots. */
  lemma SlotsAreConsecutive(start: nat, k: nat)
    requires start < ScopeSlots && k + 1 < ScopeSplit
    ensures Slot(start, k + 1) == if Slot(start, k) + 1 == ScopeSplit then 0 else Slot(start, k) + 1
  {
  }

  /**
   * Where the split at 0x7FFFFF differs from a ring of 2^23 slots: a read never takes
   * slot 0x7FFFFF unless it asks for more than 0x7FFFFF samples, a read that starts at
   * slot 0x7FFFFF begins at slot 0, a read that ends exactly at the end of the
   * buffer takes its last sample from slot 0, and a read of the whole buffer from
   * slot 0x7FFFFF takes its last sample from slot 0x7FFFFF.
   */
  lemma ScopeSplitBoundaries(start: nat, tot: nat)
    requires start < ScopeSlots && 0 < tot <= ScopeSlots
    ensures tot <= ScopeSplit ==> forall k :: 0 <= k < tot ==> Slot(start, k) != ScopeSplit
    ensures start == ScopeSplit ==> Slot(start, 0) == 0
    ensures start + tot == ScopeSlots ==> Slot(start, tot - 1) == 0
    ensures start == ScopeSplit && tot == ScopeSlots ==> Slot(start, tot - 1) == ScopeSplit
    ensures start == 0 && tot <= ScopeSplit ==> forall k :: 0 <= k < tot ==> Slot(start, k) == k
  {
  }

  /** Response to "read scope data": the tag, then ScopeTotal(cfg) samples unwrapped from the scope window. */
  function ScopeReply(cfg: seq<byte>, sts: seq<byte>, scope: seq<byte>): (m: seq<byte>)
    requires |cfg| == CfgBytes && |sts| == StsBytes && |scope| == ScopeBytes
    requires ScopeTotal(cfg) <= ScopeSlots
    ensures |m| == 4 + 4 * ScopeTotal(cfg) && Unle(m[..4]) == ScopeTag
    ensures m[4..] == ScopeWindow(scope, ScopeStart(ScopeStatus(sts), ScopePre(cfg)), ScopeTotal(cfg))
  {
    var start := ScopeStart(ScopeStatus(sts), ScopePre(cfg));
    Frame(ScopeTag, ScopeWindow(scope, start, ScopeTotal(cfg)))
  }
}
