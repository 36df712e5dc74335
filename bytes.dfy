/**
 * Raw memory as byte sequences: little-endian encoding of unsigned integers, the
 * conversion of a numeric value to an unsigned C integer of a given width, and
 * a copy into a byte buffer.
 */
module Bytes {

  /** A byte of memory, as an unsigned number. */
  type byte = x: int | 0 <= x < 256

  /** 256^n: the number of values an n-byte unsigned integer can hold. */
  function Pow256(n: nat): (p: nat)
    ensures p > 0
  {
    if n == 0 then 1 else 256 * Pow256(n - 1)
  }

  lemma Pow256Widths()
    ensures Pow256(1) == 0x100 && Pow256(2) == 0x1_0000
    ensures Pow256(4) == 0x1_0000_0000 && Pow256(8) == 0x1_0000_0000_0000_0000
  {
  }

  /** Conversion of an integer to an n-byte unsigned C integer, wrapping modulo 256^n. */
  function Wrap(v: int, n: nat): (r: nat)
    ensures r < Pow256(n)
  {
    v % Pow256(n)
  }

  /** A value that fits in a u16 converts to itself. */
  lemma WrapU16InRange(v: int)
    requires 0 <= v < 0x1_0000
    ensures Wrap(v, 2) == v
  {
    Pow256Widths();
  }

  /** A value that fits in a u32 converts to itself. */
  lemma WrapU32InRange(v: int)
    requires 0 <= v < 0x1_0000_0000
    ensures Wrap(v, 4) == v
  {
    Pow256Widths();
  }

  /** Storing v - 1 in a u32 and adding one back in u32 arithmetic gives v modulo 2^32. */
  lemma WrapPredecessor(v: int)
    ensures Wrap(Wrap(v - 1, 4) + 1, 4) == Wrap(v, 4)
  {
    Pow256Widths();
  }

  /** The n bytes of v in little-endian order (the host order of the target). */
  function Le(v: nat, n: nat): (bs: seq<byte>)
    ensures |bs| == n
  {
    if n == 0 then [] else [v % 256] + Le(v / 256, n - 1)
  }

  /** The unsigned integer whose little-endian bytes are bs. */
  function Unle(bs: seq<byte>): (v: nat)
    ensures v < Pow256(|bs|)
  {
    if bs == [] then 0 else bs[0] + 256 * Unle(bs[1..])
  }

  /** Reading back the bytes of a stored value gives the value. */
  lemma {:induction false} UnleLe(v: nat, n: nat)
    requires v < Pow256(n)
    ensures Unle(Le(v, n)) == v
  {
    if n > 0 {
      var bs := Le(v, n);
      assert bs[1..] == Le(v / 256, n - 1);
      UnleLe(v / 256, n - 1);
    }
  }

  lemma DivMod256(d: nat, q: nat)
    requires d < 256
    ensures (d + 256 * q) % 256 == d && (d + 256 * q) / 256 == q
  {
  }

  /** Encoding the value held by some bytes gives back those bytes. */
  lemma {:induction false} LeUnle(bs: seq<byte>)
    ensures Le(Unle(bs), |bs|) == bs
  {
    if bs != [] {
      var v := Unle(bs);
      DivMod256(bs[0], Unle(bs[1..]));
      assert v % 256 == bs[0] && v / 256 == Unle(bs[1..]);
      LeUnle(bs[1..]);
      assert Le(v, |bs|) == [bs[0]] + bs[1..];
    }
  }

  /** mem with src copied over it at offset off; the effect of memcpy(mem + off, src, |src|). */
  function Overwrite(mem: seq<byte>, off: nat, src: seq<byte>): (r: seq<byte>)
    requires off + |src| <= |mem|
    ensures |r| == |mem|
  {
    mem[..off] + src + mem[off + |src|..]
  }

  /** After a copy the destination range holds the source and every other byte keeps its value. */
  lemma OverwriteBytes(mem: seq<byte>, off: nat, src: seq<byte>)
    requires off + |src| <= |mem|
    ensures Overwrite(mem, off, src)[off..off + |src|] == src
    ensures forall i :: 0 <= i < |mem| && !(off <= i < off + |src|) ==> Overwrite(mem, off, src)[i] == mem[i]
  {
  }

  /** Bytes outside the copied range keep their values. */
  lemma OverwriteOutside(mem: seq<byte>, off: nat, src: seq<byte>, lo: nat, hi: nat)
    requires off + |src| <= |mem| && lo <= hi <= |mem|
    requires hi <= off || off + |src| <= lo
    ensures Overwrite(mem, off, src)[lo..hi] == mem[lo..hi]
  {
    var r := Overwrite(mem, off, src);
    OverwriteBytes(mem, off, src);
    forall k | 0 <= k < hi - lo
      ensures r[lo..hi][k] == mem[lo..hi][k]
    {
      assert r[lo + k] == mem[lo + k];
    }
  }

  /** Two adjacent copies are one copy of their concatenation. */
  lemma OverwriteAdjacent(mem: seq<byte>, off: nat, a: seq<byte>, b: seq<byte>)
    requires off + |a| + |b| <= |mem|
    ensures Overwrite(Overwrite(mem, off, a), off + |a|, b) == Overwrite(mem, off, a + b)
  {
    assert Overwrite(mem, off, a)[..off + |a|] == mem[..off] + a;
  }

  /** A copy that covers all of mem replaces it. */
  lemma OverwriteAll(mem: seq<byte>, src: seq<byte>)
    requires |src| == |mem|
    ensures Overwrite(mem, 0, src) == src
  {
  }

  /** Copies src into dst starting at offset off. */
  method Memcpy(dst: array<byte>, off: nat, src: seq<byte>)
    requires off + |src| <= dst.Length
    modifies dst
    ensures dst[..] == Overwrite(old(dst[..]), off, src)
  {
    forall i | 0 <= i < |src| {
      dst[off + i] := src[i];
    }
    OverwriteBytes(old(dst[..]), off, src);
    assert dst[..] == Overwrite(old(dst[..]), off, src);
  }
}
