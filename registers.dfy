/**
 * The register map of the MCPHA bitstream as the server sees it: the configuration
 * page (whose first four bytes are the control-bit registers m_Rst[0..3]), the
 * trigger page of 32-bit words, and the sizes of the status, histogram and scope
 * windows. Every store the server makes is a bus write; the register contents
 * after a series of writes are given by Replay.
 */
module Registers {
  import opened Bytes

  const PageSize: nat := 4096
  /** The configuration window m_Cfg: one page. */
  const CfgBytes: nat := PageSize
  /** The status window m_Sts: one page. */
  const StsBytes: nat := PageSize
  /** The trigger window m_Trg: one page of 32-bit words. */
  const TrgWords: nat := PageSize / 4
  /** Each histogram window m_Hist[c]: 16 pages, 16384 bins of 4 bytes. */
  const HistBytes: nat := 16 * PageSize
  const HistBins: nat := 16384
  /** The scope window m_Scope: 8192 pages, 2^23 samples of 4 bytes. */
  const ScopeSlots: nat := 0x80_0000
  const ScopeBytes: nat := 4 * ScopeSlots

  /** Index of a control-bit register m_Rst[r], which is byte r of the configuration page. */
  type Reg = r: nat | r < 4
  /** An input channel of the board. */
  type Chan = c: nat | c < 2

  const RstChan0: Reg := 0
  const RstChan1: Reg := 1
  const RstScope: Reg := 2
  const RstGenerator: Reg := 3

  /** Bits of the channel control registers m_Rst[0] and m_Rst[1]. */
  const HistResetBit: bv8 := 1
  const TimerResetBit: bv8 := 2
  const AutoBaselineBit: bv8 := 4
  const TimerRunBit: bv8 := 8
  const NegatorBit: bv8 := 16
  /** Bits of the scope control register m_Rst[2]. */
  const ChannelResetBits: bv8 := 3
  const ScopeResetBits: bv8 := 3
  const TriggerSlopeBit: bv8 := 4
  const TriggerModeBit: bv8 := 8
  const ScopeStartBit: bv8 := 16
  /** Bit of the generator control register m_Rst[3]. */
  const GeneratorResetBit: bv8 := 128

  /** The bits of a control-bit register. */
  function Bits(x: byte): (b: bv8) { x as bv8 }

  /** The mask of bit i of a register, 2^i: exactly one bit is set. */
  function BitMask(i: nat): (k: bv8)
    requires i < 8
    ensures k != 0 && k & (k - 1) == 0
  {
    match i
    case 0 => 1
    case 1 => 2
    case 2 => 4
    case 3 => 8
    case 4 => 16
    case 5 => 32
    case 6 => 64
    case _ => 128
  }

  /** Bit i of a register value is set. */
  predicate Bit(b: bv8, i: nat)
    requires i < 8
  {
    b & BitMask(i) != 0
  }

  /** Clearing the bits of m, seen through a one-bit mask k: the bit is 0 when m has it, and as in a otherwise. */
  lemma ClearOneBit(a: bv8, m: bv8, k: bv8)
    requires k != 0 && k & (k - 1) == 0
    ensures ((a & !m) & k != 0) == ((m & k == 0) && (a & k != 0))
  {
  }

  /** Setting the bits of m, seen through a one-bit mask k: the bit is 1 when m has it, and as in a otherwise. */
  lemma SetOneBit(a: bv8, m: bv8, k: bv8)
    requires k != 0 && k & (k - 1) == 0
    ensures ((a | m) & k != 0) == ((m & k != 0) || (a & k != 0))
  {
  }

  /** The register value with the bits of m cleared. */
  function ClearBits(x: byte, m: bv8): (y: byte)
    ensures Bits(y) == Bits(x) & !m
  {
    (Bits(x) & !m) as int
  }

  /** The register value with the bits of m set. */
  function SetBits(x: byte, m: bv8): (y: byte)
    ensures Bits(y) == Bits(x) | m
  {
    (Bits(x) | m) as int
  }

  /** Clearing the bits of m makes every bit that m selects 0 and keeps every other bit of x. */
  lemma ClearBitsPerBit(x: byte, m: bv8)
    ensures forall i: nat | i < 8 :: Bit(Bits(ClearBits(x, m)), i) == (!Bit(m, i) && Bit(Bits(x), i))
  {
    forall i: nat | i < 8
      ensures Bit(Bits(ClearBits(x, m)), i) == (!Bit(m, i) && Bit(Bits(x), i))
    {
      ClearOneBit(Bits(x), m, BitMask(i));
    }
  }

  /** Setting the bits of m makes every bit that m selects 1 and keeps every other bit of x. */
  lemma SetBitsPerBit(x: byte, m: bv8)
    ensures forall i: nat | i < 8 :: Bit(Bits(SetBits(x, m)), i) == (Bit(m, i) || Bit(Bits(x), i))
  {
    forall i: nat | i < 8
      ensures Bit(Bits(SetBits(x, m)), i) == (Bit(m, i) || Bit(Bits(x), i))
    {
      SetOneBit(Bits(x), m, BitMask(i));
    }
  }

  /** The typed settings of the configuration page. */
  datatype Field =
    | SampleRate
    | Timer(ch: Chan)
    | Baseline(ch: Chan)
    | PhaDelay(ch: Chan)
    | PhaMin(ch: Chan)
    | PhaMax(ch: Chan)
    | PreCount
    | TotalCount
    | TriggerLevel

  /** Size of a setting in bytes: 64-bit timers, 32-bit sample counts, 16-bit otherwise. */
  function Width(f: Field): (w: nat)
    ensures w in {2, 4, 8}
  {
    match f
    case Timer(_) => 8
    case PreCount | TotalCount => 4
    case _ => 2
  }

  /** Byte offset of a setting within the configuration page. */
  function Offset(f: Field): (o: nat)
    ensures 4 <= o && o + Width(f) <= 82
  {
    match f
    case SampleRate => 4
    case Timer(ch) => if ch == 0 then 8 else 24
    case Baseline(ch) => if ch == 0 then 16 else 32
    case PhaDelay(ch) => if ch == 0 then 18 else 34
    case PhaMin(ch) => if ch == 0 then 20 else 36
    case PhaMax(ch) => if ch == 0 then 22 else 38
    case PreCount => 72
    case TotalCount => 76
    case TriggerLevel => 80
  }

  /** No two settings share a byte. */
  lemma FieldsDisjoint(f: Field, g: Field)
    requires f != g
    ensures Offset(f) + Width(f) <= Offset(g) || Offset(g) + Width(g) <= Offset(f)
  {
  }

  /** The value of a setting, read as an unsigned little-endian integer. */
  function Load(cfg: seq<byte>, f: Field): (v: nat)
    requires |cfg| == CfgBytes
    ensures v < Pow256(Width(f))
  {
    Unle(cfg[Offset(f)..Offset(f) + Width(f)])
  }

  /** A store on the register bus. A control-bit register write is a one-byte store into the configuration page. */
  datatype BusWrite =
    | CfgWrite(offset: nat, bytes: seq<byte>)
    | TrgWrite(index: nat, word: bv32)

  /** A store of v into control-bit register r. */
  function CtrlWrite(r: Reg, v: byte): (w: BusWrite)
    ensures w.CfgWrite? && w.offset == r && w.bytes == [v]
  {
    CfgWrite(r, [v])
  }

  /** A store of v into setting f: v converted to the setting's width, written little-endian at the setting's offset. */
  function FieldWrite(f: Field, v: int): (w: BusWrite)
    ensures w.CfgWrite? && w.offset == Offset(f) && |w.bytes| == Width(f)
    ensures Unle(w.bytes) == Wrap(v, Width(f))
  {
    UnleLe(Wrap(v, Width(f)), Width(f));
    CfgWrite(Offset(f), Le(Wrap(v, Width(f)), Width(f)))
  }

  /** The writable register state: the configuration page and the trigger page. */
  datatype Regs = Regs(cfg: seq<byte>, trg: seq<bv32>)

  predicate WellFormed(r: Regs) {
    |r.cfg| == CfgBytes && |r.trg| == TrgWords
  }

  predicate Fits(w: BusWrite) {
    match w
    case CfgWrite(off, bs) => off + |bs| <= CfgBytes
    case TrgWrite(i, _) => i < TrgWords
  }

  /** The registers after one write: only the written bytes or word change. A write outside the pages changes nothing (the server issues none). */
  function Apply(r: Regs, w: BusWrite): (r': Regs)
    requires WellFormed(r)
    ensures WellFormed(r')
  {
    match w
    case CfgWrite(off, bs) => if off + |bs| <= CfgBytes then r.(cfg := Overwrite(r.cfg, off, bs)) else r
    case TrgWrite(i, x) => if i < TrgWords then r.(trg := r.trg[i := x]) else r
  }

  /** The registers after a series of writes, applied in order. */
  function Replay(r: Regs, ws: seq<BusWrite>): (r': Regs)
    requires WellFormed(r)
    ensures WellFormed(r')
    decreases |ws|
  {
    if ws == [] then r else Replay(Apply(r, ws[0]), ws[1..])
  }

  /** Writing a setting stays inside the configuration page, makes the setting read back as the converted value, and changes no control-bit register or trigger word. */
  lemma FieldWriteSets(r: Regs, f: Field, v: int)
    requires WellFormed(r)
    ensures Fits(FieldWrite(f, v))
    ensures Load(Apply(r, FieldWrite(f, v)).cfg, f) == Wrap(v, Width(f))
    ensures Apply(r, FieldWrite(f, v)).cfg[..4] == r.cfg[..4]
    ensures Apply(r, FieldWrite(f, v)).trg == r.trg
  {
    var w := FieldWrite(f, v);
    var cfg' := Overwrite(r.cfg, Offset(f), w.bytes);
    assert Apply(r, w) == r.(cfg := cfg');
    OverwriteOutside(r.cfg, Offset(f), w.bytes, 0, 4);
    assert cfg'[Offset(f)..Offset(f) + Width(f)] == w.bytes by {
      OverwriteBytes(r.cfg, Offset(f), w.bytes);
    }
  }

  /** Writing a setting leaves every other setting as it was. */
  lemma FieldWriteKeeps(r: Regs, f: Field, v: int, g: Field)
    requires WellFormed(r) && g != f
    ensures Load(Apply(r, FieldWrite(f, v)).cfg, g) == Load(r.cfg, g)
  {
    var w := FieldWrite(f, v);
    assert Apply(r, w) == r.(cfg := Overwrite(r.cfg, Offset(f), w.bytes));
    FieldsDisjoint(f, g);
    OverwriteOutside(r.cfg, Offset(f), w.bytes, Offset(g), Offset(g) + Width(g));
  }

  /** Writing a setting sets exactly that setting: it reads back as the converted value, every other setting reads back unchanged, and no control-bit register or trigger word changes. */
  lemma LoadAfterFieldWrite(r: Regs, f: Field, v: int, g: Field)
    requires WellFormed(r)
    ensures Fits(FieldWrite(f, v))
    ensures Load(Apply(r, FieldWrite(f, v)).cfg, g) == if g == f then Wrap(v, Width(f)) else Load(r.cfg, g)
    ensures Apply(r, FieldWrite(f, v)).cfg[..4] == r.cfg[..4]
    ensures Apply(r, FieldWrite(f, v)).trg == r.trg
  {
    FieldWriteSets(r, f, v);
    if g != f {
      FieldWriteKeeps(r, f, v, g);
    }
  }

  /** A control-bit register write replaces that one byte of the configuration page. */
  lemma ApplyCtrlWrite(r: Regs, reg: Reg, v: byte)
    requires WellFormed(r)
    ensures Fits(CtrlWrite(reg, v))
    ensures Apply(r, CtrlWrite(reg, v)) == r.(cfg := r.cfg[reg := v])
  {
    var cfg' := Overwrite(r.cfg, reg, [v]);
    OverwriteBytes(r.cfg, reg, [v]);
    forall i | 0 <= i < CfgBytes
      ensures cfg'[i] == r.cfg[reg := v][i]
    {
      if i == reg {
        assert cfg'[reg..reg + 1] == [v];
      }
    }
  }

  lemma ReplayOne(r: Regs, w: BusWrite)
    requires WellFormed(r)
    ensures Replay(r, [w]) == Apply(r, w)
  {
    assert [w][1..] == [];
  }

  lemma ReplayTwo(r: Regs, w1: BusWrite, w2: BusWrite)
    requires WellFormed(r)
    ensures Replay(r, [w1, w2]) == Apply(Apply(r, w1), w2)
  {
    assert [w1, w2][1..] == [w2];
    ReplayOne(Apply(r, w1), w2);
  }

  /** Replaying a log in two parts is replaying the first part, then the second. */
  lemma {:induction false} ReplayAppend(r: Regs, ws: seq<BusWrite>, vs: seq<BusWrite>)
    requires WellFormed(r)
    ensures Replay(r, ws + vs) == Replay(Replay(r, ws), vs)
    decreases |ws|
  {
    if ws == [] {
      assert ws + vs == vs;
    } else {
      assert (ws + vs)[0] == ws[0];
      assert (ws + vs)[1..] == ws[1..] + vs;
      ReplayAppend(Apply(r, ws[0]), ws[1..], vs);
    }
  }
}
