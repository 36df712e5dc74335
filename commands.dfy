/**
 * The command dispatcher as a table: a 16-byte command (u32 code, u32 channel, float64
 * value) is decoded to the register action it stands for, the action to the series of
 * bus writes the server issues, and a read action to the response it sends.
 */
module Commands {
  import opened Bytes
  import opened Registers
  import opened Snapshot

  /** A command message. The float64 value is represented by the integer it holds. */
  datatype Command = Command(code: nat, chan: nat, value: int)

  /** Code and channel are the first two little-endian u32 words of the message. */
  function ParseCommand(message: seq<byte>, value: int): (c: Command)
    requires |message| >= 16
    ensures c.code < 0x1_0000_0000 && c.chan < 0x1_0000_0000 && c.value == value
  {
    Pow256Widths();
    Command(Unle(message[0..4]), Unle(message[4..8]), value)
  }

  /** The first eight bytes of a command as a client lays them out. */
  function CommandHeader(code: nat, chan: nat): (h: seq<byte>)
    ensures |h| == 8
  {
    Le(code, 4) + Le(chan, 4)
  }

  /** The server reads back the code and channel a client wrote. */
  lemma ParseCommandHeader(code: nat, chan: nat, value: int, rest: seq<byte>)
    requires code < 0x1_0000_0000 && chan < 0x1_0000_0000 && |rest| >= 8
    ensures ParseCommand(CommandHeader(code, chan) + rest, value) == Command(code, chan, value)
  {
    Pow256Widths();
    var m := CommandHeader(code, chan) + rest;
    assert m[0..4] == Le(code, 4);
    assert m[4..8] == Le(chan, 4);
    UnleLe(code, 4);
    UnleLe(chan, 4);
  }

  /** What a command does to the registers, or which snapshot it asks for. */
  datatype Action =
    | Pulse(reg: Reg, mask: bv8)           // clear the bits, then set them
    | Strobe(reg: Reg, mask: bv8)          // set the bits, then clear them
    | Flag(reg: Reg, mask: bv8, value: int) // clear the bits on 0, set them on 1
    | Store(field: Field, value: int)      // store a setting
    | StoreTotal(count: int)               // store count - 1 and resize the scope buffer
    | TriggerSource(ch: Chan)
    | ReadTimer(ch: Chan)
    | ReadHistogram(ch: Chan)
    | ReadStatus
    | ReadScope
    | Ignore

  predicate IsRead(a: Action) {
    a.ReadTimer? || a.ReadHistogram? || a.ReadStatus? || a.ReadScope?
  }

  /** Codes whose effect depends on the channel selector; they do nothing for channels other than 0 and 1. */
  predicate PerChannel(code: nat) {
    code <= 1 || 5 <= code <= 15
  }

  /** The dispatch table of on_WebSocket_binaryMessageReceived. */
  function Decode(c: Command): (a: Action)
    ensures a == Ignore <==> c.code > 23 || (PerChannel(c.code) && c.chan >= 2)
    ensures IsRead(a) <==> c.code in {22, 23} || (c.code in {13, 14} && c.chan < 2)
    ensures a.StoreTotal? <==> c.code == 20
    ensures a.StoreTotal? ==> a.count == c.value
    ensures a.Store? ==> a.field != TotalCount
  {
    if PerChannel(c.code) && c.chan >= 2 then Ignore
    else
      var ch: Chan := if c.chan < 2 then c.chan else 0;
      match c.code
      case 0 => Pulse(ch, TimerResetBit)
      case 1 => Pulse(ch, HistResetBit)
      case 2 => Pulse(RstScope, ScopeResetBits)
      case 3 => Pulse(RstGenerator, GeneratorResetBit)
      case 4 => Store(SampleRate, c.value)
      case 5 => Flag(ch, NegatorBit, c.value)
      case 6 => Flag(ch, AutoBaselineBit, c.value)
      case 7 => Store(Baseline(ch), c.value)
      case 8 => Store(PhaDelay(ch), c.value)
      case 9 => Store(PhaMin(ch), c.value)
      case 10 => Store(PhaMax(ch), c.value)
      case 11 => Store(Timer(ch), c.value)
      case 12 => Flag(ch, TimerRunBit, c.value)
      case 13 => ReadTimer(ch)
      case 14 => ReadHistogram(ch)
      case 15 => TriggerSource(ch)
      case 16 => Flag(RstScope, TriggerSlopeBit, c.value)
      case 17 => Flag(RstScope, TriggerModeBit, c.value)
      case 18 => Store(TriggerLevel, c.value)
      case 19 => Store(PreCount, c.value - 1)
      case 20 => StoreTotal(c.value)
      case 21 => Strobe(RstScope, ScopeStartBit)
      case 22 => ReadStatus
      case 23 => ReadScope
      case _ => Ignore
  }

  /** The bus writes an action issues, in order; cfg is the configuration page before them. */
  function Writes(a: Action, cfg: seq<byte>): (ws: seq<BusWrite>)
    requires |cfg| == CfgBytes
  {
    match a
    case Pulse(r, m) =>
      var low := ClearBits(cfg[r], m);
      [CtrlWrite(r, low), CtrlWrite(r, SetBits(low, m))]
    case Strobe(r, m) =>
      var high := SetBits(cfg[r], m);
      [CtrlWrite(r, high), CtrlWrite(r, ClearBits(high, m))]
    case Flag(r, m, v) =>
      if v == 0 then [CtrlWrite(r, ClearBits(cfg[r], m))]
      else if v == 1 then [CtrlWrite(r, SetBits(cfg[r], m))]
      else []
    case Store(f, v) => [FieldWrite(f, v)]
    case StoreTotal(n) => [FieldWrite(TotalCount, n - 1)]
    case TriggerSource(ch) => [TrgWrite(16, ch as bv32), TrgWrite(0, 2)]
    case _ => []
  }

  /** Every write an action issues stays inside its page, so no command writes outside the mapped windows. */
  lemma WritesFit(a: Action, cfg: seq<byte>)
    requires |cfg| == CfgBytes
    ensures forall w <- Writes(a, cfg) :: Fits(w)
  {
  }

  /** The registers after a command. */
  function After(c: Command, r: Regs): (r': Regs)
    requires WellFormed(r)
    ensures WellFormed(r')
  {
    Replay(r, Writes(Decode(c), r.cfg))
  }

  /** Size QByteArray::resize gives the scope buffer for a total of count samples (a negative size empties it). */
  function ScopeBufferSize(count: int): (n: nat)
    ensures count >= -1 ==> n == 4 + 4 * count
  {
    if 4 + 4 * count < 0 then 0 else 4 + 4 * count
  }

  /** The response to a read action, built from the live windows. */
  function Reply(a: Action, cfg: seq<byte>, sts: seq<byte>, hist0: seq<byte>, hist1: seq<byte>, scope: seq<byte>): (m: seq<byte>)
    requires IsRead(a)
    requires |cfg| == CfgBytes && |sts| == StsBytes && |hist0| == HistBytes && |hist1| == HistBytes && |scope| == ScopeBytes
    requires a.ReadScope? ==> ScopeTotal(cfg) <= ScopeSlots
    ensures a.ReadTimer? ==> |m| == 12 && Unle(m[..4]) == a.ch
    ensures a.ReadHistogram? ==> |m| == 4 + 4 * HistBins && Unle(m[..4]) == 2 + a.ch
    ensures a.ReadStatus? ==> |m| == 8 && Unle(m[..4]) == 4
    ensures a.ReadScope? ==> |m| == 4 + 4 * ScopeTotal(cfg) && Unle(m[..4]) == 5
    ensures a.ReadTimer? ==> m[4..] == sts[TimerStatusOffset(a.ch)..TimerStatusOffset(a.ch) + 8]
    ensures a.ReadHistogram? ==> m[4..] == if a.ch == 0 then hist0 else hist1
    ensures a.ReadStatus? ==> m[4..] == sts[ScopeStatusOffset..ScopeStatusOffset + 4]
    ensures a.ReadScope? ==> m[4..] == ScopeWindow(scope, ScopeStart(ScopeStatus(sts), ScopePre(cfg)), ScopeTotal(cfg))
  {
    match a
    case ReadTimer(ch) => TimerReply(ch, sts)
    case ReadHistogram(ch) => HistogramReply(ch, if ch == 0 then hist0 else hist1)
    case ReadStatus => StatusReply(sts)
    case ReadScope => ScopeReply(cfg, sts, scope)
  }

  // Effects of the action kinds on the registers.

  /** ws pulses bits m of register reg from r to r': the hardware sees them low, then high; they end set and nothing else changes. */
  ghost predicate Pulsed(r: Regs, ws: seq<BusWrite>, r': Regs, reg: Reg, m: bv8)
    requires WellFormed(r) && WellFormed(r')
  {
    && |ws| == 2
    && ws[0] == CtrlWrite(reg, ClearBits(r.cfg[reg], m)) && ws[1] == CtrlWrite(reg, r'.cfg[reg])
    && Bits(r'.cfg[reg]) == Bits(r.cfg[reg]) | m
    && r'.cfg == r.cfg[reg := r'.cfg[reg]] && r'.trg == r.trg
  }

  /** ws strobes bits m of register reg from r to r': the hardware sees them high, then low; they end cleared and nothing else changes. */
  ghost predicate Strobed(r: Regs, ws: seq<BusWrite>, r': Regs, reg: Reg, m: bv8)
    requires WellFormed(r) && WellFormed(r')
  {
    && |ws| == 2
    && ws[0] == CtrlWrite(reg, SetBits(r.cfg[reg], m)) && ws[1] == CtrlWrite(reg, r'.cfg[reg])
    && Bits(r'.cfg[reg]) == Bits(r.cfg[reg]) & !m
    && r'.cfg == r.cfg[reg := r'.cfg[reg]] && r'.trg == r.trg
  }

  /** Value v written to flag bits m of register reg takes r to r': 0 clears them, 1 sets them, anything else writes nothing. */
  ghost predicate Flagged(r: Regs, ws: seq<BusWrite>, r': Regs, reg: Reg, m: bv8, v: int)
    requires WellFormed(r) && WellFormed(r')
  {
    && (v == 0 ==> ws == [CtrlWrite(reg, r'.cfg[reg])] && Bits(r'.cfg[reg]) == Bits(r.cfg[reg]) & !m)
    && (v == 1 ==> ws == [CtrlWrite(reg, r'.cfg[reg])] && Bits(r'.cfg[reg]) == Bits(r.cfg[reg]) | m)
    && (v != 0 && v != 1 ==> ws == [] && r' == r)
    && r'.cfg == r.cfg[reg := r'.cfg[reg]] && r'.trg == r.trg
  }

  /** ws stores v, converted to the width of setting f, and nothing else: f reads back as that value, every other setting and every byte outside f is unchanged. */
  ghost predicate Stored(r: Regs, ws: seq<BusWrite>, r': Regs, f: Field, v: int)
    requires WellFormed(r) && WellFormed(r')
  {
    && ws == [FieldWrite(f, v)]
    && Load(r'.cfg, f) == Wrap(v, Width(f))
    && (forall g :: g != f ==> Load(r'.cfg, g) == Load(r.cfg, g))
    && (forall i :: 0 <= i < CfgBytes && !(Offset(f) <= i < Offset(f) + Width(f)) ==> r'.cfg[i] == r.cfg[i])
    && r'.trg == r.trg
  }

  /** Clearing bits and then setting them leaves them set; the other bits keep their value. */
  lemma PulseEndsSet(x: byte, m: bv8)
    ensures Bits(SetBits(ClearBits(x, m), m)) == Bits(x) | m
  {
  }

  /** A control byte after a pulse of the bits m: those bits set, every other bit as it was. */
  function Raised(x: byte, m: bv8): (y: byte)
    ensures Bits(y) == Bits(x) | m
  {
    PulseEndsSet(x, m);
    SetBits(ClearBits(x, m), m)
  }

  /** Setting bits and then clearing them leaves them clear; the other bits keep their value. */
  lemma StrobeEndsClear(x: byte, m: bv8)
    ensures Bits(ClearBits(SetBits(x, m), m)) == Bits(x) & !m
  {
  }

  lemma PulseReplay(r: Regs, reg: Reg, m: bv8)
    requires WellFormed(r)
    ensures Writes(Pulse(reg, m), r.cfg) == [CtrlWrite(reg, ClearBits(r.cfg[reg], m)), CtrlWrite(reg, SetBits(ClearBits(r.cfg[reg], m), m))]
    ensures Replay(r, Writes(Pulse(reg, m), r.cfg)) == r.(cfg := r.cfg[reg := Raised(r.cfg[reg], m)])
  {
    var low := ClearBits(r.cfg[reg], m);
    var high := SetBits(low, m);
    var r1 := r.(cfg := r.cfg[reg := low]);
    ApplyCtrlWrite(r, reg, low);
    ApplyCtrlWrite(r1, reg, high);
    ReplayTwo(r, CtrlWrite(reg, low), CtrlWrite(reg, high));
    assert r1.cfg[reg := high] == r.cfg[reg := high];
  }

  lemma PulseEffect(r: Regs, reg: Reg, m: bv8)
    requires WellFormed(r)
    ensures Pulsed(r, Writes(Pulse(reg, m), r.cfg), Replay(r, Writes(Pulse(reg, m), r.cfg)), reg, m)
  {
    PulseReplay(r, reg, m);
    PulseEndsSet(r.cfg[reg], m);
  }

  lemma StrobeReplay(r: Regs, reg: Reg, m: bv8)
    requires WellFormed(r)
    ensures Writes(Strobe(reg, m), r.cfg) == [CtrlWrite(reg, SetBits(r.cfg[reg], m)), CtrlWrite(reg, ClearBits(SetBits(r.cfg[reg], m), m))]
    ensures Replay(r, Writes(Strobe(reg, m), r.cfg)) == r.(cfg := r.cfg[reg := ClearBits(SetBits(r.cfg[reg], m), m)])
  {
    var high := SetBits(r.cfg[reg], m);
    var low := ClearBits(high, m);
    var r1 := r.(cfg := r.cfg[reg := high]);
    ApplyCtrlWrite(r, reg, high);
    ApplyCtrlWrite(r1, reg, low);
    ReplayTwo(r, CtrlWrite(reg, high), CtrlWrite(reg, low));
    assert r1.cfg[reg := low] == r.cfg[reg := low];
  }

  lemma StrobeEffect(r: Regs, reg: Reg, m: bv8)
    requires WellFormed(r)
    ensures Strobed(r, Writes(Strobe(reg, m), r.cfg), Replay(r, Writes(Strobe(reg, m), r.cfg)), reg, m)
  {
    StrobeReplay(r, reg, m);
    StrobeEndsClear(r.cfg[reg], m);
  }

  lemma FlagEffect(r: Regs, reg: Reg, m: bv8, v: int)
    requires WellFormed(r)
    ensures Flagged(r, Writes(Flag(reg, m, v), r.cfg), Replay(r, Writes(Flag(reg, m, v), r.cfg)), reg, m, v)
  {
    if v == 0 {
      ReplayOne(r, CtrlWrite(reg, ClearBits(r.cfg[reg], m)));
      ApplyCtrlWrite(r, reg, ClearBits(r.cfg[reg], m));
    } else if v == 1 {
      ReplayOne(r, CtrlWrite(reg, SetBits(r.cfg[reg], m)));
      ApplyCtrlWrite(r, reg, SetBits(r.cfg[reg], m));
    }
  }

  lemma StoreEffect(r: Regs, f: Field, v: int)
    requires WellFormed(r)
    ensures Stored(r, [FieldWrite(f, v)], Replay(r, [FieldWrite(f, v)]), f, v)
  {
    ReplayOne(r, FieldWrite(f, v));
    var r' := Apply(r, FieldWrite(f, v));
    forall g | g != f
      ensures Load(r'.cfg, g) == Load(r.cfg, g)
    {
      LoadAfterFieldWrite(r, f, v, g);
    }
    LoadAfterFieldWrite(r, f, v, f);
    OverwriteBytes(r.cfg, Offset(f), FieldWrite(f, v).bytes);
  }

  /** A control-bit write leaves every setting as it was: the settings start at byte 4. */
  lemma ControlWriteKeepsSettings(cfg: seq<byte>, reg: Reg, x: byte, g: Field)
    requires |cfg| == CfgBytes
    ensures Load(cfg[reg := x], g) == Load(cfg, g)
  {
    assert cfg[reg := x][Offset(g)..Offset(g) + Width(g)] == cfg[Offset(g)..Offset(g) + Width(g)];
  }

  /** A control-bit action: its writes leave every byte but that of register reg as it was. */
  lemma ControlActionKeepsSettings(a: Action, r: Regs, g: Field)
    requires WellFormed(r) && (a.Pulse? || a.Strobe? || a.Flag?)
    ensures Load(Replay(r, Writes(a, r.cfg)).cfg, g) == Load(r.cfg, g)
  {
    var r' := Replay(r, Writes(a, r.cfg));
    match a
    case Pulse(reg, m) =>
      PulseEffect(r, reg, m);
      ControlWriteKeepsSettings(r.cfg, reg, r'.cfg[reg], g);
    case Strobe(reg, m) =>
      StrobeEffect(r, reg, m);
      ControlWriteKeepsSettings(r.cfg, reg, r'.cfg[reg], g);
    case Flag(reg, m, v) =>
      FlagEffect(r, reg, m, v);
      ControlWriteKeepsSettings(r.cfg, reg, r'.cfg[reg], g);
  }

  /** Only an action that stores the total count changes it, and with it the length of a scope read. */
  lemma KeepsTotalCount(a: Action, r: Regs)
    requires WellFormed(r) && !a.StoreTotal? && !(a.Store? && a.field == TotalCount)
    ensures Load(Replay(r, Writes(a, r.cfg)).cfg, TotalCount) == Load(r.cfg, TotalCount)
  {
    var r' := Replay(r, Writes(a, r.cfg));
    if a.Pulse? || a.Strobe? || a.Flag? {
      ControlActionKeepsSettings(a, r, TotalCount);
    } else if a.Store? {
      StoreEffect(r, a.field, a.value);
    } else if a.TriggerSource? {
      TriggerSourceEffect(r, a.ch);
    } else {
      assert Writes(a, r.cfg) == [];
    }
  }

  // The commands, one by one.

  /** Command 0: pulse the channel's timer-reset bit (2) of m_Rst[chan]. */
  lemma ResetTimerCommand(r: Regs, ch: Chan, v: int)
    requires WellFormed(r)
    ensures Pulsed(r, Writes(Decode(Command(0, ch, v)), r.cfg), After(Command(0, ch, v), r), ch, 2)
  {
    PulseEffect(r, ch, 2);
  }

  /** Command 1: pulse the channel's histogram-reset bit (1) of m_Rst[chan]. */
  lemma ResetHistogramCommand(r: Regs, ch: Chan, v: int)
    requires WellFormed(r)
    ensures Pulsed(r, Writes(Decode(Command(1, ch, v)), r.cfg), After(Command(1, ch, v), r), ch, 1)
  {
    PulseEffect(r, ch, 1);
  }

  /** Command 2: pulse both scope-reset bits (3) of m_Rst[2], whatever the channel. */
  lemma ResetScopeCommand(r: Regs, ch: nat, v: int)
    requires WellFormed(r)
    ensures Pulsed(r, Writes(Decode(Command(2, ch, v)), r.cfg), After(Command(2, ch, v), r), 2, 3)
  {
    PulseEffect(r, 2, 3);
  }

  /** Command 3: pulse the generator-reset bit (128) of m_Rst[3], whatever the channel. */
  lemma ResetGeneratorCommand(r: Regs, ch: nat, v: int)
    requires WellFormed(r)
    ensures Pulsed(r, Writes(Decode(Command(3, ch, v)), r.cfg), After(Command(3, ch, v), r), 3, 128)
  {
    PulseEffect(r, 3, 128);
  }

  /** Command 21: strobe the scope start bit (16) of m_Rst[2]; it ends cleared. */
  lemma StartScopeCommand(r: Regs, ch: nat, v: int)
    requires WellFormed(r)
    ensures Strobed(r, Writes(Decode(Command(21, ch, v)), r.cfg), After(Command(21, ch, v), r), 2, 16)
  {
    StrobeEffect(r, 2, 16);
  }

  /** Command 5: the channel's negator bit (16) of m_Rst[chan]. */
  lemma NegatorCommand(r: Regs, ch: Chan, v: int)
    requires WellFormed(r)
    ensures Flagged(r, Writes(Decode(Command(5, ch, v)), r.cfg), After(Command(5, ch, v), r), ch, 16, v)
  {
    FlagEffect(r, ch, 16, v);
  }

  /** Command 6: the channel's automatic-baseline bit (4) of m_Rst[chan]. */
  lemma AutoBaselineCommand(r: Regs, ch: Chan, v: int)
    requires WellFormed(r)
    ensures Flagged(r, Writes(Decode(Command(6, ch, v)), r.cfg), After(Command(6, ch, v), r), ch, 4, v)
  {
    FlagEffect(r, ch, 4, v);
  }

  /** Command 12: the channel's timer-running bit (8) of m_Rst[chan]. */
  lemma TimerRunCommand(r: Regs, ch: Chan, v: int)
    requires WellFormed(r)
    ensures Flagged(r, Writes(Decode(Command(12, ch, v)), r.cfg), After(Command(12, ch, v), r), ch, 8, v)
  {
    FlagEffect(r, ch, 8, v);
  }

  /** Command 16: the trigger-slope bit (4) of m_Rst[2]. */
  lemma TriggerSlopeCommand(r: Regs, ch: nat, v: int)
    requires WellFormed(r)
    ensures Flagged(r, Writes(Decode(Command(16, ch, v)), r.cfg), After(Command(16, ch, v), r), 2, 4, v)
  {
    FlagEffect(r, 2, 4, v);
  }

  /** Command 17: the trigger-mode bit (8) of m_Rst[2]. */
  lemma TriggerModeCommand(r: Regs, ch: nat, v: int)
    requires WellFormed(r)
    ensures Flagged(r, Writes(Decode(Command(17, ch, v)), r.cfg), After(Command(17, ch, v), r), 2, 8, v)
  {
    FlagEffect(r, 2, 8, v);
  }

  /** Command 4: the 16-bit sample rate at offset 4. */
  lemma SampleRateCommand(r: Regs, ch: nat, v: int)
    requires WellFormed(r)
    ensures Stored(r, Writes(Decode(Command(4, ch, v)), r.cfg), After(Command(4, ch, v), r), SampleRate, v)
  {
    StoreEffect(r, SampleRate, v);
  }

  /** Command 7: the channel's 16-bit baseline level (offset 16 or 32). */
  lemma BaselineCommand(r: Regs, ch: Chan, v: int)
    requires WellFormed(r)
    ensures Stored(r, Writes(Decode(Command(7, ch, v)), r.cfg), After(Command(7, ch, v), r), Baseline(ch), v)
  {
    StoreEffect(r, Baseline(ch), v);
  }

  /** Command 8: the channel's 16-bit PHA delay (offset 18 or 34). */
  lemma PhaDelayCommand(r: Regs, ch: Chan, v: int)
    requires WellFormed(r)
    ensures Stored(r, Writes(Decode(Command(8, ch, v)), r.cfg), After(Command(8, ch, v), r), PhaDelay(ch), v)
  {
    StoreEffect(r, PhaDelay(ch), v);
  }

  /** Command 9: the channel's 16-bit PHA lower threshold (offset 20 or 36). */
  lemma PhaMinCommand(r: Regs, ch: Chan, v: int)
    requires WellFormed(r)
    ensures Stored(r, Writes(Decode(Command(9, ch, v)), r.cfg), After(Command(9, ch, v), r), PhaMin(ch), v)
  {
    StoreEffect(r, PhaMin(ch), v);
  }

  /** Command 10: the channel's 16-bit PHA upper threshold (offset 22 or 38). */
  lemma PhaMaxCommand(r: Regs, ch: Chan, v: int)
    requires WellFormed(r)
    ensures Stored(r, Writes(Decode(Command(10, ch, v)), r.cfg), After(Command(10, ch, v), r), PhaMax(ch), v)
  {
    StoreEffect(r, PhaMax(ch), v);
  }

  /** Command 11: the channel's 64-bit timer setting (offset 8 or 24). */
  lemma TimerSettingCommand(r: Regs, ch: Chan, v: int)
    requires WellFormed(r)
    ensures Stored(r, Writes(Decode(Command(11, ch, v)), r.cfg), After(Command(11, ch, v), r), Timer(ch), v)
  {
    StoreEffect(r, Timer(ch), v);
  }

  /** Command 18: the 16-bit trigger level at offset 80. */
  lemma TriggerLevelCommand(r: Regs, ch: nat, v: int)
    requires WellFormed(r)
    ensures Stored(r, Writes(Decode(Command(18, ch, v)), r.cfg), After(Command(18, ch, v), r), TriggerLevel, v)
  {
    StoreEffect(r, TriggerLevel, v);
  }

  /** Command 19: the 32-bit pre-trigger sample count at offset 72, stored as the value minus one. */
  lemma PreCountCommand(r: Regs, ch: nat, v: int)
    requires WellFormed(r)
    ensures Stored(r, Writes(Decode(Command(19, ch, v)), r.cfg), After(Command(19, ch, v), r), PreCount, v - 1)
  {
    StoreEffect(r, PreCount, v - 1);
  }

  /** Command 20: the 32-bit total sample count at offset 76, stored as the value minus one. */
  lemma TotalCountCommand(r: Regs, ch: nat, v: int)
    requires WellFormed(r)
    ensures Stored(r, Writes(Decode(Command(20, ch, v)), r.cfg), After(Command(20, ch, v), r), TotalCount, v - 1)
  {
    StoreEffect(r, TotalCount, v - 1);
  }

  /** Selecting a trigger source writes the channel to trigger word 16, then 2 to trigger word 0; the configuration page is unchanged. */
  lemma TriggerSourceEffect(r: Regs, ch: Chan)
    requires WellFormed(r)
    ensures Replay(r, Writes(TriggerSource(ch), r.cfg)) == r.(trg := r.trg[16 := ch as bv32][0 := 2])
  {
    assert Writes(TriggerSource(ch), r.cfg) == [TrgWrite(16, ch as bv32), TrgWrite(0, 2)];
    var r1 := r.(trg := r.trg[16 := ch as bv32]);
    assert Apply(r, TrgWrite(16, ch as bv32)) == r1;
    assert Apply(r1, TrgWrite(0, 2)) == r1.(trg := r1.trg[0 := 2]);
    ReplayTwo(r, TrgWrite(16, ch as bv32), TrgWrite(0, 2));
  }

  /** Command 15: write the channel to trigger word 16, then 2 to trigger word 0; the configuration page is unchanged. */
  lemma TriggerSourceCommand(r: Regs, ch: Chan, v: int)
    requires WellFormed(r)
    ensures Writes(Decode(Command(15, ch, v)), r.cfg) == [TrgWrite(16, ch as bv32), TrgWrite(0, 2)]
    ensures After(Command(15, ch, v), r) == r.(trg := r.trg[16 := ch as bv32][0 := 2])
  {
    TriggerSourceEffect(r, ch);
  }

  /** An unknown code, or a per-channel code with a channel other than 0 and 1, writes nothing and sends nothing. */
  lemma IgnoredCommands(c: Command, r: Regs)
    requires WellFormed(r) && (c.code > 23 || (PerChannel(c.code) && c.chan >= 2))
    ensures Writes(Decode(c), r.cfg) == [] && After(c, r) == r && !IsRead(Decode(c))
  {
  }

  /** Read commands write no register. */
  lemma ReadCommandsWriteNothing(c: Command, r: Regs)
    requires WellFormed(r) && IsRead(Decode(c))
    ensures Writes(Decode(c), r.cfg) == [] && After(c, r) == r
  {
  }

  /** Code 13 with channel 0 or 1 sends that channel's timer value, tagged with the channel. */
  lemma ReadTimerCommand(ch: Chan, v: int, cfg: seq<byte>, sts: seq<byte>, hist0: seq<byte>, hist1: seq<byte>, scope: seq<byte>)
    requires |cfg| == CfgBytes && |sts| == StsBytes && |hist0| == HistBytes && |hist1| == HistBytes && |scope| == ScopeBytes
    ensures Decode(Command(13, ch, v)) == ReadTimer(ch)
    ensures Reply(Decode(Command(13, ch, v)), cfg, sts, hist0, hist1, scope) == TimerReply(ch, sts)
  {
  }

  /** Code 14 with channel 0 or 1 sends that channel's histogram window, tagged 2 + channel. */
  lemma ReadHistogramCommand(ch: Chan, v: int, cfg: seq<byte>, sts: seq<byte>, hist0: seq<byte>, hist1: seq<byte>, scope: seq<byte>)
    requires |cfg| == CfgBytes && |sts| == StsBytes && |hist0| == HistBytes && |hist1| == HistBytes && |scope| == ScopeBytes
    ensures Decode(Command(14, ch, v)) == ReadHistogram(ch)
    ensures Reply(Decode(Command(14, ch, v)), cfg, sts, hist0, hist1, scope)
      == HistogramReply(ch, if ch == 0 then hist0 else hist1)
  {
  }

  /** Code 22 sends the scope status word, whatever the channel. */
  lemma ReadStatusCommand(chan: nat, v: int, cfg: seq<byte>, sts: seq<byte>, hist0: seq<byte>, hist1: seq<byte>, scope: seq<byte>)
    requires |cfg| == CfgBytes && |sts| == StsBytes && |hist0| == HistBytes && |hist1| == HistBytes && |scope| == ScopeBytes
    ensures Decode(Command(22, chan, v)) == ReadStatus
    ensures Reply(Decode(Command(22, chan, v)), cfg, sts, hist0, hist1, scope) == StatusReply(sts)
  {
  }

  /** Code 23 sends the unwrapped scope waveform, whatever the channel. */
  lemma ReadScopeCommand(chan: nat, v: int, cfg: seq<byte>, sts: seq<byte>, hist0: seq<byte>, hist1: seq<byte>, scope: seq<byte>)
    requires |cfg| == CfgBytes && |sts| == StsBytes && |hist0| == HistBytes && |hist1| == HistBytes && |scope| == ScopeBytes
    requires ScopeTotal(cfg) <= ScopeSlots
    ensures Decode(Command(23, chan, v)) == ReadScope
    ensures Reply(Decode(Command(23, chan, v)), cfg, sts, hist0, hist1, scope) == ScopeReply(cfg, sts, scope)
  {
  }

  /** Command 19 stores its value minus one, and a scope read adds one back in u32 arithmetic. */
  lemma PreCountRoundTrip(r: Regs, ch: nat, v: int)
    requires WellFormed(r)
    ensures ScopePre(After(Command(19, ch, v), r).cfg) == Wrap(v, 4)
  {
    PreCountCommand(r, ch, v);
    WrapPredecessor(v);
  }

  /** The same for command 20 and the total count; command 20 leaves the pre-trigger count alone. */
  lemma TotalCountRoundTrip(r: Regs, ch: nat, v: int)
    requires WellFormed(r)
    ensures ScopeTotal(After(Command(20, ch, v), r).cfg) == Wrap(v, 4)
    ensures ScopePre(After(Command(20, ch, v), r).cfg) == ScopePre(r.cfg)
  {
    TotalCountCommand(r, ch, v);
    WrapPredecessor(v);
  }

  /** Commands 19 then 20: a scope read uses the counts the client sent, modulo 2^32. */
  lemma ScopeCountsRoundTrip(r: Regs, ch19: nat, pre: int, ch20: nat, tot: int)
    requires WellFormed(r)
    ensures var r2 := After(Command(20, ch20, tot), After(Command(19, ch19, pre), r));
      ScopePre(r2.cfg) == Wrap(pre, 4) && ScopeTotal(r2.cfg) == Wrap(tot, 4)
  {
    PreCountRoundTrip(r, ch19, pre);
    TotalCountRoundTrip(After(Command(19, ch19, pre), r), ch20, tot);
  }

  /** After command 20 with a count the scope buffer can hold, a scope read takes exactly that many samples and the resized response buffer has room for exactly them. */
  lemma ScopeTotalAfterResize(r: Regs, ch: nat, v: int)
    requires WellFormed(r) && 0 <= v <= ScopeSlots
    ensures ScopeTotal(After(Command(20, ch, v), r).cfg) == v
    ensures ScopeBufferSize(v) == 4 + 4 * v
  {
    TotalCountRoundTrip(r, ch, v);
    WrapU32InRange(v);
  }
}
