/**
 * The Server object: the mapped hardware windows, the four response buffers and the
 * bound WebSocket, with the three slots that change them. Every method that stores
 * to the registers states the bus writes it issued: the registers afterwards are the
 * registers before with those writes replayed.
 */
module McphaServer {
  import opened Bytes
  import opened Registers
  import opened Snapshot
  import opened Commands
  import opened Session

  /** A binary message sent to a client. */
  datatype Outgoing = Outgoing(to: SocketId, bytes: seq<byte>)

  /** The three settings the constructor stores, in order. */
  function InitStores(): (ws: seq<BusWrite>)
  {
    [FieldWrite(SampleRate, 125)] + [FieldWrite(PreCount, 5000 - 1)] + [FieldWrite(TotalCount, 65536 - 1)]
  }

  /** The trigger source the constructor selects: channel 0, then the update strobe. */
  function InitTrigger(cfg: seq<byte>): (ws: seq<BusWrite>)
    requires |cfg| == CfgBytes
  {
    Writes(TriggerSource(0), cfg)
  }

  /** The resets the constructor pulses: both bits of each channel, then the scope. */
  function InitResets(cfg: seq<byte>): (ws: seq<BusWrite>)
    requires |cfg| == CfgBytes
  {
    Writes(Pulse(RstChan0, ChannelResetBits), cfg)
      + Writes(Pulse(RstChan1, ChannelResetBits), cfg)
      + Writes(Pulse(RstScope, ScopeResetBits), cfg)
  }

  /** Every register write of the constructor, in order; cfg is the page before them. */
  function InitWrites(cfg: seq<byte>): (ws: seq<BusWrite>)
    requires |cfg| == CfgBytes
  {
    InitStores() + InitTrigger(cfg) + InitResets(cfg)
  }

  /** One stored setting: it reads back as v converted, and the control bytes, the other settings and the trigger page keep their values. */
  lemma StoreStep(r: Regs, f: Field, v: int)
    requires WellFormed(r)
    ensures var r' := Replay(r, [FieldWrite(f, v)]);
      && Load(r'.cfg, f) == Wrap(v, Width(f))
      && (forall g :: g != f ==> Load(r'.cfg, g) == Load(r.cfg, g))
      && (forall i :: 0 <= i < 4 ==> r'.cfg[i] == r.cfg[i])
      && r'.trg == r.trg
  {
    StoreEffect(r, f, v);
  }

  /** The stored defaults: sample rate 125 and the two counts minus one; nothing else changes. */
  lemma InitStoresEffect(r: Regs)
    requires WellFormed(r)
    ensures var r' := Replay(r, InitStores());
      && Load(r'.cfg, SampleRate) == 125 && Load(r'.cfg, PreCount) == 4999 && Load(r'.cfg, TotalCount) == 65535
      && (forall g :: g != SampleRate && g != PreCount && g != TotalCount ==> Load(r'.cfg, g) == Load(r.cfg, g))
      && (forall i :: 0 <= i < 4 ==> r'.cfg[i] == r.cfg[i]) && r'.trg == r.trg
  {
    var w1, w2, w3 := FieldWrite(SampleRate, 125), FieldWrite(PreCount, 5000 - 1), FieldWrite(TotalCount, 65536 - 1);
    var r1 := Replay(r, [w1]);
    var r2 := Replay(r1, [w2]);
    StoreStep(r, SampleRate, 125);
    StoreStep(r1, PreCount, 5000 - 1);
    StoreStep(r2, TotalCount, 65536 - 1);
    ReplayAppend(r, [w1], [w2]);
    ReplayAppend(r, [w1] + [w2], [w3]);
    WrapU16InRange(125);
    WrapU32InRange(4999);
    WrapU32InRange(65535);
  }

  /** Counts stored as 4999 and 65535 make a scope read take 5000 samples before the trigger and 65536 in all. */
  lemma DefaultScopeCounts(cfg: seq<byte>)
    requires |cfg| == CfgBytes && Load(cfg, PreCount) == 4999 && Load(cfg, TotalCount) == 65535
    ensures ScopePre(cfg) == 5000 && ScopeTotal(cfg) == 65536
  {
    WrapU32InRange(5000);
    WrapU32InRange(65536);
  }

  /** The constructor's resets depend only on the three control bytes they pulse. */
  lemma InitResetsReadControlBytes(c1: seq<byte>, c2: seq<byte>)
    requires |c1| == CfgBytes && |c2| == CfgBytes
    requires c1[RstChan0] == c2[RstChan0] && c1[RstChan1] == c2[RstChan1] && c1[RstScope] == c2[RstScope]
    ensures InitResets(c1) == InitResets(c2)
  {
  }

  /** The constructor's resets raise the reset bits of both channels and of the scope, and change nothing else. */
  lemma InitResetsReplay(r: Regs)
    requires WellFormed(r)
    ensures Replay(r, InitResets(r.cfg)) == r.(cfg := r.cfg
      [RstChan0 := Raised(r.cfg[RstChan0], ChannelResetBits)]
      [RstChan1 := Raised(r.cfg[RstChan1], ChannelResetBits)]
      [RstScope := Raised(r.cfg[RstScope], ScopeResetBits)])
  {
    var p0 := Writes(Pulse(RstChan0, ChannelResetBits), r.cfg);
    var p1 := Writes(Pulse(RstChan1, ChannelResetBits), r.cfg);
    var p2 := Writes(Pulse(RstScope, ScopeResetBits), r.cfg);
    var r1 := r.(cfg := r.cfg[RstChan0 := Raised(r.cfg[RstChan0], ChannelResetBits)]);
    var r2 := r1.(cfg := r1.cfg[RstChan1 := Raised(r.cfg[RstChan1], ChannelResetBits)]);
    PulseReplay(r, RstChan0, ChannelResetBits);
    PulseReplay(r, RstChan1, ChannelResetBits);
    PulseReplay(r, RstScope, ScopeResetBits);
    PulseReplay(r1, RstChan1, ChannelResetBits);
    PulseReplay(r2, RstScope, ScopeResetBits);
    assert Replay(r, p0) == r1;
    assert Replay(r1, p1) == r2;
    ReplayAppend(r, p0, p1);
    ReplayAppend(r, p0 + p1, p2);
  }

  /** The constructor's trigger writes do not depend on the configuration page. */
  lemma InitTriggerWrites(cfg: seq<byte>)
    requires |cfg| == CfgBytes
    ensures InitTrigger(cfg) == [TrgWrite(16, 0), TrgWrite(0, 2)]
  {
    assert Writes(TriggerSource(0), cfg) == [TrgWrite(16, 0), TrgWrite(0, 2)];
  }

  /** The registers after the constructor's stores and trigger selection, before its resets. */
  function Configured(r: Regs): (c: Regs)
    requires WellFormed(r)
    ensures WellFormed(c)
  {
    Replay(Replay(r, InitStores()), [TrgWrite(16, 0), TrgWrite(0, 2)])
  }

  /** The registers after the constructor, started from r. */
  function Booted(r: Regs): (b: Regs)
    requires WellFormed(r)
    ensures WellFormed(b)
  {
    Replay(r, InitWrites(r.cfg))
  }

  /** The stores followed by the trigger selection, stated on the states between them. */
  lemma StoresThenTrigger(r: Regs, r1: Regs, c: Regs)
    requires WellFormed(r) && WellFormed(r1)
    requires Load(r1.cfg, SampleRate) == 125 && Load(r1.cfg, PreCount) == 4999 && Load(r1.cfg, TotalCount) == 65535
    requires forall g :: g != SampleRate && g != PreCount && g != TotalCount ==> Load(r1.cfg, g) == Load(r.cfg, g)
    requires forall i :: 0 <= i < 4 ==> r1.cfg[i] == r.cfg[i]
    requires r1.trg == r.trg
    requires c == r1.(trg := r1.trg[16 := 0][0 := 2])
    ensures c.cfg[RstChan0] == r.cfg[RstChan0] && c.cfg[RstChan1] == r.cfg[RstChan1]
    ensures c.cfg[RstScope] == r.cfg[RstScope] && c.cfg[RstGenerator] == r.cfg[RstGenerator]
    ensures c.trg == r.trg[16 := 0][0 := 2]
    ensures forall g :: g != SampleRate && g != PreCount && g != TotalCount ==> Load(c.cfg, g) == Load(r.cfg, g)
    ensures Load(c.cfg, SampleRate) == 125 && Load(c.cfg, PreCount) == 4999 && Load(c.cfg, TotalCount) == 65535
  {
  }

  /** Before its resets the constructor has stored the three defaults, selected trigger source 0, and changed nothing else. */
  lemma ConfiguredEffect(r: Regs)
    requires WellFormed(r)
    ensures var c := Configured(r);
      && c.cfg[RstChan0] == r.cfg[RstChan0] && c.cfg[RstChan1] == r.cfg[RstChan1]
      && c.cfg[RstScope] == r.cfg[RstScope] && c.cfg[RstGenerator] == r.cfg[RstGenerator]
      && c.trg == r.trg[16 := 0][0 := 2]
      && (forall g :: g != SampleRate && g != PreCount && g != TotalCount ==> Load(c.cfg, g) == Load(r.cfg, g))
      && Load(c.cfg, SampleRate) == 125 && Load(c.cfg, PreCount) == 4999 && Load(c.cfg, TotalCount) == 65535
  {
    var r1 := Replay(r, InitStores());
    InitStoresEffect(r);
    InitTriggerWrites(r1.cfg);
    TriggerSourceEffect(r1, 0);
    StoresThenTrigger(r, r1, Configured(r));
  }

  /** The constructor's writes are the stores and the trigger selection, then the resets computed from the control bytes as they were at the start. */
  lemma BootedStages(r: Regs)
    requires WellFormed(r)
    ensures Booted(r) == Replay(Configured(r), InitResets(Configured(r).cfg))
  {
    InitTriggerWrites(r.cfg);
    ReplayAppend(r, InitStores(), InitTrigger(r.cfg));
    ReplayAppend(r, InitStores() + InitTrigger(r.cfg), InitResets(r.cfg));
    ConfiguredEffect(r);
    InitResetsReadControlBytes(Configured(r).cfg, r.cfg);
  }

  /** The resets, stated on the state before them. */
  lemma ResetsFrom(r: Regs, c: Regs, b: Regs)
    requires WellFormed(r) && WellFormed(c)
    requires c.cfg[RstChan0] == r.cfg[RstChan0] && c.cfg[RstChan1] == r.cfg[RstChan1]
    requires c.cfg[RstScope] == r.cfg[RstScope] && c.cfg[RstGenerator] == r.cfg[RstGenerator]
    requires c.trg == r.trg[16 := 0][0 := 2]
    requires b == c.(cfg := c.cfg
      [RstChan0 := Raised(c.cfg[RstChan0], ChannelResetBits)]
      [RstChan1 := Raised(c.cfg[RstChan1], ChannelResetBits)]
      [RstScope := Raised(c.cfg[RstScope], ScopeResetBits)])
    ensures b.cfg[RstChan0] == Raised(r.cfg[RstChan0], ChannelResetBits)
    ensures b.cfg[RstChan1] == Raised(r.cfg[RstChan1], ChannelResetBits)
    ensures b.cfg[RstScope] == Raised(r.cfg[RstScope], ScopeResetBits)
    ensures b.cfg[RstGenerator] == r.cfg[RstGenerator]
    ensures b.trg == r.trg[16 := 0][0 := 2]
    ensures forall g :: Load(b.cfg, g) == Load(c.cfg, g)
  {
    var c0: seq<byte> := c.cfg[RstChan0 := Raised(c.cfg[RstChan0], ChannelResetBits)];
    var c1: seq<byte> := c0[RstChan1 := Raised(c.cfg[RstChan1], ChannelResetBits)];
    forall g
      ensures Load(b.cfg, g) == Load(c.cfg, g)
    {
      ControlWriteKeepsSettings(c.cfg, RstChan0, Raised(c.cfg[RstChan0], ChannelResetBits), g);
      ControlWriteKeepsSettings(c0, RstChan1, Raised(c.cfg[RstChan1], ChannelResetBits), g);
      ControlWriteKeepsSettings(c1, RstScope, Raised(c.cfg[RstScope], ScopeResetBits), g);
    }
  }

  /** The settings after the constructor: the three defaults, and every other setting as it was. */
  lemma InitSettings(r: Regs)
    requires WellFormed(r)
    ensures Load(Booted(r).cfg, SampleRate) == 125
    ensures ScopePre(Booted(r).cfg) == 5000 && ScopeTotal(Booted(r).cfg) == 65536
    ensures forall g :: g != SampleRate && g != PreCount && g != TotalCount ==> Load(Booted(r).cfg, g) == Load(r.cfg, g)
  {
    ConfiguredEffect(r);
    BootedStages(r);
    InitResetsReplay(Configured(r));
    ResetsFrom(r, Configured(r), Booted(r));
    DefaultScopeCounts(Booted(r).cfg);
  }

  /**
   * The control registers and the trigger page after the constructor: the reset bits of
   * both channels and of the scope raised, the generator register as it was, the trigger
   * source set to channel 0 and the trigger update word set to 2.
   */
  lemma InitControls(r: Regs)
    requires WellFormed(r)
    ensures Booted(r).cfg[RstChan0] == Raised(r.cfg[RstChan0], ChannelResetBits)
    ensures Booted(r).cfg[RstChan1] == Raised(r.cfg[RstChan1], ChannelResetBits)
    ensures Booted(r).cfg[RstScope] == Raised(r.cfg[RstScope], ScopeResetBits)
    ensures Booted(r).cfg[RstGenerator] == r.cfg[RstGenerator]
    ensures Booted(r).trg == r.trg[16 := 0][0 := 2]
  {
    ConfiguredEffect(r);
    BootedStages(r);
    InitResetsReplay(Configured(r));
    ResetsFrom(r, Configured(r), Booted(r));
  }

  /** The two writes of a pulse: the bits cleared, then set. */
  lemma PulseWrites(cfg: seq<byte>, reg: Reg, m: bv8)
    requires |cfg| == CfgBytes
    ensures var low := ClearBits(cfg[reg], m);
      Writes(Pulse(reg, m), cfg) == [CtrlWrite(reg, low)] + [CtrlWrite(reg, SetBits(low, m))]
  {
    var low := ClearBits(cfg[reg], m);
    assert Writes(Pulse(reg, m), cfg) == [CtrlWrite(reg, low), CtrlWrite(reg, SetBits(low, m))];
    assert [CtrlWrite(reg, low)] + [CtrlWrite(reg, SetBits(low, m))] == [CtrlWrite(reg, low), CtrlWrite(reg, SetBits(low, m))];
  }

  /** The two writes of a strobe: the bits set, then cleared. */
  lemma StrobeWrites(cfg: seq<byte>, reg: Reg, m: bv8)
    requires |cfg| == CfgBytes
    ensures var high := SetBits(cfg[reg], m);
      Writes(Strobe(reg, m), cfg) == [CtrlWrite(reg, high)] + [CtrlWrite(reg, ClearBits(high, m))]
  {
    var high := SetBits(cfg[reg], m);
    assert Writes(Strobe(reg, m), cfg) == [CtrlWrite(reg, high), CtrlWrite(reg, ClearBits(high, m))];
    assert [CtrlWrite(reg, high)] + [CtrlWrite(reg, ClearBits(high, m))] == [CtrlWrite(reg, high), CtrlWrite(reg, ClearBits(high, m))];
  }

  /** The two writes of a trigger-source selection: the source word, then the update strobe. */
  lemma TriggerWrites(cfg: seq<byte>, ch: Chan)
    requires |cfg| == CfgBytes
    ensures Writes(TriggerSource(ch), cfg) == [TrgWrite(16, ch as bv32)] + [TrgWrite(0, 2)]
  {
    assert Writes(TriggerSource(ch), cfg) == [TrgWrite(16, ch as bv32), TrgWrite(0, 2)];
    assert [TrgWrite(16, ch as bv32)] + [TrgWrite(0, 2)] == [TrgWrite(16, ch as bv32), TrgWrite(0, 2)];
  }

  /** A pulse reads only the byte of the register it pulses. */
  lemma PulseReadsOwnByte(c1: seq<byte>, c2: seq<byte>, reg: Reg, m: bv8)
    requires |c1| == CfgBytes && |c2| == CfgBytes && c1[reg] == c2[reg]
    ensures Writes(Pulse(reg, m), c1) == Writes(Pulse(reg, m), c2)
  {
    PulseWrites(c1, reg, m);
    PulseWrites(c2, reg, m);
  }

  /** The constructor's resets issued one pulse at a time, each on the page the previous pulses left, are InitResets of the page before them. */
  lemma ResetLog(c0: seq<byte>, c1: seq<byte>, c2: seq<byte>, log: seq<BusWrite>)
    requires |c0| == CfgBytes
    requires c1 == c0[RstChan0 := Raised(c0[RstChan0], ChannelResetBits)]
    requires c2 == c1[RstChan1 := Raised(c1[RstChan1], ChannelResetBits)]
    requires log == Writes(Pulse(RstChan0, ChannelResetBits), c0)
      + Writes(Pulse(RstChan1, ChannelResetBits), c1) + Writes(Pulse(RstScope, ScopeResetBits), c2)
    ensures log == InitResets(c0)
  {
    PulseReadsOwnByte(c1, c0, RstChan1, ChannelResetBits);
    PulseReadsOwnByte(c2, c0, RstScope, ScopeResetBits);
  }

  /** The constructor's log: its stores, its trigger selection on the page they left, and its resets on that page, are InitWrites of the page it started from. */
  lemma InitLog(c0: seq<byte>, c3: seq<byte>, log: seq<BusWrite>)
    requires |c0| == CfgBytes && |c3| == CfgBytes
    requires c3[..4] == c0[..4]
    requires log == InitStores() + InitTrigger(c3) + InitResets(c3)
    ensures log == InitWrites(c0)
  {
    assert c3[RstChan0] == c3[..4][RstChan0] && c0[RstChan0] == c0[..4][RstChan0];
    assert c3[RstChan1] == c3[..4][RstChan1] && c0[RstChan1] == c0[..4][RstChan1];
    assert c3[RstScope] == c3[..4][RstScope] && c0[RstScope] == c0[..4][RstScope];
    InitResetsReadControlBytes(c3, c0);
    InitTriggerWrites(c3);
    InitTriggerWrites(c0);
  }

  /** Storing n - 1 as the total count makes a scope read take n samples, for n up to the scope window's size. */
  lemma TotalCountStored(r: Regs, n: int)
    requires WellFormed(r) && 0 <= n <= ScopeSlots
    ensures ScopeTotal(Replay(r, [FieldWrite(TotalCount, n - 1)]).cfg) == n
  {
    StoreEffect(r, TotalCount, n - 1);
    WrapPredecessor(n);
    WrapU32InRange(n);
  }

  /** The scope read size after an action: unchanged unless the action is command 20, which makes it the count given. */
  lemma ScopeTotalAfter(a: Action, r: Regs)
    requires WellFormed(r) && !(a.Store? && a.field == TotalCount)
    ensures !a.StoreTotal? ==> ScopeTotal(Replay(r, Writes(a, r.cfg)).cfg) == ScopeTotal(r.cfg)
    ensures a.StoreTotal? && 0 <= a.count <= ScopeSlots ==> ScopeTotal(Replay(r, Writes(a, r.cfg)).cfg) == a.count
  {
    if a.StoreTotal? {
      if 0 <= a.count <= ScopeSlots {
        TotalCountStored(r, a.count);
      }
    } else {
      KeepsTotalCount(a, r);
    }
  }

  /** Fills a response buffer: the tag as a little-endian u32 at offset 0, then the payload at offset 4. */
  method FillFrame(buf: array<byte>, tag: nat, payload: seq<byte>)
    requires tag < 0x1_0000_0000 && buf.Length == 4 + |payload|
    modifies buf
    ensures buf[..] == Frame(tag, payload)
  {
    ghost var b0 := buf[..];
    var bs := Le(tag, 4);
    Memcpy(buf, 0, bs);
    Memcpy(buf, 4, payload);
    OverwriteAdjacent(b0, 0, bs, payload);
    OverwriteAll(b0, bs + payload);
  }

  /**
   * Fills the scope buffer: tag 5, then tot samples from slot start of the scope window,
   * copied in one run or, when the read reaches slot 0x7FFFFF, in a run up to that slot
   * and a run from slot 0.
   */
  method FillScope(buf: array<byte>, region: array<byte>, start: nat, tot: nat)
    requires region.Length == ScopeBytes && start < ScopeSlots && tot <= ScopeSlots
    requires buf.Length == 4 + 4 * tot && buf != region
    modifies buf
    ensures buf[..] == Frame(ScopeTag, ScopeWindow(region[..], start, tot))
  {
    if start + tot <= ScopeSplit {
      FillFrame(buf, ScopeTag, region[4 * start..4 * (start + tot)]);
    } else {
      var one := 4 * (ScopeSplit - start);
      var two := 4 * (start + tot - ScopeSplit);
      FillSplitFrame(buf, ScopeTag, region[4 * start..4 * start + one], region[..two]);
    }
  }

  /** Fills a response buffer whose payload is copied in two runs: head at offset 4, then tail right after it. */
  method FillSplitFrame(buf: array<byte>, tag: nat, head: seq<byte>, tail: seq<byte>)
    requires tag < 0x1_0000_0000 && buf.Length == 4 + |head| + |tail|
    modifies buf
    ensures buf[..] == Frame(tag, head + tail)
  {
    ghost var b0 := buf[..];
    var bs := Le(tag, 4);
    Memcpy(buf, 0, bs);
    Memcpy(buf, 4, head);
    Memcpy(buf, 4 + |head|, tail);
    OverwriteAdjacent(b0, 0, bs, head);
    OverwriteAdjacent(b0, 0, bs + head, tail);
    assert bs + head + tail == bs + (head + tail);
    OverwriteAll(b0, bs + (head + tail));
  }

  class Server {
    /** m_Sts, m_Cfg, m_Trg, m_Hist[0], m_Hist[1] and m_Scope: the mapped hardware windows. */
    const sts: array<byte>
    const cfg: array<byte>
    const trg: array<bv32>
    const hist0: array<byte>
    const hist1: array<byte>
    const scope: array<byte>
    /** The response buffers. */
    const bufferTimer: array<byte>
    const bufferHist: array<byte>
    const bufferStatus: array<byte>
    var bufferScope: array<byte>
    /** m_WebSocket. */
    var session: Gate
    /** Messages sent, oldest first, and sockets closed on arrival. */
    var outbox: seq<Outgoing>
    var closed: seq<SocketId>

    /** The writable registers. */
    ghost function State(): Regs
      reads cfg, trg
    {
      Regs(cfg[..], trg[..])
    }

    /** The windows have their mapped sizes, the configuration page is none of the read-only windows, and no response buffer is a window. */
    ghost predicate Valid()
      reads this
    {
      && sts.Length == StsBytes && cfg.Length == CfgBytes && trg.Length == TrgWords
      && hist0.Length == HistBytes && hist1.Length == HistBytes && scope.Length == ScopeBytes
      && bufferTimer.Length == 12 && bufferHist.Length == 4 + 4 * HistBins && bufferStatus.Length == 8
      && cfg !in {sts, hist0, hist1, scope}
      && bufferTimer !in {sts, cfg, hist0, hist1, scope} && bufferHist !in {sts, cfg, hist0, hist1, scope}
      && bufferStatus !in {sts, cfg, hist0, hist1, scope} && bufferScope !in {sts, cfg, hist0, hist1, scope}
      && trg as object != bufferScope
    }

    /** A scope read stays inside the scope window and fills the scope buffer exactly. */
    ghost predicate ScopeReadable()
      reads this, cfg
    {
      cfg.Length == CfgBytes && ScopeTotal(cfg[..]) <= ScopeSlots && bufferScope.Length == 4 + 4 * ScopeTotal(cfg[..])
    }

    /** Since the old state the server issued the bus writes ws: the registers are the old registers with ws replayed. */
    twostate predicate Issued(ws: seq<BusWrite>)
      reads this, cfg, trg
    {
      && cfg.Length == CfgBytes && trg.Length == TrgWords
      && State() == Replay(old(State()), ws)
    }

    /** Since the old state the server filled buf with m and sent it to the bound client, and changed nothing else of its own. */
    twostate predicate Sent(buf: array<byte>, m: seq<byte>)
      reads this, buf
    {
      && buf[..] == m
      && session == old(session) && session.Bound?
      && outbox == old(outbox) + [Outgoing(session.socket, m)]
      && closed == old(closed) && bufferScope == old(bufferScope)
    }

    /**
     * Server::Server: takes the mapped windows, stores the default sample rate and scope
     * counts, selects trigger source 0, pulses the channel and scope resets, and allocates
     * the response buffers. No client is bound.
     */
    constructor (sts: array<byte>, cfg: array<byte>, trg: array<bv32>, hist0: array<byte>, hist1: array<byte>, scope: array<byte>)
      requires sts.Length == StsBytes && cfg.Length == CfgBytes && trg.Length == TrgWords
      requires hist0.Length == HistBytes && hist1.Length == HistBytes && scope.Length == ScopeBytes
      requires cfg !in {sts, hist0, hist1, scope}
      modifies cfg, trg
      ensures Valid() && ScopeReadable()
      ensures this.sts == sts && this.cfg == cfg && this.trg == trg
      ensures this.hist0 == hist0 && this.hist1 == hist1 && this.scope == scope
      ensures fresh(bufferTimer) && fresh(bufferHist) && fresh(bufferStatus) && fresh(bufferScope)
      ensures bufferScope.Length == 4 + 4 * 65536
      ensures State() == Booted(Regs(old(cfg[..]), old(trg[..])))
      ensures session == Idle && outbox == [] && closed == []
    {
      this.sts, this.cfg, this.trg := sts, cfg, trg;
      this.hist0, this.hist1, this.scope := hist0, hist1, scope;
      bufferTimer := new byte[4 + 8];
      bufferHist := new byte[4 + 16384 * 4];
      bufferStatus := new byte[4 + 4];
      bufferScope := new byte[4 + 65536 * 4];
      session, outbox, closed := Idle, [], [];
      new;
      Boot();
    }

    /** The register writes of the constructor, from a server that has issued none. */
    method Boot()
      requires Valid() && bufferScope.Length == 4 + 4 * 65536
      modifies cfg, trg
      ensures Valid() && Issued(InitWrites(old(cfg[..]))) && ScopeReadable()
    {
      ghost var s0 := State();
      StoreRateAndCounts(125, 5000 - 1, 65536 - 1);
      ghost var s1 := State();
      SelectTrigger(0);
      ghost var s2 := State();
      ResetChannelsAndScope();
      ReplayAppend(s0, InitStores(), InitTrigger(s1.cfg));
      ReplayAppend(s0, InitStores() + InitTrigger(s1.cfg), InitResets(s1.cfg));
      InitLog(s0.cfg, s1.cfg, InitStores() + InitTrigger(s1.cfg) + InitResets(s1.cfg));
      InitSettings(s0);
    }

    /** Stores v into control-bit register reg. */
    method WriteCtrl(reg: Reg, v: byte)
      requires Valid()
      modifies cfg
      ensures Valid() && Issued([CtrlWrite(reg, v)])
      ensures cfg[..] == old(cfg[..])[reg := v]
    {
      cfg[reg] := v;
      assert cfg[..] == old(cfg[..])[reg := v];
      ApplyCtrlWrite(old(State()), reg, v);
      ReplayOne(old(State()), CtrlWrite(reg, v));
    }

    /** Stores v into setting f, converted to the setting's width. */
    method StoreCfg(f: Field, v: int)
      requires Valid()
      modifies cfg
      ensures Valid() && Issued([FieldWrite(f, v)])
      ensures cfg[..] == Overwrite(old(cfg[..]), Offset(f), FieldWrite(f, v).bytes)
      ensures cfg[..4] == old(cfg[..4])
    {
      var w := FieldWrite(f, v);
      Memcpy(cfg, w.offset, w.bytes);
      OverwriteOutside(old(cfg[..]), w.offset, w.bytes, 0, 4);
      assert cfg[..4] == cfg[..][0..4];
      ReplayOne(old(State()), w);
    }

    /** Stores x into trigger word i. */
    method WriteTrg(i: nat, x: bv32)
      requires Valid() && i < TrgWords
      modifies trg
      ensures Valid() && Issued([TrgWrite(i, x)])
    {
      trg[i] := x;
      assert trg[..] == old(trg[..])[i := x];
      ReplayOne(old(State()), TrgWrite(i, x));
    }

    /** Pulses the bits m of control-bit register reg: cleared, then set. */
    method PulseBits(reg: Reg, m: bv8)
      requires Valid()
      modifies cfg
      ensures Valid() && Issued(Writes(Pulse(reg, m), old(cfg[..])))
      ensures cfg[..] == old(cfg[..])[reg := Raised(old(cfg[reg]), m)]
    {
      ghost var s0 := State();
      var w1 := CtrlWrite(reg, ClearBits(cfg[reg], m));
      WriteCtrl(reg, ClearBits(cfg[reg], m));
      ghost var s1 := State();
      var w2 := CtrlWrite(reg, SetBits(cfg[reg], m));
      WriteCtrl(reg, SetBits(cfg[reg], m));
      PulseWrites(s0.cfg, reg, m);
      assert s0.cfg[reg := ClearBits(s0.cfg[reg], m)][reg := SetBits(ClearBits(s0.cfg[reg], m), m)] == s0.cfg[reg := Raised(s0.cfg[reg], m)];
      ReplayAppend(s0, [w1], [w2]);
    }

    /** Strobes the bits m of control-bit register reg: set, then cleared. */
    method StrobeBits(reg: Reg, m: bv8)
      requires Valid()
      modifies cfg
      ensures Valid() && Issued(Writes(Strobe(reg, m), old(cfg[..])))
    {
      ghost var s0 := State();
      var w1 := CtrlWrite(reg, SetBits(cfg[reg], m));
      WriteCtrl(reg, SetBits(cfg[reg], m));
      ghost var s1 := State();
      var w2 := CtrlWrite(reg, ClearBits(cfg[reg], m));
      WriteCtrl(reg, ClearBits(cfg[reg], m));
      StrobeWrites(s0.cfg, reg, m);
      ReplayAppend(s0, [w1], [w2]);
    }

    /** The constructor's three stores, in order: the sample rate, the pre-trigger count and the total count. */
    method StoreRateAndCounts(rate: int, pre: int, total: int)
      requires Valid()
      modifies cfg
      ensures Valid() && Issued([FieldWrite(SampleRate, rate)] + [FieldWrite(PreCount, pre)] + [FieldWrite(TotalCount, total)])
      ensures cfg[..4] == old(cfg[..4])
    {
      ghost var s0 := State();
      StoreCfg(SampleRate, rate);
      ghost var s1 := State();
      StoreCfg(PreCount, pre);
      ghost var s2 := State();
      StoreCfg(TotalCount, total);
      ReplayAppend(s0, [FieldWrite(SampleRate, rate)], [FieldWrite(PreCount, pre)]);
      ReplayAppend(s0, [FieldWrite(SampleRate, rate)] + [FieldWrite(PreCount, pre)], [FieldWrite(TotalCount, total)]);
    }

    /** The constructor's resets: both bits of each channel's control register, then both scope reset bits. */
    method ResetChannelsAndScope()
      requires Valid()
      modifies cfg
      ensures Valid() && Issued(InitResets(old(cfg[..])))
    {
      ghost var s0 := State();
      PulseBits(RstChan0, ChannelResetBits);
      ghost var s1 := State();
      PulseBits(RstChan1, ChannelResetBits);
      ghost var s2 := State();
      PulseBits(RstScope, ScopeResetBits);
      ghost var p0, p1, p2 := Writes(Pulse(RstChan0, ChannelResetBits), s0.cfg), Writes(Pulse(RstChan1, ChannelResetBits), s1.cfg), Writes(Pulse(RstScope, ScopeResetBits), s2.cfg);
      ReplayAppend(s0, p0, p1);
      ReplayAppend(s0, p0 + p1, p2);
      ResetLog(s0.cfg, s1.cfg, s2.cfg, p0 + p1 + p2);
    }

    /** Clears the bits m of control-bit register reg when v is 0, sets them when v is 1, and does nothing otherwise. */
    method FlagBits(reg: Reg, m: bv8, v: int)
      requires Valid()
      modifies cfg
      ensures Valid() && Issued(Writes(Flag(reg, m, v), old(cfg[..])))
    {
      if v == 0 {
        WriteCtrl(reg, ClearBits(cfg[reg], m));
      } else if v == 1 {
        WriteCtrl(reg, SetBits(cfg[reg], m));
      }
    }

    /** Selects input channel ch as trigger source (trigger word 16), then writes 2 to trigger word 0 to apply it. */
    method SelectTrigger(ch: Chan)
      requires Valid()
      modifies trg
      ensures Valid() && Issued(Writes(TriggerSource(ch), old(cfg[..])))
    {
      ghost var s0 := State();
      WriteTrg(16, ch as bv32);
      ghost var s1 := State();
      WriteTrg(0, 2);
      ReplayAppend(s0, [TrgWrite(16, ch as bv32)], [TrgWrite(0, 2)]);
      TriggerWrites(s0.cfg, ch);
    }

    /** The socket's binary-message send: the bytes of buf go to the bound client. */
    method Transmit(buf: array<byte>)
      requires session.Bound?
      modifies this`outbox
      ensures outbox == old(outbox) + [Outgoing(session.socket, buf[..])]
    {
      outbox := outbox + [Outgoing(session.socket, buf[..])];
    }

    /** Command 13: the timer value of channel ch from the status page, tagged ch. */
    method SendTimer(ch: Chan)
      requires Valid() && session.Bound?
      modifies this`outbox, bufferTimer
      ensures Valid() && Sent(bufferTimer, TimerReply(ch, sts[..]))
    {
      var off := TimerStatusOffset(ch);
      FillFrame(bufferTimer, TimerTag(ch), sts[off..off + 8]);
      Transmit(bufferTimer);
    }

    /** Command 14: all bins of channel ch's histogram window, tagged 2 + ch. */
    method SendHistogram(ch: Chan)
      requires Valid() && session.Bound?
      modifies this`outbox, bufferHist
      ensures Valid() && Sent(bufferHist, HistogramReply(ch, if ch == 0 then hist0[..] else hist1[..]))
    {
      var hist := if ch == 0 then hist0 else hist1;
      FillFrame(bufferHist, HistogramTag(ch), hist[..]);
      Transmit(bufferHist);
    }

    /** Command 22: the scope status word from the status page, tagged 4. */
    method SendStatus()
      requires Valid() && session.Bound?
      modifies this`outbox, bufferStatus
      ensures Valid() && Sent(bufferStatus, StatusReply(sts[..]))
    {
      FillFrame(bufferStatus, StatusTag, sts[ScopeStatusOffset..ScopeStatusOffset + 4]);
      Transmit(bufferStatus);
    }

    /** Command 23: tot samples from the start slot on, where tot and start come from the scope counts and the status word. */
    method SendScope()
      requires Valid() && session.Bound? && ScopeReadable()
      modifies this`outbox, bufferScope
      ensures Valid() && ScopeReadable() && Sent(bufferScope, ScopeReply(cfg[..], sts[..], scope[..]))
    {
      var pre := ScopePre(cfg[..]);
      var tot := ScopeTotal(cfg[..]);
      var start := ScopeStart(ScopeStatus(sts[..]), pre);
      FillScope(bufferScope, scope, start, tot);
      Transmit(bufferScope);
    }

    /**
     * Command 20's buffer resize: the scope buffer becomes 4 + 4 * count bytes (none when
     * that is negative) and keeps its leading bytes; bytes past the old end are unspecified.
     */
    method ResizeScopeBuffer(count: int)
      requires Valid()
      modifies this`bufferScope
      ensures Valid() && fresh(bufferScope) && bufferScope.Length == ScopeBufferSize(count)
      ensures var keep := if bufferScope.Length < old(bufferScope.Length) then bufferScope.Length else old(bufferScope.Length);
        bufferScope[..keep] == old(bufferScope[..keep])
    {
      var n := ScopeBufferSize(count);
      var keep := if n < bufferScope.Length then n else bufferScope.Length;
      var kept := bufferScope[..keep];
      var b := new byte[n];
      ghost var b0 := b[..];
      Memcpy(b, 0, kept);
      OverwriteBytes(b0, 0, kept);
      bufferScope := b;
    }

    /** The register side of a command that is not a read: its bus writes, in order, and for command 20 the buffer resize. */
    method Execute(a: Action)
      requires Valid() && !IsRead(a) && !(a.Store? && a.field == TotalCount)
      modifies this`bufferScope, cfg, trg
      ensures Valid() && Issued(Writes(a, old(cfg[..])))
      ensures a.StoreTotal? ==> fresh(bufferScope) && bufferScope.Length == ScopeBufferSize(a.count)
      ensures !a.StoreTotal? ==> bufferScope == old(bufferScope)
      ensures old(ScopeReadable()) && !a.StoreTotal? ==> ScopeReadable()
      ensures a.StoreTotal? && 0 <= a.count <= ScopeSlots ==> ScopeReadable()
    {
      ghost var r0 := State();
      match a {
        case Pulse(reg, m) => PulseBits(reg, m);
        case Strobe(reg, m) => StrobeBits(reg, m);
        case Flag(reg, m, v) => FlagBits(reg, m, v);
        case Store(f, v) => StoreCfg(f, v);
        case StoreTotal(n) =>
          StoreCfg(TotalCount, n - 1);
          ResizeScopeBuffer(n);
        case TriggerSource(ch) => SelectTrigger(ch);
        case Ignore =>
      }
      ScopeTotalAfter(a, r0);
    }

    /** The response to a read command, sent to the bound client; no register changes. */
    method Respond(a: Action)
      requires Valid() && IsRead(a) && session.Bound? && (a.ReadScope? ==> ScopeReadable())
      modifies this`outbox, bufferTimer, bufferHist, bufferStatus, bufferScope
      ensures Valid() && session == old(session) && closed == old(closed) && bufferScope == old(bufferScope)
      ensures outbox == old(outbox) + [Outgoing(session.socket, Reply(a, cfg[..], sts[..], hist0[..], hist1[..], scope[..]))]
      ensures old(ScopeReadable()) ==> ScopeReadable()
    {
      match a {
        case ReadTimer(ch) => SendTimer(ch);
        case ReadHistogram(ch) => SendHistogram(ch);
        case ReadStatus => SendStatus();
        case ReadScope => SendScope();
      }
    }

    /**
     * on_WebSocket_binaryMessageReceived: the first 16 bytes of message are a command whose
     * float64 value is value. The command's bus writes are issued in order; a read command
     * sends its response to the bound client; command 20 also resizes the scope buffer.
     * A client must be bound to read, and a scope read needs a scope buffer sized to the
     * stored total count.
     */
    method OnBinaryMessage(message: seq<byte>, value: int)
      requires Valid() && |message| >= 16
      requires IsRead(Decode(ParseCommand(message, value))) ==> session.Bound?
      requires Decode(ParseCommand(message, value)).ReadScope? ==> ScopeReadable()
      modifies this`outbox, this`bufferScope, cfg, trg, bufferTimer, bufferHist, bufferStatus, bufferScope
      ensures Valid() && session == old(session) && closed == old(closed)
      ensures unchanged(sts, hist0, hist1, scope)
      ensures State() == After(ParseCommand(message, value), old(State()))
      ensures var a := Decode(ParseCommand(message, value));
        && (IsRead(a) ==> outbox == old(outbox) + [Outgoing(session.socket, Reply(a, cfg[..], sts[..], hist0[..], hist1[..], scope[..]))])
        && (!IsRead(a) ==> outbox == old(outbox))
      ensures var a := Decode(ParseCommand(message, value));
        && (a.StoreTotal? ==> fresh(bufferScope) && bufferScope.Length == ScopeBufferSize(a.count))
        && (!a.StoreTotal? ==> bufferScope == old(bufferScope))
      ensures var a := Decode(ParseCommand(message, value));
        && (old(ScopeReadable()) && !a.StoreTotal? ==> ScopeReadable())
        && (a.StoreTotal? && 0 <= a.count <= ScopeSlots ==> ScopeReadable())
    {
      var c := ParseCommand(message, value);
      var a := Decode(c);
      ghost var r0 := State();
      if IsRead(a) {
        ReadCommandsWriteNothing(c, r0);
        Respond(a);
        assert cfg[..] == r0.cfg;
        assert trg[..] == r0.trg;
        assert State() == r0;
      } else {
        Execute(a);
      }
    }

    /**
     * on_WebSocketServer_newConnection: pending is the next pending socket, possibly null.
     * It is closed when a client is already bound; otherwise it becomes the bound client.
     */
    method OnNewConnection(pending: Option<SocketId>)
      requires Valid()
      modifies this`session, this`closed
      ensures Valid()
      ensures var adm := Connect(old(session), pending);
        && session == adm.gate
        && closed == old(closed) + (if adm.closed.Some? then [adm.closed.value] else [])
    {
      if session.Bound? && pending.Some? {
        closed := closed + [pending.value];
        return;
      }
      session := if pending.Some? then Bound(pending.value) else Idle;
    }

    /** on_WebSocket_disconnected: sender is the signalling socket, or null when the cast fails; only the bound client's disconnect unbinds it. */
    method OnDisconnected(sender: Option<SocketId>)
      requires Valid()
      modifies this`session
      ensures Valid()
      ensures session == Disconnect(old(session), sender)
    {
      if sender.None? {
        return;
      }
      if session == Bound(sender.value) {
        session := Idle;
      }
    }
  }
}
