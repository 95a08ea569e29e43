// The APU's top level (nescore/src/apu/apu.rs): five channels and the frame
// sequencer behind the CPU registers $4000-$4017. Each CPU-side APU cycle
// clocks the sequencer, hands its events to the channels, clocks the pulses,
// noise and DMC once and the triangle twice. Register accesses are routed
// by address; $4015 reads the status byte and enables the channels, $4017
// reloads the sequencer. The mixer (floating-point lookup tables) is not
// part of this model.

module AudioUnit {
  import opened Bits
  import opened Results
  import opened ApuLength
  import opened ApuEnvelope
  import opened ApuPulse
  import opened ApuPulseChannel
  import opened ApuTriangle
  import opened ApuNoise
  import opened ApuDmc
  import opened ApuSequencer
  import opened ApuDivider
  import opened ApuTimer

  // ---------------------------------------------------------------------
  // Register routing

  /** The five channels, in register order. */
  datatype Unit = Pulse1 | Pulse2 | TriangleUnit | NoiseUnit | DmcUnit

  /** Where a CPU address lands: a channel register, the status port, the frame counter, or nowhere. */
  datatype Port = Channel(unit: Unit, reg: nat) | StatusPort | FrameCounterPort | Unmapped

  /** The first of a channel's four registers. */
  function Base(u: Unit): (a: Addr)
    ensures 0x4000 <= a <= 0x4010 && (a - 0x4000) % 4 == 0
  {
    match u
    case Pulse1 => 0x4000
    case Pulse2 => 0x4004
    case TriangleUnit => 0x4008
    case NoiseUnit => 0x400C
    case DmcUnit => 0x4010
  }

  /**
   * The address match of read_byte and write_byte: $4000-$4013 are five
   * blocks of four channel registers numbered from each block's base,
   * $4015 is the status port, $4017 the frame counter, and anything else
   * panics (`Unmapped`).
   */
  function Decode(addr: Addr): (p: Port)
    ensures p.Channel? <==> 0x4000 <= addr <= 0x4013
    ensures p.Channel? ==> p.reg < 4 && Base(p.unit) + p.reg == addr
    ensures p == StatusPort <==> addr == 0x4015
    ensures p == FrameCounterPort <==> addr == 0x4017
  {
    if 0x4000 <= addr <= 0x4003 then Channel(Pulse1, addr - 0x4000)
    else if 0x4004 <= addr <= 0x4007 then Channel(Pulse2, addr - 0x4004)
    else if 0x4008 <= addr <= 0x400B then Channel(TriangleUnit, addr - 0x4008)
    else if 0x400C <= addr <= 0x400F then Channel(NoiseUnit, addr - 0x400C)
    else if 0x4010 <= addr <= 0x4013 then Channel(DmcUnit, addr - 0x4010)
    else if addr == 0x4015 then StatusPort
    else if addr == 0x4017 then FrameCounterPort
    else Unmapped
  }

  /** The addresses the APU answers to. */
  predicate Mapped(addr: Addr)
  {
    Decode(addr) != Unmapped
  }

  predicate PortOk(p: Port)
  {
    p != Unmapped && (p.Channel? ==> p.reg < 4)
  }

  /** The address of a port: the inverse of `Decode`. */
  function Encode(p: Port): Addr
    requires PortOk(p)
  {
    match p
    case Channel(u, reg) => Base(u) + reg
    case StatusPort => 0x4015
    case FrameCounterPort => 0x4017
  }

  /** Every port has exactly one address: decoding its address gives it back. */
  lemma DecodeEncode(p: Port)
    requires PortOk(p)
    ensures Decode(Encode(p)) == p
  {
    var a := Encode(p);
    if p.Channel? {
      assert Decode(a).Channel?;
      assert Base(Decode(a).unit) + Decode(a).reg == Base(p.unit) + p.reg;
    }
  }

  /** Every mapped address is the address of the port it decodes to. */
  lemma EncodeDecode(addr: Addr)
    requires Mapped(addr)
    ensures PortOk(Decode(addr)) && Encode(Decode(addr)) == addr
  {
  }

  // ---------------------------------------------------------------------
  // State

  /**
   * The APU's state: the channels and the sequencer, whether a bus is
   * attached (load_bus), and how many IRQs the APU has raised on it.
   */
  datatype ApuState = ApuState(
    pulse1: ChannelState, pulse2: ChannelState, triangle: TriangleState,
    noise: NoiseState, dmc: DmcState, sequencer: SeqState,
    busLoaded: bool, interrupts: nat)

  predicate ApuInv(s: ApuState)
  {
    ChannelInv(s.pulse1) && ChannelInv(s.pulse2) && TriangleInv(s.triangle) &&
    NoiseInv(s.noise) && DmcInv(s.dmc) && SeqInv(s.sequencer)
  }

  /** length_status of a channel's counter: it has not run out. */
  predicate Active(l: LengthState)
  {
    l.counter != 0
  }

  // ---------------------------------------------------------------------
  // Status ($4015 read)

  /**
   * status: bit 0 pulse 1, bit 1 pulse 2, bit 2 triangle, bit 3 noise
   * (each: the length counter has not run out), bit 4 the DMC has bytes
   * left, bit 6 the frame IRQ; bits 5 and 7 are clear.
   */
  function StatusByte(s: ApuState): (b: Byte)
    ensures BitIsSet(b, 0) <==> Active(s.pulse1.len)
    ensures BitIsSet(b, 1) <==> Active(s.pulse2.len)
    ensures BitIsSet(b, 2) <==> Active(s.triangle.len)
    ensures BitIsSet(b, 3) <==> Active(s.noise.len)
    ensures BitIsSet(b, 4) <==> DmcStatus(s.dmc)
    ensures BitIsSet(b, 6) <==> s.sequencer.frameIrq
    ensures !BitIsSet(b, 5) && !BitIsSet(b, 7)
  {
    Flag(Active(s.pulse1.len), 0x01) | Flag(Active(s.pulse2.len), 0x02) |
    Flag(Active(s.triangle.len), 0x04) | Flag(Active(s.noise.len), 0x08) |
    Flag(DmcStatus(s.dmc), 0x10) | Flag(s.sequencer.frameIrq, 0x40)
  }

  /** A length bit of the status is only ever set for an enabled channel. */
  lemma StatusNeedsEnable(s: ApuState)
    requires ApuInv(s)
    ensures BitIsSet(StatusByte(s), 0) ==> s.pulse1.len.enabled
    ensures BitIsSet(StatusByte(s), 1) ==> s.pulse2.len.enabled
    ensures BitIsSet(StatusByte(s), 2) ==> s.triangle.len.enabled
    ensures BitIsSet(StatusByte(s), 3) ==> s.noise.len.enabled
  {
  }

  // ---------------------------------------------------------------------
  // Reads

  /**
   * read_byte: the channel registers read back as 0, the status port
   * returns the status byte and acknowledges the frame IRQ, the frame
   * counter returns the sequencer's mode bits.
   */
  function ApuRead(s: ApuState, addr: Addr): (r: (Byte, ApuState))
    requires Mapped(addr)
    ensures ApuInv(s) ==> ApuInv(r.1)
    ensures r.1 == s.(sequencer := r.1.sequencer)
    ensures addr != 0x4015 ==> r.1 == s
    ensures addr == 0x4015 ==> r.0 == StatusByte(s) && r.1.sequencer == s.sequencer.(frameIrq := false)
    ensures addr == 0x4017 ==> r.0 == SeqValue(s.sequencer)
    ensures 0x4000 <= addr <= 0x4013 ==> r.0 == 0
  {
    match Decode(addr)
    case Channel(_, _) => (0, s)
    case StatusPort => (StatusByte(s), s.(sequencer := IrqRead(s.sequencer).1))
    case FrameCounterPort => (SeqValue(s.sequencer), s)
    case Unmapped => (0, s)
  }

  /** A second status read sees the same channel bits and no frame IRQ. */
  lemma StatusReadTwice(s: ApuState)
    ensures var (first, s1) := ApuRead(s, 0x4015);
      var (second, _) := ApuRead(s1, 0x4015);
      second == first & 0xBF
  {
    var (first, s1) := ApuRead(s, 0x4015);
    var (second, _) := ApuRead(s1, 0x4015);
    assert second == StatusByte(s.(sequencer := s.sequencer.(frameIrq := false)));
  }

  // ---------------------------------------------------------------------
  // Writes

  /** A channel register write, routed to the channel's own write_byte. */
  function WriteChannel(s: ApuState, u: Unit, reg: nat, d: Byte): (r: ApuState)
    requires reg < 4
    ensures ApuInv(s) ==> ApuInv(r)
  {
    match u
    case Pulse1 => s.(pulse1 := ChannelWrite(s.pulse1, reg, d))
    case Pulse2 => s.(pulse2 := ChannelWrite(s.pulse2, reg, d))
    case TriangleUnit => s.(triangle := TriangleWrite(s.triangle, reg, d))
    case NoiseUnit => s.(noise := NoiseWrite(s.noise, reg, d))
    case DmcUnit => s.(dmc := DmcWrite(s.dmc, reg, d))
  }

  /** $4015: bits 0-3 enable the four length counters, bit 4 the DMC. */
  function EnableWrite(s: ApuState, d: Byte): (r: ApuState)
    ensures ApuInv(s) ==> ApuInv(r)
  {
    s.(pulse1 := s.pulse1.(len := LengthEnable(s.pulse1.len, BitIsSet(d, 0))),
       pulse2 := s.pulse2.(len := LengthEnable(s.pulse2.len, BitIsSet(d, 1))),
       triangle := s.triangle.(len := LengthEnable(s.triangle.len, BitIsSet(d, 2))),
       noise := s.noise.(len := LengthEnable(s.noise.len, BitIsSet(d, 3))),
       dmc := SetEnableState(s.dmc, BitIsSet(d, 4)))
  }

  /** clock_length: one clock of each of the four length counters. */
  function ClockLengths(s: ApuState): (r: ApuState)
    ensures ApuInv(s) ==> ApuInv(r)
  {
    s.(pulse1 := s.pulse1.(len := LengthStep(s.pulse1.len)),
       pulse2 := s.pulse2.(len := LengthStep(s.pulse2.len)),
       triangle := s.triangle.(len := LengthStep(s.triangle.len)),
       noise := s.noise.(len := LengthStep(s.noise.len)))
  }

  /** $4017: reload the sequencer and, when bit 7 is set, clock the length counters at once. */
  function FrameCounterWrite(s: ApuState, d: Byte): (r: ApuState)
    ensures ApuInv(s) ==> ApuInv(r)
  {
    var s1 := s.(sequencer := SeqLoad(s.sequencer, d));
    if BitIsSet(d, 7) then ClockLengths(s1) else s1
  }

  /** write_byte */
  function ApuWrite(s: ApuState, addr: Addr, d: Byte): (r: ApuState)
    requires Mapped(addr)
    ensures ApuInv(s) ==> ApuInv(r)
  {
    match Decode(addr)
    case Channel(u, reg) => WriteChannel(s, u, reg, d)
    case StatusPort => EnableWrite(s, d)
    case FrameCounterPort => FrameCounterWrite(s, d)
    case Unmapped => s
  }

  /**
   * A write to $4000-$4013 reaches exactly one channel, at the register
   * numbered from that channel's base, and nothing else changes.
   */
  lemma WriteRouting(s: ApuState, addr: Addr, d: Byte)
    requires 0x4000 <= addr <= 0x4013
    ensures 0x4000 <= addr <= 0x4003 ==> ApuWrite(s, addr, d) == s.(pulse1 := ChannelWrite(s.pulse1, addr - 0x4000, d))
    ensures 0x4004 <= addr <= 0x4007 ==> ApuWrite(s, addr, d) == s.(pulse2 := ChannelWrite(s.pulse2, addr - 0x4004, d))
    ensures 0x4008 <= addr <= 0x400B ==> ApuWrite(s, addr, d) == s.(triangle := TriangleWrite(s.triangle, addr - 0x4008, d))
    ensures 0x400C <= addr <= 0x400F ==> ApuWrite(s, addr, d) == s.(noise := NoiseWrite(s.noise, addr - 0x400C, d))
    ensures 0x4010 <= addr <= 0x4013 ==> ApuWrite(s, addr, d) == s.(dmc := DmcWrite(s.dmc, addr - 0x4010, d))
  {
  }

  /**
   * Writing $4015: each length counter is enabled exactly when its bit is
   * set, a cleared bit silences the channel, and only channels whose bit
   * is set can report as active afterwards; bit 4 enables the DMC.
   */
  lemma EnableEffects(s: ApuState, d: Byte)
    ensures var r := ApuWrite(s, 0x4015, d);
      (r.pulse1.len.enabled <==> BitIsSet(d, 0)) && (r.pulse2.len.enabled <==> BitIsSet(d, 1)) &&
      (r.triangle.len.enabled <==> BitIsSet(d, 2)) && (r.noise.len.enabled <==> BitIsSet(d, 3)) &&
      (r.dmc.enabled <==> BitIsSet(d, 4)) && r.sequencer == s.sequencer
    ensures var b := StatusByte(ApuWrite(s, 0x4015, d));
      forall k :: 0 <= k < 4 ==> BitIsSet(b, k) ==> BitIsSet(d, k)
  {
    var b := StatusByte(ApuWrite(s, 0x4015, d));
    forall k | 0 <= k < 4 && BitIsSet(b, k)
      ensures BitIsSet(d, k)
    {
      match k
      case 0 => case 1 => case 2 => case 3 =>
    }
  }

  /**
   * Writing $4017: the sequencer restarts in the mode the byte selects,
   * reads back the byte's top two bits, and the four length counters are
   * clocked once if bit 7 is set and not at all otherwise.
   */
  lemma FrameCounterEffects(s: ApuState, d: Byte)
    ensures var r := ApuWrite(s, 0x4017, d);
      r.sequencer == SeqLoad(s.sequencer, d) && SeqValue(r.sequencer) == d & 0xC0 &&
      r.pulse1.len == LengthRun(s.pulse1.len, if BitIsSet(d, 7) then 1 else 0) &&
      r.pulse2.len == LengthRun(s.pulse2.len, if BitIsSet(d, 7) then 1 else 0) &&
      r.triangle.len == LengthRun(s.triangle.len, if BitIsSet(d, 7) then 1 else 0) &&
      r.noise.len == LengthRun(s.noise.len, if BitIsSet(d, 7) then 1 else 0) &&
      r.dmc == s.dmc
  {
    LoadValueRoundTrip(s.sequencer, d);
  }

  // ---------------------------------------------------------------------
  // Clocking

  /** clock_envelope: the envelopes of both pulses and of the noise channel. */
  function ClockEnvelopes(s: ApuState): (r: ApuState)
    ensures ApuInv(s) ==> ApuInv(r)
  {
    s.(pulse1 := s.pulse1.(env := EnvelopeStep(s.pulse1.env)),
       pulse2 := s.pulse2.(env := EnvelopeStep(s.pulse2.env)),
       noise := s.noise.(env := EnvelopeStep(s.noise.env)))
  }

  /**
   * One sequencer event: envelope events clock the envelopes and the
   * triangle's linear counter, length events clock the length counters
   * (the pulses' sweep clock changes nothing), and an IRQ event raises an
   * interrupt when a bus is attached.
   */
  function Dispatch(s: ApuState, e: Event): (r: ApuState)
    ensures ApuInv(s) ==> ApuInv(r)
  {
    match e
    case NoEvent => s
    case EnvelopeAndLinear => ClockEnvelopes(s).(triangle := ClockLinearState(s.triangle))
    case LengthAndSweep => ClockLengths(s)
    case Irq => if s.busLoaded then s.(interrupts := s.interrupts + 1) else s
  }

  /** The per-cycle channel clocks: the triangle twice, the noise and the DMC once (the pulses' clock does nothing). */
  function ClockChannels(s: ApuState, bus: Option<Addr -> Byte>): (r: ApuState)
    ensures ApuInv(s) ==> ApuInv(r)
  {
    s.(triangle := TriangleStep(TriangleStep(s.triangle)), noise := NoiseStep(s.noise), dmc := DmcStep(s.dmc, bus))
  }

  /** tick (without the mixer): the sequencer, its three event slots in order, then the channels. */
  function ApuStep(s: ApuState, bus: Option<Addr -> Byte>): (r: ApuState)
    ensures ApuInv(s) ==> ApuInv(r)
  {
    var evs := TickEvents(s.sequencer);
    var s1 := s.(sequencer := SeqStep(s.sequencer));
    ClockChannels(Dispatch(Dispatch(Dispatch(s1, evs.first), evs.second), evs.third), bus)
  }

  /** One APU cycle with the DMC reading from `bus`, as a function value. */
  function StepWith(bus: Option<Addr -> Byte>): ApuState -> ApuState
  {
    s => ApuStep(s, bus)
  }

  /** `n` APU cycles with the DMC reading from `bus`. */
  function ApuRun(s: ApuState, bus: Option<Addr -> Byte>, n: nat): ApuState
  {
    Iterate(StepWith(bus), s, n)
  }

  /** 1 when the event is `k`. */
  function Hit(e: Event, k: Event): nat
  {
    if e == k then 1 else 0
  }

  /** An event clocks each length counter once if it is a length event and not at all otherwise. */
  lemma DispatchLengths(s: ApuState, e: Event)
    ensures var r := Dispatch(s, e); var n := Hit(e, LengthAndSweep);
      r.pulse1.len == LengthRun(s.pulse1.len, n) && r.pulse2.len == LengthRun(s.pulse2.len, n) &&
      r.triangle.len == LengthRun(s.triangle.len, n) && r.noise.len == LengthRun(s.noise.len, n) &&
      r.sequencer == s.sequencer
  {
  }

  /** An event clocks each envelope once if it is an envelope event and not at all otherwise. */
  lemma DispatchEnvelopes(s: ApuState, e: Event)
    ensures var r := Dispatch(s, e); var n := Hit(e, EnvelopeAndLinear);
      r.pulse1.env == EnvelopeRun(s.pulse1.env, n) && r.pulse2.env == EnvelopeRun(s.pulse2.env, n) &&
      r.noise.env == EnvelopeRun(s.noise.env, n) &&
      r.triangle.linear == LinearRun(s.triangle, n).linear
  {
  }

  /** The four length counters together. */
  datatype Lengths = Lengths(pulse1: LengthState, pulse2: LengthState, triangle: LengthState, noise: LengthState)

  function LengthsOf(s: ApuState): Lengths
  {
    Lengths(s.pulse1.len, s.pulse2.len, s.triangle.len, s.noise.len)
  }

  /** `n` clocks of each of the four counters. */
  function LengthsRun(l: Lengths, n: nat): Lengths
  {
    Lengths(LengthRun(l.pulse1, n), LengthRun(l.pulse2, n), LengthRun(l.triangle, n), LengthRun(l.noise, n))
  }

  lemma LengthsRunAdds(l: Lengths, a: nat, b: nat)
    ensures LengthsRun(LengthsRun(l, a), b) == LengthsRun(l, a + b)
  {
    LengthRunAdds(l.pulse1, a, b);
    LengthRunAdds(l.pulse2, a, b);
    LengthRunAdds(l.triangle, a, b);
    LengthRunAdds(l.noise, a, b);
  }

  /**
   * One APU cycle clocks every length counter as often as the sequencer
   * emits length events in that cycle, and the sequencer makes its step.
   */
  lemma StepLengths(s: ApuState, bus: Option<Addr -> Byte>)
    ensures ApuStep(s, bus).sequencer == SeqStep(s.sequencer)
    ensures LengthsOf(ApuStep(s, bus)) == LengthsRun(LengthsOf(s), Count(TickEvents(s.sequencer), LengthAndSweep))
  {
    var evs := TickEvents(s.sequencer);
    var s0 := s.(sequencer := SeqStep(s.sequencer));
    var s1 := Dispatch(s0, evs.first);
    var s2 := Dispatch(s1, evs.second);
    var a, b, c := Hit(evs.first, LengthAndSweep), Hit(evs.second, LengthAndSweep), Hit(evs.third, LengthAndSweep);
    DispatchLengths(s0, evs.first);
    DispatchLengths(s1, evs.second);
    DispatchLengths(s2, evs.third);
    LengthsRunAdds(LengthsOf(s), a, b);
    LengthsRunAdds(LengthsOf(s), a + b, c);
  }

  /** What the length test looks at: the sequencer and the four length counters. */
  datatype Track = Track(sequencer: SeqState, lengths: Lengths)

  function TrackOf(s: ApuState): Track
  {
    Track(s.sequencer, LengthsOf(s))
  }

  /** How one APU cycle moves the tracked part, by `StepLengths`. */
  function TrackStep(t: Track): Track
  {
    Track(SeqStep(t.sequencer), LengthsRun(t.lengths, Count(TickEvents(t.sequencer), LengthAndSweep)))
  }

  /**
   * `n` APU cycles clock every length counter as often as the sequencer,
   * run for `n` ticks, emits length events, and leave the sequencer where
   * it alone would be.
   */
  lemma RunLengths(s: ApuState, bus: Option<Addr -> Byte>, n: nat)
    ensures var p := Iterate(Advance, Progress(s.sequencer, Tally(0, 0, 0)), n);
      TrackOf(ApuRun(s, bus, n)) == Track(p.state, LengthsRun(LengthsOf(s), p.tally.length))
  {
    forall y: ApuState
      ensures TrackOf(StepWith(bus)(y)) == TrackStep(TrackOf(y))
    {
      StepLengths(y, bus);
    }
    IterateProjects(StepWith(bus), TrackStep, TrackOf, s, n);
    TrackedRun(s.sequencer, LengthsOf(s), n);
  }

  /** The tracked part over `n` cycles, in terms of the sequencer's own event tally. */
  lemma {:induction false} TrackedRun(q: SeqState, l: Lengths, n: nat)
    ensures var p := Iterate(Advance, Progress(q, Tally(0, 0, 0)), n);
      Iterate(TrackStep, Track(q, l), n) == Track(p.state, LengthsRun(l, p.tally.length))
  {
    if n > 0 {
      var p := Iterate(Advance, Progress(q, Tally(0, 0, 0)), n - 1);
      var c := Count(TickEvents(p.state), LengthAndSweep);
      calc {
        Iterate(TrackStep, Track(q, l), n);
        TrackStep(Iterate(TrackStep, Track(q, l), n - 1));
        { TrackedRun(q, l, n - 1); }
        TrackStep(Track(p.state, LengthsRun(l, p.tally.length)));
        { TrackStepAfter(p.state, l, p.tally.length); }
        Track(SeqStep(p.state), LengthsRun(l, p.tally.length + c));
        { AdvanceLength(p); }
        Track(Advance(p).state, LengthsRun(l, Advance(p).tally.length));
      }
    }
  }

  /** One cycle after `a` length clocks is `a` plus the cycle's length events. */
  lemma TrackStepAfter(q: SeqState, l: Lengths, a: nat)
    ensures TrackStep(Track(q, LengthsRun(l, a))) ==
      Track(SeqStep(q), LengthsRun(l, a + Count(TickEvents(q), LengthAndSweep)))
  {
    LengthsRunAdds(l, a, Count(TickEvents(q), LengthAndSweep));
  }

  /** One sequencer step adds its length events to the tally. */
  lemma AdvanceLength(p: Progress)
    ensures Advance(p).state == SeqStep(p.state)
    ensures Advance(p).tally.length == p.tally.length + Count(TickEvents(p.state), LengthAndSweep)
  {
  }

  /**
   * A whole 4-step frame of `n` = 14915 cycles from the frame's start
   * clocks every length counter exactly twice and brings the sequencer
   * back to the start with the frame IRQ latched unless inhibited.
   */
  lemma Step4FrameLengths(s: ApuState, bus: Option<Addr -> Byte>, n: nat)
    requires s.sequencer.cycles == 0 && s.sequencer.mode == Step4 && n == 14915
    ensures TrackOf(ApuRun(s, bus, n)) ==
      Track(s.sequencer.(frameIrq := s.sequencer.frameIrq || !s.sequencer.irqInhibit), LengthsRun(LengthsOf(s), 2))
  {
    RunLengths(s, bus, n);
    Step4Frame(s.sequencer, n);
  }

  /** One more cycle of a run is one more step. */
  lemma RunStep(s: ApuState, bus: Option<Addr -> Byte>, n: nat)
    ensures ApuRun(s, bus, n + 1) == ApuStep(ApuRun(s, bus, n), bus)
  {
  }

  // ---------------------------------------------------------------------
  // The APU object

  /** The power-on state: every channel at its default, 4-step mode, no bus. */
  function Initial(): ApuState
  {
    var pulse := ChannelState(PulseState(0, false, false, 0, false, 0, false, 0, 0, 0),
                              LengthState(false, false, 0), EnvelopeState(false, 0, 0, 0, false, false));
    ApuState(pulse, pulse,
             TriangleState(TimerState(DividerState(0, 0), 0), LengthState(false, false, 0), 0, 0, false, false, 0),
             NoiseState(TimerState(DividerState(0, 0), 0), LengthState(false, false, 0),
                        EnvelopeState(false, 0, 0, 0, false, false), false, 1),
             DmcState(false, false, 0, 0, false, 0, false, 0, 0, TimerState(DividerState(0, 0), 0), None, 0, 0),
             SeqState(0, Step4, false, false), false, 0)
  }

  /**
   * The APU object. Its channels and sequencer are held as values of their
   * state types and updated in place through the same state functions the
   * channel classes of the other modules are verified against.
   */
  class Apu {
    var pulse1: ChannelState
    var pulse2: ChannelState
    var triangle: TriangleState
    var noise: NoiseState
    var dmc: DmcState
    var sequencer: SeqState
    /** The attached bus: the DMC reads its samples from it and the APU raises IRQs on it. */
    var bus: Option<Addr -> Byte>
    var interrupts: nat

    function State(): ApuState
      reads this
    {
      ApuState(pulse1, pulse2, triangle, noise, dmc, sequencer, bus.Some?, interrupts)
    }

    ghost predicate Valid()
      reads this
    {
      ApuInv(State())
    }

    /** Apu::default */
    constructor ()
      ensures Valid() && State() == Initial() && bus == None
    {
      var init := Initial();
      pulse1, pulse2, triangle, noise := init.pulse1, init.pulse2, init.triangle, init.noise;
      dmc, sequencer := init.dmc, init.sequencer;
      bus := None;
      interrupts := 0;
    }

    /** load_bus: the DMC reads samples from `b`, and IRQs can be raised on it. */
    method LoadBus(b: Addr -> Byte)
      requires Valid()
      modifies this
      ensures Valid() && bus == Some(b)
      ensures State() == old(State()).(busLoaded := true)
    {
      bus := Some(b);
    }

    /** tick, without the mixer. */
    method Tick()
      requires Valid()
      modifies this
      ensures Valid() && bus == old(bus)
      ensures State() == ApuStep(old(State()), bus)
    {
      var events := TickEvents(sequencer);
      sequencer := SeqStep(sequencer);
      HandleEvent(events.first);
      HandleEvent(events.second);
      HandleEvent(events.third);
      ClockUnits();
    }

    /** The body of tick's event loop for one event. */
    method HandleEvent(e: Event)
      requires Valid()
      modifies this
      ensures Valid() && bus == old(bus)
      ensures State() == Dispatch(old(State()), e)
    {
      match e
      case NoEvent =>
      case EnvelopeAndLinear =>
        ClockEnvelope();
        triangle := ClockLinearState(triangle);
      case LengthAndSweep =>
        ClockLength();
        ClockSweep();
      case Irq =>
        if bus.Some? {
          interrupts := interrupts + 1;
        }
    }

    /** The channel clocks at the end of tick. */
    method ClockUnits()
      requires Valid()
      modifies this
      ensures Valid() && bus == old(bus)
      ensures State() == ClockChannels(old(State()), bus)
    {
      triangle := TriangleStep(triangle);
      triangle := TriangleStep(triangle);
      noise := NoiseStep(noise);
      dmc := DmcStep(dmc, bus);
    }

    /** clock_length */
    method ClockLength()
      requires Valid()
      modifies this
      ensures Valid() && bus == old(bus)
      ensures State() == ClockLengths(old(State()))
    {
      pulse1 := pulse1.(len := LengthStep(pulse1.len));
      pulse2 := pulse2.(len := LengthStep(pulse2.len));
      triangle := triangle.(len := LengthStep(triangle.len));
      noise := noise.(len := LengthStep(noise.len));
    }

    /** clock_envelope */
    method ClockEnvelope()
      requires Valid()
      modifies this
      ensures Valid() && bus == old(bus)
      ensures State() == ClockEnvelopes(old(State()))
    {
      pulse1 := pulse1.(env := EnvelopeStep(pulse1.env));
      pulse2 := pulse2.(env := EnvelopeStep(pulse2.env));
      noise := noise.(env := EnvelopeStep(noise.env));
    }

    /** clock_sweep: the pulses have no sweep unit, so nothing changes. */
    method ClockSweep()
      requires Valid()
      ensures Valid() && State() == old(State())
    {
    }

    /** status: the status byte; reading it acknowledges the frame IRQ. */
    method Status() returns (status: Byte)
      requires Valid()
      modifies this
      ensures Valid() && bus == old(bus)
      ensures (status, State()) == ApuRead(old(State()), 0x4015)
    {
      var (irq, sequencer') := IrqRead(sequencer);
      status := Flag(Active(pulse1.len), 0x01) | Flag(Active(pulse2.len), 0x02) |
                Flag(Active(triangle.len), 0x04) | Flag(Active(noise.len), 0x08) |
                Flag(DmcStatus(dmc), 0x10) | Flag(irq, 0x40);
      sequencer := sequencer';
    }

    /** read_byte; an unmapped address panics. */
    method ReadByte(addr: Addr) returns (data: Byte)
      requires Valid() && Mapped(addr)
      modifies this
      ensures Valid() && bus == old(bus)
      ensures (data, State()) == ApuRead(old(State()), addr)
    {
      match Decode(addr)
      case Channel(_, _) => data := 0;
      case StatusPort => data := Status();
      case FrameCounterPort => data := SeqValue(sequencer);
    }

    /** write_byte; an unmapped address panics. */
    method WriteByte(addr: Addr, data: Byte)
      requires Valid() && Mapped(addr)
      modifies this
      ensures Valid() && bus == old(bus)
      ensures State() == ApuWrite(old(State()), addr, data)
    {
      match Decode(addr)
      case Channel(u, reg) => WriteChannelReg(u, reg, data);
      case StatusPort => EnableUnits(data);
      case FrameCounterPort =>
        sequencer := SeqLoad(sequencer, data);
        if BitIsSet(data, 7) {
          ClockLength();
        }
    }

    /** The channel arms of write_byte. */
    method WriteChannelReg(u: Unit, reg: nat, data: Byte)
      requires Valid() && reg < 4
      modifies this
      ensures Valid() && bus == old(bus)
      ensures State() == WriteChannel(old(State()), u, reg, data)
    {
      match u
      case Pulse1 => pulse1 := ChannelWrite(pulse1, reg, data);
      case Pulse2 => pulse2 := ChannelWrite(pulse2, reg, data);
      case TriangleUnit => triangle := TriangleWrite(triangle, reg, data);
      case NoiseUnit => noise := NoiseWrite(noise, reg, data);
      case DmcUnit => dmc := DmcWrite(dmc, reg, data);
    }

    /** The $4015 arm of write_byte. */
    method EnableUnits(data: Byte)
      requires Valid()
      modifies this
      ensures Valid() && bus == old(bus)
      ensures State() == EnableWrite(old(State()), data)
    {
      pulse1 := pulse1.(len := LengthEnable(pulse1.len, BitIsSet(data, 0)));
      pulse2 := pulse2.(len := LengthEnable(pulse2.len, BitIsSet(data, 1)));
      triangle := triangle.(len := LengthEnable(triangle.len, BitIsSet(data, 2)));
      noise := noise.(len := LengthEnable(noise.len, BitIsSet(data, 3)));
      dmc := SetEnableState(dmc, BitIsSet(data, 4));
    }
  }

  /** `n` calls of tick. */
  method RunTicks(apu: Apu, n: nat)
    requires apu.Valid()
    modifies apu
    ensures apu.Valid() && apu.bus == old(apu.bus)
    ensures apu.State() == ApuRun(old(apu.State()), apu.bus, n)
  {
    ghost var s0 := apu.State();
    for i := 0 to n
      invariant apu.Valid() && apu.bus == old(apu.bus)
      invariant apu.State() == ApuRun(s0, apu.bus, i)
    {
      RunStep(s0, apu.bus, i);
      apu.Tick();
    }
  }

  /**
   * run_for_step4_frame: 14915 ticks from the start of a 4-step frame clock
   * every length counter twice and end at the start of the next frame.
   */
  method RunFrame(apu: Apu)
    requires apu.Valid() && apu.sequencer.cycles == 0 && apu.sequencer.mode == Step4
    modifies apu
    ensures apu.Valid() && apu.bus == old(apu.bus)
    ensures apu.sequencer == old(apu.sequencer).(frameIrq := old(apu.sequencer.frameIrq || !apu.sequencer.irqInhibit))
    ensures LengthsOf(apu.State()) == LengthsRun(LengthsOf(old(apu.State())), 2)
  {
    ghost var s0 := apu.State();
    var n := 14915;
    RunTicks(apu, n);
    Step4FrameLengths(s0, apu.bus, n);
  }

  /**
   * The set-up of the pulse_lenctr test: 4-step mode, both pulses enabled and
   * loaded with length index 0.
   */
  method PulseLengthSetup() returns (apu: Apu)
    ensures fresh(apu) && apu.Valid()
    ensures apu.sequencer.cycles == 0 && apu.sequencer.mode == Step4
    ensures apu.pulse1.len == LengthState(true, false, 10) && apu.pulse2.len == apu.pulse1.len
  {
    apu := new Apu();
    apu.LoadBus(a => 0);
    apu.WriteByte(0x4017, 0x00);
    apu.WriteByte(0x4015, 0x03);
    apu.WriteByte(0x4003, 0x00);
    apu.WriteByte(0x4007, 0x00);
  }

  /**
   * The pulse_lenctr test: both pulses enabled and loaded with entry 0 (ten
   * length clocks) still sound after four frames and are silent after five.
   */
  method PulseLengthExample() returns (first: Byte, afterFour: Byte, afterFive: Byte)
    ensures BitIsSet(first, 0) && BitIsSet(first, 1)
    ensures BitIsSet(afterFour, 0) && BitIsSet(afterFour, 1)
    ensures !BitIsSet(afterFive, 0) && !BitIsSet(afterFive, 1)
  {
    var apu := PulseLengthSetup();
    first := apu.ReadByte(0x4015);
    for k := 0 to 4
      invariant apu.Valid() && apu.sequencer.cycles == 0 && apu.sequencer.mode == Step4
      invariant apu.pulse1.len == LengthState(true, false, 10 - 2 * k) && apu.pulse2.len == apu.pulse1.len
    {
      LengthRunCount(apu.pulse1.len, 2);
      RunFrame(apu);
    }
    afterFour := apu.ReadByte(0x4015);
    LengthRunCount(apu.pulse1.len, 2);
    RunFrame(apu);
    afterFive := apu.ReadByte(0x4015);
  }
}
