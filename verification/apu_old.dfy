// The earlier APU (nescore/src/apu.rs): two pulses, a triangle and the frame
// sequencer. Noise and DMC registers read as 0 and ignore writes, the status
// byte reports only the three length counters, sequencer events other than
// length clocks do nothing, and no channel is clocked per cycle.
//
// That file was written against earlier revisions of the channel and
// sequencer modules, which are not part of this model. The model runs it on
// the channel and sequencer state of the current modules: its `Envelop` and
// `Length` events are the current `EnvelopAndLinear` and `LengthAndSweep`,
// and the channels' length counters are the ones of ApuPulseChannel and
// ApuTriangle.

module LegacyApu {
  import opened Bits
  import opened ApuLength
  import opened ApuPulse
  import opened ApuPulseChannel
  import opened ApuTriangle
  import opened ApuSequencer
  import AudioUnit

  datatype LegacyState = LegacyState(pulse1: ChannelState, pulse2: ChannelState,
                                     triangle: TriangleState, sequencer: SeqState)

  predicate LegacyInv(s: LegacyState)
  {
    ChannelInv(s.pulse1) && ChannelInv(s.pulse2) && TriangleInv(s.triangle)
  }

  /** status: bits 0-2 report the pulse and triangle length counters; nothing else is set. */
  function Status(s: LegacyState): (b: Byte)
    ensures BitIsSet(b, 0) <==> AudioUnit.Active(s.pulse1.len)
    ensures BitIsSet(b, 1) <==> AudioUnit.Active(s.pulse2.len)
    ensures BitIsSet(b, 2) <==> AudioUnit.Active(s.triangle.len)
    ensures b & 0xF8 == 0
  {
    Flag(AudioUnit.Active(s.pulse1.len), 0x01) | Flag(AudioUnit.Active(s.pulse2.len), 0x02) |
    Flag(AudioUnit.Active(s.triangle.len), 0x04)
  }

  /**
   * read_byte: channel registers (including the absent noise and DMC)
   * read as 0, $4015 is the status byte, $4017 the sequencer's mode bits.
   * Reading changes nothing, not even the frame IRQ flag.
   */
  function Read(s: LegacyState, addr: Addr): (b: Byte)
    requires AudioUnit.Mapped(addr)
    ensures 0x4000 <= addr <= 0x4013 ==> b == 0
    ensures addr == 0x4015 ==> b == Status(s)
    ensures addr == 0x4017 ==> b == SeqValue(s.sequencer)
  {
    match AudioUnit.Decode(addr)
    case Channel(_, _) => 0
    case StatusPort => Status(s)
    case FrameCounterPort => SeqValue(s.sequencer)
    case Unmapped => 0
  }

  /** One clock of the three length counters. */
  function ClockLengths(s: LegacyState): (r: LegacyState)
    ensures LegacyInv(s) ==> LegacyInv(r)
  {
    s.(pulse1 := s.pulse1.(len := LengthStep(s.pulse1.len)),
       pulse2 := s.pulse2.(len := LengthStep(s.pulse2.len)),
       triangle := s.triangle.(len := LengthStep(s.triangle.len)))
  }

  /** $4015: bits 0-2 enable the three length counters. */
  function EnableWrite(s: LegacyState, d: Byte): (r: LegacyState)
    ensures LegacyInv(s) ==> LegacyInv(r)
  {
    s.(pulse1 := s.pulse1.(len := LengthEnable(s.pulse1.len, BitIsSet(d, 0))),
       pulse2 := s.pulse2.(len := LengthEnable(s.pulse2.len, BitIsSet(d, 1))),
       triangle := s.triangle.(len := LengthEnable(s.triangle.len, BitIsSet(d, 2))))
  }

  /**
   * write_byte: pulse and triangle registers go to their channels, noise and
   * DMC writes are dropped, $4015 enables the counters, and $4017 reloads the
   * sequencer and clocks the length counters only for the exact value 0x80.
   */
  function Write(s: LegacyState, addr: Addr, d: Byte): (r: LegacyState)
    requires AudioUnit.Mapped(addr)
    ensures LegacyInv(s) ==> LegacyInv(r)
  {
    match AudioUnit.Decode(addr)
    case Channel(u, reg) =>
      (match u
       case Pulse1 => s.(pulse1 := ChannelWrite(s.pulse1, reg, d))
       case Pulse2 => s.(pulse2 := ChannelWrite(s.pulse2, reg, d))
       case TriangleUnit => s.(triangle := TriangleWrite(s.triangle, reg, d))
       case NoiseUnit => s
       case DmcUnit => s)
    case StatusPort => EnableWrite(s, d)
    case FrameCounterPort =>
      var s1 := s.(sequencer := SeqLoad(s.sequencer, d));
      if d == 0x80 then ClockLengths(s1) else s1
    case Unmapped => s
  }

  /** The event match of tick: only length events do anything. */
  function Dispatch(s: LegacyState, e: Event): (r: LegacyState)
    ensures LegacyInv(s) ==> LegacyInv(r)
  {
    if e == LengthAndSweep then ClockLengths(s) else s
  }

  /** tick: the sequencer's step and its three events; the channels themselves are not clocked. */
  function Cycle(s: LegacyState): (r: LegacyState)
    ensures LegacyInv(s) ==> LegacyInv(r)
  {
    var evs := TickEvents(s.sequencer);
    var s1 := s.(sequencer := SeqStep(s.sequencer));
    Dispatch(Dispatch(Dispatch(s1, evs.first), evs.second), evs.third)
  }

  /** `n` ticks. */
  function Run(s: LegacyState, n: nat): LegacyState
  {
    Iterate(Cycle, s, n)
  }

  /** The default APU: default channels and a 4-step sequencer. */
  function Initial(): LegacyState
  {
    var init := AudioUnit.Initial();
    LegacyState(init.pulse1, init.pulse2, init.triangle, init.sequencer)
  }

  // ---------------------------------------------------------------------
  // Relation to the current APU

  /** The part of the current APU's state that the earlier one has. */
  function Restrict(s: AudioUnit.ApuState): LegacyState
  {
    LegacyState(s.pulse1, s.pulse2, s.triangle, s.sequencer)
  }

  /** The earlier status byte is the current one's three low bits. */
  lemma StatusIsLowBits(s: AudioUnit.ApuState)
    ensures Status(Restrict(s)) == AudioUnit.StatusByte(s) & 0x07
  {
  }

  /**
   * A $4015 write has the same effect on the pulses and the triangle in both
   * revisions.
   */
  lemma EnableAgrees(s: AudioUnit.ApuState, d: Byte)
    ensures Write(Restrict(s), 0x4015, d) == Restrict(AudioUnit.ApuWrite(s, 0x4015, d))
  {
  }

  /**
   * A $4017 write with bit 7 set other than 0x80 (such as 0xC0, 5-step mode
   * with the IRQ inhibited) clocks the length counters in the current
   * revision but not in the earlier one.
   */
  lemma FrameCounterWriteDiffers(s: AudioUnit.ApuState, d: Byte)
    requires BitIsSet(d, 7) && d != 0x80
    ensures Write(Restrict(s), 0x4017, d).pulse1.len == s.pulse1.len
    ensures AudioUnit.ApuWrite(s, 0x4017, d).pulse1.len == LengthStep(s.pulse1.len)
  {
    AudioUnit.FrameCounterEffects(s, d);
  }

  // ---------------------------------------------------------------------
  // Length counters over a frame

  /** The counters the earlier APU has, padded with a disabled noise counter. */
  function TrackOf(s: LegacyState): AudioUnit.Track
  {
    AudioUnit.Track(s.sequencer, AudioUnit.Lengths(s.pulse1.len, s.pulse2.len, s.triangle.len, LengthState(false, false, 0)))
  }

  /** An event clocks the three counters once if it is a length event. */
  lemma DispatchLengths(s: LegacyState, e: Event)
    ensures var r := Dispatch(s, e); var n := AudioUnit.Hit(e, LengthAndSweep);
      r.pulse1.len == LengthRun(s.pulse1.len, n) && r.pulse2.len == LengthRun(s.pulse2.len, n) &&
      r.triangle.len == LengthRun(s.triangle.len, n) && r.sequencer == s.sequencer
  {
  }

  /** One tick moves the tracked part as the current APU's tick does. */
  lemma StepTracks(s: LegacyState)
    ensures TrackOf(Cycle(s)) == AudioUnit.TrackStep(TrackOf(s))
  {
    var evs := TickEvents(s.sequencer);
    var s0 := s.(sequencer := SeqStep(s.sequencer));
    var s1 := Dispatch(s0, evs.first);
    var s2 := Dispatch(s1, evs.second);
    var a, b, c := AudioUnit.Hit(evs.first, LengthAndSweep), AudioUnit.Hit(evs.second, LengthAndSweep),
                   AudioUnit.Hit(evs.third, LengthAndSweep);
    DispatchLengths(s0, evs.first);
    DispatchLengths(s1, evs.second);
    DispatchLengths(s2, evs.third);
    var l := TrackOf(s).lengths;
    assert Count(evs, LengthAndSweep) == a + b + c;
    AudioUnit.LengthsRunAdds(l, a, b);
    AudioUnit.LengthsRunAdds(l, a + b, c);
    LengthRunCount(l.noise, a + b + c);
    assert TrackOf(s2).lengths == AudioUnit.LengthsRun(l, a + b);
  }

  /**
   * A whole 4-step frame of `n` = 14915 ticks from the frame's start clocks
   * the three length counters twice and brings the sequencer back to the
   * start with the frame IRQ latched unless inhibited.
   */
  lemma Step4FrameLengths(s: LegacyState, n: nat)
    requires s.sequencer.cycles == 0 && s.sequencer.mode == Step4 && n == 14915
    ensures var r := Run(s, n);
      r.sequencer == s.sequencer.(frameIrq := s.sequencer.frameIrq || !s.sequencer.irqInhibit) &&
      r.pulse1.len == LengthRun(s.pulse1.len, 2) && r.pulse2.len == LengthRun(s.pulse2.len, 2) &&
      r.triangle.len == LengthRun(s.triangle.len, 2)
  {
    forall y: LegacyState
      ensures TrackOf(Cycle(y)) == AudioUnit.TrackStep(TrackOf(y))
    {
      StepTracks(y);
    }
    IterateProjects(Cycle, AudioUnit.TrackStep, TrackOf, s, n);
    AudioUnit.TrackedRun(s.sequencer, TrackOf(s).lengths, n);
    Step4Frame(s.sequencer, n);
  }

  /** One more tick of a run. */
  lemma RunStep(s: LegacyState, n: nat)
    ensures Run(s, n + 1) == Cycle(Run(s, n))
  {
  }

  // ---------------------------------------------------------------------
  // The object

  /** The earlier Apu, holding its channels and sequencer as state values. */
  class Apu {
    var pulse1: ChannelState
    var pulse2: ChannelState
    var triangle: TriangleState
    var sequencer: SeqState

    function State(): LegacyState
      reads this
    {
      LegacyState(pulse1, pulse2, triangle, sequencer)
    }

    ghost predicate Valid()
      reads this
    {
      LegacyInv(State())
    }

    /** Apu::default */
    constructor ()
      ensures Valid() && State() == Initial()
    {
      var init := Initial();
      pulse1, pulse2, triangle, sequencer := init.pulse1, init.pulse2, init.triangle, init.sequencer;
    }

    /** tick */
    method Tick()
      requires Valid()
      modifies this
      ensures Valid() && State() == Cycle(old(State()))
    {
      var events := TickEvents(sequencer);
      sequencer := SeqStep(sequencer);
      HandleEvent(events.first);
      HandleEvent(events.second);
      HandleEvent(events.third);
    }

    /** The body of tick's event loop. */
    method HandleEvent(e: Event)
      requires Valid()
      modifies this
      ensures Valid() && State() == Dispatch(old(State()), e)
    {
      if e == LengthAndSweep {
        ClockLength();
      }
    }

    /** The three clock_length calls. */
    method ClockLength()
      requires Valid()
      modifies this
      ensures Valid() && State() == ClockLengths(old(State()))
    {
      pulse1 := pulse1.(len := LengthStep(pulse1.len));
      pulse2 := pulse2.(len := LengthStep(pulse2.len));
      triangle := triangle.(len := LengthStep(triangle.len));
    }

    /** status */
    method GetStatus() returns (status: Byte)
      ensures status == Status(State())
      ensures status & 0xF8 == 0
    {
      status := Flag(AudioUnit.Active(pulse1.len), 0x01) | Flag(AudioUnit.Active(pulse2.len), 0x02) |
                Flag(AudioUnit.Active(triangle.len), 0x04);
    }

    /** read_byte; an unmapped address panics. */
    method ReadByte(addr: Addr) returns (data: Byte)
      requires AudioUnit.Mapped(addr)
      ensures data == Read(State(), addr)
    {
      match AudioUnit.Decode(addr)
      case Channel(_, _) => data := 0;
      case StatusPort => data := GetStatus();
      case FrameCounterPort => data := SeqValue(sequencer);
    }

    /** write_byte; an unmapped address panics. */
    method WriteByte(addr: Addr, data: Byte)
      requires Valid() && AudioUnit.Mapped(addr)
      modifies this
      ensures Valid() && State() == Write(old(State()), addr, data)
    {
      match AudioUnit.Decode(addr)
      case Channel(u, reg) =>
        match u {
          case Pulse1 => pulse1 := ChannelWrite(pulse1, reg, data);
          case Pulse2 => pulse2 := ChannelWrite(pulse2, reg, data);
          case TriangleUnit => triangle := TriangleWrite(triangle, reg, data);
          case NoiseUnit =>
          case DmcUnit =>
        }
      case StatusPort =>
        pulse1 := pulse1.(len := LengthEnable(pulse1.len, BitIsSet(data, 0)));
        pulse2 := pulse2.(len := LengthEnable(pulse2.len, BitIsSet(data, 1)));
        triangle := triangle.(len := LengthEnable(triangle.len, BitIsSet(data, 2)));
      case FrameCounterPort =>
        sequencer := SeqLoad(sequencer, data);
        if data == 0x80 {
          ClockLength();
        }
    }
  }

  /** `n` calls of tick. */
  method RunTicks(apu: Apu, n: nat)
    requires apu.Valid()
    modifies apu
    ensures apu.Valid() && apu.State() == Run(old(apu.State()), n)
  {
    ghost var s0 := apu.State();
    for i := 0 to n
      invariant apu.Valid() && apu.State() == Run(s0, i)
    {
      RunStep(s0, i);
      apu.Tick();
    }
  }

  /** run_for_step4_frame: 14915 ticks from the start of a 4-step frame. */
  method RunFrame(apu: Apu)
    requires apu.Valid() && apu.sequencer.cycles == 0 && apu.sequencer.mode == Step4
    modifies apu
    ensures apu.Valid()
    ensures apu.sequencer == old(apu.sequencer).(frameIrq := old(apu.sequencer.frameIrq || !apu.sequencer.irqInhibit))
    ensures apu.pulse1.len == LengthRun(old(apu.pulse1.len), 2) && apu.pulse2.len == LengthRun(old(apu.pulse2.len), 2)
    ensures apu.triangle.len == LengthRun(old(apu.triangle.len), 2)
  {
    ghost var s0 := apu.State();
    var n := 14915;
    RunTicks(apu, n);
    Step4FrameLengths(s0, n);
  }

  /** The set-up of the pulse_lenctr test: 4-step mode, both pulses enabled and loaded with index 0. */
  method PulseLengthSetup() returns (apu: Apu)
    ensures fresh(apu) && apu.Valid()
    ensures apu.sequencer.cycles == 0 && apu.sequencer.mode == Step4
    ensures apu.pulse1.len == LengthState(true, false, 10) && apu.pulse2.len == apu.pulse1.len
  {
    apu := new Apu();
    apu.WriteByte(0x4017, 0x00);
    apu.WriteByte(0x4015, 0x03);
    apu.WriteByte(0x4003, 0x00);
    apu.WriteByte(0x4007, 0x00);
  }

  /**
   * The pulse_lenctr test of the earlier APU: both pulses still sound after
   * four frames and are silent after five.
   */
  method PulseLengthExample() returns (first: Byte, afterFour: Byte, afterFive: Byte)
    ensures BitIsSet(first, 0) && BitIsSet(first, 1)
    ensures BitIsSet(afterFour, 0) && BitIsSet(afterFour, 1)
    ensures !BitIsSet(afterFive, 0) && !BitIsSet(afterFive, 1)
  {
    var apu := PulseLengthSetup();
    first := apu.ReadByte(0x4015);
    for k := 0 to 4
      invariant apu.Valid() && apu.sequencer.cycles == 0 && apu.sequencer.mode == Step4
      invariant apu.pulse1.len == LengthState(true, false, 10 - 2 * k) && apu.pulse2.len == apu.pulse1.len
    {
      LengthRunCount(apu.pulse1.len, 2);
      RunFrame(apu);
    }
    afterFour := apu.ReadByte(0x4015);
    LengthRunCount(apu.pulse1.len, 2);
    RunFrame(apu);
    afterFive := apu.ReadByte(0x4015);
  }
}
