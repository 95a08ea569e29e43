// The pulse channel as the APU drives it (nescore/src/apu/apu.rs). The APU
// calls enable_length, clock_length, length_status, clock_envelope and
// clock_sweep on its two pulses, but the revision of pulse.rs in this model
// only decodes the four registers. The model supplies the missing units as
// an explicit assumption, wired the way lenctr.rs's and envelope.rs's
// impl_length_counter!/impl_envelope! macros wire them into the noise
// channel (noise.rs): register 0's halt bit halts the length counter and
// loops the envelope, its constant flag and volume feed the envelope, and
// register 3 loads the length counter from its index bits and restarts the
// envelope. There is no sweep unit in any revision shown, so clock_sweep
// changes nothing.

module ApuPulseChannel {
  import opened Bits
  import opened ApuLength
  import opened ApuEnvelope
  import opened ApuPulse

  datatype ChannelState = ChannelState(regs: PulseState, len: LengthState, env: EnvelopeState)

  /**
   * The units follow the register file: the halt bit is the length
   * counter's halt flag and the envelope's loop flag, and the constant flag
   * and volume are the envelope's.
   */
  predicate Agree(s: ChannelState)
  {
    s.len.halted == s.regs.halt && s.env.loopFlag == s.regs.halt &&
    s.env.constant == s.regs.constant && s.env.volume == s.regs.volume as nat
  }

  predicate ChannelInv(s: ChannelState)
  {
    PulseInv(s.regs) && LengthInv(s.len) && EnvelopeInv(s.env) && Agree(s)
  }

  /** The register's length index bits are the length counter's table index. */
  lemma LoadIndexBits(d: Byte)
    ensures BitGroup(d, 0x1F, 3) as nat == LoadIndex(d)
  {
  }

  /**
   * write_byte: the register file takes the byte; register 0 also sets the
   * units' flags and register 3 loads the length counter and restarts the
   * envelope.
   */
  function ChannelWrite(s: ChannelState, reg: nat, d: Byte): (r: ChannelState)
    requires reg < 4
    ensures ChannelInv(s) ==> ChannelInv(r)
    ensures r.regs == PulseWrite(s.regs, reg, d)
    ensures r.len.enabled == s.len.enabled
    ensures reg == 3 && s.len.enabled ==> r.len.counter == LoadValue(r.regs.load as nat)
    ensures reg == 3 ==> r.env.start
    ensures reg != 3 ==> r.len.counter == s.len.counter
    ensures reg == 1 || reg == 2 ==> r.len == s.len && r.env == s.env
  {
    var regs := PulseWrite(s.regs, reg, d);
    LoadIndexBits(d);
    match reg
    case 0 =>
      var h := BitIsSet(d, 5);
      ChannelState(regs, s.len.(halted := h),
                   s.env.(loopFlag := h, constant := BitIsSet(d, 4), volume := LowNibble(d)))
    case 1 => s.(regs := regs)
    case 2 => s.(regs := regs)
    case 3 =>
      var n := if s.len.enabled then LoadValue(LoadIndex(d)) else s.len.counter;
      ChannelState(regs, s.len.(counter := n), s.env.(start := true))
  }

  /** A write to register 3 of an enabled channel makes it report as sounding. */
  lemma LoadSounds(s: ChannelState, d: Byte)
    requires s.len.enabled
    ensures ChannelWrite(s, 3, d).len.counter > 0
    ensures ChannelWrite(s, 3, d).len.counter == LoadValue(LoadIndex(d))
  {
    LoadIndexBits(d);
  }

  class PulseChannel {
    const regs: Pulse
    const lenctr: LengthCounter
    const envelope: Envelope

    function State(): ChannelState
      reads regs, lenctr, envelope, envelope.divider, envelope.decay
    {
      ChannelState(regs.State(), lenctr.State(), envelope.State())
    }

    ghost predicate Valid()
      reads regs, lenctr, envelope, envelope.divider, envelope.decay
    {
      envelope.Valid() && ChannelInv(State())
    }

    /** Pulse::default with a disabled length counter and a default envelope. */
    constructor ()
      ensures Valid()
      ensures fresh(regs) && fresh(lenctr) && fresh(envelope)
      ensures fresh(envelope.divider) && fresh(envelope.decay)
      ensures RegBytes(State().regs) == [0, 0, 0, 0]
      ensures State().len == LengthState(false, false, 0)
      ensures State().env == EnvelopeState(false, 0, 0, 0, false, false)
    {
      regs := new Pulse();
      lenctr := new LengthCounter();
      envelope := new Envelope();
      new;
      RegistersDetermineState(regs.State(), PulseState(0, false, false, 0, false, 0, false, 0, 0, 0));
    }

    /** read_byte: write-only registers read back as 0. */
    method ReadByte(reg: nat) returns (data: Byte)
      ensures data == 0
    {
      data := regs.ReadByte(reg);
    }

    /** write_byte */
    method WriteByte(reg: nat, data: Byte)
      requires Valid() && reg < 4
      modifies regs, lenctr, envelope
      ensures Valid() && State() == ChannelWrite(old(State()), reg, data)
    {
      regs.WriteByte(reg, data);
      LoadIndexBits(data);
      match reg
      case 0 =>
        var h := BitIsSet(data, 5);
        lenctr.SetHalt(h);
        envelope.SetLoop(h);
        envelope.SetConstant(BitIsSet(data, 4));
        envelope.SetVolume(LowNibble(data));
      case 1 =>
      case 2 =>
      case 3 =>
        lenctr.Load(LoadIndex(data));
        envelope.Start();
    }

    /** tick: the register file's clock, which does nothing. */
    method Tick()
      requires Valid()
      modifies regs
      ensures Valid() && State() == old(State())
    {
      regs.Tick();
    }

    /** enable_length */
    method EnableLength(e: bool)
      requires Valid()
      modifies lenctr
      ensures Valid() && State() == old(State()).(len := old(State()).len.(
        enabled := e, counter := if e then old(lenctr.counter) else 0))
    {
      lenctr.SetEnable(e);
    }

    /** clock_length */
    method ClockLength()
      requires Valid()
      modifies lenctr
      ensures Valid() && State() == old(State()).(len := LengthStep(old(State()).len))
    {
      lenctr.Tick();
    }

    /** clock_envelope */
    method ClockEnvelope()
      requires Valid()
      modifies envelope, envelope.divider, envelope.decay
      ensures Valid() && State() == old(State()).(env := EnvelopeStep(old(State()).env))
    {
      envelope.Tick();
    }

    /** clock_sweep: no sweep unit exists, so nothing changes. */
    method ClockSweep()
      requires Valid()
      ensures Valid() && State() == old(State())
    {
    }

    /** length_status */
    predicate LengthStatus()
      reads lenctr
    {
      !lenctr.Mute()
    }
  }
}
