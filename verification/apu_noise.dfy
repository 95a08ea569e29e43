// The noise channel (nescore/src/apu/chnl/noise.rs). A 15-bit linear
// feedback shift register, clocked by a timer whose period comes from a
// 16-entry table, supplies a pseudo-random bit; the volume comes from an
// envelope and the channel is silenced by a length counter.

module ApuNoise {
  import opened Bits
  import opened ApuDivider
  import opened ApuTimer
  import opened ApuLength
  import opened ApuEnvelope

  /** TIMER_PERIODS: the timer period selected by the low four bits of register 2. */
  const NoisePeriods: seq<Addr> := [
    4, 8, 16, 32, 64, 96, 128, 160, 202, 254, 380, 508, 762, 1016, 2034, 4068]

  /** Longer table entries are longer periods: the table is strictly increasing and every period is even. */
  lemma NoisePeriodsIncrease(i: nat, j: nat)
    requires i < j < 16
    ensures NoisePeriods[i] < NoisePeriods[j]
    ensures NoisePeriods[i] % 2 == 0 && 4 <= NoisePeriods[i] <= 4068
  {
  }

  /** The register's invariant: it fits 15 bits and is never all zero (it starts at 1). */
  predicate ShiftInv(sr: Word)
  {
    sr < 0x8000 && sr != 0
  }

  /** The feedback bit: bit 0 exclusive-or bit 6 (loop mode) or bit 1. */
  function Feedback(sr: Word, loopNoise: bool): (r: Word)
    ensures r <= 1
  {
    var bit0 := sr & 1;
    var tap := if loopNoise then (sr >> 6) & 1 else (sr >> 1) & 1;
    bit0 ^ tap
  }

  /**
   * One shift of the register: everything moves down one bit, bit 14 is
   * cleared and then takes the feedback bit.
   */
  function Shift(sr: Word, loopNoise: bool): (r: Word)
    ensures ShiftInv(sr) ==> ShiftInv(r)
    ensures r & 0x3FFF == (sr >> 1) & 0x3FFF
    ensures r >> 14 == Feedback(sr, loopNoise)
  {
    var fb := Feedback(sr, loopNoise);
    ShiftFacts(sr, fb);
    ((sr >> 1) & 0xBFFF) | (fb << 14)
  }

  lemma ShiftFacts(sr: Word, fb: Word)
    requires fb <= 1
    ensures var r := ((sr >> 1) & 0xBFFF) | (fb << 14);
      (sr < 0x8000 ==> r < 0x8000) && r & 0x3FFF == (sr >> 1) & 0x3FFF && r >> 14 == fb
  {
  }

  /** A register holding only bit 0 shifts a 1 into bit 14 in either mode, so it never reaches 0. */
  lemma ShiftFromOne(loopNoise: bool)
    ensures Shift(1, loopNoise) == 0x4000
    ensures Shift(0x4000, loopNoise) == 0x2000
  {
  }

  datatype NoiseState = NoiseState(
    timer: TimerState, len: LengthState, env: EnvelopeState, loopNoise: bool, sr: Word)

  predicate NoiseInv(s: NoiseState)
  {
    TimerInv(s.timer) && LengthInv(s.len) && EnvelopeInv(s.env) && ShiftInv(s.sr)
  }

  /** tick: the register shifts when the timer fires. */
  function NoiseStep(s: NoiseState): (r: NoiseState)
    ensures NoiseInv(s) ==> NoiseInv(r)
    ensures r.len == s.len && r.env == s.env && r.loopNoise == s.loopNoise && r.timer.period == s.timer.period
  {
    var (d, fired) := Step(s.timer.divider);
    s.(timer := s.timer.(divider := d), sr := if fired then Shift(s.sr, s.loopNoise) else s.sr)
  }

  function NoiseRun(s: NoiseState, n: nat): NoiseState
  {
    if n == 0 then s else NoiseStep(NoiseRun(s, n - 1))
  }

  /** However long it runs, the register keeps 15 bits and never locks up at zero. */
  lemma {:induction false} NeverLocksUp(s: NoiseState, n: nat)
    requires NoiseInv(s)
    ensures NoiseInv(NoiseRun(s, n))
    ensures NoiseRun(s, n).sr != 0
  {
    if n > 0 {
      NeverLocksUp(s, n - 1);
    }
  }

  /** The register moves only on the ticks where the timer fires. */
  lemma {:induction false} ShiftsOnlyOnFire(s: NoiseState, n: nat)
    ensures NoiseRun(s, n).timer.divider == Run(s.timer.divider, n)
    ensures NoiseRun(s, n + 1).sr ==
      if FiresOn(s.timer.divider, n) then Shift(NoiseRun(s, n).sr, s.loopNoise) else NoiseRun(s, n).sr
  {
    if n > 0 {
      ShiftsOnlyOnFire(s, n - 1);
      RunKeepsLoop(s, n - 1);
    }
    RunKeepsLoop(s, n);
  }

  lemma {:induction false} RunKeepsLoop(s: NoiseState, n: nat)
    ensures NoiseRun(s, n).loopNoise == s.loopNoise
  {
    if n > 0 {
      RunKeepsLoop(s, n - 1);
    }
  }

  /** The channel is silenced when bit 0 of the register is set or the length counter has run out. */
  predicate Silenced(s: NoiseState)
  {
    s.sr & 1 != 0 || s.len.counter == 0
  }

  /** output as the source writes it: the envelope exactly when the channel should be silent. */
  function NoiseOutputAsWritten(s: NoiseState): (r: Octet)
    ensures Silenced(s) ==> r == EnvelopeOutput(s.env)
    ensures !Silenced(s) ==> r == 0
  {
    if s.sr & 1 != 0 || s.len.counter == 0 then EnvelopeOutput(s.env) else 0
  }

  /** output: zero when silenced, the envelope otherwise. */
  function NoiseOutput(s: NoiseState): (r: Octet)
    ensures Silenced(s) ==> r == 0
    ensures !Silenced(s) ==> r == EnvelopeOutput(s.env)
  {
    if s.sr & 1 != 0 || s.len.counter == 0 then 0 else EnvelopeOutput(s.env)
  }

  /** The two outputs are complementary: whatever one plays, the other keeps silent. */
  lemma OutputsComplement(s: NoiseState)
    ensures NoiseOutputAsWritten(s) + NoiseOutput(s) == EnvelopeOutput(s.env)
    ensures NoiseOutputAsWritten(s) == 0 || NoiseOutput(s) == 0
  {
  }

  /**
   * A channel whose length counter has run out, with constant volume 15,
   * plays at full volume as written and is silent as intended.
   */
  lemma MutedChannelSounds(s: NoiseState)
    requires s.len.counter == 0 && s.env.constant && s.env.volume == 15
    ensures NoiseOutputAsWritten(s) == 15
    ensures NoiseOutput(s) == 0
  {
  }

  /** write_byte on registers 0..3 (any other index panics; register 1 is unused). */
  function NoiseWrite(s: NoiseState, reg: nat, d: Byte): (r: NoiseState)
    requires reg < 4
    ensures NoiseInv(s) ==> NoiseInv(r)
  {
    match reg
    case 0 => WriteControl(s, d)
    case 1 => s
    case 2 => WriteMode(s, d)
    case 3 => WriteLoad(s, d)
  }

  /**
   * Register 0: bit 5 halts the length counter and loops the envelope,
   * bit 4 selects constant volume and bits 3-0 are the volume.
   */
  function WriteControl(s: NoiseState, d: Byte): (r: NoiseState)
    ensures NoiseInv(s) ==> NoiseInv(r)
    ensures r.len == s.len.(halted := BitIsSet(d, 5))
    ensures r.env == s.env.(loopFlag := BitIsSet(d, 5), constant := BitIsSet(d, 4), volume := LowNibble(d))
    ensures r.(len := s.len, env := s.env) == s
  {
    var l := BitIsSet(d, 5);
    s.(len := s.len.(halted := l),
       env := s.env.(loopFlag := l, constant := BitIsSet(d, 4), volume := LowNibble(d)))
  }

  /**
   * Register 2: bit 7 selects the short (loop) mode and bits 3-0 the timer
   * period; the timer is not restarted.
   */
  function WriteMode(s: NoiseState, d: Byte): (r: NoiseState)
    ensures NoiseInv(s) ==> NoiseInv(r)
    ensures r.loopNoise == BitIsSet(d, 7)
    ensures r.timer.period == NoisePeriods[LowNibble(d)] && r.timer.divider.counter == s.timer.divider.counter
    ensures r.(loopNoise := s.loopNoise, timer := s.timer) == s
  {
    var p := NoisePeriods[LowNibble(d)];
    s.(loopNoise := BitIsSet(d, 7), timer := TimerState(s.timer.divider.(period := p), p))
  }

  /** Register 3: loads the length counter from bits 7-3 and starts the envelope. */
  function WriteLoad(s: NoiseState, d: Byte): (r: NoiseState)
    ensures NoiseInv(s) ==> NoiseInv(r)
    ensures r.len == s.len.(counter := if s.len.enabled then LoadValue(LoadIndex(d)) else s.len.counter)
    ensures r.env == s.env.(start := true)
    ensures r.(len := s.len, env := s.env) == s
  {
    s.(len := s.len.(counter := if s.len.enabled then LoadValue(LoadIndex(d)) else s.len.counter),
       env := s.env.(start := true))
  }

  class Noise {
    const timer: Timer
    const lenctr: LengthCounter
    const envelope: Envelope
    var loopNoise: bool
    var shiftRegister: Word

    function State(): NoiseState
      reads this, timer, timer.divider, lenctr, envelope, envelope.divider, envelope.decay
    {
      NoiseState(timer.State(), lenctr.State(), envelope.State(), loopNoise, shiftRegister)
    }

    ghost predicate Valid()
      reads this, timer, timer.divider, lenctr, envelope, envelope.divider, envelope.decay
    {
      envelope.Valid() && NoiseInv(State())
    }

    /** Noise::default: the shift register starts at 1. */
    constructor ()
      ensures Valid()
      ensures fresh(timer) && fresh(timer.divider) && fresh(lenctr)
      ensures fresh(envelope) && fresh(envelope.divider) && fresh(envelope.decay)
      ensures State() == NoiseState(TimerState(DividerState(0, 0), 0), LengthState(false, false, 0),
                                    EnvelopeState(false, 0, 0, 0, false, false), false, 1)
    {
      timer := new Timer();
      lenctr := new LengthCounter();
      envelope := new Envelope();
      loopNoise := false;
      shiftRegister := 1;
    }

    /** output, with the silencing condition the right way round: 0 when silenced, the envelope otherwise. */
    function Output(): (o: Octet)
      reads this, timer, timer.divider, lenctr, envelope, envelope.divider, envelope.decay
      ensures Silenced(State()) ==> o == 0
      ensures !Silenced(State()) ==> o == EnvelopeOutput(envelope.State())
    {
      NoiseOutput(State())
    }

    /** tick */
    method Tick()
      requires Valid()
      modifies this, timer.divider
      ensures Valid() && State() == NoiseStep(old(State()))
    {
      var fired := timer.Tick();
      if fired {
        ShiftOnce();
      }
    }

    /** The body of tick's `if`: one shift of the register with the feedback into bit 14. */
    method ShiftOnce()
      modifies this
      ensures shiftRegister == Shift(old(shiftRegister), loopNoise)
      ensures loopNoise == old(loopNoise)
    {
      var bit0 := shiftRegister & 1;
      var bit1 := if loopNoise then (shiftRegister >> 6) & 1 else (shiftRegister >> 1) & 1;
      var r := bit0 ^ bit1;
      shiftRegister := shiftRegister >> 1;
      shiftRegister := shiftRegister & 0xBFFF;
      shiftRegister := shiftRegister | (r << 14);
    }

    /** read_byte: the registers are write-only. */
    method ReadByte(reg: nat) returns (data: Byte)
      ensures data == 0
    {
      data := 0;
    }

    /** write_byte */
    method WriteByte(reg: nat, data: Byte)
      requires Valid() && reg < 4
      modifies this, timer, timer.divider, lenctr, envelope
      ensures Valid() && State() == NoiseWrite(old(State()), reg, data)
    {
      match reg
      case 0 => WriteControlReg(data);
      case 1 =>
      case 2 =>
        loopNoise := BitIsSet(data, 7);
        timer.SetPeriod(NoisePeriods[LowNibble(data)]);
      case 3 =>
        lenctr.Load(LoadIndex(data));
        envelope.Start();
    }

    method WriteControlReg(data: Byte)
      requires Valid()
      modifies lenctr, envelope
      ensures Valid() && State() == WriteControl(old(State()), data)
    {
      var l := BitIsSet(data, 5);
      lenctr.SetHalt(l);
      envelope.SetLoop(l);
      envelope.SetConstant(BitIsSet(data, 4));
      envelope.SetVolume(LowNibble(data));
    }

    /** clock_envelope */
    method ClockEnvelope()
      requires Valid()
      modifies envelope, envelope.divider, envelope.decay
      ensures Valid() && State() == old(State()).(env := EnvelopeStep(old(State()).env))
    {
      envelope.Tick();
    }

    /** enable_length */
    method EnableLength(e: bool)
      requires Valid()
      modifies lenctr
      ensures Valid() && State() == old(State()).(len := old(State()).len.(
        enabled := e, counter := if e then old(lenctr.counter) else 0))
    {
      lenctr.SetEnable(e);
    }

    /** clock_length */
    method ClockLength()
      requires Valid()
      modifies lenctr
      ensures Valid() && State() == old(State()).(len := LengthStep(old(State()).len))
    {
      lenctr.Tick();
    }

    /** length_status */
    predicate LengthStatus()
      reads lenctr
    {
      !lenctr.Mute()
    }
  }
}
