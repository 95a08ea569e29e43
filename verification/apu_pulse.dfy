// The pulse channel's registers (nescore/src/apu/chnl/pulse.rs). In this
// revision the channel only decodes its four write-only registers into
// fields: it produces no sound, reads back 0 and its clock does nothing.

module ApuPulse {
  import opened Bits

  /** The decoded register fields. */
  datatype PulseState = PulseState(
    duty: Byte, halt: bool, constant: bool, volume: Byte,
    sweepEnabled: bool, period: Byte, negate: bool, shift: Byte,
    timer: Word, load: Byte)

  /** Every field fits the width of the register bits it comes from; the timer has 11 bits. */
  predicate PulseInv(s: PulseState)
  {
    s.duty <= 3 && s.volume <= 15 && s.period <= 7 && s.shift <= 7 &&
    s.timer < 0x800 && s.load <= 0x1F
  }

  function Flag(b: bool, m: Byte): Byte
  {
    if b then m else 0
  }

  /** The byte of register 0 that decodes to these fields. */
  function ControlByte(duty: Byte, halt: bool, constant: bool, volume: Byte): Byte
  {
    (duty << 6) | Flag(halt, 0x20) | Flag(constant, 0x10) | volume
  }

  /** The byte of register 1 that decodes to these fields. */
  function SweepByte(enabled: bool, period: Byte, negate: bool, shift: Byte): Byte
  {
    Flag(enabled, 0x80) | (period << 4) | Flag(negate, 0x08) | shift
  }

  /** The byte of register 3 that decodes to this length index and timer high byte. */
  function LoadByte(load: Byte, high: Byte): Byte
  {
    (load << 3) | (high & 0x07)
  }

  /**
   * The bytes that, written to registers 0 to 3, produce the fields of
   * `s`: the register layout read backwards.
   */
  function RegBytes(s: PulseState): seq<Byte>
  {
    [ControlByte(s.duty, s.halt, s.constant, s.volume),
     SweepByte(s.sweepEnabled, s.period, s.negate, s.shift),
     LowByte(s.timer),
     LoadByte(s.load, HighByte(s.timer))]
  }

  /** write_byte: register `reg` (0..3; any other index panics) takes `d`. */
  function PulseWrite(s: PulseState, reg: nat, d: Byte): (r: PulseState)
    requires reg < 4
    ensures PulseInv(s) ==> PulseInv(r)
    ensures RegBytes(r) == RegBytes(s)[reg := d]
  {
    match reg
    case 0 => WriteControl(s, d)
    case 1 => WriteSweep(s, d)
    case 2 => WriteTimerLow(s, d)
    case 3 => WriteLoad(s, d)
  }

  /** Register 0: duty (bits 7-6), halt (bit 5), constant volume (bit 4), volume (bits 3-0). */
  function WriteControl(s: PulseState, d: Byte): (r: PulseState)
    ensures PulseInv(s) ==> PulseInv(r)
    ensures RegBytes(r) == RegBytes(s)[0 := d]
  {
    ControlRoundTrip(d);
    s.(duty := BitGroup(d, 0x03, 6), halt := BitIsSet(d, 5),
       constant := BitIsSet(d, 4), volume := d & 0x0F)
  }

  /** Register 1: sweep enable (bit 7), period (bits 6-4), negate (bit 3), shift (bits 2-0). */
  function WriteSweep(s: PulseState, d: Byte): (r: PulseState)
    ensures PulseInv(s) ==> PulseInv(r)
    ensures RegBytes(r) == RegBytes(s)[1 := d]
  {
    SweepRoundTrip(d);
    s.(sweepEnabled := BitIsSet(d, 7), period := BitGroup(d, 0x07, 4),
       negate := BitIsSet(d, 3), shift := d & 0x07)
  }

  /** Register 2: the low byte of the timer. */
  function WriteTimerLow(s: PulseState, d: Byte): (r: PulseState)
    ensures PulseInv(s) ==> PulseInv(r)
    ensures RegBytes(r) == RegBytes(s)[2 := d]
  {
    TimerLow(s.timer, d);
    s.(timer := TimerWithLow(s.timer, d))
  }

  /** Register 3: timer bits 10-8 (bits 2-0) and the length index (bits 7-3). */
  function WriteLoad(s: PulseState, d: Byte): (r: PulseState)
    ensures PulseInv(s) ==> PulseInv(r)
    ensures RegBytes(r) == RegBytes(s)[3 := d]
  {
    TimerHigh(s.timer, d);
    s.(timer := TimerWithHigh(s.timer, d), load := BitGroup(d, 0x1F, 3))
  }

  lemma ControlRoundTrip(d: Byte)
    ensures ControlByte(BitGroup(d, 0x03, 6), BitIsSet(d, 5), BitIsSet(d, 4), d & 0x0F) == d
    ensures BitGroup(d, 0x03, 6) <= 3
  {
  }

  lemma SweepRoundTrip(d: Byte)
    ensures SweepByte(BitIsSet(d, 7), BitGroup(d, 0x07, 4), BitIsSet(d, 3), d & 0x07) == d
    ensures BitGroup(d, 0x07, 4) <= 7
  {
  }

  /** The timer with its low byte replaced by `d`. */
  function TimerWithLow(t: Word, d: Byte): Word
  {
    (t & 0xFF00) | (d as Word)
  }

  /** The timer with bits 10-8 replaced by the low three bits of `d`. */
  function TimerWithHigh(t: Word, d: Byte): Word
  {
    (t & 0x00FF) | (((d as Word) & 0x07) << 8)
  }

  lemma TimerLow(t: Word, d: Byte)
    ensures var t' := TimerWithLow(t, d);
      (t < 0x800 ==> t' < 0x800) && LowByte(t') == d && HighByte(t') == HighByte(t)
  {
  }

  lemma TimerHigh(t: Word, d: Byte)
    ensures var t' := TimerWithHigh(t, d);
      t' < 0x800 && LowByte(t') == LowByte(t) && LoadByte(BitGroup(d, 0x1F, 3), HighByte(t')) == d
    ensures BitGroup(d, 0x1F, 3) <= 0x1F
  {
  }

  /**
   * The four register bytes determine the whole state: two states that
   * agree on every register are equal. With PulseWrite's contract this
   * says the channel holds exactly the bytes last written to it.
   */
  lemma RegistersDetermineState(a: PulseState, b: PulseState)
    requires PulseInv(a) && PulseInv(b)
    requires RegBytes(a) == RegBytes(b)
    ensures a == b
  {
    ControlRegister(a, b);
    SweepRegister(a, b);
    TimerRegisters(a, b);
  }

  /** Register 0 determines the duty, halt, constant-volume and volume fields. */
  lemma ControlRegister(a: PulseState, b: PulseState)
    requires PulseInv(a) && PulseInv(b) && RegBytes(a)[0] == RegBytes(b)[0]
    ensures a.duty == b.duty && a.halt == b.halt && a.constant == b.constant && a.volume == b.volume
  {
    ControlFields(a.duty, a.halt, a.constant, a.volume, b.duty, b.halt, b.constant, b.volume);
  }

  /** Register 1 determines the sweep fields. */
  lemma SweepRegister(a: PulseState, b: PulseState)
    requires PulseInv(a) && PulseInv(b) && RegBytes(a)[1] == RegBytes(b)[1]
    ensures a.sweepEnabled == b.sweepEnabled && a.period == b.period && a.negate == b.negate && a.shift == b.shift
  {
    SweepFields(a.sweepEnabled, a.period, a.negate, a.shift, b.sweepEnabled, b.period, b.negate, b.shift);
  }

  /** Registers 2 and 3 determine the timer and the length index. */
  lemma TimerRegisters(a: PulseState, b: PulseState)
    requires PulseInv(a) && PulseInv(b) && RegBytes(a)[2] == RegBytes(b)[2] && RegBytes(a)[3] == RegBytes(b)[3]
    ensures a.timer == b.timer && a.load == b.load
  {
    TimerFields(a.timer, a.load, b.timer, b.load);
  }

  lemma ControlFields(d1: Byte, h1: bool, c1: bool, v1: Byte, d2: Byte, h2: bool, c2: bool, v2: Byte)
    requires d1 <= 3 && v1 <= 15 && d2 <= 3 && v2 <= 15
    requires ControlByte(d1, h1, c1, v1) == ControlByte(d2, h2, c2, v2)
    ensures d1 == d2 && h1 == h2 && c1 == c2 && v1 == v2
  {
  }

  lemma SweepFields(e1: bool, p1: Byte, n1: bool, s1: Byte, e2: bool, p2: Byte, n2: bool, s2: Byte)
    requires p1 <= 7 && s1 <= 7 && p2 <= 7 && s2 <= 7
    requires SweepByte(e1, p1, n1, s1) == SweepByte(e2, p2, n2, s2)
    ensures e1 == e2 && p1 == p2 && n1 == n2 && s1 == s2
  {
  }

  lemma TimerFields(t1: Word, l1: Byte, t2: Word, l2: Byte)
    requires t1 < 0x800 && l1 <= 0x1F && t2 < 0x800 && l2 <= 0x1F
    requires LowByte(t1) == LowByte(t2)
    requires LoadByte(l1, HighByte(t1)) == LoadByte(l2, HighByte(t2))
    ensures t1 == t2 && l1 == l2
  {
  }

  class Pulse {
    var duty: Byte
    var halt: bool
    var constant: bool
    var volume: Byte
    var sweepEnabled: bool
    var period: Byte
    var negate: bool
    var shift: Byte
    var timer: Word
    var load: Byte

    function State(): PulseState
      reads this
    {
      PulseState(duty, halt, constant, volume, sweepEnabled, period, negate, shift, timer, load)
    }

    ghost predicate Valid()
      reads this
    {
      PulseInv(State())
    }

    /** Pulse::default: every register zero. */
    constructor ()
      ensures Valid()
      ensures RegBytes(State()) == [0, 0, 0, 0]
    {
      duty, halt, constant, volume := 0, false, false, 0;
      sweepEnabled, period, negate, shift := false, 0, false, 0;
      timer, load := 0, 0;
    }

    /** read_byte: the registers are write-only and read back as 0. */
    method ReadByte(reg: nat) returns (data: Byte)
      ensures data == 0
    {
      data := 0;
    }

    /** write_byte: any register index above 3 panics. */
    method WriteByte(reg: nat, data: Byte)
      requires reg < 4
      modifies this
      ensures State() == PulseWrite(old(State()), reg, data)
    {
      match reg
      case 0 => WriteControlReg(data);
      case 1 => WriteSweepReg(data);
      case 2 => WriteTimerLowReg(data);
      case 3 => WriteLoadReg(data);
    }

    method WriteControlReg(data: Byte)
      modifies this
      ensures State() == WriteControl(old(State()), data)
    {
      duty := BitGroup(data, 0x03, 6);
      halt := BitIsSet(data, 5);
      constant := BitIsSet(data, 4);
      volume := data & 0x0F;
    }

    method WriteSweepReg(data: Byte)
      modifies this
      ensures State() == WriteSweep(old(State()), data)
    {
      sweepEnabled := BitIsSet(data, 7);
      period := BitGroup(data, 0x07, 4);
      negate := BitIsSet(data, 3);
      shift := data & 0x07;
    }

    method WriteTimerLowReg(data: Byte)
      modifies this
      ensures State() == WriteTimerLow(old(State()), data)
    {
      timer := TimerWithLow(timer, data);
    }

    method WriteLoadReg(data: Byte)
      modifies this
      ensures State() == WriteLoad(old(State()), data)
    {
      timer := TimerWithHigh(timer, data);
      load := BitGroup(data, 0x1F, 3);
    }

    /** tick: the channel's clock does nothing in this revision. */
    method Tick()
      modifies this
      ensures State() == old(State())
    {
    }
  }
}
