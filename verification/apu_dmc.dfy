// The delta modulation channel (nescore/src/apu/chnl/dmc.rs). On each expiry
// of its timer the channel may fetch one sample byte over the bus into its
// buffer (the memory reader), moves its 7-bit output level up or down by 2
// according to the next bit of the shift register (the output unit), and
// counts down the bits of the current output cycle. `start_cycle` both
// restarts the sample (address and length) and begins a new output cycle;
// the source calls it at the end of every output cycle as well as on a
// looping sample's end and on enabling. The bus is a parameter: absent,
// or a total function from addresses to bytes.

module ApuDmc {
  import opened Bits
  import opened Results
  import opened ApuDivider
  import opened ApuTimer

  /** FREQ_LOOKUP: the rate table, in CPU cycles, selected by the low four bits of register 0. */
  const FreqLookup: seq<nat> := [
    428, 380, 340, 320, 286, 254, 226, 214, 190, 160, 142, 128, 106, 84, 72, 54]

  /** Higher indices are faster rates, and every entry halves exactly into the APU-cycle timer period. */
  lemma FreqLookupShape(i: nat, j: nat)
    requires i < j < 16
    ensures FreqLookup[i] > FreqLookup[j]
    ensures FreqLookup[i] % 2 == 0 && FreqLookup[i] / 2 * 2 == FreqLookup[i]
  {
  }

  /** The timer period register 0 selects: the table entry halved. */
  function RatePeriod(d: Byte): (p: Addr)
    ensures 27 <= p <= 214
  {
    FreqLookup[LowNibble(d)] / 2
  }

  /** Register 2: `0xC000 | d << 6`; the two parts share no bits, so the OR is a sum. */
  function SampleAddress(d: Byte): (a: Addr)
    ensures 0xC000 <= a <= 0xFFC0
    ensures (a - 0xC000) % 64 == 0 && (a - 0xC000) / 64 == d as nat
  {
    0xC000 + d as nat * 64
  }

  /** Register 3: `d << 4 | 1`, a length of 16 d + 1 bytes. */
  function SampleLength(d: Byte): (n: Addr)
    ensures 1 <= n <= 4081
    ensures n % 16 == 1 && n / 16 == d as nat
  {
    d as nat * 16 + 1
  }

  /** The direct load of register 1 as the source computes it: `data & 0xEF`. */
  function DirectLoadAsWritten(d: Byte): (n: Octet)
  {
    (d & 0xEF) as nat
  }

  /**
   * The mask 0xEF drops bit 4 of the seven-bit level and keeps bit 7:
   * writing 0x10 loads 0 instead of 16, and 0xFF loads 239, a level the
   * output unit never moves and `output` masks to 111.
   */
  lemma DirectLoadAsWrittenDropsBit4()
    ensures DirectLoadAsWritten(0x10) == 0 && DirectLoad(0x10) == 16
    ensures DirectLoadAsWritten(0xFF) == 239 && DirectLoad(0xFF) == 127
  {
  }

  /** The direct load of register 1: the low seven bits. */
  function DirectLoad(d: Byte): (n: Octet)
    ensures n <= 127
    ensures d <= 0x7F ==> n == d as nat
  {
    (d & 0x7F) as nat
  }

  /** The memory reader's next address: one up, wrapping from $FFFF to $8000. */
  function NextAddr(a: Addr): (r: Addr)
    ensures a >= 0x8000 ==> r >= 0x8000
  {
    if a == 0xFFFF then 0x8000 else a + 1
  }

  function AddrAfter(a: Addr, k: nat): Addr
  {
    if k == 0 then a else NextAddr(AddrAfter(a, k - 1))
  }

  /**
   * From an address in $8000-$FFFF the reader walks that 32 KiB window
   * round and round: after k fetches it is at $8000 + (a - $8000 + k) mod $8000.
   */
  lemma {:induction false} AddrWalk(a: Addr, k: nat)
    requires a >= 0x8000
    ensures AddrAfter(a, k) == 0x8000 + (a - 0x8000 + k) % 0x8000
  {
    if k > 0 {
      AddrWalk(a, k - 1);
      WindowInc(a - 0x8000 + (k - 1));
    }
  }

  lemma WindowInc(x: nat)
    ensures (x % 0x8000 + 1) % 0x8000 == (x + 1) % 0x8000
    ensures x % 0x8000 + 1 < 0x8000 ==> (x % 0x8000 + 1) % 0x8000 == x % 0x8000 + 1
    ensures x % 0x8000 + 1 == 0x8000 ==> (x + 1) % 0x8000 == 0
  {
  }

  datatype DmcState = DmcState(
    irqEnabled: bool, loopEnabled: bool, sampleAddress: Addr, sampleLength: Addr, enabled: bool,
    bitsRemaining: nat, silence: bool, shift: Byte, output: Octet,
    timer: TimerState, buffer: Option<Byte>, currentAddr: Addr, remaining: Addr)

  /** The timer holds its period, an output cycle has at most 8 bits and the level has 7 bits. */
  predicate DmcInv(s: DmcState)
  {
    TimerInv(s.timer) && s.bitsRemaining <= 8 && s.output <= 127
  }

  /**
   * start_cycle: the reader restarts at the sample's address and length, a
   * new 8-bit output cycle begins, and the buffered byte (if any) moves into
   * the shift register; with no byte the cycle is silent.
   */
  function StartCycle(s: DmcState): (r: DmcState)
    ensures DmcInv(s) ==> DmcInv(r)
    ensures r.currentAddr == s.sampleAddress && r.remaining == s.sampleLength
    ensures r.bitsRemaining == 8 && r.buffer == None
    ensures r.silence <==> s.buffer == None
    ensures r.shift == if s.buffer.Some? then s.buffer.value else s.shift
    ensures r.output == s.output && r.timer == s.timer
  {
    var r := s.(currentAddr := s.sampleAddress, remaining := s.sampleLength, bitsRemaining := 8);
    if s.buffer.Some? then r.(shift := s.buffer.value, buffer := None, silence := false)
    else r.(silence := true)
  }

  /**
   * The memory reader: with the buffer empty and bytes left, read the byte
   * at the current address (when a bus is attached), advance the address
   * and count the byte; the last byte of a looping sample restarts it.
   */
  function Fetch(s: DmcState, bus: Option<Addr -> Byte>): (r: DmcState)
    ensures DmcInv(s) ==> DmcInv(r)
    ensures r.output == s.output && r.timer == s.timer
  {
    if s.buffer == None && s.remaining > 0 then
      var s1 := s.(buffer := if bus.Some? then BusRead(bus, s.currentAddr) else s.buffer,
                   currentAddr := NextAddr(s.currentAddr));
      if s1.remaining > 0 then
        var s2 := s1.(remaining := s1.remaining - 1);
        if s2.remaining == 0 && s2.loopEnabled then StartCycle(s2) else s2
      else s1
    else s
  }

  /** The byte a read of the bus gives, if a bus is attached. */
  function BusRead(bus: Option<Addr -> Byte>, a: Addr): (r: Option<Byte>)
    ensures r.Some? <==> bus.Some?
  {
    match bus
    case Some(read) => Some(read(a))
    case None => None
  }

  /** A full buffer or an exhausted sample fetches nothing. */
  lemma NoFetch(s: DmcState, bus: Option<Addr -> Byte>)
    requires s.buffer.Some? || s.remaining == 0
    ensures Fetch(s, bus) == s
  {
  }

  /**
   * A fetch that does not end a looping sample reads the byte at the
   * current address (with a bus), moves to the next address and leaves one
   * byte fewer.
   */
  lemma FetchReads(s: DmcState, bus: Option<Addr -> Byte>)
    requires s.buffer == None && s.remaining > 0 && !(s.remaining == 1 && s.loopEnabled)
    ensures Fetch(s, bus).buffer == BusRead(bus, s.currentAddr)
    ensures Fetch(s, bus).currentAddr == NextAddr(s.currentAddr)
    ensures Fetch(s, bus).remaining == s.remaining - 1
  {
  }

  /** The last byte of a looping sample rewinds the reader to the start of the sample. */
  lemma LoopRestarts(s: DmcState, bus: Option<Addr -> Byte>)
    requires s.buffer == None && s.remaining == 1 && s.loopEnabled
    ensures Fetch(s, bus).currentAddr == s.sampleAddress
    ensures Fetch(s, bus).remaining == s.sampleLength
  {
  }

  /**
   * The output unit: when not silent and the level is within 2..125, bit 0
   * of the shift register moves the level up or down by 2, so it never
   * leaves 0..127.
   */
  function OutputLevel(s: DmcState): (r: DmcState)
    ensures DmcInv(s) ==> DmcInv(r)
    ensures r.(output := s.output) == s
    ensures r.output != s.output ==> !s.silence && 2 <= s.output <= 125
    ensures r.output == s.output || r.output == s.output + 2 || r.output + 2 == s.output
    ensures !s.silence && 2 <= s.output <= 125 ==>
              (r.output > s.output <==> BitIsSet(s.shift, 0))
  {
    if !s.silence && 2 <= s.output <= 125 then
      s.(output := if BitIsSet(s.shift, 0) then s.output + 2 else s.output - 2)
    else s
  }

  /** The rest of a timer clock: shift out one bit and count it. */
  function ShiftOut(s: DmcState): (r: DmcState)
    ensures DmcInv(s) ==> DmcInv(r)
    ensures r.output == s.output && r.timer == s.timer
  {
    CountBit(s.(shift := s.shift >> 1))
  }

  /** The bit counter: at the end of the 8 bits a new cycle starts. */
  function CountBit(s: DmcState): (r: DmcState)
    ensures DmcInv(s) ==> DmcInv(r)
    ensures r.output == s.output && r.timer == s.timer
  {
    if s.bitsRemaining > 0 then
      var s1 := s.(bitsRemaining := s.bitsRemaining - 1);
      if s1.bitsRemaining == 0 then StartCycle(s1) else s1
    else s
  }

  /**
   * Because the end of every output cycle calls start_cycle, the reader is
   * sent back to the start of the sample after each byte is played: the
   * sample never gets past its first bytes.
   */
  lemma CycleEndRewindsReader(s: DmcState)
    requires s.bitsRemaining == 1
    ensures ShiftOut(s).currentAddr == s.sampleAddress && ShiftOut(s).remaining == s.sampleLength
    ensures ShiftOut(s).bitsRemaining == 8
  {
  }

  /** tick: on a timer expiry, the memory reader, the output unit and the bit counter in that order. */
  function DmcStep(s: DmcState, bus: Option<Addr -> Byte>): (r: DmcState)
    ensures DmcInv(s) ==> DmcInv(r)
  {
    var (d, fired) := Step(s.timer.divider);
    var s1 := s.(timer := s.timer.(divider := d));
    if fired then ShiftOut(OutputLevel(Fetch(s1, bus))) else s1
  }

  function DmcRun(s: DmcState, bus: Option<Addr -> Byte>, n: nat): DmcState
  {
    if n == 0 then s else DmcStep(DmcRun(s, bus, n - 1), bus)
  }

  /** However long the channel runs, its level stays a 7-bit value and its cycles at most 8 bits. */
  lemma {:induction false} LevelStaysSevenBit(s: DmcState, bus: Option<Addr -> Byte>, n: nat)
    requires DmcInv(s)
    ensures DmcInv(DmcRun(s, bus, n))
    ensures DmcRun(s, bus, n).output <= 127
  {
    if n > 0 {
      LevelStaysSevenBit(s, bus, n - 1);
    }
  }

  /** write_byte on registers 0..3 (any other index panics). */
  function DmcWrite(s: DmcState, reg: nat, d: Byte): (r: DmcState)
    requires reg < 4
    ensures DmcInv(s) ==> DmcInv(r)
    ensures reg == 0 ==> r.irqEnabled == BitIsSet(d, 7) && r.loopEnabled == BitIsSet(d, 6) &&
                         r.timer.period == RatePeriod(d) && r.timer.divider.counter == s.timer.divider.counter
    ensures reg == 1 ==> r == s.(output := DirectLoad(d))
    ensures reg == 2 ==> r == s.(sampleAddress := SampleAddress(d))
    ensures reg == 3 ==> r == s.(sampleLength := SampleLength(d))
  {
    match reg
    case 0 =>
      var p := RatePeriod(d);
      s.(irqEnabled := BitIsSet(d, 7), loopEnabled := BitIsSet(d, 6),
         timer := TimerState(s.timer.divider.(period := p), p))
    case 1 => s.(output := DirectLoad(d))
    case 2 => s.(sampleAddress := SampleAddress(d))
    case 3 => s.(sampleLength := SampleLength(d))
  }

  /** set_enable: enabling starts a cycle; disabling keeps the bytes remaining (and so the status). */
  function SetEnableState(s: DmcState, e: bool): (r: DmcState)
    ensures DmcInv(s) ==> DmcInv(r)
    ensures r.enabled == e
    ensures !e ==> r == s.(enabled := false)
    ensures e ==> r.currentAddr == s.sampleAddress && r.remaining == s.sampleLength && r.bitsRemaining == 8
  {
    var s1 := s.(enabled := e);
    if e then StartCycle(s1) else s1
  }

  /** status: bytes remain to be fetched. */
  predicate DmcStatus(s: DmcState)
  {
    s.remaining > 0
  }

  /** Enabling a channel whose sample length is set (registers 3 gives at least 1) makes the status true. */
  lemma EnableGivesStatus(s: DmcState, d: Byte)
    ensures DmcStatus(SetEnableState(DmcWrite(s, 3, d), true))
    ensures DmcStatus(SetEnableState(s, false)) == DmcStatus(s)
  {
  }

  class Dmc {
    var irqEnabled: bool
    var loopEnabled: bool
    var sampleAddress: Addr
    var sampleLength: Addr
    var enabled: bool
    var bitsRemaining: nat
    var silence: bool
    var shift: Byte
    var output: Octet
    const timer: Timer
    var buffer: Option<Byte>
    var currentAddr: Addr
    var remaining: Addr
    var bus: Option<Addr -> Byte>

    function State(): DmcState
      reads this, timer, timer.divider
    {
      DmcState(irqEnabled, loopEnabled, sampleAddress, sampleLength, enabled,
               bitsRemaining, silence, shift, output, timer.State(), buffer, currentAddr, remaining)
    }

    ghost predicate Valid()
      reads this, timer, timer.divider
    {
      DmcInv(State())
    }

    /** Dmc::default: everything zero, no buffered byte, no bus. */
    constructor ()
      ensures Valid() && fresh(timer) && fresh(timer.divider) && bus == None
      ensures State() == DmcState(false, false, 0, 0, false, 0, false, 0, 0,
                                  TimerState(DividerState(0, 0), 0), None, 0, 0)
    {
      irqEnabled, loopEnabled, sampleAddress, sampleLength, enabled := false, false, 0, 0, false;
      bitsRemaining, silence, shift, output := 0, false, 0, 0;
      timer := new Timer();
      buffer, currentAddr, remaining := None, 0, 0;
      bus := None;
    }

    /** load_bus */
    method LoadBus(b: Addr -> Byte)
      modifies this
      ensures bus == Some(b) && State() == old(State())
    {
      bus := Some(b);
    }

    /** output: the level's low seven bits. */
    function Output(): (r: Octet)
      reads this
      ensures r <= 127
    {
      (output as Byte & 0x7F) as nat
    }

    /** status */
    predicate Status()
      reads this
    {
      remaining > 0
    }

    /** read_byte: the registers are write-only. */
    method ReadByte(reg: nat) returns (data: Byte)
      ensures data == 0
    {
      data := 0;
    }

    /** write_byte */
    method WriteByte(reg: nat, data: Byte)
      requires Valid() && reg < 4
      modifies this, timer, timer.divider
      ensures Valid() && State() == DmcWrite(old(State()), reg, data) && bus == old(bus)
    {
      match reg
      case 0 =>
        irqEnabled := BitIsSet(data, 7);
        loopEnabled := BitIsSet(data, 6);
        timer.SetPeriod(RatePeriod(data));
      case 1 => output := DirectLoad(data);
      case 2 => sampleAddress := SampleAddress(data);
      case 3 => sampleLength := SampleLength(data);
    }

    /** set_enable */
    method SetEnable(e: bool)
      requires Valid()
      modifies this
      ensures Valid() && State() == SetEnableState(old(State()), e) && bus == old(bus)
    {
      enabled := e;
      if enabled {
        StartCycleNow();
      }
    }

    /** start_cycle */
    method StartCycleNow()
      requires Valid()
      modifies this
      ensures State() == StartCycle(old(State())) && bus == old(bus)
    {
      currentAddr := sampleAddress;
      remaining := sampleLength;
      bitsRemaining := 8;
      if buffer.Some? {
        shift := buffer.value;
        buffer := None;
        silence := false;
      } else {
        silence := true;
      }
    }

    /** tick */
    method Tick()
      requires Valid()
      modifies this, timer.divider
      ensures Valid() && State() == DmcStep(old(State()), old(bus)) && bus == old(bus)
    {
      var fired := timer.Tick();
      if fired {
        FetchSample();
        ClockOutputUnit();
        ShiftOutBit();
      }
    }

    /** The memory reader part of tick. */
    method FetchSample()
      requires Valid()
      modifies this
      ensures State() == Fetch(old(State()), bus) && bus == old(bus)
    {
      if buffer == None && remaining > 0 {
        if bus.Some? {
          buffer := BusRead(bus, currentAddr);
        }
        if currentAddr == 0xFFFF {
          currentAddr := 0x8000;
        } else {
          currentAddr := currentAddr + 1;
        }
        if remaining > 0 {
          remaining := remaining - 1;
          if remaining == 0 {
            if loopEnabled {
              StartCycleNow();
            }
          }
        }
      }
    }

    /** The output unit part of tick. */
    method ClockOutputUnit()
      requires Valid()
      modifies this
      ensures State() == OutputLevel(old(State())) && bus == old(bus)
    {
      if !silence {
        if output >= 2 && output <= 125 {
          if BitIsSet(shift, 0) {
            output := output + 2;
          } else {
            output := output - 2;
          }
        }
      }
    }

    /** The shift and bit-count part of tick. */
    method ShiftOutBit()
      requires Valid()
      modifies this
      ensures State() == ShiftOut(old(State())) && bus == old(bus)
    {
      shift := shift >> 1;
      CountOutputBit();
    }

    method CountOutputBit()
      requires Valid()
      modifies this
      ensures State() == CountBit(old(State())) && bus == old(bus)
    {
      if bitsRemaining > 0 {
        bitsRemaining := bitsRemaining - 1;
        if bitsRemaining == 0 {
          StartCycleNow();
        }
      }
    }
  }
}
