// The length counter (nescore/src/apu/chnl/lenctr.rs): a channel is silent
// once its length counter reaches zero. The counter is loaded from a
// 32-entry table, counts down on each length clock unless halted, and is
// forced to zero, and kept there, while the channel is disabled.

module ApuLength {
  import opened Bits

  /** LOAD_LOOKUP_TABLE: length-counter values, indexed by the 5-bit field of register 3. */
  const LoadTable: seq<nat> := [
    10, 254, 20, 2, 40, 4, 80, 6, 160, 8, 60, 10, 14, 12, 26, 14,
    12, 16, 24, 18, 48, 20, 96, 22, 192, 24, 72, 26, 16, 28, 32, 30]

  /** The largest value of the table. */
  const MaxLength: nat := 254

  /** The table entry for `index`: always a positive count no larger than MaxLength. */
  function LoadValue(index: nat): (n: nat)
    requires index < 32
    ensures 0 < n <= MaxLength
    ensures index == 0 ==> n == 10
  {
    LoadTable[index]
  }

  /** bit_group!(data, 0x1F, 3): the table index in bits 7-3 of a channel's register 3. */
  function LoadIndex(d: Byte): (i: nat)
    ensures i < 32
  {
    (d >> 3) as nat
  }

  datatype LengthState = LengthState(enabled: bool, halted: bool, counter: nat)

  /** The invariant the counter keeps: zero while disabled, never above the table maximum. */
  predicate LengthInv(s: LengthState)
  {
    (!s.enabled ==> s.counter == 0) && s.counter <= MaxLength
  }

  /** tick: count down when enabled, not halted and not already zero. */
  function LengthStep(s: LengthState): (r: LengthState)
    ensures LengthInv(s) ==> LengthInv(r)
    ensures r.counter <= s.counter
  {
    if s.enabled && !s.halted && s.counter > 0 then s.(counter := s.counter - 1) else s
  }

  /** The state after `n` length clocks. */
  function LengthRun(s: LengthState, n: nat): LengthState
  {
    if n == 0 then s else LengthStep(LengthRun(s, n - 1))
  }

  /**
   * `n` clocks of a running counter take it down by `n`, stopping at zero;
   * a halted or disabled counter does not move.
   */
  lemma {:induction false} LengthRunCount(s: LengthState, n: nat)
    ensures LengthRun(s, n) ==
      if s.enabled && !s.halted then s.(counter := if n <= s.counter then s.counter - n else 0) else s
  {
    if n > 0 {
      LengthRunCount(s, n - 1);
    }
  }

  /** set_enable on the state: disabling clears the counter, enabling keeps it. */
  function LengthEnable(s: LengthState, e: bool): (r: LengthState)
    ensures LengthInv(s) ==> LengthInv(r)
    ensures r.enabled == e && r.halted == s.halted
    ensures r.counter == if e then s.counter else 0
  {
    s.(enabled := e, counter := if e then s.counter else 0)
  }

  /** Clocks compose: `a` clocks and then `b` more are `a + b` clocks. */
  lemma {:induction false} LengthRunAdds(s: LengthState, a: nat, b: nat)
    ensures LengthRun(LengthRun(s, a), b) == LengthRun(s, a + b)
  {
    LengthRunCount(s, a);
    LengthRunCount(LengthRun(s, a), b);
    LengthRunCount(s, a + b);
  }

  /** A counter loaded with entry 0 (10) is still sounding after 9 clocks and silent after 10. */
  lemma LoadZeroLastsTen()
    ensures LengthRun(LengthState(true, false, LoadValue(0)), 9).counter > 0
    ensures LengthRun(LengthState(true, false, LoadValue(0)), 10).counter == 0
  {
    LengthRunCount(LengthState(true, false, 10), 9);
    LengthRunCount(LengthState(true, false, 10), 10);
  }

  class LengthCounter {
    var enabled: bool
    var halted: bool
    var counter: nat

    function State(): LengthState
      reads this
    {
      LengthState(enabled, halted, counter)
    }

    ghost predicate Valid()
      reads this
    {
      LengthInv(State())
    }

    /** LengthCounter::default: disabled, running, zero. */
    constructor ()
      ensures Valid() && State() == LengthState(false, false, 0)
    {
      enabled := false;
      halted := false;
      counter := 0;
    }

    /** tick */
    method Tick()
      requires Valid()
      modifies this
      ensures Valid() && State() == LengthStep(old(State()))
    {
      if enabled && !halted {
        if counter > 0 {
          counter := counter - 1;
        }
      }
    }

    /** set_enable: disabling forces the counter to zero. */
    method SetEnable(e: bool)
      requires Valid()
      modifies this
      ensures Valid()
      ensures State() == old(State()).(enabled := e, counter := if e then old(counter) else 0)
    {
      enabled := e;
      if !enabled {
        counter := 0;
      }
    }

    /**
     * load: only an enabled counter takes the table value; a disabled one
     * stays at zero. The table index must be below 32 (the Rust indexing
     * panics otherwise).
     */
    method Load(index: nat)
      requires Valid() && index < 32
      modifies this
      ensures Valid()
      ensures State() == old(State()).(counter := if old(enabled) then LoadValue(index) else old(counter))
      ensures !enabled ==> Mute()
    {
      if enabled {
        counter := LoadValue(index);
      }
    }

    /** set_halt */
    method SetHalt(halt: bool)
      requires Valid()
      modifies this
      ensures Valid() && State() == old(State()).(halted := halt)
    {
      halted := halt;
    }

    /** mute: the counter has run out; `length_status` is its negation. */
    predicate Mute()
      reads this
    {
      counter == 0
    }
  }

  /** The `simple` test of lenctr.rs: load(0), nine clocks still sounding, the tenth silences. */
  method LoadZeroExample() returns (mutedAfterNine: bool, mutedAfterTen: bool)
    ensures !mutedAfterNine && mutedAfterTen
  {
    var l := new LengthCounter();
    l.SetEnable(true);
    l.Load(0);
    for i := 0 to 9
      invariant l.Valid() && l.State() == LengthState(true, false, 10 - i)
    {
      l.Tick();
    }
    mutedAfterNine := l.Mute();
    l.Tick();
    mutedAfterTen := l.Mute();
  }

  /** The `halt` test: a halted counter skips a clock, so the silence comes one clock later. */
  method HaltExample() returns (mutedWhileHalted: bool, mutedAfter: bool)
    ensures !mutedWhileHalted && mutedAfter
  {
    var l := new LengthCounter();
    l.SetEnable(true);
    l.Load(0);
    for i := 0 to 9
      invariant l.Valid() && l.State() == LengthState(true, false, 10 - i)
    {
      l.Tick();
    }
    l.SetHalt(true);
    l.Tick();
    mutedWhileHalted := l.Mute();
    l.SetHalt(false);
    l.Tick();
    mutedAfter := l.Mute();
  }

  /** The `no_load_when_disabled` test: loading a disabled counter leaves it silent. */
  method DisabledLoadExample() returns (muted: bool)
    ensures muted
  {
    var l := new LengthCounter();
    l.SetEnable(false);
    l.Load(0);
    muted := l.Mute();
  }
}
