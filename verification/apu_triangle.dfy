// The triangle channel (nescore/src/apu/chnl/triangle.rs). A timer steps a
// 32-entry sequence that falls from 15 to 0 and rises back to 15, but only
// while both the length counter and the linear counter are non-zero. The
// linear counter is reloaded from register 0 when the reload flag is set and
// otherwise counts down on each quarter-frame clock.

module ApuTriangle {
  import opened Bits
  import opened ApuDivider
  import opened ApuTimer
  import opened ApuLength

  /** The triangle sequence: 15 down to 0, then 0 up to 15. */
  const Sequence: seq<nat> := [
    15, 14, 13, 12, 11, 10, 9, 8, 7, 6, 5, 4, 3, 2, 1, 0,
    0, 1, 2, 3, 4, 5, 6, 7, 8, 9, 10, 11, 12, 13, 14, 15]

  /** Entry `i` of the sequence in closed form: a fall over the first half, a rise over the second. */
  lemma SequenceShape(i: nat)
    requires i < 32
    ensures Sequence[i] == if i < 16 then 15 - i else i - 16
    ensures Sequence[i] <= 15
  {
  }

  /** The first k + 1 entries of the sequence are the first k and entry k. */
  lemma SequencePrefix(k: nat)
    requires k < 32
    ensures Sequence[..k + 1] == Sequence[..k] + [Sequence[k]]
  {
  }

  /** The linear counter reload value as the source computes it: `data & 0xEF`. */
  function LinearReloadAsWritten(d: Byte): (n: nat)
    ensures n < 256
  {
    (d & 0xEF) as nat
  }

  /**
   * The mask 0xEF keeps the control flag (bit 7) in the reload value and
   * drops bit 4 of the count: 0x90 (control set, count 16) reloads 128.
   */
  lemma ReloadAsWrittenLeaksControl()
    ensures LinearReloadAsWritten(0x90) == 128
    ensures LinearReload(0x90) == 16
  {
  }

  /**
   * The linear counter reload value: the low seven bits of register 0, bit 7
   * being the control flag.
   */
  function LinearReload(d: Byte): (n: nat)
    ensures n < 128
  {
    (d & 0x7F) as nat
  }

  /** Register 0 splits exactly into the control flag and the reload value. */
  lemma ControlReloadSplit(d: Byte)
    ensures LinearReload(d) + (if BitIsSet(d, 7) then 128 else 0) == d as nat
  {
  }

  datatype TriangleState = TriangleState(
    timer: TimerState, len: LengthState, linear: nat, reloadValue: nat,
    reloadFlag: bool, ctrlFlag: bool, idx: nat)

  /** The sequence index stays in range and the timer and length counter keep their invariants. */
  predicate TriangleInv(s: TriangleState)
  {
    s.idx < 32 && TimerInv(s.timer) && LengthInv(s.len)
  }

  /** output: the sequence entry at the index. */
  function TriangleOutput(s: TriangleState): (r: nat)
    requires TriangleInv(s)
    ensures r <= 15
    ensures r == if s.idx < 16 then 15 - s.idx else s.idx - 16
  {
    SequenceShape(s.idx);
    Sequence[s.idx]
  }

  /** Whether the sequencer may step: the length and linear counters are both non-zero. */
  predicate Sounding(s: TriangleState)
  {
    s.len.counter != 0 && s.linear != 0
  }

  /** tick: the timer is always clocked; its expiry steps the sequence while sounding. */
  function TriangleStep(s: TriangleState): (r: TriangleState)
    ensures TriangleInv(s) ==> TriangleInv(r)
    ensures r.len == s.len && r.linear == s.linear && r.timer.period == s.timer.period
  {
    var (d, fired) := Step(s.timer.divider);
    s.(timer := s.timer.(divider := d),
       idx := if fired && Sounding(s) then (s.idx + 1) % 32 else s.idx)
  }

  function TriangleRun(s: TriangleState, n: nat): TriangleState
  {
    if n == 0 then s else TriangleStep(TriangleRun(s, n - 1))
  }

  lemma {:induction false} TriangleRunAdds(s: TriangleState, a: nat, b: nat)
    ensures TriangleRun(s, a + b) == TriangleRun(TriangleRun(s, a), b)
  {
    if b > 0 {
      TriangleRunAdds(s, a, b - 1);
    }
  }

  /**
   * From a timer counter of `c`, c + 1 ticks reload the timer and, while
   * sounding, step the sequence exactly once.
   */
  lemma {:induction false} TimerPeriod(s: TriangleState, c: nat)
    requires s.timer.divider.counter == c
    ensures TriangleRun(s, c + 1) ==
      s.(timer := s.timer.(divider := s.timer.divider.(counter := s.timer.divider.period)),
         idx := if Sounding(s) then (s.idx + 1) % 32 else s.idx)
    decreases c
  {
    if c > 0 {
      TriangleRunAdds(s, 1, c);
      TimerPeriod(TriangleStep(s), c - 1);
    }
  }

  /** A sounding triangle with a freshly reset timer steps once in one timer period. */
  lemma OnePeriod(s: TriangleState)
    requires s.timer.divider.counter == s.timer.divider.period && Sounding(s)
    ensures TriangleRun(s, s.timer.divider.period + 1) == s.(idx := (s.idx + 1) % 32)
  {
    TimerPeriod(s, s.timer.divider.period);
  }

  /**
   * A sounding triangle with a freshly reset timer of period p steps once
   * every p + 1 ticks: k such periods move the index k places round the
   * sequence and leave everything else as it was.
   */
  lemma {:induction false} StepsPerPeriod(s: TriangleState, k: nat)
    requires s.timer.divider.counter == s.timer.divider.period && Sounding(s) && s.idx < 32
    ensures TriangleRun(s, k * (s.timer.divider.period + 1)) == s.(idx := (s.idx + k) % 32)
  {
    var p := s.timer.divider.period + 1;
    PeriodsSteps(s, k);
    PeriodsIsProduct(k, p);
  }

  /** `k` periods of `p` ticks, counted by repeated addition. */
  function Periods(k: nat, p: nat): nat
  {
    if k == 0 then 0 else Periods(k - 1, p) + p
  }

  lemma {:induction false} PeriodsIsProduct(k: nat, p: nat)
    ensures Periods(k, p) == k * p
  {
    if k > 0 {
      PeriodsIsProduct(k - 1, p);
      MulStep(k, p);
    }
  }

  /** StepsPerPeriod with the run length written as repeated addition. */
  lemma {:induction false} PeriodsSteps(s: TriangleState, k: nat)
    requires s.timer.divider.counter == s.timer.divider.period && Sounding(s) && s.idx < 32
    ensures TriangleRun(s, Periods(k, s.timer.divider.period + 1)) == s.(idx := (s.idx + k) % 32)
  {
    if k > 0 {
      var p := s.timer.divider.period + 1;
      var s' := s.(idx := (s.idx + (k - 1)) % 32);
      PeriodsSteps(s, k - 1);
      TriangleRunAdds(s, Periods(k - 1, p), p);
      OnePeriod(s');
      ModInc(s.idx + (k - 1));
    }
  }

  lemma ModInc(a: nat)
    ensures (a % 32 + 1) % 32 == (a + 1) % 32
  {
  }

  /** A silent triangle (length or linear counter at zero) never leaves its place in the sequence. */
  lemma {:induction false} SilentHolds(s: TriangleState, n: nat)
    requires !Sounding(s)
    ensures TriangleRun(s, n).idx == s.idx
    ensures !Sounding(TriangleRun(s, n))
  {
    if n > 0 {
      SilentHolds(s, n - 1);
    }
  }

  /**
   * clock_linear: reload when the reload flag is set, otherwise count down
   * to zero; the reload flag survives only while the control flag is set.
   */
  function ClockLinearState(s: TriangleState): (r: TriangleState)
    ensures TriangleInv(s) ==> TriangleInv(r)
    ensures s.reloadFlag ==> r.linear == s.reloadValue
    ensures !s.reloadFlag ==> r.linear == if s.linear > 0 then s.linear - 1 else 0
    ensures r.reloadFlag <==> s.reloadFlag && s.ctrlFlag
  {
    s.(linear := if s.reloadFlag then s.reloadValue else if s.linear > 0 then s.linear - 1 else s.linear,
       reloadFlag := if !s.ctrlFlag then false else s.reloadFlag)
  }

  function LinearRun(s: TriangleState, n: nat): TriangleState
  {
    if n == 0 then s else ClockLinearState(LinearRun(s, n - 1))
  }

  /** Without a pending reload, n quarter-frame clocks take the linear counter down by n, stopping at zero. */
  lemma {:induction false} LinearCountDown(s: TriangleState, n: nat)
    requires !s.reloadFlag
    ensures LinearRun(s, n).linear == if n <= s.linear then s.linear - n else 0
    ensures !LinearRun(s, n).reloadFlag
  {
    if n > 0 {
      LinearCountDown(s, n - 1);
    }
  }

  /** With the control flag set, the reload flag stays set and every clock reloads the counter. */
  lemma {:induction false} ControlKeepsReloading(s: TriangleState, n: nat)
    requires s.reloadFlag && s.ctrlFlag && n > 0
    ensures LinearRun(s, n).linear == s.reloadValue && LinearRun(s, n).reloadFlag
  {
    if n > 1 {
      ControlKeepsReloading(s, n - 1);
    }
  }

  /** write_byte on registers 0..3 (any other index panics; register 1 is unused). */
  function TriangleWrite(s: TriangleState, reg: nat, d: Byte): (r: TriangleState)
    requires reg < 4
    ensures TriangleInv(s) ==> TriangleInv(r)
  {
    match reg
    case 0 => WriteControl(s, d)
    case 1 => s
    case 2 => WriteTimerLow(s, d)
    case 3 => WriteLoad(s, d)
  }

  /** Register 0: the control flag (bit 7), which also halts the length counter, and the reload value. */
  function WriteControl(s: TriangleState, d: Byte): (r: TriangleState)
    ensures TriangleInv(s) ==> TriangleInv(r)
    ensures r.ctrlFlag == BitIsSet(d, 7) && r.len.halted == r.ctrlFlag
    ensures r.reloadValue + (if r.ctrlFlag then 128 else 0) == d as nat
    ensures r.(ctrlFlag := s.ctrlFlag, len := s.len, reloadValue := s.reloadValue) == s
    ensures r.len == s.len.(halted := r.ctrlFlag)
  {
    ControlReloadSplit(d);
    var ctrl := BitIsSet(d, 7);
    s.(ctrlFlag := ctrl, len := s.len.(halted := ctrl), reloadValue := LinearReload(d))
  }

  /** Register 2: the low byte of the timer period; the timer restarts. */
  function WriteTimerLow(s: TriangleState, d: Byte): (r: TriangleState)
    ensures TriangleInv(s) ==> TriangleInv(r)
    ensures r.timer.period % 256 == d as nat && r.timer.period / 256 == s.timer.period / 256
    ensures r.timer.divider.counter == r.timer.period
    ensures r.(timer := s.timer) == s
  {
    var p := WithLow(s.timer.period, d);
    s.(timer := TimerState(DividerState(p, p), p))
  }

  /**
   * Register 3: timer period bits 10-8, the length counter load (bits 7-3)
   * and the linear counter reload flag; the timer restarts.
   */
  function WriteLoad(s: TriangleState, d: Byte): (r: TriangleState)
    ensures TriangleInv(s) ==> TriangleInv(r)
    ensures r.timer.period / 256 == (d & 0x07) as nat && r.timer.period % 256 == s.timer.period % 256
    ensures r.timer.divider.counter == r.timer.period
    ensures r.len == s.len.(counter := if s.len.enabled then LoadValue(LoadIndex(d)) else s.len.counter)
    ensures r.reloadFlag
  {
    var p := WithHigh(s.timer.period, d & 0x07);
    s.(timer := TimerState(DividerState(p, p), p),
       len := s.len.(counter := if s.len.enabled then LoadValue(LoadIndex(d)) else s.len.counter),
       reloadFlag := true)
  }

  /** Writing registers 2 and 3 sets the timer period to hi * 256 + lo, whatever it was, and restarts the timer. */
  lemma PeriodFromRegisters(s: TriangleState, lo: Byte, hi: Byte)
    ensures var r := TriangleWrite(TriangleWrite(s, 2, lo), 3, hi);
      r.timer.period == (hi & 0x07) as nat * 256 + lo as nat && r.timer.divider.counter == r.timer.period
  {
    HalvesCompose(s.timer.period, hi & 0x07, lo);
  }

  class Triangle {
    const timer: Timer
    const lenctr: LengthCounter
    var linear: nat
    var reloadValue: nat
    var reloadFlag: bool
    var ctrlFlag: bool
    var idx: nat

    function State(): TriangleState
      reads this, timer, timer.divider, lenctr
    {
      TriangleState(timer.State(), lenctr.State(), linear, reloadValue, reloadFlag, ctrlFlag, idx)
    }

    ghost predicate Valid()
      reads this, timer, timer.divider, lenctr
    {
      TriangleInv(State())
    }

    /** Triangle::default */
    constructor ()
      ensures Valid() && fresh(timer) && fresh(timer.divider) && fresh(lenctr)
      ensures State() == TriangleState(TimerState(DividerState(0, 0), 0), LengthState(false, false, 0),
                                       0, 0, false, false, 0)
    {
      timer := new Timer();
      lenctr := new LengthCounter();
      linear, reloadValue, reloadFlag, ctrlFlag, idx := 0, 0, false, false, 0;
    }

    /** output */
    function Output(): (r: nat)
      requires Valid()
      reads this, timer, timer.divider, lenctr
      ensures r <= 15
    {
      Sequence[idx]
    }

    /** tick */
    method Tick()
      requires Valid()
      modifies this, timer.divider
      ensures Valid() && State() == TriangleStep(old(State()))
    {
      var fired := timer.Tick();
      if fired && !lenctr.Mute() && linear != 0 {
        idx := (idx + 1) % 32;
      }
    }

    /** clock_linear */
    method ClockLinear()
      requires Valid()
      modifies this
      ensures Valid() && State() == ClockLinearState(old(State()))
    {
      if reloadFlag {
        linear := reloadValue;
      } else if linear > 0 {
        linear := linear - 1;
      }
      if !ctrlFlag {
        reloadFlag := false;
      }
    }

    /** read_byte: the registers are write-only. */
    method ReadByte(reg: nat) returns (data: Byte)
      ensures data == 0
    {
      data := 0;
    }

    /** write_byte */
    method WriteByte(reg: nat, data: Byte)
      requires Valid() && reg < 4
      modifies this, timer, timer.divider, lenctr
      ensures Valid() && State() == TriangleWrite(old(State()), reg, data)
    {
      match reg
      case 0 => WriteControlReg(data);
      case 1 =>
      case 2 => timer.SetPeriodLow(data);
      case 3 => WriteLoadReg(data);
    }

    method WriteControlReg(data: Byte)
      requires Valid()
      modifies this, lenctr
      ensures Valid() && State() == WriteControl(old(State()), data)
    {
      var ctrl := BitIsSet(data, 7);
      ctrlFlag := ctrl;
      lenctr.SetHalt(ctrl);
      reloadValue := LinearReload(data);
    }

    method WriteLoadReg(data: Byte)
      requires Valid()
      modifies this, timer, timer.divider, lenctr
      ensures Valid() && State() == WriteLoad(old(State()), data)
    {
      timer.SetPeriodHigh(data & 0x07);
      lenctr.Load(LoadIndex(data));
      reloadFlag := true;
    }

    /** enable_length */
    method EnableLength(e: bool)
      requires Valid()
      modifies lenctr
      ensures Valid() && State() == old(State()).(len := old(State()).len.(
        enabled := e, counter := if e then old(lenctr.counter) else 0))
    {
      lenctr.SetEnable(e);
    }

    /** clock_length */
    method ClockLength()
      requires Valid()
      modifies lenctr
      ensures Valid() && State() == old(State()).(len := LengthStep(old(State()).len))
    {
      lenctr.Tick();
    }

    /** length_status: the length counter has not run out. */
    predicate LengthStatus()
      reads lenctr
    {
      !lenctr.Mute()
    }
  }

  /**
   * The `basic_triangle` test: reload 1, timer period 1, length enabled and
   * loaded, one linear clock; the output then reads 15 down to 0 and 0 up
   * to 15, one step every two ticks.
   */
  method BasicTriangleExample() returns (outputs: seq<nat>)
    ensures |outputs| == 32
    ensures forall k :: 0 <= k < 16 ==> outputs[k] == 15 - k
    ensures forall k :: 16 <= k < 32 ==> outputs[k] == k - 16
  {
    var t := BasicSetUp();
    ghost var s0 := t.State();
    outputs := [];
    for k := 0 to 32
      invariant t.Valid() && t.State() == s0.(idx := k % 32)
      invariant outputs == Sequence[..k]
    {
      assert k % 32 == k;
      SequencePrefix(k);
      outputs := outputs + [t.Output()];
      TwoTicks(t, s0, k);
    }
    forall k | 0 <= k < 32 ensures outputs[k] == if k < 16 then 15 - k else k - 16 {
      SequenceShape(k);
    }
  }

  /** The set-up of the `basic_triangle` test. */
  method BasicSetUp() returns (t: Triangle)
    ensures t.Valid() && fresh(t) && fresh(t.timer) && fresh(t.timer.divider) && fresh(t.lenctr)
    ensures t.State().timer.divider == DividerState(1, 1) && Sounding(t.State()) && t.idx == 0
  {
    t := new Triangle();
    t.WriteByte(0, 0x01);
    t.WriteByte(2, 1);
    t.EnableLength(true);
    t.WriteByte(3, 0x08);
    t.ClockLinear();
  }

  /** Two ticks of the test's triangle: one timer period, one step of the sequence. */
  method TwoTicks(t: Triangle, ghost s0: TriangleState, k: nat)
    requires t.Valid() && k < 32 && t.State() == s0.(idx := k)
    requires s0.timer.divider == DividerState(1, 1) && Sounding(s0)
    modifies t, t.timer.divider
    ensures t.Valid() && t.State() == s0.(idx := (k + 1) % 32)
  {
    t.Tick();
    t.Tick();
    TriangleRunAdds(s0.(idx := k), 1, 1);
    StepsPerPeriod(s0.(idx := k), 1);
  }
}
