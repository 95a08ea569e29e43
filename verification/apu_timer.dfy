// The channel timer (nescore/src/apu/chnl/timer.rs): an 11-bit-or-wider
// period register split into a high and a low byte, driving a divider.
// Setting either byte reloads the divider at once; setting the whole period
// leaves the divider's current count alone.

module ApuTimer {
  import opened Bits
  import opened ApuDivider

  /**
   * set_period_high: `(period & 0x00FF) | (hi << 8)` on the u16 period, the
   * high byte replaced and the low byte kept.
   */
  function WithHigh(period: Addr, hi: Byte): (r: Addr)
    ensures r / 256 == hi as nat && r % 256 == period % 256
  {
    period % 256 + hi as nat * 256
  }

  /** set_period_low: `(period & 0xFF00) | lo`, the low byte replaced and the high byte kept. */
  function WithLow(period: Addr, lo: Byte): (r: Addr)
    ensures r / 256 == period / 256 && r % 256 == lo as nat
  {
    period / 256 * 256 + lo as nat
  }

  /**
   * Writing both halves, in either order, gives the period hi * 256 + lo
   * whatever the period was before.
   */
  lemma HalvesCompose(period: Addr, hi: Byte, lo: Byte)
    ensures WithLow(WithHigh(period, hi), lo) == WithHigh(WithLow(period, lo), hi)
    ensures WithLow(WithHigh(period, hi), lo) == hi as nat * 256 + lo as nat
  {
  }

  /** The timer's registers as a value: the period and the divider under it. */
  datatype TimerState = TimerState(divider: DividerState, period: Addr)

  /** The timer's invariant: the divider always holds the timer's period. */
  predicate TimerInv(t: TimerState)
  {
    t.divider.period == t.period
  }

  class Timer {
    const divider: Divider
    var period: Addr

    function State(): TimerState
      reads this, divider
    {
      TimerState(divider.State(), period)
    }

    ghost predicate Valid()
      reads this, divider
    {
      TimerInv(State())
    }

    /** Timer::default */
    constructor ()
      ensures Valid() && fresh(divider)
      ensures State() == TimerState(DividerState(0, 0), 0)
    {
      divider := new Divider();
      period := 0;
    }

    /** tick: the divider's tick. */
    method Tick() returns (fired: bool)
      requires Valid()
      modifies divider
      ensures Valid()
      ensures (divider.State(), fired) == ApuDivider.Step(old(divider.State()))
      ensures period == old(period)
    {
      fired := divider.Tick();
    }

    /** set_period_high: new high byte, pushed to the divider, which restarts. */
    method SetPeriodHigh(hi: Byte)
      requires Valid()
      modifies this, divider
      ensures Valid()
      ensures period == WithHigh(old(period), hi)
      ensures divider.counter == period
    {
      period := WithHigh(period, hi);
      divider.SetPeriod(period);
      divider.Reset();
    }

    /** set_period_low: new low byte, pushed to the divider, which restarts. */
    method SetPeriodLow(lo: Byte)
      requires Valid()
      modifies this, divider
      ensures Valid()
      ensures period == WithLow(old(period), lo)
      ensures divider.counter == period
    {
      period := WithLow(period, lo);
      divider.SetPeriod(period);
      divider.Reset();
    }

    /** set_period: the whole period, without restarting the divider. */
    method SetPeriod(p: Addr)
      requires Valid()
      modifies this, divider
      ensures Valid()
      ensures period == p
      ensures divider.counter == old(divider.counter)
    {
      period := p;
      divider.SetPeriod(period);
    }

    /** reset: the divider restarts from the period. */
    method Reset()
      requires Valid()
      modifies divider
      ensures Valid()
      ensures period == old(period) && divider.counter == period
    {
      divider.Reset();
    }
  }

  /** The test of timer.rs: period 5 after a reset fires on the sixth tick and not before. */
  method TimerExample() returns (fires: seq<bool>)
    ensures fires == [false, false, false, false, false, true]
  {
    var t := new Timer();
    t.SetPeriodHigh(0x00);
    t.SetPeriodLow(0x05);
    t.Reset();
    assert t.divider.State() == DividerState(5, 5);
    fires := [];
    for i := 0 to 6
      invariant |fires| == i && t.Valid()
      invariant t.divider.State() == Run(DividerState(5, 5), i)
      invariant forall j :: 0 <= j < i ==> fires[j] == FiresOn(DividerState(5, 5), j)
    {
      var f := t.Tick();
      fires := fires + [f];
    }
    forall j | 0 <= j < 6 ensures fires[j] == (j == 5) {
      Periodic(5, j);
    }
  }
}
