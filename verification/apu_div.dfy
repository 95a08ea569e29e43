// The APU divider (nescore/src/apu/chnl/div.rs): a counter that counts down
// once per tick and, on the tick that finds it at zero, reloads it with the
// period and reports a clock. Its period is therefore `period + 1` ticks.
// The Rust fields are u32; they only ever hold a u16 timer period or a value
// counted down from one, so the model keeps them as natural numbers.

module ApuDivider {
  /** The divider's two registers as a value. */
  datatype DividerState = DividerState(counter: nat, period: nat)

  /** One tick: the new state and whether the divider fired. */
  function Step(s: DividerState): (DividerState, bool)
  {
    if s.counter == 0 then (s.(counter := s.period), true)
    else (s.(counter := s.counter - 1), false)
  }

  /** The state after `n` ticks. */
  function Run(s: DividerState, n: nat): DividerState
  {
    if n == 0 then s else Step(Run(s, n - 1)).0
  }

  /** Whether tick number `n` (counting from 0) fires. */
  predicate FiresOn(s: DividerState, n: nat)
  {
    Step(Run(s, n)).1
  }

  /** Ticks never change the period. */
  lemma {:induction false} RunKeepsPeriod(s: DividerState, n: nat)
    ensures Run(s, n).period == s.period
  {
    if n > 0 {
      RunKeepsPeriod(s, n - 1);
    }
  }

  /** The first `k` ticks from counter `k` or more only count down. */
  lemma {:induction false} CountDown(s: DividerState, k: nat)
    requires k <= s.counter
    ensures Run(s, k) == s.(counter := s.counter - k)
  {
    if k > 0 {
      CountDown(s, k - 1);
    }
  }

  lemma {:induction false} RunAdds(s: DividerState, a: nat, b: nat)
    ensures Run(s, a + b) == Run(Run(s, a), b)
  {
    if b > 0 {
      RunAdds(s, a, b - 1);
    }
  }

  /** Counter + 1 ticks bring the divider back to its reloaded state, firing only on the last. */
  lemma FullCycle(s: DividerState)
    ensures Run(s, s.counter + 1) == s.(counter := s.period)
    ensures forall i :: 0 <= i < s.counter ==> !FiresOn(s, i)
    ensures FiresOn(s, s.counter)
  {
    CountDown(s, s.counter);
    forall i | 0 <= i < s.counter ensures !FiresOn(s, i) {
      CountDown(s, i);
    }
  }

  /**
   * After a reset (counter = period = p) the divider fires on every
   * (p + 1)-th tick and on no other: tick n fires iff n mod (p + 1) = p.
   */
  lemma Periodic(p: nat, n: nat)
    ensures Run(DividerState(p, p), n) == Run(DividerState(p, p), n % (p + 1))
    ensures FiresOn(DividerState(p, p), n) <==> n % (p + 1) == p
  {
    RunModPeriod(p, n);
    CountDown(DividerState(p, p), n % (p + 1));
  }

  lemma {:induction false} RunModPeriod(p: nat, n: nat)
    ensures Run(DividerState(p, p), n) == Run(DividerState(p, p), n % (p + 1))
  {
    var s := DividerState(p, p);
    var q := p + 1;
    if n < q {
      ModSmall(n, q);
    } else {
      var m := n - q;
      FullCycle(s);
      assert Run(s, q) == s;
      RunAdds(s, q, m);
      assert Run(s, n) == Run(s, m);
      RunModPeriod(p, m);
      ModShift(n, q);
    }
  }

  lemma ModSmall(n: nat, q: nat)
    requires n < q
    ensures n % q == n
  {
  }

  lemma ModShift(n: nat, q: nat)
    requires 0 < q <= n
    ensures (n - q) % q == n % q
  {
    var k := n / q;
    var r := n % q;
    assert n == q * k + r;
    assert k >= 1 by {
      if k == 0 { assert false; }
    }
    assert n - q == q * (k - 1) + r;
    ModUnique(n - q, q, k - 1, r);
  }

  /** The remainder is the unique r in [0, q) with a = q * k + r. */
  lemma ModUnique(a: nat, q: nat, k: nat, r: nat)
    requires 0 <= r < q && a == q * k + r
    ensures a % q == r
  {
    var k' := a / q;
    var r' := a % q;
    assert a == q * k' + r';
    if k' > k {
      assert q * k' >= q * (k + 1) by { MulMono(q, k + 1, k'); }
      assert false;
    } else if k' < k {
      assert q * k >= q * (k' + 1) by { MulMono(q, k' + 1, k); }
      assert false;
    }
  }

  lemma MulStep(m: nat, p: nat)
    requires m > 0
    ensures m * p == (m - 1) * p + p
  {
  }

  lemma MulMono(q: nat, a: nat, b: nat)
    requires a <= b
    ensures q * a <= q * b
  {
  }

  /** The default divider (counter 0, period 0) fires on every tick. */
  lemma DefaultFiresAlways(n: nat)
    ensures FiresOn(DividerState(0, 0), n)
  {
    Periodic(0, n);
  }

  class Divider {
    var counter: nat
    var period: nat

    function State(): DividerState
      reads this
    {
      DividerState(counter, period)
    }

    /** Divider::default */
    constructor ()
      ensures State() == DividerState(0, 0)
    {
      counter := 0;
      period := 0;
    }

    /** tick: reload and fire at zero, otherwise count down. */
    method Tick() returns (fired: bool)
      modifies this
      ensures (State(), fired) == Step(old(State()))
    {
      if counter == 0 {
        Reset();
        fired := true;
      } else {
        counter := counter - 1;
        fired := false;
      }
    }

    /** reset: the counter restarts from the period. */
    method Reset()
      modifies this
      ensures State() == old(State()).(counter := old(period))
    {
      counter := period;
    }

    /** set_period: the counter is left as it is. */
    method SetPeriod(p: nat)
      modifies this
      ensures State() == old(State()).(period := p)
    {
      period := p;
    }
  }

  /** The test of div.rs: period 3 after a reset gives false, false, false, true, twice over. */
  method DividerExample() returns (fires: seq<bool>)
    ensures fires == [false, false, false, true, false, false, false, true]
  {
    var d := new Divider();
    d.SetPeriod(3);
    d.Reset();
    fires := [];
    for i := 0 to 8
      invariant |fires| == i
      invariant d.State() == Run(DividerState(3, 3), i)
      invariant forall j :: 0 <= j < i ==> fires[j] == FiresOn(DividerState(3, 3), j)
    {
      var f := d.Tick();
      fires := fires + [f];
    }
    forall j | 0 <= j < 8 ensures fires[j] == (j % 4 == 3) {
      Periodic(3, j);
    }
  }
}
