// The volume envelope (nescore/src/apu/chnl/envelope.rs). A divider counts
// the volume down to zero; each time it expires it reloads with the volume
// and clocks the decay counter, which counts 15 down to 0 and then either
// reloads to 15 (looping) or stays at 0. A start flag makes the next clock
// reload both. The output is the constant volume or the decay level.

module ApuEnvelope {
  import opened Bits
  import opened ApuDivider

  /** DECAY_RELOAD */
  const DecayReload: nat := 15

  /**
   * The envelope's own down counter: unlike the divider it does not reload
   * itself on expiry, the envelope does that.
   */
  class DownCounter {
    var counter: nat

    constructor ()
      ensures counter == 0
    {
      counter := 0;
    }

    /** tick: true at zero (the counter stays there), otherwise count down. */
    method Tick() returns (expired: bool)
      modifies this
      ensures expired <==> old(counter) == 0
      ensures counter == if expired then old(counter) else old(counter) - 1
    {
      if counter == 0 {
        expired := true;
      } else {
        counter := counter - 1;
        expired := false;
      }
    }

    method Reload(value: nat)
      modifies this
      ensures counter == value
    {
      counter := value;
    }
  }

  datatype EnvelopeState = EnvelopeState(
    start: bool, divider: nat, decay: nat, volume: Octet, constant: bool, loopFlag: bool)

  /** The decay level never leaves 0..15. */
  predicate EnvelopeInv(s: EnvelopeState)
  {
    s.decay <= DecayReload
  }

  /** What an expiry of the divider does to the decay level. */
  function DecayClock(decay: nat, loopFlag: bool): nat
  {
    if decay == 0 then (if loopFlag then DecayReload else 0) else decay - 1
  }

  /** tick */
  function EnvelopeStep(s: EnvelopeState): (r: EnvelopeState)
    ensures EnvelopeInv(s) ==> EnvelopeInv(r)
    ensures r.volume == s.volume && r.constant == s.constant && r.loopFlag == s.loopFlag
    ensures !r.start
  {
    if !s.start then
      if s.divider == 0 then s.(divider := s.volume, decay := DecayClock(s.decay, s.loopFlag))
      else s.(divider := s.divider - 1)
    else s.(start := false, divider := s.volume, decay := DecayReload)
  }

  /** output: the volume when constant, else the decay level (a u32 cast to u8). */
  function EnvelopeOutput(s: EnvelopeState): (r: Octet)
    ensures s.constant ==> r == s.volume
    ensures !s.constant && EnvelopeInv(s) ==> r == s.decay
  {
    if s.constant then s.volume else Truncate(s.decay)
  }

  /** `as u8` of a u32: the low eight bits. */
  function Truncate(n: nat): (b: Octet)
    ensures n < 256 ==> b == n
  {
    n % 256
  }

  /** The state after `n` clocks. */
  function EnvelopeRun(s: EnvelopeState, n: nat): EnvelopeState
  {
    if n == 0 then s else EnvelopeStep(EnvelopeRun(s, n - 1))
  }

  lemma {:induction false} RunAdds(s: EnvelopeState, a: nat, b: nat)
    ensures EnvelopeRun(s, a + b) == EnvelopeRun(EnvelopeRun(s, a), b)
  {
    if b > 0 {
      RunAdds(s, a, b - 1);
    }
  }

  /**
   * From a running envelope whose divider stands at k, k + 1 clocks bring
   * the divider back to the volume and clock the decay level exactly once.
   */
  lemma {:induction false} DividerPeriod(s: EnvelopeState, k: nat)
    requires !s.start && s.divider == k
    ensures EnvelopeRun(s, k + 1) ==
      s.(divider := s.volume, decay := DecayClock(s.decay, s.loopFlag))
    decreases k
  {
    if k > 0 {
      RunAdds(s, 1, k);
      DividerPeriod(s.(divider := k - 1), k - 1);
    }
  }

  /**
   * After the start clock the decay level falls by one every volume + 1
   * clocks: m periods leave it at 15 - m.
   */
  lemma {:induction false} DecayAfterPeriods(s: EnvelopeState, m: nat)
    requires !s.start && s.divider == s.volume && s.decay == DecayReload && m <= 15
    ensures EnvelopeRun(s, m * (s.volume + 1)) == s.(decay := DecayReload - m)
  {
    if m > 0 {
      var p := s.volume + 1;
      var a := (m - 1) * p;
      MulStep(m, p);
      RunAdds(s, a, p);
      DecayAfterPeriods(s, m - 1);
      var s' := s.(decay := DecayReload - (m - 1));
      assert EnvelopeRun(s, a) == s';
      DividerPeriod(s', s.volume);
    }
  }

  /** After the sixteenth period the level is back at 15 when looping and stays 0 otherwise. */
  lemma SixteenthPeriod(s: EnvelopeState)
    requires !s.start && s.divider == s.volume && s.decay == DecayReload
    ensures EnvelopeRun(s, 16 * (s.volume + 1)).decay == if s.loopFlag then 15 else 0
  {
    var p := s.volume + 1;
    MulStep(16, p);
    RunAdds(s, 15 * p, p);
    DecayAfterPeriods(s, 15);
    DividerPeriod(s.(decay := 0), s.volume);
  }

  /** A constant envelope outputs its volume whatever the clocks. */
  lemma ConstantOutput(s: EnvelopeState, n: nat)
    requires s.constant
    ensures EnvelopeOutput(EnvelopeRun(s, n)) == s.volume
  {
    RunKeepsSettings(s, n);
  }

  /** Clocks never change the volume, constant and loop settings. */
  lemma {:induction false} RunKeepsSettings(s: EnvelopeState, n: nat)
    ensures var r := EnvelopeRun(s, n);
      r.volume == s.volume && r.constant == s.constant && r.loopFlag == s.loopFlag
  {
    if n > 0 {
      RunKeepsSettings(s, n - 1);
    }
  }

  class Envelope {
    var startFlag: bool
    const divider: DownCounter
    const decay: DownCounter
    var volume: Octet
    var constant: bool
    var loopFlag: bool

    function State(): EnvelopeState
      reads this, divider, decay
    {
      EnvelopeState(startFlag, divider.counter, decay.counter, volume, constant, loopFlag)
    }

    ghost predicate Valid()
      reads this, divider, decay
    {
      divider != decay && EnvelopeInv(State())
    }

    /** Envelope::default */
    constructor ()
      ensures Valid() && fresh(divider) && fresh(decay)
      ensures State() == EnvelopeState(false, 0, 0, 0, false, false)
    {
      startFlag := false;
      divider := new DownCounter();
      decay := new DownCounter();
      volume := 0;
      constant := false;
      loopFlag := false;
    }

    /** tick */
    method Tick()
      requires Valid()
      modifies divider, decay, this
      ensures Valid() && State() == EnvelopeStep(old(State()))
    {
      if !startFlag {
        var expired := divider.Tick();
        if expired {
          divider.Reload(volume);
          var decayed := decay.Tick();
          if decayed {
            if loopFlag {
              decay.Reload(DecayReload);
            }
          }
        }
      } else {
        startFlag := false;
        divider.Reload(volume);
        decay.Reload(DecayReload);
      }
    }

    method SetVolume(v: Octet)
      requires Valid()
      modifies this
      ensures Valid() && State() == old(State()).(volume := v)
    {
      volume := v;
    }

    method SetLoop(l: bool)
      requires Valid()
      modifies this
      ensures Valid() && State() == old(State()).(loopFlag := l)
    {
      loopFlag := l;
    }

    method SetConstant(c: bool)
      requires Valid()
      modifies this
      ensures Valid() && State() == old(State()).(constant := c)
    {
      constant := c;
    }

    /** start: the next clock reloads the divider and the decay level. */
    method Start()
      requires Valid()
      modifies this
      ensures Valid() && State() == old(State()).(start := true)
    {
      startFlag := true;
    }

    function Output(): Octet
      reads this, divider, decay
    {
      EnvelopeOutput(State())
    }
  }

  /** clock_period of the tests: `n` clocks in a row. */
  method ClockPeriod(env: Envelope, n: nat)
    requires env.Valid()
    modifies env, env.divider, env.decay
    ensures env.Valid() && env.State() == EnvelopeRun(old(env.State()), n)
  {
    ghost var s0 := env.State();
    for i := 0 to n
      invariant env.Valid() && env.State() == EnvelopeRun(s0, i)
    {
      env.Tick();
    }
  }

  /**
   * The `decay_reload` and `decay_no_reload` tests: volume 10, started and
   * clocked once, then read after each of 16 periods of 11 clocks. The
   * outputs are 15, 14, ..., 0 and then 15 when looping, 0 when not.
   */
  method DecayExample(looping: bool) returns (outputs: seq<Octet>)
    ensures |outputs| == 17
    ensures forall k :: 0 <= k < 16 ==> outputs[k] == 15 - k
    ensures outputs[16] == if looping then 15 else 0
  {
    var env := new Envelope();
    env.SetConstant(false);
    env.SetVolume(10);
    env.SetLoop(looping);
    env.Start();
    env.Tick();
    outputs := [env.Output()];
    for k := 0 to 15
      invariant env.Valid() && env.State() == Level(looping, k)
      invariant |outputs| == k + 1
      invariant forall j :: 0 <= j <= k ==> outputs[j] == 15 - j
    {
      var out := NextPeriod(env, looping, k);
      outputs := outputs + [out];
    }
    var last := NextPeriod(env, looping, 15);
    outputs := outputs + [last];
  }

  /** One period of 11 clocks of the decay tests' envelope, and its output after it. */
  method NextPeriod(env: Envelope, looping: bool, k: nat) returns (out: Octet)
    requires k <= 15 && env.Valid() && env.State() == Level(looping, k)
    modifies env, env.divider, env.decay
    ensures env.Valid()
    ensures k < 15 ==> env.State() == Level(looping, k + 1) && out == 14 - k
    ensures k == 15 ==> out == if looping then 15 else 0
  {
    ClockPeriod(env, 11);
    NextLevel(looping, k);
    out := env.Output();
  }

  /** The envelope of the decay tests after its start clock and `k` periods. */
  function Level(looping: bool, k: nat): EnvelopeState
    requires k <= 15
  {
    EnvelopeState(false, 10, DecayReload - k, 10, false, looping)
  }

  lemma NextLevel(looping: bool, k: nat)
    requires k <= 15
    ensures k < 15 ==> EnvelopeRun(Level(looping, k), 11) == Level(looping, k + 1)
    ensures k == 15 ==> EnvelopeRun(Level(looping, k), 11).decay == if looping then 15 else 0
  {
    DividerPeriod(Level(looping, k), 10);
  }
}
