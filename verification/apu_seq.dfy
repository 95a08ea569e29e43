// The APU frame sequencer (nescore/src/apu/seq.rs). It counts APU cycles
// and, at five fixed cycle counts, emits up to three low-frequency clock
// events: envelope and linear counter, length counter and sweep, and the
// frame interrupt. In 4-step mode a frame is 14915 cycles and its fourth
// step raises the frame IRQ unless inhibited; in 5-step mode a frame is
// 18641 cycles and the fourth step emits nothing.

module ApuSequencer {
  import opened Bits
  import opened Results

  datatype Event = NoEvent | EnvelopeAndLinear | LengthAndSweep | Irq

  /** The three event slots of a tick. */
  datatype Events = Events(first: Event, second: Event, third: Event)

  datatype Mode = Step4 | Step5

  datatype Step = One | Two | Three | Four | Five

  /** The number of cycles of a frame in each mode. */
  function Period(m: Mode): (p: nat)
    ensures p == 14915 || p == 18641
  {
    match m
    case Step4 => 14915
    case Step5 => 18641
  }

  /** The cycle count at which each step fires. */
  function StepCycle(st: Step): nat
  {
    match st
    case One => 3728
    case Two => 7456
    case Three => 11185
    case Four => 14914
    case Five => 18640
  }

  /** helpers::cycles_to_step */
  function CyclesToStep(c: nat): (r: Option<Step>)
    ensures r.Some? ==> StepCycle(r.value) == c
  {
    match c
    case 3728 => Some(One)
    case 7456 => Some(Two)
    case 11185 => Some(Three)
    case 14914 => Some(Four)
    case 18640 => Some(Five)
    case _ => None
  }

  /** The five step cycles are the only ones that fire, and each fires its own step. */
  lemma StepCyclesFire(st: Step, c: nat)
    ensures CyclesToStep(StepCycle(st)) == Some(st)
    ensures CyclesToStep(c).Some? <==> c in {3728, 7456, 11185, 14914, 18640}
  {
  }

  /** helpers::step4: the events of the fourth step. */
  function Step4Events(m: Mode, irqInhibit: bool): (r: Events)
    ensures Irq in {r.first, r.second, r.third} <==> m == Step4 && !irqInhibit
    ensures m == Step5 ==> r == Events(NoEvent, NoEvent, NoEvent)
  {
    match m
    case Step4 => Events(EnvelopeAndLinear, LengthAndSweep, if !irqInhibit then Irq else NoEvent)
    case Step5 => Events(NoEvent, NoEvent, NoEvent)
  }

  datatype SeqState = SeqState(cycles: nat, mode: Mode, irqInhibit: bool, frameIrq: bool)

  /** The cycle counter stays inside the current mode's frame. */
  predicate SeqInv(s: SeqState)
  {
    s.cycles < Period(s.mode)
  }

  /** The events of the tick at cycle `s.cycles`. */
  function TickEvents(s: SeqState): (r: Events)
  {
    match CyclesToStep(s.cycles)
    case None => Events(NoEvent, NoEvent, NoEvent)
    case Some(st) =>
      match st
      case One => Events(EnvelopeAndLinear, NoEvent, NoEvent)
      case Two => Events(EnvelopeAndLinear, LengthAndSweep, NoEvent)
      case Three => Events(EnvelopeAndLinear, NoEvent, NoEvent)
      case Four => Step4Events(s.mode, s.irqInhibit)
      case Five => Events(EnvelopeAndLinear, LengthAndSweep, NoEvent)
  }

  /** The cycle counter after a tick: one more, modulo the frame length. */
  function NextCycle(c: nat, m: Mode): (r: nat)
    ensures r < Period(m)
    ensures c + 1 < Period(m) ==> r == c + 1
    ensures c + 1 == Period(m) ==> r == 0
  {
    match m
    case Step4 => (c + 1) % 14915
    case Step5 => (c + 1) % 18641
  }

  /** The state after a tick: the frame IRQ latches at step four of 4-step mode; the counter wraps at the period. */
  function SeqStep(s: SeqState): (r: SeqState)
    ensures SeqInv(r)
    ensures r.mode == s.mode && r.irqInhibit == s.irqInhibit
    ensures r.frameIrq <==> s.frameIrq || Irq in {TickEvents(s).first, TickEvents(s).second, TickEvents(s).third}
  {
    var raise := CyclesToStep(s.cycles) == Some(Four) && s.mode == Step4 && !s.irqInhibit;
    s.(cycles := NextCycle(s.cycles, s.mode), frameIrq := s.frameIrq || raise)
  }

  /** load: bit 7 selects 5-step mode, bit 6 inhibits (and clears) the IRQ, the frame restarts. */
  function SeqLoad(s: SeqState, d: Byte): (r: SeqState)
    ensures SeqInv(r) && r.cycles == 0
    ensures r.mode == Step5 <==> BitIsSet(d, 7)
    ensures r.irqInhibit <==> BitIsSet(d, 6)
    ensures r.frameIrq <==> s.frameIrq && !BitIsSet(d, 6)
  {
    var inhibit := BitIsSet(d, 6);
    SeqState(0, if BitIsSet(d, 7) then Step5 else Step4, inhibit, if inhibit then false else s.frameIrq)
  }

  /** value: the mode in bit 7 and the inhibit flag in bit 6. */
  function SeqValue(s: SeqState): Byte
  {
    (if s.mode == Step5 then 0x80 else 0) | (if s.irqInhibit then 0x40 else 0)
  }

  /** Reading the register back gives the two bits last loaded, and only those. */
  lemma LoadValueRoundTrip(s: SeqState, d: Byte)
    ensures SeqValue(SeqLoad(s, d)) == d & 0xC0
  {
  }

  /** irq_status: the flag, cleared by the read. */
  function IrqRead(s: SeqState): (r: (bool, SeqState))
    ensures r.0 == s.frameIrq && !r.1.frameIrq
    ensures r.1 == s.(frameIrq := false)
  {
    (s.frameIrq, s.(frameIrq := false))
  }

  /** How many envelope, length and IRQ events a run of ticks emitted. */
  datatype Tally = Tally(envelope: nat, length: nat, irq: nat)

  /** The number of events of kind `k` among a tick's three. */
  function Count(evs: Events, k: Event): (n: nat)
    ensures n <= 3
  {
    (if evs.first == k then 1 else 0) + (if evs.second == k then 1 else 0) + (if evs.third == k then 1 else 0)
  }

  /** A tally with a tick's events added. */
  function Add(t: Tally, evs: Events): Tally
  {
    Tally(t.envelope + Count(evs, EnvelopeAndLinear), t.length + Count(evs, LengthAndSweep), t.irq + Count(evs, Irq))
  }

  /** The sequencer's state together with the events counted so far. */
  datatype Progress = Progress(state: SeqState, tally: Tally)

  /** One tick, counting its events. */
  function Advance(p: Progress): Progress
  {
    Progress(SeqStep(p.state), Add(p.tally, TickEvents(p.state)))
  }

  /** `f` applied `n` times. */
  function Iterate<T>(f: T -> T, x: T, n: nat): T
  {
    if n == 0 then x else f(Iterate(f, x, n - 1))
  }

  lemma {:induction false} IterateAdds<T>(f: T -> T, x: T, a: nat, b: nat)
    ensures Iterate(f, x, a + b) == Iterate(f, Iterate(f, x, a), b)
  {
    if b > 0 {
      IterateAdds(f, x, a, b - 1);
    }
  }

  /** Two runs in a row are one run. */
  lemma IterateChain<T>(f: T -> T, x: T, y: T, z: T, a: nat, b: nat)
    requires Iterate(f, x, a) == y && Iterate(f, y, b) == z
    ensures Iterate(f, x, a + b) == z
  {
    IterateAdds(f, x, a, b);
  }

  /**
   * A view `h` of a state that `f` moves the way `g` moves the view: the
   * view of `n` steps of `f` is `n` steps of `g` on the view.
   */
  lemma {:induction false} IterateProjects<T, U>(f: T -> T, g: U -> U, h: T -> U, x: T, n: nat)
    requires forall y :: h(f(y)) == g(h(y))
    ensures h(Iterate(f, x, n)) == Iterate(g, h(x), n)
  {
    if n > 0 {
      IterateProjects(f, g, h, x, n - 1);
    }
  }

  predicate IsStepCycle(c: nat)
  {
    CyclesToStep(c).Some?
  }

  /** A tick away from every step cycle and from the end of the frame emits nothing. */
  lemma QuietTick(s: SeqState)
    requires !IsStepCycle(s.cycles) && s.cycles + 1 < Period(s.mode)
    ensures TickEvents(s) == Events(NoEvent, NoEvent, NoEvent)
  {
  }

  /** Such a tick only advances the counter. */
  lemma QuietStep(s: SeqState)
    requires !IsStepCycle(s.cycles) && s.cycles + 1 < Period(s.mode)
    ensures SeqStep(s) == s.(cycles := s.cycles + 1)
  {
  }

  /** A tick whose events and next state are known. */
  lemma TickWith(p: Progress, e: Events, s': SeqState)
    requires TickEvents(p.state) == e && SeqStep(p.state) == s'
    ensures Advance(p) == Progress(s', Add(p.tally, e))
  {
  }

  /**
   * Between two step cycles nothing happens: `n` ticks that cross no step
   * cycle and do not reach the end of the frame only advance the counter.
   */
  lemma {:induction false} QuietRun(p: Progress, n: nat)
    requires p.state.cycles + n < Period(p.state.mode)
    requires forall c :: p.state.cycles <= c < p.state.cycles + n ==> !IsStepCycle(c)
    ensures Iterate(Advance, p, n) == Progress(p.state.(cycles := p.state.cycles + n), p.tally)
  {
    if n > 0 {
      QuietRun(p, n - 1);
      var q := Iterate(Advance, p, n - 1);
      assert !IsStepCycle(q.state.cycles);
      QuietTick(q.state);
      QuietStep(q.state);
      TickWith(q, Events(NoEvent, NoEvent, NoEvent), q.state.(cycles := q.state.cycles + 1));
    }
  }

  /**
   * `n` quiet ticks and then the tick at a step cycle, whose events `e`
   * and next state `s'` are known.
   */
  lemma Segment(p: Progress, n: nat, e: Events, s': SeqState)
    requires p.state.cycles + n < Period(p.state.mode)
    requires forall c :: p.state.cycles <= c < p.state.cycles + n ==> !IsStepCycle(c)
    requires TickEvents(p.state.(cycles := p.state.cycles + n)) == e
    requires SeqStep(p.state.(cycles := p.state.cycles + n)) == s'
    ensures Iterate(Advance, p, n + 1) == Progress(s', Add(p.tally, e))
  {
    QuietRun(p, n);
    TickWith(Iterate(Advance, p, n), e, s');
  }

  /** The ticks at steps one and three: an envelope clock. */
  lemma StepOneOrThree(s: SeqState)
    requires s.cycles == 3728 || s.cycles == 11185
    ensures TickEvents(s) == Events(EnvelopeAndLinear, NoEvent, NoEvent)
    ensures SeqStep(s) == s.(cycles := s.cycles + 1)
  {
  }

  /** The tick at step two: an envelope and a length clock. */
  lemma StepTwo(s: SeqState)
    requires s.cycles == 7456
    ensures TickEvents(s) == Events(EnvelopeAndLinear, LengthAndSweep, NoEvent)
    ensures SeqStep(s) == s.(cycles := s.cycles + 1)
  {
  }

  /** The tick at step four: the end of a 4-step frame, a quiet tick in 5-step mode. */
  lemma StepFour(s: SeqState)
    requires s.cycles == 14914
    ensures TickEvents(s) == Step4Events(s.mode, s.irqInhibit)
    ensures SeqStep(s) == if s.mode == Step4 then s.(cycles := 0, frameIrq := s.frameIrq || !s.irqInhibit)
      else s.(cycles := s.cycles + 1)
  {
  }

  /** The tick at step five, the end of a 5-step frame. */
  lemma StepFive(s: SeqState)
    requires s.cycles == 18640 && s.mode == Step5
    ensures TickEvents(s) == Events(EnvelopeAndLinear, LengthAndSweep, NoEvent)
    ensures SeqStep(s) == s.(cycles := 0)
  {
  }

  // The five stretches of a frame, each ending with the tick at a step
  // cycle. The stretch lengths are parameters so that the iteration counts
  // stay symbolic.

  /** Cycles 0 to 3728: step one, an envelope clock. */
  lemma ToStepOne(s: SeqState, n: nat)
    requires s.cycles == 0 && n == 3728
    ensures Iterate(Advance, Progress(s, Tally(0, 0, 0)), n + 1) == Progress(s.(cycles := 3729), Tally(1, 0, 0))
  {
    StepOneOrThree(s.(cycles := n));
    Segment(Progress(s, Tally(0, 0, 0)), n, Events(EnvelopeAndLinear, NoEvent, NoEvent), s.(cycles := 3729));
  }

  /** Cycles 3729 to 7456: step two, an envelope and a length clock. */
  lemma ToStepTwo(s: SeqState, n: nat)
    requires s.cycles == 3729 && n == 3727
    ensures Iterate(Advance, Progress(s, Tally(1, 0, 0)), n + 1) == Progress(s.(cycles := 7457), Tally(2, 1, 0))
  {
    StepTwo(s.(cycles := 7456));
    Segment(Progress(s, Tally(1, 0, 0)), n, Events(EnvelopeAndLinear, LengthAndSweep, NoEvent), s.(cycles := 7457));
  }

  /** Cycles 7457 to 11185: step three, an envelope clock. */
  lemma ToStepThree(s: SeqState, n: nat)
    requires s.cycles == 7457 && n == 3728
    ensures Iterate(Advance, Progress(s, Tally(2, 1, 0)), n + 1) == Progress(s.(cycles := 11186), Tally(3, 1, 0))
  {
    StepOneOrThree(s.(cycles := 11185));
    Segment(Progress(s, Tally(2, 1, 0)), n, Events(EnvelopeAndLinear, NoEvent, NoEvent), s.(cycles := 11186));
  }

  /**
   * Cycles 11186 to 14914 of a 4-step frame: step four ends the frame with
   * an envelope clock, a length clock and, unless inhibited, the IRQ.
   */
  lemma ToStepFour(s: SeqState, n: nat)
    requires s.cycles == 11186 && s.mode == Step4 && n == 3728
    ensures Iterate(Advance, Progress(s, Tally(3, 1, 0)), n + 1) ==
      Progress(s.(cycles := 0, frameIrq := s.frameIrq || !s.irqInhibit), Tally(4, 2, if s.irqInhibit then 0 else 1))
  {
    StepFour(s.(cycles := 14914));
    Segment(Progress(s, Tally(3, 1, 0)), n, Step4Events(s.mode, s.irqInhibit), SeqStep(s.(cycles := 14914)));
  }

  /** Cycles 11186 to 14914 of a 5-step frame: step four emits nothing. */
  lemma PastStepFour(s: SeqState, n: nat)
    requires s.cycles == 11186 && s.mode == Step5 && n == 3728
    ensures Iterate(Advance, Progress(s, Tally(3, 1, 0)), n + 1) == Progress(s.(cycles := 14915), Tally(3, 1, 0))
  {
    StepFour(s.(cycles := 14914));
    Segment(Progress(s, Tally(3, 1, 0)), n, Events(NoEvent, NoEvent, NoEvent), s.(cycles := 14915));
  }

  /** Cycles 14915 to 18640 of a 5-step frame: step five, an envelope and a length clock. */
  lemma ToStepFive(s: SeqState, n: nat)
    requires s.cycles == 14915 && s.mode == Step5 && n == 3725
    ensures Iterate(Advance, Progress(s, Tally(3, 1, 0)), n + 1) == Progress(s.(cycles := 0), Tally(4, 2, 0))
  {
    StepFive(s.(cycles := 18640));
    Segment(Progress(s, Tally(3, 1, 0)), n, Events(EnvelopeAndLinear, LengthAndSweep, NoEvent), s.(cycles := 0));
  }

  /**
   * One whole frame from cycle 0. In 4-step mode: four envelope clocks,
   * two length clocks and one IRQ event unless inhibited, with the frame
   * IRQ latched. In 5-step mode: four envelope clocks, two length clocks
   * and no IRQ. Either way the counter is back at 0.
   */
  lemma WholeFrame(s: SeqState)
    requires s.cycles == 0
    ensures var irq := s.mode == Step4 && !s.irqInhibit;
      Iterate(Advance, Progress(s, Tally(0, 0, 0)), Period(s.mode)) ==
      Progress(s.(frameIrq := s.frameIrq || irq), Tally(4, 2, if irq then 1 else 0))
  {
    if s.mode == Step4 {
      Step4Frame(s, Period(s.mode));
    } else {
      Step5Frame(s, Period(s.mode));
    }
  }

  /** The 4-step frame of `n` = 14915 ticks. */
  lemma Step4Frame(s: SeqState, n: nat)
    requires s.cycles == 0 && s.mode == Step4 && n == 14915
    ensures Iterate(Advance, Progress(s, Tally(0, 0, 0)), n) ==
      Progress(s.(frameIrq := s.frameIrq || !s.irqInhibit), Tally(4, 2, if s.irqInhibit then 0 else 1))
  {
    var a, b := 3728, 3727;
    var p0, p3 := Progress(s, Tally(0, 0, 0)), Progress(s.(cycles := 11186), Tally(3, 1, 0));
    FirstThreeSteps(s, a, b);
    var p4 := Progress(s.(frameIrq := s.frameIrq || !s.irqInhibit), Tally(4, 2, if s.irqInhibit then 0 else 1));
    ToStepFour(p3.state, a);
    IterateChain(Advance, p0, p3, p4, 2 * a + b + 3, a + 1);
  }

  /** The 5-step frame of `n` = 18641 ticks. */
  lemma Step5Frame(s: SeqState, n: nat)
    requires s.cycles == 0 && s.mode == Step5 && n == 18641
    ensures Iterate(Advance, Progress(s, Tally(0, 0, 0)), n) == Progress(s, Tally(4, 2, 0))
  {
    var a, b, r := 3728, 3727, 3725;
    var p0, p3 := Progress(s, Tally(0, 0, 0)), Progress(s.(cycles := 11186), Tally(3, 1, 0));
    FirstThreeSteps(s, a, b);
    var p4, p5 := Progress(s.(cycles := 14915), Tally(3, 1, 0)), Progress(s, Tally(4, 2, 0));
    PastStepFour(p3.state, a);
    IterateChain(Advance, p0, p3, p4, 2 * a + b + 3, a + 1);
    ToStepFive(p4.state, r);
    IterateChain(Advance, p0, p4, p5, 3 * a + b + 4, r + 1);
  }

  /** The first three steps, the same in both modes: three envelope clocks and one length clock. */
  lemma FirstThreeSteps(s: SeqState, a: nat, b: nat)
    requires s.cycles == 0 && a == 3728 && b == 3727
    ensures Iterate(Advance, Progress(s, Tally(0, 0, 0)), 2 * a + b + 3) == Progress(s.(cycles := 11186), Tally(3, 1, 0))
  {
    var p0 := Progress(s, Tally(0, 0, 0));
    var p1, p2, p3 := Progress(s.(cycles := 3729), Tally(1, 0, 0)), Progress(s.(cycles := 7457), Tally(2, 1, 0)),
      Progress(s.(cycles := 11186), Tally(3, 1, 0));
    ToStepOne(s, a);
    ToStepTwo(p1.state, b);
    IterateChain(Advance, p0, p1, p2, a + 1, b + 1);
    ToStepThree(p2.state, a);
    IterateChain(Advance, p0, p2, p3, a + b + 2, a + 1);
  }

  class FrameSequencer {
    var cycles: nat
    var mode: Mode
    var irqInhibit: bool
    var frameIrq: bool

    function State(): SeqState
      reads this
    {
      SeqState(cycles, mode, irqInhibit, frameIrq)
    }

    ghost predicate Valid()
      reads this
    {
      SeqInv(State())
    }

    /** FrameSequencer::default */
    constructor ()
      ensures Valid() && State() == SeqState(0, Step4, false, false)
    {
      cycles := 0;
      mode := Step4;
      irqInhibit := false;
      frameIrq := false;
    }

    /** load */
    method Load(d: Byte)
      modifies this
      ensures Valid() && State() == SeqLoad(old(State()), d)
    {
      mode := if BitIsSet(d, 7) then Step5 else Step4;
      irqInhibit := BitIsSet(d, 6);
      if irqInhibit {
        frameIrq := false;
      }
      cycles := 0;
    }

    /** value */
    function Value(): (v: Byte)
      reads this
      ensures v == SeqValue(State())
    {
      (if mode == Step5 then 0x80 else 0) | (if irqInhibit then 0x40 else 0)
    }

    /** tick */
    method Tick() returns (events: Events)
      requires Valid()
      modifies this
      ensures Valid() && State() == SeqStep(old(State()))
      ensures events == TickEvents(old(State()))
    {
      var step := CyclesToStep(cycles);
      match step {
        case None =>
          events := Events(NoEvent, NoEvent, NoEvent);
        case Some(st) =>
          match st {
            case One => events := Events(EnvelopeAndLinear, NoEvent, NoEvent);
            case Two => events := Events(EnvelopeAndLinear, LengthAndSweep, NoEvent);
            case Three => events := Events(EnvelopeAndLinear, NoEvent, NoEvent);
            case Four =>
              if mode == Step4 && !irqInhibit {
                frameIrq := true;
              }
              events := Step4Events(mode, irqInhibit);
            case Five => events := Events(EnvelopeAndLinear, LengthAndSweep, NoEvent);
          }
      }
      cycles := match mode
        case Step4 => (cycles + 1) % 14915
        case Step5 => (cycles + 1) % 18641;
    }

    /** irq_status: returns the frame IRQ flag and clears it. */
    method IrqStatus() returns (status: bool)
      requires Valid()
      modifies this
      ensures Valid() && (status, State()) == IrqRead(old(State()))
    {
      status := frameIrq;
      frameIrq := false;
    }
  }

  /** `n` ticks of the sequencer, counting the events they emit. */
  method ClockFrame(fs: FrameSequencer, n: nat) returns (tally: Tally)
    requires fs.Valid()
    modifies fs
    ensures fs.Valid()
    ensures Progress(fs.State(), tally) == Iterate(Advance, Progress(old(fs.State()), Tally(0, 0, 0)), n)
  {
    ghost var s0 := fs.State();
    tally := Tally(0, 0, 0);
    for i := 0 to n
      invariant fs.Valid()
      invariant Progress(fs.State(), tally) == Iterate(Advance, Progress(s0, Tally(0, 0, 0)), i)
    {
      var events := fs.Tick();
      tally := Add(tally, events);
    }
  }

  /**
   * The `clocks_for_step4_mode` test: a 4-step frame emits 4 envelope, 2
   * length and 1 IRQ events; the IRQ status then reads true once, false after.
   */
  method Step4ModeExample() returns (tally: Tally, firstStatus: bool, secondStatus: bool)
    ensures tally == Tally(4, 2, 1)
    ensures firstStatus && !secondStatus
  {
    var fs := new FrameSequencer();
    fs.Load(0x00);
    assert fs.State() == SeqState(0, Step4, false, false);
    var frame := 14915;
    Step4Frame(fs.State(), frame);
    tally := ClockFrame(fs, frame);
    firstStatus := fs.IrqStatus();
    secondStatus := fs.IrqStatus();
  }

  /** The `clocks_for_step5_mode` test: a 5-step frame emits 4 envelope, 2 length and no IRQ events. */
  method Step5ModeExample() returns (tally: Tally)
    ensures tally == Tally(4, 2, 0)
  {
    var fs := new FrameSequencer();
    fs.Load(0x80);
    assert fs.State() == SeqState(0, Step5, false, false);
    var frame := 18641;
    Step5Frame(fs.State(), frame);
    tally := ClockFrame(fs, frame);
  }

  /** The `set_mode` test: loading 0x80 reads back 0x80, loading 0 reads back 0. */
  method SetModeExample() returns (first: Byte, second: Byte)
    ensures first == 0x80 && second == 0x00
  {
    var fs := new FrameSequencer();
    fs.Load(0x80);
    first := fs.Value();
    fs.Load(0x00);
    second := fs.Value();
  }
}
