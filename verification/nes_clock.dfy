// The system clock of nescore/src/nes.rs: the six-slot component
// sequencer and the wrapping write index of the framebuffer loop.

module NesClock {
  // ---------------------------------------------------------------------
  // The system sequencer

  datatype Event = CpuEvent | PpuEvent | ApuEvent | NoEvent

  /** The events of slot `c`, in the order they are handled. */
  function SlotEvents(c: nat): (e: seq<Event>)
    requires c < 6
    ensures |e| == 3 && e[0] == PpuEvent && e[1] != PpuEvent && e[2] != PpuEvent
    ensures CpuEvent in e <==> c == 0 || c == 3
    ensures ApuEvent in e <==> c == 0
  {
    match c
    case 0 => [PpuEvent, CpuEvent, ApuEvent]
    case 1 => [PpuEvent, NoEvent, NoEvent]
    case 2 => [PpuEvent, NoEvent, NoEvent]
    case 3 => [PpuEvent, CpuEvent, NoEvent]
    case 4 => [PpuEvent, NoEvent, NoEvent]
    case 5 => [PpuEvent, NoEvent, NoEvent]
  }

  /** 1 when the event is `k`. */
  function Hit(e: Event, k: Event): nat
  {
    if e == k then 1 else 0
  }

  /** How many of `es` are `k`. */
  function Occurrences(es: seq<Event>, k: Event): (n: nat)
    ensures n <= |es|
    ensures n > 0 <==> k in es
    decreases |es|
  {
    if |es| == 0 then 0 else Occurrences(es[..|es| - 1], k) + Hit(es[|es| - 1], k)
  }

  /** The slot after `c`. */
  function Next(c: nat): (d: nat)
    requires c < 6
    ensures d < 6
  {
    if c == 5 then 0 else c + 1
  }

  /** Next is the counter's `(counter + 1) % 6`. */
  lemma NextIsModular(c: nat)
    requires c < 6
    ensures Next(c) == (c + 1) % 6
  {
  }

  /** The slot `n` ticks after `c`. */
  function Slot(c: nat, n: nat): (d: nat)
    requires c < 6
    ensures d < 6
  {
    if n == 0 then c else Next(Slot(c, n - 1))
  }

  /** How often slot `c` clocks the unit of event `k`: the PPU always, the CPU in slots 0 and 3, the APU in slot 0. */
  function SlotHits(c: nat, k: Event): nat
  {
    match k
    case PpuEvent => 1
    case CpuEvent => if c == 0 || c == 3 then 1 else 0
    case ApuEvent => if c == 0 then 1 else 0
    case NoEvent => 0
  }

  /** How often a unit is clocked in `n` sequencer ticks from slot `c`. */
  function SlotCount(c: nat, n: nat, k: Event): nat
    requires c < 6
  {
    if n == 0 then 0 else SlotCount(c, n - 1, k) + SlotHits(Slot(c, n - 1), k)
  }

  /** The slot is the start moved on by the number of ticks, modulo 6. */
  lemma {:induction false} SlotIsModular(c: nat, n: nat)
    requires c < 6
    ensures Slot(c, n) == (c + n) % 6
  {
    if n > 0 {
      SlotIsModular(c, n - 1);
      NextIsModular(Slot(c, n - 1));
    }
  }

  /** The events of slot `c` clock each unit as often as SlotHits says. */
  lemma SlotOccurrences(c: nat)
    requires c < 6
    ensures Occurrences(SlotEvents(c), PpuEvent) == SlotHits(c, PpuEvent) == 1
    ensures Occurrences(SlotEvents(c), CpuEvent) == SlotHits(c, CpuEvent)
    ensures Occurrences(SlotEvents(c), ApuEvent) == SlotHits(c, ApuEvent)
  {
    var e := SlotEvents(c);
    assert e[..2] == [e[0], e[1]] && e[..2][..1] == [e[0]] && e[..1] == [e[0]];
    assert e[..3] == e;
  }

  lemma {:induction false} SlotAdds(c: nat, a: nat, b: nat)
    requires c < 6
    ensures Slot(c, a + b) == Slot(Slot(c, a), b)
  {
    if b > 0 {
      SlotAdds(c, a, b - 1);
    }
  }

  /** Counts over consecutive runs add up. */
  lemma {:induction false} SlotCountAdds(c: nat, a: nat, b: nat, k: Event)
    requires c < 6
    ensures SlotCount(c, a + b, k) == SlotCount(c, a, k) + SlotCount(Slot(c, a), b, k)
  {
    if b > 0 {
      SlotCountAdds(c, a, b - 1, k);
      SlotAdds(c, a, b - 1);
    }
  }

  /** Six ticks from `c`: the slot count sums the hits of `c` and its five successors. */
  lemma {:induction false} SixSum(c: nat, k: Event)
    requires c < 6
    ensures Slot(c, 6) == c
    ensures SlotCount(c, 6, k) == SlotHits(c, k) + SlotHits(Next(c), k) + SlotHits(Next(Next(c)), k) +
      SlotHits(Next(Next(Next(c))), k) + SlotHits(Next(Next(Next(Next(c)))), k) + SlotHits(Next(Next(Next(Next(Next(c))))), k)
  {
    var s1 := Next(c);
    var s2 := Next(s1);
    var s3 := Next(s2);
    var s4 := Next(s3);
    assert Slot(c, 1) == s1;
    assert Slot(c, 2) == s2;
    assert Slot(c, 3) == s3;
    assert Slot(c, 4) == s4;
    assert SlotCount(c, 1, k) == SlotHits(c, k);
    assert SlotCount(c, 2, k) == SlotCount(c, 1, k) + SlotHits(s1, k);
    assert SlotCount(c, 3, k) == SlotCount(c, 2, k) + SlotHits(s2, k);
    assert SlotCount(c, 4, k) == SlotCount(c, 3, k) + SlotHits(s3, k);
  }

  /** Any six consecutive ticks visit each slot once and end where they began. */
  lemma {:induction false} SixTicks(c: nat)
    requires c < 6
    ensures Slot(c, 6) == c
    ensures SlotCount(c, 6, PpuEvent) == 6
    ensures SlotCount(c, 6, CpuEvent) == 2
    ensures SlotCount(c, 6, ApuEvent) == 1
  {
    SixSum(c, PpuEvent);
    SixSum(c, CpuEvent);
    SixSum(c, ApuEvent);
  }

  /** The 6:2:1 clock ratio: 6m ticks clock the PPU 6m times, the CPU 2m times and the APU m times. */
  lemma {:induction false} ClockRatio(c: nat, m: nat)
    requires c < 6
    ensures Slot(c, 6 * m) == c
    ensures SlotCount(c, 6 * m, PpuEvent) == 6 * m
    ensures SlotCount(c, 6 * m, CpuEvent) == 2 * m
    ensures SlotCount(c, 6 * m, ApuEvent) == m
  {
    if m > 0 {
      var a := 6 * (m - 1);
      assert a + 6 == 6 * m;
      ClockRatio(c, m - 1);
      SixTicks(c);
      SlotAdds(c, a, 6);
      SlotCountAdds(c, a, 6, PpuEvent);
      SlotCountAdds(c, a, 6, CpuEvent);
      SlotCountAdds(c, a, 6, ApuEvent);
    }
  }

  /** The PPU is clocked on every tick. */
  lemma {:induction false} PpuEveryTick(c: nat, n: nat)
    requires c < 6
    ensures SlotCount(c, n, PpuEvent) == n
  {
    if n > 0 {
      PpuEveryTick(c, n - 1);
      SlotOccurrences(Slot(c, n - 1));
    }
  }

  /** The component frame sequencer: a slot counter that runs 0 to 5 and wraps. */
  class SystemSequencer {
    var counter: nat

    ghost predicate Valid()
      reads this
    {
      counter < 6
    }

    constructor ()
      ensures Valid() && counter == 0
    {
      counter := 0;
    }

    /** tick: the current slot's events; the counter moves on modulo 6. */
    method Tick() returns (events: seq<Event>)
      requires Valid()
      modifies this
      ensures Valid() && counter == Next(old(counter))
      ensures events == SlotEvents(old(counter))
    {
      events := SlotEvents(counter);
      NextIsModular(counter);
      counter := (counter + 1) % 6;
    }
  }

  // ---------------------------------------------------------------------
  // The framebuffer's write index

  /** The index after `i` in a buffer of length `len`. */
  function Succ(i: nat, len: nat): (j: nat)
    requires i < len
    ensures j < len
  {
    if i + 1 == len then 0 else i + 1
  }

  /** Succ is the write loop's `(i + 1) % len`. */
  lemma SuccIsModular(i: nat, len: nat)
    requires i < len
    ensures Succ(i, len) == (i + 1) % len
  {
  }

  /** The index `k` writes after `idx`. */
  function Pos(idx: nat, k: nat, len: nat): (j: nat)
    requires idx < len
    ensures j < len
  {
    if k == 0 then idx else Succ(Pos(idx, k - 1, len), len)
  }

  /** Up to one lap, the index is `idx + k` wrapped once. */
  lemma {:induction false} PosValue(idx: nat, k: nat, len: nat)
    requires idx < len && k <= len
    ensures Pos(idx, k, len) == if idx + k < len then idx + k else idx + k - len
  {
    if k > 0 {
      PosValue(idx, k - 1, len);
    }
  }

  lemma {:induction false} PosAdds(idx: nat, a: nat, b: nat, len: nat)
    requires idx < len
    ensures Pos(idx, a + b, len) == Pos(Pos(idx, a, len), b, len)
  {
    if b > 0 {
      PosAdds(idx, a, b - 1, len);
    }
  }
}
