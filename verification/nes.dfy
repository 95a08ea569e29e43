// The system level (nescore/src/nes.rs): a 6-slot sequencer clocks the PPU
// every slot, the CPU in slots 0 and 3 and the APU in slot 0; each frame
// copies the PPU's pixels into a framebuffer in the chosen pixel format,
// wrapping at its end, and collects the APU's samples.
//
// The CPU, PPU and APU themselves are not part of this level: the PPU's
// output at its k-th tick and the APU's sample at its k-th tick are given as
// functions, and the system counts how often it has clocked each unit. The
// display size and the PPU cycles per frame come from ppu/ppu.rs, which is
// not part of this model: the display is the NES's 256x240 pixels and the
// cycle count is a parameter. Samples are f32 in the source; the model only
// moves them, so they are reals here.

module NesSystem {
  import opened Bits
  import opened Results
  import opened NesClock

  const DisplayWidth: nat := 256
  const DisplayHeight: nat := 240

  type Sample = real

  /** A PPU pixel: red, green, blue. */
  datatype Pixel = Pixel(r: Byte, g: Byte, b: Byte)

  datatype PixelFormat = RGB8 | RGBA8 | GBRA8 | BGRA8

  /** num_bytes: three bytes per pixel without alpha, four with. */
  function NumBytes(f: PixelFormat): (n: nat)
    ensures n == 3 <==> f == RGB8
    ensures n == 4 <==> f != RGB8
  {
    match f
    case RGB8 => 3
    case RGBA8 => 4
    case GBRA8 => 4
    case BGRA8 => 4
  }

  /** The framebuffer size for a format: a whole number of pixels, one per display position. */
  function FrameSize(f: PixelFormat): (n: nat)
    ensures n > 0 && n % NumBytes(f) == 0 && n / NumBytes(f) == DisplayWidth * DisplayHeight
  {
    DisplayWidth * DisplayHeight * NumBytes(f)
  }

  /**
   * format_color_output: four bytes, of which the first NumBytes are written
   * to the framebuffer; the fourth is 0 for RGB8 and an opaque alpha
   * otherwise.
   */
  function FormatColor(f: PixelFormat, p: Pixel): (c: seq<Byte>)
    ensures |c| == 4
    ensures c[3] == if f == RGB8 then 0 else 255
  {
    match f
    case RGB8 => [p.r, p.g, p.b, 0]
    case RGBA8 => [p.r, p.g, p.b, 255]
    case GBRA8 => [p.g, p.b, p.r, 255]
    case BGRA8 => [p.b, p.g, p.r, 255]
  }

  /** Reads a pixel back from its bytes in format `f`. */
  function Unformat(f: PixelFormat, c: seq<Byte>): Pixel
    requires |c| >= 3
  {
    match f
    case RGB8 => Pixel(c[0], c[1], c[2])
    case RGBA8 => Pixel(c[0], c[1], c[2])
    case GBRA8 => Pixel(c[2], c[0], c[1])
    case BGRA8 => Pixel(c[2], c[1], c[0])
  }

  /** Every format keeps all three colour components: the written bytes give the pixel back. */
  lemma FormatRoundTrip(f: PixelFormat, p: Pixel)
    ensures Unformat(f, FormatColor(f, p)[..NumBytes(f)]) == p
  {
  }

  /**
   * `bytes` written one after another from index `idx`, wrapping at the
   * end of the buffer.
   */
  function Paint(buf: seq<Byte>, idx: nat, bytes: seq<Byte>): (r: seq<Byte>)
    requires idx < |buf|
    ensures |r| == |buf|
  {
    if bytes == [] then buf
    else Paint(buf, idx, bytes[..|bytes| - 1])[Pos(idx, |bytes| - 1, |buf|) := bytes[|bytes| - 1]]
  }

  /**
   * When the bytes fit in the buffer, byte k lands at index k after `idx`,
   * and every other position keeps its value.
   */
  lemma {:induction false} PaintAt(buf: seq<Byte>, idx: nat, bytes: seq<Byte>, j: nat)
    requires idx < |buf| && |bytes| <= |buf| && j < |buf|
    ensures forall k :: 0 <= k < |bytes| && Pos(idx, k, |buf|) == j ==> Paint(buf, idx, bytes)[j] == bytes[k]
    ensures (forall k :: 0 <= k < |bytes| ==> Pos(idx, k, |buf|) != j) ==> Paint(buf, idx, bytes)[j] == buf[j]
    decreases |bytes|
  {
    if bytes != [] {
      var n := |bytes| - 1;
      PaintAt(buf, idx, bytes[..n], j);
      PosValue(idx, n, |buf|);
      forall k | 0 <= k < n
        ensures Pos(idx, k, |buf|) != Pos(idx, n, |buf|)
      {
        PosValue(idx, k, |buf|);
      }
    }
  }

  /**
   * The framebuffer and write index after `n` cycles whose PPU outputs are
   * `pixels(start)`, ..., `pixels(start + n - 1)`: each pixel that is
   * present is formatted and its NumBytes bytes painted at the index.
   */
  function PaintFrame(buf: seq<Byte>, idx: nat, f: PixelFormat, pixels: nat -> Option<Pixel>, start: nat, n: nat): (r: (seq<Byte>, nat))
    requires idx < |buf|
    ensures |r.0| == |buf| && r.1 < |buf|
  {
    if n == 0 then (buf, idx)
    else
      var r := PaintFrame(buf, idx, f, pixels, start, n - 1);
      PaintPixel(r.0, r.1, f, pixels(start + n - 1))
  }

  /** One PPU output: nothing for no pixel, else its bytes painted at the index and the index moved past them. */
  function PaintPixel(buf: seq<Byte>, idx: nat, f: PixelFormat, pixel: Option<Pixel>): (r: (seq<Byte>, nat))
    requires idx < |buf|
    ensures |r.0| == |buf| && r.1 < |buf|
    ensures pixel.None? ==> r == (buf, idx)
    ensures pixel.Some? ==> r.1 == Pos(idx, NumBytes(f), |buf|)
  {
    match pixel
    case None => (buf, idx)
    case Some(p) => (Paint(buf, idx, FormatColor(f, p)[..NumBytes(f)]), Pos(idx, NumBytes(f), |buf|))
  }

  /** The number of bytes `n` pixels take in format `f`. */
  function BytesFor(f: PixelFormat, n: nat): nat
  {
    if n == 0 then 0 else BytesFor(f, n - 1) + NumBytes(f)
  }

  lemma {:induction false} BytesForProduct(f: PixelFormat, n: nat)
    ensures BytesFor(f, n) == n * NumBytes(f)
  {
    if n > 0 {
      BytesForProduct(f, n - 1);
    }
  }

  /** With a pixel on every cycle, the write index advances NumBytes per cycle, wrapping at the end. */
  lemma {:induction false} PaintFrameIndex(buf: seq<Byte>, idx: nat, f: PixelFormat, pixels: nat -> Option<Pixel>, start: nat, n: nat)
    requires idx < |buf|
    requires forall k :: start <= k < start + n ==> pixels(k).Some?
    ensures PaintFrame(buf, idx, f, pixels, start, n).1 == Pos(idx, BytesFor(f, n), |buf|)
  {
    if n > 0 {
      PaintFrameIndex(buf, idx, f, pixels, start, n - 1);
      var r := PaintFrame(buf, idx, f, pixels, start, n - 1);
      var p := pixels(start + n - 1).value;
      var b, w := BytesFor(f, n - 1), NumBytes(f);
      PosAdds(idx, b, w, |buf|);
      calc {
        PaintFrame(buf, idx, f, pixels, start, n).1;
        Pos(r.1, w, |buf|);
        Pos(idx, b + w, |buf|);
        { assert BytesFor(f, n) == b + w; }
        Pos(idx, BytesFor(f, n), |buf|);
      }
    }
  }

  /** A full screen of pixels from index 0 fills the buffer exactly and brings the write index back to 0. */
  lemma FullScreenWraps(buf: seq<Byte>, f: PixelFormat, pixels: nat -> Option<Pixel>, start: nat, n: nat)
    requires |buf| == FrameSize(f) && n == DisplayWidth * DisplayHeight
    requires forall k :: start <= k < start + n ==> pixels(k).Some?
    ensures BytesFor(f, n) == |buf|
    ensures PaintFrame(buf, 0, f, pixels, start, n).1 == 0
  {
    PaintFrameIndex(buf, 0, f, pixels, start, n);
    BytesForProduct(f, n);
    PosValue(0, |buf|, |buf|);
  }

  /** `n` consecutive outputs of a sample source from its `start`-th tick. */
  function Samples(samples: nat -> Sample, start: nat, n: nat): (r: seq<Sample>)
    ensures |r| == n
  {
    if n == 0 then [] else Samples(samples, start, n - 1) + [samples(start + n - 1)]
  }

  /** One more tick's sample extends the sequence by that sample. */
  lemma SamplesSnoc(samples: nat -> Sample, start: nat, n: nat)
    ensures Samples(samples, start, n + 1) == Samples(samples, start, n) + [samples(start + n)]
  {
  }

  /** Sample i of the sequence is the source's output at tick `start + i`. */
  lemma {:induction false} SamplesAt(samples: nat -> Sample, start: nat, n: nat, i: nat)
    requires i < n
    ensures Samples(samples, start, n)[i] == samples(start + i)
  {
    if i < n - 1 {
      SamplesAt(samples, start, n - 1, i);
    }
  }

  /**
   * What emulate_frame's loop has produced so far: the framebuffer, the
   * write index, the sequencer slot and how often each unit has been
   * clocked.
   */
  datatype Progress = Progress(buf: seq<Byte>, idx: nat, slot: nat, ppu: nat, cpu: nat, apu: nat)

  predicate ProgressOk(s: Progress)
  {
    s.idx < |s.buf| && s.slot < 6
  }

  /** One cycle of the loop: clock the slot's units and paint the PPU's pixel if there is one. */
  function Cycle(s: Progress, f: PixelFormat, pixels: nat -> Option<Pixel>): (t: Progress)
    requires ProgressOk(s)
    ensures ProgressOk(t) && |t.buf| == |s.buf|
  {
    var r := PaintPixel(s.buf, s.idx, f, pixels(s.ppu));
    Progress(r.0, r.1, Next(s.slot), s.ppu + 1, s.cpu + SlotHits(s.slot, CpuEvent), s.apu + SlotHits(s.slot, ApuEvent))
  }

  /** `n` cycles of the loop. */
  function Cycles(s: Progress, f: PixelFormat, pixels: nat -> Option<Pixel>, n: nat): (t: Progress)
    requires ProgressOk(s)
    ensures ProgressOk(t) && |t.buf| == |s.buf|
  {
    if n == 0 then s else Cycle(Cycles(s, f, pixels, n - 1), f, pixels)
  }

  /**
   * After `n` cycles the slot has moved on `n` times, the PPU has been
   * clocked `n` times and the CPU and APU as often as the slots passed say.
   */
  lemma {:induction false} CyclesClocks(s: Progress, f: PixelFormat, pixels: nat -> Option<Pixel>, n: nat)
    requires ProgressOk(s)
    ensures Cycles(s, f, pixels, n).slot == Slot(s.slot, n)
    ensures Cycles(s, f, pixels, n).ppu == s.ppu + n
    ensures Cycles(s, f, pixels, n).cpu == s.cpu + SlotCount(s.slot, n, CpuEvent)
    ensures Cycles(s, f, pixels, n).apu == s.apu + SlotCount(s.slot, n, ApuEvent)
  {
    if n > 0 {
      CyclesClocks(s, f, pixels, n - 1);
    }
  }

  /** After `n` cycles the framebuffer and index are those of the `n` pixels painted in turn. */
  lemma {:induction false} CyclesPaint(s: Progress, f: PixelFormat, pixels: nat -> Option<Pixel>, n: nat)
    requires ProgressOk(s)
    ensures (Cycles(s, f, pixels, n).buf, Cycles(s, f, pixels, n).idx) ==
      PaintFrame(s.buf, s.idx, f, pixels, s.ppu, n)
  {
    if n > 0 {
      CyclesPaint(s, f, pixels, n - 1);
      CyclesClocks(s, f, pixels, n - 1);
      var r := PaintFrame(s.buf, s.idx, f, pixels, s.ppu, n - 1);
      assert PaintFrame(s.buf, s.idx, f, pixels, s.ppu, n) == PaintPixel(r.0, r.1, f, pixels(s.ppu + n - 1));
    }
  }

  /** A buffer of `n` zero bytes. */
  function Zeros(n: nat): (z: seq<Byte>)
    ensures |z| == n && forall i :: 0 <= i < n ==> z[i] == 0
  {
    seq(n, _ => 0)
  }

  // ---------------------------------------------------------------------
  // The system

  class Nes {
    const sequencer: SystemSequencer
    var framebuffer: array<Byte>
    var format: PixelFormat
    /** The inserted cartridge's mapper, by the battery RAM it would hand back; None without one. */
    var cartridge: Option<seq<Byte>>
    /** How often each unit has been clocked. */
    var cpuTicks: nat
    var ppuTicks: nat
    var apuTicks: nat
    /** The PPU's output and the APU's sample at each of their ticks. */
    const pixels: nat -> Option<Pixel>
    const samples: nat -> Sample

    ghost predicate Valid()
      reads this, sequencer
    {
      sequencer.Valid() && framebuffer.Length == FrameSize(format)
    }

    /** Nes::default: RGB8, a zeroed framebuffer, no cartridge. */
    constructor (pixels: nat -> Option<Pixel>, samples: nat -> Sample)
      ensures Valid() && fresh(sequencer) && fresh(framebuffer)
      ensures format == RGB8 && framebuffer[..] == Zeros(FrameSize(RGB8))
      ensures cartridge == None && sequencer.counter == 0
      ensures cpuTicks == ppuTicks == apuTicks == 0
      ensures this.pixels == pixels && this.samples == samples
    {
      sequencer := new SystemSequencer();
      framebuffer := new Byte[FrameSize(RGB8)](_ => 0);
      format := RGB8;
      cartridge := None;
      cpuTicks, ppuTicks, apuTicks := 0, 0, 0;
      this.pixels := pixels;
      this.samples := samples;
    }

    /** pixel_format: a new zeroed framebuffer sized for the format. */
    method SetPixelFormat(f: PixelFormat)
      requires Valid()
      modifies this
      ensures Valid() && format == f && fresh(framebuffer)
      ensures framebuffer[..] == Zeros(FrameSize(f))
      ensures cartridge == old(cartridge) && cpuTicks == old(cpuTicks)
      ensures ppuTicks == old(ppuTicks) && apuTicks == old(apuTicks)
    {
      format := f;
      framebuffer := new Byte[FrameSize(f)](_ => 0);
    }

    /** insert, as far as this level sees it: a mapper is now present. */
    method Insert(batteryRam: seq<Byte>)
      requires Valid()
      modifies this
      ensures Valid() && cartridge == Some(batteryRam)
      ensures framebuffer == old(framebuffer) && format == old(format)
      ensures cpuTicks == old(cpuTicks) && ppuTicks == old(ppuTicks) && apuTicks == old(apuTicks)
    {
      cartridge := Some(batteryRam);
    }

    /** eject: the mapper's battery RAM, or nothing without a cartridge. */
    method Eject() returns (ram: seq<Byte>)
      ensures cartridge.None? ==> ram == []
      ensures cartridge.Some? ==> ram == cartridge.value
    {
      ram := if cartridge.Some? then cartridge.value else [];
    }

    /** One arm of clock_components' event match. */
    method HandleEvent(e: Event, pixel: Option<Pixel>, sample: Option<Sample>)
      returns (pixel': Option<Pixel>, sample': Option<Sample>)
      modifies this
      ensures framebuffer == old(framebuffer) && format == old(format) && cartridge == old(cartridge)
      ensures ppuTicks == old(ppuTicks) + Hit(e, PpuEvent)
      ensures cpuTicks == old(cpuTicks) + Hit(e, CpuEvent)
      ensures apuTicks == old(apuTicks) + Hit(e, ApuEvent)
      ensures pixel' == if e == PpuEvent then pixels(old(ppuTicks)) else pixel
      ensures sample' == if e == ApuEvent then Some(samples(old(apuTicks))) else sample
    {
      pixel', sample' := pixel, sample;
      match e
      case PpuEvent =>
        pixel' := pixels(ppuTicks);
        ppuTicks := ppuTicks + 1;
      case CpuEvent =>
        cpuTicks := cpuTicks + 1;
      case ApuEvent =>
        sample' := Some(samples(apuTicks));
        apuTicks := apuTicks + 1;
      case NoEvent =>
    }

    /**
     * clock_components: the slot's events in order. The PPU's tick yields the
     * pixel, the APU's tick the sample; the CPU is only counted.
     */
    method ClockComponents() returns (pixel: Option<Pixel>, sample: Option<Sample>)
      requires Valid()
      modifies this, sequencer
      ensures Valid() && sequencer.counter == Next(old(sequencer.counter))
      ensures framebuffer == old(framebuffer) && format == old(format) && cartridge == old(cartridge)
      ensures ppuTicks == old(ppuTicks) + 1 && pixel == pixels(old(ppuTicks))
      ensures cpuTicks == old(cpuTicks) + Occurrences(SlotEvents(old(sequencer.counter)), CpuEvent)
      ensures apuTicks == old(apuTicks) + Occurrences(SlotEvents(old(sequencer.counter)), ApuEvent)
      ensures sample == if old(sequencer.counter) == 0 then Some(samples(old(apuTicks))) else None
    {
      ghost var slot := sequencer.counter;
      pixel, sample := None, None;
      var events := sequencer.Tick();
      SlotOccurrences(slot);
      for i := 0 to 3
        invariant Valid() && sequencer.counter == Next(slot)
        invariant framebuffer == old(framebuffer) && format == old(format) && cartridge == old(cartridge)
        invariant ppuTicks == old(ppuTicks) + Occurrences(events[..i], PpuEvent)
        invariant cpuTicks == old(cpuTicks) + Occurrences(events[..i], CpuEvent)
        invariant apuTicks == old(apuTicks) + Occurrences(events[..i], ApuEvent)
        invariant i > 0 ==> pixel == pixels(old(ppuTicks))
        invariant sample == if ApuEvent in events[..i] then Some(samples(old(apuTicks))) else None
      {
        assert events[..i + 1][..i] == events[..i];
        pixel, sample := HandleEvent(events[i], pixel, sample);
      }
      assert events[..3] == events;
    }

    /** The loop's view of the system, given the loop's own write index. */
    ghost function Snapshot(idx: nat): Progress
      reads this, sequencer, framebuffer
    {
      Progress(framebuffer[..], idx, sequencer.counter, ppuTicks, cpuTicks, apuTicks)
    }

    /**
     * One iteration of emulate_frame's loop: clock the components, write the
     * pixel's bytes if there is one, keep the sample if there is one.
     */
    method FrameCycle(idx: nat, samplebuffer: seq<Sample>) returns (idx': nat, samplebuffer': seq<Sample>)
      requires Valid() && idx < framebuffer.Length
      modifies this, sequencer, framebuffer
      ensures Valid() && framebuffer == old(framebuffer) && format == old(format) && cartridge == old(cartridge)
      ensures Snapshot(idx') == Cycle(old(Snapshot(idx)), format, pixels)
      ensures idx' < framebuffer.Length && apuTicks == old(apuTicks) + SlotHits(old(sequencer.counter), ApuEvent)
      ensures samplebuffer' == if old(sequencer.counter) == 0 then samplebuffer + [samples(old(apuTicks))] else samplebuffer
    {
      SlotOccurrences(sequencer.counter);
      var pixel, sample := ClockComponents();
      idx', samplebuffer' := idx, samplebuffer;
      if pixel.Some? {
        var bytes := FormatColor(format, pixel.value);
        idx' := WritePixel(bytes[..NumBytes(format)], idx);
      }
      if sample.Some? {
        samplebuffer' := samplebuffer + [sample.value];
      }
    }

    /**
     * emulate_frame: with a cartridge, `cycles` component clocks, each
     * present pixel formatted and written from index 0 onwards with
     * wrap-around, and each sample collected; without one, nothing happens.
     */
    method EmulateFrame(cycles: nat) returns (samplebuffer: seq<Sample>)
      requires Valid()
      modifies this, sequencer, framebuffer
      ensures Valid() && framebuffer == old(framebuffer) && format == old(format) && cartridge == old(cartridge)
      ensures cartridge.None? ==>
        samplebuffer == [] && framebuffer[..] == old(framebuffer[..]) &&
        sequencer.counter == old(sequencer.counter) && ppuTicks == old(ppuTicks) &&
        cpuTicks == old(cpuTicks) && apuTicks == old(apuTicks)
      ensures cartridge.Some? ==>
        framebuffer[..] == PaintFrame(old(framebuffer[..]), 0, format, pixels, old(ppuTicks), cycles).0 &&
        sequencer.counter == Slot(old(sequencer.counter), cycles) &&
        ppuTicks == old(ppuTicks) + cycles &&
        cpuTicks == old(cpuTicks) + SlotCount(old(sequencer.counter), cycles, CpuEvent) &&
        apuTicks == old(apuTicks) + SlotCount(old(sequencer.counter), cycles, ApuEvent) &&
        samplebuffer == Samples(samples, old(apuTicks), SlotCount(old(sequencer.counter), cycles, ApuEvent))
    {
      samplebuffer := [];
      if cartridge.Some? {
        ghost var s0 := Snapshot(0);
        samplebuffer := RunCycles(cycles);
        CyclesClocks(s0, format, pixels, cycles);
        CyclesPaint(s0, format, pixels, cycles);
      }
    }

    /**
     * The loop of emulate_frame after `n` of its cycles from the state `s0`:
     * the system is where Cycles puts it, and the samples kept so far are
     * the `taken` samples of the APU ticks since.
     */
    ghost predicate Reached(s0: Progress, n: nat, idx: nat, taken: nat, samplebuffer: seq<Sample>)
      reads this, sequencer, framebuffer
    {
      && Valid() && ProgressOk(s0) && idx < framebuffer.Length
      && Snapshot(idx) == Cycles(s0, format, pixels, n)
      && apuTicks == s0.apu + taken && samplebuffer == Samples(samples, s0.apu, taken)
    }

    /** One iteration of emulate_frame's loop takes the loop from `n` cycles to `n + 1`. */
    method LoopStep(ghost s0: Progress, ghost n: nat, idx: nat, ghost taken: nat, samplebuffer: seq<Sample>)
      returns (idx': nat, ghost taken': nat, samplebuffer': seq<Sample>)
      requires Reached(s0, n, idx, taken, samplebuffer)
      modifies this, sequencer, framebuffer
      ensures framebuffer == old(framebuffer) && format == old(format) && cartridge == old(cartridge)
      ensures Reached(s0, n + 1, idx', taken', samplebuffer')
    {
      taken' := taken;
      if sequencer.counter == 0 {
        SamplesSnoc(samples, s0.apu, taken);
        taken' := taken + 1;
      }
      idx', samplebuffer' := FrameCycle(idx, samplebuffer);
    }

    /** emulate_frame's loop: `cycles` cycles from write index 0. */
    method RunCycles(cycles: nat) returns (samplebuffer: seq<Sample>)
      requires Valid()
      modifies this, sequencer, framebuffer
      ensures Valid() && framebuffer == old(framebuffer) && format == old(format) && cartridge == old(cartridge)
      ensures exists idx :: Snapshot(idx) == Cycles(old(Snapshot(0)), format, pixels, cycles)
      ensures apuTicks >= old(apuTicks) && samplebuffer == Samples(samples, old(apuTicks), apuTicks - old(apuTicks))
    {
      samplebuffer := [];
      var idx: nat := 0;
      ghost var s0 := Snapshot(idx);
      ghost var taken: nat := 0;
      for n := 0 to cycles
        invariant framebuffer == old(framebuffer) && format == old(format) && cartridge == old(cartridge)
        invariant Reached(s0, n, idx, taken, samplebuffer)
      {
        idx, taken, samplebuffer := LoopStep(s0, n, idx, taken, samplebuffer);
      }
    }

    /** The inner loop of emulate_frame: the pixel's bytes from `idx` on, wrapping at the end. */
    method WritePixel(bytes: seq<Byte>, idx: nat) returns (next: nat)
      requires Valid() && idx < framebuffer.Length
      modifies framebuffer
      ensures next == Pos(idx, |bytes|, framebuffer.Length)
      ensures framebuffer[..] == Paint(old(framebuffer[..]), idx, bytes)
    {
      next := idx;
      for i := 0 to |bytes|
        invariant next == Pos(idx, i, framebuffer.Length)
        invariant framebuffer[..] == Paint(old(framebuffer[..]), idx, bytes[..i])
      {
        assert bytes[..i + 1][..i] == bytes[..i];
        framebuffer[next] := bytes[i];
        SuccIsModular(next, framebuffer.Length);
        next := (next + 1) % framebuffer.Length;
      }
      assert bytes[..|bytes|] == bytes;
    }

    /**
     * run_audio: clocks the components until `n` samples have been
     * collected; they are the APU's next `n` samples.
     */
    method RunAudio(n: nat) returns (buffer: seq<Sample>)
      requires Valid()
      modifies this, sequencer
      ensures Valid() && framebuffer == old(framebuffer) && format == old(format) && cartridge == old(cartridge)
      ensures apuTicks == old(apuTicks) + n
      ensures buffer == Samples(samples, old(apuTicks), n)
    {
      buffer := [];
      while |buffer| < n
        invariant Valid() && framebuffer == old(framebuffer) && format == old(format) && cartridge == old(cartridge)
        invariant apuTicks == old(apuTicks) + |buffer| && |buffer| <= n
        invariant buffer == Samples(samples, old(apuTicks), |buffer|)
        decreases n - |buffer|, (6 - sequencer.counter) % 6
      {
        SlotOccurrences(sequencer.counter);
        var _, sample := ClockComponents();
        if sample.Some? {
          buffer := buffer + [sample.value];
        }
      }
    }
  }

  /**
   * Without a cartridge, emulate_frame returns no samples and leaves the
   * framebuffer as it was, and eject returns nothing.
   */
  method NoCartridgeExample(pixels: nat -> Option<Pixel>, samples: nat -> Sample, cycles: nat)
    returns (frame: seq<Byte>, audio: seq<Sample>, ram: seq<Byte>)
    ensures frame == Zeros(FrameSize(RGB8)) && audio == [] && ram == []
  {
    var nes := new Nes(pixels, samples);
    audio := nes.EmulateFrame(cycles);
    frame := nes.framebuffer[..];
    ram := nes.Eject();
  }
}
