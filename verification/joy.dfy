// The standard controllers (nescore/src/joy.rs). Button presses set bits of
// the controller's state byte; while the strobe is set every state change
// is copied into the shift registers, and each read of $4016/$4017 returns
// bit 0 of the controller's shift register and shifts it down, so
// successive reads give A, B, Select, Start, Up, Down, Left and Right.

module Joy {
  import opened Bits

  datatype Button = A | B | Select | Start | Up | Down | Left | Right

  /** `btn as u8`: the button's bit in the state byte. */
  function ButtonBit(btn: Button): (n: nat)
    ensures n < 8
  {
    match btn
    case A => 0 case B => 1 case Select => 2 case Start => 3
    case Up => 4 case Down => 5 case Left => 6 case Right => 7
  }

  /** Each button has its own bit. */
  lemma ButtonBitsDistinct(b1: Button, b2: Button)
    requires b1 != b2
    ensures ButtonBit(b1) != ButtonBit(b2)
  {
  }

  datatype Controller = Input1 | Input2

  function Index(ctrl: Controller): (i: nat)
    ensures i < 2
  {
    if ctrl == Input1 then 0 else 1
  }

  /** The state byte after a press or a release: that button's bit follows `pressed`, the others stay. */
  function PressState(state: Byte, btn: Button, pressed: bool): (r: Byte)
    ensures forall j :: 0 <= j < 8 ==> (BitIsSet(r, j) <==> if j == ButtonBit(btn) then pressed else BitIsSet(state, j))
  {
    var r := if pressed then BitSet(state, ButtonBit(btn)) else BitClear(state, ButtonBit(btn));
    PressStateBits(state, ButtonBit(btn), pressed);
    r
  }

  lemma PressStateBits(state: Byte, b: nat, pressed: bool)
    requires b < 8
    ensures var r := if pressed then BitSet(state, b) else BitClear(state, b);
            forall j :: 0 <= j < 8 ==> (BitIsSet(r, j) <==> if j == b then pressed else BitIsSet(state, j))
  {
    forall j | 0 <= j < 8
      ensures BitIsSet(if pressed then BitSet(state, b) else BitClear(state, b), j) <==> if j == b then pressed else BitIsSet(state, j)
    {
      if pressed { BitSetAt(state, b, j); } else { BitClearAt(state, b, j); }
    }
  }

  /** The shift register after k reads: shifted down by one bit per read. */
  function ShiftN(s: Byte, k: nat): Byte
  {
    if k == 0 then s else ShiftN(s, k - 1) >> 1
  }

  /** Bit 0 of the state shifted down k times is bit k of the state. */
  lemma ShiftedLowBit(s: Byte, k: nat)
    requires k < 8
    ensures ShiftN(s, k) & 0x01 <= 1
    ensures ShiftN(s, k) & 0x01 == 1 <==> BitIsSet(s, k)
  {
    ShiftNUnfolds(s);
    match k
    case 0 => assert Bv(0) == 0x01;
    case 1 => assert Bv(1) == 0x02;
    case 2 => assert Bv(2) == 0x04;
    case 3 => assert Bv(3) == 0x08;
    case 4 => assert Bv(4) == 0x10;
    case 5 => assert Bv(5) == 0x20;
    case 6 => assert Bv(6) == 0x40;
    case 7 => assert Bv(7) == 0x80;
  }

  lemma ShiftNUnfolds(s: Byte)
    ensures ShiftN(s, 0) == s
    ensures ShiftN(s, 1) == s >> 1 && ShiftN(s, 2) == s >> 2
    ensures ShiftN(s, 3) == s >> 3 && ShiftN(s, 4) == s >> 4
    ensures ShiftN(s, 5) == s >> 5 && ShiftN(s, 6) == s >> 6
    ensures ShiftN(s, 7) == s >> 7
  {
    assert ShiftN(s, 1) == s >> 1;
    assert (s >> 1) >> 1 == s >> 2 && (s >> 2) >> 1 == s >> 3 && (s >> 3) >> 1 == s >> 4;
    assert (s >> 4) >> 1 == s >> 5 && (s >> 5) >> 1 == s >> 6 && (s >> 6) >> 1 == s >> 7;
    assert ShiftN(s, 2) == s >> 2;
    assert ShiftN(s, 3) == s >> 3;
    assert ShiftN(s, 4) == s >> 4;
    assert ShiftN(s, 5) == s >> 5;
    assert ShiftN(s, 6) == s >> 6;
  }

  class Joy {
    var strobe: bool
    const states: array<Byte>
    const shifts: array<Byte>

    ghost predicate Valid()
    {
      states.Length == 2 && shifts.Length == 2 && states != shifts
    }

    /** Joy::default: strobe clear, no button pressed. */
    constructor ()
      ensures Valid() && !strobe && fresh(states) && fresh(shifts)
      ensures states[..] == [0, 0] && shifts[..] == [0, 0]
    {
      strobe := false;
      states := new Byte[2](_ => 0);
      shifts := new Byte[2](_ => 0);
    }

    /** apply_strobe: while the strobe is set, both shift registers reload from the states. */
    method ApplyStrobe()
      requires Valid()
      modifies shifts
      ensures strobe ==> shifts[..] == states[..]
      ensures !strobe ==> shifts[..] == old(shifts[..])
      ensures states[..] == old(states[..])
    {
      if strobe {
        shifts[0] := states[0];
        shifts[1] := states[1];
      }
    }

    /** controller_input: one button of one controller changes, then the strobe is re-applied. */
    method ControllerInput(ctrl: Controller, btn: Button, pressed: bool)
      requires Valid()
      modifies states, shifts
      ensures states[..] == old(states[..])[Index(ctrl) := PressState(old(states[Index(ctrl)]), btn, pressed)]
      ensures strobe ==> shifts[..] == states[..]
      ensures !strobe ==> shifts[..] == old(shifts[..])
    {
      states[Index(ctrl)] := PressState(states[Index(ctrl)], btn, pressed);
      ApplyStrobe();
    }

    /** input: controller 1 only. */
    method Input(btn: Button, pressed: bool)
      requires Valid()
      modifies states, shifts
      ensures states[..] == [PressState(old(states[0]), btn, pressed), old(states[1])]
      ensures strobe ==> shifts[..] == states[..]
      ensures !strobe ==> shifts[..] == old(shifts[..])
    {
      ControllerInput(Input1, btn, pressed);
    }

    /** read_byte: $4016 is controller 1 and $4017 controller 2; any other address panics. */
    method ReadByte(addr: Addr) returns (r: Byte)
      requires Valid() && (addr == 0x4016 || addr == 0x4017)
      modifies shifts
      ensures r == old(shifts[addr - 0x4016]) & 0x01
      ensures shifts[..] == old(shifts[..])[addr - 0x4016 := old(shifts[addr - 0x4016]) >> 1]
    {
      var i := addr - 0x4016;
      r := shifts[i] & 0x01;
      shifts[i] := shifts[i] >> 1;
    }

    /** write_byte: $4016 sets the strobe from bit 0 and re-applies it; other addresses are ignored. */
    method WriteByte(addr: Addr, data: Byte)
      requires Valid()
      modifies this, shifts
      ensures addr == 0x4016 ==> (strobe <==> BitIsSet(data, 0))
      ensures addr != 0x4016 ==> strobe == old(strobe)
      ensures addr == 0x4016 && strobe ==> shifts[..] == states[..]
      ensures !(addr == 0x4016 && strobe) ==> shifts[..] == old(shifts[..])
      ensures states[..] == old(states[..])
    {
      if addr == 0x4016 {
        strobe := BitIsSet(data, 0);
        ApplyStrobe();
      }
    }
  }

  /**
   * Eight reads of one port after latching: read k gives bit k of the
   * latched state, so A first and Right last.
   */
  method ReadButtons(joy: Joy, addr: Addr) returns (bits: seq<Byte>)
    requires joy.Valid() && (addr == 0x4016 || addr == 0x4017)
    modifies joy.shifts
    ensures |bits| == 8
    ensures forall btn: Button :: bits[ButtonBit(btn)] == 1 <==> BitIsSet(old(joy.shifts[addr - 0x4016]), ButtonBit(btn))
    ensures forall k :: 0 <= k < 8 ==> bits[k] <= 1
  {
    ghost var s0 := joy.shifts[addr - 0x4016];
    bits := [];
    for k := 0 to 8
      invariant |bits| == k
      invariant joy.shifts[addr - 0x4016] == ShiftN(s0, k)
      invariant forall j :: 0 <= j < k ==> bits[j] == ShiftN(s0, j) & 0x01
    {
      var r := joy.ReadByte(addr);
      bits := bits + [r];
    }
    forall k | 0 <= k < 8 ensures bits[k] <= 1 && (bits[k] == 1 <==> BitIsSet(s0, k)) {
      ShiftedLowBit(s0, k);
    }
  }

  /** The tests of joy.rs: a press latched by a strobe pulse reads back on the right port. */
  method JoyExamples() returns (a1: Byte, b1: Byte, a2: Byte)
    ensures a1 == 1 && b1 == 1 && a2 == 1
  {
    var joy := new Joy();
    joy.Input(A, true);
    joy.Input(B, true);
    joy.WriteByte(0x4016, 0x01);
    joy.WriteByte(0x4016, 0x00);
    a1 := joy.ReadByte(0x4016);
    b1 := joy.ReadByte(0x4016);

    var other := new Joy();
    other.ControllerInput(Input2, A, true);
    other.WriteByte(0x4016, 0x01);
    other.WriteByte(0x4016, 0x00);
    a2 := other.ReadByte(0x4017);
  }
}
