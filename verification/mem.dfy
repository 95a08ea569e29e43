// A banked block of cartridge memory (nescore/src/mapper/mem.rs): a byte
// buffer seen as `num_banks` banks of `bank_size` bytes each. A bank number
// is checked against `num_banks`; the index inside a bank is not checked
// against `bank_size`, only against the end of the buffer.
//
// Two helpers that the mappers call are not in mem.rs of this revision:
// `read_first(i)`, taken to be `read(0, i)`, and `set_bank_size(s)`, taken to
// set the bank size to `s` and the bank count to the number of whole banks of
// that size in the buffer. The two-argument constructor the mappers use is
// taken the same way: the bank count is the number of whole banks.

module Mem {
  import opened Bits

  /** get_bank_offset: where bank `bank` starts; the byte `index` of it is at this offset plus `index`. */
  function Offset(bankSize: nat, bank: nat, index: nat): nat
  {
    bank * bankSize + index
  }

  /** Within their banks, different (bank, index) pairs name different bytes. */
  lemma OffsetInjective(bankSize: nat, b1: nat, i1: nat, b2: nat, i2: nat)
    requires i1 < bankSize && i2 < bankSize
    requires Offset(bankSize, b1, i1) == Offset(bankSize, b2, i2)
    ensures b1 == b2 && i1 == i2
  {
    if b1 < b2 {
      BankOrder(bankSize, b1, b2);
      assert false;
    } else if b2 < b1 {
      BankOrder(bankSize, b2, b1);
      assert false;
    }
  }

  /** A later bank starts at or after the end of an earlier one. */
  lemma BankOrder(bankSize: nat, b1: nat, b2: nat)
    requires b1 < b2
    ensures b1 * bankSize + bankSize <= b2 * bankSize
  {
    var k: nat := b2 - b1 - 1;
    calc {
      b2 * bankSize;
      (b1 + 1 + k) * bankSize;
      { Distribute(b1 + 1, k, bankSize); }
      (b1 + 1) * bankSize + k * bankSize;
      { Distribute(b1, 1, bankSize); }
      b1 * bankSize + bankSize + k * bankSize;
    }
  }

  lemma Distribute(a: nat, b: nat, c: nat)
    ensures (a + b) * c == a * c + b * c
  {
  }

  /** Because the index is unchecked, the byte just past a bank is the first byte of the next bank. */
  lemma IndexOverrunAliases(bankSize: nat, bank: nat)
    ensures Offset(bankSize, bank, bankSize) == Offset(bankSize, bank + 1, 0)
  {
  }

  class Memory {
    const mem: array<Byte>
    var numBanks: nat
    var bankSize: nat

    /** Memory::new(mem, num_banks, bank_size) */
    constructor (contents: seq<Byte>, numBanks: nat, bankSize: nat)
      ensures fresh(mem) && mem[..] == contents
      ensures this.numBanks == numBanks && this.bankSize == bankSize
    {
      mem := new Byte[|contents|](i requires 0 <= i < |contents| => contents[i]);
      this.numBanks := numBanks;
      this.bankSize := bankSize;
    }

    /** The two-argument Memory::new the mappers call: as many banks as fit. */
    constructor OfBankSize(contents: seq<Byte>, bankSize: nat)
      requires bankSize > 0
      ensures fresh(mem) && mem[..] == contents
      ensures this.bankSize == bankSize && numBanks == |contents| / bankSize
    {
      mem := new Byte[|contents|](i requires 0 <= i < |contents| => contents[i]);
      numBanks := |contents| / bankSize;
      this.bankSize := bankSize;
    }

    /** Every byte of every bank lies inside the buffer. */
    ghost predicate Valid()
      reads this
    {
      numBanks * bankSize <= mem.Length
    }

    /** The preconditions of read and write: the bank assertion, and the buffer bound on the unchecked index. */
    predicate CanAccess(bank: nat, index: nat)
      reads this
    {
      bank < numBanks && Offset(bankSize, bank, index) < mem.Length
    }

    /** read(bank, index) */
    function Read(bank: nat, index: nat): (r: Byte)
      reads this, mem
      requires CanAccess(bank, index)
      ensures r == mem[bank * bankSize + index]
    {
      mem[Offset(bankSize, bank, index)]
    }

    /** read_last(index): the same byte of the last bank. */
    function ReadLast(index: nat): (r: Byte)
      reads this, mem
      requires numBanks > 0 && CanAccess(numBanks - 1, index)
      ensures r == Read(numBanks - 1, index)
    {
      Read(numBanks - 1, index)
    }

    /** read_first(index), not in this revision of mem.rs: the same byte of bank 0. */
    function ReadFirst(index: nat): (r: Byte)
      reads this, mem
      requires CanAccess(0, index)
      ensures r == mem[index]
    {
      Read(0, index)
    }

    /** write(bank, index, data): one byte of the buffer changes. */
    method Write(bank: nat, index: nat, data: Byte)
      requires CanAccess(bank, index)
      modifies mem
      ensures mem[..] == old(mem[..])[Offset(bankSize, bank, index) := data]
      ensures Read(bank, index) == data
    {
      mem[Offset(bankSize, bank, index)] := data;
    }

    /** set_bank_size(size), not in this revision of mem.rs: re-slices the same buffer. */
    method SetBankSize(size: nat)
      requires size > 0
      modifies this
      ensures bankSize == size && numBanks == mem.Length / size
      ensures Valid()
    {
      bankSize := size;
      numBanks := mem.Length / size;
      DivFloor(mem.Length, size);
    }
  }

  lemma DivFloor(n: nat, d: nat)
    requires d > 0
    ensures (n / d) * d <= n
  {
  }

  /**
   * After write(b, i, d), read(b, i) gives d and a read of any other byte
   * gives what it gave before, provided both indices stay inside their banks.
   */
  lemma WriteThenRead(mem: seq<Byte>, bankSize: nat, b: nat, i: nat, d: Byte, b2: nat, i2: nat)
    requires i < bankSize && i2 < bankSize
    requires Offset(bankSize, b, i) < |mem| && Offset(bankSize, b2, i2) < |mem|
    ensures mem[Offset(bankSize, b, i) := d][Offset(bankSize, b2, i2)] ==
            if b2 == b && i2 == i then d else mem[Offset(bankSize, b2, i2)]
  {
    if Offset(bankSize, b, i) == Offset(bankSize, b2, i2) {
      OffsetInjective(bankSize, b, i, b2, i2);
    }
  }

  /** The tests of mem.rs: bank 1 of a two-bank buffer starts at byte `bank_size`. */
  method ReadBankExample() returns (x: Byte, y: Byte)
    ensures x == 0xDE && y == 0xDE
  {
    var data := seq(20, i => if i == 10 then 0xDE as Byte else 0);
    var m := new Memory(data, 2, 10);
    y := m.Read(1, 0);
    var one := new Memory(seq(10, i => if i == 5 then 0xDE as Byte else 0), 1, 10);
    x := one.Read(0, 5);
  }
}
