// Mapper 2, UNROM (nescore/src/mapper/unrom.rs). This revision only keeps
// the bank selection register: reads give 0 whatever the address, and a
// write to $8000-$FFFF stores the whole data byte as the selection.

module Unrom {
  import opened Bits
  import Cart

  class Unrom {
    var romBankSelection: nat

    /** Unrom::from: the cartridge's contents are not kept. */
    constructor (cart: Cart.Cartridge)
      ensures romBankSelection == 0
    {
      romBankSelection := 0;
    }

    /** read: 0 for every address, so no read panics. */
    function Read(addr: Addr): (r: Byte)
      ensures r == 0
    {
      0
    }

    /** write: the selection takes the unmasked data at $8000-$FFFF; lower writes change nothing. */
    method Write(addr: Addr, data: Byte)
      modifies this
      ensures 0x8000 <= addr ==> romBankSelection == data as nat
      ensures addr < 0x8000 ==> romBankSelection == old(romBankSelection)
    {
      if 0x8000 <= addr {
        romBankSelection := data as nat;
      }
    }
  }

  /** The selection follows the last write to $8000-$FFFF, and reads stay 0 whatever it is. */
  method SelectAndRead(u: Unrom, data: Byte) returns (selected: nat, value: Byte)
    modifies u
    ensures selected == data as nat && value == 0
  {
    u.Write(0x8000, data);
    u.Write(0x7FFF, data ^ 0xFF);
    selected := u.romBankSelection;
    value := u.Read(0xC000);
  }
}
