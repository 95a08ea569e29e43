// What every mapper shares (nescore/src/mapper/mapper.rs, the
// MapperControl trait): the nametable mirroring arrangements and the window
// of battery-backed RAM that `get_battery_ram` copies out.

module MapperControl {
  import opened Bits

  datatype Mirroring = OneScreenLower | OneScreenUpper | Vertical | Horizontal

  /** get_battery_ram's default reads the mapper at $6000-$7FFF. */
  const BatteryRamStart: Addr := 0x6000
  const BatteryRamSize: nat := 0x2000
}
