/**
 * `dsih_dphy_gen3.c`: word and bit-field access to the DSI host's D-PHY Gen3
 * interface.  A missing device makes a word read return `(uint32_t)-ENODEV` and a
 * word write do nothing.
 */
module DsiDphyGen3 {
  import opened RegField
  import opened RegWindow
  import opened DsiDev

  /** `gen3_if_read_word`. */
  method ReadWord(dev: MipiDsiDev?, reg: nat) returns (r: bv32)
    ensures dev == null ==> r == ENODEV_WORD
    ensures dev != null ==> r == Word(dev.gen3, reg)
  {
    if dev == null {
      return ENODEV_WORD;
    }
    r := Word(dev.gen3, reg);
  }

  /** `gen3_if_write_word`. */
  method WriteWord(dev: MipiDsiDev?, reg: nat, data: bv32)
    modifies Present(dev)`gen3
    ensures dev != null ==> dev.gen3 == StoreWord(old(dev.gen3), reg, data)
  {
    if dev == null {
      return;
    }
    dev.gen3 := StoreWord(dev.gen3, reg, data);
  }

  /**
   * `gen3_if_write_part`: only the field `[shift, shift+width)` of register `reg`
   * takes `data & mask`; with no device nothing is written.
   */
  method WriteField(dev: MipiDsiDev?, reg: nat, data: bv32, shift: bv32, width: bv32)
    requires shift < 32 && width < 32
    modifies Present(dev)`gen3
    ensures dev != null ==> dev.gen3 == StorePart(old(dev.gen3), reg, data, shift, width)
  {
    var temp := ReadWord(dev, reg);
    temp := WritePart(temp, data, shift, width);
    WriteWord(dev, reg, temp);
  }

  /** `gen3_if_read_part`. */
  method ReadField(dev: MipiDsiDev?, reg: nat, shift: bv32, width: bv32) returns (r: bv32)
    requires shift < 32 && width < 32
    ensures r <= FieldMask(width)
    ensures dev != null ==> r == LoadPart(dev.gen3, reg, shift, width)
    ensures dev == null ==> r == ReadPart(ENODEV_WORD, shift, width)
  {
    var word := ReadWord(dev, reg);
    r := ReadPart(word, shift, width);
  }
}
