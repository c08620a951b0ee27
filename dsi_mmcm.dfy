/**
 * `dsih_mmcm.c`: word and bit-field access to the DSI host's MMCM clock
 * block.  A missing device makes a word read return `(uint32_t)-ENODEV` and a
 * word write do nothing.
 */
module DsiMmcm {
  import opened RegField
  import opened RegWindow
  import opened DsiDev

  /** `mmcm_read_word`. */
  method ReadWord(dev: MipiDsiDev?, reg: nat) returns (r: bv32)
    ensures dev == null ==> r == ENODEV_WORD
    ensures dev != null ==> r == Word(dev.mmcm, reg)
  {
    if dev == null {
      return ENODEV_WORD;
    }
    r := Word(dev.mmcm, reg);
  }

  /** `mmcm_write_word`. */
  method WriteWord(dev: MipiDsiDev?, reg: nat, data: bv32)
    modifies Present(dev)`mmcm
    ensures dev != null ==> dev.mmcm == StoreWord(old(dev.mmcm), reg, data)
  {
    if dev == null {
      return;
    }
    dev.mmcm := StoreWord(dev.mmcm, reg, data);
  }

  /**
   * `mmcm_write_part`: only the field `[shift, shift+width)` of register `reg`
   * takes `data & mask`; with no device nothing is written.
   */
  method WriteField(dev: MipiDsiDev?, reg: nat, data: bv32, shift: bv32, width: bv32)
    requires shift < 32 && width < 32
    modifies Present(dev)`mmcm
    ensures dev != null ==> dev.mmcm == StorePart(old(dev.mmcm), reg, data, shift, width)
  {
    var temp := ReadWord(dev, reg);
    temp := WritePart(temp, data, shift, width);
    WriteWord(dev, reg, temp);
  }

  /** `mmcm_read_part`. */
  method ReadField(dev: MipiDsiDev?, reg: nat, shift: bv32, width: bv32) returns (r: bv32)
    requires shift < 32 && width < 32
    ensures r <= FieldMask(width)
    ensures dev != null ==> r == LoadPart(dev.mmcm, reg, shift, width)
    ensures dev == null ==> r == ReadPart(ENODEV_WORD, shift, width)
  {
    var word := ReadWord(dev, reg);
    r := ReadPart(word, shift, width);
  }
}
