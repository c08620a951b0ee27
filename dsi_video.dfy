/**
 * `dsih_video.c`: the DesignWare video interface bridge in front of the DSI
 * host.  Register `reg` of the bridge lives at byte offset `reg << 2` of the
 * bridge window; fields are updated by read-modify-write.  The zoom and pan
 * counters the framebuffer keys drive are module statics, modelled by the
 * class `PanZoom`.
 */
module DsiVideo {
  import opened RegField
  import opened RegWindow
  import opened DsiDev

  const PANX: nat := 0x00
  const PANY: nat := 0x01
  const PHASE_SEL: nat := 0x02
  const SEL_DATA: nat := 0x03
  const TESTMODE: nat := 0x05
  const ZOOM_OUT: nat := 0x06
  const EDPICTRL: nat := 0x07
  const CANVAS: nat := 0x08
  const HBP_HSA: nat := 0x09
  const LINE_TIME: nat := 0x0A
  const VBP_VFP_VSA: nat := 0x0B
  const DPICOLORMODE: nat := 0x0C
  const PAN_VALID: nat := 0x10
  const TECONTROL: nat := 0x11

  const PAN_STEP: bv32 := 40
  /** Bridge clock in kHz. */
  const VIDEO_IF_FREQ: nat := 25000
  const VIF_COLOR_CODE_24BIT: nat := 5
  const VIF_COLOR_CODE_MAX: nat := 6

  /** Byte offset of bridge register `reg`. */
  function Addr(reg: nat): nat
  {
    reg * 4
  }

  /** `video_if_write`. */
  method Write(dev: MipiDsiDev, reg: nat, value: bv32)
    modifies dev`bridge
    ensures dev.bridge == StoreWord(old(dev.bridge), Addr(reg), value)
  {
    dev.bridge := StoreWord(dev.bridge, Addr(reg), value);
  }

  /** `video_if_edpi`: the eDPI enable register takes `enable`. */
  method Edpi(dev: MipiDsiDev, enable: bv32)
    modifies dev`bridge
    ensures Word(dev.bridge, Addr(EDPICTRL)) == enable
    ensures SameExcept(old(dev.bridge), dev.bridge, {Addr(EDPICTRL)})
  {
    Write(dev, EDPICTRL, enable);
  }

  /** `video_if_write_part`. */
  method WriteField(dev: MipiDsiDev, reg: nat, data: bv32, shift: bv32, width: bv32)
    requires shift < 32 && width < 32
    modifies dev`bridge
    ensures dev.bridge == StorePart(old(dev.bridge), Addr(reg), data, shift, width)
  {
    var temp := Word(dev.bridge, Addr(reg));
    temp := WritePart(temp, data, shift, width);
    Write(dev, reg, temp);
  }

  /** `video_if_read_part`. */
  method ReadField(dev: MipiDsiDev, reg: nat, shift: bv32, width: bv32) returns (r: bv32)
    requires shift < 32 && width < 32
    ensures r <= FieldMask(width)
    ensures r == LoadPart(dev.bridge, Addr(reg), shift, width)
  {
    r := ReadPart(Word(dev.bridge, Addr(reg)), shift, width);
  }

  // ---------------------------------------------------------------------
  // Fields of the CANVAS, HBP_HSA and VBP_VFP_VSA registers.  Writing one
  // field of a register keeps the register's other fields.

  lemma HighHalfKeepsLowHalf(w: Window, a: nat, d: bv32)
    ensures LoadPart(StorePart(w, a, d, 16, 16), a, 0, 16) == LoadPart(w, a, 0, 16)
  {
  }

  lemma LowHalfKeepsHighHalf(w: Window, a: nat, d: bv32)
    ensures LoadPart(StorePart(w, a, d, 0, 16), a, 16, 16) == LoadPart(w, a, 16, 16)
  {
  }

  /** Vertical blanking `[20,32)` and front porch `[8,19)` keep the sync `[0,8)`. */
  lemma VerticalFieldsKeepSync(w: Window, a: nat, d: bv32)
    ensures LoadPart(StorePart(w, a, d, 20, 12), a, 0, 8) == LoadPart(w, a, 0, 8)
    ensures LoadPart(StorePart(w, a, d, 8, 11), a, 0, 8) == LoadPart(w, a, 0, 8)
  {
  }

  /** The front porch `[8,19)` keeps the blanking `[20,32)`. */
  lemma FrontPorchKeepsBlanking(w: Window, a: nat, d: bv32)
    ensures LoadPart(StorePart(w, a, d, 8, 11), a, 20, 12) == LoadPart(w, a, 20, 12)
  {
  }

  /** The sync `[0,8)` keeps the blanking `[20,32)` and the front porch `[8,19)`. */
  lemma SyncKeepsPorches(w: Window, a: nat, d: bv32)
    ensures LoadPart(StorePart(w, a, d, 0, 8), a, 20, 12) == LoadPart(w, a, 20, 12)
    ensures LoadPart(StorePart(w, a, d, 0, 8), a, 8, 11) == LoadPart(w, a, 8, 11)
  {
  }

  /** The blanking `[20,32)` keeps the front porch `[8,19)`. */
  lemma BlankingKeepsFrontPorch(w: Window, a: nat, d: bv32)
    ensures LoadPart(StorePart(w, a, d, 20, 12), a, 8, 11) == LoadPart(w, a, 8, 11)
  {
  }

  // ---------------------------------------------------------------------
  // Pan coordinates

  /** The C cast `(uint16_t)`: the low 16 bits. */
  function Low16(w: bv32): bv32
  {
    w & 0xFFFF
  }

  /** The C cast `(uint8_t)`: the low 8 bits. */
  function Low8(w: bv32): bv32
  {
    w & 0xFF
  }

  /**
   * `video_if_pan_coord`: PANX and PANY take the new coordinates and
   * PAN_VALID ends at 1 (it is dropped to 0 first); nothing else changes.
   */
  method PanCoord(dev: MipiDsiDev, x: bv32, y: bv32)
    requires x <= 0xFFFF && y <= 0xFFFF
    modifies dev`bridge
    ensures Word(dev.bridge, Addr(PANX)) == x
    ensures Word(dev.bridge, Addr(PANY)) == y
    ensures Word(dev.bridge, Addr(PAN_VALID)) == 1
    ensures SameExcept(dev.bridge, old(dev.bridge), {Addr(PANX), Addr(PANY), Addr(PAN_VALID)})
  {
    Write(dev, PAN_VALID, 0);
    Write(dev, PANX, x);
    Write(dev, PANY, y);
    Write(dev, PAN_VALID, 1);
  }

  /** A counter in [0, 0xFFFF] written to PANX or PANY reads back as itself. */
  lemma CounterCoord(n: int)
    requires 0 <= n <= 0xFFFF
    ensures Low16(n as bv32) == n as bv32
  {
    assert n as bv32 <= 0xFFFF;
  }

  /** The x coordinate `video_if_get_x_coord` returns. */
  function XCoord(w: Window): (r: bv32)
    ensures r <= 0xFFFF
  {
    Low16(Word(w, Addr(PANX)))
  }

  /** The y coordinate `video_if_get_y_coord` returns. */
  function YCoord(w: Window): (r: bv32)
    ensures r <= 0xFFFF
  {
    Low16(Word(w, Addr(PANY)))
  }

  /** `video_if_pan_right`: x grows by the pan step, wrapping as a `uint16_t`. */
  method PanRight(dev: MipiDsiDev)
    modifies dev`bridge
    ensures XCoord(dev.bridge) == Low16(XCoord(old(dev.bridge)) + PAN_STEP)
    ensures YCoord(dev.bridge) == YCoord(old(dev.bridge))
    ensures Word(dev.bridge, Addr(PAN_VALID)) == 1
    ensures SameExcept(dev.bridge, old(dev.bridge), {Addr(PANX), Addr(PANY), Addr(PAN_VALID)})
  {
    var x := XCoord(dev.bridge);
    var y := YCoord(dev.bridge);
    PanCoord(dev, Low16(x + PAN_STEP), y);
  }

  /**
   * `video_if_pan_left`: x drops by the pan step, but a coordinate of at
   * most one step is left as it is rather than clamped to 0.
   */
  method PanLeft(dev: MipiDsiDev)
    modifies dev`bridge
    ensures var x := XCoord(old(dev.bridge));
      XCoord(dev.bridge) == if x <= PAN_STEP then x else x - PAN_STEP
    ensures YCoord(dev.bridge) == YCoord(old(dev.bridge))
    ensures Word(dev.bridge, Addr(PAN_VALID)) == 1
    ensures SameExcept(dev.bridge, old(dev.bridge), {Addr(PANX), Addr(PANY), Addr(PAN_VALID)})
  {
    var x := XCoord(dev.bridge);
    var y := YCoord(dev.bridge);
    PanCoord(dev, if x <= PAN_STEP then x else x - PAN_STEP, y);
  }

  /** `video_if_pan_up`: as pan left, on y. */
  method PanUp(dev: MipiDsiDev)
    modifies dev`bridge
    ensures var y := YCoord(old(dev.bridge));
      YCoord(dev.bridge) == if y <= PAN_STEP then y else y - PAN_STEP
    ensures XCoord(dev.bridge) == XCoord(old(dev.bridge))
    ensures Word(dev.bridge, Addr(PAN_VALID)) == 1
    ensures SameExcept(dev.bridge, old(dev.bridge), {Addr(PANX), Addr(PANY), Addr(PAN_VALID)})
  {
    var y := YCoord(dev.bridge);
    var x := XCoord(dev.bridge);
    PanCoord(dev, x, if y <= PAN_STEP then y else y - PAN_STEP);
  }

  /** `video_if_pan_down`: as pan right, on y. */
  method PanDown(dev: MipiDsiDev)
    modifies dev`bridge
    ensures YCoord(dev.bridge) == Low16(YCoord(old(dev.bridge)) + PAN_STEP)
    ensures XCoord(dev.bridge) == XCoord(old(dev.bridge))
    ensures Word(dev.bridge, Addr(PAN_VALID)) == 1
    ensures SameExcept(dev.bridge, old(dev.bridge), {Addr(PANX), Addr(PANY), Addr(PAN_VALID)})
  {
    var x := XCoord(dev.bridge);
    var y := YCoord(dev.bridge);
    PanCoord(dev, x, Low16(y + PAN_STEP));
  }

  /** `video_if_adjust_pan_x`: PANX takes `x`, then PAN_VALID is pulsed 0 and 1. */
  method AdjustPanX(dev: MipiDsiDev, x: bv32)
    modifies dev`bridge
    ensures Word(dev.bridge, Addr(PANX)) == x
    ensures YCoord(dev.bridge) == YCoord(old(dev.bridge))
    ensures Word(dev.bridge, Addr(PAN_VALID)) == 1
    ensures SameExcept(dev.bridge, old(dev.bridge), {Addr(PANX), Addr(PAN_VALID)})
  {
    Write(dev, PANX, x);
    Write(dev, PAN_VALID, 0);
    Write(dev, PAN_VALID, 1);
  }

  /** `video_if_adjust_pan_y`: as `AdjustPanX`, on PANY. */
  method AdjustPanY(dev: MipiDsiDev, y: bv32)
    modifies dev`bridge
    ensures Word(dev.bridge, Addr(PANY)) == y
    ensures XCoord(dev.bridge) == XCoord(old(dev.bridge))
    ensures Word(dev.bridge, Addr(PAN_VALID)) == 1
    ensures SameExcept(dev.bridge, old(dev.bridge), {Addr(PANY), Addr(PAN_VALID)})
  {
    Write(dev, PANY, y);
    Write(dev, PAN_VALID, 0);
    Write(dev, PAN_VALID, 1);
  }

  /** The first half of `video_if_update_position`: ZOOM_OUT takes `zoom`, then PAN_VALID is pulsed. */
  method ZoomLatch(dev: MipiDsiDev, zoom: bv32)
    modifies dev`bridge
    ensures Word(dev.bridge, Addr(ZOOM_OUT)) == zoom
    ensures Word(dev.bridge, Addr(PAN_VALID)) == 1
    ensures SameExcept(dev.bridge, old(dev.bridge), {Addr(ZOOM_OUT), Addr(PAN_VALID)})
  {
    Write(dev, ZOOM_OUT, zoom);
    Write(dev, PAN_VALID, 0);
    Write(dev, PAN_VALID, 1);
  }

  /** The corrected second half: PANY and PANX take `y` and `x`, then PAN_VALID is pulsed. */
  method PanLatch(dev: MipiDsiDev, x: bv32, y: bv32)
    modifies dev`bridge
    ensures Word(dev.bridge, Addr(PANX)) == x && Word(dev.bridge, Addr(PANY)) == y
    ensures Word(dev.bridge, Addr(PAN_VALID)) == 1
    ensures SameExcept(dev.bridge, old(dev.bridge), {Addr(PANX), Addr(PANY), Addr(PAN_VALID)})
  {
    Write(dev, PANY, y);
    Write(dev, PANX, x);
    Write(dev, PAN_VALID, 0);
    Write(dev, PAN_VALID, 1);
  }

  /**
   * The bridge after `video_if_update_position` as written: ZOOM_OUT takes
   * the zoom, and both pan counters are stored into PAN_VALID, where each
   * write overwrites the one before.
   */
  function PositionAsWritten(w: Window, zoom: bv32, panx: bv32, pany: bv32): Window
  {
    var zoomed := StoreWord(w, Addr(ZOOM_OUT), zoom);
    var latched := StoreWord(StoreWord(zoomed, Addr(PAN_VALID), 0), Addr(PAN_VALID), 1);
    var panned := StoreWord(StoreWord(latched, Addr(PAN_VALID), pany), Addr(PAN_VALID), panx);
    StoreWord(StoreWord(panned, Addr(PAN_VALID), 0), Addr(PAN_VALID), 1)
  }

  /** As written, the position update never reaches PANX or PANY: both coordinates keep their old values. */
  lemma PositionAsWrittenKeepsPan(w: Window, zoom: bv32, panx: bv32, pany: bv32)
    ensures XCoord(PositionAsWritten(w, zoom, panx, pany)) == XCoord(w)
    ensures YCoord(PositionAsWritten(w, zoom, panx, pany)) == YCoord(w)
    ensures Word(PositionAsWritten(w, zoom, panx, pany), Addr(ZOOM_OUT)) == zoom
    ensures SameExcept(PositionAsWritten(w, zoom, panx, pany), w, {Addr(ZOOM_OUT), Addr(PAN_VALID)})
  {
  }

  /** From reset, one step right (`panx_g` = 1) leaves the x coordinate at 0. */
  lemma PositionAsWrittenExample()
    ensures XCoord(PositionAsWritten(map[], 0, 1, 0)) == 0
  {
  }

  // ---------------------------------------------------------------------
  // Source and target selection: bit 0 and bits [2:1] of SEL_DATA.

  /** `video_if_get_data_source`. */
  function DataSource(w: Window): bv32
  {
    LoadPart(w, Addr(SEL_DATA), 0, 1)
  }

  /** `video_if_get_data_target`. */
  function DataTarget(w: Window): bv32
  {
    LoadPart(w, Addr(SEL_DATA), 1, 2)
  }

  /**
   * `video_if_switch_source`: the source index plus one goes into a one-bit
   * field, so the source toggles; the target bits stay.
   */
  method SwitchSource(dev: MipiDsiDev)
    modifies dev`bridge
    ensures DataSource(dev.bridge) == 1 - DataSource(old(dev.bridge))
    ensures DataTarget(dev.bridge) == DataTarget(old(dev.bridge))
    ensures SameExcept(dev.bridge, old(dev.bridge), {Addr(SEL_DATA)})
  {
    var s := ReadField(dev, SEL_DATA, 0, 1);
    ghost var before := dev.bridge;
    WriteField(dev, SEL_DATA, Low8(s + 1), 0, 1);
    LoadAfterStore(before, Addr(SEL_DATA), Low8(s + 1), 0, 1);
  }

  /** `video_if_switch_target`: the target becomes `(t + 1) % 3`; the source bit stays. */
  method SwitchTarget(dev: MipiDsiDev)
    modifies dev`bridge
    ensures DataTarget(dev.bridge) == (DataTarget(old(dev.bridge)) + 1) % 3
    ensures DataSource(dev.bridge) == DataSource(old(dev.bridge))
    ensures SameExcept(dev.bridge, old(dev.bridge), {Addr(SEL_DATA)})
  {
    var t := ReadField(dev, SEL_DATA, 1, 2);
    ghost var before := dev.bridge;
    WriteField(dev, SEL_DATA, (t + 1) % 3, 1, 2);
    LoadAfterStore(before, Addr(SEL_DATA), (t + 1) % 3, 1, 2);
  }

  // ---------------------------------------------------------------------
  // Canvas and timing fields

  /** `video_if_get_h_active`: CANVAS bits [15:0]. */
  function HActive(w: Window): bv32
  {
    LoadPart(w, Addr(CANVAS), 0, 16)
  }

  /** `video_if_get_v_active`: CANVAS bits [31:16]. */
  function VActive(w: Window): bv32
  {
    LoadPart(w, Addr(CANVAS), 16, 16)
  }

  /** `video_if_get_horizontal_blanking`: HBP_HSA bits [31:16]. */
  function HBlanking(w: Window): bv32
  {
    LoadPart(w, Addr(HBP_HSA), 16, 16)
  }

  /** `video_if_get_horizontal_sync`: HBP_HSA bits [15:0]. */
  function HSync(w: Window): bv32
  {
    LoadPart(w, Addr(HBP_HSA), 0, 16)
  }

  /** `video_if_get_vertical_blanking`: the 12-bit field [31:20], returned as a `uint8_t`. */
  function VBlanking(w: Window): bv32
  {
    Low8(LoadPart(w, Addr(VBP_VFP_VSA), 20, 12))
  }

  /** `video_if_get_vertical_front_porch`: the 11-bit field [18:8], returned as a `uint8_t`. */
  function VFrontPorch(w: Window): bv32
  {
    Low8(LoadPart(w, Addr(VBP_VFP_VSA), 8, 11))
  }

  /** `video_if_get_vertical_sync`: bits [7:0]. */
  function VSync(w: Window): bv32
  {
    LoadPart(w, Addr(VBP_VFP_VSA), 0, 8)
  }

  /** The frame height in lines that `video_if_fps` divides by. */
  function VTotal(w: Window): nat
  {
    VActive(w) as nat + VBlanking(w) as nat + VSync(w) as nat + VFrontPorch(w) as nat
  }

  /** The line time, in bridge clock ticks, for `fps` frames of `vTotal` lines. */
  function LineTime(fps: nat, vTotal: nat): (r: nat)
    requires fps * vTotal > 0
    ensures r <= 1000 * VIDEO_IF_FREQ
    ensures r * (fps * vTotal) <= 1000 * VIDEO_IF_FREQ < (r + 1) * (fps * vTotal)
  {
    (1000 * VIDEO_IF_FREQ) / (fps * vTotal)
  }

  /** `video_if_h_active`, `video_if_v_active`. */
  method SetHActive(dev: MipiDsiDev, value: bv32)
    requires value <= 0xFFFF
    modifies dev`bridge
    ensures HActive(dev.bridge) == value && VActive(dev.bridge) == VActive(old(dev.bridge))
    ensures SameExcept(dev.bridge, old(dev.bridge), {Addr(CANVAS)})
  {
    ghost var before := dev.bridge;
    WriteField(dev, CANVAS, value, 0, 16);
    LoadAfterStore(before, Addr(CANVAS), value, 0, 16);
    LowHalfKeepsHighHalf(before, Addr(CANVAS), value);
  }

  method SetVActive(dev: MipiDsiDev, value: bv32)
    requires value <= 0xFFFF
    modifies dev`bridge
    ensures VActive(dev.bridge) == value && HActive(dev.bridge) == HActive(old(dev.bridge))
    ensures SameExcept(dev.bridge, old(dev.bridge), {Addr(CANVAS)})
  {
    ghost var before := dev.bridge;
    WriteField(dev, CANVAS, value, 16, 16);
    LoadAfterStore(before, Addr(CANVAS), value, 16, 16);
    HighHalfKeepsLowHalf(before, Addr(CANVAS), value);
  }

  /** `video_if_horizontal_blanking`, `video_if_horizontal_sync`. */
  method SetHBlanking(dev: MipiDsiDev, hbp: bv32)
    requires hbp <= 0xFFFF
    modifies dev`bridge
    ensures HBlanking(dev.bridge) == hbp && HSync(dev.bridge) == HSync(old(dev.bridge))
    ensures SameExcept(dev.bridge, old(dev.bridge), {Addr(HBP_HSA)})
  {
    ghost var before := dev.bridge;
    WriteField(dev, HBP_HSA, hbp, 16, 16);
    LoadAfterStore(before, Addr(HBP_HSA), hbp, 16, 16);
    HighHalfKeepsLowHalf(before, Addr(HBP_HSA), hbp);
  }

  method SetHSync(dev: MipiDsiDev, hsa: bv32)
    requires hsa <= 0xFFFF
    modifies dev`bridge
    ensures HSync(dev.bridge) == hsa && HBlanking(dev.bridge) == HBlanking(old(dev.bridge))
    ensures SameExcept(dev.bridge, old(dev.bridge), {Addr(HBP_HSA)})
  {
    ghost var before := dev.bridge;
    WriteField(dev, HBP_HSA, hsa, 0, 16);
    LoadAfterStore(before, Addr(HBP_HSA), hsa, 0, 16);
    LowHalfKeepsHighHalf(before, Addr(HBP_HSA), hsa);
  }

  /** `video_if_vertical_sync`: field [7:0]. */
  method SetVSync(dev: MipiDsiDev, vsa: bv32)
    requires vsa <= 0xFF
    modifies dev`bridge
    ensures VSync(dev.bridge) == vsa
    ensures VBlanking(dev.bridge) == VBlanking(old(dev.bridge))
    ensures VFrontPorch(dev.bridge) == VFrontPorch(old(dev.bridge))
    ensures SameExcept(dev.bridge, old(dev.bridge), {Addr(VBP_VFP_VSA)})
  {
    ghost var before := dev.bridge;
    WriteField(dev, VBP_VFP_VSA, vsa, 0, 8);
    LoadAfterStore(before, Addr(VBP_VFP_VSA), vsa, 0, 8);
    SyncKeepsPorches(before, Addr(VBP_VFP_VSA), vsa);
  }

  /** `video_if_vertical_blanking`: field [31:20]. */
  method SetVBlanking(dev: MipiDsiDev, vbp: bv32)
    requires vbp <= 0xFF
    modifies dev`bridge
    ensures VBlanking(dev.bridge) == vbp && VSync(dev.bridge) == VSync(old(dev.bridge))
    ensures VFrontPorch(dev.bridge) == VFrontPorch(old(dev.bridge))
    ensures SameExcept(dev.bridge, old(dev.bridge), {Addr(VBP_VFP_VSA)})
  {
    ghost var before := dev.bridge;
    WriteField(dev, VBP_VFP_VSA, vbp, 20, 12);
    LoadAfterStore(before, Addr(VBP_VFP_VSA), vbp, 20, 12);
    VerticalFieldsKeepSync(before, Addr(VBP_VFP_VSA), vbp);
    BlankingKeepsFrontPorch(before, Addr(VBP_VFP_VSA), vbp);
  }

  /** `video_if_vertical_front_porch`: field [18:8]. */
  method SetVFrontPorch(dev: MipiDsiDev, vfp: bv32)
    requires vfp <= 0xFF
    modifies dev`bridge
    ensures VFrontPorch(dev.bridge) == vfp
    ensures VSync(dev.bridge) == VSync(old(dev.bridge))
    ensures VBlanking(dev.bridge) == VBlanking(old(dev.bridge))
    ensures SameExcept(dev.bridge, old(dev.bridge), {Addr(VBP_VFP_VSA)})
  {
    ghost var before := dev.bridge;
    WriteField(dev, VBP_VFP_VSA, vfp, 8, 11);
    LoadAfterStore(before, Addr(VBP_VFP_VSA), vfp, 8, 11);
    VerticalFieldsKeepSync(before, Addr(VBP_VFP_VSA), vfp);
    FrontPorchKeepsBlanking(before, Addr(VBP_VFP_VSA), vfp);
  }

  /**
   * `video_if_fps`: LINE_TIME takes the number of bridge clock ticks per line
   * for `fps` frames of the programmed frame height.  A zero rate or height
   * would divide by zero.
   */
  method Fps(dev: MipiDsiDev, fps: nat)
    requires fps < 256
    requires fps * VTotal(dev.bridge) > 0
    modifies dev`bridge
    ensures Word(dev.bridge, Addr(LINE_TIME)) == LineTime(fps, VTotal(old(dev.bridge))) as bv32
    ensures SameExcept(dev.bridge, old(dev.bridge), {Addr(LINE_TIME)})
  {
    var vTotal := VTotal(dev.bridge);
    var lineTime := LineTime(fps, vTotal);
    Write(dev, LINE_TIME, lineTime as bv32);
  }

  // ---------------------------------------------------------------------
  // Colour mode

  /**
   * `video_if_set_color_mode`: a code below `VIF_COLOR_CODE_MAX` is written
   * and 0 returned; any other code returns 1 and writes nothing.
   */
  method SetColorMode(dev: MipiDsiDev, code: nat) returns (r: int)
    modifies dev`bridge
    ensures r == 0 <==> code < VIF_COLOR_CODE_MAX
    ensures r == 0 || r == 1
    ensures r == 0 ==> dev.bridge == StoreWord(old(dev.bridge), Addr(DPICOLORMODE), code as bv32)
    ensures r == 1 ==> dev.bridge == old(dev.bridge)
  {
    if code < VIF_COLOR_CODE_MAX {
      Write(dev, DPICOLORMODE, code as bv32);
      return 0;
    }
    return 1;
  }

  /** `video_if_get_bits_per_pixel` on the colour mode byte. */
  function BitsPerPixel(mode: bv32): nat
  {
    if mode <= 2 then 16 else if mode <= 4 then 18 else 24
  }

  /** `video_if_get_pixel_config` on the colour mode byte. */
  function PixelConfig(mode: bv32): nat
  {
    if mode == 0 || mode == 3 then 1
    else if mode == 1 || mode == 4 then 2
    else if mode == 2 then 3
    else 0
  }

  /** `vif_color_coding_t`, named. */
  datatype VifColorCoding =
    | Code16Config1 | Code16Config2 | Code16Config3
    | Code18Config1 | Code18Config2
    | Code24

  function Ordinal(c: VifColorCoding): bv32
  {
    match c
    case Code16Config1 => 0
    case Code16Config2 => 1
    case Code16Config3 => 2
    case Code18Config1 => 3
    case Code18Config2 => 4
    case Code24 => 5
  }

  /** The bit depth a colour code names. */
  function NamedBits(c: VifColorCoding): nat
  {
    if c.Code24? then 24 else if c.Code18Config1? || c.Code18Config2? then 18 else 16
  }

  /** The configuration number a colour code names; the 24-bit code has none (0). */
  function NamedConfig(c: VifColorCoding): nat
  {
    match c
    case Code16Config1 => 1
    case Code18Config1 => 1
    case Code16Config2 => 2
    case Code18Config2 => 2
    case Code16Config3 => 3
    case Code24 => 0
  }

  /**
   * Reading the colour mode back names the same depth and configuration as
   * the code that was written; bytes above the last code read as 24 bpp with
   * no configuration.
   */
  lemma ColorModeDecodes(c: VifColorCoding, b: bv32)
    ensures BitsPerPixel(Ordinal(c)) == NamedBits(c)
    ensures PixelConfig(Ordinal(c)) == NamedConfig(c)
    ensures b >= VIF_COLOR_CODE_MAX as bv32 ==> BitsPerPixel(b) == 24 && PixelConfig(b) == 0
  {
  }

  /** `video_if_get_bits_per_pixel`: decodes the low byte of DPICOLORMODE. */
  method GetBitsPerPixel(dev: MipiDsiDev) returns (bpp: nat)
    ensures bpp in {16, 18, 24}
    ensures bpp == BitsPerPixel(Low8(Word(dev.bridge, Addr(DPICOLORMODE))))
  {
    var mode := Low8(Word(dev.bridge, Addr(DPICOLORMODE)));
    bpp := BitsPerPixel(mode);
  }

  /** `video_if_get_pixel_config`. */
  method GetPixelConfig(dev: MipiDsiDev) returns (cfg: nat)
    ensures cfg <= 3
    ensures cfg == PixelConfig(Low8(Word(dev.bridge, Addr(DPICOLORMODE))))
  {
    var mode := Low8(Word(dev.bridge, Addr(DPICOLORMODE)));
    cfg := PixelConfig(mode);
  }

  // ---------------------------------------------------------------------
  // Bridge set-up per display

  /** The bridge timing `video_if_config` programs for one display. */
  datatype BridgeTiming = BridgeTiming(
    hActive: bv32, hSync: bv32, hBlanking: bv32,
    vActive: bv32, vSync: bv32, vBlanking: bv32, vFrontPorch: bv32,
    /** LINE_TIME written directly, or computed from this frame rate. */
    lineTime: bv32, fps: nat)

  /** The table in `video_if_config`. */
  function Timing(mode: int): BridgeTiming
    requires KnownDisplay(mode)
  {
    if mode == TREMOLO_S then BridgeTiming(960, 20, 20, 540, 2, 1, 2, 0, 60)
    else if mode == TREMOLO_M then BridgeTiming(800, 20, 20, 480, 2, 1, 16, 5758, 0)
    else if mode == SHARP_LS045K3SX02 then BridgeTiming(800, 0, 0, 1280, 0, 2, 2, 0x845, 0)
    else BridgeTiming(800, 2, 13, 480, 15, 1, 15, 0x404, 0)
  }

  /** The canvas and timing fields of `w` read back as `t`. */
  predicate CanvasIs(w: Window, t: BridgeTiming)
  {
    && HActive(w) == t.hActive && VActive(w) == t.vActive
    && HSync(w) == t.hSync && HBlanking(w) == t.hBlanking
    && VSync(w) == t.vSync && VBlanking(w) == t.vBlanking
    && VFrontPorch(w) == t.vFrontPorch
  }

  /** Writing the line time and the pan registers keeps the canvas, the timing and the colour mode. */
  lemma CanvasKept(w1: Window, w2: Window, t: BridgeTiming)
    requires CanvasIs(w1, t)
    requires SameExcept(w2, w1, {Addr(LINE_TIME), Addr(PANX), Addr(PANY), Addr(PAN_VALID)})
    ensures CanvasIs(w2, t)
    ensures Word(w2, Addr(DPICOLORMODE)) == Word(w1, Addr(DPICOLORMODE))
  {
    assert Word(w2, Addr(CANVAS)) == Word(w1, Addr(CANVAS));
    assert Word(w2, Addr(HBP_HSA)) == Word(w1, Addr(HBP_HSA));
    assert Word(w2, Addr(VBP_VFP_VSA)) == Word(w1, Addr(VBP_VFP_VSA));
    assert Word(w2, Addr(DPICOLORMODE)) == Word(w1, Addr(DPICOLORMODE));
  }

  /** Writes the canvas and the horizontal and vertical timing of `t`. */
  method ProgramCanvas(dev: MipiDsiDev, t: BridgeTiming)
    requires t.hActive <= 0xFFFF && t.hSync <= 0xFFFF && t.hBlanking <= 0xFFFF
    requires t.vActive <= 0xFFFF && t.vSync <= 0xFF && t.vBlanking <= 0xFF && t.vFrontPorch <= 0xFF
    modifies dev`bridge
    ensures CanvasIs(dev.bridge, t)
    ensures SameExcept(dev.bridge, old(dev.bridge), {Addr(CANVAS), Addr(HBP_HSA), Addr(VBP_VFP_VSA)})
  {
    SetHActive(dev, t.hActive);
    SetHSync(dev, t.hSync);
    SetHBlanking(dev, t.hBlanking);
    SetVActive(dev, t.vActive);
    SetVSync(dev, t.vSync);
    SetVBlanking(dev, t.vBlanking);
    SetVFrontPorch(dev, t.vFrontPorch);
  }

  /** The displays other than TREMOLO_S: a fixed line time, then the pan origin. */
  method FixedLineTime(dev: MipiDsiDev, lineTime: bv32)
    modifies dev`bridge
    ensures Word(dev.bridge, Addr(LINE_TIME)) == lineTime
    ensures XCoord(dev.bridge) == 0 && YCoord(dev.bridge) == 0
    ensures SameExcept(dev.bridge, old(dev.bridge),
                       {Addr(LINE_TIME), Addr(PANX), Addr(PANY), Addr(PAN_VALID)})
  {
    Write(dev, LINE_TIME, lineTime);
    PanCoord(dev, 0, 0);
  }

  /** The colour mode and the display's canvas and timing. */
  method ProgramMode(dev: MipiDsiDev, t: BridgeTiming)
    requires t.hActive <= 0xFFFF && t.hSync <= 0xFFFF && t.hBlanking <= 0xFFFF
    requires t.vActive <= 0xFFFF && t.vSync <= 0xFF && t.vBlanking <= 0xFF && t.vFrontPorch <= 0xFF
    modifies dev`bridge
    ensures CanvasIs(dev.bridge, t)
    ensures Word(dev.bridge, Addr(DPICOLORMODE)) == VIF_COLOR_CODE_24BIT as bv32
    ensures SameExcept(dev.bridge, old(dev.bridge), {Addr(DPICOLORMODE), Addr(CANVAS), Addr(HBP_HSA), Addr(VBP_VFP_VSA)})
  {
    var _ := SetColorMode(dev, VIF_COLOR_CODE_24BIT);
    ghost var coloured := dev.bridge;
    ProgramCanvas(dev, t);
    assert Word(dev.bridge, Addr(DPICOLORMODE)) == Word(coloured, Addr(DPICOLORMODE));
  }

  /** The bridge writes of `video_if_config` for a known display. */
  method ProgramBridge(dev: MipiDsiDev, mode: int)
    requires KnownDisplay(mode)
    modifies dev`bridge
    ensures BridgeConfigured(dev.bridge, mode)
    ensures SameExcept(dev.bridge, old(dev.bridge), ConfigRegs())
  {
    ProgramMode(dev, Timing(mode));
    ghost var programmed := dev.bridge;
    ProgramLineTime(dev, mode);
    SameExceptChain(old(dev.bridge), programmed, dev.bridge,
                    {Addr(DPICOLORMODE), Addr(CANVAS), Addr(HBP_HSA), Addr(VBP_VFP_VSA)},
                    {Addr(LINE_TIME), Addr(PANX), Addr(PANY), Addr(PAN_VALID)});
  }

  /**
   * `video_if_config`: for a known display the bridge gets the 24-bit colour
   * mode, the display's canvas and timing, and its line time (computed from
   * 60 fps for TREMOLO_S, a fixed constant otherwise, with the pan origin
   * reset to 0,0); the line time read back is kept in `dpi_video.hline`.
   * An unknown display returns -1 and changes nothing.
   */
  method Config(dev: MipiDsiDev, mode: int) returns (r: int)
    modifies dev`bridge, dev`dpiVideo
    ensures !KnownDisplay(mode) ==> r == -1 && dev.bridge == old(dev.bridge)
                                    && dev.dpiVideo == old(dev.dpiVideo)
    ensures KnownDisplay(mode) ==> r == 0
    ensures KnownDisplay(mode) ==>
      && BridgeConfigured(dev.bridge, mode)
      && dev.dpiVideo == old(dev.dpiVideo).(hline := Word(dev.bridge, Addr(LINE_TIME)) as int)
    ensures KnownDisplay(mode) ==> SameExcept(dev.bridge, old(dev.bridge), ConfigRegs())
  {
    if !KnownDisplay(mode) {
      return -1;
    }
    ProgramBridge(dev, mode);
    dev.dpiVideo := dev.dpiVideo.(hline := Word(dev.bridge, Addr(LINE_TIME)) as int);
    r := 0;
  }

  /** The bridge registers `video_if_config` writes. */
  function ConfigRegs(): set<nat>
  {
    {Addr(DPICOLORMODE), Addr(CANVAS), Addr(HBP_HSA), Addr(VBP_VFP_VSA),
     Addr(LINE_TIME), Addr(PANX), Addr(PANY), Addr(PAN_VALID)}
  }

  /**
   * A bridge as `video_if_config` leaves it for display `mode`: 24-bit
   * colour, the display's canvas and timing, and its line time (computed
   * from the frame rate for TREMOLO_S, a fixed constant with the pan origin
   * at 0,0 otherwise).
   */
  ghost predicate BridgeConfigured(w: Window, mode: int)
    requires KnownDisplay(mode)
  {
    var t := Timing(mode);
    && Word(w, Addr(DPICOLORMODE)) == VIF_COLOR_CODE_24BIT as bv32
    && CanvasIs(w, t)
    && (if mode == TREMOLO_S
        then Word(w, Addr(LINE_TIME)) == LineTime(t.fps, VTotal(w)) as bv32
        else Word(w, Addr(LINE_TIME)) == t.lineTime && XCoord(w) == 0 && YCoord(w) == 0)
  }

  /** Turning eDPI on keeps a configured bridge configured, with its line time. */
  lemma ConfiguredKept(w1: Window, w2: Window, mode: int)
    requires KnownDisplay(mode) && BridgeConfigured(w1, mode)
    requires SameExcept(w2, w1, {Addr(EDPICTRL)})
    ensures BridgeConfigured(w2, mode)
    ensures Word(w2, Addr(LINE_TIME)) == Word(w1, Addr(LINE_TIME))
  {
    assert Word(w2, Addr(CANVAS)) == Word(w1, Addr(CANVAS));
    assert Word(w2, Addr(HBP_HSA)) == Word(w1, Addr(HBP_HSA));
    assert Word(w2, Addr(VBP_VFP_VSA)) == Word(w1, Addr(VBP_VFP_VSA));
    assert Word(w2, Addr(DPICOLORMODE)) == Word(w1, Addr(DPICOLORMODE));
    assert Word(w2, Addr(LINE_TIME)) == Word(w1, Addr(LINE_TIME));
    assert Word(w2, Addr(PANX)) == Word(w1, Addr(PANX));
    assert Word(w2, Addr(PANY)) == Word(w1, Addr(PANY));
    assert CanvasIs(w2, Timing(mode)) && VTotal(w2) == VTotal(w1);
    assert XCoord(w2) == XCoord(w1) && YCoord(w2) == YCoord(w1);
  }

  /** The line-time step of `video_if_config`, on a bridge that holds the display's canvas. */
  method ProgramLineTime(dev: MipiDsiDev, mode: int)
    requires KnownDisplay(mode) && CanvasIs(dev.bridge, Timing(mode))
    requires Word(dev.bridge, Addr(DPICOLORMODE)) == VIF_COLOR_CODE_24BIT as bv32
    modifies dev`bridge
    ensures BridgeConfigured(dev.bridge, mode)
    ensures SameExcept(dev.bridge, old(dev.bridge), {Addr(LINE_TIME), Addr(PANX), Addr(PANY), Addr(PAN_VALID)})
  {
    var t := Timing(mode);
    ghost var programmed := dev.bridge;
    if mode == TREMOLO_S {
      TremoloHeight(dev.bridge);
      Fps(dev, t.fps);
    } else {
      FixedLineTime(dev, t.lineTime);
    }
    CanvasKept(programmed, dev.bridge, t);
  }

  /** The TREMOLO_S canvas is 545 lines high: 540 active, 1 blanking, 2 sync, 2 front porch. */
  lemma TremoloHeight(w: Window)
    requires CanvasIs(w, Timing(TREMOLO_S))
    ensures VTotal(w) == 545
  {
  }

  /** TREMOLO_S: 540 + 1 + 2 + 2 = 545 lines at 60 fps give a line time of 764 ticks. */
  lemma TremoloLineTime()
    ensures LineTime(60, 540 + 1 + 2 + 2) == 764
  {
  }

  // ---------------------------------------------------------------------
  // Zoom and pan counters

  /** The statics `zoom_g`, `panx_g` and `pany_g`. */
  class PanZoom {
    var zoom: int
    var panx: int
    var pany: int

    /** The ranges the update helpers keep the counters in. */
    predicate Valid()
      reads this
    {
      0 <= zoom <= 10 && 0 <= panx <= 150 && 0 <= pany <= 150
    }

    constructor ()
      ensures Valid() && zoom == 0 && panx == 0 && pany == 0
    {
      zoom, panx, pany := 0, 0, 0;
    }

    /**
     * `video_if_update_zoom`: 1 zooms in (up to 10) and nudges `panx_g` up
     * while it is below 100; 0 zooms out (down to 0) and nudges `panx_g`
     * down while it is above 0; any other argument changes nothing.
     */
    method UpdateZoom(arg: int)
      requires Valid()
      modifies this
      ensures Valid()
      ensures pany == old(pany)
      ensures arg == 1 ==> zoom == (if old(zoom) < 10 then old(zoom) + 1 else old(zoom))
                           && panx == (if old(zoom) < 10 && old(panx) < 100 then old(panx) + 1 else old(panx))
      ensures arg == 0 ==> zoom == (if old(zoom) > 0 then old(zoom) - 1 else old(zoom))
                           && panx == (if old(zoom) > 0 && old(panx) > 0 then old(panx) - 1 else old(panx))
      ensures arg != 0 && arg != 1 ==> zoom == old(zoom) && panx == old(panx)
    {
      if arg == 1 {
        if zoom < 10 {
          zoom := zoom + 1;
          if panx < 100 {
            panx := panx + 1;
          }
        }
      } else if arg == 0 {
        if zoom > 0 {
          zoom := zoom - 1;
          if panx > 0 {
            panx := panx - 1;
          }
        }
      }
    }

    /** `video_if_update_panx`: 1 steps up to 150, 0 steps down to 0, anything else is ignored. */
    method UpdatePanx(arg: int)
      requires Valid()
      modifies this`panx
      ensures Valid()
      ensures panx == if arg == 1 && old(panx) < 150 then old(panx) + 1
                      else if arg == 0 && old(panx) > 0 then old(panx) - 1
                      else old(panx)
    {
      if arg == 1 {
        if panx < 150 {
          panx := panx + 1;
        }
      } else if arg == 0 {
        if panx > 0 {
          panx := panx - 1;
        }
      }
    }

    /** `video_if_update_pany`: as `UpdatePanx`, on `pany_g`. */
    method UpdatePany(arg: int)
      requires Valid()
      modifies this`pany
      ensures Valid()
      ensures pany == if arg == 1 && old(pany) < 150 then old(pany) + 1
                      else if arg == 0 && old(pany) > 0 then old(pany) - 1
                      else old(pany)
    {
      if arg == 1 {
        if pany < 150 {
          pany := pany + 1;
        }
      } else if arg == 0 {
        if pany > 0 {
          pany := pany - 1;
        }
      }
    }

    /**
     * `video_if_update_position`, corrected: ZOOM_OUT takes `zoom_g`, PANY and
     * PANX take `pany_g` and `panx_g`, and PAN_VALID ends at 1 (the delays
     * between its writes are not modelled).
     */
    method UpdatePosition(dev: MipiDsiDev)
      requires Valid()
      modifies dev`bridge
      ensures Word(dev.bridge, Addr(ZOOM_OUT)) == zoom as bv32
      ensures XCoord(dev.bridge) == panx as bv32 && YCoord(dev.bridge) == pany as bv32
      ensures Word(dev.bridge, Addr(PAN_VALID)) == 1
      ensures SameExcept(dev.bridge, old(dev.bridge), {Addr(ZOOM_OUT), Addr(PANX), Addr(PANY), Addr(PAN_VALID)})
    {
      var z, x, y := zoom as bv32, panx as bv32, pany as bv32;
      CounterCoord(panx);
      CounterCoord(pany);
      ZoomLatch(dev, z);
      ghost var zoomed := dev.bridge;
      PanLatch(dev, x, y);
      assert Word(dev.bridge, Addr(ZOOM_OUT)) == Word(zoomed, Addr(ZOOM_OUT));
    }
  }
}
