/**
 * `dsih_framebuffer.c`: the framebuffer front end of the DSI host.  It keeps
 * a two-entry registry of devices, packs palette entries, and through its
 * ioctl applies DPI and eDPI parameter sets with rollback to their shadow
 * copies, and keeps a sticky receive-enable flag.
 */
module DsiFramebuffer {
  import opened Optional
  import opened RegWindow
  import opened DsiDev
  import DsiDisplays
  import DsiCore
  import DsiVideo

  /** Size of `pdev_array`. */
  const FB_SLOTS: nat := 2

  /** The screen mode `init_frame_buffer` sets up: 640x480 RGB565. */
  const DefaultVar := FbVar(
    xres := 640, yres := 480, xresVirtual := 640, yresVirtual := 480,
    xoffset := 0, yoffset := 0, bitsPerPixel := 16, grayscale := 0,
    height := -1, width := -1, pixclock := 20000,
    leftMargin := 64, rightMargin := 64, upperMargin := 32, lowerMargin := 32,
    hsyncLen := 64, vsyncLen := 2)

  // ---------------------------------------------------------------------
  // Parameter sets and their shadow copies

  /** The shadow agrees with the current set on every field a copy carries. */
  predicate DpiInSync(cur: DpiVideo, shadow: DpiVideo)
  {
    DsiDisplays.CopyDpi(cur, shadow) == shadow
  }

  predicate EdpiInSync(cur: CmdModeVideo, shadow: CmdModeVideo)
  {
    DsiDisplays.CopyEdpi(cur, shadow) == shadow
  }

  /**
   * The DPI current and shadow sets after an attempt to apply `cur`:
   * success saves `cur` into the shadow, failure restores `cur` from it.
   */
  function DpiOutcome(cur: DpiVideo, shadow: DpiVideo, ok: bool): (DpiVideo, DpiVideo)
  {
    if ok then (cur, DsiDisplays.CopyDpi(cur, shadow))
    else (DsiDisplays.CopyDpi(shadow, cur), shadow)
  }

  /** The eDPI sets after an attempt: success saves, failure keeps both as they are. */
  function EdpiOutcome(cur: CmdModeVideo, shadow: CmdModeVideo, ok: bool): (CmdModeVideo, CmdModeVideo)
  {
    if ok then (cur, DsiDisplays.CopyEdpi(cur, shadow)) else (cur, shadow)
  }

  /** Whatever the outcome, a DPI attempt leaves the two sets in sync. */
  lemma DpiOutcomeInSync(cur: DpiVideo, shadow: DpiVideo, ok: bool)
    ensures DpiInSync(DpiOutcome(cur, shadow, ok).0, DpiOutcome(cur, shadow, ok).1)
  {
    if ok {
      DsiDisplays.CopyIdempotent(cur, shadow, DsiCore.InitialEdpi(DsiDev.ZeroCmd), DsiDev.ZeroCmd);
    } else {
      DsiDisplays.DpiRollbackRestores(shadow, cur);
    }
  }

  /** A failed DPI attempt leaves the shadow alone and the current set equal to it. */
  lemma DpiFailureRestores(cur: DpiVideo, shadow: DpiVideo)
    ensures DpiOutcome(cur, shadow, false).1 == shadow
    ensures var c := DpiOutcome(cur, shadow, false).0;
      c.(displayType := shadow.displayType, receiveAckPackets := shadow.receiveAckPackets,
         dataEnPolarity := shadow.dataEnPolarity, hline := shadow.hline) == shadow
  {
  }

  /** A successful eDPI attempt leaves the sets in sync... */
  lemma EdpiSuccessInSync(cur: CmdModeVideo, shadow: CmdModeVideo)
    ensures EdpiInSync(EdpiOutcome(cur, shadow, true).0, EdpiOutcome(cur, shadow, true).1)
  {
    DsiDisplays.CopyIdempotent(DsiDev.ZeroDpi, DsiDev.ZeroDpi, cur, shadow);
  }

  /** ...but a failed one is not rolled back, so the sets can disagree afterwards. */
  lemma EdpiFailureMayDiverge()
    ensures exists cur, shadow :: !EdpiInSync(EdpiOutcome(cur, shadow, false).0,
                                              EdpiOutcome(cur, shadow, false).1)
  {
    var shadow := DsiDev.ZeroCmd;
    var cur := shadow.(lp := 1);
    assert DsiDisplays.CopyEdpi(cur, shadow).lp == 1;
    assert !EdpiInSync(EdpiOutcome(cur, shadow, false).0, EdpiOutcome(cur, shadow, false).1);
  }

  // ---------------------------------------------------------------------
  // Sticky receive enable

  /** A C `uint8_t`. */
  newtype uint8 = x: int | 0 <= x < 256

  /** `rx_en = flag ? 1 : rx_en`. */
  function Sticky(rx: uint8, flag: uint8): (r: uint8)
    ensures flag != 0 ==> r == 1
    ensures flag == 0 ==> r == rx
  {
    if flag != 0 then 1 else rx
  }

  /** Once on, the receive enable stays on whatever later flags say. */
  lemma {:induction false} StickyStaysOn(rx: uint8, flags: seq<uint8>)
    requires rx != 0
    ensures StickyAll(rx, flags) != 0
    decreases |flags|
  {
    if flags != [] {
      StickyStaysOn(Sticky(rx, flags[0]), flags[1..]);
    }
  }

  /** The flag after a run of ACK/ECC/EOTP commands with the given flags. */
  function StickyAll(rx: uint8, flags: seq<uint8>): uint8
    decreases |flags|
  {
    if flags == [] then rx else StickyAll(Sticky(rx, flags[0]), flags[1..])
  }

  /** The low byte of an `int` copied into a `uint8_t` static (little endian). */
  function LowByte(v: int): uint8
  {
    (v % 256) as uint8
  }

  /** The statics `rx_en`, `ack_en`, `ecc_en`, `eotp_tx_en` and `eotp_rx_en`. */
  datatype Flags = Flags(rx: uint8, ack: uint8, ecc: uint8, eotpTx: uint8, eotpRx: uint8)

  /**
   * The flags after command `c`: `FB_MIPI_RX` sets the receive enable, an
   * ACK, ECC or EOTP command sets its own flag and switches the receive
   * enable on when that flag is non-zero, and no other command touches them.
   */
  function FlagStep(f: Flags, c: Command): (r: Flags)
    ensures !c.Rx? && f.rx != 0 ==> r.rx != 0
    ensures c.Rx? ==> r == f.(rx := LowByte(c.value))
    ensures c.Ack? ==> r.(rx := f.rx) == f.(ack := LowByte(c.flag)) && (r.ack != 0 ==> r.rx == 1)
    ensures c.Ecc? ==> r.(rx := f.rx) == f.(ecc := LowByte(c.flag)) && (r.ecc != 0 ==> r.rx == 1)
    ensures c.EotpTx? ==> r.(rx := f.rx) == f.(eotpTx := LowByte(c.flag)) && (r.eotpTx != 0 ==> r.rx == 1)
    ensures c.EotpRx? ==> r.(rx := f.rx) == f.(eotpRx := LowByte(c.flag)) && (r.eotpRx != 0 ==> r.rx == 1)
    ensures !(c.Rx? || c.Ack? || c.Ecc? || c.EotpTx? || c.EotpRx?) ==> r == f
  {
    match c
    case Rx(value) => f.(rx := LowByte(value))
    case Ack(flag) => f.(ack := LowByte(flag), rx := Sticky(f.rx, LowByte(flag)))
    case Ecc(flag) => f.(ecc := LowByte(flag), rx := Sticky(f.rx, LowByte(flag)))
    case EotpTx(flag) => f.(eotpTx := LowByte(flag), rx := Sticky(f.rx, LowByte(flag)))
    case EotpRx(flag) => f.(eotpRx := LowByte(flag), rx := Sticky(f.rx, LowByte(flag)))
    case _ => f
  }

  /** The flags after a run of commands, one `FlagStep` each. */
  function FlagRun(f: Flags, cs: seq<Command>): Flags
    decreases |cs|
  {
    if cs == [] then f else FlagRun(FlagStep(f, cs[0]), cs[1..])
  }

  /** Once on, the receive enable stays on through any run of commands without an `FB_MIPI_RX`. */
  lemma {:induction false} FlagRunKeepsRx(f: Flags, cs: seq<Command>)
    requires f.rx != 0 && forall i :: 0 <= i < |cs| ==> !cs[i].Rx?
    ensures FlagRun(f, cs).rx != 0
    decreases |cs|
  {
    if cs != [] {
      FlagRunKeepsRx(FlagStep(f, cs[0]), cs[1..]);
    }
  }

  /** Along a run of ACK commands the receive enable follows `StickyAll` of their flags. */
  lemma {:induction false} AckRunIsSticky(f: Flags, flags: seq<int>)
    ensures FlagRun(f, AckRun(flags)).rx == StickyAll(f.rx, LowBytes(flags))
    decreases |flags|
  {
    if flags != [] {
      assert AckRun(flags)[1..] == AckRun(flags[1..]);
      AckRunIsSticky(FlagStep(f, Ack(flags[0])), flags[1..]);
    }
  }

  /** The ACK commands with the given flags, in order. */
  function AckRun(flags: seq<int>): (cs: seq<Command>)
    ensures |cs| == |flags| && forall i :: 0 <= i < |flags| ==> cs[i] == Ack(flags[i])
  {
    if flags == [] then [] else [Ack(flags[0])] + AckRun(flags[1..])
  }

  /** The low bytes of the given `int`s. */
  function LowBytes(vs: seq<int>): (r: seq<uint8>)
    ensures |r| == |vs| && forall i :: 0 <= i < |vs| ==> r[i] == LowByte(vs[i])
  {
    if vs == [] then [] else [LowByte(vs[0])] + LowBytes(vs[1..])
  }

  // ---------------------------------------------------------------------
  // Palette

  /** `struct fb_bitfield`: where a colour channel sits in a pixel. */
  datatype Bitfield = Bitfield(offset: bv32, length: bv32)

  /** A channel's layout is usable by the packing: a shift of at most 16, inside a word. */
  predicate ChannelLayout(f: Bitfield)
  {
    f.length <= 16 && f.offset < 32
  }

  /** A transparency layout: a mask of `length` bits inside a word. */
  predicate TranspLayout(f: Bitfield)
  {
    f.length < 32 && f.offset < 32
  }

  /** A 16-bit colour component reduced to its top `f.length` bits, moved to `f.offset`. */
  function Channel(v: bv32, f: Bitfield): bv32
    requires ChannelLayout(f)
  {
    (v >> (16 - f.length)) << f.offset
  }

  /** All `f.length` bits of the field `f` set. */
  function TranspMask(f: Bitfield): bv32
    requires TranspLayout(f)
  {
    ((1 << f.length) - 1) << f.offset
  }

  /**
   * The palette word for one colour, as `fb_mipi_setcolreg` packs it.  When the layout has a transparency
   * channel all its bits are set; the `transp` argument is not used.
   */
  function PaletteEntry(red: bv32, green: bv32, blue: bv32,
                        r: Bitfield, g: Bitfield, b: Bitfield, t: Bitfield): bv32
    requires ChannelLayout(r) && ChannelLayout(g) && ChannelLayout(b) && TranspLayout(t)
  {
    var value := Channel(red, r) | Channel(green, g) | Channel(blue, b);
    if t.length > 0 then value | TranspMask(t) else value
  }

  /**
   * A layout with a transparency channel makes every entry opaque: all the
   * channel's bits are set whatever the colour; without one the entry is
   * just the three colour channels.
   */
  lemma TranspBitsSet(red: bv32, green: bv32, blue: bv32, r: Bitfield, g: Bitfield, b: Bitfield, t: Bitfield)
    requires ChannelLayout(r) && ChannelLayout(g) && ChannelLayout(b) && TranspLayout(t)
    ensures var e := PaletteEntry(red, green, blue, r, g, b, t);
      && (t.length > 0 ==> e & TranspMask(t) == TranspMask(t))
      && (t.length == 0 ==> e == Channel(red, r) | Channel(green, g) | Channel(blue, b))
  {
  }

  /**
   * In the RGB565 layout of the 16-bit default mode (red 11/5, green 5/6,
   * blue 0/5, no transparency) the entry of 16-bit components fits in 16
   * bits and each field holds the top bits of its component: the packing
   * loses only the low bits.
   */
  lemma Rgb565Recovered(red: bv32, green: bv32, blue: bv32)
    requires red < 0x1_0000 && green < 0x1_0000 && blue < 0x1_0000
    ensures var e := PaletteEntry(red, green, blue, Bitfield(11, 5), Bitfield(5, 6), Bitfield(0, 5), Bitfield(0, 0));
      && e < 0x1_0000
      && e >> 11 == red >> 11
      && (e >> 5) & 0x3F == green >> 10
      && e & 0x1F == blue >> 11
  {
    Entry565(red, green, blue);
    Packed565(red, green, blue);
  }

  // The RGB565 facts are split per channel so that each bit-vector query
  // has only constant shifts.

  lemma Entry565(red: bv32, green: bv32, blue: bv32)
    ensures PaletteEntry(red, green, blue, Bitfield(11, 5), Bitfield(5, 6), Bitfield(0, 5), Bitfield(0, 0))
            == ((red >> 11) << 11) | ((green >> 10) << 5) | (blue >> 11)
  {
    Red565At(red);
    Green565At(green);
    Blue565At(blue);
  }

  lemma Red565At(v: bv32)
    ensures Channel(v, Bitfield(11, 5)) == (v >> 11) << 11
  {
  }

  lemma Green565At(v: bv32)
    ensures Channel(v, Bitfield(5, 6)) == (v >> 10) << 5
  {
  }

  lemma Blue565At(v: bv32)
    ensures Channel(v, Bitfield(0, 5)) == v >> 11
  {
  }

  lemma Packed565(red: bv32, green: bv32, blue: bv32)
    requires red < 0x1_0000 && green < 0x1_0000 && blue < 0x1_0000
    ensures var e := ((red >> 11) << 11) | ((green >> 10) << 5) | (blue >> 11);
      && e < 0x1_0000
      && e >> 11 == red >> 11
      && (e >> 5) & 0x3F == green >> 10
      && e & 0x1F == blue >> 11
  {
  }

  /**
   * `fb_mipi_setcolreg`: entries 0..15 of the pseudo palette take the packed
   * colour; a larger `regno` is refused with -EINVAL and nothing written.
   */
  method SetColReg(pal: array<bv32>, regno: nat, red: bv32, green: bv32, blue: bv32, transp: bv32,
                   r: Bitfield, g: Bitfield, b: Bitfield, t: Bitfield) returns (ret: int)
    requires pal.Length == 16
    requires ChannelLayout(r) && ChannelLayout(g) && ChannelLayout(b) && TranspLayout(t)
    modifies pal
    ensures regno >= 16 ==> ret == -EINVAL && pal[..] == old(pal[..])
    ensures regno < 16 ==>
              ret == 0 && pal[..] == old(pal[..])[regno := PaletteEntry(red, green, blue, r, g, b, t)]
  {
    if regno >= 16 {
      return -EINVAL;
    }
    pal[regno] := PaletteEntry(red, green, blue, r, g, b, t);
    ret := 0;
  }

  /** `fb_mipi_read`: nothing is ever read. */
  function Read(count: nat): (r: int)
    ensures r == 0
  {
    0
  }

  /** `fb_mipi_write`: every byte is accepted and dropped. */
  function Write(count: nat): (r: int)
    ensures r == count
  {
    count
  }

  // ---------------------------------------------------------------------
  // The ioctl cases with state

  /**
   * `FB_MIPI_DPI_WRITE` once the user's set is in `dev.dpiVideo`, and the
   * tail of `FB_MIPI_DPI_PRE_CONFIG`.  `transitionOk` is whether
   * `dsi_get_transition_times` accepted the clocks and `dpiRet` what
   * `mipi_dsih_dpi_video` returned (both foreign).  Success resets the
   * controller and saves the set; failure restores it from the shadow.
   */
  method ApplyDpi(dev: MipiDsiDev, transitionOk: bool, dpiRet: int)
    modifies dev`dpiVideo, dev`dpiVideoOld, dev`resets
    ensures (dev.dpiVideo, dev.dpiVideoOld)
            == DpiOutcome(old(dev.dpiVideo), old(dev.dpiVideoOld), transitionOk && dpiRet == 0)
    ensures dev.resets == old(dev.resets) + (if transitionOk && dpiRet == 0 then 1 else 0)
  {
    if !transitionOk {
      dev.dpiVideo := DsiDisplays.CopyDpi(dev.dpiVideoOld, dev.dpiVideo);
    } else if dpiRet != 0 {
      dev.dpiVideo := DsiDisplays.CopyDpi(dev.dpiVideoOld, dev.dpiVideo);
    } else {
      dev.resets := dev.resets + 1;
      dev.dpiVideoOld := DsiDisplays.CopyDpi(dev.dpiVideo, dev.dpiVideoOld);
    }
  }

  /**
   * The tail of `FB_MIPI_EDPI_WRITE` and `FB_MIPI_EDPI_PRE_CONFIG`: the PHY
   * is configured (foreign, only logged on failure), then when
   * `mipi_dsih_edpi_video` succeeds the controller is reset and the set
   * saved; on failure nothing is restored.
   */
  method ApplyEdpi(dev: MipiDsiDev, edpiOk: bool)
    modifies dev`cmdModeVideoOld, dev`resets
    ensures (dev.cmdModeVideo, dev.cmdModeVideoOld)
            == EdpiOutcome(dev.cmdModeVideo, old(dev.cmdModeVideoOld), edpiOk)
    ensures dev.resets == old(dev.resets) + (if edpiOk then 1 else 0)
  {
    if edpiOk {
      dev.resets := dev.resets + 1;
      dev.cmdModeVideoOld := DsiDisplays.CopyEdpi(dev.cmdModeVideo, dev.cmdModeVideoOld);
    }
  }

  /**
   * The ioctl commands the model follows, with what the user passes and
   * what the foreign controller calls report.
   */
  datatype Command =
    | CoreRead(address: bv32)
    | CoreWrite(address: bv32, data: bv32)
    | Vif(kind: VifKind, param: int)
    | DpiWrite(params: DpiVideo, transitionOk: bool, dpiRet: int)
    | DpiPreConfig(screen: int, lanes: int, transitionOk: bool, dpiRet: int)
    | EdpiWrite(cmdParams: CmdModeVideo, edpiOk: bool)
    | EdpiPreConfig(display: int, edpiOk: bool)
    | PlatformInit(display: int, videoMode: int, platformLanes: int)
    | Rx(value: int)
    | Ack(flag: int)
    | Ecc(flag: int)
    | EotpTx(flag: int)
    | EotpRx(flag: int)
    | Phy(phyLanes: int, outputFreq: int)
    /** Any other command, known or not: forwarded to foreign code or only logged. */
    | Other

  /**
   * The `FB_MIPI_VIF_*` commands, each handing the user's `int` to one
   * bridge function: TEST, HRES, HBP, HSYNC, LTIME, FPS, VRES, VBP, VFP,
   * VSYNC, PSEL, BPP, PCONF, EDPI, TE and PRE.
   */
  datatype VifKind =
    | VifTest | VifHres | VifHbp | VifHsync | VifLtime | VifFps | VifVres | VifVbp
    | VifVfp | VifVsync | VifPsel | VifBpp | VifPconf | VifEdpi | VifTe | VifPre

  /** An `int` passed as a `uint8_t`. */
  function U8(v: int): (r: bv32)
    ensures r <= 0xFF
  {
    (v % 0x100) as bv32
  }

  /** An `int` passed as a `uint16_t`. */
  function U16(v: int): (r: bv32)
    ensures r <= 0xFFFF
  {
    (v % 0x1_0000) as bv32
  }

  /** An `int` passed as an `unsigned` or as the unsigned colour-code enum. */
  function Unsigned(v: int): nat
  {
    v % 0x1_0000_0000
  }

  /** An `int` passed as a `uint32_t`. */
  function U32(v: int): bv32
  {
    Unsigned(v) as bv32
  }

  /** `video_if_fps` divides by the rate times the frame height; it is defined only when neither is 0. */
  predicate FpsDefined(w: Window, param: int)
  {
    U8(param) as nat * DsiVideo.VTotal(w) > 0
  }

  /** The DPI set and its shadow are those of `v`. */
  predicate DpiKept(v: DevView, v': DevView)
  {
    v'.dpiVideo == v.dpiVideo && v'.dpiVideoOld == v.dpiVideoOld
  }

  predicate EdpiKept(v: DevView, v': DevView)
  {
    v'.cmdModeVideo == v.cmdModeVideo && v'.cmdModeVideoOld == v.cmdModeVideoOld
  }

  predicate PhyKept(v: DevView, v': DevView)
  {
    v'.phyLanes == v.phyLanes && v'.phyOutputFreq == v.phyOutputFreq
  }

  /** The bridge `w'` is `w` with `value` stored in register `reg`. */
  predicate Stored(w: Window, w': Window, reg: nat, value: bv32)
  {
    w' == StoreWord(w, DsiVideo.Addr(reg), value)
  }

  /**
   * The bridge register and the value TEST, PSEL, LTIME and TE store: the
   * test mode and phase select take a `uint8_t`, the line time and the
   * tearing-effect control a 32-bit value.
   */
  function VifStore(kind: VifKind, param: int): (nat, bv32)
    requires kind.VifTest? || kind.VifPsel? || kind.VifLtime? || kind.VifTe?
  {
    match kind
    case VifTest => (DsiVideo.TESTMODE, U8(param))
    case VifPsel => (DsiVideo.PHASE_SEL, U8(param))
    case VifLtime => (DsiVideo.LINE_TIME, U32(param))
    case VifTe => (DsiVideo.TECONTROL, U32(param))
  }

  /**
   * The timing-field commands: HRES and VRES set a `uint16_t` canvas field,
   * HBP and HSYNC a `uint16_t` field of HBP_HSA, each keeping the field it
   * shares the register with; VBP, VFP and VSYNC set a `uint8_t` field of
   * VBP_VFP_VSA (VBP and VFP keep the sync width, VFP the blanking too).
   */
  ghost predicate TimingSet(kind: VifKind, param: int, w: Window, w': Window)
  {
    match kind
    case VifHres =>
      && DsiVideo.HActive(w') == U16(param) && DsiVideo.VActive(w') == DsiVideo.VActive(w)
      && SameExcept(w', w, {DsiVideo.Addr(DsiVideo.CANVAS)})
    case VifVres =>
      && DsiVideo.VActive(w') == U16(param) && DsiVideo.HActive(w') == DsiVideo.HActive(w)
      && SameExcept(w', w, {DsiVideo.Addr(DsiVideo.CANVAS)})
    case VifHbp =>
      && DsiVideo.HBlanking(w') == U16(param) && DsiVideo.HSync(w') == DsiVideo.HSync(w)
      && SameExcept(w', w, {DsiVideo.Addr(DsiVideo.HBP_HSA)})
    case VifHsync =>
      && DsiVideo.HSync(w') == U16(param) && DsiVideo.HBlanking(w') == DsiVideo.HBlanking(w)
      && SameExcept(w', w, {DsiVideo.Addr(DsiVideo.HBP_HSA)})
    case VifVbp =>
      && DsiVideo.VBlanking(w') == U8(param) && DsiVideo.VSync(w') == DsiVideo.VSync(w)
      && DsiVideo.VFrontPorch(w') == DsiVideo.VFrontPorch(w)
      && SameExcept(w', w, {DsiVideo.Addr(DsiVideo.VBP_VFP_VSA)})
    case VifVfp =>
      && DsiVideo.VFrontPorch(w') == U8(param)
      && DsiVideo.VSync(w') == DsiVideo.VSync(w) && DsiVideo.VBlanking(w') == DsiVideo.VBlanking(w)
      && SameExcept(w', w, {DsiVideo.Addr(DsiVideo.VBP_VFP_VSA)})
    case VifVsync =>
      && DsiVideo.VSync(w') == U8(param)
      && DsiVideo.VBlanking(w') == DsiVideo.VBlanking(w) && DsiVideo.VFrontPorch(w') == DsiVideo.VFrontPorch(w)
      && SameExcept(w', w, {DsiVideo.Addr(DsiVideo.VBP_VFP_VSA)})
    case _ => false
  }

  /** `video_if_set_color_mode` moved the bridge from `w` to `w'`: a code of 6 or more writes nothing. */
  predicate ColorModeSet(w: Window, w': Window, code: nat)
  {
    if code < DsiVideo.VIF_COLOR_CODE_MAX
    then w' == StoreWord(w, DsiVideo.Addr(DsiVideo.DPICOLORMODE), code as bv32)
    else w' == w
  }

  /**
   * The bridge and the DPI set after an `FB_MIPI_VIF_*` command, against
   * `w` and `dpi` before it.  FPS stores the line time for the programmed
   * frame height; BPP and PCONF both set the colour mode; EDPI sets the
   * eDPI enable; PRE configures a known display and keeps the line time it
   * reads back in `dpi_video.hline`, and leaves an unknown display's bridge
   * alone.  Only PRE touches the DPI set.
   */
  ghost predicate VifDone(kind: VifKind, param: int, w: Window, w': Window, dpi: DpiVideo, dpi': DpiVideo)
  {
    && (!kind.VifPre? ==> dpi' == dpi)
    && match kind
       case VifTest => Stored(w, w', VifStore(kind, param).0, VifStore(kind, param).1)
       case VifPsel => Stored(w, w', VifStore(kind, param).0, VifStore(kind, param).1)
       case VifLtime => Stored(w, w', VifStore(kind, param).0, VifStore(kind, param).1)
       case VifTe => Stored(w, w', VifStore(kind, param).0, VifStore(kind, param).1)
       case VifFps =>
         && FpsDefined(w, param)
         && Word(w', DsiVideo.Addr(DsiVideo.LINE_TIME)) == DsiVideo.LineTime(U8(param) as nat, DsiVideo.VTotal(w)) as bv32
         && SameExcept(w', w, {DsiVideo.Addr(DsiVideo.LINE_TIME)})
       case VifBpp => ColorModeSet(w, w', Unsigned(param))
       case VifPconf => ColorModeSet(w, w', Unsigned(param))
       case VifEdpi =>
         Word(w', DsiVideo.Addr(DsiVideo.EDPICTRL)) == U32(param) && SameExcept(w', w, {DsiVideo.Addr(DsiVideo.EDPICTRL)})
       case VifPre =>
         var mode := Unsigned(param);
         if KnownDisplay(mode)
         then DsiVideo.BridgeConfigured(w', mode)
              && dpi' == dpi.(hline := Word(w', DsiVideo.Addr(DsiVideo.LINE_TIME)) as int)
         else w' == w && dpi' == dpi
       case _ => TimingSet(kind, param, w, w')
  }

  /** An `FB_MIPI_VIF_*` command on the bridge of `dev`. */
  method VifCommand(dev: MipiDsiDev, kind: VifKind, param: int)
    requires kind.VifFps? ==> FpsDefined(dev.bridge, param)
    modifies dev`bridge, dev`dpiVideo
    ensures VifDone(kind, param, old(dev.bridge), dev.bridge, old(dev.dpiVideo), dev.dpiVideo)
  {
    if kind.VifTest? || kind.VifPsel? || kind.VifLtime? || kind.VifTe? {
      VifRegister(dev, kind, param);
    } else if kind.VifBpp? || kind.VifPconf? || kind.VifEdpi? {
      VifMode(dev, kind, param);
    } else if kind.VifFps? {
      DsiVideo.Fps(dev, U8(param) as nat);
    } else if kind.VifPre? {
      var _ := DsiVideo.Config(dev, Unsigned(param));
    } else {
      VifTiming(dev, kind, param);
    }
  }

  /** `video_if_set_color_mode` and `video_if_edpi`. */
  method VifMode(dev: MipiDsiDev, kind: VifKind, param: int)
    requires kind.VifBpp? || kind.VifPconf? || kind.VifEdpi?
    modifies dev`bridge
    ensures VifDone(kind, param, old(dev.bridge), dev.bridge, dev.dpiVideo, dev.dpiVideo)
  {
    match kind {
      case VifBpp => var _ := DsiVideo.SetColorMode(dev, Unsigned(param));
      case VifPconf => var _ := DsiVideo.SetColorMode(dev, Unsigned(param));
      case VifEdpi => DsiVideo.Edpi(dev, U32(param));
    }
  }

  /** `video_if_test_mode`, `video_if_phase`, `video_if_line_time`, `video_if_wait_for_tearing`. */
  method VifRegister(dev: MipiDsiDev, kind: VifKind, param: int)
    requires kind.VifTest? || kind.VifPsel? || kind.VifLtime? || kind.VifTe?
    modifies dev`bridge
    ensures Stored(old(dev.bridge), dev.bridge, VifStore(kind, param).0, VifStore(kind, param).1)
  {
    var (reg, value) := VifStore(kind, param);
    DsiVideo.Write(dev, reg, value);
  }

  /** The bridge's timing-field setters. */
  method VifTiming(dev: MipiDsiDev, kind: VifKind, param: int)
    requires kind.VifHres? || kind.VifVres? || kind.VifHbp? || kind.VifHsync?
             || kind.VifVbp? || kind.VifVfp? || kind.VifVsync?
    modifies dev`bridge
    ensures TimingSet(kind, param, old(dev.bridge), dev.bridge)
  {
    match kind {
      case VifHres => DsiVideo.SetHActive(dev, U16(param));
      case VifVres => DsiVideo.SetVActive(dev, U16(param));
      case VifHbp => DsiVideo.SetHBlanking(dev, U16(param));
      case VifHsync => DsiVideo.SetHSync(dev, U16(param));
      case VifVbp => DsiVideo.SetVBlanking(dev, U8(param));
      case VifVfp => DsiVideo.SetVFrontPorch(dev, U8(param));
      case VifVsync => DsiVideo.SetVSync(dev, U8(param));
    }
  }

  /** The driver's module statics: the device registry and the ioctl's sticky flags. */
  class Framebuffers {
    const pdevArray: array<MipiDsiDev?>
    var fbCount: int
    var rxEn: uint8
    var ackEn: uint8
    var eccEn: uint8
    var eotpTxEn: uint8
    var eotpRxEn: uint8

    ghost predicate Valid()
      reads this
    {
      pdevArray.Length == FB_SLOTS && 0 <= fbCount
    }

    /** The sticky flags. */
    function CurrentFlags(): Flags
      reads this
    {
      Flags(rxEn, ackEn, eccEn, eotpTxEn, eotpRxEn)
    }

    /** The zero-initialised statics. */
    constructor ()
      ensures Valid() && fbCount == 0 && fresh(pdevArray) && pdevArray[..] == [null, null]
      ensures rxEn == 0 && ackEn == 0 && eccEn == 0 && eotpTxEn == 0 && eotpRxEn == 0
    {
      pdevArray := new MipiDsiDev?[FB_SLOTS](_ => null);
      fbCount := 0;
      rxEn, ackEn, eccEn, eotpTxEn, eotpRxEn := 0, 0, 0, 0, 0;
    }

    /**
     * `init_frame_buffer` as written: a null device changes nothing;
     * otherwise the device gets the default screen mode and is stored at
     * `pdev_array[fb_count]`, and `fb_count` grows.  The store has no bound
     * check, so the call is only defined while a slot is left.
     */
    method InitFrameBuffer(dev: MipiDsiDev?)
      requires Valid()
      requires dev != null ==> fbCount < pdevArray.Length
      modifies this`fbCount, pdevArray, Present(dev)`fbVar
      ensures Valid()
      ensures dev == null ==> fbCount == old(fbCount) && pdevArray[..] == old(pdevArray[..])
      ensures dev != null ==>
                && fbCount == old(fbCount) + 1
                && pdevArray[..] == old(pdevArray[..])[old(fbCount) := dev]
                && dev.fbVar == DefaultVar
    {
      if dev == null {
        return;
      }
      dev.fbVar := DefaultVar;
      pdevArray[fbCount] := dev;
      fbCount := fbCount + 1;
    }

    /**
     * `init_frame_buffer` with the evident bound: a device that finds the
     * registry full is refused (-ENOMEM) and nothing changes.
     */
    method InitFrameBufferChecked(dev: MipiDsiDev?) returns (r: int)
      requires Valid()
      modifies this`fbCount, pdevArray, Present(dev)`fbVar
      ensures Valid()
      ensures r == 0 || r == -ENOMEM
      ensures r == -ENOMEM <==> dev != null && old(fbCount) >= pdevArray.Length
      ensures (dev == null || r != 0) ==> fbCount == old(fbCount) && pdevArray[..] == old(pdevArray[..])
      ensures dev != null && r == 0 ==>
                && fbCount == old(fbCount) + 1 <= pdevArray.Length
                && pdevArray[..] == old(pdevArray[..])[old(fbCount) := dev]
                && dev.fbVar == DefaultVar
    {
      if dev != null && fbCount >= pdevArray.Length {
        return -ENOMEM;
      }
      InitFrameBuffer(dev);
      r := 0;
    }

    /** The devices the ioctl may change. */
    ghost function Devices(): set<MipiDsiDev>
      reads this, pdevArray
    {
      set i | 0 <= i < pdevArray.Length && pdevArray[i] != null :: pdevArray[i]
    }

    /**
     * `fb_mipi_ioctl` for the framebuffer `node`.  A node without a device
     * returns -EINVAL and changes nothing.  Otherwise both interrupts are
     * disabled around the command and enabled again, the sticky flags and
     * the device move as the command says, no other device changes, and
     * the result is 0: the bus accessors of this file never fail.  A core
     * register read hands back the register's value.
     */
    method Ioctl(node: nat, cmd: Command) returns (r: int, read: Option<bv32>)
      requires Valid() && node < pdevArray.Length
      requires pdevArray[node] != null && cmd.Vif? && cmd.kind.VifFps? ==>
                 FpsDefined(pdevArray[node].bridge, cmd.param)
      modifies this, Devices()
      ensures Valid() && fbCount == old(fbCount)
      ensures old(pdevArray[node]) == null ==> r == -EINVAL && read.None? && unchanged(this)
      ensures old(pdevArray[node]) != null ==> r == 0 && CurrentFlags() == FlagStep(old(CurrentFlags()), cmd)
      ensures var dev := old(pdevArray[node]);
        dev != null ==>
          && dev.coreIrqDepth == old(dev.coreIrqDepth) && dev.vifIrqDepth == old(dev.vifIrqDepth)
          && DeviceEffect(cmd, old(dev.View()), dev.View())
          && read == (if cmd.CoreRead? then Some(Word(old(dev.core), cmd.address as nat)) else None)
      ensures forall d :: d in old(Devices()) && d != old(pdevArray[node]) ==> unchanged(d)
    {
      var pdev := pdevArray[node];
      if pdev == null {
        return -EINVAL, None;
      }
      StickyFlags(cmd);
      read := Guarded(pdev, cmd);
      r := 0;
    }

    /** A device command with both interrupts disabled around it. */
    static method Guarded(dev: MipiDsiDev, c: Command) returns (read: Option<bv32>)
      requires c.Vif? && c.kind.VifFps? ==> FpsDefined(dev.bridge, c.param)
      modifies dev`core, dev`bridge, dev`dpiVideo, dev`dpiVideoOld, dev`cmdModeVideo, dev`cmdModeVideoOld,
               dev`resets, dev`phyLanes, dev`phyOutputFreq, dev`coreIrqDepth, dev`vifIrqDepth
      ensures dev.coreIrqDepth == old(dev.coreIrqDepth) && dev.vifIrqDepth == old(dev.vifIrqDepth)
      ensures DeviceEffect(c, old(dev.View()), dev.View())
      ensures read == (if c.CoreRead? then Some(Word(old(dev.core), c.address as nat)) else None)
    {
      ghost var before := dev.View();
      dev.coreIrqDepth := dev.coreIrqDepth + 1;
      dev.vifIrqDepth := dev.vifIrqDepth + 1;
      assert dev.View() == before;
      read := DeviceCommand(dev, c);
      ghost var after := dev.View();
      dev.coreIrqDepth := dev.coreIrqDepth - 1;
      dev.vifIrqDepth := dev.vifIrqDepth - 1;
      assert dev.View() == after;
    }

    /** The sticky-flag statics under `FB_MIPI_RX`, `_ACK`, `_ECC`, `_EOTP_TX` and `_EOTP_RX`. */
    method StickyFlags(c: Command)
      modifies this`rxEn, this`ackEn, this`eccEn, this`eotpTxEn, this`eotpRxEn
      ensures CurrentFlags() == FlagStep(old(CurrentFlags()), c)
    {
      match c {
        case Rx(value) =>
          rxEn := LowByte(value);
        case Ack(flag) =>
          ackEn := LowByte(flag);
          rxEn := Sticky(rxEn, ackEn);
        case Ecc(flag) =>
          eccEn := LowByte(flag);
          rxEn := Sticky(rxEn, eccEn);
        case EotpTx(flag) =>
          eotpTxEn := LowByte(flag);
          rxEn := Sticky(rxEn, eotpTxEn);
        case EotpRx(flag) =>
          eotpRxEn := LowByte(flag);
          rxEn := Sticky(rxEn, eotpRxEn);
        case _ =>
      }
    }
  }

  /** `p` with the display's DPI row applied when `pre_video_mode` knows the display. */
  function PreVideo(p: DpiVideo, display: int, lanes: int): DpiVideo
  {
    if KnownDisplay(display) then DsiDisplays.VideoModeParams(p, display, lanes) else p
  }

  /** `p` with the display's eDPI row applied when `pre_command_mode` accepts the display. */
  function PreCommand(p: CmdModeVideo, display: int): CmdModeVideo
  {
    if DsiDisplays.CommandModeDisplay(display)
    then DsiDisplays.CmdModeParams(p, display, p.noOfLanes) else p
  }

  /**
   * What a command does to the device, against the device before it: a
   * parameter write or pre-configuration attempts the new set with rollback,
   * the platform set-up is the one `dsi_platform_init` describes, a PHY
   * command records the PHY settings, a core write stores one register, a
   * bridge command is the bridge function's effect, and every other command
   * (a core read, the sticky flags, the commands handled by foreign code)
   * leaves the sets, the bridge and the PHY settings alone.  Writes the
   * foreign `mipi_dsih_*` calls make to the core window are not followed.
   */
  ghost predicate DeviceEffect(c: Command, v: DevView, v': DevView)
  {
    match c
    case DpiWrite(params, transitionOk, dpiRet) =>
      && (v'.dpiVideo, v'.dpiVideoOld) == DpiOutcome(params, v.dpiVideoOld, transitionOk && dpiRet == 0)
      && EdpiKept(v, v') && v'.bridge == v.bridge && PhyKept(v, v')
    case DpiPreConfig(screen, lanes, transitionOk, dpiRet) =>
      && (v'.dpiVideo, v'.dpiVideoOld)
         == DpiOutcome(PreVideo(v.dpiVideo, screen, lanes), v.dpiVideoOld, transitionOk && dpiRet == 0)
      && EdpiKept(v, v') && v'.bridge == v.bridge && PhyKept(v, v')
    case EdpiWrite(cmdParams, edpiOk) =>
      && (v'.cmdModeVideo, v'.cmdModeVideoOld) == EdpiOutcome(cmdParams, v.cmdModeVideoOld, edpiOk)
      && DpiKept(v, v') && v'.bridge == v.bridge && PhyKept(v, v')
    case EdpiPreConfig(display, edpiOk) =>
      && (v'.cmdModeVideo, v'.cmdModeVideoOld)
         == EdpiOutcome(PreCommand(v.cmdModeVideo, display), v.cmdModeVideoOld, edpiOk)
      && DpiKept(v, v') && v'.bridge == v.bridge && PhyKept(v, v')
    case PlatformInit(display, videoMode, lanes) =>
      DsiCore.PlatformInitDone(display, videoMode, lanes, v, v') && PhyKept(v, v')
    case Phy(lanes, outputFreq) =>
      && v'.phyLanes == lanes && v'.phyOutputFreq == outputFreq
      && DpiKept(v, v') && EdpiKept(v, v') && v'.bridge == v.bridge
    case CoreWrite(address, data) =>
      && v'.core == StoreWord(v.core, address as nat, data)
      && DpiKept(v, v') && EdpiKept(v, v') && v'.bridge == v.bridge && PhyKept(v, v')
    case CoreRead(_) =>
      v' == v
    case Vif(kind, param) =>
      && VifDone(kind, param, v.bridge, v'.bridge, v.dpiVideo, v'.dpiVideo)
      && v'.dpiVideoOld == v.dpiVideoOld && EdpiKept(v, v') && PhyKept(v, v')
    case _ =>
      DpiKept(v, v') && EdpiKept(v, v') && v'.bridge == v.bridge && PhyKept(v, v')
  }

  /**
   * The ioctl commands that act on the device; a core read returns the
   * register's value.
   */
  method DeviceCommand(dev: MipiDsiDev, c: Command) returns (read: Option<bv32>)
    requires c.Vif? && c.kind.VifFps? ==> FpsDefined(dev.bridge, c.param)
    modifies dev`core, dev`bridge, dev`dpiVideo, dev`dpiVideoOld, dev`cmdModeVideo, dev`cmdModeVideoOld,
             dev`resets, dev`phyLanes, dev`phyOutputFreq
    ensures DeviceEffect(c, old(dev.View()), dev.View())
    ensures read == (if c.CoreRead? then Some(Word(old(dev.core), c.address as nat)) else None)
  {
    read := None;
    if c.DpiWrite? || c.DpiPreConfig? {
      DpiCommand(dev, c);
    } else if c.EdpiWrite? || c.EdpiPreConfig? {
      EdpiCommand(dev, c);
    } else if c.Vif? {
      VifDevice(dev, c);
    } else if c.PlatformInit? {
      DsiCore.PlatformInit(dev, c.display, c.videoMode, c.platformLanes);
    } else {
      read := RegisterCommand(dev, c);
    }
  }

  /** `FB_MIPI_DPI_WRITE` and `FB_MIPI_DPI_PRE_CONFIG`. */
  method DpiCommand(dev: MipiDsiDev, c: Command)
    requires c.DpiWrite? || c.DpiPreConfig?
    modifies dev`dpiVideo, dev`dpiVideoOld, dev`resets
    ensures DeviceEffect(c, old(dev.View()), dev.View())
  {
    match c {
      case DpiWrite(params, transitionOk, dpiRet) =>
        dev.dpiVideo := params;
        ApplyDpi(dev, transitionOk, dpiRet);
      case DpiPreConfig(screen, lanes, transitionOk, dpiRet) =>
        var _ := DsiDisplays.PreVideoMode(dev, screen, lanes);
        ApplyDpi(dev, transitionOk, dpiRet);
    }
  }

  /** `FB_MIPI_EDPI_WRITE` and `FB_MIPI_EDPI_PRE_CONFIG`. */
  method EdpiCommand(dev: MipiDsiDev, c: Command)
    requires c.EdpiWrite? || c.EdpiPreConfig?
    modifies dev`cmdModeVideo, dev`cmdModeVideoOld, dev`resets
    ensures DeviceEffect(c, old(dev.View()), dev.View())
  {
    match c {
      case EdpiWrite(cmdParams, edpiOk) =>
        dev.cmdModeVideo := cmdParams;
        ApplyEdpi(dev, edpiOk);
      case EdpiPreConfig(display, edpiOk) =>
        var _ := DsiDisplays.PreCommandMode(dev, display, dev.cmdModeVideo.noOfLanes);
        ApplyEdpi(dev, edpiOk);
    }
  }

  /** The `FB_MIPI_VIF_*` commands. */
  method VifDevice(dev: MipiDsiDev, c: Command)
    requires c.Vif? && (c.kind.VifFps? ==> FpsDefined(dev.bridge, c.param))
    modifies dev`bridge, dev`dpiVideo
    ensures DeviceEffect(c, old(dev.View()), dev.View())
  {
    VifCommand(dev, c.kind, c.param);
  }

  /** The core register accesses, the PHY settings and the commands left to foreign code. */
  method RegisterCommand(dev: MipiDsiDev, c: Command) returns (read: Option<bv32>)
    requires !(c.DpiWrite? || c.DpiPreConfig? || c.EdpiWrite? || c.EdpiPreConfig? || c.Vif? || c.PlatformInit?)
    modifies dev`core, dev`phyLanes, dev`phyOutputFreq
    ensures DeviceEffect(c, old(dev.View()), dev.View())
    ensures read == (if c.CoreRead? then Some(Word(old(dev.core), c.address as nat)) else None)
  {
    read := None;
    match c {
      case CoreRead(address) =>
        read := Some(Word(dev.core, address as nat));
      case CoreWrite(address, data) =>
        dev.core := StoreWord(dev.core, address as nat, data);
      case Phy(lanes, outputFreq) =>
        dev.phyLanes := lanes;
        dev.phyOutputFreq := outputFreq;
      case _ =>
    }
  }

  /**
   * With two devices registered `fb_count` equals the array's size, so the
   * registration of a third device stores past the end of `pdev_array`.
   */
  method ThirdRegistrationOverflows(d1: MipiDsiDev, d2: MipiDsiDev) returns (fb: Framebuffers)
    modifies d1, d2
    ensures fb.Valid() && fb.fbCount == fb.pdevArray.Length
  {
    fb := new Framebuffers();
    fb.InitFrameBuffer(d1);
    fb.InitFrameBuffer(d2);
  }
}
