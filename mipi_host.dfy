/**
 * `x2_mipi_host.c`: the MIPI CSI-2 host controller.  The pixel-clock and
 * horizontal-sync-delay arithmetic, the lane stop mask, the initialisation
 * sequence and the DEFAULT/INIT/START/STOP state machine of its ioctl.
 *
 * The configuration header is not part of this model: every `mipi_host_cfg_t`
 * field is taken as a `uint16_t`, as in `mipi_dev_cfg_t`.  The register
 * offsets header is not part of this model either: the registers are named,
 * and the raw offsets of the READ/WRITE ioctl form a register file of their
 * own.
 */
module MipiHost {
  import opened Optional

  const EINVAL: int := 22
  const ENOTTY: int := 25

  const PIXCLK_DEFAULT: nat := 288
  const HSATIME: nat := 4
  const HBPTIME: nat := 4
  const LANE_MAX: nat := 4
  const CSI2_RAISE: nat := 1
  const CSI2_RESETN: nat := 0
  /** `MIPI_HOST_IPI_ENABLE | (MIPI_HOST_BITWIDTH_48 << MIPI_HOST_BITWIDTH_OFFSET)`. */
  const IPI_MODE_48: nat := 0x0100_0000
  const LEGACY_MODE_ENABLE: nat := 0x0100_0000

  /** CSI-2 data types. */
  const DT_YUV420_8: nat := 0x18
  const DT_YUV420_10: nat := 0x19
  const DT_YUV422_8: nat := 0x1E
  const DT_YUV422_10: nat := 0x1F
  const DT_RAW_8: nat := 0x2A
  const DT_RAW_10: nat := 0x2B

  /** `MIPIHOST_CHANNEL_NUM`: the header is not part of this model; two IPI ports. */
  const CHANNEL_NUM: nat := 2

  /** A `uint16_t`. */
  newtype u16 = x: int | 0 <= x < 0x1_0000

  /** `mipi_host_cfg_t`, the fields the host reads or fills in. */
  datatype HostCfg = HostCfg(
    lane: u16, dataType: u16, fps: u16, mipiclk: u16, width: u16,
    linelenth: u16, framelenth: u16, settle: u16,
    channelNum: u16, channelSel0: u16, channelSel1: u16,
    hsaTime: u16, hbpTime: u16, hsdTime: u16)

  // ---------------------------------------------------------------------
  // Clock arithmetic

  /** The divisor `mipi_host_pixel_clk_select` applies to the MIPI clock. */
  function PixelDivisor(dt: nat): nat
  {
    if dt == DT_YUV420_8 then 8 * 3 / 2
    else if dt == DT_YUV420_10 then 16 * 3 / 2
    else if dt == DT_YUV422_8 then 8 * 2
    else if dt == DT_YUV422_10 then 16 * 2
    else if dt == DT_RAW_8 then 8
    else if dt == DT_RAW_10 then 10
    else 16
  }

  /** The bits per pixel `mipi_host_get_hsd` uses. */
  function BitsPerPixel(dt: nat): nat
  {
    match dt
    case 0x18 => 8 * 3 / 2
    case 0x19 => 16 * 3 / 2
    case 0x1E => 8 * 2
    case 0x1F => 16 * 2
    case 0x2A => 8
    case 0x2B => 10
    case _ => 16
  }

  /** The two tables agree: the pixel clock divisor is the bit count of a pixel, 8 to 32. */
  lemma DivisorIsBitsPerPixel(dt: nat)
    ensures PixelDivisor(dt) == BitsPerPixel(dt)
    ensures 8 <= BitsPerPixel(dt) <= 32
  {
  }

  /** No line length given, or one equal to the width: the clocks follow the MIPI clock. */
  predicate FromMipiClock(c: HostCfg)
  {
    c.linelenth == 0 || c.linelenth == c.width
  }

  /** The line length times the frame length times the frame rate, as exact numbers. */
  function FrameRate(c: HostCfg): nat
  {
    c.linelenth as nat * c.framelenth as nat * c.fps as nat
  }

  /** C's `/` on a signed dividend: the quotient is truncated toward 0. */
  function TruncDiv(a: int, d: nat): (q: int)
    requires d >= 1
    ensures a >= 0 ==> q == a / d
    ensures a < 0 ==> q == -((-a) / d)
  {
    if a >= 0 then a / d else -((-a) / d)
  }

  /**
   * The pixel clock before the divider, as `uint16_t`: the MIPI clock over
   * the pixel size, or the line length times the frame length times the
   * frame rate in MHz.  The C forms that product in `int`: it wraps at 2^31
   * (two's complement), is divided toward 0 and is then cut to 16 bits.
   */
  function RawPixelClock(c: HostCfg): (r: nat)
    ensures r < 0x1_0000
    ensures !FromMipiClock(c) && FrameRate(c) < 0x8000_0000 ==> r == FrameRate(c) / 1000000
  {
    if FromMipiClock(c) then c.mipiclk as nat / PixelDivisor(c.dataType as nat)
    else
      var p := FrameRate(c);
      SmallQuotient(p);
      TruncDiv(AsInt32(Wrap32(p)), 1000000) % 0x1_0000
  }

  /** Below 2^31 the product survives the `int` and its count of millions fits in 16 bits. */
  lemma SmallQuotient(p: nat)
    ensures p < 0x8000_0000 ==> AsInt32(Wrap32(p)) == p && TruncDiv(p, 1000000) % 0x1_0000 == p / 1000000
  {
    if p < 0x8000_0000 {
      assert p / 1000000 <= 2147;
    }
  }

  /**
   * `mipi_host_pixel_clk_select` as written: it divides 288 by the raw
   * clock, so it is only defined when that clock is not 0.  The result is
   * 288 divided by the whole divider, never 0 and never above 288; a raw
   * clock up to 288 is never rounded down, a faster one falls back to 288.
   */
  function PixelClkSelect(c: HostCfg): (r: nat)
    requires RawPixelClock(c) != 0
    ensures 1 <= r <= PIXCLK_DEFAULT
    ensures RawPixelClock(c) <= PIXCLK_DEFAULT ==> RawPixelClock(c) <= r
    ensures RawPixelClock(c) > PIXCLK_DEFAULT ==> r == PIXCLK_DEFAULT
  {
    var pixclk := RawPixelClock(c);
    var div := PIXCLK_DEFAULT / pixclk;
    if div != 0 then
      DivideBack(pixclk);
      PIXCLK_DEFAULT / div
    else PIXCLK_DEFAULT
  }

  /** `288 / (288 / p)` lies between `p` and 288 for `p` in 1..288. */
  lemma DivideBack(p: nat)
    requires 1 <= p <= PIXCLK_DEFAULT
    ensures var d := PIXCLK_DEFAULT / p; d >= 1 && p <= PIXCLK_DEFAULT / d <= PIXCLK_DEFAULT
  {
    var d := PIXCLK_DEFAULT / p;
    DivAtLeast(PIXCLK_DEFAULT, p, 1);
    assert PIXCLK_DEFAULT == d * p + PIXCLK_DEFAULT % p;
    DivAtLeast(PIXCLK_DEFAULT, d, p);
    DivLe(PIXCLK_DEFAULT, d);
  }

  /** `n / d` does not exceed `n`. */
  lemma DivLe(n: nat, d: nat)
    requires d >= 1
    ensures n / d <= n
  {
    assert n == d * (n / d) + n % d;
    MulLe(1, d, n / d, n / d);
  }

  /** A multiple count `p` that fits in `a` is at most `a / d`. */
  lemma DivAtLeast(a: nat, d: nat, p: nat)
    requires d >= 1 && p * d <= a
    ensures p <= a / d
  {
    var q := a / d;
    assert a == q * d + a % d;
    if q < p {
      MulLe(q + 1, p, d, d);
    }
  }

  /** Products of naturals are monotone in both factors. */
  lemma MulLe(a: nat, b: nat, c: nat, d: nat)
    requires a <= b && c <= d
    ensures a * c <= b * d
  {
    assert a * c <= b * c;
    assert b * c <= b * d;
  }

  /** A configuration whose raw pixel clock is 0: a RAW10 stream on a 9 MHz MIPI clock. */
  const SlowRaw10 := HostCfg(lane := 1, dataType := DT_RAW_10 as u16, fps := 30, mipiclk := 9,
                             width := 640, linelenth := 0, framelenth := 0, settle := 0,
                             channelNum := 1, channelSel0 := 0, channelSel1 := 0,
                             hsaTime := 0, hbpTime := 0, hsdTime := 0)

  /**
   * The zero test in `mipi_host_init` comes after the division by zero: a
   * slow MIPI clock gives a raw clock of 0, outside `PixelClkSelect`'s domain.
   */
  lemma ZeroRawPixelClock()
    ensures RawPixelClock(SlowRaw10) == 0
  {
  }

  /**
   * `mipi_host_pixel_clk_select` with the zero test before the division:
   * 0 exactly for a raw clock of 0, which `mipi_host_init` then rejects;
   * otherwise the as-written result.
   */
  function PixelClkSelectChecked(c: HostCfg): (r: nat)
    ensures r == 0 <==> RawPixelClock(c) == 0
    ensures r != 0 ==> r == PixelClkSelect(c) && r <= PIXCLK_DEFAULT
  {
    if RawPixelClock(c) == 0 then 0 else PixelClkSelect(c)
  }

  /**
   * The receive bit clock `mipi_host_get_hsd` divides by.  Away from the
   * MIPI clock it is the frame rate times the bits per pixel in MHz; the C
   * multiplies the `int` frame rate by a `uint32_t`, so the product is taken
   * modulo 2^32 before the division.
   */
  function RxBitClock(c: HostCfg): nat
  {
    if FromMipiClock(c) then c.mipiclk as nat
    else Wrap32(RxBitRate(c)) / 1000000
  }

  /** The exact bit rate of the stream: the frame rate times the bits per pixel. */
  function RxBitRate(c: HostCfg): nat
  {
    FrameRate(c) * BitsPerPixel(c.dataType as nat)
  }

  /** The receive clock is taken from the MIPI clock, or its product fits in 32 bits. */
  predicate RxNoWrap(c: HostCfg)
  {
    FromMipiClock(c) || RxBitRate(c) < U32_RANGE
  }

  /** Below 2^32 the receive clock is the exact bit rate in MHz. */
  lemma RxBitClockExact(c: HostCfg)
    requires !FromMipiClock(c) && RxNoWrap(c)
    ensures RxBitClock(c) == RxBitRate(c) / 1000000
  {
  }

  /**
   * When nothing wraps, a usable pixel clock implies a usable receive clock:
   * `mipi_host_get_hsd` does not divide by 0.
   */
  lemma RxBitClockPositive(c: HostCfg)
    requires RawPixelClock(c) != 0 && RxNoWrap(c)
    ensures RxBitClock(c) != 0
  {
    if !FromMipiClock(c) {
      var p := FrameRate(c);
      DivisorIsBitsPerPixel(c.dataType as nat);
      assert p * 8 <= RxBitRate(c) by {
        MulLe(p, p, 8, BitsPerPixel(c.dataType as nat));
      }
      assert RawPixelClock(c) == p / 1000000;
      ScaledStaysPositive(p, BitsPerPixel(c.dataType as nat));
    }
  }

  /**
   * A 1080p stream at 60 frames per second in YUV422-10: the receive clock
   * the C computes is 457, where the exact bit rate is 4752 MHz.
   */
  const Hd60Yuv10 := HostCfg(lane := 4, dataType := DT_YUV422_10 as u16, fps := 60, mipiclk := 1200,
                             width := 1920, linelenth := 2200, framelenth := 1125, settle := 0,
                             channelNum := 1, channelSel0 := 0, channelSel1 := 0,
                             hsaTime := 0, hbpTime := 0, hsdTime := 0)

  lemma RxBitClockWrapExample()
    ensures RxBitRate(Hd60Yuv10) / 1000000 == 4752
    ensures RxBitClock(Hd60Yuv10) == 457
  {
  }

  /**
   * A frame rate of exactly 2^27 in YUV422-10: the raw pixel clock is 134,
   * which `mipi_host_init` accepts, but the 32-bit product is exactly 2^32,
   * so the receive clock is 0 and `mipi_host_get_hsd` divides by it.
   */
  const WrapToZero := HostCfg(lane := 4, dataType := DT_YUV422_10 as u16, fps := 1, mipiclk := 1200,
                              width := 1920, linelenth := 8192, framelenth := 16384, settle := 0,
                              channelNum := 1, channelSel0 := 0, channelSel1 := 0,
                              hsaTime := 0, hbpTime := 0, hsdTime := 0)

  lemma RxBitClockWrapsToZero()
    ensures RawPixelClock(WrapToZero) == 134
    ensures RxBitClock(WrapToZero) == 0 && !HsdComputable(WrapToZero)
  {
    assert RxBitRate(WrapToZero) == U32_RANGE;
  }

  /**
   * `mipi_host_get_hsd` only runs when no delay is configured; it can then
   * run only on a non-zero receive clock.
   */
  predicate HsdComputable(c: HostCfg)
  {
    c.hsdTime != 0 || RxBitClock(c) != 0
  }

  /** A product of at least a million, scaled up, still divides to a nonzero count of millions. */
  lemma ScaledStaysPositive(p: nat, b: nat)
    requires p / 1000000 != 0 && b >= 1
    ensures p * b / 1000000 != 0
  {
    assert p * b == p * (b - 1) + p;
  }

  const U32_RANGE: int := 0x1_0000_0000

  /** A C `uint32_t` result: the value modulo 2^32. */
  function Wrap32(x: int): (r: int)
    ensures 0 <= r < U32_RANGE
  {
    x % U32_RANGE
  }

  /** A `uint32_t` stored into an `int32_t` (two's complement). */
  function AsInt32(u: int): int
    requires 0 <= u < U32_RANGE
  {
    if u >= 0x8000_0000 then u - U32_RANGE else u
  }

  /**
   * The horizontal sync delay `mipi_host_get_hsd` starts from, as the C
   * computes it: the transmit cycles of a line in `uint32_t`, minus the
   * sync, back porch and line cycles, the difference taken in `uint32_t`
   * and stored into an `int32_t`.
   */
  function HsdDemand(c: HostCfg, pixclk: nat): int
    requires RxBitClock(c) != 0
  {
    AsInt32(Wrap32(TransmitCycles(c, pixclk) - Overhead(c)))
  }

  /** The pixel-clock cycles the PHY needs for a line, computed in `uint32_t`. */
  function TransmitCycles(c: HostCfg, pixclk: nat): nat
    requires RxBitClock(c) != 0
  {
    Wrap32(LineBits(c) * pixclk) / RxBitClock(c)
  }

  /** The bits of one line. */
  function LineBits(c: HostCfg): nat
  {
    BitsPerPixel(c.dataType as nat) * c.width as nat
  }

  /** The sync, back porch and data cycles of a line on the IPI. */
  function Overhead(c: HostCfg): nat
  {
    c.hsaTime as nat + c.hbpTime as nat + c.width as nat
  }

  /**
   * With the pixel clock the host selects (at most 288), the transmit
   * product and the subtraction do not wrap: the demand is the exact
   * difference over the receive clock the C computes.  When that clock does
   * not wrap either, the demand is the design formula over the stream's
   * exact bit rate.
   */
  lemma HsdDemandExact(c: HostCfg, pixclk: nat)
    requires RxBitClock(c) != 0 && pixclk <= PIXCLK_DEFAULT
    ensures HsdDemand(c, pixclk) == LineBits(c) * pixclk / RxBitClock(c) - Overhead(c)
    ensures !FromMipiClock(c) && RxNoWrap(c) ==>
              HsdDemand(c, pixclk) == LineBits(c) * pixclk / (RxBitRate(c) / 1000000) - Overhead(c)
  {
    var prod := LineBits(c) * pixclk;
    DivisorIsBitsPerPixel(c.dataType as nat);
    LineProductBound(BitsPerPixel(c.dataType as nat), c.width as nat, pixclk);
    assert Wrap32(prod) == prod;
    DivLe(prod, RxBitClock(c));
    NoWrap(TransmitCycles(c, pixclk), Overhead(c));
  }

  /** The line's bit-clock product stays far below 2^31. */
  lemma LineProductBound(bpp: nat, w: nat, pixclk: nat)
    requires bpp <= 32 && w <= 0xFFFF && pixclk <= PIXCLK_DEFAULT
    ensures bpp * w * pixclk <= 32 * 0xFFFF * PIXCLK_DEFAULT
  {
    MulLe(bpp, 32, w, 0xFFFF);
    MulLe(bpp * w, 32 * 0xFFFF, pixclk, PIXCLK_DEFAULT);
  }

  /** A difference of two values below 2^31 survives the `uint32_t` round trip into `int32_t`. */
  lemma NoWrap(a: nat, b: nat)
    requires a < 0x8000_0000 && b < 0x8000_0000
    ensures Wrap32(a) == a && AsInt32(Wrap32(a - b)) == a - b
  {
    if a - b < 0 {
      assert Wrap32(a - b) == a - b + U32_RANGE;
    }
  }

  /** `(h + 16) & ~0xf` for a non-negative `h`: the first multiple of 16 above `h`. */
  function Align16Past(h: nat): (r: nat)
    ensures r % 16 == 0 && h < r <= h + 16
  {
    var k := (h + 16) / 16;
    assert h + 16 == k * 16 + (h + 16) % 16;
    k * 16
  }

  /** Truncating a multiple of 16 to 16 bits keeps it a multiple of 16. */
  lemma Low16KeepsAlignment(x: nat)
    requires x % 16 == 0
    ensures (x % 0x1_0000) % 16 == 0
  {
    var m := x / 16;
    var a := x / 0x1_0000;
    assert x == 16 * m;
    assert x == 0x1_0000 * a + x % 0x1_0000;
    assert x % 0x1_0000 == 16 * (m - 4096 * a);
  }

  /** `mipi_host_get_hsd`: the demand clamped at 0, moved up past the next multiple of 16, as `uint16_t`. */
  function Hsd(c: HostCfg, pixclk: nat): (r: nat)
    requires RxBitClock(c) != 0 && pixclk <= PIXCLK_DEFAULT
    ensures r < 0x1_0000 && r % 16 == 0
  {
    var demand := HsdDemand(c, pixclk);
    var aligned := Align16Past(if demand < 0 then 0 else demand);
    Low16KeepsAlignment(aligned);
    aligned % 0x1_0000
  }

  /**
   * The delay is the first multiple of 16 above the clamped demand, cut to
   * 16 bits; unless that cut bites, it is at least 16 and strictly above the
   * clamped demand, by at most 16.
   */
  lemma HsdCoversDemand(c: HostCfg, pixclk: nat)
    requires RxBitClock(c) != 0 && pixclk <= PIXCLK_DEFAULT
    ensures var d := HsdDemand(c, pixclk); var h := if d < 0 then 0 else d;
      Hsd(c, pixclk) == (h / 16 + 1) * 16 % 0x1_0000
    ensures var d := HsdDemand(c, pixclk); var h := if d < 0 then 0 else d;
      h + 16 < 0x1_0000 ==> 16 <= Hsd(c, pixclk) && h < Hsd(c, pixclk) <= h + 16
  {
    var d := HsdDemand(c, pixclk);
    var h := if d < 0 then 0 else d;
    assert Align16Past(h) == (h / 16 + 1) * 16;
  }

  /** `HOST_DPHY_LANE_STOP(l)`: `0xF >> (4 - l)`. */
  function LaneStopMask(l: nat): (r: bv32)
    requires l <= LANE_MAX
  {
    (0xF as bv32) >> (LANE_MAX - l) as bv32
  }

  /** For one to four lanes the mask has exactly the low `l` bits set. */
  lemma LaneStopLowBits(l: nat)
    requires 1 <= l <= LANE_MAX
    ensures LaneStopMask(l) == ((1 as bv32) << l as bv32) - 1
  {
    if l == 1 {
      assert LaneStopMask(1) == 1;
    } else if l == 2 {
      assert LaneStopMask(2) == 3;
    } else if l == 3 {
      assert LaneStopMask(3) == 7;
    } else {
      assert LaneStopMask(4) == 15;
    }
  }

  // ---------------------------------------------------------------------
  // The host

  /** `mipi_state_t`. */
  datatype MipiState = Default | Init | Start | Stop

  /** The registers of one IPI port: virtual channel, data type, mode, horizontal timing, features. */
  datatype IpiRegs = IpiRegs(vcid: nat, dataType: nat, mode: nat,
                             hsaTime: nat, hbpTime: nat, hsdTime: nat, advFeatures: nat)

  const IpiZero := IpiRegs(0, 0, 0, 0, 0, 0, 0)

  /** What `mipi_host_configure_ipi` writes to a port serving virtual channel `vc`. */
  function IpiSetting(c: HostCfg, vc: u16): (r: IpiRegs)
    ensures r.mode == IPI_MODE_48 && r.advFeatures == LEGACY_MODE_ENABLE
    ensures r.vcid == vc as nat && r.dataType == c.dataType as nat
    ensures r.hsaTime == c.hsaTime as nat && r.hbpTime == c.hbpTime as nat
    ensures r.hsdTime == c.hsdTime as nat
  {
    IpiRegs(vc as nat, c.dataType as nat, IPI_MODE_48,
            c.hsaTime as nat, c.hbpTime as nat, c.hsdTime as nat, LEGACY_MODE_ENABLE)
  }

  /**
   * The configuration `mipi_host_init` completes before programming the
   * IPI: a sync and back-porch time of 0 becomes the default 4, and a delay
   * of 0 the computed one, a multiple of 16.  Times already set are kept.
   */
  function Completed(c: HostCfg, pixclk: nat): (d: HostCfg)
    requires HsdComputable(c) && pixclk <= PIXCLK_DEFAULT
    ensures d.hsaTime == (if c.hsaTime != 0 then c.hsaTime else HSATIME as u16)
    ensures d.hbpTime == (if c.hbpTime != 0 then c.hbpTime else HBPTIME as u16)
    ensures c.hsdTime != 0 ==> d.hsdTime == c.hsdTime
    ensures c.hsdTime == 0 ==> d.hsdTime as nat % 16 == 0
    ensures c.hsdTime == 0 ==> d.hsdTime as nat == Hsd(c.(hsaTime := d.hsaTime, hbpTime := d.hbpTime), pixclk)
    ensures d == c.(hsaTime := d.hsaTime, hbpTime := d.hbpTime, hsdTime := d.hsdTime)
  {
    var withSync := c.(hsaTime := if c.hsaTime != 0 then c.hsaTime else HSATIME as u16,
                       hbpTime := if c.hbpTime != 0 then c.hbpTime else HBPTIME as u16);
    withSync.(hsdTime := if c.hsdTime != 0 then c.hsdTime else Hsd(withSync, pixclk) as u16)
  }

  /** `mipi_host_t` and the module statics around it. */
  class MipiHostDev {
    /** Whether `g_mipi_host` is set (probe reached its end). */
    var hostSet: bool
    var state: MipiState
    /** The controller's lane count, reset and shutdown registers. */
    var nLanes: nat
    var csi2Resetn: nat
    var phyShutdownz: nat
    var dphyRstz: nat
    /** The two IPI ports. */
    var ipi1: IpiRegs
    var ipi2: IpiRegs
    /** The registers by raw offset, as the register ioctls reach them. */
    var raw: map<nat, bv32>

    /** The allocation in probe does not zero the record: the state starts as `s`. */
    constructor (hostSet: bool, s: MipiState)
      ensures this.hostSet == hostSet && state == s && raw == map[]
      ensures ipi1 == IpiZero && ipi2 == IpiZero
    {
      this.hostSet := hostSet;
      state := s;
      nLanes, csi2Resetn, phyShutdownz, dphyRstz := 0, 0, 0, 0;
      ipi1, ipi2 := IpiZero, IpiZero;
      raw := map[];
    }

    /** The D-PHY and the controller are held in reset. */
    ghost predicate InReset()
      reads this
    {
      csi2Resetn == CSI2_RESETN && phyShutdownz == CSI2_RESETN && dphyRstz == CSI2_RESETN
    }

    /**
     * `mipi_host_configure_ipi` on a set-up host: the first port serves the
     * first selected channel, and the second port is programmed alike only
     * for a two-channel configuration.
     */
    method ConfigureIpi(c: HostCfg)
      modifies this`ipi1, this`ipi2
      ensures ipi1 == IpiSetting(c, c.channelSel0)
      ensures ipi2 == if c.channelNum as nat == CHANNEL_NUM then IpiSetting(c, c.channelSel1) else old(ipi2)
    {
      ipi1 := IpiSetting(c, c.channelSel0);
      if c.channelNum as nat == CHANNEL_NUM {
        ipi2 := IpiSetting(c, c.channelSel1);
      }
    }

    /** `mipi_host_deinit`: the PHY and the controller back in reset; nothing without a host. */
    method Deinit()
      modifies this`csi2Resetn, this`phyShutdownz, this`dphyRstz
      ensures hostSet ==> InReset()
      ensures !hostSet ==> unchanged(this)
    {
      if !hostSet {
        return;
      }
      dphyRstz := CSI2_RESETN;
      phyShutdownz := CSI2_RESETN;
      csi2Resetn := CSI2_RESETN;
    }

    /**
     * `mipi_host_init`, with the pixel clock tested for 0 before it is
     * divided, and the receive clock tested for 0 before the delay is
     * computed from it.  Without a host, with a raw pixel clock of 0, or with
     * a delay to compute over a receive clock of 0, it returns -1 before
     * touching a register.  `phyOk` is whether the D-PHY
     * initialisation (foreign, only when the PHY is built in) succeeds; on
     * failure the host is put back in reset and -1 returned.  Otherwise the
     * controller is released with `lane - 1` lanes and the IPI programmed
     * with the completed configuration, and the result is 0.
     */
    method HostInit(c: HostCfg, phyOk: bool) returns (r: int)
      modifies this`nLanes, this`csi2Resetn, this`phyShutdownz, this`dphyRstz, this`ipi1, this`ipi2
      ensures r == 0 || r == -1
      ensures r == 0 <==> hostSet && RawPixelClock(c) != 0 && HsdComputable(c) && phyOk
      ensures !hostSet || RawPixelClock(c) == 0 || !HsdComputable(c) ==> unchanged(this)
      ensures r != 0 && hostSet && RawPixelClock(c) != 0 && HsdComputable(c) ==>
                InReset() && ipi1 == old(ipi1) && ipi2 == old(ipi2)
      ensures r == 0 ==>
                && HsdComputable(c)
                && var done := Completed(c, PixelClkSelectChecked(c));
                && ipi1 == IpiSetting(done, c.channelSel0)
                && ipi2 == (if c.channelNum as nat == CHANNEL_NUM then IpiSetting(done, c.channelSel1)
                            else old(ipi2))
                && nLanes == Wrap32(c.lane as int - 1)
                && csi2Resetn == CSI2_RAISE && phyShutdownz == CSI2_RAISE && dphyRstz == CSI2_RAISE
    {
      if !hostSet {
        return -1;
      }
      var pixclk := PixelClkSelectChecked(c);
      if pixclk == 0 || !HsdComputable(c) {
        return -1;
      }
      csi2Resetn := CSI2_RESETN;
      dphyRstz := CSI2_RESETN;
      phyShutdownz := CSI2_RESETN;
      if !phyOk {
        Deinit();
        return -1;
      }
      phyShutdownz := CSI2_RAISE;
      dphyRstz := CSI2_RAISE;
      nLanes := Wrap32(c.lane as int - 1);
      csi2Resetn := CSI2_RAISE;
      ConfigureIpi(Completed(c, pixclk));
      r := 0;
    }

    /**
     * `mipi_host_start`: -1 without a host, 0 otherwise (the optional wait for
     * high-speed reception only returns once the PHY reports it).
     */
    method HostStart() returns (r: int)
      ensures r == 0 <==> hostSet
      ensures r == 0 || r == -1
    {
      if !hostSet {
        return -1;
      }
      r := 0;
    }

    /**
     * `x2_mipi_host_ioctl`.  A command of another driver is refused with
     * -ENOTTY.  INIT with a configuration runs `mipi_host_init` from any
     * state and moves to INIT; a failed copy returns -EINVAL, a failed
     * initialisation -1, both leaving the state alone; a null argument
     * changes nothing and still returns 0.  DEINIT resets the host unless it
     * is in DEFAULT, and moves to DEFAULT.  START is accepted from INIT or
     * STOP, STOP from START; repeating the current state, or a command from
     * any other state, changes nothing and returns 0.  A register write whose
     * read-back (from the hardware) differs returns -EINVAL.
     */
    method Ioctl(cmd: HostCommand) returns (r: int)
      modifies this
      ensures hostSet == old(hostSet)
      ensures !cmd.InitCmd? && !cmd.DeinitCmd? ==>
                nLanes == old(nLanes) && csi2Resetn == old(csi2Resetn)
                && phyShutdownz == old(phyShutdownz) && dphyRstz == old(dphyRstz)
                && ipi1 == old(ipi1) && ipi2 == old(ipi2)
      ensures !cmd.WriteCmd? ==> raw == old(raw)
      ensures cmd.Foreign? ==> r == -ENOTTY && state == old(state)
      ensures cmd.InitCmd? ==>
                && (cmd.cfg.None? || !cmd.copyOk ==> unchanged(this))
                && (cmd.cfg.None? ==> r == 0)
                && (cmd.cfg.Some? && !cmd.copyOk ==> r == -EINVAL)
                && (cmd.cfg.Some? && cmd.copyOk ==>
                      && (r == 0 <==>
                            hostSet && RawPixelClock(cmd.cfg.value) != 0
                            && HsdComputable(cmd.cfg.value) && cmd.phyOk)
                      && (r == 0 ==> state == Init)
                      && (r != 0 ==> r == -1 && state == old(state)))
      ensures cmd.DeinitCmd? ==>
                && r == 0 && state == Default
                && ipi1 == old(ipi1) && ipi2 == old(ipi2) && nLanes == old(nLanes)
                && (old(state) != Default && hostSet ==> InReset())
                && (old(state) == Default || !hostSet ==>
                      csi2Resetn == old(csi2Resetn) && phyShutdownz == old(phyShutdownz)
                      && dphyRstz == old(dphyRstz))
      ensures cmd.StartCmd? ==>
                && (old(state) == Start ==> r == 0 && state == Start)
                && (old(state) in {Init, Stop} ==>
                      (hostSet ==> r == 0 && state == Start)
                      && (!hostSet ==> r == -1 && state == old(state)))
                && (old(state) == Default ==> r == 0 && state == Default)
      ensures cmd.StopCmd? ==>
                && r == 0
                && (old(state) in {Start, Stop} ==> state == Stop)
                && (old(state) in {Default, Init} ==> state == old(state))
      ensures cmd.ReadCmd? ==> state == old(state) && (r == 0 <==> cmd.argOk && cmd.copyOk)
      ensures cmd.ReadCmd? && r != 0 ==> r == -EINVAL
      ensures cmd.WriteCmd? ==>
                && state == old(state)
                && (!cmd.argOk || !cmd.copyOk ==> r == -EINVAL && raw == old(raw))
                && (cmd.argOk && cmd.copyOk ==>
                      raw == old(raw)[cmd.offset := cmd.value]
                      && (r == 0 <==> cmd.readback == cmd.value)
                      && (r != 0 ==> r == -EINVAL))
      ensures cmd.OtherCmd? ==> r == 0 && state == old(state)
    {
      match cmd {
        case Foreign =>
          return -ENOTTY;
        case InitCmd(cfg, copyOk, phyOk) =>
          if cfg.None? {
            return 0;
          }
          if !copyOk {
            return -EINVAL;
          }
          var ret := HostInit(cfg.value, phyOk);
          if ret != 0 {
            return -1;
          }
          state := Init;
        case DeinitCmd =>
          if state == Default {
            return 0;
          }
          // From START `mipi_host_stop` runs first; it does nothing.
          Deinit();
          state := Default;
        case StartCmd =>
          if state == Start {
            return 0;
          } else if state != Init && state != Stop {
            return 0;
          }
          var ret := HostStart();
          if ret != 0 {
            return -1;
          }
          state := Start;
        case StopCmd =>
          if state == Stop {
            return 0;
          } else if state != Start {
            return 0;
          }
          state := Stop;
        case ReadCmd(argOk, copyOk) =>
          if !argOk || !copyOk {
            return -EINVAL;
          }
        case WriteCmd(argOk, copyOk, offset, value, readback) =>
          if !argOk || !copyOk {
            return -EINVAL;
          }
          raw := raw[offset := value];
          if readback != value {
            return -EINVAL;
          }
        case OtherCmd =>
      }
      r := 0;
    }
  }

  /**
   * The ioctl commands, with what the user passes and what the foreign
   * calls report: whether the argument is non-null, whether
   * `copy_from_user`/`copy_to_user` succeed, whether the D-PHY initialises,
   * and what the hardware reads back.
   */
  datatype HostCommand =
    | Foreign
    | InitCmd(cfg: Option<HostCfg>, copyOk: bool, phyOk: bool)
    | DeinitCmd
    | StartCmd
    | StopCmd
    | ReadCmd(argOk: bool, copyOk: bool)
    | WriteCmd(argOk: bool, copyOk: bool, offset: nat, value: bv32, readback: bv32)
    | OtherCmd
}
