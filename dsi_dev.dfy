/**
 * The DSI host device record shared by the DSI host helper files: the four
 * register windows it maps, the DPI and eDPI parameter sets with their
 * `_old` shadows, and the controller defaults `mipi_dsi_init_param` sets.
 */
module DsiDev {
  import opened RegWindow

  /** `(uint32_t)-ENODEV`: what a word read returns for a missing device. */
  const ENODEV: int := 19
  const ENODEV_WORD: bv32 := 0xFFFF_FFED
  const EINVAL: int := 22
  const ENOMEM: int := 12

  /** Display identifiers. */
  const TREMOLO_S: int := 1
  const TREMOLO_M: int := 2
  const SHARP_LS045K3SX02: int := 3
  const RPI_DISPLAY: int := 4
  const SNPS_DSI_DEVICE: int := 5

  /** The `video_mode` argument of the platform and screen set-up. */
  const VIDEO_MODE: int := 0
  const COMMAND_MODE: int := 1

  /** The displays the parameter tables know. */
  predicate KnownDisplay(mode: int)
  {
    mode == TREMOLO_S || mode == TREMOLO_M || mode == SHARP_LS045K3SX02
    || mode == RPI_DISPLAY || mode == SNPS_DSI_DEVICE
  }

  /**
   * DPI video transmission modes and the 24-bit colour code.  Their header is
   * not part of this model; the values only need to be distinct, and 4 is the
   * value `mipi_dsi_init_param` documents as invalid.
   */
  const VIDEO_NON_BURST_WITH_SYNC_PULSES: int := 0
  const VIDEO_BURST_WITH_SYNC_PULSES: int := 2
  const VIDEO_MODE_INVALID: int := 4
  const COLOR_CODE_24BIT: int := 5

  /** `dsih_dpi_video_t`: the DPI (video mode) parameter set. */
  datatype DpiVideo = DpiVideo(
    noOfLanes: int,
    nonContinuousClock: int,
    virtualChannel: int,
    videoMode: int,
    byteClock: int,
    pixelClock: int,
    colorCoding: int,
    is18Loosely: int,
    hPolarity: int,
    hActivePixels: int,
    hSyncPixels: int,
    hBackPorchPixels: int,
    hTotalPixels: int,
    vPolarity: int,
    vActiveLines: int,
    vSyncLines: int,
    vBackPorchLines: int,
    vTotalLines: int,
    maxHsToLpCycles: int,
    maxLpToHsCycles: int,
    maxClkHsToLpCycles: int,
    maxClkLpToHsCycles: int,
    eotpRxEn: int,
    eotpTxEn: int,
    noOfChunks: int,
    nullPacketSize: int,
    dpiLpCmdEn: int,
    displayType: int,
    receiveAckPackets: int,
    dataEnPolarity: int,
    hline: int)

  /** `dsih_cmd_mode_video_t`: the eDPI (command mode) parameter set. */
  datatype CmdModeVideo = CmdModeVideo(
    colorCoding: int,
    virtualChannel: int,
    lp: int,
    te: int,
    bta: int,
    hStart: int,
    hActivePixels: int,
    packetSize: int,
    vStart: int,
    vActiveLines: int,
    noOfLanes: int,
    byteClock: int,
    pixelClock: int,
    displayType: int)

  const ZeroDpi := DpiVideo(0, 0, 0, 0, 0, 0, 0, 0, 0, 0, 0, 0, 0, 0, 0, 0,
                            0, 0, 0, 0, 0, 0, 0, 0, 0, 0, 0, 0, 0, 0, 0)
  const ZeroCmd := CmdModeVideo(0, 0, 0, 0, 0, 0, 0, 0, 0, 0, 0, 0, 0, 0)

  /** The part of `fb_var_screeninfo` the framebuffer set-up fills in. */
  datatype FbVar = FbVar(
    xres: int, yres: int, xresVirtual: int, yresVirtual: int,
    xoffset: int, yoffset: int, bitsPerPixel: int, grayscale: int,
    height: int, width: int, pixclock: int,
    leftMargin: int, rightMargin: int, upperMargin: int, lowerMargin: int,
    hsyncLen: int, vsyncLen: int)

  const ZeroVar := FbVar(0, 0, 0, 0, 0, 0, 0, 0, 0, 0, 0, 0, 0, 0, 0, 0, 0)

  /** The objects a helper that tolerates a null device may write: none for null. */
  function Present(dev: MipiDsiDev?): set<MipiDsiDev>
  {
    if dev == null then {} else {dev}
  }

  /**
   * The parts of a device the framebuffer ioctl and the platform set-up
   * change: the core and bridge windows, the DPI and eDPI sets with their
   * shadows, and the recorded PHY settings.
   */
  datatype DevView = DevView(core: Window, bridge: Window, dpiVideo: DpiVideo, dpiVideoOld: DpiVideo,
                             cmdModeVideo: CmdModeVideo, cmdModeVideoOld: CmdModeVideo,
                             phyLanes: int, phyOutputFreq: int)

  /** `struct mipi_dsi_dev`. */
  class MipiDsiDev {
    /** Register windows: the core, the video bridge, the D-PHY Gen3 interface, the MMCM. */
    var core: Window
    var bridge: Window
    var gen3: Window
    var mmcm: Window

    var dpiVideo: DpiVideo
    var dpiVideoOld: DpiVideo
    var cmdModeVideo: CmdModeVideo
    var cmdModeVideoOld: CmdModeVideo

    /** `phy.reference_freq`, `phy.lanes` and `phy.output_freq`. */
    var phyReferenceFreq: int
    var phyLanes: int
    var phyOutputFreq: int

    var maxLanes: int
    var maxBtaCycles: int
    var colorModePolarity: int
    var shutDownPolarity: int

    /** `fb.info.var`: the framebuffer's variable screen information. */
    var fbVar: FbVar

    /** Nesting depth of `disable_irq` on `irq_core` and `irq_vif`. */
    var coreIrqDepth: int
    var vifIrqDepth: int

    /** How many times `mipi_dsih_reset_controller` has been called on this device. */
    ghost var resets: nat

    function View(): DevView
      reads this`core, this`bridge, this`dpiVideo, this`dpiVideoOld, this`cmdModeVideo,
            this`cmdModeVideoOld, this`phyLanes, this`phyOutputFreq
    {
      DevView(core, bridge, dpiVideo, dpiVideoOld, cmdModeVideo, cmdModeVideoOld, phyLanes, phyOutputFreq)
    }

    /** A device as the zeroing allocation in probe leaves it. */
    constructor ()
      ensures core == map[] && bridge == map[] && gen3 == map[] && mmcm == map[]
      ensures dpiVideo == ZeroDpi && dpiVideoOld == ZeroDpi
      ensures cmdModeVideo == ZeroCmd && cmdModeVideoOld == ZeroCmd
      ensures coreIrqDepth == 0 && vifIrqDepth == 0 && resets == 0
      ensures phyReferenceFreq == 0 && phyLanes == 0 && phyOutputFreq == 0
      ensures maxLanes == 0 && maxBtaCycles == 0 && colorModePolarity == 0 && shutDownPolarity == 0
      ensures fbVar == ZeroVar
    {
      core, bridge, gen3, mmcm := map[], map[], map[], map[];
      dpiVideo, dpiVideoOld := ZeroDpi, ZeroDpi;
      cmdModeVideo, cmdModeVideoOld := ZeroCmd, ZeroCmd;
      phyReferenceFreq, phyLanes, phyOutputFreq := 0, 0, 0;
      maxLanes, maxBtaCycles, colorModePolarity, shutDownPolarity := 0, 0, 0, 0;
      fbVar := ZeroVar;
      coreIrqDepth, vifIrqDepth := 0, 0;
      resets := 0;
    }
  }
}
