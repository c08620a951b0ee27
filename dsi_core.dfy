/**
 * `dsih_core.c`: the controller defaults, the platform bring-up dispatch and
 * the two interrupt handlers' device checks.  The allocation-tracking list of
 * the same file is the module `DsiAlloc`.
 */
module DsiCore {
  import opened RegWindow
  import opened DsiDev
  import DsiDisplays
  import DsiVideo

  /** The driver's boolean success value. */
  const TRUE: int := 1

  /** D-PHY reference clock in kHz, for the Gen3 PHY and otherwise. */
  const REFERENCE_FREQ_GEN3: int := 24000
  const REFERENCE_FREQ_OTHER: int := 27000

  /** The DPI set-up `mipi_dsi_init_param` leaves once the host is open. */
  function InitialDpi(p: DpiVideo): (r: DpiVideo)
    ensures r.videoMode == VIDEO_MODE_INVALID && r.noOfLanes == 1
    ensures r.hActivePixels == 0 && r.vActiveLines == 0
    ensures r.colorCoding == p.colorCoding && r.displayType == p.displayType
  {
    p.(noOfLanes := 1, nonContinuousClock := 0, virtualChannel := 0,
       videoMode := VIDEO_MODE_INVALID, byteClock := 0, pixelClock := 0,
       is18Loosely := 0, hPolarity := 0, hActivePixels := 0, hSyncPixels := 0,
       hBackPorchPixels := 0, hTotalPixels := 0, vPolarity := 0, vActiveLines := 0,
       vSyncLines := 0, vBackPorchLines := 0, vTotalLines := 0,
       maxHsToLpCycles := 50, maxLpToHsCycles := 153,
       maxClkHsToLpCycles := 66, maxClkLpToHsCycles := 181)
  }

  /** The eDPI set-up `mipi_dsi_init_param` leaves once the host is open. */
  function InitialEdpi(p: CmdModeVideo): (r: CmdModeVideo)
    ensures r.hActivePixels == 0 && r.vActiveLines == 0 && r.packetSize == 0
    ensures r.noOfLanes == p.noOfLanes && r.colorCoding == p.colorCoding
  {
    p.(virtualChannel := 0, lp := 0, te := 0, bta := 0, hStart := 0,
       hActivePixels := 0, packetSize := 0, vStart := 0, vActiveLines := 0)
  }

  /**
   * `mipi_dsi_init_param`.  The PHY reference clock is stored through `dev`
   * before the function tests `dev` for null, so a null device faults before
   * the test can return -ENODEV: callers must pass a device.  `gen3` is the
   * build's `GEN_3` switch and `openResult` the `uint8_t` that
   * `mipi_dsih_open` returns (foreign).  The controller limits are set in
   * every case; the result is `openResult`, and the DPI and eDPI parameter
   * sets are reset only when the open succeeded.
   */
  method InitParam(dev: MipiDsiDev, gen3: bool, openResult: int) returns (r: int)
    requires 0 <= openResult < 256
    modifies dev`phyReferenceFreq, dev`maxLanes, dev`maxBtaCycles,
             dev`colorModePolarity, dev`shutDownPolarity, dev`dpiVideo, dev`cmdModeVideo
    ensures r == openResult
    ensures dev.phyReferenceFreq == if gen3 then REFERENCE_FREQ_GEN3 else REFERENCE_FREQ_OTHER
    ensures dev.maxLanes == 4 && dev.maxBtaCycles == 4095
    ensures dev.colorModePolarity == 1 && dev.shutDownPolarity == 1
    ensures openResult != TRUE ==>
              dev.dpiVideo == old(dev.dpiVideo) && dev.cmdModeVideo == old(dev.cmdModeVideo)
    ensures openResult == TRUE ==>
              dev.dpiVideo == InitialDpi(old(dev.dpiVideo))
              && dev.cmdModeVideo == InitialEdpi(old(dev.cmdModeVideo))
  {
    dev.phyReferenceFreq := if gen3 then REFERENCE_FREQ_GEN3 else REFERENCE_FREQ_OTHER;
    dev.maxLanes := 4;
    dev.maxBtaCycles := 4095;
    dev.colorModePolarity := 1;
    dev.shutDownPolarity := 1;
    if openResult != TRUE {
      return openResult;
    }
    dev.dpiVideo := InitialDpi(dev.dpiVideo);
    dev.cmdModeVideo := InitialEdpi(dev.cmdModeVideo);
    r := TRUE;
  }

  /**
   * The parameter sets and the bridge as `dsi_platform_init` leaves them:
   * `v'` against the device `v` before the call.
   */
  ghost predicate PlatformInitDone(display: int, videoMode: int, lanes: int, v: DevView, v': DevView)
  {
    && (videoMode == COMMAND_MODE ==>
          && (DsiDisplays.CommandModeDisplay(display) ==>
                v'.cmdModeVideo == DsiDisplays.CmdModeParams(v.cmdModeVideo, display, lanes)
                && v'.cmdModeVideoOld == DsiDisplays.CopyEdpi(v'.cmdModeVideo, v.cmdModeVideoOld))
          && (!DsiDisplays.CommandModeDisplay(display) ==>
                v'.cmdModeVideo == v.cmdModeVideo && v'.cmdModeVideoOld == v.cmdModeVideoOld)
          && (KnownDisplay(display) ==>
                DsiVideo.BridgeConfigured(v'.bridge, display)
                && SameExcept(v'.bridge, v.bridge, DsiVideo.ConfigRegs() + {DsiVideo.Addr(DsiVideo.EDPICTRL)})
                && v'.dpiVideo == v.dpiVideo.(hline := Word(v'.bridge, DsiVideo.Addr(DsiVideo.LINE_TIME)) as int))
          && (!KnownDisplay(display) ==>
                v'.dpiVideo == v.dpiVideo && SameExcept(v.bridge, v'.bridge, {DsiVideo.Addr(DsiVideo.EDPICTRL)}))
          && Word(v'.bridge, DsiVideo.Addr(DsiVideo.EDPICTRL)) == 1
          && v'.dpiVideoOld == v.dpiVideoOld)
    && (videoMode == VIDEO_MODE ==>
          && (KnownDisplay(display) ==>
                var applied := DsiDisplays.VideoModeParams(v.dpiVideo, display, lanes);
                && v'.dpiVideoOld == DsiDisplays.CopyDpi(applied, v.dpiVideoOld)
                && v'.dpiVideo == applied.(hline := Word(v'.bridge, DsiVideo.Addr(DsiVideo.LINE_TIME)) as int)
                && DsiVideo.BridgeConfigured(v'.bridge, display)
                && SameExcept(v'.bridge, v.bridge, DsiVideo.ConfigRegs()))
          && (!KnownDisplay(display) ==>
                v'.dpiVideo == v.dpiVideo && v'.dpiVideoOld == v.dpiVideoOld && v'.bridge == v.bridge)
          && v'.cmdModeVideo == v.cmdModeVideo && v'.cmdModeVideoOld == v.cmdModeVideoOld)
    && (videoMode != COMMAND_MODE && videoMode != VIDEO_MODE ==>
          && v'.dpiVideo == v.dpiVideo && v'.dpiVideoOld == v.dpiVideoOld
          && v'.cmdModeVideo == v.cmdModeVideo && v'.cmdModeVideoOld == v.cmdModeVideoOld
          && v'.bridge == v.bridge)
  }

  /**
   * `dsi_platform_init`.  In command mode the display's eDPI row is applied
   * and, when `pre_command_mode` accepted the display, saved into the shadow
   * copy; the bridge is configured and eDPI turned on.  In video mode the
   * display's DPI row is applied and, when accepted, saved into the shadow;
   * the bridge is configured and the row applied once more.  Any other mode
   * only logs.  The controller is reset in every case.  The screen's command
   * script and the controller programming (`mipi_dsih_*`) are foreign.
   */
  method PlatformInit(dev: MipiDsiDev, display: int, videoMode: int, lanes: int)
    modifies dev`bridge, dev`dpiVideo, dev`dpiVideoOld, dev`cmdModeVideo, dev`cmdModeVideoOld, dev`resets
    ensures dev.resets == old(dev.resets) + 1
    ensures PlatformInitDone(display, videoMode, lanes, old(dev.View()), dev.View())
  {
    if videoMode == COMMAND_MODE {
      PlatformCommandMode(dev, display, lanes);
    } else if videoMode == VIDEO_MODE {
      PlatformVideoMode(dev, display, lanes);
    }
    dev.resets := dev.resets + 1;
  }

  /** The command-mode branch of `dsi_platform_init`. */
  method PlatformCommandMode(dev: MipiDsiDev, display: int, lanes: int)
    modifies dev`bridge, dev`dpiVideo, dev`cmdModeVideo, dev`cmdModeVideoOld
    ensures PlatformInitDone(display, COMMAND_MODE, lanes, old(dev.View()), dev.View())
  {
    var pre := DsiDisplays.PreCommandMode(dev, display, lanes);
    if pre == 0 {
      dev.cmdModeVideoOld := DsiDisplays.CopyEdpi(dev.cmdModeVideo, dev.cmdModeVideoOld);
    }
    CommandBridge(dev, display);
  }

  /** The bridge half of the command-mode branch: `video_if_config`, then eDPI turned on. */
  method CommandBridge(dev: MipiDsiDev, display: int)
    modifies dev`bridge, dev`dpiVideo
    ensures KnownDisplay(display) ==>
      && DsiVideo.BridgeConfigured(dev.bridge, display)
      && SameExcept(dev.bridge, old(dev.bridge), DsiVideo.ConfigRegs() + {DsiVideo.Addr(DsiVideo.EDPICTRL)})
      && dev.dpiVideo == old(dev.dpiVideo).(hline := Word(dev.bridge, DsiVideo.Addr(DsiVideo.LINE_TIME)) as int)
    ensures !KnownDisplay(display) ==>
      dev.dpiVideo == old(dev.dpiVideo) && SameExcept(old(dev.bridge), dev.bridge, {DsiVideo.Addr(DsiVideo.EDPICTRL)})
    ensures Word(dev.bridge, DsiVideo.Addr(DsiVideo.EDPICTRL)) == 1
  {
    var _ := DsiVideo.Config(dev, display);
    ghost var configured := dev.bridge;
    DsiVideo.Edpi(dev, 1);
    if KnownDisplay(display) {
      DsiVideo.ConfiguredKept(configured, dev.bridge, display);
      SameExceptChain(old(dev.bridge), configured, dev.bridge, DsiVideo.ConfigRegs(), {DsiVideo.Addr(DsiVideo.EDPICTRL)});
    }
  }

  /** The video-mode branch of `dsi_platform_init`: the DPI row is applied again after the bridge set-up. */
  method PlatformVideoMode(dev: MipiDsiDev, display: int, lanes: int)
    modifies dev`bridge, dev`dpiVideo, dev`dpiVideoOld
    ensures PlatformInitDone(display, VIDEO_MODE, lanes, old(dev.View()), dev.View())
  {
    ghost var v0 := dev.View();
    var pre := DsiDisplays.PreVideoMode(dev, display, lanes);
    if pre == 0 {
      dev.dpiVideoOld := DsiDisplays.CopyDpi(dev.dpiVideo, dev.dpiVideoOld);
    }
    var _ := DsiVideo.Config(dev, display);
    ghost var h := dev.dpiVideo.hline;
    var _ := DsiDisplays.PreVideoMode(dev, display, lanes);
    if KnownDisplay(display) {
      DsiDisplays.ReapplyVideoRow(v0.dpiVideo, display, lanes, h);
      assert h == Word(dev.bridge, DsiVideo.Addr(DsiVideo.LINE_TIME)) as int;
    }
  }

  /** What an interrupt handler reports. */
  datatype IrqReturn = IrqNone | IrqHandled

  /**
   * `dwc_mipi_dsi_handler` and `videobridge_handler`: both only check the
   * cookie (the core handler's status reads are logged and change nothing).
   */
  function Handler(devId: MipiDsiDev?): (r: IrqReturn)
    ensures r == IrqNone <==> devId == null
  {
    if devId == null then IrqNone else IrqHandled
  }
}
