/**
 * `dsih_displays.c`: the per-display DPI and eDPI parameter tables, the
 * selective copies between a parameter set and its `_old` shadow, and the
 * outcome of the panel wake-up scripts.
 *
 * The parameter sets are fields of the device held by value, so a copy
 * between them is a function from the two old values to the new target.
 */
module DsiDisplays {
  import opened DsiDev

  // ---------------------------------------------------------------------
  // Shadow copies

  /**
   * `copy_dpi_param_changes(from, to)`: the new `to`.  Every field but
   * `display_type`, `receive_ack_packets`, `data_en_polarity` and `hline`
   * comes from `from`; those four keep `to`'s values.
   */
  function CopyDpi(from: DpiVideo, to: DpiVideo): (r: DpiVideo)
    ensures r.(displayType := from.displayType, receiveAckPackets := from.receiveAckPackets,
               dataEnPolarity := from.dataEnPolarity, hline := from.hline) == from
    ensures r.displayType == to.displayType && r.receiveAckPackets == to.receiveAckPackets
    ensures r.dataEnPolarity == to.dataEnPolarity && r.hline == to.hline
  {
    DpiVideo(
      from.noOfLanes, from.nonContinuousClock, from.virtualChannel, from.videoMode,
      from.byteClock, from.pixelClock, from.colorCoding, from.is18Loosely,
      from.hPolarity, from.hActivePixels, from.hSyncPixels, from.hBackPorchPixels,
      from.hTotalPixels, from.vPolarity, from.vActiveLines, from.vSyncLines,
      from.vBackPorchLines, from.vTotalLines, from.maxHsToLpCycles, from.maxLpToHsCycles,
      from.maxClkHsToLpCycles, from.maxClkLpToHsCycles, from.eotpRxEn, from.eotpTxEn,
      from.noOfChunks, from.nullPacketSize, from.dpiLpCmdEn,
      to.displayType, to.receiveAckPackets, to.dataEnPolarity, to.hline)
  }

  /**
   * `copy_edpi_param_changes(from, to)`: the new `to`.  Every field but
   * `display_type` comes from `from`.
   */
  function CopyEdpi(from: CmdModeVideo, to: CmdModeVideo): (r: CmdModeVideo)
    ensures r.(displayType := from.displayType) == from
    ensures r.displayType == to.displayType
  {
    CmdModeVideo(
      from.colorCoding, from.virtualChannel, from.lp, from.te, from.bta,
      from.hStart, from.hActivePixels, from.packetSize, from.vStart,
      from.vActiveLines, from.noOfLanes, from.byteClock, from.pixelClock,
      to.displayType)
  }

  /**
   * Rolling back from a shadow taken just before restores the current set:
   * the fields not copied are the current set's own both times.
   */
  lemma DpiRollbackRestores(cur: DpiVideo, shadow: DpiVideo)
    ensures CopyDpi(CopyDpi(cur, shadow), cur) == cur
  {
  }

  lemma EdpiRollbackRestores(cur: CmdModeVideo, shadow: CmdModeVideo)
    ensures CopyEdpi(CopyEdpi(cur, shadow), cur) == cur
  {
  }

  /** Copying twice is copying once. */
  lemma CopyIdempotent(from: DpiVideo, to: DpiVideo, cfrom: CmdModeVideo, cto: CmdModeVideo)
    ensures CopyDpi(from, CopyDpi(from, to)) == CopyDpi(from, to)
    ensures CopyEdpi(cfrom, CopyEdpi(cfrom, cto)) == CopyEdpi(cfrom, cto)
  {
  }

  // ---------------------------------------------------------------------
  // DPI (video mode) table

  /**
   * The DPI parameters `pre_video_mode` leaves for a known display, starting
   * from `p`: the fields every display sets, then the display's own row.
   * Fields a row does not set keep their values from `p`.
   */
  function VideoModeParams(p: DpiVideo, mode: int, lanes: int): DpiVideo
    requires KnownDisplay(mode)
  {
    var common := p.(displayType := mode, noOfLanes := lanes, virtualChannel := 0,
                     colorCoding := COLOR_CODE_24BIT, receiveAckPackets := 0,
                     is18Loosely := 0, dataEnPolarity := 1, hPolarity := 0,
                     vPolarity := 0, dpiLpCmdEn := 0);
    if mode == TREMOLO_S then
      common.(byteClock := 432000 / 8, videoMode := VIDEO_BURST_WITH_SYNC_PULSES,
              pixelClock := 85000,
              hActivePixels := 960, hSyncPixels := 20, hBackPorchPixels := 20, hTotalPixels := 4000,
              vActiveLines := 540, vSyncLines := 2, vBackPorchLines := 2, vTotalLines := 546,
              noOfChunks := 0, nullPacketSize := 0, eotpRxEn := 0, eotpTxEn := 0)
    else if mode == TREMOLO_M then
      common.(byteClock := 432000 / 8, videoMode := VIDEO_BURST_WITH_SYNC_PULSES,
              pixelClock := 85000,
              hActivePixels := 800, hSyncPixels := 20, hBackPorchPixels := 20, hTotalPixels := 4000,
              vActiveLines := 480, vSyncLines := 2, vBackPorchLines := 2, vTotalLines := 500,
              noOfChunks := 0, nullPacketSize := 0, eotpRxEn := 0, eotpTxEn := 0)
    else if mode == SHARP_LS045K3SX02 then
      common.(byteClock := 498000 / 8, videoMode := VIDEO_BURST_WITH_SYNC_PULSES,
              pixelClock := 85000,
              hActivePixels := 800, hSyncPixels := 2, hBackPorchPixels := 4, hTotalPixels := 2500,
              vActiveLines := 1280, vSyncLines := 2, vBackPorchLines := 3, vTotalLines := 1284,
              maxHsToLpCycles := 52, maxLpToHsCycles := 66,
              maxClkHsToLpCycles := 84, maxClkLpToHsCycles := 114,
              noOfChunks := 0, nullPacketSize := 0)
    else
      // RPI_DISPLAY and SNPS_DSI_DEVICE share one row.
      common.(byteClock := 664000 / 8, videoMode := VIDEO_NON_BURST_WITH_SYNC_PULSES,
              pixelClock := 25000,
              hActivePixels := 800, hSyncPixels := 50, hBackPorchPixels := 87, hTotalPixels := 3417,
              vActiveLines := 480, vSyncLines := 20, vBackPorchLines := 7, vTotalLines := 509,
              eotpRxEn := 1, eotpTxEn := 1, noOfChunks := 1, nullPacketSize := 1)
  }

  /** Applying a display's DPI row again changes nothing but what the bridge set-up wrote into `hline`. */
  lemma ReapplyVideoRow(p: DpiVideo, mode: int, lanes: int, h: int)
    requires KnownDisplay(mode)
    ensures VideoModeParams(VideoModeParams(p, mode, lanes).(hline := h), mode, lanes)
            == VideoModeParams(p, mode, lanes).(hline := h)
  {
  }

  /**
   * `pre_video_mode`: -ENODEV without a device; 1 and no change for an
   * unknown display; otherwise 0 with the display's row applied.
   */
  method PreVideoMode(dev: MipiDsiDev?, mode: int, lanes: int) returns (r: int)
    modifies Present(dev)`dpiVideo
    ensures dev == null ==> r == -ENODEV
    ensures dev != null && !KnownDisplay(mode) ==> r == 1 && dev.dpiVideo == old(dev.dpiVideo)
    ensures dev != null && KnownDisplay(mode) ==>
              r == 0 && dev.dpiVideo == VideoModeParams(old(dev.dpiVideo), mode, lanes)
  {
    if dev == null {
      return -ENODEV;
    }
    if !KnownDisplay(mode) {
      return 1;
    }
    dev.dpiVideo := VideoModeParams(dev.dpiVideo, mode, lanes);
    r := 0;
  }

  /** Every row records the display and the lane count, on channel 0, in 24-bit colour. */
  lemma VideoModeIdentifies(p: DpiVideo, mode: int, lanes: int)
    requires KnownDisplay(mode)
    ensures var r := VideoModeParams(p, mode, lanes);
      r.displayType == mode && r.noOfLanes == lanes && r.virtualChannel == 0
      && r.colorCoding == COLOR_CODE_24BIT && r.dataEnPolarity == 1
  {
  }

  /**
   * The resolutions: TREMOLO_S is 960x540 in a 4000x546 frame, SHARP is
   * 800x1280, the others 800x480.
   */
  lemma VideoModeResolution(p: DpiVideo, mode: int, lanes: int)
    requires KnownDisplay(mode)
    ensures var r := VideoModeParams(p, mode, lanes);
      if mode == TREMOLO_S then
        r.hActivePixels == 960 && r.vActiveLines == 540
        && r.hTotalPixels == 4000 && r.vTotalLines == 546
      else if mode == SHARP_LS045K3SX02 then r.hActivePixels == 800 && r.vActiveLines == 1280
      else r.hActivePixels == 800 && r.vActiveLines == 480
  {
  }

  /**
   * What a row leaves alone: the clock mode and `hline` always; the maximum
   * transition cycles except on SHARP; the EoTp enables on SHARP.
   */
  lemma VideoModeKeeps(p: DpiVideo, mode: int, lanes: int)
    requires KnownDisplay(mode)
    ensures var r := VideoModeParams(p, mode, lanes);
      && r.nonContinuousClock == p.nonContinuousClock && r.hline == p.hline
      && (mode != SHARP_LS045K3SX02 ==>
            r.maxHsToLpCycles == p.maxHsToLpCycles && r.maxLpToHsCycles == p.maxLpToHsCycles
            && r.maxClkHsToLpCycles == p.maxClkHsToLpCycles
            && r.maxClkLpToHsCycles == p.maxClkLpToHsCycles)
      && (mode == SHARP_LS045K3SX02 ==> r.eotpRxEn == p.eotpRxEn && r.eotpTxEn == p.eotpTxEn)
  {
  }

  /**
   * Each row's active area plus sync plus back porch fits in its total,
   * except SHARP's vertical total, which is one line short.
   */
  lemma VideoModeBlankingFits(p: DpiVideo, mode: int, lanes: int)
    requires KnownDisplay(mode)
    ensures var r := VideoModeParams(p, mode, lanes);
      && r.hActivePixels + r.hSyncPixels + r.hBackPorchPixels <= r.hTotalPixels
      && (mode != SHARP_LS045K3SX02 ==>
            r.vActiveLines + r.vSyncLines + r.vBackPorchLines <= r.vTotalLines)
      && (mode == SHARP_LS045K3SX02 ==>
            r.vActiveLines + r.vSyncLines + r.vBackPorchLines == r.vTotalLines + 1)
  {
  }

  // ---------------------------------------------------------------------
  // eDPI (command mode) table

  /** The displays `pre_command_mode` knows: all but SHARP. */
  predicate CommandModeDisplay(mode: int)
  {
    mode == TREMOLO_S || mode == TREMOLO_M || mode == RPI_DISPLAY || mode == SNPS_DSI_DEVICE
  }

  /** The eDPI parameters `pre_command_mode` leaves for a known display, starting from `p`. */
  function CmdModeParams(p: CmdModeVideo, mode: int, lanes: int): CmdModeVideo
    requires CommandModeDisplay(mode)
  {
    var common := p.(displayType := mode, noOfLanes := lanes, virtualChannel := 0,
                     colorCoding := COLOR_CODE_24BIT, lp := 0, te := 0,
                     hStart := 0, vStart := 0);
    if mode == TREMOLO_S then
      common.(pixelClock := 85000, byteClock := 432000 / 8,
              hActivePixels := 960, vActiveLines := 540)
    else if mode == TREMOLO_M then
      common.(pixelClock := 85000, byteClock := 432000 / 8,
              hActivePixels := 800, vActiveLines := 480)
    else if mode == RPI_DISPLAY then
      common.(pixelClock := 25000, byteClock := 664000 / 8,
              hActivePixels := 800, vActiveLines := 480)
    else
      common.(pixelClock := 25000, byteClock := 664000 / 8,
              hActivePixels := 800, vActiveLines := 480, bta := 1)
  }

  /**
   * `pre_command_mode`: -ENODEV without a device; 1 and no change for SHARP
   * or an unknown display; otherwise 0 with the display's row applied.
   */
  method PreCommandMode(dev: MipiDsiDev?, mode: int, lanes: int) returns (r: int)
    modifies Present(dev)`cmdModeVideo
    ensures dev == null ==> r == -ENODEV
    ensures dev != null && !CommandModeDisplay(mode) ==>
              r == 1 && dev.cmdModeVideo == old(dev.cmdModeVideo)
    ensures dev != null && CommandModeDisplay(mode) ==>
              r == 0 && dev.cmdModeVideo == CmdModeParams(old(dev.cmdModeVideo), mode, lanes)
  {
    if dev == null {
      return -ENODEV;
    }
    if !CommandModeDisplay(mode) {
      return 1;
    }
    dev.cmdModeVideo := CmdModeParams(dev.cmdModeVideo, mode, lanes);
    r := 0;
  }

  /**
   * Only SNPS turns on bus turn-around; every row records the display and
   * lane count and leaves the packet size alone.
   */
  lemma CmdModeBta(p: CmdModeVideo, mode: int, lanes: int)
    requires CommandModeDisplay(mode)
    ensures var r := CmdModeParams(p, mode, lanes);
      && (mode == SNPS_DSI_DEVICE ==> r.bta == 1)
      && (mode != SNPS_DSI_DEVICE ==> r.bta == p.bta)
      && r.displayType == mode && r.noOfLanes == lanes && r.packetSize == p.packetSize
  {
  }

  /** The command-mode rows agree with the video-mode rows on the active area. */
  lemma CmdModeMatchesVideoMode(p: CmdModeVideo, q: DpiVideo, mode: int, lanes: int)
    requires CommandModeDisplay(mode)
    ensures CmdModeParams(p, mode, lanes).hActivePixels == VideoModeParams(q, mode, lanes).hActivePixels
    ensures CmdModeParams(p, mode, lanes).vActiveLines == VideoModeParams(q, mode, lanes).vActiveLines
  {
  }

  // ---------------------------------------------------------------------
  // Panel wake-up

  /** What `dsi_screen_init` reports: its return value and the final mode packet it sends, if any. */
  datatype ScreenInitResult = ScreenInitResult(ret: int, modePacket: seq<bv8>)

  /**
   * `dsi_screen_init`, apart from the command scripts themselves: a known
   * screen returns 0 and an unknown one 1.  The two TREMOLO panels end
   * with a generic write of register 0x40 that carries 1 in command mode
   * and 0 in video mode, and nothing for any other mode value.
   */
  function ScreenInit(screen: int, videoMode: int): ScreenInitResult
  {
    if !KnownDisplay(screen) then ScreenInitResult(1, [])
    else if (screen == TREMOLO_S || screen == TREMOLO_M) && videoMode == COMMAND_MODE
    then ScreenInitResult(0, [0x40, 0x01])
    else if (screen == TREMOLO_S || screen == TREMOLO_M) && videoMode == VIDEO_MODE
    then ScreenInitResult(0, [0x40, 0x00])
    else ScreenInitResult(0, [])
  }

  /** The return value names exactly the known screens; the mode packet echoes the mode. */
  lemma ScreenInitOutcome(screen: int, videoMode: int)
    ensures ScreenInit(screen, videoMode).ret == 0 <==> KnownDisplay(screen)
    ensures ScreenInit(screen, videoMode).ret in {0, 1}
    ensures var pkt := ScreenInit(screen, videoMode).modePacket;
      pkt != [] <==> (screen == TREMOLO_S || screen == TREMOLO_M)
                     && (videoMode == COMMAND_MODE || videoMode == VIDEO_MODE)
    ensures var pkt := ScreenInit(screen, videoMode).modePacket;
      pkt != [] ==> |pkt| == 2 && pkt[0] == 0x40 && pkt[1] as int == videoMode
  {
  }
}
