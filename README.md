# X2 image-processing drivers: a verified model

This project is a Dafny model of the core of the X2 SoC's image-processing
drivers, with proofs about the model. It covers these parts:

- **IPU slot pipeline** (`drivers/ips/ipu/ipu_drv.c`, `drivers/ips/ipu/ipu_single.c`):
  - *Layout planner* (`IpuLayout`, `IpuDrv.Ipu.DdrinfoInit`). It packs the crop plane, the scale plane and the pyramid downsample and upsample layers into one slot. It uses a cursor that is realigned to 16 after every plane.
  - *Address programming* (`IpuDrv.Ipu.SetDdr`, `SetPymDdr`, `Set`). It turns slot-relative offsets into absolute addresses.
  - *Start/stop/interrupt/thread protocol* (`IpuDrv.Ipu.Start`, `Stop`, `Isr`, `ThreadPass`).
  - *Single-mode character device* (`IpuSingle`). It handles errors, pyramid-done and frame-start events in that order and moves slots through the free/busy/done registry (`IpuSlot`). It decodes frame ids, describes the slot layout to user space, and serves ioctl, poll, mmap, open and close.
- **MIPI CSI-2 host** (`MipiHost`): pixel-clock and horizontal-sync-delay arithmetic, the lane-stop mask, the initialisation defaults, and the DEFAULT/INIT/START/STOP state machine of the ioctl.
- **MMC sample-phase tuning** (`MmcTuning`): the 360-phase sweep with its skip rule, range collection, wrap-around merge, longest-range choice and mid-point choice, plus the platform hooks.
- **IPS register helpers** (`Ips`): read-modify-write of the interrupt-mask, bus-control, clock-gate and MIPI frequency-range registers, interrupt dispatch, and reset pulses.
- **DSI host helpers**:
  - field access to the video bridge, the MMCM clock block and the D-PHY Gen3 interface (`RegField`, `RegWindow`, `DsiVideo`, `DsiMmcm`, `DsiDphyGen3`);
  - the bridge's zoom and pan counters (`DsiVideo.PanZoom`);
  - the allocation-tracking list (`DsiAlloc`);
  - controller defaults and interrupt handlers (`DsiCore`);
  - framebuffer registry, palette packing and ioctl rollback (`DsiFramebuffer`);
  - display parameter tables and shadow copies (`DsiDisplays`);
  - the Display Stream Compression `ceil`/`floor` macros (`DscMath`).

**How state is modelled:**
- Code that changes state in place is modelled as classes whose methods have `modifies` clauses: the IPU driver `Ipu`, the device `SingleCdev`, the IPS device, the MIPI host, the DSI device and framebuffer registry, the allocation list and the pan/zoom counters.
- Each such method is proved against specification functions.
- Pure computations are functions, with lemmas for the properties they promise.
- Calls into hardware are recorded in a ghost log (`hw` in `IpuDrv.Ipu`) or as register windows (maps from address to word).
- The outcome of a foreign call (`copy_from_user`, `kzalloc`, `mmc_send_tuning`, a D-PHY wait) is a parameter of the operation.

All paths below are relative to the repository root.

## Model

| member | source | states |
|---|---|---|
| IpuLayout.Align16 | drivers/ips/ipu/ipu_drv.c:46-56 | `ALIGN_16(x)` is the least multiple of 16 that is at least `x` |
| IpuLayout.U32 | drivers/ips/ipu/ipu_drv.c:49-52 | assigning to a `uint32_t` keeps a value below 2^32 unchanged, and the result is always below 2^32 |
| IpuLayout.DsStage | drivers/ips/ipu/ipu_drv.c:75-99 | downsample layer `i` is skipped exactly when `i%4 != 0` and its factor is 0. Otherwise it reserves its ROI, with chroma exactly when its `ds_uv_bypass` bit is clear |
| IpuLayout.UsStage | drivers/ips/ipu/ipu_drv.c:101-126 | upsample layer `i` is skipped exactly when its enable bit is clear. Otherwise it reserves its ROI, with chroma exactly when its `us_uv_bypass` bit is SET (the inverse of the downsample polarity) |
| IpuLayout.DsStages | drivers/ips/ipu/ipu_drv.c:75-99 | the downsample loop visits layers `0 .. ds_layer_en` inclusive, in order |
| IpuLayout.UsStages | drivers/ips/ipu/ipu_drv.c:101-126 | the upsample loop visits all six layers, in order |
| IpuLayout.PyramidStages | drivers/ips/ipu/ipu_drv.c:74-127 | with `pymid_en == 1`, the downsample layers follow crop and scale, and the upsample layers end the plan |
| IpuLayout.StagesDistinct | drivers/ips/ipu/ipu_drv.c:38-132 | the planner never visits a plane twice |
| IpuLayout.CursorAligned | drivers/ips/ipu/ipu_drv.c:43-131 | the cursor starts at 0 and stays non-negative and a multiple of 16 |
| IpuLayout.CursorMonotone | drivers/ips/ipu/ipu_drv.c:43-131 | the cursor never moves back |
| IpuLayout.Span | drivers/ips/ipu/ipu_drv.c:56 | a stage advances the cursor by its luma size plus, with chroma, half of it again, computed without wrapping (corrected) |
| IpuLayout.SpanAsWritten | drivers/ips/ipu/ipu_drv.c:56 | as written: the `uint32_t` advance. Without chroma it is the size. With chroma it stays below 2^31, because `size * 3` wraps before the shift. It never exceeds the wide advance |
| IpuLayout.SpanAsWrittenBelowWrap | drivers/ips/ipu/ipu_drv.c:56 | while `size * 3` stays below 2^32 the `uint32_t` advance of the source equals the wide one |
| IpuLayout.WrappedSpanOverlaps | drivers/ips/ipu/ipu_drv.c:53-59 | a 65535 by 21856 crop with chroma: the 32-bit advance is 1 MB, below the slot end and inside the crop's own luma plane, so the next plane overlaps it. The wide advance overflows the slot |
| IpuLayout.PlanesApart | drivers/ips/ipu/ipu_drv.c:43-131 | the space a plane reserves (luma, plus chroma at half its size when present) lies below the cursor of every later plane, so reserved regions never overlap |
| IpuLayout.WalkOk | drivers/ips/ipu/ipu_drv.c:54-59 | the planner reaches the end exactly when no stage overflows the slot |
| IpuLayout.WalkLeaves | drivers/ips/ipu/ipu_drv.c:38-132 | a plane the planner does not reach keeps its descriptor |
| IpuLayout.WalkWrites | drivers/ips/ipu/ipu_drv.c:38-132 | every stage reached writes its descriptor at the cursor of that moment, and nothing later overwrites it. This includes the overflowing stage, whose descriptor is not rolled back |
| IpuLayout.PlanSound | drivers/ips/ipu/ipu_drv.c:38-132 | on success, every visited plane holds `y` at its 16-aligned cursor (`c = y + size`, or 0 without chroma), a skipped plane holds zeros, and every reserved plane fits in `IPU_SLOT_SIZE` |
| IpuLayout.WalkSound | drivers/ips/ipu/ipu_drv.c:38-132 | the same as PlanSound, for any plan without repeated planes |
| IpuLayout.PlanOverflow | drivers/ips/ipu/ipu_drv.c:54-59 | when stage `f` is the first to overflow, the planner fails, stage `f` keeps what it wrote, and every later plane keeps its old descriptor |
| IpuLayout.WalkStops | drivers/ips/ipu/ipu_drv.c:54-59 | the same as PlanOverflow, for any plan without repeated planes |
| IpuLayout.PyramidUntouched | drivers/ips/ipu/ipu_drv.c:74 | with `pymid_en != 1`, no pyramid descriptor is touched |
| IpuDrv.Ipu.constructor | drivers/ips/ipu/ipu_drv.c:469-562 | after probe the driver is stopped, in no mode, with nothing pending; the IPU interrupt is disabled and the IPU reset |
| IpuDrv.Ipu.Place | drivers/ips/ipu/ipu_drv.c:84-99 | corrected: one reserving stage writes its descriptor at the cursor, advances the cursor by the wide `Span` (not the 32-bit `size * 3 >> 1` of line 56), realigns it, and reports an overflow exactly as the plan does |
| IpuDrv.Ipu.PlaceFrame | drivers/ips/ipu/ipu_drv.c:44-73 | the crop or scale stage, with its width and height each aligned to 16 and the size cut to 32 bits, agrees with the plan |
| IpuDrv.Ipu.Bypass | drivers/ips/ipu/ipu_drv.c:78-83 | a skipped stage writes zeros and does not move the cursor |
| IpuDrv.Ipu.DdrinfoInit | drivers/ips/ipu/ipu_drv.c:38-132 | corrected: `ipu_cfg_ddrinfo_init` leaves exactly the descriptors of the plan, returns 0 exactly when no stage overflows, and returns -1 otherwise |
| IpuDrv.Ipu.PyramidAt | drivers/ips/ipu/ipu_drv.c:74-127 | the pyramid part of the plan, in the form the pyramid planner consumes |
| IpuDrv.Ipu.PlanPyramid | drivers/ips/ipu/ipu_drv.c:74-131 | the pyramid part of the planner leaves the plan's descriptors and fails exactly when a pyramid stage overflows |
| IpuDrv.Ipu.PlanDs | drivers/ips/ipu/ipu_drv.c:75-99 | the downsample loop either stops at the first overflow with the plan's outcome, or ends with the cursor the plan has after the last downsample layer |
| IpuDrv.Ipu.PlanUs | drivers/ips/ipu/ipu_drv.c:101-126 | the upsample loop leaves the plan's descriptors and overflows exactly when the plan fails |
| IpuDrv.SetDdrExactly | drivers/ips/ipu/ipu_drv.c:203-231 | `ipu_set_ddr` programs `offset + base` for crop iff `crop_ddr_en == 1`, for scale iff `scale_ddr_en == 1`, for downsample layer `i <= ds_layer_en` iff `i == 0` or its factor is non-zero, and for an upsample layer iff its enable bit is set. Nothing else is programmed |
| IpuDrv.DsEffectsExactly | drivers/ips/ipu/ipu_drv.c:214-222 | the downsample loop of `ipu_set_ddr` programs exactly the layers with `i == 0` or a factor, at descriptor plus base |
| IpuDrv.UsEffectsExactly | drivers/ips/ipu/ipu_drv.c:223-229 | the upsample loop programs exactly the enabled layers, at descriptor plus base |
| IpuDrv.DsProgrammedVsPlanned | drivers/ips/ipu/ipu_drv.c:214-222 | every downsample layer `ipu_set_ddr` programs got space from the planner (lines 78-83). A layer gets space but is never programmed exactly when `i > 0`, `i % 4 == 0` and its factor is 0 |
| IpuDrv.Ipu.SetDdr | drivers/ips/ipu/ipu_drv.c:203-231 | `ipu_set_ddr` appends exactly `SetDdrEffects` to the hardware log |
| IpuDrv.Ipu.SetDsDdr | drivers/ips/ipu/ipu_drv.c:214-222 | the downsample loop appends exactly its effects |
| IpuDrv.Ipu.SetUsDdr | drivers/ips/ipu/ipu_drv.c:223-229 | the upsample loop appends exactly its effects |
| IpuDrv.PymDsEffectsExactly | drivers/ips/ipu/ipu_drv.c:153-172 | the downsample loop of `ipu_set_pym_ddr` programs exactly the layers the planner gave space to |
| IpuDrv.PymProgramsPlanned | drivers/ips/ipu/ipu_drv.c:153-182 | `ipu_set_pym_ddr` programs exactly the pyramid layers the planner gave space to, at descriptor plus base |
| IpuDrv.PymDsZeroedExactly | drivers/ips/ipu/ipu_drv.c:158-164 | `ipu_set_pym_ddr` zeroes a downsample descriptor iff the planner skips that layer; the others keep theirs |
| IpuDrv.PymUsZeroedExactly | drivers/ips/ipu/ipu_drv.c:173-181 | `ipu_set_pym_ddr` zeroes an upsample descriptor iff the layer is disabled |
| IpuDrv.UsEffectsAfterDsZeroed | drivers/ips/ipu/ipu_drv.c:153-182 | zeroing downsample descriptors does not change what the upsample loop programs |
| IpuDrv.Ipu.SetPymDdr | drivers/ips/ipu/ipu_drv.c:153-182 | `ipu_set_pym_ddr` appends exactly its effects and leaves exactly the zeroed descriptors |
| IpuDrv.Ipu.PymDsLoop | drivers/ips/ipu/ipu_drv.c:158-172 | the downsample loop of `ipu_set_pym_ddr` appends its effects and zeroes the skipped descriptors |
| IpuDrv.Ipu.PymUsLoop | drivers/ips/ipu/ipu_drv.c:173-181 | the upsample loop of `ipu_set_pym_ddr` appends its effects and zeroes the disabled descriptors |
| IpuDrv.Ipu.Set | drivers/ips/ipu/ipu_drv.c:234-276 | `ipu_set` always returns 0 and sends exactly the command's effects, through the helpers at lines 134-192: crop with the base aligned to 16, scale, the pyramid, the pyramid sources, and the block programming. Only the pyramid command changes descriptors |
| IpuDrv.Ipu.Start | drivers/ips/ipu/ipu_drv.c:278-291 | start opens crop and scale only when configured, always opens the pyramid path, enables the IPU interrupt, and clears `stop` |
| IpuDrv.StopClosesStarted | drivers/ips/ipu/ipu_drv.c:278-307 | every path start opens is one stop closes, and the pyramid path always opens |
| IpuDrv.Ipu.Stop | drivers/ips/ipu/ipu_drv.c:293-307 | stop on a stopped driver changes nothing. Otherwise it sets `stop`, closes the three paths, disables the IPU interrupt and drops `isr_data` |
| IpuDrv.StopIdempotent | drivers/ips/ipu/ipu_drv.c:293-307 | stopping twice is stopping once |
| IpuDrv.Ipu.Isr | drivers/ips/ipu/ipu_drv.c:341-353 | the interrupt handler is exactly one interrupt step on the control state and reports whether it woke the thread |
| IpuDrv.IsrAccumulates | drivers/ips/ipu/ipu_drv.c:341-353 | while running, `isr_data` collects the or of every status, and only the first interrupt after the trigger bit was clear wakes the thread |
| IpuDrv.IsrCollects | drivers/ips/ipu/ipu_drv.c:341-353 | step by step, a running interrupt run ors each status into `isr_data` in turn, sets the trigger bit and counts one wake-up only when it was clear |
| IpuDrv.OrIntoIsOr | drivers/ips/ipu/ipu_drv.c:341-353 | or-ing statuses in one at a time equals or-ing in the or of them all |
| IpuDrv.IsrWhileStopped | drivers/ips/ipu/ipu_drv.c:344-347 | while stopped, interrupts clear `isr_data` and never wake the thread |
| IpuDrv.Ipu.ThreadPass | drivers/ips/ipu/ipu_drv.c:309-339 | one thread pass snapshots and clears `isr_data` and the trigger bit. While running it resets `pymid_done`/`done_idx` and hands the snapshot to the mode handler; while stopped it discards everything |
| IpuDrv.RoundDelivers | drivers/ips/ipu/ipu_drv.c:309-353 | every status raised between two thread passes reaches the next pass, all of them or-ed together, and that pass leaves nothing behind |
| IpuSlot.Ids | drivers/ips/ipu/ipu_single.c:266 | slot ids `0 .. n-1` in order |
| IpuSlot.IdsOnce | drivers/ips/ipu/ipu_single.c:266 | each id below `n` occurs exactly once among the slot ids, and no other id occurs |
| IpuSlot.Cleaned | drivers/ips/ipu/ipu_single.c:266 | after cleaning (also at line 375), every slot is free exactly once, and busy and done are empty |
| IpuSlot.FreeToBusy | drivers/ips/ipu/ipu_single.c:167-168 | the oldest free slot moves to the end of busy. An empty free queue changes nothing. No id is lost or created |
| IpuSlot.BusyToDone | drivers/ips/ipu/ipu_single.c:149-150 | the oldest busy slot moves to the end of done. An empty busy queue changes nothing. No id is lost or created |
| IpuSlot.BusyToFree | drivers/ips/ipu/ipu_single.c:140-141 | the oldest busy slot moves to the end of free. An empty busy queue changes nothing. No id is lost or created |
| IpuSlot.TakeDone | drivers/ips/ipu/ipu_single.c:348-349 | the oldest done slot leaves the registry and is handed out; an empty done queue changes nothing |
| IpuSlot.InsertFree | drivers/ips/ipu/ipu_single.c:333-334 | the given id is appended to free, unchecked |
| IpuSlot.MovesKeepDisjoint | drivers/ips/ipu/ipu_single.c:128-185 | the moves keep every id in at most one place |
| IpuSlot.FreeDoneApart | drivers/ips/ipu/ipu_single.c:128-185 | in a disjoint registry no slot is both free and done |
| IpuSlot.InsertFreeDisjoint | drivers/ips/ipu/ipu_single.c:322-344 | `IPUC_CNN_DONE` keeps the registry disjoint exactly when the returned id is not already queued |
| IpuSingle.DecodeFrameId | drivers/ips/ipu/ipu_single.c:66-80 | the loop reads eight samples, most significant bit first, with `0xffff` a 1 bit and anything else a 0 bit. The result is below 256 |
| IpuSingle.FrameIdBound | drivers/ips/ipu/ipu_single.c:66-80 | `n` samples decode to an id below 2^n |
| IpuSingle.FrameIdInjective | drivers/ips/ipu/ipu_single.c:66-80 | two runs of samples give the same id exactly when they agree on which samples are `0xffff` |
| IpuSingle.Watermark | drivers/ips/ipu/ipu_single.c:66-80 | the encoder that the decoder inverts: `n` samples carrying an id |
| IpuSingle.WatermarkRoundTrip | drivers/ips/ipu/ipu_single.c:66-80 | decoding the watermark of an id below 2^n gives the id back |
| IpuSingle.FrameIdPrefix | drivers/ips/ipu/ipu_single.c:66-80 | the id of the first `n` samples ignores what follows them |
| IpuSingle.FrameIdExample | drivers/ips/ipu/ipu_single.c:66-80 | `[S,S,x,S,x,x,S,x]` with `S = 0xffff` decodes to `0xD2` |
| IpuSingle.Samples | drivers/ips/ipu/ipu_single.c:95-100 | the eight 16-bit samples read at an address |
| IpuSingle.IdAtRoundTrip | drivers/ips/ipu/ipu_single.c:94-104 | an id stored in slot memory reads back: as the big-endian pair `tmp[0] << 8 \| tmp[1]` on bus mode 0, and as its watermark otherwise |
| IpuSingle.SingleCdev.ReadId | drivers/ips/ipu/ipu_single.c:94-104 | one id read: below 2^16 on bus mode 0, below 256 otherwise |
| IpuSingle.SingleCdev.GetFrameid | drivers/ips/ipu/ipu_single.c:82-126 | `ipu_get_frameid` records nothing when `id_en == 0`. Otherwise it records the crop id only when crop and its DDR output are enabled, and the scale id from the scale plane when `scale_ddr_en` is set, else from downsample layer 0 |
| IpuSingle.SlotInfoExactly | drivers/ips/ipu/ipu_single.c:187-240 | `s_info` is zero for every plane not described. A described plane has the planner's offsets, and every stride is a multiple of 16 |
| IpuSingle.DsInfoExactly | drivers/ips/ipu/ipu_single.c:218-228 | the downsample loop of `ipu_sinfo_init` describes exactly the layers `i < ds_layer_en` with `i == 0` or a factor |
| IpuSingle.UsInfoExactly | drivers/ips/ipu/ipu_single.c:229-238 | the upsample loop describes exactly the layers with the enable bit set and a non-zero factor |
| IpuSingle.UsFlags | drivers/ips/ipu/ipu_single.c:229-238 | for each upsample layer, whether it is described |
| IpuSingle.InfoOfUpdate | drivers/ips/ipu/ipu_single.c:187-240 | writing one plane's description changes only that plane |
| IpuSingle.LastLayerUndescribed | drivers/ips/ipu/ipu_drv.c:214-222 | the last downsample layer is programmed into the hardware by `ipu_set_ddr` (`i <= ds_layer_en`) but its `s_info` entry stays zero (`i < ds_layer_en` in ipu_single.c:218) |
| IpuSingle.SingleCdev.SinfoInit | drivers/ips/ipu/ipu_single.c:187-240 | `ipu_sinfo_init` returns 0 and leaves exactly the slot description `SlotInfo` |
| IpuSingle.EventsOf | drivers/ips/ipu/ipu_single.c:133-162 | the status bits decode to: an error iff a transmit-error or frame-drop bit is set, done iff `PYM_FRAME_DONE`, start iff `IPU_FRAME_START` |
| IpuSingle.ProcessKeepsRegistry | drivers/ips/ipu/ipu_single.c:128-185 | the event handler keeps the registry disjoint and loses or creates no slot |
| IpuSingle.StepsKeepRegistry | drivers/ips/ipu/ipu_single.c:133-183 | each of the three handler steps keeps the registry's contents and its disjointness |
| IpuSingle.ErrorPreemptsDone | drivers/ips/ipu/ipu_single.c:133-160 | errors are handled before done: when the only busy slot meets an error and a done in the same status, it goes back to free and no slot completes |
| IpuSingle.DoneAndStartDiffer | drivers/ips/ipu/ipu_single.c:148-183 | the slot completed and the slot started by one status are different slots |
| IpuSingle.SingleCdev.Process | drivers/ips/ipu/ipu_single.c:128-185 | the handler performs the error, done and start steps in that order. `err_status` takes the whole status on an error (not or-ed). A completed slot becomes `done_idx` and its frame ids are read. A started slot's base is programmed. A wake-up is counted when an error gives up a busy slot and when a slot completes |
| IpuSingle.SingleCdev.Handle | drivers/ips/ipu/ipu_single.c:133-183 | the same as Process, on the decoded status |
| IpuSingle.SingleCdev.HandleError | drivers/ips/ipu/ipu_single.c:133-146 | an error overwrites `err_status` and gives up the oldest busy slot |
| IpuSingle.SingleCdev.HandleDone | drivers/ips/ipu/ipu_single.c:148-160 | done moves the oldest busy slot to done, sets `pymid_done` and `done_idx` to it, and reads its frame ids |
| IpuSingle.SingleCdev.HandleStart | drivers/ips/ipu/ipu_single.c:162-183 | start moves the oldest free slot to busy and programs its base. With no free slot nothing is programmed |
| IpuSingle.SingleCdev.ThreadRound | drivers/ips/ipu/ipu_drv.c:309-339 | a thread pass with this device's handler registered runs the handler exactly when a status is handed on in single mode |
| IpuSingle.SingleCdev.ProgramBlocks | drivers/ips/ipu/ipu_single.c:262-268 | the block programming of core init, in order; no descriptor changes |
| IpuSingle.SingleCdev.Configure | drivers/ips/ipu/ipu_single.c:244-270 | plan the slot, program the blocks and describe the slot |
| IpuSingle.SingleCdev.CoreInit | drivers/ips/ipu/ipu_single.c:258-272 | `ipu_core_init` resets the IPU, lays out and describes the slot, puts every slot in free, and returns 0 even when the planner fails |
| IpuSingle.SingleCdev.CoreUpdate | drivers/ips/ipu/ipu_single.c:242-256 | `ipu_core_update` does the same as core init, without the reset |
| IpuSingle.SingleCdev.Open | drivers/ips/ipu/ipu_single.c:274-282 | open enters single mode and returns 0 |
| IpuSingle.SingleCdev.Close | drivers/ips/ipu/ipu_single.c:485-491 | close stops the driver, leaves single mode and returns 0 |
| IpuSingle.PollMask | drivers/ips/ipu/ipu_single.c:462-483 | poll returns `EPOLLIN\|EPOLLET` iff a slot is done (even when stopped), else `EPOLLHUP` iff stopped, else `EPOLLERR` iff `err_status != 0`, else 0 |
| IpuSingle.SingleCdev.Poll | drivers/ips/ipu/ipu_single.c:462-483 | poll returns the poll mask of the current state |
| IpuSingle.SingleCdev.Mmap | drivers/ips/ipu/ipu_single.c:442-460 | a mapping larger than `memsize` is refused with -ENOMEM. Otherwise the result is 0, or -EAGAIN when the remap fails |
| IpuSingle.SingleCdev.StartNext | drivers/ips/ipu/ipu_single.c:380-420 | with no free slot the result is positive `EFAULT` and nothing is started or programmed. Otherwise the oldest free slot becomes busy, is programmed, and the driver starts |
| IpuSingle.SingleCdev.Ioctl | drivers/ips/ipu/ipu_single.c:285-440 | one postcondition per command. INIT: -EFAULT on a failed copy, otherwise the new configuration and every slot free. GET_IMG: the slot size. GET_ERR_STATUS: hands out `err_status`, then clears it. CNN_DONE: an unchecked insert into free. GET_DONE_INFO: -EFAULT with no change when nothing is done, otherwise the oldest done slot leaves with its header, whose base is the slot's address. STOP: stopped, every slot free, readers woken. START: positive `EFAULT` and no start or programming without a free slot, otherwise the oldest free slot is started. UPDATE_CFG: -EFAULT on a failed copy, otherwise reconfigured with the first slot started. GET_MEM_INFO: the physical base and size. Any other command: -EINVAL |
| IpuSingle.SingleCdev.InitCmd | drivers/ips/ipu/ipu_single.c:296-311 | INIT stores the settings, resets the IPU, lays out and describes the slot and frees every slot. Nothing else changes, and the result is 0 |
| IpuSingle.SingleCdev.DoneInfoCmd | drivers/ips/ipu/ipu_single.c:345-367 | GET_DONE_INFO with nothing done changes nothing. Otherwise the oldest done slot is taken, its header gets the slot's base address, and that header is handed out |
| IpuSingle.SingleCdev.StopCmd | drivers/ips/ipu/ipu_single.c:371-379 | STOP stops the driver, puts every slot back in free and counts one wake-up |
| IpuSingle.SingleCdev.StartCmd | drivers/ips/ipu/ipu_single.c:380-394 | START moves the oldest free slot to busy, programs it and starts the driver. With no free slot it returns positive `EFAULT` and nothing changes |
| IpuSingle.SingleCdev.UpdateCmd | drivers/ips/ipu/ipu_single.c:395-421 | UPDATE_CFG stores the settings, stops the driver, counts one wake-up, lays out and describes the slot again, and restarts on the first cleaned slot. The result is 0 |
| IpuSingle.SingleCdev.Restart | drivers/ips/ipu/ipu_single.c:408-419 | the tail of UPDATE_CFG: the new layout and description, the first free slot busy and programmed, and the driver running |
| IpuSingle.SingleCdev.constructor | drivers/ips/ipu/ipu_single.c:506-514 | the device record starts with an empty registry and no events. `err_status`, `s_info` and the headers are whatever the uninitialised allocation held, given as parameters |
| IpuSingle.SingleCdev.ModuleInit | drivers/ips/ipu/ipu_single.c:502-526 | a failed allocation gives -ENOMEM, no device and no handler. Otherwise the device is built and the single-mode handler registered, and the result is 0, or -EINVAL when `device_create` failed (the handler is registered anyway) |
| MipiHost.DivisorIsBitsPerPixel | drivers/ips/mipi/x2_mipi_host.c:124-151 | the divisor `mipi_host_pixel_clk_select` applies and the bits per pixel `mipi_host_get_hsd` uses (lines 204-228) agree for every data type, and lie in 8..32 |
| MipiHost.RawPixelClock | drivers/ips/mipi/x2_mipi_host.c:124-151 | the raw pixel clock is below 2^16. From the MIPI clock it is that clock over the divisor; otherwise, when the product `linelenth*framelenth*fps` is below 2^31, it is that product over 10^6 |
| MipiHost.TruncDiv | drivers/ips/mipi/x2_mipi_host.c:124 | C's `/` on a signed value truncates toward 0: the Euclidean quotient for a non-negative dividend, the negated quotient of the magnitude for a negative one |
| MipiHost.PixelClkSelect | drivers/ips/mipi/x2_mipi_host.c:152-165 | for a non-zero raw clock, the selected clock is in 1..288. It is at least the raw clock when that is at most 288, and exactly 288 otherwise |
| MipiHost.DivideBack | drivers/ips/mipi/x2_mipi_host.c:152-165 | `288/(288/p)` lies between `p` and 288 |
| MipiHost.ZeroRawPixelClock | drivers/ips/mipi/x2_mipi_host.c:594-598 | a slow MIPI clock gives a raw clock of 0, which the division at line 152 reaches before `mipi_host_init`'s zero test |
| MipiHost.PixelClkSelectChecked | drivers/ips/mipi/x2_mipi_host.c:594-598 | with the zero test moved before the division at line 152, the corrected selection is 0 exactly for a raw clock of 0, and the as-written result otherwise |
| MipiHost.RxBitClockPositive | drivers/ips/mipi/x2_mipi_host.c:175-231 | when the receive clock's 32-bit product does not wrap, a usable pixel clock implies a non-zero receive bit clock, so `mipi_host_get_hsd` does not divide by 0 |
| MipiHost.RxBitClockExact | drivers/ips/mipi/x2_mipi_host.c:228-231 | when the line length is set and the product fits in 32 bits, the receive clock is the exact bit rate (frame rate times bits per pixel) in MHz |
| MipiHost.RxBitClockWrapExample | drivers/ips/mipi/x2_mipi_host.c:231 | 1080p60 YUV422-10 with 2200x1125 timing: the exact bit rate is 4752 MHz, but the 32-bit product gives a receive clock of 457 |
| MipiHost.RxBitClockWrapsToZero | drivers/ips/mipi/x2_mipi_host.c:231 | a configuration whose raw pixel clock is 134, which init accepts, has a 32-bit product of exactly 2^32: the receive clock is 0 and the delay cannot be computed |
| MipiHost.HsdDemandExact | drivers/ips/mipi/x2_mipi_host.c:228-240 | with a non-zero receive clock the raw HSD is exactly the line's bits times the pixel clock over the receive clock, minus the IPI overhead. When the receive clock does not wrap, that divisor is the stream's exact bit rate in MHz |
| MipiHost.NoWrap | drivers/ips/mipi/x2_mipi_host.c:228-240 | a difference of values below 2^31 survives the `uint32_t`/`int32_t` round trip |
| MipiHost.Align16Past | drivers/ips/mipi/x2_mipi_host.c:241-245 | `(h + 16) & ~0xf` is the first multiple of 16 above `h` |
| MipiHost.Hsd | drivers/ips/mipi/x2_mipi_host.c:175-246 | the HSD is a 16-bit multiple of 16 |
| MipiHost.HsdCoversDemand | drivers/ips/mipi/x2_mipi_host.c:228-245 | unless the 16-bit result truncates, the HSD is at least 16 and lies strictly above the clamped raw value, by at most 16 |
| MipiHost.LaneStopLowBits | drivers/ips/mipi/x2_mipi_host.c:56-58 | `HOST_DPHY_LANE_STOP(l)` has exactly the low `l` bits set, for `l` in 1..4 |
| MipiHost.IpiSetting | drivers/ips/mipi/x2_mipi_host.c:255-288 | what an IPI port is programmed with: 48-bit mode, legacy mode, the channel, the data type and the three times |
| MipiHost.Completed | drivers/ips/mipi/x2_mipi_host.c:628-630 | `hsaTime` and `hbpTime` default to 4 only when 0. `hsdTime` is computed only when 0, as the HSD of the configuration with those defaults (a multiple of 16). Every other field is kept |
| MipiHost.MipiHostDev.constructor | drivers/ips/mipi/x2_mipi_host.c:787-844 | the probed host record starts in the given state with no raw writes |
| MipiHost.MipiHostDev.ConfigureIpi | drivers/ips/mipi/x2_mipi_host.c:255-288 | the first port serves the first channel. The second port is programmed only for a two-channel configuration |
| MipiHost.MipiHostDev.Deinit | drivers/ips/mipi/x2_mipi_host.c:555-575 | deinit puts the PHY and the controller back in reset, and changes nothing without a host |
| MipiHost.MipiHostDev.HostInit | drivers/ips/mipi/x2_mipi_host.c:584-644 | corrected: init returns -1 without touching a register when there is no host, the raw clock is 0, or a delay must be computed over a receive clock of 0. It returns 0 iff the PHY also comes up, and then the lanes and IPI ports hold the completed configuration. A PHY failure leaves the host in reset |
| MipiHost.MipiHostDev.HostStart | drivers/ips/mipi/x2_mipi_host.c:520-533 | start is -1 without a host, 0 otherwise |
| MipiHost.MipiHostDev.Ioctl | drivers/ips/mipi/x2_mipi_host.c:653-776 | wrong magic gives -ENOTTY. INIT works from any state and moves to INIT; a failed init leaves the state. DEINIT ends in DEFAULT. START starts from INIT or STOP, and STOP stops from START or STOP (`mipi_host_stop` does nothing). Rejected moves return 0 unchanged. A write whose read-back differs gives -EINVAL |
| MmcTuning.IterationToPhase | drivers/mmc/host/dw_mmc-hobot.c:34-35 | with 360 phases an iteration is its own phase |
| MmcTuning.NextIteration | drivers/mmc/host/dw_mmc-hobot.c:77-94 | the sweep index strictly increases and never passes 360. It can leave the phases only from 359, so the sweep always ends by testing 359 |
| MmcTuning.TestedFromEnds | drivers/mmc/host/dw_mmc-hobot.c:65-97 | from iteration `i` the sweep tests `i` first and phase 359 last |
| MmcTuning.TestedFromIncreasing | drivers/mmc/host/dw_mmc-hobot.c:65-97 | from iteration `i` the sweep tests phases in strictly increasing order |
| MmcTuning.TestedShape | drivers/mmc/host/dw_mmc-hobot.c:65-97 | the sweep starts at 0, always tests 359, and never tests a phase twice |
| MmcTuning.SweepStep | drivers/mmc/host/dw_mmc-hobot.c:66-96 | one loop pass moves to the next iteration and keeps the collected ranges exact. The count becomes 0 only if it was 0 and the phase failed, and stays below 181 |
| MmcTuning.PassStep | drivers/mmc/host/dw_mmc-hobot.c:73-79 | a passing phase opens a range after a fail, and becomes the end of the open range |
| MmcTuning.OpenKeeps | drivers/mmc/host/dw_mmc-hobot.c:73-76 | a pass after a fail opens a one-phase range, within the array |
| MmcTuning.ExtendKeeps | drivers/mmc/host/dw_mmc-hobot.c:77-78 | a pass after a pass extends the open range to this phase |
| MmcTuning.FailKeeps | drivers/mmc/host/dw_mmc-hobot.c:80-94 | a fail closes the open range and skips ahead |
| MmcTuning.Sweep | drivers/mmc/host/dw_mmc-hobot.c:60-97 | the sweep leaves the clock at 359 and records whether phases 0 and 359 passed. It collects, in a 181-entry array, the passing runs as separate ranges closed by a failing phase, with one range from 0 when every phase passes. It finds none exactly when no tested phase passes |
| MmcTuning.SweepEnds | drivers/mmc/host/dw_mmc-hobot.c:65-97 | when the loop ends, the last test was at 359 and nothing was found exactly when no tested phase passed |
| MmcTuning.MergedRun | drivers/mmc/host/dw_mmc-hobot.c:105-109 | a first range starting at 0 and a last range ending at 359 form one wrapping run |
| MmcTuning.Len | drivers/mmc/host/dw_mmc-hobot.c:120-123 | a range's length is `end-start+1`, plus 360 when it wraps |
| MmcTuning.LongestRange | drivers/mmc/host/dw_mmc-hobot.c:119-135 | the loop picks the first range of strictly greatest length |
| MmcTuning.MiddlePhase | drivers/mmc/host/dw_mmc-hobot.c:143-144 | the middle phase `(start + len/2) mod 360` is in [0, 360) |
| MmcTuning.MiddleCovered | drivers/mmc/host/dw_mmc-hobot.c:143-149 | the middle of a passing run lies in the run, so it passes |
| MmcTuning.Merged | drivers/mmc/host/dw_mmc-hobot.c:105-109 | with several ranges and both end phases passing, the last range is folded into the first, which takes its start, and the others are kept in order. Otherwise the ranges are unchanged |
| MmcTuning.FirstLongest | drivers/mmc/host/dw_mmc-hobot.c:119-135 | the chosen index is a range no other range is longer than, and every earlier range is strictly shorter |
| MmcTuning.FirstLongestUnique | drivers/mmc/host/dw_mmc-hobot.c:119-135 | those two properties single out one index, so the longest-range loop and `FirstLongest` agree |
| MmcTuning.TunedPhase | drivers/mmc/host/dw_mmc-hobot.c:105-149 | the phase tuning settles on, the middle of the first longest range after the merge, is a phase in [0, 360) |
| MmcTuning.LongestMiddle | drivers/mmc/host/dw_mmc-hobot.c:119-144 | the middle of the first longest range is a phase in [0, 360) |
| MmcTuning.MergeEnds | drivers/mmc/host/dw_mmc-hobot.c:105-109 | the in-place merge leaves exactly the `Merged` ranges in the array. Each is a passing run, and when every phase passes the first is 0-359 |
| MmcTuning.ChooseMiddle | drivers/mmc/host/dw_mmc-hobot.c:111-149 | a first range of 0-359 means every phase passes and gives the default phase. Otherwise the phase is the middle of the first longest range, and it passes |
| MmcTuning.SelectPhase | drivers/mmc/host/dw_mmc-hobot.c:105-149 | when every phase passes, the default phase is applied. Otherwise the applied phase is `TunedPhase` of the collected ranges (the middle of the first longest range after the merge), and it passes |
| MmcTuning.ExecuteTuning | drivers/mmc/host/dw_mmc-hobot.c:37-154 | no sample clock gives -EIO, and no array gives -ENOMEM, both before any test. Otherwise the result is -EIO iff no tested phase passes (clock left at 359). When all phases pass the default phase is applied. Otherwise 0 is returned and the applied phase passes and is `TunedPhase` of a range collection that the sweep's `Collected` describes |
| MmcTuning.ParseDt | drivers/mmc/host/dw_mmc-hobot.c:156-180 | a failed allocation gives -ENOMEM. Otherwise the result is 0, with the default phase from the device tree, or 0 when the property is absent |
| MmcTuning.HobotInit | drivers/mmc/host/dw_mmc-hobot.c:182-192 | the bus clock is halved, rounding down, for the X2 compatible, and kept otherwise |
| Ips.ClearBits | drivers/ips/x2_ips.c:79-80 | `w &= ~bits` clears exactly the given bits |
| Ips.SetBits | drivers/ips/x2_ips.c:96-97 | `w \|= bits` sets exactly the given bits |
| Ips.ReplaceField | drivers/ips/x2_ips.c:198-215 | the field under the mask takes the value's bits, and the other bits are kept |
| Ips.SetUndoesClear | drivers/ips/x2_ips.c:71-102 | enable and disable undo each other when the bit was set, or clear, before |
| Ips.IrqToRegbit | drivers/ips/x2_ips.c:57-69 | SIF, ISP and IPU map to their bits, and every other irq maps to 0 |
| Ips.RegbitsDisjoint | drivers/ips/x2_ips.c:57-69 | different modules have disjoint bits, so enabling one never touches another |
| Ips.IpsDevice.IrqEnable | drivers/ips/x2_ips.c:71-85 | enable clears exactly the module's bit in `IPSINTMASK`, and returns -1 with no device |
| Ips.IpsDevice.IrqDisable | drivers/ips/x2_ips.c:88-102 | disable sets exactly the module's bit, and returns -1 with no device |
| Ips.IpsDevice.MaskInt | drivers/ips/x2_ips.c:105-117 | mask sets exactly the given bits |
| Ips.IpsDevice.UnmaskInt | drivers/ips/x2_ips.c:120-132 | unmask clears exactly the given bits |
| Ips.IpsDevice.RegisterIrqhandle | drivers/ips/x2_ips.c:135-145 | an irq outside `SIF_INT..IPU_INT` is rejected with -1 and no table change. Otherwise only that entry changes |
| Ips.IpsDevice.GetIntstatus | drivers/ips/x2_ips.c:148-153 | returns the latched status, or 0 with no device |
| Ips.Dispatch | drivers/ips/x2_ips.c:156-184 | the handler calls are exactly the registered handlers whose bit is set, in the order ISP, SIF, IPU |
| Ips.IpsDevice.Irq | drivers/ips/x2_ips.c:156-184 | the interrupt makes exactly the dispatched calls and leaves `intstatus` at 0 |
| Ips.BusctlAddr | drivers/ips/x2_ips.c:190-197 | a bus-control register exists exactly for the accepted bank and index |
| Ips.BusctlAddrDistinct | drivers/ips/x2_ips.c:190-197 | different accepted (bank, index) pairs reach different registers, none of them a named register |
| Ips.BusctlMerge | drivers/ips/x2_ips.c:198-231 | a known region replaces only its field with `(value << shift) & mask`, and an unknown region writes the word back unchanged |
| Ips.BusctlRoundTrip | drivers/ips/x2_ips.c:186-278 | reading back a bus-control field gives the value written, cut to the field's width, and the other fields are kept |
| Ips.IpsDevice.BusctlSet | drivers/ips/x2_ips.c:186-231 | a rejected bank or index returns -1 without writing. Otherwise the merged word is written and 0 returned |
| Ips.IpsDevice.BusctlGet | drivers/ips/x2_ips.c:234-278 | returns the region's field of the addressed word, or the -1 pattern |
| Ips.Bit | drivers/ips/x2_ips.c:352-357 | `0x1 << region` is non-zero below 32 |
| Ips.BitsDisjoint | drivers/ips/x2_ips.c:346-392 | different bit numbers give disjoint bits |
| Ips.TestBit | drivers/ips/x2_ips.c:372-376 | the getters return 1 iff the bit is set, else 0 |
| Ips.ControlReadsBack | drivers/ips/x2_ips.c:346-377 | `ips_control_get` after `ips_control_set` reads back whether the state was non-zero |
| Ips.ControlKeepsOther | drivers/ips/x2_ips.c:346-377 | setting one clock-gate bit leaves every other bit |
| Ips.OtherBit | drivers/ips/x2_ips.c:352-357 | setting or clearing some bits keeps every bit disjoint from them |
| Ips.IpsDevice.ControlSet | drivers/ips/x2_ips.c:346-362 | no device or an out-of-range region gives -1 with no write. Otherwise exactly one bit of `IPS_CTL` is set or cleared, and 0 is returned |
| Ips.IpsDevice.ControlGet | drivers/ips/x2_ips.c:365-377 | -1 iff there is no device or the region is out of range, otherwise the `IPS_CTL` bit as 0 or 1 |
| Ips.IpsDevice.GetStatus | drivers/ips/x2_ips.c:380-392 | -1 iff there is no device or the region is out of range, otherwise the `IPS_STATUS` bit as 0 or 1 |
| Ips.IpsDevice.GetMipiFreqrange | drivers/ips/x2_ips.c:395-428 | returns the region's field, or the -1 pattern |
| Ips.IpsDevice.SetMipiFreqrangeAsWritten | drivers/ips/x2_ips.c:431-464 | as written: it returns the merged word (device HS range at shift 24) but never writes the register |
| Ips.DevHsRangeLost | drivers/ips/x2_ips.c:446-449 | with the as-written merge, the device HS range always reads back 0 |
| Ips.DevHsRangeLostExample | drivers/ips/x2_ips.c:446-449 | setting the device HS range to `0x12` does not read back `0x12` |
| Ips.IpsDevice.SetMipiFreqrange | drivers/ips/x2_ips.c:431-464 | corrected: for a known region the merged word (device HS range at shift 16) is written back and returned |
| Ips.FreqrangeRoundTrip | drivers/ips/x2_ips.c:395-464 | with the corrected merge every region reads back the low 8 bits of the value set, and the other regions keep theirs |
| Ips.LineBit | drivers/ips/x2_ips.c:510-514 | a reset line's bit is non-zero |
| Ips.LineFlags | drivers/ips/x2_ips.c:510-514 | the lines the loop selects are those with `BIT(i) & lines` non-zero |
| Ips.PulsedBelowExactly | drivers/ips/x2_ips.c:510-514 | the loop pulses exactly the selected lines below its bound |
| Ips.PulsedBelowIncreasing | drivers/ips/x2_ips.c:510-514 | each line is pulsed at most once, lowest first |
| Ips.PulsedExactly | drivers/ips/x2_ips.c:505-516 | `ips_module_reset` pulses exactly the lines whose bit is set among the six, each once, lowest first |
| Ips.IpsDevice.ModuleReset | drivers/ips/x2_ips.c:505-516 | the reset appends exactly those pulses |
| Ips.IpsDevice.constructor | drivers/ips/x2_ips.c:519-589 | after probe no handler is registered and nothing is latched |
| RegField.FieldMaskBits | drivers/ips/dsihost_interface_axi/dsih_video.c:42 | bit `k` of `(1 << width) - 1` is set exactly when `k < width` |
| RegField.WritePartKeepsOutside | drivers/ips/dsihost_interface_axi/dsih_video.c:39-48 | every bit outside the field keeps its old value |
| RegField.WritePartSetsField | drivers/ips/dsihost_interface_axi/dsih_video.c:39-48 | the bits inside the field are those of `data & mask`, moved up by `shift` |
| RegField.ReadPart | drivers/ips/dsihost_interface_axi/dsih_video.c:50-55 | `(word >> shift) & mask` fits in the mask |
| RegField.ReadAfterWrite | drivers/ips/dsihost_interface_axi/dsih_video.c:39-55 | reading a field just written gives `data & mask` |
| RegField.WriteBackUnchanged | drivers/ips/dsihost_interface_axi/dsih_video.c:39-55 | writing back the value just read leaves the word unchanged |
| RegWindow.StoreWord | drivers/ips/dsihost_interface_axi/dsih_video.c:24-29 | a word write changes exactly the addressed register |
| RegWindow.LoadAfterStore | drivers/ips/dsihost_interface_axi/dsih_video.c:39-55 | a field store then load gives the value cut to the field, and no other register changes |
| RegWindow.StoreLoadedUnchanged | drivers/ips/dsihost_interface_axi/dsih_video.c:39-55 | storing back a field just loaded leaves the window unchanged |
| DsiVideo.Write | drivers/ips/dsihost_interface_axi/dsih_video.c:24-29 | `video_if_write` stores the word at `reg << 2` |
| DsiVideo.WriteField | drivers/ips/dsihost_interface_axi/dsih_video.c:39-48 | `video_if_write_part` is the field store |
| DsiVideo.ReadField | drivers/ips/dsihost_interface_axi/dsih_video.c:50-55 | `video_if_read_part` is the field load, within the mask |
| DsiVideo.HighHalfKeepsLowHalf | drivers/ips/dsihost_interface_axi/dsih_video.c:319-352 | writing the high half of CANVAS keeps the low half |
| DsiVideo.LowHalfKeepsHighHalf | drivers/ips/dsihost_interface_axi/dsih_video.c:319-352 | writing the low half keeps the high half |
| DsiVideo.VerticalFieldsKeepSync | drivers/ips/dsihost_interface_axi/dsih_video.c:415-438 | vertical blanking and front porch writes keep the sync field |
| DsiVideo.FrontPorchKeepsBlanking | drivers/ips/dsihost_interface_axi/dsih_video.c:415-428 | the front porch write keeps the blanking field |
| DsiVideo.PanCoord | drivers/ips/dsihost_interface_axi/dsih_video.c:63-69 | PANX and PANY take the coordinates, PAN_VALID ends at 1, and nothing else changes |
| DsiVideo.XCoord | drivers/ips/dsihost_interface_axi/dsih_video.c:76-80 | the x coordinate fits in 16 bits |
| DsiVideo.YCoord | drivers/ips/dsihost_interface_axi/dsih_video.c:87-90 | the y coordinate fits in 16 bits |
| DsiVideo.PanRight | drivers/ips/dsihost_interface_axi/dsih_video.c:274-278 | x grows by 40, wrapping as `uint16_t`; y is kept |
| DsiVideo.PanLeft | drivers/ips/dsihost_interface_axi/dsih_video.c:284-290 | x drops by 40, but an x of at most 40 is left as it is; y is kept |
| DsiVideo.PanUp | drivers/ips/dsihost_interface_axi/dsih_video.c:296-302 | the same as PanLeft, on y |
| DsiVideo.PanDown | drivers/ips/dsihost_interface_axi/dsih_video.c:308-312 | the same as PanRight, on y |
| DsiVideo.SwitchSource | drivers/ips/dsihost_interface_axi/dsih_video.c:117-120 | the one-bit source field toggles (also at lines 256-259), and the target is kept |
| DsiVideo.SwitchTarget | drivers/ips/dsihost_interface_axi/dsih_video.c:197-200 | the target becomes `(t + 1) mod 3` (also at lines 265-268), and the source is kept |
| DsiVideo.LineTime | drivers/ips/dsihost_interface_axi/dsih_video.c:361-370 | `line_time` is the floor of `1000*VIDEO_IF_FREQ/(fps*v_total)` |
| DsiVideo.Fps | drivers/ips/dsihost_interface_axi/dsih_video.c:361-370 | `video_if_fps` writes exactly LINE_TIME, with the line time of the programmed frame height |
| DsiVideo.SetHActive | drivers/ips/dsihost_interface_axi/dsih_video.c:319-322 | writes the horizontal active size and keeps the vertical one |
| DsiVideo.SetVActive | drivers/ips/dsihost_interface_axi/dsih_video.c:329-332 | writes the vertical active size and keeps the horizontal one |
| DsiVideo.SetHBlanking | drivers/ips/dsihost_interface_axi/dsih_video.c:395-398 | writes the horizontal blanking and keeps the sync |
| DsiVideo.SetHSync | drivers/ips/dsihost_interface_axi/dsih_video.c:405-408 | writes the horizontal sync and keeps the blanking |
| DsiVideo.SetVSync | drivers/ips/dsihost_interface_axi/dsih_video.c:435-438 | writes the vertical sync field and keeps the blanking and the front porch |
| DsiVideo.SetVBlanking | drivers/ips/dsihost_interface_axi/dsih_video.c:415-418 | writes the vertical blanking and keeps the sync and the front porch |
| DsiVideo.SetVFrontPorch | drivers/ips/dsihost_interface_axi/dsih_video.c:425-428 | writes the front porch and keeps the sync and the blanking |
| DsiVideo.SetColorMode | drivers/ips/dsihost_interface_axi/dsih_video.c:508-516 | writes and returns 0 iff the code is below `VIF_COLOR_CODE_MAX`; otherwise returns 1 without writing |
| DsiVideo.ColorModeDecodes | drivers/ips/dsihost_interface_axi/dsih_video.c:537-588 | reading back a written colour code names its depth and configuration; codes above the last read as 24 bpp with configuration 0 |
| DsiVideo.GetBitsPerPixel | drivers/ips/dsihost_interface_axi/dsih_video.c:537-556 | the depth of the colour code in the low byte of DPICOLORMODE, always 16, 18 or 24 |
| DsiVideo.GetPixelConfig | drivers/ips/dsihost_interface_axi/dsih_video.c:563-588 | the pixel configuration of the colour code in the low byte of DPICOLORMODE, at most 3 |
| DsiVideo.Edpi | drivers/ips/dsihost_interface_axi/dsih_video.c:595-598 | the eDPI enable register takes the value, and nothing else changes |
| DsiVideo.CanvasKept | drivers/ips/dsihost_interface_axi/dsih_video.c:742-813 | writing the line time and the pan registers keeps the canvas, the timing and the colour mode |
| DsiVideo.ProgramCanvas | drivers/ips/dsihost_interface_axi/dsih_video.c:733-741 | the display's canvas and timing are written |
| DsiVideo.FixedLineTime | drivers/ips/dsihost_interface_axi/dsih_video.c:757-759 | a fixed line time is written and the pan origin reset to 0,0 |
| DsiVideo.ProgramLineTime | drivers/ips/dsihost_interface_axi/dsih_video.c:742-813 | the line-time step of `video_if_config` completes the display's configuration, writing only the line time and the pan registers |
| DsiVideo.ProgramBridge | drivers/ips/dsihost_interface_axi/dsih_video.c:733-813 | a known display's bridge ends configured, and only the registers `video_if_config` writes change |
| DsiVideo.Config | drivers/ips/dsihost_interface_axi/dsih_video.c:726-819 | an unknown mode gives -1 and writes nothing. A known mode gets the 24-bit colour mode, its canvas and timing, and its line time: computed from 60 fps for TREMOLO_S, otherwise a constant with the pan origin reset. `dpi_video.hline` records the line time, and 0 is returned and 0 is returned. No register outside the colour mode, canvas, timing, line time and pan registers changes |
| DsiVideo.TremoloHeight | drivers/ips/dsihost_interface_axi/dsih_video.c:738-741 | the TREMOLO_S frame is 545 lines high |
| DsiVideo.TremoloLineTime | drivers/ips/dsihost_interface_axi/dsih_video.c:742 | TREMOLO_S at 60 fps gives a line time of 764 ticks |
| DsiVideo.PanZoom.UpdateZoom | drivers/ips/dsihost_interface_axi/dsih_video.c:664-685 | zoom stays in [0,10]. `panx` moves only when below 100 (zoom in) or above 0 (zoom out). Other arguments change nothing |
| DsiVideo.PanZoom.UpdatePanx | drivers/ips/dsihost_interface_axi/dsih_video.c:687-698 | `panx` steps within [0,150], and other arguments are ignored |
| DsiVideo.PanZoom.UpdatePany | drivers/ips/dsihost_interface_axi/dsih_video.c:700-711 | `pany` steps within [0,150], and other arguments are ignored |
| DsiVideo.AdjustPanX | drivers/ips/dsihost_interface_axi/dsih_video.c:650-655 | PANX takes the value and PAN_VALID ends at 1; the y coordinate and every other register keep their values |
| DsiVideo.AdjustPanY | drivers/ips/dsihost_interface_axi/dsih_video.c:657-662 | PANY takes the value and PAN_VALID ends at 1; the x coordinate and every other register keep their values |
| DsiVideo.PositionAsWrittenKeepsPan | drivers/ips/dsihost_interface_axi/dsih_video.c:713-724 | as written: ZOOM_OUT takes the zoom, and the x and y coordinates keep their old values whatever the counters are, since both counters are written to PAN_VALID. Only ZOOM_OUT and PAN_VALID change |
| DsiVideo.PositionAsWrittenExample | drivers/ips/dsihost_interface_axi/dsih_video.c:713-724 | from reset, with `panx_g` at 1, the x coordinate stays 0 |
| DsiVideo.PanZoom.UpdatePosition | drivers/ips/dsihost_interface_axi/dsih_video.c:713-724 | corrected: ZOOM_OUT takes `zoom_g`, the x and y coordinates read back `panx_g` and `pany_g`, and PAN_VALID ends at 1; no other register changes |
| DsiMmcm.ReadWord | drivers/ips/dsihost_interface_axi/dsih_mmcm.c:37-49 | a null device gives `(uint32_t)-ENODEV` without access, otherwise the register |
| DsiMmcm.WriteWord | drivers/ips/dsihost_interface_axi/dsih_mmcm.c:69-77 | a null device writes nothing, otherwise the register takes the word |
| DsiMmcm.WriteField | drivers/ips/dsihost_interface_axi/dsih_mmcm.c:22-30 | only the field takes `data & mask`, and a null device writes nothing |
| DsiMmcm.ReadField | drivers/ips/dsihost_interface_axi/dsih_mmcm.c:58-61 | the field of the word, within the mask |
| DsiDphyGen3.ReadWord | drivers/ips/dsihost_interface_axi/dsih_dphy_gen3.c:37-48 | a null device gives `(uint32_t)-ENODEV` without access, otherwise the register |
| DsiDphyGen3.WriteWord | drivers/ips/dsihost_interface_axi/dsih_dphy_gen3.c:68-76 | a null device writes nothing, otherwise the register takes the word |
| DsiDphyGen3.WriteField | drivers/ips/dsihost_interface_axi/dsih_dphy_gen3.c:22-30 | only the field takes `data & mask`, and a null device writes nothing |
| DsiDphyGen3.ReadField | drivers/ips/dsihost_interface_axi/dsih_dphy_gen3.c:57-60 | the field of the word, within the mask |
| DsiAlloc.MemAlloc.Append | drivers/ips/dsihost_interface_axi/dsih_core.c:469-485 | a new node gets number `instance + 1` and points back at the newest node or the head. It becomes `last`, and the head's size grows by its size |
| DsiAlloc.ChainedAppend | drivers/ips/dsihost_interface_axi/dsih_core.c:477-483 | a node whose `prev` is the newest node, or the head, extends the chain |
| DsiAlloc.RecordsDistinct | drivers/ips/dsihost_interface_axi/dsih_core.c:469-485 | the numbering alone keeps the recorded nodes distinct |
| DsiAlloc.AllocList.Alloc | drivers/ips/dsihost_interface_axi/dsih_core.c:428-486 | the head is created on the first call (instance 0, size 0) and kept after. The result is non-null iff every allocation succeeds. On failure the records are unchanged; on success one record is appended |
| DsiAlloc.AllocList.Record | drivers/ips/dsihost_interface_axi/dsih_core.c:469-485 | the success path appends the block's record |
| DsiAlloc.MemAlloc.Pop | drivers/ips/dsihost_interface_axi/dsih_core.c:503-515 | one pop unlinks the newest node, takes one off the count and its size off the total |
| DsiAlloc.MemAlloc.Drain | drivers/ips/dsihost_interface_axi/dsih_core.c:501-516 | the loop ends with count and total 0, freeing the nodes newest first |
| DsiAlloc.AllocList.FreeAll | drivers/ips/dsihost_interface_axi/dsih_core.c:494-521 | `free_all_mem` frees every node newest first, ends with a total of 0 and a null list, and does nothing on a null list |
| DsiCore.InitialDpi | drivers/ips/dsihost_interface_axi/dsih_core.c:96-131 | the DPI set after a successful open: invalid video mode, one lane and zero resolution, with the colour coding and display type kept |
| DsiCore.InitialEdpi | drivers/ips/dsihost_interface_axi/dsih_core.c:96-131 | the eDPI set after a successful open: zero resolution and packet size, with the lane count and colour coding kept |
| DsiCore.InitParam | drivers/ips/dsihost_interface_axi/dsih_core.c:54-132 | sets 4 lanes, 4095 BTA cycles, both polarities 1 and the reference clock. It returns the open result, and resets the DPI/eDPI sets only when the open succeeds |
| DsiCore.PlatformInit | drivers/ips/dsihost_interface_axi/dsih_core.c:142-187 | the command-mode and video-mode branches have the effects stated for PlatformCommandMode and PlatformVideoMode. Any other mode changes no parameter set and not the bridge. The controller is reset in every case |
| DsiCore.CommandBridge | drivers/ips/dsihost_interface_axi/dsih_core.c:162-163 | `video_if_config` then `video_if_edpi(1)`: a known display's bridge is configured with `hline` recording its line time, and an unknown display changes only the eDPI enable |
| DsiCore.PlatformCommandMode | drivers/ips/dsihost_interface_axi/dsih_core.c:149-164 | a command-mode display gets its eDPI row, and the row is copied to the shadow when `pre_command_mode` accepts it. Any other display leaves both eDPI sets alone. A known display's bridge is configured for it (24-bit colour, canvas, timing, line time), only the registers `video_if_config` writes and the eDPI enable change, and `dpi_video` changes only in `hline`, which holds the line time read back. An unknown display changes only the eDPI enable and leaves `dpi_video` alone. eDPI ends switched on and the DPI shadow is kept |
| DsiCore.PlatformVideoMode | drivers/ips/dsihost_interface_axi/dsih_core.c:165-181 | a known display gets its DPI row, which is copied to the shadow when `pre_video_mode` accepts it. Its bridge is configured for it, and only the registers `video_if_config` writes change. After the second `pre_video_mode`, `dpi_video` is the row with `hline` holding the line time read back. An unknown display changes neither set nor the bridge. The eDPI sets are kept |
| DsiCore.Handler | drivers/ips/dsihost_interface_axi/dsih_core.c:198-236 | both handlers return `IRQ_NONE` iff the cookie is null |
| DsiDev.MipiDsiDev.constructor | drivers/ips/dsihost_interface_axi/dsih_core.c:539 | the `kzalloc`ed device: the core, bridge, D-PHY Gen3 and MMCM windows are empty (every register reads 0), both parameter sets, their shadows and the framebuffer variable info are the zero values, and the PHY reference frequency, lane count, output frequency, lane and BTA limits, both polarities, the reset count and both interrupt depths are 0 |
| DsiDisplays.CopyDpi | drivers/ips/dsihost_interface_axi/dsih_displays.c:19-49 | the copy takes every listed field from the source and keeps `display_type`, `receive_ack_packets`, `data_en_polarity` and `hline` of the target |
| DsiDisplays.CopyEdpi | drivers/ips/dsihost_interface_axi/dsih_displays.c:51-67 | the copy takes every field but `display_type` from the source |
| DsiDisplays.DpiRollbackRestores | drivers/ips/dsihost_interface_axi/dsih_displays.c:19-49 | rolling back from a shadow taken just before restores the current DPI set |
| DsiDisplays.EdpiRollbackRestores | drivers/ips/dsihost_interface_axi/dsih_displays.c:51-67 | rolling back from a shadow taken just before restores the current eDPI set |
| DsiDisplays.CopyIdempotent | drivers/ips/dsihost_interface_axi/dsih_displays.c:19-67 | copying twice is copying once |
| DsiDisplays.PreVideoMode | drivers/ips/dsihost_interface_axi/dsih_displays.c:72-254 | no device gives -ENODEV. An unknown display gives 1 and no change. Otherwise the display's row is applied and 0 returned |
| DsiDisplays.VideoModeIdentifies | drivers/ips/dsihost_interface_axi/dsih_displays.c:83-248 | every row records the display and the lane count, with virtual channel 0, 24-bit colour and data-enable polarity 1 |
| DsiDisplays.VideoModeResolution | drivers/ips/dsihost_interface_axi/dsih_displays.c:83-248 | TREMOLO_S is 960x540 in 4000x546; SHARP is 800x1280; the others are 800x480 |
| DsiDisplays.VideoModeKeeps | drivers/ips/dsihost_interface_axi/dsih_displays.c:83-248 | every row keeps the clock mode and `hline`. All rows but SHARP keep the HS/LP transition limits, and SHARP keeps the EoTp settings |
| DsiDisplays.VideoModeBlankingFits | drivers/ips/dsihost_interface_axi/dsih_displays.c:83-248 | active plus sync plus back porch fits in the total, except SHARP's vertical total, which is one line short |
| DsiDisplays.PreCommandMode | drivers/ips/dsihost_interface_axi/dsih_displays.c:256-330 | no device gives -ENODEV. SHARP or an unknown display gives 1 and no change. Otherwise the row is applied and 0 returned |
| DsiDisplays.CmdModeBta | drivers/ips/dsihost_interface_axi/dsih_displays.c:256-330 | only SNPS turns on bus turn-around, and the others keep it. Every row records the display and the lane count and keeps the packet size |
| DsiDisplays.CmdModeMatchesVideoMode | drivers/ips/dsihost_interface_axi/dsih_displays.c:72-330 | command-mode and video-mode rows agree on the active area |
| DsiDisplays.ScreenInitOutcome | drivers/ips/dsihost_interface_axi/dsih_displays.c:1454-1464 | `dsi_screen_init` (with its mode packets at lines 2578-2590 and 2815-2818) returns 0 exactly for a known screen and 1 otherwise. A final mode packet is sent exactly for TREMOLO_S and TREMOLO_M in command or video mode, and it is `0x40` followed by the mode |
| DsiFramebuffer.Framebuffers.constructor | drivers/ips/dsihost_interface_axi/dsih_framebuffer.c:105-116 | the registry (lines 20-22) and the sticky flags start at zero |
| DsiFramebuffer.Framebuffers.InitFrameBuffer | drivers/ips/dsihost_interface_axi/dsih_framebuffer.c:24-90 | as written: a null device changes nothing. Otherwise the device gets the default 640x480 16-bpp mode, is stored at `pdev_array[fb_count]`, and `fb_count` grows |
| DsiFramebuffer.ThirdRegistrationOverflows | drivers/ips/dsihost_interface_axi/dsih_framebuffer.c:87-89 | after two registrations into the two-entry array of line 20, `fb_count` equals the array size, so a third would store out of bounds |
| DsiFramebuffer.Framebuffers.InitFrameBufferChecked | drivers/ips/dsihost_interface_axi/dsih_framebuffer.c:24-90 | corrected: a device that finds the registry full is refused with -ENOMEM and nothing changes |
| DsiFramebuffer.TranspBitsSet | drivers/ips/dsihost_interface_axi/dsih_framebuffer.c:807-824 | with a transparency field, all its bits are set whatever the argument. Without one, the entry is exactly the or of the three channels, each placed at its offset |
| DsiFramebuffer.Rgb565Recovered | drivers/ips/dsihost_interface_axi/dsih_framebuffer.c:807-824 | in the default RGB565 layout of lines 42-60, each field holds the top bits of its component, and the entry fits in 16 bits |
| DsiFramebuffer.SetColReg | drivers/ips/dsihost_interface_axi/dsih_framebuffer.c:804-825 | `regno >= 16` gives -EINVAL and leaves the palette untouched. Otherwise only `pal[regno]` changes, to the packed entry |
| DsiFramebuffer.Read | drivers/ips/dsihost_interface_axi/dsih_framebuffer.c:778-782 | nothing is read |
| DsiFramebuffer.Write | drivers/ips/dsihost_interface_axi/dsih_framebuffer.c:784-788 | every byte is accepted |
| DsiFramebuffer.DpiOutcomeInSync | drivers/ips/dsihost_interface_axi/dsih_framebuffer.c:314-362 | whatever the outcome, a DPI write leaves the current and shadow sets in sync |
| DsiFramebuffer.DpiFailureRestores | drivers/ips/dsihost_interface_axi/dsih_framebuffer.c:314-362 | a failed DPI write restores the current set from the shadow |
| DsiFramebuffer.EdpiSuccessInSync | drivers/ips/dsihost_interface_axi/dsih_framebuffer.c:364-414 | a successful eDPI write saves the current set into the shadow |
| DsiFramebuffer.EdpiFailureMayDiverge | drivers/ips/dsihost_interface_axi/dsih_framebuffer.c:364-414 | a failed eDPI write is not rolled back, so the sets can disagree |
| DsiFramebuffer.ApplyDpi | drivers/ips/dsihost_interface_axi/dsih_framebuffer.c:314-362 | the sets become the DPI outcome, and the controller is reset only on success |
| DsiFramebuffer.ApplyEdpi | drivers/ips/dsihost_interface_axi/dsih_framebuffer.c:364-414 | the sets become the eDPI outcome, and the controller is reset only on success |
| DsiFramebuffer.Sticky | drivers/ips/dsihost_interface_axi/dsih_framebuffer.c:533 | `rx_en` becomes 1 when the flag is set and keeps its value otherwise |
| DsiFramebuffer.StickyStaysOn | drivers/ips/dsihost_interface_axi/dsih_framebuffer.c:530-602 | once on, `rx_en` stays on whatever later flags say |
| DsiFramebuffer.FlagStep | drivers/ips/dsihost_interface_axi/dsih_framebuffer.c:523-602 | RX sets `rx_en` to the low byte of its argument. ACK, ECC, EOTP_TX and EOTP_RX each set only their own flag to the low byte and turn `rx_en` on when it is non-zero. No other command touches a flag, and only RX can turn `rx_en` off |
| DsiFramebuffer.FlagRunKeepsRx | drivers/ips/dsihost_interface_axi/dsih_framebuffer.c:523-602 | once on, `rx_en` stays on through any run of commands without RX |
| DsiFramebuffer.AckRunIsSticky | drivers/ips/dsihost_interface_axi/dsih_framebuffer.c:530-537 | over a run of ACK commands, `rx_en` follows `StickyAll` of their low bytes |
| DsiFramebuffer.AckRun | drivers/ips/dsihost_interface_axi/dsih_framebuffer.c:530-537 | the ACK commands for a list of flags, one each, in order |
| DsiFramebuffer.LowBytes | drivers/ips/dsihost_interface_axi/dsih_framebuffer.c:532 | the `uint8_t` each 4-byte copy leaves, one per argument |
| DsiFramebuffer.Framebuffers.StickyFlags | drivers/ips/dsihost_interface_axi/dsih_framebuffer.c:523-602 | the statics change exactly as `FlagStep` says |
| DsiFramebuffer.DeviceCommand | drivers/ips/dsihost_interface_axi/dsih_framebuffer.c:140-708 | each command has exactly its device effect: parameter writes and pre-configurations with rollback, the platform set-up, the PHY settings, a core register store or read, and the bridge commands. A core read returns the register. The platform set-up has the effects stated for DsiCore.PlatformInit and keeps the PHY settings. Every other command states what it keeps among the parameter sets, the bridge and the PHY settings |
| DsiFramebuffer.DpiCommand | drivers/ips/dsihost_interface_axi/dsih_framebuffer.c:314-362 | DPI_WRITE and DPI_PRE_CONFIG give the DPI outcome, keeping the eDPI sets, the bridge and the PHY settings |
| DsiFramebuffer.EdpiCommand | drivers/ips/dsihost_interface_axi/dsih_framebuffer.c:364-414 | EDPI_WRITE and EDPI_PRE_CONFIG give the eDPI outcome, keeping the DPI sets, the bridge and the PHY settings |
| DsiFramebuffer.VifDevice | drivers/ips/dsihost_interface_axi/dsih_framebuffer.c:190-285 | a VIF command changes the bridge and the DPI set as `VifDone` says and keeps the rest |
| DsiFramebuffer.RegisterCommand | drivers/ips/dsihost_interface_axi/dsih_framebuffer.c:140-177 | CORE_READ returns the register and changes nothing. CORE_WRITE stores one register of the core window. PHY records lanes and frequency. The other commands keep the device |
| DsiFramebuffer.VifCommand | drivers/ips/dsihost_interface_axi/dsih_framebuffer.c:190-285 | each VIF command has its bridge effect: a register store, a timing field, the line time for FPS, the colour mode for BPP and PCONF, the eDPI enable, or the display set-up for PRE, which also keeps the line time in `dpi_video.hline` |
| DsiFramebuffer.VifRegister | drivers/ips/dsihost_interface_axi/dsih_framebuffer.c:190-219 | TEST and PSEL store the low byte, LTIME and TE the 32-bit value, each in its own register; nothing else changes |
| DsiFramebuffer.VifMode | drivers/ips/dsihost_interface_axi/dsih_framebuffer.c:256-273 | BPP and PCONF set the colour mode (a code of 6 or more writes nothing), and EDPI sets the eDPI enable |
| DsiFramebuffer.VifTiming | drivers/ips/dsihost_interface_axi/dsih_framebuffer.c:196-249 | HRES, VRES, HBP and HSYNC set a 16-bit field and VBP, VFP and VSYNC an 8-bit one, each keeping the fields it shares its register with and every other register |
| DsiFramebuffer.Framebuffers.Ioctl | drivers/ips/dsihost_interface_axi/dsih_framebuffer.c:105-766 | a node without a device gives -EINVAL and no change. Otherwise the result is 0 (the bus accessors of lines 92-103 never fail), both interrupts are enabled again at exit, the flags move as `FlagStep` says, the device has exactly its `DeviceEffect`, a core read hands back the register, and no other device changes |
| DscMath.CeilIsCeiling | drivers/ips/dsihost_interface_axi/dsih_dsc.h:40 | for `d > 0`, `ceil(n,d)` is the least count of `d` that reaches `n`, negative `n` included |
| DscMath.FloorIsFloor | drivers/ips/dsihost_interface_axi/dsih_dsc.h:41 | for `d > 0`, `floor(n,d)` is the greatest count of `d` within `n`, negative `n` included |
| DscMath.CeilFloorGap | drivers/ips/dsihost_interface_axi/dsih_dsc.h:40-41 | the two agree iff `d` divides `n`, and differ by one otherwise |
| DscMath.RangeCheck | drivers/ips/dsihost_interface_axi/dsih_dsc.h:42-52 | `RANGE_CHECK` reports an error iff the value lies outside the bounds, and changes nothing |

## Left out

**Foreign code, concurrency and I/O**
- **Concurrency.** Spin locks, wait queues, `wake_up` and `kthread_run` are not modelled. Every entry point is one atomic step, and the wake-ups of the event handler are a ghost counter (`events`).
- **Hardware calls.** Register-level calls of the IPU (`set_ipu_addr`, `ctrl_ipu_to_ddr`, `set_ipu_ctrl`, ...) are entries of a ghost log, and their effect on the hardware is not modelled. `ipu_dump_regs` (`IPUC_DUMP_REG`) only returns 0.
- **User copies.** `copy_from_user` and `copy_to_user` are outcomes carried by the request. The partial overwrite of a configuration by a failed `copy_from_user` is not modelled: a failed copy leaves the configuration unchanged.
- **Mapping.** `remap_pfn_range` in `ipu_mmap` is a parameter (`remapOk`).
- **D-PHY.** The D-PHY initialisation and the polling loops of the MIPI host are an outcome (`phyOk`). The optional wait for high-speed reception in `mipi_host_start` is not modelled.
- **MMC tuning oracle.** `mmc_send_tuning` is an oracle `pass[p]` per phase, and `clk_set_phase` is the applied phase.
- **DSI host.** The `mipi_dsih_*` calls of `fb_mipi_ioctl` (DCS and generic packets, power, PHY test, tearing acknowledgement, clock lane and ULPS controls) are foreign and left out, and so are the writes they make to the core window. For those commands the model keeps the interrupt enables, the sticky flags and the device state it follows.
- **Byte-sized statics.** `FB_MIPI_RX`, `_ACK`, `_ECC`, `_EOTP_TX`, `_EOTP_RX`, `_READY_CLK_DLY` and `_CMD_HS` copy four bytes into one-byte statics (dsih_framebuffer.c:107-113). The model keeps the low byte, as on a little-endian machine. The three bytes written past each static are not modelled, and `ready_dly` and `cmd_lp` only feed foreign calls.
- **Failed user copies in the DSI ioctl.** Their results are ignored by the source. The model takes each copy to succeed.
- **FB_MIPI_TEAR.** It writes `te` through `cmd_video_params`, a pointer that is never initialised (dsih_framebuffer.c:121, 691, 695). This write to an unknown address is not modelled.
- **FB_MIPI_HSCLK.** It passes `tmp`, always 0, instead of the copied parameter (dsih_framebuffer.c:626-628). The call is foreign, so only this observation is recorded.
- **Panel scripts.** The long panel command scripts of `dsi_screen_init` are left out. Only the return value and the final mode packet are modelled.
- **Outside the core.** The IPS pin-mux, BT-out clock and `ips_mipi_ctl_*` helpers, and every probe, remove and debugfs function, are not modelled.

**Headers and platform details**
- **Missing headers.** `ipu_slot.h`, `ipu_common.h`, `x2/x2_ips.h` and the MIPI host headers are not part of this model. The values chosen here are:
  - `IPU_SLOT_SIZE`, the layer counts (24 downsample, 6 upsample) and `SLOT_COUNT`;
  - the IPU status bits, the IPS register offsets, masks and region numbers;
  - the errno values.
  
  Every property is stated in terms of the named constants.
- **Slot registry.** It is modelled as three first-in first-out id queues. `ipu_get_done_slot` is taken to pop the oldest done slot, and cleaning puts ids `0 .. SLOT_COUNT-1` back into free.
- **Shaped.** `IpuLayout.Shaped` requires `ds_layer_en < 24`, because a larger value would index past the C arrays.
- **Addresses.** Slot addresses are unbounded integers, so the 64-bit wrap of `paddr + offset` is not modelled.
- **ipu_poll.** Its second "done non-empty" test after `poll_wait` is not modelled, because it cannot differ from the first in an atomic step.

**Weaker or partial contracts**
- MmcTuning.ExecuteTuning: states that the applied phase is `TunedPhase` of some range collection satisfying `Collected`. `Collected` does not pin a range's start to the first passing phase after a tested failure, so the collection, and with it the phase, is not shown to be unique for a given pass pattern. `MmcTuning.SelectPhase` states the exact phase for the array the sweep left.
- MipiHost.Hsd: states the bound and the alignment only. MipiHost.HsdCoversDemand states the relation to the demand, excluding the 16-bit truncation case.
- DsiFramebuffer.Framebuffers.InitFrameBuffer: requires a free registry entry, because the C store past the two-entry array is undefined behaviour. DsiFramebuffer.ThirdRegistrationOverflows shows the registry is full after two registrations.
- Ips.IpsDevice.ModuleReset: requires a probed device, because `ips_module_reset` uses `g_ipsdev` without testing it.
- MipiHost.MipiHostDev.Ioctl: for READ, states the return code but not the register value copied out.
- DsiFramebuffer.Framebuffers.Ioctl: requires, for `FB_MIPI_VIF_FPS`, a non-zero rate byte and frame height, because `video_if_fps` divides by their product (dsih_framebuffer.c:220-225). The effects of the foreign calls on the core window are not stated.
- IpuLayout.Span: computes the advance without the 32-bit wrap of the source. `IpuLayout.SpanAsWritten` keeps the wrapping form, and the Findings table shows where they differ.
- IpuDrv.Ipu.Place: advances the cursor by `IpuLayout.Span`, not `IpuLayout.SpanAsWritten`. For a stage whose `size * 3` reaches 2^32 it therefore differs from the C, as the ipu_drv.c:56 row under "## Findings" shows.
- IpuDrv.Ipu.DdrinfoInit: plans with `IpuLayout.Span`, not `IpuLayout.SpanAsWritten`. Where the C wraps the advance (the ipu_drv.c:56 row under "## Findings"), the model reports an overflow and the C goes on planning.
- DsiFramebuffer.Framebuffers.Ioctl: does not state that the framebuffer variable info, the lane and BTA limits, both polarities and the PHY reference frequency keep their values. The model's own steps never write them, but the foreign `mipi_dsih_*` calls the C makes receive the whole device and may.
- DsiFramebuffer.Framebuffers.Ioctl: requires `node < pdevArray.Length`. The C indexes `pdev_array[info->node]` (dsih_framebuffer.c:128) without a bound, and a larger node would read past the two-entry array.
- DsiVideo.PanZoom.UpdatePosition: models the corrected writes to PANY and PANX. The stores into PAN_VALID as written are `DsiVideo.PositionAsWritten` (see "## Findings"). The 1 ms `mdelay` calls are not modelled.
- MipiHost.RawPixelClock: the product in `int` overflows, which is undefined behaviour in C. The model takes the two's-complement wrap.
- DsiCore.InitParam: starts from a non-null device. The write through `dev` before its null test (dsih_core.c:56-93) is described, not modelled as a fault.

## Findings

| source | as written | input that shows it | evidently intended | confidence | as-written member | corrected member |
|---|---|---|---|---|---|---|
| drivers/ips/x2_ips.c:446-449 | `ips_set_mipi_freqrange` shifts the device HS range by 24 instead of 16 (its getter reads it at 16). It never writes the merged word back | region `MIPI_DEV_HSFREQRANGE`, value `0x12`: the field reads back 0 | the field at shift 16, written back to `IPS_MIPI_FREQRANGE` | not executed | Ips.IpsDevice.SetMipiFreqrangeAsWritten, Ips.DevHsRangeLostExample | Ips.IpsDevice.SetMipiFreqrange, Ips.FreqrangeRoundTrip |
| drivers/ips/mipi/x2_mipi_host.c:152-153 | `mipi_host_pixel_clk_select` divides 288 by the raw clock before `mipi_host_init` tests it for 0 (lines 594-598) | RAW10 with a MIPI clock below 10 (raw clock 0): division by zero | the zero test before the division | not executed | MipiHost.PixelClkSelect, MipiHost.ZeroRawPixelClock | MipiHost.PixelClkSelectChecked, MipiHost.MipiHostDev.HostInit |
| drivers/ips/dsihost_interface_axi/dsih_framebuffer.c:87-89 | `init_frame_buffer` stores at `pdev_array[fb_count]` with no bound check on the two-entry array | a third registration: stores at index 2 | refuse a device when the registry is full | not executed | DsiFramebuffer.Framebuffers.InitFrameBuffer, DsiFramebuffer.ThirdRegistrationOverflows | DsiFramebuffer.Framebuffers.InitFrameBufferChecked |
| drivers/ips/mipi/x2_mipi_host.c:231 | `mipi_host_get_hsd` forms `linelenth*framelenth*fps*bits_per_pixel` in 32 bits before dividing by 10^6 | 8192 by 16384 at 1 fps in YUV422-10: the raw pixel clock is 134, the product is exactly 2^32, the receive clock is 0, and line 235 divides by it. At 1080p60 the receive clock is 457 instead of 4752 | the receive clock computed without wrapping, and a zero receive clock refused before the division | not executed | MipiHost.RxBitClockWrapsToZero, MipiHost.RxBitClockWrapExample | MipiHost.MipiHostDev.HostInit, MipiHost.RxBitClockExact |
| drivers/ips/ipu/ipu_drv.c:56 | the cursor advance `size * 3 >> 1` is computed in `uint32_t` | a 65535 by 21856 crop with chroma: the advance wraps to 1 MB, the overflow test passes, and the next plane starts inside the crop's luma plane | the advance computed without wrapping, so the crop overflows the slot | not executed | IpuLayout.SpanAsWritten, IpuLayout.WrappedSpanOverlaps | IpuLayout.Span, IpuLayout.PlanesApart |
| drivers/ips/dsihost_interface_axi/dsih_video.c:718-719 | `video_if_update_position` writes `pany_g` and `panx_g` to `VIDEO_IF_PAN_VALID` | `panx_g` at 1 after one `video_if_update_panx(1)` from reset: PANX stays 0, so the x coordinate does not move | `pany_g` to `VIDEO_IF_PANY` and `panx_g` to `VIDEO_IF_PANX` | not executed | DsiVideo.PositionAsWritten, DsiVideo.PositionAsWrittenKeepsPan, DsiVideo.PositionAsWrittenExample | DsiVideo.PanZoom.UpdatePosition |
