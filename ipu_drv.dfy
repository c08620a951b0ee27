/**
 * `ipu/ipu_drv.c`: the IPU driver state `g_ipu` with its configuration
 * `cfg`, the slot-layout planner, the programming of slot addresses into the
 * hardware, and the start/stop/interrupt/thread protocol.
 *
 * Register-level calls (`set_ipu_addr`, `set_ds_layer_addr`,
 * `ctrl_ipu_to_ddr`, `set_ipu_crop`, ...) and `ips_irq_enable`/`disable`
 * are recorded as effects in the ghost log `hw`, in call order; `ipu_dev.c`
 * is not part of this model.  Spin locks are left out: every method is one
 * atomic step.
 */
module IpuDrv {
  import opened Optional
  import opened IpuLayout

  /** The DDR output paths of `ctrl_ipu_to_ddr`. */
  datatype Path = CropToDdr | ScalarToDdr | PymToDdr

  /** The configuration blocks `ipu_set` can program. */
  datatype Block = CtrlBlock | VideoSizeBlock | CropBlock | ScaleBlock | FrameIdBlock | PymidBlock

  /** One call into the hardware layer. */
  datatype HwEffect =
    | IpuAddr(channel: nat, at: Addr)       // set_ipu_addr
    | DsLayerAddr(layer: nat, at: Addr)     // set_ds_layer_addr
    | UsLayerAddr(layer: nat, at: Addr)     // set_us_layer_addr
    | DsSrcAddr(at: Addr)                   // set_ds_src_addr
    | ToDdr(paths: set<Path>, enable: bool) // ctrl_ipu_to_ddr
    | IpuIrq(enable: bool)                  // ips_irq_enable/disable(IPU_INT)
    | Program(block: Block)                 // set_ipu_ctrl, set_ipu_crop, ...
    | ResetIpu                              // ips_module_reset(RST_IPU)

  /** The commands of `ipu_set`. */
  datatype IpuCmd =
    | CmdSetDdr | CmdSetCropDdr | CmdSetScaleDdr | CmdSetPymDdr
    | CmdSetPym1stSrcDdr | CmdSetPym2ndSrcDdr
    | CmdSetBase | CmdSetCrop | CmdSetScale | CmdSetFrameId | CmdSetPymid
    | CmdOther

  /** `ipu_mode` values. */
  const IPU_INVALID: int := 0
  const IPU_ISP_SINGLE: int := 1

  /** A slot-relative descriptor moved to absolute address `base`. */
  function Shift(a: Addr, base: int): Addr
  {
    Addr(a.y + base, a.c + base)
  }

  // ---------------------------------------------------------------------
  // Address programming, as functions of the configuration

  /** The downsample layers `ipu_set_ddr` programs: layer 0 and every layer with a factor. */
  predicate DsProgrammed(s: Settings, i: nat)
    requires Shaped(s) && i < DS_LAYERS
  {
    i == 0 || s.pymid.dsFactor[i] != 0
  }

  /** `ipu_set_ddr`'s downsample loop over layers `0 .. n-1`. */
  function DsEffects(s: Settings, ddr: map<Plane, Addr>, base: int, n: nat): seq<HwEffect>
    requires Shaped(s) && n <= DS_LAYERS
  {
    if n == 0 then []
    else DsEffects(s, ddr, base, n - 1)
         + (if DsProgrammed(s, n - 1) then [DsLayerAddr(n - 1, Shift(Lookup(ddr, Ds(n - 1)), base))] else [])
  }

  /** The upsample loop over layers `0 .. n-1`, shared by `ipu_set_ddr` and `ipu_set_pym_ddr`. */
  function UsEffects(s: Settings, ddr: map<Plane, Addr>, base: int, n: nat): seq<HwEffect>
    requires Shaped(s) && n <= US_LAYERS
  {
    if n == 0 then []
    else UsEffects(s, ddr, base, n - 1)
         + (if BitSet(s.pymid.usLayerEn, n - 1) then [UsLayerAddr(n - 1, Shift(Lookup(ddr, Us(n - 1)), base))] else [])
  }

  function CropEffects(s: Settings, ddr: map<Plane, Addr>, base: int): seq<HwEffect>
  {
    if s.cropDdrEn == 1 then [IpuAddr(0, Shift(Lookup(ddr, Crop), base))] else []
  }

  function ScaleEffects(s: Settings, ddr: map<Plane, Addr>, base: int): seq<HwEffect>
  {
    if s.scaleDdrEn == 1 then [IpuAddr(1, Shift(Lookup(ddr, Scale), base))] else []
  }

  /** Everything `ipu_set_ddr(cfg, base)` programs, in order. */
  function SetDdrEffects(s: Settings, ddr: map<Plane, Addr>, base: int): seq<HwEffect>
    requires Shaped(s)
  {
    CropEffects(s, ddr, base) + ScaleEffects(s, ddr, base)
    + (if s.pymid.pymidEn == 1
       then DsEffects(s, ddr, base, s.pymid.dsLayerEn + 1) + UsEffects(s, ddr, base, US_LAYERS)
       else [])
  }

  /**
   * The reference: the addresses `ipu_set_ddr` is meant to program, each
   * the slot-relative descriptor plus `base`.
   */
  predicate SetDdrWrites(s: Settings, ddr: map<Plane, Addr>, base: int, e: HwEffect)
    requires Shaped(s)
  {
    match e
    case IpuAddr(ch, a) =>
      (ch == 0 && s.cropDdrEn == 1 && a == Shift(Lookup(ddr, Crop), base))
      || (ch == 1 && s.scaleDdrEn == 1 && a == Shift(Lookup(ddr, Scale), base))
    case DsLayerAddr(i, a) =>
      s.pymid.pymidEn == 1 && i <= s.pymid.dsLayerEn && DsProgrammed(s, i)
      && a == Shift(Lookup(ddr, Ds(i)), base)
    case UsLayerAddr(i, a) =>
      s.pymid.pymidEn == 1 && i < US_LAYERS && BitSet(s.pymid.usLayerEn, i)
      && a == Shift(Lookup(ddr, Us(i)), base)
    case _ => false
  }

  lemma {:induction false} DsEffectsExactly(s: Settings, ddr: map<Plane, Addr>, base: int, n: nat, e: HwEffect)
    requires Shaped(s) && n <= DS_LAYERS
    ensures e in DsEffects(s, ddr, base, n) <==>
            e.DsLayerAddr? && e.layer < n && DsProgrammed(s, e.layer) && e.at == Shift(Lookup(ddr, Ds(e.layer)), base)
  {
    if n > 0 {
      DsEffectsExactly(s, ddr, base, n - 1, e);
    }
  }

  lemma {:induction false} UsEffectsExactly(s: Settings, ddr: map<Plane, Addr>, base: int, n: nat, e: HwEffect)
    requires Shaped(s) && n <= US_LAYERS
    ensures e in UsEffects(s, ddr, base, n) <==>
            e.UsLayerAddr? && e.layer < n && BitSet(s.pymid.usLayerEn, e.layer) && e.at == Shift(Lookup(ddr, Us(e.layer)), base)
  {
    if n > 0 {
      UsEffectsExactly(s, ddr, base, n - 1, e);
    }
  }

  /**
   * `ipu_set_ddr` programs crop iff `crop_ddr_en == 1`, scale iff
   * `scale_ddr_en == 1`, downsample layer `i <= ds_layer_en` iff
   * `i == 0 || ds_factor[i] != 0`, upsample layer `i` iff its enable bit is
   * set, each at descriptor plus base, and nothing else.
   */
  lemma SetDdrExactly(s: Settings, ddr: map<Plane, Addr>, base: int, e: HwEffect)
    requires Shaped(s)
    ensures e in SetDdrEffects(s, ddr, base) <==> SetDdrWrites(s, ddr, base, e)
  {
    DsEffectsExactly(s, ddr, base, s.pymid.dsLayerEn + 1, e);
    UsEffectsExactly(s, ddr, base, US_LAYERS, e);
  }

  /**
   * `ipu_set_ddr` and the planner disagree on downsample layers: a layer
   * at a multiple of 4 with factor 0 gets space in the slot but is never
   * programmed, while every programmed layer has space.
   */
  lemma DsProgrammedVsPlanned(s: Settings, i: nat)
    requires Shaped(s) && i < DS_LAYERS
    ensures DsProgrammed(s, i) ==> DsStage(s, i).Reserve?
    ensures DsStage(s, i).Reserve? && !DsProgrammed(s, i) <==> i > 0 && i % 4 == 0 && s.pymid.dsFactor[i] == 0
  {
  }

  /** `ipu_set_pym_ddr`'s downsample loop over layers `0 .. n-1`: skipped layers are not programmed. */
  function PymDsEffects(s: Settings, ddr: map<Plane, Addr>, base: int, n: nat): seq<HwEffect>
    requires Shaped(s) && n <= DS_LAYERS
  {
    if n == 0 then []
    else PymDsEffects(s, ddr, base, n - 1)
         + (if DsStage(s, n - 1).Skip? then [] else [DsLayerAddr(n - 1, Shift(Lookup(ddr, Ds(n - 1)), base))])
  }

  /** What `ipu_set_pym_ddr` programs. */
  function PymEffects(s: Settings, ddr: map<Plane, Addr>, base: int): seq<HwEffect>
    requires Shaped(s)
  {
    if s.pymid.pymidEn == 1
    then PymDsEffects(s, ddr, base, s.pymid.dsLayerEn + 1) + UsEffects(s, ddr, base, US_LAYERS)
    else []
  }

  /** The descriptors `ipu_set_pym_ddr` zeroes on the way: the skipped layers among the first `n`. */
  function PymDsZeroed(s: Settings, ddr: map<Plane, Addr>, n: nat): map<Plane, Addr>
    requires Shaped(s) && n <= DS_LAYERS
  {
    if n == 0 then ddr
    else
      var d := PymDsZeroed(s, ddr, n - 1);
      if DsStage(s, n - 1).Skip? then d[Ds(n - 1) := Addr(0, 0)] else d
  }

  function PymUsZeroed(s: Settings, ddr: map<Plane, Addr>, n: nat): map<Plane, Addr>
    requires Shaped(s) && n <= US_LAYERS
  {
    if n == 0 then ddr
    else
      var d := PymUsZeroed(s, ddr, n - 1);
      if UsStage(s, n - 1).Skip? then d[Us(n - 1) := Addr(0, 0)] else d
  }

  /** The descriptors after `ipu_set_pym_ddr`. */
  function PymDdr(s: Settings, ddr: map<Plane, Addr>): map<Plane, Addr>
    requires Shaped(s)
  {
    if s.pymid.pymidEn == 1
    then PymUsZeroed(s, PymDsZeroed(s, ddr, s.pymid.dsLayerEn + 1), US_LAYERS)
    else ddr
  }

  lemma {:induction false} PymDsEffectsExactly(s: Settings, ddr: map<Plane, Addr>, base: int, n: nat, e: HwEffect)
    requires Shaped(s) && n <= DS_LAYERS
    ensures e in PymDsEffects(s, ddr, base, n) <==>
            e.DsLayerAddr? && e.layer < n && DsStage(s, e.layer).Reserve? && e.at == Shift(Lookup(ddr, Ds(e.layer)), base)
  {
    if n > 0 {
      PymDsEffectsExactly(s, ddr, base, n - 1, e);
    }
  }

  /**
   * `ipu_set_pym_ddr` programs exactly the pyramid layers the planner gave
   * space to, at descriptor plus base.
   */
  lemma PymProgramsPlanned(s: Settings, ddr: map<Plane, Addr>, base: int, e: HwEffect)
    requires Shaped(s)
    ensures e in PymEffects(s, ddr, base) <==>
            s.pymid.pymidEn == 1 &&
            ((e.DsLayerAddr? && e.layer <= s.pymid.dsLayerEn && DsStage(s, e.layer).Reserve?
              && e.at == Shift(Lookup(ddr, Ds(e.layer)), base))
             || (e.UsLayerAddr? && e.layer < US_LAYERS && UsStage(s, e.layer).Reserve?
                 && e.at == Shift(Lookup(ddr, Us(e.layer)), base)))
  {
    PymDsEffectsExactly(s, ddr, base, s.pymid.dsLayerEn + 1, e);
    UsEffectsExactly(s, ddr, base, US_LAYERS, e);
  }

  /** `ipu_set_pym_ddr` zeroes a downsample descriptor iff the planner skips that layer; others keep theirs. */
  lemma {:induction false} PymDsZeroedExactly(s: Settings, ddr: map<Plane, Addr>, n: nat, p: Plane)
    requires Shaped(s) && n <= DS_LAYERS
    ensures Lookup(PymDsZeroed(s, ddr, n), p) ==
            if p.Ds? && p.layer < n && DsStage(s, p.layer).Skip? then Addr(0, 0) else Lookup(ddr, p)
  {
    if n > 0 {
      PymDsZeroedExactly(s, ddr, n - 1, p);
    }
  }

  lemma {:induction false} PymUsZeroedExactly(s: Settings, ddr: map<Plane, Addr>, n: nat, p: Plane)
    requires Shaped(s) && n <= US_LAYERS
    ensures Lookup(PymUsZeroed(s, ddr, n), p) ==
            if p.Us? && p.layer < n && UsStage(s, p.layer).Skip? then Addr(0, 0) else Lookup(ddr, p)
  {
    if n > 0 {
      PymUsZeroedExactly(s, ddr, n - 1, p);
    }
  }

  /** Zeroing downsample descriptors does not change what the upsample loop programs. */
  lemma {:induction false} UsEffectsAfterDsZeroed(s: Settings, ddr: map<Plane, Addr>, base: int, n: nat)
    requires Shaped(s) && n <= US_LAYERS
    ensures UsEffects(s, PymDsZeroed(s, ddr, s.pymid.dsLayerEn + 1), base, n) == UsEffects(s, ddr, base, n)
  {
    if n > 0 {
      UsEffectsAfterDsZeroed(s, ddr, base, n - 1);
      PymDsZeroedExactly(s, ddr, s.pymid.dsLayerEn + 1, Us(n - 1));
    }
  }

  /** What `ipu_set(cmd, cfg, data)` sends to the hardware. */
  function CmdEffects(cmd: IpuCmd, s: Settings, ddr: map<Plane, Addr>, data: int): seq<HwEffect>
    requires Shaped(s)
  {
    match cmd
    case CmdSetDdr => SetDdrEffects(s, ddr, data)
    case CmdSetCropDdr => CropEffects(s, ddr, Align16(data))
    case CmdSetScaleDdr => ScaleEffects(s, ddr, data)
    case CmdSetPymDdr => PymEffects(s, ddr, data)
    case CmdSetPym1stSrcDdr => [DsSrcAddr(Shift(Lookup(ddr, Crop), data))]
    case CmdSetPym2ndSrcDdr => [DsSrcAddr(Shift(Lookup(ddr, Scale), data))]
    case CmdSetBase => [Program(CtrlBlock), Program(VideoSizeBlock)]
    case CmdSetCrop => [Program(CropBlock)]
    case CmdSetScale => [Program(ScaleBlock)]
    case CmdSetFrameId => [Program(FrameIdBlock)]
    case CmdSetPymid => [Program(PymidBlock)]
    case CmdOther => []
  }

  // ---------------------------------------------------------------------
  // The start/stop/interrupt/thread protocol, as functions of the state

  /** `stop`, `isr_data` and the `IPU_TRIGGER_ISR` bit of `runflags`. */
  datatype Control = Control(stop: bool, isrData: bv32, triggered: bool)

  /** `x2_ipu_isr(status)`: the new state and whether the thread is woken. */
  function IsrStep(c: Control, status: bv32): (Control, bool)
  {
    if c.stop then (c.(isrData := 0), false)
    else (c.(isrData := c.isrData | status, triggered := true), !c.triggered)
  }

  /** One pass of `ipu_thread` after its wake-up: the new state and the status handed on, if any. */
  function ThreadStep(c: Control): (Control, Option<bv32>)
  {
    if c.stop then (c.(isrData := 0, triggered := false), None)
    else (c.(isrData := 0, triggered := false), Some(c.isrData))
  }

  /** `ipu_drv_stop`. */
  function StopStep(c: Control): (r: Control)
  {
    if c.stop then c else c.(stop := true, isrData := 0)
  }

  /** Interrupts one after another: the final state and the number of wake-ups. */
  function IsrRun(c: Control, statuses: seq<bv32>): (Control, nat)
  {
    if |statuses| == 0 then (c, 0)
    else
      var (d, n) := IsrRun(c, statuses[..|statuses| - 1]);
      var (e, woke) := IsrStep(d, statuses[|statuses| - 1]);
      (e, n + if woke then 1 else 0)
  }

  /** The bitwise or of all statuses. */
  function OrAll(statuses: seq<bv32>): bv32
  {
    if |statuses| == 0 then 0 else OrAll(statuses[..|statuses| - 1]) | statuses[|statuses| - 1]
  }

  /** `a` with the statuses or-ed into it one after another, as `isr_data` collects them. */
  function OrInto(a: bv32, statuses: seq<bv32>): bv32
  {
    if |statuses| == 0 then a else OrInto(a, statuses[..|statuses| - 1]) | statuses[|statuses| - 1]
  }

  /**
   * While running, interrupts accumulate: `isr_data` collects the or of
   * their statuses, and only the first one after the trigger bit was clear
   * wakes the thread.
   */
  lemma IsrAccumulates(c: Control, statuses: seq<bv32>)
    requires !c.stop
    ensures IsrRun(c, statuses).0 == c.(isrData := c.isrData | OrAll(statuses), triggered := c.triggered || |statuses| > 0)
    ensures IsrRun(c, statuses).1 == if !c.triggered && |statuses| > 0 then 1 else 0
  {
    IsrCollects(c, statuses);
    OrIntoIsOr(c.isrData, statuses);
  }

  /** The interrupt run, step by step: each status is or-ed into `isr_data` in turn. */
  lemma {:induction false} IsrCollects(c: Control, statuses: seq<bv32>)
    requires !c.stop
    ensures IsrRun(c, statuses) == (Control(c.stop, OrInto(c.isrData, statuses), c.triggered || |statuses| > 0),
                                    if !c.triggered && |statuses| > 0 then 1 else 0)
  {
    if |statuses| > 0 {
      IsrCollects(c, statuses[..|statuses| - 1]);
    }
  }

  /** Or-ing the statuses in one by one is or-ing in their or. */
  lemma {:induction false} OrIntoIsOr(a: bv32, statuses: seq<bv32>)
    ensures OrInto(a, statuses) == a | OrAll(statuses)
  {
    if |statuses| > 0 {
      OrIntoIsOr(a, statuses[..|statuses| - 1]);
      OrAssoc(a, OrAll(statuses[..|statuses| - 1]), statuses[|statuses| - 1]);
    }
  }

  lemma OrAssoc(a: bv32, b: bv32, x: bv32)
    ensures (a | b) | x == a | (b | x)
  {
  }

  /** While stopped, interrupts are discarded and never wake the thread. */
  lemma {:induction false} IsrWhileStopped(c: Control, statuses: seq<bv32>)
    requires c.stop
    ensures IsrRun(c, statuses).0 == (if statuses == [] then c else c.(isrData := 0))
    ensures IsrRun(c, statuses).1 == 0
  {
    if statuses != [] {
      IsrWhileStopped(c, statuses[..|statuses| - 1]);
    }
  }

  /**
   * Every status raised between two thread passes while running reaches
   * the next pass, all of them or-ed together, and that pass leaves
   * nothing behind.
   */
  lemma RoundDelivers(c: Control, statuses: seq<bv32>)
    requires !c.stop && c.isrData == 0 && !c.triggered && statuses != []
    ensures IsrRun(c, statuses).1 == 1
    ensures ThreadStep(IsrRun(c, statuses).0) == (c, Some(OrAll(statuses)))
  {
    IsrAccumulates(c, statuses);
    assert 0 | OrAll(statuses) == OrAll(statuses);
  }

  // ---------------------------------------------------------------------
  // The driver state

  class Ipu {
    /** The user part of `cfg`. */
    var settings: Settings
    /** The slot-relative descriptors of `cfg`: `crop_ddr`, `scale_ddr`, `ds_ddr`, `us_ddr`. */
    var ddr: map<Plane, Addr>
    var stop: bool
    var isrData: bv32
    /** The `IPU_TRIGGER_ISR` bit of `runflags`. */
    var triggered: bool
    var pymidDone: bool
    var doneIdx: int
    var ipuMode: int
    /** `ipu_handle[IPU_ISP_SINGLE]` is registered. */
    var handlerSet: bool
    /** Physical and kernel-virtual base of the slot memory, and its size. */
    var paddr: nat
    var vaddr: nat
    var memsize: nat
    ghost var hw: seq<HwEffect>

    function State(): Control
      reads this
    {
      Control(stop, isrData, triggered)
    }

    /** The state `x2_ipu_probe` leaves: stopped, no mode, nothing pending. */
    constructor(settings: Settings, paddr: nat, vaddr: nat, memsize: nat)
      ensures this.settings == settings && ddr == map[]
      ensures stop && isrData == 0 && !triggered && ipuMode == IPU_INVALID && !handlerSet
      ensures this.paddr == paddr && this.vaddr == vaddr && this.memsize == memsize
      ensures hw == [IpuIrq(false), ResetIpu]
    {
      this.settings := settings;
      ddr := map[];
      stop := true;
      isrData := 0;
      triggered := false;
      pymidDone := false;
      doneIdx := -1;
      ipuMode := IPU_INVALID;
      handlerSet := false;
      this.paddr := paddr;
      this.vaddr := vaddr;
      this.memsize := memsize;
      hw := [IpuIrq(false), ResetIpu];
    }

    /**
     * One reserving stage of the planner: write the descriptor, advance and
     * align the cursor.  The advance over luma and chroma is taken wide,
     * not in `uint32_t` (see `IpuLayout.SpanAsWritten`).
     */
    method Place(ghost stages: seq<Stage>, ghost k: nat, ddrbase: int, p: Plane, size: nat, chroma: bool)
      returns (next: int, overflow: bool)
      requires k < |stages| && stages[k] == Reserve(p, size, chroma)
      requires ddrbase == CursorAt(stages, k)
      modifies this`ddr
      ensures next == CursorAt(stages, k + 1)
      ensures overflow == Fails(stages, k)
      ensures Walk(stages, k, old(ddr)) == if overflow then Outcome(ddr, false) else Walk(stages, k + 1, ddr)
    {
      if chroma {
        ddr := ddr[p := Addr(ddrbase, ddrbase + size)];
        next := ddrbase + size * 3 / 2;
      } else {
        ddr := ddr[p := Addr(ddrbase, 0)];
        next := ddrbase + size;
      }
      next := Align16(next);
      overflow := next >= 0 + IPU_SLOT_SIZE;
    }

    /** The crop or scale stage: a `w` by `h` frame with chroma, both sides aligned to 16. */
    method PlaceFrame(ghost stages: seq<Stage>, ghost k: nat, ddrbase: int, p: Plane, w: int, h: int)
      returns (next: int, overflow: bool)
      requires k < |stages| && stages[k] == Reserve(p, Area(w, h), true)
      requires ddrbase == CursorAt(stages, k)
      modifies this`ddr
      ensures next == CursorAt(stages, k + 1)
      ensures overflow == Fails(stages, k)
      ensures Walk(stages, k, old(ddr)) == if overflow then Outcome(ddr, false) else Walk(stages, k + 1, ddr)
    {
      var aw: int := U32(Align16(w));
      var ah: int := U32(Align16(h));
      next, overflow := Place(stages, k, ddrbase, p, U32(aw * ah), true);
    }

    /** One skipped stage of the planner: a zero descriptor and no space. */
    method Bypass(ghost stages: seq<Stage>, ghost k: nat, ddrbase: int, p: Plane)
      requires k < |stages| && stages[k] == Skip(p)
      requires ddrbase == CursorAt(stages, k)
      modifies this`ddr
      ensures ddrbase == CursorAt(stages, k + 1)
      ensures Walk(stages, k, old(ddr)) == Walk(stages, k + 1, ddr)
    {
      ddr := ddr[p := Addr(0, 0)];
    }

    /**
     * `ipu_cfg_ddrinfo_init`: lay out the slot.  The descriptors become
     * those of `Walk`, and the result is 0 exactly when no stage overflows.
     */
    method DdrinfoInit() returns (r: int)
      requires Shaped(settings)
      modifies this`ddr
      ensures r == 0 || r == -1
      ensures ddr == Walk(Stages(settings), 0, old(ddr)).ddr
      ensures r == 0 <==> Walk(Stages(settings), 0, old(ddr)).ok
    {
      ghost var stages := Stages(settings);
      ghost var k: nat := 0;
      var ddrbase := Align16(0);
      var overflow: bool;
      if settings.cropDdrEn == 1 {
        ddrbase, overflow := PlaceFrame(stages, k, ddrbase, Crop, settings.cropEd.w - settings.cropSt.w, settings.cropEd.h - settings.cropSt.h);
        k := k + 1;
        if overflow {
          return -1;
        }
      }
      if settings.scaleDdrEn == 1 {
        ddrbase, overflow := PlaceFrame(stages, k, ddrbase, Scale, settings.scaleTgt.w, settings.scaleTgt.h);
        k := k + 1;
        if overflow {
          return -1;
        }
      }
      assert k == |HeadStages(settings)|;
      if settings.pymid.pymidEn == 1 {
        PyramidAt(settings, stages, k);
        r := PlanPyramid(stages, k, ddrbase);
        return;
      }
      r := 0;
    }

    /** The pyramid part of `ipu_cfg_ddrinfo_init`: the last stages, from stage `k` on. */
    /** `PyramidStages` in the form the pyramid planner asks for. */
    static lemma PyramidAt(s: Settings, stages: seq<Stage>, k: nat)
      requires Shaped(s) && s.pymid.pymidEn == 1 && stages == Stages(s) && k == |HeadStages(s)|
      ensures |stages| == k + s.pymid.dsLayerEn + 1 + US_LAYERS
      ensures forall i :: 0 <= i <= s.pymid.dsLayerEn ==> stages[k + i] == DsStage(s, i)
      ensures forall i :: 0 <= i < US_LAYERS ==> stages[k + s.pymid.dsLayerEn + 1 + i] == UsStage(s, i)
    {
      PyramidStages(s);
    }

    method PlanPyramid(ghost stages: seq<Stage>, ghost k: nat, ddrbase: int) returns (r: int)
      requires Shaped(settings) && |stages| == k + settings.pymid.dsLayerEn + 1 + US_LAYERS
      requires forall i :: 0 <= i <= settings.pymid.dsLayerEn ==> stages[k + i] == DsStage(settings, i)
      requires forall i :: 0 <= i < US_LAYERS ==> stages[k + settings.pymid.dsLayerEn + 1 + i] == UsStage(settings, i)
      requires ddrbase == CursorAt(stages, k)
      modifies this`ddr
      ensures r == 0 || r == -1
      ensures ddr == Walk(stages, k, old(ddr)).ddr
      ensures r == 0 <==> Walk(stages, k, old(ddr)).ok
    {
      var cursor, overflow := PlanDs(stages, k, ddrbase);
      if overflow {
        return -1;
      }
      overflow := PlanUs(stages, k + settings.pymid.dsLayerEn + 1, cursor);
      r := if overflow then -1 else 0;
    }

    /** The downsample loop: layers `0 .. ds_layer_en`, from stage `k` on. */
    method PlanDs(ghost stages: seq<Stage>, ghost k: nat, ddrbase: int) returns (cursor: int, overflow: bool)
      requires Shaped(settings) && k + settings.pymid.dsLayerEn + 1 <= |stages|
      requires forall i :: 0 <= i <= settings.pymid.dsLayerEn ==> stages[k + i] == DsStage(settings, i)
      requires ddrbase == CursorAt(stages, k)
      modifies this`ddr
      ensures !overflow ==> cursor == CursorAt(stages, k + settings.pymid.dsLayerEn + 1)
      ensures overflow ==> Walk(stages, k, old(ddr)) == Outcome(ddr, false)
      ensures !overflow ==> Walk(stages, k, old(ddr)) == Walk(stages, k + settings.pymid.dsLayerEn + 1, ddr)
    {
      cursor := ddrbase;
      overflow := false;
      ghost var ddr0 := ddr;
      ghost var j := k;
      var p := settings.pymid;
      var i := 0;
      while i <= p.dsLayerEn
        invariant 0 <= i <= p.dsLayerEn + 1 && j == k + i
        invariant cursor == CursorAt(stages, j)
        invariant Walk(stages, k, ddr0) == Walk(stages, j, ddr)
      {
        assert stages[j] == DsStage(settings, i);
        if i % 4 != 0 && p.dsFactor[i] == 0 {
          Bypass(stages, j, cursor, Ds(i));
        } else {
          var w: int := U32(Align16(p.dsRoi[i].w));
          var h: int := U32(Align16(p.dsRoi[i].h));
          var size := U32(w * h);
          cursor, overflow := Place(stages, j, cursor, Ds(i), size, !BitSet(p.dsUvBypass, i));
          if overflow {
            return;
          }
        }
        i := i + 1;
        j := j + 1;
      }
    }

    /** The upsample loop: layers `0 .. 5`, the last stages, from stage `k` on. */
    method PlanUs(ghost stages: seq<Stage>, ghost k: nat, ddrbase: int) returns (overflow: bool)
      requires Shaped(settings) && k + US_LAYERS == |stages|
      requires forall i :: 0 <= i < US_LAYERS ==> stages[k + i] == UsStage(settings, i)
      requires ddrbase == CursorAt(stages, k)
      modifies this`ddr
      ensures ddr == Walk(stages, k, old(ddr)).ddr
      ensures !overflow <==> Walk(stages, k, old(ddr)).ok
    {
      var cursor := ddrbase;
      overflow := false;
      ghost var ddr0 := ddr;
      ghost var j := k;
      var p := settings.pymid;
      var i := 0;
      while i < US_LAYERS
        invariant 0 <= i <= US_LAYERS && j == k + i
        invariant cursor == CursorAt(stages, j)
        invariant Walk(stages, k, ddr0) == Walk(stages, j, ddr)
      {
        assert stages[j] == UsStage(settings, i);
        if !BitSet(p.usLayerEn, i) {
          Bypass(stages, j, cursor, Us(i));
        } else {
          var w: int := U32(Align16(p.usRoi[i].w));
          var h: int := U32(Align16(p.usRoi[i].h));
          var size := U32(w * h);
          cursor, overflow := Place(stages, j, cursor, Us(i), size, BitSet(p.usUvBypass, i));
          if overflow {
            return;
          }
        }
        i := i + 1;
        j := j + 1;
      }
    }

    /** `ipu_set_ddr(cfg, base)`. */
    method SetDdr(base: int)
      requires Shaped(settings)
      modifies this`hw
      ensures hw == old(hw) + SetDdrEffects(settings, ddr, base)
    {
      var s := settings;
      ghost var crop, scale := CropEffects(s, ddr, base), ScaleEffects(s, ddr, base);
      if s.cropDdrEn == 1 {
        hw := hw + [IpuAddr(0, Shift(Lookup(ddr, Crop), base))];
      }
      if s.scaleDdrEn == 1 {
        hw := hw + [IpuAddr(1, Shift(Lookup(ddr, Scale), base))];
      }
      AppendAssoc(old(hw), crop, scale);
      assert hw == old(hw) + (crop + scale);
      if s.pymid.pymidEn == 1 {
        ghost var ds, us := DsEffects(s, ddr, base, s.pymid.dsLayerEn + 1), UsEffects(s, ddr, base, US_LAYERS);
        SetDsDdr(base);
        SetUsDdr(base);
        AppendAssoc(old(hw) + (crop + scale), ds, us);
        AppendAssoc(old(hw), crop + scale, ds + us);
      }
    }

    /** The downsample loop of `ipu_set_ddr`. */
    method SetDsDdr(base: int)
      requires Shaped(settings)
      modifies this`hw
      ensures hw == old(hw) + DsEffects(settings, ddr, base, settings.pymid.dsLayerEn + 1)
    {
      var i := 0;
      while i <= settings.pymid.dsLayerEn
        invariant 0 <= i <= settings.pymid.dsLayerEn + 1
        invariant hw == old(hw) + DsEffects(settings, ddr, base, i)
      {
        if i == 0 || settings.pymid.dsFactor[i] != 0 {
          hw := hw + [DsLayerAddr(i, Shift(Lookup(ddr, Ds(i)), base))];
        }
        i := i + 1;
      }
    }

    /** The upsample loop of `ipu_set_ddr` and `ipu_set_pym_ddr`. */
    method SetUsDdr(base: int)
      requires Shaped(settings)
      modifies this`hw
      ensures hw == old(hw) + UsEffects(settings, ddr, base, US_LAYERS)
    {
      var i := 0;
      while i < US_LAYERS
        invariant 0 <= i <= US_LAYERS
        invariant hw == old(hw) + UsEffects(settings, ddr, base, i)
      {
        if BitSet(settings.pymid.usLayerEn, i) {
          hw := hw + [UsLayerAddr(i, Shift(Lookup(ddr, Us(i)), base))];
        }
        i := i + 1;
      }
    }

    /** `ipu_set_pym_ddr(cfg, base)`: zero the skipped descriptors, program the others. */
    method SetPymDdr(base: int)
      requires Shaped(settings)
      modifies this`hw, this`ddr
      ensures hw == old(hw) + PymEffects(settings, old(ddr), base)
      ensures ddr == PymDdr(settings, old(ddr))
    {
      if settings.pymid.pymidEn == 1 {
        PymDsLoop(base);
        UsEffectsAfterDsZeroed(settings, old(ddr), base, US_LAYERS);
        PymUsLoop(base);
        AppendAssoc(old(hw), PymDsEffects(settings, old(ddr), base, settings.pymid.dsLayerEn + 1),
                    UsEffects(settings, old(ddr), base, US_LAYERS));
      }
    }

    /** The downsample loop of `ipu_set_pym_ddr`. */
    method PymDsLoop(base: int)
      requires Shaped(settings)
      modifies this`hw, this`ddr
      ensures hw == old(hw) + PymDsEffects(settings, old(ddr), base, settings.pymid.dsLayerEn + 1)
      ensures ddr == PymDsZeroed(settings, old(ddr), settings.pymid.dsLayerEn + 1)
    {
      var p := settings.pymid;
      var i := 0;
      while i <= p.dsLayerEn
        invariant 0 <= i <= p.dsLayerEn + 1
        invariant ddr == PymDsZeroed(settings, old(ddr), i)
        invariant hw == old(hw) + PymDsEffects(settings, old(ddr), base, i)
      {
        if i % 4 != 0 && p.dsFactor[i] == 0 {
          ddr := ddr[Ds(i) := Addr(0, 0)];
        } else {
          PymDsZeroedExactly(settings, old(ddr), i, Ds(i));
          hw := hw + [DsLayerAddr(i, Shift(Lookup(ddr, Ds(i)), base))];
        }
        i := i + 1;
      }
    }

    /** The upsample loop of `ipu_set_pym_ddr`. */
    method PymUsLoop(base: int)
      requires Shaped(settings)
      modifies this`hw, this`ddr
      ensures hw == old(hw) + UsEffects(settings, old(ddr), base, US_LAYERS)
      ensures ddr == PymUsZeroed(settings, old(ddr), US_LAYERS)
    {
      var i := 0;
      while i < US_LAYERS
        invariant 0 <= i <= US_LAYERS
        invariant ddr == PymUsZeroed(settings, old(ddr), i)
        invariant hw == old(hw) + UsEffects(settings, old(ddr), base, i)
      {
        if !BitSet(settings.pymid.usLayerEn, i) {
          ddr := ddr[Us(i) := Addr(0, 0)];
        } else {
          PymUsZeroedExactly(settings, old(ddr), i, Us(i));
          hw := hw + [UsLayerAddr(i, Shift(Lookup(ddr, Us(i)), base))];
        }
        i := i + 1;
      }
    }

    /** `ipu_set(cmd, cfg, data)`: dispatch; the result is always 0. */
    method Set(cmd: IpuCmd, data: int) returns (r: int)
      requires Shaped(settings)
      modifies this`hw, this`ddr
      ensures r == 0
      ensures hw == old(hw) + CmdEffects(cmd, settings, old(ddr), data)
      ensures ddr == if cmd == CmdSetPymDdr then PymDdr(settings, old(ddr)) else old(ddr)
    {
      r := 0;
      match cmd
      case CmdSetDdr => SetDdr(data);
      case CmdSetCropDdr =>
        var base := Align16(data);
        if settings.cropDdrEn == 1 {
          hw := hw + [IpuAddr(0, Shift(Lookup(ddr, Crop), base))];
        }
      case CmdSetScaleDdr =>
        if settings.scaleDdrEn == 1 {
          hw := hw + [IpuAddr(1, Shift(Lookup(ddr, Scale), data))];
        }
      case CmdSetPymDdr => SetPymDdr(data);
      case CmdSetPym1stSrcDdr => hw := hw + [DsSrcAddr(Shift(Lookup(ddr, Crop), data))];
      case CmdSetPym2ndSrcDdr => hw := hw + [DsSrcAddr(Shift(Lookup(ddr, Scale), data))];
      case CmdSetBase => hw := hw + [Program(CtrlBlock), Program(VideoSizeBlock)];
      case CmdSetCrop => hw := hw + [Program(CropBlock)];
      case CmdSetScale => hw := hw + [Program(ScaleBlock)];
      case CmdSetFrameId => hw := hw + [Program(FrameIdBlock)];
      case CmdSetPymid => hw := hw + [Program(PymidBlock)];
      case CmdOther =>
    }

    /**
     * `ipu_drv_start`: open the crop and scale paths when configured
     * (any non-zero enable), always the pyramid path, enable the IPU
     * interrupt, and run.
     */
    method Start() returns (r: int)
      modifies this`hw, this`stop
      ensures r == 0 && !stop
      ensures hw == old(hw) + StartEffects(settings)
    {
      if settings.cropDdrEn != 0 {
        hw := hw + [ToDdr({CropToDdr}, true)];
      }
      if settings.scaleDdrEn != 0 {
        hw := hw + [ToDdr({ScalarToDdr}, true)];
      }
      hw := hw + [ToDdr({PymToDdr}, true), IpuIrq(true)];
      stop := false;
      r := 0;
    }

    /**
     * `ipu_drv_stop`: when already stopped nothing changes; otherwise stop,
     * close all three paths, disable the IPU interrupt and drop pending
     * status.
     */
    method Stop() returns (r: int)
      modifies this`hw, this`stop, this`isrData
      ensures r == 0
      ensures State() == StopStep(old(State()))
      ensures hw == old(hw) + if old(stop) then [] else StopEffects()
    {
      if stop {
        return 0;
      }
      stop := true;
      hw := hw + StopEffects();
      isrData := 0;
      r := 0;
    }

    /** `x2_ipu_isr(status)`: `woke` says whether the thread was woken. */
    method Isr(status: bv32) returns (woke: bool)
      modifies this`isrData, this`triggered
      ensures State() == IsrStep(old(State()), status).0
      ensures woke == IsrStep(old(State()), status).1
    {
      if stop {
        isrData := 0;
        return false;
      } else {
        isrData := isrData | status;
      }
      woke := !triggered;
      triggered := true;
    }

    /**
     * One pass of the `ipu_thread` loop, entered when the trigger bit is
     * set.  `handled` is the status passed to the registered mode handler,
     * if one is called.
     */
    method ThreadPass() returns (handled: Option<bv32>)
      requires triggered
      modifies this`isrData, this`triggered, this`pymidDone, this`doneIdx
      ensures State() == ThreadStep(old(State())).0
      ensures var snap := ThreadStep(old(State())).1;
              handled == if snap.Some? && ipuMode != IPU_INVALID && handlerSet then snap else None
      ensures !stop ==> !pymidDone && doneIdx == -1
      ensures stop ==> pymidDone == old(pymidDone) && doneIdx == old(doneIdx)
    {
      triggered := false;
      if stop {
        isrData := 0;
        return None;
      }
      var status := isrData;
      isrData := 0;
      pymidDone := false;
      doneIdx := -1;
      if ipuMode != IPU_INVALID && handlerSet {
        handled := Some(status);
      } else {
        handled := None;
      }
    }
  }

  lemma AppendAssoc<T>(a: seq<T>, b: seq<T>, c: seq<T>)
    ensures a + (b + c) == (a + b) + c
  {
  }

  /** The calls `ipu_drv_start` makes. */
  function StartEffects(s: Settings): (r: seq<HwEffect>)
  {
    (if s.cropDdrEn != 0 then [ToDdr({CropToDdr}, true)] else [])
    + (if s.scaleDdrEn != 0 then [ToDdr({ScalarToDdr}, true)] else [])
    + [ToDdr({PymToDdr}, true), IpuIrq(true)]
  }

  /** The calls `ipu_drv_stop` makes when running. */
  function StopEffects(): seq<HwEffect>
  {
    [ToDdr({CropToDdr, ScalarToDdr, PymToDdr}, false), IpuIrq(false)]
  }

  /** Stopping twice is stopping once. */
  lemma StopIdempotent(c: Control)
    ensures StopStep(StopStep(c)) == StopStep(c)
    ensures StopStep(c).stop && StopStep(c).isrData == (if c.stop then c.isrData else 0)
  {
  }

  /** Every path `ipu_drv_start` opens is one `ipu_drv_stop` closes; the pyramid path always opens. */
  lemma StopClosesStarted(s: Settings, e: HwEffect)
    requires e in StartEffects(s) && e.ToDdr?
    ensures e.enable && e.paths <= StopEffects()[0].paths
    ensures ToDdr({PymToDdr}, true) in StartEffects(s)
  {
  }
}
