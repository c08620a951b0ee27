/**
 * `ipu/ipu_single.c`: the single-mode IPU character device.  It reacts to
 * the interrupt status the driver thread hands it (errors, pyramid done,
 * frame start) by moving slots between the registry queues and
 * programming the next slot, reads frame ids out of completed slots,
 * describes the slot layout to user space (`s_info`), and serves the
 * ioctl, poll, mmap, open and close calls.
 *
 * The interrupt status bits are defined in a header that is not part of
 * this model; their values here are chosen.  Slot memory is a parameter
 * (`mem`, byte address to byte), and the outcome of every
 * `copy_from_user`/`copy_to_user` is a field of the request.
 */
module IpuSingle {
  import opened Optional
  import opened IpuSlot
  import opened IpuLayout
  import opened IpuDrv

  // ---------------------------------------------------------------------
  // Constants

  const IPU_FRAME_START: bv32 := 0x1
  const PYM_FRAME_DONE: bv32 := 0x4
  const IPU_BUS01_TRANSMIT_ERRORS: bv32 := 0x100
  const IPU_BUS23_TRANSMIT_ERRORS: bv32 := 0x200
  const PYM_DS_FRAME_DROP: bv32 := 0x400
  const PYM_US_FRAME_DROP: bv32 := 0x800

  const EPOLLIN: bv32 := 0x1
  const EPOLLERR: bv32 := 0x8
  const EPOLLHUP: bv32 := 0x10
  const EPOLLET: bv32 := 0x8000_0000

  const EAGAIN: int := 11
  const ENOMEM: int := 12
  const EFAULT: int := 14
  const EINVAL: int := 22

  /** The watermark sample that encodes a 1 bit. */
  const WATERMARK: nat := 0xffff

  // ---------------------------------------------------------------------
  // Frame ids

  /** The id in the first `n` samples, most significant bit first. */
  function FrameIdBits(samples: seq<nat>, n: nat): nat
    requires n <= |samples|
  {
    if n == 0 then 0 else 2 * FrameIdBits(samples, n - 1) + (if samples[n - 1] == WATERMARK then 1 else 0)
  }

  /** `decode_frame_id`: eight 16-bit samples, `0xffff` a 1 bit, anything else a 0 bit. */
  method DecodeFrameId(samples: seq<nat>) returns (d: nat)
    requires |samples| == 8
    ensures d == FrameIdBits(samples, 8)
    ensures d < 256
  {
    d := 0;
    var i := 0;
    while i < 8
      invariant 0 <= i <= 8
      invariant d == FrameIdBits(samples, i)
    {
      if samples[i] == WATERMARK {
        d := d * 2;
        d := d + 1;
      } else {
        d := d * 2;
      }
      i := i + 1;
    }
    FrameIdBound(samples, 8);
  }

  lemma {:induction false} FrameIdBound(samples: seq<nat>, n: nat)
    requires n <= |samples|
    ensures FrameIdBits(samples, n) < Pow2(n)
  {
    if n > 0 {
      FrameIdBound(samples, n - 1);
    }
  }

  /** Two sample runs give the same id exactly when they agree on which samples are watermarks. */
  lemma {:induction false} FrameIdInjective(a: seq<nat>, b: seq<nat>, n: nat)
    requires n <= |a| && n <= |b|
    ensures FrameIdBits(a, n) == FrameIdBits(b, n) <==>
            forall j :: 0 <= j < n ==> (a[j] == WATERMARK <==> b[j] == WATERMARK)
  {
    if n > 0 {
      FrameIdInjective(a, b, n - 1);
    }
  }

  /** The samples that carry `id` in `n` bits, most significant first. */
  function Watermark(id: nat, n: nat): (r: seq<nat>)
    ensures |r| == n
  {
    if n == 0 then [] else Watermark(id / 2, n - 1) + [if id % 2 == 1 then WATERMARK else 0]
  }

  /** Decoding the watermark of an id that fits gives the id back. */
  lemma {:induction false} WatermarkRoundTrip(id: nat, n: nat)
    requires id < Pow2(n)
    ensures FrameIdBits(Watermark(id, n), n) == id
  {
    if n > 0 {
      var w := Watermark(id / 2, n - 1);
      WatermarkRoundTrip(id / 2, n - 1);
      FrameIdPrefix(w, [if id % 2 == 1 then WATERMARK else 0], n - 1);
    }
  }

  /** The id of the first `n` samples ignores what follows them. */
  lemma {:induction false} FrameIdPrefix(a: seq<nat>, b: seq<nat>, n: nat)
    requires n <= |a|
    ensures FrameIdBits(a + b, n) == FrameIdBits(a, n)
  {
    if n > 0 {
      FrameIdPrefix(a, b, n - 1);
      assert (a + b)[n - 1] == a[n - 1];
    }
  }

  /** The example `[S,S,x,S,x,x,S,x]`, with `S` the watermark, decodes to `0xD2`. */
  lemma FrameIdExample()
    ensures FrameIdBits([WATERMARK, WATERMARK, 0, WATERMARK, 0, 0, WATERMARK, 0], 8) == 0xD2
  {
    var s: seq<nat> := [WATERMARK, WATERMARK, 0, WATERMARK, 0, 0, WATERMARK, 0];
    assert FrameIdBits(s, 1) == 1;
    assert FrameIdBits(s, 2) == 3;
    assert FrameIdBits(s, 3) == 6;
    assert FrameIdBits(s, 4) == 13;
    assert FrameIdBits(s, 5) == 26;
    assert FrameIdBits(s, 6) == 52;
    assert FrameIdBits(s, 7) == 105;
  }

  /** Slot memory as the CPU reads it: byte address to byte; unmapped reads are 0. */
  type Memory = map<int, nat>

  function Byte(mem: Memory, a: int): nat
  {
    if a in mem then mem[a] % 256 else 0
  }

  /** The eight little-endian 16-bit samples at `addr`. */
  function Samples(mem: Memory, addr: int): (r: seq<nat>)
    ensures |r| == 8
  {
    seq(8, j => Byte(mem, addr + 2 * j) + 256 * Byte(mem, addr + 2 * j + 1))
  }

  /** The id at `addr`: big-endian bytes `tmp[0] << 8 | tmp[1]` on bus mode 0, the watermark otherwise. */
  function IdAt(mem: Memory, addr: int, busMode: int): nat
  {
    if busMode == 0 then Byte(mem, addr) * 256 + Byte(mem, addr + 1)
    else FrameIdBits(Samples(mem, addr), 8)
  }

  /**
   * An id written into slot memory reads back: as two big-endian bytes on
   * bus mode 0, as its watermark otherwise.
   */
  lemma IdAtRoundTrip(mem: Memory, addr: int, busMode: int, id: nat)
    requires busMode == 0 ==> id < 0x1_0000 && addr in mem && addr + 1 in mem
                              && mem[addr] == id / 256 && mem[addr + 1] == id % 256
    requires busMode != 0 ==> id < 256 && Samples(mem, addr) == Watermark(id, 8)
    ensures IdAt(mem, addr, busMode) == id
  {
    if busMode != 0 {
      WatermarkRoundTrip(id, 8);
    }
  }

  /** `IPU_GET_SLOT(id, base)`. */
  function SlotAddr(id: int, base: int): int
  {
    base + id * IPU_SLOT_SIZE
  }

  // ---------------------------------------------------------------------
  // The slot description handed to user space

  /** One plane of `slot_ddr_info_t`. */
  datatype PlaneInfo = PlaneInfo(
    yOffset: int, cOffset: int,
    yWidth: int, yHeight: int, yStride: int,
    cWidth: int, cHeight: int, cStride: int)

  const ZERO_INFO := PlaneInfo(0, 0, 0, 0, 0, 0, 0, 0)

  function InfoOf(info: map<Plane, PlaneInfo>, p: Plane): PlaneInfo
  {
    if p in info then info[p] else ZERO_INFO
  }

  lemma InfoOfUpdate(info: map<Plane, PlaneInfo>, k: Plane, v: PlaneInfo, p: Plane)
    ensures InfoOf(info[k := v], p) == if p == k then v else InfoOf(info, p)
  {
  }

  /** A downsample or upsample layer: chroma half as wide as luma, strides aligned. */
  function LayerInfo(a: Addr, roi: Size): PlaneInfo
  {
    PlaneInfo(a.y, a.c, roi.w, roi.h, Align16(roi.w), roi.w / 2, roi.h, Align16(roi.w / 2))
  }

  /** The crop plane: chroma width `y_width >> 1`, not aligned. */
  function CropInfo(s: Settings, a: Addr): PlaneInfo
  {
    var w := s.cropEd.w - s.cropSt.w;
    var h := s.cropEd.h - s.cropSt.h;
    PlaneInfo(a.y, a.c, w, h, Align16(w), w / 2, h, Align16(w / 2))
  }

  /** The scale plane: chroma width `ALIGN_16(tgt.w >> 1)`. */
  function ScaleInfo(s: Settings, a: Addr): PlaneInfo
  {
    var w := s.scaleTgt.w;
    var h := s.scaleTgt.h;
    PlaneInfo(a.y, a.c, w, h, Align16(w), Align16(w / 2), h, Align16(Align16(w / 2)))
  }

  /** The downsample layers `ipu_sinfo_init` describes among the first `n`. */
  function DsInfo(s: Settings, ddr: map<Plane, Addr>, info: map<Plane, PlaneInfo>, n: nat): map<Plane, PlaneInfo>
    requires Shaped(s) && n <= DS_LAYERS
  {
    if n == 0 then info
    else
      var d := DsInfo(s, ddr, info, n - 1);
      if DsProgrammed(s, n - 1) then d[Ds(n - 1) := LayerInfo(Lookup(ddr, Ds(n - 1)), s.pymid.dsRoi[n - 1])] else d
  }

  /** An upsample layer is described when it is enabled and has a factor. */
  predicate UsDescribed(s: Settings, i: nat)
    requires Shaped(s) && i < US_LAYERS
  {
    BitSet(s.pymid.usLayerEn, i) && s.pymid.usFactor[i] != 0
  }

  /** Which upsample layers are described, by layer. */
  function UsFlags(s: Settings): (r: seq<bool>)
    requires Shaped(s)
    ensures |r| == US_LAYERS && forall i :: 0 <= i < US_LAYERS ==> r[i] == UsDescribed(s, i)
  {
    seq(US_LAYERS, i requires 0 <= i < US_LAYERS => UsDescribed(s, i))
  }

  /** The upsample layers described among the first `n`, given which are and their sizes. */
  function UsInfo(flags: seq<bool>, roi: seq<Size>, ddr: map<Plane, Addr>, info: map<Plane, PlaneInfo>, n: nat): map<Plane, PlaneInfo>
    requires n <= |flags| && n <= |roi|
  {
    if n == 0 then info
    else
      var d := UsInfo(flags, roi, ddr, info, n - 1);
      if flags[n - 1] then d[Us(n - 1) := LayerInfo(Lookup(ddr, Us(n - 1)), roi[n - 1])] else d
  }

  function HeadInfo(s: Settings, ddr: map<Plane, Addr>): map<Plane, PlaneInfo>
  {
    var c: map<Plane, PlaneInfo> := if s.cropDdrEn == 1 then map[Crop := CropInfo(s, Lookup(ddr, Crop))] else map[];
    if s.scaleDdrEn == 1 then c[Scale := ScaleInfo(s, Lookup(ddr, Scale))] else c
  }

  /** `s_info` after `ipu_sinfo_init`. */
  function SlotInfo(s: Settings, ddr: map<Plane, Addr>): map<Plane, PlaneInfo>
    requires Shaped(s)
  {
    if s.pymid.pymidEn == 1
    then UsInfo(UsFlags(s), s.pymid.usRoi, ddr, DsInfo(s, ddr, HeadInfo(s, ddr), s.pymid.dsLayerEn), US_LAYERS)
    else HeadInfo(s, ddr)
  }

  lemma {:induction false} DsInfoExactly(s: Settings, ddr: map<Plane, Addr>, info: map<Plane, PlaneInfo>, n: nat, p: Plane)
    requires Shaped(s) && n <= DS_LAYERS
    ensures InfoOf(DsInfo(s, ddr, info, n), p) ==
            if p.Ds? && p.layer < n && DsProgrammed(s, p.layer)
            then LayerInfo(Lookup(ddr, p), s.pymid.dsRoi[p.layer]) else InfoOf(info, p)
  {
    if n > 0 {
      DsInfoExactly(s, ddr, info, n - 1, p);
      if DsProgrammed(s, n - 1) {
        InfoOfUpdate(DsInfo(s, ddr, info, n - 1), Ds(n - 1), LayerInfo(Lookup(ddr, Ds(n - 1)), s.pymid.dsRoi[n - 1]), p);
      }
    }
  }

  lemma {:induction false} UsInfoExactly(flags: seq<bool>, roi: seq<Size>, ddr: map<Plane, Addr>, info: map<Plane, PlaneInfo>, n: nat, p: Plane)
    requires n <= |flags| && n <= |roi|
    ensures InfoOf(UsInfo(flags, roi, ddr, info, n), p) ==
            if p.Us? && p.layer < n && flags[p.layer]
            then LayerInfo(Lookup(ddr, p), roi[p.layer]) else InfoOf(info, p)
  {
    if n > 0 {
      UsInfoExactly(flags, roi, ddr, info, n - 1, p);
      if flags[n - 1] {
        InfoOfUpdate(UsInfo(flags, roi, ddr, info, n - 1), Us(n - 1), LayerInfo(Lookup(ddr, Us(n - 1)), roi[n - 1]), p);
      }
    }
  }

  /** Which planes `ipu_sinfo_init` describes: everything else reads as zero. */
  predicate Described(s: Settings, p: Plane)
    requires Shaped(s)
  {
    match p
    case Crop => s.cropDdrEn == 1
    case Scale => s.scaleDdrEn == 1
    case Ds(i) => s.pymid.pymidEn == 1 && i < s.pymid.dsLayerEn && DsProgrammed(s, i)
    case Us(i) => s.pymid.pymidEn == 1 && i < US_LAYERS && UsDescribed(s, i)
  }

  /**
   * `s_info` describes exactly the planes of `Described`, each with the
   * planner's offsets, and every stride is a multiple of 16.
   */
  lemma SlotInfoExactly(s: Settings, ddr: map<Plane, Addr>, p: Plane)
    requires Shaped(s)
    ensures !Described(s, p) ==> InfoOf(SlotInfo(s, ddr), p) == ZERO_INFO
    ensures Described(s, p) ==> InfoOf(SlotInfo(s, ddr), p).yOffset == Lookup(ddr, p).y
                                && InfoOf(SlotInfo(s, ddr), p).cOffset == Lookup(ddr, p).c
    ensures InfoOf(SlotInfo(s, ddr), p).yStride % 16 == 0 && InfoOf(SlotInfo(s, ddr), p).cStride % 16 == 0
  {
    var head := HeadInfo(s, ddr);
    if s.pymid.pymidEn == 1 {
      var ds := DsInfo(s, ddr, head, s.pymid.dsLayerEn);
      UsInfoExactly(UsFlags(s), s.pymid.usRoi, ddr, ds, US_LAYERS, p);
      DsInfoExactly(s, ddr, head, s.pymid.dsLayerEn, p);
    }
  }

  /**
   * The last downsample layer is programmed into the hardware by
   * `ipu_set_ddr` (its loop runs to `ds_layer_en` inclusive) but never
   * described in `s_info` (its loop stops below `ds_layer_en`).
   */
  lemma LastLayerUndescribed(s: Settings, ddr: map<Plane, Addr>, base: int)
    requires Shaped(s) && s.pymid.pymidEn == 1 && DsProgrammed(s, s.pymid.dsLayerEn)
    ensures DsLayerAddr(s.pymid.dsLayerEn, Shift(Lookup(ddr, Ds(s.pymid.dsLayerEn)), base)) in SetDdrEffects(s, ddr, base)
    ensures InfoOf(SlotInfo(s, ddr), Ds(s.pymid.dsLayerEn)) == ZERO_INFO
  {
    SetDdrExactly(s, ddr, base, DsLayerAddr(s.pymid.dsLayerEn, Shift(Lookup(ddr, Ds(s.pymid.dsLayerEn)), base)));
    SlotInfoExactly(s, ddr, Ds(s.pymid.dsLayerEn));
  }

  // ---------------------------------------------------------------------
  // The event handler, as functions of the registry

  /** What one interrupt status asks the handler to do. */
  datatype Events = Events(error: bool, done: bool, start: bool)

  function EventsOf(status: bv32): (e: Events)
    ensures e.error <==> status & (IPU_BUS01_TRANSMIT_ERRORS | IPU_BUS23_TRANSMIT_ERRORS
                                   | PYM_DS_FRAME_DROP | PYM_US_FRAME_DROP) != 0
    ensures e.done <==> status & PYM_FRAME_DONE != 0
    ensures e.start <==> status & IPU_FRAME_START != 0
  {
    Events(status & (IPU_BUS01_TRANSMIT_ERRORS | IPU_BUS23_TRANSMIT_ERRORS
                     | PYM_DS_FRAME_DROP | PYM_US_FRAME_DROP) != 0,
           status & PYM_FRAME_DONE != 0,
           status & IPU_FRAME_START != 0)
  }

  /** Step 1: on an error one busy slot is given up. */
  function ErrorStep(s: Slots, e: Events): (Slots, Option<int>)
  {
    if e.error then BusyToFree(s) else (s, None)
  }

  /** Step 2: on pyramid done the oldest busy slot is complete. */
  function DoneStep(s: Slots, e: Events): (Slots, Option<int>)
  {
    if e.done then BusyToDone(s) else (s, None)
  }

  /** Step 3: on frame start the oldest free slot is taken. */
  function StartStep(s: Slots, e: Events): (Slots, Option<int>)
  {
    if e.start then FreeToBusy(s) else (s, None)
  }

  /** The slot that completes: step 2 after step 1. */
  function Completed(s: Slots, e: Events): Option<int>
  {
    DoneStep(ErrorStep(s, e).0, e).1
  }

  /** The slot that starts: step 3 after steps 1 and 2. */
  function Started(s: Slots, e: Events): Option<int>
  {
    StartStep(DoneStep(ErrorStep(s, e).0, e).0, e).1
  }

  /** The registry after the handler. */
  function ProcessSlots(s: Slots, e: Events): Slots
  {
    StartStep(DoneStep(ErrorStep(s, e).0, e).0, e).0
  }

  /** The handler keeps the registry disjoint and loses no slot. */
  lemma ProcessKeepsRegistry(s: Slots, e: Events)
    requires Disjoint(s)
    ensures Disjoint(ProcessSlots(s, e)) && Held(ProcessSlots(s, e)) == Held(s)
  {
    var s1 := ErrorStep(s, e).0;
    var s2 := DoneStep(s1, e).0;
    StepsKeepRegistry(s, e);
    StepsKeepRegistry(s1, e);
    StepsKeepRegistry(s2, e);
  }

  /** Each step on its own keeps the registry's contents, and its disjointness. */
  lemma StepsKeepRegistry(s: Slots, e: Events)
    ensures Held(ErrorStep(s, e).0) == Held(s) && Held(DoneStep(s, e).0) == Held(s) && Held(StartStep(s, e).0) == Held(s)
    ensures Disjoint(s) ==> Disjoint(ErrorStep(s, e).0) && Disjoint(DoneStep(s, e).0) && Disjoint(StartStep(s, e).0)
  {
    if Disjoint(s) {
      MovesKeepDisjoint(s);
    }
  }

  /**
   * Errors are handled before completion: when the only busy slot meets an
   * error and a pyramid-done in the same status, it goes back to free and
   * no slot completes.
   */
  lemma ErrorPreemptsDone(s: Slots, e: Events, b: int)
    requires s.busy == [b] && e.error && e.done
    ensures Completed(s, e) == None
    ensures ErrorStep(s, e).0.free == s.free + [b]
    ensures ProcessSlots(s, e).done == s.done
  {
  }

  /**
   * In a disjoint registry the slot completed and the slot started by the
   * same status are different slots.
   */
  lemma DoneAndStartDiffer(s: Slots, e: Events)
    requires Disjoint(s)
    requires Completed(s, e).Some? && Started(s, e).Some?
    ensures Completed(s, e).value != Started(s, e).value
  {
    var s1 := ErrorStep(s, e).0;
    assert e.done && e.start;
    var t2 := BusyToDone(s1);
    var t3 := FreeToBusy(t2.0);
    assert Completed(s, e) == t2.1 && Started(s, e) == t3.1;
    MovesKeepDisjoint(s);
    MovesKeepDisjoint(s1);
    FreeDoneApart(t2.0, 0, |s1.done|);
  }

  // ---------------------------------------------------------------------
  // Requests

  /** The slot header `info_h_t` fields the model tracks. */
  datatype InfoH = InfoH(cfId: nat, sfId: nat, base: int)

  function HeaderOf(h: map<int, InfoH>, id: int): InfoH
  {
    if id in h then h[id] else InfoH(0, 0, 0)
  }

  /** The frame ids `ipu_get_frameid` stores into a slot header. */
  function FrameIds(s: Settings, info: map<Plane, PlaneInfo>, slotAddr: int, mem: Memory, h: InfoH): InfoH
  {
    var h1 := if s.frameId.cropEn != 0 && s.cropDdrEn != 0
              then h.(cfId := IdAt(mem, InfoOf(info, Crop).yOffset + slotAddr, s.frameId.busMode)) else h;
    if s.frameId.scaleEn != 0
    then h1.(sfId := IdAt(mem, InfoOf(info, if s.scaleDdrEn != 0 then Scale else Ds(0)).yOffset + slotAddr, s.frameId.busMode))
    else h1
  }

  /** The headers after `ipu_get_frameid(id)`: the ids are read only when frame ids are on. */
  function Recorded(s: Settings, info: map<Plane, PlaneInfo>, vaddr: int, h: map<int, InfoH>, id: int, mem: Memory): map<int, InfoH>
  {
    if s.frameId.idEn == 0 then h
    else h[id := FrameIds(s, info, SlotAddr(id, vaddr), mem, HeaderOf(h, id))]
  }

  /** The programming of the slot a frame start takes, if any. */
  function StartedEffects(s: Settings, ddr: map<Plane, Addr>, paddr: int, started: Option<int>): seq<HwEffect>
    requires Shaped(s)
  {
    if started.Some? then SetDdrEffects(s, ddr, SlotAddr(started.value, paddr)) else []
  }

  /** An ioctl with what its user copies return. */
  datatype Request =
    | Init(copied: bool, cfg: Settings)
    | GetImg
    | GetErrStatus(uncopied: nat)
    | CnnDone(copied: bool, slotId: int)
    | GetDoneInfo(uncopied: nat)
    | DumpReg
    | StopReq
    | StartReq
    | UpdateCfg(copied: bool, cfg: Settings)
    | GetMemInfo(uncopied: nat)
    | Unsupported

  /** What an ioctl copies back to user space. */
  datatype Reply = NoReply | ErrStatusReply(status: bv32) | DoneInfoReply(info: InfoH) | MemInfoReply(paddr: nat, memsize: nat)

  /** The first applicable of: done slot, stopped, error, nothing. */
  function PollMask(doneEmpty: bool, stopped: bool, errStatus: bv32): (mask: bv32)
    ensures mask == EPOLLIN | EPOLLET <==> !doneEmpty
    ensures mask == EPOLLHUP <==> doneEmpty && stopped
    ensures mask == EPOLLERR <==> doneEmpty && !stopped && errStatus != 0
    ensures mask == 0 <==> doneEmpty && !stopped && errStatus == 0
  {
    if !doneEmpty then EPOLLIN | EPOLLET
    else if stopped then EPOLLHUP
    else if errStatus != 0 then EPOLLERR
    else 0
  }

  class SingleCdev {
    const ipu: Ipu
    var slots: Slots
    var errStatus: bv32
    /** `s_info`. */
    var sInfo: map<Plane, PlaneInfo>
    /** The slot headers, by slot id. */
    var headers: map<int, InfoH>
    /** Wake-ups of `event_head`. */
    ghost var events: nat

    /**
     * The `kmalloc`ed device of `x2_ipu_init`.  The allocation is not
     * zeroed, so `err_status` and `s_info` start as whatever it held
     * (`errStatus0`, `sInfo0`); the slot headers in DDR are not touched
     * either (`headers0`).  The slot registry starts empty.
     */
    constructor(ipu: Ipu, errStatus0: bv32, sInfo0: map<Plane, PlaneInfo>, headers0: map<int, InfoH>)
      ensures this.ipu == ipu && slots == Slots([], [], []) && events == 0
      ensures errStatus == errStatus0 && sInfo == sInfo0 && headers == headers0
    {
      this.ipu := ipu;
      slots := Slots([], [], []);
      errStatus := errStatus0;
      sInfo := sInfo0;
      headers := headers0;
      events := 0;
    }

    /**
     * `x2_ipu_init`: `-ENOMEM` and no device when the allocation fails;
     * otherwise the device is built and the single-mode handler is
     * registered, even when `device_create` fails, which only makes the
     * result `-EINVAL`.
     */
    static method ModuleInit(ipu: Ipu, allocOk: bool, createOk: bool, errStatus0: bv32,
                             sInfo0: map<Plane, PlaneInfo>, headers0: map<int, InfoH>)
      returns (d: Option<SingleCdev>, r: int)
      modifies ipu`handlerSet
      ensures !allocOk ==> d.None? && r == -ENOMEM && ipu.handlerSet == old(ipu.handlerSet)
      ensures allocOk ==> d.Some? && fresh(d.value) && ipu.handlerSet && r == (if createOk then 0 else -EINVAL)
      ensures allocOk ==> d.value.ipu == ipu && d.value.slots == Slots([], [], []) && d.value.events == 0
      ensures allocOk ==> d.value.errStatus == errStatus0 && d.value.sInfo == sInfo0 && d.value.headers == headers0
    {
      if !allocOk {
        return None, -ENOMEM;
      }
      var dev := new SingleCdev(ipu, errStatus0, sInfo0, headers0);
      r := if createOk then 0 else -EINVAL;
      ipu.handlerSet := true;
      d := Some(dev);
    }

    /** `ipu_get_frameid` for the slot `id`. */
    method GetFrameid(id: int, mem: Memory) returns (r: int)
      modifies this`headers
      ensures r == 0
      ensures headers == Recorded(ipu.settings, sInfo, ipu.vaddr, old(headers), id, mem)
    {
      r := 0;
      var vaddr := SlotAddr(id, ipu.vaddr);
      var cfg := ipu.settings;
      if cfg.frameId.idEn == 0 {
        return;
      }
      var h := HeaderOf(headers, id);
      if cfg.frameId.cropEn != 0 && cfg.cropDdrEn != 0 {
        var v := ReadId(InfoOf(sInfo, Crop).yOffset + vaddr, cfg.frameId.busMode, mem);
        h := h.(cfId := v);
      }
      if cfg.frameId.scaleEn != 0 {
        if cfg.scaleDdrEn != 0 {
          var v := ReadId(InfoOf(sInfo, Scale).yOffset + vaddr, cfg.frameId.busMode, mem);
          h := h.(sfId := v);
        } else {
          var v := ReadId(InfoOf(sInfo, Ds(0)).yOffset + vaddr, cfg.frameId.busMode, mem);
          h := h.(sfId := v);
        }
      }
      assert h == FrameIds(cfg, sInfo, vaddr, mem, HeaderOf(headers, id));
      headers := headers[id := h];
    }

    /** One frame-id read at `addr`. */
    static method ReadId(addr: int, busMode: int, mem: Memory) returns (v: nat)
      ensures v == IdAt(mem, addr, busMode)
      ensures busMode == 0 ==> v < 0x1_0000
      ensures busMode != 0 ==> v < 256
    {
      if busMode == 0 {
        v := Byte(mem, addr) * 256 + Byte(mem, addr + 1);
      } else {
        v := DecodeFrameId(Samples(mem, addr));
      }
    }

    /** `ipu_single_mode_process(status)`: errors, then pyramid done, then frame start. */
    method Process(status: bv32, mem: Memory)
      requires Shaped(ipu.settings)
      modifies this`slots, this`errStatus, this`headers, this`events
      modifies ipu`pymidDone, ipu`doneIdx, ipu`hw, ipu`ddr
      ensures slots == ProcessSlots(old(slots), EventsOf(status))
      ensures errStatus == if EventsOf(status).error then status else old(errStatus)
      ensures ipu.ddr == old(ipu.ddr)
      ensures Completed(old(slots), EventsOf(status)).None? ==>
              ipu.pymidDone == old(ipu.pymidDone) && ipu.doneIdx == old(ipu.doneIdx) && headers == old(headers)
      ensures Completed(old(slots), EventsOf(status)).Some? ==>
              var id := Completed(old(slots), EventsOf(status)).value;
              ipu.pymidDone && ipu.doneIdx == id && headers == Recorded(ipu.settings, sInfo, ipu.vaddr, old(headers), id, mem)
      ensures ipu.hw == old(ipu.hw) + StartedEffects(ipu.settings, ipu.ddr, ipu.paddr, Started(old(slots), EventsOf(status)))
      ensures events == old(events) + (if ErrorStep(old(slots), EventsOf(status)).1.Some? then 1 else 0)
                                    + (if Completed(old(slots), EventsOf(status)).Some? then 1 else 0)
    {
      Handle(EventsOf(status), status, mem);
    }

    /** The handler on the decoded status. */
    method Handle(e: Events, status: bv32, mem: Memory)
      requires Shaped(ipu.settings)
      modifies this`slots, this`errStatus, this`headers, this`events
      modifies ipu`pymidDone, ipu`doneIdx, ipu`hw, ipu`ddr
      ensures slots == ProcessSlots(old(slots), e)
      ensures errStatus == if e.error then status else old(errStatus)
      ensures ipu.ddr == old(ipu.ddr)
      ensures Completed(old(slots), e).None? ==>
              ipu.pymidDone == old(ipu.pymidDone) && ipu.doneIdx == old(ipu.doneIdx) && headers == old(headers)
      ensures Completed(old(slots), e).Some? ==>
              var id := Completed(old(slots), e).value;
              ipu.pymidDone && ipu.doneIdx == id && headers == Recorded(ipu.settings, sInfo, ipu.vaddr, old(headers), id, mem)
      ensures ipu.hw == old(ipu.hw) + StartedEffects(ipu.settings, ipu.ddr, ipu.paddr, Started(old(slots), e))
      ensures events == old(events) + (if ErrorStep(old(slots), e).1.Some? then 1 else 0)
                                    + (if Completed(old(slots), e).Some? then 1 else 0)
    {
      HandleError(e, status);
      HandleDone(e, mem);
      HandleStart(e);
    }

    /** Step 1 of the handler: record the error status and give up the oldest busy slot. */
    method HandleError(e: Events, status: bv32)
      modifies this`slots, this`errStatus, this`events
      ensures slots == ErrorStep(old(slots), e).0
      ensures errStatus == if e.error then status else old(errStatus)
      ensures events == old(events) + if ErrorStep(old(slots), e).1.Some? then 1 else 0
    {
      if e.error {
        errStatus := status;
      }
      var moved;
      slots, moved := ErrorStep(slots, e).0, ErrorStep(slots, e).1;
      if moved.Some? {
        events := events + 1;
      }
    }

    /** Step 2 of the handler: mark the oldest busy slot done and read its frame ids. */
    method HandleDone(e: Events, mem: Memory)
      modifies this`slots, this`headers, this`events, ipu`pymidDone, ipu`doneIdx
      ensures slots == DoneStep(old(slots), e).0
      ensures DoneStep(old(slots), e).1.None? ==>
              ipu.pymidDone == old(ipu.pymidDone) && ipu.doneIdx == old(ipu.doneIdx) && headers == old(headers)
              && events == old(events)
      ensures DoneStep(old(slots), e).1.Some? ==>
              var id := DoneStep(old(slots), e).1.value;
              ipu.pymidDone && ipu.doneIdx == id && headers == Recorded(ipu.settings, sInfo, ipu.vaddr, old(headers), id, mem) && events == old(events) + 1
    {
      var done;
      slots, done := DoneStep(slots, e).0, DoneStep(slots, e).1;
      if done.Some? {
        ipu.pymidDone := true;
        ipu.doneIdx := done.value;
        var _ := GetFrameid(done.value, mem);
        events := events + 1;
      }
    }

    /** Step 3 of the handler: take the oldest free slot and program it. */
    method HandleStart(e: Events)
      requires Shaped(ipu.settings)
      modifies this`slots, ipu`hw, ipu`ddr
      ensures slots == StartStep(old(slots), e).0
      ensures ipu.ddr == old(ipu.ddr)
      ensures ipu.hw == old(ipu.hw) + StartedEffects(ipu.settings, ipu.ddr, ipu.paddr, StartStep(old(slots), e).1)
    {
      var started;
      slots, started := StartStep(slots, e).0, StartStep(slots, e).1;
      if started.Some? {
        var _ := ipu.Set(CmdSetDdr, SlotAddr(started.value, ipu.paddr));
      }
    }

    /** One pass of the driver thread with this device's handler registered. */
    method ThreadRound(mem: Memory)
      requires Shaped(ipu.settings) && ipu.triggered
      modifies ipu`isrData, ipu`triggered, ipu`pymidDone, ipu`doneIdx, ipu`hw, ipu`ddr
      modifies this`slots, this`errStatus, this`headers, this`events
      ensures ipu.State() == ThreadStep(old(ipu.State())).0
      ensures ThreadStep(old(ipu.State())).1.None? || ipu.ipuMode == IPU_INVALID || !ipu.handlerSet ==>
              slots == old(slots) && errStatus == old(errStatus)
      ensures ThreadStep(old(ipu.State())).1.Some? && ipu.ipuMode != IPU_INVALID && ipu.handlerSet ==>
              slots == ProcessSlots(old(slots), EventsOf(ThreadStep(old(ipu.State())).1.value))
    {
      var handled := ipu.ThreadPass();
      if handled.Some? {
        Process(handled.value, mem);
      }
    }

    /** `ipu_sinfo_init`. */
    method SinfoInit() returns (r: int)
      requires Shaped(ipu.settings)
      modifies this`sInfo
      ensures r == 0 && sInfo == SlotInfo(ipu.settings, ipu.ddr)
    {
      var cfg := ipu.settings;
      var ddr := ipu.ddr;
      var info: map<Plane, PlaneInfo> := map[];
      if cfg.cropDdrEn == 1 {
        info := info[Crop := CropInfo(cfg, Lookup(ddr, Crop))];
      }
      if cfg.scaleDdrEn == 1 {
        info := info[Scale := ScaleInfo(cfg, Lookup(ddr, Scale))];
      }
      if cfg.pymid.pymidEn == 1 {
        ghost var head := info;
        var i := 0;
        while i < cfg.pymid.dsLayerEn
          invariant 0 <= i <= cfg.pymid.dsLayerEn
          invariant info == DsInfo(cfg, ddr, head, i)
        {
          if i == 0 || cfg.pymid.dsFactor[i] != 0 {
            info := info[Ds(i) := LayerInfo(Lookup(ddr, Ds(i)), cfg.pymid.dsRoi[i])];
          }
          i := i + 1;
        }
        ghost var mid := info;
        ghost var flags := UsFlags(cfg);
        i := 0;
        while i < US_LAYERS
          invariant 0 <= i <= US_LAYERS
          invariant info == UsInfo(flags, cfg.pymid.usRoi, ddr, mid, i)
        {
          if BitSet(cfg.pymid.usLayerEn, i) {
            if cfg.pymid.usFactor[i] != 0 {
              info := info[Us(i) := LayerInfo(Lookup(ddr, Us(i)), cfg.pymid.usRoi[i])];
            }
          }
          i := i + 1;
        }
      }
      sInfo := info;
      r := 0;
    }

    /** Plan the slot, program the blocks and describe the slot: the common part of `ipu_core_init` and `ipu_core_update`. */
    method Configure()
      requires Shaped(ipu.settings)
      modifies ipu`ddr, ipu`hw, this`sInfo
      ensures ipu.ddr == Walk(Stages(ipu.settings), 0, old(ipu.ddr)).ddr
      ensures ipu.hw == old(ipu.hw) + ConfigureEffects()
      ensures sInfo == SlotInfo(ipu.settings, ipu.ddr)
    {
      var _ := ipu.DdrinfoInit();
      ProgramBlocks();
      var _ := SinfoInit();
    }

    /** The block programming of `ipu_core_init`: `ipu_set` of base, crop, scale, pyramid and frame id. */
    method ProgramBlocks()
      requires Shaped(ipu.settings)
      modifies ipu`ddr, ipu`hw
      ensures ipu.ddr == old(ipu.ddr) && ipu.hw == old(ipu.hw) + ConfigureEffects()
    {
      ghost var h := ipu.hw;
      var _ := ipu.Set(CmdSetBase, 0);
      var _ := ipu.Set(CmdSetCrop, 0);
      var _ := ipu.Set(CmdSetScale, 0);
      assert ipu.hw == h + [Program(CtrlBlock), Program(VideoSizeBlock), Program(CropBlock), Program(ScaleBlock)];
      var _ := ipu.Set(CmdSetPymid, 0);
      var _ := ipu.Set(CmdSetFrameId, 0);
    }

    /**
     * `ipu_core_init`: reset the IPU, configure, and put every slot in
     * free.  The result is 0 even when the planner fails.
     */
    method CoreInit() returns (r: int)
      requires Shaped(ipu.settings)
      modifies ipu`ddr, ipu`hw, this`sInfo, this`slots
      ensures r == 0
      ensures ipu.ddr == Walk(Stages(ipu.settings), 0, old(ipu.ddr)).ddr
      ensures ipu.hw == old(ipu.hw) + [ResetIpu] + ConfigureEffects()
      ensures sInfo == SlotInfo(ipu.settings, ipu.ddr)
      ensures slots == Cleaned()
    {
      ipu.hw := ipu.hw + [ResetIpu];
      Configure();
      slots := Cleaned();
      r := 0;
    }

    /** `ipu_core_update`: as `ipu_core_init` without the reset. */
    method CoreUpdate() returns (r: int)
      requires Shaped(ipu.settings)
      modifies ipu`ddr, ipu`hw, this`sInfo, this`slots
      ensures r == 0
      ensures ipu.ddr == Walk(Stages(ipu.settings), 0, old(ipu.ddr)).ddr
      ensures ipu.hw == old(ipu.hw) + ConfigureEffects()
      ensures sInfo == SlotInfo(ipu.settings, ipu.ddr)
      ensures slots == Cleaned()
    {
      Configure();
      slots := Cleaned();
      r := 0;
    }

    /** `ipu_open`. */
    method Open() returns (r: int)
      modifies ipu`ipuMode
      ensures r == 0 && ipu.ipuMode == IPU_ISP_SINGLE
    {
      ipu.ipuMode := IPU_ISP_SINGLE;
      r := 0;
    }

    /** `ipu_close`: stop the driver and leave single mode. */
    method Close() returns (r: int)
      modifies ipu`ipuMode, ipu`hw, ipu`stop, ipu`isrData
      ensures r == 0 && ipu.ipuMode == IPU_INVALID && ipu.stop
      ensures ipu.State() == StopStep(old(ipu.State()))
    {
      var _ := ipu.Stop();
      ipu.ipuMode := IPU_INVALID;
      r := 0;
    }

    /** `ipu_poll`. */
    method Poll() returns (mask: bv32)
      ensures mask == PollMask(slots.done == [], ipu.stop, errStatus)
    {
      if slots.done != [] {
        return EPOLLIN | EPOLLET;
      }
      mask := 0;
      if ipu.stop {
        mask := EPOLLHUP;
      } else if errStatus != 0 {
        mask := EPOLLERR;
      }
    }

    /** `ipu_mmap`: a mapping larger than the slot memory is refused. */
    method Mmap(size: int, remapOk: bool) returns (r: int)
      ensures size > ipu.memsize ==> r == -ENOMEM
      ensures size <= ipu.memsize ==> r == if remapOk then 0 else -EAGAIN
    {
      if size > ipu.memsize {
        return -ENOMEM;
      }
      if !remapOk {
        return -EAGAIN;
      }
      r := 0;
    }

    /** Take a free slot, program it and start: the tail of `IPUC_START` and `IPUC_UPDATE_CFG`. */
    method StartNext() returns (r: int)
      requires Shaped(ipu.settings)
      modifies this`slots, ipu`hw, ipu`stop, ipu`ddr
      ensures slots == FreeToBusy(old(slots)).0 && ipu.ddr == old(ipu.ddr)
      ensures FreeToBusy(old(slots)).1.None? ==> r == EFAULT && ipu.stop == old(ipu.stop) && ipu.hw == old(ipu.hw)
      ensures FreeToBusy(old(slots)).1.Some? ==>
              r == 0 && !ipu.stop
              && ipu.hw == old(ipu.hw) + StartedEffects(ipu.settings, ipu.ddr, ipu.paddr, FreeToBusy(old(slots)).1) + StartEffects(ipu.settings)
    {
      var id;
      slots, id := FreeToBusy(slots).0, FreeToBusy(slots).1;
      if id.None? {
        return EFAULT;
      }
      var _ := ipu.Set(CmdSetDdr, SlotAddr(id.value, ipu.paddr));
      var _ := ipu.Start();
      r := 0;
    }

    /**
     * A successful `IPUC_INIT`: the copied settings are planned, programmed
     * after a reset and described, and every slot is free; the error status,
     * the headers and the run state are kept.
     */
    twostate predicate InitEffect(cfg: Settings)
      requires Shaped(cfg)
      reads this, ipu
    {
      && ipu.settings == cfg && slots == Cleaned()
      && ipu.ddr == Walk(Stages(cfg), 0, old(ipu.ddr)).ddr
      && ipu.hw == old(ipu.hw) + [ResetIpu] + ConfigureEffects()
      && sInfo == SlotInfo(cfg, ipu.ddr)
      && errStatus == old(errStatus) && headers == old(headers) && events == old(events)
      && ipu.stop == old(ipu.stop) && ipu.isrData == old(ipu.isrData)
    }

    /**
     * `IPUC_GET_DONE_INFO` on a non-empty done list: the oldest done slot
     * leaves the registry and its header gets the slot's physical address;
     * nothing else changes.
     */
    twostate predicate DoneInfoEffect(info: InfoH)
      reads this, ipu
    {
      && old(slots).done != []
      && errStatus == old(errStatus) && sInfo == old(sInfo) && events == old(events)
      && unchanged(ipu)
      && var id := old(slots).done[0];
         && info == HeaderOf(old(headers), id).(base := SlotAddr(id, ipu.paddr))
         && slots == TakeDone(old(slots)).0 && headers == old(headers)[id := info]
    }

    /**
     * `IPUC_STOP`: the driver stops, every slot goes back to free and the
     * waiters are woken; the configuration is kept.
     */
    twostate predicate StopEffect()
      reads this, ipu
    {
      && ipu.State() == StopStep(old(ipu.State()))
      && ipu.hw == old(ipu.hw) + (if old(ipu.stop) then [] else StopEffects())
      && slots == Cleaned() && events == old(events) + 1
      && errStatus == old(errStatus) && sInfo == old(sInfo) && headers == old(headers)
      && ipu.settings == old(ipu.settings) && ipu.ddr == old(ipu.ddr)
    }

    /**
     * `IPUC_START`: the oldest free slot moves to busy, is programmed and
     * the driver starts; with no free slot nothing but the result changes.
     */
    twostate predicate StartEffect()
      requires Shaped(ipu.settings)
      reads this, ipu
    {
      && slots == FreeToBusy(old(slots)).0
      && ipu.settings == old(ipu.settings) && ipu.ddr == old(ipu.ddr) && ipu.isrData == old(ipu.isrData)
      && errStatus == old(errStatus) && sInfo == old(sInfo) && headers == old(headers)
      && events == old(events)
      && (old(slots).free == [] ==> ipu.stop == old(ipu.stop) && ipu.hw == old(ipu.hw))
      && (old(slots).free != [] ==>
            !ipu.stop
            && ipu.hw == old(ipu.hw) + StartedEffects(ipu.settings, ipu.ddr, ipu.paddr, FreeToBusy(old(slots)).1)
                         + StartEffects(ipu.settings))
    }

    /**
     * A successful `IPUC_UPDATE_CFG`: stop, wake the waiters, plan, program
     * and describe the copied settings without a reset, put every slot back
     * in free, then take the first one and start.
     */
    twostate predicate UpdateEffect(cfg: Settings)
      requires Shaped(cfg)
      reads this, ipu
    {
      && ipu.settings == cfg && !ipu.stop && slots == FreeToBusy(Cleaned()).0
      && ipu.ddr == Walk(Stages(cfg), 0, old(ipu.ddr)).ddr
      && sInfo == SlotInfo(cfg, ipu.ddr)
      && ipu.hw == old(ipu.hw) + (if old(ipu.stop) then [] else StopEffects()) + ConfigureEffects()
                   + StartedEffects(cfg, ipu.ddr, ipu.paddr, FreeToBusy(Cleaned()).1)
                   + StartEffects(cfg)
      && ipu.isrData == (if old(ipu.stop) then old(ipu.isrData) else 0)
      && events == old(events) + 1 && errStatus == old(errStatus) && headers == old(headers)
    }

    /** The `IPUC_INIT` case once the settings are copied. */
    method InitCmd(cfg: Settings) returns (r: int)
      requires Shaped(cfg)
      modifies this`slots, this`sInfo, ipu`settings, ipu`ddr, ipu`hw
      ensures r == 0 && InitEffect(cfg)
    {
      ipu.settings := cfg;
      r := CoreInit();
      r := 0;
    }

    /** The `IPUC_GET_DONE_INFO` case: `None` for an empty done list. */
    method DoneInfoCmd() returns (info: Option<InfoH>)
      modifies this`slots, this`headers
      ensures old(slots).done == [] ==> info.None? && unchanged(this)
      ensures old(slots).done != [] ==> info.Some? && DoneInfoEffect(info.value)
    {
      var id;
      slots, id := TakeDone(slots).0, TakeDone(slots).1;
      if id.None? {
        return None;
      }
      var h := HeaderOf(headers, id.value).(base := SlotAddr(id.value, ipu.paddr));
      headers := headers[id.value := h];
      info := Some(h);
    }

    /** The `IPUC_STOP` case. */
    method StopCmd()
      modifies this`slots, this`events, ipu`hw, ipu`stop, ipu`isrData
      ensures StopEffect()
    {
      var _ := ipu.Stop();
      slots := Cleaned();
      events := events + 1;
    }

    /** The `IPUC_START` case. */
    method StartCmd() returns (r: int)
      requires Shaped(ipu.settings)
      modifies this`slots, ipu`hw, ipu`stop, ipu`ddr
      ensures r == (if old(slots).free == [] then EFAULT else 0) && StartEffect()
    {
      r := StartNext();
    }

    /** The `IPUC_UPDATE_CFG` case once the settings are copied. */
    method UpdateCmd(cfg: Settings) returns (r: int)
      requires Shaped(cfg)
      modifies this`slots, this`sInfo, this`events, ipu`settings, ipu`ddr, ipu`hw, ipu`stop, ipu`isrData
      ensures r == 0 && UpdateEffect(cfg)
    {
      ipu.settings := cfg;
      var _ := ipu.Stop();
      events := events + 1;
      r := Restart();
    }

    /** The tail of `IPUC_UPDATE_CFG`: update the configuration, then take the first free slot and start. */
    method Restart() returns (r: int)
      requires Shaped(ipu.settings)
      modifies this`slots, this`sInfo, ipu`ddr, ipu`hw, ipu`stop
      ensures r == 0 && !ipu.stop && slots == FreeToBusy(Cleaned()).0
      ensures ipu.ddr == Walk(Stages(ipu.settings), 0, old(ipu.ddr)).ddr
      ensures sInfo == SlotInfo(ipu.settings, ipu.ddr)
      ensures ipu.hw == old(ipu.hw) + ConfigureEffects()
                        + StartedEffects(ipu.settings, ipu.ddr, ipu.paddr, FreeToBusy(Cleaned()).1)
                        + StartEffects(ipu.settings)
    {
      var _ := CoreUpdate();
      r := StartNext();
    }

    /**
     * `ipu_ioctl`.  A failed user copy (modelled as all or nothing), an
     * empty done list and the commands that only report change nothing;
     * every other command states its whole effect.
     */
    method Ioctl(req: Request) returns (ret: int, reply: Reply)
      requires Shaped(ipu.settings)
      requires (req.Init? || req.UpdateCfg?) && req.copied ==> Shaped(req.cfg)
      modifies this`slots, this`errStatus, this`sInfo, this`headers, this`events
      modifies ipu`settings, ipu`ddr, ipu`hw, ipu`stop, ipu`isrData
      ensures Shaped(ipu.settings)
      ensures req.GetImg? || req.GetMemInfo? || req.DumpReg? || req.Unsupported?
              || ((req.Init? || req.UpdateCfg? || req.CnnDone?) && !req.copied)
              || (req.GetDoneInfo? && old(slots).done == [])
              ==> unchanged(this) && unchanged(ipu)
      ensures (req.Init? || req.UpdateCfg? || req.CnnDone?) && !req.copied ==> ret == -EFAULT && reply == NoReply
      ensures req.Init? && req.copied ==> ret == 0 && InitEffect(req.cfg)
      ensures req.GetImg? ==> ret == IPU_SLOT_SIZE
      ensures req.GetErrStatus? ==>
              && ret == req.uncopied && reply == ErrStatusReply(old(errStatus)) && errStatus == 0
              && slots == old(slots) && sInfo == old(sInfo) && headers == old(headers) && events == old(events)
              && unchanged(ipu)
      ensures req.CnnDone? && req.copied ==>
              && ret == 0 && slots == InsertFree(old(slots), req.slotId)
              && errStatus == old(errStatus) && sInfo == old(sInfo) && headers == old(headers)
              && events == old(events) && unchanged(ipu)
      ensures req.GetDoneInfo? && old(slots).done == [] ==> ret == -EFAULT && reply == NoReply
      ensures req.GetDoneInfo? && old(slots).done != [] ==>
              ret == req.uncopied && reply.DoneInfoReply? && DoneInfoEffect(reply.info)
      ensures req.StopReq? ==> ret == 0 && StopEffect()
      ensures req.StartReq? ==> ret == (if old(slots).free == [] then EFAULT else 0) && StartEffect()
      ensures req.UpdateCfg? && req.copied ==> ret == 0 && UpdateEffect(req.cfg)
      ensures req.GetMemInfo? ==> ret == req.uncopied && reply == MemInfoReply(ipu.paddr, ipu.memsize)
      ensures req.DumpReg? ==> ret == 0
      ensures req.Unsupported? ==> ret == -EINVAL
    {
      reply := NoReply;
      match req
      case Init(copied, cfg) =>
        if !copied {
          return -EFAULT, NoReply;
        }
        ret := InitCmd(cfg);
      case GetImg =>
        ret := IPU_SLOT_SIZE;
      case GetErrStatus(uncopied) =>
        ret := uncopied;
        reply := ErrStatusReply(errStatus);
        errStatus := 0;
      case CnnDone(copied, slotId) =>
        if !copied {
          return -EFAULT, NoReply;
        }
        slots := InsertFree(slots, slotId);
        ret := 0;
      case GetDoneInfo(uncopied) =>
        var info := DoneInfoCmd();
        if info.None? {
          return -EFAULT, NoReply;
        }
        ret := uncopied;
        reply := DoneInfoReply(info.value);
      case DumpReg =>
        ret := 0;
      case StopReq =>
        StopCmd();
        ret := 0;
      case StartReq =>
        ret := StartCmd();
      case UpdateCfg(copied, cfg) =>
        if !copied {
          return -EFAULT, NoReply;
        }
        ret := UpdateCmd(cfg);
      case GetMemInfo(uncopied) =>
        ret := uncopied;
        reply := MemInfoReply(ipu.paddr, ipu.memsize);
      case Unsupported =>
        ret := -EINVAL;
    }
  }

  /** The blocks the configuration programs, in order: base, crop, scale, pyramid, frame id. */
  function ConfigureEffects(): seq<HwEffect>
  {
    [Program(CtrlBlock), Program(VideoSizeBlock), Program(CropBlock), Program(ScaleBlock),
     Program(PymidBlock), Program(FrameIdBlock)]
  }
}
