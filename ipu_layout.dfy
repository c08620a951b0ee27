/**
 * The IPU slot layout of `ipu_cfg_ddrinfo_init` (`ipu/ipu_drv.c`): the
 * crop plane, the scale plane, the pyramid downsample layers and the
 * pyramid upsample layers are packed one after another into one slot of
 * `IPU_SLOT_SIZE` bytes, behind a cursor that starts at 0 and is rounded up
 * to 16 after every plane.
 *
 * The layout is described here by the list of planes a configuration asks
 * for (`Stages`), the cursor before each of them (`CursorAt`) and the
 * descriptors written by walking the list (`Walk`); the planner method of
 * `IpuDrv` is proved against `Walk`.  `ipu_common.h`, where `ALIGN_16`,
 * `IPU_SLOT_SIZE` and the configuration structures live, is not part of this
 * model: `ALIGN_16` rounds up to a multiple of 16 and the slot size and
 * layer counts are constants chosen here.
 */
module IpuLayout {

  /** Bytes in one slot. */
  const IPU_SLOT_SIZE: nat := 0x100_0000
  /** Entries of the `ds_*` arrays of the pyramid configuration. */
  const DS_LAYERS: nat := 24
  /** Entries of the `us_*` arrays; the source loops over exactly six. */
  const US_LAYERS: nat := 6
  const U32_RANGE: nat := 0x1_0000_0000

  /** `ALIGN_16(x)`: `x` rounded up to a multiple of 16. */
  function Align16(x: int): (r: int)
    ensures r % 16 == 0
    ensures x <= r < x + 16
  {
    (x + 15) - (x + 15) % 16
  }

  /** Assignment to a `uint32_t`. */
  function U32(x: int): (r: nat)
    ensures r < U32_RANGE
    ensures 0 <= x < U32_RANGE ==> r == x
  {
    x % U32_RANGE
  }

  function Pow2(n: nat): (r: nat)
    ensures r > 0
  {
    if n == 0 then 1 else 2 * Pow2(n - 1)
  }

  /** `mask & (1 << i)` is non-zero. */
  predicate BitSet(mask: nat, i: nat)
  {
    (mask / Pow2(i)) % 2 == 1
  }

  datatype Size = Size(w: int, h: int)

  /** The pyramid part of `ipu_cfg_t`. */
  datatype Pymid = Pymid(
    pymidEn: int,
    dsLayerEn: nat,
    dsFactor: seq<int>,
    dsRoi: seq<Size>,
    dsUvBypass: nat,
    usLayerEn: nat,
    usFactor: seq<int>,
    usRoi: seq<Size>,
    usUvBypass: nat)

  /** The `frame_id` part of `ipu_cfg_t`. */
  datatype FrameIdCfg = FrameIdCfg(idEn: int, cropEn: int, scaleEn: int, busMode: int)

  /** The user-supplied part of `ipu_cfg_t`. */
  datatype Settings = Settings(
    cropDdrEn: int,
    scaleDdrEn: int,
    cropSt: Size,
    cropEd: Size,
    scaleTgt: Size,
    pymid: Pymid,
    frameId: FrameIdCfg)

  /**
   * The arrays have their declared lengths, and `ds_layer_en` indexes
   * them: the loops up to `ds_layer_en` read `ds_factor[i]` and `ds_roi[i]`
   * without a bound check.
   */
  predicate Shaped(s: Settings)
  {
    && |s.pymid.dsFactor| == DS_LAYERS && |s.pymid.dsRoi| == DS_LAYERS
    && |s.pymid.usFactor| == US_LAYERS && |s.pymid.usRoi| == US_LAYERS
    && s.pymid.dsLayerEn < DS_LAYERS
  }

  /** The output planes of one slot. */
  datatype Plane = Crop | Scale | Ds(layer: nat) | Us(layer: nat)

  /** A `y_addr`/`c_addr` descriptor, relative to the slot. */
  datatype Addr = Addr(y: int, c: int)

  /** A descriptor not yet written reads as zero. */
  function Lookup(ddr: map<Plane, Addr>, p: Plane): Addr
  {
    if p in ddr then ddr[p] else Addr(0, 0)
  }

  /**
   * One plane the planner visits: either skipped (zero descriptor, no
   * space) or given `size` bytes of luma, followed by `size / 2` bytes of
   * chroma when `chroma` holds.
   */
  datatype Stage = Skip(plane: Plane) | Reserve(plane: Plane, size: nat, chroma: bool)

  /** `ALIGN_16(w) * ALIGN_16(h)` in `uint32_t` arithmetic. */
  function Area(w: int, h: int): nat
  {
    U32(U32(Align16(w)) * U32(Align16(h)))
  }

  /** Downsample layer `i`. */
  function DsStage(s: Settings, i: nat): (r: Stage)
    requires Shaped(s) && i < DS_LAYERS
    ensures r.plane == Ds(i)
    ensures r.Skip? <==> i % 4 != 0 && s.pymid.dsFactor[i] == 0
    ensures r.Reserve? ==> r.size == Area(s.pymid.dsRoi[i].w, s.pymid.dsRoi[i].h)
    ensures r.Reserve? ==> (r.chroma <==> !BitSet(s.pymid.dsUvBypass, i))
  {
    if i % 4 != 0 && s.pymid.dsFactor[i] == 0 then Skip(Ds(i))
    else Reserve(Ds(i), Area(s.pymid.dsRoi[i].w, s.pymid.dsRoi[i].h), !BitSet(s.pymid.dsUvBypass, i))
  }

  /** Upsample layer `i`. */
  function UsStage(s: Settings, i: nat): (r: Stage)
    requires Shaped(s) && i < US_LAYERS
    ensures r.plane == Us(i)
    ensures r.Skip? <==> !BitSet(s.pymid.usLayerEn, i)
    ensures r.Reserve? ==> r.size == Area(s.pymid.usRoi[i].w, s.pymid.usRoi[i].h)
    ensures r.Reserve? ==> (r.chroma <==> BitSet(s.pymid.usUvBypass, i))
  {
    if !BitSet(s.pymid.usLayerEn, i) then Skip(Us(i))
    else Reserve(Us(i), Area(s.pymid.usRoi[i].w, s.pymid.usRoi[i].h), BitSet(s.pymid.usUvBypass, i))
  }

  /** The stages before the pyramid: crop, then scale, each when enabled with `== 1`. */
  function HeadStages(s: Settings): seq<Stage>
  {
    (if s.cropDdrEn == 1
     then [Reserve(Crop, Area(s.cropEd.w - s.cropSt.w, s.cropEd.h - s.cropSt.h), true)]
     else [])
    + (if s.scaleDdrEn == 1 then [Reserve(Scale, Area(s.scaleTgt.w, s.scaleTgt.h), true)] else [])
  }

  /** Downsample layers `0 .. ds_layer_en` inclusive. */
  function DsStages(s: Settings): (r: seq<Stage>)
    requires Shaped(s)
    ensures |r| == s.pymid.dsLayerEn + 1
    ensures forall i :: 0 <= i < |r| ==> r[i] == DsStage(s, i)
  {
    seq(s.pymid.dsLayerEn + 1, i requires 0 <= i < s.pymid.dsLayerEn + 1 => DsStage(s, i))
  }

  /** Upsample layers `0 .. 5`. */
  function UsStages(s: Settings): (r: seq<Stage>)
    requires Shaped(s)
    ensures |r| == US_LAYERS
    ensures forall i :: 0 <= i < |r| ==> r[i] == UsStage(s, i)
  {
    seq(US_LAYERS, i requires 0 <= i < US_LAYERS => UsStage(s, i))
  }

  /** Every plane the planner visits, in its order. */
  function Stages(s: Settings): seq<Stage>
    requires Shaped(s)
  {
    HeadStages(s) + (if s.pymid.pymidEn == 1 then DsStages(s) + UsStages(s) else [])
  }

  /** With the pyramid enabled, the downsample layers follow the head stages and the upsample layers end the list. */
  lemma PyramidStages(s: Settings)
    requires Shaped(s) && s.pymid.pymidEn == 1
    ensures |Stages(s)| == |HeadStages(s)| + s.pymid.dsLayerEn + 1 + US_LAYERS
    ensures forall i :: 0 <= i <= s.pymid.dsLayerEn ==> Stages(s)[|HeadStages(s)| + i] == DsStage(s, i)
    ensures forall i :: 0 <= i < US_LAYERS ==> Stages(s)[|HeadStages(s)| + s.pymid.dsLayerEn + 1 + i] == UsStage(s, i)
  {
    var h, d, u := HeadStages(s), DsStages(s), UsStages(s);
    assert Stages(s) == h + d + u;
    forall i | 0 <= i <= s.pymid.dsLayerEn
      ensures Stages(s)[|h| + i] == DsStage(s, i)
    {
      assert (h + d + u)[|h| + i] == d[i];
    }
    forall i | 0 <= i < US_LAYERS
      ensures Stages(s)[|h| + |d| + i] == UsStage(s, i)
    {
      assert (h + d + u)[|h| + |d| + i] == u[i];
    }
  }

  /**
   * Bytes the cursor moves past a stage, before re-alignment: the luma
   * plane and, with chroma, the half-size chroma plane behind it.  This is
   * `size * 3 >> 1` computed wide enough not to wrap; the source computes
   * it in `uint32_t` (`SpanAsWritten`).
   */
  function Span(st: Stage): (r: nat)
    ensures st.Reserve? ==> r == st.size + (if st.chroma then st.size / 2 else 0)
    ensures st.Skip? ==> r == 0
  {
    match st
    case Skip(_) => 0
    case Reserve(_, size, chroma) => if chroma then size * 3 / 2 else size
  }

  /** The advance as the source writes it: `size * 3` wraps at 2^32 before the shift. */
  function SpanAsWritten(st: Stage): (r: nat)
    ensures st.Reserve? && !st.chroma ==> r == st.size
    ensures st.Reserve? && st.chroma ==> r < U32_RANGE / 2
    ensures st.Skip? ==> r == 0
    ensures r <= Span(st)
  {
    match st
    case Skip(_) => 0
    case Reserve(_, size, chroma) => if chroma then U32(size * 3) / 2 else size
  }

  /** The two advances differ only once `size * 3` reaches 2^32. */
  lemma SpanAsWrittenBelowWrap(st: Stage)
    requires st.Reserve? ==> st.size * 3 < U32_RANGE
    ensures SpanAsWritten(st) == Span(st)
  {
  }

  /** A 65535 by 21856 crop, 1432354816 bytes of luma once aligned. */
  const WideCrop := Reserve(Crop, Area(65535, 21856), true)

  /**
   * With the wrapped advance the cursor moves 1 MB past the start of the
   * wide crop, inside its luma plane and well below the slot end, so the
   * source's overflow test passes and the next plane overlaps it; with the
   * wide advance the crop alone overflows the slot.
   */
  lemma WrappedSpanOverlaps()
    ensures WideCrop.size == 1432354816
    ensures SpanAsWritten(WideCrop) == 0x10_0000
    ensures Align16(SpanAsWritten(WideCrop)) < IPU_SLOT_SIZE <= Span(WideCrop)
    ensures Align16(SpanAsWritten(WideCrop)) < WideCrop.size
  {
    assert WideCrop.size == 65536 * 21856;
    assert U32(WideCrop.size * 3) == WideCrop.size * 3 - U32_RANGE == 2097152;
  }

  /** The descriptor a stage writes when the cursor is at `cursor`. */
  function Written(st: Stage, cursor: int): Addr
  {
    match st
    case Skip(_) => Addr(0, 0)
    case Reserve(_, size, chroma) => Addr(cursor, if chroma then cursor + size else 0)
  }

  /** The cursor after a stage. */
  function Next(st: Stage, cursor: int): int
  {
    if st.Skip? then cursor else Align16(cursor + Span(st))
  }

  /** The cursor before stage `k`. */
  function CursorAt(stages: seq<Stage>, k: nat): int
    requires k <= |stages|
  {
    if k == 0 then 0 else Next(stages[k - 1], CursorAt(stages, k - 1))
  }

  /** Stage `k` reserves space and leaves the cursor at or past the slot end. */
  predicate Fails(stages: seq<Stage>, k: nat)
    requires k < |stages|
  {
    stages[k].Reserve? && CursorAt(stages, k + 1) >= IPU_SLOT_SIZE
  }

  /** The descriptors and whether the planner reached the end. */
  datatype Outcome = Outcome(ddr: map<Plane, Addr>, ok: bool)

  /**
   * The planner from stage `k` on: each stage writes its descriptor, and a
   * stage that overflows stops the walk with its own descriptor kept.
   */
  function Walk(stages: seq<Stage>, k: nat, ddr: map<Plane, Addr>): Outcome
    requires k <= |stages|
    decreases |stages| - k
  {
    if k == |stages| then Outcome(ddr, true)
    else
      var ddr' := ddr[stages[k].plane := Written(stages[k], CursorAt(stages, k))];
      if Fails(stages, k) then Outcome(ddr', false) else Walk(stages, k + 1, ddr')
  }

  /** Each plane is visited at most once. */
  ghost predicate PlanesDistinct(stages: seq<Stage>)
  {
    forall a, b :: 0 <= a < b < |stages| ==> stages[a].plane != stages[b].plane
  }

  /** A position in a fixed order of all planes. */
  function PlaneRank(p: Plane): nat
  {
    match p
    case Crop => 0
    case Scale => 1
    case Ds(i) => 2 + i
    case Us(i) => 2 + DS_LAYERS + i
  }

  /** Strictly increasing plane ranks. */
  ghost predicate RankSorted(stages: seq<Stage>)
  {
    forall a, b :: 0 <= a < b < |stages| ==> PlaneRank(stages[a].plane) < PlaneRank(stages[b].plane)
  }

  /** Two rank-sorted runs, the first wholly below `m` and the second wholly from `m`, stay sorted when joined. */
  lemma JoinSorted(x: seq<Stage>, y: seq<Stage>, m: nat)
    requires RankSorted(x) && RankSorted(y)
    requires forall i :: 0 <= i < |x| ==> PlaneRank(x[i].plane) < m
    requires forall j :: 0 <= j < |y| ==> PlaneRank(y[j].plane) >= m
    ensures RankSorted(x + y)
  {
    var z := x + y;
    forall a, b | 0 <= a < b < |z|
      ensures PlaneRank(z[a].plane) < PlaneRank(z[b].plane)
    {
      if b < |x| {
        assert z[a] == x[a] && z[b] == x[b];
      } else if a >= |x| {
        assert z[a] == y[a - |x|] && z[b] == y[b - |x|];
      } else {
        assert z[a] == x[a] && z[b] == y[b - |x|];
      }
    }
  }

  /** The planner visits planes in rank order, so no plane twice. */
  lemma StagesDistinct(s: Settings)
    requires Shaped(s)
    ensures PlanesDistinct(Stages(s))
  {
    var head := HeadStages(s);
    assert RankSorted(head);
    var tail: seq<Stage> := if s.pymid.pymidEn == 1 then DsStages(s) + UsStages(s) else [];
    if s.pymid.pymidEn == 1 {
      var ds := DsStages(s);
      var us := UsStages(s);
      assert RankSorted(ds);
      assert RankSorted(us);
      JoinSorted(ds, us, 2 + DS_LAYERS);
    }
    JoinSorted(head, tail, 2);
    assert Stages(s) == head + tail;
  }

  /** The cursor is never negative and always a multiple of 16. */
  lemma {:induction false} CursorAligned(stages: seq<Stage>, k: nat)
    requires k <= |stages|
    ensures CursorAt(stages, k) >= 0 && CursorAt(stages, k) % 16 == 0
  {
    if k > 0 {
      CursorAligned(stages, k - 1);
    }
  }

  /** The cursor never moves back. */
  lemma {:induction false} CursorMonotone(stages: seq<Stage>, j: nat, k: nat)
    requires j <= k <= |stages|
    ensures CursorAt(stages, j) <= CursorAt(stages, k)
    decreases k - j
  {
    if j < k {
      CursorMonotone(stages, j, k - 1);
    }
  }

  /**
   * The space a stage reserves, luma and chroma, lies below the cursor of
   * every later stage: reserved regions never overlap.
   */
  lemma PlanesApart(stages: seq<Stage>, j: nat, k: nat)
    requires j < k <= |stages|
    ensures CursorAt(stages, j) + Span(stages[j]) <= CursorAt(stages, k)
  {
    NextCovers(stages[j], CursorAt(stages, j));
    CursorMonotone(stages, j + 1, k);
  }

  lemma NextCovers(st: Stage, cursor: int)
    ensures cursor + Span(st) <= Next(st, cursor)
  {
  }

  /** The walk reaches the end exactly when no stage overflows. */
  lemma {:induction false} WalkOk(stages: seq<Stage>, k: nat, ddr: map<Plane, Addr>)
    requires k <= |stages|
    ensures Walk(stages, k, ddr).ok <==> forall j :: k <= j < |stages| ==> !Fails(stages, j)
    decreases |stages| - k
  {
    if k < |stages| {
      WalkOk(stages, k + 1, ddr[stages[k].plane := Written(stages[k], CursorAt(stages, k))]);
    }
  }

  /**
   * A plane the walk does not visit from stage `k` up to and including
   * stage `last` keeps its descriptor when the walk stops at or before `last`.
   */
  lemma {:induction false} WalkLeaves(stages: seq<Stage>, k: nat, last: int, ddr: map<Plane, Addr>, p: Plane)
    requires k <= |stages| && last < |stages|
    requires forall j :: k <= j <= last ==> stages[j].plane != p
    requires last == |stages| - 1 || (k <= last && Fails(stages, last))
    ensures p in Walk(stages, k, ddr).ddr <==> p in ddr
    ensures p in ddr ==> Walk(stages, k, ddr).ddr[p] == ddr[p]
    decreases |stages| - k
  {
    if k < |stages| && !(Fails(stages, k)) {
      WalkLeaves(stages, k + 1, last, ddr[stages[k].plane := Written(stages[k], CursorAt(stages, k))], p);
    }
  }

  /**
   * Every stage the walk reaches writes its descriptor at the cursor of
   * that moment, and nothing later overwrites it; this includes the stage
   * that overflows, whose descriptor is not rolled back.
   */
  lemma {:induction false} WalkWrites(stages: seq<Stage>, k: nat, ddr: map<Plane, Addr>, j: nat)
    requires PlanesDistinct(stages)
    requires k <= j < |stages|
    requires forall i :: k <= i < j ==> !Fails(stages, i)
    ensures Lookup(Walk(stages, k, ddr).ddr, stages[j].plane) == Written(stages[j], CursorAt(stages, j))
    decreases |stages| - k
  {
    var ddr' := ddr[stages[k].plane := Written(stages[k], CursorAt(stages, k))];
    if k < j {
      WalkWrites(stages, k + 1, ddr', j);
    } else if !Fails(stages, k) {
      WalkLeaves(stages, k + 1, |stages| - 1, ddr', stages[k].plane);
    }
  }

  /**
   * When the planner succeeds, every plane it visits holds the descriptor
   * written at the cursor of its turn, a skipped plane holds zeros, and a
   * reserved plane starts on a multiple of 16 and its luma and chroma end
   * inside the slot.
   */
  lemma PlanSound(s: Settings, ddr: map<Plane, Addr>, k: nat)
    requires Shaped(s) && k < |Stages(s)|
    requires Walk(Stages(s), 0, ddr).ok
    ensures Lookup(Walk(Stages(s), 0, ddr).ddr, Stages(s)[k].plane) == Written(Stages(s)[k], CursorAt(Stages(s), k))
    ensures CursorAt(Stages(s), k) >= 0 && CursorAt(Stages(s), k) % 16 == 0
    ensures Stages(s)[k].Reserve? ==> CursorAt(Stages(s), k) + Span(Stages(s)[k]) < IPU_SLOT_SIZE
  {
    StagesDistinct(s);
    WalkSound(Stages(s), ddr, k);
  }

  lemma WalkSound(stages: seq<Stage>, ddr: map<Plane, Addr>, k: nat)
    requires PlanesDistinct(stages) && k < |stages|
    requires Walk(stages, 0, ddr).ok
    ensures Lookup(Walk(stages, 0, ddr).ddr, stages[k].plane) == Written(stages[k], CursorAt(stages, k))
    ensures CursorAt(stages, k) >= 0 && CursorAt(stages, k) % 16 == 0
    ensures stages[k].Reserve? ==> CursorAt(stages, k) + Span(stages[k]) < IPU_SLOT_SIZE
  {
    WalkOk(stages, 0, ddr);
    WalkWrites(stages, 0, ddr, k);
    CursorAligned(stages, k);
    NextCovers(stages[k], CursorAt(stages, k));
    assert !Fails(stages, k);
    assert CursorAt(stages, k + 1) == Next(stages[k], CursorAt(stages, k));
  }

  /**
   * When stage `f` is the first to overflow, the planner fails, stage `f`
   * keeps the descriptor it wrote, and the planes after it keep theirs.
   */
  lemma PlanOverflow(s: Settings, ddr: map<Plane, Addr>, f: nat, k: nat)
    requires Shaped(s) && f < k < |Stages(s)|
    requires Fails(Stages(s), f) && forall i :: 0 <= i < f ==> !Fails(Stages(s), i)
    ensures !Walk(Stages(s), 0, ddr).ok
    ensures Lookup(Walk(Stages(s), 0, ddr).ddr, Stages(s)[f].plane) == Written(Stages(s)[f], CursorAt(Stages(s), f))
    ensures Lookup(Walk(Stages(s), 0, ddr).ddr, Stages(s)[k].plane) == Lookup(ddr, Stages(s)[k].plane)
  {
    StagesDistinct(s);
    WalkStops(Stages(s), ddr, f, k);
  }

  lemma WalkStops(stages: seq<Stage>, ddr: map<Plane, Addr>, f: nat, k: nat)
    requires PlanesDistinct(stages) && f < k < |stages|
    requires Fails(stages, f) && forall i :: 0 <= i < f ==> !Fails(stages, i)
    ensures !Walk(stages, 0, ddr).ok
    ensures Lookup(Walk(stages, 0, ddr).ddr, stages[f].plane) == Written(stages[f], CursorAt(stages, f))
    ensures Lookup(Walk(stages, 0, ddr).ddr, stages[k].plane) == Lookup(ddr, stages[k].plane)
  {
    WalkOk(stages, 0, ddr);
    WalkWrites(stages, 0, ddr, f);
    WalkLeaves(stages, 0, f, ddr, stages[k].plane);
  }

  /** With `pymid_en != 1` no pyramid descriptor is touched. */
  lemma PyramidUntouched(s: Settings, ddr: map<Plane, Addr>, p: Plane)
    requires Shaped(s) && s.pymid.pymidEn != 1
    requires p.Ds? || p.Us?
    ensures Lookup(Walk(Stages(s), 0, ddr).ddr, p) == Lookup(ddr, p)
  {
    var st := Stages(s);
    assert st == HeadStages(s);
    WalkLeaves(st, 0, |st| - 1, ddr, p);
  }
}
