/**
 * `x2_ips.c`: the image-processing subsystem's register helpers.  They
 * read-modify-write single 32-bit registers of the subsystem (interrupt
 * mask, bus control, clock-gate control, status, MIPI frequency ranges),
 * dispatch the shared interrupt to the ISP, SIF and IPU handlers, and pulse
 * the subsystem's reset lines.
 *
 * The global `g_ipsdev` is the object `Ips`; its `probed` flag says whether
 * the global is non-null.  The spinlock only serialises the accesses, so each
 * helper is one atomic step.
 *
 * `x2/x2_ips.h` is not part of this model.  The interrupt numbers follow
 * from the source (the handler table has three entries and
 * `ips_register_irqhandle` accepts `SIF_INT..IPU_INT`); the register
 * offsets, bit masks and region numbers below are values chosen for the
 * model, and every property is stated in terms of the named constants.
 */
module Ips {
  import opened RegWindow
  import opened Optional

  /** Interrupt numbers: indexes into the handler table. */
  const SIF_INT: int := 0
  const ISP_INT: int := 1
  const IPU_INT: int := 2
  const IRQ_COUNT: nat := 3

  /** The modules' bits in `IPSINTMASK` and `IPSINTSTATE`. */
  const SIF_INT_BITS: bv32 := 0x1
  const ISP_INT_BITS: bv32 := 0x2
  const IPU_INT_BITS: bv32 := 0x4

  /** Register offsets. */
  const IPSINTSTATE: nat := 0x00
  const IPSINTMASK: nat := 0x04
  const IPSBUSCTL_WM0: nat := 0x10
  const IPSBUSCTL_RM0: nat := 0x50
  const IPS_CTL: nat := 0x80
  const IPS_STATUS: nat := 0x84
  const IPS_MIPI_FREQRANGE: nat := 0x8c

  /** `ips_busctl_*`: the register banks and the fields of a bus-control word. */
  const BUSCTL_WM: bv32 := 0
  const BUSCTL_RM: bv32 := 1
  const BUSCTL_WM_LAST: bv32 := 15
  const BUSCTL_RM_LAST: bv32 := 8
  const BUSCTL_REGION_PRI: bv32 := 0
  const BUSCTL_REGION_ENDIAN: bv32 := 1
  const BUSCTL_REGION_MAXLEN: bv32 := 2
  const BUSCTL_PRI_X: bv32 := 0x0000_000f
  const BUSCTLD_PRI_SHIFT_X: bv32 := 0
  const BUSCTL_ENDIAN_X: bv32 := 0x0000_00f0
  const BUSCTL_ENDIAN_SHIFT_X: bv32 := 4
  const BUSCTL_MAXLEN_X: bv32 := 0x0000_ff00
  const BUSCTL_MAXLEN_SHIFT_X: bv32 := 8

  /** `ips_control_*` and `ips_get_status`: the accepted bit numbers. */
  const MIPI_DEV_CFG_CLK_GATE_EN: bv32 := 8
  const ISP_CLK_GATE_EN: bv32 := 15
  const PYM_STATUS: bv32 := 2
  const SIF_STATUS: bv32 := 7

  /**
   * `ips_*_mipi_freqrange`: four regions of `IPS_MIPI_FREQRANGE`.  The getter
   * shifts them down by 24, 16, 8 and 0; the model gives each an 8-bit field
   * at that position.
   */
  const MIPI_DEV_CFGCLKFREQRANGE: bv32 := 0
  const MIPI_DEV_HSFREQRANGE: bv32 := 1
  const MIPI_HOST_CFGCLKFREQRANGE: bv32 := 2
  const MIPI_HOST_HSFREQRANGE: bv32 := 3
  const MIPI_DEV_CFGCLK_FRANGE: bv32 := 0xff00_0000
  const MIPI_DEV_HS_FRANGE: bv32 := 0x00ff_0000
  const MIPI_HOST_CFGCLK_FRANGE: bv32 := 0x0000_ff00
  const MIPI_HOST_HS_FRANGE: bv32 := 0x0000_00ff

  /** The number of reset lines (`RST_MAX`): mipi_ipi, mipi_cfg, sif, ipu, dvp, bt. */
  const RST_MAX: nat := 6

  /** The 32-bit pattern of the `int` -1 that the `u32`-valued getters return. */
  const MINUS_ONE: bv32 := 0xffff_ffff

  // ---------------------------------------------------------------------
  // Bit operations

  /** `w &= ~bits`: exactly the given bits become clear. */
  function ClearBits(w: bv32, bits: bv32): (r: bv32)
    ensures r & bits == 0
    ensures r & !bits == w & !bits
  {
    w & !bits
  }

  /** `w |= bits`: exactly the given bits become set. */
  function SetBits(w: bv32, bits: bv32): (r: bv32)
    ensures r & bits == bits
    ensures r & !bits == w & !bits
  {
    w | bits
  }

  /** `w &= ~mask; w |= v & mask`: the field under `mask` takes `v`'s bits. */
  function ReplaceField(w: bv32, mask: bv32, v: bv32): (r: bv32)
    ensures r & mask == v & mask
    ensures r & !mask == w & !mask
  {
    (w & !mask) | (v & mask)
  }

  /** Setting bits undoes clearing them, and clearing undoes setting, when the bits were so before. */
  lemma SetUndoesClear(w: bv32, bits: bv32)
    ensures w & bits == bits ==> SetBits(ClearBits(w, bits), bits) == w
    ensures w & bits == 0 ==> ClearBits(SetBits(w, bits), bits) == w
  {
  }

  // ---------------------------------------------------------------------
  // Interrupts

  /** `irq_to_regbit`. */
  function IrqToRegbit(irq: int): (r: bv32)
    ensures irq == SIF_INT ==> r == SIF_INT_BITS
    ensures irq == ISP_INT ==> r == ISP_INT_BITS
    ensures irq == IPU_INT ==> r == IPU_INT_BITS
    ensures r != 0 <==> SIF_INT <= irq <= IPU_INT
  {
    if irq == ISP_INT then ISP_INT_BITS
    else if irq == IPU_INT then IPU_INT_BITS
    else if irq == SIF_INT then SIF_INT_BITS
    else 0
  }

  /** Each module has its own bit: enabling one interrupt never touches another's bit. */
  lemma RegbitsDisjoint(a: int, b: int)
    requires SIF_INT <= a <= IPU_INT && SIF_INT <= b <= IPU_INT && a != b
    ensures IrqToRegbit(a) & IrqToRegbit(b) == 0
    ensures ClearBits(SetBits(0, IrqToRegbit(b)), IrqToRegbit(a)) == IrqToRegbit(b)
  {
  }

  /** A slot of the handler table: `irq_handle[i]` (0 for NULL) and `irq_data[i]`. */
  datatype Handler = Handler(handle: nat, data: nat)

  /** One call `irq_handle[irq](intstatus, irq_data[irq])` made by the interrupt handler. */
  datatype Call = Call(irq: int, status: bv32, data: nat)

  /** Whether `x2_ips_irq` calls the handler of `irq` for the status word `status`. */
  predicate Fires(status: bv32, handlers: seq<Handler>, irq: int)
    requires |handlers| == IRQ_COUNT && SIF_INT <= irq <= IPU_INT
  {
    status & IrqToRegbit(irq) != 0 && handlers[irq].handle != 0
  }

  /** The position of each module in the dispatch order ISP, SIF, IPU. */
  function Rank(irq: int): nat
  {
    if irq == ISP_INT then 0 else if irq == SIF_INT then 1 else 2
  }

  /** The calls one interrupt makes, in order. */
  function Dispatch(status: bv32, handlers: seq<Handler>): (calls: seq<Call>)
    requires |handlers| == IRQ_COUNT
    ensures forall c :: c in calls <==>
              SIF_INT <= c.irq <= IPU_INT && Fires(status, handlers, c.irq)
              && c == Call(c.irq, status, handlers[c.irq].data)
    ensures forall i, j :: 0 <= i < j < |calls| ==> Rank(calls[i].irq) < Rank(calls[j].irq)
  {
    (if Fires(status, handlers, ISP_INT) then [Call(ISP_INT, status, handlers[ISP_INT].data)] else [])
    + (if Fires(status, handlers, SIF_INT) then [Call(SIF_INT, status, handlers[SIF_INT].data)] else [])
    + (if Fires(status, handlers, IPU_INT) then [Call(IPU_INT, status, handlers[IPU_INT].data)] else [])
  }

  // ---------------------------------------------------------------------
  // Bus control

  /** The register `ips_busctl_*` reaches for a bank and an index, if any. */
  function BusctlAddr(busType: bv32, index: bv32): (r: Option<nat>)
    ensures r.Some? <==> (busType == BUSCTL_WM && index <= BUSCTL_WM_LAST)
                         || (busType == BUSCTL_RM && index <= BUSCTL_RM_LAST)
  {
    if busType == BUSCTL_WM then
      if index > BUSCTL_WM_LAST then None else Some(IPSBUSCTL_WM0 + 4 * (index as nat))
    else if busType == BUSCTL_RM then
      if index > BUSCTL_RM_LAST then None else Some(IPSBUSCTL_RM0 + 4 * (index as nat))
    else None
  }

  /** Different accepted (bank, index) pairs reach different registers, none of them a named one. */
  lemma BusctlAddrDistinct(t1: bv32, i1: bv32, t2: bv32, i2: bv32)
    requires BusctlAddr(t1, i1).Some? && BusctlAddr(t2, i2).Some?
    ensures BusctlAddr(t1, i1) == BusctlAddr(t2, i2) ==> t1 == t2 && i1 == i2
    ensures BusctlAddr(t1, i1).value !in {IPSINTSTATE, IPSINTMASK, IPS_CTL, IPS_STATUS, IPS_MIPI_FREQRANGE}
  {
    var a1, a2 := BusctlAddr(t1, i1).value, BusctlAddr(t2, i2).value;
    assert (i1 as nat) <= 15 && (i2 as nat) <= 15;
    if a1 == a2 {
      if t1 != t2 {
        assert false;
      }
      assert (i1 as nat) == (i2 as nat);
    }
  }

  /** The value `ips_busctl_set` writes back for `region`: a known region replaces its field. */
  function BusctlMerge(w: bv32, region: bv32, value: bv32): (r: bv32)
    ensures region == BUSCTL_REGION_PRI ==> r == ReplaceField(w, BUSCTL_PRI_X, value << BUSCTLD_PRI_SHIFT_X)
    ensures region == BUSCTL_REGION_ENDIAN ==> r == ReplaceField(w, BUSCTL_ENDIAN_X, value << BUSCTL_ENDIAN_SHIFT_X)
    ensures region == BUSCTL_REGION_MAXLEN ==> r == ReplaceField(w, BUSCTL_MAXLEN_X, value << BUSCTL_MAXLEN_SHIFT_X)
    ensures region > BUSCTL_REGION_MAXLEN ==> r == w
  {
    if region == BUSCTL_REGION_PRI then ReplaceField(w, BUSCTL_PRI_X, value << BUSCTLD_PRI_SHIFT_X)
    else if region == BUSCTL_REGION_ENDIAN then ReplaceField(w, BUSCTL_ENDIAN_X, value << BUSCTL_ENDIAN_SHIFT_X)
    else if region == BUSCTL_REGION_MAXLEN then ReplaceField(w, BUSCTL_MAXLEN_X, value << BUSCTL_MAXLEN_SHIFT_X)
    else w
  }

  /** The value `ips_busctl_get` returns for `region` of the word `w`. */
  function BusctlField(w: bv32, region: bv32): bv32
  {
    if region == BUSCTL_REGION_PRI then (w & BUSCTL_PRI_X) >> BUSCTLD_PRI_SHIFT_X
    else if region == BUSCTL_REGION_ENDIAN then (w & BUSCTL_ENDIAN_X) >> BUSCTL_ENDIAN_SHIFT_X
    else if region == BUSCTL_REGION_MAXLEN then (w & BUSCTL_MAXLEN_X) >> BUSCTL_MAXLEN_SHIFT_X
    else MINUS_ONE
  }

  /**
   * Reading back a bus-control field returns the value written, cut to the
   * field's width, and leaves the other two fields as they were.
   */
  lemma BusctlRoundTrip(w: bv32, region: bv32, other: bv32, value: bv32)
    requires region <= BUSCTL_REGION_MAXLEN && other <= BUSCTL_REGION_MAXLEN && other != region
    ensures region == BUSCTL_REGION_PRI ==> BusctlField(BusctlMerge(w, region, value), region) == value & 0xf
    ensures region == BUSCTL_REGION_ENDIAN ==> BusctlField(BusctlMerge(w, region, value), region) == value & 0xf
    ensures region == BUSCTL_REGION_MAXLEN ==> BusctlField(BusctlMerge(w, region, value), region) == value & 0xff
    ensures BusctlField(BusctlMerge(w, region, value), other) == BusctlField(w, other)
  {
  }

  // ---------------------------------------------------------------------
  // Clock-gate control and status bits

  /** `0x1 << region` for a bit number below 32. */
  function Bit(region: bv32): (r: bv32)
    requires region < 32
    ensures r != 0
  {
    1 << region
  }

  /** Different bit numbers give disjoint bits. */
  lemma BitsDisjoint(a: bv32, b: bv32)
    requires a < 32 && b < 32 && a != b
    ensures Bit(a) & Bit(b) == 0
  {
  }

  /** The 0 or 1 the control and status getters return for bit `region` of `w`. */
  function TestBit(w: bv32, region: bv32): (r: int)
    requires region < 32
    ensures r == 0 || r == 1
    ensures r == 1 <==> w & Bit(region) != 0
  {
    if w & Bit(region) != 0 then 1 else 0
  }

  /** The word `ips_control_set` writes: bit `region` set for a non-zero `state`, else cleared. */
  function ControlUpdate(w: bv32, region: bv32, state: bv32): bv32
    requires region < 32
  {
    if state != 0 then SetBits(w, Bit(region)) else ClearBits(w, Bit(region))
  }

  /** `ips_control_get` after `ips_control_set` of the same bit reads back whether `state` was non-zero. */
  lemma ControlReadsBack(w: bv32, region: bv32, state: bv32)
    requires region < 32
    ensures TestBit(ControlUpdate(w, region, state), region) == if state != 0 then 1 else 0
  {
  }

  /** `ips_control_set` of one bit leaves every other bit reading as before. */
  lemma ControlKeepsOther(w: bv32, region: bv32, state: bv32, other: bv32)
    requires region < 32 && other < 32 && other != region
    ensures TestBit(ControlUpdate(w, region, state), other) == TestBit(w, other)
  {
    BitsDisjoint(region, other);
    OtherBit(w, Bit(region), Bit(other), state);
  }

  /** Setting or clearing the bits `b` keeps any bits `o` disjoint from them. */
  lemma OtherBit(w: bv32, b: bv32, o: bv32, state: bv32)
    requires o & b == 0
    ensures (if state != 0 then SetBits(w, b) else ClearBits(w, b)) & o == w & o
  {
  }

  // ---------------------------------------------------------------------
  // MIPI frequency ranges

  /** The value `ips_get_mipi_freqrange` returns for `region` of `w`. */
  function FreqrangeField(w: bv32, region: bv32): bv32
  {
    if region == MIPI_DEV_CFGCLKFREQRANGE then (w & MIPI_DEV_CFGCLK_FRANGE) >> 24
    else if region == MIPI_DEV_HSFREQRANGE then (w & MIPI_DEV_HS_FRANGE) >> 16
    else if region == MIPI_HOST_CFGCLKFREQRANGE then (w & MIPI_HOST_CFGCLK_FRANGE) >> 8
    else if region == MIPI_HOST_HSFREQRANGE then (w & MIPI_HOST_HS_FRANGE) >> 0
    else MINUS_ONE
  }

  /** The value `ips_set_mipi_freqrange` computes, as written: the device HS range is shifted by 24. */
  function FreqrangeMergeAsWritten(w: bv32, region: bv32, value: bv32): bv32
  {
    if region == MIPI_DEV_CFGCLKFREQRANGE then ReplaceField(w, MIPI_DEV_CFGCLK_FRANGE, value << 24)
    else if region == MIPI_DEV_HSFREQRANGE then ReplaceField(w, MIPI_DEV_HS_FRANGE, value << 24)
    else if region == MIPI_HOST_CFGCLKFREQRANGE then ReplaceField(w, MIPI_HOST_CFGCLK_FRANGE, value << 8)
    else if region == MIPI_HOST_HSFREQRANGE then ReplaceField(w, MIPI_HOST_HS_FRANGE, value << 0)
    else MINUS_ONE
  }

  /** As written, the device HS range always comes out 0, whatever value is set. */
  lemma DevHsRangeLost(w: bv32, value: bv32)
    ensures FreqrangeField(FreqrangeMergeAsWritten(w, MIPI_DEV_HSFREQRANGE, value), MIPI_DEV_HSFREQRANGE) == 0
  {
  }

  /** A value whose device HS range the as-written merge loses. */
  lemma DevHsRangeLostExample()
    ensures FreqrangeField(FreqrangeMergeAsWritten(0, MIPI_DEV_HSFREQRANGE, 0x12), MIPI_DEV_HSFREQRANGE) != 0x12
  {
    DevHsRangeLost(0, 0x12);
  }

  /** The merge with the device HS range at the position its getter reads (shift 16). */
  function FreqrangeMerge(w: bv32, region: bv32, value: bv32): bv32
  {
    if region == MIPI_DEV_CFGCLKFREQRANGE then ReplaceField(w, MIPI_DEV_CFGCLK_FRANGE, value << 24)
    else if region == MIPI_DEV_HSFREQRANGE then ReplaceField(w, MIPI_DEV_HS_FRANGE, value << 16)
    else if region == MIPI_HOST_CFGCLKFREQRANGE then ReplaceField(w, MIPI_HOST_CFGCLK_FRANGE, value << 8)
    else if region == MIPI_HOST_HSFREQRANGE then ReplaceField(w, MIPI_HOST_HS_FRANGE, value << 0)
    else MINUS_ONE
  }

  /**
   * With the corrected merge every region reads back the low 8 bits of the
   * value set, and the other regions keep theirs.
   */
  lemma FreqrangeRoundTrip(w: bv32, region: bv32, other: bv32, value: bv32)
    requires region <= MIPI_HOST_HSFREQRANGE && other <= MIPI_HOST_HSFREQRANGE && other != region
    ensures FreqrangeField(FreqrangeMerge(w, region, value), region) == value & 0xff
    ensures FreqrangeField(FreqrangeMerge(w, region, value), other) == FreqrangeField(w, other)
  {
  }

  // ---------------------------------------------------------------------
  // Reset lines

  /** `BIT(i)` for a reset line. */
  function LineBit(i: nat): (r: bv32)
    requires i < RST_MAX
    ensures r != 0
  {
    match i
    case 0 => 0x01
    case 1 => 0x02
    case 2 => 0x04
    case 3 => 0x08
    case 4 => 0x10
    case _ => 0x20
  }

  /** Which of the reset lines `ips_module_reset(lines)` selects: `BIT(i) & lines`. */
  function LineFlags(lines: bv32): (r: seq<bool>)
    ensures |r| == RST_MAX
    ensures forall i :: 0 <= i < RST_MAX ==> r[i] == (lines & LineBit(i) != 0)
  {
    seq(RST_MAX, i requires 0 <= i < RST_MAX => lines & LineBit(i) != 0)
  }

  /** The lines among `0..n-1` whose flag is set, in order. */
  function PulsedBelow(flags: seq<bool>, n: nat): seq<nat>
    requires n <= |flags|
  {
    if n == 0 then []
    else PulsedBelow(flags, n - 1) + (if flags[n - 1] then [n - 1] else [])
  }

  /** The pulses of one `ips_module_reset(lines)`. */
  function Pulsed(lines: bv32): seq<nat>
  {
    PulsedBelow(LineFlags(lines), RST_MAX)
  }

  /** Exactly the lines whose flag is set are pulsed. */
  lemma {:induction false} PulsedBelowExactly(flags: seq<bool>, n: nat)
    requires n <= |flags|
    ensures forall k: nat :: k in PulsedBelow(flags, n) <==> k < n && flags[k]
  {
    if n > 0 {
      PulsedBelowExactly(flags, n - 1);
      assert PulsedBelow(flags, n) == PulsedBelow(flags, n - 1) + (if flags[n - 1] then [n - 1] else []);
    }
  }

  /** Each line is pulsed at most once, lowest line first. */
  lemma {:induction false} PulsedBelowIncreasing(flags: seq<bool>, n: nat)
    requires n <= |flags|
    ensures forall i, j :: 0 <= i < j < |PulsedBelow(flags, n)| ==>
              PulsedBelow(flags, n)[i] < PulsedBelow(flags, n)[j]
  {
    if n > 0 {
      PulsedBelowIncreasing(flags, n - 1);
      PulsedBelowExactly(flags, n - 1);
      var prev := PulsedBelow(flags, n - 1);
      assert PulsedBelow(flags, n) == prev + (if flags[n - 1] then [n - 1] else []);
      forall i | 0 <= i < |prev|
        ensures prev[i] < n - 1
      {
        assert prev[i] in prev;
      }
    }
  }

  /**
   * `ips_module_reset(lines)` pulses exactly the lines whose bit is set in
   * `lines`, each once, lowest first.
   */
  lemma PulsedExactly(lines: bv32)
    ensures forall k: nat :: k in Pulsed(lines) <==> k < RST_MAX && lines & LineBit(k) != 0
    ensures forall i, j :: 0 <= i < j < |Pulsed(lines)| ==> Pulsed(lines)[i] < Pulsed(lines)[j]
  {
    PulsedBelowExactly(LineFlags(lines), RST_MAX);
    PulsedBelowIncreasing(LineFlags(lines), RST_MAX);
  }

  /** The object behind `g_ipsdev`. */
  class IpsDevice {
    /** Whether `g_ipsdev` is set (the probe ran). */
    var probed: bool
    /** The subsystem's registers, by offset. */
    var regs: Window
    /** `irq_handle` and `irq_data`. */
    var handlers: seq<Handler>
    /** `intstatus`: the status word while an interrupt is dispatched. */
    var intstatus: bv32
    /** The reset lines pulsed (asserted, then deasserted) so far, in order. */
    var resetPulses: seq<nat>

    ghost predicate Valid()
      reads this
    {
      |handlers| == IRQ_COUNT
    }

    constructor (probed: bool, regs: Window)
      ensures Valid() && this.probed == probed && this.regs == regs
      ensures handlers == [Handler(0, 0), Handler(0, 0), Handler(0, 0)]
      ensures intstatus == 0 && resetPulses == []
    {
      this.probed := probed;
      this.regs := regs;
      handlers := [Handler(0, 0), Handler(0, 0), Handler(0, 0)];
      intstatus := 0;
      resetPulses := [];
    }

    /** `ips_irq_enable`: clears exactly the module's bit in `IPSINTMASK`. */
    method IrqEnable(irq: int) returns (r: int)
      modifies this`regs
      ensures !probed ==> r == -1 && regs == old(regs)
      ensures probed ==> r == 0 && regs == StoreWord(old(regs), IPSINTMASK,
                                                     ClearBits(Word(old(regs), IPSINTMASK), IrqToRegbit(irq)))
    {
      if !probed {
        return -1;
      }
      regs := StoreWord(regs, IPSINTMASK, ClearBits(Word(regs, IPSINTMASK), IrqToRegbit(irq)));
      r := 0;
    }

    /** `ips_irq_disable`: sets exactly the module's bit in `IPSINTMASK`. */
    method IrqDisable(irq: int) returns (r: int)
      modifies this`regs
      ensures !probed ==> r == -1 && regs == old(regs)
      ensures probed ==> r == 0 && regs == StoreWord(old(regs), IPSINTMASK,
                                                     SetBits(Word(old(regs), IPSINTMASK), IrqToRegbit(irq)))
    {
      if !probed {
        return -1;
      }
      regs := StoreWord(regs, IPSINTMASK, SetBits(Word(regs, IPSINTMASK), IrqToRegbit(irq)));
      r := 0;
    }

    /** `ips_mask_int`: sets exactly the given bits in `IPSINTMASK`. */
    method MaskInt(mask: bv32) returns (r: int)
      modifies this`regs
      ensures !probed ==> r == -1 && regs == old(regs)
      ensures probed ==> r == 0 && regs == StoreWord(old(regs), IPSINTMASK, SetBits(Word(old(regs), IPSINTMASK), mask))
    {
      if !probed {
        return -1;
      }
      regs := StoreWord(regs, IPSINTMASK, SetBits(Word(regs, IPSINTMASK), mask));
      r := 0;
    }

    /** `ips_unmask_int`: clears exactly the given bits in `IPSINTMASK`. */
    method UnmaskInt(mask: bv32) returns (r: int)
      modifies this`regs
      ensures !probed ==> r == -1 && regs == old(regs)
      ensures probed ==> r == 0 && regs == StoreWord(old(regs), IPSINTMASK, ClearBits(Word(old(regs), IPSINTMASK), mask))
    {
      if !probed {
        return -1;
      }
      regs := StoreWord(regs, IPSINTMASK, ClearBits(Word(regs, IPSINTMASK), mask));
      r := 0;
    }

    /** `ips_register_irqhandle`: stores the handler and its data for an accepted irq. */
    method RegisterIrqhandle(irq: int, handle: nat, data: nat) returns (r: int)
      requires Valid()
      modifies this`handlers
      ensures Valid()
      ensures r == 0 <==> probed && SIF_INT <= irq <= IPU_INT
      ensures r != 0 ==> r == -1 && handlers == old(handlers)
      ensures r == 0 ==> handlers == old(handlers)[irq := Handler(handle, data)]
    {
      if irq < SIF_INT || irq > IPU_INT || !probed {
        return -1;
      }
      handlers := handlers[irq := Handler(handle, data)];
      r := 0;
    }

    /** `ips_get_intstatus`. */
    method GetIntstatus() returns (r: bv32)
      ensures r == if probed then intstatus else 0
    {
      if !probed {
        return 0;
      }
      r := intstatus;
    }

    /**
     * `x2_ips_irq`: latches `IPSINTSTATE`, calls the registered handlers whose
     * bit is set in the order ISP, SIF, IPU, and clears `intstatus`.
     */
    method Irq() returns (calls: seq<Call>)
      requires Valid()
      modifies this`intstatus
      ensures calls == Dispatch(Word(regs, IPSINTSTATE), handlers)
      ensures intstatus == 0
    {
      intstatus := Word(regs, IPSINTSTATE);
      calls := [];
      if intstatus & ISP_INT_BITS != 0 && handlers[ISP_INT].handle != 0 {
        calls := calls + [Call(ISP_INT, intstatus, handlers[ISP_INT].data)];
      }
      if intstatus & SIF_INT_BITS != 0 && handlers[SIF_INT].handle != 0 {
        calls := calls + [Call(SIF_INT, intstatus, handlers[SIF_INT].data)];
      }
      if intstatus & IPU_INT_BITS != 0 && handlers[IPU_INT].handle != 0 {
        calls := calls + [Call(IPU_INT, intstatus, handlers[IPU_INT].data)];
      }
      intstatus := 0;
    }

    /**
     * `ips_busctl_set`: for an accepted bank and index, writes back the word
     * with the region's field replaced (an unknown region writes it back as
     * it was); otherwise -1 and nothing is written.
     */
    method BusctlSet(busType: bv32, index: bv32, region: bv32, value: bv32) returns (r: int)
      modifies this`regs
      ensures r == 0 <==> probed && BusctlAddr(busType, index).Some?
      ensures r != 0 ==> r == -1 && regs == old(regs)
      ensures r == 0 ==> var a := BusctlAddr(busType, index).value;
                         regs == StoreWord(old(regs), a, BusctlMerge(Word(old(regs), a), region, value))
    {
      if !probed {
        return -1;
      }
      var addr := BusctlAddr(busType, index);
      if addr.None? {
        return -1;
      }
      var val := Word(regs, addr.value);
      regs := StoreWord(regs, addr.value, BusctlMerge(val, region, value));
      r := 0;
    }

    /** `ips_busctl_get`: the region's field of the addressed word, or the pattern of -1. */
    method BusctlGet(busType: bv32, index: bv32, region: bv32) returns (r: bv32)
      ensures !probed || BusctlAddr(busType, index).None? ==> r == MINUS_ONE
      ensures probed && BusctlAddr(busType, index).Some? ==>
                r == BusctlField(Word(regs, BusctlAddr(busType, index).value), region)
    {
      if !probed {
        return MINUS_ONE;
      }
      var addr := BusctlAddr(busType, index);
      if addr.None? {
        return MINUS_ONE;
      }
      r := BusctlField(Word(regs, addr.value), region);
    }

    /** `ips_control_set`: sets or clears one clock-gate bit of `IPS_CTL`. */
    method ControlSet(region: bv32, state: bv32) returns (r: int)
      modifies this`regs
      ensures r == 0 <==> probed && MIPI_DEV_CFG_CLK_GATE_EN <= region <= ISP_CLK_GATE_EN
      ensures r != 0 ==> r == -1 && regs == old(regs)
      ensures r == 0 ==> regs == StoreWord(old(regs), IPS_CTL, ControlUpdate(Word(old(regs), IPS_CTL), region, state))
    {
      if !probed || region < MIPI_DEV_CFG_CLK_GATE_EN || region > ISP_CLK_GATE_EN {
        return -1;
      }
      regs := StoreWord(regs, IPS_CTL, ControlUpdate(Word(regs, IPS_CTL), region, state));
      r := 0;
    }

    /** `ips_control_get`: 1 if the clock-gate bit is set, 0 if clear, -1 out of range. */
    method ControlGet(region: bv32) returns (r: int)
      ensures r == -1 <==> !probed || region < MIPI_DEV_CFG_CLK_GATE_EN || region > ISP_CLK_GATE_EN
      ensures r != -1 ==> r == TestBit(Word(regs, IPS_CTL), region)
    {
      if !probed || region < MIPI_DEV_CFG_CLK_GATE_EN || region > ISP_CLK_GATE_EN {
        return -1;
      }
      r := TestBit(Word(regs, IPS_CTL), region);
    }

    /** `ips_get_status`: 1 if the status bit is set, 0 if clear, -1 out of range. */
    method GetStatus(region: bv32) returns (r: int)
      ensures r == -1 <==> !probed || region < PYM_STATUS || region > SIF_STATUS
      ensures r != -1 ==> r == TestBit(Word(regs, IPS_STATUS), region)
    {
      if !probed || region < PYM_STATUS || region > SIF_STATUS {
        return -1;
      }
      r := TestBit(Word(regs, IPS_STATUS), region);
    }

    /** `ips_get_mipi_freqrange`: the region's field, or the pattern of -1. */
    method GetMipiFreqrange(region: bv32) returns (r: bv32)
      ensures !probed ==> r == MINUS_ONE
      ensures probed ==> r == FreqrangeField(Word(regs, IPS_MIPI_FREQRANGE), region)
    {
      if !probed {
        return MINUS_ONE;
      }
      r := FreqrangeField(Word(regs, IPS_MIPI_FREQRANGE), region);
    }

    /**
     * `ips_set_mipi_freqrange` as written: it computes the merged word (with
     * the device HS range shifted by 24) and returns it, but never writes it.
     */
    method SetMipiFreqrangeAsWritten(region: bv32, value: bv32) returns (r: bv32)
      ensures !probed ==> r == MINUS_ONE
      ensures probed ==> r == FreqrangeMergeAsWritten(Word(regs, IPS_MIPI_FREQRANGE), region, value)
    {
      if !probed {
        return MINUS_ONE;
      }
      r := FreqrangeMergeAsWritten(Word(regs, IPS_MIPI_FREQRANGE), region, value);
    }

    /**
     * `ips_set_mipi_freqrange` as evidently intended: the merged word, with
     * the device HS range at shift 16, is written back for a known region.
     */
    method SetMipiFreqrange(region: bv32, value: bv32) returns (r: bv32)
      modifies this`regs
      ensures !probed ==> r == MINUS_ONE && regs == old(regs)
      ensures probed ==> r == FreqrangeMerge(Word(old(regs), IPS_MIPI_FREQRANGE), region, value)
      ensures probed && region <= MIPI_HOST_HSFREQRANGE ==> regs == StoreWord(old(regs), IPS_MIPI_FREQRANGE, r)
      ensures region > MIPI_HOST_HSFREQRANGE ==> regs == old(regs)
    {
      if !probed {
        return MINUS_ONE;
      }
      r := FreqrangeMerge(Word(regs, IPS_MIPI_FREQRANGE), region, value);
      if region <= MIPI_HOST_HSFREQRANGE {
        regs := StoreWord(regs, IPS_MIPI_FREQRANGE, r);
      }
    }

    /** `ips_module_reset`: pulses the reset lines whose bits are set, lowest first. */
    method ModuleReset(lines: bv32)
      requires probed
      modifies this`resetPulses
      ensures resetPulses == old(resetPulses) + Pulsed(lines)
    {
      ghost var flags := LineFlags(lines);
      var i := 0;
      while i < RST_MAX
        invariant i <= RST_MAX
        invariant resetPulses == old(resetPulses) + PulsedBelow(flags, i)
      {
        assert flags[i] == (lines & LineBit(i) != 0);
        if lines & LineBit(i) != 0 {
          resetPulses := resetPulses + [i];
        }
        assert PulsedBelow(flags, i + 1) == PulsedBelow(flags, i) + (if flags[i] then [i] else []);
        i := i + 1;
      }
    }
  }
}
