/**
 * `dw_mmc-hobot.c`: the sample-phase tuning of the DesignWare MMC host on
 * the X2.  The sweep over 360 phases with its skip rule, the collection of
 * passing ranges, the wrap-around merge, the choice of the longest range and
 * of its middle phase; and the platform hooks that read the default phase
 * and halve the bus clock.
 *
 * `mmc_send_tuning` is an oracle: `pass[p]` is whether the tuning command
 * succeeds with the sample clock at phase `p`.  The sweep tests each phase at
 * most once, so one answer per phase is all it can observe.
 */
module MmcTuning {
  import opened Optional

  const EIO: int := 5
  const ENOMEM: int := 12

  const NUM_PHASES: nat := 360
  /** The size of the `ranges` allocation: `NUM_PHASES / 2 + 1`. */
  const RANGES_LEN: nat := NUM_PHASES / 2 + 1
  const X2_CLKGEN_DIV: nat := 2

  /** `DIV_ROUND_UP(n, d)`. */
  function DivRoundUp(n: nat, d: nat): nat
    requires d > 0
  {
    (n + d - 1) / d
  }

  /** The step after a failing phase: `DIV_ROUND_UP(20 * NUM_PHASES, 360)`. */
  const SKIP: nat := DivRoundUp(20 * NUM_PHASES, 360)

  /** `TUNING_ITERATION_TO_PHASE(i)`: with 360 phases an iteration is its own phase. */
  function IterationToPhase(i: nat): (r: nat)
    ensures r == i
  {
    assert i * 360 + 359 == 360 * i + 359;
    DivRoundUp(i * 360, NUM_PHASES)
  }

  // ---------------------------------------------------------------------
  // The phases the sweep tests

  /**
   * The iteration after `i`: the next phase after a pass or at the last
   * phase, 20 further on after a fail, but never past the last phase.
   */
  function NextIteration(i: nat, v: bool): (n: nat)
    requires i < NUM_PHASES
    ensures i < n <= NUM_PHASES
    ensures n == NUM_PHASES ==> i == NUM_PHASES - 1
  {
    if v then i + 1
    else if i == NUM_PHASES - 1 then i + 1
    else if i + SKIP >= NUM_PHASES then NUM_PHASES - 1
    else i + SKIP
  }

  /** The phases tested from iteration `i` on, in order. */
  function TestedFrom(pass: seq<bool>, i: nat): seq<nat>
    requires |pass| == NUM_PHASES && i <= NUM_PHASES
    decreases NUM_PHASES - i
  {
    if i == NUM_PHASES then [] else [i] + TestedFrom(pass, NextIteration(i, pass[i]))
  }

  /** The phases the sweep tests. */
  function Tested(pass: seq<bool>): seq<nat>
    requires |pass| == NUM_PHASES
  {
    TestedFrom(pass, 0)
  }

  /** Strictly increasing. */
  ghost predicate Increasing(t: seq<nat>)
  {
    forall a, b :: 0 <= a < b < |t| ==> t[a] < t[b]
  }

  /** From iteration `i` the sweep tests `i` first and the last phase last, and nothing below `i`. */
  lemma {:induction false} TestedFromEnds(pass: seq<bool>, i: nat)
    requires |pass| == NUM_PHASES && i < NUM_PHASES
    ensures var t := TestedFrom(pass, i);
      |t| > 0 && t[0] == i && t[|t| - 1] == NUM_PHASES - 1
      && forall j :: 0 <= j < |t| ==> i <= t[j] < NUM_PHASES
    decreases NUM_PHASES - i
  {
    var n := NextIteration(i, pass[i]);
    var t := TestedFrom(pass, i);
    if n == NUM_PHASES {
      assert TestedFrom(pass, n) == [];
      assert t == [i];
    } else {
      TestedFromEnds(pass, n);
      var rest := TestedFrom(pass, n);
      assert t == [i] + rest;
      assert forall j :: 0 < j < |t| ==> t[j] == rest[j - 1];
    }
  }

  /** From iteration `i` the sweep tests each phase at most once, in increasing order. */
  lemma {:induction false} TestedFromIncreasing(pass: seq<bool>, i: nat)
    requires |pass| == NUM_PHASES && i <= NUM_PHASES
    ensures Increasing(TestedFrom(pass, i))
    decreases NUM_PHASES - i
  {
    if i < NUM_PHASES {
      var n := NextIteration(i, pass[i]);
      TestedFromIncreasing(pass, n);
      var rest := TestedFrom(pass, n);
      if n < NUM_PHASES {
        TestedFromEnds(pass, n);
      } else {
        assert rest == [];
      }
      var t := TestedFrom(pass, i);
      assert t == [i] + rest;
      assert forall j :: 0 < j < |t| ==> t[j] == rest[j - 1] && i < t[j];
    }
  }

  /** The sweep starts at phase 0, always reaches the last phase, and never tests a phase twice. */
  lemma TestedShape(pass: seq<bool>)
    requires |pass| == NUM_PHASES
    ensures var t := Tested(pass);
      |t| > 0 && t[0] == 0 && t[|t| - 1] == NUM_PHASES - 1 && Increasing(t)
      && forall j :: 0 <= j < |t| ==> t[j] < NUM_PHASES
  {
    TestedFromEnds(pass, 0);
    TestedFromIncreasing(pass, 0);
  }

  /** No tested phase passes: the tuning gives up. */
  ghost predicate NoneTestedPasses(pass: seq<bool>)
    requires |pass| == NUM_PHASES
  {
    forall p :: p in Tested(pass) && p < NUM_PHASES ==> !pass[p]
  }

  /** Every phase passes. */
  ghost predicate AllPhasesPass(pass: seq<bool>)
  {
    forall p :: 0 <= p < |pass| ==> pass[p]
  }

  // ---------------------------------------------------------------------
  // Ranges of passing phases

  /** `struct range_t`: `start` to `end` inclusive, wrapping past the last phase when `start > end`. */
  datatype Range = Range(start: int, end: int)

  /** A run of consecutive passing phases. */
  ghost predicate RunPasses(pass: seq<bool>, r: Range)
    requires |pass| == NUM_PHASES
  {
    0 <= r.start <= r.end < NUM_PHASES && forall p :: r.start <= p <= r.end ==> pass[p]
  }

  /** A run that ended before iteration `i`: the phase after it was tested and failed. */
  ghost predicate Closed(pass: seq<bool>, r: Range, i: int)
    requires |pass| == NUM_PHASES
  {
    0 <= r.end && r.end + 1 < i && r.end + 1 < NUM_PHASES && !pass[r.end + 1]
  }

  /** Phase `p` lies in `r`, read around the circle of phases. */
  predicate Covers(r: Range, p: int)
  {
    if r.start <= r.end then r.start <= p <= r.end else r.start <= p || p <= r.end
  }

  /** A range, possibly wrapping, of passing phases. */
  ghost predicate CyclicRun(pass: seq<bool>, r: Range)
    requires |pass| == NUM_PHASES
  {
    InPhases(r) && forall p :: 0 <= p < NUM_PHASES && Covers(r, p) ==> pass[p]
  }

  /** The length the longest-range loop gives a range: a wrapping one counts around the circle. */
  function Len(r: Range): (len: int)
    ensures r.start <= r.end + 1 ==> len == r.end - r.start + 1
    ensures r.start > r.end + 1 ==> len == r.end - r.start + 1 + NUM_PHASES
  {
    var len := r.end - r.start + 1;
    if len < 0 then len + NUM_PHASES else len
  }

  /** The phase `dw_mci_x2_execute_tuning` settles on: half the range's length past its start. */
  function MiddlePhase(r: Range): (p: int)
    requires InPhases(r)
    ensures 0 <= p < NUM_PHASES
  {
    (r.start + Len(r) / 2) % NUM_PHASES
  }

  /** The middle phase of a range lies in the range: if every phase of it passes, so does the middle. */
  lemma MiddleCovered(pass: seq<bool>, r: Range)
    requires |pass| == NUM_PHASES && CyclicRun(pass, r)
    ensures Covers(r, MiddlePhase(r)) && pass[MiddlePhase(r)]
  {
    var raw := r.start + Len(r) / 2;
    if r.start <= r.end {
      assert raw <= r.end;
      assert MiddlePhase(r) == raw;
    } else if raw < NUM_PHASES {
      assert MiddlePhase(r) == raw;
    } else {
      assert raw <= r.end + NUM_PHASES;
      assert MiddlePhase(r) == raw - NUM_PHASES;
    }
  }

  /** Both ends of a range are phases. */
  predicate InPhases(r: Range)
  {
    0 <= r.start < NUM_PHASES && 0 <= r.end < NUM_PHASES
  }

  /**
   * The wrap-around merge: when several ranges were found and both phase 0
   * and the last phase passed, the last range is folded into the first,
   * which then starts where the last one started.
   */
  function Merged(rs: seq<Range>, firstV: bool, lastV: bool): (m: seq<Range>)
    requires |rs| >= 1
    ensures |rs| > 1 && firstV && lastV ==>
              |m| == |rs| - 1 && m[0] == Range(rs[|rs| - 1].start, rs[0].end) && m[1..] == rs[1..|rs| - 1]
    ensures !(|rs| > 1 && firstV && lastV) ==> m == rs
  {
    if |rs| > 1 && firstV && lastV then [rs[0].(start := rs[|rs| - 1].start)] + rs[1..|rs| - 1] else rs
  }

  /** The index of the first range of strictly greatest length. */
  function FirstLongest(rs: seq<Range>): (k: nat)
    requires |rs| >= 1
    ensures k < |rs|
    ensures forall j :: 0 <= j < |rs| ==> Len(rs[j]) <= Len(rs[k])
    ensures forall j :: 0 <= j < k ==> Len(rs[j]) < Len(rs[k])
  {
    if |rs| == 1 then 0
    else
      var k := FirstLongest(rs[..|rs| - 1]);
      if Len(rs[k]) < Len(rs[|rs| - 1]) then |rs| - 1 else k
  }

  /** The first longest range is the only range both properties single out. */
  lemma FirstLongestUnique(rs: seq<Range>, k: nat)
    requires k < |rs|
    requires forall j :: 0 <= j < |rs| ==> Len(rs[j]) <= Len(rs[k])
    requires forall j :: 0 <= j < k ==> Len(rs[j]) < Len(rs[k])
    ensures k == FirstLongest(rs)
  {
  }

  /**
   * The phase the tuning applies, given the ranges the sweep collected and
   * whether phases 0 and 359 passed: the middle of the first longest range
   * after the wrap-around merge.
   */
  function TunedPhase(rs: seq<Range>, firstV: bool, lastV: bool): (p: int)
    requires |rs| >= 1 && forall j :: 0 <= j < |rs| ==> InPhases(rs[j])
    ensures 0 <= p < NUM_PHASES
  {
    var m := Merged(rs, firstV, lastV);
    assert forall j :: 0 <= j < |m| ==> InPhases(m[j]) by {
      if |rs| > 1 && firstV && lastV {
        forall j | 0 <= j < |m|
          ensures InPhases(m[j])
        {
          if j > 0 {
            assert m[j] == m[1..][j - 1] == rs[j];
          } else {
            assert InPhases(rs[0]) && InPhases(rs[|rs| - 1]);
          }
        }
      }
    }
    LongestMiddle(m)
  }

  /** The middle of the first longest range. */
  function LongestMiddle(rs: seq<Range>): (p: int)
    requires |rs| >= 1 && forall j :: 0 <= j < |rs| ==> InPhases(rs[j])
    ensures 0 <= p < NUM_PHASES
  {
    MiddlePhase(rs[FirstLongest(rs)])
  }

  // ---------------------------------------------------------------------
  // The tuning

  /**
   * What the sweep has collected before iteration `i`, given the result
   * `prevV` of the previous test: at most one range per two iterations;
   * every range a run of passing phases before `i`, the open one ending just
   * before `i`; the others each followed by a failing phase and by a gap to
   * the next range; a passing phase 0 opening the first range; and a single
   * range of everything so far when every phase passes.
   */
  ghost predicate Collected(pass: seq<bool>, rs: seq<Range>, count: nat, i: nat, prevV: bool)
    requires |pass| == NUM_PHASES
  {
    && count <= |rs|
    && 2 * count <= i + (if prevV then 1 else 0)
    && (prevV ==> count >= 1 && rs[count - 1].end == i - 1)
    && (forall k :: 0 <= k < count ==> RunPasses(pass, rs[k]) && rs[k].end < i)
    && (forall k :: 0 <= k < count - 1 ==> rs[k].end + 1 < rs[k + 1].start)
    && (forall k :: 0 <= k < count && (k < count - 1 || !prevV) ==> Closed(pass, rs[k], i))
    && (i > 0 && pass[0] ==> count >= 1 && rs[0].start == 0)
    && (AllPhasesPass(pass) && i > 0 ==> count == 1 && rs[0] == Range(0, i - 1))
  }

  /**
   * One pass of the sweep loop: test phase `i`, open a range at a pass
   * after a fail, extend the open range on a pass, and move to the next
   * iteration.  The collection keeps its shape, and a range is open after
   * the step exactly when phase `i` passed.
   */
  method SweepStep(pass: seq<bool>, ranges: array<Range>, count: nat, i: nat, prevV: bool)
    returns (count': nat, i': nat)
    requires |pass| == NUM_PHASES && ranges.Length == RANGES_LEN && i < NUM_PHASES
    requires i == 0 ==> !prevV
    requires Collected(pass, ranges[..], count, i, prevV)
    modifies ranges
    ensures i' == NextIteration(i, pass[i])
    ensures Collected(pass, ranges[..], count', i', pass[i])
    ensures count' == 0 <==> count == 0 && !pass[i]
    ensures count' < RANGES_LEN
  {
    count', i' := count, i;
    var v := pass[i];
    if v {
      count' := PassStep(pass, ranges, count, i, prevV);
      i' := i + 1;
    } else {
      FailKeeps(pass, ranges[..], count, i, prevV);
      if i == NUM_PHASES - 1 {
        i' := i + 1;
      } else {
        i' := i + SKIP;
        if i' >= NUM_PHASES {
          i' := NUM_PHASES - 1;
        }
      }
    }
  }

  /** A passing phase `i`: open a range after a fail, and make `i` the end of the open range. */
  method PassStep(pass: seq<bool>, ranges: array<Range>, count: nat, i: nat, prevV: bool)
    returns (count': nat)
    requires |pass| == NUM_PHASES && ranges.Length == RANGES_LEN && i < NUM_PHASES
    requires i == 0 ==> !prevV
    requires Collected(pass, ranges[..], count, i, prevV) && pass[i]
    modifies ranges
    ensures count' == (if prevV then count else count + 1)
    ensures Collected(pass, ranges[..], count', i + 1, true)
  {
    ghost var rs := ranges[..];
    if !prevV {
      OpenKeeps(pass, rs, count, i);
      count' := count + 1;
      ranges[count] := ranges[count].(start := i);
      ranges[count] := ranges[count].(end := i);
      assert ranges[..] == rs[count := Range(i, i)];
    } else {
      ExtendKeeps(pass, rs, count, i);
      count' := count;
      ranges[count - 1] := ranges[count - 1].(end := i);
      assert ranges[..] == rs[count - 1 := rs[count - 1].(end := i)];
    }
  }

  /** A pass after a fail opens a range of the one phase. */
  lemma OpenKeeps(pass: seq<bool>, rs: seq<Range>, count: nat, i: nat)
    requires |pass| == NUM_PHASES && |rs| == RANGES_LEN && i < NUM_PHASES
    requires Collected(pass, rs, count, i, false) && pass[i]
    ensures count < RANGES_LEN
    ensures Collected(pass, rs[count := Range(i, i)], count + 1, i + 1, true)
  {
    var rs' := rs[count := Range(i, i)];
    assert forall k :: 0 <= k < count ==> rs'[k] == rs[k];
    if AllPhasesPass(pass) {
      assert i == 0;
    }
  }

  /** A pass after a pass extends the open range by one phase. */
  lemma ExtendKeeps(pass: seq<bool>, rs: seq<Range>, count: nat, i: nat)
    requires |pass| == NUM_PHASES && |rs| == RANGES_LEN && i < NUM_PHASES
    requires Collected(pass, rs, count, i, true) && pass[i]
    ensures count >= 1
    ensures Collected(pass, rs[count - 1 := rs[count - 1].(end := i)], count, i + 1, true)
  {
    var rs' := rs[count - 1 := rs[count - 1].(end := i)];
    assert forall k :: 0 <= k < count - 1 ==> rs'[k] == rs[k];
    assert RunPasses(pass, rs'[count - 1]);
  }

  /** A fail closes the open range, if any, and moves past the failing phase. */
  lemma FailKeeps(pass: seq<bool>, rs: seq<Range>, count: nat, i: nat, prevV: bool)
    requires |pass| == NUM_PHASES && |rs| == RANGES_LEN && i < NUM_PHASES
    requires i == 0 ==> !prevV
    requires Collected(pass, rs, count, i, prevV) && !pass[i]
    ensures Collected(pass, rs, count, NextIteration(i, false), false)
  {
  }

  /**
   * The sweep of `dw_mci_x2_execute_tuning`.  It tests exactly the phases
   * `Tested(pass)`, leaving the clock at the last one, and collects at most
   * 180 ranges, so the 181-entry array never overflows.  Each range is a
   * run of passing phases that ends at the last phase or before a failing
   * one, and the ranges come in order with a gap between them.  There are
   * none exactly when no tested phase passes; when every phase passes there
   * is one, covering everything.  `firstV` and `lastV` are the results at
   * the first and last phase, and a passing first (last) phase begins the
   * first (ends the last) range.
   */
  method Sweep(pass: seq<bool>) returns (ranges: array<Range>, count: nat, firstV: bool, lastV: bool,
                                         applied: nat)
    requires |pass| == NUM_PHASES
    ensures fresh(ranges) && ranges.Length == RANGES_LEN && count < RANGES_LEN
    ensures applied == NUM_PHASES - 1
    ensures firstV == pass[0] && lastV == pass[NUM_PHASES - 1]
    ensures Collected(pass, ranges[..], count, NUM_PHASES, lastV)
    ensures count == 0 <==> NoneTestedPasses(pass)
  {
    ranges := new Range[RANGES_LEN];
    count := 0;
    firstV, lastV := false, false;
    applied := 0;
    var prevV := false;
    var i: nat := 0;
    ghost var done: seq<nat> := [];
    while i < NUM_PHASES
      invariant i <= NUM_PHASES && count < RANGES_LEN
      invariant done + TestedFrom(pass, i) == Tested(pass)
      invariant i == 0 <==> done == []
      invariant forall j :: 0 <= j < |done| ==> done[j] < i
      invariant done != [] ==> prevV == pass[done[|done| - 1]] && applied == done[|done| - 1]
      invariant i == 0 ==> !prevV
      invariant i > 0 ==> firstV == pass[0]
      invariant Collected(pass, ranges[..], count, i, prevV)
      invariant count == 0 <==> forall p :: p in done ==> !pass[p]
      decreases NUM_PHASES - i
    {
      applied := IterationToPhase(i);
      var v := pass[i];
      if i == 0 {
        firstV := v;
      }
      ghost var at := i;
      count, i := SweepStep(pass, ranges, count, i, prevV);
      prevV := v;
      assert TestedFrom(pass, at) == [at] + TestedFrom(pass, i);
      done := done + [at];
    }
    lastV := prevV;
    SweepEnds(pass, done, prevV, count == 0);
  }

  /**
   * Once the sweep has run out of phases it has tested exactly `Tested(pass)`:
   * the last test was at the last phase, and it has found nothing exactly
   * when no tested phase passes.
   */
  lemma SweepEnds(pass: seq<bool>, done: seq<nat>, prevV: bool, none: bool)
    requires |pass| == NUM_PHASES
    requires done + TestedFrom(pass, NUM_PHASES) == Tested(pass)
    requires forall j :: 0 <= j < |done| ==> done[j] < NUM_PHASES
    requires done != [] ==> prevV == pass[done[|done| - 1]]
    requires none <==> forall p :: p in done ==> !pass[p]
    ensures done != [] && done[|done| - 1] == NUM_PHASES - 1
    ensures prevV == pass[NUM_PHASES - 1]
    ensures none <==> NoneTestedPasses(pass)
  {
    assert TestedFrom(pass, NUM_PHASES) == [];
    assert done == Tested(pass);
    TestedShape(pass);
  }

  /**
   * The longest-range loop: the first range of strictly greatest length
   * among the first `count`.
   */
  method LongestRange(ranges: array<Range>, count: nat) returns (longest: int, longestLen: int)
    requires 1 <= count <= ranges.Length
    requires forall k :: 0 <= k < count ==> InPhases(ranges[k])
    ensures 0 <= longest < count && longestLen == Len(ranges[longest])
    ensures forall k :: 0 <= k < count ==> Len(ranges[k]) <= longestLen
    ensures forall k :: 0 <= k < longest ==> Len(ranges[k]) < longestLen
  {
    longest, longestLen := -1, -1;
    var i := 0;
    while i < count
      invariant 0 <= i <= count
      invariant i == 0 ==> longest == -1 && longestLen == -1
      invariant i > 0 ==> 0 <= longest < i && longestLen == Len(ranges[longest])
      invariant forall k :: 0 <= k < i ==> Len(ranges[k]) <= longestLen
      invariant forall k :: 0 <= k < longest ==> Len(ranges[k]) < longestLen
    {
      var len := ranges[i].end - ranges[i].start + 1;
      if len < 0 {
        len := len + NUM_PHASES;
      }
      if longestLen < len {
        longestLen := len;
        longest := i;
      }
      i := i + 1;
    }
  }

  /**
   * `dw_mci_x2_execute_tuning`.  `sampleClkOk` is whether the sample clock
   * exists and `allocOk` whether the range array is allocated; `applied` is
   * the phase the sample clock is left at, if any was set.  Without the
   * clock the result is -EIO and without the array -ENOMEM, both before any
   * phase is tried.  Otherwise the result is -EIO exactly when no tested
   * phase passes, leaving the clock at the last phase; when every phase
   * passes the default phase is applied; and otherwise the clock is left at
   * a phase that passed.
   */
  method ExecuteTuning(sampleClkOk: bool, allocOk: bool, pass: seq<bool>, defaultPhase: int)
    returns (ret: int, applied: Option<int>)
    requires |pass| == NUM_PHASES
    ensures !sampleClkOk ==> ret == -EIO && applied == None
    ensures sampleClkOk && !allocOk ==> ret == -ENOMEM && applied == None
    ensures sampleClkOk && allocOk ==>
              && (ret == 0 || ret == -EIO)
              && (ret == -EIO <==> NoneTestedPasses(pass))
              && (ret == -EIO ==> applied == Some(NUM_PHASES - 1))
              && (ret == 0 && AllPhasesPass(pass) ==> applied == Some(defaultPhase))
              && (ret == 0 && !AllPhasesPass(pass) ==>
                    applied.Some? && 0 <= applied.value < NUM_PHASES && pass[applied.value])
              && (ret == 0 && !AllPhasesPass(pass) ==>
                    exists rs: seq<Range>, count: nat ::
                      && 1 <= count <= |rs|
                      && Collected(pass, rs, count, NUM_PHASES, pass[NUM_PHASES - 1])
                      && applied == Some(TunedPhase(rs[..count], pass[0], pass[NUM_PHASES - 1])))
  {
    if !sampleClkOk {
      return -EIO, None;
    }
    if !allocOk {
      return -ENOMEM, None;
    }
    var ranges, count, firstV, lastV, last := Sweep(pass);
    applied := Some(last);
    if count == 0 {
      return -EIO, applied;
    }
    ghost var swept := ranges[..];
    var phase := SelectPhase(pass, ranges, count, firstV, lastV, defaultPhase);
    assert Collected(pass, swept, count, NUM_PHASES, pass[NUM_PHASES - 1]);
    return 0, Some(phase);
  }

  /**
   * The part of `dw_mci_x2_execute_tuning` after a sweep that found
   * passing phases: merge the last range into the first when both ends of
   * the circle pass, keep the default phase when the first range covers every
   * phase, and otherwise take the middle of the first longest range, which
   * passes.
   */
  method SelectPhase(pass: seq<bool>, ranges: array<Range>, count: nat, firstV: bool, lastV: bool,
                     defaultPhase: int)
    returns (phase: int)
    requires |pass| == NUM_PHASES && ranges.Length == RANGES_LEN && 1 <= count < RANGES_LEN
    requires firstV == pass[0] && lastV == pass[NUM_PHASES - 1]
    requires Collected(pass, ranges[..], count, NUM_PHASES, lastV)
    modifies ranges
    ensures AllPhasesPass(pass) ==> phase == defaultPhase
    ensures !AllPhasesPass(pass) ==> phase == TunedPhase(old(ranges[..count]), firstV, lastV)
    ensures !AllPhasesPass(pass) ==> 0 <= phase < NUM_PHASES && pass[phase]
  {
    var n := MergeEnds(pass, ranges, count, firstV, lastV);
    phase := ChooseMiddle(pass, ranges, n, defaultPhase);
  }

  /**
   * The choice after the merge: the default phase when the first range
   * covers every phase, which happens only when every phase passes, and
   * otherwise the middle of the first longest range, which passes.
   */
  method ChooseMiddle(pass: seq<bool>, ranges: array<Range>, n: nat, defaultPhase: int) returns (phase: int)
    requires |pass| == NUM_PHASES && 1 <= n <= ranges.Length
    requires forall k :: 0 <= k < n ==> CyclicRun(pass, ranges[k])
    ensures forall k :: 0 <= k < n ==> InPhases(ranges[k])
    ensures ranges[0] == Range(0, NUM_PHASES - 1) ==> phase == defaultPhase && AllPhasesPass(pass)
    ensures ranges[0] != Range(0, NUM_PHASES - 1) ==>
              phase == LongestMiddle(ranges[..n]) && pass[phase]
  {
    if ranges[0].start == 0 && ranges[0].end == NUM_PHASES - 1 {
      assert AllPhasesPass(pass) by {
        assert forall p :: 0 <= p < NUM_PHASES ==> Covers(ranges[0], p);
      }
      return defaultPhase;
    }
    var longest, longestLen := LongestRange(ranges, n);
    FirstLongestUnique(ranges[..n], longest);
    var middle := (ranges[longest].start + longestLen / 2) % NUM_PHASES;
    MiddleCovered(pass, ranges[longest]);
    phase := IterationToPhase(middle);
  }

  /**
   * The wrap-around merge in place: when several ranges were found and both
   * ends of the circle pass, the first range takes the last one's start and
   * the count drops by one.  Every range left is a passing run.
   */
  method MergeEnds(pass: seq<bool>, ranges: array<Range>, count: nat, firstV: bool, lastV: bool)
    returns (n: nat)
    requires |pass| == NUM_PHASES && ranges.Length == RANGES_LEN && 1 <= count < RANGES_LEN
    requires firstV == pass[0] && lastV == pass[NUM_PHASES - 1]
    requires Collected(pass, ranges[..], count, NUM_PHASES, lastV)
    modifies ranges
    ensures 1 <= n <= count
    ensures ranges[..n] == Merged(old(ranges[..count]), firstV, lastV)
    ensures forall k :: 0 <= k < n ==> CyclicRun(pass, ranges[k])
    ensures AllPhasesPass(pass) ==> ranges[0] == Range(0, NUM_PHASES - 1)
  {
    n := count;
    forall k | 0 <= k < n
      ensures CyclicRun(pass, ranges[k])
    {
      assert RunPasses(pass, ranges[k]);
    }
    if n > 1 && firstV && lastV {
      // Wrap-around: the last range continues into the first.
      MergedRun(pass, ranges[0], ranges[n - 1]);
      ranges[0] := ranges[0].(start := ranges[n - 1].start);
      n := n - 1;
    }
  }

  /** The first range starting at phase 0 and the last ending at the last phase form one wrapping run. */
  lemma MergedRun(pass: seq<bool>, first: Range, last: Range)
    requires |pass| == NUM_PHASES
    requires RunPasses(pass, first) && RunPasses(pass, last)
    requires first.start == 0 && last.end == NUM_PHASES - 1 && first.end + 1 < last.start
    ensures CyclicRun(pass, Range(last.start, first.end))
  {
  }

  // ---------------------------------------------------------------------
  // Platform hooks

  /** `struct dw_mci_hobot_priv_data`: which clocks exist, and the default sample phase. */
  datatype PrivData = PrivData(drvClkOk: bool, sampleClkOk: bool, defaultSamplePhase: int)

  /** A `u32` stored into an `int` (two's complement). */
  function U32ToInt(v: nat): int
    requires v < 0x1_0000_0000
  {
    if v >= 0x8000_0000 then v - 0x1_0000_0000 else v
  }

  /**
   * `dw_mci_x2_parse_dt`: -ENOMEM when the private data cannot be
   * allocated; otherwise 0, with the default sample phase read from the
   * device tree (a `u32` stored into an `int`) or 0 when absent.  Missing
   * clocks are recorded, not refused.
   */
  function ParseDt(allocOk: bool, phaseProperty: Option<nat>, drvClkOk: bool, sampleClkOk: bool)
    : (r: (int, Option<PrivData>))
    requires phaseProperty.Some? ==> phaseProperty.value < 0x1_0000_0000
    ensures r.0 == 0 <==> allocOk
    ensures r.0 != 0 ==> r.0 == -ENOMEM && r.1 == None
    ensures r.0 == 0 ==> r.1.Some? && r.1.value.sampleClkOk == sampleClkOk && r.1.value.drvClkOk == drvClkOk
    ensures r.0 == 0 && phaseProperty == None ==> r.1.value.defaultSamplePhase == 0
    ensures r.0 == 0 && phaseProperty.Some? && phaseProperty.value < 0x8000_0000 ==>
              r.1.value.defaultSamplePhase == phaseProperty.value
  {
    if !allocOk then (-ENOMEM, None)
    else
      var phase := if phaseProperty.Some? then U32ToInt(phaseProperty.value) else 0;
      (0, Some(PrivData(drvClkOk, sampleClkOk, phase)))
  }

  /**
   * `dw_mci_hobot_init`: the bus clock halved (rounding down) for the X2
   * compatible, unchanged otherwise; it always succeeds.
   */
  function HobotInit(busHz: nat, isX2: bool): (r: nat)
    ensures isX2 ==> X2_CLKGEN_DIV * r <= busHz < X2_CLKGEN_DIV * r + X2_CLKGEN_DIV
    ensures !isX2 ==> r == busHz
  {
    if isX2 then busHz / X2_CLKGEN_DIV else busHz
  }
}
