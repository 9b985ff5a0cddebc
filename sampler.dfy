/** One sampling tick of `read_power` as a function of the slots, the
    settings and the MSR port: which counters it reads, the delta it computes
    against each slot's last value, the value it stores back, the readings it
    emits and the core-sum cross-check. The class in module Monitor runs this
    step by step on its `softc` array. */
module Sampler {
  import opened Outcomes
  import opened CpuId
  import opened Calibration
  import opened Slots

  /** One `struct softc`: the device handle and the last converted counter. */
  datatype Slot = Slot(fd: Handle, last: real)

  /** A reading `read_power` prints, before formatting: the package delta,
      the core-sum cross-check, the DRAM delta, or one core's delta; each
      already multiplied by `scale` (1 / interval). */
  datatype Reading = Pkg(watts: real) | CoreSum(watts: real) | Dram(watts: real) | Core(core: nat, watts: real)

  /** The MSR read port: the value of register `reg` on logical CPU `unit`,
      or None when the read fails. */
  type MsrPort = (nat, nat) -> Option<Msr64>

  /** What a tick depends on besides the slots: the configuration, the
      calibration units, the verbosity and the scale. */
  datatype Settings = Settings(cfg: Config, units: Units, verbose: nat, scale: real)

  /** The state of a tick in progress: the slots, the readings emitted so far
      and `core_sum`. */
  datatype Tick = Tick(slots: seq<Slot>, out: seq<Reading>, coreSum: real)

  /** `read_msr` through a handle; an unopened slot has no device to read. */
  function ReadHandle(h: Handle, reg: nat, msr: MsrPort): Option<Msr64> {
    match h
    case Closed => None
    case Open(u) => msr(u, reg)
  }

  /** The read a tick makes for a slot holding `fd`. */
  function SlotRead(s: Settings, msr: MsrPort, fd: Handle, slot: nat): Option<Msr64> {
    ReadHandle(fd, SlotRegister(s.cfg, slot), msr)
  }

  /** The converted counter (`watts` in the source): on AMD through
      `amd_add_power` and the division by 10^6, on Intel the package unit for
      the package slot and the DRAM unit for any other slot. */
  function Watts(s: Settings, slot: nat, data: Msr64): real {
    if s.cfg.cpu == AMD then AmdWatts(data, s.units.amdEnergyUnits)
    else IntelAddPower(data, if slot == s.cfg.cpuCount then s.units.energyUnits else s.units.dramUnits)
  }

  /** With the units calibration derives from the power-unit value `unitMsr`,
      every converted counter is the raw counter divided by 2^e: the AMD
      exponent on AMD, the Intel exponent for the Intel package slot, and 16
      for the Intel DRAM slot. No reading is negative. */
  lemma CalibratedWatts(s: Settings, slot: nat, data: Msr64, unitMsr: Msr64)
    requires s.units == UnitsFrom(s.cfg.cpu, unitMsr)
    ensures Watts(s, slot, data) == Raw(data) / (Pow2(
      if s.cfg.cpu == AMD then AmdEnergyUnits(unitMsr)
      else if slot == s.cfg.cpuCount then IntelEnergyUnits(unitMsr)
      else 16) as real)
    ensures Watts(s, slot, data) >= 0.0
  {
    if s.cfg.cpu == Intel {
      IntelJoules(data, unitMsr);
      Pow2Of16();
      NonNegativeQuotient(Raw(data), Pow2(if slot == s.cfg.cpuCount then IntelEnergyUnits(unitMsr) else 16) as real);
    }
  }

  /** Whether per-core lines and the core sum are printed. */
  predicate Detail(s: Settings) {
    s.verbose != 0 && s.units.amdEnergyUnits != 0
  }

  /** A delta as printed: multiplied by `scale`. */
  function Scaled(s: Settings, x: real): real {
    x * s.scale
  }

  /** What a visited slot prints once output is not suppressed. */
  function Emit(s: Settings, slot: nat, delta: real, coreSum: real): seq<Reading> {
    if slot == s.cfg.cpuCount then
      [Pkg(Scaled(s, delta))] + (if Detail(s) then [CoreSum(Scaled(s, coreSum))] else [])
    else if s.verbose != 0 && slot == s.cfg.cpuCount + 1 then
      [Dram(Scaled(s, delta))]
    else if Detail(s) then
      [Core(slot, Scaled(s, delta))]
    else
      []
  }

  /** Output and the core sum are skipped on the first tick unless the
      verbosity is at least 2. */
  predicate Suppressed(s: Settings, first: bool) {
    first && s.verbose < 2
  }

  /** The body of the sampling loop for one slot whose read gave `data`. */
  function Step(s: Settings, first: bool, slot: nat, data: Msr64, t: Tick): Tick
    requires slot < |t.slots|
  {
    var watts := Watts(s, slot, data);
    var delta := watts - t.slots[slot].last;
    var slots := t.slots[slot := t.slots[slot].(last := watts)];
    if Suppressed(s, first) then Tick(slots, t.out, t.coreSum)
    else Tick(slots, t.out + Emit(s, slot, delta, t.coreSum), t.coreSum + delta)
  }

  /** The sampling loop over the slots lo .. hi-1; a failed read ends the
      program. */
  function Run(s: Settings, first: bool, msr: MsrPort, lo: nat, hi: nat, t: Tick): Result<Tick>
    requires lo <= hi <= |t.slots|
    decreases hi - lo
  {
    if lo == hi then Success(t)
    else
      match SlotRead(s, msr, t.slots[lo].fd, lo)
      case None => Failure(ReadFailed(SlotRegister(s.cfg, lo)))
      case Some(data) => Run(s, first, msr, lo + 1, hi, Step(s, first, lo, data, t))
  }

  /** One whole tick from the slots before it. */
  function Sample(s: Settings, first: bool, msr: MsrPort, slots: seq<Slot>): Result<Tick>
    requires EndSlot(s.cfg, s.verbose) <= |slots|
  {
    Run(s, first, msr, FirstSlot(s.cfg, s.verbose), EndSlot(s.cfg, s.verbose), Tick(slots, [], 0.0))
  }

  // ---------------------------------------------------------------------
  // What a tick does to the slots

  /** The value the tick stores into a visited slot. */
  function NewLast(s: Settings, msr: MsrPort, slots: seq<Slot>, i: nat): real
    requires i < |slots| && SlotRead(s, msr, slots[i].fd, i).Some?
  {
    Watts(s, i, SlotRead(s, msr, slots[i].fd, i).value)
  }

  /** A visited slot's delta: its new value minus the last one. */
  function Delta(s: Settings, msr: MsrPort, slots: seq<Slot>, i: nat): real
    requires i < |slots| && SlotRead(s, msr, slots[i].fd, i).Some?
  {
    NewLast(s, msr, slots, i) - slots[i].last
  }

  /** All reads of the slots lo .. hi-1 succeed. */
  ghost predicate ReadsSucceed(s: Settings, msr: MsrPort, slots: seq<Slot>, lo: nat, hi: nat)
    requires hi <= |slots|
  {
    forall i :: lo <= i < hi ==> SlotRead(s, msr, slots[i].fd, i).Some?
  }

  /** The loop succeeds exactly when every read succeeds; it keeps every
      handle, stores the new value into each visited slot and leaves every
      other slot as it was. */
  lemma {:induction false} RunFrame(s: Settings, first: bool, msr: MsrPort, lo: nat, hi: nat, t: Tick)
    requires lo <= hi <= |t.slots|
    ensures Run(s, first, msr, lo, hi, t).Success? <==> ReadsSucceed(s, msr, t.slots, lo, hi)
    ensures Run(s, first, msr, lo, hi, t).Success? ==>
      var t' := Run(s, first, msr, lo, hi, t).value;
      && |t'.slots| == |t.slots|
      && (forall i :: 0 <= i < |t.slots| ==> t'.slots[i].fd == t.slots[i].fd)
      && (forall i :: 0 <= i < |t.slots| && !(lo <= i < hi) ==> t'.slots[i] == t.slots[i])
      && (forall i :: lo <= i < hi ==> t'.slots[i].last == NewLast(s, msr, t.slots, i))
    decreases hi - lo
  {
    if lo < hi {
      match SlotRead(s, msr, t.slots[lo].fd, lo)
      case None =>
      case Some(data) =>
        var u := Step(s, first, lo, data, t);
        RunFrame(s, first, msr, lo + 1, hi, u);
        assert forall i :: 0 <= i < |t.slots| ==> u.slots[i].fd == t.slots[i].fd;
        assert ReadsSucceed(s, msr, u.slots, lo + 1, hi) <==> ReadsSucceed(s, msr, t.slots, lo + 1, hi);
        if Run(s, first, msr, lo + 1, hi, u).Success? {
          forall i | lo + 1 <= i < hi
            ensures Run(s, first, msr, lo, hi, t).value.slots[i].last == NewLast(s, msr, t.slots, i)
          {
            assert u.slots[i] == t.slots[i];
          }
        }
    }
  }

  /** On a suppressed tick nothing is emitted and the core sum stays zero. */
  lemma {:induction false} RunSuppressed(s: Settings, first: bool, msr: MsrPort, lo: nat, hi: nat, t: Tick)
    requires lo <= hi <= |t.slots|
    requires Suppressed(s, first)
    requires Run(s, first, msr, lo, hi, t).Success?
    ensures Run(s, first, msr, lo, hi, t).value.out == t.out
    ensures Run(s, first, msr, lo, hi, t).value.coreSum == t.coreSum
    decreases hi - lo
  {
    if lo < hi {
      var data := SlotRead(s, msr, t.slots[lo].fd, lo).value;
      RunSuppressed(s, first, msr, lo + 1, hi, Step(s, first, lo, data, t));
    }
  }

  /** Running lo .. mid and then mid .. hi is running lo .. hi. */
  lemma {:induction false} RunSplit(s: Settings, first: bool, msr: MsrPort, lo: nat, mid: nat, hi: nat, t: Tick)
    requires lo <= mid <= hi <= |t.slots|
    ensures Run(s, first, msr, lo, hi, t) ==
      match Run(s, first, msr, lo, mid, t)
      case Success(u) => (RunFrame(s, first, msr, lo, mid, t); Run(s, first, msr, mid, hi, u))
      case Failure(e) => Failure(e)
    decreases mid - lo
  {
    if lo < mid {
      match SlotRead(s, msr, t.slots[lo].fd, lo)
      case None =>
      case Some(data) =>
        RunSplit(s, first, msr, lo + 1, mid, hi, Step(s, first, lo, data, t));
    }
  }

  /** What a core slot prints: its delta, when per-core detail is on. */
  function CoreLine(s: Settings, i: nat, delta: real): seq<Reading> {
    if Detail(s) then [Core(i, Scaled(s, delta))] else []
  }

  /** The per-core lines of the core slots lo .. hi-1, in slot order. */
  function CoreLines(s: Settings, msr: MsrPort, slots: seq<Slot>, lo: nat, hi: nat): seq<Reading>
    requires lo <= hi <= |slots| && ReadsSucceed(s, msr, slots, lo, hi)
    decreases hi - lo
  {
    if lo == hi then []
    else CoreLine(s, lo, Delta(s, msr, slots, lo)) + CoreLines(s, msr, slots, lo + 1, hi)
  }

  /** The sum of the deltas of the slots lo .. hi-1. */
  function SumDeltas(s: Settings, msr: MsrPort, slots: seq<Slot>, lo: nat, hi: nat): real
    requires lo <= hi <= |slots| && ReadsSucceed(s, msr, slots, lo, hi)
    decreases hi - lo
  {
    if lo == hi then 0.0
    else Delta(s, msr, slots, lo) + SumDeltas(s, msr, slots, lo + 1, hi)
  }

  lemma EmitCore(s: Settings, slot: nat, d: real, coreSum: real)
    requires slot < s.cfg.cpuCount
    ensures Emit(s, slot, d, coreSum) == CoreLine(s, slot, d)
  {
  }

  /** Over core slots a tick that is not suppressed appends each core's line
      and adds each core's delta to the core sum. */
  lemma {:induction false} RunCores(s: Settings, first: bool, msr: MsrPort, lo: nat, hi: nat, t: Tick, orig: seq<Slot>)
    requires lo <= hi <= s.cfg.cpuCount && hi <= |t.slots| == |orig|
    requires forall i :: lo <= i < hi ==> t.slots[i] == orig[i]
    requires !Suppressed(s, first)
    requires Run(s, first, msr, lo, hi, t).Success?
    ensures ReadsSucceed(s, msr, orig, lo, hi)
    ensures Run(s, first, msr, lo, hi, t).value.out == t.out + CoreLines(s, msr, orig, lo, hi)
    ensures Run(s, first, msr, lo, hi, t).value.coreSum == t.coreSum + SumDeltas(s, msr, orig, lo, hi)
    decreases hi - lo
  {
    if lo < hi {
      assert t.slots[lo] == orig[lo];
      var data := SlotRead(s, msr, orig[lo].fd, lo).value;
      var u := Step(s, first, lo, data, t);
      assert Run(s, first, msr, lo, hi, t) == Run(s, first, msr, lo + 1, hi, u);
      assert forall i :: lo + 1 <= i < hi ==> u.slots[i] == orig[i];
      RunCores(s, first, msr, lo + 1, hi, u, orig);
      var d := Delta(s, msr, orig, lo);
      assert Watts(s, lo, data) - t.slots[lo].last == d;
      EmitCore(s, lo, d, t.coreSum);
      assert u.out == t.out + CoreLine(s, lo, d) && u.coreSum == t.coreSum + d;
      assert (t.out + CoreLine(s, lo, d)) + CoreLines(s, msr, orig, lo + 1, hi)
          == t.out + (CoreLine(s, lo, d) + CoreLines(s, msr, orig, lo + 1, hi));
    }
  }

  /** Units as identification leaves them: only AMD sets the exponent. */
  ghost predicate UnitsFit(c: Config, u: Units) {
    c.cpu == Intel ==> u.amdEnergyUnits == 0
  }

  /** Without per-core detail no core line is printed. */
  lemma {:induction false} CoreLinesWithoutDetail(s: Settings, msr: MsrPort, slots: seq<Slot>, lo: nat, hi: nat)
    requires lo <= hi <= |slots| && ReadsSucceed(s, msr, slots, lo, hi)
    requires !Detail(s)
    ensures CoreLines(s, msr, slots, lo, hi) == []
    decreases hi - lo
  {
    if lo < hi {
      CoreLinesWithoutDetail(s, msr, slots, lo + 1, hi);
    }
  }

  /** The package slot prints its delta, and the core sum so far when per-core
      detail is on. */
  lemma PkgStep(s: Settings, first: bool, msr: MsrPort, t: Tick, orig: seq<Slot>, data: Msr64)
    requires s.cfg.cpuCount < |t.slots| == |orig| && t.slots[s.cfg.cpuCount] == orig[s.cfg.cpuCount]
    requires SlotRead(s, msr, orig[s.cfg.cpuCount].fd, s.cfg.cpuCount) == Some(data)
    requires !Suppressed(s, first)
    ensures Step(s, first, s.cfg.cpuCount, data, t).out ==
      t.out + [Pkg(Scaled(s, Delta(s, msr, orig, s.cfg.cpuCount)))]
            + (if Detail(s) then [CoreSum(Scaled(s, t.coreSum))] else [])
  {
    var n := s.cfg.cpuCount;
    var d := Delta(s, msr, orig, n);
    assert d == Watts(s, n, data) - t.slots[n].last;
    EmitPkg(s, d, t.coreSum);
  }

  lemma EmitPkg(s: Settings, d: real, coreSum: real)
    ensures Emit(s, s.cfg.cpuCount, d, coreSum) ==
      [Pkg(Scaled(s, d))] + (if Detail(s) then [CoreSum(Scaled(s, coreSum))] else [])
  {
  }

  lemma EmitDram(s: Settings, d: real, coreSum: real)
    requires s.verbose != 0
    ensures Emit(s, s.cfg.cpuCount + 1, d, coreSum) == [Dram(Scaled(s, d))]
  {
  }

  /** The DRAM slot prints its delta when verbose. */
  lemma DramStep(s: Settings, first: bool, msr: MsrPort, t: Tick, orig: seq<Slot>, data: Msr64)
    requires s.cfg.cpuCount + 1 < |t.slots| == |orig| && t.slots[s.cfg.cpuCount + 1] == orig[s.cfg.cpuCount + 1]
    requires SlotRead(s, msr, orig[s.cfg.cpuCount + 1].fd, s.cfg.cpuCount + 1) == Some(data)
    requires !Suppressed(s, first) && s.verbose != 0
    ensures Step(s, first, s.cfg.cpuCount + 1, data, t).out ==
      t.out + [Dram(Scaled(s, Delta(s, msr, orig, s.cfg.cpuCount + 1)))]
  {
    var n := s.cfg.cpuCount + 1;
    var d := Delta(s, msr, orig, n);
    assert d == Watts(s, n, data) - t.slots[n].last;
    EmitDram(s, d, t.coreSum);
  }


  /** The readings of a tick that is not suppressed, with each delta the
      slot's new value minus its last one:
      - not verbose: the package delta alone;
      - verbose on Intel: the package delta, then the DRAM delta;
      - verbose on AMD: one line per core (when the exponent is non-zero),
        the package delta, and the sum of the core deltas (when the exponent
        is non-zero). */
  lemma TickReadings(s: Settings, first: bool, msr: MsrPort, slots: seq<Slot>)
    requires WellFormed(s.cfg) && UnitsFit(s.cfg, s.units) && |slots| == SlotCount(s.cfg)
    requires !Suppressed(s, first)
    requires Sample(s, first, msr, slots).Success?
    ensures ReadsSucceed(s, msr, slots, FirstSlot(s.cfg, s.verbose), EndSlot(s.cfg, s.verbose))
    ensures
      var n := s.cfg.cpuCount;
      var out := Sample(s, first, msr, slots).value.out;
      var pkg := Pkg(Scaled(s, Delta(s, msr, slots, n)));
      && (s.verbose == 0 ==> out == [pkg])
      && (s.verbose != 0 && s.cfg.cpu == Intel ==>
            out == [pkg, Dram(Scaled(s, Delta(s, msr, slots, n + 1)))])
      && (s.verbose != 0 && s.cfg.cpu == AMD ==>
            out == CoreLines(s, msr, slots, 0, n) + [pkg]
                 + (if Detail(s) then [CoreSum(Scaled(s, SumDeltas(s, msr, slots, 0, n)))] else []))
  {
    var c := s.cfg;
    var n := c.cpuCount;
    var lo, hi := FirstSlot(c, s.verbose), EndSlot(c, s.verbose);
    TickCorePrefix(s, first, msr, slots);
    VisitedRange(c, s.verbose);
    var t1 := Run(s, first, msr, lo, n, Tick(slots, [], 0.0)).value;
    // ... then the package slot ...
    var data := SlotRead(s, msr, slots[n].fd, n).value;
    var t2 := Step(s, first, n, data, t1);
    PkgStep(s, first, msr, t1, slots, data);
    RunSplit(s, first, msr, n, n + 1, hi, t1);
    assert Run(s, first, msr, n, n + 1, t1) == Success(t2);
    // ... then, verbose on Intel, the DRAM slot.
    if hi == n + 2 {
      RunFrame(s, first, msr, n, n + 1, t1);
      var dram := SlotRead(s, msr, slots[n + 1].fd, n + 1).value;
      DramStep(s, first, msr, t2, slots, dram);
      assert Run(s, first, msr, n + 1, n + 2, t2) == Success(Step(s, first, n + 1, dram, t2));
    }
  }

  /** The first part of a tick: the core slots, visited only in verbose mode
      on AMD. It leaves the package and DRAM slots as they were, with the
      core lines emitted and the core deltas summed. */
  lemma TickCorePrefix(s: Settings, first: bool, msr: MsrPort, slots: seq<Slot>)
    requires WellFormed(s.cfg) && |slots| == SlotCount(s.cfg)
    requires !Suppressed(s, first)
    requires Sample(s, first, msr, slots).Success?
    ensures ReadsSucceed(s, msr, slots, FirstSlot(s.cfg, s.verbose), EndSlot(s.cfg, s.verbose))
    ensures
      var n, lo, hi := s.cfg.cpuCount, FirstSlot(s.cfg, s.verbose), EndSlot(s.cfg, s.verbose);
      var r := Run(s, first, msr, lo, n, Tick(slots, [], 0.0));
      && r.Success?
      && |r.value.slots| == |slots|
      && Sample(s, first, msr, slots) == Run(s, first, msr, n, hi, r.value)
      && r.value.slots[n] == slots[n] && r.value.slots[n + 1] == slots[n + 1]
      && r.value.out == (if lo == n then [] else CoreLines(s, msr, slots, 0, n))
      && r.value.coreSum == (if lo == n then 0.0 else SumDeltas(s, msr, slots, 0, n))
  {
    var c := s.cfg;
    var n := c.cpuCount;
    var lo, hi := FirstSlot(c, s.verbose), EndSlot(c, s.verbose);
    var t0 := Tick(slots, [], 0.0);
    RunFrame(s, first, msr, lo, hi, t0);
    VisitedRange(c, s.verbose);
    RunSplit(s, first, msr, lo, n, hi, t0);
    RunFrame(s, first, msr, lo, n, t0);
    RunCores(s, first, msr, lo, n, t0, slots);
  }

  /** On AMD in verbose mode with energy-unit exponent 0, neither the
      per-core lines nor the core sum are printed, although every core was
      read: a tick prints only the package delta. */
  lemma AmdTickWithoutExponent(s: Settings, first: bool, msr: MsrPort, slots: seq<Slot>)
    requires WellFormed(s.cfg) && |slots| == SlotCount(s.cfg)
    requires s.cfg.cpu == AMD && s.verbose != 0 && s.units.amdEnergyUnits == 0
    requires !Suppressed(s, first)
    requires Sample(s, first, msr, slots).Success?
    ensures ReadsSucceed(s, msr, slots, 0, s.cfg.cpuCount + 1)
    ensures Sample(s, first, msr, slots).value.out == [Pkg(Scaled(s, Delta(s, msr, slots, s.cfg.cpuCount)))]
  {
    VisitedRange(s.cfg, s.verbose);
    TickReadings(s, first, msr, slots);
    CoreLinesWithoutDetail(s, msr, slots, 0, s.cfg.cpuCount);
  }

  // ---------------------------------------------------------------------
  // Ticks in sequence

  /** What a whole tick does to the slots: every visited slot gets its new
      value, everything else (and every handle) stays. */
  lemma TickSlots(s: Settings, first: bool, msr: MsrPort, slots: seq<Slot>)
    requires EndSlot(s.cfg, s.verbose) <= |slots|
    requires Sample(s, first, msr, slots).Success?
    ensures var lo, hi, after := FirstSlot(s.cfg, s.verbose), EndSlot(s.cfg, s.verbose), Sample(s, first, msr, slots).value.slots;
      && ReadsSucceed(s, msr, slots, lo, hi)
      && |after| == |slots|
      && (forall i :: 0 <= i < |slots| ==> after[i].fd == slots[i].fd)
      && (forall i :: 0 <= i < |slots| && !(lo <= i < hi) ==> after[i] == slots[i])
      && (forall i :: lo <= i < hi ==> after[i].last == NewLast(s, msr, slots, i))
  {
    RunFrame(s, first, msr, FirstSlot(s.cfg, s.verbose), EndSlot(s.cfg, s.verbose), Tick(slots, [], 0.0));
  }

  /** A suppressed tick prints nothing. */
  lemma TickSuppressed(s: Settings, first: bool, msr: MsrPort, slots: seq<Slot>)
    requires EndSlot(s.cfg, s.verbose) <= |slots|
    requires Suppressed(s, first)
    requires Sample(s, first, msr, slots).Success?
    ensures Sample(s, first, msr, slots).value.out == []
  {
    RunSuppressed(s, first, msr, FirstSlot(s.cfg, s.verbose), EndSlot(s.cfg, s.verbose), Tick(slots, [], 0.0));
  }

  /** In the default (not verbose) mode the first tick prints nothing and the
      second prints the package counter's change between the two ticks'
      reads, both made on CPU 0. */
  lemma TwoTicks(s: Settings, msr1: MsrPort, msr2: MsrPort, slots: seq<Slot>)
    requires WellFormed(s.cfg) && UnitsFit(s.cfg, s.units) && |slots| == SlotCount(s.cfg)
    requires s.verbose == 0
    requires slots[s.cfg.cpuCount].fd == Open(0)
    requires Sample(s, true, msr1, slots).Success?
    ensures Sample(s, true, msr1, slots).value.out == []
    ensures var after := Sample(s, true, msr1, slots).value.slots;
      |after| == |slots| &&
      (Sample(s, false, msr2, after).Success? <==> msr2(0, s.cfg.pkgMsr).Some?) &&
      (Sample(s, false, msr2, after).Success? ==>
        msr1(0, s.cfg.pkgMsr).Some? &&
        Sample(s, false, msr2, after).value.out ==
          [Pkg(Scaled(s, Watts(s, s.cfg.cpuCount, msr2(0, s.cfg.pkgMsr).value)
                       - Watts(s, s.cfg.cpuCount, msr1(0, s.cfg.pkgMsr).value)))])
  {
    var n := s.cfg.cpuCount;
    VisitedRange(s.cfg, s.verbose);
    TickSuppressed(s, true, msr1, slots);
    TickSlots(s, true, msr1, slots);
    var after := Sample(s, true, msr1, slots).value.slots;
    assert SlotRead(s, msr1, slots[n].fd, n) == msr1(0, s.cfg.pkgMsr);
    assert after[n] == Slot(Open(0), Watts(s, n, msr1(0, s.cfg.pkgMsr).value));
    RunFrame(s, false, msr2, n, n + 1, Tick(after, [], 0.0));
    assert ReadsSucceed(s, msr2, after, n, n + 1) <==> msr2(0, s.cfg.pkgMsr).Some?;
    if Sample(s, false, msr2, after).Success? {
      TickReadings(s, false, msr2, after);
    }
  }
}
