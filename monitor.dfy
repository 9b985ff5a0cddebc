/** The monitor's mutable state and the procedures that change it:
    `open_msrs` filling the handle slots, the calibration read in
    `identify_cpu`, and `read_power` updating each slot's last value and the
    `first` flag. Each method is proved against the functions of modules
    Slots, Calibration and Sampler. */
module Monitor {
  import opened Outcomes
  import opened CpuId
  import opened Calibration
  import opened Slots
  import opened Sampler

  /** The program's globals after identification: the configuration and
      options are fixed, the units, the slots (`softc`) and `first` change. */
  class Pmon {
    const cfg: Config
    const verbose: nat
    const scale: real
    var units: Units
    var softc: array<Slot>
    var first: bool

    /** The configuration is well formed (as every one either
        identification accepts is), the slot array has
        room for every slot the program touches, and only AMD has an
        energy-unit exponent. */
    ghost predicate Valid()
      reads this
    {
      WellFormed(cfg) && softc.Length == SlotCount(cfg) && UnitsFit(cfg, units)
    }

    /** Every slot holds the handle `open_msrs` gives it. */
    ghost predicate Opened()
      reads this, softc
    {
      Valid() && forall i :: 0 <= i < softc.Length ==> softc[i].fd == HandleOf(cfg, i)
    }

    /** What a tick depends on besides the slots. */
    function Current(): Settings
      reads this
    {
      Settings(cfg, units, verbose, scale)
    }

    /** The zeroed allocation: every slot closed with last value 0, the
        units not yet calibrated, and the next tick the first. */
    constructor (cfg: Config, verbose: nat, scale: real)
      requires WellFormed(cfg)
      ensures Valid() && fresh(softc)
      ensures this.cfg == cfg && this.verbose == verbose && this.scale == scale
      ensures units == INITIAL_UNITS && first
      ensures softc[..] == seq(SlotCount(cfg), _ => Slot(Closed, 0.0))
    {
      this.cfg := cfg;
      this.verbose := verbose;
      this.scale := scale;
      units := INITIAL_UNITS;
      first := true;
      softc := new Slot[cfg.cpuCount + 2](_ => Slot(Closed, 0.0));
    }

    /** `open_msrs`: open the device of every slot that has one, in slot
        order, stopping at the first device `opens` refuses. On success every
        such slot holds its handle and every other slot is unchanged. */
    method OpenMsrs(opens: nat -> bool) returns (st: Status)
      requires Valid()
      modifies softc
      ensures st.Ok? <==>
        forall i :: 0 <= i < softc.Length && SlotUnit(cfg, i).Some? ==> opens(SlotUnit(cfg, i).value)
      ensures st.Ok? ==> forall i :: 0 <= i < softc.Length ==>
        softc[i] == if SlotUnit(cfg, i).Some? then old(softc[i]).(fd := Open(SlotUnit(cfg, i).value)) else old(softc[i])
      ensures st.Fail? ==> st.error.OpenFailed? && !opens(st.error.unit)
    {
      for core := 0 to cfg.cpuCount + 2
        invariant forall i :: 0 <= i < core && SlotUnit(cfg, i).Some? ==> opens(SlotUnit(cfg, i).value)
        invariant forall i :: 0 <= i < softc.Length ==>
          softc[i] == if i < core && SlotUnit(cfg, i).Some? then old(softc[i]).(fd := Open(SlotUnit(cfg, i).value)) else old(softc[i])
      {
        var i: nat;
        if core >= cfg.cpuCount {
          i := 0;
        } else {
          i := core;
          if cfg.cpu == Intel && core != 0 {
            continue;
          }
        }
        var unit := i * cfg.shareCount;
        assert SlotUnit(cfg, core) == Some(unit);
        if !opens(unit) {
          return Fail(OpenFailed(unit));
        }
        softc[core] := softc[core].(fd := Open(unit));
      }
      return Ok;
    }

    /** The calibration read of `identify_cpu`: the power-unit register of
        the vendor through slot 0; the units become what `UnitsFrom` gives. */
    method Calibrate(msr: MsrPort) returns (st: Status)
      requires Valid()
      modifies this`units
      ensures Valid()
      ensures st.Ok? <==> ReadHandle(softc[0].fd, PowerUnitMsr(cfg.cpu), msr).Some?
      ensures st.Ok? ==> units == UnitsFrom(cfg.cpu, ReadHandle(softc[0].fd, PowerUnitMsr(cfg.cpu), msr).value)
      ensures st.Fail? ==> units == old(units) && st.error == ReadFailed(PowerUnitMsr(cfg.cpu))
    {
      var reg := if cfg.cpu == AMD then AMD_ENERGY_PWR_UNIT_MSR else INTEL_ENERGY_PWR_UNIT_MSR;
      var data := ReadHandle(softc[0].fd, reg, msr);
      if data.None? {
        return Fail(ReadFailed(reg));
      }
      units := UnitsFrom(cfg.cpu, data.value);
      return Ok;
    }

    /** `read_power`: one tick over the visited slots. It does to the slots
        and prints exactly what `Sample` says and clears `first`; a failed
        read ends the tick with that register's error. */
    method ReadPower(msr: MsrPort) returns (r: Result<seq<Reading>>)
      requires Valid()
      modifies this`first, softc
      ensures Valid()
      ensures var t := Sample(Current(), old(first), msr, old(softc[..]));
        && (r.Success? <==> t.Success?)
        && (r.Success? ==> r.value == t.value.out && softc[..] == t.value.slots && !first)
        && (r.Failure? ==> t.Failure? && r.error == t.error)
    {
      var s := Current();
      var firstCore := cfg.cpuCount;
      var max := cfg.cpuCount + 1;
      if verbose != 0 && cfg.coreMsr != 0 {
        firstCore := 0;
      } else if verbose != 0 && cfg.dramMsr != 0 {
        max := max + 1;
      }
      assert firstCore == FirstSlot(cfg, verbose) && max == EndSlot(cfg, verbose);
      var coreSum := 0.0;
      var out: seq<Reading> := [];
      ghost var sample := Sample(s, first, msr, softc[..]);
      for core := firstCore to max
        invariant Run(s, first, msr, core, max, Tick(softc[..], out, coreSum)) == sample
      {
        var reg := if core == cfg.cpuCount then cfg.pkgMsr
          else if core == cfg.cpuCount + 1 then cfg.dramMsr
          else cfg.coreMsr;
        var data := ReadHandle(softc[core].fd, reg, msr);
        if data.None? {
          return Failure(ReadFailed(reg));
        }
        ghost var before := Tick(softc[..], out, coreSum);
        var watts: real;
        if cfg.cpu == AMD {
          var energy := AmdAddPower(data.value, units.amdEnergyUnits);
          watts := energy / 1000000.0;
        } else {
          watts := IntelAddPower(data.value, if core == cfg.cpuCount then units.energyUnits else units.dramUnits);
        }
        assert watts == Watts(s, core, data.value);
        var delta := watts - softc[core].last;
        softc[core] := softc[core].(last := watts);
        if first && verbose < 2 {
          assert Tick(softc[..], out, coreSum) == Step(s, first, core, data.value, before);
          continue;
        }
        if core == cfg.cpuCount {
          out := out + [Pkg(Scaled(s, delta))];
          if verbose != 0 && units.amdEnergyUnits != 0 {
            out := out + [CoreSum(Scaled(s, coreSum))];
          }
        } else if verbose != 0 && core == cfg.cpuCount + 1 {
          out := out + [Dram(Scaled(s, delta))];
        } else if verbose != 0 && units.amdEnergyUnits != 0 {
          out := out + [Core(core, Scaled(s, delta))];
        }
        assert out == before.out + Emit(s, core, delta, coreSum);
        coreSum := coreSum + delta;
        assert Tick(softc[..], out, coreSum) == Step(s, first, core, data.value, before);
      }
      first := false;
      return Success(out);
    }
  }

  /** `identify_cpu` followed by `open_msrs` and the calibration read: the
      configuration `Identify` gives, every slot opened as `open_msrs`
      opens it with last value 0, the units from the power-unit register,
      and the next tick the first. Any failure is passed on. Identification
      uses the corrected Intel check: only the listed family-6 models pass
      (`IdentifyAsWritten` is the code as it stands). */
  method Start(leaf0: Regs, leaf1: Regs, topo: Regs, nprocs: nat, verbose: nat, scale: real,
               opens: nat -> bool, msr: MsrPort) returns (r: Result<Pmon>)
    ensures Identify(leaf0, leaf1, topo, nprocs).Failure? ==>
      r == Failure(Identify(leaf0, leaf1, topo, nprocs).error)
    ensures r.Success? <==>
      && Identify(leaf0, leaf1, topo, nprocs).Success?
      && (var c := Identify(leaf0, leaf1, topo, nprocs).value;
          && (forall i :: 0 <= i < SlotCount(c) && SlotUnit(c, i).Some? ==> opens(SlotUnit(c, i).value))
          && msr(0, PowerUnitMsr(c.cpu)).Some?)
    ensures r.Success? ==>
      var p, c := r.value, Identify(leaf0, leaf1, topo, nprocs).value;
      && fresh(p) && fresh(p.softc)
      && p.cfg == c && p.verbose == verbose && p.scale == scale
      && p.Opened() && p.first
      && (forall i :: 0 <= i < p.softc.Length ==> p.softc[i].last == 0.0)
      && p.units == UnitsFrom(c.cpu, msr(0, PowerUnitMsr(c.cpu)).value)
    ensures Identify(leaf0, leaf1, topo, nprocs).Success? && r.Failure? ==>
      var c := Identify(leaf0, leaf1, topo, nprocs).value;
      || (r.error.OpenFailed? && !opens(r.error.unit))
      || (&& (forall i :: 0 <= i < SlotCount(c) && SlotUnit(c, i).Some? ==> opens(SlotUnit(c, i).value))
          && msr(0, PowerUnitMsr(c.cpu)).None?
          && r.error == ReadFailed(PowerUnitMsr(c.cpu)))
  {
    var id := Identify(leaf0, leaf1, topo, nprocs);
    if id.Failure? {
      return Failure(id.error);
    }
    var c := id.value;
    var p := new Pmon(c, verbose, scale);
    var st := p.OpenMsrs(opens);
    if st.Fail? {
      return Failure(st.error);
    }
    assert p.Opened();
    SlotZeroIsCpuZero(c);
    st := p.Calibrate(msr);
    if st.Fail? {
      return Failure(st.error);
    }
    return Success(p);
  }
}
