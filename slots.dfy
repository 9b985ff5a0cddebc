/** The `softc` slots: which logical CPU's MSR device each slot opens
    (`open_msrs`), which slots a sampling tick visits and which register it
    reads through each (`read_power`), and how many slots exist. */
module Slots {
  import opened Outcomes
  import opened CpuId

  /** The `fd` of a slot. `Closed` is the zero that `calloc` leaves in a slot
      that `open_msrs` skips; `Open(u)` is the MSR device of logical CPU `u`. */
  datatype Handle = Closed | Open(unit: nat)

  /** Slots 0 .. cpuCount-1 are the per-core domains, slot cpuCount the
      package and slot cpuCount+1 the DRAM counter: cpuCount + 2 slots, the
      number the corrected allocation provides. */
  function SlotCount(c: Config): nat {
    c.cpuCount + 2
  }

  /** As written: `softc = calloc(cpu_count + 1, sizeof(*softc))`. */
  function AllocatedSlotsAsWritten(c: Config): nat {
    c.cpuCount + 1
  }

  /** The logical CPU whose MSR device `open_msrs` opens for a slot, or None
      for a slot it skips: package and DRAM slots use CPU 0, core slot i uses
      CPU i * shareCount, and on Intel every core slot but 0 is skipped. */
  function SlotUnit(c: Config, slot: nat): Option<nat> {
    if slot >= c.cpuCount then Some(0)
    else if c.cpu == Intel && slot != 0 then None
    else Some(slot * c.shareCount)
  }

  /** The handle a slot holds once `open_msrs` has run. */
  function HandleOf(c: Config, slot: nat): Handle {
    match SlotUnit(c, slot)
    case Some(u) => Open(u)
    case None => Closed
  }

  /** Exactly the Intel core slots other than 0 stay unopened. */
  lemma SkippedSlots(c: Config, slot: nat)
    ensures SlotUnit(c, slot).None? <==> (c.cpu == Intel && 0 < slot < c.cpuCount)
  {
  }

  lemma MulStrictMono(a: nat, b: nat, k: nat)
    requires a < b && k >= 1
    ensures a * k < b * k && (a + 1) * k <= b * k
  {
  }

  lemma MultipleMod(a: nat, k: nat)
    requires k >= 1
    ensures (a * k) % k == 0
  {
    var n := a * k;
    var d := a - n / k;
    assert n == k * (n / k) + n % k;
    assert k * d == n % k by {
      assert k * d == k * a - k * (n / k);
    }
  }

  /** Every opened device is the first thread of an energy domain, and a core
      slot's domain lies within the cpuCount * shareCount configured CPUs. */
  lemma OpenedUnitIsDomainStart(c: Config, slot: nat)
    requires WellFormed(c)
    requires SlotUnit(c, slot).Some?
    ensures SlotUnit(c, slot).value % c.shareCount == 0
    ensures slot < c.cpuCount ==> SlotUnit(c, slot).value + c.shareCount <= c.cpuCount * c.shareCount
  {
    if slot < c.cpuCount {
      MulStrictMono(slot, c.cpuCount, c.shareCount);
      MultipleMod(slot, c.shareCount);
    } else {
      MultipleMod(0, c.shareCount);
    }
  }

  /** Distinct core slots open distinct devices. */
  lemma CoreUnitsDistinct(c: Config, s: nat, t: nat)
    requires WellFormed(c)
    requires s < t < c.cpuCount
    requires SlotUnit(c, s).Some? && SlotUnit(c, t).Some?
    ensures SlotUnit(c, s).value < SlotUnit(c, t).value
  {
    MulStrictMono(s, t, c.shareCount);
  }

  /** The calibration read goes through slot 0, which always holds CPU 0. */
  lemma SlotZeroIsCpuZero(c: Config)
    ensures SlotUnit(c, 0) == Some(0)
  {
  }

  // ---------------------------------------------------------------------
  // What one tick of read_power visits

  /** `first_core`: 0 when verbose with per-core counters, else the package slot. */
  function FirstSlot(c: Config, verbose: nat): nat {
    if verbose != 0 && c.coreMsr != 0 then 0 else c.cpuCount
  }

  /** `max`: one past the package slot, or past the DRAM slot when verbose
      without per-core counters but with a DRAM counter. */
  function EndSlot(c: Config, verbose: nat): nat {
    if verbose != 0 && c.coreMsr != 0 then c.cpuCount + 1
    else if verbose != 0 && c.dramMsr != 0 then c.cpuCount + 2
    else c.cpuCount + 1
  }

  /** The register read through a slot. */
  function SlotRegister(c: Config, slot: nat): nat {
    if slot == c.cpuCount then c.pkgMsr
    else if slot == c.cpuCount + 1 then c.dramMsr
    else c.coreMsr
  }

  /** The visited range by vendor and verbosity: only the package when not
      verbose; every core and the package on AMD; package and DRAM on Intel. */
  lemma VisitedRange(c: Config, verbose: nat)
    requires WellFormed(c)
    ensures verbose == 0 ==> FirstSlot(c, verbose) == c.cpuCount && EndSlot(c, verbose) == c.cpuCount + 1
    ensures verbose != 0 && c.cpu == AMD ==> FirstSlot(c, verbose) == 0 && EndSlot(c, verbose) == c.cpuCount + 1
    ensures verbose != 0 && c.cpu == Intel ==> FirstSlot(c, verbose) == c.cpuCount && EndSlot(c, verbose) == c.cpuCount + 2
  {
  }

  /** Every visited slot exists in the corrected allocation, was opened, and
      is read at a register the vendor has; so an unopened Intel core slot is
      never read. */
  lemma VisitedSlotsAreOpen(c: Config, verbose: nat, slot: nat)
    requires WellFormed(c)
    requires FirstSlot(c, verbose) <= slot < EndSlot(c, verbose)
    ensures slot < SlotCount(c)
    ensures HandleOf(c, slot).Open?
    ensures SlotRegister(c, slot) != 0
    ensures slot < c.cpuCount ==> c.cpu == AMD && SlotRegister(c, slot) == AMD_ENERGY_CORE_MSR
    ensures slot == c.cpuCount ==> SlotRegister(c, slot) == c.pkgMsr
    ensures slot == c.cpuCount + 1 ==> c.cpu == Intel && SlotRegister(c, slot) == INTEL_ENERGY_DRAM_MSR
  {
  }

  /** As written, `open_msrs` stores into slot cpuCount+1 on every vendor,
      one past the `calloc`ed slots; so does a verbose tick on Intel. */
  lemma WritesPastAllocationAsWritten(c: Config, verbose: nat)
    requires WellFormed(c)
    ensures SlotUnit(c, c.cpuCount + 1).Some?
    ensures c.cpuCount + 1 >= AllocatedSlotsAsWritten(c)
    ensures verbose != 0 && c.cpu == Intel ==> EndSlot(c, verbose) > AllocatedSlotsAsWritten(c)
    ensures c.cpuCount + 1 < SlotCount(c) && EndSlot(c, verbose) <= SlotCount(c)
  {
  }
}
