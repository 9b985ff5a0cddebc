# pmon: a verified model of the RAPL energy-counter sampler

`pmon` is a small command-line monitor for x86 package power. At startup it
identifies the processor through CPUID. It reads the vendor string and the
family and model from the version word, and takes the sharing factor from
the topology leaf 0x8000001E. It then accepts only a fixed list of AMD Zen
parts and, as written, every Intel family-6 part. The Intel switch lists
three models but has no `default`, so the check does not restrict the
model. The model's `Identify` and `Start` accept only the three listed
Intel models (see "## Findings"), and `IdentifyAsWritten` models the code
as it stands. Next it opens the MSR devices: on AMD one per energy domain,
plus CPU 0's again for the package and DRAM slots; on Intel only CPU 0's
(for core slot 0, the package and the DRAM). Then it
reads the vendor's power-unit MSR to calibrate. After that it
samples once per interval. Each sample reads the energy counters (the
package counter; per-core counters on AMD and the DRAM counter on Intel in
verbose mode) and converts each one to joules. It prints the change since
the previous sample, multiplied by 1 / interval.

This project models that core in Dafny. It is organised as follows.

- `Outcomes` (outcomes.dfy): `Option`, `Result` and `Status`, plus the
  program's error exits: the vendor is not supported, the CPU is not
  supported, a device fails to open, an MSR read fails.
- `CpuId` (cpuid.dfy): how the CPUID fields are decoded and how the vendor
  string is assembled from EBX, EDX and ECX. Also the AMD and Intel
  support switches, `share_count` and `cpu_count`, and `Identify`, which
  maps the three CPUID leaves and the configured processor count to a
  configuration or an error. A configuration is well formed (`WellFormed`)
  when it has a sharing factor in 1..256 and its vendor's counter
  registers; both `Identify` and `IdentifyAsWritten` produce only well-formed
  ones, and the slot, tick and class results below assume nothing more, so
  they cover the Intel family-6 parts that only the code as written accepts.
- `Calibration` (calibration.dfy): the energy-unit exponent extracted from
  the power-unit MSR, `pow(0.5, e)` as an exact real, and the two
  `*_add_power` conversions.
- `Slots` (slots.dfy): the layout of the `softc` array. Slots
  0 .. cpuCount-1 are per-domain core counters, slot cpuCount is the
  package and slot cpuCount+1 is the DRAM. The module says which logical
  CPU each slot opens and which slots and registers a sample touches.
- `Sampler` (sampler.dfy): one call of `read_power`, written as a function
  of the slots, the settings and an MSR oracle. Lemmas give the readings of
  a tick, the suppressed first tick and the two-tick delta.
- `Monitor` (monitor.dfy): the program state as a class `Pmon`. It holds
  the `softc` array, the calibrated units and the `first` flag.
  `OpenMsrs` and `ReadPower` update that state in place with loops, and
  `Calibrate` is a single read and assignment. Each is proved against the
  functions above. `Start` runs
  identification, `open_msrs` and calibration in the source's order.

The model is exact over the reals: conversions use unbounded rationals, not
IEEE doubles. CPUID registers are `bv32`. MSR values are naturals below
2^64.

Three consequences of the code as it stands:

- `cpu_count` is `sysconf(_SC_NPROCESSORS_CONF) / share_count`, rounded
  down, with no lower bound (pmon.c:282). So it is 0 when fewer
  processors are configured than threads share a domain.
  `CpuId.CpuCount` states exactly when.
- On AMD, `amd_add_power` multiplies by 10^6 (pmon.c:313), and pmon.c:356
  divides by 10^6 again; the two cancel. At exponent 0, 5,000,000 counts
  therefore convert to 5,000,000, and 327,680 counts at exponent 16
  convert to 5. `Calibration.ConversionExamples` states both values.
- `CPUID_TO_FAMILY` and `CPUID_TO_MODEL` add the extended fields for every
  base family. The Intel SDM (Vol. 2A, CPUID, Figure 3-6) adds them only
  for base family 0xF (family) or 6/0xF (model). `CpuId.FamilyAgreesWithSdm`
  and `CpuId.ModelAgreesWithSdm` state exactly when the two agree.

## Model

| member | source | states |
|---|---|---|
| CpuId.Family | pmon.c:54-56 | the family is the base family field (bits 11:8) plus the extended family field (bits 27:20), at most 0x10E |
| CpuId.Model | pmon.c:51-53 | the model's low nibble is the base model (bits 7:4) and its high nibble the extended model (bits 19:16); it is below 0x100 |
| CpuId.FamilyAgreesWithSdm | pmon.c:54-56 | the unconditional addition equals the SDM family exactly when the base family is 0xF or the extended family is 0 |
| CpuId.ModelAgreesWithSdm | pmon.c:51-53 | the unconditional OR equals the SDM model exactly when the base family is 6 or 0xF or the extended model is 0 |
| CpuId.CString | pmon.c:195 | the string `strncmp` sees is the longest NUL-free prefix of the buffer, ended by a NUL or the buffer's end |
| CpuId.VendorStringDeterminesRegs | pmon.c:190-195 | a 12-character NUL-free vendor name equals the string assembled from leaf 0 exactly when EBX, EDX and ECX are that name's bytes, little-endian, in that order |
| CpuId.AmdVendorRegs | pmon.c:206 | the vendor compares equal to "AuthenticAMD" exactly for EBX 0x68747541, EDX 0x69746E65 and ECX 0x444D4163 |
| CpuId.IntelVendorRegs | pmon.c:254 | the vendor compares equal to "GenuineIntel" exactly for EBX 0x756E6547, EDX 0x49656E69 and ECX 0x6C65746E |
| CpuId.VendorString | pmon.c:190-195 | the vendor name `strncmp` compares: EBX, EDX and ECX as twelve little-endian bytes, cut at the first NUL. `CpuId.CString` states the cut, `CpuId.VendorStringDeterminesRegs` that a 12-character NUL-free name determines the three registers, and `CpuId.AmdVendorRegs` and `CpuId.IntelVendorRegs` the two names the code accepts |
| CpuId.AmdSupported | pmon.c:210-253 | the AMD family/model switch, each inner `default` and the outer one rejecting; `CpuId.AmdSwitchIsTable` states that it accepts exactly the eleven pairs of the support table |
| CpuId.IntelSupportedAsWritten | pmon.c:256-274 | the Intel check as written: only the family test rejects, the model switch never does; `CpuId.IntelSwitchAcceptsUnlistedModels` states where it differs from `CpuId.IntelSupported` |
| CpuId.IntelSupported | pmon.c:256-274 | the corrected Intel check of Findings row 1: family 6 and model 0x4F, 0x55 or 0x56; `CpuId.IntelSwitchAcceptsUnlistedModels` states that it implies the as-written check and rejects model 0x3A |
| CpuId.MakeConfig | pmon.c:206-282 | the globals identification sets: the vendor's package, core and DRAM registers (0 for the one the vendor lacks), family, model, `share_count` and `cpu_count`; `CpuId.Identify` and `CpuId.IdentifyAsWritten` state that every configuration it yields is well formed, with the domain count the rounded-down quotient |
| CpuId.AmdSwitchIsTable | pmon.c:210-253 | the nested AMD family/model switch accepts exactly the eleven (family, model) pairs of the flat support table |
| CpuId.IntelSwitchAcceptsUnlistedModels | pmon.c:256-274 | the switch as written and the listed-model check differ exactly on family 6 with a model other than 0x4F, 0x55 or 0x56 (0x3A is one); every listed model passes both |
| CpuId.ShareCount | pmon.c:280-281 | the sharing factor is between 1 and 256 |
| CpuId.ShareCountReadsBits15To8 | pmon.c:281 | only bits 15:8 of EBX of leaf 0x8000001E decide the sharing factor |
| CpuId.CpuCount | pmon.c:282 | the domain count is the quotient rounded down: count * share <= nprocs < (count + 1) * share; it is 0 exactly when nprocs < share |
| CpuId.Identify | pmon.c:190-279 | with the corrected Intel check of Findings row 1: success exactly for "AuthenticAMD" with a pair from the AMD table, or "GenuineIntel" with family 6 and a listed model. A success carries the vendor's counter registers (0 for a counter it lacks), the decoded family and model, the sharing factor and the domain count. A failure is "unsupported CPU" with family and model for a known vendor, otherwise "vendor not implemented" with the vendor string |
| CpuId.IdentifyAsWritten | pmon.c:190-279 | the code as written: success exactly for "AuthenticAMD" with a pair from the AMD table, or "GenuineIntel" with family 6 and any model. A success is well formed: it carries the vendor's counter registers (on Intel package 0x611, DRAM 0x619, core 0) and a sharing factor in 1..256, and also the decoded family and model and the domain count; the errors are those of `Identify` |
| CpuId.IdentifyCorrection | pmon.c:256-274 | the corrected and the as-written identification differ exactly on "GenuineIntel" with family 6 and a model other than 0x4F, 0x55 or 0x56. There the code accepts and the correction reports an unsupported CPU; everywhere else the two agree |
| CpuId.IdentifyCorrectionExample | pmon.c:256-274 | "GenuineIntel" with version word 0x000306A0 (family 6, model 0x3A) is accepted as written and rejected by the correction; the configuration the code accepts is well formed, so the slot and tick results apply to it, but it fails the corrected support check |
| Calibration.AmdEnergyUnits | pmon.c:290-292 | the AMD exponent `(data & 0x1F00) >> 8` is at most 31 |
| Calibration.IntelEnergyUnits | pmon.c:294-295 | the Intel exponent `(data >> 8) & 0x1F` is at most 31 and equals the AMD extraction |
| Calibration.EnergyUnitsReadBits12To8 | pmon.c:292-295 | two unit-MSR values that agree on bits 12:8 give the same exponent on both vendors |
| Calibration.HalfPower | pmon.c:295-296 | `pow(0.5, e)` is exactly 1 / 2^e |
| Calibration.UnitsFrom | pmon.c:289-297 | AMD sets only the integer exponent. Intel leaves the exponent 0 and sets the package unit to 1 / 2^e and the DRAM unit to 1 / 65536 |
| Calibration.DramUnitsAreFixed | pmon.c:296 | the Intel DRAM unit does not depend on the unit MSR |
| Calibration.AmdAddPower | pmon.c:308-315 | `amd_add_power` over the reals; its meaning is stated by `Calibration.AmdWatts` (with the division by 10^6, the counter over 2^e) and `Calibration.AmdWattsMonotone` |
| Calibration.IntelAddPower | pmon.c:317-321 | `intel_add_power` over the reals; `Calibration.IntelJoules` states that with the calibrated units it divides by 2^e (package) or 2^16 (DRAM) |
| Calibration.AmdWatts | pmon.c:308-315 | `amd_add_power` followed by the division by 10^6 is the counter divided by 2^e, and it is never negative |
| Calibration.IntelJoules | pmon.c:317-321 | with the calibrated units, `intel_add_power` divides the package counter by 2^e and the DRAM counter by 2^16 |
| Calibration.ConversionExamples | pmon.c:308-321 | on AMD 5,000,000 counts at exponent 0 give 5,000,000 and 327,680 at exponent 16 give 5; on Intel 256 counts at 2^-8 give 1 |
| Calibration.AmdWattsMonotone | pmon.c:353-361 | the AMD conversion is strictly monotone in the raw counter. No wrap-around correction is made, so a counter that rolls over gives a negative delta |
| Slots.SlotUnit | pmon.c:157-170 | the logical CPU `open_msrs` opens for a slot, or none; its properties are stated by `Slots.SkippedSlots`, `Slots.OpenedUnitIsDomainStart`, `Slots.CoreUnitsDistinct` and `Slots.SlotZeroIsCpuZero` |
| Slots.FirstSlot | pmon.c:335-339 | `first_core`; `Slots.VisitedRange` states its value for each vendor and verbosity |
| Slots.EndSlot | pmon.c:336-343 | `max`; `Slots.VisitedRange` states its value for each vendor and verbosity |
| Slots.SlotRegister | pmon.c:346-352 | the register a slot is read at; `Slots.VisitedSlotsAreOpen` states it is the vendor's core, package or DRAM counter and never 0 for a visited slot |
| Slots.SkippedSlots | pmon.c:157-164 | `open_msrs` skips exactly the Intel core slots 1 .. cpuCount-1 |
| Slots.OpenedUnitIsDomainStart | pmon.c:157-170 | every device opened is the first thread of a domain (a multiple of the sharing factor), and a core slot's domain lies within cpuCount * shareCount |
| Slots.CoreUnitsDistinct | pmon.c:161-170 | distinct core slots open strictly increasing, hence distinct, CPUs |
| Slots.SlotZeroIsCpuZero | pmon.c:289-291 | slot 0, which calibration reads, always holds CPU 0 |
| Slots.VisitedRange | pmon.c:335-343 | a sample visits only the package when not verbose; on AMD in verbose mode every core slot and the package; on Intel in verbose mode the package and the DRAM |
| Slots.VisitedSlotsAreOpen | pmon.c:344-352 | every visited slot lies within cpuCount + 2 slots and was opened. A core slot is read only on AMD, at the core MSR, and the DRAM slot only on Intel, at 0x619 |
| Slots.WritesPastAllocationAsWritten | pmon.c:283 | `open_msrs` opens slot cpuCount+1 on every vendor and a verbose Intel sample reads it, both past the cpuCount+1 slots allocated; the corrected count covers both |
| Sampler.Watts | pmon.c:353-360 | the converted counter of a slot; `Sampler.CalibratedWatts` states that with calibrated units it is the raw counter divided by 2^e (the AMD exponent, the Intel exponent for the package, 16 for the Intel DRAM) and never negative |
| Sampler.CalibratedWatts | pmon.c:289-297 | with the units calibration derives from the power-unit MSR, every converted counter is the raw counter over 2^e: the AMD exponent on AMD, the Intel exponent for the Intel package slot and 16 for the Intel DRAM slot; no reading is negative |
| Sampler.Emit | pmon.c:366-389 | what a visited slot prints on a tick that is not suppressed; `Sampler.EmitPkg` states the package line followed by the core sum under detail, `Sampler.EmitDram` the DRAM line in verbose mode, `Sampler.EmitCore` a core slot's line, and `Sampler.PkgStep`, `Sampler.DramStep` and `Sampler.RunCores` how those enter the tick |
| Sampler.Step | pmon.c:353-390 | one iteration of the sampling loop after a successful read; `Sampler.PkgStep`, `Sampler.DramStep` and `Sampler.RunCores` state what it emits and adds for each kind of slot, `Sampler.RunSuppressed` that it emits nothing on a suppressed tick |
| Sampler.Run | pmon.c:344-391 | the sampling loop over a range of slots; `Sampler.RunFrame` states when it succeeds and what it does to the slots, `Sampler.RunSplit` that it composes over adjacent ranges |
| Sampler.Sample | pmon.c:323-394 | one whole tick; `Sampler.TickReadings`, `Sampler.TickSlots`, `Sampler.TickSuppressed` and `Sampler.TwoTicks` state its readings and its effect on the slots, and `Monitor.Pmon.ReadPower` is proved equal to it |
| Sampler.RunFrame | pmon.c:344-362 | the sampling loop completes exactly when every read succeeds. It keeps every handle, leaves unvisited slots unchanged and stores each visited slot's converted counter |
| Sampler.RunSuppressed | pmon.c:363-364 | a suppressed tick emits nothing and leaves the core sum unchanged |
| Sampler.RunSplit | pmon.c:344 | running slots lo .. mid and then mid .. hi is running lo .. hi |
| Sampler.RunCores | pmon.c:379-390 | over core slots, a tick that is not suppressed appends each core's line in slot order and adds every delta to the core sum |
| Sampler.CoreLinesWithoutDetail | pmon.c:379 | without verbose mode and a nonzero AMD exponent no per-core line is emitted |
| Sampler.PkgStep | pmon.c:366-374 | the package slot emits its scaled delta, then the scaled core sum when per-core detail is on |
| Sampler.DramStep | pmon.c:375-378 | in verbose mode the DRAM slot emits its scaled delta |
| Sampler.TickCorePrefix | pmon.c:344-390 | the core slots come first in a tick: after them the package and DRAM slots are untouched, the emitted readings are the core lines in slot order and the core sum is the sum of the core deltas (both empty unless verbose on AMD) |
| Sampler.TickReadings | pmon.c:323-394 | a tick that is not suppressed prints only the scaled package delta when not verbose. On Intel in verbose mode it prints the package delta, then the DRAM delta. On AMD in verbose mode it prints every core line, then the package delta, then (with a nonzero exponent) the sum of the core deltas |
| Sampler.AmdTickWithoutExponent | pmon.c:371-384 | on AMD in verbose mode with exponent 0 a tick that is not suppressed reads every core but prints only the package delta: the guards on the core sum and the per-core lines are both off |
| Sampler.TickSlots | pmon.c:344-362 | after a tick every visited slot holds its new converted counter and every other slot and every handle is unchanged |
| Sampler.TickSuppressed | pmon.c:363-364 | a first tick below verbosity 2 prints nothing |
| Sampler.TwoTicks | pmon.c:330-394 | when not verbose the first tick prints nothing. The second succeeds exactly when its package read succeeds and prints one reading: the change of the package counter between the two ticks, converted and scaled |
| Monitor.Pmon.constructor | pmon.c:283-287 | the zeroed allocation: cpuCount + 2 closed slots with last value 0, units 0, and the next tick the first |
| Monitor.Pmon.OpenMsrs | pmon.c:150-182 | succeeds exactly when every slot's device opens. Every opened slot then holds its device and every other slot is as before. A failure names a device that did not open |
| Monitor.Pmon.Calibrate | pmon.c:289-297 | reads the vendor's power-unit MSR through slot 0. On success the units are those `UnitsFrom` gives; on failure they are unchanged and the error names the register |
| Monitor.Pmon.ReadPower | pmon.c:323-394 | the loop leaves `softc` as `Sample` says and returns `Sample`'s readings, then clears `first`; a failed read returns `Sample`'s error |
| Monitor.Start | pmon.c:184-297 | with the corrected Intel check of Findings row 1, passes on any identification error. It succeeds exactly when identification succeeds, every device opens and the unit MSR reads. The new state then has every slot opened as `open_msrs` opens it with last value 0, the calibrated units, and `first` set. After a successful identification a failure is either a device that did not open, or, once every device has opened, the unit MSR that could not be read at CPU 0 |

## Left out

- The `cpuid` instruction (`do_cpuid`, `cpuid_count`) is not modelled. The three leaves it returns are parameters of `Identify` and `Start`.
- `sysconf(_SC_NPROCESSORS_CONF)` is a parameter, a natural number. Its error value -1 is not modelled.
- The MSR transport (`ioctl` on FreeBSD, `pread` on Linux) is an oracle `MsrPort` from (logical CPU, register) to an optional 64-bit value. `open` is an oracle `opens` from logical CPU to success. The device paths and the `sprintf` that builds them are not modelled.
- `exit(1)` on every error is modelled as an error `Result` or `Status` that the caller passes on.
- Monitor.Pmon.ReadPower: on a read that fails partway through a tick it returns only the error, not the readings emitted for the earlier slots of that tick. In C those were already printed, and the `exit(1)` in `read_msr` flushes them. `Sampler.Run` likewise drops them on failure. The slots updated before the failure are not restated either.
- A read through a slot that was never opened is modelled as a failed read. In C it reads through file descriptor 0, which `calloc` leaves there. The model proves that no visited slot is unopened (`Slots.VisitedSlotsAreOpen`), so this case never occurs.
- A failed `calloc` is not modelled: Dafny allocation does not fail.
- `printf` formatting is not modelled. Each printed value is a `Reading` carrying its scaled number. The widths, tabs, newlines, the rule lines and the eight-cores-per-row layout around the per-core lines are left out, and so are the `verbose > 1` banner lines printed during identification.
- `main` is not modelled: option parsing, `atof` of the interval, `scale = 1.0 / timeo`, the endless loop and `sleep`. `scale` and `verbose` are parameters, and `ReadPower` is one iteration of the loop.
- IEEE double rounding is not modelled. All conversions are exact reals.
- Calibration.AmdWatts: does not model `1 << amd_energy_units` as a 32-bit `int`. At exponent 31 the shift overflows in C; the model uses 2^31.
- `AMD_ENERGY_MASK` (0xFFFFFFFF) is defined but never used by the code, so the model applies no counter masking. `Calibration.AmdWattsMonotone` states the consequence.
- `fflush`, `perror`, `usage` and the global feature words `cpu_high`, `cpu_procinfo`, `cpu_feature` and `cpu_feature2` are not modelled: nothing in the core reads them.

## Findings

| source | as written | input that shows it | evidently intended | confidence | as-written member | corrected member |
|---|---|---|---|---|---|---|
| pmon.c:263-274 | the Intel model switch has only `break` cases and no `default`, so every family-6 model is accepted | GenuineIntel, family 6, model 0x3A | accept only the listed models 0x4F, 0x55 and 0x56 and report any other model as an unsupported CPU | not executed | CpuId.IdentifyAsWritten | CpuId.Identify |
| pmon.c:283 | `calloc(cpu_count + 1, ...)` allocates slots 0 .. cpuCount, but `open_msrs` writes slot cpuCount+1 and a verbose Intel tick reads it | any configuration, for example cpuCount 1: `open_msrs` writes slot 2 of a 2-slot array | allocate cpuCount + 2 slots | not executed | Slots.WritesPastAllocationAsWritten | Slots.VisitedSlotsAreOpen |
