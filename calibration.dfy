/** Calibration: the energy-unit exponent read once from the power-unit MSR,
    the scale factors derived from it, and the conversion of a raw energy
    counter into joules (exact real arithmetic; no floating point). */
module Calibration {
  import opened CpuId

  /** A 64-bit MSR value (`uint64_t`). */
  type Msr64 = x: nat | x < 0x1_0000_0000_0000_0000

  const AMD_ENERGY_PWR_UNIT_MSR: nat := 0xC001_0299
  const AMD_ENERGY_UNIT_MASK: bv64 := 0x1F00
  const INTEL_ENERGY_PWR_UNIT_MSR: nat := 0x606

  /** The power-unit MSR of a vendor. */
  function PowerUnitMsr(cpu: Vendor): nat {
    if cpu == AMD then AMD_ENERGY_PWR_UNIT_MSR else INTEL_ENERGY_PWR_UNIT_MSR
  }

  /** AMD: `(data & AMD_ENERGY_UNIT_MASK) >> 8`. */
  function AmdEnergyUnits(data: Msr64): (e: nat)
    ensures e <= 31
  {
    (((data as bv64) & AMD_ENERGY_UNIT_MASK) >> 8) as nat
  }

  /** Intel: `(data >> 8) & 0x1f`, the energy-status-unit field (bits 12:8) of
      MSR_RAPL_POWER_UNIT. */
  function IntelEnergyUnits(data: Msr64): (e: nat)
    ensures e <= 31
    ensures e == AmdEnergyUnits(data)
  {
    var b := data as bv64;
    assert (b & AMD_ENERGY_UNIT_MASK) >> 8 == (b >> 8) & 0x1F;
    ((b >> 8) & 0x1F) as nat
  }

  /** Both vendors take bits 12:8, so no other bit of the unit MSR matters. */
  lemma EnergyUnitsReadBits12To8(data: Msr64, other: Msr64)
    requires (data as bv64) & 0x1F00 == (other as bv64) & 0x1F00
    ensures AmdEnergyUnits(data) == AmdEnergyUnits(other)
    ensures IntelEnergyUnits(data) == IntelEnergyUnits(other)
  {
    assert ((data as bv64) >> 8) & 0x1F == ((other as bv64) >> 8) & 0x1F;
  }

  /** `1 << e` for the exponents that occur. */
  function Pow2(e: nat): (p: nat)
    ensures p >= 1
  {
    if e == 0 then 1 else 2 * Pow2(e - 1)
  }

  /** `pow(b, e)` over the reals. */
  function Power(b: real, e: nat): real {
    if e == 0 then 1.0 else b * Power(b, e - 1)
  }

  /** `pow(0.5, e)` is the reciprocal of `1 << e`. */
  lemma {:induction false} HalfPower(e: nat)
    ensures Power(0.5, e) * (Pow2(e) as real) == 1.0
    ensures Power(0.5, e) == 1.0 / (Pow2(e) as real)
  {
    if e > 0 {
      HalfPower(e - 1);
      calc {
        Power(0.5, e) * (Pow2(e) as real);
        0.5 * Power(0.5, e - 1) * (2.0 * (Pow2(e - 1) as real));
        Power(0.5, e - 1) * (Pow2(e - 1) as real);
      }
    }
  }

  /** The globals `amd_energy_units`, `energy_units` and `dram_units`; all
      three start at zero and identification sets the ones of its vendor. */
  datatype Units = Units(amdEnergyUnits: nat, energyUnits: real, dramUnits: real)

  const INITIAL_UNITS: Units := Units(0, 0.0, 0.0)

  /** The units identification derives from the power-unit MSR value `data`. */
  function UnitsFrom(cpu: Vendor, data: Msr64): (u: Units)
    ensures cpu == AMD ==> u == INITIAL_UNITS.(amdEnergyUnits := AmdEnergyUnits(data))
    ensures cpu == Intel ==> u.amdEnergyUnits == 0
    ensures cpu == Intel ==> u.energyUnits == 1.0 / (Pow2(IntelEnergyUnits(data)) as real)
    ensures cpu == Intel ==> u.dramUnits == 1.0 / 65536.0
  {
    if cpu == AMD then
      Units(AmdEnergyUnits(data), 0.0, 0.0)
    else
      var e := IntelEnergyUnits(data);
      HalfPower(e);
      HalfPower16();
      Units(0, Power(0.5, e), Power(0.5, 16))
  }

  lemma HalfPower16()
    ensures Power(0.5, 16) == 1.0 / 65536.0
  {
    var n := 16;
    HalfPower(n);
    Pow2Of16();
  }

  lemma Pow2Of16()
    ensures Pow2(16) == 65536
  {
    assert Pow2(1) == 2 && Pow2(2) == 4 && Pow2(3) == 8 && Pow2(4) == 16;
    assert Pow2(5) == 32 && Pow2(6) == 64 && Pow2(7) == 128 && Pow2(8) == 256;
    assert Pow2(9) == 512 && Pow2(10) == 1024 && Pow2(11) == 2048 && Pow2(12) == 4096;
    assert Pow2(13) == 8192 && Pow2(14) == 16384 && Pow2(15) == 32768;
  }

  /** The DRAM scale on Intel does not depend on the unit MSR. */
  lemma DramUnitsAreFixed(a: Msr64, b: Msr64)
    ensures UnitsFrom(Intel, a).dramUnits == UnitsFrom(Intel, b).dramUnits
  {
  }

  /** The raw counter as a real number. */
  function Raw(input: Msr64): (r: real)
    ensures r >= 0.0
  {
    input as real
  }

  /** `amd_add_power`: microjoules, `input * 1000000.0 / (1 << amd_energy_units)`. */
  function AmdAddPower(input: Msr64, e: nat): real {
    Raw(input) * 1000000.0 / (Pow2(e) as real)
  }

  /** Multiplying by a million and dividing by it again cancels. */
  lemma MillionCancels(x: real, p: real)
    requires p > 0.0
    ensures x * 1000000.0 / p / 1000000.0 == x / p
  {
    var q := x * 1000000.0 / p;
    assert q * p == x * 1000000.0;
    assert (q / 1000000.0) * p == x;
  }

  lemma NonNegativeQuotient(x: real, p: real)
    requires p > 0.0 && x >= 0.0
    ensures x / p >= 0.0
  {
  }

  /** The AMD reading of `read_power`: `amd_add_power` divided by 10^6 again.
      The two factors cancel, leaving the counter divided by 2^e. */
  function AmdWatts(input: Msr64, e: nat): (w: real)
    ensures w == Raw(input) / (Pow2(e) as real)
    ensures w >= 0.0
  {
    var x, p := Raw(input), Pow2(e) as real;
    MillionCancels(x, p);
    NonNegativeQuotient(x, p);
    assert AmdAddPower(input, e) == x * 1000000.0 / p;
    AmdAddPower(input, e) / 1000000.0
  }

  /** `intel_add_power`: the counter times the unit. */
  function IntelAddPower(input: Msr64, units: real): real {
    Raw(input) * units
  }

  /** With the units identification derives, the Intel conversion divides
      the package counter by 2^e and the DRAM counter by 2^16, as on AMD. */
  lemma IntelJoules(input: Msr64, data: Msr64)
    ensures IntelAddPower(input, UnitsFrom(Intel, data).energyUnits) == Raw(input) / (Pow2(IntelEnergyUnits(data)) as real)
    ensures IntelAddPower(input, UnitsFrom(Intel, data).dramUnits) == Raw(input) / 65536.0
  {
    var u := UnitsFrom(Intel, data);
    ReciprocalUnit(input, u.energyUnits, Pow2(IntelEnergyUnits(data)) as real);
    ReciprocalUnit(input, u.dramUnits, 65536.0);
  }

  /** Multiplying by a unit 1/p divides by p. */
  lemma ReciprocalUnit(input: Msr64, q: real, p: real)
    requires p > 0.0 && q == 1.0 / p
    ensures IntelAddPower(input, q) == Raw(input) / p
  {
    TimesReciprocal(Raw(input), q, p);
  }

  lemma TimesReciprocal(x: real, q: real, p: real)
    requires p > 0.0 && q == 1.0 / p
    ensures x * q == x / p
  {
  }

  /** Example conversions: on AMD, 5,000,000 counts at exponent 0 are
      5,000,000 J and 327,680 counts at exponent 16 are 5 J; on Intel, 256
      counts at 2^-8 J per count are 1 J. */
  lemma ConversionExamples()
    ensures AmdWatts(5000000, 0) == 5000000.0
    ensures AmdWatts(327680, 16) == 5.0
    ensures IntelAddPower(256, Power(0.5, 8)) == 1.0
  {
    assert Raw(5000000) == 5000000.0 && Pow2(0) == 1;
    Pow2Of16();
    assert AmdWatts(327680, 16) == 327680.0 / 65536.0;
    var e := 8;
    HalfPower(e);
    assert Pow2(e) == 256;
    assert Power(0.5, e) == 1.0 / 256.0;
    assert IntelAddPower(256, Power(0.5, e)) == 256.0 * (1.0 / 256.0);
  }

  /** The AMD conversion is strictly monotone in the counter: no wrap-around
      correction is made, so a counter that rolled over gives a smaller
      reading and hence a negative delta. */
  lemma AmdWattsMonotone(a: Msr64, b: Msr64, e: nat)
    ensures a < b <==> AmdWatts(a, e) < AmdWatts(b, e)
  {
    assert a < b <==> Raw(a) < Raw(b);
    DivisionMonotone(Raw(a), Raw(b), Pow2(e) as real);
  }

  lemma DivisionMonotone(x: real, y: real, p: real)
    requires p > 0.0
    ensures x < y <==> x / p < y / p
  {
    assert (x / p) * p == x && (y / p) * p == y;
    if x / p < y / p {
      assert (x / p) * p < (y / p) * p;
    }
  }
}
