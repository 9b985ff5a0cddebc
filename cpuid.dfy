/** Processor identification: decoding the CPUID version word, classifying the
    vendor string, the per-vendor family/model support tables, the topology
    query that gives the sharing factor, and the configuration that
    identification hands to the rest of the program. */
module CpuId {
  import opened Outcomes

  /** A 32-bit CPUID register value (the source's `u_int`). */
  type Word = bv32

  /** The four registers one CPUID query returns. */
  datatype Regs = Regs(eax: Word, ebx: Word, ecx: Word, edx: Word)

  // Masks of the version-information word (CPUID leaf 1, EAX).
  const CPUID_MODEL: Word := 0x0000_00F0
  const CPUID_FAMILY: Word := 0x0000_0F00
  const CPUID_EXT_MODEL: Word := 0x000F_0000
  const CPUID_EXT_FAMILY: Word := 0x0FF0_0000

  // The fields of the version-information word, as the Intel SDM Vol. 2A
  // describes them for the CPUID instruction (Figure 3-6).
  function BaseModel(eax: Word): Word { (eax >> 4) & 0xF }
  function BaseFamily(eax: Word): Word { (eax >> 8) & 0xF }
  function ExtModel(eax: Word): Word { (eax >> 16) & 0xF }
  function ExtFamily(eax: Word): Word { (eax >> 20) & 0xFF }

  /** CPUID_TO_FAMILY: the base family plus the extended family, added for
      every base family. */
  function Family(eax: Word): (f: Word)
    ensures f == BaseFamily(eax) + ExtFamily(eax)
    ensures f <= 0xF + 0xFF
  {
    ((eax & CPUID_FAMILY) >> 8) + ((eax & CPUID_EXT_FAMILY) >> 20)
  }

  /** CPUID_TO_MODEL: the base model in bits 0-3 and the extended model in
      bits 4-7, for every base family. */
  function Model(eax: Word): (m: Word)
    ensures m & 0xF == BaseModel(eax)
    ensures m >> 4 == ExtModel(eax)
    ensures m < 0x100
  {
    ((eax & CPUID_MODEL) >> 4) | ((eax & CPUID_EXT_MODEL) >> 12)
  }

  /** The displayed family as the Intel SDM defines it: the extended family
      counts only when the base family is 0xF. */
  function SdmFamily(eax: Word): Word {
    if BaseFamily(eax) == 0xF then BaseFamily(eax) + ExtFamily(eax) else BaseFamily(eax)
  }

  /** The displayed model as the Intel SDM defines it: the extended model
      counts only when the base family is 6 or 0xF. */
  function SdmModel(eax: Word): Word {
    if BaseFamily(eax) == 6 || BaseFamily(eax) == 0xF then (ExtModel(eax) << 4) + BaseModel(eax)
    else BaseModel(eax)
  }

  /** The unconditional addition agrees with the SDM exactly when the base
      family is 0xF or the extended family is zero. */
  lemma FamilyAgreesWithSdm(eax: Word)
    ensures Family(eax) == SdmFamily(eax) <==> (BaseFamily(eax) == 0xF || ExtFamily(eax) == 0)
  {
  }

  /** The unconditional OR agrees with the SDM exactly when the base family is
      6 or 0xF or the extended model is zero. */
  lemma ModelAgreesWithSdm(eax: Word)
    ensures Model(eax) == SdmModel(eax) <==>
      (BaseFamily(eax) == 6 || BaseFamily(eax) == 0xF || ExtModel(eax) == 0)
  {
  }

  // ---------------------------------------------------------------------
  // Vendor string

  /** The four bytes of a register, lowest first (x86 is little-endian). */
  function LeBytes(w: Word): (b: seq<bv8>)
    ensures |b| == 4
  {
    [(w & 0xFF) as bv8, ((w >> 8) & 0xFF) as bv8, ((w >> 16) & 0xFF) as bv8, (w >> 24) as bv8]
  }

  /** The 12 vendor bytes of CPUID leaf 0: EBX, then EDX, then ECX. */
  function VendorBytes(leaf0: Regs): (b: seq<bv8>)
    ensures |b| == 12
  {
    LeBytes(leaf0.ebx) + LeBytes(leaf0.edx) + LeBytes(leaf0.ecx)
  }

  /** The C string a byte buffer holds: everything before the first NUL. */
  function CString(s: seq<bv8>): (r: seq<bv8>)
    ensures |r| <= |s| && r == s[..|r|]
    ensures 0 !in r
    ensures |r| < |s| ==> s[|r|] == 0
  {
    if s == [] || s[0] == 0 then [] else [s[0]] + CString(s[1..])
  }

  function ByteChar(b: bv8): char { (b as int) as char }

  /** The bytes read as characters (the vendor string is ASCII). */
  function Chars(s: seq<bv8>): (r: string)
    ensures |r| == |s|
  {
    seq(|s|, i requires 0 <= i < |s| => ByteChar(s[i]))
  }

  /** `cpu_vendor` as the string that `strncmp` compares: the 12 vendor bytes,
      cut at the first NUL. */
  function VendorString(leaf0: Regs): string {
    Chars(CString(VendorBytes(leaf0)))
  }

  const AMD_VENDOR: string := "AuthenticAMD"
  const INTEL_VENDOR: string := "GenuineIntel"

  lemma CharsInjective(a: seq<bv8>, b: seq<bv8>)
    requires Chars(a) == Chars(b)
    ensures a == b
  {
    assert |a| == |b|;
    forall i | 0 <= i < |a| ensures a[i] == b[i] {
      assert Chars(a)[i] == ByteChar(a[i]) && Chars(b)[i] == ByteChar(b[i]);
    }
  }

  lemma LeBytesInjective(v: Word, w: Word)
    requires LeBytes(v) == LeBytes(w)
    ensures v == w
  {
    var bv, bw := LeBytes(v), LeBytes(w);
    assert bv[0] == bw[0] && bv[1] == bw[1] && bv[2] == bw[2] && bv[3] == bw[3];
  }

  /** A vendor string of full length consists of exactly the three registers'
      bytes, so it determines them. */
  lemma VendorStringDeterminesRegs(leaf0: Regs, name: string, ebx: Word, edx: Word, ecx: Word)
    requires |name| == 12 && '\0' !in name
    requires name == Chars(LeBytes(ebx) + LeBytes(edx) + LeBytes(ecx))
    ensures VendorString(leaf0) == name <==>
      (leaf0.ebx == ebx && leaf0.edx == edx && leaf0.ecx == ecx)
  {
    var b := VendorBytes(leaf0);
    var n := LeBytes(ebx) + LeBytes(edx) + LeBytes(ecx);
    if VendorString(leaf0) == name {
      assert CString(b) == b;
      CharsInjective(b, n);
      assert LeBytes(leaf0.ebx) == b[..4] == n[..4];
      assert LeBytes(leaf0.edx) == b[4..8] == n[4..8];
      assert LeBytes(leaf0.ecx) == b[8..] == n[8..];
      LeBytesInjective(leaf0.ebx, ebx);
      LeBytesInjective(leaf0.edx, edx);
      LeBytesInjective(leaf0.ecx, ecx);
    }
    if leaf0.ebx == ebx && leaf0.edx == edx && leaf0.ecx == ecx {
      assert b == n;
      assert 0 !in b by {
        forall i | 0 <= i < 12 ensures b[i] != 0 {
          assert ByteChar(b[i]) == name[i] && name[i] != '\0';
        }
      }
      assert CString(b) == b;
    }
  }

  /** The vendor is "AuthenticAMD" exactly for EBX "Auth", EDX "enti", ECX "cAMD". */
  lemma AmdVendorRegs(leaf0: Regs)
    ensures VendorString(leaf0) == AMD_VENDOR <==>
      (leaf0.ebx == 0x6874_7541 && leaf0.edx == 0x6974_6E65 && leaf0.ecx == 0x444D_4163)
  {
    var n: seq<bv8> := [0x41, 0x75, 0x74, 0x68, 0x65, 0x6E, 0x74, 0x69, 0x63, 0x41, 0x4D, 0x44];
    assert LeBytes(0x6874_7541) + LeBytes(0x6974_6E65) + LeBytes(0x444D_4163) == n;
    assert Chars(n) == AMD_VENDOR;
    VendorStringDeterminesRegs(leaf0, AMD_VENDOR, 0x6874_7541, 0x6974_6E65, 0x444D_4163);
  }

  /** The vendor is "GenuineIntel" exactly for EBX "Genu", EDX "ineI", ECX "ntel". */
  lemma IntelVendorRegs(leaf0: Regs)
    ensures VendorString(leaf0) == INTEL_VENDOR <==>
      (leaf0.ebx == 0x756E_6547 && leaf0.edx == 0x4965_6E69 && leaf0.ecx == 0x6C65_746E)
  {
    var n: seq<bv8> := [0x47, 0x65, 0x6E, 0x75, 0x69, 0x6E, 0x65, 0x49, 0x6E, 0x74, 0x65, 0x6C];
    assert LeBytes(0x756E_6547) + LeBytes(0x4965_6E69) + LeBytes(0x6C65_746E) == n;
    assert Chars(n) == INTEL_VENDOR;
    VendorStringDeterminesRegs(leaf0, INTEL_VENDOR, 0x756E_6547, 0x4965_6E69, 0x6C65_746E);
  }

  // ---------------------------------------------------------------------
  // Support tables

  datatype Vendor = AMD | Intel

  const AMD_ENERGY_CORE_MSR: nat := 0xC001_029A
  const AMD_ENERGY_PKG_MSR: nat := 0xC001_029B
  const INTEL_ENERGY_PKG_MSR: nat := 0x611
  const INTEL_ENERGY_DRAM_MSR: nat := 0x619

  /** The AMD switch: a family switch whose cases are model switches; every
      family and model that is not a listed case reaches "unsupported CPU". */
  predicate AmdSupported(family: Word, model: Word) {
    if family == 0x17 then
      model == 0x08 || model == 0x31
    else if family == 0x19 then
      model == 0x01 || model == 0x30 || model == 0x10 || model == 0x11 || model == 0xA0 || model == 0x19
    else if family == 0x1A then
      model == 0x02 || model == 0x10 || model == 0x11
    else
      false
  }

  /** The supported AMD processors as a flat list of (family, model) pairs. */
  const AMD_TABLE: set<(Word, Word)> := {
    (0x17, 0x08), (0x17, 0x31),
    (0x19, 0x01), (0x19, 0x10), (0x19, 0x11), (0x19, 0x19), (0x19, 0x30), (0x19, 0xA0),
    (0x1A, 0x02), (0x1A, 0x10), (0x1A, 0x11)
  }

  /** The nested switch accepts exactly the pairs of the flat table. */
  lemma AmdSwitchIsTable(family: Word, model: Word)
    ensures AmdSupported(family, model) <==> (family, model) in AMD_TABLE
  {
  }

  /** The Intel check as written: the family must be 6; the model switch that
      follows has only cases that `break` and no `default`, so it accepts
      every model. */
  predicate IntelSupportedAsWritten(family: Word, model: Word) {
    family == 6
  }

  /** The Intel check as evidently intended: family 6 and one of the models
      the switch lists (0x4F, 0x55, 0x56). */
  predicate IntelSupported(family: Word, model: Word) {
    family == 6 && (model == 0x4F || model == 0x55 || model == 0x56)
  }

  /** The two Intel checks differ exactly on the family-6 models that the
      switch does not list; model 0x3A (a processor without a case) is one. */
  lemma IntelSwitchAcceptsUnlistedModels(family: Word, model: Word)
    ensures IntelSupportedAsWritten(family, model) && !IntelSupported(family, model) <==>
      family == 6 && model !in {0x4F, 0x55, 0x56}
    ensures IntelSupportedAsWritten(6, 0x3A) && !IntelSupported(6, 0x3A)
    ensures IntelSupported(family, model) ==> IntelSupportedAsWritten(family, model)
  {
  }

  // ---------------------------------------------------------------------
  // Topology

  /** The number of logical CPUs that share one energy counter: bits 15:8 of
      EBX of CPUID leaf 0x8000001E, plus one. */
  function ShareCount(topo: Regs): (n: nat)
    ensures 1 <= n <= 256
  {
    (((topo.ebx >> 8) & 0xFF) as nat) + 1
  }

  /** Only bits 15:8 of EBX decide the sharing factor. */
  lemma ShareCountReadsBits15To8(topo: Regs, other: Regs)
    requires topo.ebx & 0xFF00 == other.ebx & 0xFF00
    ensures ShareCount(topo) == ShareCount(other)
  {
    assert (topo.ebx >> 8) & 0xFF == (other.ebx >> 8) & 0xFF;
  }

  /** The number of energy domains: the configured processor count divided
      (rounding down) by the sharing factor. It is zero when there are fewer
      processors than threads per domain. */
  function CpuCount(nprocs: nat, share: nat): (n: nat)
    requires share >= 1
    ensures n * share <= nprocs < (n + 1) * share
    ensures n == 0 <==> nprocs < share
  {
    nprocs / share
  }

  // ---------------------------------------------------------------------
  // Identification

  /** What identification fixes for the rest of the run: the vendor, the
      decoded family and model, the energy-counter register ids (0 for a
      counter the vendor does not have), the sharing factor and the number
      of energy domains. */
  datatype Config = Config(
    cpu: Vendor,
    family: Word,
    model: Word,
    pkgMsr: nat,
    coreMsr: nat,
    dramMsr: nat,
    shareCount: nat,
    cpuCount: nat)

  /** The energy-counter registers of the vendor: package and core on AMD,
      package and DRAM on Intel, 0 for the counter the vendor lacks. */
  ghost predicate VendorRegisters(c: Config) {
    && (c.cpu == AMD ==>
          c.pkgMsr == AMD_ENERGY_PKG_MSR && c.coreMsr == AMD_ENERGY_CORE_MSR && c.dramMsr == 0)
    && (c.cpu == Intel ==>
          c.pkgMsr == INTEL_ENERGY_PKG_MSR && c.coreMsr == 0 && c.dramMsr == INTEL_ENERGY_DRAM_MSR)
  }

  /** What every configuration either identification produces satisfies,
      the code as written included: a sharing factor in 1..256 and the
      vendor's counter registers. Everything after identification relies on
      this alone. */
  ghost predicate WellFormed(c: Config) {
    1 <= c.shareCount <= 256 && VendorRegisters(c)
  }

  /** What every configuration produced by the corrected identification
      satisfies: well formed, and a (family, model) pair the vendor's
      support check accepts. */
  ghost predicate ValidConfig(c: Config) {
    && WellFormed(c)
    && (c.cpu == AMD ==> AmdSupported(c.family, c.model))
    && (c.cpu == Intel ==> IntelSupported(c.family, c.model))
  }

  function MakeConfig(cpu: Vendor, leaf1: Regs, topo: Regs, nprocs: nat): Config {
    var share := ShareCount(topo);
    Config(cpu, Family(leaf1.eax), Model(leaf1.eax),
           if cpu == AMD then AMD_ENERGY_PKG_MSR else INTEL_ENERGY_PKG_MSR,
           if cpu == AMD then AMD_ENERGY_CORE_MSR else 0,
           if cpu == AMD then 0 else INTEL_ENERGY_DRAM_MSR,
           share, CpuCount(nprocs, share))
  }

  /** The classification part of `identify_cpu`: from the CPUID leaves 0, 1
      and 0x8000001E and the configured processor count to a configuration
      or the "unsupported" exit. */
  function Identify(leaf0: Regs, leaf1: Regs, topo: Regs, nprocs: nat): (r: Result<Config>)
    ensures r.Success? <==>
      || (VendorString(leaf0) == AMD_VENDOR && (Family(leaf1.eax), Model(leaf1.eax)) in AMD_TABLE)
      || (VendorString(leaf0) == INTEL_VENDOR && IntelSupported(Family(leaf1.eax), Model(leaf1.eax)))
    ensures r.Success? ==>
      && ValidConfig(r.value)
      && (r.value.cpu == AMD <==> VendorString(leaf0) == AMD_VENDOR)
      && r.value.family == Family(leaf1.eax) && r.value.model == Model(leaf1.eax)
      && r.value.shareCount == ShareCount(topo)
      && r.value.cpuCount * r.value.shareCount <= nprocs < (r.value.cpuCount + 1) * r.value.shareCount
    ensures r.Failure? ==>
      r.error == if VendorString(leaf0) in {AMD_VENDOR, INTEL_VENDOR}
                 then UnsupportedCpu(Family(leaf1.eax), Model(leaf1.eax))
                 else UnsupportedVendor(VendorString(leaf0))
  {
    var vendor := VendorString(leaf0);
    var family, model := Family(leaf1.eax), Model(leaf1.eax);
    if vendor == AMD_VENDOR then
      AmdSwitchIsTable(family, model);
      if AmdSupported(family, model) then Success(MakeConfig(AMD, leaf1, topo, nprocs))
      else Failure(UnsupportedCpu(family, model))
    else if vendor == INTEL_VENDOR then
      if IntelSupported(family, model) then Success(MakeConfig(Intel, leaf1, topo, nprocs))
      else Failure(UnsupportedCpu(family, model))
    else
      Failure(UnsupportedVendor(vendor))
  }

  /** `identify_cpu` as written: the same classification, except that on
      Intel any family-6 model passes, because the model switch has no
      `default`. */
  function IdentifyAsWritten(leaf0: Regs, leaf1: Regs, topo: Regs, nprocs: nat): (r: Result<Config>)
    ensures r.Success? <==>
      || (VendorString(leaf0) == AMD_VENDOR && (Family(leaf1.eax), Model(leaf1.eax)) in AMD_TABLE)
      || (VendorString(leaf0) == INTEL_VENDOR && Family(leaf1.eax) == 6)
    ensures r.Success? ==>
      && WellFormed(r.value)
      && (r.value.cpu == AMD <==> VendorString(leaf0) == AMD_VENDOR)
      && r.value.family == Family(leaf1.eax) && r.value.model == Model(leaf1.eax)
      && r.value.shareCount == ShareCount(topo)
      && r.value.cpuCount * r.value.shareCount <= nprocs < (r.value.cpuCount + 1) * r.value.shareCount
    ensures r.Failure? ==>
      r.error == if VendorString(leaf0) in {AMD_VENDOR, INTEL_VENDOR}
                 then UnsupportedCpu(Family(leaf1.eax), Model(leaf1.eax))
                 else UnsupportedVendor(VendorString(leaf0))
  {
    var vendor := VendorString(leaf0);
    var family, model := Family(leaf1.eax), Model(leaf1.eax);
    if vendor == AMD_VENDOR then
      AmdSwitchIsTable(family, model);
      if AmdSupported(family, model) then Success(MakeConfig(AMD, leaf1, topo, nprocs))
      else Failure(UnsupportedCpu(family, model))
    else if vendor == INTEL_VENDOR then
      if IntelSupportedAsWritten(family, model) then Success(MakeConfig(Intel, leaf1, topo, nprocs))
      else Failure(UnsupportedCpu(family, model))
    else
      Failure(UnsupportedVendor(vendor))
  }

  /** The corrected identification differs from the code as written exactly
      on "GenuineIntel" with family 6 and a model the switch does not list;
      there the code accepts and the correction reports an unsupported CPU.
      Everywhere else the two give the same result. */
  lemma IdentifyCorrection(leaf0: Regs, leaf1: Regs, topo: Regs, nprocs: nat)
    ensures Identify(leaf0, leaf1, topo, nprocs) != IdentifyAsWritten(leaf0, leaf1, topo, nprocs) <==>
      && VendorString(leaf0) == INTEL_VENDOR
      && Family(leaf1.eax) == 6
      && Model(leaf1.eax) !in {0x4F, 0x55, 0x56}
    ensures Identify(leaf0, leaf1, topo, nprocs) != IdentifyAsWritten(leaf0, leaf1, topo, nprocs) ==>
      && IdentifyAsWritten(leaf0, leaf1, topo, nprocs).Success?
      && Identify(leaf0, leaf1, topo, nprocs) == Failure(UnsupportedCpu(6, Model(leaf1.eax)))
  {
    IntelSwitchAcceptsUnlistedModels(Family(leaf1.eax), Model(leaf1.eax));
  }

  /** A concrete processor that shows the difference: "GenuineIntel" with
      version word 0x000306A0 (family 6, model 0x3A). The configuration the
      code accepts for it is well formed, so everything after identification
      applies to it, yet it fails the corrected support check. */
  lemma IdentifyCorrectionExample(topo: Regs, nprocs: nat)
    ensures
      var leaf0 := Regs(0, 0x756E_6547, 0x6C65_746E, 0x4965_6E69);
      var leaf1 := Regs(0x0003_06A0, 0, 0, 0);
      && Family(leaf1.eax) == 6 && Model(leaf1.eax) == 0x3A
      && IdentifyAsWritten(leaf0, leaf1, topo, nprocs).Success?
      && WellFormed(IdentifyAsWritten(leaf0, leaf1, topo, nprocs).value)
      && !ValidConfig(IdentifyAsWritten(leaf0, leaf1, topo, nprocs).value)
      && Identify(leaf0, leaf1, topo, nprocs) == Failure(UnsupportedCpu(6, 0x3A))
  {
    var leaf0 := Regs(0, 0x756E_6547, 0x6C65_746E, 0x4965_6E69);
    var leaf1 := Regs(0x0003_06A0, 0, 0, 0);
    IntelVendorRegs(leaf0);
    assert Family(leaf1.eax) == 6 && Model(leaf1.eax) == 0x3A;
    IdentifyCorrection(leaf0, leaf1, topo, nprocs);
  }
}
