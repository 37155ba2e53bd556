/**
 The triage rules (linux_info_mcp/tools/triage.py, _build_warnings). A ratio that Python can form is an
 exact real number, one that it cannot is the exception it raises. Of the free text of a warning only
 its subject is modelled, and that printing the losses of an interface can pass the digit limit: every
 other number in it is one that int() has read, or a small count.
 */
module Warnings {
  import opened Wrappers
  import opened Text
  import opened Numbers

  // ----- thresholds

  const LOAD_PER_CPU_WARN := 1.5
  const LOAD_PER_CPU_CRIT := 4.0
  const MEM_AVAIL_FRAC_WARN := 0.10
  const MEM_AVAIL_FRAC_CRIT := 0.05
  const SWAP_USED_FRAC_WARN := 0.50
  const DISK_USE_PCT_WARN := 90
  const DISK_USE_PCT_CRIT := 95
  const PSI_AVG10_WARN := 20.0
  const INODES_USE_PCT_WARN := 90
  const INODES_USE_PCT_CRIT := 95
  const ZOMBIE_WARN := 1
  const DSTATE_WARN := 5
  const CLOCK_OFFSET_WARN_S := 0.1
  const CONNTRACK_FRAC_WARN := 0.90
  const CONNTRACK_FRAC_CRIT := 0.95
  const NIC_ERR_RATIO_WARN := 0.01
  const NIC_ERR_MIN_ABS := 100
  /** Bits 2, 4, 5, 7 and 9. */
  const CONCERNING_TAINT_MASK := 4 + 16 + 32 + 128 + 512

  // ----- facts

  datatype Disk = Disk(mount: string, usePct: int)

  datatype Nic = Nic(iface: string, rxPackets: int, rxErrs: int, rxDrop: int, txPackets: int, txErrs: int, txDrop: int)

  datatype Stall = Stall(resource: string, avg10: Option<real>)

  datatype Proc = Proc(pid: int, comm: string, pcpu: Option<real>, pmem: Option<real>)

  /** No rule reads the two longer load averages or the top processes. */
  datatype Facts = Facts(
    load1: Option<real>, load5: Option<real>, load15: Option<real>, nproc: Option<nat>,
    memTotal: Option<nat>, memAvailable: Option<nat>, swapTotal: Option<nat>, swapFree: Option<nat>,
    disks: seq<Disk>, failedUnits: seq<string>,
    psi: seq<Stall>,
    oomRecent: seq<string>, inodes: seq<Disk>, zombie: nat, dstate: nat,
    clockOffset: Option<real>, leap: Option<string>,
    conntrackCount: Option<nat>, conntrackMax: Option<nat>,
    rebootRequired: bool, kernelTainted: Option<nat>, nics: seq<Nic>, topCpu: seq<Proc>)

  datatype Kind =
    | HighLoad | LowMemory | SwapPressure | DiskFull | FailedUnits | Pressure | OomRecent | InodesFull
    | ZombieProcs | StuckProcs | ClockSkew | ClockUnsynced | ConntrackFull | RebootRequired | KernelTainted
    | NicErrors

  /** What a rule decides; a warning is Warn or Crit. */
  datatype Level = Quiet | Warn | Crit

  datatype Warning = Warning(kind: Kind, severity: Level, subject: string)

  // ----- one rule each

  function Present(n: Option<nat>): (r: bool)
    ensures r <==> n.Some? && n.value > 0
  {
    n.Some? && n.value != 0
  }

  function LoadLevel(load1: Option<real>, nproc: Option<nat>): Level {
    if load1.Some? && Present(nproc) then
      var ratio := load1.value / nproc.value as real;
      if ratio >= LOAD_PER_CPU_WARN then if ratio >= LOAD_PER_CPU_CRIT then Crit else Warn else Quiet
    else Quiet
  }

  function MemoryLevel(total: Option<nat>, avail: Option<nat>): Level {
    if Present(total) && avail.Some? then
      var frac := avail.value as real / total.value as real;
      if frac < MEM_AVAIL_FRAC_WARN then if frac < MEM_AVAIL_FRAC_CRIT then Crit else Warn else Quiet
    else Quiet
  }

  function SwapLevel(total: Option<nat>, free: Option<nat>): Level {
    if Present(total) && free.Some? then
      var usedFrac := (total.value - free.value) as real / total.value as real;
      if usedFrac > SWAP_USED_FRAC_WARN then Warn else Quiet
    else Quiet
  }

  /** The rule for both space and inodes. */
  function UsageLevel(pct: int, warn: int, crit: int): Level {
    if pct >= warn then if pct >= crit then Crit else Warn else Quiet
  }

  function PressureLevel(avg10: Option<real>): Level {
    if avg10.Some? && avg10.value > PSI_AVG10_WARN then Warn else Quiet
  }

  function Abs(x: real): real { if x < 0.0 then -x else x }

  function SkewLevel(offset: Option<real>): Level {
    if offset.Some? && Abs(offset.value) > CLOCK_OFFSET_WARN_S then Warn else Quiet
  }

  function LeapLevel(leap: Option<string>): Level {
    if leap.Some? && Lower(leap.value) != "normal" then Warn else Quiet
  }

  function ConntrackLevel(count: Option<nat>, max: Option<nat>): Level {
    if count.Some? && Present(max) then
      var frac := count.value as real / max.value as real;
      if frac >= CONNTRACK_FRAC_WARN then if frac >= CONNTRACK_FRAC_CRIT then Crit else Warn else Quiet
    else Quiet
  }

  /** a & b */
  function BitAnd(a: nat, b: nat): nat {
    if a == 0 || b == 0 then 0 else 2 * BitAnd(a / 2, b / 2) + (a % 2) * (b % 2)
  }

  function TaintLevel(taint: Option<nat>): Level {
    if Present(taint) && BitAnd(taint.value, CONCERNING_TAINT_MASK) != 0 then Warn else Quiet
  }

  /** The ratios of one direction divide by `packets + 1`. */
  predicate Lossy(errs: int, drop: int, packets: int)
    requires packets != -1
  {
    errs + drop >= NIC_ERR_MIN_ABS && (errs + drop) as real / (packets + 1) as real > NIC_ERR_RATIO_WARN
  }

  /** Both ratios are computed before either is used. */
  predicate Divides(nic: Nic) { nic.rxPackets != -1 && nic.txPackets != -1 }

  function NicLevel(nic: Nic): Level
    requires Divides(nic)
  {
    if Lossy(nic.rxErrs, nic.rxDrop, nic.rxPackets) || Lossy(nic.txErrs, nic.txDrop, nic.txPackets) then Warn
    else Quiet
  }

  // ----- all rules

  function Report(kind: Kind, subject: string, level: Level): seq<Warning> {
    if level == Quiet then [] else [Warning(kind, level, subject)]
  }

  function UsageWarnings(kind: Kind, warn: int, crit: int, disks: seq<Disk>): seq<Warning> {
    if disks == [] then []
    else
      var last := disks[|disks| - 1];
      UsageWarnings(kind, warn, crit, disks[..|disks| - 1])
      + Report(kind, last.mount, UsageLevel(last.usePct, warn, crit))
  }

  function StallWarnings(psi: seq<Stall>): seq<Warning> {
    if psi == [] then []
    else
      var last := psi[|psi| - 1];
      StallWarnings(psi[..|psi| - 1]) + Report(Pressure, last.resource, PressureLevel(last.avg10))
  }

  predicate AllDivide(nics: seq<Nic>) { forall i | 0 <= i < |nics| :: Divides(nics[i]) }

  function NicWarnings(nics: seq<Nic>): seq<Warning>
    requires AllDivide(nics)
  {
    if nics == [] then []
    else
      var last := nics[|nics| - 1];
      NicWarnings(nics[..|nics| - 1]) + Report(NicErrors, last.iface, NicLevel(last))
  }

  function LoadAndMemoryWarnings(f: Facts): seq<Warning> {
    Report(HighLoad, "", LoadLevel(f.load1, f.nproc))
    + Report(LowMemory, "", MemoryLevel(f.memTotal, f.memAvailable))
    + Report(SwapPressure, "", SwapLevel(f.swapTotal, f.swapFree))
  }

  function UnitsLevel(failedUnits: seq<string>): Level { if failedUnits != [] then Warn else Quiet }

  function OomLevel(oomRecent: seq<string>): Level { if oomRecent != [] then Crit else Quiet }

  function CountLevel(n: nat, warn: nat): Level { if n > 0 && n >= warn then Warn else Quiet }

  function ProcessWarnings(f: Facts): seq<Warning> {
    Report(ZombieProcs, "", CountLevel(f.zombie, ZOMBIE_WARN))
    + Report(StuckProcs, "", CountLevel(f.dstate, DSTATE_WARN))
    + Report(ClockSkew, "", SkewLevel(f.clockOffset))
    + Report(ClockUnsynced, "", LeapLevel(f.leap))
  }

  function KernelWarnings(f: Facts): seq<Warning> {
    Report(ConntrackFull, "", ConntrackLevel(f.conntrackCount, f.conntrackMax))
    + Report(RebootRequired, "", if f.rebootRequired then Warn else Quiet)
    + Report(KernelTainted, "", TaintLevel(f.kernelTainted))
  }

  /** The warnings of the rules between memory and conntrack, behind those of the rules before them. */
  function EventWarnings(f: Facts, start: seq<Warning>): seq<Warning> {
    start
    + UsageWarnings(DiskFull, DISK_USE_PCT_WARN, DISK_USE_PCT_CRIT, f.disks)
    + Report(FailedUnits, "", UnitsLevel(f.failedUnits))
    + StallWarnings(f.psi)
    + Report(OomRecent, "", OomLevel(f.oomRecent))
    + UsageWarnings(InodesFull, INODES_USE_PCT_WARN, INODES_USE_PCT_CRIT, f.inodes)
    + ProcessWarnings(f)
  }

  /** All the warnings of a machine, in the order of the rules. */
  function WarningsOf(f: Facts): seq<Warning>
    requires AllDivide(f.nics)
  {
    EventWarnings(f, LoadAndMemoryWarnings(f)) + KernelWarnings(f) + NicWarnings(f.nics)
  }

  // ----- where the rules raise

  function Either(first: Option<Error>, second: Option<Error>): Option<Error> {
    if first.Some? then first else second
  }

  /** The value, unless there is a fault. */
  function Unless<T>(fault: Option<Error>, value: T): Result<T> {
    if fault.Some? then Raises(fault.value) else Ok(value)
  }

  function DivisionFault(py: Python, a: int, b: int): Option<Error> {
    match Divide(py, a, b) case Raises(e) => Some(e) case Ok(_) => None
  }

  function LoadFault(py: Python, load1: Option<real>, nproc: Option<nat>): Option<Error> {
    if load1.Some? && Present(nproc) && ToFloat(py, nproc.value).Raises? then Some(CONVERSION_OVERFLOW) else None
  }

  function RatioFault(py: Python, part: Option<int>, total: Option<nat>): Option<Error> {
    if Present(total) && part.Some? then DivisionFault(py, part.value, total.value) else None
  }

  function SwapUsed(total: Option<nat>, free: Option<nat>): Option<int> {
    if total.Some? && free.Some? then Some(total.value - free.value) else None
  }

  function LoadAndMemoryFault(py: Python, f: Facts): Option<Error> {
    Either(LoadFault(py, f.load1, f.nproc),
           Either(RatioFault(py, f.memAvailable, f.memTotal),
                  RatioFault(py, SwapUsed(f.swapTotal, f.swapFree), f.swapTotal)))
  }

  function KernelFault(py: Python, f: Facts): Option<Error> { RatioFault(py, f.conntrackCount, f.conntrackMax) }

  function RxBad(nic: Nic): int { nic.rxErrs + nic.rxDrop }

  function TxBad(nic: Nic): int { nic.txErrs + nic.txDrop }

  /** The losses, each a sum of two numbers that were read, appear in the warning. */
  predicate LossesPrintable(py: Python, nic: Nic) { Printable(py, RxBad(nic)) && Printable(py, TxBad(nic)) }

  function DetailFault(py: Python, nic: Nic): Option<Error> {
    if Divides(nic) && NicLevel(nic) == Warn && !LossesPrintable(py, nic) then Some(TOO_MANY_DIGITS) else None
  }

  function NicFault(py: Python, nic: Nic): Option<Error> {
    Either(DivisionFault(py, RxBad(nic), nic.rxPackets + 1),
           Either(DivisionFault(py, TxBad(nic), nic.txPackets + 1), DetailFault(py, nic)))
  }

  /** The exception of the first interface that has one. */
  function NicsFault(py: Python, nics: seq<Nic>): (fault: Option<Error>)
    ensures fault.None? ==> AllDivide(nics)
  {
    if nics == [] then None
    else Either(NicsFault(py, nics[..|nics| - 1]), NicFault(py, nics[|nics| - 1]))
  }

  /** The exceptions of the other rules, in their order. */
  function FactsFault(py: Python, f: Facts): Option<Error> { Either(LoadAndMemoryFault(py, f), KernelFault(py, f)) }

  /** All the warnings of a machine, or the exception of the first rule that raises. */
  function RulesOf(py: Python, f: Facts): Result<seq<Warning>> {
    if FactsFault(py, f).Some? then Raises(FactsFault(py, f).value)
    else
      match NicsFault(py, f.nics)
      case Some(e) => Raises(e)
      case None => Ok(WarningsOf(f))
  }

  /** An interface whose packets make a divisor 0, or whose losses leave a float or the digit limit. */
  predicate IsBadNic(py: Python, nic: Nic) {
    || nic.rxPackets == -1 || Huge(py, RxBad(nic), nic.rxPackets + 1)
    || nic.txPackets == -1 || Huge(py, TxBad(nic), nic.txPackets + 1)
    || (NicLevel(nic) == Warn && !LossesPrintable(py, nic))
  }

  predicate HugeRatio(py: Python, part: Option<int>, total: Option<nat>) {
    part.Some? && Present(total) && Huge(py, part.value, total.value)
  }

  /** A ratio of the load, memory, swap or conntrack rule is no float. */
  predicate HasHugeRatio(py: Python, f: Facts) {
    || (f.load1.Some? && f.nproc.Some? && f.nproc.value > 0 && f.nproc.value >= py.range)
    || HugeRatio(py, f.memAvailable, f.memTotal)
    || HugeRatio(py, SwapUsed(f.swapTotal, f.swapFree), f.swapTotal)
    || HugeRatio(py, f.conntrackCount, f.conntrackMax)
  }

  predicate IsOverflow(e: Error) { e.OtherError? && e.kind == "OverflowError" }

  lemma {:induction false} NicFaultIff(py: Python, nic: Nic)
    ensures NicFault(py, nic).Some? <==> IsBadNic(py, nic)
    ensures NicFault(py, nic) == Some(DIVISION_BY_ZERO) <==>
            nic.rxPackets == -1 || (nic.txPackets == -1 && !Huge(py, RxBad(nic), nic.rxPackets + 1))
  {}

  lemma {:induction false} FactsFaultIff(py: Python, f: Facts)
    ensures FactsFault(py, f).Some? <==> HasHugeRatio(py, f)
    ensures FactsFault(py, f).Some? ==> IsOverflow(FactsFault(py, f).value)
  {}

  lemma {:induction false} NicsFaultIff(py: Python, nics: seq<Nic>)
    ensures NicsFault(py, nics).Some? <==> exists i :: 0 <= i < |nics| && IsBadNic(py, nics[i])
  {
    if nics != [] {
      NicsFaultIff(py, nics[..|nics| - 1]);
      NicFaultIff(py, nics[|nics| - 1]);
    }
  }

  lemma {:induction false} FirstFault(py: Python, nics: seq<Nic>, i: nat)
    requires i < |nics| && IsBadNic(py, nics[i]) && forall j | 0 <= j < i :: !IsBadNic(py, nics[j])
    ensures NicsFault(py, nics) == NicFault(py, nics[i])
  {
    var n := |nics| - 1;
    NicFaultIff(py, nics[i]);
    NicsFaultIff(py, nics[..n]);
    if i < n {
      FirstFault(py, nics[..n], i);
    }
  }

  /** The rules end with warnings unless a ratio of the facts is no float or an interface is bad. */
  lemma {:induction false} RulesRaiseIff(py: Python, f: Facts)
    ensures RulesOf(py, f).Raises? <==>
            HasHugeRatio(py, f) || exists i :: 0 <= i < |f.nics| && IsBadNic(py, f.nics[i])
    ensures HasHugeRatio(py, f) ==>
              RulesOf(py, f).error.OtherError? && RulesOf(py, f).error.kind == "OverflowError"
  {
    FactsFaultIff(py, f);
    NicsFaultIff(py, f.nics);
  }

  /** Where no ratio of the facts is at fault, the first bad interface decides which exception it is. */
  lemma {:induction false} FirstBadNicDecides(py: Python, f: Facts, i: nat)
    requires !HasHugeRatio(py, f)
    requires i < |f.nics| && IsBadNic(py, f.nics[i]) && forall j | 0 <= j < i :: !IsBadNic(py, f.nics[j])
    ensures var nic := f.nics[i];
            var zero := nic.rxPackets == -1 || (nic.txPackets == -1 && !Huge(py, RxBad(nic), nic.rxPackets + 1));
            && (RulesOf(py, f) == Raises(DIVISION_BY_ZERO) <==> zero)
            && (RulesOf(py, f) == Raises(TOO_MANY_DIGITS) <==>
                !Huge(py, RxBad(nic), nic.rxPackets + 1) && !Huge(py, TxBad(nic), nic.txPackets + 1))
            && (RulesOf(py, f) !in {Raises(DIVISION_BY_ZERO), Raises(TOO_MANY_DIGITS)} ==>
                RulesOf(py, f) == Raises(QUOTIENT_OVERFLOW))
  {
    FactsFaultIff(py, f);
    FirstFault(py, f.nics, i);
    NicFaultIff(py, f.nics[i]);
  }

  lemma {:induction false} ThreeDigits(n: nat)
    requires 3 <= n
    ensures 1000 <= Pow10(n)
  {
    if n == 3 {
      assert Pow10(3) == 10 * Pow10(2) == 100 * Pow10(1);
    } else {
      ThreeDigits(n - 1);
    }
  }

  lemma {:induction false} EqualLosses(py: Python, most: nat)
    requires 1 < py.range && 100 <= most
    ensures !Huge(py, 2 * most, most + 1) && !Huge(py, 0, 1) && Lossy(most, most, most)
  {
    assert py.range * (most + 1) >= 2 * (most + 1);
    LossyInWholeNumbers(most, most, most);
  }

  lemma {:induction false} DetailDecides(py: Python, nic: Nic)
    requires Divides(nic) && !Huge(py, RxBad(nic), nic.rxPackets + 1) && !Huge(py, TxBad(nic), nic.txPackets + 1)
    requires Lossy(nic.rxErrs, nic.rxDrop, nic.rxPackets) && !Printable(py, RxBad(nic))
    ensures NicFault(py, nic) == Some(TOO_MANY_DIGITS)
  {}

  /** Under any digit limit an interface whose counters are all read can have losses that are not printed. */
  lemma {:induction false} LossesCanPassTheLimit(py: Python) returns (nic: Nic)
    requires 3 <= py.digits && 1 < py.range
    ensures Printable(py, nic.rxPackets) && Printable(py, nic.rxErrs) && Printable(py, nic.rxDrop)
    ensures nic.txPackets == nic.txErrs == nic.txDrop == 0
    ensures NicFault(py, nic) == Some(TOO_MANY_DIGITS)
  {
    ThreeDigits(py.digits);
    var most := Pow10(py.digits) - 1;
    DigitsOfNat(most, py.digits);
    DigitsOfNat(2 * most, py.digits);
    nic := Nic("eth0", most, most, most, 0, 0, 0);
    EqualLosses(py, most);
    DetailDecides(py, nic);
  }

  // ----- the rule engine

  method CheckLoad(py: Python, load1: Option<real>, nproc: Option<nat>) returns (r: Result<seq<Warning>>)
    ensures r == Unless(LoadFault(py, load1, nproc), Report(HighLoad, "", LoadLevel(load1, nproc)))
  {
    var warnings := [];
    if load1.Some? && Present(nproc) {
      var cpus := ToFloat(py, nproc.value);
      if cpus.Raises? {
        return Raises(cpus.error);
      }
      var ratio := load1.value / cpus.value;
      if ratio >= LOAD_PER_CPU_WARN {
        var sev := if ratio >= LOAD_PER_CPU_CRIT then Crit else Warn;
        warnings := [Warning(HighLoad, sev, "")];
      }
    }
    r := Ok(warnings);
  }

  method CheckMemory(py: Python, total: Option<nat>, avail: Option<nat>) returns (r: Result<seq<Warning>>)
    ensures r == Unless(RatioFault(py, avail, total), Report(LowMemory, "", MemoryLevel(total, avail)))
  {
    var warnings := [];
    if Present(total) && avail.Some? {
      var frac := Divide(py, avail.value, total.value);
      if frac.Raises? {
        return Raises(frac.error);
      }
      if frac.value < MEM_AVAIL_FRAC_WARN {
        var sev := if frac.value < MEM_AVAIL_FRAC_CRIT then Crit else Warn;
        warnings := [Warning(LowMemory, sev, "")];
      }
    }
    r := Ok(warnings);
  }

  method CheckSwap(py: Python, total: Option<nat>, free: Option<nat>) returns (r: Result<seq<Warning>>)
    ensures r == Unless(RatioFault(py, SwapUsed(total, free), total), Report(SwapPressure, "", SwapLevel(total, free)))
  {
    var warnings := [];
    if Present(total) && free.Some? {
      var usedFrac := Divide(py, total.value - free.value, total.value);
      if usedFrac.Raises? {
        return Raises(usedFrac.error);
      }
      if usedFrac.value > SWAP_USED_FRAC_WARN {
        warnings := [Warning(SwapPressure, Warn, "")];
      }
    }
    r := Ok(warnings);
  }

  method CheckLoadAndMemory(py: Python, f: Facts) returns (r: Result<seq<Warning>>)
    ensures r == Unless(LoadAndMemoryFault(py, f), LoadAndMemoryWarnings(f))
  {
    var load := CheckLoad(py, f.load1, f.nproc);
    if load.Raises? {
      return load;
    }
    var memory := CheckMemory(py, f.memTotal, f.memAvailable);
    if memory.Raises? {
      return memory;
    }
    var swap := CheckSwap(py, f.swapTotal, f.swapFree);
    if swap.Raises? {
      return swap;
    }
    r := Ok(load.value + memory.value + swap.value);
  }

  method CheckUsage(kind: Kind, warn: int, crit: int, disks: seq<Disk>) returns (warnings: seq<Warning>)
    ensures warnings == UsageWarnings(kind, warn, crit, disks)
  {
    warnings := [];
    for i := 0 to |disks|
      invariant warnings == UsageWarnings(kind, warn, crit, disks[..i])
    {
      assert disks[..i + 1][..i] == disks[..i];
      var pct := disks[i].usePct;
      if pct >= warn {
        var sev := if pct >= crit then Crit else Warn;
        warnings := warnings + [Warning(kind, sev, disks[i].mount)];
      }
    }
    assert disks[..|disks|] == disks;
  }

  method CheckStalls(psi: seq<Stall>) returns (warnings: seq<Warning>)
    ensures warnings == StallWarnings(psi)
  {
    warnings := [];
    for i := 0 to |psi|
      invariant warnings == StallWarnings(psi[..i])
    {
      assert psi[..i + 1][..i] == psi[..i];
      if psi[i].avg10.Some? && psi[i].avg10.value > PSI_AVG10_WARN {
        warnings := warnings + [Warning(Pressure, Warn, psi[i].resource)];
      }
    }
    assert psi[..|psi|] == psi;
  }

  method CheckProcesses(f: Facts) returns (warnings: seq<Warning>)
    ensures warnings == ProcessWarnings(f)
  {
    warnings := [];
    if f.zombie != 0 && f.zombie >= ZOMBIE_WARN {
      warnings := warnings + [Warning(ZombieProcs, Warn, "")];
    }
    if f.dstate != 0 && f.dstate >= DSTATE_WARN {
      warnings := warnings + [Warning(StuckProcs, Warn, "")];
    }
    if f.clockOffset.Some? && Abs(f.clockOffset.value) > CLOCK_OFFSET_WARN_S {
      warnings := warnings + [Warning(ClockSkew, Warn, "")];
    }
    if f.leap.Some? && Lower(f.leap.value) != "normal" {
      warnings := warnings + [Warning(ClockUnsynced, Warn, "")];
    }
  }

  method CheckConntrack(py: Python, count: Option<nat>, max: Option<nat>) returns (r: Result<seq<Warning>>)
    ensures r == Unless(RatioFault(py, count, max), Report(ConntrackFull, "", ConntrackLevel(count, max)))
  {
    var warnings := [];
    if count.Some? && Present(max) {
      var frac := Divide(py, count.value, max.value);
      if frac.Raises? {
        return Raises(frac.error);
      }
      if frac.value >= CONNTRACK_FRAC_WARN {
        var sev := if frac.value >= CONNTRACK_FRAC_CRIT then Crit else Warn;
        warnings := [Warning(ConntrackFull, sev, "")];
      }
    }
    r := Ok(warnings);
  }

  method CheckKernel(py: Python, f: Facts) returns (r: Result<seq<Warning>>)
    ensures r == Unless(KernelFault(py, f), KernelWarnings(f))
  {
    var conntrack := CheckConntrack(py, f.conntrackCount, f.conntrackMax);
    if conntrack.Raises? {
      return conntrack;
    }
    var reboot, taint := [], [];
    if f.rebootRequired {
      reboot := [Warning(RebootRequired, Warn, "")];
    }
    if Present(f.kernelTainted) && BitAnd(f.kernelTainted.value, CONCERNING_TAINT_MASK) != 0 {
      taint := [Warning(KernelTainted, Warn, "")];
    }
    r := Ok(conntrack.value + reboot + taint);
  }

  /** The body of the loop over interfaces. */
  method CheckNic(py: Python, nic: Nic) returns (r: Result<seq<Warning>>)
    ensures r.Ok? ==> NicFault(py, nic).None? && r.value == Report(NicErrors, nic.iface, NicLevel(nic))
    ensures r.Raises? ==> NicFault(py, nic) == Some(r.error)
  {
    var rxBad := nic.rxErrs + nic.rxDrop;
    var txBad := nic.txErrs + nic.txDrop;
    var rxRatio := Divide(py, rxBad, nic.rxPackets + 1);
    if rxRatio.Raises? {
      return Raises(rxRatio.error);
    }
    var txRatio := Divide(py, txBad, nic.txPackets + 1);
    if txRatio.Raises? {
      return Raises(txRatio.error);
    }
    if (rxBad >= NIC_ERR_MIN_ABS && rxRatio.value > NIC_ERR_RATIO_WARN)
       || (txBad >= NIC_ERR_MIN_ABS && txRatio.value > NIC_ERR_RATIO_WARN) {
      if !Printable(py, rxBad) || !Printable(py, txBad) {
        return Raises(TOO_MANY_DIGITS);
      }
      return Ok([Warning(NicErrors, Warn, nic.iface)]);
    }
    r := Ok([]);
  }

  /** The loop over interfaces raises exactly when one of them is bad, and then as the first of these does. */
  method CheckNics(py: Python, nics: seq<Nic>) returns (r: Result<seq<Warning>>)
    ensures r.Ok? <==> forall i | 0 <= i < |nics| :: !IsBadNic(py, nics[i])
    ensures r.Ok? ==> NicsFault(py, nics).None? && r.value == NicWarnings(nics)
    ensures r.Raises? ==> NicsFault(py, nics) == Some(r.error)
  {
    var warnings := [];
    NicsFaultIff(py, nics);
    for i := 0 to |nics|
      invariant NicsFault(py, nics[..i]).None? && warnings == NicWarnings(nics[..i])
    {
      assert nics[..i + 1][..i] == nics[..i];
      var nic := CheckNic(py, nics[i]);
      match nic {
        case Ok(ws) => warnings := warnings + ws;
        case Raises(e) =>
          NicFaultIff(py, nics[i]);
          NicsFaultIff(py, nics[..i]);
          FirstFault(py, nics, i);
          return Raises(e);
      }
    }
    assert nics[..|nics|] == nics;
    r := Ok(warnings);
  }

  /**
   The rules end with the warnings of the facts, unless a ratio of the facts is no float or an interface
   is bad; what they raise is the exception of the first of these.
   */
  method BuildWarnings(py: Python, f: Facts) returns (r: Result<seq<Warning>>)
    ensures r == RulesOf(py, f)
    ensures r.Ok? <==> !HasHugeRatio(py, f) && forall i | 0 <= i < |f.nics| :: !IsBadNic(py, f.nics[i])
    ensures HasHugeRatio(py, f) ==> IsOverflow(r.error)
  {
    RulesRaiseIff(py, f);
    var loadAndMemory := CheckLoadAndMemory(py, f);
    if loadAndMemory.Raises? {
      return Raises(loadAndMemory.error);
    }
    var warnings := CheckEvents(f, loadAndMemory.value);
    var kernel := CheckKernel(py, f);
    if kernel.Raises? {
      return Raises(kernel.error);
    }
    warnings := warnings + kernel.value;
    var nics := CheckNics(py, f.nics);
    match nics {
      case Ok(ws) => r := Ok(warnings + ws);
      case Raises(e) => r := Raises(e);
    }
  }

  /** The rules between memory and conntrack, which divide by nothing. */
  method CheckEvents(f: Facts, start: seq<Warning>) returns (warnings: seq<Warning>)
    ensures warnings == EventWarnings(f, start)
  {
    warnings := start;
    var disks := CheckUsage(DiskFull, DISK_USE_PCT_WARN, DISK_USE_PCT_CRIT, f.disks);
    warnings := warnings + disks;
    ghost var soFar := warnings;
    if f.failedUnits != [] {
      warnings := warnings + [Warning(FailedUnits, Warn, "")];
    }
    assert warnings == soFar + Report(FailedUnits, "", UnitsLevel(f.failedUnits));
    var stalls := CheckStalls(f.psi);
    warnings := warnings + stalls;
    soFar := warnings;
    if f.oomRecent != [] {
      warnings := warnings + [Warning(OomRecent, Crit, "")];
    }
    assert warnings == soFar + Report(OomRecent, "", OomLevel(f.oomRecent));
    var inodes := CheckUsage(InodesFull, INODES_USE_PCT_WARN, INODES_USE_PCT_CRIT, f.inodes);
    warnings := warnings + inodes;
    var processes := CheckProcesses(f);
    warnings := warnings + processes;
  }

  // ----- the rules in whole numbers

  lemma {:induction false} DivideOrder(a: int, b: int, k: int, n: int)
    requires b > 0 && n > 0
    ensures a as real / b as real >= k as real / n as real <==> a * n >= k * b
  {
    var q, c := a as real / b as real, k as real / n as real;
    assert q * b as real == a as real && c * n as real == k as real;
    assert (a * n) as real == q * (b as real * n as real);
    assert (k * b) as real == c * (b as real * n as real);
    assert b as real * n as real > 0.0;
    if q >= c {
      assert (q - c) * (b as real * n as real) >= 0.0;
    } else {
      assert (c - q) * (b as real * n as real) > 0.0;
    }
  }

  /** The memory, swap and conntrack rules are comparisons of whole numbers. */
  lemma {:induction false} RulesInWholeNumbers(total: nat, part: nat)
    requires total > 0
    ensures MemoryLevel(Some(total), Some(part))
         == if 20 * part < total then Crit else if 10 * part < total then Warn else Quiet
    ensures SwapLevel(Some(total), Some(part)) == if 2 * part < total then Warn else Quiet
    ensures ConntrackLevel(Some(part), Some(total))
         == if 20 * part >= 19 * total then Crit else if 10 * part >= 9 * total then Warn else Quiet
  {
    MemoryInWholeNumbers(total, part);
    SwapInWholeNumbers(total, part);
    ConntrackInWholeNumbers(total, part);
  }

  lemma {:induction false} MemoryInWholeNumbers(total: nat, part: nat)
    requires total > 0
    ensures MemoryLevel(Some(total), Some(part))
         == if 20 * part < total then Crit else if 10 * part < total then Warn else Quiet
  {
    DivideOrder(part, total, 1, 10);
    DivideOrder(part, total, 1, 20);
  }

  lemma {:induction false} SwapInWholeNumbers(total: nat, part: nat)
    requires total > 0
    ensures SwapLevel(Some(total), Some(part)) == if 2 * part < total then Warn else Quiet
  {
    NegatedQuotient(total - part, total);
    DivideOrder(-(total - part), total, -1, 2);
  }

  lemma {:induction false} NegatedQuotient(a: int, b: int)
    requires b != 0
    ensures (-a) as real / b as real == -(a as real / b as real)
  {
    var q := a as real / b as real;
    assert q * b as real == a as real;
    assert (-q) * b as real == (-a) as real;
  }

  lemma {:induction false} ConntrackInWholeNumbers(total: nat, part: nat)
    requires total > 0
    ensures ConntrackLevel(Some(part), Some(total))
         == if 20 * part >= 19 * total then Crit else if 10 * part >= 9 * total then Warn else Quiet
  {
    DivideOrder(part, total, 9, 10);
    DivideOrder(part, total, 19, 20);
  }

  lemma {:induction false} QuotientAtLeast(a: real, d: real, k: real)
    requires d > 0.0
    ensures a / d >= k <==> a >= k * d
  {
    var q := a / d;
    assert q * d == a;
    assert q >= k ==> (q - k) * d >= 0.0;
    assert q < k ==> (k - q) * d > 0.0;
  }

  /** The load rule compares twice the load with three times, and the load with four times, the CPUs. */
  lemma {:induction false} LoadRuleWithoutDivision(load: real, cpus: nat)
    requires cpus > 0
    ensures LoadLevel(Some(load), Some(cpus))
         == if load >= 4.0 * cpus as real then Crit else if 2.0 * load >= 3.0 * cpus as real then Warn else Quiet
  {
    QuotientAtLeast(load, cpus as real, LOAD_PER_CPU_WARN);
    QuotientAtLeast(load, cpus as real, LOAD_PER_CPU_CRIT);
  }

  /** A direction with a nonnegative packet count is lossy above 1% of the packets, from 100 losses on. */
  lemma {:induction false} LossyInWholeNumbers(errs: int, drop: int, packets: nat)
    ensures Lossy(errs, drop, packets) <==> errs + drop >= 100 && 100 * (errs + drop) > packets + 1
  {
    DivideOrder(-(errs + drop), packets + 1, -1, 100);
  }

  // ----- taint bits

  predicate Bit(n: nat, k: nat) { if k == 0 then n % 2 == 1 else Bit(n / 2, k - 1) }

  lemma {:induction false} CommonBit(a: nat, b: nat, k: nat)
    requires Bit(a, k) && Bit(b, k)
    ensures exists j: nat :: Bit(a, j) && Bit(b, j)
  {}

  lemma {:induction false} BitAndMeets(a: nat, b: nat)
    ensures BitAnd(a, b) != 0 <==> exists k: nat :: Bit(a, k) && Bit(b, k)
  {
    if a == 0 || b == 0 {
      forall k: nat ensures !(Bit(a, k) && Bit(b, k)) {
        ZeroHasNoBits(k);
      }
    } else {
      BitAndMeets(a / 2, b / 2);
      if Bit(a, 0) && Bit(b, 0) {
        CommonBit(a, b, 0);
        assert a % 2 == 1 && b % 2 == 1;
        assert BitAnd(a, b) == 2 * BitAnd(a / 2, b / 2) + 1;
      } else if BitAnd(a, b) != 0 {
        var k: nat :| Bit(a / 2, k) && Bit(b / 2, k);
        assert Bit(a, k + 1) == Bit(a / 2, k) && Bit(b, k + 1) == Bit(b / 2, k);
        CommonBit(a, b, k + 1);
      } else {
        forall k: nat ensures !(Bit(a, k) && Bit(b, k)) {
          if k > 0 {
            assert !(Bit(a / 2, k - 1) && Bit(b / 2, k - 1));
          }
        }
      }
    }
  }

  lemma {:induction false} ZeroHasNoBits(k: nat)
    ensures !Bit(0, k)
  {
    if k > 0 {
      ZeroHasNoBits(k - 1);
    }
  }

  lemma {:induction false} HighBits(n: nat, k: nat)
    requires n < 1024 && k >= 10
    ensures !Bit(n, k)
  {
    var n5 := n / 2 / 2 / 2 / 2 / 2;
    assert Bit(n, k) == Bit(n / 2, k - 1) == Bit(n / 2 / 2, k - 2);
    assert Bit(n / 2 / 2, k - 2) == Bit(n / 2 / 2 / 2, k - 3) == Bit(n / 2 / 2 / 2 / 2, k - 4) == Bit(n5, k - 5);
    assert Bit(n5, k - 5) == Bit(n5 / 2, k - 6) == Bit(n5 / 2 / 2, k - 7);
    assert Bit(n5 / 2 / 2, k - 7) == Bit(n5 / 2 / 2 / 2, k - 8) == Bit(n5 / 2 / 2 / 2 / 2, k - 9);
    assert Bit(n5 / 2 / 2 / 2 / 2, k - 9) == Bit(0, k - 10);
    ZeroHasNoBits(k - 10);
  }

  lemma {:induction false} MaskBits(k: nat)
    ensures Bit(CONCERNING_TAINT_MASK, k) <==> k == 2 || k == 4 || k == 5 || k == 7 || k == 9
  {
    if k >= 10 {
      HighBits(CONCERNING_TAINT_MASK, k);
    } else {
      assert Bit(692, 0) == false && Bit(692, 1) == Bit(346, 0) && Bit(692, 2) == Bit(346, 1) == Bit(173, 0);
      assert Bit(692, 3) == Bit(346, 2) == Bit(173, 1) == Bit(86, 0);
      assert Bit(692, 4) == Bit(346, 3) == Bit(173, 2) == Bit(86, 1) == Bit(43, 0);
    }
  }

  predicate IsFaultBit(k: nat) { k == 2 || k == 4 || k == 5 || k == 7 || k == 9 }

  /** The taint rule fires exactly on the five fault bits, whatever other bits are set. */
  lemma {:induction false} TaintRule(taint: nat)
    ensures TaintLevel(Some(taint)) == Warn <==> exists k: nat :: IsFaultBit(k) && Bit(taint, k)
  {
    BitAndMeets(taint, CONCERNING_TAINT_MASK);
    forall k: nat ensures Bit(CONCERNING_TAINT_MASK, k) <==> IsFaultBit(k) {
      MaskBits(k);
    }
    if taint == 0 {
      forall k: nat ensures !Bit(taint, k) {
        ZeroHasNoBits(k);
      }
    }
  }

  // ----- monotonicity

  predicate AtMost(a: Level, b: Level) { a == Quiet || b == Crit || a == b }

  /** `vs` has every warning of `ws`, in the same order and as often, none less severe. */
  predicate Embeds(ws: seq<Warning>, vs: seq<Warning>)
    decreases |vs|, 1
  {
    || ws == []
    || (vs != [] && (Embeds(ws, vs[..|vs| - 1]) || LastEmbeds(ws, vs)))
  }

  predicate LastEmbeds(ws: seq<Warning>, vs: seq<Warning>)
    requires ws != [] && vs != []
    decreases |vs|, 0
  {
    var w, v := ws[|ws| - 1], vs[|vs| - 1];
    w.kind == v.kind && w.subject == v.subject && AtMost(w.severity, v.severity)
    && Embeds(ws[..|ws| - 1], vs[..|vs| - 1])
  }

  lemma {:induction false} EmbedsPadded(a: seq<Warning>, b: seq<Warning>, d: seq<Warning>)
    requires Embeds(a, b)
    ensures Embeds(a, b + d)
    decreases |d|
  {
    if d == [] {
      assert b + d == b;
    } else {
      EmbedsPadded(a, b, d[..|d| - 1]);
      assert (b + d)[..|b + d| - 1] == b + d[..|d| - 1];
    }
  }

  lemma {:induction false} EmbedsJoin(a: seq<Warning>, b: seq<Warning>, c: seq<Warning>, d: seq<Warning>)
    requires Embeds(a, b) && Embeds(c, d)
    ensures Embeds(a + c, b + d)
    decreases |d|
  {
    if c == [] {
      assert a + c == a;
      EmbedsPadded(a, b, d);
    } else {
      var less := d[..|d| - 1];
      assert (b + d)[..|b + d| - 1] == b + less;
      if Embeds(c, less) {
        EmbedsJoin(a, b, c, less);
      } else {
        assert LastEmbeds(c, d);
        EmbedsJoin(a, b, c[..|c| - 1], less);
        assert (a + c)[..|a + c| - 1] == a + c[..|c| - 1];
        assert LastEmbeds(a + c, b + d);
      }
    }
  }

  lemma {:induction false} ReportEmbeds(kind: Kind, subject: string, a: Level, b: Level)
    requires AtMost(a, b)
    ensures Embeds(Report(kind, subject, a), Report(kind, subject, b))
  {
    if a != Quiet {
      var ws, vs := Report(kind, subject, a), Report(kind, subject, b);
      assert ws[..0] == [] && vs[..0] == [];
      assert LastEmbeds(ws, vs);
    }
  }

  /** A warning of the milder list is in the worse one, at least as severe. */
  lemma {:induction false} EmbedsKeepsEach(ws: seq<Warning>, vs: seq<Warning>, i: nat) returns (j: nat)
    requires Embeds(ws, vs) && i < |ws|
    ensures j < |vs| && vs[j].kind == ws[i].kind && vs[j].subject == ws[i].subject
    ensures AtMost(ws[i].severity, vs[j].severity)
    decreases |vs|
  {
    var less := vs[..|vs| - 1];
    if Embeds(ws, less) {
      j := EmbedsKeepsEach(ws, less, i);
    } else if i == |ws| - 1 {
      j := |vs| - 1;
    } else {
      j := EmbedsKeepsEach(ws[..|ws| - 1], less, i);
    }
  }

  predicate NotBelow(a: Option<real>, b: Option<real>) { a.Some? ==> b.Some? && a.value <= b.value }

  predicate NotAbove(a: Option<nat>, b: Option<nat>) { a.Some? ==> b.Some? && b.value <= a.value }

  predicate DisksWorse(a: seq<Disk>, b: seq<Disk>) {
    |a| == |b| && forall i | 0 <= i < |a| :: a[i].mount == b[i].mount && a[i].usePct <= b[i].usePct
  }

  predicate StallsWorse(a: seq<Stall>, b: seq<Stall>) {
    |a| == |b| && forall i | 0 <= i < |a| :: a[i].resource == b[i].resource && NotBelow(a[i].avg10, b[i].avg10)
  }

  predicate NicWorse(a: Nic, b: Nic) {
    && a.iface == b.iface && a.rxPackets == b.rxPackets && a.txPackets == b.txPackets
    && a.rxErrs <= b.rxErrs && a.rxDrop <= b.rxDrop && a.txErrs <= b.txErrs && a.txDrop <= b.txDrop
  }

  predicate NicsWorse(a: seq<Nic>, b: seq<Nic>) { |a| == |b| && forall i | 0 <= i < |a| :: NicWorse(a[i], b[i]) }

  ghost predicate TaintWorse(a: Option<nat>, b: Option<nat>) {
    a.Some? ==> b.Some? && forall k: nat :: Bit(a.value, k) ==> Bit(b.value, k)
  }

  /** Load, use, stalls, errors and taint bits up; memory and free swap down; denominators the same. */
  ghost predicate Worse(f: Facts, g: Facts) {
    && NotBelow(f.load1, g.load1) && f.nproc == g.nproc
    && f.memTotal == g.memTotal && NotAbove(f.memAvailable, g.memAvailable)
    && f.swapTotal == g.swapTotal && NotAbove(f.swapFree, g.swapFree)
    && DisksWorse(f.disks, g.disks) && DisksWorse(f.inodes, g.inodes)
    && (f.failedUnits != [] ==> g.failedUnits != []) && (f.oomRecent != [] ==> g.oomRecent != [])
    && StallsWorse(f.psi, g.psi)
    && f.zombie <= g.zombie && f.dstate <= g.dstate
    && (f.clockOffset.Some? ==> g.clockOffset.Some? && Abs(f.clockOffset.value) <= Abs(g.clockOffset.value))
    && (LeapLevel(f.leap) == Warn ==> LeapLevel(g.leap) == Warn)
    && f.conntrackMax == g.conntrackMax && NotAbove(g.conntrackCount, f.conntrackCount)
    && f.conntrackCount.Some? == g.conntrackCount.Some?
    && (f.rebootRequired ==> g.rebootRequired)
    && TaintWorse(f.kernelTainted, g.kernelTainted)
    && NicsWorse(f.nics, g.nics)
  }

  lemma {:induction false} QuotientOrder(a: real, b: real, d: real)
    requires a <= b && d > 0.0
    ensures a / d <= b / d
  {
    var p, q := a / d, b / d;
    assert p * d == a && q * d == b;
    assert p > q ==> (p - q) * d > 0.0;
  }

  lemma {:induction false} LoadRuleMonotone(a: Option<real>, b: Option<real>, nproc: Option<nat>)
    requires NotBelow(a, b)
    ensures AtMost(LoadLevel(a, nproc), LoadLevel(b, nproc))
  {
    if a.Some? && Present(nproc) {
      QuotientOrder(a.value, b.value, nproc.value as real);
    }
  }

  lemma {:induction false} MemoryRulesMonotone(total: Option<nat>, a: Option<nat>, b: Option<nat>)
    requires NotAbove(a, b)
    ensures AtMost(MemoryLevel(total, a), MemoryLevel(total, b)) && AtMost(SwapLevel(total, a), SwapLevel(total, b))
  {
    if a.Some? && Present(total) {
      QuotientOrder(b.value as real, a.value as real, total.value as real);
      QuotientOrder((total.value - a.value) as real, (total.value - b.value) as real, total.value as real);
    }
  }

  lemma {:induction false} ConntrackRuleMonotone(a: Option<nat>, b: Option<nat>, max: Option<nat>)
    requires a.Some? ==> b.Some? && a.value <= b.value
    ensures AtMost(ConntrackLevel(a, max), ConntrackLevel(b, max))
  {
    if a.Some? && Present(max) {
      QuotientOrder(a.value as real, b.value as real, max.value as real);
    }
  }

  lemma {:induction false} TaintRuleMonotone(a: Option<nat>, b: Option<nat>)
    requires TaintWorse(a, b)
    ensures AtMost(TaintLevel(a), TaintLevel(b))
  {
    if a.Some? {
      TaintRule(a.value);
      TaintRule(b.value);
    }
  }

  /** Whatever its sign, a packet count other than -1 keeps the rule monotone. */
  lemma {:induction false} LossyMonotone(errs: int, drop: int, moreErrs: int, moreDrop: int, packets: int)
    requires packets != -1 && errs <= moreErrs && drop <= moreDrop
    ensures Lossy(errs, drop, packets) ==> Lossy(moreErrs, moreDrop, packets)
  {
    var bad, worse, d := (errs + drop) as real, (moreErrs + moreDrop) as real, (packets + 1) as real;
    if d > 0.0 {
      QuotientOrder(bad, worse, d);
    } else if bad > 0.0 {
      NegativeQuotient(bad, d);
    }
  }

  lemma {:induction false} NegativeQuotient(a: real, d: real)
    requires a > 0.0 && d < 0.0
    ensures a / d < 0.0
  {
    var q := a / d;
    assert q * d == a;
    assert q >= 0.0 ==> q * d <= 0.0;
  }

  lemma {:induction false} NicRuleMonotone(a: Nic, b: Nic)
    requires Divides(a) && NicWorse(a, b)
    ensures Divides(b) && AtMost(NicLevel(a), NicLevel(b))
  {
    LossyMonotone(a.rxErrs, a.rxDrop, b.rxErrs, b.rxDrop, a.rxPackets);
    LossyMonotone(a.txErrs, a.txDrop, b.txErrs, b.txDrop, a.txPackets);
  }

  lemma {:induction false} JoinReport(ws: seq<Warning>, vs: seq<Warning>, kind: Kind, subject: string, a: Level,
      b: Level)
    requires Embeds(ws, vs) && AtMost(a, b)
    ensures Embeds(ws + Report(kind, subject, a), vs + Report(kind, subject, b))
  {
    ReportEmbeds(kind, subject, a, b);
    EmbedsJoin(ws, vs, Report(kind, subject, a), Report(kind, subject, b));
  }

  lemma {:induction false} UsageMonotone(kind: Kind, warn: int, crit: int, a: seq<Disk>, b: seq<Disk>)
    requires DisksWorse(a, b)
    ensures Embeds(UsageWarnings(kind, warn, crit, a), UsageWarnings(kind, warn, crit, b))
  {
    if a != [] {
      var n := |a| - 1;
      UsageMonotone(kind, warn, crit, a[..n], b[..n]);
      JoinReport(UsageWarnings(kind, warn, crit, a[..n]), UsageWarnings(kind, warn, crit, b[..n]),
                 kind, a[n].mount, UsageLevel(a[n].usePct, warn, crit), UsageLevel(b[n].usePct, warn, crit));
    }
  }

  lemma {:induction false} StallsMonotone(a: seq<Stall>, b: seq<Stall>)
    requires StallsWorse(a, b)
    ensures Embeds(StallWarnings(a), StallWarnings(b))
  {
    if a != [] {
      var n := |a| - 1;
      StallsMonotone(a[..n], b[..n]);
      JoinReport(StallWarnings(a[..n]), StallWarnings(b[..n]),
                 Pressure, a[n].resource, PressureLevel(a[n].avg10), PressureLevel(b[n].avg10));
    }
  }

  lemma {:induction false} NicsMonotone(a: seq<Nic>, b: seq<Nic>)
    requires AllDivide(a) && NicsWorse(a, b)
    ensures AllDivide(b) && Embeds(NicWarnings(a), NicWarnings(b))
  {
    if a != [] {
      var n := |a| - 1;
      NicsMonotone(a[..n], b[..n]);
      NicRuleMonotone(a[n], b[n]);
      assert forall i | 0 <= i < n :: b[i] == b[..n][i];
      JoinReport(NicWarnings(a[..n]), NicWarnings(b[..n]), NicErrors, a[n].iface, NicLevel(a[n]), NicLevel(b[n]));
    }
  }

  lemma {:induction false} LoadAndMemoryMonotone(f: Facts, g: Facts)
    requires Worse(f, g)
    ensures Embeds(LoadAndMemoryWarnings(f), LoadAndMemoryWarnings(g))
  {
    LoadRuleMonotone(f.load1, g.load1, f.nproc);
    MemoryRulesMonotone(f.memTotal, f.memAvailable, g.memAvailable);
    MemoryRulesMonotone(f.swapTotal, f.swapFree, g.swapFree);
    var m, n := LoadLevel(f.load1, f.nproc), LoadLevel(g.load1, g.nproc);
    var a, b := MemoryLevel(f.memTotal, f.memAvailable), MemoryLevel(g.memTotal, g.memAvailable);
    ReportEmbeds(HighLoad, "", m, n);
    JoinReport(Report(HighLoad, "", m), Report(HighLoad, "", n), LowMemory, "", a, b);
    JoinReport(Report(HighLoad, "", m) + Report(LowMemory, "", a), Report(HighLoad, "", n) + Report(LowMemory, "", b),
               SwapPressure, "", SwapLevel(f.swapTotal, f.swapFree), SwapLevel(g.swapTotal, g.swapFree));
  }

  lemma {:induction false} ProcessesMonotone(f: Facts, g: Facts)
    requires Worse(f, g)
    ensures Embeds(ProcessWarnings(f), ProcessWarnings(g))
  {
    var a := Report(ZombieProcs, "", CountLevel(f.zombie, ZOMBIE_WARN));
    var b := Report(ZombieProcs, "", CountLevel(g.zombie, ZOMBIE_WARN));
    ReportEmbeds(ZombieProcs, "", CountLevel(f.zombie, ZOMBIE_WARN), CountLevel(g.zombie, ZOMBIE_WARN));
    var m, n := CountLevel(f.dstate, DSTATE_WARN), CountLevel(g.dstate, DSTATE_WARN);
    JoinReport(a, b, StuckProcs, "", m, n);
    a, b := a + Report(StuckProcs, "", m), b + Report(StuckProcs, "", n);
    JoinReport(a, b, ClockSkew, "", SkewLevel(f.clockOffset), SkewLevel(g.clockOffset));
    a, b := a + Report(ClockSkew, "", SkewLevel(f.clockOffset)), b + Report(ClockSkew, "", SkewLevel(g.clockOffset));
    JoinReport(a, b, ClockUnsynced, "", LeapLevel(f.leap), LeapLevel(g.leap));
  }

  lemma {:induction false} KernelMonotone(f: Facts, g: Facts)
    requires Worse(f, g)
    ensures Embeds(KernelWarnings(f), KernelWarnings(g))
  {
    ConntrackRuleMonotone(f.conntrackCount, g.conntrackCount, f.conntrackMax);
    TaintRuleMonotone(f.kernelTainted, g.kernelTainted);
    var m, n := ConntrackLevel(f.conntrackCount, f.conntrackMax), ConntrackLevel(g.conntrackCount, g.conntrackMax);
    var a, b := Report(ConntrackFull, "", m), Report(ConntrackFull, "", n);
    ReportEmbeds(ConntrackFull, "", m, n);
    m, n := if f.rebootRequired then Warn else Quiet, if g.rebootRequired then Warn else Quiet;
    JoinReport(a, b, RebootRequired, "", m, n);
    a, b := a + Report(RebootRequired, "", m), b + Report(RebootRequired, "", n);
    JoinReport(a, b, KernelTainted, "", TaintLevel(f.kernelTainted), TaintLevel(g.kernelTainted));
  }

  lemma {:induction false} EventsMonotone(f: Facts, g: Facts, a: seq<Warning>, b: seq<Warning>)
    requires Worse(f, g) && Embeds(a, b)
    ensures Embeds(EventWarnings(f, a), EventWarnings(g, b))
  {
    var a, b := a, b;
    UsageMonotone(DiskFull, DISK_USE_PCT_WARN, DISK_USE_PCT_CRIT, f.disks, g.disks);
    var x := UsageWarnings(DiskFull, DISK_USE_PCT_WARN, DISK_USE_PCT_CRIT, f.disks);
    var y := UsageWarnings(DiskFull, DISK_USE_PCT_WARN, DISK_USE_PCT_CRIT, g.disks);
    EmbedsJoin(a, b, x, y);
    a, b := a + x, b + y;
    JoinReport(a, b, FailedUnits, "", UnitsLevel(f.failedUnits), UnitsLevel(g.failedUnits));
    a := a + Report(FailedUnits, "", UnitsLevel(f.failedUnits));
    b := b + Report(FailedUnits, "", UnitsLevel(g.failedUnits));
    StallsMonotone(f.psi, g.psi);
    EmbedsJoin(a, b, StallWarnings(f.psi), StallWarnings(g.psi));
    a, b := a + StallWarnings(f.psi), b + StallWarnings(g.psi);
    JoinReport(a, b, OomRecent, "", OomLevel(f.oomRecent), OomLevel(g.oomRecent));
    a := a + Report(OomRecent, "", OomLevel(f.oomRecent));
    b := b + Report(OomRecent, "", OomLevel(g.oomRecent));
    UsageMonotone(InodesFull, INODES_USE_PCT_WARN, INODES_USE_PCT_CRIT, f.inodes, g.inodes);
    x := UsageWarnings(InodesFull, INODES_USE_PCT_WARN, INODES_USE_PCT_CRIT, f.inodes);
    y := UsageWarnings(InodesFull, INODES_USE_PCT_WARN, INODES_USE_PCT_CRIT, g.inodes);
    EmbedsJoin(a, b, x, y);
    a, b := a + x, b + y;
    ProcessesMonotone(f, g);
    EmbedsJoin(a, b, ProcessWarnings(f), ProcessWarnings(g));
  }

  lemma {:induction false} WarningsMonotone(f: Facts, g: Facts)
    requires Worse(f, g) && AllDivide(f.nics)
    ensures AllDivide(g.nics) && Embeds(WarningsOf(f), WarningsOf(g))
  {
    LoadAndMemoryMonotone(f, g);
    var a, b := EventWarnings(f, LoadAndMemoryWarnings(f)), EventWarnings(g, LoadAndMemoryWarnings(g));
    EventsMonotone(f, g, LoadAndMemoryWarnings(f), LoadAndMemoryWarnings(g));
    KernelMonotone(f, g);
    EmbedsJoin(a, b, KernelWarnings(f), KernelWarnings(g));
    NicsMonotone(f.nics, g.nics);
    EmbedsJoin(a + KernelWarnings(f), b + KernelWarnings(g), NicWarnings(f.nics), NicWarnings(g.nics));
  }

  /**
   When the facts worsen and the rules still end, no warning disappears and none is reported as less
   severe; the order and the number of the old warnings are kept too.
   */
  lemma {:induction false} WorseNeverHidesWarnings(py: Python, f: Facts, g: Facts)
    requires Worse(f, g) && RulesOf(py, f).Ok? && RulesOf(py, g).Ok?
    ensures Embeds(RulesOf(py, f).value, RulesOf(py, g).value)
  {
    WarningsMonotone(f, g);
  }

  /** The ratios are formed of the same quantities. */
  predicate SameProbes(f: Facts, g: Facts) {
    f.load1.Some? == g.load1.Some? && f.memAvailable.Some? == g.memAvailable.Some?
    && f.swapFree.Some? == g.swapFree.Some?
  }

  /** Losses that are no float when divided, or cannot be printed. */
  predicate Outgrown(py: Python, nic: Nic) {
    || Huge(py, RxBad(nic), nic.rxPackets + 1) || Huge(py, TxBad(nic), nic.txPackets + 1)
    || (Divides(nic) && NicLevel(nic) == Warn && !LossesPrintable(py, nic))
  }

  lemma {:induction false} LessIsNoHuger(py: Python, a: int, b: int, total: int)
    requires Magnitude(a) <= Magnitude(b) && !Huge(py, b, total)
    ensures !Huge(py, a, total)
  {}

  lemma {:induction false} PartIsNotHuge(py: Python, part: nat, total: nat)
    requires 1 < py.range && part <= total && 0 < total
    ensures !Huge(py, part, total)
  {
    assert py.range * total >= 2 * total;
  }

  /** Less free swap never makes the swap rule raise. */
  lemma {:induction false} SwapStaysInRange(py: Python, total: nat, free: nat, less: nat)
    requires 1 < py.range && 0 < total && less <= free && !Huge(py, total - free, total)
    ensures !Huge(py, total - less, total)
  {
    if less <= total {
      PartIsNotHuge(py, total - less, total);
    } else {
      LessIsNoHuger(py, total - less, total - free, total);
    }
  }

  lemma {:induction false} MemoryStaysInRange(py: Python, f: Facts, g: Facts)
    requires 1 < py.range && Worse(f, g) && SameProbes(f, g) && !HasHugeRatio(py, f)
    ensures HasHugeRatio(py, g) <==> HugeRatio(py, g.conntrackCount, g.conntrackMax)
  {
    if f.memAvailable.Some? && Present(f.memTotal) {
      LessIsNoHuger(py, g.memAvailable.value, f.memAvailable.value, f.memTotal.value);
    }
    if f.swapFree.Some? && Present(f.swapTotal) {
      SwapStaysInRange(py, f.swapTotal.value, f.swapFree.value, g.swapFree.value);
    }
  }

  /**
   Where the same quantities are known, worse facts make the rules raise exactly when the conntrack count
   or the losses of an interface have outgrown Python's floats or its digit limit; never for a divisor 0.
   */
  lemma {:induction false} WorseRaisesIff(py: Python, f: Facts, g: Facts)
    requires 1 < py.range && Worse(f, g) && SameProbes(f, g) && RulesOf(py, f).Ok?
    ensures RulesOf(py, g).Raises? <==>
            || HugeRatio(py, g.conntrackCount, g.conntrackMax)
            || exists i :: 0 <= i < |g.nics| && Outgrown(py, g.nics[i])
    ensures RulesOf(py, g) != Raises(DIVISION_BY_ZERO)
  {
    RulesRaiseIff(py, f);
    RulesRaiseIff(py, g);
    MemoryStaysInRange(py, f, g);
    forall i | 0 <= i < |g.nics| ensures IsBadNic(py, g.nics[i]) <==> Outgrown(py, g.nics[i]) {
      assert !IsBadNic(py, f.nics[i]) && NicWorse(f.nics[i], g.nics[i]);
    }
    NoZeroDivision(py, g);
  }

  lemma {:induction false} NoZeroDivision(py: Python, f: Facts)
    requires AllDivide(f.nics)
    ensures RulesOf(py, f) != Raises(DIVISION_BY_ZERO)
  {
    FactsFaultIff(py, f);
    NoZeroFault(py, f.nics);
  }

  lemma {:induction false} NoZeroFault(py: Python, nics: seq<Nic>)
    requires AllDivide(nics)
    ensures NicsFault(py, nics) != Some(DIVISION_BY_ZERO)
  {
    if nics != [] {
      NoZeroFault(py, nics[..|nics| - 1]);
      NicFaultIff(py, nics[|nics| - 1]);
    }
  }

  /** A machine of which nothing is known. */
  const NO_FACTS := Facts(None, None, None, None, None, None, None, None, [], [], [], [], [], 0, 0, None, None,
                          None, None, false, None, [], [])

  /** A worse machine can lose every warning: its report is refused altogether. */
  lemma {:induction false} WorseCanSilence(py: Python) returns (f: Facts, g: Facts)
    requires 1 < py.range
    ensures Worse(f, g) && SameProbes(f, g)
    ensures RulesOf(py, f) == Ok([Warning(ConntrackFull, Crit, "")])
    ensures RulesOf(py, g) == Raises(QUOTIENT_OVERFLOW)
  {
    f := NO_FACTS.(conntrackCount := Some(1), conntrackMax := Some(1));
    g := f.(conntrackCount := Some(py.range));
    assert ConntrackLevel(f.conntrackCount, f.conntrackMax) == Crit by { ConntrackInWholeNumbers(1, 1); }
    assert NicsFault(py, f.nics) == None;
    assert WarningsOf(f) == [Warning(ConntrackFull, Crit, "")];
  }

  // ----- every warning by its own condition, in literals

  predicate Graded(severity: Level, warn: bool, crit: bool) {
    (severity == Crit && warn && crit) || (severity == Warn && warn && !crit)
  }

  /** What calls for a warning, spelled out kind by kind. */
  predicate Deserved(f: Facts, w: Warning) {
    match w.kind
    case HighLoad =>
      && w.subject == "" && f.load1.Some? && f.nproc.Some? && f.nproc.value > 0
      && Graded(w.severity, 2.0 * f.load1.value >= 3.0 * f.nproc.value as real,
                f.load1.value >= 4.0 * f.nproc.value as real)
    case LowMemory =>
      && w.subject == "" && f.memTotal.Some? && f.memTotal.value > 0 && f.memAvailable.Some?
      && Graded(w.severity, 10 * f.memAvailable.value < f.memTotal.value, 20 * f.memAvailable.value < f.memTotal.value)
    case SwapPressure =>
      && w.subject == "" && w.severity == Warn && f.swapTotal.Some? && f.swapTotal.value > 0 && f.swapFree.Some?
      && 2 * f.swapFree.value < f.swapTotal.value
    case DiskFull =>
      exists i :: 0 <= i < |f.disks| && f.disks[i].mount == w.subject
                  && Graded(w.severity, f.disks[i].usePct >= 90, f.disks[i].usePct >= 95)
    case InodesFull =>
      exists i :: 0 <= i < |f.inodes| && f.inodes[i].mount == w.subject
                  && Graded(w.severity, f.inodes[i].usePct >= 90, f.inodes[i].usePct >= 95)
    case FailedUnits => w.subject == "" && w.severity == Warn && f.failedUnits != []
    case Pressure =>
      w.severity == Warn && exists i :: 0 <= i < |f.psi| && f.psi[i].resource == w.subject
                                        && f.psi[i].avg10.Some? && f.psi[i].avg10.value > 20.0
    case OomRecent => w.subject == "" && w.severity == Crit && f.oomRecent != []
    case ZombieProcs => w.subject == "" && w.severity == Warn && f.zombie >= 1
    case StuckProcs => w.subject == "" && w.severity == Warn && f.dstate >= 5
    case ClockSkew =>
      && w.subject == "" && w.severity == Warn && f.clockOffset.Some?
      && (f.clockOffset.value > 0.1 || f.clockOffset.value < -0.1)
    case ClockUnsynced =>
      w.subject == "" && w.severity == Warn && f.leap.Some? && Lower(f.leap.value) != "normal"
    case ConntrackFull =>
      && w.subject == "" && f.conntrackCount.Some? && f.conntrackMax.Some? && f.conntrackMax.value > 0
      && Graded(w.severity, 10 * f.conntrackCount.value >= 9 * f.conntrackMax.value,
                20 * f.conntrackCount.value >= 19 * f.conntrackMax.value)
    case RebootRequired => w.subject == "" && w.severity == Warn && f.rebootRequired
    case KernelTainted =>
      && w.subject == "" && w.severity == Warn && f.kernelTainted.Some?
      && (Bit(f.kernelTainted.value, 2) || Bit(f.kernelTainted.value, 4) || Bit(f.kernelTainted.value, 5)
          || Bit(f.kernelTainted.value, 7) || Bit(f.kernelTainted.value, 9))
    case NicErrors =>
      w.severity == Warn && exists i :: 0 <= i < |f.nics| && f.nics[i].iface == w.subject && Loses(f.nics[i])
  }

  /** 100 losses or more, in one direction, that are more than 1% of its packets and one. */
  predicate Loses(nic: Nic) {
    || (nic.rxErrs + nic.rxDrop >= 100 && 0 <= nic.rxPackets < 100 * (nic.rxErrs + nic.rxDrop) - 1)
    || (nic.txErrs + nic.txDrop >= 100 && 0 <= nic.txPackets < 100 * (nic.txErrs + nic.txDrop) - 1)
  }

  lemma {:induction false} LossyIff(errs: int, drop: int, packets: int)
    requires packets != -1
    ensures Lossy(errs, drop, packets) <==> errs + drop >= 100 && 0 <= packets < 100 * (errs + drop) - 1
  {
    if packets >= 0 {
      LossyInWholeNumbers(errs, drop, packets);
    } else if errs + drop >= 100 {
      NegativeQuotient((errs + drop) as real, (packets + 1) as real);
    }
  }

  lemma {:induction false} LosesIff(nic: Nic)
    requires Divides(nic)
    ensures NicLevel(nic) == (if Loses(nic) then Warn else Quiet)
  {
    LossyIff(nic.rxErrs, nic.rxDrop, nic.rxPackets);
    LossyIff(nic.txErrs, nic.txDrop, nic.txPackets);
  }

  lemma {:induction false} InReport(w: Warning, kind: Kind, subject: string, level: Level)
    ensures w in Report(kind, subject, level) <==>
            w.kind == kind && w.subject == subject && w.severity == level && level != Quiet
  {}

  lemma {:induction false} InUsage(w: Warning, kind: Kind, disks: seq<Disk>)
    ensures w in UsageWarnings(kind, 90, 95, disks) <==>
            w.kind == kind && exists i :: 0 <= i < |disks| && disks[i].mount == w.subject
                                          && Graded(w.severity, disks[i].usePct >= 90, disks[i].usePct >= 95)
  {
    if disks != [] {
      InUsage(w, kind, disks[..|disks| - 1]);
    }
  }

  lemma {:induction false} InStalls(w: Warning, psi: seq<Stall>)
    ensures w in StallWarnings(psi) <==>
            w.kind == Pressure && w.severity == Warn
            && exists i :: 0 <= i < |psi| && psi[i].resource == w.subject
                           && psi[i].avg10.Some? && psi[i].avg10.value > 20.0
  {
    if psi != [] {
      InStalls(w, psi[..|psi| - 1]);
    }
  }

  lemma {:induction false} InNics(w: Warning, nics: seq<Nic>)
    requires AllDivide(nics)
    ensures w in NicWarnings(nics) <==>
            w.kind == NicErrors && w.severity == Warn
            && exists i :: 0 <= i < |nics| && nics[i].iface == w.subject && Loses(nics[i])
  {
    if nics != [] {
      InNics(w, nics[..|nics| - 1]);
      LosesIff(nics[|nics| - 1]);
    }
  }

  lemma {:induction false} InLoadAndMemory(f: Facts, w: Warning)
    ensures w in LoadAndMemoryWarnings(f) <==> w.kind in {HighLoad, LowMemory, SwapPressure} && Deserved(f, w)
  {
    if f.load1.Some? && Present(f.nproc) { LoadRuleWithoutDivision(f.load1.value, f.nproc.value); }
    if Present(f.memTotal) && f.memAvailable.Some? { MemoryInWholeNumbers(f.memTotal.value, f.memAvailable.value); }
    if Present(f.swapTotal) && f.swapFree.Some? { SwapInWholeNumbers(f.swapTotal.value, f.swapFree.value); }
    InReport(w, HighLoad, "", LoadLevel(f.load1, f.nproc));
    InReport(w, LowMemory, "", MemoryLevel(f.memTotal, f.memAvailable));
    InReport(w, SwapPressure, "", SwapLevel(f.swapTotal, f.swapFree));
  }

  lemma {:induction false} InProcesses(f: Facts, w: Warning)
    ensures w in ProcessWarnings(f) <==>
            w.kind in {ZombieProcs, StuckProcs, ClockSkew, ClockUnsynced} && Deserved(f, w)
  {
    InReport(w, ZombieProcs, "", CountLevel(f.zombie, ZOMBIE_WARN));
    InReport(w, StuckProcs, "", CountLevel(f.dstate, DSTATE_WARN));
    InReport(w, ClockSkew, "", SkewLevel(f.clockOffset));
    InReport(w, ClockUnsynced, "", LeapLevel(f.leap));
  }

  lemma {:induction false} TaintBits(taint: nat)
    ensures TaintLevel(Some(taint)) == Warn <==>
            Bit(taint, 2) || Bit(taint, 4) || Bit(taint, 5) || Bit(taint, 7) || Bit(taint, 9)
  {
    TaintRule(taint);
    assert IsFaultBit(2) && IsFaultBit(4) && IsFaultBit(5) && IsFaultBit(7) && IsFaultBit(9);
  }

  lemma {:induction false} InKernel(f: Facts, w: Warning)
    ensures w in KernelWarnings(f) <==> w.kind in {ConntrackFull, RebootRequired, KernelTainted} && Deserved(f, w)
  {
    if f.conntrackCount.Some? && Present(f.conntrackMax) {
      ConntrackInWholeNumbers(f.conntrackMax.value, f.conntrackCount.value);
    }
    if f.kernelTainted.Some? { TaintBits(f.kernelTainted.value); }
    InReport(w, ConntrackFull, "", ConntrackLevel(f.conntrackCount, f.conntrackMax));
    InReport(w, RebootRequired, "", if f.rebootRequired then Warn else Quiet);
    InReport(w, KernelTainted, "", TaintLevel(f.kernelTainted));
  }

  lemma {:induction false} InEvents(f: Facts, start: seq<Warning>, w: Warning)
    ensures w in EventWarnings(f, start) <==>
            || w in start || w in ProcessWarnings(f)
            || (w.kind in {DiskFull, InodesFull, FailedUnits, Pressure, OomRecent} && Deserved(f, w))
  {
    InUsage(w, DiskFull, f.disks);
    InUsage(w, InodesFull, f.inodes);
    InStalls(w, f.psi);
    InReport(w, FailedUnits, "", UnitsLevel(f.failedUnits));
    InReport(w, OomRecent, "", OomLevel(f.oomRecent));
  }

  /** A machine gets exactly the warnings that its facts call for. */
  lemma {:induction false} WarningIff(f: Facts, w: Warning)
    requires AllDivide(f.nics)
    ensures w in WarningsOf(f) <==> Deserved(f, w)
  {
    InLoadAndMemory(f, w);
    InEvents(f, LoadAndMemoryWarnings(f), w);
    InProcesses(f, w);
    InKernel(f, w);
    InNics(w, f.nics);
  }

  // ----- what counts as worse

  lemma {:induction false} NoWorseThanItself(f: Facts)
    ensures Worse(f, f)
  {}

  /** A quantity that gets worse, or becomes known, makes a machine worse. */
  lemma {:induction false} WorseLoad(f: Facts, load: real)
    ensures f.load1.None? || f.load1.value <= load ==> Worse(f, f.(load1 := Some(load)))
    ensures f.clockOffset.None? || -load <= f.clockOffset.value <= load ==> Worse(f, f.(clockOffset := Some(load)))
  {}

  lemma {:induction false} WorseMemory(f: Facts, amount: nat)
    ensures f.memAvailable.None? || amount <= f.memAvailable.value ==> Worse(f, f.(memAvailable := Some(amount)))
    ensures f.swapFree.None? || amount <= f.swapFree.value ==> Worse(f, f.(swapFree := Some(amount)))
    ensures f.conntrackCount.Some? && f.conntrackCount.value <= amount ==>
              Worse(f, f.(conntrackCount := Some(amount)))
  {}

  lemma {:induction false} WorseUse(f: Facts, pct: int, i: nat)
    ensures i < |f.disks| && f.disks[i].usePct <= pct ==>
              Worse(f, f.(disks := f.disks[i := f.disks[i].(usePct := pct)]))
    ensures i < |f.inodes| && f.inodes[i].usePct <= pct ==>
              Worse(f, f.(inodes := f.inodes[i := f.inodes[i].(usePct := pct)]))
  {}

  lemma {:induction false} WorseEvents(f: Facts, amount: nat)
    ensures f.zombie <= amount ==> Worse(f, f.(zombie := amount))
    ensures f.dstate <= amount ==> Worse(f, f.(dstate := amount))
    ensures Worse(f, f.(rebootRequired := true)) && Worse(f, f.(failedUnits := f.failedUnits + [""]))
    ensures Worse(f, f.(oomRecent := f.oomRecent + [""])) && Worse(f, f.(leap := Some("")))
  {
    assert |Lower("")| == 0 && |"normal"| == 6;
  }

  lemma {:induction false} WorseNics(f: Facts, i: nat, nic: Nic)
    requires i < |f.nics| && nic.iface == f.nics[i].iface
    requires nic.rxPackets == f.nics[i].rxPackets && nic.txPackets == f.nics[i].txPackets
    requires f.nics[i].rxErrs <= nic.rxErrs && f.nics[i].rxDrop <= nic.rxDrop
    requires f.nics[i].txErrs <= nic.txErrs && f.nics[i].txDrop <= nic.txDrop
    ensures Worse(f, f.(nics := f.nics[i := nic]))
  {}

  lemma {:induction false} WorseStalls(f: Facts, i: nat, avg10: real)
    requires i < |f.psi| && (f.psi[i].avg10.Some? ==> f.psi[i].avg10.value <= avg10)
    ensures Worse(f, f.(psi := f.psi[i := f.psi[i].(avg10 := Some(avg10))]))
  {}
}
