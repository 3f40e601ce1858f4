// The disk usage check: the space of the disk mounted at a path, shown in a unit or as a
// percentage with integer arithmetic, coloured by the percentage.
module DiskUsage {
  import opened Wrappers
  import opened Numeric
  import opened Text
  import opened Output
  import opened Threshold

  datatype DiskDisplay = Used | Remaining | UsedPercentage | RemainingPercentage

  datatype DiskUsageArgs = DiskUsageArgs(
    path: string, criticalUsedPercentage: u8, warningUsedPercentage: u8, unit: BytesUnit, display: DiskDisplay)

  /** A mounted disk as the system reports it, sizes in bytes. */
  datatype DiskInfo = DiskInfo(mountPoint: string, totalSpace: u64, availableSpace: u64)

  datatype DiskStats = DiskStats(usageMb: u64, totalMb: u64, usedPercent: u8)

  // ----- paths -----

  /** The names that follow the first component: empty names and `.` are skipped. */
  function NormalNames(parts: seq<string>): (r: seq<string>)
    ensures forall i :: 0 <= i < |r| ==> r[i] != "" && r[i] != "."
  {
    if parts == [] then []
    else (if parts[0] == "" || parts[0] == "." then [] else [parts[0]]) + NormalNames(parts[1..])
  }

  /**
   * The components Rust compares paths by: the root for an absolute path, a leading `.` of a
   * relative one, then the names, so repeated and trailing separators and inner `.` do not count.
   */
  function PathComponents(p: string): seq<string> {
    var parts := Split(p, '/');
    var lead := if p != [] && p[0] == '/' then ["/"] else if parts[0] == "" then [] else [parts[0]];
    lead + NormalNames(parts[1..])
  }

  /** `Path == Path`. */
  predicate SamePath(a: string, b: string) {
    PathComponents(a) == PathComponents(b)
  }

  // ----- stats -----

  /**
   * The stats of a disk: the total, the total less the available space (wrapping on `u64`),
   * and the available space as a percentage of the total, truncated to `u8`.
   */
  function DiskStatsOf(d: DiskInfo): (s: DiskStats)
    ensures s.totalMb == d.totalSpace
    ensures d.availableSpace <= d.totalSpace ==> s.usageMb + d.availableSpace == d.totalSpace
    ensures s.usedPercent == SaturatingU8(ScaleBy(Divide(d.availableSpace as real, d.totalSpace as real), 100.0))
  {
    DiskStats(WrappingSubU64(d.totalSpace, d.availableSpace), d.totalSpace,
              SaturatingU8(ScaleBy(Divide(d.availableSpace as real, d.totalSpace as real), 100.0)))
  }

  /**
   * The percentage called used is the available space over the total, truncated; a disk of
   * size zero reads 255 when it reports available space and 0 when it does not.
   */
  lemma UsedPercentIsAvailableShare(d: DiskInfo)
    ensures var p := DiskStatsOf(d).usedPercent;
      && (0 < d.totalSpace && d.availableSpace <= d.totalSpace ==>
            var share := d.availableSpace as real / d.totalSpace as real * 100.0;
            p as real <= share < p as real + 1.0)
      && (d.totalSpace == 0 ==> p == if d.availableSpace > 0 then 255 else 0)
  {
    if 0 < d.totalSpace && d.availableSpace <= d.totalSpace {
      FractionAtMostOne(d.availableSpace as real, d.totalSpace as real);
    }
  }

  /**
   * `get_disk_stats`: the stats of the first disk mounted at `diskPath`, or an error naming
   * the path when none is.
   */
  method GetDiskStats(diskPath: string, disks: seq<DiskInfo>) returns (r: Result<DiskStats, Failure>)
    ensures r.Ok? <==> exists i :: 0 <= i < |disks| && SamePath(disks[i].mountPoint, diskPath)
    ensures r.Ok? ==>
      exists i :: 0 <= i < |disks| && SamePath(disks[i].mountPoint, diskPath) &&
        (forall k :: 0 <= k < i ==> !SamePath(disks[k].mountPoint, diskPath)) &&
        r.value == DiskStatsOf(disks[i])
    ensures r.Err? ==> r == Err(Reported("Disk " + diskPath + " not found"))
  {
    var i := 0;
    while i < |disks|
      invariant 0 <= i <= |disks|
      invariant forall k :: 0 <= k < i ==> !SamePath(disks[k].mountPoint, diskPath)
    {
      if SamePath(disks[i].mountPoint, diskPath) {
        return Ok(DiskStatsOf(disks[i]));
      }
      i := i + 1;
    }
    return Err(Reported("Disk " + diskPath + " not found"));
  }

  // ----- display -----

  /** A byte count in `unit` as `u64` arithmetic computes it: one division by 1024 per step. */
  function Scaled(bytes: u64, unit: BytesUnit): (n: u64)
    ensures n == bytes / UnitBytes(unit)
  {
    match unit
    case Kb => bytes / 1024
    case Mb => bytes / 1024 / 1024
    case Gb => bytes / 1024 / 1024 / 1024
  }

  /** An integer formatted with precision 1, followed by the unit letter: the digits (precision does not apply), then the letter. */
  function UnitText(n: nat, unit: BytesUnit): (s: string)
    ensures |s| >= 2 && s[|s| - 1..] == UnitLetter(unit)
    ensures AllDigits(s[..|s| - 1]) && ParseNat(s[..|s| - 1]) == n
  {
    ParseNatDigits(n);
    var s := Decimal(n) + UnitLetter(unit);
    assert s[..|s| - 1] == Decimal(n);
    s
  }

  /**
   * `i3blocks_print`: the used or the remaining space in whole units, or the percentage
   * called used, or its complement.
   */
  function I3blocksPrint(stats: DiskStats, unit: BytesUnit, display: DiskDisplay): (line: Line)
    ensures |line| == 1 && line[0].Lit?
    ensures display == Used ==> line[0].text == UnitText(Scaled(stats.usageMb, unit), unit)
    ensures display == Remaining ==>
      line[0].text == UnitText(WrappingSubU64(Scaled(stats.totalMb, unit), Scaled(stats.usageMb, unit)), unit)
    ensures display == UsedPercentage ==> line[0].text == PercentText(stats.usedPercent)
    ensures display == RemainingPercentage ==> line[0].text == PercentText(WrappingSubU8(100, stats.usedPercent))
  {
    match display
    case Used => [Lit(UnitText(Scaled(stats.usageMb, unit), unit))]
    case Remaining =>
      var total := Scaled(stats.totalMb, unit);
      [Lit(UnitText(WrappingSubU64(total, Scaled(stats.usageMb, unit)), unit))]
    case UsedPercentage => [Lit(PercentText(stats.usedPercent))]
    case RemainingPercentage => [Lit(PercentText(WrappingSubU8(100, stats.usedPercent)))]
  }

  /**
   * When the usage does not exceed the total, the remaining figure is the difference of the
   * two truncated figures and does not wrap.
   */
  lemma RemainingNeverWraps(stats: DiskStats, unit: BytesUnit)
    requires stats.usageMb <= stats.totalMb
    ensures Scaled(stats.usageMb, unit) <= Scaled(stats.totalMb, unit)
    ensures I3blocksPrint(stats, unit, Remaining)
         == [Lit(UnitText(Scaled(stats.totalMb, unit) - Scaled(stats.usageMb, unit), unit))]
  {
    var t, u := Scaled(stats.totalMb, unit), Scaled(stats.usageMb, unit);
    ScaledMonotone(stats.usageMb, stats.totalMb, unit);
    assert WrappingSubU64(t, u) == t - u;
  }

  /** Scaling keeps the order of byte counts. */
  lemma ScaledMonotone(x: u64, y: u64, unit: BytesUnit)
    requires x <= y
    ensures Scaled(x, unit) <= Scaled(y, unit)
  {
    match unit
    case Kb => assert x / 1024 <= y / 1024;
    case Mb => assert x / 1024 / 1024 <= y / 1024 / 1024;
    case Gb => assert x / 1024 / 1024 / 1024 <= y / 1024 / 1024 / 1024;
  }

  /** What `get` shows for the stats of the disk it found. */
  function DiskDisplayOf(command: DiskUsageArgs, stats: DiskStats): (d: I3Display<FourBoundColor>)
    ensures d.icon.None? && d.longLine == d.shortLine == I3blocksPrint(stats, command.unit, command.display)
    ensures d.color == Some(FourBoundColor(command.warningUsedPercentage,
      MiddleBound(command.warningUsedPercentage, command.criticalUsedPercentage),
      command.criticalUsedPercentage, Num(stats.usedPercent as real)))
  {
    var lines := I3blocksPrint(stats, command.unit, command.display);
    var color := FourBoundColor(command.warningUsedPercentage,
                                MiddleBound(command.warningUsedPercentage, command.criticalUsedPercentage),
                                command.criticalUsedPercentage, Num(stats.usedPercent as real));
    I3Display(None, lines, lines, Some(color))
  }

  /**
   * `get`: the stats of the disk or the error; one line, the same long and short, no icon,
   * coloured by the percentage against the warning, middle and critical bounds.
   */
  method Get(command: DiskUsageArgs, disks: seq<DiskInfo>) returns (r: Result<Option<I3Display<FourBoundColor>>, Failure>)
    ensures r.Err? <==> forall i :: 0 <= i < |disks| ==> !SamePath(disks[i].mountPoint, command.path)
    ensures r.Err? ==> r == Err(Reported("Disk " + command.path + " not found"))
    ensures r.Ok? ==>
      exists i :: 0 <= i < |disks| && SamePath(disks[i].mountPoint, command.path) &&
        (forall k :: 0 <= k < i ==> !SamePath(disks[k].mountPoint, command.path)) &&
        r.value == Some(DiskDisplayOf(command, DiskStatsOf(disks[i])))
  {
    var diskStats := GetDiskStats(command.path, disks);
    if diskStats.Err? {
      return Err(diskStats.error);
    }
    return Ok(Some(DiskDisplayOf(command, diskStats.value)));
  }
}
