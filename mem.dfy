// The memory check: the kernel's memory counters turned into a usage figure in the chosen
// unit or as a percentage, coloured by how much is used.
module Mem {
  import opened Wrappers
  import opened Numeric
  import opened Text
  import opened Output
  import opened Threshold

  datatype MemoryDisplay = Used | Remaining | UsedPercentage | RemainingPercentage

  datatype MemArgs = MemArgs(critical: u8, warning: u8, unit: BytesUnit, display: MemoryDisplay)

  /** The fields of `/proc/meminfo` the check reads, in bytes. */
  datatype Meminfo = Meminfo(memTotal: u64, memAvailable: Option<u64>, shmem: Option<u64>)

  datatype MemStats = MemStats(usageBytes: u64, totalBytes: u64, usedPercent: u8)

  /**
   * `get_mem_stats`: a failed read panics; a missing available or shared figure is an error.
   * Otherwise the usage is the total less the available and shared memory, and the
   * percentage is the available less the shared memory over the total, truncated to `u8`.
   */
  function GetMemStats(info: Result<Meminfo, string>): (r: Result<MemStats, Failure>)
    ensures info.Err? ==> r == Err(Panicked("called `Result::unwrap()` on an `Err` value: " + info.error))
    ensures info.Ok? && info.value.memAvailable.None? ==> r == Err(Reported("available memory not found"))
    ensures info.Ok? && info.value.memAvailable.Some? && info.value.shmem.None? ==>
      r == Err(Reported("shared memory not found"))
    ensures r.Ok? <==> info.Ok? && info.value.memAvailable.Some? && info.value.shmem.Some?
    ensures r.Ok? ==>
      var total, available, shared := info.value.memTotal, info.value.memAvailable.value, info.value.shmem.value;
      && r.value.totalBytes == total
      && (available + shared <= total ==> r.value.usageBytes + available + shared == total)
      && r.value.usedPercent == SaturatingU8(ScaleBy(Divide(available as real - shared as real, total as real), 100.0))
  {
    match info
    case Err(e) => Err(Panicked("called `Result::unwrap()` on an `Err` value: " + e))
    case Ok(m) =>
      if m.memAvailable.None? then Err(Reported("available memory not found"))
      else if m.shmem.None? then Err(Reported("shared memory not found"))
      else
        var available, shared := m.memAvailable.value, m.shmem.value;
        var usagePercent := ScaleBy(Divide(available as real - shared as real, m.memTotal as real), 100.0);
        Ok(MemStats(WrappingSubU64(WrappingSubU64(m.memTotal, available), shared), m.memTotal,
                    SaturatingU8(usagePercent)))
  }

  /**
   * The used percentage is the available less the shared memory as a percentage of the total,
   * truncated; with less available than shared memory it is 0.
   */
  lemma UsedPercentTruncates(info: Meminfo)
    requires info.memAvailable.Some? && info.shmem.Some?
    ensures var stats := GetMemStats(Ok(info)).value;
      var total, available, shared := info.memTotal, info.memAvailable.value, info.shmem.value;
      && (total > 0 && shared <= available <= total ==>
            var percent := (available - shared) as real / total as real * 100.0;
            stats.usedPercent as real <= percent < stats.usedPercent as real + 1.0)
      && (available < shared ==> stats.usedPercent == 0)
  {
    var total, available, shared := info.memTotal, info.memAvailable.value, info.shmem.value;
    var part := available as real - shared as real;
    if total > 0 && shared <= available <= total {
      FractionAtMostOne(part, total as real);
    }
    if available < shared && total > 0 {
      var q := part / total as real;
      assert q * total as real == part;
      assert q < 0.0;
    }
  }

  /** How many bytes one `unit` holds, as a float. */
  function Divisor(unit: BytesUnit): (d: real)
    ensures d >= 1024.0
  {
    UnitBytes(unit) as real
  }

  /** `v` units make `bytes` bytes. */
  predicate InUnit(v: real, unit: BytesUnit, bytes: real) {
    v * Divisor(unit) == bytes
  }

  /**
   * `i3blocks_print`: the used or the remaining memory in the unit, with one decimal and the
   * unit's letter, or the used or remaining percentage.
   */
  function I3blocksPrint(stats: MemStats, unit: BytesUnit, display: MemoryDisplay): (line: Line)
    ensures display == Used || display == Remaining ==>
      && |line| == 2 && line[0].Fixed? && line[0].value.Num? && line[0].precision == 1
      && line[1] == Lit(UnitLetter(unit))
    ensures display == Used ==> InUnit(line[0].value.value, unit, stats.usageBytes as real)
    ensures display == Remaining ==>
      InUnit(line[0].value.value, unit, stats.totalBytes as real - stats.usageBytes as real)
    ensures display == UsedPercentage ==> line == [Lit(PercentText(stats.usedPercent))]
    ensures display == RemainingPercentage ==>
      line == [Lit(PercentText(WrappingSubU8(100, stats.usedPercent)))]
  {
    match display
    case Used => [OneDecimal(Num(stats.usageBytes as real / Divisor(unit))), Lit(UnitLetter(unit))]
    case Remaining =>
      var totalMemory := stats.totalBytes as real / Divisor(unit);
      [OneDecimal(Num(totalMemory - stats.usageBytes as real / Divisor(unit))), Lit(UnitLetter(unit))]
    case UsedPercentage => [Lit(PercentText(stats.usedPercent))]
    case RemainingPercentage => [Lit(PercentText(WrappingSubU8(100, stats.usedPercent)))]
  }

  /**
   * When the available and shared memory fit in the total, the remaining memory shown is
   * exactly the available plus the shared memory, never negative.
   */
  lemma RemainingIsAvailablePlusShared(info: Meminfo, unit: BytesUnit)
    requires info.memAvailable.Some? && info.shmem.Some?
    requires info.memAvailable.value + info.shmem.value <= info.memTotal
    ensures var stats := GetMemStats(Ok(info)).value;
      var line := I3blocksPrint(stats, unit, Remaining);
      && InUnit(line[0].value.value, unit, (info.memAvailable.value + info.shmem.value) as real)
      && line[0].value.value >= 0.0
  {
    var stats := GetMemStats(Ok(info)).value;
    assert stats.totalBytes as real - stats.usageBytes as real == (info.memAvailable.value + info.shmem.value) as real;
    RemainingOfStats(stats, unit);
  }

  /** The remaining memory shown is non-negative whenever the usage fits in the total. */
  lemma RemainingOfStats(stats: MemStats, unit: BytesUnit)
    requires stats.usageBytes <= stats.totalBytes
    ensures I3blocksPrint(stats, unit, Remaining)[0].value.value >= 0.0
  {
    var v := I3blocksPrint(stats, unit, Remaining)[0].value.value;
    var d := Divisor(unit);
    var p := stats.totalBytes as real - stats.usageBytes as real;
    assert v * d == p;
    assert v == p / d;
  }

  /** With a percentage of at most 100, the remaining percentage is its complement. */
  lemma RemainingPercentageComplements(stats: MemStats, unit: BytesUnit)
    requires stats.usedPercent <= 100
    ensures I3blocksPrint(stats, unit, RemainingPercentage) == [Lit(PercentText(100 - stats.usedPercent))]
  {
    var complement := WrappingSubU8(100, stats.usedPercent);
    assert complement == 100 - stats.usedPercent;
  }

  /**
   * `get`: the stats or their error; one line, the same long and short, no icon, coloured by
   * the used percentage against the warning, middle and critical bounds.
   */
  function Get(command: MemArgs, info: Result<Meminfo, string>): (r: Result<Option<I3Display<FourBoundColor>>, Failure>)
    ensures GetMemStats(info).Err? ==> r == Err(GetMemStats(info).error)
    ensures GetMemStats(info).Ok? ==>
      var stats := GetMemStats(info).value;
      && r.Ok? && r.value.Some?
      && r.value.value.icon.None?
      && r.value.value.longLine == r.value.value.shortLine == I3blocksPrint(stats, command.unit, command.display)
      && r.value.value.color == Some(FourBoundColor(command.warning, MiddleBound(command.warning, command.critical),
                                                    command.critical, Num(stats.usedPercent as real)))
  {
    match GetMemStats(info)
    case Err(f) => Err(f)
    case Ok(stats) =>
      var lines := I3blocksPrint(stats, command.unit, command.display);
      var color := FourBoundColor(command.warning, MiddleBound(command.warning, command.critical),
                                  command.critical, Num(stats.usedPercent as real));
      Ok(Some(I3Display(None, lines, lines, Some(color))))
  }
}
