// The CPU check: the usage of every core, shown one by one or as their average, coloured by
// the average.
module Cpu {
  import opened Wrappers
  import opened Numeric
  import opened Text
  import opened Output
  import opened Threshold

  datatype CpuDisplayStyle = All | Average

  datatype CpuArgs = CpuArgs(critical: u8, warning: u8, display: CpuDisplayStyle)

  datatype CpuStats = CpuStats(cpuUsageAllCores: seq<u8>, cpuUsageAverage: F64)

  /**
   * `get_percent_usage`, with the physical core count (None when it cannot be had, which
   * panics) and the usage of every CPU as inputs: the average is taken over the usages before
   * each is truncated to `u8`.
   */
  method GetPercentUsage(physicalCoreCount: Option<nat>, usages: seq<real>) returns (r: Result<CpuStats, Failure>)
    ensures physicalCoreCount.None? <==> r.Err?
    ensures r.Err? ==> r.error == Panicked("can't get the number of physical cores")
    ensures r.Ok? ==>
      && |r.value.cpuUsageAllCores| == |usages|
      && (forall i :: 0 <= i < |usages| ==> r.value.cpuUsageAllCores[i] == SaturatingU8(Num(usages[i])))
      && r.value.cpuUsageAverage == Divide(Sum(usages), |usages| as real)
  {
    if physicalCoreCount.None? {
      return Err(Panicked("can't get the number of physical cores"));
    }
    var allCoresUsage: seq<real> := [];
    var i := 0;
    while i < |usages|
      invariant 0 <= i <= |usages|
      invariant allCoresUsage == usages[..i]
    {
      allCoresUsage := allCoresUsage + [usages[i]];
      i := i + 1;
    }
    assert allCoresUsage == usages;
    var averageCoresUsage := Divide(Sum(allCoresUsage), |allCoresUsage| as real);
    var truncated := seq(|allCoresUsage|, j requires 0 <= j < |allCoresUsage| => SaturatingU8(Num(allCoresUsage[j])));
    return Ok(CpuStats(truncated, averageCoresUsage));
  }

  /** The average of usages between 0 and 100 is between 0 and 100; without any CPU it is NaN. */
  lemma AverageWithinPercent(usages: seq<real>)
    requires forall i :: 0 <= i < |usages| ==> 0.0 <= usages[i] <= 100.0
    ensures usages != [] ==> AtLeast(Divide(Sum(usages), |usages| as real), 0.0) &&
                             AtMost(Divide(Sum(usages), |usages| as real), 100.0)
    ensures usages == [] ==> Divide(Sum(usages), |usages| as real) == NaN
  {
    if usages != [] {
      MeanWithin(usages, 0.0, 100.0);
    }
  }

  /** A core's usage with zero padding to width 2, then a percent sign: at least two digits, then `%`. */
  function CoreText(usage: u8): (s: string)
    ensures |s| >= 3 && s[|s| - 1] == '%'
    ensures forall i :: 0 <= i < |s| - 1 ==> IsDigit(s[i])
  {
    PadLeft(Decimal(usage), 2, '0') + "%"
  }

  /** The digits of a core's text read back as its usage, with a leading zero exactly below 10. */
  lemma CoreTextReadsBack(usage: u8)
    ensures var s := CoreText(usage);
      && AllDigits(s[..|s| - 1]) && ParseNat(s[..|s| - 1]) == usage
      && (usage < 10 <==> |s| == 3 && s[0] == '0')
  {
    var digits := Decimal(usage);
    var padded := PadLeft(digits, 2, '0');
    ParseNatDigits(usage);
    ParseNatLeadingZeros(padded[..|padded| - |digits|], digits);
    assert padded == padded[..|padded| - |digits|] + digits;
    var s := CoreText(usage);
    assert s[..|s| - 1] == padded;
    if usage >= 10 {
      NonZeroLeads(usage);
    }
  }

  /** The decimal digits of a number from 10 up do not start with 0. */
  lemma {:induction false} NonZeroLeads(n: nat)
    requires n >= 10
    ensures NatDigits(n)[0] != '0'
  {
    if n / 10 >= 10 {
      NonZeroLeads(n / 10);
      assert NatDigits(n)[0] == NatDigits(n / 10)[0];
    } else {
      assert NatDigits(n / 10) == [DigitChar(n / 10)];
    }
  }

  /** The text of the average: exactly 100 is shown as `100`, anything else with one decimal and a percent sign. */
  function AverageLine(average: F64): (line: Line)
    ensures average == Num(100.0) <==> line == [Lit("100")]
    ensures average != Num(100.0) ==> line == [OneDecimal(average), Lit("%")]
  {
    if average == Num(100.0) then [Lit("100")] else [OneDecimal(average), Lit("%")]
  }

  /** The text of every core, in order. */
  function CoreTexts(cores: seq<u8>): (texts: seq<string>)
    ensures |texts| == |cores|
    ensures forall i :: 0 <= i < |cores| ==> texts[i] == CoreText(cores[i])
  {
    if cores == [] then [] else [CoreText(cores[0])] + CoreTexts(cores[1..])
  }

  /** `i3blocks_print`: every core's usage joined by spaces, or the average. */
  function I3blocksPrint(stats: CpuStats, display: CpuDisplayStyle): (line: Line)
    ensures display == Average ==> line == AverageLine(stats.cpuUsageAverage)
    ensures display == All ==> line == [Lit(Join(CoreTexts(stats.cpuUsageAllCores), " "))]
  {
    match display
    case All => [Lit(Join(CoreTexts(stats.cpuUsageAllCores), " "))]
    case Average => AverageLine(stats.cpuUsageAverage)
  }

  /**
   * With at least one core, the `All` line splits at its spaces into one segment per core,
   * in order, each of which reads back as that core's usage followed by a percent sign.
   */
  lemma AllStyleSegments(stats: CpuStats)
    requires |stats.cpuUsageAllCores| >= 1
    ensures Split(I3blocksPrint(stats, All)[0].text, ' ') == CoreTexts(stats.cpuUsageAllCores)
  {
    var texts := CoreTexts(stats.cpuUsageAllCores);
    assert forall i :: 0 <= i < |texts| ==> ' ' !in texts[i] by {
      forall i | 0 <= i < |texts| ensures ' ' !in texts[i] {
        assert texts[i] == CoreText(stats.cpuUsageAllCores[i]);
        assert !IsDigit(' ');
      }
    }
    SplitJoin(texts, ' ');
  }

  /**
   * `get`: the line in the chosen style, the same long and short, coloured by the average
   * against the warning and critical bounds.
   */
  method Get(command: CpuArgs, physicalCoreCount: Option<nat>, usages: seq<real>)
    returns (r: Result<Option<I3BlocksDisplay>, Failure>)
    ensures physicalCoreCount.None? ==> r == Err(Panicked("can't get the number of physical cores"))
    ensures physicalCoreCount.Some? ==>
      var average := Divide(Sum(usages), |usages| as real);
      && r.Ok? && r.value.Some?
      && r.value.value.longLine == r.value.value.shortLine
      && r.value.value.color == DefineThresholdColor(command.warning, command.critical, average)
      && (command.display == Average ==> r.value.value.longLine == AverageLine(average))
      && (command.display == All ==>
            r.value.value.longLine
              == [Lit(Join(CoreTexts(seq(|usages|, i requires 0 <= i < |usages| => SaturatingU8(Num(usages[i])))), " "))])
  {
    var cpuStats := GetPercentUsage(physicalCoreCount, usages);
    if cpuStats.Err? {
      return Err(cpuStats.error);
    }
    assert cpuStats.value.cpuUsageAllCores
        == seq(|usages|, i requires 0 <= i < |usages| => SaturatingU8(Num(usages[i])));
    var lines := I3blocksPrint(cpuStats.value, command.display);
    var color := DefineThresholdColor(command.warning, command.critical, cpuStats.value.cpuUsageAverage);
    return Ok(Some(I3BlocksDisplay(lines, lines, color)));
  }
}
