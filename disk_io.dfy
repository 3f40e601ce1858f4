// The disk throughput check: two samples of the kernel's disk counters and of the CPU iowait
// time, one second apart, turned into rates and shown with an adaptive unit.
module DiskIo {
  import opened Wrappers
  import opened Numeric
  import opened Text
  import opened Output

  const DISK_CHECK_NUM: nat := 2
  const CHECK_INTERVAL_SEC: nat := 1
  /**
   * The divisor that turns the difference of two samples into a rate: the number of samples
   * times the pause after each, although the two samples are taken one pause, one second, apart.
   */
  const DISK_CHECK_INTERVAL: real := (DISK_CHECK_NUM * CHECK_INTERVAL_SEC) as real
  const PROC_STAT_PATH: string := "/proc/stat"
  /** Index of the iowait column in a `cpu` line of `/proc/stat`, counting the `cpu` label. */
  const IOWAIT_FIELD: nat := 5

  datatype DiskIoArgs = DiskIoArgs(device: string, criticalMb: u64, warningMb: u64, unit: Option<BytesUnit>)

  /** One entry of `/proc/diskstats`, as far as the check reads it. */
  datatype DiskStat = DiskStat(name: string, readCount: u64, writeCount: u64)

  datatype DiskIoStats = DiskIoStats(readMb: real, writeMb: real, ioWait: F64)

  datatype PrettyDiskIoStats = PrettyDiskIoStats(
    read: real, write: real, readUnit: BytesUnit, writeUnit: BytesUnit, ioWaitPercentage: F64)

  // ----- /proc/stat -----

  predicate IsCpuLine(line: string) {
    "cpu" <= line
  }

  /** The lines that start with `cpu`, in order. */
  function CpuLines(lines: seq<string>): (r: seq<string>)
    ensures |r| <= |lines|
    ensures forall j :: 0 <= j < |r| ==> IsCpuLine(r[j])
  {
    if lines == [] then []
    else
      var last := lines[|lines| - 1];
      CpuLines(lines[..|lines| - 1]) + (if IsCpuLine(last) then [last] else [])
  }

  /**
   * How taking the iowait column of a line fails, if it does: a line with too few columns
   * is indexed out of bounds, a column that is not a float is a parse error.
   */
  function FieldFailure(line: string, parse: string -> Option<real>): Option<Failure> {
    var fields := SplitWhitespace(line);
    if |fields| <= IOWAIT_FIELD then
      Some(Panicked("index out of bounds: the len is " + Decimal(|fields|) + " but the index is 5"))
    else if parse(fields[IOWAIT_FIELD]).None? then
      Some(Reported("can't parse iowait value: invalid float literal"))
    else None
  }

  function IowaitField(line: string, parse: string -> Option<real>): real
    requires FieldFailure(line, parse).None?
  {
    parse(SplitWhitespace(line)[IOWAIT_FIELD]).value
  }

  /** The iowait columns of the `cpu` lines of `lines`, or the failure of the first one that cannot be read. */
  function IowaitsOf(lines: seq<string>, parse: string -> Option<real>): Result<seq<real>, Failure> {
    if lines == [] then Ok([])
    else
      var init := lines[..|lines| - 1];
      var last := lines[|lines| - 1];
      var prev := IowaitsOf(init, parse);
      if prev.Err? || !IsCpuLine(last) then prev
      else
        match FieldFailure(last, parse)
        case Some(f) => Err(f)
        case None => Ok(prev.value + [IowaitField(last, parse)])
  }

  /** Whether `values` are the iowait columns of `cpu`, one for one. */
  predicate ReadsAll(cpu: seq<string>, parse: string -> Option<real>, values: seq<real>) {
    |values| == |cpu| &&
    forall j :: 0 <= j < |cpu| ==> FieldFailure(cpu[j], parse).None? && values[j] == IowaitField(cpu[j], parse)
  }

  /** Whether `f` is the failure of the first line of `cpu` whose iowait column cannot be read. */
  predicate FirstFailure(cpu: seq<string>, parse: string -> Option<real>, f: Failure) {
    exists j :: 0 <= j < |cpu| && FieldFailure(cpu[j], parse) == Some(f) &&
      forall k :: 0 <= k < j ==> FieldFailure(cpu[k], parse).None?
  }

  /**
   * The iowaits are read from every `cpu` line when each one can be read; otherwise the
   * first line that cannot decides the failure.
   */
  lemma {:induction false} IowaitsOfSpec(lines: seq<string>, parse: string -> Option<real>)
    ensures var r := IowaitsOf(lines, parse);
      && (r.Ok? ==> ReadsAll(CpuLines(lines), parse, r.value))
      && (r.Err? ==> FirstFailure(CpuLines(lines), parse, r.error))
  {
    if lines != [] {
      var init := lines[..|lines| - 1];
      var last := lines[|lines| - 1];
      IowaitsOfSpec(init, parse);
      var prev := IowaitsOf(init, parse);
      var cpu0 := CpuLines(init);
      var cpu := CpuLines(lines);
      assert cpu == cpu0 + (if IsCpuLine(last) then [last] else []);
      if prev.Err? {
        FirstFailureExtends(cpu0, cpu, parse, prev.error);
      } else if IsCpuLine(last) {
        ReadsAllExtends(cpu0, last, parse, prev.value);
      }
    }
  }

  /** The first failure of some lines stays the first when more lines follow. */
  lemma FirstFailureExtends(cpu0: seq<string>, cpu: seq<string>, parse: string -> Option<real>, f: Failure)
    requires cpu0 <= cpu && FirstFailure(cpu0, parse, f)
    ensures FirstFailure(cpu, parse, f)
  {
    var j :| 0 <= j < |cpu0| && FieldFailure(cpu0[j], parse) == Some(f) &&
      forall k :: 0 <= k < j ==> FieldFailure(cpu0[k], parse).None?;
    assert cpu[j] == cpu0[j];
  }

  /** After lines that are all read, one more line is either read too or the first failure. */
  lemma ReadsAllExtends(cpu0: seq<string>, last: string, parse: string -> Option<real>, values: seq<real>)
    requires ReadsAll(cpu0, parse, values)
    ensures FieldFailure(last, parse).None? ==> ReadsAll(cpu0 + [last], parse, values + [IowaitField(last, parse)])
    ensures FieldFailure(last, parse).Some? ==> FirstFailure(cpu0 + [last], parse, FieldFailure(last, parse).value)
  {
    var cpu := cpu0 + [last];
    assert cpu[|cpu0|] == last;
    assert forall k :: 0 <= k < |cpu0| ==> cpu[k] == cpu0[k];
  }

  /** A failure on a prefix of the lines is the failure of all of them. */
  lemma {:induction false} IowaitsErrorPersists(lines: seq<string>, k: nat, parse: string -> Option<real>)
    requires k <= |lines|
    requires IowaitsOf(lines[..k], parse).Err?
    ensures IowaitsOf(lines, parse) == IowaitsOf(lines[..k], parse)
    decreases |lines| - k
  {
    if k < |lines| {
      assert lines[..k + 1][..k] == lines[..k];
      IowaitsErrorPersists(lines, k + 1, parse);
    } else {
      assert lines[..k] == lines;
    }
  }

  /**
   * `get_iowait`: the mean iowait over the `cpu` lines of the content of `/proc/stat`, or the
   * failure of the first `cpu` line whose iowait column cannot be read.
   */
  function IowaitOf(content: Result<string, string>, parse: string -> Option<real>): (r: Result<F64, Failure>)
    ensures content.Err? ==> r == Err(Reported("can't read file " + PROC_STAT_PATH + ": " + content.error))
    ensures content.Ok? ==> (r.Ok? <==> IowaitsOf(Lines(content.value), parse).Ok?)
    ensures content.Ok? && r.Err? ==> FirstFailure(CpuLines(Lines(content.value)), parse, r.error)
    ensures content.Ok? && r.Ok? ==>
      var v := IowaitsOf(Lines(content.value), parse).value;
      ReadsAll(CpuLines(Lines(content.value)), parse, v) && r.value == Divide(Sum(v), |v| as real)
  {
    match content
    case Err(e) => Err(Reported("can't read file " + PROC_STAT_PATH + ": " + e))
    case Ok(c) =>
      IowaitsOfSpec(Lines(c), parse);
      match IowaitsOf(Lines(c), parse)
      case Err(f) => Err(f)
      case Ok(v) => Ok(Divide(Sum(v), |v| as real))
  }

  /** Without `cpu` lines there is nothing to average: the mean is 0/0, NaN. */
  lemma NoCpuLinesIsNaN(content: string, parse: string -> Option<real>)
    requires CpuLines(Lines(content)) == []
    ensures IowaitOf(Ok(content), parse) == Ok(NaN)
  {
    IowaitsOfSpec(Lines(content), parse);
  }

  /** Every iowait read lies between bounds that every parsed number respects. */
  lemma IowaitsWithin(lines: seq<string>, parse: string -> Option<real>, lo: real, hi: real)
    requires IowaitsOf(lines, parse).Ok?
    requires forall token :: parse(token).Some? ==> lo <= parse(token).value <= hi
    ensures forall j :: 0 <= j < |IowaitsOf(lines, parse).value| ==> lo <= IowaitsOf(lines, parse).value[j] <= hi
  {
    IowaitsOfSpec(lines, parse);
    var v := IowaitsOf(lines, parse).value;
    var cpu := CpuLines(lines);
    forall j | 0 <= j < |v|
      ensures lo <= v[j] <= hi
    {
      assert v[j] == IowaitField(cpu[j], parse);
      assert parse(SplitWhitespace(cpu[j])[IOWAIT_FIELD]).Some?;
    }
  }

  /** The mean iowait, when every reading lies between two bounds, lies between them. */
  lemma IowaitMeanBounds(content: string, parse: string -> Option<real>, lo: real, hi: real)
    requires IowaitsOf(Lines(content), parse).Ok?
    requires CpuLines(Lines(content)) != []
    requires forall token :: parse(token).Some? ==> lo <= parse(token).value <= hi
    ensures var r := IowaitOf(Ok(content), parse);
      r.Ok? && r.value.Num? && lo <= r.value.value <= hi
  {
    var v := IowaitsOf(Lines(content), parse).value;
    IowaitsOfSpec(Lines(content), parse);
    IowaitsWithin(Lines(content), parse, lo, hi);
    MeanWithin(v, lo, hi);
  }

  /** One more line: skipped unless it is a `cpu` line, whose column is then read or fails. */
  lemma IowaitsOfStep(lines: seq<string>, i: nat, parse: string -> Option<real>)
    requires i < |lines| && IowaitsOf(lines[..i], parse).Ok?
    ensures !IsCpuLine(lines[i]) ==> IowaitsOf(lines[..i + 1], parse) == IowaitsOf(lines[..i], parse)
    ensures IsCpuLine(lines[i]) && FieldFailure(lines[i], parse).Some? ==>
      IowaitsOf(lines[..i + 1], parse) == Err(FieldFailure(lines[i], parse).value)
    ensures IsCpuLine(lines[i]) && FieldFailure(lines[i], parse).None? ==>
      IowaitsOf(lines[..i + 1], parse) == Ok(IowaitsOf(lines[..i], parse).value + [IowaitField(lines[i], parse)])
  {
    assert lines[..i + 1][..i] == lines[..i];
  }

  /** `get_iowait`, with the content of `/proc/stat` (or the error reading it) as input. */
  method GetIowait(content: Result<string, string>, parse: string -> Option<real>) returns (r: Result<F64, Failure>)
    ensures r == IowaitOf(content, parse)
  {
    if content.Err? {
      return Err(Reported("can't read file " + PROC_STAT_PATH + ": " + content.error));
    }
    var lines := Lines(content.value);
    var iowaits: seq<real> := [];
    var i := 0;
    while i < |lines|
      invariant 0 <= i <= |lines|
      invariant IowaitsOf(lines[..i], parse) == Ok(iowaits)
    {
      var line := lines[i];
      IowaitsOfStep(lines, i, parse);
      if IsCpuLine(line) {
        var failure := FieldFailure(line, parse);
        if failure.Some? {
          IowaitsErrorPersists(lines, i + 1, parse);
          return Err(failure.value);
        }
        iowaits := iowaits + [IowaitField(line, parse)];
      }
      i := i + 1;
    }
    assert lines[..i] == lines;
    return Ok(Divide(Sum(iowaits), |iowaits| as real));
  }

  // ----- /proc/diskstats -----

  /** The `reads` counters of the entries named `device`, in order. */
  function MatchedReads(device: string, entries: seq<DiskStat>): (r: seq<real>)
    ensures |r| <= |entries|
    ensures r == [] <==> forall i :: 0 <= i < |entries| ==> entries[i].name != device
  {
    if entries == [] then []
    else
      var last := entries[|entries| - 1];
      MatchedReads(device, entries[..|entries| - 1]) + (if last.name == device then [last.readCount as real] else [])
  }

  /** The `writes` counters of the entries named `device`, in order. */
  function MatchedWrites(device: string, entries: seq<DiskStat>): (r: seq<real>)
    ensures |r| == |MatchedReads(device, entries)|
  {
    if entries == [] then []
    else
      var last := entries[|entries| - 1];
      MatchedWrites(device, entries[..|entries| - 1]) + (if last.name == device then [last.writeCount as real] else [])
  }

  /** What the sampling loop has gathered so far. */
  datatype Samples = Samples(readValues: seq<real>, writeValues: seq<real>, iowait: seq<F64>)

  /**
   * One pass of the sampling loop: the disk counters (an error ends the check), the device
   * check on everything gathered so far, then the iowait.
   */
  function SampleStep(device: string, s: Samples, disk: Result<seq<DiskStat>, string>,
                      stat: Result<string, string>, parse: string -> Option<real>): (r: Result<Samples, Failure>)
    ensures disk.Err? ==> r == Err(Reported("can't get disks stats: " + disk.error))
    ensures disk.Ok? && s.readValues == [] && MatchedReads(device, disk.value) == [] ==>
      r == Err(Reported("device `" + device + "` not found"))
    ensures r.Ok? ==>
      && r.value.readValues == s.readValues + MatchedReads(device, disk.value) != []
      && r.value.writeValues == s.writeValues + MatchedWrites(device, disk.value)
      && IowaitOf(stat, parse).Ok? && r.value.iowait == s.iowait + [IowaitOf(stat, parse).value]
  {
    if disk.Err? then Err(Reported("can't get disks stats: " + disk.error))
    else
      var readValues := s.readValues + MatchedReads(device, disk.value);
      var writeValues := s.writeValues + MatchedWrites(device, disk.value);
      if readValues == [] then Err(Reported("device `" + device + "` not found"))
      else
        match IowaitOf(stat, parse)
        case Err(f) => Err(f)
        case Ok(w) => Ok(Samples(readValues, writeValues, s.iowait + [w]))
  }

  /** The state after `k` passes of the sampling loop, or how it ended. */
  function Sampling(device: string, disks: seq<Result<seq<DiskStat>, string>>,
                    procStat: seq<Result<string, string>>, parse: string -> Option<real>, k: nat)
    : (r: Result<Samples, Failure>)
    requires k <= |disks| && k <= |procStat|
    ensures r.Ok? ==> |r.value.readValues| == |r.value.writeValues| && |r.value.iowait| == k && (k > 0 ==> r.value.readValues != [])
  {
    if k == 0 then Ok(Samples([], [], []))
    else
      var prev := Sampling(device, disks, procStat, parse, k - 1);
      if prev.Err? then prev
      else SampleStep(device, prev.value, disks[k - 1], procStat[k - 1], parse)
  }

  /** A sampling pass that fails ends the whole sampling. */
  lemma {:induction false} SamplingErrorPersists(device: string, disks: seq<Result<seq<DiskStat>, string>>,
      procStat: seq<Result<string, string>>, parse: string -> Option<real>, k: nat)
    requires |disks| == DISK_CHECK_NUM && |procStat| == DISK_CHECK_NUM && k <= DISK_CHECK_NUM
    requires Sampling(device, disks, procStat, parse, k).Err?
    ensures Sampling(device, disks, procStat, parse, DISK_CHECK_NUM) == Sampling(device, disks, procStat, parse, k)
    decreases DISK_CHECK_NUM - k
  {
    if k < DISK_CHECK_NUM {
      SamplingErrorPersists(device, disks, procStat, parse, k + 1);
    }
  }

  /** `rate` times `DISK_CHECK_INTERVAL` is the change from `first` to `second`. */
  predicate IsRate(rate: real, first: real, second: real) {
    rate * DISK_CHECK_INTERVAL == second - first
  }

  /** The change between two counters divided by `DISK_CHECK_INTERVAL`. */
  function Rate(first: real, second: real): (r: real)
    ensures IsRate(r, first, second)
    ensures first == second ==> r == 0.0
  {
    (second - first) / DISK_CHECK_INTERVAL
  }

  /**
   * The two samples are one pause apart, so the change per second is the whole change; the
   * rate shown is that divided by the number of samples, half of it.
   */
  lemma RateIsHalfThePerSecondChange(first: real, second: real)
    ensures var perSecond := (second - first) / CHECK_INTERVAL_SEC as real;
      Rate(first, second) == perSecond / DISK_CHECK_NUM as real == perSecond / 2.0
    ensures first != second ==> Rate(first, second) != (second - first) / CHECK_INTERVAL_SEC as real
  {
  }

  /**
   * `get_stats`: the rates between the first two readings gathered (a single reading is an
   * index out of bounds), and between the two iowait means.
   */
  function StatsOf(device: string, disks: seq<Result<seq<DiskStat>, string>>,
                   procStat: seq<Result<string, string>>, parse: string -> Option<real>)
    : (r: Result<DiskIoStats, Failure>)
    requires |disks| == DISK_CHECK_NUM && |procStat| == DISK_CHECK_NUM
  {
    match Sampling(device, disks, procStat, parse, DISK_CHECK_NUM)
    case Err(f) => Err(f)
    case Ok(s) =>
      if |s.readValues| < 2 then Err(Panicked("index out of bounds: the len is " + Decimal(|s.readValues|) + " but the index is 1"))
      else Ok(DiskIoStats(Rate(s.readValues[0], s.readValues[1]), Rate(s.writeValues[0], s.writeValues[1]),
                          DivideBy(Minus(s.iowait[1], s.iowait[0]), DISK_CHECK_INTERVAL)))
  }

  /** A device absent from the first sample is reported by name. */
  lemma DeviceMissingIsReported(device: string, disks: seq<Result<seq<DiskStat>, string>>,
      procStat: seq<Result<string, string>>, parse: string -> Option<real>)
    requires |disks| == DISK_CHECK_NUM && |procStat| == DISK_CHECK_NUM
    requires disks[0].Ok? && forall i :: 0 <= i < |disks[0].value| ==> disks[0].value[i].name != device
    ensures StatsOf(device, disks, procStat, parse) == Err(Reported("device `" + device + "` not found"))
  {
    assert Sampling(device, disks, procStat, parse, 1) == Err(Reported("device `" + device + "` not found"));
    SamplingErrorPersists(device, disks, procStat, parse, 1);
  }

  /** One sampling pass that finds a single entry for the device and reads the iowait. */
  lemma SingleEntryStep(device: string, s: Samples, disk: Result<seq<DiskStat>, string>,
      stat: Result<string, string>, parse: string -> Option<real>, rd: real, wr: real, w: F64)
    requires disk.Ok? && MatchedReads(device, disk.value) == [rd] && MatchedWrites(device, disk.value) == [wr]
    requires IowaitOf(stat, parse) == Ok(w)
    ensures SampleStep(device, s, disk, stat, parse)
         == Ok(Samples(s.readValues + [rd], s.writeValues + [wr], s.iowait + [w]))
  {
  }

  /** Two sampling passes that each find a single entry for the device. */
  lemma TwoSingleEntrySamples(device: string, disks: seq<Result<seq<DiskStat>, string>>,
      procStat: seq<Result<string, string>>, parse: string -> Option<real>,
      r0: real, r1: real, w0: real, w1: real, i0: F64, i1: F64)
    requires |disks| == DISK_CHECK_NUM && |procStat| == DISK_CHECK_NUM
    requires disks[0].Ok? && MatchedReads(device, disks[0].value) == [r0] && MatchedWrites(device, disks[0].value) == [w0]
    requires disks[1].Ok? && MatchedReads(device, disks[1].value) == [r1] && MatchedWrites(device, disks[1].value) == [w1]
    requires IowaitOf(procStat[0], parse) == Ok(i0) && IowaitOf(procStat[1], parse) == Ok(i1)
    ensures Sampling(device, disks, procStat, parse, 2) == Ok(Samples([r0, r1], [w0, w1], [i0, i1]))
  {
    var first := Samples([r0], [w0], [i0]);
    FirstSingleEntrySample(device, disks, procStat, parse, r0, w0, i0);
    SingleEntryStep(device, first, disks[1], procStat[1], parse, r1, w1, i1);
    assert first.readValues + [r1] == [r0, r1];
    assert first.writeValues + [w1] == [w0, w1];
    assert first.iowait + [i1] == [i0, i1];
  }

  /** The first sampling pass that finds a single entry for the device. */
  lemma FirstSingleEntrySample(device: string, disks: seq<Result<seq<DiskStat>, string>>,
      procStat: seq<Result<string, string>>, parse: string -> Option<real>, r0: real, w0: real, i0: F64)
    requires |disks| == DISK_CHECK_NUM && |procStat| == DISK_CHECK_NUM
    requires disks[0].Ok? && MatchedReads(device, disks[0].value) == [r0] && MatchedWrites(device, disks[0].value) == [w0]
    requires IowaitOf(procStat[0], parse) == Ok(i0)
    ensures Sampling(device, disks, procStat, parse, 1) == Ok(Samples([r0], [w0], [i0]))
  {
    var empty := Samples([], [], []);
    SingleEntryStep(device, empty, disks[0], procStat[0], parse, r0, w0, i0);
    assert empty.readValues + [r0] == [r0];
    assert empty.writeValues + [w0] == [w0];
    assert empty.iowait + [i0] == [i0];
  }

  /**
   * With one entry for the device in each sample, the rates are the differences over the
   * interval; equal counters give a rate of exactly zero.
   */
  lemma RatesBetweenSamples(device: string, disks: seq<Result<seq<DiskStat>, string>>,
      procStat: seq<Result<string, string>>, parse: string -> Option<real>,
      r0: real, r1: real, w0: real, w1: real, i0: F64, i1: F64)
    requires |disks| == DISK_CHECK_NUM && |procStat| == DISK_CHECK_NUM
    requires disks[0].Ok? && MatchedReads(device, disks[0].value) == [r0] && MatchedWrites(device, disks[0].value) == [w0]
    requires disks[1].Ok? && MatchedReads(device, disks[1].value) == [r1] && MatchedWrites(device, disks[1].value) == [w1]
    requires IowaitOf(procStat[0], parse) == Ok(i0) && IowaitOf(procStat[1], parse) == Ok(i1)
    ensures var r := StatsOf(device, disks, procStat, parse);
      && r.Ok?
      && IsRate(r.value.readMb, r0, r1)
      && IsRate(r.value.writeMb, w0, w1)
      && r.value.ioWait == DivideBy(Minus(i1, i0), DISK_CHECK_INTERVAL)
      && (r0 == r1 ==> r.value.readMb == 0.0)
      && (w0 == w1 ==> r.value.writeMb == 0.0)
  {
    SingleEntryStats(device, disks, procStat, parse, r0, r1, w0, w1, i0, i1);
    StatsRates(StatsOf(device, disks, procStat, parse).value, r0, r1, w0, w1);
  }

  /** Stats holding the rates of two pairs of counters: each rate times the interval is the difference. */
  lemma StatsRates(st: DiskIoStats, r0: real, r1: real, w0: real, w1: real)
    requires st.readMb == Rate(r0, r1) && st.writeMb == Rate(w0, w1)
    ensures IsRate(st.readMb, r0, r1) && IsRate(st.writeMb, w0, w1)
    ensures (r0 == r1 ==> st.readMb == 0.0) && (w0 == w1 ==> st.writeMb == 0.0)
  {
  }

  /** With one entry for the device in each sample, the stats are the rates between the two. */
  lemma SingleEntryStats(device: string, disks: seq<Result<seq<DiskStat>, string>>,
      procStat: seq<Result<string, string>>, parse: string -> Option<real>,
      r0: real, r1: real, w0: real, w1: real, i0: F64, i1: F64)
    requires |disks| == DISK_CHECK_NUM && |procStat| == DISK_CHECK_NUM
    requires disks[0].Ok? && MatchedReads(device, disks[0].value) == [r0] && MatchedWrites(device, disks[0].value) == [w0]
    requires disks[1].Ok? && MatchedReads(device, disks[1].value) == [r1] && MatchedWrites(device, disks[1].value) == [w1]
    requires IowaitOf(procStat[0], parse) == Ok(i0) && IowaitOf(procStat[1], parse) == Ok(i1)
    ensures StatsOf(device, disks, procStat, parse)
         == Ok(DiskIoStats(Rate(r0, r1), Rate(w0, w1), DivideBy(Minus(i1, i0), DISK_CHECK_INTERVAL)))
  {
    var s := Samples([r0, r1], [w0, w1], [i0, i1]);
    TwoSingleEntrySamples(device, disks, procStat, parse, r0, r1, w0, w1, i0, i1);
    StatsOfSamples(device, disks, procStat, parse, s);
  }

  /** Two readings or more: the stats are the rates between the first two. */
  lemma StatsOfSamples(device: string, disks: seq<Result<seq<DiskStat>, string>>,
      procStat: seq<Result<string, string>>, parse: string -> Option<real>, s: Samples)
    requires |disks| == DISK_CHECK_NUM && |procStat| == DISK_CHECK_NUM
    requires Sampling(device, disks, procStat, parse, DISK_CHECK_NUM) == Ok(s) && |s.readValues| >= 2
    ensures StatsOf(device, disks, procStat, parse)
         == Ok(DiskIoStats(Rate(s.readValues[0], s.readValues[1]), Rate(s.writeValues[0], s.writeValues[1]),
                           DivideBy(Minus(s.iowait[1], s.iowait[0]), DISK_CHECK_INTERVAL)))
  {
  }

  /** A device that disappears after the first sample leaves one reading, and the check panics. */
  lemma DeviceLostAfterFirstSamplePanics(device: string, disks: seq<Result<seq<DiskStat>, string>>,
      procStat: seq<Result<string, string>>, parse: string -> Option<real>, r0: real)
    requires |disks| == DISK_CHECK_NUM && |procStat| == DISK_CHECK_NUM
    requires disks[0].Ok? && MatchedReads(device, disks[0].value) == [r0]
    requires disks[1].Ok? && MatchedReads(device, disks[1].value) == []
    requires IowaitOf(procStat[0], parse).Ok? && IowaitOf(procStat[1], parse).Ok?
    ensures StatsOf(device, disks, procStat, parse)
         == Err(Panicked("index out of bounds: the len is " + Decimal(1) + " but the index is 1"))
  {
    var empty := Samples([], [], []);
    var s1 := SampleStep(device, empty, disks[0], procStat[0], parse);
    assert s1.Ok? && s1.value.readValues == [r0] by {
      assert empty.readValues + [r0] == [r0];
    }
    assert Sampling(device, disks, procStat, parse, 1) == s1;
    var s2 := SampleStep(device, s1.value, disks[1], procStat[1], parse);
    assert s2.Ok? && s2.value.readValues == [r0] by {
      assert s1.value.readValues + [] == [r0];
    }
    assert Sampling(device, disks, procStat, parse, 2) == s2;
  }

  /** The `for_each` of `get_stats`: push the counters of every entry named `device`. */
  method PushMatches(device: string, entries: seq<DiskStat>, readValues0: seq<real>, writeValues0: seq<real>)
    returns (readValues: seq<real>, writeValues: seq<real>)
    ensures readValues == readValues0 + MatchedReads(device, entries)
    ensures writeValues == writeValues0 + MatchedWrites(device, entries)
  {
    readValues, writeValues := readValues0, writeValues0;
    var j := 0;
    while j < |entries|
      invariant 0 <= j <= |entries|
      invariant readValues == readValues0 + MatchedReads(device, entries[..j])
      invariant writeValues == writeValues0 + MatchedWrites(device, entries[..j])
    {
      MatchedStep(device, entries, j);
      ghost var readsBefore, writesBefore := readValues, writeValues;
      if entries[j].name == device {
        readValues := readValues + [entries[j].readCount as real];
        writeValues := writeValues + [entries[j].writeCount as real];
      }
      PushedStep(readValues0, MatchedReads(device, entries[..j]), readsBefore,
                 if entries[j].name == device then [entries[j].readCount as real] else [], readValues);
      PushedStep(writeValues0, MatchedWrites(device, entries[..j]), writesBefore,
                 if entries[j].name == device then [entries[j].writeCount as real] else [], writeValues);
      j := j + 1;
    }
    assert entries[..j] == entries;
  }

  /** Pushing onto values that extend `base` by `matched` extends `base` by the longer match. */
  lemma PushedStep(base: seq<real>, matched: seq<real>, before: seq<real>, pushed: seq<real>, after: seq<real>)
    requires before == base + matched && after == before + pushed
    ensures after == base + (matched + pushed)
  {
  }

  /** One more entry adds its counters, when it is named `device`, at the end. */
  lemma MatchedStep(device: string, entries: seq<DiskStat>, j: nat)
    requires j < |entries|
    ensures MatchedReads(device, entries[..j + 1])
         == MatchedReads(device, entries[..j]) + (if entries[j].name == device then [entries[j].readCount as real] else [])
    ensures MatchedWrites(device, entries[..j + 1])
         == MatchedWrites(device, entries[..j]) + (if entries[j].name == device then [entries[j].writeCount as real] else [])
  {
    assert entries[..j + 1][..j] == entries[..j];
  }

  /**
   * One pass of the sampling loop of `get_stats`: push the counters of every entry named
   * `device`, check that some reading exists, then read the iowait.
   */
  method SamplePass(device: string, s: Samples, disk: Result<seq<DiskStat>, string>,
                    stat: Result<string, string>, parse: string -> Option<real>)
    returns (r: Result<Samples, Failure>)
    ensures r == SampleStep(device, s, disk, stat, parse)
  {
    if disk.Err? {
      return Err(Reported("can't get disks stats: " + disk.error));
    }
    var readValues, writeValues := PushMatches(device, disk.value, s.readValues, s.writeValues);
    if readValues == [] {
      return Err(Reported("device `" + device + "` not found"));
    }
    var w := GetIowait(stat, parse);
    if w.Err? {
      return Err(w.error);
    }
    return Ok(Samples(readValues, writeValues, s.iowait + [w.value]));
  }

  /** `get_stats`, with the disk counters and `/proc/stat` of each sampling pass as inputs. */
  method GetStats(device: string, disks: seq<Result<seq<DiskStat>, string>>,
                  procStat: seq<Result<string, string>>, parse: string -> Option<real>)
    returns (r: Result<DiskIoStats, Failure>)
    requires |disks| == DISK_CHECK_NUM && |procStat| == DISK_CHECK_NUM
    ensures r == StatsOf(device, disks, procStat, parse)
  {
    var samples := Samples([], [], []);
    var k := 0;
    while k < DISK_CHECK_NUM
      invariant 0 <= k <= DISK_CHECK_NUM
      invariant Sampling(device, disks, procStat, parse, k) == Ok(samples)
    {
      var next := SamplePass(device, samples, disks[k], procStat[k], parse);
      if next.Err? {
        SamplingErrorPersists(device, disks, procStat, parse, k + 1);
        return Err(next.error);
      }
      samples := next.value;
      k := k + 1;
    }
    if |samples.readValues| < 2 {
      return Err(Panicked("index out of bounds: the len is " + Decimal(|samples.readValues|) + " but the index is 1"));
    }
    return Ok(DiskIoStats(Rate(samples.readValues[0], samples.readValues[1]),
                          Rate(samples.writeValues[0], samples.writeValues[1]),
                          DivideBy(Minus(samples.iowait[1], samples.iowait[0]), DISK_CHECK_INTERVAL)));
  }

  // ----- units -----

  /** The amount, in MB, that `value` denotes in `unit`. */
  function InMb(value: real, unit: BytesUnit): real {
    match unit
    case Kb => value / 1024.0
    case Mb => value
    case Gb => value * 1024.0
  }

  /** The unit the automatic mode picks for an amount in MB: GB above 1024, KB below 1. */
  predicate AutoUnit(mb: real, unit: BytesUnit) {
    (unit == Gb <==> mb > 1024.0) && (unit == Kb <==> mb < 1.0)
  }

  /** In the automatic mode the number shown is above 1 in GB, below 1024 in KB, and 1..1024 in MB. */
  lemma AutoUnitRange(mb: real, value: real, unit: BytesUnit)
    requires AutoUnit(mb, unit) && InMb(value, unit) == mb
    ensures unit == Gb ==> value > 1.0
    ensures unit == Kb ==> value < 1024.0
    ensures unit == Mb ==> 1.0 <= value <= 1024.0
  {
  }

  /**
   * `pretty_content`: each rate converted to the fixed unit, or, without one, each to the
   * unit that suits it; the iowait is kept as it is.
   */
  method PrettyContent(stats: DiskIoStats, unit: Option<BytesUnit>) returns (pretty: PrettyDiskIoStats)
    ensures InMb(pretty.read, pretty.readUnit) == stats.readMb
    ensures InMb(pretty.write, pretty.writeUnit) == stats.writeMb
    ensures pretty.ioWaitPercentage == stats.ioWait
    ensures unit.Some? ==> pretty.readUnit == unit.value && pretty.writeUnit == unit.value
    ensures unit.None? ==> AutoUnit(stats.readMb, pretty.readUnit) && AutoUnit(stats.writeMb, pretty.writeUnit)
  {
    var defaultUnit := if unit.Some? then unit.value else Mb;
    pretty := PrettyDiskIoStats(0.0, 0.0, defaultUnit, defaultUnit, stats.ioWait);
    match unit {
      case Some(Kb) =>
        pretty := pretty.(read := stats.readMb * 1024.0, write := stats.writeMb * 1024.0);
      case Some(Mb) =>
        pretty := pretty.(read := stats.readMb, write := stats.writeMb);
      case Some(Gb) =>
        pretty := pretty.(read := stats.readMb / 1024.0, write := stats.writeMb / 1024.0);
      case None =>
        if stats.readMb > 1024.0 {
          pretty := pretty.(read := stats.readMb / 1024.0, readUnit := Gb);
        } else if stats.readMb < 1.0 {
          pretty := pretty.(read := stats.readMb * 1024.0, readUnit := Kb);
        } else {
          pretty := pretty.(read := stats.readMb, readUnit := Mb);
        }
        if stats.writeMb > 1024.0 {
          pretty := pretty.(write := stats.writeMb / 1024.0, writeUnit := Gb);
        } else if stats.writeMb < 1.0 {
          pretty := pretty.(write := stats.writeMb * 1024.0, writeUnit := Kb);
        } else {
          pretty := pretty.(write := stats.writeMb, writeUnit := Mb);
        }
    }
  }

  // ----- display -----

  /** Whether `piece` shows `text` coloured against the bounds `warning` and `critical` for `value`. */
  predicate Colored(piece: Piece, warning: real, critical: real, value: F64, text: Line) {
    piece == ThresholdText(warning, critical, value, text)
  }

  /**
   * `to_i3blocks_display`: read rate, write rate and iowait separated by spaces, the rates
   * coloured against the given bounds in MB/s, the iowait against 5 and 10; one line, no colour.
   */
  function ToI3BlocksDisplay(pretty: PrettyDiskIoStats, stats: DiskIoStats, warning: real, critical: real)
    : (d: I3BlocksDisplay)
    ensures d.longLine == d.shortLine && d.color.None? && |d.longLine| == 5
    ensures d.longLine[1] == Lit(" ") && d.longLine[3] == Lit(" ")
    ensures Colored(d.longLine[0], warning, critical, Num(stats.readMb),
                    [Fixed(Num(pretty.read), 5, 1), Unit(pretty.readUnit), Lit("/s")])
    ensures Colored(d.longLine[2], warning, critical, Num(stats.writeMb),
                    [Fixed(Num(pretty.write), 5, 1), Unit(pretty.writeUnit), Lit("/s")])
    ensures Colored(d.longLine[4], 5.0, 10.0, stats.ioWait, [Fixed(pretty.ioWaitPercentage, 3, 1), Lit("%")])
  {
    var readValue := ThresholdText(warning, critical, Num(stats.readMb),
                                   [Fixed(Num(pretty.read), 5, 1), Unit(pretty.readUnit), Lit("/s")]);
    var writeValue := ThresholdText(warning, critical, Num(stats.writeMb),
                                    [Fixed(Num(pretty.write), 5, 1), Unit(pretty.writeUnit), Lit("/s")]);
    var iowaitValue := ThresholdText(5.0, 10.0, stats.ioWait, [Fixed(pretty.ioWaitPercentage, 3, 1), Lit("%")]);
    var line := [readValue, Lit(" "), writeValue, Lit(" "), iowaitValue];
    I3BlocksDisplay(line, line, None)
  }

  /**
   * `get`: sampling failures end the check; otherwise the rates are shown, each one denoting
   * the measured MB/s in the unit chosen for it, coloured against the command's bounds.
   */
  method Get(command: DiskIoArgs, disks: seq<Result<seq<DiskStat>, string>>,
             procStat: seq<Result<string, string>>, parse: string -> Option<real>)
    returns (r: Result<Option<I3BlocksDisplay>, Failure>)
    requires |disks| == DISK_CHECK_NUM && |procStat| == DISK_CHECK_NUM
    ensures var stats := StatsOf(command.device, disks, procStat, parse);
      && (stats.Err? ==> r == Err(stats.error))
      && (stats.Ok? ==> r.Ok? && r.value.Some?)
    ensures r.Ok? && r.value.Some? ==>
      var stats := StatsOf(command.device, disks, procStat, parse).value;
      var line := r.value.value.longLine;
      && |line| == 5 && line[0].ThresholdText? && line[2].ThresholdText? && line[4].ThresholdText?
      && line[0].warning == command.warningMb as real && line[0].critical == command.criticalMb as real
      && line[2].warning == command.warningMb as real && line[2].critical == command.criticalMb as real
      && line[0].value == Num(stats.readMb) && line[2].value == Num(stats.writeMb)
      && |line[0].inner| == 3 && line[0].inner[0].Fixed? && line[0].inner[0].value.Num? && line[0].inner[1].Unit?
      && InMb(line[0].inner[0].value.value, line[0].inner[1].unit) == stats.readMb
      && (command.unit.Some? ==> line[0].inner[1].unit == command.unit.value)
      && (command.unit.None? ==> AutoUnit(stats.readMb, line[0].inner[1].unit))
      && |line[2].inner| == 3 && line[2].inner[0].Fixed? && line[2].inner[0].value.Num? && line[2].inner[1].Unit?
      && InMb(line[2].inner[0].value.value, line[2].inner[1].unit) == stats.writeMb
      && (command.unit.Some? ==> line[2].inner[1].unit == command.unit.value)
      && (command.unit.None? ==> AutoUnit(stats.writeMb, line[2].inner[1].unit))
      && line[1] == line[3] == Lit(" ")
      && Colored(line[4], 5.0, 10.0, stats.ioWait, [Fixed(stats.ioWait, 3, 1), Lit("%")])
  {
    var ioStats := GetStats(command.device, disks, procStat, parse);
    if ioStats.Err? {
      return Err(ioStats.error);
    }
    var pretty := PrettyContent(ioStats.value, command.unit);
    r := Ok(Some(ToI3BlocksDisplay(pretty, ioStats.value, command.warningMb as real, command.criticalMb as real)));
  }
}
