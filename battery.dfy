// The Go battery check: the laptop battery read through ACPI and up to two uPower devices
// (keyboard, mouse) matched by model name, each shown with an icon and a percentage.
module Battery {
  import opened Wrappers
  import opened Numeric
  import opened Text
  import opened Printing

  // ---------------------------------------------------------------------------------------
  // Icons

  /** Battery icons by charge band, lowest first, while running on the battery. */
  const DISCHARGING_ICONS: seq<string> := ["\U{F579}", "\U{F57B}", "\U{F57D}", "\U{F580}", "\U{F578}"]
  /** Battery icons by charge band, lowest first, while charging or full. */
  const CHARGING_ICONS: seq<string> := ["\U{F585}", "\U{F586}", "\U{F587}", "\U{F58A}", "\U{F583}"]

  /** Whether a status reads as running on the battery. */
  predicate OnBattery(status: string) {
    status == "Discharging" || status == "Unknown"
  }

  /** The charge band of a percentage: below 20, 40, 60, 85, or from 85 up. */
  function Band(percentage: int): (b: nat)
    ensures b < 5
    ensures b == 0 <==> percentage < 20
    ensures b == 4 <==> percentage >= 85
  {
    if percentage < 20 then 0
    else if percentage < 40 then 1
    else if percentage < 60 then 2
    else if percentage < 85 then 3
    else 4
  }

  /** A higher charge never falls in a lower band. */
  lemma BandMonotone(p1: int, p2: int)
    requires p1 <= p2
    ensures Band(p1) <= Band(p2)
  {
  }

  /** `iconSelector`: the icon of the percentage's band, from the set matching the status. */
  function IconSelector(currentPercentage: int, status: string): (icon: string)
    ensures icon == (if OnBattery(status) then DISCHARGING_ICONS else CHARGING_ICONS)[Band(currentPercentage)]
    ensures icon in DISCHARGING_ICONS <==> OnBattery(status)
  {
    if status == "Discharging" || status == "Unknown" then
      if currentPercentage < 20 then "\U{F579}"
      else if currentPercentage < 40 then "\U{F57B}"
      else if currentPercentage < 60 then "\U{F57D}"
      else if currentPercentage < 85 then "\U{F580}"
      else "\U{F578}"
    else
      if currentPercentage < 20 then "\U{F585}"
      else if currentPercentage < 40 then "\U{F586}"
      else if currentPercentage < 60 then "\U{F587}"
      else if currentPercentage < 85 then "\U{F58A}"
      else "\U{F583}"
  }

  /** `%s %d%%` of an icon and a percentage. */
  function LevelText(icon: string, percentage: int): (s: string) {
    icon + " " + Decimal(percentage) + "%"
  }

  /** The text of a level is the icon, a space, then digits that read back as the percentage, and `%`. */
  lemma LevelTextReadsBack(icon: string, percentage: nat)
    ensures var s := LevelText(icon, percentage);
      && |s| >= |icon| + 3 && s[..|icon|] == icon && s[|icon|] == ' ' && s[|s| - 1] == '%'
      && AllDigits(s[|icon| + 1..|s| - 1]) && ParseNat(s[|icon| + 1..|s| - 1]) == percentage
  {
    var s := LevelText(icon, percentage);
    assert s[|icon| + 1..|s| - 1] == Decimal(percentage);
    ParseNatDigits(percentage);
  }

  // ---------------------------------------------------------------------------------------
  // Go `strconv.Atoi`

  const MIN_INT: int := -0x8000_0000_0000_0000
  const MAX_INT: int := 0x7FFF_FFFF_FFFF_FFFF

  /** What `strconv.Atoi` accepts: an optional sign followed by one or more decimal digits. */
  predicate IsDecimalInteger(s: string) {
    var digits := if s != [] && (s[0] == '+' || s[0] == '-') then s[1..] else s;
    digits != [] && AllDigits(digits)
  }

  /**
   * `strconv.Atoi` with its error ignored: text that is not a decimal integer gives 0, and a
   * value beyond the 64-bit range gives the nearest bound.
   */
  function Atoi(s: string): (n: int)
    ensures MIN_INT <= n <= MAX_INT
    ensures !IsDecimalInteger(s) ==> n == 0
  {
    if !IsDecimalInteger(s) then 0
    else
      var magnitude := if s[0] == '+' || s[0] == '-' then ParseNat(s[1..]) else ParseNat(s);
      var value := if s[0] == '-' then -magnitude else magnitude;
      if value < MIN_INT then MIN_INT else if value > MAX_INT then MAX_INT else value
  }

  /** `Atoi` reads back what `%d` writes, for every value in the 64-bit range. */
  lemma AtoiDecimal(n: int)
    requires MIN_INT <= n <= MAX_INT
    ensures Atoi(Decimal(n)) == n
  {
    var s := Decimal(n);
    if n >= 0 {
      ParseNatDigits(n);
      assert s[0] != '+' && s[0] != '-' by {
        assert IsDigit(NatDigits(n)[0]);
      }
    } else {
      ParseNatDigits(-n);
      assert s[1..] == NatDigits(-n);
      assert IsDigit(NatDigits(-n)[0]);
    }
  }

  // ---------------------------------------------------------------------------------------
  // uPower devices

  /** A configured device: thresholds, the model name to match, and its icon. */
  datatype UPowerDeviceInfo = UPowerDeviceInfo(
    warningThreshold: int8,
    criticalThrshold: int8,
    modelNameMatch: string,
    batteryPercentage: int8,
    icon: string)

  /** A device uPower reports: its model name and charge. */
  datatype UPowerDeviceInfoRaw = UPowerDeviceInfoRaw(modelNameMatch: string, betteryPercentage: int8)

  /** The device `prepareModel` starts from. */
  const ZERO_DEVICE: UPowerDeviceInfo := UPowerDeviceInfo(0, 0, "", 0, "")

  /** The outcome of `prepareModel`: a device and its error flag, or the process exits. */
  datatype PreparedModel = Prepared(device: UPowerDeviceInfo, failed: bool) | ExitCalled

  /**
   * `prepareModel`, with `CheckReversePercentage` as input: anything but four fields is the
   * zero device with the error flag; otherwise name, icon and the two thresholds read with
   * `Atoi` and cut to `int8`, the process exiting when the thresholds are refused.
   */
  function PrepareModel(currentModel: seq<string>, checkReverse: (int8, int8) -> bool): (r: PreparedModel)
    ensures |currentModel| != 4 <==> r == Prepared(ZERO_DEVICE, true)
    ensures r.Prepared? && !r.failed ==>
      && |currentModel| == 4
      && r.device.modelNameMatch == currentModel[0] && r.device.icon == currentModel[1]
      && r.device.warningThreshold == Int8Of(Atoi(currentModel[2]))
      && r.device.criticalThrshold == Int8Of(Atoi(currentModel[3]))
      && checkReverse(r.device.warningThreshold, r.device.criticalThrshold)
    ensures r == ExitCalled <==>
      |currentModel| == 4 && !checkReverse(Int8Of(Atoi(currentModel[2])), Int8Of(Atoi(currentModel[3])))
  {
    if |currentModel| != 4 then Prepared(ZERO_DEVICE, true)
    else
      var warningThreshold := Int8Of(Atoi(currentModel[2]));
      var criticalThreshold := Int8Of(Atoi(currentModel[3]));
      if !checkReverse(warningThreshold, criticalThreshold) then ExitCalled
      else
        Prepared(ZERO_DEVICE.(criticalThrshold := criticalThreshold, warningThreshold := warningThreshold,
                              modelNameMatch := currentModel[0], icon := currentModel[1]), false)
  }

  /** A model written as name, icon and the two thresholds in decimal is read back field for field. */
  lemma PrepareModelReadsBack(name: string, icon: string, warning: int8, critical: int8,
                              checkReverse: (int8, int8) -> bool)
    requires checkReverse(warning, critical)
    ensures PrepareModel([name, icon, Decimal(warning), Decimal(critical)], checkReverse)
         == Prepared(UPowerDeviceInfo(warning, critical, name, 0, icon), false)
  {
    AtoiDecimal(warning);
    AtoiDecimal(critical);
  }

  /** A configured device matched to a reported one. */
  datatype Match = Match(raw: UPowerDeviceInfoRaw, device: UPowerDeviceInfo)

  /** The configured devices, in order, whose model name is that of `raw`. */
  function MatchesOf(raw: UPowerDeviceInfoRaw, devices: seq<UPowerDeviceInfo>): (ms: seq<Match>)
    ensures forall k :: 0 <= k < |ms| ==>
      ms[k].raw == raw && ms[k].device in devices && ms[k].device.modelNameMatch == raw.modelNameMatch
  {
    if devices == [] then []
    else
      var last := devices[|devices| - 1];
      MatchesOf(raw, devices[..|devices| - 1]) + (if raw.modelNameMatch == last.modelNameMatch then [Match(raw, last)] else [])
  }

  /** Every pair with equal model names, reported devices in order, configured ones within each. */
  function AllMatches(raws: seq<UPowerDeviceInfoRaw>, devices: seq<UPowerDeviceInfo>): (ms: seq<Match>)
    ensures forall k :: 0 <= k < |ms| ==>
      ms[k].raw in raws && ms[k].device in devices && ms[k].device.modelNameMatch == ms[k].raw.modelNameMatch
  {
    if raws == [] then []
    else AllMatches(raws[..|raws| - 1], devices) + MatchesOf(raws[|raws| - 1], devices)
  }

  /** Every reported device with the model name of a configured device is matched with it. */
  lemma {:induction false} AllMatchesComplete(raws: seq<UPowerDeviceInfoRaw>, devices: seq<UPowerDeviceInfo>,
                                              i: nat, j: nat)
    requires i < |raws| && j < |devices| && raws[i].modelNameMatch == devices[j].modelNameMatch
    ensures Match(raws[i], devices[j]) in AllMatches(raws, devices)
  {
    if i == |raws| - 1 {
      MatchesOfComplete(raws[i], devices, j);
    } else {
      AllMatchesComplete(raws[..|raws| - 1], devices, i, j);
    }
  }

  lemma {:induction false} MatchesOfComplete(raw: UPowerDeviceInfoRaw, devices: seq<UPowerDeviceInfo>, j: nat)
    requires j < |devices| && raw.modelNameMatch == devices[j].modelNameMatch
    ensures Match(raw, devices[j]) in MatchesOf(raw, devices)
  {
    if j < |devices| - 1 {
      MatchesOfComplete(raw, devices[..|devices| - 1], j);
    }
  }

  /** The text of a match: the configured icon, then the reported charge. */
  function Segment(m: Match): string {
    LevelText(m.device.icon, m.raw.betteryPercentage)
  }

  /** The texts of the matches, in order. */
  function Segments(ms: seq<Match>): (texts: seq<string>) {
    if ms == [] then [] else Segments(ms[..|ms| - 1]) + [Segment(ms[|ms| - 1])]
  }

  lemma {:induction false} SegmentsAppend(a: seq<Match>, b: seq<Match>)
    ensures Segments(a + b) == Segments(a) + Segments(b)
  {
    if b == [] {
      assert a + b == a;
    } else {
      var n := |b| - 1;
      assert (a + b)[..|a + b| - 1] == a + b[..n];
      SegmentsAppend(a, b[..n]);
    }
  }

  /** The reverse colour of a match: its charge against the configured thresholds. */
  function MatchColor(m: Match, defineReverse: (int8, int8, int8) -> string): string {
    defineReverse(m.raw.betteryPercentage, m.device.warningThreshold, m.device.criticalThrshold)
  }

  /** The last non-empty colour of the matches, or the empty string. */
  function LastColor(ms: seq<Match>, defineReverse: (int8, int8, int8) -> string): string {
    if ms == [] then ""
    else if MatchColor(ms[|ms| - 1], defineReverse) != "" then MatchColor(ms[|ms| - 1], defineReverse)
    else LastColor(ms[..|ms| - 1], defineReverse)
  }

  /**
   * `LastColor` is empty exactly when every match is uncoloured, and otherwise the colour of
   * a match after which none is coloured.
   */
  lemma {:induction false} LastColorIsLastNonEmpty(ms: seq<Match>, defineReverse: (int8, int8, int8) -> string)
    ensures LastColor(ms, defineReverse) == "" <==>
      forall k :: 0 <= k < |ms| ==> MatchColor(ms[k], defineReverse) == ""
    ensures LastColor(ms, defineReverse) != "" ==>
      exists k :: 0 <= k < |ms| && LastColor(ms, defineReverse) == MatchColor(ms[k], defineReverse) &&
        forall k' :: k < k' < |ms| ==> MatchColor(ms[k'], defineReverse) == ""
  {
    if ms != [] {
      var n := |ms| - 1;
      var prefix := ms[..n];
      LastColorIsLastNonEmpty(prefix, defineReverse);
      if MatchColor(ms[n], defineReverse) == "" {
        assert forall k :: 0 <= k < n ==> ms[k] == prefix[k];
        if LastColor(prefix, defineReverse) != "" {
          var k :| 0 <= k < |prefix| && LastColor(prefix, defineReverse) == MatchColor(prefix[k], defineReverse) &&
            forall k' :: k < k' < |prefix| ==> MatchColor(prefix[k'], defineReverse) == "";
          assert LastColor(ms, defineReverse) == MatchColor(ms[k], defineReverse);
        }
      } else {
        assert LastColor(ms, defineReverse) == MatchColor(ms[n], defineReverse);
      }
    }
  }

  /**
   * The result of `showUPowerDevicesInfo`: one segment per match joined by spaces, and the
   * last non-empty reverse colour.
   */
  function UPowerReport(raws: seq<UPowerDeviceInfoRaw>, devices: seq<UPowerDeviceInfo>,
                        defineReverse: (int8, int8, int8) -> string): (report: (string, string))
  {
    var ms := AllMatches(raws, devices);
    (Join(Segments(ms), " "), LastColor(ms, defineReverse))
  }

  /** Without any model name in common, the uPower report is empty and uncoloured. */
  lemma NoMatchNoReport(raws: seq<UPowerDeviceInfoRaw>, devices: seq<UPowerDeviceInfo>,
                        defineReverse: (int8, int8, int8) -> string)
    requires forall i, j :: 0 <= i < |raws| && 0 <= j < |devices| ==>
      raws[i].modelNameMatch != devices[j].modelNameMatch
    ensures UPowerReport(raws, devices, defineReverse) == ("", "")
  {
    NoMatchEmpty(raws, devices);
  }

  lemma {:induction false} NoMatchEmpty(raws: seq<UPowerDeviceInfoRaw>, devices: seq<UPowerDeviceInfo>)
    requires forall i, j :: 0 <= i < |raws| && 0 <= j < |devices| ==>
      raws[i].modelNameMatch != devices[j].modelNameMatch
    ensures AllMatches(raws, devices) == []
  {
    if raws != [] {
      var n := |raws| - 1;
      NoMatchEmpty(raws[..n], devices);
      NoMatchOfEmpty(raws[n], devices);
    }
  }

  lemma {:induction false} NoMatchOfEmpty(raw: UPowerDeviceInfoRaw, devices: seq<UPowerDeviceInfo>)
    requires forall j :: 0 <= j < |devices| ==> raw.modelNameMatch != devices[j].modelNameMatch
    ensures MatchesOf(raw, devices) == []
  {
    if devices != [] {
      NoMatchOfEmpty(raw, devices[..|devices| - 1]);
    }
  }

  /** `later` when it is a colour, else `earlier`: the rule by which a match's colour replaces the one kept. */
  function Override(earlier: string, later: string): string {
    if later != "" then later else earlier
  }

  lemma {:induction false} LastColorAppend(a: seq<Match>, b: seq<Match>, defineReverse: (int8, int8, int8) -> string)
    ensures LastColor(a + b, defineReverse) == Override(LastColor(a, defineReverse), LastColor(b, defineReverse))
  {
    if b == [] {
      assert a + b == a;
    } else {
      var n := |b| - 1;
      assert (a + b)[..|a + b| - 1] == a + b[..n];
      LastColorAppend(a, b[..n], defineReverse);
    }
  }

  /**
   * The inner loop of `showUPowerDevicesInfo`: one reported device against every configured
   * one, appending a segment per match and keeping the last non-empty colour.
   */
  method MatchDevice(rawDevice: UPowerDeviceInfoRaw, allDevices: seq<UPowerDeviceInfo>,
                     defineReverse: (int8, int8, int8) -> string, lines0: seq<string>, color0: string)
    returns (lines: seq<string>, color: string)
    ensures lines == lines0 + Segments(MatchesOf(rawDevice, allDevices))
    ensures color == Override(color0, LastColor(MatchesOf(rawDevice, allDevices), defineReverse))
  {
    lines, color := lines0, color0;
    for j := 0 to |allDevices|
      invariant lines == lines0 + Segments(MatchesOf(rawDevice, allDevices[..j]))
      invariant color == Override(color0, LastColor(MatchesOf(rawDevice, allDevices[..j]), defineReverse))
    {
      var device := allDevices[j];
      MatchDeviceStep(rawDevice, allDevices, j, defineReverse, lines0, color0);
      if rawDevice.modelNameMatch == device.modelNameMatch {
        lines := lines + [LevelText(device.icon, rawDevice.betteryPercentage)];
        var colorResult := defineReverse(rawDevice.betteryPercentage, device.warningThreshold, device.criticalThrshold);
        if colorResult != "" {
          color := colorResult;
        }
      }
    }
    assert allDevices[..|allDevices|] == allDevices;
  }

  /** How one pass of the inner loop of `showUPowerDevicesInfo` changes the lines and the colour. */
  lemma MatchDeviceStep(raw: UPowerDeviceInfoRaw, devices: seq<UPowerDeviceInfo>, j: nat,
                        defineReverse: (int8, int8, int8) -> string, lines0: seq<string>, color0: string)
    requires j < |devices|
    ensures var d := devices[j];
      var sofar := MatchesOf(raw, devices[..j]);
      var next := MatchesOf(raw, devices[..j + 1]);
      && (raw.modelNameMatch != d.modelNameMatch ==> next == sofar)
      && (raw.modelNameMatch == d.modelNameMatch ==>
            && lines0 + Segments(next) == lines0 + Segments(sofar) + [LevelText(d.icon, raw.betteryPercentage)]
            && Override(color0, LastColor(next, defineReverse))
               == Override(Override(color0, LastColor(sofar, defineReverse)),
                           defineReverse(raw.betteryPercentage, d.warningThreshold, d.criticalThrshold)))
  {
    var d := devices[j];
    var sofar := MatchesOf(raw, devices[..j]);
    MatchesOfStep(raw, devices, j);
    if raw.modelNameMatch == d.modelNameMatch {
      var m := Match(raw, d);
      assert (sofar + [m])[..|sofar|] == sofar;
    }
  }

  /** One more configured device adds its match, if any, at the end. */
  lemma MatchesOfStep(raw: UPowerDeviceInfoRaw, devices: seq<UPowerDeviceInfo>, j: nat)
    requires j < |devices|
    ensures MatchesOf(raw, devices[..j + 1])
         == MatchesOf(raw, devices[..j])
            + (if raw.modelNameMatch == devices[j].modelNameMatch then [Match(raw, devices[j])] else [])
  {
    assert devices[..j + 1][..j] == devices[..j];
  }

  /**
   * `showUPowerDevicesInfo`, with `DefineReverseColor` as input: every reported device against
   * every configured one, collecting a segment per match and keeping the last non-empty colour.
   */
  method ShowUPowerDevicesInfo(allRawDevices: seq<UPowerDeviceInfoRaw>, allDevices: seq<UPowerDeviceInfo>,
                               defineReverse: (int8, int8, int8) -> string)
    returns (line: string, color: string)
    ensures (line, color) == UPowerReport(allRawDevices, allDevices, defineReverse)
  {
    var lineToPrint: seq<string> := [];
    color := "";
    for i := 0 to |allRawDevices|
      invariant lineToPrint == Segments(AllMatches(allRawDevices[..i], allDevices))
      invariant color == LastColor(AllMatches(allRawDevices[..i], allDevices), defineReverse)
    {
      ghost var before := AllMatches(allRawDevices[..i], allDevices);
      ghost var added := MatchesOf(allRawDevices[i], allDevices);
      assert allRawDevices[..i + 1][..i] == allRawDevices[..i];
      assert AllMatches(allRawDevices[..i + 1], allDevices) == before + added;
      SegmentsAppend(before, added);
      LastColorAppend(before, added, defineReverse);
      lineToPrint, color := MatchDevice(allRawDevices[i], allDevices, defineReverse, lineToPrint, color);
    }
    assert allRawDevices[..|allRawDevices|] == allRawDevices;
    line := Join(lineToPrint, " ");
  }

  // ---------------------------------------------------------------------------------------
  // ACPI battery

  /** A battery as ACPI reports it. */
  datatype AcpiBattery = AcpiBattery(level: int, status: string)

  /** Position of the first battery with a non-zero level, or the count when there is none. */
  function FirstNonZero(batteries: seq<AcpiBattery>): (k: nat)
    ensures k <= |batteries|
    ensures k < |batteries| ==> batteries[k].level != 0
    ensures forall j :: 0 <= j < k ==> batteries[j].level == 0
  {
    if batteries == [] then 0
    else if batteries[0].level != 0 then 0
    else 1 + FirstNonZero(batteries[1..])
  }

  /**
   * The battery `showBatteryInfoAcpi` reads: with several, the first with a non-zero level
   * (the first one when all are empty); with one or none, position 0.
   */
  function ChosenBattery(batteries: seq<AcpiBattery>): (k: nat)
    ensures |batteries| >= 1 ==> k < |batteries|
    ensures k != 0 ==> k < |batteries| && batteries[k].level != 0 && forall j :: 0 <= j < k ==> batteries[j].level == 0
    ensures |batteries| > 1 && (exists j :: 0 <= j < |batteries| && batteries[j].level != 0) ==>
      batteries[k].level != 0
  {
    if |batteries| > 1 && FirstNonZero(batteries) < |batteries| then FirstNonZero(batteries) else 0
  }

  /** The loop of `showBatteryInfoAcpi` that picks the battery to read. */
  method ChooseBattery(batInfo: seq<AcpiBattery>) returns (batteryNumber: nat)
    ensures batteryNumber == ChosenBattery(batInfo)
  {
    batteryNumber := 0;
    if |batInfo| > 1 {
      var batteryCurrentNumber := 0;
      while batteryCurrentNumber < |batInfo|
        invariant batteryCurrentNumber <= |batInfo|
        invariant forall j :: 0 <= j < batteryCurrentNumber ==> batInfo[j].level == 0
        invariant batteryNumber == 0
      {
        if batInfo[batteryCurrentNumber].level != 0 {
          batteryNumber := batteryCurrentNumber;
          break;
        }
        batteryCurrentNumber := batteryCurrentNumber + 1;
      }
      FirstNonZeroUnique(batInfo, batteryCurrentNumber);
    }
  }

  /** The first non-zero position is the one before which every level is zero. */
  lemma {:induction false} FirstNonZeroUnique(batteries: seq<AcpiBattery>, k: nat)
    requires k <= |batteries|
    requires k < |batteries| ==> batteries[k].level != 0
    requires forall j :: 0 <= j < k ==> batteries[j].level == 0
    ensures FirstNonZero(batteries) == k
  {
    if k > 0 {
      FirstNonZeroUnique(batteries[1..], k - 1);
    }
  }

  /** What `showBatteryInfoAcpi` ends with: a line and a colour, or a panic. */
  datatype AcpiOutcome = AcpiShown(line: string, color: string) | AcpiPanicked(message: string)

  /** The Go runtime's message for reading the first element of an empty slice. */
  const EMPTY_INDEX_PANIC: string := "runtime error: index out of range [0] with length 0"

  /**
   * The result of `showBatteryInfoAcpi` on the batteries ACPI returned: the chosen battery's
   * icon and level, coloured by `DefineReverseColor` only while discharging; no battery at all
   * is an index panic.
   */
  function AcpiReport(batteries: seq<AcpiBattery>, warning: int8, critical: int8,
                      defineReverse: (int8, int8, int8) -> string): (r: AcpiOutcome)
    ensures batteries == [] <==> r == AcpiPanicked(EMPTY_INDEX_PANIC)
    ensures batteries != [] ==>
      var b := batteries[ChosenBattery(batteries)];
      && r.AcpiShown?
      && r.line == LevelText(IconSelector(b.level, b.status), b.level)
      && (b.status != "Discharging" ==> r.color == "")
      && (b.status == "Discharging" ==> r.color == defineReverse(Int8Of(b.level), warning, critical))
  {
    if batteries == [] then AcpiPanicked(EMPTY_INDEX_PANIC)
    else
      var b := batteries[ChosenBattery(batteries)];
      var color := if b.status == "Discharging" then defineReverse(Int8Of(b.level), warning, critical) else "";
      AcpiShown(LevelText(IconSelector(b.level, b.status), b.level), color)
  }

  /**
   * `showBatteryInfoAcpi`, with what `acpi.Battery` returned as input: its error, if any, is
   * written out (and the run goes on), then the chosen battery is reported.
   */
  method ShowBatteryInfoAcpi(batInfo: seq<AcpiBattery>, acpiError: Option<string>, warning: int8, critical: int8,
                             defineReverse: (int8, int8, int8) -> string)
    returns (written: seq<string>, r: AcpiOutcome)
    ensures written == (if acpiError.Some? then [acpiError.value] else [])
    ensures r == AcpiReport(batInfo, warning, critical, defineReverse)
  {
    written := [];
    if acpiError.Some? {
      written := written + [acpiError.value];
    }
    if batInfo == [] {
      return written, AcpiPanicked(EMPTY_INDEX_PANIC);
    }
    var color := "";
    var batteryNumber := ChooseBattery(batInfo);
    var batteryLevel := batInfo[batteryNumber].level;
    var batteryStatus := batInfo[batteryNumber].status;
    var icon := IconSelector(batteryLevel, batteryStatus);
    if batteryStatus == "Discharging" {
      color := defineReverse(Int8Of(batteryLevel), warning, critical);
    }
    r := AcpiShown(LevelText(icon, batteryLevel), color);
  }

  // ---------------------------------------------------------------------------------------
  // The command

  /** The command's flags. */
  datatype BatteryArgs = BatteryArgs(
    warningBatteryThreshold: int8,
    criticalBatteryThreshold: int8,
    checkBatteryThroughAcpi: bool,
    model1: seq<string>,
    model2: seq<string>,
    model3: seq<string>)

  /** The flags' defaults. */
  const DEFAULT_ARGS: BatteryArgs := BatteryArgs(50, 30, false, [], [], [])

  /**
   * What the command reads from the system, and the threshold helpers it calls: the ACPI
   * batteries and read error, the uPower devices, `CheckReversePercentage` and `DefineReverseColor`.
   */
  datatype BatteryEnv = BatteryEnv(
    batteries: seq<AcpiBattery>,
    acpiError: Option<string>,
    rawDevices: seq<UPowerDeviceInfoRaw>,
    checkReverse: (int8, int8) -> bool,
    defineReverse: (int8, int8, int8) -> string)

  /** How the process ends. */
  datatype End = Finished | Exit(code: int) | Panic(message: string)

  /** The lines written to standard output, and how the process ends. */
  datatype Outcome = Outcome(written: seq<string>, end: End)

  /** Whether `Run` queries uPower: without ACPI, or when any model is configured. */
  predicate UsesUPower(args: BatteryArgs) {
    !args.checkBatteryThroughAcpi || |args.model1| > 0 || |args.model2| > 0 || |args.model3| > 0
  }

  /** What the uPower part of `Run` contributes: nothing, a line, or exit status 1. */
  datatype UPowerPart = Skipped | UPowerLine(text: string) | ExitOne

  /**
   * The uPower part of `Run`: queried without ACPI or when any model is configured; both
   * the first and the second model must then be four fields long with accepted thresholds, and
   * their line is kept while their colour is dropped.
   */
  function UPowerOf(args: BatteryArgs, env: BatteryEnv): (part: UPowerPart)
    ensures part.Skipped? <==> !UsesUPower(args)
    ensures UsesUPower(args) && (|args.model1| != 4 || |args.model2| != 4) ==> part == ExitOne
  {
    if !UsesUPower(args) then Skipped
    else
      var device1 := PrepareModel(args.model1, env.checkReverse);
      var device2 := PrepareModel(args.model2, env.checkReverse);
      if !(device1.Prepared? && !device1.failed) || !(device2.Prepared? && !device2.failed) then ExitOne
      else UPowerLine(UPowerReport(env.rawDevices, [device1.device, device2.device], env.defineReverse).0)
  }

  /**
   * The command as a whole: thresholds refused means exit 1; the ACPI part writes its read
   * error, may panic, and gives a line and the colour; the uPower part may exit 1 and gives a
   * line; the lines are joined, trimmed of spaces and printed with the colour.
   */
  function RunReport(args: BatteryArgs, env: BatteryEnv): (out: Outcome)
  {
    if !env.checkReverse(args.warningBatteryThreshold, args.criticalBatteryThreshold) then Outcome([], Exit(1))
    else
      var acpiWritten := if args.checkBatteryThroughAcpi && env.acpiError.Some? then [env.acpiError.value] else [];
      var acpi := if args.checkBatteryThroughAcpi
                  then AcpiReport(env.batteries, args.warningBatteryThreshold, args.criticalBatteryThreshold, env.defineReverse)
                  else AcpiShown("", "");
      if acpi.AcpiPanicked? then Outcome(acpiWritten, Panic(acpi.message))
      else
        var upower := UPowerOf(args, env);
        if upower.ExitOne? then Outcome(acpiWritten, Exit(1))
        else
          var lines := (if args.checkBatteryThroughAcpi then [acpi.line] else []) +
                       (if upower.UPowerLine? then [upower.text] else []);
          Outcome(acpiWritten + ColorPrint(TrimChar(Join(lines, " "), ' '), acpi.color), Finished)
  }

  /** The uPower steps of `Run`: the two models prepared, then the devices matched. */
  method QueryUPower(args: BatteryArgs, env: BatteryEnv) returns (part: UPowerPart)
    requires UsesUPower(args)
    ensures part == UPowerOf(args, env)
  {
    var allDevices: seq<UPowerDeviceInfo> := [];
    var allRawDevices := env.rawDevices;
    var device1 := PrepareModel(args.model1, env.checkReverse);
    if device1.ExitCalled? || device1.failed {
      return ExitOne;
    }
    allDevices := allDevices + [device1.device];
    var device2 := PrepareModel(args.model2, env.checkReverse);
    if device2.ExitCalled? || device2.failed {
      return ExitOne;
    }
    allDevices := allDevices + [device2.device];
    assert allDevices == [device1.device, device2.device];
    var lineToPrint, _ := ShowUPowerDevicesInfo(allRawDevices, allDevices, env.defineReverse);
    return UPowerLine(lineToPrint);
  }

  /**
   * `Run`, the body of the cobra command: the same steps, appending the lines to print as
   * each part produces them.
   */
  method Run(args: BatteryArgs, env: BatteryEnv) returns (out: Outcome)
    ensures out == RunReport(args, env)
  {
    var color := "";
    var resultToPrint: seq<string> := [];
    var written: seq<string> := [];

    if !env.checkReverse(args.warningBatteryThreshold, args.criticalBatteryThreshold) {
      return Outcome(written, Exit(1));
    }

    ghost var acpiSpec := if args.checkBatteryThroughAcpi
                          then AcpiReport(env.batteries, args.warningBatteryThreshold, args.criticalBatteryThreshold, env.defineReverse)
                          else AcpiShown("", "");
    ghost var upowerSpec := UPowerOf(args, env);
    if args.checkBatteryThroughAcpi {
      var acpiWritten, acpi := ShowBatteryInfoAcpi(env.batteries, env.acpiError, args.warningBatteryThreshold,
                                                   args.criticalBatteryThreshold, env.defineReverse);
      written := written + acpiWritten;
      if acpi.AcpiPanicked? {
        return Outcome(written, Panic(acpi.message));
      }
      color := acpi.color;
      resultToPrint := resultToPrint + [acpi.line];
    }
    assert acpiSpec.AcpiShown? && color == acpiSpec.color;
    assert resultToPrint == if args.checkBatteryThroughAcpi then [acpiSpec.line] else [];
    assert written == if args.checkBatteryThroughAcpi && env.acpiError.Some? then [env.acpiError.value] else [];
    ghost var fromAcpi := resultToPrint;

    if !args.checkBatteryThroughAcpi || |args.model1| > 0 || |args.model2| > 0 || |args.model3| > 0 {
      var upower := QueryUPower(args, env);
      if upower.ExitOne? {
        return Outcome(written, Exit(1));
      }
      resultToPrint := resultToPrint + [upower.text];
    }
    assert !upowerSpec.ExitOne?;
    assert resultToPrint == fromAcpi + if upowerSpec.UPowerLine? then [upowerSpec.text] else [];

    var lineToPrint := Join(resultToPrint, " ");
    return Outcome(written + ColorPrint(TrimChar(lineToPrint, ' '), color), Finished);
  }

  /** With the default flags the command always exits with status 1, writing nothing. */
  lemma DefaultArgsExit(env: BatteryEnv)
    ensures RunReport(DEFAULT_ARGS, env) == Outcome([], Exit(1))
  {
    assert PrepareModel([], env.checkReverse) == Prepared(ZERO_DEVICE, true);
  }

  /** A colour line is written only when the laptop battery is read through ACPI. */
  lemma ColorOnlyFromAcpi(args: BatteryArgs, env: BatteryEnv)
    requires !args.checkBatteryThroughAcpi
    requires RunReport(args, env).end == Finished
    ensures |RunReport(args, env).written| == 2
  {
  }

  /** The third model decides whether uPower is queried but never contributes a device. */
  lemma Model3OnlyEnablesUPower(args: BatteryArgs, env: BatteryEnv, model3: seq<string>)
    requires UsesUPower(args) && UsesUPower(args.(model3 := model3))
    ensures RunReport(args.(model3 := model3), env) == RunReport(args, env)
  {
  }
}
