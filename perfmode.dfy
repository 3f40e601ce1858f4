// The platform performance profile: the kernel's profile name read from sysfs, shown as a
// name or an icon.
module Perfmode {
  import opened Wrappers
  import opened Text
  import opened Output

  const PERF_PROFILE: string := "/sys/firmware/acpi/platform_profile"

  datatype PerfModeStyle = Icons | Text

  datatype PerformanceMode = Balanced | Performance | LowPower

  /** The name the kernel writes for a profile. */
  function ProfileName(mode: PerformanceMode): (name: string)
    ensures name != [] && !IsWhitespace(name[0]) && !IsWhitespace(name[|name| - 1])
  {
    match mode
    case Balanced => "balanced"
    case Performance => "performance"
    case LowPower => "low-power"
  }

  /** `Display` of a profile. */
  function ModeText(mode: PerformanceMode): string {
    match mode
    case Balanced => "Balanced"
    case Performance => "Performance"
    case LowPower => "Low Power"
  }

  /** The icon `print` shows for a profile. */
  function ModeIcon(mode: PerformanceMode): string {
    match mode
    case Balanced => "\U{F0DC}"
    case Performance => "\U{F962}"
    case LowPower => "\U{F299}"
  }

  /**
   * `get_mode`, with the outcome of reading the profile file as input: a read failure panics,
   * and the trimmed content must be one of the three kernel names, else the process panics
   * quoting the content as read.
   */
  function GetMode(content: Result<string, string>): (r: Result<PerformanceMode, Failure>)
    ensures content.Err? ==> r == Err(Panicked("Failed to read " + PERF_PROFILE + ": " + content.error))
    ensures content.Ok? ==>
      && (r.Ok? <==> exists mode :: Trim(content.value) == ProfileName(mode))
      && (r.Ok? ==> ProfileName(r.value) == Trim(content.value))
      && (r.Err? ==> r.error == Panicked("Unknown performance mode: `" + content.value + "`"))
  {
    match content
    case Err(e) => Err(Panicked("Failed to read " + PERF_PROFILE + ": " + e))
    case Ok(text) =>
      var trimmed := Trim(text);
      if trimmed == "balanced" then assert ProfileName(Balanced) == trimmed; Ok(Balanced)
      else if trimmed == "performance" then assert ProfileName(Performance) == trimmed; Ok(Performance)
      else if trimmed == "low-power" then assert ProfileName(LowPower) == trimmed; Ok(LowPower)
      else
        assert forall mode :: trimmed != ProfileName(mode);
        Err(Panicked("Unknown performance mode: `" + text + "`"))
  }

  /** A profile name surrounded by any whitespace reads back as that profile. */
  lemma ParsePaddedName(mode: PerformanceMode, before: string, after: string)
    requires AllWhitespace(before) && AllWhitespace(after)
    ensures GetMode(Ok(before + ProfileName(mode) + after)) == Ok(mode)
  {
    TrimPadded(before, ProfileName(mode), after);
  }

  /** An example of the display tables: no two profiles share a name or an icon. */
  lemma DisplayDistinguishesModes(m1: PerformanceMode, m2: PerformanceMode)
    ensures ModeText(m1) == ModeText(m2) <==> m1 == m2
    ensures ModeIcon(m1) == ModeIcon(m2) <==> m1 == m2
  {
  }

  /**
   * `print`, as the lines it writes: the profile's icon or name, twice; the failures of
   * `get_mode` end the process.
   */
  function Print(style: PerfModeStyle, content: Result<string, string>): (r: Result<seq<string>, Failure>)
    ensures GetMode(content).Err? ==> r == Err(GetMode(content).error)
    ensures GetMode(content).Ok? ==>
      var mode := GetMode(content).value;
      && r.Ok? && |r.value| == 2 && r.value[0] == r.value[1]
      && r.value[0] == (if style == Icons then ModeIcon(mode) else ModeText(mode))
  {
    match GetMode(content)
    case Err(f) => Err(f)
    case Ok(mode) =>
      match style
      case Icons =>
        var icon := ModeIcon(mode);
        Ok([icon, icon])
      case Text =>
        var text := ModeText(mode);
        Ok([text, text])
  }
}
