# i3-status-info, modelled in Dafny

`i3-status-info` prints the blocks of an i3 status bar. Each check reads one raw value from the
operating system or from a remote service, compares it against thresholds, formats it, and then
does one of three things: shows a line, shows nothing, or fails. The Rust checks are the printer
clients (PrusaLink, OctoPrint), the disk I/O, memory, disk usage and CPU checks, the performance
profile, and the ICMP and TCP reachability checks. The Go part is the battery command and its
threshold and printing helpers.

This project models that decision logic, one module per source file:

| module | source file | what it holds |
|---|---|---|
| `PrusaLink` | `src/cmds/prusa_link.rs` | credential check, auth choice, transport and status classification, job projection, line and colour |
| `Octoprint` | `src/cmds/octoprint.rs` | API-key check, transport and status classification, defaults, line |
| `Threshold` | `src/cmds/utils.rs` | the inclusive colour classifiers and the middle bound of the 4-bound callers |
| `DiskIo` | `src/cmds/disk_io.rs` | the `/proc/stat` iowait loop, the sampling loop, rates, unit selection, display |
| `Mem` | `src/cmds/mem.rs` | memory stats, missing-field errors, display |
| `DiskUsage` | `src/cmds/disk_uage.rs` | mount-point search, integer byte display |
| `Cpu` | `src/cmds/cpu.rs` | per-core collection and average, per-core join, average special case |
| `Perfmode` | `src/cmds/perfmode.rs` | profile parse, names and icons, printed lines |
| `IcmpCheck`, `TcpCheck`, `Reachability` | `src/cmds/icmp_check.rs`, `src/cmds/tcp_check.rs` | the `check` objects and the shared text selection of `get` |
| `Battery` | `cmd/battery.go` | icons, model parsing, device matching loops, ACPI battery choice, the command's branches |
| `Percentage`, `Printing` | `utils/percentage.go`, `utils/print.go` | the Go validator, `DefineColor`, `ColorPrint` |
| `Wrappers`, `Numeric`, `Text`, `Output`, `Http` | (shared) | `Option`/`Result`; release-build integer wrap-around, `as u8` saturation and IEEE special values; decimal digits, `trim`, `split`, `lines`; output pieces; HTTP status codes and transports |

How the model is built:

- **Inputs instead of I/O.** Everything the checks read becomes an input: procfs counters, the
  content of `/proc/stat` and of the platform-profile file, sysinfo disks and CPUs, the ping
  outcome, the TCP connection attempt, the HTTP transport and the ACPI and uPower readings. A
  transport is a function from a request to a response or a transport error. A response is a
  status code plus a decoded body or a decode failure.
- **Floats.** An `f32`/`f64` is `F64 = Num(real) | PosInf | NegInf | NaN`, so division by zero
  and NaN comparisons behave as in IEEE 754. Rounding is not modelled: arithmetic on `Num` is
  exact.
- **Integers.** Rust arithmetic on `u8` and `u64` wraps around, as in a release build. Go
  `int8(x)` keeps the low eight bits.
- **Formatting.** Decimal integer formatting (`{}`, `%d`, `{:02}`) is concrete, so its texts are
  proved to read back. Float formatting (`{:.1}`, `{:>5.1}`), `format_dhms` and
  `set_text_threshold_color` are kept as the pieces of a line (`Output.Piece`).
- **Side effects.** A Go function that prints is modelled as the list of lines it emits. A Rust
  panic is `Failure.Panicked` with its message. A Go `os.Exit(1)` is a distinct outcome.
- **Imperative code.** It keeps its form: `check` of the reachability checks returns a fresh object whose
  `available` field it set; the loops of `get_iowait`, `get_stats`, `get_disk_stats`,
  `get_percent_usage`, `showUPowerDevicesInfo` and `showBatteryInfoAcpi` are methods with loop
  invariants; `pretty_content` and `Run`, which reassign variables without looping, are
  loop-free methods. Each of these methods is proved equal to a function or pinned down by its
  postconditions, and the lemmas are stated about those functions.

Where the specification and the code disagree, the code is followed. In particular, the
percentage that `mem.rs` and `disk_uage.rs` call "used" is computed from the *available* space.
The model keeps it that way, and `Mem.UsedPercentTruncates` and
`DiskUsage.UsedPercentIsAvailableShare` state what it really is. Likewise `disk_io.rs` takes its
two samples one second apart but divides their differences by `DISK_CHECK_INTERVAL`, which is
2.0, so every rate it shows is half the change per second; `DiskIo.RateIsHalfThePerSecondChange`
states this. The counters it reads are the `reads` and `writes` of `/proc/diskstats`, which count
completed I/Os, although the source names the rates `read_mb` and `write_mb`.

## Model

| member | source | states |
|---|---|---|
| `PrusaLink.StateText` | src/cmds/prusa_link.rs:58-71 | the `Display` glyph of every printer state, never empty |
| `PrusaLink.GetJobStatus` | src/cmds/prusa_link.rs:160-197 | a failed client build is `InvalidConnection`; a token is sent as the `X-Api-Key` header and its send errors map timeout → `ConnectionTimeout`, connect → `ConnectionRefused`, other → `InvalidResponse(message)`; without a token digest auth is used and every error is `InvalidResponse` |
| `PrusaLink.ProjectJob` | src/cmds/prusa_link.rs:219-236 | success exactly when a state that needs a job has one; status is the printer state; remaining time is the job's or 0; completion is the progress (Printing/Paused/Stopped/Attention), 100 (Finished) or 0 (Idle/Busy/Ready); a missing job is `InvalidResponse` quoting the decoded value |
| `PrusaLink.ToPrusaLinkStatus` | src/cmds/prusa_link.rs:199-217 | 408 and 504 are `ConnectionTimeout`, 403 `InvalidCredentials`, any code other than 200 `InvalidResponse("Error: <code reason>")`, an undecodable 200 a `DeserializationError`, a decoded 200 its projection |
| `PrusaLink.StatusLine` | src/cmds/prusa_link.rs:129-153 | Attention is exactly the warning colour, Finished exactly the good colour, every other state uncoloured; Printing shows glyph, completion `{:.1}%` and, unless hidden, the remaining time; other states their glyph |
| `PrusaLink.Get` | src/cmds/prusa_link.rs:105-156 | missing credentials fail before any request; nothing is shown exactly for a refused or timed-out transport; any other transport error is reported with its message; a failed classification is reported as `Error: <message>`; a classified status is shown as its `StatusLine`, the same long and short, with its colour and no icon |
| `PrusaLink.NoCredentialsNoRequest` | src/cmds/prusa_link.rs:107-111 | without a token and without login or password, the result does not depend on the client or the network |
| `PrusaLink.TimeoutStatusIsHardError` | src/cmds/prusa_link.rs:119-127 | a 408 or 504 status that arrives in a response is the error `Error: Connection timeout`, not suppressed |
| `PrusaLink.ForbiddenIsCredentialError` | src/cmds/prusa_link.rs:210 | a 403 is reported as `Error: No token or login/password provided` |
| `PrusaLink.DigestFailuresAreReported` | src/cmds/prusa_link.rs:189-195 | on the digest path every transport failure is a reported error, never suppressed |
| `PrusaLink.PrintingJobLine` | src/cmds/prusa_link.rs:129-143 | a printing job shows glyph, progress and remaining time, uncoloured |
| `Octoprint.StateText` | src/cmds/octoprint.rs:79-92 | the `Display` text of every job state, never empty |
| `Octoprint.OnlyUnssupportedRendersUnssupported` | src/cmds/octoprint.rs:79-91 | the text `Unssupported` is produced exactly by the `Unssupported` state |
| `Octoprint.GetJobStatus` | src/cmds/octoprint.rs:127-153 | an invalid header value is `InvalidApiKey` before anything is sent; a failed client build `InvalidConnection`; send errors map timeout → `ConnectionTimeout`, connect → `ConnectionRefused`, other → `InvalidResponse` |
| `Octoprint.ToOctoprintStatus` | src/cmds/octoprint.rs:155-183 | 408/504 → `ConnectionTimeout`, 403 → `InvalidApiKey("Connection forbidden: invalid api key?")`, other non-200 → `InvalidResponse("Error: <code reason>")`; success exactly for a decoded 200, with missing completion 0 and missing time left 0 |
| `Octoprint.StatusLine` | src/cmds/octoprint.rs:108-121 | Printing shows the completion `{:.1}%` with no glyph, plus the remaining time unless hidden; any other state its text |
| `Octoprint.Get` | src/cmds/octoprint.rs:95-123 | an invalid key is reported; nothing is shown exactly for a refused or timed-out transport; any other transport error is reported with its message; a failed classification is reported as `Error: <message>`; a classified status is shown as its `StatusLine`, the same long and short, with no icon and no colour |
| `Octoprint.InvalidKeyNoRequest` | src/cmds/octoprint.rs:132-135 | an invalid key gives the same result whatever the client and the network do |
| `Octoprint.ForbiddenReportsApiKey` | src/cmds/octoprint.rs:166-170 | a 403 is reported as `Error: Invalid api key: Connection forbidden: invalid api key?` |
| `Octoprint.TimeoutStatusIsHardError` | src/cmds/octoprint.rs:96-106 | a 408/504 status in a response is the error `Error: Connection timeout`, not suppressed |
| `Http.StatusText` | src/cmds/prusa_link.rs:212-215 | the `Display` of a status code starts with its decimal code |
| `Threshold.DefineThresholdColor` | src/cmds/utils.rs:1-9 | red iff the value is at least critical; yellow iff below critical and at least warning; none otherwise |
| `Threshold.ThresholdColorMonotone` | src/cmds/utils.rs:1-9 | with warning ≤ critical, a larger value, infinities included, never gets a less severe colour |
| `Threshold.DefineReverseThresholdColor` | src/cmds/utils.rs:11-19 | red iff the value is at most critical; yellow iff above critical and at most warning; none otherwise |
| `Threshold.ReverseThresholdColorAntitone` | src/cmds/utils.rs:11-19 | with critical ≤ warning, a larger value, infinities included, never gets a more severe reverse colour |
| `Threshold.NaNIsNeverColored` | src/cmds/utils.rs:1-19 | NaN compares false with both bounds and is never coloured, in either direction |
| `Threshold.MiddleBoundBetween` | src/cmds/mem.rs:38-43 | under the command-line ranges `(critical + warning) / 2` cannot wrap on `u8`, and it lies between ordered bounds |
| `DiskIo.CpuLines` | src/cmds/disk_io.rs:93-94 | the lines starting with `cpu`, in order |
| `DiskIo.IowaitsOfSpec` | src/cmds/disk_io.rs:92-102 | the iowaits are field 5 of every `cpu` line when all can be read; otherwise the first `cpu` line that cannot gives the error |
| `DiskIo.FirstFailureExtends` | src/cmds/disk_io.rs:96-99 | a first failure stays the first when more lines follow |
| `DiskIo.ReadsAllExtends` | src/cmds/disk_io.rs:93-101 | one more `cpu` line is either read too or becomes the first failure |
| `DiskIo.IowaitsErrorPersists` | src/cmds/disk_io.rs:96-99 | a failure on a prefix of the lines is the failure of all of them (`?` ends the loop) |
| `DiskIo.IowaitsOfStep` | src/cmds/disk_io.rs:93-102 | one more line is skipped unless it starts with `cpu`, in which case its field is read or fails |
| `DiskIo.IowaitOf` | src/cmds/disk_io.rs:85-105 | a read error is `can't read file /proc/stat: <e>`; otherwise success exactly when the `cpu` lines are read, and then the mean is the sum of field 5 of every `cpu` line over their count; a failure is that of the first `cpu` line whose field cannot be read |
| `DiskIo.GetIowait` | src/cmds/disk_io.rs:85-105 | the loop computes `IowaitOf` |
| `DiskIo.NoCpuLinesIsNaN` | src/cmds/disk_io.rs:104 | without `cpu` lines the mean is 0/0, NaN |
| `DiskIo.IowaitsWithin` | src/cmds/disk_io.rs:95-100 | every iowait read lies within bounds every parsed number respects |
| `DiskIo.IowaitMeanBounds` | src/cmds/disk_io.rs:104 | the mean of readings between two bounds lies between them |
| `DiskIo.MatchedReads` | src/cmds/disk_io.rs:116-121 | the read counters of the entries named `device`; empty exactly when no entry has that name |
| `DiskIo.MatchedWrites` | src/cmds/disk_io.rs:116-121 | the write counters of the same entries, as many as the reads |
| `DiskIo.PushMatches` | src/cmds/disk_io.rs:116-121 | the `for_each` appends exactly the matched reads and writes |
| `DiskIo.MatchedStep` | src/cmds/disk_io.rs:116-121 | one more entry adds its counters at the end when it is named `device` |
| `DiskIo.SampleStep` | src/cmds/disk_io.rs:114-129 | a diskstats error is `can't get disks stats: <e>`; no reading so far is `device `<device>` not found`; otherwise the matches and one iowait are appended |
| `DiskIo.SamplePass` | src/cmds/disk_io.rs:113-131 | one pass of the sampling loop computes `SampleStep` |
| `DiskIo.Sampling` | src/cmds/disk_io.rs:112-132 | after k passes: as many writes as reads, k iowaits, and at least one read |
| `DiskIo.SamplingErrorPersists` | src/cmds/disk_io.rs:112-129 | a failed pass ends the sampling with its error |
| `DiskIo.GetStats` | src/cmds/disk_io.rs:107-139 | the method computes `StatsOf`: sampling failures, the index panic with a single reading, else the rates between the first two readings |
| `DiskIo.Rate` | src/cmds/disk_io.rs:134-137 | the rate times `DISK_CHECK_INTERVAL` is the difference, and equal counters give exactly 0 |
| `DiskIo.RateIsHalfThePerSecondChange` | src/cmds/disk_io.rs:8-10 | with the samples one second apart, the rate is the change per second divided by the two samples, so it differs from the change per second whenever the counters differ |
| `DiskIo.DeviceMissingIsReported` | src/cmds/disk_io.rs:123-126 | a device absent from the first sample gives `device `<device>` not found` |
| `DiskIo.SingleEntryStep` | src/cmds/disk_io.rs:114-129 | a pass with one entry for the device appends its two counters and the iowait |
| `DiskIo.TwoSingleEntrySamples` | src/cmds/disk_io.rs:112-132 | two such passes gather exactly the two readings of each counter |
| `DiskIo.SingleEntryStats` | src/cmds/disk_io.rs:134-138 | with one entry per sample, the stats are the rates between the two samples |
| `DiskIo.StatsOfSamples` | src/cmds/disk_io.rs:134-138 | with two readings or more, the stats are the rates between the first two |
| `DiskIo.StatsRates` | src/cmds/disk_io.rs:134-136 | rates of counter pairs times the interval are the differences, 0 for equal counters |
| `DiskIo.RatesBetweenSamples` | src/cmds/disk_io.rs:134-138 | with one entry per sample the check succeeds, the read and write rates times the interval 2.0 are the counter differences, equal samples give 0, and the iowait rate is the difference over the interval |
| `DiskIo.DeviceLostAfterFirstSamplePanics` | src/cmds/disk_io.rs:134-135 | a device that disappears after the first sample leaves one reading, and `reads[1]` panics |
| `DiskIo.PrettyContent` | src/cmds/disk_io.rs:141-197 | each shown value in its unit denotes the measured MB/s; a given unit is used for both; without one each rate gets the unit that suits it, independently; the iowait is copied |
| `DiskIo.AutoUnitRange` | src/cmds/disk_io.rs:169-192 | in auto mode the shown value exceeds 1 in GB, is below 1024 in KB, and lies in 1..1024 in MB |
| `DiskIo.ToI3BlocksDisplay` | src/cmds/disk_io.rs:41-68 | read, write and iowait separated by spaces, rates coloured against the command's bounds, iowait against 5 and 10; equal lines, no colour |
| `DiskIo.Get` | src/cmds/disk_io.rs:72-81 | sampling failures end the check with their error; otherwise read, space, write, space, iowait: the read and write pieces are coloured against the warning and critical MB on the measured rates, each figure in its unit denotes its rate, in the given unit or the one that suits it; the iowait piece shows the iowait `{:>3.1}%` coloured against 5 and 10 |
| `Mem.GetMemStats` | src/cmds/mem.rs:54-70 | a read error panics; missing available or shared memory gives its error; otherwise usage + available + shared = total (when they fit), and the percentage is (available − shared) / total × 100 cast to `u8` |
| `Mem.UsedPercentTruncates` | src/cmds/mem.rs:63-68 | the percentage is the truncation of (available − shared) / total × 100, and 0 when less is available than shared |
| `Mem.Divisor` | src/cmds/mem.rs:75-78 | a unit holds at least 1024 bytes |
| `Mem.I3blocksPrint` | src/cmds/mem.rs:72-106 | Used and Remaining show one-decimal figures that, times the unit size, are the usage and total − usage, with the unit letter; the percentage displays are `p%` and `(100 − p wrapping)%` |
| `Mem.RemainingIsAvailablePlusShared` | src/cmds/mem.rs:81-101 | when available + shared fit in the total, the remaining figure is exactly available + shared in the unit, never negative |
| `Mem.RemainingOfStats` | src/cmds/mem.rs:81-101 | the remaining figure is non-negative whenever the usage fits in the total |
| `Mem.RemainingPercentageComplements` | src/cmds/mem.rs:104 | with a percentage of at most 100, the remaining percentage is its complement |
| `Mem.Get` | src/cmds/mem.rs:35-50 | stats errors pass through; otherwise equal lines, no icon, the colour call with warning, middle and critical bounds on the percentage |
| `DiskUsage.NormalNames` | src/cmds/disk_uage.rs:65 | the path names compared after the first component are never empty or `.` |
| `DiskUsage.DiskStatsOf` | src/cmds/disk_uage.rs:66-71 | total is the total space, usage + available = total when available fits, and the percentage is available / total × 100 cast to `u8` |
| `DiskUsage.UsedPercentIsAvailableShare` | src/cmds/disk_uage.rs:68-69 | the percentage is the truncated share of *available* space; a zero-size disk reads 255 or 0 |
| `DiskUsage.GetDiskStats` | src/cmds/disk_uage.rs:58-76 | success iff some disk is mounted at the path, and then the stats of the first one; otherwise `Disk <path> not found` |
| `DiskUsage.Scaled` | src/cmds/disk_uage.rs:80-85 | repeated `/ 1024` on `u64` is one integer division by the unit size |
| `DiskUsage.UnitText` | src/cmds/disk_uage.rs:80-85 | the figure's digits, which read back as it, then the unit letter |
| `DiskUsage.I3blocksPrint` | src/cmds/disk_uage.rs:78-106 | Used shows ⌊usage / unit⌋, Remaining the wrapping ⌊total / unit⌋ − ⌊usage / unit⌋, the percentage displays `p%` and `(100 − p wrapping)%` |
| `DiskUsage.RemainingNeverWraps` | src/cmds/disk_uage.rs:87-101 | when usage ≤ total, the remaining figure is the plain difference and does not wrap |
| `DiskUsage.ScaledMonotone` | src/cmds/disk_uage.rs:87-101 | scaling keeps the order of byte counts |
| `DiskUsage.DiskDisplayOf` | src/cmds/disk_uage.rs:41-53 | equal lines, no icon, the colour call with warning, middle and critical bounds on the percentage |
| `DiskUsage.Get` | src/cmds/disk_uage.rs:39-54 | an error iff no disk is mounted at the path; otherwise the display of the first such disk |
| `Cpu.GetPercentUsage` | src/cmds/cpu.rs:52-77 | no core count panics with its message; otherwise each core is its usage cast to `u8`, and the average is the sum / count of the usages before truncation |
| `Cpu.AverageWithinPercent` | src/cmds/cpu.rs:71-72 | the average of usages in 0..100 lies in 0..100; without any CPU it is NaN |
| `Cpu.CoreText` | src/cmds/cpu.rs:88 | `{:02}%`: at least two digits, then `%` |
| `Cpu.CoreTextReadsBack` | src/cmds/cpu.rs:88 | the digits read back as the usage, with a leading zero exactly below 10 |
| `Cpu.NonZeroLeads` | src/cmds/cpu.rs:88 | a number from 10 up is written without a leading zero |
| `Cpu.CoreTexts` | src/cmds/cpu.rs:85-89 | one text per core, in order |
| `Cpu.AverageLine` | src/cmds/cpu.rs:80-83 | `100` exactly when the average is exactly 100.0, else `{:.1}%` of it |
| `Cpu.I3blocksPrint` | src/cmds/cpu.rs:79-93 | All joins the core texts with spaces; Average is the average line |
| `Cpu.AllStyleSegments` | src/cmds/cpu.rs:85-90 | the All line splits at its spaces into exactly the core texts, one per core |
| `Cpu.Get` | src/cmds/cpu.rs:31-40 | no core count panics; otherwise equal lines coloured by the average against warning and critical: in All style the per-core texts of the usages cast to `u8`, joined by spaces, in Average style the average line |
| `Perfmode.ProfileName` | src/cmds/perfmode.rs:59-62 | each kernel name is non-empty and has no whitespace at either end, so trimming keeps it |
| `Perfmode.GetMode` | src/cmds/perfmode.rs:56-65 | a read error panics with `Failed to read <path>: <e>`; success iff the trimmed content is one of the three names; anything else panics quoting the content |
| `Perfmode.ParsePaddedName` | src/cmds/perfmode.rs:59 | a profile name with any surrounding whitespace parses as that profile |
| `Perfmode.DisplayDistinguishesModes` | src/cmds/perfmode.rs:28-46 | an example of the display tables: different profiles have different texts and different icons |
| `Perfmode.Print` | src/cmds/perfmode.rs:39-54 | two equal lines, the icon or the text of the profile; failures of `get_mode` end the process |
| `Reachability.SelectText` | src/cmds/icmp_check.rs:26-40 | the text for the observed outcome on both lines with no icon or colour, or nothing exactly when that text is absent |
| `Reachability.DefaultTexts` | src/cmds/icmp_check.rs:11-14 | with the defaults, reachable shows `up` and unreachable shows nothing |
| `IcmpCheck.DefaultArgs` | src/cmds/icmp_check.rs:7-17 | defaults: `up`, no unavailability text, 100 ms |
| `IcmpCheck.IcmpCheck.constructor` | src/cmds/icmp_check.rs:46 | a new check starts unavailable |
| `IcmpCheck.Check` | src/cmds/icmp_check.rs:45-63 | a fresh object, available iff the ping succeeded; an error iff the ping failed without the busy-resource text, reported with its message |
| `IcmpCheck.Get` | src/cmds/icmp_check.rs:24-41 | other ping errors are reported; otherwise the text selection for the observed outcome |
| `IcmpCheck.BusyMessageIsUnreachable` | src/cmds/icmp_check.rs:57 | a message containing the busy-resource text anywhere is classified as unreachable |
| `TcpCheck.DefaultArgs` | src/cmds/tcp_check.rs:7-17 | defaults: `up`, no unavailability text |
| `TcpCheck.TcpCheck.constructor` | src/cmds/tcp_check.rs:46 | a new check starts unavailable |
| `TcpCheck.Target` | src/cmds/tcp_check.rs:47 | `<host>:<port>`: the host, a colon, then digits that read back as the port |
| `TcpCheck.TargetsDistinguishPorts` | src/cmds/tcp_check.rs:47 | an example of the target format: different ports give different targets |
| `TcpCheck.Check` | src/cmds/tcp_check.rs:45-53 | never an error; a fresh object, available iff connecting to the target succeeds |
| `TcpCheck.Get` | src/cmds/tcp_check.rs:24-42 | always `Ok`, with the text selection for the connection outcome |
| `Battery.Band` | cmd/battery.go:204-228 | five bands: the lowest iff below 20, the highest iff at least 85 |
| `Battery.BandMonotone` | cmd/battery.go:204-228 | a higher charge never falls in a lower band |
| `Battery.IconSelector` | cmd/battery.go:202-230 | the band's icon from the discharging set iff the status is Discharging or Unknown, else from the charging set |
| `Battery.LevelTextReadsBack` | cmd/battery.go:159 | `%s %d%%`: the icon, a space, digits reading back as the level, then `%` |
| `Battery.Atoi` | cmd/battery.go:102-103 | within the 64-bit range; 0 for text that is not a decimal integer |
| `Battery.AtoiDecimal` | cmd/battery.go:102-103 | `Atoi` reads back every 64-bit value written in decimal |
| `Battery.PrepareModel` | cmd/battery.go:90-116 | not four fields iff the zero device with the error flag; otherwise exit iff the thresholds are refused, else name, icon and the `int8` thresholds |
| `Battery.PrepareModelReadsBack` | cmd/battery.go:102-115 | a model written as name, icon and decimal thresholds is read back field for field |
| `Battery.MatchesOf` | cmd/battery.go:157-158 | the configured devices with the reported device's model name, in order |
| `Battery.MatchesOfComplete` | cmd/battery.go:157-158 | every configured device with that name is matched |
| `Battery.MatchesOfStep` | cmd/battery.go:157-158 | one more configured device adds its match, if any, at the end |
| `Battery.AllMatches` | cmd/battery.go:156-158 | every pair with equal model names, reported devices first |
| `Battery.AllMatchesComplete` | cmd/battery.go:156-158 | every pair with equal names appears |
| `Battery.NoMatchEmpty` | cmd/battery.go:156-158 | without a common name there is no pair |
| `Battery.NoMatchOfEmpty` | cmd/battery.go:157-158 | without a common name a reported device matches nothing |
| `Battery.SegmentsAppend` | cmd/battery.go:159 | the texts of two runs of matches are the texts of each, concatenated |
| `Battery.LastColorAppend` | cmd/battery.go:160-164 | the colour after two runs is the second run's colour unless that is empty |
| `Battery.LastColorIsLastNonEmpty` | cmd/battery.go:160-164 | the colour is empty iff every match is uncoloured, else the colour of a match after which none is coloured |
| `Battery.NoMatchNoReport` | cmd/battery.go:151-169 | without a common model name the uPower report is empty and uncoloured |
| `Battery.MatchDevice` | cmd/battery.go:157-165 | the inner loop appends the texts of the reported device's matches and keeps the last non-empty colour |
| `Battery.MatchDeviceStep` | cmd/battery.go:158-164 | one pass of the inner loop appends the text and colour of its match, if any |
| `Battery.ShowUPowerDevicesInfo` | cmd/battery.go:151-169 | the nested loops return the matches' texts joined by spaces and the last non-empty colour |
| `Battery.FirstNonZero` | cmd/battery.go:181-188 | the first position with a non-zero level, every earlier level being zero |
| `Battery.FirstNonZeroUnique` | cmd/battery.go:181-188 | that position is the one before which every level is zero |
| `Battery.ChosenBattery` | cmd/battery.go:180-190 | with several batteries the first non-zero one (else 0); with one or none, 0 |
| `Battery.ChooseBattery` | cmd/battery.go:180-188 | the loop with `break` picks `ChosenBattery` |
| `Battery.AcpiReport` | cmd/battery.go:171-200 | no battery is an index panic; otherwise icon and level of the chosen battery, coloured only while Discharging |
| `Battery.ShowBatteryInfoAcpi` | cmd/battery.go:171-200 | the ACPI error is written and the run goes on; then `AcpiReport` |
| `Battery.UPowerOf` | cmd/battery.go:58-72 | skipped iff ACPI is on and no model is set; model1 and model2 must both have four fields or the process exits; their line is kept, their colour dropped |
| `Battery.QueryUPower` | cmd/battery.go:59-71 | the uPower steps compute `UPowerOf` |
| `Battery.Run` | cmd/battery.go:42-76 | the command computes `RunReport` |
| `Battery.DefaultArgsExit` | cmd/battery.go:48-50 | with the default flags the command exits with status 1, writing nothing |
| `Battery.ColorOnlyFromAcpi` | cmd/battery.go:53-75 | without ACPI a finished run writes exactly the two message lines, no colour |
| `Battery.Model3OnlyEnablesUPower` | cmd/battery.go:58-71 | model3 only decides whether uPower is queried and never changes the outcome otherwise |
| `Percentage.CheckRegularPercentage` | utils/percentage.go:7-22 | accepted iff 1 ≤ w ≤ 99, 2 ≤ c ≤ 100 and w ≤ c; the first failing check, in order warning, critical, order, decides the message |
| `Percentage.EqualThresholdsAccepted` | utils/percentage.go:16-21 | an example at the boundary of the strict order check: equal thresholds within both ranges are accepted |
| `Percentage.OrderMessageNamesThresholds` | utils/percentage.go:17-18 | the order message names both thresholds, each reading back from its digits |
| `Printing.DefineColor` | utils/print.go:13-20 | red iff above critical, yellow iff at most critical and above warning, empty otherwise |
| `Printing.DefineColorMonotone` | utils/print.go:13-20 | with warning ≤ critical, a higher value never gets a lesser colour |
| `Printing.DefineColorStrictBounds` | utils/print.go:14-19 | a value equal to critical is not red; one equal to warning is uncoloured |
| `Printing.ColorPrint` | utils/print.go:5-11 | the message twice, then the colour only when it is not empty |
| `Numeric.WrappingAddU8` | src/cmds/mem.rs:40 | `u8` addition wraps modulo 256 |
| `Numeric.WrappingSubU8` | src/cmds/mem.rs:104 | `u8` subtraction wraps modulo 256 |
| `Numeric.WrappingSubU64` | src/cmds/mem.rs:66 | `u64` subtraction wraps modulo 2^64 |
| `Numeric.I64AsUsize` | src/cmds/octoprint.rs:115 | `i64 as usize` keeps non-negative values and adds 2^64 to negative ones |
| `Numeric.Int8Of` | cmd/battery.go:104-105 | `int8(x)` is congruent to x modulo 256 and keeps values already in range |
| `Numeric.Divide` | src/cmds/cpu.rs:71-72 | float division; by zero it gives an infinity of the numerator's sign, or NaN for 0/0 |
| `Numeric.ScaleBy` | src/cmds/mem.rs:63-64 | float multiplication by a positive factor, keeping infinities and NaN |
| `Numeric.Minus` | src/cmds/disk_io.rs:137 | float subtraction, with NaN for NaN operands and for an infinity minus itself |
| `Numeric.DivideBy` | src/cmds/disk_io.rs:137 | float division by a positive constant, keeping infinities and NaN |
| `Numeric.MeanWithin` | src/cmds/cpu.rs:71-72 | the mean of values between two bounds lies between them |
| `Numeric.SaturatingU8` | src/cmds/cpu.rs:74 | `as u8` on a float truncates toward zero and saturates at 0 and 255; NaN gives 0 |
| `Output.PercentText` | src/cmds/mem.rs:103 | `{}%`: digits that read back as the number, then `%` |
| `Text.Trim` | src/cmds/perfmode.rs:59 | `str::trim`: the result neither starts nor ends with whitespace |
| `Text.TrimPadded` | src/cmds/perfmode.rs:59 | trimming removes exactly the whitespace around a trimmed text |
| `Text.Lines` | src/cmds/disk_io.rs:92 | `str::lines`: no lines exactly for empty content, and no line holds a line break |
| `Text.LinesJoin` | src/cmds/disk_io.rs:92 | without carriage returns, the lines joined by line breaks are the content less a final line break |
| `Text.SplitWhitespace` | src/cmds/disk_io.rs:95 | `split_whitespace`: every token is non-empty and holds no whitespace |
| `Text.SplitWhitespaceBlank` | src/cmds/disk_io.rs:95 | whitespace alone has no tokens |
| `Text.SplitWhitespaceRun` | src/cmds/disk_io.rs:95 | after any leading whitespace, the first token is the first whole run of non-whitespace characters, followed by the tokens of the rest |
| `Text.SplitWhitespaceJoin` | src/cmds/disk_io.rs:95 | tokens joined by single spaces split back into the same tokens |
| `Text.SplitJoin` | src/cmds/cpu.rs:85-90 | splitting a join at its separator gives back the parts when no part holds it |
| `Text.TrimChar` | cmd/battery.go:75 | `strings.Trim` with a one-character cutset: the result neither starts nor ends with that character |
| `Text.TrimCharPadded` | cmd/battery.go:75 | copies of the character around a text that neither starts nor ends with it are exactly what is removed |
| `Text.TrimCharSlice` | cmd/battery.go:75 | the result is a contiguous piece of the input with only copies of the character before and after it |

## Left out

- HTTP plumbing is not modelled: client construction, the one-second timeout, header insertion, digest authentication and JSON decoding. A response is a status code plus a decoded body or a decode failure, and a transport is a function-typed input.
- The canonical reason table of HTTP status codes is an input field of the status code; the model does not contain the table.
- Float formatting (`{:.1}`, `{:>5.1}`) and `format_dhms` stay abstract pieces of a line, and float rounding is not modelled: arithmetic on finite floats is exact.
- Float parsing of `/proc/stat` fields is a function-typed input returning a finite number or nothing, so fields that Rust parses as `inf` or `NaN` are not represented.
- The OS readers are inputs, not models: procfs, sysinfo, the platform-profile file, `ping`, `TcpStream::connect`, DBus/uPower (`getUPowerInfo`) and `acpi.Battery`. So are `sleep` and the refresh loop of `get_percent_usage`. The panics of `getUPowerInfo` are not modelled.
- `CheckReversePercentage` and `DefineReverseColor` are not part of the shown source. They are function-typed inputs of the battery model, and the lines `CheckReversePercentage` prints are not modelled.
- `set_text_threshold_color` is not part of the shown source, and neither is the four-argument `define_threshold_color` that `mem.rs` and `disk_uage.rs` call. The first is the line piece `ThresholdText`, the second the value `FourBoundColor`, which records the call's arguments.
- `I3Display`, `I3BlocksDisplay`, `I3DisplayError` and `I3StatusRustColorState` are plain records. Their rendering is not modelled.
- Rust path equality (`Path == Path`) is approximated by comparing components split at `/`, ignoring empty and `.` components. Prefix components of other platforms are not modelled.
- Integer overflow panics of debug builds are not modelled: Rust integer arithmetic wraps, as in release builds.
- `src/main.rs` and the Go wrappers `cmd/cpu.go`, `cmd/mem.go`, `cmd/load.go`, `cmd/disk.go` and `cmd/wifi.go` are not modelled: they are command-line dispatch and thin library wrappers.
