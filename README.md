# batterylogd, modelled in Dafny

batterylogd is a small daemon. It finds the batteries under
`/sys/class/power_supply/` or takes them from `-b`. It then samples ten
attribute files of each battery at a fixed interval and writes one
comma-separated line per battery to a log file (opened in the default
`ios::out` mode at start-up, so an existing log is emptied first and the
lines of one run are the whole file), until SIGINT or SIGTERM
kills the timer it waits on. This project models the sequential core of
`batterylogd.cc`:

- `strip_traling_slash` and the POSIX `basename` used to name a battery
  (module `Paths`);
- the shape of a log line and how it splits back into fields (module
  `LogFormat`);
- `BatteryStat`, `Battery` and `DisplayBacklightStat` as classes whose
  fields the methods update (module `Devices`);
- `KillableTimer` as a class with its `terminate` flag (module `Timer`);
- `detect_batteries` and the part of `main` from the interval check to
  the end of the sampling loop (module `Daemon`).

The environment is passed in as values:

- The filesystem is a `map<string, string>` from a path to the file's
  first line. A path that is not in the map is a file that cannot be
  opened. A file that opens but is empty, or whose read fails, maps to
  "": `getline` clears its target before reading (`batterylogd.cc:127-128`),
  so such a file sets the value to "" rather than keeping the old one.
- A listing of the base directory is `Option<seq<string>>`. `None` means
  `opendir` failed.
- Whether the log file opens is a `bool`.
- Each tick of the loop is a `Tick`. It holds the filesystem the tick
  reads, the timestamp string of each line it writes, and whether `kill`
  has reached the timer by the end of the tick's wait. A kill that lands
  during the wait also cuts it short, because `wait_for` checks the flag
  whenever it is notified (batterylogd.cc:65).

The daemon is `Daemon.RunDaemon`. It is a method over the classes. It is
proved equal to the function `Daemon.Output`: either a fatal start-up
error or the whole log. The lemmas about `Output` and `RunLines` state
what the log contains:

- the number of lines;
- which tick and battery each line comes from;
- the fields each line splits into.

Some behaviour of the code that a reader might not expect, modelled as
written:

- A line holds no leading `battery` type field. It is
  `name,timestamp,v1,...,v10,` with a trailing comma.
- The backlight values are appended to every battery line, not written
  as records of their own.
- `initialize` checks only the `type` file. It does not open the ten
  attribute files.
- A `-b` list where no path passes the probe is not an error. The loop
  then writes nothing.
- The default interval is 60 seconds, as `kDefaultSampleInterval` says
  (batterylogd.cc:40), although the usage text says 30
  (batterylogd.cc:29).

## Model

| member | source | states |
|---|---|---|
| Paths.StripTrailingSlashAsWritten | batterylogd.cc:46-51 | as written: defined only for a non-empty string; the result is a prefix that is one shorter exactly when the input ends in '/' |
| Paths.StripTrailingSlash | batterylogd.cc:46-51 | total version: the result is a prefix of the input, one shorter exactly when the input is non-empty and ends in '/', otherwise the input itself |
| Paths.StripAgreesWithAsWritten | batterylogd.cc:46-51 | on every non-empty input the total version and the as-written version agree |
| Paths.StripAppendedSlash | batterylogd.cc:46-51 | stripping `s + "/"` gives back `s` |
| Paths.StripKeepsPlainPath | batterylogd.cc:46-51 | a path that does not end in '/' is returned unchanged |
| Paths.AfterLastSlashIsLastSegment | batterylogd.cc:155 | the text after the last '/' is a suffix without '/', preceded by '/' unless it is the whole string |
| Paths.TrimSlashesDropsSeparators | batterylogd.cc:155 | removing trailing separators keeps a prefix that does not end in '/' and drops only '/' characters |
| Paths.BaseNameIsSegment | batterylogd.cc:155 | `basename` of the empty path is "."; otherwise the name is non-empty and is either "/" or free of '/' |
| Paths.AfterLastSlashOfSegment | batterylogd.cc:155 | a segment without '/' appended after a '/' is exactly what the last-segment function returns |
| Paths.EntryNameIsBaseName | batterylogd.cc:153-155 | for a directory ending in '/' and an entry name without '/', stripping leaves `dir + entry` unchanged and the battery name is the entry name |
| Paths.BaseNameBufferChanges | batterylogd.cc:155 | `basename` keeps the buffer's length, and changes the buffer exactly when the path ends in '/' after some other character |
| Paths.BaseNameBufferOpensTrimmed | batterylogd.cc:155 | after such a change, a C call on the buffer followed by anything sees only the path without its trailing separators |
| Paths.StrippedBufferOpensTrimmed | batterylogd.cc:120-121 | stripping that buffer once more and appending "/" and a file name still leaves a C call seeing only the trimmed path |
| LogFormat.LogLineIsJoin | batterylogd.cc:183-195 | a battery line is the comma-join of name, timestamp, the ten values and one empty field |
| LogFormat.LogLineWithBacklightIsJoin | batterylogd.cc:372-376 | a battery line with the backlight appended is the comma-join of name, timestamp, the values, brightness and maximum brightness |
| LogFormat.LogLineFields | batterylogd.cc:183-195 | when no field contains ',', splitting a battery line gives name, timestamp, the values in order and a final empty field; the line holds two more commas than there are values and ends in ',' |
| LogFormat.LogLineWithBacklightFields | batterylogd.cc:370-377 | the same with the backlight appended: the split gives name, timestamp, the values, brightness and maximum brightness, and the line holds three more commas than there are values |
| LogFormat.BacklightFieldsSplit | batterylogd.cc:110-112 | the backlight string splits into exactly its two values |
| Timer.KillableTimer.constructor | batterylogd.cc:54-58 | a new timer is not killed |
| Timer.KillableTimer.Kill | batterylogd.cc:68-72 | afterwards the timer is killed, whatever it was before, so a second kill changes nothing |
| Timer.KillableTimer.WaitFor | batterylogd.cc:61-66 | a wait runs its full time exactly when the timer is not killed; it does not change the flag |
| Devices.ProbeReadsOnlyTypeFile | batterylogd.cc:136-146 | the battery probe depends only on `<dir>/type`: two filesystems that agree on that file give the same verdict |
| Devices.ProbeAsWrittenAgrees | batterylogd.cc:136-146 | for every path not ending in two or more '/', the probe the source runs on the buffer `basename` leaves is the model's probe |
| Devices.ProbeAsWrittenOpensDirectory | batterylogd.cc:136-146 | for a path ending in two or more '/', the probe the source runs opens the path without its trailing separators instead of its `type` file |
| Devices.AttributeReadsAsWritten | batterylogd.cc:168-170 | for such a path, every attribute reader the source builds opens that same trimmed path |
| Devices.DoubledSlashBatteryRejected | batterylogd.cc:153-155 | `BAT0//` with `BAT0//type` reading "Battery": the model's probe accepts it and the probe as written rejects it |
| Devices.BatteryStat.constructor | batterylogd.cc:120-122 | the reader's path is the stripped base path, '/', then the file name; its value starts empty |
| Devices.BatteryStat.Sample | batterylogd.cc:124-131 | the value becomes the file's first line when the file opens and is otherwise kept |
| Devices.SampleAllIdempotent | batterylogd.cc:177-181 | sampling twice with the same filesystem gives the same battery as sampling once |
| Devices.VanishedAttributeKeepsValue | batterylogd.cc:124-131 | an attribute whose file cannot be opened keeps the last value read |
| Devices.Battery.constructor | batterylogd.cc:153-171 | the battery holds the stripped path and is named after its base name; it owns ten distinct fresh readers in schema order, each at the stripped path plus '/' plus its file name, all empty |
| Devices.Battery.Initialize | batterylogd.cc:173-175 | succeeds exactly when `<path>/type` opens and its first line is "Battery" |
| Devices.Battery.SampleAllStats | batterylogd.cc:177-181 | every attribute is re-read in schema order; the battery's new state is its old state sampled once |
| Devices.Battery.BuildLogString | batterylogd.cc:183-195 | the line is name, ',', timestamp, ',' and each value followed by ',', in schema order |
| Devices.Battery.DataVector | batterylogd.cc:197-203 | the vector has twice as many entries as attributes: first that many empty strings, then the values in order |
| Devices.DisplayBacklightStat.constructor | batterylogd.cc:84-86 | the backlight directory is the stripped path; both values start empty |
| Devices.DisplayBacklightStat.Initialize | batterylogd.cc:104-108 | succeeds exactly when both `brightness` and `max_brightness` open |
| Devices.DisplayBacklightStat.Sample | batterylogd.cc:93-102 | each value becomes its file's first line, or "" when the read fails |
| Devices.DisplayBacklightStat.BuildLogString | batterylogd.cc:110-112 | when neither value contains ',', the string splits back into exactly brightness and maximum brightness |
| Daemon.ParseIntervals | batterylogd.cc:270-276 | an error exactly when some `-i` value is not positive; otherwise the last value, or the starting value when there is none |
| Daemon.SampleInterval | batterylogd.cc:295-301 | an error exactly when some `-i` value is not positive; otherwise a positive interval: 60 without `-i`, the last value with it |
| Daemon.KeepBatteriesMembers | batterylogd.cc:313-319 | a path is kept exactly when it is a candidate and its stripped directory passes the probe |
| Daemon.KeepBatteriesConcat | batterylogd.cc:313-319 | filtering keeps the candidates' order: it distributes over concatenation |
| Daemon.SelectedPaths | batterylogd.cc:303-320 | a fatal "no batteries" error exactly when there is no `-b` and detection finds nothing; with `-b`, the given paths that pass the probe, possibly none; otherwise the detected ones |
| Daemon.ExplicitBypassesDetection | batterylogd.cc:305-312 | with `-b` paths the directory listing does not affect the outcome, which is never an error |
| Daemon.DetectedBatteriesAreNamedByEntry | batterylogd.cc:207-223 | every detected path is the base directory plus one entry name; the battery built from it is named after that entry and passes the probe |
| Daemon.AddIfBattery | batterylogd.cc:313-319 | a battery is built for the candidate and appended exactly when `initialize` succeeds; the earlier batteries are kept and readers are not shared |
| Daemon.AddBatteries | batterylogd.cc:210-220 | the batteries built are exactly those for the candidates that pass the probe, in order, in their initial state, with pairwise disjoint fresh readers |
| Daemon.DetectBatteries | batterylogd.cc:207-223 | the batteries are those for the listed entries that pass the probe, and none when the directory does not open |
| Daemon.SelectBatteries | batterylogd.cc:303-320 | fails exactly when the selection fails; otherwise it holds one fresh battery per selected path, in order |
| Daemon.FullWaits | batterylogd.cc:380-382 | the number of ticks before the first one whose wait is killed |
| Daemon.RunBlockCount | batterylogd.cc:367-384 | a run has one tick for each full wait plus the killed one |
| Daemon.RunBlockAt | batterylogd.cc:369-378 | tick t writes the lines of the batteries as the t earlier ticks left them |
| Daemon.RunLineCount | batterylogd.cc:367-384 | a run writes (full waits + 1) × (number of batteries) lines |
| Daemon.RunLineAt | batterylogd.cc:369-378 | line t·n + j of the log, for n batteries, is battery j's line in tick t, with the values after sampling in that tick |
| Daemon.RunLinesContinue | batterylogd.cc:380-382 | after a full wait the log is this tick's lines followed by the rest of the run from the sampled batteries |
| Daemon.RunLinesStop | batterylogd.cc:380-382 | a tick whose wait is killed is the last one: its lines end the log |
| Daemon.BacklightArgumentEmptyWithoutOption | batterylogd.cc:323 | without `-L` the backlight constructor receives the empty string, which `strip_traling_slash` as written cannot handle |
| Daemon.Startup | batterylogd.cc:295-344 | start-up succeeds exactly when the interval is valid, the selection is not empty, both backlight files open when `-L` is given, and the log opens. The plan then holds that interval, that selection and the stripped backlight directory. Otherwise the first failing check decides the error, in the order interval, batteries, backlight, log file |
| Daemon.StartupIgnoresListingWithExplicitBatteries | batterylogd.cc:303-320 | with `-b` paths, start-up does not depend on the directory listing and never fails for want of batteries |
| Daemon.OutputLineCount | batterylogd.cc:367-384 | a successful run writes one line per selected battery for each full wait and for the killed one |
| Daemon.LogBattery | batterylogd.cc:371-377 | the battery's new state is its old state sampled once; its line is the battery line with the backlight fields appended when they are logged; the backlight holds its files' first lines when it is logged and is unchanged otherwise |
| Daemon.SampleAndLog | batterylogd.cc:370-378 | every battery is sampled once, in order, and the lines are that tick's lines; the backlight holds its files' first lines if it was sampled for at least one battery, and is unchanged otherwise |
| Daemon.LogTick | batterylogd.cc:369-382 | one pass of the loop: the tick's lines and sampled batteries as in `SampleAndLog`, then a wait that runs its full time exactly when no kill reached the timer during the tick |
| Daemon.StateAtStep | batterylogd.cc:369-382 | the batteries one tick later are those of this tick, sampled once with its filesystem |
| Daemon.LogUntilKilled | batterylogd.cc:367-384 | the loop writes exactly the run's log, tick after tick until a wait reports the timer killed. Afterwards the batteries hold their state after the last tick, and the backlight holds what the last tick read, or is unchanged if it was never sampled |
| Daemon.RunDaemon | batterylogd.cc:295-384 | the outcome is exactly `Output`: the first fatal start-up error, or the session with its interval and the whole log |

## Left out

- Option parsing is not modelled. That covers `getopt_long`, `-h`, `-v`, the usage and version text, and the exception `std::stoi` throws on a non-numeric or out-of-range `-i`. The core receives the parsed values as `Config`.
- The default log path under `$HOME` is not modelled. Only whether the log file opens is modelled.
- The messages written to standard output and standard error are not modelled.
- Registering the signal handlers and their `SIG_ERR` failure path are not modelled, because they are operating-system calls.
- The signal-polling thread, `sig_atomic_t` and the condition variable are replaced by the `killed` flag of each tick. The model is sequential.
- The interval is validated and returned, but how long a wait lasts is not modelled, because time is not modelled.
- The timestamp is an opaque string per line. `localtime`, `put_time` and the `%FT%TZ` format are not modelled.
- Writing lines to the file, `std::endl` flushing and closing files are not modelled. The log is the sequence of lines written.
- A tick reads one filesystem snapshot. Attribute files that change between two reads in the same tick are not modelled.
- Devices.ReadFromOpenStream: reads the current content of the path. A stream held open to a file that was later replaced would keep reading the old file.
- The stream `clear` and `seekg` calls after each backlight read are not modelled. The model reads the first line each time, which is what they achieve.
- Devices.Battery.constructor: keeps `sysfs_path` as the stripped path. The source differs for a `-b` path ending in two or more '/': `basename` writes a NUL into `sysfs_path`, and the probe and the attribute readers then open the path without its trailing separators. Detected paths are not affected, since directory entries contain no '/'. The `batterylogd.cc:155` row under "## Findings" records this, and its lemmas state the source's behaviour.
- Paths are map keys compared as strings. The model does not identify `a//b` with `a/b`, as the kernel does.
- `closedir` is called on a null directory handle when the base directory cannot be opened (line 222). This is not modelled. An unopened directory yields no candidates.
- Daemon.LogUntilKilled: requires that some tick's wait is killed. A run that never ends has no finite log to compare against.
- `Battery::data_vector` is modelled as written. Nothing in the program calls it.

## Findings

| source | as written | input that shows it | evidently intended | confidence | as-written member | corrected member |
|---|---|---|---|---|---|---|
| batterylogd.cc:155 | `basename` is called on `sysfs_path.c_str()` cast to `char *`. The XPG `basename` writes a NUL over the first trailing '/', so every later C call on `sysfs_path` stops before it | `-b /sys/class/power_supply/BAT0//`: after stripping, `basename` turns `.../BAT0/` into `.../BAT0` followed by a NUL, so `is_battery_dir` opens the directory `.../BAT0` instead of `.../BAT0//type` and rejects the battery; `-b .../BAT0/` is accepted | the name is taken from a copy of the path, and the probe and the readers use the stripped path in full | not executed | Devices.DoubledSlashBatteryRejected (with Devices.ProbeAsWrittenOpensDirectory and Devices.AttributeReadsAsWritten) | Devices.Battery.constructor (with Devices.ProbeAsWrittenAgrees: the two probes agree on every path not ending in two or more '/') |
| batterylogd.cc:323 | the backlight object is always constructed from `cmdline_backlight`, and `strip_traling_slash` reads `str.back()` without checking for an empty string | a run without `-L`: `cmdline_backlight` is "", so `back()` is called on an empty string, which is undefined behaviour | stripping is total, and the empty path is returned unchanged | not executed | Paths.StripTrailingSlashAsWritten (with Daemon.BacklightArgumentEmptyWithoutOption showing its precondition fails for this input) | Paths.StripTrailingSlash (with Paths.StripAgreesWithAsWritten: it agrees with the code on every non-empty input) |
