/**
 * The sequential core of `main`: validating the interval, choosing the
 * batteries, and the sampling loop that writes one line per battery per tick
 * until a wait reports that the timer was killed.
 */
module Daemon {
  import opened Wrappers
  import opened Paths
  import opened LogFormat
  import opened Devices
  import opened Timer

  /** Where batteries are looked for when none is given. */
  const BatterySysfs: string := "/sys/class/power_supply/"
  const DefaultSampleInterval: int := 60

  /** The start-up errors on which `main` exits with a failure status. */
  datatype Fatal = InvalidInterval | NoBatteriesFound | InvalidBacklight | LogFileNotOpened

  /**
   * The options the core consumes: the `-i` values in order, the `-b` paths in
   * order, and the `-L` path if one was given.
   */
  datatype Config = Config(intervals: seq<int>, batteries: seq<string>, backlight: Option<string>)

  // ----- interval -----

  /**
   * The option loop's effect on `cmdline_interval`: each `-i` value replaces the
   * one before, and a value that is not positive ends the program at once.
   */
  function ParseIntervals(args: seq<int>, current: int): (r: Result<int, Fatal>)
    ensures r.Err? <==> exists i :: 0 <= i < |args| && args[i] <= 0
    ensures r.Err? ==> r.error == InvalidInterval
    ensures r.Ok? ==> r.value == if args == [] then current else args[|args| - 1]
    decreases |args|
  {
    if args == [] then Ok(current)
    else if args[0] <= 0 then Err(InvalidInterval)
    else
      var r := ParseIntervals(args[1..], args[0]);
      assert forall i :: 1 <= i < |args| ==> args[i] == args[1..][i - 1];
      r
  }

  /** The sampling interval: 60 when no `-i` was given, otherwise the last value, which must be positive. */
  function SampleInterval(args: seq<int>): (r: Result<int, Fatal>)
    ensures r.Err? <==> exists i :: 0 <= i < |args| && args[i] <= 0
    ensures r.Ok? ==> r.value > 0
    ensures args == [] ==> r == Ok(DefaultSampleInterval)
    ensures r.Ok? && args != [] ==> r.value == args[|args| - 1]
  {
    match ParseIntervals(args, 0)
    case Err(e) => Err(e)
    case Ok(n) => if n == 0 then Ok(DefaultSampleInterval) else Ok(n)
  }

  // ----- choosing the batteries -----

  /** The candidates, in order, that pass the battery probe once stripped. */
  function KeepBatteries(candidates: seq<string>, fs: FileSystem): (r: seq<string>)
    ensures |r| <= |candidates|
    decreases |candidates|
  {
    if candidates == [] then []
    else
      var init := candidates[..|candidates| - 1];
      var last := candidates[|candidates| - 1];
      KeepBatteries(init, fs) + if IsBatteryDir(fs, StripTrailingSlash(last)) then [last] else []
  }

  /** A path is kept exactly when it is a candidate and passes the battery probe. */
  lemma {:induction false} KeepBatteriesMembers(candidates: seq<string>, fs: FileSystem, p: string)
    ensures p in KeepBatteries(candidates, fs) <==> p in candidates && IsBatteryDir(fs, StripTrailingSlash(p))
    decreases |candidates|
  {
    if candidates != [] {
      var init := candidates[..|candidates| - 1];
      assert candidates == init + [candidates[|candidates| - 1]];
      KeepBatteriesMembers(init, fs, p);
    }
  }

  /** Filtering keeps enumeration order: it distributes over concatenation. */
  lemma {:induction false} KeepBatteriesConcat(a: seq<string>, b: seq<string>, fs: FileSystem)
    ensures KeepBatteries(a + b, fs) == KeepBatteries(a, fs) + KeepBatteries(b, fs)
    decreases |b|
  {
    if b != [] {
      var init := b[..|b| - 1];
      assert (a + b)[..|a + b| - 1] == a + init;
      assert (a + b)[|a + b| - 1] == b[|b| - 1];
      KeepBatteriesConcat(a, init, fs);
    } else {
      assert a + b == a;
    }
  }

  /** The paths `detect_batteries` builds from the directory entries. */
  function DetectionPaths(names: seq<string>): (r: seq<string>)
    ensures |r| == |names| && forall i :: 0 <= i < |names| ==> r[i] == BatterySysfs + names[i]
  {
    seq(|names|, i requires 0 <= i < |names| => BatterySysfs + names[i])
  }

  /** Candidates found by enumerating the base directory; none when it cannot be opened. */
  function Detected(entries: Option<seq<string>>, fs: FileSystem): seq<string>
  {
    match entries
    case None => []
    case Some(names) => KeepBatteries(DetectionPaths(names), fs)
  }

  /**
   * The batteries `main` ends up with: without `-b`, the detected ones, and an
   * empty detection is fatal; with `-b`, the given paths that pass the probe,
   * possibly none.
   */
  function SelectedPaths(explicit: seq<string>, entries: Option<seq<string>>, fs: FileSystem): (r: Result<seq<string>, Fatal>)
    ensures r.Err? <==> explicit == [] && Detected(entries, fs) == []
    ensures r.Err? ==> r.error == NoBatteriesFound
    ensures explicit != [] ==> r == Ok(KeepBatteries(explicit, fs))
    ensures explicit == [] && r.Ok? ==> r.value == Detected(entries, fs)
  {
    if explicit == [] then
      var found := Detected(entries, fs);
      if found == [] then Err(NoBatteriesFound) else Ok(found)
    else Ok(KeepBatteries(explicit, fs))
  }

  /** Given `-b` paths, the directory listing has no bearing on the outcome: detection is not run. */
  lemma ExplicitBypassesDetection(explicit: seq<string>, e1: Option<seq<string>>, e2: Option<seq<string>>, fs: FileSystem)
    requires explicit != []
    ensures SelectedPaths(explicit, e1, fs) == SelectedPaths(explicit, e2, fs)
    ensures SelectedPaths(explicit, e1, fs).Ok?
  {
  }

  /**
   * A detected battery is named after its directory entry: when entries are
   * non-empty names without '/', each detected path is `BatterySysfs + name`
   * for one of them, the battery built from it is called `name`, and it
   * passed the probe.
   */
  lemma DetectedBatteriesAreNamedByEntry(names: seq<string>, fs: FileSystem, p: string)
    requires forall i :: 0 <= i < |names| ==> names[i] != [] && '/' !in names[i]
    requires p in Detected(Some(names), fs)
    ensures exists i :: 0 <= i < |names| && p == BatterySysfs + names[i] && NewBattery(p).name == names[i]
    ensures IsBatteryDir(fs, NewBattery(p).sysfsPath)
  {
    KeepBatteriesMembers(DetectionPaths(names), fs, p);
    var i :| 0 <= i < |names| && DetectionPaths(names)[i] == p;
    EntryNameIsBaseName(BatterySysfs, names[i]);
  }

  // ----- the set of battery objects -----

  /** Every reader of every battery in `batteries`. */
  ghost function Footprint(batteries: seq<Battery>): set<BatteryStat>
  {
    set j, s | 0 <= j < |batteries| && s in batteries[j].Repr :: s
  }

  /** Every battery is valid and no two share a reader. */
  ghost predicate Owned(batteries: seq<Battery>)
  {
    && (forall j :: 0 <= j < |batteries| ==> batteries[j].Valid())
    && (forall j, k :: 0 <= j < k < |batteries| ==> batteries[j].Repr !! batteries[k].Repr)
  }

  /** The batteries hold the abstract values `views`, in order. */
  ghost predicate Represents(batteries: seq<Battery>, views: seq<BatteryView>)
    requires Owned(batteries)
    reads Footprint(batteries)
  {
    |batteries| == |views| && forall j :: 0 <= j < |batteries| ==> batteries[j].View() == views[j]
  }

  /** The batteries as constructed from `paths`. */
  function NewBatteries(paths: seq<string>): (r: seq<BatteryView>)
    ensures |r| == |paths| && forall j :: 0 <= j < |paths| ==> r[j] == NewBattery(paths[j])
  {
    seq(|paths|, j requires 0 <= j < |paths| => NewBattery(paths[j]))
  }

  /** The batteries the candidate `candidate` adds: one when its directory passes the probe. */
  function Added(candidate: string, fs: FileSystem): seq<BatteryView>
  {
    if IsBatteryDir(fs, StripTrailingSlash(candidate)) then [NewBattery(candidate)] else []
  }

  /** One candidate: a battery is constructed for it and kept when `initialize` succeeds. */
  method AddIfBattery(batteries: seq<Battery>, candidate: string, fs: FileSystem, ghost views: seq<BatteryView>)
    returns (grown: seq<Battery>)
    requires Owned(batteries) && Represents(batteries, views)
    ensures Owned(grown) && Represents(grown, views + Added(candidate, fs))
    ensures |grown| >= |batteries| && grown[..|batteries|] == batteries
    ensures forall b :: b in grown ==> b in batteries || fresh(b.Repr)
  {
    var battery := new Battery(candidate);
    var ok := battery.Initialize(fs);
    if ok {
      RepresentsExtend(batteries, views, battery);
      grown := batteries + [battery];
    } else {
      grown := batteries;
    }
  }

  /**
   * Constructs a battery for each candidate, in order, and keeps those whose
   * `initialize` succeeds (the loop of `detect_batteries` and the `-b` loop of
   * `main` are this loop over different candidates).
   */
  method AddBatteries(candidates: seq<string>, fs: FileSystem) returns (batteries: seq<Battery>)
    ensures Owned(batteries) && forall j :: 0 <= j < |batteries| ==> fresh(batteries[j].Repr)
    ensures Represents(batteries, NewBatteries(KeepBatteries(candidates, fs)))
  {
    batteries := [];
    ghost var views: seq<BatteryView> := [];
    for i := 0 to |candidates|
      invariant views == NewBatteries(KeepBatteries(candidates[..i], fs))
      invariant Owned(batteries) && forall b :: b in batteries ==> fresh(b.Repr)
      invariant Represents(batteries, views)
    {
      batteries := AddIfBattery(batteries, candidates[i], fs, views);
      assert views + Added(candidates[i], fs) == NewBatteries(KeepBatteries(candidates[..i + 1], fs)) by {
        KeepBatteriesStep(candidates, i, fs);
        NewBatteriesSnoc(KeepBatteries(candidates[..i], fs), candidates[i]);
      }
      views := views + Added(candidates[i], fs);
    }
    assert candidates[..|candidates|] == candidates;
  }

  /** Trying one more candidate appends it exactly when it passes the probe. */
  lemma KeepBatteriesStep(candidates: seq<string>, i: nat, fs: FileSystem)
    requires i < |candidates|
    ensures KeepBatteries(candidates[..i + 1], fs)
         == KeepBatteries(candidates[..i], fs)
            + if IsBatteryDir(fs, StripTrailingSlash(candidates[i])) then [candidates[i]] else []
  {
    assert candidates[..i + 1][..i] == candidates[..i];
  }

  /** Constructing one more battery appends its initial state. */
  lemma NewBatteriesSnoc(paths: seq<string>, p: string)
    ensures NewBatteries(paths + [p]) == NewBatteries(paths) + [NewBattery(p)]
  {
  }

  /** A battery whose readers no other battery shares can join the set. */
  lemma RepresentsExtend(batteries: seq<Battery>, views: seq<BatteryView>, b: Battery)
    requires Owned(batteries) && Represents(batteries, views) && b.Valid()
    requires forall j :: 0 <= j < |batteries| ==> batteries[j].Repr !! b.Repr
    ensures Owned(batteries + [b]) && Represents(batteries + [b], views + [b.View()])
  {
    var bs := batteries + [b];
    assert forall j :: 0 <= j < |batteries| ==> bs[j] == batteries[j];
  }

  /** `detect_batteries`: the entries of the base directory, if it opens, tried in order. */
  method DetectBatteries(entries: Option<seq<string>>, fs: FileSystem) returns (batteries: seq<Battery>)
    ensures Owned(batteries) && forall j :: 0 <= j < |batteries| ==> fresh(batteries[j].Repr)
    ensures Represents(batteries, NewBatteries(Detected(entries, fs)))
  {
    match entries
    case None =>
      batteries := [];
    case Some(names) =>
      batteries := AddBatteries(DetectionPaths(names), fs);
  }

  /** The battery selection of `main`. */
  method SelectBatteries(explicit: seq<string>, entries: Option<seq<string>>, fs: FileSystem)
    returns (r: Result<seq<Battery>, Fatal>)
    ensures r.Err? <==> SelectedPaths(explicit, entries, fs).Err?
    ensures r.Err? ==> r.error == NoBatteriesFound
    ensures r.Ok? ==> Owned(r.value) && (forall j :: 0 <= j < |r.value| ==> fresh(r.value[j].Repr))
    ensures r.Ok? ==> Represents(r.value, NewBatteries(SelectedPaths(explicit, entries, fs).value))
  {
    if |explicit| == 0 {
      var batteries := DetectBatteries(entries, fs);
      if |batteries| == 0 {
        return Err(NoBatteriesFound);
      }
      r := Ok(batteries);
    } else {
      var batteries := AddBatteries(explicit, fs);
      r := Ok(batteries);
    }
  }

  // ----- the sampling loop -----

  /**
   * What one tick sees: the filesystem its reads find, the timestamp rendered
   * for the j-th line it writes, and whether `kill` has reached the timer by
   * the end of the tick's wait (a kill that lands during the wait cuts it
   * short too).
   */
  datatype Tick = Tick(fs: FileSystem, clock: nat -> string, killed: bool)

  /** Some tick's wait is killed, so the loop ends. */
  predicate Terminates(ticks: seq<Tick>)
    decreases |ticks|
  {
    |ticks| > 0 && (ticks[0].killed || Terminates(ticks[1..]))
  }

  /** The number of waits that run their full time before the first killed one. */
  function FullWaits(ticks: seq<Tick>): (k: nat)
    requires Terminates(ticks)
    ensures k < |ticks| && ticks[k].killed
    ensures forall i :: 0 <= i < k ==> !ticks[i].killed
    decreases |ticks|
  {
    if ticks[0].killed then 0
    else
      var k := FullWaits(ticks[1..]) + 1;
      assert forall i :: 1 <= i < |ticks| ==> ticks[i] == ticks[1..][i - 1];
      k
  }

  predicate Shaped(views: seq<BatteryView>)
  {
    forall j :: 0 <= j < |views| ==> |views[j].data| == |Schema|
  }

  /** What the backlight appends to a line when logging it is on. */
  function BacklightSuffix(backlight: Option<string>, fs: FileSystem): string
  {
    match backlight
    case None => ""
    case Some(dir) =>
      BacklightFields(ReadFromOpenStream(fs, dir + "/brightness"), ReadFromOpenStream(fs, dir + "/max_brightness"))
  }

  /** The batteries after every one has been sampled once. */
  function SampleEach(views: seq<BatteryView>, fs: FileSystem): (r: seq<BatteryView>)
    requires Shaped(views)
    ensures |r| == |views| && Shaped(r)
    ensures forall j :: 0 <= j < |views| ==> r[j] == SampleAll(views[j], fs)
  {
    seq(|views|, j requires 0 <= j < |views| => SampleAll(views[j], fs))
  }

  /** The j-th line of a tick: the freshly sampled battery j, plus the backlight if it is logged. */
  function TickLine(views: seq<BatteryView>, backlight: Option<string>, t: Tick, j: nat): string
    requires Shaped(views) && j < |views|
  {
    var v := SampleAll(views[j], t.fs);
    LogLine(v.name, t.clock(j), v.data) + BacklightSuffix(backlight, t.fs)
  }

  /** The lines one tick writes: one per battery, in battery order. */
  function TickLines(views: seq<BatteryView>, backlight: Option<string>, t: Tick): (r: seq<string>)
    requires Shaped(views)
    ensures |r| == |views| && forall j :: 0 <= j < |views| ==> r[j] == TickLine(views, backlight, t, j)
  {
    seq(|views|, j requires 0 <= j < |views| => TickLine(views, backlight, t, j))
  }

  /** The lines of a run, one block per tick: ticks until, and including, the first whose wait is killed. */
  function RunBlocks(views: seq<BatteryView>, backlight: Option<string>, ticks: seq<Tick>): (r: seq<seq<string>>)
    requires Shaped(views) && Terminates(ticks)
    ensures |r| > 0 && r[0] == TickLines(views, backlight, ticks[0])
    ensures forall k :: 0 <= k < |r| ==> |r[k]| == |views|
    decreases |ticks|
  {
    [TickLines(views, backlight, ticks[0])]
      + if ticks[0].killed then [] else RunBlocks(SampleEach(views, ticks[0].fs), backlight, ticks[1..])
  }

  /** Blocks laid end to end. */
  function Flatten<T>(blocks: seq<seq<T>>): seq<T>
  {
    if blocks == [] then [] else blocks[0] + Flatten(blocks[1..])
  }

  /** The whole log of a run. */
  function RunLines(views: seq<BatteryView>, backlight: Option<string>, ticks: seq<Tick>): seq<string>
    requires Shaped(views) && Terminates(ticks)
  {
    Flatten(RunBlocks(views, backlight, ticks))
  }

  /** The batteries at the start of tick `t`. */
  function StateAt(views: seq<BatteryView>, ticks: seq<Tick>, t: nat): (r: seq<BatteryView>)
    requires Shaped(views) && t <= |ticks|
    ensures |r| == |views| && Shaped(r)
    decreases t
  {
    if t == 0 then views else StateAt(SampleEach(views, ticks[0].fs), ticks[1..], t - 1)
  }

  /** A run has one block for each full wait and one for the killed wait. */
  lemma {:induction false} RunBlockCount(views: seq<BatteryView>, backlight: Option<string>, ticks: seq<Tick>)
    requires Shaped(views) && Terminates(ticks)
    ensures |RunBlocks(views, backlight, ticks)| == FullWaits(ticks) + 1
    decreases |ticks|
  {
    if !ticks[0].killed {
      RunBlockCount(SampleEach(views, ticks[0].fs), backlight, ticks[1..]);
    }
  }

  /** Block `t` of a run is tick `t`'s lines, from the batteries as `t` earlier ticks left them. */
  lemma {:induction false} RunBlockAt(views: seq<BatteryView>, backlight: Option<string>, ticks: seq<Tick>, t: nat)
    requires Shaped(views) && Terminates(ticks) && t <= FullWaits(ticks)
    ensures t < |RunBlocks(views, backlight, ticks)|
    ensures RunBlocks(views, backlight, ticks)[t] == TickLines(StateAt(views, ticks, t), backlight, ticks[t])
    decreases t
  {
    RunBlockCount(views, backlight, ticks);
    if t > 0 {
      var next := SampleEach(views, ticks[0].fs);
      RunBlockAt(next, backlight, ticks[1..], t - 1);
      StateAtLater(views, ticks, t);
    }
  }

  /** Blocks of n elements each flatten to |blocks| * n elements. */
  lemma {:induction false} FlattenLength<T>(blocks: seq<seq<T>>, n: nat)
    requires forall k :: 0 <= k < |blocks| ==> |blocks[k]| == n
    ensures |Flatten(blocks)| == |blocks| * n
  {
    if blocks != [] {
      FlattenLength(blocks[1..], n);
      assert |blocks| * n == (|blocks| - 1) * n + n;
    }
  }

  /** In blocks of n elements, element j of block t sits at TickStart(t, n) + j. */
  lemma {:induction false} FlattenIndex<T>(blocks: seq<seq<T>>, n: nat, t: nat, j: nat)
    requires forall k :: 0 <= k < |blocks| ==> |blocks[k]| == n
    requires t < |blocks| && j < n
    ensures TickStart(t, n) + j < |Flatten(blocks)| && Flatten(blocks)[TickStart(t, n) + j] == blocks[t][j]
    decreases t
  {
    if t > 0 {
      FlattenIndex(blocks[1..], n, t - 1, j);
      IndexAfterPrefix(blocks[0], Flatten(blocks[1..]), TickStart(t - 1, n) + j);
    }
  }

  /** k full waits and one killed wait make k + 1 ticks of one line per battery. */
  lemma RunLineCount(views: seq<BatteryView>, backlight: Option<string>, ticks: seq<Tick>)
    requires Shaped(views) && Terminates(ticks)
    ensures |RunLines(views, backlight, ticks)| == (FullWaits(ticks) + 1) * |views|
  {
    RunBlockCount(views, backlight, ticks);
    FlattenLength(RunBlocks(views, backlight, ticks), |views|);
  }

  /** A tick whose wait runs its full time is followed by the rest of the run. */
  lemma RunLinesContinue(views: seq<BatteryView>, backlight: Option<string>, ticks: seq<Tick>)
    requires Shaped(views) && Terminates(ticks) && !ticks[0].killed
    ensures Terminates(ticks[1..]) && FullWaits(ticks) == FullWaits(ticks[1..]) + 1
    ensures RunLines(views, backlight, ticks)
         == TickLines(views, backlight, ticks[0]) + RunLines(SampleEach(views, ticks[0].fs), backlight, ticks[1..])
  {
    var blocks := RunBlocks(views, backlight, ticks);
    assert blocks[1..] == RunBlocks(SampleEach(views, ticks[0].fs), backlight, ticks[1..]);
  }

  /** Where tick `t` starts in the log when every tick writes `n` lines. */
  function TickStart(t: nat, n: nat): nat
  {
    if t == 0 then 0 else n + TickStart(t - 1, n)
  }

  /** Tick `t` starts after `t` ticks of `n` lines each. */
  lemma {:induction false} TickStartIsProduct(t: nat, n: nat)
    ensures TickStart(t, n) == t * n
  {
    if t > 0 {
      TickStartIsProduct(t - 1, n);
      assert t * n == (t - 1) * n + n;
    }
  }

  /** The batteries at the start of tick t > 0 are those after the first tick, t - 1 ticks on. */
  lemma StateAtLater(views: seq<BatteryView>, ticks: seq<Tick>, t: nat)
    requires Shaped(views) && 0 < t < |ticks|
    ensures StateAt(views, ticks, t) == StateAt(SampleEach(views, ticks[0].fs), ticks[1..], t - 1)
    ensures ticks[1..][t - 1] == ticks[t]
  {
  }

  /**
   * Line `t * n + j` of the log, for n batteries, is the line of battery j in
   * tick t, built from the battery's values after t earlier ticks.
   */
  lemma RunLineAt(views: seq<BatteryView>, backlight: Option<string>, ticks: seq<Tick>, t: nat, j: nat)
    requires Shaped(views) && Terminates(ticks)
    requires t <= FullWaits(ticks) && j < |views|
    ensures t * |views| + j < |RunLines(views, backlight, ticks)|
    ensures RunLines(views, backlight, ticks)[t * |views| + j] == TickLine(StateAt(views, ticks, t), backlight, ticks[t], j)
  {
    var blocks := RunBlocks(views, backlight, ticks);
    RunBlockAt(views, backlight, ticks, t);
    FlattenIndex(blocks, |views|, t, j);
    TickStartIsProduct(t, |views|);
  }

  /** Indexing past a prefix of a concatenation lands in the second part. */
  lemma IndexAfterPrefix<T>(a: seq<T>, b: seq<T>, k: nat)
    requires k < |b|
    ensures |a| + k < |a + b| && (a + b)[|a| + k] == b[k]
  {
  }

  // ----- start-up and the daemon -----

  /** What `main` has settled on before the loop starts. */
  datatype Plan = Plan(interval: int, batteryPaths: seq<string>, backlight: Option<string>)

  /** The log a run writes, with the interval it waited between ticks. */
  datatype Session = Session(interval: int, lines: seq<string>)

  /** The path line 323 hands to the backlight constructor: the `-L` path, or "" when none was given. */
  function BacklightArgument(cfg: Config): string
  {
    match cfg.backlight
    case Some(p) => p
    case None => ""
  }

  /** As written, a run without `-L` calls `strip_traling_slash` on an empty string, outside its defined inputs. */
  lemma BacklightArgumentEmptyWithoutOption(cfg: Config)
    requires cfg.backlight == None
    ensures !(|BacklightArgument(cfg)| > 0)
  {
  }

  /** The backlight as the loop logs it: its directory when logging it is on. */
  function Logged(dir: string, enabled: bool): Option<string>
  {
    if enabled then Some(dir) else None
  }

  /** The directory the backlight object holds: the stripped constructor argument. */
  function BacklightDir(cfg: Config): string
  {
    StripTrailingSlash(BacklightArgument(cfg))
  }

  /** The backlight check of start-up: with `-L`, both of its files must open. */
  predicate BacklightOpens(cfg: Config, fs: FileSystem)
  {
    cfg.backlight.Some? ==> BacklightDir(cfg) + "/brightness" in fs && BacklightDir(cfg) + "/max_brightness" in fs
  }

  /**
   * Start-up in `main`'s order: the interval, the batteries, the backlight
   * (both of its files must open), then the log file. The first check that
   * fails decides the error.
   */
  function Startup(cfg: Config, fs: FileSystem, entries: Option<seq<string>>, logOpens: bool): (r: Result<Plan, Fatal>)
    ensures r.Ok? <==> SampleInterval(cfg.intervals).Ok? && SelectedPaths(cfg.batteries, entries, fs).Ok?
                       && BacklightOpens(cfg, fs) && logOpens
    ensures r.Ok? ==> r.value == Plan(SampleInterval(cfg.intervals).value, SelectedPaths(cfg.batteries, entries, fs).value,
                                      Logged(BacklightDir(cfg), cfg.backlight.Some?))
    ensures r.Ok? ==> r.value.interval > 0 && (r.value.batteryPaths != [] || cfg.batteries != [])
    ensures SampleInterval(cfg.intervals).Err? ==> r == Err(InvalidInterval)
    ensures SampleInterval(cfg.intervals).Ok? && SelectedPaths(cfg.batteries, entries, fs).Err? ==> r == Err(NoBatteriesFound)
    ensures SampleInterval(cfg.intervals).Ok? && SelectedPaths(cfg.batteries, entries, fs).Ok? && !BacklightOpens(cfg, fs)
            ==> r == Err(InvalidBacklight)
    ensures (SampleInterval(cfg.intervals).Ok? && SelectedPaths(cfg.batteries, entries, fs).Ok? && BacklightOpens(cfg, fs)
             && !logOpens) ==> r == Err(LogFileNotOpened)
  {
    var interval := SampleInterval(cfg.intervals);
    var selected := SelectedPaths(cfg.batteries, entries, fs);
    if interval.Err? then Err(InvalidInterval)
    else if selected.Err? then Err(NoBatteriesFound)
    else if !BacklightOpens(cfg, fs) then Err(InvalidBacklight)
    else if !logOpens then Err(LogFileNotOpened)
    else Ok(Plan(interval.value, selected.value, Logged(BacklightDir(cfg), cfg.backlight.Some?)))
  }

  /** With `-b` paths the directory listing plays no part in start-up, and start-up never fails for want of batteries. */
  lemma StartupIgnoresListingWithExplicitBatteries(cfg: Config, fs: FileSystem, e1: Option<seq<string>>,
                                                   e2: Option<seq<string>>, logOpens: bool)
    requires cfg.batteries != []
    ensures Startup(cfg, fs, e1, logOpens) == Startup(cfg, fs, e2, logOpens)
    ensures Startup(cfg, fs, e1, logOpens) != Err(NoBatteriesFound)
  {
    ExplicitBypassesDetection(cfg.batteries, e1, e2, fs);
  }

  /** The outcome of a whole run: a fatal start-up error, or the log written until the timer is killed. */
  function Output(cfg: Config, fs: FileSystem, entries: Option<seq<string>>, logOpens: bool, ticks: seq<Tick>)
    : Result<Session, Fatal>
    requires Terminates(ticks)
  {
    match Startup(cfg, fs, entries, logOpens)
    case Err(e) => Err(e)
    case Ok(plan) => Ok(Session(plan.interval, RunLines(NewBatteries(plan.batteryPaths), plan.backlight, ticks)))
  }

  /** A successful run writes one line per battery for each full wait and for the killed one. */
  lemma OutputLineCount(cfg: Config, fs: FileSystem, entries: Option<seq<string>>, logOpens: bool, ticks: seq<Tick>)
    requires Terminates(ticks)
    requires Output(cfg, fs, entries, logOpens, ticks).Ok?
    ensures |Output(cfg, fs, entries, logOpens, ticks).value.lines|
         == (FullWaits(ticks) + 1) * |Startup(cfg, fs, entries, logOpens).value.batteryPaths|
  {
    var plan := Startup(cfg, fs, entries, logOpens).value;
    RunLineCount(NewBatteries(plan.batteryPaths), plan.backlight, ticks);
  }

  /** After a tick whose wait runs its full time, the rest of the run follows from the sampled batteries. */
  lemma LogContinues(initial: seq<BatteryView>, logged: Option<string>, ticks: seq<Tick>, i: nat,
                     views: seq<BatteryView>, log: seq<string>, lines: seq<string>)
    requires Shaped(initial) && Terminates(ticks) && Shaped(views)
    requires i < |ticks| && Terminates(ticks[i..]) && !ticks[i].killed
    requires log + RunLines(views, logged, ticks[i..]) == RunLines(initial, logged, ticks)
    requires lines == TickLines(views, logged, ticks[i])
    ensures i + 1 < |ticks| && Terminates(ticks[i + 1..])
    ensures (log + lines) + RunLines(SampleEach(views, ticks[i].fs), logged, ticks[i + 1..])
         == RunLines(initial, logged, ticks)
  {
    var rest := ticks[i..];
    assert rest[1..] == ticks[i + 1..];
    RunLinesContinue(views, logged, rest);
    AppendAssociates(log, lines, RunLines(SampleEach(views, ticks[i].fs), logged, ticks[i + 1..]));
  }

  /** The batteries one tick later are those of tick `t` sampled with its filesystem. */
  lemma {:induction false} StateAtStep(views: seq<BatteryView>, ticks: seq<Tick>, t: nat)
    requires Shaped(views) && t < |ticks|
    ensures StateAt(views, ticks, t + 1) == SampleEach(StateAt(views, ticks, t), ticks[t].fs)
    decreases t
  {
    if t > 0 {
      StateAtStep(SampleEach(views, ticks[0].fs), ticks[1..], t - 1);
      assert ticks[1..][t - 1] == ticks[t];
    }
  }

  /** The first tick whose wait is killed is the one after `FullWaits` full waits. */
  lemma FirstKilledIsFullWaits(ticks: seq<Tick>, i: nat)
    requires Terminates(ticks) && i < |ticks| && ticks[i].killed
    requires forall k :: 0 <= k < i ==> !ticks[k].killed
    ensures FullWaits(ticks) == i
  {
  }

  /** The backlight holds what its two files read in `fs`. */
  ghost predicate Sampled(backlight: DisplayBacklightStat, fs: FileSystem)
    reads backlight
  {
    && backlight.brightness == ReadFromOpenStream(fs, backlight.path + "/brightness")
    && backlight.maxBrightness == ReadFromOpenStream(fs, backlight.path + "/max_brightness")
  }

  /** A tick whose wait is killed completes the run. */
  lemma LogStops(initial: seq<BatteryView>, logged: Option<string>, ticks: seq<Tick>, i: nat,
                 views: seq<BatteryView>, log: seq<string>, lines: seq<string>)
    requires Shaped(initial) && Terminates(ticks) && Shaped(views)
    requires i < |ticks| && Terminates(ticks[i..]) && ticks[i].killed
    requires log + RunLines(views, logged, ticks[i..]) == RunLines(initial, logged, ticks)
    requires lines == TickLines(views, logged, ticks[i])
    ensures log + lines == RunLines(initial, logged, ticks)
  {
    RunLinesStop(views, logged, ticks[i..]);
  }

  /** Concatenation of sequences associates. */
  lemma AppendAssociates<T>(a: seq<T>, b: seq<T>, c: seq<T>)
    ensures (a + b) + c == a + (b + c)
  {
  }

  /** Taking one more element of a sequence appends it. */
  lemma PrefixStep<T>(s: seq<T>, j: nat)
    requires j < |s|
    ensures s[..j + 1] == s[..j] + [s[j]]
  {
  }

  /** A tick whose wait is killed is the last one logged. */
  lemma RunLinesStop(views: seq<BatteryView>, backlight: Option<string>, ticks: seq<Tick>)
    requires Shaped(views) && Terminates(ticks) && ticks[0].killed
    ensures RunLines(views, backlight, ticks) == TickLines(views, backlight, ticks[0])
  {
    var blocks := RunBlocks(views, backlight, ticks);
    assert blocks == [TickLines(views, backlight, ticks[0])];
    assert Flatten(blocks[1..]) == [];
  }

  /**
   * One pass of the loop body over the batteries: each battery is sampled and
   * its line built, with the backlight re-sampled and appended when it is
   * logged.
   */
  method SampleAndLog(batteries: seq<Battery>, backlight: DisplayBacklightStat, enabled: bool, t: Tick,
                      ghost views: seq<BatteryView>)
    returns (lines: seq<string>)
    requires Owned(batteries) && Shaped(views) && Represents(batteries, views)
    modifies Footprint(batteries), backlight
    ensures Represents(batteries, SampleEach(views, t.fs))
    ensures lines == TickLines(views, Logged(backlight.path, enabled), t)
    ensures enabled && |batteries| > 0 ==> Sampled(backlight, t.fs)
    ensures !enabled || |batteries| == 0 ==> unchanged(backlight)
  {
    ghost var logged := Logged(backlight.path, enabled);
    lines := [];
    for j := 0 to |batteries|
      invariant forall k :: 0 <= k < j ==> batteries[k].View() == SampleAll(views[k], t.fs)
      invariant forall k :: j <= k < |batteries| ==> batteries[k].View() == views[k]
      invariant lines == TickLines(views, logged, t)[..j]
      invariant enabled && j > 0 ==> Sampled(backlight, t.fs)
      invariant !enabled || j == 0 ==> unchanged(backlight)
    {
      assert batteries[j] in batteries;
      label Before:
      var line := LogBattery(batteries[j], backlight, enabled, t, j, views[j]);
      forall k | 0 <= k < |batteries| && k != j
        ensures batteries[k].View() == old@Before(batteries[k].View())
      {
        assert batteries[k].Repr !! batteries[j].Repr;
        assert unchanged@Before(batteries[k].Repr);
      }
      assert lines + [line] == TickLines(views, logged, t)[..j + 1] by {
        PrefixStep(TickLines(views, logged, t), j);
      }
      lines := lines + [line];
    }
  }

  /** One battery in a tick: sample it, build its line, and append the backlight when it is logged. */
  method LogBattery(battery: Battery, backlight: DisplayBacklightStat, enabled: bool, t: Tick, j: nat,
                    ghost view: BatteryView)
    returns (line: string)
    requires battery.Valid() && battery.View() == view
    modifies battery.Repr, backlight
    ensures battery.View() == SampleAll(view, t.fs)
    ensures line == LogLine(view.name, t.clock(j), SampleAll(view, t.fs).data)
                    + BacklightSuffix(Logged(backlight.path, enabled), t.fs)
    ensures enabled ==> Sampled(backlight, t.fs)
    ensures !enabled ==> unchanged(backlight)
  {
    battery.SampleAllStats(t.fs);
    line := battery.BuildLogString(t.clock(j));
    if enabled {
      backlight.Sample(t.fs);
      line := line + backlight.BuildLogString();
    }
  }

  /**
   * One pass of the sampling loop: every battery is sampled and logged, then
   * the wait on the timer, which runs its full time unless a kill reached the
   * timer during the tick.
   */
  method LogTick(batteries: seq<Battery>, backlight: DisplayBacklightStat, enabled: bool, timer: KillableTimer,
                 t: Tick, ghost views: seq<BatteryView>)
    returns (lines: seq<string>, fullTime: bool)
    requires Owned(batteries) && Shaped(views) && Represents(batteries, views)
    requires !timer.terminate
    modifies Footprint(batteries), backlight, timer
    ensures Represents(batteries, SampleEach(views, t.fs))
    ensures lines == TickLines(views, Logged(backlight.path, enabled), t)
    ensures enabled && |batteries| > 0 ==> Sampled(backlight, t.fs)
    ensures !enabled || |batteries| == 0 ==> unchanged(backlight)
    ensures timer.terminate == t.killed
    ensures fullTime <==> !t.killed
  {
    if t.killed {
      timer.Kill();
    }
    lines := SampleAndLog(batteries, backlight, enabled, t, views);
    fullTime := timer.WaitFor();
  }

  /**
   * The sampling loop of `main`: a tick of lines, then a wait on the timer,
   * until a wait reports the timer killed.
   */
  method LogUntilKilled(batteries: seq<Battery>, backlight: DisplayBacklightStat, enabled: bool, ticks: seq<Tick>,
                        ghost initial: seq<BatteryView>)
    returns (log: seq<string>)
    requires Terminates(ticks)
    requires Owned(batteries) && Shaped(initial) && Represents(batteries, initial)
    modifies Footprint(batteries), backlight
    ensures log == RunLines(initial, Logged(backlight.path, enabled), ticks)
    ensures Represents(batteries, StateAt(initial, ticks, FullWaits(ticks) + 1))
    ensures enabled && |batteries| > 0 ==> Sampled(backlight, ticks[FullWaits(ticks)].fs)
    ensures !enabled || |batteries| == 0 ==> unchanged(backlight)
  {
    ghost var logged := Logged(backlight.path, enabled);
    ghost var views := initial;
    var timer := new KillableTimer();
    log := [];
    var i := 0;
    assert ticks[i..] == ticks;
    while true
      invariant 0 <= i < |ticks| && Terminates(ticks[i..])
      invariant !timer.terminate
      invariant Shaped(views) && Represents(batteries, views) && views == StateAt(initial, ticks, i)
      invariant forall k :: 0 <= k < i ==> !ticks[k].killed
      invariant !enabled || |batteries| == 0 ==> unchanged(backlight)
      invariant log + RunLines(views, logged, ticks[i..]) == RunLines(initial, logged, ticks)
      decreases |ticks| - i
    {
      var t := ticks[i];
      var lines, fullTime := LogTick(batteries, backlight, enabled, timer, t, views);
      if !fullTime {
        LogStops(initial, logged, ticks, i, views, log, lines);
        log := log + lines;
        assert StateAt(initial, ticks, FullWaits(ticks) + 1) == SampleEach(views, t.fs) by {
          FirstKilledIsFullWaits(ticks, i);
          StateAtStep(initial, ticks, i);
        }
        return;
      }
      LogContinues(initial, logged, ticks, i, views, log, lines);
      log := log + lines;
      StateAtStep(initial, ticks, i);
      views := SampleEach(views, t.fs);
      i := i + 1;
    }
  }

  /**
   * `main` from the interval check to the end of the sampling loop: start-up
   * in the order `Startup` gives, then the loop.
   */
  method RunDaemon(cfg: Config, fs: FileSystem, entries: Option<seq<string>>, logOpens: bool, ticks: seq<Tick>)
    returns (outcome: Result<Session, Fatal>)
    requires Terminates(ticks)
    ensures outcome == Output(cfg, fs, entries, logOpens, ticks)
  {
    var interval := SampleInterval(cfg.intervals);
    if interval.Err? {
      return Err(InvalidInterval);
    }
    var selected := SelectBatteries(cfg.batteries, entries, fs);
    if selected.Err? {
      return Err(NoBatteriesFound);
    }
    var batteries := selected.value;
    var backlight := new DisplayBacklightStat(BacklightArgument(cfg));
    var backlightEnabled := cfg.backlight.Some?;
    if backlightEnabled {
      var ok := backlight.Initialize(fs);
      if !ok {
        return Err(InvalidBacklight);
      }
    }
    if !logOpens {
      return Err(LogFileNotOpened);
    }
    ghost var plan := Startup(cfg, fs, entries, logOpens).value;
    var log := LogUntilKilled(batteries, backlight, backlightEnabled, ticks, NewBatteries(plan.batteryPaths));
    return Ok(Session(interval.value, log));
  }
}
