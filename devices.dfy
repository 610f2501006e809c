/**
 * The monitored devices: a battery with its ten attribute readers, and the
 * display backlight. The filesystem is a map from a file's path to its first
 * line; a path that is not in the map is a file that cannot be opened.
 */
module Devices {
  import opened Paths
  import opened LogFormat

  type FileSystem = map<string, string>

  /** The battery attribute files, in the column order of every log line. */
  const Schema: seq<string> := [
    "capacity",
    "cycle_count",
    "energy_full",
    "energy_full_design",
    "energy_now",
    "power_now",
    "present",
    "status",
    "voltage_min_design",
    "voltage_now"
  ]

  /** The probe file and the first line that identifies a battery directory. */
  const TypeFile: string := "/type"
  const BatteryType: string := "Battery"

  /** A value re-read from `path`: the file's first line if it opens, otherwise the value held before. */
  function Reread(current: string, fs: FileSystem, path: string): string
  {
    if path in fs then fs[path] else current
  }

  /**
   * What `getline` leaves in its target when reading from a stream held open:
   * it empties the target before extracting, so a failed read yields "".
   */
  function ReadFromOpenStream(fs: FileSystem, path: string): string
  {
    if path in fs then fs[path] else ""
  }

  /** The probe of `is_battery_dir`: `<dir>/type` opens and its first line is exactly "Battery". */
  predicate IsBatteryDir(fs: FileSystem, dir: string)
  {
    dir + TypeFile in fs && fs[dir + TypeFile] == BatteryType
  }

  /** The probe reads nothing but the type file: the attribute files are not checked. */
  lemma ProbeReadsOnlyTypeFile(fs: FileSystem, fs': FileSystem, dir: string)
    requires (dir + TypeFile in fs) == (dir + TypeFile in fs')
    requires dir + TypeFile in fs ==> fs[dir + TypeFile] == fs'[dir + TypeFile]
    ensures IsBatteryDir(fs, dir) == IsBatteryDir(fs', dir)
  {
  }

  /**
   * `is_battery_dir` as the source runs it: on the `sysfs_path` buffer that
   * `basename` has written to, so the probe opens the type path only up to
   * its first NUL.
   */
  predicate IsBatteryDirAsWritten(fs: FileSystem, buffer: string)
  {
    CPath(buffer + TypeFile) in fs && fs[CPath(buffer + TypeFile)] == BatteryType
  }

  /** A path ending in two or more '/' after some other character: one '/' is left after stripping. */
  predicate EndsInDoubledSlash(path: string)
  {
    |path| >= 2 && path[|path| - 1] == '/' && path[|path| - 2] == '/' && TrimSlashes(path) != []
  }

  /**
   * For every other path `basename` leaves the stripped path alone, and the
   * probe as written is the model's probe.
   */
  lemma ProbeAsWrittenAgrees(fs: FileSystem, path: string)
    requires '\0' !in path && !EndsInDoubledSlash(path)
    ensures IsBatteryDirAsWritten(fs, BaseNameBuffer(StripTrailingSlash(path))) == IsBatteryDir(fs, StripTrailingSlash(path))
  {
    var s := StripTrailingSlash(path);
    assert '\0' !in s by {
      forall i | 0 <= i < |s| ensures s[i] != '\0' {
        assert s[i] == path[i] && path[i] in path;
      }
    }
    TrimSlashesDropsSeparators(s);
    if TrimSlashes(s) != [] && TrimSlashes(s) != s {
      // s would end in '/', so path would end in two
      assert false;
    }
    BaseNameBufferChanges(s);
    CPathOfPlainString(s + TypeFile);
  }

  /**
   * For a path ending in two or more '/', the probe as written opens the path
   * without its trailing separators: the directory itself, not its type file.
   */
  lemma ProbeAsWrittenOpensDirectory(fs: FileSystem, path: string)
    requires '\0' !in path && EndsInDoubledSlash(path)
    ensures IsBatteryDirAsWritten(fs, BaseNameBuffer(StripTrailingSlash(path)))
        <==> TrimSlashes(path) in fs && fs[TrimSlashes(path)] == BatteryType
  {
    var s := StripTrailingSlash(path);
    TrimmedBufferOpens(path);
    BaseNameBufferOpensTrimmed(s, TypeFile);
  }

  /**
   * The attribute readers of such a battery strip the written buffer once
   * more, so each of them opens the same trimmed path.
   */
  lemma AttributeReadsAsWritten(path: string, i: nat)
    requires '\0' !in path && EndsInDoubledSlash(path) && i < |Schema|
    ensures CPath(StripTrailingSlash(BaseNameBuffer(StripTrailingSlash(path))) + "/" + Schema[i]) == TrimSlashes(path)
  {
    TrimmedBufferOpens(path);
    StrippedBufferOpensTrimmed(StripTrailingSlash(path), Schema[i]);
  }

  /** Stripping a path that ends in two '/' leaves one, and the trimmed path is the same either way. */
  lemma TrimmedBufferOpens(path: string)
    requires '\0' !in path && EndsInDoubledSlash(path)
    ensures var s := StripTrailingSlash(path);
      && '\0' !in s && TrimSlashes(s) == TrimSlashes(path)
      && TrimSlashes(s) != [] && TrimSlashes(s) != s
  {
    var s := StripTrailingSlash(path);
    assert s == path[..|path| - 1];
    assert '\0' !in s by {
      forall i | 0 <= i < |s| ensures s[i] != '\0' {
        assert s[i] == path[i] && path[i] in path;
      }
    }
    TrimSlashesDropsSeparators(s);
  }

  /**
   * A battery given as `BAT0//`: the model's probe opens `BAT0//type`, which
   * names the type file, while the probe as written opens `BAT0`.
   */
  lemma DoubledSlashBatteryRejected()
    ensures var fs := map["BAT0//type" := BatteryType];
      && IsBatteryDir(fs, StripTrailingSlash("BAT0//"))
      && !IsBatteryDirAsWritten(fs, BaseNameBuffer(StripTrailingSlash("BAT0//")))
  {
    var fs := map["BAT0//type" := BatteryType];
    assert StripTrailingSlash("BAT0//") == "BAT0/";
    assert "BAT0/" + TypeFile == "BAT0//type";
    assert TrimSlashes("BAT0/") == "BAT0";
    assert BaseNameBuffer("BAT0/") == "BAT0" + ['\0'];
    CPathStopsAtNul("BAT0", TypeFile);
    assert ("BAT0" + ['\0']) + TypeFile == "BAT0" + ['\0'] + TypeFile;
  }

  /** Path of the i-th attribute file of the battery at `sysfsPath`. */
  function StatPath(sysfsPath: string, i: nat): string
    requires i < |Schema|
  {
    StripTrailingSlash(sysfsPath) + "/" + Schema[i]
  }

  /** One attribute of a battery: the file it reads and the last value read. */
  class BatteryStat {
    const path: string
    var data: string

    constructor (basePath: string, fname: string)
      ensures path == StripTrailingSlash(basePath) + "/" + fname
      ensures data == ""
    {
      path := StripTrailingSlash(basePath) + "/" + fname;
      data := "";
    }

    /** Re-reads the file; a file that does not open leaves `data` as it was. */
    method Sample(fs: FileSystem)
      modifies this
      ensures data == Reread(old(data), fs, path)
    {
      if path in fs {
        data := fs[path];
      }
    }
  }

  /** The abstract value of a battery: its path, its name and the values its attributes hold. */
  datatype BatteryView = BatteryView(sysfsPath: string, name: string, data: seq<string>)

  /** A battery as its constructor leaves it for the path `path`. */
  function NewBattery(path: string): (v: BatteryView)
    ensures |v.data| == |Schema|
  {
    var sysfsPath := StripTrailingSlash(path);
    BatteryView(sysfsPath, BaseName(sysfsPath), seq(|Schema|, _ => ""))
  }

  /** The battery after `sample_all` with the filesystem `fs`. */
  function SampleAll(v: BatteryView, fs: FileSystem): (r: BatteryView)
    requires |v.data| == |Schema|
    ensures r.sysfsPath == v.sysfsPath && r.name == v.name && |r.data| == |Schema|
    ensures forall i :: 0 <= i < |Schema| ==> r.data[i] == Reread(v.data[i], fs, StatPath(v.sysfsPath, i))
  {
    v.(data := seq(|Schema|, i requires 0 <= i < |Schema| => Reread(v.data[i], fs, StatPath(v.sysfsPath, i))))
  }

  /** Sampling twice with the same filesystem changes nothing the first sample did not. */
  lemma SampleAllIdempotent(v: BatteryView, fs: FileSystem)
    requires |v.data| == |Schema|
    ensures SampleAll(SampleAll(v, fs), fs) == SampleAll(v, fs)
  {
  }

  /** An attribute whose file has vanished keeps the last value successfully read. */
  lemma VanishedAttributeKeepsValue(v: BatteryView, fs: FileSystem, i: nat)
    requires |v.data| == |Schema| && i < |Schema|
    requires StatPath(v.sysfsPath, i) !in fs
    ensures SampleAll(v, fs).data[i] == v.data[i]
  {
  }

  /** A battery directory: its stripped path, its name and one reader per attribute file. */
  class Battery {
    const sysfsPath: string
    const name: string
    const stats: seq<BatteryStat>
    /** The attribute readers this battery owns. */
    ghost const Repr: set<BatteryStat>

    /** Ten distinct readers, one per schema entry, in schema order. */
    ghost predicate Valid()
    {
      && |stats| == |Schema|
      && (forall i :: 0 <= i < |stats| ==> stats[i] in Repr && stats[i].path == StatPath(sysfsPath, i))
      && (forall i, j :: 0 <= i < j < |stats| ==> stats[i] != stats[j])
    }

    /** The values the attributes hold, in schema order. */
    function Data(): (d: seq<string>)
      reads stats
      ensures |d| == |stats| && forall i :: 0 <= i < |stats| ==> d[i] == stats[i].data
    {
      seq(|stats|, i requires 0 <= i < |stats| reads stats => stats[i].data)
    }

    ghost function View(): BatteryView
      reads stats
    {
      BatteryView(sysfsPath, name, Data())
    }

    /** `Battery(sysfs_path_)`: strips the path, names the battery after its last segment, builds the ten readers. */
    constructor (path: string)
      ensures Valid() && fresh(Repr)
      ensures sysfsPath == StripTrailingSlash(path)
      ensures name == BaseName(StripTrailingSlash(path))
      ensures forall i :: 0 <= i < |stats| ==> stats[i].path == StripTrailingSlash(sysfsPath) + "/" + Schema[i]
      ensures View() == NewBattery(path)
    {
      var stripped := StripTrailingSlash(path);
      var readers: seq<BatteryStat> := [];
      for i := 0 to |Schema|
        invariant |readers| == i
        invariant forall k :: 0 <= k < i ==> fresh(readers[k])
        invariant forall k :: 0 <= k < i ==> readers[k].path == StatPath(stripped, k) && readers[k].data == ""
        invariant forall k, l :: 0 <= k < l < i ==> readers[k] != readers[l]
      {
        // the reader strips the already stripped path once more
        var reader := new BatteryStat(stripped, Schema[i]);
        readers := readers + [reader];
      }
      sysfsPath := stripped;
      name := BaseName(stripped);
      stats := readers;
      Repr := set k | 0 <= k < |readers| :: readers[k];
    }

    /** `initialize`: whether the directory passes the battery probe. */
    method Initialize(fs: FileSystem) returns (ok: bool)
      ensures ok <==> IsBatteryDir(fs, sysfsPath)
    {
      if sysfsPath + TypeFile !in fs {
        return false;
      }
      var content := fs[sysfsPath + TypeFile];
      ok := content == BatteryType;
    }

    /** `sample_all`: re-reads every attribute in schema order; a file that does not open keeps its value. */
    method SampleAllStats(fs: FileSystem)
      requires Valid()
      modifies Repr
      ensures View() == SampleAll(old(View()), fs)
    {
      for i := 0 to |stats|
        invariant forall k :: 0 <= k < i ==> stats[k].data == Reread(old(stats[k].data), fs, stats[k].path)
        invariant forall k :: i <= k < |stats| ==> stats[k].data == old(stats[k].data)
      {
        stats[i].Sample(fs);
      }
    }

    /** `build_log_string` with the clock reading `stamp`: name, stamp and each value, each followed by ','. */
    method BuildLogString(stamp: string) returns (line: string)
      ensures line == LogLine(name, stamp, Data())
    {
      line := name + [Separator] + stamp + [Separator];
      for i := 0 to |stats|
        invariant line == LogLine(name, stamp, Data()[..i])
      {
        assert Data()[..i + 1][..i] == Data()[..i];
        line := line + stats[i].data + [Separator];
      }
      assert Data()[..|stats|] == Data();
    }

    /**
     * `data_vector` as written: the vector is created with one empty entry per
     * attribute and the values are then pushed after them.
     */
    method DataVector() returns (v: seq<string>)
      ensures |v| == 2 * |stats|
      ensures v[..|stats|] == seq(|stats|, _ => "")
      ensures v[|stats|..] == Data()
    {
      v := seq(|stats|, _ => "");
      for i := 0 to |stats|
        invariant |v| == |stats| + i
        invariant v[..|stats|] == seq(|stats|, _ => "")
        invariant v[|stats|..] == Data()[..i]
      {
        v := v + [stats[i].data];
      }
    }
  }

  /** The display backlight: two files held open and the last values read from them. */
  class DisplayBacklightStat {
    const path: string
    var brightness: string
    var maxBrightness: string

    constructor (path_: string)
      ensures path == StripTrailingSlash(path_)
      ensures brightness == "" && maxBrightness == ""
    {
      path := StripTrailingSlash(path_);
      brightness, maxBrightness := "", "";
    }

    /** `initialize`: both `brightness` and `max_brightness` open. */
    method Initialize(fs: FileSystem) returns (ok: bool)
      ensures ok <==> path + "/brightness" in fs && path + "/max_brightness" in fs
    {
      var brightnessOpens := path + "/brightness" in fs;
      var maxOpens := path + "/max_brightness" in fs;
      ok := brightnessOpens && maxOpens;
    }

    /** `sample`: reads the first line of both files from the start. */
    method Sample(fs: FileSystem)
      modifies this
      ensures brightness == ReadFromOpenStream(fs, path + "/brightness")
      ensures maxBrightness == ReadFromOpenStream(fs, path + "/max_brightness")
    {
      brightness := ReadFromOpenStream(fs, path + "/brightness");
      maxBrightness := ReadFromOpenStream(fs, path + "/max_brightness");
    }

    /** `build_log_string`: the two values joined by ','; when neither holds ',' it splits back into them. */
    function BuildLogString(): (r: string)
      reads this
      ensures Separator !in brightness && Separator !in maxBrightness ==> Split(r, Separator) == [brightness, maxBrightness]
    {
      if Separator !in brightness && Separator !in maxBrightness then
        BacklightFieldsSplit(brightness, maxBrightness);
        BacklightFields(brightness, maxBrightness)
      else
        BacklightFields(brightness, maxBrightness)
    }
  }
}
