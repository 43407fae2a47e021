/**
 * The system resolver: finds the Arduino15 toolchain home, the partition table
 * of a named scheme in the newest installed esp32 package, the SPIFFS row in
 * that table, and the mkspiffs and esptool executables.
 *
 * Each query is first given as a function of the filesystem snapshot, then
 * carried out step by step by a method of `SystemResolver` that is proved to
 * return what the function says.
 */
module Resolution {
  import opened Wrappers
  import opened PyStr
  import opened Os

  /** The `(size, offset)` pair `resolve_partition_info` returns; both `None` when nothing was found. */
  datatype PartitionInfo = PartitionInfo(size: Option<string>, offset: Option<string>)

  const NotFound := PartitionInfo(None, None)

  /** The `(mkspiffs_path, esptool_path)` pair `resolve_tools` returns; each may be `None` on its own. */
  datatype ToolPaths = ToolPaths(mkspiffs: Option<string>, esptool: Option<string>)

  // ---------------------------------------------------------------------------
  // Toolchain home

  /** The conventional Arduino15 locations under the user's home, in the order they are probed (macOS, Linux, Windows). */
  function HomeCandidates(userHome: string): (r: seq<string>)
    ensures |r| == 3 && userHome <= r[0] && userHome <= r[1] && userHome <= r[2]
  {
    var library := PathJoin(userHome, "Library");
    var appData := PathJoin(userHome, "AppData");
    var local := PathJoin(appData, "Local");
    PrefixTransitive(userHome, library, PathJoin(library, "Arduino15"));
    PrefixTransitive(userHome, appData, local);
    PrefixTransitive(userHome, local, PathJoin(local, "Arduino15"));
    [PathJoin(library, "Arduino15"), PathJoin(userHome, ".arduino15"), PathJoin(local, "Arduino15")]
  }

  /** The first of `paths` that exists, if any. */
  function FirstExisting(fs: FileSystem, paths: seq<string>): (r: Option<string>)
    ensures r.None? <==> forall k :: 0 <= k < |paths| ==> !fs.Exists(paths[k])
    ensures r.Some? ==> r.value in paths && fs.Exists(r.value)
  {
    if paths == [] then None
    else if fs.Exists(paths[0]) then Some(paths[0])
    else FirstExisting(fs, paths[1..])
  }

  /** An existing path preceded only by missing ones is the one found. */
  lemma {:induction false} FirstExistingIsFirst(fs: FileSystem, paths: seq<string>, i: nat)
    requires i < |paths| && fs.Exists(paths[i])
    requires forall k :: 0 <= k < i ==> !fs.Exists(paths[k])
    ensures FirstExisting(fs, paths) == Some(paths[i])
  {
    if i > 0 {
      FirstExistingIsFirst(fs, paths[1..], i - 1);
    }
  }

  /** The toolchain home `_find_arduino_home` settles on. */
  function ArduinoHome(fs: FileSystem, userHome: string): Option<string> {
    FirstExisting(fs, HomeCandidates(userHome))
  }

  // ---------------------------------------------------------------------------
  // Partition table

  /** `<home>/packages/esp32/hardware/esp32`, where the esp32 core's versions are installed. */
  function HardwareBase(home: string): string {
    PathJoin(PathJoin(PathJoin(PathJoin(home, "packages"), "esp32"), "hardware"), "esp32")
  }

  /** `<base>/<version>/tools/partitions/<scheme>.csv`. */
  function PartitionCsvPath(base: string, version: string, scheme: string): string {
    PathJoin(PathJoin(PathJoin(PathJoin(base, version), "tools"), "partitions"), scheme + ".csv")
  }

  /** A listing entry that counts as an installed version: not a dotfile, and a directory. */
  predicate IsVersionDir(fs: FileSystem, base: string, entry: string) {
    !StartsWith(entry, ".") && fs.IsDir(PathJoin(base, entry))
  }

  /** The comprehension that keeps the version directories of a listing, in listing order. */
  function VersionDirs(fs: FileSystem, base: string, entries: seq<string>): (versions: seq<string>)
    ensures forall v :: v in versions <==> v in entries && IsVersionDir(fs, base, v)
  {
    if entries == [] then []
    else
      var rest := VersionDirs(fs, base, entries[1..]);
      assert entries == [entries[0]] + entries[1..];
      if IsVersionDir(fs, base, entries[0]) then [entries[0]] + rest else rest
  }

  /** The `(size, offset)` of a partition-table line that describes the SPIFFS region, if it does. */
  function SpiffsRow(line: string): (r: Option<(string, string)>)
    ensures r.Some? ==> Strip(line) != "" && !StartsWith(Strip(line), "#")
  {
    var stripped := Strip(line);
    if StartsWith(stripped, "#") || stripped == "" then None
    else
      var parts := StripEach(Split(stripped, ','));
      if |parts| >= 5 && (parts[0] == "spiffs" || parts[2] == "spiffs") then Some((parts[4], parts[3]))
      else None
  }

  /** The first SPIFFS row of a table, or `NotFound`; size and offset are found together or not at all. */
  function ScanRows(lines: seq<string>): (r: PartitionInfo)
    ensures r == NotFound || (r.size.Some? && r.offset.Some?)
  {
    if lines == [] then NotFound
    else
      var row := SpiffsRow(lines[0]);
      if row.Some? then PartitionInfo(Some(row.value.0), Some(row.value.1)) else ScanRows(lines[1..])
  }

  /** What `_parse_partition_csv` returns for a path: an unreadable file gives `NotFound`. */
  function ParseCsv(fs: FileSystem, csvPath: string): (r: PartitionInfo)
    ensures fs.ReadLines(csvPath).None? ==> r == NotFound
    ensures r == NotFound || (r.size.Some? && r.offset.Some?)
  {
    match fs.ReadLines(csvPath)
    case None => NotFound
    case Some(lines) => ScanRows(lines)
  }

  /** What `resolve_partition_info(scheme)` returns for a toolchain home. */
  function PartitionInfoOf(fs: FileSystem, home: Option<string>, scheme: string): (r: PartitionInfo)
    ensures r == NotFound || (r.size.Some? && r.offset.Some?)
    ensures r != NotFound ==> Truthy(home) && fs.Exists(HardwareBase(home.value))
  {
    if !Truthy(home) then NotFound
    else
      var base := HardwareBase(home.value);
      if !fs.Exists(base) then NotFound
      else match fs.ListDir(base)
        case None => NotFound
        case Some(entries) =>
          var versions := VersionDirs(fs, base, entries);
          if versions == [] then NotFound
          else
            var csvPath := PartitionCsvPath(base, MaxLex(versions), scheme);
            if !fs.Exists(csvPath) then NotFound else ParseCsv(fs, csvPath)
  }

  // ---------------------------------------------------------------------------
  // Tools

  /** `<home>/packages/esp32/tools`. */
  function ToolsBase(home: string): string {
    PathJoin(PathJoin(PathJoin(home, "packages"), "esp32"), "tools")
  }

  /** `<base>/<greatest listing entry>/<executable>` when `base` exists and lists something; the result itself is never probed. */
  function ToolPath(fs: FileSystem, base: string, executable: string): (r: Option<string>)
    ensures r.Some? ==> fs.Exists(base) && fs.ListDir(base).Some?
  {
    if !fs.Exists(base) then None
    else match fs.ListDir(base)
      case None => None
      case Some(entries) =>
        if entries == [] then None else Some(PathJoin(PathJoin(base, MaxLex(entries)), executable))
  }

  /** What `resolve_tools()` returns for a toolchain home. */
  function Tools(fs: FileSystem, home: Option<string>): (r: ToolPaths)
    ensures r.mkspiffs.Some? ==> Truthy(home) && fs.Exists(PathJoin(ToolsBase(home.value), "mkspiffs"))
    ensures r.esptool.Some? ==> Truthy(home) && fs.Exists(PathJoin(ToolsBase(home.value), "esptool_py"))
  {
    if !Truthy(home) then ToolPaths(None, None)
    else
      var packages := ToolsBase(home.value);
      ToolPaths(ToolPath(fs, PathJoin(packages, "mkspiffs"), "mkspiffs"),
                ToolPath(fs, PathJoin(packages, "esptool_py"), "esptool.py"))
  }

  // ---------------------------------------------------------------------------
  // Properties of the partition-table parse

  /** A SPIFFS row preceded only by non-matching lines is the one reported; later matches are ignored. */
  lemma {:induction false} ScanRowsFirstMatch(lines: seq<string>, i: nat)
    requires i < |lines| && SpiffsRow(lines[i]).Some?
    requires forall k :: 0 <= k < i ==> SpiffsRow(lines[k]).None?
    ensures ScanRows(lines) == PartitionInfo(Some(SpiffsRow(lines[i]).value.0), Some(SpiffsRow(lines[i]).value.1))
  {
    if i > 0 {
      var rest := lines[1..];
      assert SpiffsRow(lines[0]).None?;
      forall k | 0 <= k < i - 1 ensures SpiffsRow(rest[k]).None? {
        assert rest[k] == lines[k + 1];
      }
      assert rest[i - 1] == lines[i];
      ScanRowsFirstMatch(rest, i - 1);
    }
  }

  /** The table yields nothing exactly when no line is a SPIFFS row. */
  lemma {:induction false} ScanRowsNoMatch(lines: seq<string>)
    ensures ScanRows(lines) == NotFound <==> forall k :: 0 <= k < |lines| ==> SpiffsRow(lines[k]).None?
  {
    if lines != [] {
      var rest := lines[1..];
      ScanRowsNoMatch(rest);
      if SpiffsRow(lines[0]).Some? {
        assert ScanRows(lines) != NotFound;
      } else if ScanRows(lines) == NotFound {
        assert ScanRows(rest) == NotFound;
        forall k | 0 <= k < |lines| ensures SpiffsRow(lines[k]).None? {
          if k > 0 {
            assert lines[k] == rest[k - 1];
          }
        }
      } else {
        assert ScanRows(rest) != NotFound;
        var j :| 0 <= j < |rest| && SpiffsRow(rest[j]).Some?;
        assert lines[j + 1] == rest[j];
      }
    }
  }

  /** Blank lines and comment lines (after stripping) never match. */
  lemma SpiffsRowSkipsBlankAndComment(line: string)
    requires Strip(line) == "" || StartsWith(Strip(line), "#")
    ensures SpiffsRow(line) == None
  {
  }

  /** A matching row is a non-blank, non-comment line whose reported size and offset are stripped, comma-free fields 4 and 3. */
  lemma SpiffsRowFields(line: string, size: string, offset: string)
    requires SpiffsRow(line) == Some((size, offset))
    ensures Strip(line) != "" && !StartsWith(Strip(line), "#")
    ensures var fields := Split(Strip(line), ',');
            && |fields| >= 5
            && (Strip(fields[0]) == "spiffs" || Strip(fields[2]) == "spiffs")
            && size == Strip(fields[4]) && offset == Strip(fields[3])
    ensures Strip(size) == size && Strip(offset) == offset
    ensures ',' !in size && ',' !in offset
  {
    var fields := Split(Strip(line), ',');
    StripIdempotent(fields[4]);
    StripIdempotent(fields[3]);
    StripKeepsMiddle(fields[4]);
    StripKeepsMiddle(fields[3]);
    assert forall c :: c in Strip(fields[4]) ==> c in fields[4];
    assert forall c :: c in Strip(fields[3]) ==> c in fields[3];
  }

  /**
   * Conversely, an unpadded, non-comment line whose comma-separated fields are already
   * stripped and name `spiffs` in field 0 or 2 reports (field 4, field 3).
   */
  lemma SpiffsRowOfStrippedFields(line: string, fields: seq<string>)
    requires line != [] && line[0] != '#' && !IsSpace(line[0]) && !IsSpace(line[|line| - 1])
    requires Split(line, ',') == fields && StripEach(fields) == fields
    requires |fields| >= 5 && (fields[0] == "spiffs" || fields[2] == "spiffs")
    ensures SpiffsRow(line) == Some((fields[4], fields[3]))
  {
    StripUnpadded(line);
  }

  /** The row of the esp32 default table: columns are name, type, subtype, offset, size; the pair is (size, offset). */
  lemma SpiffsRowExample(line: string)
    requires line == "spiffs,data,spiffs,0x290000,0x170000,"
    ensures SpiffsRow(line) == Some(("0x170000", "0x290000"))
  {
    var fields := ["spiffs", "data", "spiffs", "0x290000", "0x170000", ""];
    ExampleRowSplits(line, fields);
    ExampleFieldsAreStripped(fields);
    ExampleRowEnds(line);
    SpiffsRowOfStrippedFields(line, fields);
  }

  lemma ExampleRowEnds(line: string)
    requires line == "spiffs,data,spiffs,0x290000,0x170000,"
    ensures line != [] && line[0] != '#' && !IsSpace(line[0]) && !IsSpace(line[|line| - 1])
  {
    assert line[0] == 's' && line[|line| - 1] == ',';
  }

  lemma ExampleRowSplits(line: string, fields: seq<string>)
    requires line == "spiffs,data,spiffs,0x290000,0x170000,"
    requires fields == ["spiffs", "data", "spiffs", "0x290000", "0x170000", ""]
    ensures Split(line, ',') == fields
  {
    ExampleRowJoins(line, fields);
    SplitJoin(fields, ',');
  }

  lemma ExampleRowJoins(line: string, fields: seq<string>)
    requires line == "spiffs,data,spiffs,0x290000,0x170000,"
    requires fields == ["spiffs", "data", "spiffs", "0x290000", "0x170000", ""]
    ensures JoinWith(fields, ',') == line
  {
    var joined := JoinWithCons("0x170000", [""], ',');
    joined := JoinWithCons("0x290000", joined, ',');
    joined := JoinWithCons("spiffs", joined, ',');
    joined := JoinWithCons("data", joined, ',');
    ExampleRowTailConcat();
    ExampleRowConcat();
    assert JoinWith(joined, ',') == "data,spiffs,0x290000,0x170000,";
    joined := JoinWithCons("spiffs", joined, ',');
    assert joined == fields;
  }

  lemma ExampleRowConcat()
    ensures "spiffs" + [','] + "data,spiffs,0x290000,0x170000," == "spiffs,data,spiffs,0x290000,0x170000,"
  {
  }

  lemma ExampleRowTailConcat()
    ensures "data" + [','] + "spiffs,0x290000,0x170000," == "data,spiffs,0x290000,0x170000,"
  {
  }

  lemma ExampleFieldsAreStripped(fields: seq<string>)
    requires fields == ["spiffs", "data", "spiffs", "0x290000", "0x170000", ""]
    ensures StripEach(fields) == fields
  {
    StripUnpadded(fields[0]);
    StripUnpadded(fields[1]);
    StripUnpadded(fields[3]);
    StripUnpadded(fields[4]);
    StripUnpadded(fields[5]);
  }

  // ---------------------------------------------------------------------------
  // Properties of partition discovery

  /** Every step of the lookup fails softly to `(None, None)`. */
  lemma PartitionInfoSoftFailures(fs: FileSystem, home: Option<string>, scheme: string)
    ensures !Truthy(home) ==> PartitionInfoOf(fs, home, scheme) == NotFound
    ensures Truthy(home) && !fs.Exists(HardwareBase(home.value)) ==> PartitionInfoOf(fs, home, scheme) == NotFound
    ensures Truthy(home) && fs.ListDir(HardwareBase(home.value)).None? ==> PartitionInfoOf(fs, home, scheme) == NotFound
    ensures Truthy(home) && fs.ListDir(HardwareBase(home.value)).Some?
            && VersionDirs(fs, HardwareBase(home.value), fs.ListDir(HardwareBase(home.value)).value) == []
            ==> PartitionInfoOf(fs, home, scheme) == NotFound
  {
  }

  /**
   * When the esp32 core is installed, the version read is the greatest (in string order)
   * non-dot directory of the listing, and the result is the first SPIFFS row of that
   * version's `<scheme>.csv` (or nothing when that file is missing or unreadable).
   */
  lemma PartitionInfoFromGreatestVersion(fs: FileSystem, home: string, scheme: string, entries: seq<string>)
    requires home != "" && fs.Exists(HardwareBase(home))
    requires fs.ListDir(HardwareBase(home)) == Some(entries)
    requires VersionDirs(fs, HardwareBase(home), entries) != []
    ensures var base := HardwareBase(home);
            var version := MaxLex(VersionDirs(fs, base, entries));
            && version in entries && IsVersionDir(fs, base, version)
            && (forall v :: v in entries && IsVersionDir(fs, base, v) ==> LexLeq(v, version))
            && PartitionInfoOf(fs, Some(home), scheme)
               == (if fs.Exists(PartitionCsvPath(base, version, scheme)) then ParseCsv(fs, PartitionCsvPath(base, version, scheme))
                   else NotFound)
  {
    var base := HardwareBase(home);
    var versions := VersionDirs(fs, base, entries);
    MaxLexIsGreatest(versions);
    var csvPath := PartitionCsvPath(base, MaxLex(versions), scheme);
    assert PartitionInfoOf(fs, Some(home), scheme) == if !fs.Exists(csvPath) then NotFound else ParseCsv(fs, csvPath);
  }

  /** Version directories are compared as strings, not as version numbers: 2.0.9 wins over 2.0.10. */
  lemma VersionOrderIsNotSemver()
    ensures LexLess("2.0.10", "2.0.9")
    ensures MaxLex(["2.0.9", "2.0.10"]) == "2.0.9"
  {
    assert LexLess("10", "9");
    assert LexLess("2.0.10", "2.0.9");
    LexLessAsymmetric("2.0.10", "2.0.9");
  }

  // ---------------------------------------------------------------------------
  // Properties of tool discovery

  /** With no toolchain home both tools are unresolved. */
  lemma ToolsWithoutHome(fs: FileSystem, home: Option<string>)
    requires !Truthy(home)
    ensures Tools(fs, home) == ToolPaths(None, None)
  {
  }

  /**
   * A tool's path depends only on what its own base directory reports: whether it exists
   * and what it lists. So one tool's failure never affects the other, and the final
   * executable path is never probed.
   */
  lemma ToolPathDependsOnlyOnBase(fs1: FileSystem, fs2: FileSystem, base: string, executable: string)
    requires fs1.Exists(base) == fs2.Exists(base)
    requires fs1.ListDir(base) == fs2.ListDir(base)
    ensures ToolPath(fs1, base, executable) == ToolPath(fs2, base, executable)
  {
  }

  /** Each tool resolves independently of the other. */
  lemma ToolsResolveIndependently(fs1: FileSystem, fs2: FileSystem, home: string)
    requires home != ""
    ensures var mkspiffsBase := PathJoin(ToolsBase(home), "mkspiffs");
            fs1.Exists(mkspiffsBase) == fs2.Exists(mkspiffsBase) && fs1.ListDir(mkspiffsBase) == fs2.ListDir(mkspiffsBase)
            ==> Tools(fs1, Some(home)).mkspiffs == Tools(fs2, Some(home)).mkspiffs
    ensures var esptoolBase := PathJoin(ToolsBase(home), "esptool_py");
            fs1.Exists(esptoolBase) == fs2.Exists(esptoolBase) && fs1.ListDir(esptoolBase) == fs2.ListDir(esptoolBase)
            ==> Tools(fs1, Some(home)).esptool == Tools(fs2, Some(home)).esptool
  {
  }

  /** A tool is unresolved exactly when its base directory is missing, cannot be listed, or lists nothing. */
  lemma ToolPathMissing(fs: FileSystem, base: string, executable: string)
    ensures ToolPath(fs, base, executable).None? <==> !fs.Exists(base) || fs.ListDir(base).None? || fs.ListDir(base).value == []
  {
  }

  /** A resolved tool lives under the greatest entry of the raw listing, dotfiles and plain files included. */
  lemma ToolPathTakesGreatestEntry(fs: FileSystem, base: string, executable: string, entries: seq<string>)
    requires fs.Exists(base) && fs.ListDir(base) == Some(entries) && entries != []
    ensures ToolPath(fs, base, executable) == Some(PathJoin(PathJoin(base, MaxLex(entries)), executable))
    ensures MaxLex(entries) in entries
    ensures forall e :: e in entries ==> LexLeq(e, MaxLex(entries))
  {
    MaxLexIsGreatest(entries);
  }

  /** The listing is not filtered: a stray file that sorts last is taken as the version. */
  lemma ToolListingIsUnfiltered()
    ensures MaxLex(["2.2.0", "README.txt"]) == "README.txt"
  {
    assert LexLess("2.2.0", "README.txt");
  }

  // ---------------------------------------------------------------------------
  // The resolver object

  class SystemResolver {
    const fs: FileSystem
    /** Set once, when the resolver is created. */
    const arduinoHome: Option<string>

    /** Creating a resolver looks up the toolchain home under `userHome` (the expansion of `~`). */
    constructor (fs: FileSystem, userHome: string)
      ensures this.fs == fs && arduinoHome == ArduinoHome(fs, userHome)
    {
      var home := FindArduinoHome(fs, userHome);
      this.fs := fs;
      arduinoHome := home;
    }

    /** The first existing Arduino15 candidate, in probing order, or `None`. */
    static method FindArduinoHome(fs: FileSystem, userHome: string) returns (home: Option<string>)
      ensures home == ArduinoHome(fs, userHome)
      ensures home.Some? ==> home.value in HomeCandidates(userHome) && fs.Exists(home.value)
      ensures home.None? <==> forall p :: p in HomeCandidates(userHome) ==> !fs.Exists(p)
    {
      var possiblePaths := HomeCandidates(userHome);
      for i := 0 to |possiblePaths|
        invariant FirstExisting(fs, possiblePaths[i..]) == FirstExisting(fs, possiblePaths)
      {
        if fs.Exists(possiblePaths[i]) {
          return Some(possiblePaths[i]);
        }
      }
      return None;
    }

    /** Finds the partition table of `scheme` in the newest esp32 core and reads its SPIFFS row. */
    method ResolvePartitionInfo(scheme: string) returns (info: PartitionInfo)
      ensures info == PartitionInfoOf(fs, arduinoHome, scheme)
    {
      if !Truthy(arduinoHome) {
        return NotFound;
      }
      var basePath := HardwareBase(arduinoHome.value);
      if !fs.Exists(basePath) {
        return NotFound;
      }
      var listing := fs.ListDir(basePath);
      if listing.None? {
        return NotFound;
      }
      var versions := VersionDirs(fs, basePath, listing.value);
      if versions == [] {
        return NotFound;
      }
      var version := MaxLex(versions);
      var csvPath := PartitionCsvPath(basePath, version, scheme);
      if !fs.Exists(csvPath) {
        return NotFound;
      }
      info := ParsePartitionCsv(csvPath);
    }

    /** Reads the table line by line and returns the first SPIFFS row as `(size, offset)`. */
    method ParsePartitionCsv(csvPath: string) returns (info: PartitionInfo)
      ensures info == ParseCsv(fs, csvPath)
    {
      var file := fs.ReadLines(csvPath);
      if file.None? {
        return NotFound;
      }
      var lines := file.value;
      for i := 0 to |lines|
        invariant ScanRows(lines[i..]) == ScanRows(lines)
      {
        assert lines[i..][1..] == lines[i + 1..];
        var line := Strip(lines[i]);
        if StartsWith(line, "#") || line == "" {
          continue;
        }
        var parts := StripEach(Split(line, ','));
        if |parts| >= 5 {
          var name := parts[0];
          var subtype := parts[2];
          if name == "spiffs" || subtype == "spiffs" {
            var offset := parts[3];
            var size := parts[4];
            return PartitionInfo(Some(size), Some(offset));
          }
        }
      }
      return NotFound;
    }

    /** Looks up mkspiffs and esptool, each on its own. */
    method ResolveTools() returns (mkspiffsPath: Option<string>, esptoolPath: Option<string>)
      ensures ToolPaths(mkspiffsPath, esptoolPath) == Tools(fs, arduinoHome)
    {
      if !Truthy(arduinoHome) {
        return None, None;
      }
      var packagesPath := ToolsBase(arduinoHome.value);
      mkspiffsPath := None;
      esptoolPath := None;

      var mkspiffsBase := PathJoin(packagesPath, "mkspiffs");
      if fs.Exists(mkspiffsBase) {
        var listing := fs.ListDir(mkspiffsBase);
        if listing.Some? && listing.value != [] {
          mkspiffsPath := Some(PathJoin(PathJoin(mkspiffsBase, MaxLex(listing.value)), "mkspiffs"));
        }
      }
      assert mkspiffsPath == ToolPath(fs, mkspiffsBase, "mkspiffs");

      var esptoolBase := PathJoin(packagesPath, "esptool_py");
      if fs.Exists(esptoolBase) {
        var listing := fs.ListDir(esptoolBase);
        if listing.Some? && listing.value != [] {
          esptoolPath := Some(PathJoin(PathJoin(esptoolBase, MaxLex(listing.value)), "esptool.py"));
        }
      }
      assert esptoolPath == ToolPath(fs, esptoolBase, "esptool.py");
    }
  }
}
