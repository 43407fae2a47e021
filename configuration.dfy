/**
 * The configuration loader's merge: command-line values, the project manifest
 * (arduino.json) and the system resolver's findings are combined, field by
 * field, into one configuration, which is validated for the requested action
 * before the tool paths are filled in.
 */
module Configuration {
  import opened Wrappers
  import opened PyStr
  import opened Os
  import opened Resolution

  /** The parsed command line. Every option may be absent; the two action switches are always booleans. */
  datatype Args = Args(
    dataDir: Option<string>,
    pageSize: Option<int>,
    blockSize: Option<int>,
    partitionSize: Option<string>,
    partitionOffset: Option<string>,
    port: Option<string>,
    baud: Option<string>,
    chip: Option<string>,
    mkspiffsPath: Option<string>,
    esptoolPath: Option<string>,
    buildOnly: bool,
    flashOnly: bool,
    imageFile: Option<string>)

  /** The manifest keys the merge reads; all absent when the file is missing or malformed. */
  datatype Manifest = Manifest(board: Option<string>, configuration: Option<string>, port: Option<string>)

  /** The merged configuration: the thirteen keys of the returned dictionary. */
  datatype Config = Config(
    dataDir: Option<string>,
    pageSize: int,
    blockSize: int,
    partitionSize: Option<string>,
    partitionOffset: Option<string>,
    port: Option<string>,
    baud: string,
    chip: string,
    mkspiffsPath: Option<string>,
    esptoolPath: Option<string>,
    buildOnly: bool,
    flashOnly: bool,
    imageFile: Option<string>)

  /** The one error the merge raises. */
  datatype ConfigurationError = ConfigurationError(message: string)

  const PartitionSizeMissing := ConfigurationError(
    "Partition size could not be determined. Please provide --partition-size or check your partition scheme.")
  const PartitionOffsetMissing := ConfigurationError(
    "Partition offset could not be determined. Please provide --partition-offset or check your partition scheme.")

  const DefaultPageSize := 256
  const DefaultBlockSize := 4096
  const DefaultBaud := "460800"
  const DefaultChip := "esp32"
  const DefaultScheme := "default"
  const MkspiffsFallback := "mkspiffs"
  const EsptoolFallback := "esptool.py"

  /** What the command-line parser yields when no option is given. */
  function CommandLineDefaults(): Args {
    Args(Some("data"), None, None, None, None, None, Some(DefaultBaud), Some(DefaultChip),
         None, None, false, false, Some("spiffs.bin"))
  }

  // ---------------------------------------------------------------------------
  // The manifest's `configuration` string

  /**
   * The assignment an item of the comma-separated list makes: the stripped text before
   * its first `=` and the stripped text after it (further `=` included); none without `=`.
   */
  function Assignment(item: string): (r: Option<(string, string)>)
    ensures r.Some? <==> '=' in item
  {
    if '=' in item then
      var (key, value) := SplitOnce(item, '=');
      Some((Strip(key), Strip(value)))
    else None
  }

  /** The assignments of the items, in order. */
  function Assignments(items: seq<string>): (r: seq<Option<(string, string)>>)
    ensures |r| == |items|
  {
    seq(|items|, k requires 0 <= k < |items| => Assignment(items[k]))
  }

  /** The dictionary built from assignments taken in order, so a later one to a key replaces an earlier one. */
  function Bind(entries: seq<Option<(string, string)>>): map<string, string> {
    if entries == [] then map[]
    else
      var earlier := Bind(entries[..|entries| - 1]);
      match entries[|entries| - 1]
      case None => earlier
      case Some((key, value)) => earlier[key := value]
  }

  /** The parameters the items of a `configuration` string assign. */
  function ParamsOf(items: seq<string>): map<string, string> {
    Bind(Assignments(items))
  }

  /** Taking one more item into account. */
  lemma ParamsOfExtend(items: seq<string>, i: nat)
    requires i < |items|
    ensures Bind(Assignments(items)[..i + 1])
            == match Assignment(items[i])
               case None => Bind(Assignments(items)[..i])
               case Some((key, value)) => Bind(Assignments(items)[..i])[key := value]
  {
    assert Assignments(items)[..i + 1][..i] == Assignments(items)[..i];
  }

  /** The parameters of the manifest's `configuration` string (none when it is absent). */
  function ConfigParams(manifest: Manifest): map<string, string> {
    if manifest.configuration.Some? then ParamsOf(Split(manifest.configuration.value, ',')) else map[]
  }

  /** The partition scheme the manifest names, or `default`. */
  function Scheme(params: map<string, string>): string {
    if "PartitionScheme" in params then params["PartitionScheme"] else DefaultScheme
  }

  // ---------------------------------------------------------------------------
  // The chip named by the manifest's `board`

  /** Segment 1 of a board identifier that has at least three colon-separated segments. */
  function BoardChip(board: string): (r: Option<string>)
    ensures r.Some? ==> ':' !in r.value
  {
    var parts := Split(board, ':');
    if |parts| >= 3 then Some(parts[1]) else None
  }

  function ManifestChip(manifest: Manifest): Option<string> {
    if manifest.board.Some? then BoardChip(manifest.board.value) else None
  }

  // ---------------------------------------------------------------------------
  // The merge, stage by stage

  /** The dictionary before any resolver is asked: command line first, then manifest, then defaults. */
  function InitialConfig(args: Args, manifest: Manifest): (c: Config)
    ensures c.pageSize != 0 && c.blockSize != 0 && c.chip != ""
  {
    var params := ConfigParams(manifest);
    var manifestChip := ManifestChip(manifest);
    Config(
      args.dataDir,
      if args.pageSize.Some? && args.pageSize.value != 0 then args.pageSize.value else DefaultPageSize,
      if args.blockSize.Some? && args.blockSize.value != 0 then args.blockSize.value else DefaultBlockSize,
      args.partitionSize,
      args.partitionOffset,
      if Truthy(args.port) then args.port else manifest.port,
      if Truthy(args.baud) then args.baud.value
      else if "UploadSpeed" in params then params["UploadSpeed"] else DefaultBaud,
      if Truthy(args.chip) then args.chip.value
      else if Truthy(manifestChip) then manifestChip.value else DefaultChip,
      args.mkspiffsPath,
      args.esptoolPath,
      args.buildOnly,
      args.flashOnly,
      args.imageFile)
  }

  /** Fills the partition fields that are still unset from the resolver's answer. */
  function FillPartition(config: Config, info: PartitionInfo): (c: Config)
    ensures c == config.(partitionSize := c.partitionSize, partitionOffset := c.partitionOffset)
    ensures config.partitionSize.Some? ==> c.partitionSize == config.partitionSize
    ensures config.partitionOffset.Some? ==> c.partitionOffset == config.partitionOffset
    ensures c.partitionSize.Some? <==> config.partitionSize.Some? || info.size.Some?
    ensures c.partitionOffset.Some? <==> config.partitionOffset.Some? || info.offset.Some?
  {
    config.(
      partitionSize := if info.size.Some? && config.partitionSize.None? then info.size else config.partitionSize,
      partitionOffset := if info.offset.Some? && config.partitionOffset.None? then info.offset else config.partitionOffset)
  }

  /** The error the validation raises, if any: the size is checked before the offset. */
  function Validation(config: Config): (e: Option<ConfigurationError>)
    ensures e.None? <==> (config.flashOnly || config.partitionSize.Some?) && (config.buildOnly || config.partitionOffset.Some?)
  {
    if !config.flashOnly && config.partitionSize.None? then Some(PartitionSizeMissing)
    else if !config.buildOnly && config.partitionOffset.None? then Some(PartitionOffsetMissing)
    else None
  }

  /** Fills the tool paths that are still unset from the resolver's answer or the bare executable names. */
  function FillTools(config: Config, tools: ToolPaths): (c: Config)
    ensures c == config.(mkspiffsPath := c.mkspiffsPath, esptoolPath := c.esptoolPath)
    ensures c.mkspiffsPath.Some? && c.esptoolPath.Some?
    ensures config.mkspiffsPath.Some? ==> c.mkspiffsPath == config.mkspiffsPath
    ensures config.esptoolPath.Some? ==> c.esptoolPath == config.esptoolPath
  {
    config.(
      mkspiffsPath := if config.mkspiffsPath.None? then Some(if Truthy(tools.mkspiffs) then tools.mkspiffs.value else MkspiffsFallback)
                      else config.mkspiffsPath,
      esptoolPath := if config.esptoolPath.None? then Some(if Truthy(tools.esptool) then tools.esptool.value else EsptoolFallback)
                     else config.esptoolPath)
  }

  /** What `merge_config` returns or raises, for a resolver with toolchain home `home` over `fs`. */
  function Merge(args: Args, manifest: Manifest, fs: FileSystem, home: Option<string>): (r: Result<Config, ConfigurationError>)
    ensures r.Failure? ==> r.error == PartitionSizeMissing || r.error == PartitionOffsetMissing
    ensures r.Success? ==> r.value.mkspiffsPath.Some? && r.value.esptoolPath.Some?
  {
    var initial := InitialConfig(args, manifest);
    var withPartition :=
      if initial.partitionSize.None? || initial.partitionOffset.None?
      then FillPartition(initial, PartitionInfoOf(fs, home, Scheme(ConfigParams(manifest))))
      else initial;
    match Validation(withPartition)
    case Some(error) => Failure(error)
    case None =>
      Success(if withPartition.mkspiffsPath.None? || withPartition.esptoolPath.None?
              then FillTools(withPartition, Tools(fs, home))
              else withPartition)
  }

  // ---------------------------------------------------------------------------
  // Properties of the `configuration` string

  /** An assignment not overridden by a later one to the same key gives that key its value. */
  lemma {:induction false} BindLastWins(entries: seq<Option<(string, string)>>, i: nat)
    requires i < |entries| && entries[i].Some?
    requires forall j :: i < j < |entries| && entries[j].Some? ==> entries[j].value.0 != entries[i].value.0
    ensures entries[i].value.0 in Bind(entries)
    ensures Bind(entries)[entries[i].value.0] == entries[i].value.1
  {
    var init := entries[..|entries| - 1];
    if i < |entries| - 1 {
      assert init[i] == entries[i];
      forall j | i < j < |init| && init[j].Some? ensures init[j].value.0 != init[i].value.0 {
        assert init[j] == entries[j];
      }
      BindLastWins(init, i);
    }
  }

  /** The keys of the dictionary are exactly the keys of the assignments. */
  lemma {:induction false} BindKeys(entries: seq<Option<(string, string)>>, key: string)
    ensures key in Bind(entries) <==> exists i :: 0 <= i < |entries| && entries[i].Some? && entries[i].value.0 == key
  {
    if entries != [] {
      var init := entries[..|entries| - 1];
      BindKeys(init, key);
      if key in Bind(init) {
        var i :| 0 <= i < |init| && init[i].Some? && init[i].value.0 == key;
        assert entries[i] == init[i];
      }
      if exists i :: 0 <= i < |entries| && entries[i].Some? && entries[i].value.0 == key {
        var i :| 0 <= i < |entries| && entries[i].Some? && entries[i].value.0 == key;
        if i < |init| {
          assert init[i] == entries[i];
        }
      }
    }
  }

  /** An item with `=` that no later item overrides gives its stripped key its stripped value. */
  lemma ParamsOfLastWins(items: seq<string>, i: nat)
    requires i < |items| && '=' in items[i]
    requires forall j :: i < j < |items| && '=' in items[j] ==> Assignment(items[j]).value.0 != Assignment(items[i]).value.0
    ensures Assignment(items[i]).value.0 in ParamsOf(items)
    ensures ParamsOf(items)[Assignment(items[i]).value.0] == Assignment(items[i]).value.1
  {
    BindLastWins(Assignments(items), i);
  }

  /** The keys are exactly the stripped keys of the items that contain `=`; other items are ignored. */
  lemma ParamsOfKeys(items: seq<string>, key: string)
    ensures key in ParamsOf(items) <==> exists i :: 0 <= i < |items| && '=' in items[i] && Assignment(items[i]).value.0 == key
  {
    var entries := Assignments(items);
    BindKeys(entries, key);
    if key in ParamsOf(items) {
      var i :| 0 <= i < |entries| && entries[i].Some? && entries[i].value.0 == key;
      assert entries[i] == Assignment(items[i]);
    }
    if exists i :: 0 <= i < |items| && '=' in items[i] && Assignment(items[i]).value.0 == key {
      var i :| 0 <= i < |items| && '=' in items[i] && Assignment(items[i]).value.0 == key;
      assert entries[i] == Assignment(items[i]);
    }
  }

  /** A typical manifest's `configuration` string sets the upload speed and the partition scheme. */
  lemma ConfigurationExample()
    ensures ConfigParams(Manifest(None, Some("UploadSpeed=115200,PartitionScheme=huge_app"), None))
            == map["UploadSpeed" := "115200", "PartitionScheme" := "huge_app"]
    ensures Scheme(map["UploadSpeed" := "115200", "PartitionScheme" := "huge_app"]) == "huge_app"
  {
    ExampleConfigurationSplit();
    ExampleSpeedAssignment();
    ExampleSchemeAssignment();
    ParamsOfTwo(["UploadSpeed=115200", "PartitionScheme=huge_app"]);
  }

  /** Two assigning items give a dictionary with both assignments, the second winning on a shared key. */
  lemma ParamsOfTwo(items: seq<string>)
    requires |items| == 2 && '=' in items[0] && '=' in items[1]
    ensures ParamsOf(items) == map[Assignment(items[0]).value.0 := Assignment(items[0]).value.1,
                                   Assignment(items[1]).value.0 := Assignment(items[1]).value.1]
  {
    var entries := Assignments(items);
    var (k0, v0) := Assignment(items[0]).value;
    var (k1, v1) := Assignment(items[1]).value;
    assert entries[0] == Some((k0, v0)) && entries[1] == Some((k1, v1));
    assert entries[..1] == [entries[0]];
    assert [entries[0]][..0] == [];
    assert Bind(entries[..1]) == map[k0 := v0];
    assert Bind(entries) == Bind(entries[..1])[k1 := v1];
  }

  /** An item made of an unpadded key without `=`, then `=`, then an unpadded value assigns that value to that key. */
  lemma AssignmentOf(item: string, key: string, value: string)
    requires item == key + ['='] + value && '=' !in key
    requires Strip(key) == key && Strip(value) == value
    ensures Assignment(item) == Some((key, value))
  {
    SplitOnceAt(item, '=', key, value);
  }

  lemma ExampleSpeedAssignment()
    ensures Assignment("UploadSpeed=115200") == Some(("UploadSpeed", "115200"))
  {
    AssignmentOf("UploadSpeed=115200", "UploadSpeed", "115200");
  }

  lemma ExampleSchemeAssignment()
    ensures Assignment("PartitionScheme=huge_app") == Some(("PartitionScheme", "huge_app"))
  {
    AssignmentOf("PartitionScheme=huge_app", "PartitionScheme", "huge_app");
  }

  lemma ExampleConfigurationSplit()
    ensures Split("UploadSpeed=115200,PartitionScheme=huge_app", ',') == ["UploadSpeed=115200", "PartitionScheme=huge_app"]
  {
    var items := ["UploadSpeed=115200", "PartitionScheme=huge_app"];
    assert JoinWith(items, ',') == "UploadSpeed=115200,PartitionScheme=huge_app";
    SplitJoin(items, ',');
  }

  // ---------------------------------------------------------------------------
  // Properties of the board's chip

  /**
   * A chip is derived exactly when the board has at least two colons (three segments),
   * and it is then the text between the first and the second colon.
   */
  lemma BoardChipSegments(board: string)
    ensures BoardChip(board).Some? <==> multiset(board)[':'] >= 2
    ensures BoardChip(board).Some? ==>
              var parts := Split(board, ':');
              && ':' !in parts[0] && ':' !in BoardChip(board).value
              && board == parts[0] + [':'] + (BoardChip(board).value + [':'] + JoinWith(parts[2..], ':'))
  {
    SplitCount(board, ':');
    var parts := Split(board, ':');
    if |parts| >= 3 {
      var rest := JoinWith(parts[2..], ':');
      var middle := JoinWith(parts[1..], ':');
      assert BoardChip(board).value == parts[1];
      assert board == parts[0] + [':'] + middle;
      assert middle == parts[1] + [':'] + rest by {
        assert parts[1..][0] == parts[1];
        assert parts[1..][1..] == parts[2..];
      }
    }
  }


  /** A three-segment board names segment 1; a two-segment board names nothing. */
  lemma BoardChipExamples()
    ensures BoardChip("esp32:esp32:esp32wroverkit") == Some("esp32")
    ensures BoardChip("esp32:esp32") == None
  {
    ExampleThreeSegmentSplit();
    ExampleTwoSegmentSplit();
  }

  lemma ExampleTwoSegmentSplit()
    ensures Split("esp32:esp32", ':') == ["esp32", "esp32"]
  {
    var two := ["esp32"];
    two := JoinWithCons("esp32", two, ':');
    assert JoinWith(two, ':') == "esp32:esp32";
    SplitJoin(two, ':');
  }

  lemma ExampleThreeSegmentSplit()
    ensures Split("esp32:esp32:esp32wroverkit", ':') == ["esp32", "esp32", "esp32wroverkit"]
  {
    var one := ["esp32wroverkit"];
    assert JoinWith(one, ':') == "esp32wroverkit";
    var pair := JoinWithCons("esp32", one, ':');
    assert JoinWith(pair, ':') == "esp32:esp32wroverkit";
    var three := JoinWithCons("esp32", pair, ':');
    assert three == ["esp32", "esp32", "esp32wroverkit"];
    assert JoinWith(three, ':') == "esp32" + [':'] + "esp32:esp32wroverkit";
    assert "esp32" + [':'] + "esp32:esp32wroverkit" == "esp32:esp32:esp32wroverkit";
    SplitJoin(three, ':');
  }

  // ---------------------------------------------------------------------------
  // Properties of the merge

  /** The partition pair the merge asks the resolver for, keyed by the manifest's scheme. */
  function LookedUpPartition(manifest: Manifest, fs: FileSystem, home: Option<string>): PartitionInfo {
    PartitionInfoOf(fs, home, Scheme(ConfigParams(manifest)))
  }

  /** The partition size after the fill-in: the command line's, even `""`, else the resolver's. */
  function ResolvedSize(args: Args, manifest: Manifest, fs: FileSystem, home: Option<string>): Option<string> {
    if args.partitionSize.Some? then args.partitionSize else LookedUpPartition(manifest, fs, home).size
  }

  /** The partition offset after the fill-in: the command line's, even `""`, else the resolver's. */
  function ResolvedOffset(args: Args, manifest: Manifest, fs: FileSystem, home: Option<string>): Option<string> {
    if args.partitionOffset.Some? then args.partitionOffset else LookedUpPartition(manifest, fs, home).offset
  }

  /**
   * `ConfigurationError` is raised exactly when the build step is wanted without a size,
   * or the flash step without an offset; the size is reported first.
   */
  lemma MergeRaisesExactly(args: Args, manifest: Manifest, fs: FileSystem, home: Option<string>)
    ensures var size := ResolvedSize(args, manifest, fs, home);
            var offset := ResolvedOffset(args, manifest, fs, home);
            var r := Merge(args, manifest, fs, home);
            && (r.Failure? <==> (!args.flashOnly && size.None?) || (!args.buildOnly && offset.None?))
            && (r.Failure? ==> r.error == if !args.flashOnly && size.None? then PartitionSizeMissing else PartitionOffsetMissing)
  {
  }

  /** Flashing only never needs a size, building only never needs an offset, doing neither needs nothing. */
  lemma MergeNeedsOnlyWhatTheActionUses(args: Args, manifest: Manifest, fs: FileSystem, home: Option<string>)
    ensures args.flashOnly ==>
              (Merge(args, manifest, fs, home).Failure? <==> !args.buildOnly && ResolvedOffset(args, manifest, fs, home).None?)
    ensures args.buildOnly ==>
              (Merge(args, manifest, fs, home).Failure? <==> !args.flashOnly && ResolvedSize(args, manifest, fs, home).None?)
    ensures args.flashOnly && args.buildOnly ==> Merge(args, manifest, fs, home).Success?
  {
    MergeRaisesExactly(args, manifest, fs, home);
  }

  /** A merged configuration has every field its action needs, and both tool paths. */
  lemma MergeSuccessIsComplete(args: Args, manifest: Manifest, fs: FileSystem, home: Option<string>)
    requires Merge(args, manifest, fs, home).Success?
    ensures var c := Merge(args, manifest, fs, home).value;
            && (!c.flashOnly ==> c.partitionSize.Some?)
            && (!c.buildOnly ==> c.partitionOffset.Some?)
            && c.mkspiffsPath.Some? && c.esptoolPath.Some?
  {
  }

  /** The merge changes nothing but the partition fields and the tool paths of the initial dictionary. */
  lemma MergeChangesOnlyResolvedFields(args: Args, manifest: Manifest, fs: FileSystem, home: Option<string>)
    requires Merge(args, manifest, fs, home).Success?
    ensures var c := Merge(args, manifest, fs, home).value;
            c == InitialConfig(args, manifest).(partitionSize := c.partitionSize, partitionOffset := c.partitionOffset,
                                                mkspiffsPath := c.mkspiffsPath, esptoolPath := c.esptoolPath)
  {
  }

  /**
   * The fields no resolver touches: pass-throughs, numeric defaults when the option is
   * unset or zero, and the command line / manifest / default chains with Python's `or`.
   */
  lemma MergeFieldPrecedence(args: Args, manifest: Manifest, fs: FileSystem, home: Option<string>)
    requires Merge(args, manifest, fs, home).Success?
    ensures var c := Merge(args, manifest, fs, home).value;
            var params := ConfigParams(manifest);
            && c.dataDir == args.dataDir && c.imageFile == args.imageFile
            && c.buildOnly == args.buildOnly && c.flashOnly == args.flashOnly
            && c.pageSize == (if args.pageSize.Some? && args.pageSize.value != 0 then args.pageSize.value else 256)
            && c.blockSize == (if args.blockSize.Some? && args.blockSize.value != 0 then args.blockSize.value else 4096)
            && c.port == (if Truthy(args.port) then args.port else manifest.port)
            && c.baud == (if Truthy(args.baud) then args.baud.value
                          else if "UploadSpeed" in params then params["UploadSpeed"] else "460800")
            && c.chip == (if Truthy(args.chip) then args.chip.value
                          else if Truthy(ManifestChip(manifest)) then ManifestChip(manifest).value else "esp32")
  {
    MergeChangesOnlyResolvedFields(args, manifest, fs, home);
  }

  /** Partition fields: an explicit value, even `""`, is kept; only unset ones take the resolver's answer. */
  lemma MergePartitionFill(args: Args, manifest: Manifest, fs: FileSystem, home: Option<string>)
    requires Merge(args, manifest, fs, home).Success?
    ensures var c := Merge(args, manifest, fs, home).value;
            && c.partitionSize == ResolvedSize(args, manifest, fs, home)
            && c.partitionOffset == ResolvedOffset(args, manifest, fs, home)
            && (args.partitionSize.Some? ==> c.partitionSize == args.partitionSize)
            && (args.partitionOffset.Some? ==> c.partitionOffset == args.partitionOffset)
  {
  }

  /** Tool paths: an explicit path is kept; an unset one becomes the resolver's path or the bare executable name. */
  lemma MergeToolFill(args: Args, manifest: Manifest, fs: FileSystem, home: Option<string>)
    requires Merge(args, manifest, fs, home).Success?
    ensures var c := Merge(args, manifest, fs, home).value;
            var tools := Tools(fs, home);
            && c.mkspiffsPath == Some(if args.mkspiffsPath.Some? then args.mkspiffsPath.value
                                      else if Truthy(tools.mkspiffs) then tools.mkspiffs.value else "mkspiffs")
            && c.esptoolPath == Some(if args.esptoolPath.Some? then args.esptoolPath.value
                                     else if Truthy(tools.esptool) then tools.esptool.value else "esptool.py")
  {
  }

  /** With every partition field and tool path given on the command line, the filesystem plays no part. */
  lemma MergeIgnoresResolverWhenExplicit(args: Args, manifest: Manifest, fs1: FileSystem, home1: Option<string>,
                                         fs2: FileSystem, home2: Option<string>)
    requires args.partitionSize.Some? && args.partitionOffset.Some?
    requires args.mkspiffsPath.Some? && args.esptoolPath.Some?
    ensures Merge(args, manifest, fs1, home1) == Merge(args, manifest, fs2, home2)
    ensures Merge(args, manifest, fs1, home1).Success?
  {
  }

  /** The command line's own defaults for baud and chip shadow whatever the manifest says. */
  lemma MergeWithCommandLineDefaults(manifest: Manifest, fs: FileSystem, home: Option<string>)
    requires Merge(CommandLineDefaults(), manifest, fs, home).Success?
    ensures var c := Merge(CommandLineDefaults(), manifest, fs, home).value;
            && c.baud == "460800" && c.chip == "esp32"
            && c.dataDir == Some("data") && c.imageFile == Some("spiffs.bin")
            && c.pageSize == 256 && c.blockSize == 4096
  {
  }

  /** Without a `--baud`, the manifest's `UploadSpeed` is used. */
  lemma MergeBaudFromManifestExample(args: Args, fs: FileSystem, home: Option<string>)
    requires args.baud.None?
    requires Merge(args, Manifest(None, Some("UploadSpeed=115200,PartitionScheme=huge_app"), None), fs, home).Success?
    ensures Merge(args, Manifest(None, Some("UploadSpeed=115200,PartitionScheme=huge_app"), None), fs, home).value.baud == "115200"
  {
    var manifest := Manifest(None, Some("UploadSpeed=115200,PartitionScheme=huge_app"), None);
    assert ConfigParams(manifest)["UploadSpeed"] == "115200" by {
      ConfigurationExample();
    }
    MergeFieldPrecedence(args, manifest, fs, home);
  }

  /** Without a `--chip`, a three-segment board names the chip. */
  lemma MergeChipFromBoardExample(args: Args, fs: FileSystem, home: Option<string>)
    requires args.chip.None?
    requires Merge(args, Manifest(Some("esp32:esp32:esp32wroverkit"), None, None), fs, home).Success?
    ensures Merge(args, Manifest(Some("esp32:esp32:esp32wroverkit"), None, None), fs, home).value.chip == "esp32"
  {
    var manifest := Manifest(Some("esp32:esp32:esp32wroverkit"), None, None);
    assert ManifestChip(manifest) == Some("esp32") by {
      BoardChipExamples();
    }
    MergeFieldPrecedence(args, manifest, fs, home);
  }

  // ---------------------------------------------------------------------------
  // The loader object

  class ConfigLoader {
    const resolver: SystemResolver

    /** A loader owns a resolver created over the same filesystem and user home. */
    constructor (fs: FileSystem, userHome: string)
      ensures resolver.fs == fs && resolver.arduinoHome == ArduinoHome(fs, userHome)
    {
      resolver := new SystemResolver(fs, userHome);
    }

    /** Reads the comma-separated `key=value` items of a manifest's `configuration` string. */
    static method ParseConfiguration(configuration: string) returns (params: map<string, string>)
      ensures params == ParamsOf(Split(configuration, ','))
    {
      params := map[];
      var items := Split(configuration, ',');
      for i := 0 to |items|
        invariant params == Bind(Assignments(items)[..i])
      {
        var item := items[i];
        ParamsOfExtend(items, i);
        if '=' in item {
          var (k, v) := SplitOnce(item, '=');
          params := params[Strip(k) := Strip(v)];
        }
      }
      assert Assignments(items)[..|items|] == Assignments(items);
    }

    /** The dictionary literal and the partition scheme, before any resolver is asked. */
    static method BuildInitialConfig(args: Args, jsonConfig: Manifest) returns (finalConfig: Config, partitionScheme: string)
      ensures finalConfig == InitialConfig(args, jsonConfig)
      ensures partitionScheme == Scheme(ConfigParams(jsonConfig))
    {
      // The `configuration` string's key=value items.
      var jsonParams: map<string, string> := map[];
      if jsonConfig.configuration.Some? {
        jsonParams := ParseConfiguration(jsonConfig.configuration.value);
      }
      assert jsonParams == ConfigParams(jsonConfig);

      // The chip named by the board.
      var jsonChip: Option<string> := None;
      if jsonConfig.board.Some? {
        var parts := Split(jsonConfig.board.value, ':');
        if |parts| >= 3 {
          jsonChip := Some(parts[2]);
          if |parts| >= 2 {
            jsonChip := Some(parts[1]);
          }
        }
      }
      assert jsonChip == ManifestChip(jsonConfig);

      finalConfig := Config(
        args.dataDir,
        if args.pageSize.Some? && args.pageSize.value != 0 then args.pageSize.value else DefaultPageSize,
        if args.blockSize.Some? && args.blockSize.value != 0 then args.blockSize.value else DefaultBlockSize,
        args.partitionSize,
        args.partitionOffset,
        if Truthy(args.port) then args.port else jsonConfig.port,
        if Truthy(args.baud) then args.baud.value
        else if "UploadSpeed" in jsonParams then jsonParams["UploadSpeed"] else DefaultBaud,
        if Truthy(args.chip) then args.chip.value
        else if Truthy(jsonChip) then jsonChip.value else DefaultChip,
        args.mkspiffsPath,
        args.esptoolPath,
        args.buildOnly,
        args.flashOnly,
        args.imageFile);
      partitionScheme := if "PartitionScheme" in jsonParams then jsonParams["PartitionScheme"] else DefaultScheme;
    }

    /**
     * Merges the command line with the manifest. The ghost results count the calls to
     * the resolver: the partition lookup happens at most once, and the tool lookup at
     * most once and only after validation has passed.
     */
    method MergeConfig(args: Args, jsonConfig: Manifest)
      returns (result: Result<Config, ConfigurationError>, ghost partitionLookups: nat, ghost toolLookups: nat)
      ensures result == Merge(args, jsonConfig, resolver.fs, resolver.arduinoHome)
      ensures partitionLookups == if args.partitionSize.None? || args.partitionOffset.None? then 1 else 0
      ensures toolLookups == if result.Success? && (args.mkspiffsPath.None? || args.esptoolPath.None?) then 1 else 0
    {
      toolLookups := 0;
      var finalConfig, partitionScheme := BuildInitialConfig(args, jsonConfig);
      finalConfig, partitionLookups := CompletePartition(finalConfig, partitionScheme);

      if !finalConfig.flashOnly && finalConfig.partitionSize.None? {
        return Failure(PartitionSizeMissing), partitionLookups, toolLookups;
      }
      if !finalConfig.buildOnly && finalConfig.partitionOffset.None? {
        return Failure(PartitionOffsetMissing), partitionLookups, toolLookups;
      }

      finalConfig, toolLookups := CompleteTools(finalConfig);
      result := Success(finalConfig);
    }

    /** Asks the resolver for the scheme's partition pair only when a partition field is unset, and fills the unset ones. */
    method CompletePartition(config: Config, partitionScheme: string) returns (filled: Config, ghost lookups: nat)
      ensures filled == if config.partitionSize.None? || config.partitionOffset.None?
                        then FillPartition(config, PartitionInfoOf(resolver.fs, resolver.arduinoHome, partitionScheme))
                        else config
      ensures lookups == if config.partitionSize.None? || config.partitionOffset.None? then 1 else 0
    {
      filled, lookups := config, 0;
      if filled.partitionSize.None? || filled.partitionOffset.None? {
        var info := resolver.ResolvePartitionInfo(partitionScheme);
        lookups := 1;
        if info.size.Some? && filled.partitionSize.None? {
          filled := filled.(partitionSize := info.size);
        }
        if info.offset.Some? && filled.partitionOffset.None? {
          filled := filled.(partitionOffset := info.offset);
        }
      }
    }

    /** Asks the resolver for the tools only when a tool path is unset, and fills the unset ones. */
    method CompleteTools(config: Config) returns (filled: Config, ghost lookups: nat)
      ensures filled == if config.mkspiffsPath.None? || config.esptoolPath.None?
                        then FillTools(config, Tools(resolver.fs, resolver.arduinoHome))
                        else config
      ensures lookups == if config.mkspiffsPath.None? || config.esptoolPath.None? then 1 else 0
    {
      filled, lookups := config, 0;
      if filled.mkspiffsPath.None? || filled.esptoolPath.None? {
        var mkspiffs, esptool := resolver.ResolveTools();
        lookups := 1;
        if filled.mkspiffsPath.None? {
          filled := filled.(mkspiffsPath := Some(if Truthy(mkspiffs) then mkspiffs.value else MkspiffsFallback));
        }
        if filled.esptoolPath.None? {
          filled := filled.(esptoolPath := Some(if Truthy(esptool) then esptool.value else EsptoolFallback));
        }
      }
    }
  }
}
