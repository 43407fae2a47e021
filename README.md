# spiffs_tool configuration resolution, in Dafny

This project models the part of spiffs_tool that decides, before anything is built
or flashed, which settings a run uses. It covers two things.

- **`ConfigLoader.merge_config`** takes the parsed command line and the already-loaded
  `arduino.json` manifest. It then:
  - parses the manifest's comma-separated `key=value` `configuration` string;
  - derives a chip name from the colon-separated `board`;
  - applies the field-by-field precedence, using Python's `or` in some places and
    `is None` in others;
  - asks the system resolver for the partition size and offset at most once;
  - raises `ConfigurationError` when the requested action lacks a size or an offset;
  - only after that, fills in the tool paths.
- **`SystemResolver`**:
  - finds the Arduino15 toolchain home;
  - picks the greatest (in string order) esp32 core version directory;
  - reads the SPIFFS row of the scheme's partition table;
  - locates the mkspiffs and esptool executables.

The filesystem is a value, `Os.FileSystem`, passed in explicitly. It holds:

- the set of existing paths;
- the set of directories;
- a listing per path (a missing listing stands for an `OSError`);
- the readable lines per file (a missing entry stands for a failing `open`).

With the filesystem fixed, every query is deterministic. Each one is given twice:

- as a specification function (`Resolution.PartitionInfoOf`, `Resolution.Tools`,
  `Configuration.Merge`, …) whose properties are proved as lemmas;
- as an imperative method of `SystemResolver` or `ConfigLoader`, written as the code
  runs it, with loops and early returns, and proved to return exactly what the
  function says.

Python's string built-ins that the code relies on are written out in module `PyStr`:

- `strip` over Python's whitespace set;
- `split(sep)` and `split(sep, 1)`;
- `startswith`;
- truthiness;
- code-point lexicographic order, and the greatest element taken by
  `sorted(..., reverse=True)[0]`.

Files:

- `wrappers.dfy`: `Option` and `Result`.
- `pystr.dfy`: the Python string operations.
- `os.dfy`: the filesystem snapshot and POSIX `os.path.join`.
- `resolution.dfy`: the system resolver.
- `configuration.dfy`: the merge.

Two behaviours of the code are easy to misread and are modelled as written:

- The `len(parts) >= 2` test (src/config_loader.py:124) sits inside the `len(parts) >= 3`
  branch (src/config_loader.py:122), so it always holds. The `parts[2]` stored at line 123
  is always overwritten by `parts[1]` at line 125. A chip is derived from `board` only
  when it has at least three colon-separated segments, and it is then segment 1. A
  two-segment board derives no chip.
- Validation tests only `is None` (src/config_loader.py:160-174), so an explicit
  `--partition-size ""` passes and is kept.

## Model

| member | source | states |
|---|---|---|
| PyStr.Strip | src/system_resolver.py:72 | the stripped string is no longer than the input and neither starts nor ends with whitespace |
| PyStr.IsSpace | src/system_resolver.py:72 | the characters `str.isspace()` accepts, which an argument-less `strip()` removes (a definition; no contract) |
| PyStr.Truthy | src/config_loader.py:133-135 | Python truthiness of an optional string: present and non-empty (a definition; no contract) |
| PyStr.StripKeepsMiddle | src/system_resolver.py:72 | `strip` removes exactly the leading and trailing whitespace: the result is the input's slice after its leading spaces, and everything around that slice is whitespace |
| PyStr.StripIdempotent | src/system_resolver.py:72-75 | stripping an already stripped string changes nothing |
| PyStr.SplitOnce | src/config_loader.py:113 | `split('=', 1)` of a string containing `=`: the text before the first `=` (which contains no `=`) and everything after it, joined back with `=` give the input |
| PyStr.SplitOnceAt | src/config_loader.py:113 | a string of the form `before + "=" + after` with no `=` in `before` splits once into exactly `(before, after)` |
| PyStr.Split | src/system_resolver.py:75 | `split(sep)` yields at least one piece, no piece contains the separator, and the pieces joined with the separator give the input back |
| PyStr.JoinWith | src/system_resolver.py:75 | `sep.join(parts)`, the inverse against which `split` is specified (a definition; no contract) |
| PyStr.SplitJoin | src/system_resolver.py:75 | splitting a separator-free list of pieces, joined with the separator, gives the pieces back |
| PyStr.SplitCount | src/config_loader.py:121-122 | `split(sep)` yields one piece more than the separator occurs in the string |
| PyStr.StripEach | src/system_resolver.py:75 | the field-wise strip keeps the number of fields and strips each field |
| PyStr.StartsWith | src/system_resolver.py:73 | `str.startswith`: the prefix test (a definition; no contract) |
| PyStr.LexLessIrreflexive | src/system_resolver.py:49 | no string sorts strictly before itself |
| PyStr.LexLessAsymmetric | src/system_resolver.py:49 | two strings never sort strictly before each other |
| PyStr.LexLessTransitive | src/system_resolver.py:49 | Python's string order is transitive |
| PyStr.LexLessTotal | src/system_resolver.py:49 | any two distinct strings are ordered one way or the other |
| PyStr.LexLess | src/system_resolver.py:49 | Python's `<` on `str`, code point by code point; a proper prefix always sorts first |
| PyStr.LexLeq | src/system_resolver.py:49 | Python's `<=` on `str`: equal or strictly before (a definition; no contract) |
| PyStr.MaxLex | src/system_resolver.py:49-50 | the first element after a descending sort is an element of the list |
| PyStr.MaxLexIsGreatest | src/system_resolver.py:49-50 | that element is greater than or equal to every element of the list |
| PyStr.GreatestIsMaxLex | src/system_resolver.py:104-107 | an element that is greater than or equal to all others is the one selected |
| Resolution.FirstExisting | src/system_resolver.py:18-21 | the search finds nothing exactly when no candidate exists; what it finds is an existing candidate |
| Resolution.FirstExistingIsFirst | src/system_resolver.py:18-21 | an existing candidate preceded only by missing ones is the one returned |
| Resolution.ArduinoHome | src/system_resolver.py:9-21 | the home `_find_arduino_home` settles on: the first existing candidate under the user's home (a definition; no contract) |
| Os.PathJoin | src/system_resolver.py:13-15 | POSIX `os.path.join`: the result always ends with the second part, and starts with the first unless the second is absolute |
| Os.FileSystem.Exists | src/system_resolver.py:19 | `os.path.exists`: membership in the snapshot's existing paths (a definition; no contract) |
| Os.FileSystem.IsDir | src/system_resolver.py:45 | `os.path.isdir`: membership in the snapshot's directories (a definition; no contract) |
| Os.FileSystem.ListDir | src/system_resolver.py:43 | `os.listdir`, or `None` where it raises `OSError` (a definition; no contract) |
| Os.FileSystem.ReadLines | src/system_resolver.py:70-71 | the lines `for line in open(path)` yields, or `None` where opening fails (a definition; no contract) |
| Resolution.HomeCandidates | src/system_resolver.py:11-16 | three candidates, each under the user's home directory |
| Resolution.SystemResolver.constructor | src/system_resolver.py:6-7 | the resolver's `arduino_home` is the home found when it is created |
| Resolution.SystemResolver.FindArduinoHome | src/system_resolver.py:9-21 | the probing loop returns the first existing candidate among `~/Library/Arduino15`, `~/.arduino15` and `~/AppData/Local/Arduino15`, in that order; it returns `None` exactly when none exists |
| Resolution.VersionDirs | src/system_resolver.py:41-46 | a listing entry is kept as a version exactly when it does not start with `.` and is a directory |
| Resolution.HardwareBase | src/system_resolver.py:32-34 | `<home>/packages/esp32/hardware/esp32` (a definition; no contract) |
| Resolution.IsVersionDir | src/system_resolver.py:44-45 | a listing entry that is not a dotfile and is a directory under the base (a definition; no contract) |
| Resolution.PartitionCsvPath | src/system_resolver.py:54-57 | `<base>/<version>/tools/partitions/<scheme>.csv` (a definition; no contract) |
| Resolution.SpiffsRow | src/system_resolver.py:72-82 | a line that reports a SPIFFS row is neither blank nor a comment after stripping |
| Resolution.ScanRows | src/system_resolver.py:71-86 | the table scan reports nothing, or both a size and an offset |
| Resolution.ScanRowsFirstMatch | src/system_resolver.py:71-82 | the first SPIFFS row decides the result, and later matching rows are ignored |
| Resolution.ScanRowsNoMatch | src/system_resolver.py:76-86 | the scan gives `(None, None)` exactly when no line is a SPIFFS row |
| Resolution.ParseCsv | src/system_resolver.py:65-86 | an unreadable file gives `(None, None)`; the result is `(None, None)` or has both a size and an offset |
| Resolution.SpiffsRowSkipsBlankAndComment | src/system_resolver.py:72-74 | a line that is blank after stripping, or starts with `#` after stripping, is never a SPIFFS row |
| Resolution.SpiffsRowFields | src/system_resolver.py:72-82 | a line reporting `(size, offset)` is neither blank nor a comment after stripping; its comma-split form has at least five fields with `spiffs` as stripped field 0 or 2; size is stripped field 4 and offset stripped field 3, both free of padding and commas |
| Resolution.SpiffsRowOfStrippedFields | src/system_resolver.py:75-82 | a stripped row whose comma-separated fields are already stripped yields `(field 4, field 3)` when it has five fields and names `spiffs` in field 0 or 2 |
| Resolution.SpiffsRowExample | src/system_resolver.py:75-82 | `spiffs,data,spiffs,0x290000,0x170000,` yields size `0x170000` and offset `0x290000` |
| Resolution.PartitionInfoSoftFailures | src/system_resolver.py:27-52 | no home, a missing esp32 hardware directory, an unreadable listing or no version directory each give `(None, None)` |
| Resolution.PartitionInfoFromGreatestVersion | src/system_resolver.py:41-63 | with the core installed, the version read is the greatest non-dot directory of the listing, and the answer is that version's `<scheme>.csv` parse, or `(None, None)` when the file is missing |
| Resolution.PartitionInfoOf | src/system_resolver.py:23-63 | the partition lookup yields `(None, None)` or both fields, and a found pair needs a truthy home whose esp32 hardware directory exists |
| Resolution.VersionOrderIsNotSemver | src/system_resolver.py:49-50 | versions are compared as strings: `2.0.9` is chosen over `2.0.10` |
| Resolution.SystemResolver.ResolvePartitionInfo | src/system_resolver.py:23-63 | the step-by-step lookup, with its early returns, returns what `PartitionInfoOf` specifies for the resolver's home |
| Resolution.SystemResolver.ParsePartitionCsv | src/system_resolver.py:65-86 | the line loop returns the first SPIFFS row as `(size, offset)`, or `(None, None)` when none matches or the file cannot be opened |
| Resolution.ToolsWithoutHome | src/system_resolver.py:90-91 | with no toolchain home both tools are `None` |
| Resolution.ToolPath | src/system_resolver.py:101-110 | a found tool path implies its base directory exists and can be listed |
| Resolution.ToolPathMissing | src/system_resolver.py:101-110 | a tool is `None` exactly when its base directory is missing, cannot be listed, or lists nothing |
| Resolution.ToolsBase | src/system_resolver.py:93-95 | `<home>/packages/esp32/tools` (a definition; no contract) |
| Resolution.Tools | src/system_resolver.py:88-124 | a found mkspiffs or esptool path implies a truthy home and an existing `mkspiffs` or `esptool_py` directory under `<home>/packages/esp32/tools` |
| Resolution.ToolPathDependsOnlyOnBase | src/system_resolver.py:101-110 | a tool's path depends only on whether its base directory exists and on what it lists; the final executable is never probed |
| Resolution.ToolsResolveIndependently | src/system_resolver.py:97-124 | mkspiffs and esptool are resolved independently: each depends only on its own base directory |
| Resolution.ToolPathTakesGreatestEntry | src/system_resolver.py:102-108 | a tool found lives under the greatest entry of the raw listing, with no filtering of dotfiles or non-directories |
| Resolution.ToolListingIsUnfiltered | src/system_resolver.py:104 | a stray file that sorts last, such as `README.txt`, is taken as the tool's version |
| Resolution.SystemResolver.ResolveTools | src/system_resolver.py:88-124 | the step-by-step tool lookup returns what `Tools` specifies |
| Configuration.Assignment | src/config_loader.py:112-114 | an item assigns something exactly when it contains `=` |
| Configuration.Assignments | src/config_loader.py:110-114 | one assignment per comma-separated item, in order, so the count of items is kept |
| Configuration.Bind | src/config_loader.py:107-114 | the dictionary built by taking assignments in order, a later one to a key replacing an earlier one (a definition; no contract) |
| Configuration.ParamsOf | src/config_loader.py:107-114 | the parameters the items of a `configuration` string assign: their assignments bound in order (a definition; no contract) |
| Configuration.ConfigParams | src/config_loader.py:107-116 | the parameters of the manifest's `configuration` string, none when it is absent (a definition; no contract) |
| Configuration.Scheme | src/config_loader.py:144 | the `PartitionScheme` parameter, or `default` (a definition; no contract) |
| Configuration.ParamsOfExtend | src/config_loader.py:111-114 | one more loop iteration adds the item's stripped assignment, replacing any earlier value of its key, or changes nothing for an item without `=` |
| Configuration.BindLastWins | src/config_loader.py:111-114 | an assignment not overridden later gives its key its value in the dictionary |
| Configuration.BindKeys | src/config_loader.py:111-114 | a key is in the dictionary exactly when some assignment sets it |
| Configuration.ParamsOfLastWins | src/config_loader.py:107-114 | the stripped key before an item's first `=` maps to the item's stripped value unless a later item with `=` has the same key |
| Configuration.ParamsOfKeys | src/config_loader.py:107-114 | the parameters' keys are exactly the stripped keys of the items that contain `=`; items without `=` contribute nothing |
| Configuration.ParamsOfTwo | src/config_loader.py:111-114 | two assignments make a two-entry dictionary in which the second one wins on a shared key |
| Configuration.AssignmentOf | src/config_loader.py:112-114 | `key=value`, with `key` free of `=` and both already stripped, assigns exactly `value` to `key` |
| Configuration.ConfigurationExample | src/config_loader.py:107-114 | `UploadSpeed=115200,PartitionScheme=huge_app` yields those two parameters, and the scheme looked up is `huge_app` |
| Configuration.BoardChip | src/config_loader.py:119-125 | a derived chip name contains no colon |
| Configuration.ManifestChip | src/config_loader.py:119-120 | the chip derived from the manifest's `board`, none when it has no `board` (a definition; no contract) |
| Configuration.BoardChipSegments | src/config_loader.py:119-125 | a chip is derived exactly when the board has at least two colons (three segments), and it is then the text between the first and second colon |
| Configuration.BoardChipExamples | src/config_loader.py:119-125 | `esp32:esp32:esp32wroverkit` derives `esp32`; the two-segment `esp32:esp32` derives nothing |
| Configuration.InitialConfig | src/config_loader.py:127-141 | the dictionary literal never yields a zero page size or block size, or an empty chip name |
| Configuration.FillPartition | src/config_loader.py:154-157 | only the partition fields change; a set field is kept; a field ends up set exactly when it was set or the resolver found it |
| Configuration.Validation | src/config_loader.py:160-174 | no error exactly when the size is set or `flash_only` holds, and the offset is set or `build_only` holds |
| Configuration.FillTools | src/config_loader.py:182-185 | only the tool paths change; both end up set, and a set one is kept |
| Configuration.Merge | src/config_loader.py:101-187 | the merge raises only one of the two validation errors, and a merged configuration has both tool paths |
| Configuration.MergeRaisesExactly | src/config_loader.py:147-174 | the merge raises exactly when a size is missing without `flash_only`, or an offset is missing without `build_only`, after the fill-in; the size message comes first |
| Configuration.MergeNeedsOnlyWhatTheActionUses | src/config_loader.py:160-174 | with `flash_only`, a missing size never raises; with `build_only`, a missing offset never raises; with both, the merge always succeeds |
| Configuration.MergeSuccessIsComplete | src/config_loader.py:160-187 | a merged configuration has a size unless `flash_only`, an offset unless `build_only`, and both tool paths |
| Configuration.MergeChangesOnlyResolvedFields | src/config_loader.py:127-187 | after the initial dictionary is built, only the partition fields and the tool paths change |
| Configuration.MergeFieldPrecedence | src/config_loader.py:127-141 | the pass-through fields are copied; page and block size fall back to 256 and 4096 when unset or zero; port, baud and chip follow the `or` chains of command line, then manifest, then default |
| Configuration.MergePartitionFill | src/config_loader.py:144-157 | an explicit partition field, even `""`, is kept; an unset one takes the resolver's answer for the manifest's `PartitionScheme` or `default` |
| Configuration.MergeToolFill | src/config_loader.py:176-185 | an explicit tool path is kept; an unset one becomes the resolver's truthy answer, else `mkspiffs` or `esptool.py` |
| Configuration.MergeIgnoresResolverWhenExplicit | src/config_loader.py:146-185 | with both partition fields and both tool paths given, the filesystem and home make no difference and the merge succeeds |
| Configuration.MergeWithCommandLineDefaults | src/config_loader.py:127-141 | under the command-line parser's defaults, baud is `460800` and chip is `esp32` whatever the manifest says |
| Configuration.MergeBaudFromManifestExample | src/config_loader.py:134 | with no `--baud`, a manifest with `UploadSpeed=115200,PartitionScheme=huge_app` gives baud `115200` |
| Configuration.MergeChipFromBoardExample | src/config_loader.py:119-135 | with no `--chip`, board `esp32:esp32:esp32wroverkit` gives chip `esp32` |
| Configuration.CommandLineDefaults | src/config_loader.py:53-96 | what the command-line parser yields with no options: `data`, baud `460800`, chip `esp32`, image `spiffs.bin`, every other option unset (a definition; no contract) |
| Configuration.LookedUpPartition | src/config_loader.py:144-153 | the resolver's answer for the manifest's partition scheme (a definition; no contract) |
| Configuration.ResolvedSize | src/config_loader.py:131 | the partition size after the fill-in: the command line's value, even `""`, else the resolver's (lines 146-157) (a definition; no contract) |
| Configuration.ResolvedOffset | src/config_loader.py:132 | the partition offset after the fill-in: the command line's value, even `""`, else the resolver's (lines 146-157) (a definition; no contract) |
| Configuration.ConfigLoader.constructor | src/config_loader.py:13-15 | a loader owns a resolver over the given filesystem, whose home was found on creation |
| Configuration.ConfigLoader.ParseConfiguration | src/config_loader.py:107-114 | the item loop builds exactly the parameters `ParamsOf` specifies for the comma-split string |
| Configuration.ConfigLoader.BuildInitialConfig | src/config_loader.py:118-144 | the chip derivation and dictionary literal give the initial configuration and the partition scheme |
| Configuration.ConfigLoader.CompletePartition | src/config_loader.py:146-157 | the resolver is asked once when a partition field is unset, and never otherwise; only unset fields are filled |
| Configuration.ConfigLoader.CompleteTools | src/config_loader.py:176-185 | the resolver is asked once when a tool path is unset, and never otherwise; only unset paths are filled |
| Configuration.ConfigLoader.MergeConfig | src/config_loader.py:101-187 | the merge returns or raises what `Merge` specifies. It asks for partition information once exactly when a partition field is not given on the command line. It asks for tools once exactly when validation passed and a tool path is not given. |

## Left out

- `ConfigLoader.load_arduino_json` (src/config_loader.py:17-39) is file I/O and JSON
  parsing. The merge receives its result as a `Manifest` value, which is empty when the
  file is absent or malformed. Only the `board`, `configuration` and `port` keys are read.
- `ConfigLoader.parse_args` (src/config_loader.py:41-99) is argparse plumbing. Its
  defaults are recorded in `Configuration.CommandLineDefaults`. The command-line record
  keeps every option optional, so that the merge's fallback chains are exercised.
- Manifest: `board`, `configuration` and `port` are strings or absent. A non-string
  `board` (`null`, a number) makes `json_config["board"].split(':')` raise outside any
  `try` (src/config_loader.py:121), so `merge_config` fails with an error that is not a
  `ConfigurationError`. A non-string `port` is passed through by
  `json_config.get("port")` (src/config_loader.py:133). Neither case, nor the crash, is modelled.
- The `except Exception` around a `configuration` value that is not a string
  (src/config_loader.py:115-116) is not modelled. The configuration is taken to be a string.
- `print` warnings do not affect results and are not modelled.
- `self.config` (src/config_loader.py:14) is never read by the merge and is not modelled.
- `os.path.expanduser("~")` is replaced by a `userHome` parameter. `os.path.exists`,
  `isdir`, `listdir` and `open` become queries on the `FileSystem` value. `os.path.join`
  follows POSIX rules; the Windows variant is not modelled.
- Os.FileSystem: names are strings of Dafny `char`, which cannot hold lone surrogates. On
  POSIX, `os.listdir` returns undecodable file-name bytes as U+DC80-U+DCFF. Such entries, and
  where they fall in the order `MaxLex` uses, are not represented.
- A file whose reading fails part-way is given by the lines read before the failure. This
  matches the code: a SPIFFS row met before the failure is returned, otherwise `(None, None)`.
  The read error itself is not modelled.
- Resolution.SystemResolver.ResolvePartitionInfo: `versions.sort(reverse=True)` sorts a
  list in place. The model takes its first element as the greatest element `MaxLex`, and
  proves that element is the maximum. The reordered list itself is not modelled, because
  only its head is used.
- Configuration.ConfigLoader.MergeConfig: the number of resolver calls is a ghost counter,
  because the resolver has no observable state.
- Integers for page and block size are unbounded; the code does no arithmetic on them.
  Sizes and offsets stay opaque strings, as in the code.
- src/flasher.py, src/spiffs_builder.py and src/main.py are not part of this model. They are
  subprocess wrappers and command dispatch. That includes the builder reading `out_file`
  (src/spiffs_builder.py:16) where the merge writes `image_file`.
