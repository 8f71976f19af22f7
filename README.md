# boost and openssl tasks of mob, modelled in Dafny

mob builds Mod Organizer's dependencies. Each dependency is a task with the
same lifecycle hooks: clean, fetch, build and install. This project models
two of those tasks:

- **boost**:
  - its version grammar `major.minor[.patch[-rest]]` and the renderings derived from it;
  - the source and library paths, the download URLs, the Python DLL name and the `user-config-64.jam` text;
  - the clean request (redownload / reextract / reconfigure / rebuild, and the prebuilt bit);
  - fetching;
  - the build from source (bootstrap bypass, four b2 builds, the Python DLL copy) and the prebuilt install.
- **openssl**:
  - its version grammar `major[.minor[.patch[letters]]]`, the untagged version and the `major_minor` form;
  - the two output library names, paths and the source URL;
  - the rebuild clean and fetching;
  - perl Configure (bypassed when a makefile exists);
  - the `install_engines` retry policy: up to three allowed-to-fail jom runs, then one single-job run;
  - the copies of applink.c, the DLLs and the PDBs.

Side effects are not carried out. Each lifecycle step returns an `Outcome`:
the trace of `Action` values it performed, in order, and whether it ended
normally or with a fatal `bail_out`.

Inputs come in as parameters:
- configuration values are fields of a `Config`;
- which paths exist is a set `present`;
- jom's exit codes are an oracle function from the attempt number to the code.

The effect of the clean steps on the disk has its own model, `Disk`. In it, a
world is the set of existing paths plus the cached downloads. With that
model we prove three things about cleaning:
- it never fails (every delete is optional);
- it is idempotent;
- it removes exactly what it targets.

Modules:
- `Common` (common.dfy): paths, results, architectures, actions;
- `Text` (text.dfy): character classes, the digit scan, `replace_all`;
- `Disk` (disk.dfy): what clean steps do to a world;
- `Boost` (boost.dfy) and `OpenSsl` (openssl.dfy): the tasks.

The version parsers are hand-written, one stage per optional group of each
regular expression. Each comes with a rendering function, and two lemmas
show the parser accepts exactly the renderings of well-formed versions:
- `ParseRender` proves parse∘render is the identity;
- the parser's own contract proves render∘parse is the identity.

A successful openssl `std::smatch` always has five entries, whichever groups
took part. So `OpenSsl.ParseVersion` returns five strings: the whole match, then
the four groups, with "" for a group that did not take part.

Boost's methods take the parsed version as an argument, called `parsed`. They
require `ParsedFrom(parsed, cfg.version)`, and `Boost.ParsedFromExactly`
proves that this pins `parsed` to be exactly `ParseVersion(cfg.version)`. So
each method sees the same value the source computes each time it calls
`parsed_version`.

## Model

| member | source | states |
|---|---|---|
| Text.DigitPrefix | src/tasks/boost.cpp:391-394 | the greedy `\d` scan: stops at the first non-digit, and everything before that is a digit |
| Text.DigitPrefixOfSplit | src/tasks/boost.cpp:391-394 | a digit run followed by a non-digit is scanned to exactly its length |
| Text.ReplaceAll | src/tasks/boost.cpp:48-51 | `replace_all` with a one-character pattern: after replacing, the pattern character is gone when the replacement does not contain it; nothing changes when it does not occur; a one-character replacement keeps the length |
| Text.ReplaceAllAppend | src/tasks/boost.cpp:50 | replacing distributes over concatenation |
| Text.ReplaceAllOne | src/tasks/boost.cpp:50 | a single character is replaced exactly when it is the pattern |
| Text.ReplaceAllAt | src/tasks/boost.cpp:356 | a one-character replacement changes each position independently and keeps every other character in place |
| Disk.Apply | src/tasks/boost.cpp:199-224 | one delete or download clean: a non-optional delete of a missing path fails; a directory delete removes everything below the directory; a file delete removes the one path; a download clean forgets that archive |
| Disk.BestEffortAppend | src/tasks/boost.cpp:184-226 | clean traces made only of optional deletes and download cleans stay so when concatenated |
| Disk.KeepsAppend | src/tasks/boost.cpp:206-226 | two traces that each spare a path spare it together |
| Disk.DeletesBelowKeep | src/tasks/boost.cpp:212-224 | deletes of paths strictly below a directory never erase the directory itself |
| Disk.RunBestEffort | src/tasks/boost.cpp:199-224 | a trace of optional deletes and download cleans never fails, and its effect is the set of paths and downloads that some step erases or forgets, whatever the order |
| Disk.Without | src/tasks/boost.cpp:199-224 | defines the world left once every path and download that some step of the trace erases or forgets is taken away |
| Disk.Run | src/tasks/boost.cpp:182-227 | defines running the clean steps in order, stopping with the error of the first step that fails |
| Disk.CleanIsIdempotent | src/tasks/boost.cpp:182-227 | running the same best-effort clean twice ends where running it once did |
| Disk.CleanKeeps | src/tasks/boost.cpp:206-226 | a path no step erases survives the clean |
| Disk.CleanErases | src/tasks/boost.cpp:195-203 | a path some step erases no longer exists after the clean |
| Boost.MatchPatch | src/tasks/boost.cpp:394-397 | the `\d+(?:-(.+))?` stage: an accepted string is a number, optionally followed by '-' and a non-empty rest with no line break |
| Boost.MatchMinor | src/tasks/boost.cpp:392-398 | the `\d+(?:\.…)?` stage: an accepted string is a number followed, optionally, by '.' and an accepted patch stage |
| Boost.ParseVersion | src/tasks/boost.cpp:386-408 | `parsed_version`: an accepted version is well formed and renders back to the input; a refused one gives the "bad boost version '…'" error |
| Boost.MatchPatchComplete | src/tasks/boost.cpp:394-397 | the patch stage accepts every number with an optional tag and returns its parts |
| Boost.MatchMinorComplete | src/tasks/boost.cpp:392-398 | the minor stage accepts every minor with an optional patch stage and returns its parts |
| Boost.ParseRender | src/tasks/boost.cpp:390-407 | every well-formed version is accepted, and parsing returns its groups |
| Boost.ParseAcceptsExactly | src/tasks/boost.cpp:390-405 | a string is accepted if and only if it is the rendering of a well-formed version |
| Boost.RestNeedsPatch | src/tasks/boost.cpp:393-398 | a tag without a patch number (`1.72-x`) is refused |
| Boost.ParsedFromExactly | src/tasks/boost.cpp:386-408 | the parser's answer satisfies `ParsedFrom`, and it is the only answer that does |
| Boost.ExampleVersion | src/tasks/boost.cpp:388-389 | "1.72.0-b1-rc1" parses to 1, 72, 0 and b1-rc1 |
| Boost.NoSeparatorInDigits | src/tasks/boost.cpp:391-394 | a digit run contains no separator character |
| Boost.NoPatchUnderscores | src/tasks/boost.cpp:27-33 | defines `boost_version_no_patch_underscores`: major "_" minor |
| Boost.NoTags | src/tasks/boost.cpp:35-46 | defines `boost_version_no_tags`: major "." minor, then "." patch when there is a patch number |
| Boost.NoTagsUnderscores | src/tasks/boost.cpp:48-51 | defines `boost_version_no_tags_underscores`: the untagged version with every '.' replaced by '_' |
| Boost.AllUnderscores | src/tasks/boost.cpp:53-67 | defines `boost_version_all_underscores`: "boost_" major "_" minor, then "_" patch when present, then "_" and the tag with '-' made '_' when present |
| Boost.ReplaceSeparator | src/tasks/boost.cpp:50 | replacing a separator that occurs only between two parts replaces just that separator |
| Boost.NoTagsDropsTag | src/tasks/boost.cpp:35-46 | `boost_version_no_tags` is the version with its tag cut off, and never contains '-' |
| Boost.NoTagsEndsInDigit | src/tasks/boost.cpp:35-46 | the untagged version ends with the last digit of its minor or patch number, never with a dot |
| Boost.NoTagsUnderscoresForm | src/tasks/boost.cpp:35-51 | the untagged version is the numbers joined by '.'; `boost_version_no_tags_underscores` is the same numbers joined by '_', with no '.' and no '-' |
| Boost.AllUnderscoresForm | src/tasks/boost.cpp:53-67 | `boost_version_all_underscores` is "boost_" then the numbers joined by '_', then '_' and the tag with every '-' made '_' when there is a tag; it starts with "boost_" and holds no '-' |
| Boost.SourcePathForm | src/tasks/boost.cpp:158-164 | the source tree is build / ("boost_" + the numbers joined by '_'); for an untagged version that name plus ".zip" is the source archive's name |
| Boost.NoPatchBeginsDirName | src/tasks/boost.cpp:27-33 | "boost_" + `boost_version_no_patch_underscores` is a prefix of the source tree's name |
| Boost.PrebuiltUrlForm | src/tasks/boost.cpp:96-100 | the prebuilt archive is "boost_prebuilt_", then the raw version with every '.' made '_' and every other character kept (so no '.' is left), then ".7z" |
| Boost.PrebuiltMatchesSourceDir | src/tasks/boost.cpp:96-100 | for an untagged version, the prebuilt archive's name carries the same '_'-joined numbers as the source tree |
| Boost.SourceUrlForm | src/tasks/boost.cpp:102-108 | the source URL is the release server, then the untagged version, then "/source/" and the archive name |
| Boost.SourceDownloadFilename | src/tasks/boost.cpp:86-89 | defines `source_download_filename`: `boost_version_all_underscores` + ".zip" |
| Boost.SourceDirName | src/tasks/boost.cpp:163 | defines the extracted tree's name: "boost_" + `boost_version_no_tags_underscores` |
| Boost.SourcePath | src/tasks/boost.cpp:158-164 | defines `boost::source_path`: build / ("boost_" + `boost_version_no_tags_underscores`) |
| Boost.ConfigJamFile | src/tasks/boost.cpp:91-94 | defines `config_jam_file`: source_path / "user-config-64.jam" |
| Boost.B2Exe | src/tasks/boost.cpp:110-113 | defines `b2_exe`: source_path / "b2.exe" |
| Boost.PrebuiltUrl | src/tasks/boost.cpp:96-100 | defines `prebuilt_url`: the archive "boost_prebuilt_" + the raw version with '.' made '_' + ".7z" |
| Boost.SourceUrl | src/tasks/boost.cpp:102-108 | defines `source_url`: the release server, the untagged version, "/source/", the source archive's name |
| Boost.FetchUrl | src/tasks/boost.cpp:184-192 | defines the archive fetching downloads and redownload cleans: the prebuilt one when prebuilt, else the source one |
| Boost.AddressModel | src/tasks/boost.cpp:69-83 | x86 gives "32"; x64 and dont_care give "64"; any other architecture is the fatal "boost: bad arch" |
| Boost.RootLibPath | src/tasks/boost.cpp:172-180 | defined exactly for the supported architectures |
| Boost.RootLibPathForm | src/tasks/boost.cpp:172-180 | the library root is source_path / ("lib" + model + "-msvc-" + version_vs), directly in the tree; the x86 and x64 roots differ; dont_care is x64 |
| Boost.LibPath | src/tasks/boost.cpp:166-170 | defined exactly for the supported architectures, and then the architecture's library root / "lib" |
| Boost.PythonVersionForms | src/tasks/boost.cpp:11-25 | the DLL form of the Python version is the jam form with its dot removed |
| Boost.PythonVersionForDll | src/tasks/boost.cpp:11-17 | defines `python_version_for_dll`: Python's major then minor, "38" |
| Boost.PythonVersionForJam | src/tasks/boost.cpp:19-25 | defines `python_version_for_jam`: Python's major "." minor, "3.8" |
| Boost.PythonDll | src/tasks/boost.cpp:115-133 | `python_dll` built piece by piece is "boost_python…-vc…-mt-x64-…_….dll": it starts with "boost_python" and ends with ".dll" |
| Boost.PythonDllNameVs | src/tasks/boost.cpp:124-125 | the name's Visual Studio part, after "boost_python", the Python version and "-vc", is `version_vs` with its dots removed, and holds no '.' |
| Boost.PythonDllName | src/tasks/boost.cpp:115-133 | defines the name `python_dll` builds: "boost_python", the DLL form of the Python version, "-vc", `version_vs` without dots, "-mt-x64-", `boost_version_no_patch_underscores`, ".dll" |
| Boost.ForwardSlashesForm | src/tasks/boost.cpp:352-357 | the forward-slash form has no backslash and the same length, and changes each backslash to '/' and nothing else |
| Boost.ForwardSlashes | src/tasks/boost.cpp:352-357 | defines the `forward_slashes` lambda: every backslash replaced by '/' |
| Boost.ConfigJamText | src/tasks/boost.cpp:359-369 | defines the jam text: "using python", then the jam Python version, the three forward-slash paths, `<address-model>64` and `<define>BOOST_ALL_NO_LIB=1`, each on a "  : " line, then "  ;" |
| Boost.WriteConfigJam | src/tasks/boost.cpp:350-384 | the jam file written is user-config-64.jam in the source tree, holding the `using python` block with the jam version, the three forward-slash paths, the address model and the define |
| Boost.InnerDeletesInTree | src/tasks/boost.cpp:209-225 | the reconfigure and rebuild deletes all target paths strictly inside the source tree, so neither erases the tree |
| Boost.ReconfigureDeletes | src/tasks/boost.cpp:209-218 | defines reconfigure's deletes: bin.v2, b2.exe, user-config-64.jam, project-config.jam, all optional |
| Boost.RebuildDeletes | src/tasks/boost.cpp:220-225 | defines rebuild's deletes: the x86 then the x64 library root, optional |
| Boost.CleanSteps | src/tasks/boost.cpp:182-227 | defines the steps of a clean request: the download clean on redownload, then either the tree's delete on reextract, nothing more when prebuilt, or reconfigure's and rebuild's deletes |
| Boost.CleanStepsBestEffort | src/tasks/boost.cpp:182-227 | every step of any clean is an optional delete or a download clean |
| Boost.DoClean | src/tasks/boost.cpp:182-227 | `do_clean` performs the clean steps of its flags; a malformed version is fatal exactly when a flag needs the version (reextract, or any flag when not prebuilt), after the prebuilt download clean; the trace is always best-effort |
| Boost.CleanFlagsAlone | src/tasks/boost.cpp:182-227 | no flag: nothing; redownload alone: one download clean of the fetched archive; reextract with reconfigure and rebuild: one optional delete of the tree; reconfigure alone: its four deletes, or nothing when prebuilt |
| Boost.InnerFlagsIgnored | src/tasks/boost.cpp:195-207 | under reextract, or when prebuilt, reconfigure and rebuild make no difference; without reextract a prebuilt clean only cleans downloads |
| Boost.CleanTwice | src/tasks/boost.cpp:182-227 | any clean never fails, and cleaning twice ends where cleaning once did |
| Boost.CleanKeepsTree | src/tasks/boost.cpp:206-226 | a clean without reextract keeps the source tree |
| Boost.ReextractErasesTree | src/tasks/boost.cpp:195-203 | after reextract nothing under the source tree exists |
| Boost.ReconfigureUnbuiltTree | src/tasks/boost.cpp:209-218 | reconfiguring a tree that has neither bin.v2 nor b2.exe does not fail and keeps the tree |
| Boost.DoFetch | src/tasks/boost.cpp:229-268 | downloads the prebuilt or the source archive and extracts it into the source tree; a malformed version is fatal, after the prebuilt download, whose name needs no parsing |
| Boost.RedownloadForgetsFetched | src/tasks/boost.cpp:184-192 | redownload forgets exactly the archive fetching downloads |
| Boost.WithArgs | src/tasks/boost.cpp:345 | each component becomes "--with-" + component, in order |
| Boost.B2Run | src/tasks/boost.cpp:330-348 | a b2 run exists exactly for the supported architectures |
| Boost.B2RunForm | src/tasks/boost.cpp:330-348 | `do_b2` runs the tree's b2.exe in the tree, in the architecture's environment, with address-model, link, runtime-link and toolset "msvc-" + the toolset, the jam file, and stagedir and libdir set to the architecture's library root |
| Boost.B2RunComponents | src/tasks/boost.cpp:345 | after the seven fixed arguments, each component is asked for with "--with-" + component, in order, and nothing follows |
| Boost.B2FixedArgs | src/tasks/boost.cpp:338-344 | defines the seven arguments every b2 run starts with: address-model, link, runtime-link, toolset, user-config, stagedir, libdir |
| Boost.Bootstrap | src/tasks/boost.cpp:270-282 | bootstrap writes the jam file, then runs bootstrap.bat in the tree, logging to bootstrap.log |
| Boost.BootstrapRun | src/tasks/boost.cpp:276-281 | defines the bootstrap.bat run: in the source tree, with bootstrap.log there as its error log |
| Boost.CopyBoostPythonDll | src/tasks/boost.cpp:323-328 | copies the Python DLL from the x64 lib path to the install bin directory |
| Boost.PythonDllCopy | src/tasks/boost.cpp:323-328 | defines the copy of lib_path(x64) / `python_dll` to install_bin |
| Boost.BuildAndInstallFromSource | src/tasks/boost.cpp:284-321 | the build from source performs exactly `SourceBuildSteps`, and a malformed version fails before any step |
| Boost.SourceBuildOrder | src/tasks/boost.cpp:284-321 | after bootstrap's steps come the four b2 builds in their fixed order, then the Python DLL copy, last |
| Boost.BootstrapWhenB2Missing | src/tasks/boost.cpp:286-295 | when b2.exe is absent, the build writes the jam file, then runs bootstrap.bat, then the five other steps |
| Boost.NoBootstrapWhenB2Present | src/tasks/boost.cpp:286-291 | when b2.exe exists, the build is the four b2 runs and the copy, with no bootstrap |
| Boost.VariantRunIsB2 | src/tasks/boost.cpp:300-318 | each of the four builds is a b2 run (none has an unsupported architecture) |
| Boost.VariantRunsShareTree | src/tasks/boost.cpp:297-318 | every one of the four builds uses the bootstrapped b2.exe and the jam file; only the second build is x86 |
| Boost.X86BuildStagesApart | src/tasks/boost.cpp:305-308 | the x86 build stages into the x86 library root, apart from all three x64 builds |
| Boost.Variant | src/tasks/boost.cpp:297-318 | defines the four builds, in order: their components, link, runtime link and architecture |
| Boost.VariantRun | src/tasks/boost.cpp:300-318 | defines the b2 run of one of the four builds |
| Boost.BootSteps | src/tasks/boost.cpp:286-295 | defines bootstrap's steps: none when b2.exe exists, else the jam file write and the bootstrap.bat run |
| Boost.SourceBuildSteps | src/tasks/boost.cpp:284-321 | defines the build from source: bootstrap's steps, the four b2 runs in order, the Python library copy |
| Boost.BuildAndInstallPrebuilt | src/tasks/boost.cpp:256-259 | the prebuilt install is only the Python DLL copy |
| Boost.DoBuildAndInstall | src/tasks/boost.cpp:237-243 | fatal exactly on a malformed version, with nothing done; otherwise the prebuilt copy or the full build from source |
| OpenSsl.PathsForm | src/tasks/openssl.cpp:22-30 | source_path is build / ("openssl-" + version); build and include are distinct directories directly in it; the URL is the server, then the tree's name and ".tar.gz" |
| OpenSsl.SourceDirName | src/tasks/openssl.cpp:22-25 | defines the tree's name: "openssl-" + version |
| OpenSsl.SourcePath | src/tasks/openssl.cpp:22-25 | defines `openssl::source_path`: build / ("openssl-" + version), with no parse |
| OpenSsl.BuildPath | src/tasks/openssl.cpp:27-30 | defines `openssl::build_path`: source_path / "build" |
| OpenSsl.IncludePath | src/tasks/openssl.cpp:133-136 | defines `openssl::include_path`: source_path / "include" |
| OpenSsl.SourceUrl | src/tasks/openssl.cpp:138-143 | defines `openssl::source_url`: "https://www.openssl.org/source/openssl-" + version + ".tar.gz" |
| OpenSsl.MatchPatch | src/tasks/openssl.cpp:158 | the `(\d+)([a-zA-Z]+)?` stage: a number, then an optional run of letters |
| OpenSsl.MatchMinor | src/tasks/openssl.cpp:158 | the `(\d+)(?:\.…)?` stage: a number, then optionally '.' and an accepted patch stage; no letters without a patch |
| OpenSsl.ParseGroups | src/tasks/openssl.cpp:154-165 | accepted groups are well formed and render back to the input; a refusal is "bad openssl version '…'" |
| OpenSsl.ParseVersion | src/tasks/openssl.cpp:154-165 | the match has five entries, the first being the whole version; a refusal is "bad openssl version '…'" |
| OpenSsl.MatchPatchComplete | src/tasks/openssl.cpp:158 | the patch stage accepts every number with optional letters, and returns its parts |
| OpenSsl.MatchMinorComplete | src/tasks/openssl.cpp:158 | the minor stage accepts every minor with an optional patch stage, and returns its parts |
| OpenSsl.ParseRender | src/tasks/openssl.cpp:154-165 | every well-formed version is accepted, and parsing returns its groups |
| OpenSsl.ParseRenderMinor | src/tasks/openssl.cpp:154-165 | the same, for versions with a minor number |
| OpenSsl.ParseAcceptsExactly | src/tasks/openssl.cpp:154-165 | a string is accepted if and only if it renders a well-formed version |
| OpenSsl.LettersNeedPatch | src/tasks/openssl.cpp:158 | letters without a patch number (`1.1d`) are refused |
| OpenSsl.ExampleVersion | src/tasks/openssl.cpp:156-157 | "1.1.1d" gives the match 1.1.1d, 1, 1, 1, d |
| OpenSsl.VersionNoTags | src/tasks/openssl.cpp:167-184 | `version_no_tags` accumulates groups 1 to 3 of the five-entry match, a '.' before each once something is accumulated; a malformed version is fatal |
| OpenSsl.Accumulated | src/tasks/openssl.cpp:174-181 | defines what the loop accumulates over groups 1 to count-1: each group, preceded by '.' once something is accumulated, even when the group is empty |
| OpenSsl.VersionNoTagsAsWritten | src/tasks/openssl.cpp:172-181 | for every accepted version the result is major "." minor "." patch, with a '.' even before a group that did not take part |
| OpenSsl.NoTagsIntendedDropsLetters | src/tasks/openssl.cpp:171 | the version is the untagged version followed by its letters, and the untagged version contains no letter |
| OpenSsl.NoTagsIntended | src/tasks/openssl.cpp:171 | defines the untagged version the comment describes: major, then "." minor and "." patch for the groups that took part |
| OpenSsl.VersionNoTagsIntendedIff | src/tasks/openssl.cpp:167-184 | the loop gives the untagged version if and only if the version has a patch number |
| OpenSsl.VersionNoTagsOfMajorOnly | src/tasks/openssl.cpp:167-184 | "1" gives "1.." where the untagged version is "1" |
| OpenSsl.JoinTakenIntended | src/tasks/openssl.cpp:167-184 | joining only the groups that took part, with a '.' between them, gives the untagged version `major[.minor[.patch]]` |
| OpenSsl.JoinTaken | src/tasks/openssl.cpp:174-181 | defines the corrected loop's result: the non-empty groups joined by '.' |
| OpenSsl.JoinTakenDropsLetters | src/tasks/openssl.cpp:167-184 | the version is the joined groups followed by its letter tag, and the joined groups hold no letter |
| OpenSsl.MatchHoldsGroups | src/tasks/openssl.cpp:154-165 | an accepted version's match is the whole version followed by the major, minor, patch and letter groups |
| OpenSsl.TakenOfMatch | src/tasks/openssl.cpp:167-184 | for any accepted version, the groups 1 to 3 of its match that took part, joined, are the version with its letter tag cut off, and hold no letter |
| OpenSsl.VersionNoTagsCorrected | src/tasks/openssl.cpp:167-184 | `version_no_tags` as intended: a malformed version is fatal; otherwise the result followed by the letter tag is the version, and the result holds no letter |
| OpenSsl.NoMinorUnderscoresForm | src/tasks/openssl.cpp:186-194 | `version_no_minor_underscores` is major "_" minor for every accepted version, so "1" gives "1_" |
| OpenSsl.NoMinorUnderscores | src/tasks/openssl.cpp:186-194 | defines `version_no_minor_underscores` on a five-entry match: group 1 "_" group 2 |
| OpenSsl.OutputNames | src/tasks/openssl.cpp:145-152 | fails exactly when the version is malformed |
| OpenSsl.OutputNamesForm | src/tasks/openssl.cpp:145-152 | exactly two names: "libcrypto-" + major_minor + "-x64" then "libssl-" + major_minor + "-x64" |
| OpenSsl.CleanForRebuildEffect | src/tasks/openssl.cpp:32-39 | the rebuild clean never fails, removes everything under the source tree, and nothing else |
| OpenSsl.CleanForRebuild | src/tasks/openssl.cpp:32-39 | defines `do_clean_for_rebuild`: one optional delete of the whole source tree |
| OpenSsl.DoFetch | src/tasks/openssl.cpp:41-48 | downloads the source URL, then extracts it into the source tree |
| OpenSsl.ConfigureRun | src/tasks/openssl.cpp:61-73 | defines `configure`: perl with Configure, --openssldir= and --prefix= build_path, -FS, -MP1, VC-WIN64A, in the source tree, in the x64 environment |
| OpenSsl.JomRun | src/tasks/openssl.cpp:81-84 | defines one jom run of the install_engines target in the source tree, in the given mode |
| OpenSsl.Repeat | src/tasks/openssl.cpp:79-92 | n identical runs |
| OpenSsl.FirstSuccess | src/tasks/openssl.cpp:79-92 | the first attempt below max_tries with exit code 0, or max_tries: every earlier attempt failed |
| OpenSsl.EngineRuns | src/tasks/openssl.cpp:75-102 | defines the jom runs `install_engines` makes for given exit codes: allowed-to-fail runs up to the first success, else three and then one single-job run |
| OpenSsl.InstallEngines | src/tasks/openssl.cpp:75-102 | the loop performs exactly `EngineRuns`, and fails exactly when all three allowed-to-fail runs and the single-job run fail |
| OpenSsl.EnginePolicy | src/tasks/openssl.cpp:75-102 | 1 to 4 runs; every run before the last failed and was allowed to fail; an allowed-to-fail last run succeeded; a single-job run happens exactly when all three attempts failed, and is then the fourth and last run |
| OpenSsl.TwoFailuresThenSuccess | src/tasks/openssl.cpp:79-87 | two failures then a success: three allowed-to-fail runs and no single-job run |
| OpenSsl.CopiesTo | src/tasks/openssl.cpp:115-131 | one copy of build_path/bin/<name><ext> to the directory per output name, in order |
| OpenSsl.BinFile | src/tasks/openssl.cpp:118-120 | defines build_path / "bin" / name |
| OpenSsl.CopyDllsTo | src/tasks/openssl.cpp:115-122 | the loop copies the .dll of every output name, in order |
| OpenSsl.CopyPdbsTo | src/tasks/openssl.cpp:124-131 | the loop copies the .pdb of every output name, in order |
| OpenSsl.CopyFiles | src/tasks/openssl.cpp:104-113 | applink.c to include_path, the DLLs to install_bin, then to install_dlls, then the PDBs to install_pdbs; a malformed version is fatal after the applink.c copy |
| OpenSsl.CopyStepsForm | src/tasks/openssl.cpp:104-131 | with two output names the copies are the seven listed, in order |
| OpenSsl.ApplinkCopy | src/tasks/openssl.cpp:106-108 | defines the copy of source_path / "ms" / "applink.c" to include_path |
| OpenSsl.CopySteps | src/tasks/openssl.cpp:104-113 | defines the copies of `copy_files` once the names are known: applink.c, the DLLs to install_bin, the DLLs to install_dlls, the PDBs to install_pdbs |
| OpenSsl.DoBuildAndInstall | src/tasks/openssl.cpp:50-59 | configure unless the makefile exists, then install_engines, then copy_files; a failed single-job run is fatal before any copy |
| OpenSsl.ConfigureIffNoMakefile | src/tasks/openssl.cpp:50-73 | the perl Configure run appears in the trace if and only if source_path/makefile is absent |
| OpenSsl.Makefile | src/tasks/openssl.cpp:52 | defines source_path / "makefile", whose presence bypasses configure |

## Left out

- Concurrency: tasks run in parallel threads, can be interrupted, and share a global context. None of that is modelled. Each hook is modelled as one sequential step.
- Running external tools: the downloader, extractor, bootstrap.bat, b2, perl and jom become `Action` values in a trace.
  - Only jom's exit codes are modelled: `install_engines` is the only code here that reads one.
  - Every other tool is taken to succeed. What a failing tool does is decided in `run_tool`, which is not part of this model.
- OpenSsl.InstallEngines: a failing single-job jom run is modelled as `Fatal("jom failed")`, because the real failure text comes from code not part of this model.
- Configuration lookups (`conf()`, `versions::by_name`, `vs::toolset`, `tools::perl::binary`, `paths::*`, the Python task's parsed version and paths) are fields of `Config`. `fs::exists` is the set `present`.
- Logging and tracing (`cx().trace`, `cx().debug`, the logged jam lines) are left out. They have no effect on the trace.
- `copy_file_to_dir_if_better` compares file times and sizes. It is recorded as an unconditional `Copy`.
- The effect of download, extract, write, copy and the tool runs on the disk is not modelled. `Disk` covers only deletes and download cleans.
- `make_prebuilt_url`'s server address is left out. The prebuilt URL records only the archive name.
- `path_to_utf8` is left out: Python's paths are given as text.
- `env::vs(a)` is recorded as just its architecture.
- The regular-expression engine is replaced by hand-written parsers. Boost's `.` is taken as any character except '\n' and '\r'.
- `replace_all` lives in utility code that is not part of this model. It is modelled for a one-character pattern, as at every call site here.
- Arch: the values of the architecture enumeration other than x86, x64 and dont_care are collapsed into `Unsupported(code)`.
- Boost.DoClean, Boost.DoFetch, Boost.BuildAndInstallFromSource, Boost.BuildAndInstallPrebuilt and Boost.DoBuildAndInstall take the parsed version as a parameter, constrained by `ParsedFrom`, instead of calling `parsed_version` each time. The parse is deterministic, so every call would agree.
- OpenSsl.CopyDllsTo and OpenSsl.CopyPdbsTo take the output names as a parameter, instead of calling `output_names` themselves. `OpenSsl.CopyFiles` computes the names once. The repeated parses would agree, and only the first can fail.
- OpenSsl.NoMinorUnderscores: the source's `m.size() == 2` alternative cannot be taken, because every successful match has five entries, so it is not written. For the version "1" the model gives "1_", as the code does.
- `openssl::prebuilt` always answers false. No code of the openssl task consults it; only the task framework does, and that framework is not part of this model. So the model has no prebuilt switch for openssl.
- The `task.h` hook defaults and the `openssl` and `boost` constructors are not modelled.

## Findings

| source | as written | input that shows it | evidently intended | confidence | as-written member | corrected member |
|---|---|---|---|---|---|---|
| src/tasks/openssl.cpp:172-181 | `count` is `min(m.size(), 4)` and a successful `smatch` always has 5 entries, so the loop always appends groups 1 to 3, adding a '.' before a group that did not take part | "1" gives "1.." and "1.1" gives "1.1." | the untagged version `major[.minor[.patch]]`, joining only the groups that took part ("1", "1.1") | not executed | OpenSsl.VersionNoTagsOfMajorOnly | OpenSsl.VersionNoTagsCorrected |
