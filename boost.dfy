/**
 * The boost task: its version grammar and the names, paths and URLs derived
 * from it, the clean request, fetching, and building with bootstrap and b2.
 * Side effects are returned as traces of `Action` values.
 */
module Boost {
  import opened Common
  import opened Text
  import Disk

  // ---------------------------------------------------------------------
  // Configuration
  // ---------------------------------------------------------------------

  /** Python as boost sees it: its parsed version and three of its paths, as text. */
  datatype Python = Python(major: string, minor: string, exe: string, includeDir: string, buildDir: string)

  /**
   * The values boost reads from the configuration: the version string, the
   * Visual Studio version of the prebuilt libraries, whether the prebuilt
   * archive is used, the build and install directories, the toolset, Python.
   */
  datatype Config = Config(
    version: string,
    versionVs: string,
    prebuilt: bool,
    build: Path,
    installBin: Path,
    toolset: string,
    python: Python)

  // ---------------------------------------------------------------------
  // The version grammar `(\d+)\.(\d+)(?:\.(\d+)(?:-(.+))?)?`
  // ---------------------------------------------------------------------

  /** The four groups of the version pattern; a group that took no part is "". */
  datatype Version = Version(major: string, minor: string, patch: string, rest: string)

  /** The groups a successful match can produce. */
  predicate WellFormed(v: Version)
  {
    IsNumber(v.major) && IsNumber(v.minor) && (v.patch == "" || IsNumber(v.patch)) &&
    (v.rest != "" ==> v.patch != "") && NoLineBreak(v.rest)
  }

  /** The tag part of a version, with its leading '-'. */
  function TagOf(rest: string): string
  {
    if rest == "" then "" else "-" + rest
  }

  function Tag(v: Version): string
  {
    TagOf(v.rest)
  }

  /** What follows the second dot: `patch[-rest]`. */
  function PatchPart(patch: string, rest: string): string
  {
    patch + TagOf(rest)
  }

  /** What follows the first dot: `minor[.patch[-rest]]`. */
  function MinorPart(minor: string, patch: string, rest: string): string
  {
    minor + (if patch == "" then "" else "." + PatchPart(patch, rest))
  }

  /** How a version is written: `major.minor[.patch[-rest]]`. */
  function Render(v: Version): string
  {
    v.major + ("." + MinorPart(v.minor, v.patch, v.rest))
  }

  function BadVersion(s: string): string
  {
    "bad boost version '" + s + "'"
  }

  /** `\d+(?:-(.+))?` on what follows the second dot: the patch and the tag. */
  function MatchPatch(u: string): (r: Option<(string, string)>)
    ensures r.Some? ==> IsNumber(r.value.0) && NoLineBreak(r.value.1) && u == PatchPart(r.value.0, r.value.1)
  {
    var k := DigitPrefix(u);
    if k == 0 then None
    else if k == |u| then
      assert u[..k] == u;
      Some((u, ""))
    else if u[k] != '-' || k + 1 == |u| || !NoLineBreak(u[k + 1..]) then None
    else
      assert u == u[..k] + ("-" + u[k + 1..]);
      Some((u[..k], u[k + 1..]))
  }

  /** `\d+(?:\.(\d+)(?:-(.+))?)?` on what follows the first dot. */
  function MatchMinor(t: string): (r: Option<(string, string, string)>)
    ensures r.Some? ==> IsNumber(r.value.0) && (r.value.1 == "" || IsNumber(r.value.1)) &&
                        (r.value.2 != "" ==> r.value.1 != "") && NoLineBreak(r.value.2) &&
                        t == MinorPart(r.value.0, r.value.1, r.value.2)
  {
    var j := DigitPrefix(t);
    if j == 0 then None
    else if j == |t| then
      assert t[..j] == t;
      Some((t, "", ""))
    else if t[j] != '.' then None
    else
      assert t == t[..j] + ("." + t[j + 1..]);
      match MatchPatch(t[j + 1..])
      case None => None
      case Some((patch, rest)) => Some((t[..j], patch, rest))
  }

  /** `boost::parsed_version`: a full match of the pattern, or a fatal error. */
  function ParseVersion(s: string): (r: Result<Version>)
    ensures r.Ok? ==> WellFormed(r.value) && Render(r.value) == s
    ensures r.Err? ==> r.message == BadVersion(s)
  {
    var i := DigitPrefix(s);
    if i == 0 || i == |s| || s[i] != '.' then Err(BadVersion(s))
    else
      assert s == s[..i] + ("." + s[i + 1..]);
      match MatchMinor(s[i + 1..])
      case None => Err(BadVersion(s))
      case Some((minor, patch, rest)) => Ok(Version(s[..i], minor, patch, rest))
  }

  /** The patch stage accepts every patch with an optional tag. */
  lemma MatchPatchComplete(patch: string, rest: string)
    requires IsNumber(patch) && NoLineBreak(rest)
    ensures MatchPatch(PatchPart(patch, rest)) == Some((patch, rest))
  {
    var u := PatchPart(patch, rest);
    DigitPrefixOfSplit(patch, TagOf(rest));
    assert u[..|patch|] == patch;
    if rest != "" {
      assert u[|patch| + 1..] == rest;
    }
  }

  /** The minor stage accepts every minor number with an optional patch stage. */
  lemma MatchMinorComplete(minor: string, patch: string, rest: string)
    requires IsNumber(minor) && (patch == "" || IsNumber(patch)) && (rest != "" ==> patch != "") && NoLineBreak(rest)
    ensures MatchMinor(MinorPart(minor, patch, rest)) == Some((minor, patch, rest))
  {
    var t := MinorPart(minor, patch, rest);
    if patch == "" {
      assert t == minor + "";
      DigitPrefixOfSplit(minor, "");
      assert t[..|minor|] == t;
    } else {
      var u := PatchPart(patch, rest);
      assert t == minor + ("." + u);
      DigitPrefixOfSplit(minor, "." + u);
      assert t[..|minor|] == minor;
      assert t[|minor| + 1..] == u;
      MatchPatchComplete(patch, rest);
      MinorOfSplit(t, |minor|, patch, rest);
    }
  }

  /** Proof helper: the minor stage splits `t` at the dot that ends its minor number. */
  lemma MinorOfSplit(t: string, j: nat, patch: string, rest: string)
    requires 0 < j < |t| && DigitPrefix(t) == j && t[j] == '.'
    requires MatchPatch(t[j + 1..]) == Some((patch, rest))
    ensures MatchMinor(t) == Some((t[..j], patch, rest))
  {
  }

  /** Every well-formed version is accepted, and parsing gives its groups back. */
  lemma ParseRender(v: Version)
    requires WellFormed(v)
    ensures ParseVersion(Render(v)) == Ok(v)
  {
    var t := MinorPart(v.minor, v.patch, v.rest);
    var s := Render(v);
    DigitPrefixOfSplit(v.major, "." + t);
    MatchMinorComplete(v.minor, v.patch, v.rest);
    assert s[..|v.major|] == v.major;
    assert s[|v.major| + 1..] == t;
    ParseOfSplit(s, |v.major|, v.minor, v.patch, v.rest);
  }

  /** Proof helper: the first stage splits `s` at the dot that ends its major number. */
  lemma ParseOfSplit(s: string, i: nat, minor: string, patch: string, rest: string)
    requires 0 < i < |s| && DigitPrefix(s) == i && s[i] == '.'
    requires MatchMinor(s[i + 1..]) == Some((minor, patch, rest))
    ensures ParseVersion(s) == Ok(Version(s[..i], minor, patch, rest))
  {
  }

  /** The accepted strings are exactly the renderings of well-formed versions. */
  lemma ParseAcceptsExactly(s: string)
    ensures ParseVersion(s).Ok? <==> exists v :: WellFormed(v) && Render(v) == s
  {
    if v :| WellFormed(v) && Render(v) == s {
      ParseRender(v);
    }
  }

  /** A tag needs a patch number: `major.minor-rest` is refused. */
  lemma RestNeedsPatch(major: string, minor: string, rest: string)
    requires IsNumber(major) && IsNumber(minor)
    ensures ParseVersion(major + ("." + (minor + ("-" + rest)))).Err?
  {
    var t := minor + ("-" + rest);
    var s := major + ("." + t);
    DigitPrefixOfSplit(major, "." + t);
    assert s[|major| + 1..] == t;
    DigitPrefixOfSplit(minor, "-" + rest);
  }

  /**
   * What `parsed_version` gives for `s`, stated without running the
   * parser: the groups of the one well-formed version written `s`, or the
   * error when there is none.
   */
  ghost predicate ParsedFrom(parsed: Result<Version>, s: string)
  {
    match parsed
    case Ok(v) => WellFormed(v) && Render(v) == s
    case Err(m) => m == BadVersion(s) && forall v :: WellFormed(v) ==> Render(v) != s
  }

  /** The parser's answer is the one `ParsedFrom` describes, and no other answer is. */
  lemma ParsedFromExactly(parsed: Result<Version>, s: string)
    ensures ParsedFrom(ParseVersion(s), s)
    ensures ParsedFrom(parsed, s) ==> parsed == ParseVersion(s)
  {
    if ParseVersion(s).Err? {
      forall v | WellFormed(v) ensures Render(v) != s {
        if Render(v) == s { ParseRender(v); }
      }
    }
    if ParsedFrom(parsed, s) && parsed.Ok? {
      ParseRender(parsed.value);
    }
  }

  /** The example of the source's comment. */
  lemma ExampleVersion()
    ensures ParseVersion("1.72.0-b1-rc1") == Ok(Version("1", "72", "0", "b1-rc1"))
  {
    var v := Version("1", "72", "0", "b1-rc1");
    assert Render(v) == "1.72.0-b1-rc1";
    ParseRender(v);
  }

  // ---------------------------------------------------------------------
  // Renderings of the version
  // ---------------------------------------------------------------------

  /** `boost_version_no_patch_underscores`: "1_72". */
  function NoPatchUnderscores(v: Version): string
  {
    v.major + ("_" + v.minor)
  }

  /** `boost_version_no_tags`: "1.72[.1]". */
  function NoTags(v: Version): string
  {
    var s := v.major + ("." + v.minor);
    if v.patch != "" then s + ("." + v.patch) else s
  }

  /** `boost_version_no_tags_underscores`: "1_72[_1]". */
  function NoTagsUnderscores(v: Version): string
  {
    ReplaceAll(NoTags(v), '.', "_")
  }

  /** `boost_version_all_underscores`: "boost_1_72[_0[_b1_rc1]]". */
  function AllUnderscores(v: Version): string
  {
    var s := "boost_" + (v.major + ("_" + v.minor));
    var s := if v.patch != "" then s + ("_" + v.patch) else s;
    if v.rest != "" then s + ("_" + ReplaceAll(v.rest, '-', "_")) else s
  }

  /** The numbers of a version, joined by `sep`: "1_72_0" for "_". */
  function Numbers(v: Version, sep: string): string
  {
    var s := v.major + (sep + v.minor);
    if v.patch == "" then s else s + (sep + v.patch)
  }

  /** A run of digits contains no separator. */
  lemma NoSeparatorInDigits(s: string, c: char)
    requires AllDigits(s)
    requires !IsDigit(c)
    ensures c !in s
  {
  }

  /** `a + sep + b` with `sep` replaced, when neither number holds the character replaced. */
  lemma ReplaceSeparator(a: string, b: string, sep: char, to: string)
    requires AllDigits(a) && AllDigits(b) && !IsDigit(sep)
    ensures ReplaceAll(a + ([sep] + b), sep, to) == a + (to + b)
  {
    NoSeparatorInDigits(a, sep);
    NoSeparatorInDigits(b, sep);
    ReplaceAllAppend(a, [sep] + b, sep, to);
    ReplaceAllAppend([sep], b, sep, to);
    ReplaceAllOne(sep, sep, to);
  }

  /** The untagged version ends with the last digit of its minor or patch number, never with a dot. */
  lemma NoTagsEndsInDigit(v: Version)
    requires WellFormed(v)
    ensures |NoTags(v)| > 0 && IsDigit(NoTags(v)[|NoTags(v)| - 1])
  {
    var s := v.major + ("." + v.minor);
    assert s[|s| - 1] == v.minor[|v.minor| - 1];
    if v.patch != "" {
      var t := s + ("." + v.patch);
      assert t[|t| - 1] == v.patch[|v.patch| - 1];
    }
  }

  /**
   * The untagged version is the version with its tag cut off, and holds
   * no '-'.
   */
  lemma NoTagsDropsTag(v: Version)
    requires WellFormed(v)
    ensures Render(v) == NoTags(v) + Tag(v)
    ensures '-' !in NoTags(v)
  {
    NoSeparatorInDigits(v.major, '-');
    NoSeparatorInDigits(v.minor, '-');
    NoSeparatorInDigits(v.patch, '-');
    var s := v.major + ("." + v.minor);
    if v.patch != "" {
      calc {
        Render(v);
        v.major + ("." + (v.minor + ("." + (v.patch + Tag(v)))));
        { AppendAssoc("." + v.minor, ".", v.patch + Tag(v));
          AppendAssoc(v.minor, ".", v.patch + Tag(v)); }
        v.major + (("." + v.minor) + ("." + (v.patch + Tag(v))));
        { AppendAssoc(v.major, "." + v.minor, "." + (v.patch + Tag(v))); }
        s + ("." + (v.patch + Tag(v)));
        { AppendAssoc(".", v.patch, Tag(v)); AppendAssoc(s, "." + v.patch, Tag(v)); }
        s + ("." + v.patch) + Tag(v);
      }
    } else {
      assert Render(v) == s;
    }
  }

  /** Replacing the dots of the untagged version replaces exactly the separators. */
  lemma NoTagsUnderscoresForm(v: Version)
    requires WellFormed(v)
    ensures NoTags(v) == Numbers(v, ".")
    ensures NoTagsUnderscores(v) == Numbers(v, "_")
    ensures '.' !in NoTagsUnderscores(v) && '-' !in NoTagsUnderscores(v)
  {
    NoSeparatorInDigits(v.major, '-');
    NoSeparatorInDigits(v.minor, '-');
    NoSeparatorInDigits(v.patch, '-');
    NoSeparatorInDigits(v.patch, '.');
    ReplaceSeparator(v.major, v.minor, '.', "_");
    if v.patch != "" {
      ReplaceAllAppend(v.major + ("." + v.minor), "." + v.patch, '.', "_");
      ReplaceSeparator("", v.patch, '.', "_");
    }
  }

  /**
   * The archive name is "boost_", the numbers joined by '_', then the tag
   * with every '-' made '_': it starts with "boost_" and holds no '-'.
   */
  lemma AllUnderscoresForm(v: Version)
    requires WellFormed(v)
    ensures AllUnderscores(v) == "boost_" + Numbers(v, "_") + (if v.rest == "" then "" else "_" + ReplaceAll(v.rest, '-', "_"))
    ensures AllUnderscores(v)[..6] == "boost_"
    ensures '-' !in AllUnderscores(v)
  {
    NoSeparatorInDigits(v.major, '-');
    NoSeparatorInDigits(v.minor, '-');
    NoSeparatorInDigits(v.patch, '-');
    if v.patch != "" {
      AppendAssoc("boost_", v.major + ("_" + v.minor), "_" + v.patch);
    }
  }

  // ---------------------------------------------------------------------
  // Names, paths and URLs
  // ---------------------------------------------------------------------

  /** `source_download_filename`: the archive name of the source release. */
  function SourceDownloadFilename(v: Version): string
  {
    AllUnderscores(v) + ".zip"
  }

  /** The directory name of the extracted tree: "boost_1_74_0". */
  function SourceDirName(v: Version): string
  {
    "boost_" + NoTagsUnderscores(v)
  }

  /** `boost::source_path`: build / "boost_1_74_0". */
  function SourcePath(cfg: Config, v: Version): Path
  {
    Join(cfg.build, SourceDirName(v))
  }

  /**
   * The source tree is named "boost_" and the numbers joined by '_'; for an
   * untagged version that is the source archive's name without ".zip".
   */
  lemma SourcePathForm(cfg: Config, v: Version)
    requires WellFormed(v)
    ensures SourcePath(cfg, v) == cfg.build + ["boost_" + Numbers(v, "_")]
    ensures v.rest == "" ==> SourceDirName(v) + ".zip" == SourceDownloadFilename(v)
  {
    NoTagsUnderscoresForm(v);
    AllUnderscoresForm(v);
  }

  /** The Python library's boost version, "1_72", is where the source tree's name starts after "boost_". */
  lemma NoPatchBeginsDirName(v: Version)
    requires WellFormed(v)
    ensures "boost_" + NoPatchUnderscores(v) <= SourceDirName(v)
  {
    NoTagsUnderscoresForm(v);
    var p := "boost_" + NoPatchUnderscores(v);
    if v.patch != "" {
      AppendAssoc("boost_", NoPatchUnderscores(v), "_" + v.patch);
    }
  }

  /** `config_jam_file` */
  function ConfigJamFile(cfg: Config, v: Version): Path
  {
    Join(SourcePath(cfg, v), "user-config-64.jam")
  }

  /** `b2_exe` */
  function B2Exe(cfg: Config, v: Version): Path
  {
    Join(SourcePath(cfg, v), "b2.exe")
  }

  /**
   * `prebuilt_url`: the prebuilt archive, named from the raw version string
   * with every '.' replaced by '_'; the version is not parsed here.
   */
  function PrebuiltUrl(cfg: Config): Url
  {
    PrebuiltArchive("boost_prebuilt_" + (ReplaceAll(cfg.version, '.', "_") + ".7z"))
  }

  /**
   * The prebuilt archive's name is "boost_prebuilt_", then the raw version with every '.' made '_' and every
   * other character kept, then ".7z"; so no '.' is left between the prefix and the extension.
   */
  lemma PrebuiltUrlForm(cfg: Config)
    ensures var f := PrebuiltUrl(cfg).file;
            |f| >= 18 && f[..15] == "boost_prebuilt_" && f[|f| - 3..] == ".7z" && '.' !in f[15..|f| - 3]
    ensures var f := PrebuiltUrl(cfg).file;
            |f| == |cfg.version| + 18 && f[15..|f| - 3] == ReplaceAll(cfg.version, '.', "_") &&
            forall i :: 0 <= i < |cfg.version| ==> f[15 + i] == if cfg.version[i] == '.' then '_' else cfg.version[i]
  {
    var u := ReplaceAll(cfg.version, '.', "_");
    var f := "boost_prebuilt_" + (u + ".7z");
    assert f[15..] == u + ".7z";
    assert f[15..|f| - 3] == (u + ".7z")[..|u|] == u;
    if |cfg.version| > 0 {
      ReplaceAllAt(cfg.version, '.', '_', 0);
    }
    forall i | 0 <= i < |cfg.version|
      ensures f[15 + i] == if cfg.version[i] == '.' then '_' else cfg.version[i]
    {
      ReplaceAllAt(cfg.version, '.', '_', i);
      assert f[15 + i] == u[i];
    }
  }

  /** For an untagged version, the prebuilt archive carries the same numbers as the source tree's name. */
  lemma PrebuiltMatchesSourceDir(cfg: Config, v: Version)
    requires WellFormed(v) && v.rest == "" && Render(v) == cfg.version
    ensures PrebuiltUrl(cfg).file == "boost_prebuilt_" + (NoTagsUnderscores(v) + ".7z")
  {
    NoTagsDropsTag(v);
    assert NoTags(v) + Tag(v) == NoTags(v);
  }

  const ReleaseServer := "https://boostorg.jfrog.io/artifactory/main/release/"

  /** `source_url`: the release directory is the untagged version, the file the source archive. */
  function SourceUrl(v: Version): Url
  {
    Web(ReleaseServer + (NoTags(v) + ("/source/" + SourceDownloadFilename(v))))
  }

  /** The source URL starts with the release server, then the untagged version, and ends with the archive's name. */
  lemma SourceUrlForm(v: Version)
    ensures var a := SourceUrl(v).address; var f := "/source/" + SourceDownloadFilename(v);
            |a| == |ReleaseServer| + |NoTags(v)| + |f| && a[|a| - |f|..] == f &&
            a[..|ReleaseServer|] == ReleaseServer && a[|ReleaseServer|..|ReleaseServer| + |NoTags(v)|] == NoTags(v)
  {
    var a := SourceUrl(v).address;
    var f := "/source/" + SourceDownloadFilename(v);
    var k := |ReleaseServer|;
    assert a[k..] == NoTags(v) + f;
    assert a[k..][|NoTags(v)|..] == f;
    assert a[k..][..|NoTags(v)|] == NoTags(v);
  }

  /** The archive fetching downloads and redownloading cleans. */
  function FetchUrl(cfg: Config, v: Version): Url
  {
    if cfg.prebuilt then PrebuiltUrl(cfg) else SourceUrl(v)
  }

  /** `address_model_for_arch`: "32" for x86, "64" for x64 and dont_care, fatal otherwise. */
  function AddressModel(a: Arch): (r: Result<string>)
    ensures r.Ok? <==> !a.Unsupported?
    ensures r.Err? ==> r.message == "boost: bad arch"
    ensures a == X86 ==> r == Ok("32")
    ensures a == X64 || a == DontCare ==> r == Ok("64")
  {
    match a
    case X86 => Ok("32")
    case X64 => Ok("64")
    case DontCare => Ok("64")
    case Unsupported(_) => Err("boost: bad arch")
  }

  /** `boost::root_lib_path`: source_path / "lib64-msvc-14.2". */
  function RootLibPath(cfg: Config, v: Version, a: Arch): (r: Result<Path>)
    ensures r.Ok? <==> !a.Unsupported?
  {
    match AddressModel(a)
    case Err(m) => Err(m)
    case Ok(model) => Ok(Join(SourcePath(cfg, v), "lib" + model + "-msvc-" + cfg.versionVs))
  }

  /**
   * The library root sits directly in the source tree and is named after
   * the address model and the Visual Studio version; 32-bit and 64-bit
   * libraries go to different directories, and dont_care means 64-bit.
   */
  lemma RootLibPathForm(cfg: Config, v: Version, a: Arch)
    requires !a.Unsupported?
    ensures var sp := SourcePath(cfg, v); var r := RootLibPath(cfg, v, a).value;
            r == sp + ["lib" + (if a == X86 then "32" else "64") + "-msvc-" + cfg.versionVs] && sp < r
    ensures RootLibPath(cfg, v, X86).value != RootLibPath(cfg, v, X64).value
    ensures RootLibPath(cfg, v, DontCare) == RootLibPath(cfg, v, X64)
  {
    var x86 := RootLibPath(cfg, v, X86).value;
    var x64 := RootLibPath(cfg, v, X64).value;
    var n := |SourcePath(cfg, v)|;
    assert x86[n][3] == '3' && x64[n][3] == '6';
  }

  /** `boost::lib_path`: root_lib_path / "lib". */
  function LibPath(cfg: Config, v: Version, a: Arch): (r: Result<Path>)
    ensures r.Ok? <==> !a.Unsupported?
    ensures r.Ok? ==> r.value == RootLibPath(cfg, v, a).value + ["lib"]
  {
    match RootLibPath(cfg, v, a)
    case Err(m) => Err(m)
    case Ok(root) => Ok(Join(root, "lib"))
  }

  /** `python_version_for_dll`: "38". */
  function PythonVersionForDll(py: Python): string
  {
    py.major + py.minor
  }

  /** `python_version_for_jam`: "3.8". */
  function PythonVersionForJam(py: Python): string
  {
    py.major + "." + py.minor
  }

  /** The two Python version forms differ only in the dot. */
  lemma PythonVersionForms(py: Python)
    requires '.' !in py.major && '.' !in py.minor
    ensures ReplaceAll(PythonVersionForJam(py), '.', "") == PythonVersionForDll(py)
  {
    ReplaceAllAppend(py.major, ".", '.', "");
    ReplaceAllOne('.', '.', "");
    ReplaceAllAppend(py.major + ".", py.minor, '.', "");
  }

  /** The name `python_dll` builds: "boost_python38-vc142-mt-x64-1_72.dll". */
  function PythonDllName(cfg: Config, v: Version): string
  {
    "boost_python" + PythonVersionForDll(cfg.python) + "-" + "vc" + ReplaceAll(cfg.versionVs, '.', "") + "-"
      + "mt-x64-" + NoPatchUnderscores(v) + ".dll"
  }

  /**
   * `python_dll`, writing the name piece by piece as the source's string
   * stream does: "boost_python", the Python version, "-vc" and the Visual
   * Studio version without its dots, "-mt-x64-", boost's major and minor
   * joined by '_', ".dll".
   */
  method PythonDll(cfg: Config, v: Version) returns (name: string)
    ensures name == PythonDllName(cfg, v)
    ensures name[..12] == "boost_python" && name[|name| - 4..] == ".dll"
  {
    name := "boost_python";
    name := name + (PythonVersionForDll(cfg.python) + "-");
    name := name + ("vc" + ReplaceAll(cfg.versionVs, '.', ""));
    name := name + "-";
    name := name + "mt-x64-";
    name := name + NoPatchUnderscores(v);
    name := name + ".dll";
  }

  /**
   * The Visual Studio part of the Python library's name, after
   * "boost_python", the Python version and "-vc", is the Visual Studio
   * version with its dots removed.
   */
  lemma PythonDllNameVs(cfg: Config, v: Version)
    ensures var vs := ReplaceAll(cfg.versionVs, '.', ""); var k := |PythonVersionForDll(cfg.python)| + 15;
      var name := PythonDllName(cfg, v);
      k + |vs| <= |name| && name[k..k + |vs|] == vs && '.' !in name[k..k + |vs|]
  {
    var head := "boost_python" + PythonVersionForDll(cfg.python) + "-" + "vc";
    PrefixSlice(head, ReplaceAll(cfg.versionVs, '.', ""), PythonDllName(cfg, v));
  }

  /** Proof helper: a prefix `a + b` of `t` puts `b` right after `a` in `t`. */
  lemma PrefixSlice(a: string, b: string, t: string)
    requires a + b <= t
    ensures t[|a|..|a| + |b|] == b
  {
    assert t[|a|..|a| + |b|] == (a + b)[|a|..];
  }

  /** The forward-slash form of a path b2 requires. */
  function ForwardSlashes(p: string): string
  {
    ReplaceAll(p, '\\', "/")
  }

  /** Forward slashes replace every backslash and change nothing else. */
  lemma ForwardSlashesForm(p: string)
    ensures '\\' !in ForwardSlashes(p) && |ForwardSlashes(p)| == |p|
    ensures forall i :: 0 <= i < |p| ==> ForwardSlashes(p)[i] == if p[i] == '\\' then '/' else p[i]
  {
    forall i | 0 <= i < |p| ensures ForwardSlashes(p)[i] == if p[i] == '\\' then '/' else p[i] {
      ReplaceAllAt(p, '\\', '/', i);
    }
  }

  /** One `  : value` line of the jam file. */
  function JamEntry(value: string): string
  {
    "  : " + (value + "\n")
  }

  /** The content `write_config_jam` writes. */
  function ConfigJamText(py: Python): string
  {
    "using python\n"
      + JamEntry(PythonVersionForJam(py))
      + JamEntry(ForwardSlashes(py.exe))
      + JamEntry(ForwardSlashes(py.includeDir))
      + JamEntry(ForwardSlashes(py.buildDir))
      + JamEntry("<address-model>64")
      + JamEntry("<define>BOOST_ALL_NO_LIB=1")
      + "  ;"
  }

  /** `write_config_jam`: the content built line by line, then written to the jam file. */
  method WriteConfigJam(cfg: Config, v: Version) returns (step: Action)
    ensures step == WriteFile(ConfigJamFile(cfg, v), ConfigJamText(cfg.python))
  {
    var oss := "using python\n";
    oss := oss + JamEntry(PythonVersionForJam(cfg.python));
    oss := oss + JamEntry(ForwardSlashes(cfg.python.exe));
    oss := oss + JamEntry(ForwardSlashes(cfg.python.includeDir));
    oss := oss + JamEntry(ForwardSlashes(cfg.python.buildDir));
    oss := oss + JamEntry("<address-model>64");
    oss := oss + JamEntry("<define>BOOST_ALL_NO_LIB=1");
    oss := oss + "  ;";
    step := WriteFile(ConfigJamFile(cfg, v), oss);
  }

  // ---------------------------------------------------------------------
  // Clean
  // ---------------------------------------------------------------------

  /** What `reconfigure` deletes: bin.v2 and b2.exe, so bootstrap runs again, then the two jam files. */
  function ReconfigureDeletes(cfg: Config, v: Version): seq<Action>
  {
    var sp := SourcePath(cfg, v);
    [DeleteDir(Join(sp, "bin.v2"), true),
     DeleteFile(B2Exe(cfg, v), true),
     DeleteFile(ConfigJamFile(cfg, v), true),
     DeleteFile(Join(sp, "project-config.jam"), true)]
  }

  /** What `rebuild` deletes: the x86 then the x64 library roots. */
  function RebuildDeletes(cfg: Config, v: Version): seq<Action>
  {
    [DeleteDir(RootLibPath(cfg, v, X86).value, true),
     DeleteDir(RootLibPath(cfg, v, X64).value, true)]
  }

  /**
   * What `reconfigure` and `rebuild` delete lies strictly inside the source
   * tree, so neither erases the tree itself.
   */
  lemma InnerDeletesInTree(cfg: Config, v: Version)
    ensures var t := ReconfigureDeletes(cfg, v);
            forall i :: 0 <= i < |t| ==> (t[i].DeleteDir? || t[i].DeleteFile?) && SourcePath(cfg, v) < t[i].path
    ensures var t := RebuildDeletes(cfg, v);
            forall i :: 0 <= i < |t| ==> t[i].DeleteDir? && SourcePath(cfg, v) < t[i].path
    ensures Disk.Keeps(ReconfigureDeletes(cfg, v), SourcePath(cfg, v))
    ensures Disk.Keeps(RebuildDeletes(cfg, v), SourcePath(cfg, v))
  {
    var sp := SourcePath(cfg, v);
    RootLibPathForm(cfg, v, X86);
    RootLibPathForm(cfg, v, X64);
    Disk.DeletesBelowKeep(ReconfigureDeletes(cfg, v), sp);
    Disk.DeletesBelowKeep(RebuildDeletes(cfg, v), sp);
  }

  /** The steps a clean request takes once the version is known. */
  function CleanSteps(cfg: Config, v: Version, c: CleanFlags): seq<Action>
  {
    var head := if c.redownload then [CleanDownload(FetchUrl(cfg, v))] else [];
    if c.reextract then head + [DeleteDir(SourcePath(cfg, v), true)]
    else if cfg.prebuilt then head
    else head + (if c.reconfigure then ReconfigureDeletes(cfg, v) else [])
              + (if c.rebuild then RebuildDeletes(cfg, v) else [])
  }

  /** Every step of a clean is a delete that tolerates a missing target, or a download clean. */
  lemma CleanStepsBestEffort(cfg: Config, v: Version, c: CleanFlags)
    ensures Disk.AllBestEffort(CleanSteps(cfg, v, c))
  {
    var head := if c.redownload then [CleanDownload(FetchUrl(cfg, v))] else [];
    var re := if c.reconfigure then ReconfigureDeletes(cfg, v) else [];
    var rb := if c.rebuild then RebuildDeletes(cfg, v) else [];
    Disk.BestEffortAppend(head, re);
    Disk.BestEffortAppend(head + re, rb);
    Disk.BestEffortAppend(head, [DeleteDir(SourcePath(cfg, v), true)]);
  }

  method DoClean(cfg: Config, parsed: Result<Version>, c: CleanFlags) returns (r: Outcome)
    requires ParsedFrom(parsed, cfg.version)
    ensures parsed.Ok? ==> r == Outcome(CleanSteps(cfg, parsed.value, c), Done)
    ensures r.status.Fatal? <==>
      parsed.Err? && (c.reextract || (!cfg.prebuilt && (c.redownload || c.reconfigure || c.rebuild)))
    ensures parsed.Err? ==>
      r.trace == (if c.redownload && cfg.prebuilt then [CleanDownload(PrebuiltUrl(cfg))] else []) &&
      (r.status.Fatal? ==> r.status.message == parsed.message)
    ensures Disk.AllBestEffort(r.trace)
  {
    var trace: seq<Action> := [];

    if c.redownload {
      if cfg.prebuilt {
        trace := [CleanDownload(PrebuiltUrl(cfg))];
      } else {
        if parsed.Err? {
          return Outcome(trace, Fatal(parsed.message));
        }
        trace := [CleanDownload(SourceUrl(parsed.value))];
      }
    }

    if c.reextract {
      // delete the whole tree; nothing else is needed
      if parsed.Err? {
        return Outcome(trace, Fatal(parsed.message));
      }
      trace := trace + [DeleteDir(SourcePath(cfg, parsed.value), true)];
      CleanStepsBestEffort(cfg, parsed.value, c);
      return Outcome(trace, Done);
    }

    // reconfigure and rebuild do not apply to a prebuilt tree
    if !cfg.prebuilt {
      if c.reconfigure {
        if parsed.Err? {
          return Outcome(trace, Fatal(parsed.message));
        }
        trace := trace + ReconfigureDeletes(cfg, parsed.value);
      }
      if c.rebuild {
        if parsed.Err? {
          return Outcome(trace, Fatal(parsed.message));
        }
        trace := trace + RebuildDeletes(cfg, parsed.value);
      }
    }
    if parsed.Ok? {
      CleanStepsBestEffort(cfg, parsed.value, c);
    }
    r := Outcome(trace, Done);
  }

  /** A clean with no flag set does nothing; each flag alone is what the source lists for it. */
  lemma CleanFlagsAlone(cfg: Config, v: Version)
    ensures CleanSteps(cfg, v, NoFlags) == []
    ensures CleanSteps(cfg, v, CleanFlags(true, false, false, false)) == [CleanDownload(FetchUrl(cfg, v))]
    ensures CleanSteps(cfg, v, CleanFlags(false, true, true, true)) == [DeleteDir(SourcePath(cfg, v), true)]
    ensures CleanSteps(cfg, v, CleanFlags(false, false, true, false)) == (if cfg.prebuilt then [] else ReconfigureDeletes(cfg, v))
  {
  }

  /**
   * Reextracting removes the whole tree, and a prebuilt install has no tree
   * to configure or build: in both cases the reconfigure and rebuild flags
   * make no difference.
   */
  lemma InnerFlagsIgnored(cfg: Config, v: Version, c: CleanFlags)
    requires c.reextract || cfg.prebuilt
    ensures CleanSteps(cfg, v, c) == CleanSteps(cfg, v, c.(reconfigure := false, rebuild := false))
    ensures !c.reextract ==> forall i :: 0 <= i < |CleanSteps(cfg, v, c)| ==> CleanSteps(cfg, v, c)[i].CleanDownload?
  {
  }

  /** Cleaning twice with the same flags ends where cleaning once did. */
  lemma CleanTwice(cfg: Config, v: Version, c: CleanFlags, w: Disk.World)
    ensures Disk.AllBestEffort(CleanSteps(cfg, v, c))
    ensures Disk.Run(w, CleanSteps(cfg, v, c)).Ok?
    ensures var once := Disk.Run(w, CleanSteps(cfg, v, c)).value;
            Disk.Run(once, CleanSteps(cfg, v, c)) == Ok(once)
  {
    CleanStepsBestEffort(cfg, v, c);
    Disk.CleanIsIdempotent(w, CleanSteps(cfg, v, c));
  }

  /**
   * A clean that does not reextract leaves the source tree in place: what
   * it deletes lies strictly inside the tree, and a download clean deletes
   * no path.
   */
  lemma CleanKeepsTree(cfg: Config, v: Version, c: CleanFlags, w: Disk.World)
    requires !c.reextract
    requires SourcePath(cfg, v) in w.entries
    ensures Disk.AllBestEffort(CleanSteps(cfg, v, c))
    ensures Disk.Run(w, CleanSteps(cfg, v, c)).Ok?
    ensures SourcePath(cfg, v) in Disk.Run(w, CleanSteps(cfg, v, c)).value.entries
  {
    CleanStepsBestEffort(cfg, v, c);
    var sp := SourcePath(cfg, v);
    var head := if c.redownload then [CleanDownload(FetchUrl(cfg, v))] else [];
    var re := if c.reconfigure then ReconfigureDeletes(cfg, v) else [];
    var rb := if c.rebuild then RebuildDeletes(cfg, v) else [];
    InnerDeletesInTree(cfg, v);
    assert Disk.Keeps(head, sp);
    Disk.KeepsAppend(head, re, sp);
    Disk.KeepsAppend(head + re, rb, sp);
    Disk.CleanKeeps(w, CleanSteps(cfg, v, c), sp);
  }

  /** Reextract deletes the whole source tree: nothing under it is left. */
  lemma ReextractErasesTree(cfg: Config, v: Version, c: CleanFlags, w: Disk.World, q: Path)
    requires c.reextract
    requires SourcePath(cfg, v) <= q
    ensures Disk.AllBestEffort(CleanSteps(cfg, v, c))
    ensures Disk.Run(w, CleanSteps(cfg, v, c)).Ok?
    ensures q !in Disk.Run(w, CleanSteps(cfg, v, c)).value.entries
  {
    CleanStepsBestEffort(cfg, v, c);
    var t := CleanSteps(cfg, v, c);
    assert Disk.Erases(t[|t| - 1], q);
    Disk.CleanErases(w, t, q);
  }

  /** A reconfigure of a tree that was never built cannot fail, and keeps the tree. */
  lemma ReconfigureUnbuiltTree(cfg: Config, v: Version, w: Disk.World)
    requires SourcePath(cfg, v) in w.entries
    requires Join(SourcePath(cfg, v), "bin.v2") !in w.entries && B2Exe(cfg, v) !in w.entries
    ensures var t := CleanSteps(cfg, v, CleanFlags(false, false, true, false));
            Disk.AllBestEffort(t) && Disk.Run(w, t) == Ok(Disk.Without(w, t)) &&
            SourcePath(cfg, v) in Disk.Without(w, t).entries
  {
    var c := CleanFlags(false, false, true, false);
    CleanKeepsTree(cfg, v, c, w);
    Disk.RunBestEffort(w, CleanSteps(cfg, v, c));
  }

  // ---------------------------------------------------------------------
  // Fetch
  // ---------------------------------------------------------------------

  /**
   * `boost::do_fetch`: download the prebuilt or the source archive and
   * extract it into the source tree. The prebuilt archive's name needs no
   * parsing, so a malformed version fails only after its download.
   */
  method DoFetch(cfg: Config, parsed: Result<Version>) returns (r: Outcome)
    requires ParsedFrom(parsed, cfg.version)
    ensures r.status.Done? <==> parsed.Ok?
    ensures parsed.Ok? ==>
      var u := FetchUrl(cfg, parsed.value);
      r.trace == [Download(u), Extract(u, SourcePath(cfg, parsed.value))]
    ensures parsed.Err? ==>
      r.status == Fatal(BadVersion(cfg.version)) &&
      r.trace == (if cfg.prebuilt then [Download(PrebuiltUrl(cfg))] else [])
  {
    if cfg.prebuilt {
      // fetch_prebuilt
      var u := PrebuiltUrl(cfg);
      var trace := [Download(u)];
      if parsed.Err? {
        return Outcome(trace, Fatal(parsed.message));
      }
      r := Outcome(trace + [Extract(u, SourcePath(cfg, parsed.value))], Done);
    } else {
      // fetch_from_source
      if parsed.Err? {
        return Outcome([], Fatal(parsed.message));
      }
      var u := SourceUrl(parsed.value);
      r := Outcome([Download(u), Extract(u, SourcePath(cfg, parsed.value))], Done);
    }
  }

  /** What fetching downloads is what a redownload clean forgets. */
  lemma RedownloadForgetsFetched(cfg: Config, v: Version, c: CleanFlags)
    requires c.redownload
    ensures Disk.ForgottenBy(CleanSteps(cfg, v, c), FetchUrl(cfg, v))
  {
    assert Disk.Forgets(CleanSteps(cfg, v, c)[0], FetchUrl(cfg, v));
  }

  // ---------------------------------------------------------------------
  // Build and install
  // ---------------------------------------------------------------------

  /** Each component becomes `--with-` followed by its name, in order. */
  function WithArgs(components: seq<string>): (r: seq<Arg>)
    ensures |r| == |components|
    ensures forall i :: 0 <= i < |r| ==> r[i] == Word("--with-" + components[i])
  {
    if components == [] then []
    else [Word("--with-" + components[0])] + WithArgs(components[1..])
  }

  /** The seven arguments every b2 run starts with, for address model `model` and library directory `lib`. */
  function B2FixedArgs(cfg: Config, v: Version, link: string, runtimeLink: string, model: string, lib: Path): seq<Arg>
  {
    [Named("address-model=", model),
     Named("link=", link),
     Named("runtime-link=", runtimeLink),
     Named("toolset=", "msvc-" + cfg.toolset),
     NamedPath("--user-config=", ConfigJamFile(cfg, v)),
     NamedPath("--stagedir=", lib),
     NamedPath("--libdir=", lib)]
  }

  /** `boost::do_b2`: the b2 run for one build, or the fatal error of an unknown architecture. */
  function B2Run(cfg: Config, v: Version, components: seq<string>, link: string, runtimeLink: string, a: Arch): (r: Result<Action>)
    ensures r.Ok? <==> !a.Unsupported?
  {
    if a.Unsupported? then Err(AddressModel(a).message)
    else
      Ok(RunB2(B2Exe(cfg, v),
        B2FixedArgs(cfg, v, link, runtimeLink, AddressModel(a).value, RootLibPath(cfg, v, a).value) + WithArgs(components),
        SourcePath(cfg, v), a))
  }

  /**
   * A b2 run uses the b2.exe of the source tree, runs in the tree with the
   * architecture's environment, reads the jam file bootstrap writes, and
   * stages and installs into the architecture's library root.
   */
  lemma B2RunForm(cfg: Config, v: Version, components: seq<string>, link: string, runtimeLink: string, a: Arch)
    requires !a.Unsupported?
    ensures var s := B2Run(cfg, v, components, link, runtimeLink, a).value;
      var lib := RootLibPath(cfg, v, a).value;
      s.RunB2? && s.b2 == B2Exe(cfg, v) && s.b2Cwd == SourcePath(cfg, v) && s.b2Env == a &&
      |s.b2Args| == 7 + |components| &&
      s.b2Args[0] == Named("address-model=", AddressModel(a).value) &&
      s.b2Args[1] == Named("link=", link) && s.b2Args[2] == Named("runtime-link=", runtimeLink) &&
      s.b2Args[3] == Named("toolset=", "msvc-" + cfg.toolset) &&
      s.b2Args[4] == NamedPath("--user-config=", ConfigJamFile(cfg, v)) &&
      s.b2Args[5] == NamedPath("--stagedir=", lib) && s.b2Args[6] == NamedPath("--libdir=", lib)
  {
    var f := B2FixedArgs(cfg, v, link, runtimeLink, AddressModel(a).value, RootLibPath(cfg, v, a).value);
    var s := B2Run(cfg, v, components, link, runtimeLink, a).value;
    assert s.b2Args == f + WithArgs(components);
    assert s.b2Args[..7] == f;
  }

  /** After its seven fixed arguments, a b2 run asks for each component with `--with-`, in order. */
  lemma B2RunComponents(cfg: Config, v: Version, components: seq<string>, link: string, runtimeLink: string, a: Arch)
    requires !a.Unsupported?
    ensures var s := B2Run(cfg, v, components, link, runtimeLink, a).value;
      s.RunB2? && |s.b2Args| == 7 + |components| &&
      forall i :: 0 <= i < |components| ==> s.b2Args[7 + i] == Word("--with-" + components[i])
  {
    WithArgsAfter(B2FixedArgs(cfg, v, link, runtimeLink, AddressModel(a).value, RootLibPath(cfg, v, a).value), components);
  }

  /** Proof helper: where the `--with-` arguments end up after seven others. */
  lemma WithArgsAfter(f: seq<Arg>, components: seq<string>)
    requires |f| == 7
    ensures |f + WithArgs(components)| == 7 + |components|
    ensures forall i :: 0 <= i < |components| ==> (f + WithArgs(components))[7 + i] == Word("--with-" + components[i])
  {
  }

  /** One of the four builds: the libraries to build, how to link them and the runtime, the architecture. */
  datatype B2Variant = B2Variant(components: seq<string>, link: string, runtimeLink: string, arch: Arch)

  /**
   * The four builds `build_and_install_from_source` runs, in order: static
   * link and static runtime for x64, the same for x86 (the 32-bit usvfs
   * needs it), static link and shared runtime for x64, shared link and
   * shared runtime for x64 (with Python).
   */
  function Variant(k: nat): B2Variant
    requires k < 4
  {
    if k == 0 then B2Variant(["thread", "date_time", "filesystem", "locale", "program_options"], "static", "static", X64)
    else if k == 1 then B2Variant(["thread", "date_time", "filesystem", "locale"], "static", "static", X86)
    else if k == 2 then B2Variant(["thread", "date_time", "locale", "program_options"], "static", "shared", X64)
    else B2Variant(["thread", "date_time", "python", "atomic"], "shared", "shared", X64)
  }

  /** The b2 run of one of the four builds; none has an unsupported architecture. */
  function VariantRun(cfg: Config, v: Version, k: nat): Action
    requires k < 4
  {
    var b := Variant(k);
    B2Run(cfg, v, b.components, b.link, b.runtimeLink, b.arch).value
  }

  /** Each of the four builds is a b2 run. */
  lemma VariantRunIsB2(cfg: Config, v: Version, k: nat)
    requires k < 4
    ensures VariantRun(cfg, v, k).RunB2?
  {
  }

  /** How bootstrap.bat is run: in the source tree, logging to bootstrap.log there. */
  function BootstrapRun(cfg: Config, v: Version): Action
  {
    var sp := SourcePath(cfg, v);
    RunProcess(Join(sp, "bootstrap.bat"), [], sp, None, Some(Join(sp, "bootstrap.log")))
  }

  /** `boost::bootstrap`: write the jam file, then run bootstrap.bat. */
  method Bootstrap(cfg: Config, v: Version) returns (trace: seq<Action>)
    ensures trace == [WriteFile(ConfigJamFile(cfg, v), ConfigJamText(cfg.python)), BootstrapRun(cfg, v)]
  {
    var jam := WriteConfigJam(cfg, v);
    trace := [jam, BootstrapRun(cfg, v)];
  }

  /** The Python library `copy_boost_python_dll` copies: the 64-bit one. */
  function PythonDllCopy(cfg: Config, v: Version): Action
  {
    Copy(Join(LibPath(cfg, v, X64).value, PythonDllName(cfg, v)), cfg.installBin)
  }

  /** `copy_boost_python_dll`: the 64-bit Python library goes to the install bin directory. */
  method CopyBoostPythonDll(cfg: Config, v: Version) returns (step: Action)
    ensures step == PythonDllCopy(cfg, v)
  {
    var name := PythonDll(cfg, v);
    step := Copy(Join(LibPath(cfg, v, X64).value, name), cfg.installBin);
  }

  /** Bootstrap's steps, unless b2.exe is already there. */
  function BootSteps(cfg: Config, v: Version, present: set<Path>): seq<Action>
  {
    if B2Exe(cfg, v) in present then [] else
      [WriteFile(ConfigJamFile(cfg, v), ConfigJamText(cfg.python)), BootstrapRun(cfg, v)]
  }

  /**
   * The steps of a build from source: bootstrap unless b2.exe is already
   * there, the four b2 runs in order, the Python library copy.
   */
  function SourceBuildSteps(cfg: Config, v: Version, present: set<Path>): seq<Action>
  {
    BootSteps(cfg, v, present) + [VariantRun(cfg, v, 0)] + [VariantRun(cfg, v, 1)] + [VariantRun(cfg, v, 2)] + [VariantRun(cfg, v, 3)]
      + [PythonDllCopy(cfg, v)]
  }

  /**
   * `build_and_install_from_source`; `present` is the set of paths that
   * exist, where the source asks `fs::exists`.
   */
  method BuildAndInstallFromSource(cfg: Config, parsed: Result<Version>, present: set<Path>) returns (r: Outcome)
    requires ParsedFrom(parsed, cfg.version)
    ensures parsed.Err? ==> r == Outcome([], Fatal(BadVersion(cfg.version)))
    ensures parsed.Ok? ==> r == Outcome(SourceBuildSteps(cfg, parsed.value, present), Done)
  {
    if parsed.Err? {
      return Outcome([], Fatal(parsed.message));
    }
    var v := parsed.value;
    var trace: seq<Action> := [];

    // bypass bootstrap when b2.exe exists
    if B2Exe(cfg, v) !in present {
      trace := Bootstrap(cfg, v);
    }

    // the four builds of `Variant`, in order
    trace := trace + [VariantRun(cfg, v, 0)];
    trace := trace + [VariantRun(cfg, v, 1)];
    trace := trace + [VariantRun(cfg, v, 2)];
    trace := trace + [VariantRun(cfg, v, 3)];

    var copy := CopyBoostPythonDll(cfg, v);
    r := Outcome(trace + [copy], Done);
  }

  /**
   * After bootstrap's steps, a build from source runs the four b2 builds in
   * order, and the Python library copy comes last.
   */
  lemma SourceBuildOrder(cfg: Config, v: Version, present: set<Path>)
    ensures var t := SourceBuildSteps(cfg, v, present);
      var n := |BootSteps(cfg, v, present)|;
      |t| == n + 5 && t[..n] == BootSteps(cfg, v, present) &&
      t[n] == VariantRun(cfg, v, 0) && t[n + 1] == VariantRun(cfg, v, 1) &&
      t[n + 2] == VariantRun(cfg, v, 2) && t[n + 3] == VariantRun(cfg, v, 3) &&
      t[n + 4] == PythonDllCopy(cfg, v)
  {
    var a, b, c, d, e := VariantRun(cfg, v, 0), VariantRun(cfg, v, 1), VariantRun(cfg, v, 2), VariantRun(cfg, v, 3),
      PythonDllCopy(cfg, v);
    assert SourceBuildSteps(cfg, v, present) == BootSteps(cfg, v, present) + [a] + [b] + [c] + [d] + [e];
    FiveAfter(BootSteps(cfg, v, present), a, b, c, d, e);
  }

  /** When b2.exe is missing, a build from source first writes the jam file, then runs bootstrap.bat. */
  lemma BootstrapWhenB2Missing(cfg: Config, v: Version, present: set<Path>)
    requires B2Exe(cfg, v) !in present
    ensures var t := SourceBuildSteps(cfg, v, present);
      |t| == 7 && t[0] == WriteFile(ConfigJamFile(cfg, v), ConfigJamText(cfg.python)) && t[1] == BootstrapRun(cfg, v)
  {
    var t := SourceBuildSteps(cfg, v, present);
    var boot := BootSteps(cfg, v, present);
    SourceBuildOrder(cfg, v, present);
    assert t[0] == t[..|boot|][0] && t[1] == t[..|boot|][1];
  }

  /** When b2.exe exists, a build from source runs no process besides b2, and copies. */
  lemma NoBootstrapWhenB2Present(cfg: Config, v: Version, present: set<Path>)
    requires B2Exe(cfg, v) in present
    ensures var t := SourceBuildSteps(cfg, v, present);
      |t| == 5 && forall i :: 0 <= i < |t| ==> t[i].RunB2? || t[i].Copy?
  {
    VariantRunIsB2(cfg, v, 0);
    VariantRunIsB2(cfg, v, 1);
    VariantRunIsB2(cfg, v, 2);
    VariantRunIsB2(cfg, v, 3);
    FiveB2OrCopy(BootSteps(cfg, v, present), VariantRun(cfg, v, 0), VariantRun(cfg, v, 1), VariantRun(cfg, v, 2),
      VariantRun(cfg, v, 3), PythonDllCopy(cfg, v));
  }

  /**
   * Proof helper: four b2 runs and a copy appended to an empty trace leave
   * no other kind of step. The empty trace is a parameter so that callers
   * can pass bootstrap's skipped steps without unfolding the build.
   */
  lemma FiveB2OrCopy(t: seq<Action>, a: Action, b: Action, c: Action, d: Action, e: Action)
    requires t == [] && a.RunB2? && b.RunB2? && c.RunB2? && d.RunB2? && e.Copy?
    ensures var u := t + [a] + [b] + [c] + [d] + [e];
      |u| == 5 && forall i :: 0 <= i < |u| ==> u[i].RunB2? || u[i].Copy?
  {
    var u := t + [a] + [b] + [c] + [d] + [e];
    assert u == [a, b, c, d, e];
  }

  /** Proof helper: where five steps appended one by one end up. */
  lemma FiveAfter(t: seq<Action>, a: Action, b: Action, c: Action, d: Action, e: Action)
    ensures var u := t + [a] + [b] + [c] + [d] + [e];
      |u| == |t| + 5 && u[..|t|] == t && u[|t|] == a && u[|t| + 1] == b && u[|t| + 2] == c &&
      u[|t| + 3] == d && u[|t| + 4] == e
  {
  }

  /**
   * Every b2 run uses the b2.exe bootstrap produces, reads the jam file
   * bootstrap writes, and builds 64-bit except the second build, which is
   * 32-bit.
   */
  lemma VariantRunsShareTree(cfg: Config, v: Version, k: nat)
    requires k < 4
    ensures var s := VariantRun(cfg, v, k);
      s.RunB2? && s.b2 == B2Exe(cfg, v) && |s.b2Args| > 4 &&
      s.b2Args[4] == NamedPath("--user-config=", ConfigJamFile(cfg, v)) &&
      s.b2Env == (if k == 1 then X86 else X64)
  {
    var b := Variant(k);
    B2RunForm(cfg, v, b.components, b.link, b.runtimeLink, b.arch);
  }

  /** The second build is the 32-bit one usvfs needs, into the 32-bit library root. */
  lemma X86BuildStagesApart(cfg: Config, v: Version)
    ensures VariantRun(cfg, v, 1).b2Args[5] == NamedPath("--stagedir=", RootLibPath(cfg, v, X86).value)
    ensures forall k :: 0 <= k < 4 && k != 1 ==>
      VariantRun(cfg, v, k).b2Args[5] != VariantRun(cfg, v, 1).b2Args[5]
  {
    B2RunForm(cfg, v, Variant(1).components, "static", "static", X86);
    RootLibPathForm(cfg, v, X86);
    forall k | 0 <= k < 4 && k != 1 ensures VariantRun(cfg, v, k).b2Args[5] != VariantRun(cfg, v, 1).b2Args[5] {
      B2RunForm(cfg, v, Variant(k).components, Variant(k).link, Variant(k).runtimeLink, X64);
    }
  }

  /** `build_and_install_prebuilt`: only the Python library copy. */
  method BuildAndInstallPrebuilt(cfg: Config, parsed: Result<Version>) returns (r: Outcome)
    requires ParsedFrom(parsed, cfg.version)
    ensures parsed.Err? ==> r == Outcome([], Fatal(BadVersion(cfg.version)))
    ensures parsed.Ok? ==> r == Outcome([PythonDllCopy(cfg, parsed.value)], Done)
  {
    if parsed.Err? {
      return Outcome([], Fatal(parsed.message));
    }
    var copy := CopyBoostPythonDll(cfg, parsed.value);
    r := Outcome([copy], Done);
  }

  /**
   * `boost::do_build_and_install`: the prebuilt archive needs no tool run
   * at all, only the copy; a build from source ends with the four b2 runs
   * and the copy. Either fails only on a malformed version.
   */
  method DoBuildAndInstall(cfg: Config, parsed: Result<Version>, present: set<Path>) returns (r: Outcome)
    requires ParsedFrom(parsed, cfg.version)
    ensures r.status.Fatal? <==> parsed.Err?
    ensures r.status.Fatal? ==> r.trace == []
    ensures parsed.Ok? ==>
      r.trace == (if cfg.prebuilt then [PythonDllCopy(cfg, parsed.value)] else SourceBuildSteps(cfg, parsed.value, present))
  {
    if cfg.prebuilt {
      r := BuildAndInstallPrebuilt(cfg, parsed);
    } else {
      r := BuildAndInstallFromSource(cfg, parsed, present);
    }
  }
}
