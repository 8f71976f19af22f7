/**
 * The openssl task: its version grammar and the names derived from it, the
 * paths and the source URL, the rebuild clean, fetching, configuring,
 * building the engines with jom (retrying, then falling back to a single
 * job) and copying the built files. Side effects are returned as traces of
 * `Action` values; jom's exit codes come from an oracle.
 */
module OpenSsl {
  import opened Common
  import opened Text
  import Disk

  // ---------------------------------------------------------------------
  // Configuration and paths
  // ---------------------------------------------------------------------

  /**
   * The values openssl reads from the configuration: the version string,
   * the build directory, the perl binary and the three install directories.
   */
  datatype Config = Config(
    version: string,
    build: Path,
    perl: Path,
    installBin: Path,
    installDlls: Path,
    installPdbs: Path)

  /** The directory name of the extracted tree: "openssl-1.1.1d". */
  function SourceDirName(cfg: Config): string
  {
    "openssl-" + cfg.version
  }

  /** `openssl::source_path`: build / "openssl-<version>"; the version is not parsed. */
  function SourcePath(cfg: Config): Path
  {
    Join(cfg.build, SourceDirName(cfg))
  }

  /** `openssl::build_path`: source_path / "build". */
  function BuildPath(cfg: Config): Path
  {
    Join(SourcePath(cfg), "build")
  }

  /** `openssl::include_path`: source_path / "include". */
  function IncludePath(cfg: Config): Path
  {
    Join(SourcePath(cfg), "include")
  }

  const SourceServer := "https://www.openssl.org/source/"

  /** `openssl::source_url`: "https://www.openssl.org/source/openssl-<version>.tar.gz". */
  function SourceUrl(cfg: Config): Url
  {
    Web(SourceServer + (SourceDirName(cfg) + ".tar.gz"))
  }

  /**
   * The paths are nested as the source lays them out, and the archive the
   * URL names is the tree's directory name with ".tar.gz".
   */
  lemma PathsForm(cfg: Config)
    ensures SourcePath(cfg) == cfg.build + ["openssl-" + cfg.version]
    ensures BuildPath(cfg) == SourcePath(cfg) + ["build"] && IncludePath(cfg) == SourcePath(cfg) + ["include"]
    ensures SourcePath(cfg) < BuildPath(cfg) && SourcePath(cfg) < IncludePath(cfg) && BuildPath(cfg) != IncludePath(cfg)
    ensures var a := SourceUrl(cfg).address; var f := SourceDirName(cfg) + ".tar.gz";
            |a| == |SourceServer| + |f| && a[..|SourceServer|] == SourceServer && a[|SourceServer|..] == f
  {
    assert BuildPath(cfg)[|SourcePath(cfg)|] != IncludePath(cfg)[|SourcePath(cfg)|];
  }

  // ---------------------------------------------------------------------
  // The version grammar `(\d+)(?:\.(\d+)(?:\.(\d+)([a-zA-Z]+)?)?)?`
  // ---------------------------------------------------------------------

  /** The four groups of the version pattern; a group that took no part is "". */
  datatype Groups = Groups(major: string, minor: string, patch: string, letters: string)

  /** The groups a successful match can produce. */
  predicate WellFormed(g: Groups)
  {
    IsNumber(g.major) &&
    (if g.minor == "" then g.patch == "" else IsNumber(g.minor)) &&
    (if g.patch == "" then g.letters == "" else IsNumber(g.patch)) &&
    AllLetters(g.letters)
  }

  /** What follows the second dot: `patch[letters]`. */
  function PatchPart(patch: string, letters: string): string
  {
    patch + letters
  }

  /** What follows the first dot: `minor[.patch[letters]]`. */
  function MinorPart(minor: string, patch: string, letters: string): string
  {
    minor + (if patch == "" then "" else "." + PatchPart(patch, letters))
  }

  /** How a version is written: `major[.minor[.patch[letters]]]`. */
  function Render(g: Groups): string
  {
    g.major + (if g.minor == "" then "" else "." + MinorPart(g.minor, g.patch, g.letters))
  }

  function BadVersion(s: string): string
  {
    "bad openssl version '" + s + "'"
  }

  /** `\d+([a-zA-Z]+)?` on what follows the second dot. */
  function MatchPatch(u: string): (r: Option<(string, string)>)
    ensures r.Some? ==> IsNumber(r.value.0) && AllLetters(r.value.1) && u == PatchPart(r.value.0, r.value.1)
  {
    var k := DigitPrefix(u);
    if k == 0 || !AllLetters(u[k..]) then None
    else
      assert u == u[..k] + u[k..];
      Some((u[..k], u[k..]))
  }

  /** `\d+(?:\.(\d+)([a-zA-Z]+)?)?` on what follows the first dot. */
  function MatchMinor(t: string): (r: Option<(string, string, string)>)
    ensures r.Some? ==> IsNumber(r.value.0) && (if r.value.1 == "" then r.value.2 == "" else IsNumber(r.value.1)) &&
                        AllLetters(r.value.2) && t == MinorPart(r.value.0, r.value.1, r.value.2)
  {
    var j := DigitPrefix(t);
    if j == 0 then None
    else if j == |t| then
      assert t[..j] == t;
      Some((t, "", ""))
    else if t[j] != '.' then None
    else
      assert t == t[..j] + ("." + t[j + 1..]);
      match MatchPatch(t[j + 1..])
      case None => None
      case Some((patch, letters)) => Some((t[..j], patch, letters))
  }

  /** A full match of the pattern, as its four groups. */
  function ParseGroups(s: string): (r: Result<Groups>)
    ensures r.Ok? ==> WellFormed(r.value) && Render(r.value) == s
    ensures r.Err? ==> r.message == BadVersion(s)
  {
    var i := DigitPrefix(s);
    if i == 0 then Err(BadVersion(s))
    else if i == |s| then
      assert s[..i] == s;
      Ok(Groups(s, "", "", ""))
    else if s[i] != '.' then Err(BadVersion(s))
    else
      assert s == s[..i] + ("." + s[i + 1..]);
      match MatchMinor(s[i + 1..])
      case None => Err(BadVersion(s))
      case Some((minor, patch, letters)) => Ok(Groups(s[..i], minor, patch, letters))
  }

  /**
   * `openssl::parse_version`: the `smatch` of a full match, the whole
   * string then the four groups; a successful match always has five
   * entries, whichever groups took part.
   */
  function ParseVersion(s: string): (r: Result<seq<string>>)
    ensures r.Ok? ==> |r.value| == 5 && r.value[0] == s
    ensures r.Err? ==> r.message == BadVersion(s)
  {
    match ParseGroups(s)
    case Err(m) => Err(m)
    case Ok(g) => Ok([s, g.major, g.minor, g.patch, g.letters])
  }

  /** The patch stage accepts every patch with an optional letter tag. */
  lemma MatchPatchComplete(patch: string, letters: string)
    requires IsNumber(patch) && AllLetters(letters)
    ensures MatchPatch(PatchPart(patch, letters)) == Some((patch, letters))
  {
    var u := PatchPart(patch, letters);
    DigitPrefixOfSplit(patch, letters);
    assert u[..|patch|] == patch && u[|patch|..] == letters;
  }

  /** The minor stage accepts every minor number with an optional patch stage. */
  lemma MatchMinorComplete(minor: string, patch: string, letters: string)
    requires IsNumber(minor) && (if patch == "" then letters == "" else IsNumber(patch)) && AllLetters(letters)
    ensures MatchMinor(MinorPart(minor, patch, letters)) == Some((minor, patch, letters))
  {
    var tail := if patch == "" then "" else "." + PatchPart(patch, letters);
    var t := MinorPart(minor, patch, letters);
    DigitPrefixOfSplit(minor, tail);
    assert t[..|minor|] == minor;
    if patch != "" {
      assert t[|minor| + 1..] == PatchPart(patch, letters);
      MatchPatchComplete(patch, letters);
    }
  }

  /** Every well-formed version is accepted, and parsing gives its groups back. */
  lemma ParseRender(g: Groups)
    requires WellFormed(g)
    ensures ParseGroups(Render(g)) == Ok(g)
  {
    if g.minor == "" {
      DigitPrefixOfSplit(g.major, "");
      assert g.major + "" == g.major;
    } else {
      ParseRenderMinor(g.major, g.minor, g.patch, g.letters);
    }
  }

  lemma ParseRenderMinor(major: string, minor: string, patch: string, letters: string)
    requires IsNumber(major) && IsNumber(minor) && (if patch == "" then letters == "" else IsNumber(patch)) && AllLetters(letters)
    ensures ParseGroups(major + ("." + MinorPart(minor, patch, letters))) == Ok(Groups(major, minor, patch, letters))
  {
    var t := MinorPart(minor, patch, letters);
    var s := major + ("." + t);
    DigitPrefixOfSplit(major, "." + t);
    assert s[..|major|] == major;
    assert s[|major| + 1..] == t;
    MatchMinorComplete(minor, patch, letters);
  }

  /** The accepted strings are exactly the renderings of well-formed versions. */
  lemma ParseAcceptsExactly(s: string)
    ensures ParseVersion(s).Ok? <==> exists g :: WellFormed(g) && Render(g) == s
  {
    if g :| WellFormed(g) && Render(g) == s {
      ParseRender(g);
    }
  }

  /** A letter tag needs a patch number: `major.minor<letters>` is refused. */
  lemma LettersNeedPatch(major: string, minor: string, letters: string)
    requires IsNumber(major) && IsNumber(minor) && letters != "" && AllLetters(letters)
    ensures ParseVersion(major + ("." + (minor + letters))).Err?
  {
    var t := minor + letters;
    var s := major + ("." + t);
    DigitPrefixOfSplit(major, "." + t);
    assert s[|major| + 1..] == t;
    DigitPrefixOfSplit(minor, letters);
    assert t[|minor|] == letters[0];
  }

  /** The example of the source's comment. */
  lemma ExampleVersion()
    ensures ParseVersion("1.1.1d") == Ok(["1.1.1d", "1", "1", "1", "d"])
  {
    var g := Groups("1", "1", "1", "d");
    assert Render(g) == "1.1.1d";
    ParseRender(g);
  }

  // ---------------------------------------------------------------------
  // Renderings of the version
  // ---------------------------------------------------------------------

  /**
   * What `version_no_tags` accumulates from the groups `gs`: each appended
   * in turn, preceded by a '.' once something has been accumulated.
   */
  function Accumulated(gs: seq<string>): string
  {
    if gs == [] then ""
    else
      var s := Accumulated(gs[..|gs| - 1]);
      (if s == "" then s else s + ".") + gs[|gs| - 1]
  }

  /**
   * `openssl::version_no_tags`: the loop over the groups below index
   * `min(m.size(), 4)`, which skips the letter tag.
   */
  method VersionNoTags(version: string) returns (r: Result<string>)
    ensures ParseVersion(version).Err? ==> r == Err(BadVersion(version))
    ensures ParseVersion(version).Ok? ==> r == Ok(Accumulated(ParseVersion(version).value[1..4]))
  {
    var parsed := ParseVersion(version);
    if parsed.Err? {
      return Err(parsed.message);
    }
    var m := parsed.value;
    var count := if |m| < 4 then |m| else 4;
    var s := "";
    for i := 1 to count
      invariant s == Accumulated(m[1..i])
    {
      AccumulatedStep(m, i);
      if s != "" {
        s := s + ".";
      }
      s := s + m[i];
    }
    r := Ok(s);
  }

  /** Proof helper: one more group accumulated. */
  lemma AccumulatedStep(m: seq<string>, i: nat)
    requires 1 <= i < |m|
    ensures Accumulated(m[1..i + 1]) == (if Accumulated(m[1..i]) == "" then "" else Accumulated(m[1..i]) + ".") + m[i]
  {
    assert m[1..i + 1][..i - 1] == m[1..i];
  }

  /**
   * Whatever groups took part, the accumulation puts a '.' before the
   * minor and the patch groups, because the major group is never empty.
   */
  lemma VersionNoTagsAsWritten(g: Groups)
    requires WellFormed(g)
    ensures Accumulated([g.major, g.minor, g.patch]) == g.major + "." + g.minor + "." + g.patch
  {
    var gs := [g.major, g.minor, g.patch];
    assert [g.major][..0] == [];
    assert Accumulated([g.major]) == g.major;
    assert [g.major, g.minor][..1] == [g.major];
    assert Accumulated([g.major, g.minor]) == g.major + "." + g.minor;
    assert gs[..2] == [g.major, g.minor];
  }

  /** The version without its tag: `major[.minor[.patch]]`. */
  function NoTagsIntended(g: Groups): string
  {
    g.major + (if g.minor == "" then "" else "." + (g.minor + (if g.patch == "" then "" else "." + g.patch)))
  }

  /** Cutting the letter tag off the written version leaves the intended untagged version. */
  lemma NoTagsIntendedDropsLetters(g: Groups)
    requires WellFormed(g)
    ensures Render(g) == NoTagsIntended(g) + g.letters
    ensures forall i :: 0 <= i < |NoTagsIntended(g)| ==> !IsLetter(NoTagsIntended(g)[i])
  {
    if g.patch != "" {
      AppendAssoc(g.minor, ".", g.patch + g.letters);
      AppendAssoc(".", g.patch, g.letters);
      AppendAssoc(g.minor, "." + g.patch, g.letters);
      AppendAssoc(".", g.minor + ("." + g.patch), g.letters);
      AppendAssoc(g.major, "." + (g.minor + ("." + g.patch)), g.letters);
    }
  }

  /**
   * The loop gives the intended untagged version exactly when the version
   * has a patch number: for "1" it gives "1.." and for "1.1" it gives
   * "1.1.".
   */
  lemma VersionNoTagsIntendedIff(g: Groups)
    requires WellFormed(g)
    ensures Accumulated([g.major, g.minor, g.patch]) == NoTagsIntended(g) <==> g.patch != ""
  {
    VersionNoTagsAsWritten(g);
    var w := g.major + "." + g.minor + "." + g.patch;
    if g.patch == "" {
      assert |w| == |g.major| + |g.minor| + 2;
      assert |NoTagsIntended(g)| < |w|;
    } else {
      AppendAssoc(g.major, ".", g.minor);
      AppendAssoc(g.major + "." + g.minor, ".", g.patch);
      AppendAssoc(g.minor, ".", g.patch);
      AppendAssoc(".", g.minor, "." + g.patch);
      AppendAssoc(g.major, "." + g.minor, "." + g.patch);
    }
  }

  /**
   * What the loop would accumulate if it skipped the groups that took no
   * part: each group that took part, preceded by a '.' once something has
   * been accumulated.
   */
  function JoinTaken(gs: seq<string>): string
  {
    if gs == [] then ""
    else
      var s := JoinTaken(gs[..|gs| - 1]);
      if gs[|gs| - 1] == "" then s else (if s == "" then s else s + ".") + gs[|gs| - 1]
  }

  /** Proof helper: one more group joined. */
  lemma JoinTakenStep(m: seq<string>, i: nat)
    requires 1 <= i < |m|
    ensures JoinTaken(m[1..i + 1]) ==
      if m[i] == "" then JoinTaken(m[1..i]) else (if JoinTaken(m[1..i]) == "" then "" else JoinTaken(m[1..i]) + ".") + m[i]
  {
    assert m[1..i + 1][..i - 1] == m[1..i];
  }

  /** Joining the groups that took part gives the untagged version. */
  lemma JoinTakenIntended(g: Groups)
    requires WellFormed(g)
    ensures JoinTaken([g.major, g.minor, g.patch]) == NoTagsIntended(g)
  {
    var gs := [g.major, g.minor, g.patch];
    assert [g.major][..0] == [];
    assert JoinTaken([g.major]) == g.major;
    assert [g.major, g.minor][..1] == [g.major];
    assert gs[..2] == [g.major, g.minor];
    if g.minor != "" && g.patch != "" {
      AppendAssoc(g.major + ".", g.minor, ".");
      AppendAssoc(g.major + "." + g.minor, ".", g.patch);
      AppendAssoc(g.minor, ".", g.patch);
      AppendAssoc(".", g.minor, "." + g.patch);
      AppendAssoc(g.major, ".", g.minor + ("." + g.patch));
    } else if g.minor != "" {
      AppendAssoc(g.major, ".", g.minor);
    }
  }

  /**
   * `version_no_tags` as evidently intended: the loop appends only the
   * groups that took part, so the result is the version with its letter tag
   * cut off, and holds no letter.
   */
  method VersionNoTagsCorrected(version: string) returns (r: Result<string>)
    ensures ParseVersion(version).Err? ==> r == Err(BadVersion(version))
    ensures ParseVersion(version).Ok? ==>
      r.Ok? && version == r.value + ParseVersion(version).value[4] &&
      forall i :: 0 <= i < |r.value| ==> !IsLetter(r.value[i])
  {
    var parsed := ParseVersion(version);
    if parsed.Err? {
      return Err(parsed.message);
    }
    var m := parsed.value;
    var s := "";
    for i := 1 to 4
      invariant s == JoinTaken(m[1..i])
    {
      JoinTakenStep(m, i);
      if m[i] != "" {
        if s != "" {
          s := s + ".";
        }
        s := s + m[i];
      }
    }
    TakenOfMatch(version, m);
    r := Ok(s);
  }

  /** Joining the groups that took part leaves just the letter tag to follow. */
  lemma JoinTakenDropsLetters(g: Groups)
    requires WellFormed(g)
    ensures var s := JoinTaken([g.major, g.minor, g.patch]);
      Render(g) == s + g.letters && forall i :: 0 <= i < |s| ==> !IsLetter(s[i])
  {
    JoinTakenIntended(g);
    NoTagsIntendedDropsLetters(g);
  }

  /** A match holds the whole version and then the four groups the parser found. */
  lemma MatchHoldsGroups(version: string)
    requires ParseVersion(version).Ok?
    ensures ParseGroups(version).Ok?
    ensures var g := ParseGroups(version).value;
      ParseVersion(version).value == [version, g.major, g.minor, g.patch, g.letters]
  {
  }

  /** The groups of a match that took part, joined, are the version without its letter tag. */
  lemma TakenOfMatch(version: string, m: seq<string>)
    requires ParseVersion(version) == Ok(m)
    ensures version == JoinTaken(m[1..4]) + m[4]
    ensures forall i :: 0 <= i < |JoinTaken(m[1..4])| ==> !IsLetter(JoinTaken(m[1..4])[i])
  {
    MatchHoldsGroups(version);
    TakenOfGroups(m, ParseGroups(version).value);
  }

  /** Proof helper: `TakenOfMatch` for the match the parser builds from well-formed groups. */
  lemma TakenOfGroups(m: seq<string>, g: Groups)
    requires WellFormed(g)
    requires m == [Render(g), g.major, g.minor, g.patch, g.letters]
    ensures Render(g) == JoinTaken(m[1..4]) + m[4]
    ensures forall i :: 0 <= i < |JoinTaken(m[1..4])| ==> !IsLetter(JoinTaken(m[1..4])[i])
  {
    assert m[1..4] == [g.major, g.minor, g.patch];
    JoinTakenDropsLetters(g);
  }

  /** The version "1" shows the discrepancy. */
  lemma VersionNoTagsOfMajorOnly()
    ensures ParseVersion("1") == Ok(["1", "1", "", "", ""])
    ensures Accumulated(ParseVersion("1").value[1..4]) == "1.."
    ensures NoTagsIntended(Groups("1", "", "", "")) == "1"
  {
    ParseRender(Groups("1", "", "", ""));
    VersionNoTagsAsWritten(Groups("1", "", "", ""));
    assert ParseVersion("1").value[1..4] == ["1", "", ""];
  }

  /**
   * `openssl::version_no_minor_underscores`: group 1, '_', group 2. The
   * source's `m.size() == 2` alternative cannot be taken, since every
   * successful match has five entries, and is not written.
   */
  function NoMinorUnderscores(m: seq<string>): (r: string)
    requires |m| == 5
  {
    m[1] + ("_" + m[2])
  }

  /** "1.1.1d" gives "1_1"; a version with no minor number keeps the '_': "1" gives "1_". */
  lemma NoMinorUnderscoresForm(g: Groups)
    requires WellFormed(g)
    ensures ParseVersion(Render(g)).Ok?
    ensures NoMinorUnderscores(ParseVersion(Render(g)).value) == g.major + ("_" + g.minor)
    ensures g.minor == "" ==> NoMinorUnderscores(ParseVersion(Render(g)).value) == g.major + "_"
  {
    ParseRender(g);
  }

  /** `openssl::output_names`: the crypto then the ssl library, named after major and minor. */
  function OutputNames(version: string): (r: Result<seq<string>>)
    ensures r.Err? <==> ParseVersion(version).Err?
  {
    match ParseVersion(version)
    case Err(m) => Err(m)
    case Ok(m) =>
      var x := NoMinorUnderscores(m);
      Ok(["libcrypto-" + x + "-x64", "libssl-" + x + "-x64"])
  }

  /** Exactly two names, crypto first, both built from the same `major_minor`. */
  lemma OutputNamesForm(g: Groups)
    requires WellFormed(g)
    ensures var r := OutputNames(Render(g));
      var x := g.major + ("_" + g.minor);
      r == Ok(["libcrypto-" + x + "-x64", "libssl-" + x + "-x64"])
  {
    NoMinorUnderscoresForm(g);
  }

  // ---------------------------------------------------------------------
  // Clean and fetch
  // ---------------------------------------------------------------------

  /**
   * `openssl::do_clean_for_rebuild`: object files are spread over the
   * whole tree, so the whole tree goes, optionally.
   */
  function CleanForRebuild(cfg: Config): seq<Action>
  {
    [DeleteDir(SourcePath(cfg), true)]
  }

  /** The rebuild clean never fails, removes everything under the tree and nothing else. */
  lemma CleanForRebuildEffect(cfg: Config, w: Disk.World)
    ensures Disk.AllBestEffort(CleanForRebuild(cfg))
    ensures Disk.Run(w, CleanForRebuild(cfg)) ==
      Ok(Disk.World((set q | q in w.entries && !(SourcePath(cfg) <= q)), w.downloads))
  {
    var t := CleanForRebuild(cfg);
    Disk.RunBestEffort(w, t);
    forall q ensures Disk.ErasedBy(t, q) <==> SourcePath(cfg) <= q {
      if SourcePath(cfg) <= q {
        assert Disk.Erases(t[0], q);
      }
    }
    assert !Disk.ForgottenBy(t, SourceUrl(cfg));
    assert Disk.Without(w, t).downloads == w.downloads;
  }

  /** `openssl::do_fetch`: download the source archive and extract it into the source tree. */
  method DoFetch(cfg: Config) returns (r: Outcome)
    ensures r == Outcome([Download(SourceUrl(cfg)), Extract(SourceUrl(cfg), SourcePath(cfg))], Done)
  {
    var u := SourceUrl(cfg);
    var trace := [Download(u)];
    trace := trace + [Extract(u, SourcePath(cfg))];
    r := Outcome(trace, Done);
  }

  // ---------------------------------------------------------------------
  // Configure and the engines
  // ---------------------------------------------------------------------

  /** `openssl::configure`: perl Configure in the source tree, in the 64-bit environment. */
  function ConfigureRun(cfg: Config): Action
  {
    RunProcess(cfg.perl,
      [Word("Configure"),
       NamedPath("--openssldir=", BuildPath(cfg)),
       NamedPath("--prefix=", BuildPath(cfg)),
       Word("-FS"),
       Word("-MP1"),
       Word("VC-WIN64A")],
      SourcePath(cfg), Some(X64), None)
  }

  /** `max_tries` */
  const MaxTries := 3

  /** One jom run of the `install_engines` target in the source tree. */
  function JomRun(cfg: Config, mode: JomMode): Action
  {
    RunJom(SourcePath(cfg), "install_engines", mode)
  }

  /** `n` copies of `a`. */
  function Repeat(a: Action, n: nat): (r: seq<Action>)
    ensures |r| == n
    ensures forall i :: 0 <= i < n ==> r[i] == a
  {
    if n == 0 then [] else Repeat(a, n - 1) + [a]
  }

  /**
   * The first of the attempts `k`, `k + 1`, ... below `MaxTries` whose
   * exit code is 0, or `MaxTries` when every one fails.
   */
  function FirstSuccess(exit: nat -> int, k: nat): (n: nat)
    requires k <= MaxTries
    ensures k <= n <= MaxTries
    ensures forall j :: k <= j < n ==> exit(j) != 0
    ensures n < MaxTries ==> exit(n) == 0
    decreases MaxTries - k
  {
    if k == MaxTries || exit(k) == 0 then k else FirstSuccess(exit, k + 1)
  }

  /**
   * The jom runs `install_engines` makes when attempt `i` exits with
   * `exit(i)`: allowed-to-fail runs up to the first success, and if none
   * of the `MaxTries` succeeds, one single-job run.
   */
  function EngineRuns(cfg: Config, exit: nat -> int): seq<Action>
  {
    var f := FirstSuccess(exit, 0);
    if f < MaxTries then Repeat(JomRun(cfg, AllowFailure), f + 1)
    else Repeat(JomRun(cfg, AllowFailure), MaxTries) + [JomRun(cfg, SingleJob)]
  }

  /** The engines are installed unless all allowed-to-fail runs and the single-job run fail. */
  predicate EnginesSucceed(exit: nat -> int)
  {
    FirstSuccess(exit, 0) < MaxTries || exit(MaxTries) == 0
  }

  /** The message a failed single-job jom run reports. */
  const JomFailed := "jom failed"

  /**
   * `openssl::install_engines`. A run that is not allowed to fail ends the
   * process when it fails.
   */
  method InstallEngines(cfg: Config, exit: nat -> int) returns (r: Outcome)
    ensures r.trace == EngineRuns(cfg, exit)
    ensures r.status == if EnginesSucceed(exit) then Done else Fatal(JomFailed)
  {
    var trace: seq<Action> := [];
    for tries := 0 to MaxTries
      invariant trace == Repeat(JomRun(cfg, AllowFailure), tries)
      invariant forall j :: 0 <= j < tries ==> exit(j) != 0
    {
      trace := trace + [JomRun(cfg, AllowFailure)];
      if exit(tries) == 0 {
        return Outcome(trace, Done);
      }
    }

    // every allowed-to-fail run failed: once more, without parallel jobs
    trace := trace + [JomRun(cfg, SingleJob)];
    if exit(MaxTries) != 0 {
      return Outcome(trace, Fatal(JomFailed));
    }
    r := Outcome(trace, Done);
  }

  /**
   * The retry policy: between 1 and `MaxTries + 1` runs; the runs before
   * the last all failed; the last allowed-to-fail run stops the retries
   * only by succeeding; and a single-job run happens, as the last run,
   * exactly when all `MaxTries` allowed-to-fail runs failed.
   */
  lemma EnginePolicy(cfg: Config, exit: nat -> int)
    ensures var t := EngineRuns(cfg, exit);
      1 <= |t| <= MaxTries + 1 &&
      (forall i :: 0 <= i < |t| - 1 ==> exit(i) != 0 && t[i] == JomRun(cfg, AllowFailure)) &&
      (t[|t| - 1] == JomRun(cfg, AllowFailure) ==> exit(|t| - 1) == 0) &&
      (t[|t| - 1] == JomRun(cfg, SingleJob) <==> forall j :: 0 <= j < MaxTries ==> exit(j) != 0) &&
      (t[|t| - 1] == JomRun(cfg, SingleJob) ==> |t| == MaxTries + 1)
  {
    var t := EngineRuns(cfg, exit);
    var f := FirstSuccess(exit, 0);
    if f < MaxTries {
      assert t[|t| - 1] == JomRun(cfg, AllowFailure);
      assert !(forall j :: 0 <= j < MaxTries ==> exit(j) != 0) by {
        assert exit(f) == 0;
      }
    } else {
      assert t[|t| - 1] == JomRun(cfg, SingleJob);
      forall i | 0 <= i < |t| - 1 ensures t[i] == JomRun(cfg, AllowFailure) {
        assert t[i] == Repeat(JomRun(cfg, AllowFailure), MaxTries)[i];
      }
    }
  }

  /** Two failures then a success: three allowed-to-fail runs, no single-job run. */
  lemma TwoFailuresThenSuccess(cfg: Config, exit: nat -> int)
    requires exit(0) != 0 && exit(1) != 0 && exit(2) == 0
    ensures EngineRuns(cfg, exit) == Repeat(JomRun(cfg, AllowFailure), 3) && EnginesSucceed(exit)
  {
    assert FirstSuccess(exit, 2) == 2;
    assert FirstSuccess(exit, 0) == 2;
  }

  // ---------------------------------------------------------------------
  // Copying the built files
  // ---------------------------------------------------------------------

  /** A file of build_path / "bin". */
  function BinFile(cfg: Config, name: string): Path
  {
    Join(Join(BuildPath(cfg), "bin"), name)
  }

  /** The copies of `<name><ext>` from build_path / "bin" to `dir`, one per name, in order. */
  function CopiesTo(cfg: Config, names: seq<string>, ext: string, dir: Path): (r: seq<Action>)
    ensures |r| == |names|
    ensures forall i :: 0 <= i < |names| ==> r[i] == Copy(BinFile(cfg, names[i] + ext), dir)
  {
    if names == [] then []
    else CopiesTo(cfg, names[..|names| - 1], ext, dir) + [Copy(BinFile(cfg, names[|names| - 1] + ext), dir)]
  }

  /** `openssl::copy_dlls_to`, given the output names. */
  method CopyDllsTo(cfg: Config, names: seq<string>, dir: Path) returns (trace: seq<Action>)
    ensures trace == CopiesTo(cfg, names, ".dll", dir)
  {
    trace := [];
    for i := 0 to |names|
      invariant trace == CopiesTo(cfg, names[..i], ".dll", dir)
    {
      assert names[..i + 1][..i] == names[..i];
      trace := trace + [Copy(BinFile(cfg, names[i] + ".dll"), dir)];
    }
    assert names[..|names|] == names;
  }

  /** `openssl::copy_pdbs_to`, given the output names. */
  method CopyPdbsTo(cfg: Config, names: seq<string>, dir: Path) returns (trace: seq<Action>)
    ensures trace == CopiesTo(cfg, names, ".pdb", dir)
  {
    trace := [];
    for i := 0 to |names|
      invariant trace == CopiesTo(cfg, names[..i], ".pdb", dir)
    {
      assert names[..i + 1][..i] == names[..i];
      trace := trace + [Copy(BinFile(cfg, names[i] + ".pdb"), dir)];
    }
    assert names[..|names|] == names;
  }

  /** The applink.c copy `copy_files` starts with. */
  function ApplinkCopy(cfg: Config): Action
  {
    Copy(Join(Join(SourcePath(cfg), "ms"), "applink.c"), IncludePath(cfg))
  }

  /** The copies `copy_files` makes once the output names are known. */
  function CopySteps(cfg: Config, names: seq<string>): seq<Action>
  {
    [ApplinkCopy(cfg)]
      + CopiesTo(cfg, names, ".dll", cfg.installBin)
      + CopiesTo(cfg, names, ".dll", cfg.installDlls)
      + CopiesTo(cfg, names, ".pdb", cfg.installPdbs)
  }

  /**
   * `openssl::copy_files`. The output names need the parsed version, so a
   * malformed version fails after the applink.c copy.
   */
  method CopyFiles(cfg: Config) returns (r: Outcome)
    ensures OutputNames(cfg.version).Ok? ==> r == Outcome(CopySteps(cfg, OutputNames(cfg.version).value), Done)
    ensures OutputNames(cfg.version).Err? ==> r == Outcome([ApplinkCopy(cfg)], Fatal(BadVersion(cfg.version)))
  {
    var trace := [ApplinkCopy(cfg)];
    var names := OutputNames(cfg.version);
    if names.Err? {
      return Outcome(trace, Fatal(names.message));
    }
    var bin := CopyDllsTo(cfg, names.value, cfg.installBin);
    trace := trace + bin;
    var dlls := CopyDllsTo(cfg, names.value, cfg.installDlls);
    trace := trace + dlls;
    var pdbs := CopyPdbsTo(cfg, names.value, cfg.installPdbs);
    trace := trace + pdbs;
    r := Outcome(trace, Done);
  }

  /**
   * With two output names: applink.c, the two DLLs to install_bin, the
   * same two to install_dlls, then the two PDBs to install_pdbs.
   */
  lemma CopyStepsForm(cfg: Config, crypto: string, ssl: string)
    ensures CopySteps(cfg, [crypto, ssl]) ==
      [ApplinkCopy(cfg),
       Copy(BinFile(cfg, crypto + ".dll"), cfg.installBin), Copy(BinFile(cfg, ssl + ".dll"), cfg.installBin),
       Copy(BinFile(cfg, crypto + ".dll"), cfg.installDlls), Copy(BinFile(cfg, ssl + ".dll"), cfg.installDlls),
       Copy(BinFile(cfg, crypto + ".pdb"), cfg.installPdbs), Copy(BinFile(cfg, ssl + ".pdb"), cfg.installPdbs)]
  {
  }

  // ---------------------------------------------------------------------
  // Build and install
  // ---------------------------------------------------------------------

  /** The makefile whose presence means openssl is already configured. */
  function Makefile(cfg: Config): Path
  {
    Join(SourcePath(cfg), "makefile")
  }

  /**
   * `openssl::do_build_and_install`: configure unless the makefile exists,
   * then install the engines, then copy the files. `present` is the set of
   * paths that exist; `exit(i)` is the exit code of the `i`-th jom run.
   */
  method DoBuildAndInstall(cfg: Config, present: set<Path>, exit: nat -> int) returns (r: Outcome)
    ensures var conf := if Makefile(cfg) in present then [] else [ConfigureRun(cfg)];
      if !EnginesSucceed(exit) then r == Outcome(conf + EngineRuns(cfg, exit), Fatal(JomFailed))
      else match OutputNames(cfg.version)
        case Err(_) => r == Outcome(conf + EngineRuns(cfg, exit) + [ApplinkCopy(cfg)], Fatal(BadVersion(cfg.version)))
        case Ok(names) => r == Outcome(conf + EngineRuns(cfg, exit) + CopySteps(cfg, names), Done)
  {
    var trace: seq<Action> := [];
    if Makefile(cfg) !in present {
      trace := [ConfigureRun(cfg)];
    }

    var engines := InstallEngines(cfg, exit);
    trace := trace + engines.trace;
    if engines.status.Fatal? {
      return Outcome(trace, engines.status);
    }

    var files := CopyFiles(cfg);
    r := Outcome(trace + files.trace, files.status);
  }

  /**
   * Configure runs exactly when the makefile is missing, and first; every
   * run that follows it is a jom run of the engines, then the copies.
   */
  lemma ConfigureIffNoMakefile(cfg: Config, present: set<Path>, exit: nat -> int, rest: seq<Action>)
    requires forall i :: 0 <= i < |rest| ==> rest[i].Copy?
    ensures var conf := if Makefile(cfg) in present then [] else [ConfigureRun(cfg)];
      var t := conf + EngineRuns(cfg, exit) + rest;
      (exists i :: 0 <= i < |t| && t[i] == ConfigureRun(cfg)) <==> Makefile(cfg) !in present
  {
    var conf := if Makefile(cfg) in present then [] else [ConfigureRun(cfg)];
    var e := EngineRuns(cfg, exit);
    var t := conf + e + rest;
    EnginePolicy(cfg, exit);
    if Makefile(cfg) !in present {
      assert t[0] == ConfigureRun(cfg);
    } else {
      forall i | 0 <= i < |t| ensures t[i] != ConfigureRun(cfg) {
        if i < |e| {
          assert t[i] == e[i];
          assert e[i].RunJom? by {
            if i < |e| - 1 {
            } else {
              assert e[i] == JomRun(cfg, AllowFailure) || e[i] == JomRun(cfg, SingleJob);
            }
          }
        } else {
          assert t[i] == rest[i - |e|];
        }
      }
    }
  }
}
