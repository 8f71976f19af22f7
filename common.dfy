/**
 * Values shared by the dependency tasks: paths, URLs, target architectures,
 * the clean flag set, and the side effects a task performs, recorded as a
 * trace of `Action` values instead of being carried out.
 */
module Common {

  /** A filesystem path as its list of components; `p + [name]` is `p / name`. */
  type Path = seq<string>

  /** `p / name` */
  function Join(p: Path, name: string): Path
  {
    p + [name]
  }

  /** A value or the message of a fatal `bail_out`. */
  datatype Result<T> = Ok(value: T) | Err(message: string)

  /** How a lifecycle step ended: normally, or by a fatal error that stops the process. */
  datatype Status = Done | Fatal(message: string)

  /** The side effects a step performed, in order, and how it ended. */
  datatype Outcome = Outcome(trace: seq<Action>, status: Status)

  /** Target architectures; `Unsupported` stands for any other value of the enumeration. */
  datatype Arch = X86 | X64 | DontCare | Unsupported(code: int)

  /**
   * What a downloader is given: a plain web address, or the file name of an
   * archive on the prebuilt server (the server's address is not modelled).
   */
  datatype Url = Web(address: string) | PrebuiltArchive(file: string)

  /** One argument of an external process: a word, `name` + text, or `name` + path. */
  datatype Arg = Word(text: string) | Named(name: string, value: string) | NamedPath(name: string, path: Path)

  /** How jom is asked to run: allowed to fail, or with a single job (not allowed to fail). */
  datatype JomMode = AllowFailure | SingleJob

  /** The operator's clean request: any combination of the four flags. */
  datatype CleanFlags = CleanFlags(redownload: bool, reextract: bool, reconfigure: bool, rebuild: bool)

  const NoFlags := CleanFlags(false, false, false, false)

  /**
   * A side effect. Deleting is best-effort when `optional` holds (a missing
   * target is not an error). `Extract(u, d)` extracts the archive the
   * downloader fetched for `u` into `d`.
   */
  datatype Action =
    | DeleteDir(path: Path, optional: bool)
    | DeleteFile(path: Path, optional: bool)
    | CleanDownload(url: Url)
    | Download(url: Url)
    | Extract(archive: Url, into: Path)
    | RunProcess(binary: Path, args: seq<Arg>, cwd: Path, vsEnv: Option<Arch>, errorLog: Option<Path>)
    | RunB2(b2: Path, b2Args: seq<Arg>, b2Cwd: Path, b2Env: Arch)
    | RunJom(cwd: Path, target: string, mode: JomMode)
    | Copy(file: Path, toDir: Path)
    | WriteFile(path: Path, content: string)

  datatype Option<T> = None | Some(value: T)
}
