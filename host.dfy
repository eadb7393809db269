// The records of config/fetcher.go and the host environment the supervisor
// runs against. The host is abstract: files are a map from path to contents,
// and every answer the operating system or the network gives (success or a
// failure with its message) is an input of the operation that asks for it.

module Records {

  /** AppConfig, persisted as app_config.json. */
  datatype AppConfig = AppConfig(subscriptionURL: string, currentSingBoxVersion: string)

  /** DeliveryConfig, the remote manifest describing the current sing-box build. */
  datatype DeliveryConfig = DeliveryConfig(
    defaultSubscriptionURL: string,
    singBoxLicenseFile: string,
    singBoxZipURL: string,
    singBoxVersion: string,
    inArchiveExecPath: string)
}

module Host {
  import opened Records

  datatype Option<T> = None | Some(value: T)

  datatype Result<T, E> = Ok(value: T) | Err(error: E)

  /** The answer to one operating-system or network request without a value:
      success, or an error with its message. */
  datatype Outcome = Pass | Fail(cause: string)

  /** os.Executable followed by filepath.Dir: the program's directory or the
      error message. */
  datatype ExeDir = Located(dir: string) | Unlocated(cause: string)

  /** The answer to os.WriteFile, which opens the file with O_CREATE and
      O_TRUNC before it writes: the open fails and nothing changes; the write
      (or the close) fails once the file is open, leaving only the first
      `kept` characters; or the whole content is written. */
  datatype WriteOutcome = Written | OpenFailed(cause: string) | WriteFailed(kept: nat, cause: string)

  /** The first `n` characters of `s`, or all of it when it is shorter. */
  function Prefix(s: string, n: nat): (p: string)
    ensures p <= s
    ensures |p| == if n < |s| then n else |s|
  {
    if n < |s| then s[..n] else s
  }

  /** A regular file: its permission bits and its contents. */
  datatype FileData = FileData(mode: nat, content: string)

  /** What os.Stat reports about a path. */
  datatype StatResult = Found | Missing | StatFailed

  /** The contents of app_config.json as the JSON decoder sees them. */
  datatype Slot =
    | Absent                       // the file does not exist
    | Unreadable(cause: string)    // reading fails with an error other than not-exist
    | Malformed(cause: string)     // the file is read but is not a valid record
    | Stored(record: AppConfig)    // the file holds this record

  /** The reply to an HTTP GET. */
  datatype HttpResponse =
    | TransportError(cause: string)
    | Response(status: nat, statusText: string, body: Body)

  /** Reading the response body: everything, or what arrived before an error. */
  datatype Body = Read(data: string) | ReadError(received: string, cause: string)

  const DefaultFileMode: nat := 0x1A4  // 0644, os.WriteFile's permission here
  const CreateFileMode: nat := 0x1B6   // 0666, os.Create's permission

  /** The file at `path`, if there is one. */
  function Lookup(files: map<string, FileData>, path: string): Option<FileData>
  {
    if path in files then Some(files[path]) else None
  }

  /** A frame that leaves out the paths `a` holds when more paths are left out. */
  lemma FrameWiden(before: map<string, FileData>, after: map<string, FileData>, a: set<string>, b: set<string>)
    requires after - a == before - a && a <= b
    ensures after - b == before - b
  {
    assert after - b == (after - a) - b;
    assert before - b == (before - a) - b;
  }

  /** A frame keeps every path it does not leave out. */
  lemma FrameLookup(before: map<string, FileData>, after: map<string, FileData>, a: set<string>, path: string)
    requires after - a == before - a && path !in a
    ensures Lookup(after, path) == Lookup(before, path)
  {
    assert path in after <==> path in after - a;
    assert path in before <==> path in before - a;
    if path in after {
      assert after[path] == (after - a)[path];
    }
    if path in before {
      assert before[path] == (before - a)[path];
    }
  }

  /** The part of the host filesystem the program touches. */
  class Store {
    var files: map<string, FileData>
    /** Paths whose os.Stat fails with an error other than not-exist. */
    var broken: set<string>
    /** app_config.json in the data directory. */
    var appConfig: Slot

    constructor (files: map<string, FileData>, broken: set<string>, appConfig: Slot)
      ensures this.files == files && this.broken == broken && this.appConfig == appConfig
    {
      this.files := files;
      this.broken := broken;
      this.appConfig := appConfig;
    }

    function Stat(path: string): (r: StatResult)
      reads this
      ensures r == Found <==> path !in broken && path in files
      ensures r == Missing <==> path !in broken && path !in files
    {
      if path in broken then StatFailed else if path in files then Found else Missing
    }

    /** The permission bits a file has after os.OpenFile with O_CREATE and
        `perm`: `perm` only when the call creates the file. */
    function ModeAfterOpen(path: string, perm: nat): nat
      reads this
    {
      if path in files then files[path].mode else perm
    }

    /** The files once os.WriteFile of `content` at `path` has been answered
        with `result`: unchanged when the open fails, otherwise `path` holds
        what was written with the mode the open left, and no other path
        changes. */
    function AfterWrite(path: string, content: string, perm: nat, result: WriteOutcome): (after: map<string, FileData>)
      reads this
      ensures result.OpenFailed? ==> after == files
      ensures !result.OpenFailed? ==>
        path in after && after[path].mode == ModeAfterOpen(path, perm) && after - {path} == files - {path}
      ensures result.Written? ==> after[path].content == content
      ensures result.WriteFailed? ==> after[path].content == Prefix(content, result.kept)
    {
      match result
      case OpenFailed(_) => files
      case Written => files[path := FileData(ModeAfterOpen(path, perm), content)]
      case WriteFailed(kept, _) => files[path := FileData(ModeAfterOpen(path, perm), Prefix(content, kept))]
    }

    /** os.WriteFile: creates or truncates `path` and writes `content`. */
    method WriteFile(path: string, content: string, perm: nat, result: WriteOutcome)
      modifies this
      ensures files == old(AfterWrite(path, content, perm, result))
      ensures broken == old(broken) && appConfig == old(appConfig)
    {
      files := AfterWrite(path, content, perm, result);
    }

    /** os.Remove. */
    method Remove(path: string, result: Outcome)
      modifies this
      ensures result.Pass? ==> files == old(files) - {path}
      ensures result.Fail? ==> files == old(files)
      ensures broken == old(broken) && appConfig == old(appConfig)
    {
      if result.Pass? {
        files := files - {path};
      }
    }

    /** os.Rename; it cannot succeed when the source is not a file. */
    method Rename(from: string, to: string, result: Outcome) returns (ok: bool)
      modifies this
      ensures ok <==> result.Pass? && from in old(files)
      ensures ok ==> files == (old(files) - {from})[to := old(files)[from]]
      ensures !ok ==> files == old(files)
      ensures broken == old(broken) && appConfig == old(appConfig)
    {
      ok := result.Pass? && from in files;
      if ok {
        files := (files - {from})[to := files[from]];
      }
    }
  }
}
