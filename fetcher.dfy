// config/fetcher.go: the manifest and subscription fetches, the persisted
// AppConfig record (subscription URL and installed sing-box version) and the
// version comparison the availability monitor relies on.

module Fetcher {
  import opened Records
  import opened Host
  import opened Layout
  import StrUtil

  datatype ConfigError =
    | ExecutablePath(cause: string)
    | DataDir(cause: string)
    | ReadAppConfig(cause: string)
    | ParseAppConfig(cause: string)
    | WriteAppConfig(cause: string)
    | WriteConfig(cause: string)
    | SaveFetched(inner: ConfigError)
    | LoadAppConfigFailed(inner: ConfigError)
    | Raw(cause: string)
    | FetchFrom(url: string, cause: string)
    | HttpStatus(code: nat, status: string)
    | ReadBody(cause: string)
    | ParseJSON(cause: string)

  /** The text fmt.Errorf gives each error. */
  function Message(e: ConfigError): string
  {
    match e
    case ExecutablePath(c) => "failed to get executable path: " + c
    case DataDir(c) => "failed to create data directory: " + c
    case ReadAppConfig(c) => "failed to read app config: " + c
    case ParseAppConfig(c) => "failed to parse app config: " + c
    case WriteAppConfig(c) => "failed to save app config: " + c
    case WriteConfig(c) => "failed to save config: " + c
    case SaveFetched(inner) => "failed to save config: " + Message(inner)
    case LoadAppConfigFailed(inner) => "failed to load app config: " + Message(inner)
    case Raw(c) => c
    case FetchFrom(url, c) => "failed to fetch from " + url + ": " + c
    case HttpStatus(code, status) => "HTTP " + StrUtil.NatToString(code) + ": " + status
    case ReadBody(c) => "failed to read response body: " + c
    case ParseJSON(c) => "failed to parse JSON: " + c
  }

  /** What LoadAppConfig asks of the host: the program directory, creating the
      data directory, and the manifest fetch behind the default URL. */
  datatype LoadEnv = LoadEnv(exe: ExeDir, mkdir: Outcome, manifest: Result<DeliveryConfig, ConfigError>)

  /** What a save asks of the host: the program directory, creating the data
      directory, and writing the file. */
  datatype SaveEnv = SaveEnv(exe: ExeDir, mkdir: Outcome, write: WriteOutcome)

  predicate LoadEnvWorks(env: LoadEnv) { env.exe.Located? && env.mkdir.Pass? }

  /** fetchJSON: a GET whose body, on status 200, is decoded as JSON. `decoded`
      is what json.Unmarshal makes of the body. */
  function FetchJSON(url: string, resp: HttpResponse, decoded: Result<DeliveryConfig, string>):
    (r: Result<DeliveryConfig, ConfigError>)
    ensures r.Ok? <==> resp.Response? && resp.status == 200 && resp.body.Read? && decoded.Ok?
    ensures r.Ok? ==> r.value == decoded.value
    ensures resp.TransportError? ==> r == Err(FetchFrom(url, resp.cause))
    ensures resp.Response? && resp.status != 200 ==> r == Err(HttpStatus(resp.status, resp.statusText))
  {
    match resp
    case TransportError(c) => Err(FetchFrom(url, c))
    case Response(status, text, body) =>
      if status != 200 then Err(HttpStatus(status, text))
      else match body
        case ReadError(_, c) => Err(ReadBody(c))
        case Read(_) =>
          match decoded
          case Err(c) => Err(ParseJSON(c))
          case Ok(m) => Ok(m)
  }

  /** FetchDeliveryConfig: the manifest at the fixed delivery URL. */
  function FetchDeliveryConfig(resp: HttpResponse, decoded: Result<DeliveryConfig, string>):
    (r: Result<DeliveryConfig, ConfigError>)
    ensures r.Ok? <==> resp.Response? && resp.status == 200 && resp.body.Read? && decoded.Ok?
    ensures resp.TransportError? ==> r == Err(FetchFrom(DeliveryConfigURL, resp.cause))
  {
    FetchJSON(DeliveryConfigURL, resp, decoded)
  }

  /** getDefaultSubscriptionURL: the manifest's default URL when the fetch
      succeeded and the URL is set; otherwise the empty string. */
  function DefaultSubscriptionURL(manifest: Result<DeliveryConfig, ConfigError>): (url: string)
    ensures url != "" <==> manifest.Ok? && manifest.value.defaultSubscriptionURL != ""
    ensures url != "" ==> url == manifest.value.defaultSubscriptionURL
  {
    if manifest.Ok? && manifest.value.defaultSubscriptionURL != "" then manifest.value.defaultSubscriptionURL
    else ""
  }

  /** LoadAppConfig over the stored slot. A missing file yields a fresh record
      with the default URL and no version (nothing is written); an empty stored
      URL is replaced by the default. */
  function LoadAppConfig(slot: Slot, env: LoadEnv): (r: Result<AppConfig, ConfigError>)
    ensures env.exe.Unlocated? ==> r == Err(ExecutablePath(env.exe.cause))
    ensures env.exe.Located? && env.mkdir.Fail? ==> r == Err(DataDir(env.mkdir.cause))
    ensures r.Ok? <==> LoadEnvWorks(env) && (slot.Absent? || slot.Stored?)
    ensures LoadEnvWorks(env) && slot.Absent? ==>
      r == Ok(AppConfig(DefaultSubscriptionURL(env.manifest), ""))
    ensures LoadEnvWorks(env) && slot.Unreadable? ==> r == Err(ReadAppConfig(slot.cause))
    ensures LoadEnvWorks(env) && slot.Malformed? ==> r == Err(ParseAppConfig(slot.cause))
    ensures r.Ok? && slot.Stored? ==>
      r.value.currentSingBoxVersion == slot.record.currentSingBoxVersion &&
      r.value.subscriptionURL ==
        (if slot.record.subscriptionURL == "" then DefaultSubscriptionURL(env.manifest)
         else slot.record.subscriptionURL)
    // Reading back a saved record with a URL gives that record.
    ensures LoadEnvWorks(env) && slot.Stored? && slot.record.subscriptionURL != "" ==> r == Ok(slot.record)
  {
    match env.exe
    case Unlocated(c) => Err(ExecutablePath(c))
    case Located(_) =>
      if env.mkdir.Fail? then Err(DataDir(env.mkdir.cause))
      else match slot
        case Absent => Ok(AppConfig(DefaultSubscriptionURL(env.manifest), ""))
        case Unreadable(c) => Err(ReadAppConfig(c))
        case Malformed(c) => Err(ParseAppConfig(c))
        case Stored(rec) =>
          if rec.subscriptionURL == "" then Ok(rec.(subscriptionURL := DefaultSubscriptionURL(env.manifest)))
          else Ok(rec)
  }

  /** SaveAppConfig: writes the whole record to app_config.json. */
  method SaveAppConfig(fs: Store, cfg: AppConfig, env: SaveEnv) returns (err: Option<ConfigError>)
    modifies fs
    ensures env.exe.Unlocated? ==> err == Some(ExecutablePath(env.exe.cause))
    ensures env.exe.Located? && env.mkdir.Fail? ==> err == Some(DataDir(env.mkdir.cause))
    ensures env.exe.Located? && env.mkdir.Pass? && !env.write.Written? ==> err == Some(WriteAppConfig(env.write.cause))
    ensures err.None? <==> env.exe.Located? && env.mkdir.Pass? && env.write.Written?
    ensures err.None? ==> fs.appConfig == Stored(cfg)
    ensures err.Some? ==> fs.appConfig == old(fs.appConfig)
    ensures fs.files == old(fs.files) && fs.broken == old(fs.broken)
  {
    if env.exe.Unlocated? {
      return Some(ExecutablePath(env.exe.cause));
    }
    if env.mkdir.Fail? {
      return Some(DataDir(env.mkdir.cause));
    }
    if !env.write.Written? {
      return Some(WriteAppConfig(env.write.cause));
    }
    fs.appConfig := Stored(cfg);
    return None;
  }

  /** EnsureAppConfigExists: when app_config.json cannot be read, writes a
      record holding the default URL, if there is one. A readable file is never
      rewritten, even when it does not decode. */
  method EnsureAppConfigExists(fs: Store, exe: ExeDir, mkdir: Outcome,
                               manifest: Result<DeliveryConfig, ConfigError>, save: SaveEnv)
    returns (err: Option<ConfigError>)
    modifies fs
    ensures exe.Unlocated? ==> err == Some(ExecutablePath(exe.cause)) && fs.appConfig == old(fs.appConfig)
    ensures exe.Located? && mkdir.Fail? ==> err == Some(DataDir(mkdir.cause)) && fs.appConfig == old(fs.appConfig)
    ensures exe.Located? && mkdir.Pass? && (old(fs.appConfig).Stored? || old(fs.appConfig).Malformed?) ==>
      err.None? && fs.appConfig == old(fs.appConfig)
    ensures DefaultSubscriptionURL(manifest) == "" ==>
      fs.appConfig == old(fs.appConfig) && (exe.Located? && mkdir.Pass? ==> err.None?)
    ensures fs.appConfig != old(fs.appConfig) ==>
      exe.Located? && mkdir.Pass? && (old(fs.appConfig).Absent? || old(fs.appConfig).Unreadable?) &&
      fs.appConfig == Stored(AppConfig(DefaultSubscriptionURL(manifest), ""))
    ensures (exe.Located? && mkdir.Pass? && (old(fs.appConfig).Absent? || old(fs.appConfig).Unreadable?) &&
             DefaultSubscriptionURL(manifest) != "" && save.exe.Located? && save.mkdir.Pass? && save.write.Written?) ==>
      err.None? && fs.appConfig == Stored(AppConfig(DefaultSubscriptionURL(manifest), ""))
    ensures fs.files == old(fs.files) && fs.broken == old(fs.broken)
  {
    if exe.Unlocated? {
      return Some(ExecutablePath(exe.cause));
    }
    if mkdir.Fail? {
      return Some(DataDir(mkdir.cause));
    }
    if fs.appConfig.Absent? || fs.appConfig.Unreadable? {
      var defaultURL := DefaultSubscriptionURL(manifest);
      if defaultURL != "" {
        err := SaveAppConfig(fs, AppConfig(defaultURL, ""), save);
        return;
      }
      return None;
    }
    return None;
  }

  /** CheckSingBoxVersionMismatch: a failed load reports a mismatch together
      with the error; no stored version is a mismatch; otherwise the stored and
      the manifest versions are compared. */
  function CheckSingBoxVersionMismatch(slot: Slot, env: LoadEnv, manifest: DeliveryConfig):
    (r: (bool, Option<ConfigError>))
    ensures LoadAppConfig(slot, env).Err? ==> r == (true, Some(LoadAppConfigFailed(LoadAppConfig(slot, env).error)))
    ensures LoadAppConfig(slot, env).Ok? ==> r.1.None?
    ensures LoadAppConfig(slot, env).Ok? ==>
      (r.0 <==> LoadAppConfig(slot, env).value.currentSingBoxVersion == "" ||
                LoadAppConfig(slot, env).value.currentSingBoxVersion != manifest.singBoxVersion)
  {
    var loaded := LoadAppConfig(slot, env);
    if loaded.Err? then (true, Some(LoadAppConfigFailed(loaded.error)))
    else if loaded.value.currentSingBoxVersion == "" then (true, None)
    else (loaded.value.currentSingBoxVersion != manifest.singBoxVersion, None)
  }

  /** The slot once UpdateSingBoxVersion has recorded `version`: the loaded
      record with only its version replaced when loading and saving succeed,
      otherwise the slot as it was. */
  function VersionRecorded(slot: Slot, version: string, load: LoadEnv, save: SaveEnv): (after: Slot)
    ensures after != slot ==> after.Stored? && after.record.currentSingBoxVersion == version
    ensures LoadAppConfig(slot, load).Ok? && save.exe.Located? && save.mkdir.Pass? && save.write.Written? ==>
      after == Stored(LoadAppConfig(slot, load).value.(currentSingBoxVersion := version))
  {
    var loaded := LoadAppConfig(slot, load);
    if loaded.Ok? && save.exe.Located? && save.mkdir.Pass? && save.write.Written? then
      Stored(loaded.value.(currentSingBoxVersion := version))
    else slot
  }

  /** UpdateSingBoxVersion: loads the record, replaces only the installed
      version and saves it. */
  method UpdateSingBoxVersion(fs: Store, version: string, load: LoadEnv, save: SaveEnv)
    returns (err: Option<ConfigError>)
    modifies fs
    ensures LoadAppConfig(old(fs.appConfig), load).Err? ==>
      err == Some(LoadAppConfigFailed(LoadAppConfig(old(fs.appConfig), load).error)) &&
      fs.appConfig == old(fs.appConfig)
    ensures err.None? <==> LoadAppConfig(old(fs.appConfig), load).Ok? && save.exe.Located? && save.mkdir.Pass? && save.write.Written?
    ensures err.None? ==>
      fs.appConfig == Stored(LoadAppConfig(old(fs.appConfig), load).value.(currentSingBoxVersion := version))
    ensures err.Some? ==> fs.appConfig == old(fs.appConfig)
    ensures fs.appConfig == VersionRecorded(old(fs.appConfig), version, load, save)
    ensures fs.files == old(fs.files) && fs.broken == old(fs.broken)
  {
    var loaded := LoadAppConfig(fs.appConfig, load);
    if loaded.Err? {
      return Some(LoadAppConfigFailed(loaded.error));
    }
    err := SaveAppConfig(fs, loaded.value.(currentSingBoxVersion := version), save);
  }

  /** A version written by UpdateSingBoxVersion is what the next comparison
      against the same manifest reads back: no mismatch, whatever defaults the
      reload applies, as long as the version is not empty. */
  lemma UpdatedVersionMatches(slot: Slot, load: LoadEnv, reload: LoadEnv, manifest: DeliveryConfig)
    requires LoadAppConfig(slot, load).Ok? && LoadEnvWorks(reload)
    requires manifest.singBoxVersion != ""
    ensures CheckSingBoxVersionMismatch(
      Stored(LoadAppConfig(slot, load).value.(currentSingBoxVersion := manifest.singBoxVersion)),
      reload, manifest) == (false, None)
  {
  }

  /** An empty stored URL is replaced on load, so updating the version
      persists the default URL along with it. */
  lemma UpdatePersistsDefaultURL(rec: AppConfig, load: LoadEnv, version: string)
    requires LoadEnvWorks(load) && rec.subscriptionURL == ""
    ensures LoadAppConfig(Stored(rec), load).Ok?
    ensures LoadAppConfig(Stored(rec), load).value.(currentSingBoxVersion := version) ==
      AppConfig(DefaultSubscriptionURL(load.manifest), version)
  {
  }

  /** GetConfigPath: config.json in the data directory next to the program. */
  function GetConfigPath(exe: ExeDir): (r: Result<string, ConfigError>)
    ensures exe.Unlocated? ==> r == Err(ExecutablePath(exe.cause))
    ensures exe.Located? ==> r == Ok(ConfigPath(exe.dir))
  {
    match exe
    case Unlocated(c) => Err(ExecutablePath(c))
    case Located(dir) => Ok(ConfigPath(dir))
  }

  /** SaveConfig: writes the subscription's sing-box configuration to
      config.json. */
  method SaveConfig(fs: Store, content: string, env: SaveEnv) returns (err: Option<ConfigError>)
    modifies fs
    ensures env.exe.Unlocated? ==> err == Some(ExecutablePath(env.exe.cause))
    ensures env.exe.Located? && env.mkdir.Fail? ==> err == Some(DataDir(env.mkdir.cause))
    ensures env.exe.Located? && env.mkdir.Pass? && !env.write.Written? ==> err == Some(WriteConfig(env.write.cause))
    ensures err.None? <==> env.exe.Located? && env.mkdir.Pass? && env.write.Written?
    ensures err.None? ==>
      fs.files == old(fs.files)[ConfigPath(env.exe.dir) :=
                                 FileData(old(fs.ModeAfterOpen(ConfigPath(env.exe.dir), DefaultFileMode)), content)]
    // Once the data directory is there, config.json is what os.WriteFile
    // left, even when it failed after truncating the file.
    ensures env.exe.Located? && env.mkdir.Pass? ==>
      fs.files == old(fs.AfterWrite(ConfigPath(env.exe.dir), content, DefaultFileMode, env.write))
    ensures !(env.exe.Located? && env.mkdir.Pass?) ==> fs.files == old(fs.files)
    ensures err.Some? && !env.write.WriteFailed? ==> fs.files == old(fs.files)
    ensures fs.appConfig == old(fs.appConfig) && fs.broken == old(fs.broken)
  {
    if env.exe.Unlocated? {
      return Some(ExecutablePath(env.exe.cause));
    }
    if env.mkdir.Fail? {
      return Some(DataDir(env.mkdir.cause));
    }
    fs.WriteFile(ConfigPath(env.exe.dir), content, DefaultFileMode, env.write);
    if !env.write.Written? {
      return Some(WriteConfig(env.write.cause));
    }
    return None;
  }

  /** FetchConfig gets as far as os.WriteFile of config.json: a readable
      reply with status 200, a located program and its data directory. */
  predicate ReachesConfigWrite(resp: HttpResponse, save: SaveEnv)
  {
    resp.Response? && resp.status == 200 && resp.body.Read? && save.exe.Located? && save.mkdir.Pass?
  }

  /** FetchConfig: downloads the subscription's configuration and returns it
      only once it has been written to config.json; any status other than 200
      is an error. */
  method FetchConfig(fs: Store, url: string, resp: HttpResponse, save: SaveEnv)
    returns (r: Result<string, ConfigError>)
    modifies fs
    ensures resp.TransportError? ==> r == Err(Raw(resp.cause))
    ensures resp.Response? && resp.status != 200 ==> r == Err(HttpStatus(resp.status, resp.statusText))
    ensures resp.Response? && resp.status == 200 && resp.body.ReadError? ==> r == Err(Raw(resp.body.cause))
    ensures r.Ok? <==> ReachesConfigWrite(resp, save) && save.write.Written?
    ensures r.Ok? ==>
      r.value == resp.body.data &&
      fs.files == old(fs.files)[ConfigPath(save.exe.dir) :=
                                 FileData(old(fs.ModeAfterOpen(ConfigPath(save.exe.dir), DefaultFileMode)), resp.body.data)]
    ensures ReachesConfigWrite(resp, save) && !save.write.Written? ==>
      r == Err(SaveFetched(WriteConfig(save.write.cause)))
    ensures ReachesConfigWrite(resp, save) ==>
      fs.files == old(fs.AfterWrite(ConfigPath(save.exe.dir), resp.body.data, DefaultFileMode, save.write))
    // An error leaves the files alone, except that a write failing after the
    // open leaves config.json truncated to what was written.
    ensures !ReachesConfigWrite(resp, save) ==> fs.files == old(fs.files)
    ensures r.Err? && !(ReachesConfigWrite(resp, save) && save.write.WriteFailed?) ==> fs.files == old(fs.files)
    ensures fs.appConfig == old(fs.appConfig) && fs.broken == old(fs.broken)
  {
    if resp.TransportError? {
      return Err(Raw(resp.cause));
    }
    if resp.status != 200 {
      return Err(HttpStatus(resp.status, resp.statusText));
    }
    if resp.body.ReadError? {
      return Err(Raw(resp.body.cause));
    }
    var e := SaveConfig(fs, resp.body.data, save);
    if e.Some? {
      return Err(SaveFetched(e.value));
    }
    return Ok(resp.body.data);
  }
}
