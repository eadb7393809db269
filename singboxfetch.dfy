// The decision rules and file steps of vpn/singboxfetcher.go that do not
// touch the controller's fields: whether a download is needed, fetching one
// file, and extracting the executable from the archive.

module SingBoxFetch {
  import opened Records
  import opened Host
  import opened Layout
  import opened Fetcher

  /** isDownloadNeeded, evaluated in order: a missing binary is always
      downloaded; without a cached manifest nothing is decided; an error while
      comparing versions means no download; otherwise a mismatch decides. */
  function DownloadNeeded(binaryExists: bool, cached: Option<DeliveryConfig>, slot: Slot, env: LoadEnv):
    (needed: bool)
    ensures !binaryExists ==> needed
    ensures binaryExists && cached.None? ==> !needed
    ensures binaryExists && cached.Some? ==>
      (needed <==> CheckSingBoxVersionMismatch(slot, env, cached.value) == (true, None))
  {
    if !binaryExists then true
    else if cached.None? then false
    else
      var check := CheckSingBoxVersionMismatch(slot, env, cached.value);
      if check.1.Some? then false else check.0
  }

  /** The lines isDownloadNeeded logs on its way to the decision. */
  function DownloadNeededLog(binaryExists: bool, cached: Option<DeliveryConfig>, slot: Slot, env: LoadEnv):
    seq<string>
  {
    if !binaryExists then [SingBoxExeName + " not found, will download..."]
    else if cached.None? then ["No delivery config available, skipping version check"]
    else
      var check := CheckSingBoxVersionMismatch(slot, env, cached.value);
      if check.1.Some? then ["Error checking version: " + Message(check.1.value)]
      else if check.0 then ["sing-box version mismatch detected, updating..."]
      else []
  }

  /** For a present binary whose manifest version has just been recorded, no
      download is needed, whether or not the comparison can reload the record. */
  lemma RecordedVersionNeedsNoDownload(slot: Slot, load: LoadEnv, reload: LoadEnv, manifest: DeliveryConfig)
    requires LoadAppConfig(slot, load).Ok? && manifest.singBoxVersion != ""
    ensures !DownloadNeeded(true, Some(manifest),
                            Stored(LoadAppConfig(slot, load).value.(currentSingBoxVersion := manifest.singBoxVersion)),
                            reload)
  {
    if LoadEnvWorks(reload) {
      UpdatedVersionMatches(slot, load, reload, manifest);
    }
  }

  /** One entry of the downloaded archive, as the zip reader lists it. */
  datatype ZipEntry = ZipEntry(name: string, mode: nat, content: string)

  /** The index of the first entry named exactly `name`. */
  function FirstMatch(entries: seq<ZipEntry>, name: string): (r: Option<nat>)
    ensures r.Some? ==> r.value < |entries| && entries[r.value].name == name
    ensures r.Some? ==> forall j :: 0 <= j < r.value ==> entries[j].name != name
    ensures r.None? ==> forall j :: 0 <= j < |entries| ==> entries[j].name != name
  {
    if entries == [] then None
    else if entries[0].name == name then Some(0)
    else match FirstMatch(entries[1..], name)
      case None => None
      case Some(i) => Some(i + 1)
  }

  /** The scan of extractSingBoxFromZip: skip entries until one is named
      `name`, and stop at the first. */
  method SelectEntry(entries: seq<ZipEntry>, name: string) returns (idx: Option<nat>)
    ensures idx == FirstMatch(entries, name)
  {
    var i := 0;
    while i < |entries|
      invariant 0 <= i <= |entries|
      invariant forall j :: 0 <= j < i ==> entries[j].name != name
    {
      if entries[i].name == name {
        return Some(i);
      }
      i := i + 1;
    }
    return None;
  }

  /** How io.Copy ends: everything copied, or what was written before an error. */
  datatype CopyOutcome = Copied | CopyFailed(written: string, cause: string)

  /** What the host answers during extractSingBoxFromZip: opening the archive
      and the entries it lists, opening the chosen entry, opening the target
      file, and the copy. */
  datatype ExtractOracle = ExtractOracle(
    openZip: Outcome, entries: seq<ZipEntry>, openEntry: Outcome, openTarget: Outcome, copy: CopyOutcome)

  /** What the host answers during downloadFile: the HTTP reply and creating
      the local file. */
  datatype DownloadOracle = DownloadOracle(resp: HttpResponse, create: Outcome)

  predicate DownloadSucceeds(o: DownloadOracle)
  {
    o.resp.Response? && o.resp.status == 200 && o.create.Pass? && o.resp.body.Read?
  }

  predicate ExtractSucceeds(o: ExtractOracle, execPath: string)
  {
    o.openZip.Pass? && FirstMatch(o.entries, execPath).Some? && o.openEntry.Pass? && o.openTarget.Pass? && o.copy.Copied?
  }

  /** extractSingBoxFromZip gets as far as opening the target, which
      truncates an installed binary. */
  predicate OpensTarget(o: ExtractOracle, execPath: string)
  {
    o.openZip.Pass? && FirstMatch(o.entries, execPath).Some? && o.openEntry.Pass? && o.openTarget.Pass?
  }

  /** downloadFile: GETs `url` into `<dataDir>/<filename>`. A status other than
      200 is an error and leaves the file alone; a body that breaks off leaves
      what arrived in the (truncated) file. */
  method DownloadFile(fs: Store, appDir: string, filename: string, o: DownloadOracle)
    returns (err: Option<ConfigError>)
    modifies fs
    ensures o.resp.TransportError? ==> err == Some(Raw(o.resp.cause))
    ensures o.resp.Response? && o.resp.status != 200 ==> err == Some(HttpStatus(o.resp.status, o.resp.statusText))
    ensures err.None? <==> DownloadSucceeds(o)
    ensures !(o.resp.Response? && o.resp.status == 200 && o.create.Pass?) ==> fs.files == old(fs.files)
    ensures o.resp.Response? && o.resp.status == 200 && o.create.Pass? ==>
      var path := Join(Layout.DataDir(appDir), filename);
      var mode := old(fs.ModeAfterOpen(path, CreateFileMode));
      fs.files == old(fs.files)[path := FileData(mode, if o.resp.body.Read? then o.resp.body.data else o.resp.body.received)]
    ensures fs.broken == old(fs.broken) && fs.appConfig == old(fs.appConfig)
  {
    if o.resp.TransportError? {
      return Some(Raw(o.resp.cause));
    }
    if o.resp.status != 200 {
      return Some(HttpStatus(o.resp.status, o.resp.statusText));
    }
    var path := Join(Layout.DataDir(appDir), filename);
    if o.create.Fail? {
      return Some(Raw(o.create.cause));
    }
    var mode := fs.ModeAfterOpen(path, CreateFileMode);
    match o.resp.body {
      case Read(data) =>
        fs.files := fs.files[path := FileData(mode, data)];
        return None;
      case ReadError(received, cause) =>
        fs.files := fs.files[path := FileData(mode, received)];
        return Some(Raw(cause));
    }
  }

  /** extractSingBoxFromZip: writes the first entry named exactly `execPath`
      to `<dest>/sing-box.exe`, opened with the entry's permission bits. With
      no such entry nothing is touched and a not-found error is returned. */
  method ExtractSingBoxFromZip(fs: Store, src: string, dest: string, execPath: string, o: ExtractOracle)
    returns (err: Option<string>)
    modifies fs
    ensures o.openZip.Fail? ==> err == Some(o.openZip.cause) && fs.files == old(fs.files)
    ensures o.openZip.Pass? && FirstMatch(o.entries, execPath).None? ==>
      err == Some("sing-box.exe not found in " + src) && fs.files == old(fs.files)
    ensures err.None? <==> ExtractSucceeds(o, execPath)
    ensures !OpensTarget(o, execPath) ==> fs.files == old(fs.files)
    ensures OpensTarget(o, execPath) ==>
      var entry := o.entries[FirstMatch(o.entries, execPath).value];
      var target := Join(dest, SingBoxExeName);
      var mode := old(fs.ModeAfterOpen(target, entry.mode));
      fs.files == old(fs.files)[target := FileData(mode, if o.copy.Copied? then entry.content else o.copy.written)]
    ensures fs.broken == old(fs.broken) && fs.appConfig == old(fs.appConfig)
  {
    if o.openZip.Fail? {
      return Some(o.openZip.cause);
    }
    var idx := SelectEntry(o.entries, execPath);
    if idx.None? {
      return Some("sing-box.exe not found in " + src);
    }
    var entry := o.entries[idx.value];
    var target := Join(dest, SingBoxExeName);
    if o.openEntry.Fail? {
      return Some(o.openEntry.cause);
    }
    if o.openTarget.Fail? {
      return Some(o.openTarget.cause);
    }
    var mode := fs.ModeAfterOpen(target, entry.mode);
    match o.copy {
      case Copied =>
        fs.files := fs.files[target := FileData(mode, entry.content)];
        return None;
      case CopyFailed(written, cause) =>
        fs.files := fs.files[target := FileData(mode, written)];
        return Some(cause);
    }
  }

  /** What the host answers during one run of downloadSingBox. */
  datatype PipelineOracle = PipelineOracle(
    mkdir: Outcome, license: DownloadOracle, zip: DownloadOracle, extract: ExtractOracle,
    removeZip: Outcome, load: LoadEnv, save: SaveEnv)

  /** Where a run of downloadSingBox stops. */
  datatype Stage = MkdirFailed | NoManifest | LicenseFailed | ZipFailed | ExtractFailed | Completed

  /** The steps of downloadSingBox in their fixed order; the first one that
      fails ends the run. Deleting the archive and recording the version
      cannot end it. */
  function ExpectedStage(cached: Option<DeliveryConfig>, o: PipelineOracle): Stage
  {
    if o.mkdir.Fail? then MkdirFailed
    else if cached.None? then NoManifest
    else if !DownloadSucceeds(o.license) then LicenseFailed
    else if !DownloadSucceeds(o.zip) then ZipFailed
    else if !ExtractSucceeds(o.extract, cached.value.inArchiveExecPath) then ExtractFailed
    else Completed
  }
}
