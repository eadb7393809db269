// config/watcher.go: re-fetches the subscription's configuration every
// minute while a URL is set. Start and Stop are idempotent; the watcher's
// context is created once, so a Start after a Stop marks the watcher running
// but its loop ends at once.

module ConfigWatch {
  import opened Host
  import Fetcher
  import Layout

  class Watcher {
    var url: string
    var isRunning: bool
    /** The context of NewConfigWatcher has been cancelled. */
    var cancelled: bool
    /** A watchLoop goroutine is ticking. */
    var loopAlive: bool
    /** The lines sent to the logger, oldest first. */
    var log: seq<string>

    /** A loop ticks exactly while the watcher runs on a live context. */
    predicate Valid()
      reads this
    {
      loopAlive <==> isRunning && !cancelled
    }

    /** NewConfigWatcher. */
    constructor ()
      ensures url == "" && !isRunning && !cancelled && !loopAlive && log == []
      ensures Valid()
    {
      url := "";
      isRunning := false;
      cancelled := false;
      loopAlive := false;
      log := [];
    }

    /** Start: nothing when running; otherwise marks the watcher running and
        starts a loop, which lives only if the context does. */
    method Start()
      requires Valid()
      modifies this
      ensures Valid() && isRunning
      ensures old(isRunning) ==> loopAlive == old(loopAlive)
      ensures loopAlive <==> !cancelled
      ensures url == old(url) && cancelled == old(cancelled) && log == old(log)
    {
      if isRunning {
        return;
      }
      isRunning := true;
      loopAlive := !cancelled;
    }

    /** Stop: nothing when not running; otherwise logs, cancels the context
        for good and marks the watcher stopped. */
    method Stop()
      requires Valid()
      modifies this
      ensures Valid() && !isRunning && !loopAlive
      ensures !old(isRunning) ==> cancelled == old(cancelled) && log == old(log)
      ensures old(isRunning) ==> cancelled && log == old(log) + ["Config watcher stopped"]
      ensures url == old(url)
    {
      if !isRunning {
        return;
      }
      log := log + ["Config watcher stopped"];
      cancelled := true;
      isRunning := false;
      loopAlive := false;
    }

    /** UpdateURL: always stores the URL, even an empty one; announces it
        only when it is non-empty and new. */
    method UpdateURL(newURL: string)
      modifies this
      ensures url == newURL
      ensures log == old(log) + (if newURL != "" && newURL != old(url) then ["Watching sing-box config: " + newURL] else [])
      ensures isRunning == old(isRunning) && cancelled == old(cancelled) && loopAlive == old(loopAlive)
    {
      if newURL != "" && url != newURL {
        log := log + ["Watching sing-box config: " + newURL];
      }
      url := newURL;
    }

    /** One tick of watchLoop (checkAndUpdateConfig): without a URL nothing
        is fetched; a fetch error is only logged. `fetched` is the outcome of
        FetchConfig, when it ran. */
    method CheckAndUpdateConfig(fs: Store, resp: HttpResponse, save: Fetcher.SaveEnv)
      returns (fetched: Option<Result<string, Fetcher.ConfigError>>)
      requires Valid() && loopAlive
      modifies this, fs
      ensures Valid()
      ensures url == "" ==> fetched.None? && fs.files == old(fs.files) && log == old(log)
      ensures url != "" ==> fetched.Some?
      ensures fetched.Some? ==>
        (fetched.value.Ok? <==> resp.Response? && resp.status == 200 && resp.body.Read? &&
                                save.exe.Located? && save.mkdir.Pass? && save.write.Written?)
      ensures fetched.Some? && fetched.value.Ok? ==> fetched.value.value == resp.body.data && log == old(log)
      ensures fetched.Some? && fetched.value.Err? ==>
        log == old(log) + ["Config watcher: Error fetching config - " + Fetcher.Message(fetched.value.error)]
      // Only config.json can change: it is what os.WriteFile left, when the
      // fetch got that far.
      ensures fetched.Some? ==>
        fs.files == if Fetcher.ReachesConfigWrite(resp, save)
                    then old(fs.AfterWrite(Layout.ConfigPath(save.exe.dir), resp.body.data, DefaultFileMode, save.write))
                    else old(fs.files)
      ensures fs.appConfig == old(fs.appConfig) && fs.broken == old(fs.broken)
      ensures url == old(url) && isRunning == old(isRunning) && cancelled == old(cancelled) && loopAlive == old(loopAlive)
    {
      if url == "" {
        return None;
      }
      var r := Fetcher.FetchConfig(fs, url, resp, save);
      if r.Err? {
        log := log + ["Config watcher: Error fetching config - " + Fetcher.Message(r.error)];
      }
      return Some(r);
    }
  }

  /** A Start after a Stop cannot revive the loop: the context is one-shot. */
  method RestartAfterStop(w: Watcher)
    requires w.Valid() && w.isRunning
    modifies w
    ensures w.isRunning && !w.loopAlive && w.cancelled
  {
    w.Stop();
    w.Start();
  }
}
