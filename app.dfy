// The decision rules of ui/app.go and ui/logs.go: the button and tray table,
// the log refresh, and the guards of the Start, Stop and Update handlers.
// Widgets are plain records; each handler and each goroutine body is one
// step, and a step that logs takes the clock's "15:04:05" reading as input.

module Ui {
  import opened Host
  import opened Records
  import opened Layout
  import StrUtil
  import Fetcher
  import Vpn
  import ConfigWatch
  import LogTail
  import Elevation
  import opened UiLogs

  /** A widget.Button's enabled flag and text. */
  datatype Button = Button(enabled: bool, text: string)

  /** A fyne.MenuItem's label (caption) and disabled flag. */
  datatype MenuItem = MenuItem(caption: string, disabled: bool)

  /** What updateButtonStates reads in one step: nothing without a
      controller, else its availability and running flags and whether
      config.json exists. */
  datatype View = Uninitialized | Ready(available: bool, running: bool, configExists: bool)

  /** configExists: config.json can be located and os.Stat reports no error. */
  function ConfigExists(fs: Store, exe: ExeDir): (present: bool)
    reads fs
    ensures present <==> exe.Located? && ConfigPath(exe.dir) in fs.files && ConfigPath(exe.dir) !in fs.broken
  {
    match Fetcher.GetConfigPath(exe)
    case Err(_) => false
    case Ok(path) => fs.Stat(path) == Found
  }

  /** The start button of updateButtonStates: only the last case enables it,
      and then only while sing-box is not running. */
  function StartButton(v: View): (b: Button)
    ensures b.enabled <==> v == Ready(true, false, true)
    ensures b.text == "Start" <==> v.Ready? && v.available && v.configExists
    ensures !v.Ready? ==> b.text == "Initializing..."
    ensures v.Ready? && !v.available ==> b.text == "Downloading..."
    ensures v.Ready? && v.available && !v.configExists ==> b.text == "No Config"
  {
    if v.Uninitialized? then Button(false, "Initializing...")
    else if !v.available then Button(false, "Downloading...")
    else if !v.configExists then Button(false, "No Config")
    else Button(!v.running, "Start")
  }

  /** Whether updateButtonStates enables the stop button. */
  function StopEnabled(v: View): (enabled: bool)
    ensures enabled <==> v == Ready(true, true, true)
  {
    if v.Uninitialized? then false
    else if !v.available then false
    else if !v.configExists then false
    else v.running
  }

  /** The (start, stop) enabled flags updateButtonStates passes to
      updateTrayItems. */
  function TrayEnabled(v: View): (flags: (bool, bool))
    ensures !(flags.0 && flags.1)
  {
    if v.Uninitialized? then (false, false)
    else if !v.available then (false, false)
    else if !v.configExists then (false, false)
    else if v.running then (false, true)
    else (true, false)
  }

  /** getStartButtonLabel, the tray's start label. */
  function StartLabel(v: View): (caption: string)
    ensures caption == "Start VPN" <==> v.Ready? && v.available && v.configExists
  {
    if v.Uninitialized? then "Start VPN (Initializing...)"
    else if !v.available then "Start VPN (Downloading...)"
    else if !v.configExists then "Start VPN (No Config)"
    else "Start VPN"
  }

  /** At most one button is enabled, and one is whenever the controller is
      ready, sing-box is available and config.json exists. */
  lemma ButtonsExclusive(v: View)
    ensures !(StartButton(v).enabled && StopEnabled(v))
    ensures StartButton(v).enabled || StopEnabled(v) <==> v.Ready? && v.available && v.configExists
    ensures StopEnabled(v) ==> v.running
  {
  }

  /** The tray mirrors the buttons: its items are enabled exactly as the
      buttons are, and its label names the button's case. */
  lemma TrayMirrorsButtons(v: View)
    ensures TrayEnabled(v) == (StartButton(v).enabled, StopEnabled(v))
    ensures StartLabel(v) == "Start VPN" + (if StartButton(v).text == "Start" then "" else " (" + StartButton(v).text + ")")
  {
    var text := StartButton(v).text;
    if !v.Ready? {
      assert text == "Initializing...";
    } else if !v.available {
      assert text == "Downloading...";
    } else if !v.configExists {
      assert text == "No Config";
    } else {
      assert text == "Start";
    }
  }

  /** trayStateChanged: the start item's flag or label or the stop item's
      flag differs. */
  function TrayStateChanged(oldStart: MenuItem, oldStop: MenuItem, newStart: MenuItem, newStop: MenuItem): (changed: bool)
    ensures oldStop.caption == newStop.caption ==> (changed <==> oldStart != newStart || oldStop != newStop)
  {
    oldStart.disabled != newStart.disabled || oldStart.caption != newStart.caption || oldStop.disabled != newStop.disabled
  }

  /** The throttling loop of refreshLogsUI: after the entries collected so
      far, the first MaxLogsPerSecInUI drained messages and, when more were
      drained, the summary line. */
  method AddThrottled(newLogs: seq<string>, drained: seq<string>) returns (out: seq<string>)
    ensures out == newLogs + Throttled(drained)
  {
    out := newLogs;
    var i := 0;
    while i < |drained| && i < MaxLogsPerSecInUI
      invariant 0 <= i <= MaxLogsPerSecInUI && i <= |drained|
      invariant out == newLogs + drained[..i]
    {
      out := out + [drained[i]];
      i := i + 1;
    }
    if |drained| > MaxLogsPerSecInUI {
      out := out + [Summary(|drained| - MaxLogsPerSecInUI)];
    } else {
      assert drained[..i] == drained;
    }
  }

  class App {
    /** Where the configuration fetcher looks for the program. */
    const exe: ExeDir
    var vpnController: Vpn.Controller?
    var configWatcher: ConfigWatch.Watcher?
    var logWatcher: LogTail.LogWatcher?
    var startBtn: Button
    var stopBtn: Button
    var trayStartItem: Option<MenuItem>
    var trayStopItem: Option<MenuItem>
    /** Times the system tray menu was rebuilt. */
    var trayRefreshes: nat
    /** The logs widget exists. */
    var logsTextPresent: bool
    var logBuffer: string
    /** The appLogs channel, oldest entry first. */
    var appLogs: seq<string>

    /** NewAppWithoutController, with the widgets and tray items as
        setupUI's components make them. */
    constructor (exe: ExeDir, startBtn: Button, stopBtn: Button,
                 trayStartItem: Option<MenuItem>, trayStopItem: Option<MenuItem>, logsTextPresent: bool)
      ensures this.exe == exe && vpnController == null && configWatcher == null && logWatcher == null
      ensures this.startBtn == startBtn && this.stopBtn == stopBtn
      ensures this.trayStartItem == trayStartItem && this.trayStopItem == trayStopItem
      ensures trayRefreshes == 0 && this.logsTextPresent == logsTextPresent && logBuffer == "" && appLogs == []
    {
      this.exe := exe;
      vpnController := null;
      configWatcher := null;
      logWatcher := null;
      this.startBtn := startBtn;
      this.stopBtn := stopBtn;
      this.trayStartItem := trayStartItem;
      this.trayStopItem := trayStopItem;
      trayRefreshes := 0;
      this.logsTextPresent := logsTextPresent;
      logBuffer := "";
      appLogs := [];
    }

    /** The state updateButtonStates and getStartButtonLabel read. */
    function CurrentView(fs: Store): View
      reads this, vpnController, fs
    {
      if vpnController == null then Uninitialized
      else Ready(vpnController.singBoxAvailable, vpnController.isRunning, ConfigExists(fs, exe))
    }

    method SetVPNController(c: Vpn.Controller?)
      modifies this
      ensures vpnController == c
      ensures configWatcher == old(configWatcher) && logWatcher == old(logWatcher)
      ensures startBtn == old(startBtn) && stopBtn == old(stopBtn)
      ensures trayStartItem == old(trayStartItem) && trayStopItem == old(trayStopItem) && trayRefreshes == old(trayRefreshes)
      ensures logsTextPresent == old(logsTextPresent) && logBuffer == old(logBuffer) && appLogs == old(appLogs)
    {
      vpnController := c;
    }

    /** Log (addAppLog): queues the timestamped entry. */
    method Log(timestamp: string, message: string)
      modifies this
      ensures vpnController == old(vpnController) && configWatcher == old(configWatcher) && logWatcher == old(logWatcher)
      ensures appLogs == old(appLogs) + [AppLogEntry(timestamp, message)]
      ensures startBtn == old(startBtn) && stopBtn == old(stopBtn)
      ensures trayStartItem == old(trayStartItem) && trayStopItem == old(trayStopItem) && trayRefreshes == old(trayRefreshes)
      ensures logsTextPresent == old(logsTextPresent) && logBuffer == old(logBuffer)
    {
      appLogs := appLogs + [AppLogEntry(timestamp, message)];
    }

    /** startLogWatcher: a new tailer on the program's sing-box log, which
        archives any earlier log first. */
    method StartLogWatcher(fs: Store, timestamp: string, rename: Outcome, remove: Outcome)
      modifies this, fs
      ensures vpnController == old(vpnController) && configWatcher == old(configWatcher)
      ensures logWatcher != null && fresh(logWatcher)
      ensures logWatcher.logPath == TailedLogPath(exe) && logWatcher.newMessages == [] && !logWatcher.fileExists
      ensures startBtn == old(startBtn) && stopBtn == old(stopBtn)
      ensures trayStartItem == old(trayStartItem) && trayStopItem == old(trayStopItem) && trayRefreshes == old(trayRefreshes)
      ensures logsTextPresent == old(logsTextPresent) && logBuffer == old(logBuffer) && appLogs == old(appLogs)
      ensures var path := TailedLogPath(exe);
        old(fs.Stat(path)) == Missing ==> fs.files == old(fs.files)
      ensures var path := TailedLogPath(exe);
        old(fs.Stat(path)) != Missing && rename.Pass? && path in old(fs.files) ==>
          fs.files == (old(fs.files) - {path})[path + "." + timestamp := old(fs.files)[path]]
      ensures var path := TailedLogPath(exe);
        old(fs.Stat(path)) != Missing && !(rename.Pass? && path in old(fs.files)) ==>
          fs.files == (if remove.Pass? then old(fs.files) - {path} else old(fs.files))
      ensures fs.broken == old(fs.broken) && fs.appConfig == old(fs.appConfig)
    {
      logWatcher := new LogTail.LogWatcher(fs, TailedLogPath(exe), timestamp, rename, remove);
    }

    /** refreshLogsUI: takes at most one queued application entry, drains
        the tailer and keeps the throttled part of its batch, and appends
        the lot to the log buffer when there is a logs widget. */
    method RefreshLogsUI()
      modifies this, logWatcher
      ensures vpnController == old(vpnController) && configWatcher == old(configWatcher) && logWatcher == old(logWatcher)
      ensures var fromQueue := if old(appLogs) == [] then [] else [old(appLogs)[0]];
              var drained := if old(logWatcher) == null then [] else old(logWatcher.newMessages);
              logBuffer == old(logBuffer) + (if logsTextPresent then Appended(fromQueue + Throttled(drained)) else "")
      ensures appLogs == if old(appLogs) == [] then [] else old(appLogs)[1..]
      ensures logWatcher != null ==>
        logWatcher.newMessages == [] && logWatcher.lastOffset == old(logWatcher.lastOffset) &&
        logWatcher.fileExists == old(logWatcher.fileExists)
      ensures startBtn == old(startBtn) && stopBtn == old(stopBtn)
      ensures trayStartItem == old(trayStartItem) && trayStopItem == old(trayStopItem) && trayRefreshes == old(trayRefreshes)
      ensures logsTextPresent == old(logsTextPresent)
    {
      var newLogs: seq<string> := [];
      if appLogs != [] {
        newLogs := [appLogs[0]];
        appLogs := appLogs[1..];
      }
      if logWatcher != null {
        var drained := logWatcher.GetNewMessages();
        newLogs := AddThrottled(newLogs, drained);
      } else {
        assert newLogs == newLogs + Throttled([]);
      }
      if |newLogs| > 0 && logsTextPresent {
        AppendToBuffer(newLogs);
      }
    }

    /** The append loop of refreshLogsUI: each entry and a newline. */
    method AppendToBuffer(entries: seq<string>)
      modifies this
      ensures logBuffer == old(logBuffer) + Appended(entries)
      ensures vpnController == old(vpnController) && configWatcher == old(configWatcher) && logWatcher == old(logWatcher)
      ensures startBtn == old(startBtn) && stopBtn == old(stopBtn)
      ensures trayStartItem == old(trayStartItem) && trayStopItem == old(trayStopItem) && trayRefreshes == old(trayRefreshes)
      ensures logsTextPresent == old(logsTextPresent) && appLogs == old(appLogs)
    {
      var j := 0;
      while j < |entries|
        invariant 0 <= j <= |entries|
        invariant logBuffer == old(logBuffer) + Appended(entries[..j])
        invariant vpnController == old(vpnController) && configWatcher == old(configWatcher) && logWatcher == old(logWatcher)
        invariant startBtn == old(startBtn) && stopBtn == old(stopBtn) && logsTextPresent == old(logsTextPresent)
        invariant trayStartItem == old(trayStartItem) && trayStopItem == old(trayStopItem) && trayRefreshes == old(trayRefreshes)
        invariant appLogs == old(appLogs)
      {
        assert entries[..j + 1][..j] == entries[..j];
        logBuffer := logBuffer + entries[j] + "\n";
        j := j + 1;
      }
      assert entries[..j] == entries;
    }

    /** updateTrayItems: nothing without both tray items; otherwise sets
        their flags and the start label, and rebuilds the menu when one of
        them changed. */
    method UpdateTrayItems(fs: Store, startEnabled: bool, stopEnabled: bool)
      modifies this
      ensures vpnController == old(vpnController) && configWatcher == old(configWatcher) && logWatcher == old(logWatcher)
      ensures old(trayStartItem).None? || old(trayStopItem).None? ==>
        trayStartItem == old(trayStartItem) && trayStopItem == old(trayStopItem) && trayRefreshes == old(trayRefreshes)
      ensures old(trayStartItem).Some? && old(trayStopItem).Some? ==>
        trayStartItem == Some(MenuItem(StartLabel(CurrentView(fs)), !startEnabled)) &&
        trayStopItem == Some(old(trayStopItem).value.(disabled := !stopEnabled)) &&
        trayRefreshes == old(trayRefreshes) +
          (if TrayStateChanged(old(trayStartItem).value, old(trayStopItem).value,
                               trayStartItem.value, trayStopItem.value) then 1 else 0)
      ensures startBtn == old(startBtn) && stopBtn == old(stopBtn)
      ensures logsTextPresent == old(logsTextPresent) && logBuffer == old(logBuffer) && appLogs == old(appLogs)
    {
      if trayStartItem.None? || trayStopItem.None? {
        return;
      }
      var oldStart := trayStartItem.value;
      var oldStop := trayStopItem.value;
      var newStart := MenuItem(StartLabel(CurrentView(fs)), !startEnabled);
      var newStop := oldStop.(disabled := !stopEnabled);
      trayStartItem := Some(newStart);
      trayStopItem := Some(newStop);
      if TrayStateChanged(oldStart, oldStop, newStart, newStop) {
        trayRefreshes := trayRefreshes + 1;
      }
    }

    /** updateButtonStates: one row of the button table for the current
        view, mirrored on the tray. The stop button's text is never set. */
    method UpdateButtonStates(fs: Store)
      modifies this
      ensures vpnController == old(vpnController) && configWatcher == old(configWatcher) && logWatcher == old(logWatcher)
      ensures startBtn == StartButton(CurrentView(fs))
      ensures stopBtn == Button(StopEnabled(CurrentView(fs)), old(stopBtn.text))
      ensures old(trayStartItem).Some? && old(trayStopItem).Some? ==>
        trayStartItem == Some(MenuItem(StartLabel(CurrentView(fs)), !startBtn.enabled)) &&
        trayStopItem == Some(old(trayStopItem).value.(disabled := !stopBtn.enabled))
      ensures old(trayStartItem).None? || old(trayStopItem).None? ==>
        trayStartItem == old(trayStartItem) && trayStopItem == old(trayStopItem) && trayRefreshes == old(trayRefreshes)
      ensures old(trayStartItem).Some? && old(trayStopItem).Some? ==>
        trayRefreshes == old(trayRefreshes) +
          (if TrayStateChanged(old(trayStartItem).value, old(trayStopItem).value,
                               trayStartItem.value, trayStopItem.value) then 1 else 0)
      ensures logsTextPresent == old(logsTextPresent) && logBuffer == old(logBuffer) && appLogs == old(appLogs)
    {
      var v := CurrentView(fs);
      if vpnController == null {
        startBtn := Button(false, "Initializing...");
        stopBtn := stopBtn.(enabled := false);
        UpdateTrayItems(fs, false, false);
        return;
      }
      if !v.available {
        startBtn := Button(false, "Downloading...");
        stopBtn := stopBtn.(enabled := false);
        UpdateTrayItems(fs, false, false);
      } else if !v.configExists {
        startBtn := Button(false, "No Config");
        stopBtn := stopBtn.(enabled := false);
        UpdateTrayItems(fs, false, false);
      } else if v.running {
        startBtn := Button(false, "Start");
        stopBtn := stopBtn.(enabled := true);
        UpdateTrayItems(fs, false, true);
      } else {
        startBtn := Button(true, "Start");
        stopBtn := stopBtn.(enabled := false);
        UpdateTrayItems(fs, true, false);
      }
    }

    /** handleStartVPN's guard: a start is spawned only with a controller
        that is not running and has sing-box available. */
    method HandleStartVPN(timestamp: string) returns (spawn: bool)
      modifies this
      ensures vpnController == old(vpnController) && configWatcher == old(configWatcher) && logWatcher == old(logWatcher)
      ensures spawn <==> vpnController != null && !vpnController.isRunning && vpnController.singBoxAvailable
      ensures vpnController == null ==>
        appLogs == old(appLogs) + [AppLogEntry(timestamp, "Error: VPN controller not initialized")]
      ensures vpnController != null && vpnController.isRunning ==> appLogs == old(appLogs)
      ensures vpnController != null && !vpnController.isRunning && !vpnController.singBoxAvailable ==>
        appLogs == old(appLogs) + [AppLogEntry(timestamp, "Error: " + SingBoxExeName + " is not available")]
      ensures spawn ==> appLogs == old(appLogs) + [AppLogEntry(timestamp, "Starting VPN connection...")]
      ensures startBtn == old(startBtn) && stopBtn == old(stopBtn)
      ensures trayStartItem == old(trayStartItem) && trayStopItem == old(trayStopItem) && trayRefreshes == old(trayRefreshes)
      ensures logsTextPresent == old(logsTextPresent) && logBuffer == old(logBuffer)
    {
      if vpnController == null {
        Log(timestamp, "Error: VPN controller not initialized");
        return false;
      }
      var running := vpnController.IsRunning();
      if running {
        return false;
      }
      var available := vpnController.IsSingBoxAvailable();
      if !available {
        Log(timestamp, "Error: " + SingBoxExeName + " is not available");
        return false;
      }
      Log(timestamp, "Starting VPN connection...");
      return true;
    }

    /** The goroutine handleStartVPN spawns: StartVPN, then its outcome in
        the application log. */
    method StartWorker(fs: Store, o: Vpn.StartOracle, timestamp: string)
      returns (err: Option<Vpn.VpnError>, call: Option<Elevation.ShellRequest>)
      requires vpnController != null
      modifies this, vpnController, fs
      ensures vpnController == old(vpnController) && configWatcher == old(configWatcher) && logWatcher == old(logWatcher)
      ensures err.Some? ==> appLogs == old(appLogs) + [AppLogEntry(timestamp, "Error starting VPN: " + Vpn.Message(err.value))]
      ensures err.None? ==> appLogs == old(appLogs) + [AppLogEntry(timestamp, "VPN connection established"),
                                                       AppLogEntry(timestamp, "Connected to server")]
      ensures err.None? <==> vpnController.isRunning
      ensures call.Some? ==>
        var logFile := LogFilePath(vpnController.appDir);
        fs.files == old(fs.files)[logFile := FileData(old(fs.ModeAfterOpen(logFile, DefaultFileMode)), "")]
      ensures call.None? && !(o.launch.mkdirLogs.Pass? && o.launch.writeLog.WriteFailed?) ==> fs.files == old(fs.files)
      ensures fs.broken == old(fs.broken) && fs.appConfig == old(fs.appConfig)
      ensures startBtn == old(startBtn) && stopBtn == old(stopBtn)
      ensures trayStartItem == old(trayStartItem) && trayStopItem == old(trayStopItem) && trayRefreshes == old(trayRefreshes)
      ensures logsTextPresent == old(logsTextPresent) && logBuffer == old(logBuffer)
    {
      err, call := vpnController.StartVPN(fs, o);
      LogStartOutcome(err, timestamp);
    }

    /** The entries StartWorker queues for StartVPN's outcome. */
    method LogStartOutcome(err: Option<Vpn.VpnError>, timestamp: string)
      modifies this
      ensures vpnController == old(vpnController) && configWatcher == old(configWatcher) && logWatcher == old(logWatcher)
      ensures err.Some? ==> appLogs == old(appLogs) + [AppLogEntry(timestamp, "Error starting VPN: " + Vpn.Message(err.value))]
      ensures err.None? ==> appLogs == old(appLogs) + [AppLogEntry(timestamp, "VPN connection established"),
                                                       AppLogEntry(timestamp, "Connected to server")]
      ensures startBtn == old(startBtn) && stopBtn == old(stopBtn)
      ensures trayStartItem == old(trayStartItem) && trayStopItem == old(trayStopItem) && trayRefreshes == old(trayRefreshes)
      ensures logsTextPresent == old(logsTextPresent) && logBuffer == old(logBuffer)
    {
      if err.Some? {
        Log(timestamp, "Error starting VPN: " + Vpn.Message(err.value));
        return;
      }
      Log(timestamp, "VPN connection established");
      Log(timestamp, "Connected to server");
    }

    /** handleStopVPN's guard: a stop is spawned only with a controller
        that is running. */
    method HandleStopVPN(timestamp: string) returns (spawn: bool)
      modifies this
      ensures vpnController == old(vpnController) && configWatcher == old(configWatcher) && logWatcher == old(logWatcher)
      ensures spawn <==> vpnController != null && vpnController.isRunning
      ensures vpnController == null ==>
        appLogs == old(appLogs) + [AppLogEntry(timestamp, "Error: VPN controller not initialized")]
      ensures vpnController != null && !vpnController.isRunning ==> appLogs == old(appLogs)
      ensures spawn ==> appLogs == old(appLogs) + [AppLogEntry(timestamp, "Stopping VPN connection...")]
      ensures startBtn == old(startBtn) && stopBtn == old(stopBtn)
      ensures trayStartItem == old(trayStartItem) && trayStopItem == old(trayStopItem) && trayRefreshes == old(trayRefreshes)
      ensures logsTextPresent == old(logsTextPresent) && logBuffer == old(logBuffer)
    {
      if vpnController == null {
        Log(timestamp, "Error: VPN controller not initialized");
        return false;
      }
      var running := vpnController.IsRunning();
      if !running {
        return false;
      }
      Log(timestamp, "Stopping VPN connection...");
      return true;
    }

    /** The goroutine handleStopVPN spawns: StopVPN, then its outcome in the
        application log. */
    method StopWorker(o: Vpn.StopOracle, timestamp: string) returns (err: Option<Vpn.VpnError>)
      requires vpnController != null
      modifies this, vpnController
      ensures vpnController == old(vpnController) && configWatcher == old(configWatcher) && logWatcher == old(logWatcher)
      ensures err.Some? ==> appLogs == old(appLogs) + [AppLogEntry(timestamp, "Error stopping VPN: " + Vpn.Message(err.value))]
      ensures err.None? ==> appLogs == old(appLogs) + [AppLogEntry(timestamp, "VPN connection stopped")]
      ensures err.None? <==> !vpnController.isRunning
      ensures startBtn == old(startBtn) && stopBtn == old(stopBtn)
      ensures trayStartItem == old(trayStartItem) && trayStopItem == old(trayStopItem) && trayRefreshes == old(trayRefreshes)
      ensures logsTextPresent == old(logsTextPresent) && logBuffer == old(logBuffer)
    {
      err := vpnController.StopVPN(o);
      if err.Some? {
        Log(timestamp, "Error stopping VPN: " + Vpn.Message(err.value));
        return;
      }
      Log(timestamp, "VPN connection stopped");
    }

    /** handleUpdateConfig's guard: the entry's text, trimmed, must not be
        empty; the fetch is spawned with that URL. */
    method HandleUpdateConfig(entryText: string, timestamp: string) returns (url: Option<string>)
      modifies this
      ensures vpnController == old(vpnController) && configWatcher == old(configWatcher) && logWatcher == old(logWatcher)
      ensures url.None? <==> StrUtil.TrimSpace(entryText) == ""
      ensures url.None? ==> appLogs == old(appLogs) + [AppLogEntry(timestamp, "Error: Please enter a subscription URL")]
      ensures url.Some? ==>
        url.value == StrUtil.TrimSpace(entryText) &&
        appLogs == old(appLogs) + [AppLogEntry(timestamp, "Fetching configuration from: " + url.value)]
      ensures startBtn == old(startBtn) && stopBtn == old(stopBtn)
      ensures trayStartItem == old(trayStartItem) && trayStopItem == old(trayStopItem) && trayRefreshes == old(trayRefreshes)
      ensures logsTextPresent == old(logsTextPresent) && logBuffer == old(logBuffer)
    {
      var trimmed := StrUtil.TrimSpace(entryText);
      if trimmed == "" {
        Log(timestamp, "Error: Please enter a subscription URL");
        return None;
      }
      Log(timestamp, "Fetching configuration from: " + trimmed);
      return Some(trimmed);
    }

    /** The goroutine handleUpdateConfig spawns: fetch the configuration;
        only once that succeeded, save the URL as the whole app record (a
        failed save is a warning), point the watcher at it and report
        success. */
    method UpdateConfigWorker(fs: Store, url: string, resp: HttpResponse, save: Fetcher.SaveEnv,
                              saveApp: Fetcher.SaveEnv, timestamp: string)
      returns (fetched: Result<string, Fetcher.ConfigError>, saveErr: Option<Fetcher.ConfigError>)
      requires configWatcher != null
      modifies this, fs, configWatcher
      ensures vpnController == old(vpnController) && configWatcher == old(configWatcher) && logWatcher == old(logWatcher)
      ensures fetched.Ok? <==> Fetcher.ReachesConfigWrite(resp, save) && save.write.Written?
      ensures fetched.Ok? ==>
        fetched.value == resp.body.data &&
        fs.files == old(fs.files)[ConfigPath(save.exe.dir) :=
                                   FileData(old(fs.ModeAfterOpen(ConfigPath(save.exe.dir), DefaultFileMode)), resp.body.data)]
      // Only config.json can change: it is what os.WriteFile left, when the
      // fetch got that far; saving the app record leaves the files alone.
      ensures fs.files == if Fetcher.ReachesConfigWrite(resp, save)
                          then old(fs.AfterWrite(ConfigPath(save.exe.dir), resp.body.data, DefaultFileMode, save.write))
                          else old(fs.files)
      ensures fetched.Err? ==>
        saveErr.None? && fs.appConfig == old(fs.appConfig) &&
        configWatcher.url == old(configWatcher.url) && configWatcher.log == old(configWatcher.log) &&
        appLogs == old(appLogs) + [AppLogEntry(timestamp, "Error fetching config: " + Fetcher.Message(fetched.error))]
      ensures fetched.Ok? ==>
        configWatcher.url == url &&
        (saveErr.None? <==> saveApp.exe.Located? && saveApp.mkdir.Pass? && saveApp.write.Written?) &&
        (saveErr.None? ==> fs.appConfig == Stored(AppConfig(url, ""))) &&
        (saveErr.Some? ==> fs.appConfig == old(fs.appConfig)) &&
        appLogs == old(appLogs) +
          (if saveErr.Some? then [AppLogEntry(timestamp, "Warning: Could not save subscription URL: " + Fetcher.Message(saveErr.value))] else []) +
          (if url != "" && url != old(configWatcher.url) then [AppLogEntry(timestamp, "Watching sing-box config: " + url)] else []) +
          [AppLogEntry(timestamp, "Configuration updated successfully")]
      ensures fs.broken == old(fs.broken)
      ensures configWatcher.isRunning == old(configWatcher.isRunning) && configWatcher.cancelled == old(configWatcher.cancelled)
      ensures configWatcher.loopAlive == old(configWatcher.loopAlive)
      ensures startBtn == old(startBtn) && stopBtn == old(stopBtn)
      ensures trayStartItem == old(trayStartItem) && trayStopItem == old(trayStopItem) && trayRefreshes == old(trayRefreshes)
      ensures logsTextPresent == old(logsTextPresent) && logBuffer == old(logBuffer)
    {
      saveErr := None;
      fetched := Fetcher.FetchConfig(fs, url, resp, save);
      if fetched.Err? {
        Log(timestamp, "Error fetching config: " + Fetcher.Message(fetched.error));
        return;
      }
      saveErr := Fetcher.SaveAppConfig(fs, AppConfig(url, ""), saveApp);
      if saveErr.Some? {
        Log(timestamp, "Warning: Could not save subscription URL: " + Fetcher.Message(saveErr.value));
      }
      // The App is the watcher's Logger, so UpdateURL's announcement of a
      // new URL lands in the application log as well.
      var announced := url != "" && url != configWatcher.url;
      configWatcher.UpdateURL(url);
      if announced {
        Log(timestamp, "Watching sing-box config: " + url);
      }
      Log(timestamp, "Configuration updated successfully");
    }
  }
}
