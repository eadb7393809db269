// The sing-box supervisor of vpn/controller.go and vpn/singboxfetcher.go: one
// Controller object whose fields say whether sing-box runs, whether the
// binary is available, whether a download is under way, which process the
// program owns and which manifest it last fetched. Each public call,
// goroutine callback and ticker tick is one atomic step; what the operating
// system and the network answer is an argument of the step.

module Vpn {
  import opened Records
  import opened Host
  import opened Layout
  import StrUtil
  import Fetcher
  import Elevation
  import SingBoxFetch

  /** rootify: a bare drive such as "C:" becomes its root "C:\"; every other
      directory is kept. */
  function Rootify(p: string): (r: string)
    ensures |p| == 2 && p[1] == ':' ==> r == p + "\\"
    ensures !(|p| == 2 && p[1] == ':') ==> r == p
    ensures !(|r| == 2 && r[1] == ':')
  {
    if |p| == 2 && p[1] == ':' then p + "\\" else p
  }

  datatype VpnError =
    | Unavailable
    | ConfigMissing
    | StdoutPipeFailed(cause: string)
    | StderrPipeFailed(cause: string)
    | StartFailed(cause: string)
    | ElevatedLaunchFailed(inner: Elevation.ElevationError)
    | WaitFailed(cause: string)
    | ElevatedKillFailed(inner: Elevation.ElevationError)

  function Message(e: VpnError): string
  {
    match e
    case Unavailable => SingBoxExeName + " is not available"
    case ConfigMissing => SingBoxConfigFile + " not found - please update configuration first"
    case StdoutPipeFailed(c) => "failed to create stdout pipe: " + c
    case StderrPipeFailed(c) => "failed to create stderr pipe: " + c
    case StartFailed(c) => "failed to start sing-box: " + c
    case ElevatedLaunchFailed(inner) => "failed to launch sing-box with elevation: " + Elevation.Message(inner)
    case WaitFailed(c) => c
    case ElevatedKillFailed(inner) => Elevation.Message(inner)
  }

  /** A process the controller started and owns. */
  datatype Command = Command(path: string, args: seq<string>, dir: string)

  /** The command startSingBoxDirect builds. */
  function DirectCommand(appDir: string): Command
  {
    Command(SingBoxPath(appDir), ["run", "-c", ConfigPath(appDir), "-D", appDir], appDir)
  }

  /** What exec.Cmd answers to StdoutPipe, StderrPipe and Start. */
  datatype DirectOracle = DirectOracle(stdoutPipe: Outcome, stderrPipe: Outcome, start: Outcome)

  /** The error startSingBoxDirect returns. */
  function DirectError(o: DirectOracle): Option<VpnError>
  {
    if o.stdoutPipe.Fail? then Some(StdoutPipeFailed(o.stdoutPipe.cause))
    else if o.stderrPipe.Fail? then Some(StderrPipeFailed(o.stderrPipe.cause))
    else if o.start.Fail? then Some(StartFailed(o.start.cause))
    else None
  }

  /** The handle startSingBoxDirect leaves behind: it is assigned before the
      pipes are made and reset only when Start fails. */
  function DirectHandle(appDir: string, o: DirectOracle): Option<Command>
  {
    if o.stdoutPipe.Pass? && o.stderrPipe.Pass? && o.start.Fail? then None else Some(DirectCommand(appDir))
  }

  /** What the host answers during StartVPN: the token query, the direct
      start and the elevated launch. Only the route taken is consulted. */
  datatype StartOracle = StartOracle(token: Elevation.TokenQuery, direct: DirectOracle, launch: Elevation.LaunchOracle)

  /** What the host answers during StopVPN: killing and waiting for the owned
      process; the current directory and ShellExecuteW's answer for the
      elevated kill; and the plain taskkill fallback with its combined
      output. */
  datatype StopOracle = StopOracle(
    kill: Outcome, wait: Outcome, cwd: string, shellRet: nat, taskkill: Outcome, taskkillOutput: string)

  /** killSingBoxProcess's reading of taskkill: a clean exit, or a failure
      whose output says the process is not there, counts as stopped. */
  function TaskkillStopped(run: Outcome, output: string): (stopped: bool)
    ensures stopped <==> run.Pass?
                         || (exists i :: StrUtil.OccursAt(output, "not found", i))
                         || (exists i :: StrUtil.OccursAt(output, "not running", i))
  {
    run.Pass? || StrUtil.Contains(output, "not found") || StrUtil.Contains(output, "not running")
  }

  /** The line killSingBoxProcess logs. */
  function TaskkillLog(run: Outcome, output: string): string
  {
    if run.Pass? then "Successfully terminated sing-box process"
    else if TaskkillStopped(run, output) then "sing-box process was not running"
    else "taskkill output: " + output
  }

  /** isSingBoxProcessRunning: tasklist ran (`Some` holds its output) and
      mentions the executable's name. */
  function ProcessListed(tasklist: Option<string>): (listed: bool)
    ensures listed <==> tasklist.Some? && exists i :: StrUtil.OccursAt(tasklist.value, SingBoxExeName, i)
  {
    tasklist.Some? && StrUtil.Contains(tasklist.value, SingBoxExeName)
  }

  /** The log lines forwardOutput makes of the lines of one stream: empty
      lines are dropped, the others tagged with the stream's name. */
  function ForwardedLines(lines: seq<string>, streamType: string): (r: seq<string>)
    ensures |r| <= |lines|
    ensures forall k :: 0 <= k < |r| ==>
      |r[k]| > |"[sing-box " + streamType + "] "| && "[sing-box " + streamType + "] " <= r[k]
  {
    if lines == [] then []
    else
      var rest := ForwardedLines(lines[1..], streamType);
      if lines[0] == "" then rest else ["[sing-box " + streamType + "] " + lines[0]] + rest
  }

  /** Forwarding a stream in two pieces logs the same lines as forwarding it
      at once. */
  lemma {:induction false} ForwardedLinesAppend(a: seq<string>, b: seq<string>, streamType: string)
    ensures ForwardedLines(a + b, streamType) == ForwardedLines(a, streamType) + ForwardedLines(b, streamType)
  {
    if a == [] {
      assert a + b == b;
    } else {
      assert (a + b)[0] == a[0];
      assert (a + b)[1..] == a[1..] + b;
      ForwardedLinesAppend(a[1..], b, streamType);
    }
  }

  /** Every non-empty line of the stream is forwarded with its tag. */
  lemma {:induction false} ForwardedLinesKeep(lines: seq<string>, streamType: string, k: nat)
    requires k < |lines| && lines[k] != ""
    ensures "[sing-box " + streamType + "] " + lines[k] in ForwardedLines(lines, streamType)
  {
    if k > 0 {
      ForwardedLinesKeep(lines[1..], streamType, k - 1);
    }
  }

  /** The error StopVPN returns without an owned handle: the elevated
      kill's error, and only when the plain taskkill fallback fails too. */
  function ElevatedStopError(o: StopOracle): (err: Option<VpnError>)
    ensures err.Some? <==>
      Elevation.KillSingBoxProcessElevated(o.cwd, o.shellRet).error.Some? && !TaskkillStopped(o.taskkill, o.taskkillOutput)
    ensures err.Some? ==> err == Some(ElevatedKillFailed(Elevation.ShellExecuteResult(o.shellRet).value))
  {
    var shellErr := Elevation.KillSingBoxProcessElevated(o.cwd, o.shellRet).error;
    if shellErr.Some? && !TaskkillStopped(o.taskkill, o.taskkillOutput) then Some(ElevatedKillFailed(shellErr.value))
    else None
  }

  /** The lines StopVPN logs without an owned handle. */
  function ElevatedStopLog(o: StopOracle): seq<string>
  {
    var shellErr := Elevation.KillSingBoxProcessElevated(o.cwd, o.shellRet).error;
    ["Stopping elevated sing-box process..."] +
    (if shellErr.None? then ["sing-box process stopped"] else FallbackLog(o, Elevation.Message(shellErr.value)))
  }

  /** The lines StopVPN logs once the elevated kill has failed with the
      error whose text is `reason`. */
  function FallbackLog(o: StopOracle, reason: string): seq<string>
  {
    ["Error stopping elevated process: " + reason,
     "Trying regular taskkill as fallback...",
     TaskkillLog(o.taskkill, o.taskkillOutput),
     if TaskkillStopped(o.taskkill, o.taskkillOutput) then "sing-box process stopped"
     else "Fallback also failed: " + FallbackError(o.taskkill.cause)]
  }

  /** The error killSingBoxProcess returns when taskkill fails. */
  function FallbackError(cause: string): string
  {
    "failed to kill sing-box process: " + cause
  }

  /** What the host answers during one availability check: the manifest
      fetch and its decoding, the loads and the save of the version update,
      and the load behind the version comparison. */
  datatype CheckOracle = CheckOracle(
    resp: HttpResponse, decoded: Result<DeliveryConfig, string>, load: Fetcher.LoadEnv, save: Fetcher.SaveEnv, reload: Fetcher.LoadEnv)

  class Controller {
    const appDir: string
    var isRunning: bool
    var singBoxAvailable: bool
    var downloading: bool
    /** The process started directly, which the controller owns. */
    var process: Option<Command>
    /** The manifest last fetched. */
    var deliveryConfig: Option<DeliveryConfig>
    /** monitorProcess goroutines waiting for a process to exit. */
    var monitors: nat
    /** monitorElevatedProcess goroutines still polling. */
    var pollers: nat
    /** The controller's context has been cancelled. */
    var cancelled: bool
    /** The lines sent to the logger, oldest first. */
    var log: seq<string>

    /** A download in progress always has the binary marked unavailable. */
    predicate Valid()
      reads this
    {
      downloading ==> !singBoxAvailable
    }

    /** NewController: the program's directory, rootified; nothing running,
        nothing available. `exeDir` is filepath.Dir of os.Executable. */
    constructor (exeDir: string)
      ensures appDir == Rootify(exeDir)
      ensures !isRunning && !singBoxAvailable && !downloading && !cancelled
      ensures process.None? && deliveryConfig.None? && monitors == 0 && pollers == 0 && log == []
      ensures Valid()
    {
      appDir := Rootify(exeDir);
      isRunning := false;
      singBoxAvailable := false;
      downloading := false;
      process := None;
      deliveryConfig := None;
      monitors := 0;
      pollers := 0;
      cancelled := false;
      log := [];
    }

    method IsRunning() returns (running: bool)
      ensures running == isRunning
    {
      return isRunning;
    }

    method IsSingBoxAvailable() returns (available: bool)
      ensures available == singBoxAvailable
    {
      return singBoxAvailable;
    }

    /** startSingBoxDirect: builds `sing-box.exe run -c <config> -D <appDir>`
        in the program directory, makes both pipes and starts it. */
    method StartSingBoxDirect(o: DirectOracle) returns (err: Option<VpnError>)
      modifies this
      ensures o.stdoutPipe.Fail? ==> err == Some(StdoutPipeFailed(o.stdoutPipe.cause))
      ensures o.stdoutPipe.Pass? && o.stderrPipe.Fail? ==> err == Some(StderrPipeFailed(o.stderrPipe.cause))
      ensures o.stdoutPipe.Pass? && o.stderrPipe.Pass? && o.start.Fail? ==> err == Some(StartFailed(o.start.cause))
      ensures err == DirectError(o)
      ensures process == DirectHandle(appDir, o)
      ensures err.None? ==> process == Some(DirectCommand(appDir)) && isRunning && monitors == old(monitors) + 1
      ensures err.Some? ==> isRunning == old(isRunning) && monitors == old(monitors)
      ensures log == old(log) + (if err.None? then ["sing-box process started successfully"] else [])
      ensures singBoxAvailable == old(singBoxAvailable) && downloading == old(downloading)
      ensures deliveryConfig == old(deliveryConfig) && pollers == old(pollers) && cancelled == old(cancelled)
    {
      process := Some(DirectCommand(appDir));
      if o.stdoutPipe.Fail? {
        return Some(StdoutPipeFailed(o.stdoutPipe.cause));
      }
      if o.stderrPipe.Fail? {
        return Some(StderrPipeFailed(o.stderrPipe.cause));
      }
      if o.start.Fail? {
        process := None;
        return Some(StartFailed(o.start.cause));
      }
      isRunning := true;
      log := log + ["sing-box process started successfully"];
      monitors := monitors + 1;
      return None;
    }

    /** startSingBoxElevated: launches through the elevation gateway and, on
        success, marks sing-box running without an owned handle and starts
        polling for it. */
    method StartSingBoxElevated(fs: Store, o: Elevation.LaunchOracle)
      returns (err: Option<VpnError>, call: Option<Elevation.ShellRequest>)
      modifies this, fs
      ensures
        var launchErr := Elevation.LaunchError(old(fs.Stat(SingBoxPath(appDir))), old(fs.Stat(ConfigPath(appDir))), appDir, o);
        err == (if launchErr.Some? then Some(ElevatedLaunchFailed(launchErr.value)) else None)
      ensures call.Some? <==> Elevation.LaunchReachesShell(old(fs.Stat(SingBoxPath(appDir))), old(fs.Stat(ConfigPath(appDir))), o)
      ensures call.Some? ==>
        fs.files == old(fs.files)[LogFilePath(appDir) := FileData(old(fs.ModeAfterOpen(LogFilePath(appDir), DefaultFileMode)), "")] &&
        call.value == Elevation.ShellRequest("runas", "cmd.exe",
                        Elevation.LaunchArgs(SingBoxPath(appDir), ConfigPath(appDir), appDir, LogFilePath(appDir)),
                        Elevation.EffectiveWorkingDir(appDir, o.cwd), Elevation.SW_HIDE)
      ensures old(fs.Stat(SingBoxPath(appDir))) != Missing && old(fs.Stat(ConfigPath(appDir))) != Missing &&
              o.mkdirLogs.Pass? ==>
        fs.files == old(fs.AfterWrite(LogFilePath(appDir), "", DefaultFileMode, o.writeLog))
      ensures call.None? && !(o.mkdirLogs.Pass? && o.writeLog.WriteFailed?) ==> fs.files == old(fs.files)
      ensures fs.broken == old(fs.broken) && fs.appConfig == old(fs.appConfig)
      // A poller started on a cancelled context returns at once.
      ensures err.None? ==> isRunning && pollers == old(pollers) + (if cancelled then 0 else 1)
      ensures err.Some? ==> isRunning == old(isRunning) && pollers == old(pollers)
      ensures log == old(log) + (if err.None? then ["sing-box launched with elevation (UAC prompt shown)",
                                                     "Monitoring sing-box logs from: logs/sing-box.log"] else [])
      ensures process == old(process) && monitors == old(monitors)
      ensures singBoxAvailable == old(singBoxAvailable) && downloading == old(downloading)
      ensures deliveryConfig == old(deliveryConfig) && cancelled == old(cancelled)
    {
      var launchErr;
      call, launchErr := Elevation.LaunchSingBoxElevated(fs, appDir, o);
      if launchErr.Some? {
        return Some(ElevatedLaunchFailed(launchErr.value)), call;
      }
      isRunning := true;
      log := log + ["sing-box launched with elevation (UAC prompt shown)",
                    "Monitoring sing-box logs from: logs/sing-box.log"];
      if !cancelled {
        pollers := pollers + 1;
      }
      return None, call;
    }

    /** StartVPN: nothing to do while running; otherwise the binary must be
        available and config.json present (a stat error other than
        not-exist lets it through), and sing-box is started directly when
        the program is elevated and through UAC when it is not. */
    method StartVPN(fs: Store, o: StartOracle) returns (err: Option<VpnError>, call: Option<Elevation.ShellRequest>)
      modifies this, fs
      ensures old(isRunning) ==>
        err.None? && call.None? && isRunning && process == old(process) && log == old(log) &&
        monitors == old(monitors) && pollers == old(pollers) && fs.files == old(fs.files)
      ensures !old(isRunning) && !old(singBoxAvailable) ==>
        err == Some(Unavailable) && call.None? && !isRunning && process == old(process) && log == old(log) &&
        monitors == old(monitors) && pollers == old(pollers) && fs.files == old(fs.files)
      ensures !old(isRunning) && old(singBoxAvailable) && old(fs.Stat(ConfigPath(appDir))) == Missing ==>
        err == Some(ConfigMissing) && call.None? && !isRunning && process == old(process) && log == old(log) &&
        monitors == old(monitors) && pollers == old(pollers) && fs.files == old(fs.files)
      ensures !old(isRunning) && old(singBoxAvailable) && old(fs.Stat(ConfigPath(appDir))) != Missing &&
              Elevation.IsGoSingElevated(o.token) ==>
        err == DirectError(o.direct) && call.None? && process == DirectHandle(appDir, o.direct) &&
        isRunning == err.None? && monitors == old(monitors) + (if err.None? then 1 else 0) && pollers == old(pollers) &&
        fs.files == old(fs.files) &&
        log == old(log) + ["Already running with admin privileges, starting sing-box directly"] +
                          (if err.None? then ["sing-box process started successfully"] else [])
      ensures !old(isRunning) && old(singBoxAvailable) && old(fs.Stat(ConfigPath(appDir))) != Missing &&
              !Elevation.IsGoSingElevated(o.token) ==>
        var launchErr := Elevation.LaunchError(old(fs.Stat(SingBoxPath(appDir))), Found, appDir, o.launch);
        err == (if launchErr.Some? then Some(ElevatedLaunchFailed(launchErr.value)) else None) &&
        (call.Some? <==> Elevation.LaunchReachesShell(old(fs.Stat(SingBoxPath(appDir))), Found, o.launch)) &&
        process == old(process) && isRunning == err.None? && monitors == old(monitors) &&
        pollers == old(pollers) + (if err.None? && !cancelled then 1 else 0) &&
        log == old(log) + ["Admin privileges required, launching sing-box with elevation..."] +
                          (if err.None? then ["sing-box launched with elevation (UAC prompt shown)",
                                              "Monitoring sing-box logs from: logs/sing-box.log"] else [])
      ensures call.None? && !(o.launch.mkdirLogs.Pass? && o.launch.writeLog.WriteFailed?) ==> fs.files == old(fs.files)
      ensures call.Some? ==>
        fs.files == old(fs.files)[LogFilePath(appDir) := FileData(old(fs.ModeAfterOpen(LogFilePath(appDir), DefaultFileMode)), "")]
      ensures !old(isRunning) && old(singBoxAvailable) && old(fs.Stat(ConfigPath(appDir))) != Missing &&
              !Elevation.IsGoSingElevated(o.token) && old(fs.Stat(SingBoxPath(appDir))) != Missing && o.launch.mkdirLogs.Pass? ==>
        fs.files == old(fs.AfterWrite(LogFilePath(appDir), "", DefaultFileMode, o.launch.writeLog))
      ensures fs.broken == old(fs.broken) && fs.appConfig == old(fs.appConfig)
      ensures singBoxAvailable == old(singBoxAvailable) && downloading == old(downloading)
      ensures deliveryConfig == old(deliveryConfig) && cancelled == old(cancelled)
    {
      if isRunning {
        return None, None;
      }
      if !singBoxAvailable {
        return Some(Unavailable), None;
      }
      if fs.Stat(ConfigPath(appDir)) == Missing {
        return Some(ConfigMissing), None;
      }
      if Elevation.IsGoSingElevated(o.token) {
        log := log + ["Already running with admin privileges, starting sing-box directly"];
        err := StartSingBoxDirect(o.direct);
        return err, None;
      }
      log := log + ["Admin privileges required, launching sing-box with elevation..."];
      ghost var stat := fs.Stat(ConfigPath(appDir));
      assert stat == Found || stat == StatFailed;
      err, call := StartSingBoxElevated(fs, o.launch);
    }

    /** killSingBoxProcess: the plain taskkill fallback. Only the log
        changes. */
    method KillSingBoxProcess(run: Outcome, output: string) returns (err: Option<string>)
      modifies this
      ensures err.None? <==> TaskkillStopped(run, output)
      ensures err.Some? ==> err.value == FallbackError(run.cause)
      ensures log == old(log) + [TaskkillLog(run, output)]
      ensures isRunning == old(isRunning) && process == old(process)
      ensures singBoxAvailable == old(singBoxAvailable) && downloading == old(downloading)
      ensures deliveryConfig == old(deliveryConfig) && monitors == old(monitors) && pollers == old(pollers)
      ensures cancelled == old(cancelled)
    {
      log := log + [TaskkillLog(run, output)];
      if TaskkillStopped(run, output) {
        return None;
      }
      return Some(FallbackError(run.cause));
    }

    /** StopVPN: nothing to do when not running. An owned process is killed
        (a kill error is only logged) and waited for; a Wait error is
        returned with nothing changed. Without a handle, see StopElevated. */
    method StopVPN(o: StopOracle) returns (err: Option<VpnError>)
      modifies this
      ensures !old(isRunning) ==> err.None? && !isRunning && process == old(process) && log == old(log)
      ensures old(isRunning) && old(process).Some? && o.kill.Fail? ==>
        err.None? && !isRunning && process.None? &&
        log == old(log) + ["Error killing direct process: " + o.kill.cause, "sing-box process stopped"]
      ensures old(isRunning) && old(process).Some? && o.kill.Pass? && o.wait.Fail? ==>
        err == Some(WaitFailed(o.wait.cause)) && isRunning && process == old(process) && log == old(log)
      ensures old(isRunning) && old(process).Some? && o.kill.Pass? && o.wait.Pass? ==>
        err.None? && !isRunning && process.None? && log == old(log) + ["sing-box process stopped"]
      ensures old(isRunning) && old(process).None? ==>
        process.None? && err == ElevatedStopError(o) && log == old(log) + ElevatedStopLog(o)
      ensures err.None? <==> !isRunning
      ensures singBoxAvailable == old(singBoxAvailable) && downloading == old(downloading)
      ensures deliveryConfig == old(deliveryConfig) && monitors == old(monitors) && pollers == old(pollers)
      ensures cancelled == old(cancelled)
    {
      if !isRunning {
        return None;
      }
      if process.None? {
        err := StopElevated(o);
        return err;
      }
      if o.kill.Fail? {
        log := log + ["Error killing direct process: " + o.kill.cause];
      } else if o.wait.Fail? {
        return Some(WaitFailed(o.wait.cause));
      }
      process := None;
      isRunning := false;
      log := log + ["sing-box process stopped"];
      return None;
    }

    /** The branch of StopVPN without an owned handle: the elevated taskkill
        runs, and when it fails the plain one is tried once; if that fails
        too, the elevated error is returned and sing-box still counts as
        running. */
    method StopElevated(o: StopOracle) returns (err: Option<VpnError>)
      requires isRunning && process.None?
      modifies this
      ensures err == ElevatedStopError(o) && log == old(log) + ElevatedStopLog(o)
      ensures err.None? <==> !isRunning
      ensures process.None? && singBoxAvailable == old(singBoxAvailable) && downloading == old(downloading)
      ensures deliveryConfig == old(deliveryConfig) && monitors == old(monitors) && pollers == old(pollers)
      ensures cancelled == old(cancelled)
    {
      log := log + ["Stopping elevated sing-box process..."];
      var shell := Elevation.KillSingBoxProcessElevated(o.cwd, o.shellRet);
      if shell.error.Some? {
        err := ElevatedFallback(o, shell.error.value, Elevation.Message(shell.error.value));
        assert log == old(log) + ["Stopping elevated sing-box process..."] + FallbackLog(o, Elevation.Message(shell.error.value));
        return err;
      }
      isRunning := false;
      log := log + ["sing-box process stopped"];
      return None;
    }

    /** The fallback of StopVPN after the elevated kill failed with `e`,
        whose text `reason` is logged: the plain taskkill is tried once. */
    method ElevatedFallback(o: StopOracle, e: Elevation.ElevationError, reason: string) returns (err: Option<VpnError>)
      requires isRunning && process.None?
      modifies this
      ensures err.None? <==> TaskkillStopped(o.taskkill, o.taskkillOutput)
      ensures err.Some? ==> err == Some(ElevatedKillFailed(e))
      ensures log == old(log) + FallbackLog(o, reason)
      ensures err.None? <==> !isRunning
      ensures process.None? && singBoxAvailable == old(singBoxAvailable) && downloading == old(downloading)
      ensures deliveryConfig == old(deliveryConfig) && monitors == old(monitors) && pollers == old(pollers)
      ensures cancelled == old(cancelled)
    {
      var stopped := TaskkillStopped(o.taskkill, o.taskkillOutput);
      var tried := ["Error stopping elevated process: " + reason,
                    "Trying regular taskkill as fallback...",
                    TaskkillLog(o.taskkill, o.taskkillOutput)];
      log := log + ["Error stopping elevated process: " + reason];
      log := log + ["Trying regular taskkill as fallback..."];
      var fallbackErr := KillSingBoxProcess(o.taskkill, o.taskkillOutput);
      assert log == old(log) + tried;
      if fallbackErr.Some? {
        log := log + ["Fallback also failed: " + fallbackErr.value];
        assert FallbackLog(o, reason) == tried + ["Fallback also failed: " + FallbackError(o.taskkill.cause)];
        return Some(ElevatedKillFailed(e));
      }
      isRunning := false;
      log := log + ["sing-box process stopped"];
      assert FallbackLog(o, reason) == tried + ["sing-box process stopped"];
      return None;
    }

    /** monitorProcess, once the owned process's Wait returns: the exit is
        logged and the controller forgets the process. */
    method OnProcessExit(exitErr: Option<string>)
      requires monitors > 0
      modifies this
      ensures !isRunning && process.None? && monitors == old(monitors) - 1
      ensures log == old(log) + [if exitErr.Some? then "sing-box process exited with error: " + exitErr.value
                                 else "sing-box process exited"]
      ensures singBoxAvailable == old(singBoxAvailable) && downloading == old(downloading)
      ensures deliveryConfig == old(deliveryConfig) && pollers == old(pollers) && cancelled == old(cancelled)
    {
      if exitErr.Some? {
        log := log + ["sing-box process exited with error: " + exitErr.value];
      } else {
        log := log + ["sing-box process exited"];
      }
      isRunning := false;
      process := None;
      monitors := monitors - 1;
    }

    /** One tick of monitorElevatedProcess. `tasklist` is the output of
        `tasklist`, or None when it could not be run. A process that is no
        longer listed ends the poller and marks sing-box stopped. */
    method ElevatedPollTick(tasklist: Option<string>) returns (keepPolling: bool)
      requires pollers > 0 && !cancelled
      modifies this
      ensures keepPolling <==> ProcessListed(tasklist)
      ensures keepPolling ==> isRunning == old(isRunning) && pollers == old(pollers) && log == old(log)
      ensures !keepPolling ==> !isRunning && pollers == old(pollers) - 1
      ensures !keepPolling ==> log == old(log) + (if old(isRunning) then ["sing-box process has stopped"] else [])
      ensures process == old(process) && monitors == old(monitors)
      ensures singBoxAvailable == old(singBoxAvailable) && downloading == old(downloading)
      ensures deliveryConfig == old(deliveryConfig) && cancelled == old(cancelled)
    {
      if ProcessListed(tasklist) {
        return true;
      }
      if isRunning {
        isRunning := false;
        log := log + ["sing-box process has stopped"];
      }
      pollers := pollers - 1;
      return false;
    }

    /** forwardOutput: logs each non-empty line of one stream with its tag,
        then the scanner's error, if any. */
    method ForwardOutput(lines: seq<string>, streamType: string, scanErr: Option<string>)
      modifies this
      ensures log == old(log) + ForwardedLines(lines, streamType) +
                     (if scanErr.Some? then ["Error reading " + streamType + ": " + scanErr.value] else [])
      ensures isRunning == old(isRunning) && process == old(process)
      ensures singBoxAvailable == old(singBoxAvailable) && downloading == old(downloading)
      ensures deliveryConfig == old(deliveryConfig) && monitors == old(monitors) && pollers == old(pollers)
      ensures cancelled == old(cancelled)
    {
      var i := 0;
      while i < |lines|
        invariant 0 <= i <= |lines|
        invariant log == old(log) + ForwardedLines(lines[..i], streamType)
        invariant isRunning == old(isRunning) && process == old(process)
        invariant singBoxAvailable == old(singBoxAvailable) && downloading == old(downloading)
        invariant deliveryConfig == old(deliveryConfig) && monitors == old(monitors) && pollers == old(pollers)
        invariant cancelled == old(cancelled)
      {
        assert lines[..i + 1] == lines[..i] + [lines[i]];
        ForwardedLinesAppend(lines[..i], [lines[i]], streamType);
        if lines[i] != "" {
          log := log + ["[sing-box " + streamType + "] " + lines[i]];
        }
        i := i + 1;
      }
      assert lines[..i] == lines;
      if scanErr.Some? {
        log := log + ["Error reading " + streamType + ": " + scanErr.value];
      }
    }

    /** Stop: stops sing-box (an error is only logged) and cancels the
        context, which ends the pollers and the periodic check. */
    method Stop(o: StopOracle) returns (err: Option<VpnError>)
      modifies this
      ensures cancelled && pollers == 0
      ensures err.None? <==> !isRunning
      ensures !old(isRunning) ==> err.None? && log == old(log) && process == old(process)
      ensures err.Some? ==> |log| > 0 && log[|log| - 1] == "Error stopping VPN: " + Message(err.value)
      ensures LogGrew()
      ensures singBoxAvailable == old(singBoxAvailable) && downloading == old(downloading)
      ensures deliveryConfig == old(deliveryConfig) && monitors == old(monitors)
    {
      err := StopVPN(o);
      if err.Some? {
        log := log + ["Error stopping VPN: " + Message(err.value)];
      }
      cancelled := true;
      pollers := 0;
    }

    /** One tick of checkSingBoxFileAvailability. Nothing happens while a
        download runs. A manifest that cannot be fetched leaves availability
        to the binary's presence. A fetched manifest is cached, its version
        recorded at once, and then the download decision is taken; `launch`
        says whether downloadSingBox was started. `versionErr` is the
        recording error that was logged. */
    method CheckAvailability(fs: Store, o: CheckOracle) returns (launch: bool, versionErr: Option<Fetcher.ConfigError>)
      requires Valid() && !cancelled
      modifies this, fs
      ensures Valid()
      ensures old(downloading) ==>
        !launch && versionErr.None? && singBoxAvailable == old(singBoxAvailable) && downloading &&
        deliveryConfig == old(deliveryConfig) && log == old(log) && fs.appConfig == old(fs.appConfig)
      ensures !old(downloading) && Fetcher.FetchDeliveryConfig(o.resp, o.decoded).Err? ==>
        var binaryExists := old(fs.Stat(SingBoxPath(appDir))) == Found;
        !launch && versionErr.None? && !downloading && singBoxAvailable == binaryExists &&
        deliveryConfig == old(deliveryConfig) && fs.appConfig == old(fs.appConfig) &&
        log == old(log) + ["Warning: Could not fetch delivery config: " +
                           Fetcher.Message(Fetcher.FetchDeliveryConfig(o.resp, o.decoded).error),
                           if binaryExists then "Using existing local sing-box installation"
                           else "No local sing-box found and delivery config unreachable"]
      ensures !old(downloading) && Fetcher.FetchDeliveryConfig(o.resp, o.decoded).Ok? ==>
        var manifest := Fetcher.FetchDeliveryConfig(o.resp, o.decoded).value;
        var binaryExists := old(fs.Stat(SingBoxPath(appDir))) == Found;
        deliveryConfig == Some(manifest) &&
        (versionErr.None? <==> Fetcher.LoadAppConfig(old(fs.appConfig), o.load).Ok? &&
                               o.save.exe.Located? && o.save.mkdir.Pass? && o.save.write.Written?) &&
        (versionErr.None? ==> fs.appConfig == Stored(Fetcher.LoadAppConfig(old(fs.appConfig), o.load).value
                                                      .(currentSingBoxVersion := manifest.singBoxVersion))) &&
        (versionErr.Some? ==> fs.appConfig == old(fs.appConfig)) &&
        launch == SingBoxFetch.DownloadNeeded(binaryExists, Some(manifest), fs.appConfig, o.reload) &&
        downloading == launch && singBoxAvailable == !launch &&
        log == old(log) +
               (if versionErr.Some? then ["Warning: Could not update version in config: " + Fetcher.Message(versionErr.value)]
                else []) +
               SingBoxFetch.DownloadNeededLog(binaryExists, Some(manifest), fs.appConfig, o.reload)
      ensures !old(downloading) && Fetcher.FetchDeliveryConfig(o.resp, o.decoded).Ok? &&
              Fetcher.FetchDeliveryConfig(o.resp, o.decoded).value.singBoxVersion != "" &&
              old(fs.Stat(SingBoxPath(appDir))) == Found && versionErr.None? ==>
        !launch && singBoxAvailable
      ensures fs.files == old(fs.files) && fs.broken == old(fs.broken)
      ensures isRunning == old(isRunning) && process == old(process)
      ensures monitors == old(monitors) && pollers == old(pollers) && cancelled == old(cancelled)
    {
      var binaryExists := fs.Stat(SingBoxPath(appDir)) == Found;
      if downloading {
        return false, None;
      }
      var fetched := Fetcher.FetchDeliveryConfig(o.resp, o.decoded);
      if fetched.Err? {
        log := log + ["Warning: Could not fetch delivery config: " + Fetcher.Message(fetched.error)];
        if binaryExists {
          log := log + ["Using existing local sing-box installation"];
          singBoxAvailable := true;
        } else {
          log := log + ["No local sing-box found and delivery config unreachable"];
          singBoxAvailable := false;
        }
        return false, None;
      }
      launch, versionErr := RecordAndDecide(fs, fetched.value, binaryExists, o);
    }

    /** The rest of checkSingBoxFileAvailability once a manifest was fetched:
        cache it, record its version, and decide on a download. */
    method RecordAndDecide(fs: Store, manifest: DeliveryConfig, binaryExists: bool, o: CheckOracle)
      returns (launch: bool, versionErr: Option<Fetcher.ConfigError>)
      requires Valid() && !cancelled && !downloading
      modifies this, fs
      ensures Valid()
      ensures deliveryConfig == Some(manifest)
      ensures versionErr.None? <==> Fetcher.LoadAppConfig(old(fs.appConfig), o.load).Ok? &&
                                    o.save.exe.Located? && o.save.mkdir.Pass? && o.save.write.Written?
      ensures versionErr.None? ==> fs.appConfig == Stored(Fetcher.LoadAppConfig(old(fs.appConfig), o.load).value
                                                          .(currentSingBoxVersion := manifest.singBoxVersion))
      ensures versionErr.Some? ==> fs.appConfig == old(fs.appConfig)
      ensures launch == SingBoxFetch.DownloadNeeded(binaryExists, Some(manifest), fs.appConfig, o.reload)
      ensures downloading == launch && singBoxAvailable == !launch
      ensures log == old(log) +
                     (if versionErr.Some? then ["Warning: Could not update version in config: " + Fetcher.Message(versionErr.value)]
                      else []) +
                     SingBoxFetch.DownloadNeededLog(binaryExists, Some(manifest), fs.appConfig, o.reload)
      ensures manifest.singBoxVersion != "" && binaryExists && versionErr.None? ==> !launch && singBoxAvailable
      ensures fs.files == old(fs.files) && fs.broken == old(fs.broken)
      ensures isRunning == old(isRunning) && process == old(process)
      ensures monitors == old(monitors) && pollers == old(pollers) && cancelled == old(cancelled)
    {
      deliveryConfig := Some(manifest);
      versionErr := Fetcher.UpdateSingBoxVersion(fs, manifest.singBoxVersion, o.load, o.save);
      if versionErr.Some? {
        log := log + ["Warning: Could not update version in config: " + Fetcher.Message(versionErr.value)];
      }
      if versionErr.None? && binaryExists && manifest.singBoxVersion != "" {
        SingBoxFetch.RecordedVersionNeedsNoDownload(old(fs.appConfig), o.load, o.reload, manifest);
      }
      log := log + SingBoxFetch.DownloadNeededLog(binaryExists, deliveryConfig, fs.appConfig, o.reload);
      launch := SingBoxFetch.DownloadNeeded(binaryExists, deliveryConfig, fs.appConfig, o.reload);
      if launch {
        singBoxAvailable := false;
        downloading := true;
      } else {
        singBoxAvailable := true;
      }
    }

    /** downloadSingBox: creates the data directory, then (with a cached
        manifest) downloads the license and the archive, extracts the
        executable, deletes the archive and records the version; the first
        failing step ends the run, and the download flag is cleared on every
        exit. */
    method DownloadSingBox(fs: Store, o: SingBoxFetch.PipelineOracle) returns (stage: SingBoxFetch.Stage)
      requires Valid()
      modifies this, fs
      ensures Valid() && !downloading
      ensures stage == SingBoxFetch.ExpectedStage(old(deliveryConfig), o)
      ensures !stage.Completed? ==> fs.appConfig == old(fs.appConfig)
      ensures stage == SingBoxFetch.MkdirFailed || stage == SingBoxFetch.NoManifest ==> fs.files == old(fs.files)
      ensures stage == SingBoxFetch.MkdirFailed ==> log == old(log) + ["Error creating data directory: " + o.mkdir.cause]
      ensures stage == SingBoxFetch.NoManifest ==>
        log == old(log) + ["Starting sing-box download...", "No delivery config available, cannot download"]
      ensures stage.Completed? ==> Installed(fs, old(deliveryConfig).value, o.extract)
      ensures stage.Completed? ==>
        fs.appConfig == Fetcher.VersionRecorded(old(fs.appConfig), old(deliveryConfig).value.singBoxVersion, o.load, o.save)
      ensures stage.Completed? ==> |log| > 0 && log[|log| - 1] == "sing-box download and extraction completed"
      // Only the license, the archive and the binary can change, and the
      // installed binary only on completion or once the extraction's
      // truncating open of it succeeded.
      ensures fs.files - {LicensePath(appDir), ZipPath(appDir), SingBoxPath(appDir)} ==
              old(fs.files) - {LicensePath(appDir), ZipPath(appDir), SingBoxPath(appDir)}
      ensures !stage.Completed? && !(stage.ExtractFailed? && SingBoxFetch.OpensTarget(o.extract, old(deliveryConfig).value.inArchiveExecPath)) ==>
        Lookup(fs.files, SingBoxPath(appDir)) == Lookup(old(fs.files), SingBoxPath(appDir))
      ensures LogGrew()
      ensures fs.broken == old(fs.broken)
      ensures isRunning == old(isRunning) && process == old(process) && singBoxAvailable == old(singBoxAvailable)
      ensures deliveryConfig == old(deliveryConfig)
      ensures monitors == old(monitors) && pollers == old(pollers) && cancelled == old(cancelled)
    {
      if o.mkdir.Fail? {
        log := log + ["Error creating data directory: " + o.mkdir.cause];
        stage := SingBoxFetch.MkdirFailed;
      } else {
        log := log + ["Starting sing-box download..."];
        if deliveryConfig.None? {
          log := log + ["No delivery config available, cannot download"];
          stage := SingBoxFetch.NoManifest;
        } else {
          stage := FetchAndInstall(fs, deliveryConfig.value, o);
        }
      }
      downloading := false;
    }

    /** The executable chosen from the archive is in place. */
    predicate Installed(fs: Store, manifest: DeliveryConfig, extract: SingBoxFetch.ExtractOracle)
      reads fs
    {
      var found := SingBoxFetch.FirstMatch(extract.entries, manifest.inArchiveExecPath);
      found.Some? && SingBoxPath(appDir) in fs.files &&
      fs.files[SingBoxPath(appDir)].content == extract.entries[found.value].content
    }

    /** Lines were only appended to the log. */
    twostate predicate LogGrew()
      reads this
    {
      |old(log)| <= |log| && log[..|old(log)|] == old(log)
    }

    /** Nothing but the log changed. */
    twostate predicate OnlyLogChanged()
      reads this
    {
      isRunning == old(isRunning) && process == old(process) && singBoxAvailable == old(singBoxAvailable) &&
      downloading == old(downloading) && deliveryConfig == old(deliveryConfig) &&
      monitors == old(monitors) && pollers == old(pollers) && cancelled == old(cancelled)
    }

    /** The license, archive and extraction steps of downloadSingBox. */
    method FetchAndInstall(fs: Store, manifest: DeliveryConfig, o: SingBoxFetch.PipelineOracle)
      returns (stage: SingBoxFetch.Stage)
      requires o.mkdir.Pass?
      modifies this, fs
      ensures stage == SingBoxFetch.ExpectedStage(Some(manifest), o)
      ensures !stage.Completed? ==> fs.appConfig == old(fs.appConfig)
      ensures stage.Completed? ==> Installed(fs, manifest, o.extract)
      ensures stage.Completed? ==>
        fs.appConfig == Fetcher.VersionRecorded(old(fs.appConfig), manifest.singBoxVersion, o.load, o.save)
      ensures stage.Completed? ==> |log| > 0 && log[|log| - 1] == "sing-box download and extraction completed"
      ensures fs.files - {LicensePath(appDir), ZipPath(appDir), SingBoxPath(appDir)} ==
              old(fs.files) - {LicensePath(appDir), ZipPath(appDir), SingBoxPath(appDir)}
      ensures !stage.Completed? && !(stage.ExtractFailed? && SingBoxFetch.OpensTarget(o.extract, manifest.inArchiveExecPath)) ==>
        Lookup(fs.files, SingBoxPath(appDir)) == Lookup(old(fs.files), SingBoxPath(appDir))
      ensures LogGrew() && OnlyLogChanged()
      ensures fs.broken == old(fs.broken)
    {
      DataFilesDistinct(appDir);
      ghost var before := fs.files;
      ghost var all := {LicensePath(appDir), ZipPath(appDir), SingBoxPath(appDir)};
      var failed := DownloadArchive(fs, o);
      FrameWiden(before, fs.files, {LicensePath(appDir), ZipPath(appDir)}, all);
      if failed.Some? {
        FrameLookup(before, fs.files, {LicensePath(appDir), ZipPath(appDir)}, SingBoxPath(appDir));
        return failed.value;
      }
      ghost var downloaded := fs.files;
      FrameLookup(before, downloaded, {LicensePath(appDir), ZipPath(appDir)}, SingBoxPath(appDir));
      stage := InstallFromArchive(fs, manifest, o);
      FrameWiden(downloaded, fs.files, {ZipPath(appDir), SingBoxPath(appDir)}, all);
    }

    /** Download the license and then the archive into the data directory;
        the stage at which downloadSingBox stops, if either fails. */
    method DownloadArchive(fs: Store, o: SingBoxFetch.PipelineOracle)
      returns (failed: Option<SingBoxFetch.Stage>)
      modifies this, fs
      ensures failed == if !SingBoxFetch.DownloadSucceeds(o.license) then Some(SingBoxFetch.LicenseFailed)
                        else if !SingBoxFetch.DownloadSucceeds(o.zip) then Some(SingBoxFetch.ZipFailed)
                        else None
      ensures fs.files - {LicensePath(appDir), ZipPath(appDir)} == old(fs.files) - {LicensePath(appDir), ZipPath(appDir)}
      ensures fs.appConfig == old(fs.appConfig) && fs.broken == old(fs.broken)
      ensures LogGrew() && OnlyLogChanged()
    {
      log := log + ["Downloading license file..."];
      var err := SingBoxFetch.DownloadFile(fs, appDir, "sing-box-license", o.license);
      if err.Some? {
        log := log + ["Error downloading license: " + Fetcher.Message(err.value)];
        return Some(SingBoxFetch.LicenseFailed);
      }
      log := log + ["Downloading sing-box.zip..."];
      err := SingBoxFetch.DownloadFile(fs, appDir, "sing-box.zip", o.zip);
      if err.Some? {
        log := log + ["Error downloading zip: " + Fetcher.Message(err.value)];
        return Some(SingBoxFetch.ZipFailed);
      }
      return None;
    }

    /** Extract sing-box.exe from the downloaded archive and, once it is in
        place, finish the installation. */
    method InstallFromArchive(fs: Store, manifest: DeliveryConfig, o: SingBoxFetch.PipelineOracle)
      returns (stage: SingBoxFetch.Stage)
      modifies this, fs
      ensures stage == if SingBoxFetch.ExtractSucceeds(o.extract, manifest.inArchiveExecPath)
                       then SingBoxFetch.Completed else SingBoxFetch.ExtractFailed
      ensures !stage.Completed? ==> fs.appConfig == old(fs.appConfig)
      ensures stage.Completed? ==> Installed(fs, manifest, o.extract)
      ensures stage.Completed? ==>
        fs.appConfig == Fetcher.VersionRecorded(old(fs.appConfig), manifest.singBoxVersion, o.load, o.save)
      ensures stage.Completed? ==> |log| > 0 && log[|log| - 1] == "sing-box download and extraction completed"
      ensures fs.files - {ZipPath(appDir), SingBoxPath(appDir)} == old(fs.files) - {ZipPath(appDir), SingBoxPath(appDir)}
      ensures !stage.Completed? && !SingBoxFetch.OpensTarget(o.extract, manifest.inArchiveExecPath) ==>
        fs.files == old(fs.files)
      ensures LogGrew() && OnlyLogChanged()
      ensures fs.broken == old(fs.broken)
    {
      log := log + ["Extracting sing-box.zip..."];
      var extractErr := SingBoxFetch.ExtractSingBoxFromZip(fs, ZipPath(appDir), Layout.DataDir(appDir),
                                                           manifest.inArchiveExecPath, o.extract);
      if extractErr.Some? {
        log := log + ["Error extracting zip: " + extractErr.value];
        return SingBoxFetch.ExtractFailed;
      }
      ghost var extracted := fs.files;
      FinishInstall(fs, manifest, o);
      FrameWiden(extracted, fs.files, {ZipPath(appDir)}, {ZipPath(appDir), SingBoxPath(appDir)});
      return SingBoxFetch.Completed;
    }

    /** The last steps of downloadSingBox, none of which can end it: delete
        the archive (a failure is a warning) and record the version. */
    method FinishInstall(fs: Store, manifest: DeliveryConfig, o: SingBoxFetch.PipelineOracle)
      requires Installed(fs, manifest, o.extract)
      modifies this, fs
      ensures Installed(fs, manifest, o.extract)
      ensures fs.appConfig == Fetcher.VersionRecorded(old(fs.appConfig), manifest.singBoxVersion, o.load, o.save)
      ensures fs.files - {ZipPath(appDir)} == old(fs.files) - {ZipPath(appDir)}
      ensures |log| > 0 && log[|log| - 1] == "sing-box download and extraction completed"
      ensures LogGrew() && OnlyLogChanged()
      ensures fs.broken == old(fs.broken)
    {
      log := log + ["Deleting sing-box.zip..."];
      DataFilesDistinct(appDir);
      fs.Remove(ZipPath(appDir), o.removeZip);
      if o.removeZip.Fail? {
        log := log + ["Warning: Could not delete zip file: " + o.removeZip.cause];
      }
      var versionErr := Fetcher.UpdateSingBoxVersion(fs, manifest.singBoxVersion, o.load, o.save);
      if versionErr.Some? {
        log := log + ["Warning: Could not update version in config: " + Fetcher.Message(versionErr.value)];
      }
      log := log + ["sing-box download and extraction completed"];
    }
  }
}
