// internal/elevation/elevation_windows.go: the privilege check, the
// ShellExecuteW "runas" gateway with its result-code mapping, and the two
// elevated command lines (launching sing-box with its output redirected to
// the log file, and killing it by image name).

module Elevation {
  import opened Host
  import opened Layout
  import StrUtil

  const SW_HIDE: nat := 0
  const SW_SHOW: nat := 5
  const TokenElevationTypeFull: nat := 2

  datatype ElevationError =
    | AccessDenied
    | InsufficientMemory
    | NoAssociation
    | ShellExecuteFailed(code: nat)
    | BinaryNotFound(path: string)
    | ConfigNotFound(path: string)
    | LogsDirFailed(cause: string)
    | LogFileFailed(cause: string)

  function Message(e: ElevationError): string
  {
    match e
    case AccessDenied => "access denied - UAC prompt may have been cancelled"
    case InsufficientMemory => "insufficient memory"
    case NoAssociation => "no application associated with file"
    case ShellExecuteFailed(code) => "ShellExecute failed with code: " + StrUtil.NatToString(code)
    case BinaryNotFound(p) => "sing-box.exe not found at: " + p
    case ConfigNotFound(p) => "config.json not found at: " + p
    case LogsDirFailed(c) => "failed to create logs directory: " + c
    case LogFileFailed(c) => "failed to create log file: " + c
  }

  /** What Windows answers to the steps of IsGoSingElevated: GetCurrentProcess,
      OpenProcessToken, the return value of GetTokenInformation and the
      elevation type it wrote. */
  datatype TokenQuery = TokenQuery(currentProcess: Outcome, openToken: Outcome, infoRet: nat, elevationType: nat)

  /** IsGoSingElevated: elevated only when every query succeeds and the token's
      elevation type is Full. */
  function IsGoSingElevated(q: TokenQuery): (elevated: bool)
    ensures elevated ==> q.currentProcess.Pass? && q.openToken.Pass? && q.infoRet != 0
    ensures elevated ==> q.elevationType == TokenElevationTypeFull
    ensures q.currentProcess.Pass? && q.openToken.Pass? && q.infoRet != 0 && q.elevationType == TokenElevationTypeFull ==> elevated
  {
    if q.currentProcess.Fail? then false
    else if q.openToken.Fail? then false
    else q.infoRet != 0 && q.elevationType == TokenElevationTypeFull
  }

  /** The error RunElevated reports for ShellExecuteW's return value. */
  function ShellExecuteResult(ret: nat): (r: Option<ElevationError>)
    ensures r.None? <==> ret > 32
    ensures r == Some(AccessDenied) <==> ret == 5
    ensures r == Some(InsufficientMemory) <==> ret == 8
    ensures r == Some(NoAssociation) <==> ret == 31
    ensures r == Some(ShellExecuteFailed(ret)) <==> ret <= 32 && ret != 5 && ret != 8 && ret != 31
    ensures r.Some? ==> r.value.AccessDenied? || r.value.InsufficientMemory? || r.value.NoAssociation? ||
                        r.value == ShellExecuteFailed(ret)
  {
    if ret > 32 then None
    else if ret == 5 then Some(AccessDenied)
    else if ret == 8 then Some(InsufficientMemory)
    else if ret == 31 then Some(NoAssociation)
    else Some(ShellExecuteFailed(ret))
  }

  /** The nShowCmd passed to ShellExecuteW. */
  function ShowMode(showWindow: bool): (show: nat)
    ensures show == SW_SHOW <==> showWindow
    ensures show == SW_HIDE <==> !showWindow
  {
    if showWindow then SW_SHOW else SW_HIDE
  }

  /** An empty working directory means the current one (`cwd`, what os.Getwd
      returns). */
  function EffectiveWorkingDir(workingDir: string, cwd: string): (dir: string)
    ensures workingDir != "" ==> dir == workingDir
    ensures workingDir == "" ==> dir == cwd
  {
    if workingDir == "" then cwd else workingDir
  }

  /** The call RunElevated makes: ShellExecuteW(0, verb, program, args, dir, show). */
  datatype ShellRequest = ShellRequest(verb: string, program: string, args: string, workingDir: string, show: nat)

  datatype ShellCall = ShellCall(request: ShellRequest, error: Option<ElevationError>)

  /** RunElevated, given what ShellExecuteW returns (`ret`) and the current
      directory (`cwd`). */
  function RunElevated(program: string, args: string, workingDir: string, showWindow: bool,
                       cwd: string, ret: nat): (c: ShellCall)
    ensures c.request.verb == "runas" && c.request.program == program && c.request.args == args
    ensures c.request.workingDir == EffectiveWorkingDir(workingDir, cwd)
    ensures c.request.show == ShowMode(showWindow)
    ensures c.error.None? <==> ret > 32
    ensures c.error == ShellExecuteResult(ret)
  {
    ShellCall(ShellRequest("runas", program, args, EffectiveWorkingDir(workingDir, cwd), ShowMode(showWindow)),
              ShellExecuteResult(ret))
  }

  /** The cmd.exe argument string that runs sing-box with its standard output
      and error redirected to the log file:
      /C ""<exe>" run -c "<config>" -D "<appDir>" > "<log>" 2>&1" */
  function LaunchArgs(exe: string, config: string, appDir: string, log: string): string
  {
    "/C \"\"" + exe + "\" run -c \"" + config + "\" -D \"" + appDir + "\" > \"" + log + "\" 2>&1\""
  }

  /** The text before the first `c` in `s`, and the text after it. */
  function SplitAt(s: string, c: char): Option<(string, string)>
  {
    if s == [] then None
    else if s[0] == c then Some(([], s[1..]))
    else match SplitAt(s[1..], c)
      case None => None
      case Some(p) => Some(([s[0]] + p.0, p.1))
  }

  /** The rest of `s` after the literal prefix `p`. */
  function After(s: string, p: string): Option<string>
  {
    if p <= s then Some(s[|p|..]) else None
  }

  /** After the literal `prefix`, the text up to the next double quote and
      the text after that quote. */
  function ParseField(s: string, prefix: string): Option<(string, string)>
  {
    match After(s, prefix)
    case None => None
    case Some(rest) => SplitAt(rest, '"')
  }

  /** Recovers the four paths from a launch argument string: the inverse of
      LaunchArgs on paths without double quotes. */
  function ParseLaunchArgs(s: string): Option<(string, string, string, string)>
  {
    match ParseField(s, "/C \"\"")
    case None => None
    case Some(f1) =>
      match ParseField(f1.1, " run -c \"")
      case None => None
      case Some(f2) =>
        match ParseField(f2.1, " -D \"")
        case None => None
        case Some(f3) =>
          match ParseField(f3.1, " > \"")
          case None => None
          case Some(f4) =>
            if f4.1 == " 2>&1\"" then Some((f1.0, f2.0, f3.0, f4.0)) else None
  }

  lemma {:induction false} SplitAtFirst(x: string, c: char, y: string)
    requires c !in x
    ensures SplitAt(x + [c] + y, c) == Some((x, y))
  {
    if x == [] {
      assert x + [c] + y == [c] + y;
    } else {
      assert (x + [c] + y)[1..] == x[1..] + [c] + y;
      SplitAtFirst(x[1..], c, y);
      assert [x[0]] + x[1..] == x;
    }
  }

  lemma AfterPrefix(p: string, y: string)
    ensures After(p + y, p) == Some(y)
  {
    assert p <= p + y;
    assert (p + y)[|p|..] == y;
  }

  lemma ParseFieldOf(prefix: string, x: string, rest: string)
    requires '"' !in x
    ensures ParseField(prefix + x + "\"" + rest, prefix) == Some((x, rest))
  {
    assert prefix + x + "\"" + rest == prefix + (x + ['"'] + rest);
    AfterPrefix(prefix, x + ['"'] + rest);
    SplitAtFirst(x, '"', rest);
  }

  /** The launch argument string as four quoted fields, each followed by
      the literal text up to the next field. */
  lemma LaunchArgsShape(exe: string, config: string, appDir: string, log: string)
    ensures LaunchArgs(exe, config, appDir, log) ==
      "/C \"\"" + exe + "\"" + (" run -c \"" + config + "\"" + (" -D \"" + appDir + "\"" + (" > \"" + log + "\"" + " 2>&1\"")))
  {
  }

  /** With paths free of double quotes the launch command line determines the
      four paths it was built from. */
  lemma LaunchArgsRoundTrip(exe: string, config: string, appDir: string, log: string)
    requires '"' !in exe && '"' !in config && '"' !in appDir && '"' !in log
    ensures ParseLaunchArgs(LaunchArgs(exe, config, appDir, log)) == Some((exe, config, appDir, log))
  {
    var r4 := " 2>&1\"";
    var r3 := " > \"" + log + "\"" + r4;
    var r2 := " -D \"" + appDir + "\"" + r3;
    var r1 := " run -c \"" + config + "\"" + r2;
    var s := LaunchArgs(exe, config, appDir, log);
    LaunchArgsShape(exe, config, appDir, log);
    ParseFieldOf("/C \"\"", exe, r1);
    assert ParseField(s, "/C \"\"") == Some((exe, r1));
    ParseFieldOf(" run -c \"", config, r2);
    ParseFieldOf(" -D \"", appDir, r3);
    ParseFieldOf(" > \"", log, r4);
  }

  /** The arguments of the elevated kill: taskkill by image name. */
  const KillArgs: string := "/C taskkill /F /IM " + SingBoxExeName

  /** KillSingBoxProcessElevated: cmd.exe running taskkill, hidden, in the
      current directory. */
  function KillSingBoxProcessElevated(cwd: string, ret: nat): (c: ShellCall)
    ensures c.request == ShellRequest("runas", "cmd.exe", "/C taskkill /F /IM sing-box.exe", cwd, SW_HIDE)
    ensures c.error == ShellExecuteResult(ret)
  {
    RunElevated("cmd.exe", KillArgs, "", false, cwd, ret)
  }

  /** What the host answers during LaunchSingBoxElevated: creating the logs
      directory, writing the empty log file, the current directory and
      ShellExecuteW's return value. */
  datatype LaunchOracle = LaunchOracle(mkdirLogs: Outcome, writeLog: WriteOutcome, cwd: string, ret: nat)

  /** LaunchSingBoxElevated reaches ShellExecuteW: both files are there (as
      os.IsNotExist judges) and the log file has been recreated. */
  predicate LaunchReachesShell(binary: StatResult, config: StatResult, o: LaunchOracle)
  {
    binary != Missing && config != Missing && o.mkdirLogs.Pass? && o.writeLog.Written?
  }

  /** The error LaunchSingBoxElevated ends with, step by step. */
  function LaunchError(binary: StatResult, config: StatResult, appDir: string, o: LaunchOracle): Option<ElevationError>
  {
    if binary == Missing then Some(BinaryNotFound(SingBoxPath(appDir)))
    else if config == Missing then Some(ConfigNotFound(ConfigPath(appDir)))
    else if o.mkdirLogs.Fail? then Some(LogsDirFailed(o.mkdirLogs.cause))
    else if !o.writeLog.Written? then Some(LogFileFailed(o.writeLog.cause))
    else ShellExecuteResult(o.ret)
  }

  /** LaunchSingBoxElevated: checks the binary, then config.json, creates the
      logs directory, recreates the log file empty, and asks for cmd.exe to
      be run elevated and hidden in the program directory. `call` is the
      ShellExecuteW request made, if one was. */
  method LaunchSingBoxElevated(fs: Store, appDir: string, o: LaunchOracle)
    returns (call: Option<ShellRequest>, err: Option<ElevationError>)
    modifies fs
    ensures old(fs.Stat(SingBoxPath(appDir))) == Missing ==>
      err == Some(BinaryNotFound(SingBoxPath(appDir))) && call.None? && fs.files == old(fs.files)
    ensures old(fs.Stat(SingBoxPath(appDir))) != Missing && old(fs.Stat(ConfigPath(appDir))) == Missing ==>
      err == Some(ConfigNotFound(ConfigPath(appDir))) && call.None? && fs.files == old(fs.files)
    ensures call.None? ==> err.Some?
    // Once both files are there and the logs directory exists, the log file
    // is what os.WriteFile left: recreated empty even when the write failed
    // after the open.
    ensures old(fs.Stat(SingBoxPath(appDir))) != Missing && old(fs.Stat(ConfigPath(appDir))) != Missing &&
            o.mkdirLogs.Pass? ==>
      fs.files == old(fs.AfterWrite(LogFilePath(appDir), "", DefaultFileMode, o.writeLog))
    ensures call.None? && !(o.mkdirLogs.Pass? && o.writeLog.WriteFailed?) ==> fs.files == old(fs.files)
    ensures call.Some? <==>
      old(fs.Stat(SingBoxPath(appDir))) != Missing && old(fs.Stat(ConfigPath(appDir))) != Missing &&
      o.mkdirLogs.Pass? && o.writeLog.Written?
    ensures call.Some? ==>
      fs.files == old(fs.files)[LogFilePath(appDir) := FileData(old(fs.ModeAfterOpen(LogFilePath(appDir), DefaultFileMode)), "")] &&
      call.value == ShellRequest("runas", "cmd.exe",
                                 LaunchArgs(SingBoxPath(appDir), ConfigPath(appDir), appDir, LogFilePath(appDir)),
                                 EffectiveWorkingDir(appDir, o.cwd), SW_HIDE) &&
      err == ShellExecuteResult(o.ret)
    ensures err == LaunchError(old(fs.Stat(SingBoxPath(appDir))), old(fs.Stat(ConfigPath(appDir))), appDir, o)
    ensures call.Some? <==> LaunchReachesShell(old(fs.Stat(SingBoxPath(appDir))), old(fs.Stat(ConfigPath(appDir))), o)
    ensures fs.broken == old(fs.broken) && fs.appConfig == old(fs.appConfig)
  {
    var singBoxPath := SingBoxPath(appDir);
    var configPath := ConfigPath(appDir);
    var logFilePath := LogFilePath(appDir);
    if fs.Stat(singBoxPath) == Missing {
      return None, Some(BinaryNotFound(singBoxPath));
    }
    if fs.Stat(configPath) == Missing {
      return None, Some(ConfigNotFound(configPath));
    }
    if o.mkdirLogs.Fail? {
      return None, Some(LogsDirFailed(o.mkdirLogs.cause));
    }
    fs.WriteFile(logFilePath, "", DefaultFileMode, o.writeLog);
    if !o.writeLog.Written? {
      return None, Some(LogFileFailed(o.writeLog.cause));
    }
    var args := LaunchArgs(singBoxPath, configPath, appDir, logFilePath);
    var shell := RunElevated("cmd.exe", args, appDir, false, o.cwd, o.ret);
    return Some(shell.request), shell.error;
  }
}
