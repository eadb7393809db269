// The text rules of ui/logs.go: the application log entry, the throttling of
// tailed sing-box messages shown per refresh, the text appended to the log
// buffer, and the path the log tailer follows.

module UiLogs {
  import opened Host
  import opened Layout
  import StrUtil
  import Vpn

  /** maxLogsPerSecInUI: watcher messages shown per refresh. */
  const MaxLogsPerSecInUI: nat := 2

  /** addAppLog's entry: the timestamp in brackets, a space, the message. */
  function AppLogEntry(timestamp: string, message: string): (entry: string)
    ensures |entry| == |timestamp| + |message| + 3
    ensures entry[0] == '[' && entry[|timestamp| + 1] == ']' && entry[|timestamp| + 2] == ' '
    ensures entry[1..|timestamp| + 1] == timestamp && entry[|timestamp| + 3..] == message
  {
    "[" + timestamp + "] " + message
  }

  /** Entries with timestamps of one width (time's "15:04:05" layout) are
      equal only for equal timestamps and messages. */
  lemma AppLogEntryInjective(t1: string, m1: string, t2: string, m2: string)
    requires |t1| == |t2| && AppLogEntry(t1, m1) == AppLogEntry(t2, m2)
    ensures t1 == t2 && m1 == m2
  {
    var e := AppLogEntry(t1, m1);
    assert t1 == e[1..|t1| + 1] == t2;
    assert m1 == e[|t1| + 3..] == m2;
  }

  /** The line that stands for `k` suppressed watcher messages. */
  function Summary(k: nat): string
  {
    "[" + StrUtil.NatToString(k) + " more sing-box messages...]"
  }

  /** The entries one refresh shows for a drained watcher batch: the first
      MaxLogsPerSecInUI messages in order, then one summary line when there
      were more. */
  function Throttled(msgs: seq<string>): (shown: seq<string>)
    ensures |shown| <= MaxLogsPerSecInUI + 1
    ensures |msgs| <= MaxLogsPerSecInUI ==> shown == msgs
    ensures |msgs| > MaxLogsPerSecInUI ==>
      |shown| == MaxLogsPerSecInUI + 1 && shown[..MaxLogsPerSecInUI] == msgs[..MaxLogsPerSecInUI]
    ensures |shown| == MaxLogsPerSecInUI + 1 <==> |msgs| > MaxLogsPerSecInUI
  {
    if |msgs| <= MaxLogsPerSecInUI then msgs
    else msgs[..MaxLogsPerSecInUI] + [Summary(|msgs| - MaxLogsPerSecInUI)]
  }

  /** The summary line gives back the number of messages it stands for. */
  lemma SummaryCountsSuppressed(msgs: seq<string>)
    requires |msgs| > MaxLogsPerSecInUI
    ensures var s := Throttled(msgs)[MaxLogsPerSecInUI];
            |s| > 28 && s[0] == '[' && s[|s| - 27..] == " more sing-box messages...]" &&
            StrUtil.DecimalValue(s[1..|s| - 27]) == |msgs| - MaxLogsPerSecInUI
  {
    var k := |msgs| - MaxLogsPerSecInUI;
    var digits := StrUtil.NatToString(k);
    var s := Throttled(msgs)[MaxLogsPerSecInUI];
    assert s == "[" + digits + " more sing-box messages...]";
    assert s[1..|s| - 27] == digits;
    StrUtil.DecimalRoundTrip(k);
  }

  /** The text refreshLogsUI adds to the log buffer for `entries`: each entry
      followed by a newline, in order. */
  function Appended(entries: seq<string>): (text: string)
    ensures |text| >= |entries|
    ensures entries != [] ==> text[|text| - 1] == '\n'
  {
    if entries == [] then "" else Appended(entries[..|entries| - 1]) + entries[|entries| - 1] + "\n"
  }

  /** Appending two batches one after the other appends their concatenation. */
  lemma {:induction false} AppendedConcat(a: seq<string>, b: seq<string>)
    ensures Appended(a + b) == Appended(a) + Appended(b)
  {
    if b == [] {
      assert a + b == a;
    } else {
      var c := a + b;
      var init := b[..|b| - 1];
      var last := b[|b| - 1];
      assert c[..|c| - 1] == a + init;
      assert c[|c| - 1] == last;
      assert Appended(c) == Appended(a + init) + last + "\n";
      AppendedConcat(a, init);
      assert Appended(b) == Appended(init) + last + "\n";
    }
  }

  /** The directory startLogWatcher starts from: filepath.Dir of
      os.Executable, whose error is ignored. The empty path's directory is
      ".", and filepath.Join cleans a leading "." away, so the path is then
      relative to the working directory; "" stands for it here, since
      Join("", name) is name. No rootify is applied. */
  function TailDir(exe: ExeDir): string
  {
    match exe
    case Located(dir) => dir
    case Unlocated(_) => ""
  }

  /** startLogWatcher's path: sing-box.log in the logs directory of the data
      directory. */
  function TailedLogPath(exe: ExeDir): string
  {
    Join(Join(Join(TailDir(exe), GoSingDataDir), SingBoxLogDir), SingBoxLogFile)
  }

  /** Unless the program's directory is a bare drive, the tailer follows the
      file an elevated sing-box writes its output to. */
  lemma TailedLogIsLaunchLog(dir: string)
    requires !BareDrive(dir)
    ensures TailedLogPath(Located(dir)) == LogFilePath(Vpn.Rootify(dir))
  {
  }

  /** On a bare drive the two paths part: the tailer's path is relative to
      the drive's current directory, the controller's is rooted. The
      program itself never gets here, because filepath.Dir of an absolute
      executable path keeps the backslash after a drive letter; the lemma
      shows why Rootify matters to the controller's own paths. */
  lemma TailedLogOnBareDrive(dir: string)
    requires BareDrive(dir)
    ensures TailedLogPath(Located(dir)) != LogFilePath(Vpn.Rootify(dir))
  {
    var tailed := TailedLogPath(Located(dir));
    var launched := LogFilePath(Vpn.Rootify(dir));
    assert tailed[2] == 'g';
    assert launched[2] == '\\';
  }
}
