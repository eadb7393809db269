// ui/logwatcher.go: tails sing-box.log for the UI. A LogWatcher remembers
// how far into the file it has read and whether it saw the file on the last
// tick, turns new lines into clean "[sing-box LOG] ..." messages and hands
// them out once. On construction a log left over from an earlier run is
// archived under a timestamped name.

module LogTail {
  import opened Host
  import StrUtil

  /** The code points cleanLogLine replaces: typographic punctuation, the
      no-break space, the C0 controls other than tab, newline and carriage
      return, and the C1 controls. */
  predicate Remapped(c: char)
  {
    c == '\U{A0}' || c == '\U{2019}' || c == '\U{201C}' || c == '\U{201D}' || c == '\U{2013}' || c == '\U{2014}'
    || c == '\U{2026}'
    || ((c as int) < 32 && c != '\t' && c != '\n' && c != '\r')
    || (127 < (c as int) < 160)
  }

  /** What cleanLogLine writes for one code point. */
  function MapRune(c: char): (r: string)
    ensures forall d :: d in r ==> !Remapped(d)
    ensures r == [c] <==> !Remapped(c)
    ensures c == '\U{2026}' ==> r == "..."
    ensures Remapped(c) && c != '\U{2026}' ==> |r| == 1
  {
    if c == '\U{A0}' then " "
    else if c == '\U{2019}' then "'"
    else if c == '\U{201C}' || c == '\U{201D}' then "\""
    else if c == '\U{2013}' || c == '\U{2014}' then "-"
    else if c == '\U{2026}' then "..."
    else if (c as int) < 32 && c != '\t' && c != '\n' && c != '\r' then " "
    else if 127 < (c as int) < 160 then " "
    else [c]
  }

  /** The builder loop of cleanLogLine: every code point mapped, in order. */
  function MapRunes(s: string): (r: string)
    ensures forall d :: d in r ==> !Remapped(d)
    ensures (forall k :: 0 <= k < |s| ==> !Remapped(s[k])) ==> r == s
    ensures |r| >= |s|
  {
    if s == [] then [] else MapRune(s[0]) + MapRunes(s[1..])
  }

  /** cleanLogLine: maps every code point, then trims the white space the
      mapping may have left at either end. */
  function CleanLogLine(line: string): (r: string)
    ensures forall d :: d in r ==> !Remapped(d)
    ensures r != [] ==> !StrUtil.IsSpace(r[0]) && !StrUtil.IsSpace(r[|r| - 1])
  {
    StrUtil.TrimSpace(MapRunes(line))
  }

  /** Cleaning a clean line changes nothing. */
  lemma CleanLogLineIdempotent(line: string)
    ensures CleanLogLine(CleanLogLine(line)) == CleanLogLine(line)
  {
    var r := CleanLogLine(line);
    assert forall k :: 0 <= k < |r| ==> !Remapped(r[k]) by {
      forall k | 0 <= k < |r| ensures !Remapped(r[k]) {
        assert r[k] in r;
      }
    }
    assert MapRunes(r) == r;
    StrUtil.TrimSpaceIdempotent(MapRunes(line));
  }

  /** The message processNewLines makes of one scanned line, if any: the
      line is trimmed, cleaned and tagged; a line empty after either step
      is dropped. */
  function LineMessage(line: string): (m: Option<string>)
    ensures m.Some? <==> CleanLogLine(StrUtil.TrimSpace(line)) != ""
    ensures m.Some? ==> m.value == "[sing-box LOG] " + CleanLogLine(StrUtil.TrimSpace(line))
  {
    var trimmed := StrUtil.TrimSpace(line);
    if trimmed == "" then None
    else
      var clean := CleanLogLine(trimmed);
      if clean == "" then None else Some("[sing-box LOG] " + clean)
  }

  /** The values `f` yields over `lines`, in order, where it yields one. */
  function Collect(f: string -> Option<string>, lines: seq<string>): (out: seq<string>)
    ensures |out| <= |lines|
  {
    if lines == [] then []
    else (if f(lines[0]).Some? then [f(lines[0]).value] else []) + Collect(f, lines[1..])
  }

  /** Collecting in two pieces gives what collecting at once gives. */
  lemma {:induction false} CollectAppend(f: string -> Option<string>, a: seq<string>, b: seq<string>)
    ensures Collect(f, a + b) == Collect(f, a) + Collect(f, b)
  {
    if a == [] {
      assert a + b == b;
    } else {
      var head := if f(a[0]).Some? then [f(a[0]).value] else [];
      assert (a + b)[0] == a[0];
      assert (a + b)[1..] == a[1..] + b;
      assert Collect(f, a + b) == head + Collect(f, a[1..] + b);
      CollectAppend(f, a[1..], b);
      assert Collect(f, a) == head + Collect(f, a[1..]);
    }
  }

  /** A value is collected exactly when some line yields it. */
  lemma {:induction false} CollectMembers(f: string -> Option<string>, lines: seq<string>, m: string)
    ensures m in Collect(f, lines) <==> exists k :: 0 <= k < |lines| && f(lines[k]) == Some(m)
  {
    if lines != [] {
      CollectMembers(f, lines[1..], m);
      if exists k :: 0 <= k < |lines| && f(lines[k]) == Some(m) {
        var k :| 0 <= k < |lines| && f(lines[k]) == Some(m);
        if k > 0 {
          assert lines[1..][k - 1] == lines[k];
        }
      }
      if exists k :: 0 <= k < |lines[1..]| && f(lines[1..][k]) == Some(m) {
        var k :| 0 <= k < |lines[1..]| && f(lines[1..][k]) == Some(m);
        assert lines[k + 1] == lines[1..][k];
      }
    }
  }

  /** The messages processNewLines makes of the scanned lines, in file
      order: exactly those of the lines that survive cleaning. */
  function LogMessages(lines: seq<string>): (msgs: seq<string>)
    ensures |msgs| <= |lines|
  {
    Collect(LineMessage, lines)
  }

  /** Scanning one more line adds that line's message, if it has one. */
  lemma LogMessagesStep(lines: seq<string>, i: nat)
    requires i < |lines|
    ensures LogMessages(lines[..i + 1]) ==
      LogMessages(lines[..i]) + (if LineMessage(lines[i]).Some? then [LineMessage(lines[i]).value] else [])
  {
    assert lines[..i + 1] == lines[..i] + [lines[i]];
    CollectAppend(LineMessage, lines[..i], [lines[i]]);
    assert [lines[i]][1..] == [];
  }

  lemma LogMessagesExactly(lines: seq<string>, m: string)
    ensures m in LogMessages(lines) <==>
      exists k :: 0 <= k < |lines| && CleanLogLine(StrUtil.TrimSpace(lines[k])) != "" &&
                  m == "[sing-box LOG] " + CleanLogLine(StrUtil.TrimSpace(lines[k]))
  {
    CollectMembers(LineMessage, lines, m);
  }

  /** shouldReadFile's verdict: read when the file was not seen on the last
      tick or its size differs from the offset. */
  predicate Reads(fileExists: bool, lastOffset: nat, size: nat)
  {
    !fileExists || size != lastOffset
  }

  /** archiveExistingLogFile: a log that os.Stat does not report missing is
      renamed to `<path>.<timestamp>`, or removed when the rename fails. The
      outcome of the removal is ignored. */
  method ArchiveExistingLogFile(fs: Store, logPath: string, timestamp: string, rename: Outcome, remove: Outcome)
    modifies fs
    ensures old(fs.Stat(logPath)) == Missing ==> fs.files == old(fs.files)
    ensures old(fs.Stat(logPath)) != Missing && rename.Pass? && logPath in old(fs.files) ==>
      fs.files == (old(fs.files) - {logPath})[logPath + "." + timestamp := old(fs.files)[logPath]]
    ensures old(fs.Stat(logPath)) != Missing && !(rename.Pass? && logPath in old(fs.files)) ==>
      fs.files == (if remove.Pass? then old(fs.files) - {logPath} else old(fs.files))
    ensures old(fs.Stat(logPath)) != Missing && (rename.Pass? || remove.Pass?) ==> logPath !in fs.files
    ensures fs.broken == old(fs.broken) && fs.appConfig == old(fs.appConfig)
  {
    if fs.Stat(logPath) == Missing {
      return;
    }
    var archivePath := logPath + "." + timestamp;
    assert |archivePath| > |logPath|;
    var renamed := fs.Rename(logPath, archivePath, rename);
    if !renamed {
      fs.Remove(logPath, remove);
    }
  }

  class LogWatcher {
    const logPath: string
    var lastOffset: nat
    var newMessages: seq<string>
    var fileExists: bool

    /** NewLogWatcher: archives any earlier log, then starts from nothing. */
    constructor (fs: Store, logPath: string, timestamp: string, rename: Outcome, remove: Outcome)
      modifies fs
      ensures this.logPath == logPath && lastOffset == 0 && newMessages == [] && !fileExists
      ensures old(fs.Stat(logPath)) == Missing ==> fs.files == old(fs.files)
      ensures old(fs.Stat(logPath)) != Missing && rename.Pass? && logPath in old(fs.files) ==>
        fs.files == (old(fs.files) - {logPath})[logPath + "." + timestamp := old(fs.files)[logPath]]
      ensures old(fs.Stat(logPath)) != Missing && !(rename.Pass? && logPath in old(fs.files)) ==>
        fs.files == (if remove.Pass? then old(fs.files) - {logPath} else old(fs.files))
      ensures old(fs.Stat(logPath)) != Missing && (rename.Pass? || remove.Pass?) ==> logPath !in fs.files
      ensures fs.broken == old(fs.broken) && fs.appConfig == old(fs.appConfig)
    {
      this.logPath := logPath;
      lastOffset := 0;
      newMessages := [];
      fileExists := false;
      new;
      ArchiveExistingLogFile(fs, logPath, timestamp, rename, remove);
    }

    /** openLogFile: a failed open marks the file unseen. */
    method OpenLogFile(open: Outcome) returns (ok: bool)
      modifies this
      ensures ok <==> open.Pass?
      ensures fileExists == (old(fileExists) && open.Pass?)
      ensures lastOffset == old(lastOffset) && newMessages == old(newMessages)
    {
      if open.Fail? {
        fileExists := false;
        return false;
      }
      return true;
    }

    /** shouldReadFile: a file seen again, or one that shrank, is read from
        the start; otherwise only a file that grew is read. */
    method ShouldReadFile(currentSize: nat) returns (read: bool)
      modifies this
      ensures read <==> Reads(old(fileExists), old(lastOffset), currentSize)
      ensures fileExists
      ensures lastOffset == (if !old(fileExists) || currentSize < old(lastOffset) then 0 else old(lastOffset))
      ensures !read ==> lastOffset == currentSize
      ensures newMessages == old(newMessages)
    {
      if !fileExists {
        fileExists := true;
        lastOffset := 0;
        return true;
      }
      if currentSize < lastOffset {
        lastOffset := 0;
        return true;
      }
      return currentSize > lastOffset;
    }

    /** processNewLines: the messages of the scanned lines are appended, in
        order, after those not yet handed out. */
    method ProcessNewLines(lines: seq<string>)
      modifies this
      ensures newMessages == old(newMessages) + LogMessages(lines)
      ensures lastOffset == old(lastOffset) && fileExists == old(fileExists)
    {
      var batch: seq<string> := [];
      var i := 0;
      while i < |lines|
        invariant 0 <= i <= |lines|
        invariant batch == LogMessages(lines[..i])
        invariant newMessages == old(newMessages)
        invariant lastOffset == old(lastOffset) && fileExists == old(fileExists)
      {
        LogMessagesStep(lines, i);
        var trimmed := StrUtil.TrimSpace(lines[i]);
        if trimmed != "" {
          var clean := CleanLogLine(trimmed);
          if clean != "" {
            batch := batch + ["[sing-box LOG] " + clean];
          }
        }
        i := i + 1;
      }
      assert lines[..i] == lines;
      if |batch| > 0 {
        newMessages := newMessages + batch;
      } else {
        assert batch == [];
      }
    }

    /** One tick of readNewLines: open the file, read its size, decide,
        seek to the offset and read to the end. `size` is None when the
        stat fails; `lines` is what the scanner yields from the offset. */
    method ReadNewLines(open: Outcome, size: Option<nat>, seek: Outcome, lines: seq<string>)
      modifies this
      ensures open.Fail? ==> !fileExists && lastOffset == old(lastOffset) && newMessages == old(newMessages)
      ensures open.Pass? && size.None? ==>
        fileExists == old(fileExists) && lastOffset == old(lastOffset) && newMessages == old(newMessages)
      ensures open.Pass? && size.Some? ==> fileExists
      ensures open.Pass? && size.Some? && !Reads(old(fileExists), old(lastOffset), size.value) ==>
        lastOffset == size.value && newMessages == old(newMessages)
      ensures open.Pass? && size.Some? && Reads(old(fileExists), old(lastOffset), size.value) && seek.Fail? ==>
        lastOffset == (if !old(fileExists) || size.value < old(lastOffset) then 0 else old(lastOffset)) &&
        newMessages == old(newMessages)
      ensures open.Pass? && size.Some? && Reads(old(fileExists), old(lastOffset), size.value) && seek.Pass? ==>
        lastOffset == size.value && newMessages == old(newMessages) + LogMessages(lines)
      ensures open.Pass? && size.Some? && seek.Pass? ==> lastOffset == size.value
      ensures lastOffset < old(lastOffset) ==> !old(fileExists) || size.value < old(lastOffset)
      ensures |old(newMessages)| <= |newMessages| && newMessages[..|old(newMessages)|] == old(newMessages)
    {
      var ok := OpenLogFile(open);
      if !ok {
        return;
      }
      if size.None? {
        return;
      }
      var read := ShouldReadFile(size.value);
      if !read {
        return;
      }
      if seek.Fail? {
        return;
      }
      ProcessNewLines(lines);
      lastOffset := size.value;
    }

    /** GetNewMessages: hands out every buffered message, in order, and
        empties the buffer. */
    method GetNewMessages() returns (messages: seq<string>)
      modifies this
      ensures messages == old(newMessages) && newMessages == []
      ensures lastOffset == old(lastOffset) && fileExists == old(fileExists)
    {
      messages := newMessages;
      newMessages := [];
    }
  }
}
