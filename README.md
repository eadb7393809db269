# go-sing supervisor, modelled in Dafny

go-sing is a Windows tray client that keeps an external `sing-box.exe` proxy
binary installed, configured and running. This project models its core:

* **Process supervisor** (`vpn/controller.go`), class `Vpn.Controller`:
  * StartVPN starts sing-box either directly (when the program is already
    elevated) or through a UAC "runas" launch.
  * StopVPN kills the owned process, or uses the elevated `taskkill` with one
    plain `taskkill` fallback.
  * Process-exit and liveness-poll callbacks force `isRunning` to false.
  * stdout/stderr lines are forwarded to the log.
* **Availability monitor and acquisition pipeline** (`vpn/singboxfetcher.go`
  with the version logic of `config/fetcher.go`):
  * the monitor tick decides whether a download is needed;
  * the download pipeline stops at the first failing step;
  * extraction takes the first archive entry with exactly the manifest's name;
  * the `AppConfig` record is loaded, defaulted and saved.
* **Elevation gateway** (`internal/elevation/elevation_windows.go`):
  * the ShellExecuteW return-code mapping;
  * the show mode and working directory;
  * the token check;
  * the ordered preconditions of the elevated launch;
  * the exact `cmd.exe` argument strings.
* **Log tailer** (`ui/logwatcher.go`), class `LogTail.LogWatcher`:
  * an offset and seen-file state machine;
  * the per-code-point sanitiser `cleanLogLine`;
  * an append-then-drain message buffer;
  * archiving of a previous log.
* **Config watcher** (`config/watcher.go`), class `ConfigWatch.Watcher`:
  * idempotent Start and Stop over a one-shot context;
  * UpdateURL;
  * one fetch tick.
* **UI rules** (`ui/logs.go`, `ui/app.go`), module `UiLogs` and class
  `Ui.App`:
  * log throttling and the log buffer;
  * the button and tray table;
  * the guards of the Start, Stop and Update handlers and the goroutines they
    spawn.

The host is abstract. `Host.Store` is the file system the program touches:
* `files` maps each path to a file's mode and contents;
* `broken` holds the paths whose `os.Stat` fails with an error other than
  not-exist;
* `appConfig` is `app_config.json` as one decoded slot.

Every answer the operating system, Windows or the network gives is an input
of the operation that asks for it: an `Outcome` (Pass or Fail with the error
text), an `HttpResponse`, `tasklist` output, or ShellExecuteW's return value.
Each goroutine callback or ticker tick is one atomic method call. Log lines
are kept as `seq<string>` with the exact texts the code formats.

Two properties are the centre of the model:

* **A recorded version prevents a re-download.**
  * The property: when the monitor fetches a manifest with a non-empty
    version, records it without error and finds the binary present, it never
    starts a download and marks sing-box available.
  * Where it is proved: `Vpn.Controller.CheckAvailability`, from
    `SingBoxFetch.RecordedVersionNeedsNoDownload` and
    `Fetcher.UpdatedVersionMatches`.
* **The pipeline always clears its flag.**
  * The property: the download pipeline runs its steps in a fixed order,
    stops at the first failure, clears `downloading` on every path and keeps
    `downloading ==> !singBoxAvailable`.
  * Where it is proved: `Vpn.Controller.DownloadSingBox` against
    `SingBoxFetch.ExpectedStage`.

Where the written description of the program and the code differ, the model
follows the code. The stored version is rewritten as soon as a manifest is
fetched, before the download decision. So a stale stored version does not
trigger a download while the binary is present, and no such rule is modelled
(vpn/singboxfetcher.go:63-70).

## Model

| member | source | states |
|---|---|---|
| StrUtil.TrimSpace | ui/logwatcher.go:131 | strings.TrimSpace: the result is the slice of the input left between its leading and its trailing white space (unicode.IsSpace); it neither starts nor ends with white space and is empty exactly when the input is all white space |
| StrUtil.TrimSpaceIdempotent | ui/logwatcher.go:185 | trimming twice is trimming once |
| StrUtil.Contains | vpn/controller.go:229 | strings.Contains is true exactly when the pattern occurs at some index |
| StrUtil.NatToString | ui/logs.go:78 | %d of a natural: a non-empty digit string without a leading zero |
| StrUtil.DecimalRoundTrip | ui/logs.go:78 | the decimal value of the %d text is the number formatted |
| Layout.Join | vpn/singboxfetcher.go:170-171 | filepath.Join of two clean components: one backslash between them, none after a trailing backslash or a bare drive such as "C:" |
| Layout.DataFilesDistinct | vpn/singboxfetcher.go:134 | sing-box.exe, config.json, sing-box.zip, the license file and the log file are pairwise distinct paths, so deleting the archive cannot remove the installed binary |
| Host.Store.Stat | vpn/singboxfetcher.go:79-82 | os.Stat answers Found exactly for a file whose stat does not fail and Missing exactly for an absent path whose stat does not fail |
| Host.Store.WriteFile | config/fetcher.go:78 | os.WriteFile: the files afterwards are exactly AfterWrite of the files before, for the given outcome of the open and the write |
| Host.Store.AfterWrite | config/fetcher.go:78 | a failed open changes nothing; once opened the file is truncated, keeping an existing file's mode (the permission applies only on create), and then holds all of the content, or only the part written before a write error; no other path changes |
| Host.Store.Remove | vpn/singboxfetcher.go:147 | os.Remove deletes exactly the path on success and nothing on failure |
| Host.Store.Rename | ui/logwatcher.go:197 | os.Rename succeeds only for an existing file and then moves its data to the new path |
| Fetcher.FetchJSON | config/fetcher.go:203-225 | a transport error gives "failed to fetch from <url>: …", any status other than 200 gives "HTTP <code>: <status>", and the result is Ok exactly for status 200 with a readable body that decodes; the value is the decoded record |
| Fetcher.FetchDeliveryConfig | config/fetcher.go:227-234 | the manifest is fetched from the fixed delivery URL, and is Ok exactly under fetchJSON's conditions |
| Fetcher.DefaultSubscriptionURL | config/fetcher.go:192-201 | the manifest's default URL when the fetch succeeded and that URL is non-empty, else "" (both directions) |
| Fetcher.LoadAppConfig | config/fetcher.go:97-134 | the error of each failing step, in order; a missing file gives {default URL, ""}; an unreadable or malformed file is an error; an empty stored URL is replaced by the default; a stored record with a URL reads back unchanged |
| Fetcher.SaveAppConfig | config/fetcher.go:136-161 | the first failing step's error; on success the slot holds exactly the given record, and on failure it is unchanged (see Left out for a write that fails after the open) |
| Fetcher.EnsureAppConfigExists | config/fetcher.go:163-190 | a readable record, even a malformed one, is never rewritten; with no default URL nothing is written; otherwise an unreadable or absent record is replaced by {default URL, ""} |
| Fetcher.CheckSingBoxVersionMismatch | config/fetcher.go:236-249 | a load failure gives (true, the wrapped error); otherwise there is no error, and a mismatch is reported exactly when the stored version is empty or differs from the manifest's |
| Fetcher.UpdateSingBoxVersion | config/fetcher.go:251-259 | the loaded record is saved with only the installed version replaced; it succeeds exactly when load and save both succeed, otherwise the slot is unchanged; the new slot is VersionRecorded of the old one |
| Fetcher.VersionRecorded | config/fetcher.go:251-259 | the slot after recording a version changes only to a stored record holding that version, and after a successful load and save it is the loaded record with only the version replaced |
| Fetcher.UpdatedVersionMatches | config/fetcher.go:243-258 | after a version update, comparing against the same non-empty manifest version reports no mismatch and no error |
| Fetcher.UpdatePersistsDefaultURL | config/fetcher.go:129-131 | an empty stored URL is defaulted on load, so updating the version persists the default URL |
| Fetcher.GetConfigPath | config/fetcher.go:86-95 | config.json in the data directory next to the program, or the executable-path error |
| Fetcher.SaveConfig | config/fetcher.go:64-84 | the first failing step's error; once the executable is located and the data directory made, config.json is what os.WriteFile leaves (all of the content, a truncated prefix after a write error, unchanged after a failed open) and no other file changes; before that nothing changes |
| Fetcher.FetchConfig | config/fetcher.go:38-62 | a non-200 status is "HTTP <code>: <status>"; the body is returned exactly when the status is 200, the body reads, the directory is made and the write succeeds, and config.json then holds it; once the write is reached config.json is what os.WriteFile leaves (a write error can leave it truncated), before that nothing changes |
| Elevation.IsGoSingElevated | internal/elevation/elevation_windows.go:27-52 | elevated exactly when every token query succeeds, GetTokenInformation returns nonzero and the type is Full (2) |
| Elevation.ShellExecuteResult | internal/elevation/elevation_windows.go:93-107 | the total mapping of return codes: above 32 is success, 5 is access denied, 8 is insufficient memory, 31 is no association, any other code is a generic error carrying it (each an iff) |
| Elevation.ShowMode | internal/elevation/elevation_windows.go:59-62 | SW_SHOW (5) exactly when the window is to be shown, otherwise SW_HIDE (0) |
| Elevation.EffectiveWorkingDir | internal/elevation/elevation_windows.go:55-57 | an empty working directory is replaced by the current one; any other is passed through |
| Elevation.RunElevated | internal/elevation/elevation_windows.go:54-108 | the request uses verb "runas" with the given program and arguments, the effective directory and the show mode; its error is the code mapping |
| Elevation.LaunchArgsRoundTrip | internal/elevation/elevation_windows.go:133-134 | the launch command line `/C ""<exe>" run -c "<config>" -D "<appDir>" > "<log>" 2>&1"` determines the four paths it was built from, for paths without double quotes |
| Elevation.KillSingBoxProcessElevated | internal/elevation/elevation_windows.go:139-143 | runs cmd.exe with `/C taskkill /F /IM sing-box.exe`, hidden, in the current directory; its error is the code mapping |
| Elevation.LaunchSingBoxElevated | internal/elevation/elevation_windows.go:110-137 | a missing binary (checked first) or a missing config.json is reported with its path, without a launch or any file change; a launch happens exactly when both exist and the logs directory and empty log file were made; once both exist and the directory is made, the log file is what os.WriteFile of "" leaves; it runs hidden cmd.exe in appDir with the exact argument string |
| SingBoxFetch.DownloadNeeded | vpn/singboxfetcher.go:84-104 | in order: an absent binary needs a download; without a cached manifest, no download; a comparison error means no download; otherwise the mismatch decides |
| SingBoxFetch.RecordedVersionNeedsNoDownload | vpn/singboxfetcher.go:63-70 | once a non-empty manifest version has been recorded, a present binary is never re-downloaded, whether or not the comparison can reload the record |
| SingBoxFetch.FirstMatch | vpn/singboxfetcher.go:189-192 | the index of the first entry whose name equals the wanted name exactly, or none when no entry matches |
| SingBoxFetch.SelectEntry | vpn/singboxfetcher.go:189-214 | the scan over the archive entries stops at exactly FirstMatch |
| SingBoxFetch.DownloadFile | vpn/singboxfetcher.go:159-180 | a transport error or a non-200 status ("HTTP <code>: <status>") leaves the files unchanged; after a create, `<dataDir>/<filename>` holds the body, or what arrived before a read error |
| SingBoxFetch.ExtractSingBoxFromZip | vpn/singboxfetcher.go:182-216 | only the first entry named exactly InArchiveExecPath is used, and it is written to `<dest>\sing-box.exe` with the entry's mode on create; with no match the result is "sing-box.exe not found in <src>" and the target is never opened |
| Vpn.Rootify | vpn/controller.go:37-42 | a two-character string whose second character is ':' gets a trailing backslash, every other string is kept, and the result is never a bare drive |
| Vpn.TaskkillStopped | vpn/controller.go:225-239 | the fallback succeeds exactly when taskkill succeeds or its failure output contains "not found" or "not running" |
| Vpn.ProcessListed | vpn/controller.go:164-176 | the liveness poll sees sing-box exactly when tasklist ran and its output contains "sing-box.exe" |
| Vpn.ForwardedLines | vpn/controller.go:252-257 | at most one entry per line, each `[sing-box <stream>] <line>` for a non-empty line |
| Vpn.ForwardedLinesAppend | vpn/controller.go:252-257 | forwarding two batches in turn forwards their concatenation |
| Vpn.ForwardedLinesKeep | vpn/controller.go:254-255 | every non-empty line is forwarded |
| Vpn.ElevatedStopError | vpn/controller.go:199-213 | without an owned handle, stopping fails exactly when both the elevated kill and the fallback fail, and then the elevated error is returned |
| Vpn.Controller.constructor | vpn/controller.go:44-61 | the program directory, rootified; nothing running, available or downloading |
| Vpn.Controller.IsRunning | vpn/controller.go:242-246 | reports isRunning |
| Vpn.Controller.IsSingBoxAvailable | vpn/singboxfetcher.go:14-18 | reports singBoxAvailable |
| Vpn.Controller.StartSingBoxDirect | vpn/controller.go:90-124 | a pipe error returns with the handle already assigned; a Start failure resets the handle and leaves isRunning unchanged; success owns the handle `sing-box.exe run -c <config> -D <appDir>`, sets isRunning and starts one monitor |
| Vpn.Controller.StartSingBoxElevated | vpn/controller.go:126-140 | the launch error is wrapped and returned with isRunning unchanged; success sets isRunning without an owned handle and starts one poller, which ends at once when the context is already cancelled |
| Vpn.Controller.StartVPN | vpn/controller.go:63-88 | while running: success and no change; otherwise an unavailable binary (checked first) or a missing config.json fails with nothing launched; then the direct route when elevated, the UAC route when not |
| Vpn.Controller.KillSingBoxProcess | vpn/controller.go:219-240 | the plain taskkill fallback: its result, the log line for each outcome, and no other field changed |
| Vpn.Controller.StopVPN | vpn/controller.go:178-217 | when not running: success and no change; a kill error is only logged and the handle is cleared; a Wait error after a kill is returned with the state unchanged; without a handle, see StopElevated; success exactly when sing-box is no longer running |
| Vpn.Controller.StopElevated | vpn/controller.go:197-216 | the elevated kill; on failure exactly one fallback; if that also fails, the elevated error is returned with isRunning still true |
| Vpn.Controller.ElevatedFallback | vpn/controller.go:202-210 | the fallback after a failed elevated kill and the log lines it adds |
| Vpn.Controller.OnProcessExit | vpn/controller.go:264-282 | an exit sets isRunning false, clears the handle and logs the exit error, if any |
| Vpn.Controller.ElevatedPollTick | vpn/controller.go:150-159 | a poll that no longer lists sing-box sets isRunning false, logs once if it was running, and ends the poller; a listed process changes nothing |
| Vpn.Controller.ForwardOutput | vpn/controller.go:248-262 | the log grows by exactly the forwarded lines, then the scanner error |
| Vpn.Controller.Stop | vpn/controller.go:284-292 | StopVPN's error (which the source only logs) is returned, and is absent exactly when sing-box is no longer running; an error is logged last as "Error stopping VPN: <err>"; when nothing ran the log and handle are unchanged; the log only grows, the context is cancelled, ending every poller, and monitors are untouched |
| Vpn.Controller.CheckAvailability | vpn/singboxfetcher.go:36-77 | while downloading, nothing changes; a failed manifest fetch sets availability to "binary file exists", leaving the cache and the flag alone; a fetched manifest is cached and its version recorded before the decision; a launch sets downloading and clears availability in the same step; keeps downloading ==> !singBoxAvailable; a present binary with a recorded non-empty version is never re-downloaded |
| Vpn.Controller.RecordAndDecide | vpn/singboxfetcher.go:63-77 | the manifest is cached; the version is recorded exactly when load and save succeed, and a failure is logged as a warning; a launch is DownloadNeeded of the new record and sets downloading while clearing availability; a present binary whose non-empty version was just recorded is not re-downloaded; no file changes |
| Vpn.Controller.DownloadSingBox | vpn/singboxfetcher.go:106-157 | mkdir, missing manifest, license, zip, extract, in that order, and the first failure ends the run; downloading is false on every exit; the record changes only after a completed install, which leaves the chosen entry's content at sing-box.exe and records the version as VersionRecorded; only the license, the archive and sing-box.exe can change among the files, and sing-box.exe only once the install completes or the extraction opened it |
| Vpn.Controller.FetchAndInstall | vpn/singboxfetcher.go:127-156 | the license, archive and extraction steps stop at the first failure, and only the log changes in the controller; a completed install records the version as VersionRecorded; only the license, the archive and sing-box.exe can change, and sing-box.exe only once the install completes or the extraction opened it |
| Vpn.Controller.DownloadArchive | vpn/singboxfetcher.go:127-138 | the license and then the archive are downloaded, and the first failed download names the stage that ends the run; only those two files can change, and the record is untouched |
| Vpn.Controller.InstallFromArchive | vpn/singboxfetcher.go:140-156 | a failed extraction ends the run with the record unchanged, and leaves every file unchanged unless the target was opened; a successful one installs the entry's content and records the version; only the archive and sing-box.exe can change |
| Vpn.Controller.FinishInstall | vpn/singboxfetcher.go:146-156 | a failure to delete the archive is only a warning; the version is recorded as VersionRecorded; the installed binary stays in place and no file but the archive changes |
| LogTail.MapRune | ui/logwatcher.go:159-182 | U+00A0 becomes a space, U+2019 an apostrophe, U+201C/D a double quote, U+2013/4 a hyphen, U+2026 "..."; C0 controls other than tab/LF/CR and code points 128-159 become a space; every other code point is kept, and nothing remapped is produced |
| LogTail.MapRunes | ui/logwatcher.go:158-183 | the mapped text contains no remapped code point, and a text without one is unchanged |
| LogTail.CleanLogLine | ui/logwatcher.go:152-186 | the cleaned line contains no remapped code point and does not start or end with white space |
| LogTail.CleanLogLineIdempotent | ui/logwatcher.go:152-186 | cleaning a cleaned line changes nothing |
| LogTail.LineMessage | ui/logwatcher.go:131-141 | a line yields a message exactly when it is non-empty after trimming and cleaning, and the message is `[sing-box LOG] ` + the cleaned line |
| LogTail.CollectAppend | ui/logwatcher.go:130-143 | collecting messages batch by batch equals collecting them at once |
| LogTail.CollectMembers | ui/logwatcher.go:130-143 | a message is collected exactly when some line yields it |
| LogTail.LogMessages | ui/logwatcher.go:126-150 | processNewLines makes at most one message per scanned line |
| LogTail.LogMessagesStep | ui/logwatcher.go:130-143 | one more scanned line adds exactly that line's message, if it has one |
| LogTail.LogMessagesExactly | ui/logwatcher.go:130-149 | the buffered messages are exactly the tagged cleaned lines that survive both emptiness checks |
| LogTail.ArchiveExistingLogFile | ui/logwatcher.go:188-201 | a log not reported missing is renamed to `<path>.<timestamp>`, or removed if the rename fails; an absent log is left alone |
| LogTail.LogWatcher.constructor | ui/logwatcher.go:28-39 | a tailer at offset 0 with nothing seen and nothing buffered, after archiving the earlier log exactly as ArchiveExistingLogFile does (renamed to `<path>.<timestamp>`, or removed if the rename fails) |
| LogTail.LogWatcher.OpenLogFile | ui/logwatcher.go:87-94 | a failed open marks the file unseen and leaves the offset and buffer untouched |
| LogTail.LogWatcher.ShouldReadFile | ui/logwatcher.go:104-119 | a file seen again or shrunk resets the offset to 0 and is read; an unchanged size reads nothing and keeps the offset equal to the size |
| LogTail.LogWatcher.ProcessNewLines | ui/logwatcher.go:126-150 | the messages of the scanned lines are appended in file order after the earlier buffer |
| LogTail.LogWatcher.ReadNewLines | ui/logwatcher.go:63-85 | the open, stat, decision, seek and read of one tick: after a tick that passes stat and seek the offset equals the size; the offset drops only on reappearance or truncation; the buffer only grows |
| LogTail.LogWatcher.GetNewMessages | ui/logwatcher.go:203-210 | returns exactly the buffered messages in order and empties the buffer |
| ConfigWatch.Watcher.constructor | config/watcher.go:24-32 | no URL, not running, live context |
| ConfigWatch.Watcher.Start | config/watcher.go:34-44 | already running: nothing changes; otherwise running, with a loop that lives only if the context is not cancelled |
| ConfigWatch.Watcher.Stop | config/watcher.go:46-57 | not running: no log and no cancel; otherwise logs "Config watcher stopped", cancels the context for good and stops |
| ConfigWatch.Watcher.UpdateURL | config/watcher.go:59-68 | always stores the URL, "" included; logs only when it is non-empty and differs from the stored one |
| ConfigWatch.Watcher.CheckAndUpdateConfig | config/watcher.go:84-98 | with an empty URL nothing is fetched; a fetch error is only logged with its message; a fetched body is returned without a log line; the files are what FetchConfig leaves (config.json as os.WriteFile leaves it once the write is reached, otherwise unchanged) |
| ConfigWatch.RestartAfterStop | config/watcher.go:25-31 | a Start after a Stop marks the watcher running, but its loop is dead because the context is one-shot |
| UiLogs.AppLogEntry | ui/logs.go:15-20 | the entry is `[`, the timestamp, `] `, then the message, each part recoverable by position |
| UiLogs.AppLogEntryInjective | ui/logs.go:16-17 | with fixed-width timestamps, equal entries have equal timestamps and messages |
| UiLogs.Throttled | ui/logs.go:73-81 | at most 3 entries: up to 2 or fewer messages are shown as they are; with more, the first 2 in order plus exactly one summary line |
| UiLogs.SummaryCountsSuppressed | ui/logs.go:77-80 | the summary line is `[<k-2> more sing-box messages...]`, whose number is the count of suppressed messages |
| UiLogs.Appended | ui/logs.go:85-87 | the buffer text holds each entry followed by a newline, and ends in a newline when there was an entry |
| UiLogs.AppendedConcat | ui/logs.go:85-87 | appending entries one after the other equals appending their concatenation |
| UiLogs.TailedLogIsLaunchLog | ui/logs.go:42-46 | unless the program directory is a bare drive, the tailer follows the exact file the elevated launch redirects sing-box's output to |
| UiLogs.TailedLogOnBareDrive | ui/logs.go:43-46 | on a bare drive the unrootified tailer path and the controller's log path differ |
| Ui.ConfigExists | ui/app.go:439-447 | config.json exists exactly when the path lookup succeeds and os.Stat reports no error |
| Ui.StartButton | ui/app.go:338-380 | the start button is enabled exactly when available, configured and not running; its text is "Initializing...", then "Downloading...", which takes priority over "No Config", then "Start" |
| Ui.StopEnabled | ui/app.go:338-380 | the stop button is enabled exactly when available, configured and running |
| Ui.TrayEnabled | ui/app.go:343-377 | the tray never enables both items |
| Ui.StartLabel | ui/app.go:401-412 | the tray start label is exactly "Start VPN" when available and configured, and otherwise the same priority of suffixes |
| Ui.ButtonsExclusive | ui/app.go:351-379 | at most one button is enabled, and one is exactly when the controller is present, sing-box is available and config.json exists |
| Ui.TrayMirrorsButtons | ui/app.go:343-411 | the tray items are enabled exactly as the buttons are, and the tray label is "Start VPN" with the button's case in parentheses |
| Ui.TrayStateChanged | ui/app.go:414-418 | the menu counts as changed exactly when an item differs |
| Ui.AddThrottled | ui/logs.go:71-82 | the throttling loop adds exactly the Throttled entries of the drained batch |
| Ui.App.constructor | ui/app.go:62-70 | an App with no controller, watcher or tailer, an empty log buffer and an empty appLogs queue |
| Ui.App.SetVPNController | ui/app.go:72-74 | stores the controller and changes nothing else |
| Ui.App.Log | ui/logs.go:15-24 | queues the formatted entry, changing nothing else |
| Ui.App.StartLogWatcher | ui/logs.go:42-50 | a new tailer on `<exeDir>\go-sing-data\logs\sing-box.log` (a path relative to the working directory when the executable cannot be located), after the earlier log there is archived as ArchiveExistingLogFile does |
| Ui.App.RefreshLogsUI | ui/logs.go:59-90 | takes at most one queued application entry, drains the whole tailer batch, shows the throttled part, and appends that to the buffer only when the logs widget exists |
| Ui.App.AppendToBuffer | ui/logs.go:85-87 | the buffer grows by exactly the Appended text |
| Ui.App.UpdateTrayItems | ui/app.go:382-399 | nothing happens without both tray items; otherwise the flags and label are set, and the menu is rebuilt exactly when one of them changed |
| Ui.App.UpdateButtonStates | ui/app.go:338-380 | the buttons take the table's row for the current view, the tray mirrors it, and with both tray items present the menu is rebuilt exactly when an item changed |
| Ui.App.HandleStartVPN | ui/app.go:266-293 | a start is spawned exactly when a controller is present, not running and has sing-box available, with the exact log entry for each refusal |
| Ui.App.StartWorker | ui/app.go:283-292 | StartVPN's error is logged; success logs the two connection lines; success exactly when the controller is running; the files are what StartVPN leaves (the log file created empty on a UAC launch) and the record is untouched |
| Ui.App.HandleStopVPN | ui/app.go:295-316 | a stop is spawned exactly when a controller is present and running |
| Ui.App.StopWorker | ui/app.go:307-315 | StopVPN's error is logged; success logs "VPN connection stopped" |
| Ui.App.HandleUpdateConfig | ui/app.go:193-201 | a URL that is empty after trimming is rejected with its message; otherwise the trimmed URL is announced and fetched |
| Ui.App.UpdateConfigWorker | ui/app.go:202-221 | after a failed fetch nothing is saved and the watcher keeps its URL; after a successful one config.json holds the body, the record {url, ""} is saved (a failed save is a warning), the watcher gets the URL, announcing a new non-empty one in the application log as the watcher's Logger, and success is logged; the fetch succeeds exactly when its write does, and config.json is otherwise what os.WriteFile leaves once the write is reached |

## Left out

- HTTP transport, `io.ReadAll` and `io.Copy`: each reply, read and copy is an input outcome. `downloadFile`'s URL argument only selects that input, and the timeout of the HTTP client is not modelled.
- Zip decoding: the archive is a list of (name, mode, content) entries.
- JSON encoding and decoding: records are datatypes, and a decode failure is an input. The pretty-printing of `MarshalIndent` is not modelled.
- Process control (`exec.Command`, pipes, `bufio.Scanner`, `tasklist`, `taskkill`): exit status, kill and wait results, tasklist output, taskkill output and scanned lines are inputs. The `tasklist` and direct `taskkill` argument lists are not modelled.
- Win32 syscalls and UTF-16 conversion: only the returned codes are modelled. A failed `UTF16PtrFromString` in RunElevated (a path holding NUL) is not modelled.
- Concurrency: goroutines, mutexes, tickers and contexts are atomic steps, with counters of started monitors and pollers and a cancelled flag; a poller started after the cancel is not counted, since it ends at once. Races are not modelled, such as the unlocked read of the handle in monitorProcess, concurrent Waits, or a poll between a Stop and a Start.
- The periodic loops (`startPeriodicCheck`, `watchLoop`, `monitorElevatedProcess`, `startPeriodicUpdater`, `startUIUpdater`) are modelled one tick at a time, not as loops.
- `LogTail.LogWatcher` Start/Stop only start and cancel the tick loop.
- `Ui.App.RefreshLogsUI`: the bounded `appLogs` channel is an unbounded queue, and a blocked send is not modelled.
- `strings.ToValidUTF8`: lines are sequences of code points.
- Whitespace trimming uses an explicit `unicode.IsSpace` predicate.
- Time formatting: timestamps are input strings. One step's log entries share one timestamp.
- `Layout.Join`: `filepath.Clean` is not modelled. The components joined are already clean, except the "." that `filepath.Dir` gives for an unlocated executable, which Clean drops; `UiLogs.TailDir` stands for it with the empty directory.
- `Fetcher.SaveAppConfig`: the record slot holds decoded records, not bytes, so a write to app_config.json that fails after the truncating open is modelled as leaving the slot unchanged.
- The data directory's `MkdirAll` is an outcome only. Directories are not tracked and permissions are not enforced.
- `SingBoxFetch.ExtractSingBoxFromZip`: the install overwrites in place with `O_TRUNC`. No claim is made that the old binary survives a copy failure after the target was opened.
- Fyne rendering (widgets, layout, markdown, clipboard, tray construction): widgets are plain records, and a tray rebuild is a counter. This leaves out `setupUI`, `createComponents`, `setupSystemTray`, `refreshSystemTrayMenu`, `handleCopyConfig` and `handleCopyLogs`.
- `ConfigWatch.Watcher`: the lines the watcher sends to its Logger are kept in its own `log`. The Logger is the App (ui/app.go:99), and only `Ui.App.UpdateConfigWorker` also queues the line of its `UpdateURL` call in the App's queue; the lines of the watcher's Start, Stop and periodic ticks are not carried into that queue.
- `loadAppConfig` and `loadExistingSingBoxConfig` (ui/app.go:224-264) only render text or chain calls already modelled (`Fetcher.LoadAppConfig`, `ConfigWatch.Watcher.UpdateURL`, `Fetcher.FetchConfig`). The App's own `Stop` and `handleQuit` only compose the modelled Stops.
- main.go is not part of this model. It holds a TCP single-instance lock, and its constructor calls do not match the signatures in vpn/controller.go and ui/app.go.
- config/constants.go is modelled only as the constants of `Layout`.
