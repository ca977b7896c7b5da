# Graviton shell front end, modelled in Dafny

Graviton is an application browser and shell for the JVM. It resolves a Maven
coordinate, downloads the application and its dependencies into a local
cache, and runs it. This project models the shell's front-end and utility
layer. That layer has three parts:

- `utils.dfy` (module `Utils`) covers `Utils.kt`. It models operating-system
  detection from `os.name` and the per-system application cache directory.
  Paths are modelled as sequences of names, with `Paths.get` and the `/`
  operator. It also models the cause chain of a thrown error, with the
  `rootCause` loop, and the stopwatch in whole tenths of a second. The
  Kotlin text predicates the shell uses (`isBlank`, `contains`,
  `toLowerCase`) are written out here too.
- `graviton_cli.dfy` (module `GravitonCli`) covers `GravitonCLI.kt`. It
  models the version string with its "DEV" fallback, and the splitting of a
  typed line into words with its round trip through joining. It models the
  options object with its defaults and the order of the steps `run()` takes.
  It also models the profiling loop, the message printed for a failed
  launch, and the kilobyte scaling of the text progress bar.
- `graviton_browser.dfy` (module `GravitonBrowser`) covers `ShellView` in
  `GravitonBrowser.kt`. It models the view's status: whether a download is
  in progress, the two lines of the message box, the download progress, the
  captured output and the launches requested. The model follows how
  `onNavigate`, the three fetcher events and `onStartError` change that
  status. The widget bindings are modelled as predicates: the message box is
  visible when it has text, and the address bar is disabled and the spinner
  shown while a download is in progress.
- `wrappers.dfy` (module `Wrappers`) holds `Option`, which stands for
  Kotlin's `null`, and `Result`.

The engine that the front end drives is not part of this model. That engine
is the resolver, `CodeFetcher`, `HistoryManager`, `AppLauncher` and
`BackgroundUpdates`. `run()` and its helpers return a trace of `Action`s
that records each call into the engine, in order. Whether the launcher fails,
and with which error, is an input. Environment variables and system
properties (`user.home`, `os.name`, `LOCALAPPDATA`, `XDG_CACHE_HOME`, the
implementation version, `GRAVITON_PATH`, `GRAVITON_VERSION`) are parameters.
So is the monotonic clock.

A thrown error is a recursive datatype, so every cause chain is finite and
acyclic. `ErrorKind` records which of the classes the shell tests with `is`
an error belongs to. `className` is the name of its runtime class.

## Model

| member | source | states |
|---|---|---|
| `Utils.ToLower` | shell/src/main/kotlin/net/plan99/graviton/Utils.kt:37 | the result has the input's length, and each character is the input's character lower-cased |
| `Utils.ToLowerIdempotent` | shell/src/main/kotlin/net/plan99/graviton/Utils.kt:37 | lower-casing a second time changes nothing |
| `Utils.CurrentOperatingSystem` | shell/src/main/kotlin/net/plan99/graviton/Utils.kt:36-44 | on the lower-cased name: WIN if and only if it contains "win"; MAC if and only if it contains "mac" but not "win"; LINUX if and only if it contains "linux" but neither earlier word; otherwise UNKNOWN |
| `Utils.CurrentOperatingSystemIgnoresCase` | shell/src/main/kotlin/net/plan99/graviton/Utils.kt:37 | two names that differ only in the case of letters give the same system |
| `Utils.CurrentOperatingSystemOfLowered` | shell/src/main/kotlin/net/plan99/graviton/Utils.kt:37-43 | lower-casing the name beforehand does not change the result |
| `Utils.DetectsMacOsX` | shell/src/main/kotlin/net/plan99/graviton/Utils.kt:38-43 | "Mac OS X" is MAC |
| `Utils.DetectsWindows` | shell/src/main/kotlin/net/plan99/graviton/Utils.kt:38-39 | "Windows 10" is WIN |
| `Utils.DetectsLinux` | shell/src/main/kotlin/net/plan99/graviton/Utils.kt:38-43 | "Linux" is LINUX |
| `Utils.DetectsDarwinAsWindows` | shell/src/main/kotlin/net/plan99/graviton/Utils.kt:38-39 | the tests run in order: "Darwin" contains "win" and is WIN |
| `Utils.DetectsSunOsAsUnknown` | shell/src/main/kotlin/net/plan99/graviton/Utils.kt:38-43 | a name with none of the three words ("SunOS") is UNKNOWN |
| `Utils.ToPath` | shell/src/main/kotlin/net/plan99/graviton/Utils.kt:6 | `s.toPath()` is the path of the single name `s`, or the path with no names when `s` is empty |
| `Utils.Div` | shell/src/main/kotlin/net/plan99/graviton/Utils.kt:7 | `p / s` keeps every name of `p` and appends exactly one name, `s`; an empty `s` leaves the path unchanged |
| `Utils.DivAllAppends` | shell/src/main/kotlin/net/plan99/graviton/Utils.kt:7 | applying `/` once per name appends exactly the non-empty names, in order |
| `Utils.PathsGetIsDivAll` | shell/src/main/kotlin/net/plan99/graviton/Utils.kt:6-7 | `Paths.get(first, a, b, ...)` is the same path as `first.toPath() / a / b / ...` |
| `Utils.OperatingSystem.AppCacheDirectory` | shell/src/main/kotlin/net/plan99/graviton/Utils.kt:9-34 | MAC: home/Library/Caches/"Graviton Browser"; WIN: LOCALAPPDATA/GravitonBrowser/Cache; LINUX: home/.cache/GravitonBrowser when XDG_CACHE_HOME is unset or blank, else XDG_CACHE_HOME/GravitonBrowser; there is an error exactly for UNKNOWN and for WIN without LOCALAPPDATA; "Unreachable" exactly for UNKNOWN |
| `Utils.Describe` | shell/src/main/kotlin/net/plan99/graviton/GravitonBrowser.kt:301 | `toString()` starts with the class name and continues with ": " and the message exactly when there is a message |
| `Utils.Chain` | shell/src/main/kotlin/net/plan99/graviton/Utils.kt:46-50 | the chain starts at the error, each link's cause is the next link, and the last link has no cause |
| `Utils.RootCauseOf` | shell/src/main/kotlin/net/plan99/graviton/Utils.kt:46-50 | the root cause has no cause, is the last link of the chain, and an error without a cause is its own root cause |
| `Utils.RootCauseIsOnlyCauseless` | shell/src/main/kotlin/net/plan99/graviton/Utils.kt:46-50 | a link of the chain has no cause if and only if it is the root cause |
| `Utils.RootCauseOfCause` | shell/src/main/kotlin/net/plan99/graviton/Utils.kt:48 | an error and its cause have the same root cause |
| `Utils.RootCause` | shell/src/main/kotlin/net/plan99/graviton/Utils.kt:46-50 | the loop ends, on every error, at an error without a cause, and that error is the last link of the chain |
| `Utils.TruncDiv` | shell/src/main/kotlin/net/plan99/graviton/Utils.kt:54 | `Long` division by a positive number rounds toward zero: the quotient's multiple is at most the dividend's distance from zero, and the next multiple exceeds it |
| `Utils.TruncDivMonotone` | shell/src/main/kotlin/net/plan99/graviton/Utils.kt:54 | that division never decreases as the dividend grows |
| `Utils.Stopwatch.constructor` | shell/src/main/kotlin/net/plan99/graviton/Utils.kt:53 | the stopwatch remembers the clock reading at creation |
| `Utils.Stopwatch.ElapsedTenths` | shell/src/main/kotlin/net/plan99/graviton/Utils.kt:54 | the elapsed tenths `t` satisfy t·10^8 ≤ now − start < (t+1)·10^8 |
| `Utils.ElapsedTenthsMonotone` | shell/src/main/kotlin/net/plan99/graviton/Utils.kt:53-54 | a later reading never shows less elapsed time |
| `GravitonCli.ShellVersionNum` | shell/src/main/kotlin/net/plan99/graviton/GravitonCLI.kt:15 | "DEV" when the implementation version is null or blank, otherwise that version unchanged |
| `GravitonCli.ShellVersionNumNotBlank` | shell/src/main/kotlin/net/plan99/graviton/GravitonCLI.kt:15 | the version shown is never blank |
| `GravitonCli.Split` | shell/src/main/kotlin/net/plan99/graviton/GravitonCLI.kt:32 | at least one word, and no word contains a space |
| `GravitonCli.JoinSplit` | shell/src/main/kotlin/net/plan99/graviton/GravitonCLI.kt:32 | joining the words with single spaces gives back the typed line |
| `GravitonCli.SplitCount` | shell/src/main/kotlin/net/plan99/graviton/GravitonCLI.kt:32 | the number of words is the number of spaces plus one |
| `GravitonCli.SplitWord` | shell/src/main/kotlin/net/plan99/graviton/GravitonCLI.kt:32 | a text without spaces is one word |
| `GravitonCli.SplitFirstWord` | shell/src/main/kotlin/net/plan99/graviton/GravitonCLI.kt:32 | a word followed by a space is split off as the first word |
| `GravitonCli.SplitJoin` | shell/src/main/kotlin/net/plan99/graviton/GravitonCLI.kt:32 | splitting joined words gives back the words, when none contains a space |
| `GravitonCli.CliErrorReport` | shell/src/main/kotlin/net/plan99/graviton/GravitonCLI.kt:117-129 | on the root cause: a missing package prints the "unknown" message with its metadata; an index error prints the "could not understand that coordinate" message; otherwise the root cause's message is printed, or its stack trace when it has no message |
| `GravitonCli.CliErrorReportUsesRootOnly` | shell/src/main/kotlin/net/plan99/graviton/GravitonCLI.kt:118 | failures with the same root cause are reported alike |
| `GravitonCli.CliErrorReportIgnoresWrapping` | shell/src/main/kotlin/net/plan99/graviton/GravitonCLI.kt:118 | wrapping a failure in another error does not change what is printed |
| `GravitonCli.CliErrorReportStackTrace` | shell/src/main/kotlin/net/plan99/graviton/GravitonCLI.kt:124-128 | a stack trace is printed only for the root cause, and only when it has no message |
| `GravitonCli.ProfilingRounds` | shell/src/main/kotlin/net/plan99/graviton/GravitonCLI.kt:164-168 | n profiling runs take 3·n steps |
| `GravitonCli.ProfilingRoundsDownloads` | shell/src/main/kotlin/net/plan99/graviton/GravitonCLI.kt:164-168 | n profiling runs download exactly n times |
| `GravitonCli.ProfilingRoundsClearBeforeDownload` | shell/src/main/kotlin/net/plan99/graviton/GravitonCLI.kt:164-167 | every download is of the given coordinate and comes two steps after a cache clear |
| `GravitonCli.ProfilingRoundsNeverLaunch` | shell/src/main/kotlin/net/plan99/graviton/GravitonCLI.kt:164-168 | the profiling runs never start the launcher |
| `GravitonCli.CommandLineTrace` | shell/src/main/kotlin/net/plan99/graviton/GravitonCLI.kt:110-132 | with more than one profiling run: a fetcher configured with the cache path, the offline flag and SSL unless disabled comes first, the process exit comes last, and the launcher is never started; otherwise the launcher is started first, and a failure is reported once, after it |
| `GravitonCli.ProfilingDownloadsEachRun` | shell/src/main/kotlin/net/plan99/graviton/GravitonCLI.kt:112 | with `profileDownloads` > 1, the trace is a fetcher set-up, exactly `profileDownloads` clear-then-download runs, and the report and exit |
| `GravitonCli.BarMax` | shell/src/main/kotlin/net/plan99/graviton/GravitonCLI.kt:148 | the bar maximum is at least 1; it is the whole number of kilobytes for a total of at least 1 KB, and 1 for a total below 2 KB |
| `GravitonCli.BarStep` | shell/src/main/kotlin/net/plan99/graviton/GravitonCLI.kt:149 | the bar position is the whole number of kilobytes downloaded |
| `GravitonCli.BarStepWithinMax` | shell/src/main/kotlin/net/plan99/graviton/GravitonCLI.kt:146-149 | while no more than the total has been downloaded, the position lies between 0 and the maximum |
| `GravitonCli.BarStepMonotone` | shell/src/main/kotlin/net/plan99/graviton/GravitonCLI.kt:149 | more bytes downloaded never move the bar back |
| `GravitonCli.CliProgressBar.constructor` | shell/src/main/kotlin/net/plan99/graviton/GravitonCLI.kt:135-137 | the bar starts stopped, with maximum 1 and position 0, and the stopwatch starts now |
| `GravitonCli.CliProgressBar.OnStartedDownloading` | shell/src/main/kotlin/net/plan99/graviton/GravitonCLI.kt:139-142 | the bar runs and shows the name; nothing else changes |
| `GravitonCli.CliProgressBar.OnFetch` | shell/src/main/kotlin/net/plan99/graviton/GravitonCLI.kt:144-150 | the bar shows the name, its maximum is the scaled total (at least 1), its position is the scaled download count, and that position stays within the bar when no more than the total has been downloaded |
| `GravitonCli.CliProgressBar.OnStoppedDownloading` | shell/src/main/kotlin/net/plan99/graviton/GravitonCLI.kt:152-155 | the bar stops and the stopwatch's elapsed tenths are reported |
| `GravitonCli.GravitonCli.constructor` | shell/src/main/kotlin/net/plan99/graviton/GravitonCLI.kt:44-79 | no package and no arguments; update URL "https://update.graviton.app/"; `profileDownloads` −1; clear-cache, offline, background-update, no-SSL, verbose and refresh all false; the default coordinate; the given cache path |
| `GravitonCli.GravitonCli.Create` | shell/src/main/kotlin/net/plan99/graviton/GravitonCLI.kt:78-79 | the options exist exactly when the system's cache directory can be computed, and then hold the defaults with that directory as the cache path |
| `GravitonCli.GravitonCli.DownloadWithProfiling` | shell/src/main/kotlin/net/plan99/graviton/GravitonCLI.kt:159-172 | a configured fetcher, then `profileDownloads` runs of clear, fresh progress bar and download (none when it is not positive), then the report and exit with status 0 |
| `GravitonCli.GravitonCli.HandleCommandLineInvocation` | shell/src/main/kotlin/net/plan99/graviton/GravitonCLI.kt:110-132 | takes exactly the steps of `CommandLineTrace` for the current options |
| `GravitonCli.GravitonCli.Run` | shell/src/main/kotlin/net/plan99/graviton/GravitonCLI.kt:81-108 | with background update set, the background update is the only step; otherwise a requested cache clear comes first, then the GUI when no package is named, or the command-line path for the first package name |
| `GravitonBrowser.StartErrorMessage` | shell/src/main/kotlin/net/plan99/graviton/GravitonBrowser.kt:295-301 | a launcher error whose root cause is a missing artifact gives "Could not locate the requested application"; another launcher error gives its message (empty when it has none); any other error gives its `toString()` |
| `GravitonBrowser.StartErrorForMissingArtifact` | shell/src/main/kotlin/net/plan99/graviton/GravitonBrowser.kt:296-297 | a launcher error with a cause-less missing artifact anywhere in its chain gives "Could not locate the requested application" |
| `GravitonBrowser.ShellView.constructor` | shell/src/main/kotlin/net/plan99/graviton/GravitonBrowser.kt:80-85 | idle, progress 0, empty message box (hidden), no output, input enabled, spinner hidden |
| `GravitonBrowser.ShellView.MessageBoxVisible` | shell/src/main/kotlin/net/plan99/graviton/GravitonBrowser.kt:176 | the message box is visible exactly when at least one of its two lines has text |
| `GravitonBrowser.ShellView.InputDisabled` | shell/src/main/kotlin/net/plan99/graviton/GravitonBrowser.kt:158 | the address bar is disabled exactly while a download is in progress |
| `GravitonBrowser.ShellView.SpinnerVisible` | shell/src/main/kotlin/net/plan99/graviton/GravitonBrowser.kt:136 | the progress animation is visible exactly while a download is in progress |
| `GravitonBrowser.ShellView.OnNavigate` | shell/src/main/kotlin/net/plan99/graviton/GravitonBrowser.kt:238-288 | blank text changes nothing; other text clears the output and requests one launch with the text's words; the status fields never change, so "a download in progress is described" is preserved |
| `GravitonBrowser.ShellView.OnStartedDownloading` | shell/src/main/kotlin/net/plan99/graviton/GravitonBrowser.kt:247-252 | progress 0, downloading, "Please wait ..." / "Resolving": the box is shown, the input disabled and the spinner visible |
| `GravitonBrowser.ShellView.OnFetch` | shell/src/main/kotlin/net/plan99/graviton/GravitonBrowser.kt:254-259 | the progress is (downloaded, total), the box says "DOWNLOADING" and the artifact name, and whether a download is in progress does not change |
| `GravitonBrowser.ShellView.OnStoppedDownloading` | shell/src/main/kotlin/net/plan99/graviton/GravitonBrowser.kt:261-266 | progress 1, not downloading, both lines empty: the box is hidden, the input enabled and the spinner hidden |
| `GravitonBrowser.ShellView.OnStartError` | shell/src/main/kotlin/net/plan99/graviton/GravitonBrowser.kt:290-304 | not downloading, progress 0, "Start failed" with `StartErrorMessage(e)`: the box is shown and the input enabled |
| `GravitonBrowser.ShellView.OnArtClicked` | shell/src/main/kotlin/net/plan99/graviton/GravitonBrowser.kt:125 | a click on the background picture flips whether a download is shown as in progress, and nothing else |

## Left out

- The resolver, fetcher, history cache, application launcher and background updater (`CodeFetcher`, `HistoryManager`, `AppLauncher`, `BackgroundUpdates`) are not part of this model. Their calls appear only as `Action`s or as the `launches` of the view. Whether the launcher fails is an input.
- Option parsing by picocli is a foreign library. Only the split on single spaces before parsing is modelled. `ShellView.launches` records the words that are handed to the parser. Parsing errors, which `onNavigate` does not catch, are not modelled.
- `setupLogging`, `startupChecks` and the start-up log lines in `run()` are process I/O and are not modelled. So are `println` text beyond the chosen message, `exitProcess`, and the redirection of the launched program's output into the view, character by character, through `Platform.runLater`.
- Coroutines and threads (`runBlocking`, `launch(JavaFx)`, `thread`/`sleep`) are not modelled. Each callback runs as one atomic step. `mockDownload` is unused in the source and needs a thread, so it is not modelled.
- Floating point is not modelled: the `/ 10.0` of the stopwatch, the average run time of the profiling report, and the progress fraction of the view. The model keeps whole tenths and (downloaded, total) pairs instead. It does not model `NaN` or an infinite fraction for a zero or unknown total.
- JavaFX layout, CSS styles, images, opacity animations, the output area's row count and the macOS menu bar, dock icon and window style are UI and foreign calls, so they are not modelled.
- `Utils.ToLower`: only the ASCII letters A–Z are lower-cased, as the root locale does. `String.toLowerCase()` follows the default locale. Under a Turkish or Azerbaijani default locale it maps `I` to dotless `ı` (U+0131), so the source classifies `"LINUX"` as UNKNOWN there, and `Utils.CurrentOperatingSystemIgnoresCase` does not hold for the source under that locale. The difference is harmless only because the `os.name` values the JVM reports have no capital `I` in any of the words tested. Non-ASCII letters are not lower-cased either.
- Paths have no root and no platform separator. A base directory from the environment (the home directory, `LOCALAPPDATA`, `XDG_CACHE_HOME`) stays one name, and so does the text `toPath()` is given. Rendering a path as text (`cachePath` is a `String` in the source) is not modelled.
- `Utils.OperatingSystem.AppCacheDirectory`: on Windows without `LOCALAPPDATA` the model reports an error. It does not model what the JDK's `Paths.get` does with a `null` first name. That depends on the JDK version, not on the file-system provider. On Java 8, which the shell targets, both providers append the text `null`, which gives the relative path `null\GravitonBrowser\Cache`. Newer JDKs throw `NullPointerException`.
- `GravitonCli.GravitonCli.Run`: the background update receives `GRAVITON_VERSION` as text. Its conversion with `toInt()`, which throws on non-numeric text, is not modelled. Neither is the parsing of the update URL by `URI.create`.
- `GravitonCli.CommandLineTrace`: a download that fails inside the profiling loop escapes `run()`. The model treats every profiling download as completing.
- `Utils.Stopwatch.ElapsedTenths`: `Long` overflow of the nanosecond clock difference is not modelled. Readings are unbounded integers.
- `GravitonBrowser.StartErrorMessage`: when a launcher error has no message, the source sets the label to `null`, which the label shows as empty text. The model stores the empty string.
