/**
 * The batch front end (`GravitonCLI`): the shell's version string, the
 * splitting of a typed line into command-line words, the options object and
 * its `run()` dispatch, the profiling loop, the mapping of a failed launch to
 * a message, and the text progress bar.
 *
 * Everything `run()` does beyond this file (the background updater, the
 * history cache, the fetcher, the application launcher, the GUI) is recorded
 * as an `Action` in the order in which it is invoked.
 */
module GravitonCli {
  import opened Wrappers
  import opened Utils

  // ---------------------------------------------------------------------
  // Version
  // ---------------------------------------------------------------------

  /**
   * `gravitonShellVersionNum`: the implementation version of the shell's
   * package, or "DEV" when the package has none or only a blank one.
   */
  function ShellVersionNum(implementationVersion: Option<string>): (v: string)
    ensures IsNullOrBlank(implementationVersion) ==> v == "DEV"
    ensures !IsNullOrBlank(implementationVersion) ==> v == implementationVersion.value
  {
    if IsNullOrBlank(implementationVersion) then "DEV" else implementationVersion.value
  }

  /** The version shown to the user is never blank. */
  lemma ShellVersionNumNotBlank(implementationVersion: Option<string>)
    ensures !IsBlank(ShellVersionNum(implementationVersion))
  {
    if IsNullOrBlank(implementationVersion) {
      assert !IsWhitespace(ShellVersionNum(implementationVersion)[0]);
    }
  }

  // ---------------------------------------------------------------------
  // Splitting a typed line into words
  // ---------------------------------------------------------------------

  /**
   * `text.split(' ')`: the pieces between single spaces, keeping empty
   * pieces (two spaces in a row, or a space at either end, give an empty word).
   */
  function Split(text: string): (words: seq<string>)
    ensures |words| >= 1
    ensures forall w :: w in words ==> ' ' !in w
  {
    if text == [] then [""]
    else
      var rest := Split(text[1..]);
      if text[0] == ' ' then [""] + rest
      else [[text[0]] + rest[0]] + rest[1..]
  }

  /** The words joined with one space between neighbours. */
  function Join(words: seq<string>): string {
    if words == [] then ""
    else if |words| == 1 then words[0]
    else words[0] + " " + Join(words[1..])
  }

  /** The number of spaces in `text`. */
  function CountSpaces(text: string): nat {
    if text == [] then 0 else (if text[0] == ' ' then 1 else 0) + CountSpaces(text[1..])
  }

  /** Joining the words with spaces gives back the line. */
  lemma {:induction false} JoinSplit(text: string)
    ensures Join(Split(text)) == text
  {
    if text != [] {
      var rest := Split(text[1..]);
      JoinSplit(text[1..]);
      if text[0] == ' ' {
        assert Split(text) == [""] + rest;
        assert Join([""] + rest) == "" + " " + Join(rest) by {
          assert ([""] + rest)[1..] == rest;
        }
      } else {
        var words := [[text[0]] + rest[0]] + rest[1..];
        assert Split(text) == words;
        if |rest| == 1 {
          assert Join(words) == [text[0]] + rest[0];
        } else {
          assert words[1..] == rest[1..];
          assert Join(words) == [text[0]] + rest[0] + " " + Join(rest[1..]);
        }
      }
    }
  }

  /** A line with n spaces splits into n + 1 words. */
  lemma {:induction false} SplitCount(text: string)
    ensures |Split(text)| == CountSpaces(text) + 1
  {
    if text != [] {
      SplitCount(text[1..]);
    }
  }

  /** A word without spaces splits into itself. */
  lemma {:induction false} SplitWord(w: string)
    requires ' ' !in w
    ensures Split(w) == [w]
  {
    if w != [] {
      SplitWord(w[1..]);
      assert [w[0]] + w[1..] == w;
    }
  }

  /** A word followed by a space splits off as the first word. */
  lemma {:induction false} SplitFirstWord(w: string, rest: string)
    requires ' ' !in w
    ensures Split(w + " " + rest) == [w] + Split(rest)
  {
    if w == [] {
      assert w + " " + rest == [' '] + rest;
      assert (w + " " + rest)[1..] == rest;
    } else {
      assert (w + " " + rest)[1..] == w[1..] + " " + rest;
      SplitFirstWord(w[1..], rest);
      assert [w[0]] + w[1..] == w;
    }
  }

  /** Splitting words joined with spaces gives back the words, when none contains a space. */
  lemma {:induction false} SplitJoin(words: seq<string>)
    requires |words| >= 1
    requires forall w :: w in words ==> ' ' !in w
    ensures Split(Join(words)) == words
    decreases |words|
  {
    if |words| == 1 {
      SplitWord(words[0]);
    } else {
      SplitFirstWord(words[0], Join(words[1..]));
      SplitJoin(words[1..]);
      assert [words[0]] + words[1..] == words;
    }
  }

  // ---------------------------------------------------------------------
  // What the batch front end does
  // ---------------------------------------------------------------------

  /** The steps `run()` takes, in the order it takes them. */
  datatype Action =
    | BackgroundUpdate(cachePath: Path, installedVersion: Option<string>, installedPath: Option<Path>, updateUrl: string)
                                          // BackgroundUpdates.doBackgroundUpdate
    | ClearCache                          // HistoryManager.clearCache()
    | LaunchGui(args: seq<string>)        // Application.launch(GravitonBrowser, args)
    | StartLauncher                       // HistoryManager.create() and AppLauncher(..., progress bar).start()
    | CreateFetcher(cachePath: Path, offline: bool, useSsl: bool)
                                          // a CodeFetcher on the cache path, configured
    | AttachProgressBar                   // codeFetcher.events = createProgressBar()
    | Download(coordinates: string)       // codeFetcher.downloadAndBuildClasspath(coordinates)
    | ReportProfile(runs: int)            // the total and average run time are printed
    | ExitProcess(status: int)            // exitProcess(status)
    | PrintLine(text: string)             // println(text)
    | PrintStackTrace(error: Throwable)   // error.printStackTrace()
    | Uncaught(className: string)         // run() ends with an error of this class

  /** The prefix of the message for a package the repository does not know. */
  const UNKNOWN_PACKAGE := "Sorry, that package is unknown. Check for typos? ("

  /** The message for a coordinate that could not be parsed. */
  const BAD_COORDINATE := "Sorry, could not understand that coordinate. Use groupId:artifactId syntax."

  /**
   * What the command line prints when starting the application failed with
   * `original`. The choice is made on the innermost cause alone.
   */
  function CliErrorReport(original: Throwable): (a: Action)
    ensures var e := RootCauseOf(original);
      && (e.kind.MetadataNotFound? ==> a == PrintLine(UNKNOWN_PACKAGE + e.kind.metadata + ")"))
      && (e.kind.IndexOutOfBounds? ==> a == PrintLine(BAD_COORDINATE))
      && (!e.kind.MetadataNotFound? && !e.kind.IndexOutOfBounds? && e.message.Some? ==> a == PrintLine(e.message.value))
      && (!e.kind.MetadataNotFound? && !e.kind.IndexOutOfBounds? && e.message.None? ==> a == PrintStackTrace(e))
  {
    var e := RootCauseOf(original);
    if e.kind.MetadataNotFound? then PrintLine(UNKNOWN_PACKAGE + e.kind.metadata + ")")
    else if e.kind.IndexOutOfBounds? then PrintLine(BAD_COORDINATE)
    else if e.message.Some? then PrintLine(e.message.value)
    else PrintStackTrace(e)
  }

  /** Two failures with the same innermost cause are reported alike: the wrappers around it never matter. */
  lemma CliErrorReportUsesRootOnly(a: Throwable, b: Throwable)
    requires RootCauseOf(a) == RootCauseOf(b)
    ensures CliErrorReport(a) == CliErrorReport(b)
  {
  }

  /** Wrapping a failure in another error does not change what is printed. */
  lemma {:induction false} CliErrorReportIgnoresWrapping(inner: Throwable, outer: Throwable)
    requires outer.cause == Some(inner)
    ensures CliErrorReport(outer) == CliErrorReport(inner)
  {
    RootCauseOfCause(outer);
  }

  /** A stack trace is printed only for an innermost cause without a message. */
  lemma CliErrorReportStackTrace(original: Throwable)
    requires CliErrorReport(original).PrintStackTrace?
    ensures CliErrorReport(original).error == RootCauseOf(original)
    ensures RootCauseOf(original).message.None? && RootCauseOf(original).cause.None?
  {
  }

  // ---------------------------------------------------------------------
  // The profiling loop
  // ---------------------------------------------------------------------

  /** One profiling run: clear the cache, attach a fresh progress bar, download. */
  function ProfilingRound(coordinates: string): seq<Action> {
    [ClearCache, AttachProgressBar, Download(coordinates)]
  }

  /** `runs` profiling runs, one after the other. */
  function ProfilingRounds(coordinates: string, runs: nat): (trace: seq<Action>)
    ensures |trace| == 3 * runs
  {
    if runs == 0 then [] else ProfilingRounds(coordinates, runs - 1) + ProfilingRound(coordinates)
  }

  /** The number of downloads in a trace. */
  function CountDownloads(trace: seq<Action>): nat {
    if trace == [] then 0
    else CountDownloads(trace[..|trace| - 1]) + (if trace[|trace| - 1].Download? then 1 else 0)
  }

  /** Profiling downloads exactly `runs` times. */
  lemma {:induction false} ProfilingRoundsDownloads(coordinates: string, runs: nat)
    ensures CountDownloads(ProfilingRounds(coordinates, runs)) == runs
  {
    if runs > 0 {
      var before := ProfilingRounds(coordinates, runs - 1);
      ProfilingRoundsDownloads(coordinates, runs - 1);
      var t1 := before + [ClearCache];
      var t2 := t1 + [AttachProgressBar];
      var t3 := t2 + [Download(coordinates)];
      assert t3 == ProfilingRounds(coordinates, runs);
      assert t1[..|t1| - 1] == before;
      assert CountDownloads(t1) == runs - 1;
      assert t2[..|t2| - 1] == t1;
      assert CountDownloads(t2) == runs - 1;
      assert t3[..|t3| - 1] == t2;
    }
  }

  /** Every profiling download is the third step after a cache clear, and only downloads of `coordinates` happen. */
  lemma {:induction false} ProfilingRoundsClearBeforeDownload(coordinates: string, runs: nat, k: int)
    requires 0 <= k < |ProfilingRounds(coordinates, runs)|
    requires ProfilingRounds(coordinates, runs)[k].Download?
    ensures k >= 2 && ProfilingRounds(coordinates, runs)[k - 2] == ClearCache
    ensures ProfilingRounds(coordinates, runs)[k] == Download(coordinates)
  {
    var before := ProfilingRounds(coordinates, runs - 1);
    if k < |before| {
      ProfilingRoundsClearBeforeDownload(coordinates, runs - 1, k);
    }
  }

  /** Profiling never starts the application launcher. */
  lemma {:induction false} ProfilingRoundsNeverLaunch(coordinates: string, runs: nat)
    ensures StartLauncher !in ProfilingRounds(coordinates, runs)
  {
    if runs > 0 {
      ProfilingRoundsNeverLaunch(coordinates, runs - 1);
    }
  }

  /**
   * What `handleCommandLineInvocation` does for a coordinate: with more than
   * one profiling run requested, the profiling loop and then the end of the
   * process; otherwise the launcher is started and a failure is reported.
   */
  function CommandLineTrace(
    profileDownloads: int, cachePath: Path, offline: bool, noSsl: bool,
    coordinates: string, launchFailure: Option<Throwable>): (trace: seq<Action>)
    ensures |trace| >= 1
    ensures profileDownloads > 1 ==>
      && trace[0] == CreateFetcher(cachePath, offline, !noSsl)
      && trace[|trace| - 1] == ExitProcess(0)
      && StartLauncher !in trace
    ensures profileDownloads <= 1 ==>
      && trace[0] == StartLauncher
      && (launchFailure.None? ==> |trace| == 1)
      && (launchFailure.Some? ==> |trace| == 2 && trace[1] == CliErrorReport(launchFailure.value))
  {
    if profileDownloads > 1 then
      ProfilingRoundsNeverLaunch(coordinates, profileDownloads);
      [CreateFetcher(cachePath, offline, !noSsl)] + ProfilingRounds(coordinates, profileDownloads)
        + [ReportProfile(profileDownloads), ExitProcess(0)]
    else
      [StartLauncher] + (if launchFailure.Some? then [CliErrorReport(launchFailure.value)] else [])
  }

  /** With profiling, the coordinate is downloaded exactly `profileDownloads` times, each after a cache clear. */
  lemma ProfilingDownloadsEachRun(
    profileDownloads: int, cachePath: Path, offline: bool, noSsl: bool,
    coordinates: string, launchFailure: Option<Throwable>)
    requires profileDownloads > 1
    ensures var trace := CommandLineTrace(profileDownloads, cachePath, offline, noSsl, coordinates, launchFailure);
      && |trace| == 3 * profileDownloads + 3
      && trace[1..|trace| - 2] == ProfilingRounds(coordinates, profileDownloads)
      && CountDownloads(trace[1..|trace| - 2]) == profileDownloads
  {
    ProfilingRoundsDownloads(coordinates, profileDownloads);
    var trace := CommandLineTrace(profileDownloads, cachePath, offline, noSsl, coordinates, launchFailure);
    var rounds := ProfilingRounds(coordinates, profileDownloads);
    assert trace == [CreateFetcher(cachePath, offline, !noSsl)] + rounds + [ReportProfile(profileDownloads), ExitProcess(0)];
    assert trace[1..|trace| - 2] == rounds;
  }

  // ---------------------------------------------------------------------
  // The text progress bar
  // ---------------------------------------------------------------------

  /** Bytes per kilobyte, the unit of the text progress bar. */
  const KILOBYTE: int := 1024

  /** The bar's maximum for a download of `totalBytes`: whole kilobytes, but never below 1. */
  function BarMax(totalBytes: int): (m: int)
    ensures m >= 1
    ensures totalBytes >= KILOBYTE ==> m * KILOBYTE <= totalBytes < (m + 1) * KILOBYTE
    ensures totalBytes < 2 * KILOBYTE ==> m == 1
  {
    var kb := TruncDiv(totalBytes, KILOBYTE);
    if kb > 1 then kb else 1
  }

  /** The bar's position for `downloadedBytes`: whole kilobytes downloaded so far. */
  function BarStep(downloadedBytes: int): (s: int)
    ensures downloadedBytes >= 0 ==> 0 <= s && s * KILOBYTE <= downloadedBytes < (s + 1) * KILOBYTE
  {
    TruncDiv(downloadedBytes, KILOBYTE)
  }

  /** As long as no more than the total has been downloaded, the position stays within the bar. */
  lemma BarStepWithinMax(downloadedBytes: int, totalBytes: int)
    requires 0 <= downloadedBytes <= totalBytes
    ensures 0 <= BarStep(downloadedBytes) <= BarMax(totalBytes)
  {
    TruncDivMonotone(downloadedBytes, totalBytes, KILOBYTE);
  }

  /** More bytes downloaded never moves the bar backwards. */
  lemma BarStepMonotone(before: int, after: int)
    requires before <= after
    ensures BarStep(before) <= BarStep(after)
  {
    TruncDivMonotone(before, after, KILOBYTE);
  }

  /**
   * The event sink the batch front end hands to the fetcher: the state of its
   * text progress bar and the time reported when the download ends.
   */
  class CliProgressBar {
    var running: bool
    var extraMessage: string
    var max: int
    var current: int
    var reportedTenths: Option<int>   // "Downloaded successfully in ... seconds"
    const stopwatch: Stopwatch

    /** A bar titled "Update" whose initial maximum is 1, and a stopwatch started at `now`. */
    constructor (now: int)
      ensures !running && extraMessage == "" && max == 1 && current == 0
      ensures reportedTenths.None? && stopwatch.start == now
    {
      running, extraMessage, max, current := false, "", 1, 0;
      reportedTenths := None;
      stopwatch := new Stopwatch(now);
    }

    /** `onStartedDownloading`: the bar starts and shows the name. */
    method OnStartedDownloading(name: string)
      modifies this
      ensures running && extraMessage == name
      ensures max == old(max) && current == old(current) && reportedTenths == old(reportedTenths)
    {
      running := true;
      extraMessage := name;
    }

    /** `onFetch`: the name, and the totals scaled to kilobytes. */
    method OnFetch(name: string, totalBytesToDownload: int, totalDownloadedSoFar: int)
      modifies this
      ensures extraMessage == name
      ensures max == BarMax(totalBytesToDownload) && max >= 1
      ensures current == BarStep(totalDownloadedSoFar)
      ensures 0 <= totalDownloadedSoFar <= totalBytesToDownload ==> 0 <= current <= max
      ensures running == old(running) && reportedTenths == old(reportedTenths)
    {
      extraMessage := name;
      max := BarMax(totalBytesToDownload);
      current := BarStep(totalDownloadedSoFar);
      if 0 <= totalDownloadedSoFar <= totalBytesToDownload {
        BarStepWithinMax(totalDownloadedSoFar, totalBytesToDownload);
      }
    }

    /** `onStoppedDownloading`: the bar stops and the elapsed time, in tenths of a second, is reported. */
    method OnStoppedDownloading(now: int)
      modifies this
      ensures !running
      ensures reportedTenths == Some(stopwatch.ElapsedTenths(now))
      ensures now >= stopwatch.start ==> reportedTenths.value >= 0
      ensures extraMessage == old(extraMessage) && max == old(max) && current == old(current)
    {
      running := false;
      reportedTenths := Some(stopwatch.ElapsedTenths(now));
    }
  }

  // ---------------------------------------------------------------------
  // The options object and run()
  // ---------------------------------------------------------------------

  /** The update server used when no other is given. */
  const DEFAULT_UPDATE_URL := "https://update.graviton.app/"

  /** The coordinate put in the browser's address bar when no other is given. */
  const DEFAULT_COORDINATE := "com.github.ricksbrown:cowsay -f tux \"Hello world!\""

  /** The command-line options, which the option parser fills in, and `run()`. */
  class GravitonCli {
    var packageName: Option<seq<string>>
    var args: seq<string>
    var clearCache: bool
    var offline: bool
    var backgroundUpdate: bool
    var updateUrl: string
    var profileDownloads: int
    var noSsl: bool
    var verboseLogging: bool
    var defaultCoordinate: string
    var refresh: bool
    var cachePath: Path

    /** Every option at its default. */
    predicate HasDefaults(defaultCachePath: Path)
      reads this
    {
      && packageName.None? && args == []
      && !clearCache && !offline && !backgroundUpdate && !noSsl && !verboseLogging && !refresh
      && updateUrl == DEFAULT_UPDATE_URL
      && profileDownloads == -1
      && defaultCoordinate == DEFAULT_COORDINATE
      && cachePath == defaultCachePath
    }

    /** Options at their defaults, with the cache at `defaultCachePath`. */
    constructor (defaultCachePath: Path)
      ensures HasDefaults(defaultCachePath)
    {
      packageName, args := None, [];
      clearCache, offline, backgroundUpdate, noSsl, verboseLogging, refresh := false, false, false, false, false, false;
      updateUrl := DEFAULT_UPDATE_URL;
      profileDownloads := -1;
      defaultCoordinate := DEFAULT_COORDINATE;
      cachePath := defaultCachePath;
    }

    /**
     * `GravitonCLI()`: the default cache path is the operating system's
     * application cache directory, so creating the options fails where that
     * directory cannot be computed.
     */
    static method Create(os: OperatingSystem, env: Environment) returns (r: Result<GravitonCli, CacheDirError>)
      ensures r.Err? <==> os.AppCacheDirectory(env).Err?
      ensures r.Err? ==> r.error == os.AppCacheDirectory(env).error
      ensures r.Ok? ==> fresh(r.value) && r.value.HasDefaults(os.AppCacheDirectory(env).value)
    {
      match os.AppCacheDirectory(env)
      case Err(e) =>
        r := Err(e);
      case Ok(dir) =>
        var cli := new GravitonCli(dir);
        r := Ok(cli);
    }

    /** The profiling loop: `profileDownloads` runs, then the statistics and the end of the process. */
    method DownloadWithProfiling(coordinates: string) returns (trace: seq<Action>)
      ensures var runs := if profileDownloads > 0 then profileDownloads else 0;
        trace == [CreateFetcher(cachePath, offline, !noSsl)] + ProfilingRounds(coordinates, runs)
          + [ReportProfile(profileDownloads), ExitProcess(0)]
    {
      trace := [CreateFetcher(cachePath, offline, !noSsl)];
      var i := 0;
      while i < profileDownloads
        invariant 0 <= i <= (if profileDownloads > 0 then profileDownloads else 0)
        invariant trace == [CreateFetcher(cachePath, offline, !noSsl)] + ProfilingRounds(coordinates, i)
      {
        trace := trace + [ClearCache, AttachProgressBar, Download(coordinates)];
        i := i + 1;
      }
      trace := trace + [ReportProfile(profileDownloads), ExitProcess(0)];
    }

    /** `handleCommandLineInvocation`: profile, or start the launcher and report a failure. */
    method HandleCommandLineInvocation(coordinates: string, launchFailure: Option<Throwable>)
      returns (trace: seq<Action>)
      ensures trace == CommandLineTrace(profileDownloads, cachePath, offline, noSsl, coordinates, launchFailure)
    {
      if profileDownloads > 1 {
        trace := DownloadWithProfiling(coordinates);
        return;
      }
      trace := [StartLauncher];
      if launchFailure.Some? {
        trace := trace + [CliErrorReport(launchFailure.value)];
      }
    }

    /**
     * `run()`. The installed shell's path and version and whether the
     * launcher fails (and with what) are inputs.
     */
    method Run(gravitonPath: Option<string>, gravitonVersion: Option<string>, launchFailure: Option<Throwable>)
      returns (trace: seq<Action>)
      ensures backgroundUpdate ==>
        trace == [BackgroundUpdate(cachePath, gravitonVersion,
                                   if gravitonPath.Some? then Some(ToPath(gravitonPath.value)) else None,
                                   updateUrl)]
      ensures !backgroundUpdate ==> |trace| >= 1 && (clearCache ==> trace[0] == ClearCache)
      ensures !backgroundUpdate && |trace| >= 1 ==>
        var rest := if clearCache then trace[1..] else trace;
        && (packageName.None? ==> rest == [LaunchGui(args)])
        && (packageName.Some? && packageName.value == [] ==> rest == [Uncaught("java.lang.ArrayIndexOutOfBoundsException")])
        && (packageName.Some? && packageName.value != [] ==>
              rest == CommandLineTrace(profileDownloads, cachePath, offline, noSsl, packageName.value[0], launchFailure))
    {
      if backgroundUpdate {
        var installedPath := if gravitonPath.Some? then Some(ToPath(gravitonPath.value)) else None;
        trace := [BackgroundUpdate(cachePath, gravitonVersion, installedPath, updateUrl)];
        return;
      }
      trace := [];
      if clearCache {
        trace := trace + [ClearCache];
      }
      match packageName
      case None =>
        trace := trace + [LaunchGui(args)];
      case Some(names) =>
        if names == [] {
          trace := trace + [Uncaught("java.lang.ArrayIndexOutOfBoundsException")];
        } else {
          var invocation := HandleCommandLineInvocation(names[0], launchFailure);
          trace := trace + invocation;
        }
    }
  }
}
