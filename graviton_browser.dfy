/**
 * The interactive front end's status (`ShellView`): whether a download is in
 * progress, the two lines of the message box, the download progress and the
 * captured program output, as the address bar and the fetcher's three
 * progress events change them. The widgets are reduced to what they show:
 * the message box is visible when it has text, and the address bar is
 * disabled and the spinner shown while a download is in progress.
 */
module GravitonBrowser {
  import opened Wrappers
  import opened Utils
  import GravitonCli

  /**
   * The download progress, kept as the pair (downloaded, total) that the
   * shell divides to get the fraction it shows.
   */
  datatype Progress = Progress(downloaded: int, total: int)

  /** The progress 0.0. */
  const NO_PROGRESS := Progress(0, 1)

  /** The progress 1.0. */
  const FULL_PROGRESS := Progress(1, 1)

  /** The detail shown when the requested application does not exist in the repository. */
  const COULD_NOT_LOCATE := "Could not locate the requested application"

  /**
   * The second line of the message box after a failed start. A launcher
   * error whose innermost cause is a missing artifact gets a fixed sentence;
   * any other launcher error shows its own message (nothing when it has
   * none); any other error shows its class name and message.
   */
  function StartErrorMessage(e: Throwable): (m: string)
    ensures e.kind.StartException? && RootCauseOf(e).kind.ArtifactNotFound? ==> m == COULD_NOT_LOCATE
    ensures e.kind.StartException? && !RootCauseOf(e).kind.ArtifactNotFound? ==> m == e.message.GetOr("")
    ensures !e.kind.StartException? ==> m == Describe(e)
  {
    if e.kind.StartException? then
      if RootCauseOf(e).kind.ArtifactNotFound? then COULD_NOT_LOCATE else e.message.GetOr("")
    else
      Describe(e)
  }

  /**
   * A launcher error caused, however deeply, by a missing artifact that has
   * no cause of its own is shown as "Could not locate the requested application".
   */
  lemma StartErrorForMissingArtifact(e: Throwable, missing: Throwable)
    requires e.kind.StartException?
    requires missing in Chain(e) && missing.kind.ArtifactNotFound? && missing.cause.None?
    ensures StartErrorMessage(e) == COULD_NOT_LOCATE
  {
    var c := Chain(e);
    var i :| 0 <= i < |c| && c[i] == missing;
    RootCauseIsOnlyCauseless(e, i);
  }

  class ShellView {
    var downloadProgress: Progress
    var isDownloading: bool
    var messageText1: string
    var messageText2: string
    var outputText: string
    /** The command lines, split into words, handed to the application launcher, oldest first. */
    var launches: seq<seq<string>>

    /** The view as first shown: idle, no message, no output. */
    constructor ()
      ensures downloadProgress == NO_PROGRESS && !isDownloading
      ensures messageText1 == "" && messageText2 == "" && outputText == "" && launches == []
      ensures !MessageBoxVisible() && !InputDisabled() && !SpinnerVisible()
    {
      downloadProgress := NO_PROGRESS;
      isDownloading := false;
      messageText1, messageText2, outputText := "", "", "";
      launches := [];
    }

    /** The message box is visible when either of its lines has text. */
    predicate MessageBoxVisible(): (visible: bool)
      reads this
      ensures visible <==> |messageText1| + |messageText2| > 0
    {
      messageText1 != "" || messageText2 != ""
    }

    /** The address bar is disabled while a download is in progress. */
    predicate InputDisabled(): (disabled: bool)
      reads this
      ensures disabled <==> isDownloading
    {
      isDownloading
    }

    /** The spinner is shown while a download is in progress. */
    predicate SpinnerVisible(): (visible: bool)
      reads this
      ensures visible <==> isDownloading
    {
      isDownloading
    }

    /** While a download is in progress the message box says what is happening. */
    predicate StatusShown()
      reads this
    {
      isDownloading ==> MessageBoxVisible()
    }

    /**
     * `onNavigate`: a blank address is ignored; otherwise the output area is
     * cleared and the launcher is started on the words of the address.
     */
    method OnNavigate(text: string)
      modifies this
      ensures IsBlank(text) ==> launches == old(launches) && outputText == old(outputText)
      ensures !IsBlank(text) ==> outputText == "" && launches == old(launches) + [GravitonCli.Split(text)]
      ensures downloadProgress == old(downloadProgress) && isDownloading == old(isDownloading)
      ensures messageText1 == old(messageText1) && messageText2 == old(messageText2)
      ensures old(StatusShown()) ==> StatusShown()
    {
      if IsBlank(text) {
        return;
      }
      var options := GravitonCli.Split(text);
      outputText := "";
      launches := launches + [options];
    }

    /** `onStartedDownloading`: the download begins and the box says it is resolving. */
    method OnStartedDownloading(name: string)
      modifies this
      ensures downloadProgress == NO_PROGRESS && isDownloading
      ensures messageText1 == "Please wait ..." && messageText2 == "Resolving"
      ensures outputText == old(outputText) && launches == old(launches)
      ensures MessageBoxVisible() && InputDisabled() && SpinnerVisible() && StatusShown()
    {
      downloadProgress := NO_PROGRESS;
      isDownloading := true;
      messageText1 := "Please wait ...";
      messageText2 := "Resolving";
    }

    /** `onFetch`: the progress and the name of the artifact being downloaded. */
    method OnFetch(name: string, totalBytesToDownload: int, totalDownloadedSoFar: int)
      modifies this
      ensures downloadProgress == Progress(totalDownloadedSoFar, totalBytesToDownload)
      ensures messageText1 == "DOWNLOADING" && messageText2 == name
      ensures isDownloading == old(isDownloading)
      ensures outputText == old(outputText) && launches == old(launches)
      ensures MessageBoxVisible() && StatusShown()
    {
      downloadProgress := Progress(totalDownloadedSoFar, totalBytesToDownload);
      messageText1 := "DOWNLOADING";
      messageText2 := name;
    }

    /** `onStoppedDownloading`: the download is over and the message box empties. */
    method OnStoppedDownloading()
      modifies this
      ensures downloadProgress == FULL_PROGRESS && !isDownloading
      ensures messageText1 == "" && messageText2 == ""
      ensures outputText == old(outputText) && launches == old(launches)
      ensures !MessageBoxVisible() && !InputDisabled() && !SpinnerVisible() && StatusShown()
    {
      downloadProgress := FULL_PROGRESS;
      isDownloading := false;
      messageText1 := "";
      messageText2 := "";
    }

    /** `onStartError`: the download is over and the box says why the start failed. */
    method OnStartError(e: Throwable)
      modifies this
      ensures !isDownloading && downloadProgress == NO_PROGRESS
      ensures messageText1 == "Start failed" && messageText2 == StartErrorMessage(e)
      ensures outputText == old(outputText) && launches == old(launches)
      ensures MessageBoxVisible() && !InputDisabled() && !SpinnerVisible() && StatusShown()
    {
      isDownloading := false;
      downloadProgress := NO_PROGRESS;
      messageText1 := "Start failed";
      messageText2 := StartErrorMessage(e);
    }

    /** A click on the background picture flips the downloading flag. */
    method OnArtClicked()
      modifies this
      ensures isDownloading == !old(isDownloading)
      ensures downloadProgress == old(downloadProgress)
      ensures messageText1 == old(messageText1) && messageText2 == old(messageText2)
      ensures outputText == old(outputText) && launches == old(launches)
    {
      isDownloading := !isDownloading;
    }
  }

  /**
   * A navigation followed by the events of one successful fetch: the address
   * bar is disabled during the download and everything is back to idle,
   * with the message box hidden, after it.
   */
  method NavigateAndDownload(name: string, total: int)
  {
    var view := new ShellView();
    view.OnNavigate("org.example:hello");
    assert !IsWhitespace("org.example:hello"[0]);
    assert view.launches == [GravitonCli.Split("org.example:hello")];
    view.OnStartedDownloading(name);
    assert view.InputDisabled() && view.MessageBoxVisible();
    view.OnFetch(name, total, 0);
    view.OnFetch(name, total, total);
    assert view.InputDisabled() && view.messageText2 == name;
    view.OnStoppedDownloading();
    assert !view.InputDisabled() && !view.MessageBoxVisible() && view.downloadProgress == FULL_PROGRESS;
  }
}
