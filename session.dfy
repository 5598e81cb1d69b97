/**
 * The page's session state (script.js:29-34) and the handlers that change it:
 * loading a video (script.js:61-98), selecting a quality (script.js:100-110),
 * starting a download (script.js:112-159) and refreshing the quality options
 * (script.js:177-191). Each async handler is split at its `await`: the click
 * half runs the guards and issues the request, the settle half runs when the
 * fetch outcome arrives. Between the two, other handlers may run.
 */
module Session {
  import opened Common
  import opened Text
  import opened Notifications

  /** One `.download-option` element: its `data-quality` and its `active` and `unavailable` classes. */
  datatype OptionView = OptionView(quality: string, active: bool, unavailable: bool)

  /** What the page keeps of a `video-info` answer: the `quality` of each catalogue entry, in order. */
  datatype InfoAnswer = InfoAnswer(qualities: seq<string>)

  /** The `download` answer's `download_path`. */
  datatype DownloadReply = DownloadReply(downloadPath: string)

  /**
   * The outcome of `fetch` followed by `response.json()`: either one of them
   * rejected with an error message, or the body arrived with its `error`
   * field ("" when absent or empty, which JavaScript reads as false).
   */
  datatype Response<T> = Rejected(reason: string) | Received(error: string, body: T)

  /** The request a handler is awaiting. */
  datatype Request = NoRequest | InfoRequest(url: string) | DownloadRequest(url: string, quality: string)

  const EnterUrl := "Please enter a video URL"
  const LoadingInfo := "Loading video information..."
  const InfoLoaded := "Video loaded successfully! Select download quality below."
  const InfoFailed := "Error loading video information"
  const QualityUnavailable := "This quality is not available for the current video"
  const SelectedPrefix := "Selected quality: "
  const SelectQualityFirst := "Please select a download quality"
  const NoVideoUrl := "No video URL found"
  const StartingDownload := "Starting download..."
  const DownloadStarted := "Download started! Your file will be saved shortly."
  const DownloadFailed := "Error starting download"

  /** The fetch went through and the body carries no error. */
  predicate Succeeded<T>(r: Response<T>)
  {
    r.Received? && r.error == ""
  }

  /** The message of the error the `catch` block receives. */
  function ErrorMessage<T>(r: Response<T>): string
  {
    if r.Rejected? then r.reason else r.error
  }

  /** `error.message || fallback` in the `catch` blocks. */
  function FailureText<T>(r: Response<T>, fallback: string): string
  {
    if ErrorMessage(r) != "" then ErrorMessage(r) else fallback
  }

  class Session {
    /** `config.API_BASE_URL`. */
    const apiBase: string
    /** The page-wide notification queue. */
    const notifier: Notifier
    /** The `.download-option` elements, in page order. */
    const options: array<OptionView>

    var currentVideoUrl: string
    var selectedQuality: string
    var videoInfo: Option<InfoAnswer>
    var isProcessing: bool
    /** The fetch whose outcome a handler is awaiting. */
    var awaiting: Request

    /**
     * What the handlers keep true: a request is in flight exactly while
     * `isProcessing`; a video is loaded exactly when its URL is set; at most
     * one option is active, and an active option is available and is the
     * selected quality; a selected quality has its active option; and once a
     * video is loaded, an option is unavailable exactly when the video has
     * no entry of its quality.
     */
    predicate Valid()
      reads this, notifier, options
    {
      && notifier.Valid()
      && (isProcessing <==> !awaiting.NoRequest?)
      && (awaiting.InfoRequest? ==> awaiting.url != "")
      && (awaiting.DownloadRequest? ==> awaiting.url != "" && awaiting.quality != "")
      && (videoInfo.Some? <==> currentVideoUrl != "")
      && (forall i, j :: 0 <= i < options.Length && 0 <= j < options.Length && options[i].active && options[j].active ==> i == j)
      && (forall i :: 0 <= i < options.Length && options[i].active ==> options[i].quality == selectedQuality && !options[i].unavailable)
      && (selectedQuality != "" ==> exists i :: 0 <= i < options.Length && options[i].active)
      && (videoInfo.Some? ==> forall i :: 0 <= i < options.Length ==>
            (options[i].unavailable <==> options[i].quality !in videoInfo.value.qualities))
    }

    /** The page as loaded: nothing selected, no video, no option active or unavailable. */
    constructor(apiBase: string, notifier: Notifier, labels: seq<string>)
      requires notifier.Valid()
      ensures Valid()
      ensures this.apiBase == apiBase && this.notifier == notifier && fresh(options)
      ensures options[..] == seq(|labels|, i requires 0 <= i < |labels| => OptionView(labels[i], false, false))
      ensures currentVideoUrl == "" && selectedQuality == "" && videoInfo == None
      ensures !isProcessing && awaiting == NoRequest
    {
      this.apiBase := apiBase;
      this.notifier := notifier;
      options := new OptionView[|labels|](i requires 0 <= i < |labels| => OptionView(labels[i], false, false));
      currentVideoUrl := "";
      selectedQuality := "";
      videoInfo := None;
      isProcessing := false;
      awaiting := NoRequest;
    }

    /**
     * The synchronous half of `handlePlayClick` (script.js:61-79): ignored
     * while busy; an input that trims to nothing gives one error and no
     * fetch; otherwise the session turns busy, says it is loading and asks
     * for the trimmed URL's information.
     */
    method PlayClick(input: string)
      requires Valid()
      modifies this, notifier
      ensures Valid()
      ensures old(isProcessing) ==> unchanged(this) && notifier.State() == old(notifier.State())
      ensures !old(isProcessing) && Trim(input) == "" ==>
        unchanged(this) && notifier.State() == Enqueue(old(notifier.State()), Notification(EnterUrl, Error))
      ensures !old(isProcessing) && Trim(input) != "" ==>
        && isProcessing && awaiting == InfoRequest(Trim(input))
        && currentVideoUrl == old(currentVideoUrl) && selectedQuality == old(selectedQuality)
        && videoInfo == old(videoInfo)
        && notifier.State() == Enqueue(old(notifier.State()), Notification(LoadingInfo, Info))
    {
      if isProcessing {
        return;
      }
      var url := Trim(input);
      if url == "" {
        notifier.Show(EnterUrl, Error);
        return;
      }
      isProcessing := true;
      notifier.Show(LoadingInfo, Info);
      awaiting := InfoRequest(url);
    }

    /**
     * `updateQualityOptions` (script.js:177-191): clears the selection, and
     * marks each option unavailable exactly when no entry has its quality,
     * and no option active.
     */
    method UpdateQualityOptions(qualities: seq<string>)
      modifies this, options
      ensures selectedQuality == ""
      ensures currentVideoUrl == old(currentVideoUrl) && videoInfo == old(videoInfo)
      ensures isProcessing == old(isProcessing) && awaiting == old(awaiting)
      ensures forall i :: 0 <= i < options.Length ==>
        options[i] == OptionView(old(options[i].quality), false, old(options[i].quality) !in qualities)
    {
      selectedQuality := "";
      var k := 0;
      while k < options.Length
        invariant 0 <= k <= options.Length
        invariant forall i :: 0 <= i < k ==>
          options[i] == OptionView(old(options[i].quality), false, old(options[i].quality) !in qualities)
        invariant forall i :: k <= i < options.Length ==> options[i] == old(options[i])
        modifies options
      {
        var quality := options[k].quality;
        options[k] := OptionView(quality, false, quality !in qualities);
        k := k + 1;
      }
    }

    /**
     * The half of `handlePlayClick` after the fetch settles (script.js:81-97).
     * On success the URL and the answer are stored, the options refreshed and
     * success announced; on failure the video, the selection and the options
     * stay as they were and the error is shown. Either way the session is no
     * longer busy.
     */
    method LoadSettled(response: Response<InfoAnswer>)
      requires Valid() && awaiting.InfoRequest?
      modifies this, notifier, options
      ensures Valid()
      ensures !isProcessing && awaiting == NoRequest
      ensures Succeeded(response) ==>
        && currentVideoUrl == old(awaiting.url) && videoInfo == Some(response.body) && selectedQuality == ""
        && (forall i :: 0 <= i < options.Length ==>
              options[i] == OptionView(old(options[i].quality), false, old(options[i].quality) !in response.body.qualities))
        && notifier.State() == Enqueue(old(notifier.State()), Notification(InfoLoaded, Success))
      ensures !Succeeded(response) ==>
        && currentVideoUrl == old(currentVideoUrl) && videoInfo == old(videoInfo)
        && selectedQuality == old(selectedQuality)
        && (forall i :: 0 <= i < options.Length ==> options[i] == old(options[i]))
        && notifier.State() == Enqueue(old(notifier.State()), Notification(FailureText(response, InfoFailed), Error))
    {
      var url := awaiting.url;
      if Succeeded(response) {
        currentVideoUrl := url;
        videoInfo := Some(response.body);
        UpdateQualityOptions(response.body.qualities);
        notifier.Show(InfoLoaded, Success);
      } else {
        notifier.Show(FailureText(response, InfoFailed), Error);
      }
      isProcessing := false;
      awaiting := NoRequest;
    }

    /**
     * `handleQualitySelection` (script.js:100-110): an unavailable option
     * gives an error and changes nothing; otherwise exactly that option
     * becomes active and its quality is selected.
     */
    method SelectQuality(k: int)
      requires Valid() && 0 <= k < options.Length
      modifies this, notifier, options
      ensures Valid()
      ensures currentVideoUrl == old(currentVideoUrl) && videoInfo == old(videoInfo)
      ensures isProcessing == old(isProcessing) && awaiting == old(awaiting)
      ensures old(options[k].unavailable) ==>
        && selectedQuality == old(selectedQuality)
        && (forall i :: 0 <= i < options.Length ==> options[i] == old(options[i]))
        && notifier.State() == Enqueue(old(notifier.State()), Notification(QualityUnavailable, Error))
      ensures !old(options[k].unavailable) ==>
        && selectedQuality == old(options[k].quality)
        && (forall i :: 0 <= i < options.Length ==> options[i] == old(options[i]).(active := i == k))
        && notifier.State() == Enqueue(old(notifier.State()), Notification(SelectedPrefix + selectedQuality, Success))
    {
      if options[k].unavailable {
        notifier.Show(QualityUnavailable, Error);
        return;
      }
      var j := 0;
      while j < options.Length
        invariant 0 <= j <= options.Length
        invariant forall i :: 0 <= i < j ==> options[i] == old(options[i]).(active := false)
        invariant forall i :: j <= i < options.Length ==> options[i] == old(options[i])
        modifies options
      {
        options[j] := options[j].(active := false);
        j := j + 1;
      }
      options[k] := options[k].(active := true);
      selectedQuality := options[k].quality;
      notifier.Show(SelectedPrefix + selectedQuality, Success);
    }

    /**
     * The synchronous half of `handleDownload` (script.js:112-140): ignored
     * while busy; then a missing selection, then a missing video, each give
     * one error and no fetch; otherwise the session turns busy, announces the
     * download and asks for the selected quality of the loaded URL.
     */
    method DownloadClick()
      requires Valid()
      modifies this, notifier
      ensures Valid()
      ensures old(isProcessing) ==> unchanged(this) && notifier.State() == old(notifier.State())
      ensures !old(isProcessing) && old(selectedQuality) == "" ==>
        unchanged(this) && notifier.State() == Enqueue(old(notifier.State()), Notification(SelectQualityFirst, Error))
      ensures !old(isProcessing) && old(selectedQuality) != "" && old(currentVideoUrl) == "" ==>
        unchanged(this) && notifier.State() == Enqueue(old(notifier.State()), Notification(NoVideoUrl, Error))
      ensures !old(isProcessing) && old(selectedQuality) != "" && old(currentVideoUrl) != "" ==>
        && isProcessing && awaiting == DownloadRequest(currentVideoUrl, selectedQuality)
        && currentVideoUrl == old(currentVideoUrl) && selectedQuality == old(selectedQuality)
        && videoInfo == old(videoInfo)
        && notifier.State() == Enqueue(old(notifier.State()), Notification(StartingDownload, Info))
    {
      if isProcessing {
        return;
      }
      if selectedQuality == "" {
        notifier.Show(SelectQualityFirst, Error);
        return;
      }
      if currentVideoUrl == "" {
        notifier.Show(NoVideoUrl, Error);
        return;
      }
      isProcessing := true;
      notifier.Show(StartingDownload, Info);
      awaiting := DownloadRequest(currentVideoUrl, selectedQuality);
    }

    /**
     * The half of `handleDownload` after the fetch settles (script.js:142-158):
     * on success the browser is sent to the API base followed by the returned
     * path; on failure the error is shown. Either way the session is no
     * longer busy and nothing else changes.
     */
    method DownloadSettled(response: Response<DownloadReply>) returns (target: Option<string>)
      requires Valid() && awaiting.DownloadRequest?
      modifies this, notifier
      ensures Valid()
      ensures !isProcessing && awaiting == NoRequest
      ensures currentVideoUrl == old(currentVideoUrl) && selectedQuality == old(selectedQuality)
      ensures videoInfo == old(videoInfo)
      ensures Succeeded(response) ==>
        && target == Some(apiBase + response.body.downloadPath)
        && notifier.State() == Enqueue(old(notifier.State()), Notification(DownloadStarted, Success))
      ensures !Succeeded(response) ==>
        && target == None
        && notifier.State() == Enqueue(old(notifier.State()), Notification(FailureText(response, DownloadFailed), Error))
    {
      if Succeeded(response) {
        target := Some(apiBase + response.body.downloadPath);
        notifier.Show(DownloadStarted, Success);
      } else {
        target := None;
        notifier.Show(FailureText(response, DownloadFailed), Error);
      }
      isProcessing := false;
      awaiting := NoRequest;
    }
  }

  /** A selected quality always belongs to the loaded video, so a download never asks for a quality the video lacks. */
  lemma SelectedQualityOffered(s: Session)
    requires s.Valid() && s.selectedQuality != "" && s.videoInfo.Some?
    ensures s.selectedQuality in s.videoInfo.value.qualities
  {
    var i :| 0 <= i < s.options.Length && s.options[i].active;
    assert !s.options[i].unavailable;
  }
}
