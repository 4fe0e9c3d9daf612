/**
 * The download flow of the page: `processOptions` validates the input and
 * picks the URL to fetch, `fetchContents` asks the relay for that URL's
 * document, `parseXML` or `parseHTML` decides what to download and under
 * which name, and `downloadAsset` fetches the file and saves it. The submit
 * button is disabled when the flow starts and enabled again on every path
 * that ends it.
 *
 * The awaited network responses are inputs (`Environment`): what the relay
 * answered for the document and what it answered for the file. The flow is
 * specified once as a function of these inputs (`Run`), and the page's
 * handlers, as methods of `Downloader`, are proved to carry it out.
 */
module DownloadFlow {
  import opened Wrappers
  import opened JsStrings
  import opened AssetTypes
  import opened Validation
  import opened AssetNaming

  type Bytes = seq<bv8>

  /**
   * How an awaited `fetch` ends: a response with `ok` set and its body, a
   * response without `ok` and its `statusText`, or a rejected promise and
   * the message of its error.
   */
  datatype Response<T> = Fulfilled(body: T) | NotOk(statusText: string) | Rejected(reason: string)

  /**
   * The world the flow runs in: the relay's answer to the document request
   * (as the lookups made in the parsed document), its answer to the file
   * request, the clock reading `Date.now()` in milliseconds, and the message
   * of the error the browser's `btoa` throws on a character it cannot encode.
   */
  datatype Environment = Environment(metadata: Response<Page>, download: Response<Bytes>, now: nat, btoaError: string)

  /** A request sent to the relay, by the URL it is asked to fetch (before percent-encoding). */
  datatype Request = MetadataRequest(target: string) | DownloadRequest(target: string)

  /** A file handed to the browser to save. */
  datatype SavedFile = SavedFile(name: string, contents: Bytes)

  /**
   * How a flow ends: an error message shown to the user, a saved file, or a
   * saved file followed by an error, when reporting the download throws
   * after the file was handed to the browser.
   */
  datatype Outcome =
    | Failed(message: string)
    | Saved(file: SavedFile)
    | SavedThenFailed(file: SavedFile, message: string)

  /** The requests a flow sends, in order, and how it ends. */
  datatype Trace = Trace(requests: seq<Request>, outcome: Outcome)

  const InvalidSoundUrl := "Invalid Sound URL. "
  const FetchFailed := "Failed to fetch asset data: "
  const NetworkError := "Network error: "
  const SoundParseFailed := "Failed to parse sound data. The asset might be off-sale."
  const DownloadFailed := "Download failed: "
  /** The text of the submit button while it can be clicked. */
  const IdleLabel := "Download Asset"
  /** The text of the submit button while a flow runs. */
  const WorkingLabel := "Working..."

  /** The message shown when `parseHTML` throws. */
  function PageParseFailed(message: string): string
  {
    "Failed to parse page data. Roblox may have updated its site. (Error: " + message + ")"
  }

  /** `btoa` accepts a string only when every character is at most U+00FF. */
  predicate Latin1(s: string)
  {
    forall i :: 0 <= i < |s| ==> s[i] as int <= 0xFF
  }

  /**
   * `submitDownloadAmount(originalURL, assetType)` encodes both strings with
   * `btoa` before it sends anything; it throws unless both are Latin-1.
   */
  predicate StatsEncodable(originalUrl: string, kind: AssetKind)
  {
    Latin1(originalUrl) && Latin1(ValueOf(kind))
  }

  // ---------------------------------------------------------------------
  // the flow as a function of its inputs
  // ---------------------------------------------------------------------

  /** The URL whose document is fetched: by asset ID for a sound, the page itself otherwise. */
  function FetchTarget(url: string, kind: AssetKind): (r: Result<string, string>)
    ensures r.Ok? <==> !kind.Sound? || Truthy(Segment(url, 4))
    ensures r.Err? ==> r.error == InvalidSoundUrl + NoAssetId
    ensures r.Ok? && kind.Sound? ==> r.value == SoundInfoEndpoint + Segment(url, 4).value
    ensures !kind.Sound? ==> r == Ok(url)
  {
    if kind.Sound? then
      match SoundInfoUrl(url)
      case Err(m) => Err(InvalidSoundUrl + m)
      case Ok(target) => Ok(target)
    else Ok(url)
  }

  /** A whole flow started by a click, with the raw URL field and the selected type. */
  function Run(rawUrl: string, kind: AssetKind, env: Environment): (t: Trace)
    ensures |t.requests| <= 2
    ensures |t.requests| >= 1 ==> t.requests[0].MetadataRequest?
    ensures |t.requests| == 2 ==> t.requests[1].DownloadRequest?
    ensures !t.outcome.Failed? ==> |t.requests| == 2
  {
    match Validate(rawUrl, kind)
    case Err(m) => Trace([], Failed(m))
    case Ok(url) =>
      match FetchTarget(url, kind)
      case Err(m) => Trace([], Failed(m))
      case Ok(target) =>
        var rest := AfterFetch(target, kind, url, env);
        Trace([MetadataRequest(target)] + rest.requests, rest.outcome)
  }

  /**
   * What follows the document request for `url`: its error, or the parse and
   * the download. At most the file request follows, and a file is saved
   * exactly when that request was sent and answered.
   */
  function AfterFetch(url: string, kind: AssetKind, originalUrl: string, env: Environment): (t: Trace)
    ensures |t.requests| <= 1
    ensures |t.requests| == 1 ==> t.requests[0].DownloadRequest? && env.metadata.Fulfilled?
    ensures !t.outcome.Failed? <==> |t.requests| == 1 && env.download.Fulfilled?
  {
    match env.metadata
    case NotOk(status) => Trace([], Failed(FetchFailed + NetworkError + status))
    case Rejected(reason) => Trace([], Failed(FetchFailed + reason))
    case Fulfilled(page) =>
      if kind.Sound? then AfterSoundXml(originalUrl, page, env)
      else AfterPage(kind, url, originalUrl, page, env)
  }

  /** What follows a sound's XML: the parse error, or the download of the `<Content>` text. */
  function AfterSoundXml(originalUrl: string, page: Page, env: Environment): (t: Trace)
    ensures t.requests != [] <==> page.content.Some?
    ensures t.requests != [] ==> t.requests == [DownloadRequest(page.content.value)]
    ensures t.requests == [] ==> t.outcome == Failed(SoundParseFailed)
  {
    match XmlPlan(originalUrl, page)
    case Err(_) => Trace([], Failed(SoundParseFailed))
    case Ok(plan) => AfterPlan(plan, originalUrl, Sound, env)
  }

  /** What follows an asset page: the parse error, or the download of the plan. */
  function AfterPage(kind: AssetKind, pageUrl: string, originalUrl: string, page: Page, env: Environment): (t: Trace)
    ensures t.requests != [] <==> PagePlan(kind, pageUrl, page, env.now).Ok?
    ensures t.requests != [] ==> t.requests == [DownloadRequest(PagePlan(kind, pageUrl, page, env.now).value.downloadUrl)]
  {
    match PagePlan(kind, pageUrl, page, env.now)
    case Err(m) => Trace([], Failed(PageParseFailed(m)))
    case Ok(plan) => AfterPlan(plan, originalUrl, kind, env)
  }

  /**
   * The file request of a plan and how it ends. A file the relay returns is
   * always saved; the flow then succeeds only if the download can be
   * reported, and otherwise shows the error `btoa` threw.
   */
  function AfterPlan(plan: Plan, originalUrl: string, kind: AssetKind, env: Environment): (t: Trace)
    ensures t.requests == [DownloadRequest(plan.downloadUrl)]
    ensures t.outcome.Failed? <==> !env.download.Fulfilled?
    ensures t.outcome.Saved? <==> env.download.Fulfilled? && StatsEncodable(originalUrl, kind)
    ensures !t.outcome.Failed? ==> t.outcome.file == SavedFile(plan.fileName, env.download.body)
    ensures t.outcome.SavedThenFailed? ==> t.outcome.message == DownloadFailed + env.btoaError
  {
    Trace([DownloadRequest(plan.downloadUrl)],
      match env.download
      case NotOk(status) => Failed(DownloadFailed + DownloadFailed + status)
      case Rejected(reason) => Failed(DownloadFailed + reason)
      case Fulfilled(bytes) =>
        var file := SavedFile(plan.fileName, bytes);
        if StatsEncodable(originalUrl, kind) then Saved(file)
        else SavedThenFailed(file, DownloadFailed + env.btoaError))
  }

  // ---------------------------------------------------------------------
  // properties of the flow
  // ---------------------------------------------------------------------

  /** Input that fails validation shows the check's message and sends no request. */
  lemma InvalidInputSendsNothing(rawUrl: string, kind: AssetKind, env: Environment)
    requires Validate(rawUrl, kind).Err?
    ensures Run(rawUrl, kind, env) == Trace([], Failed(Validate(rawUrl, kind).error))
  {
  }

  /**
   * A valid sound URL without an asset ID in segment 4 fails before any
   * request; with one, the first request is for the sound info endpoint
   * followed by exactly that ID.
   */
  lemma SoundFetchedById(rawUrl: string, env: Environment)
    requires Validate(rawUrl, Sound).Ok?
    ensures var url := Trim(rawUrl); var t := Run(rawUrl, Sound, env);
      (!Truthy(Segment(url, 4)) ==> t == Trace([], Failed(InvalidSoundUrl + NoAssetId))) &&
      (Truthy(Segment(url, 4)) ==>
        |t.requests| >= 1 && t.requests[0] == MetadataRequest(SoundInfoEndpoint + Segment(url, 4).value))
  {
  }

  /** Accepted input without a document URL ends the flow with that error and no request. */
  lemma RunWithoutTarget(rawUrl: string, kind: AssetKind, env: Environment, url: string, m: string)
    requires Validate(rawUrl, kind) == Ok(url)
    requires FetchTarget(url, kind) == Err(m)
    ensures Run(rawUrl, kind, env) == Trace([], Failed(m))
  {
  }

  /** A page that yields no plan ends the flow with the parse error. */
  lemma PageRejected(kind: AssetKind, pageUrl: string, originalUrl: string, page: Page, env: Environment, m: string)
    requires PagePlan(kind, pageUrl, page, env.now) == Err(m)
    ensures AfterPage(kind, pageUrl, originalUrl, page, env) == Trace([], Failed(PageParseFailed(m)))
  {
  }

  /** A page that yields a plan continues with its download. */
  lemma PageAccepted(kind: AssetKind, pageUrl: string, originalUrl: string, page: Page, env: Environment, p: Plan)
    requires PagePlan(kind, pageUrl, page, env.now) == Ok(p)
    ensures AfterPage(kind, pageUrl, originalUrl, page, env) == AfterPlan(p, originalUrl, kind, env)
  {
  }

  /** Once the input is accepted and the document URL chosen, the flow is the document request and what follows. */
  lemma RunFetches(rawUrl: string, kind: AssetKind, env: Environment, url: string, target: string)
    requires Validate(rawUrl, kind) == Ok(url)
    requires FetchTarget(url, kind) == Ok(target)
    ensures var rest := AfterFetch(target, kind, url, env);
      Run(rawUrl, kind, env) == Trace([MetadataRequest(target)] + rest.requests, rest.outcome)
  {
  }

  /**
   * A document request answered without `ok` ends the flow with a message
   * that carries the status text, and nothing more is requested.
   */
  lemma FetchStatusReported(rawUrl: string, kind: AssetKind, env: Environment)
    requires Validate(rawUrl, kind).Ok?
    requires FetchTarget(Trim(rawUrl), kind).Ok?
    requires env.metadata.NotOk?
    ensures var t := Run(rawUrl, kind, env);
      t.outcome == Failed(FetchFailed + NetworkError + env.metadata.statusText) &&
      Contains(t.outcome.message, env.metadata.statusText) &&
      t.requests == [MetadataRequest(FetchTarget(Trim(rawUrl), kind).value)]
  {
    var t := Run(rawUrl, kind, env);
    EndsWithContains(t.outcome.message, env.metadata.statusText);
  }

  /**
   * A file request answered without `ok` ends the flow with a message that
   * carries the status text; no file is saved and nothing is retried.
   */
  lemma DownloadStatusReported(rawUrl: string, kind: AssetKind, env: Environment)
    requires |Run(rawUrl, kind, env).requests| == 2
    requires env.download.NotOk?
    ensures var t := Run(rawUrl, kind, env);
      t.outcome == Failed(DownloadFailed + DownloadFailed + env.download.statusText) &&
      Contains(t.outcome.message, env.download.statusText)
  {
    var t := Run(rawUrl, kind, env);
    EndsWithContains(t.outcome.message, env.download.statusText);
  }

  /**
   * A type other than the six known ones never gets to a file request; once
   * its page is fetched, the flow fails because no download URL was found.
   */
  lemma UnknownTypeNeverDownloads(rawUrl: string, kind: AssetKind, env: Environment)
    requires !kind.Sound? && !kind.IsPageType()
    ensures var t := Run(rawUrl, kind, env);
      t.outcome.Failed? && |t.requests| <= 1 &&
      (Validate(rawUrl, kind).Ok? && env.metadata.Fulfilled? ==>
        t.outcome == Failed(PageParseFailed(NoDownloadUrl)))
  {
    if Validate(rawUrl, kind).Ok? && env.metadata.Fulfilled? {
      UnknownTypeFails(kind, Trim(rawUrl), env.metadata.body, env.now);
    }
  }

  /**
   * A file the relay returns is always saved, but the flow succeeds only when
   * the trimmed URL and the type's string are Latin-1: otherwise `btoa`
   * throws while the download is being reported, and the flow shows
   * "Download failed: " with the error's message instead of starting the
   * timer.
   */
  lemma ReportFailsAfterSave(rawUrl: string, kind: AssetKind, env: Environment)
    requires |Run(rawUrl, kind, env).requests| == 2
    requires env.download.Fulfilled?
    ensures var t := Run(rawUrl, kind, env);
      !t.outcome.Failed? && t.outcome.file.contents == env.download.body &&
      (t.outcome.Saved? <==> StatsEncodable(Trim(rawUrl), kind)) &&
      (!t.outcome.Saved? ==> t.outcome.message == DownloadFailed + env.btoaError)
  {
    var url := Trim(rawUrl);
    var target := FetchTarget(url, kind).value;
    var page := env.metadata.body;
    if kind.Sound? {
      assert Run(rawUrl, kind, env).outcome == AfterPlan(XmlPlan(url, page).value, url, Sound, env).outcome;
    } else {
      assert Run(rawUrl, kind, env).outcome == AfterPlan(PagePlan(kind, target, page, env.now).value, url, kind, env).outcome;
    }
  }

  /**
   * A saved file holds the bytes the relay returned for the file request,
   * and its name ends with the suffix of its type: `.ogg`, `.png`,
   * `.rbxm` or `.rbxm.png`.
   */
  lemma SavedUnderTypeSuffix(rawUrl: string, kind: AssetKind, env: Environment)
    requires !Run(rawUrl, kind, env).outcome.Failed?
    ensures kind.Sound? || kind.IsPageType()
    ensures var f := Run(rawUrl, kind, env).outcome.file;
      env.download == Fulfilled(f.contents) && EndsWith(f.name, TypeSuffix(kind)) && |TypeSuffix(kind)| >= 4
  {
    var url := Trim(rawUrl);
    var target := FetchTarget(url, kind).value;
    var page := env.metadata.body;
    if !kind.Sound? {
      PlanFileName(kind, target, page, env.now);
    }
  }

  // ---------------------------------------------------------------------
  // the page's handlers
  // ---------------------------------------------------------------------

  /**
   * The state the handlers share: the submit button (`disabled`, its text,
   * and whether the loading message hides it), the stored original URL, the
   * error message on show, the requests sent so far, the files saved so far
   * and whether the 1500 ms timer that ends a successful flow is pending.
   */
  class Downloader {
    var disabled: bool
    var buttonText: string
    var loading: bool
    var originalUrl: string
    var error: Option<string>
    var requests: seq<Request>
    var saved: seq<SavedFile>
    var timerPending: bool

    /** Idle: the button is shown, enabled and reads "Download Asset"; nothing is pending. */
    ghost predicate Settled()
      reads this
    {
      !disabled && buttonText == IdleLabel && !loading && !timerPending
    }

    /** A flow is running: the button is disabled and hidden behind the loading message. */
    ghost predicate Busy()
      reads this
    {
      disabled && buttonText == WorkingLabel && loading && !timerPending && error == None
    }

    /** A file was saved and the timer that re-enables the button is pending. */
    ghost predicate Finishing()
      reads this
    {
      disabled && buttonText == WorkingLabel && loading && timerPending && error == None
    }

    /** The state at the end of the synchronous part of a flow that ends with `o`. */
    ghost predicate Ended(o: Outcome, before: seq<SavedFile>)
      reads this
    {
      match o
      case Failed(m) => error == Some(m) && Settled() && saved == before
      case Saved(f) => Finishing() && saved == before + [f]
      case SavedThenFailed(f, m) => error == Some(m) && Settled() && saved == before + [f]
    }

    constructor ()
      ensures Settled() && error == None && requests == [] && saved == [] && originalUrl == ""
    {
      disabled, buttonText, loading := false, IdleLabel, false;
      originalUrl, error := "", None;
      requests, saved, timerPending := [], [], false;
    }

    /** `enableSubmitButton`. */
    method EnableSubmitButton()
      modifies this`disabled, this`buttonText
      ensures !disabled && buttonText == IdleLabel
    {
      disabled := false;
      buttonText := IdleLabel;
    }

    /** `showError`. */
    method ShowError(message: string)
      modifies this`error
      ensures error == Some(message)
    {
      error := Some(message);
    }

    /** `showLoadMsg`: the loading message replaces the button. */
    method ShowLoadMsg()
      modifies this`loading
      ensures loading
    {
      loading := true;
    }

    /** `hideLoadMsg`: the button comes back in place of the loading message. */
    method HideLoadMsg()
      modifies this`loading
      ensures !loading
    {
      loading := false;
    }

    /**
     * The part of `processOptions` before any request: store the trimmed URL,
     * clear the error, disable the button, run the checks and, when they
     * pass, show the loading message. Returns the trimmed URL when it passed.
     */
    method Begin(rawUrl: string, kind: AssetKind) returns (accepted: Option<string>)
      requires Settled()
      modifies this
      ensures originalUrl == Trim(rawUrl) && requests == old(requests) && saved == old(saved)
      ensures match Validate(rawUrl, kind)
        case Err(m) => accepted == None && error == Some(m) && Settled()
        case Ok(url) => accepted == Some(url) && Busy()
    {
      var assetUrl := Trim(rawUrl);
      originalUrl := assetUrl;
      error := None;
      disabled := true;
      buttonText := WorkingLabel;
      match Validate(rawUrl, kind)
      case Err(m) =>
        ShowError(m);
        EnableSubmitButton();
        return None;
      case Ok(_) =>
      ShowLoadMsg();
      return Some(assetUrl);
    }

    /** `processOptions`, with the invalid sound URL path corrected to hide the loading message. */
    method ProcessOptions(rawUrl: string, kind: AssetKind, env: Environment)
      requires Settled()
      modifies this
      ensures var t := Run(rawUrl, kind, env);
        originalUrl == Trim(rawUrl) && requests == old(requests) + t.requests && Ended(t.outcome, old(saved))
    {
      var accepted := Begin(rawUrl, kind);
      if accepted.None? {
        InvalidInputSendsNothing(rawUrl, kind, env);
        return;
      }
      var assetUrl := accepted.value;
      if kind.Sound? {
        match SoundInfoUrl(assetUrl)
        case Err(m) =>
          RunWithoutTarget(rawUrl, kind, env, assetUrl, InvalidSoundUrl + m);
          RejectSoundUrl(InvalidSoundUrl + m);
        case Ok(target) =>
          RunFetches(rawUrl, kind, env, assetUrl, target);
          FetchContents(target, kind, env);
      } else {
        RunFetches(rawUrl, kind, env, assetUrl, assetUrl);
        FetchContents(assetUrl, kind, env);
      }
    }

    /**
     * `processOptions` as the source has it: when a sound URL has no asset
     * ID, the error is shown and the button enabled, but the loading message
     * shown by `Begin` stays up and the button stays hidden.
     */
    method ProcessOptionsAsWritten(rawUrl: string, kind: AssetKind, env: Environment)
      requires Settled()
      modifies this
      ensures var t := Run(rawUrl, kind, env);
        originalUrl == Trim(rawUrl) && requests == old(requests) + t.requests
      ensures var t := Run(rawUrl, kind, env);
        if Validate(rawUrl, kind).Ok? && kind.Sound? && !Truthy(Segment(Trim(rawUrl), 4))
        then error == Some(t.outcome.message) && !disabled && buttonText == IdleLabel && loading && !timerPending &&
          saved == old(saved)
        else Ended(t.outcome, old(saved))
    {
      var accepted := Begin(rawUrl, kind);
      if accepted.None? {
        InvalidInputSendsNothing(rawUrl, kind, env);
        return;
      }
      var assetUrl := accepted.value;
      if kind.Sound? {
        match SoundInfoUrl(assetUrl)
        case Err(m) =>
          RunWithoutTarget(rawUrl, kind, env, assetUrl, InvalidSoundUrl + m);
          RejectSoundUrlAsWritten(InvalidSoundUrl + m);
        case Ok(target) =>
          RunFetches(rawUrl, kind, env, assetUrl, target);
          FetchContents(target, kind, env);
      } else {
        RunFetches(rawUrl, kind, env, assetUrl, assetUrl);
        FetchContents(assetUrl, kind, env);
      }
    }

    /** The catch block of `processOptions` as written: the loading message is left up. */
    method RejectSoundUrlAsWritten(message: string)
      requires Busy()
      modifies this
      ensures error == Some(message) && !disabled && buttonText == IdleLabel && loading && !timerPending
      ensures originalUrl == old(originalUrl) && requests == old(requests) && saved == old(saved)
    {
      ShowError(message);
      EnableSubmitButton();
    }

    /** The catch block of `processOptions`, hiding the loading message as every other failure does. */
    method RejectSoundUrl(message: string)
      requires Busy()
      modifies this
      ensures error == Some(message) && Settled()
      ensures originalUrl == old(originalUrl) && requests == old(requests) && saved == old(saved)
    {
      ShowError(message);
      HideLoadMsg();
      EnableSubmitButton();
    }

    /** `fetchContents`: request the document of `url`, then parse it or report the failure. */
    method FetchContents(url: string, kind: AssetKind, env: Environment)
      requires Busy()
      modifies this
      ensures var t := AfterFetch(url, kind, old(originalUrl), env);
        originalUrl == old(originalUrl) &&
        requests == old(requests) + [MetadataRequest(url)] + t.requests &&
        Ended(t.outcome, old(saved))
    {
      requests := requests + [MetadataRequest(url)];
      match env.metadata
      case NotOk(status) =>
        ShowError(FetchFailed + NetworkError + status);
        HideLoadMsg();
        EnableSubmitButton();
      case Rejected(reason) =>
        ShowError(FetchFailed + reason);
        HideLoadMsg();
        EnableSubmitButton();
      case Fulfilled(page) =>
        if kind.Sound? {
          ParseXml(page, env);
        } else {
          ParseHtml(page, kind, url, env);
        }
    }

    /** `parseXML`: the `<Content>` text is the download URL; the name comes from the stored URL. */
    method ParseXml(page: Page, env: Environment)
      requires Busy()
      modifies this
      ensures var t := AfterSoundXml(old(originalUrl), page, env);
        originalUrl == old(originalUrl) && requests == old(requests) + t.requests && Ended(t.outcome, old(saved))
    {
      match page.content
      case None =>
        ShowError(SoundParseFailed);
        HideLoadMsg();
        EnableSubmitButton();
      case Some(downloadUrl) =>
        var fileName := DefaultSoundName;
        var title := Segment(originalUrl, 5);
        if Truthy(title) {
          fileName := Sanitize(title.value) + ".ogg";
        }
        DownloadAsset(downloadUrl, fileName, Sound, env);
    }

    /** `parseHTML`: decide the download URL and file name, then download or report the error. */
    method ParseHtml(page: Page, kind: AssetKind, pageUrl: string, env: Environment)
      requires Busy()
      modifies this
      ensures var t := AfterPage(kind, pageUrl, old(originalUrl), page, env);
        originalUrl == old(originalUrl) && requests == old(requests) + t.requests && Ended(t.outcome, old(saved))
    {
      var plan := ResolvePageDownload(page, kind, pageUrl, env.now);
      match plan
      case Err(m) =>
        PageRejected(kind, pageUrl, originalUrl, page, env, m);
        ShowError(PageParseFailed(m));
        HideLoadMsg();
        EnableSubmitButton();
      case Ok(p) =>
        PageAccepted(kind, pageUrl, originalUrl, page, env, p);
        DownloadAsset(p.downloadUrl, p.fileName, kind, env);
    }

    /**
     * `downloadAsset`: request the file; on success save it and start the
     * timer that re-enables the button, otherwise report the failure.
     */
    method DownloadAsset(url: string, fileName: string, kind: AssetKind, env: Environment)
      requires Busy()
      modifies this
      ensures var t := AfterPlan(Plan(url, fileName), old(originalUrl), kind, env);
        originalUrl == old(originalUrl) && requests == old(requests) + t.requests && Ended(t.outcome, old(saved))
    {
      requests := requests + [DownloadRequest(url)];
      match env.download
      case NotOk(status) =>
        ShowError(DownloadFailed + DownloadFailed + status);
        HideLoadMsg();
        EnableSubmitButton();
      case Rejected(reason) =>
        ShowError(DownloadFailed + reason);
        HideLoadMsg();
        EnableSubmitButton();
      case Fulfilled(bytes) =>
        saved := saved + [SavedFile(fileName, bytes)];
        if StatsEncodable(originalUrl, kind) {
          timerPending := true;
        } else {
          ShowError(DownloadFailed + env.btoaError);
          HideLoadMsg();
          EnableSubmitButton();
        }
    }

    /** The 1500 ms timer set by `downloadAsset` fires: hide the loading message, enable the button. */
    method FireTimer()
      requires Finishing()
      modifies this`loading, this`disabled, this`buttonText, this`timerPending
      ensures Settled()
    {
      HideLoadMsg();
      EnableSubmitButton();
      timerPending := false;
    }

    /**
     * A click on the submit button, followed by everything it sets off,
     * timer included, with the invalid sound URL path corrected as in
     * `ProcessOptions`. Whatever the input and whatever the relay answers,
     * the button ends shown and enabled, with the stored URL trimmed, the
     * flow's error on show or none, and its file saved if one came back.
     */
    method Click(rawUrl: string, kind: AssetKind, env: Environment)
      requires Settled()
      modifies this
      ensures Settled()
      ensures var t := Run(rawUrl, kind, env);
        originalUrl == Trim(rawUrl) &&
        requests == old(requests) + t.requests &&
        error == (if t.outcome.Saved? then None else Some(t.outcome.message)) &&
        saved == old(saved) + (if t.outcome.Failed? then [] else [t.outcome.file])
    {
      ProcessOptions(rawUrl, kind, env);
      if timerPending {
        FireTimer();
      }
    }

    /**
     * A click handled by `processOptions` as written, followed by everything
     * it sets off, timer included. The button always ends enabled, but a
     * sound URL without an asset ID leaves it hidden behind the loading
     * message, with no timer left to bring it back.
     */
    method ClickAsWritten(rawUrl: string, kind: AssetKind, env: Environment)
      requires Settled()
      modifies this
      ensures !disabled && buttonText == IdleLabel && !timerPending
      ensures var t := Run(rawUrl, kind, env);
        originalUrl == Trim(rawUrl) &&
        requests == old(requests) + t.requests &&
        error == (if t.outcome.Saved? then None else Some(t.outcome.message)) &&
        saved == old(saved) + (if t.outcome.Failed? then [] else [t.outcome.file])
      ensures loading <==> Validate(rawUrl, kind).Ok? && kind.Sound? && !Truthy(Segment(Trim(rawUrl), 4))
    {
      ProcessOptionsAsWritten(rawUrl, kind, env);
      if timerPending {
        FireTimer();
      }
    }
  }

  /** A sound library URL cut short before the asset ID. */
  const LibraryUrl := "https://www.roblox.com/library"

  /** That URL passes every check of `processOptions`... */
  lemma LibraryUrlAccepted()
    ensures Validate(LibraryUrl, Sound) == Ok(LibraryUrl)
  {
    assert OccursAt(LibraryUrl, RobloxHost, 12);
    HostUrlAccepted(LibraryUrl, 12, Sound);
  }

  /** A URL without surrounding whitespace that contains `roblox.com` is accepted for a selected type. */
  lemma HostUrlAccepted(url: string, i: nat, kind: AssetKind)
    requires OccursAt(url, RobloxHost, i)
    requires !IsJsWhitespace(url[0]) && !IsJsWhitespace(url[|url| - 1])
    requires !kind.Placeholder?
    ensures Validate(url, kind) == Ok(url)
  {
    TrimOfPadded(url, 0, url);
  }

  /** The pieces of that URL between its slashes. */
  const LibraryParts: seq<string> := ["https:", "", "www.roblox.com", "library"]

  lemma LibraryPartsJoin()
    ensures Join(LibraryParts, '/') == LibraryUrl
  {
    assert LibraryParts[1..][1..][1..] == ["library"];
  }

  lemma LibraryPartsPlain()
    ensures forall i :: 0 <= i < |LibraryParts| ==> '/' !in LibraryParts[i]
  {
    assert '/' !in "https:";
    assert '/' !in "www.roblox.com";
    assert '/' !in "library";
  }

  /** ...yet it has only four segments, so no segment 4. */
  lemma LibraryUrlHasNoId()
    ensures Split(LibraryUrl, '/') == LibraryParts
    ensures Segment(LibraryUrl, 4) == None
  {
    LibraryPartsJoin();
    LibraryPartsPlain();
    SplitJoin(LibraryParts, '/');
  }

  /**
   * As written, a sound URL that passes the checks but has no segment 4
   * leaves the button enabled but hidden behind the loading message, so it
   * cannot be clicked again.
   */
  method SoundUrlWithoutIdHidesButton(env: Environment) returns (enabled: bool, shown: bool, pending: bool)
    ensures enabled && !shown && !pending
  {
    LibraryUrlAccepted();
    LibraryUrlHasNoId();
    var d := new Downloader();
    d.ClickAsWritten(LibraryUrl, Sound, env);
    enabled, shown, pending := !d.disabled, !d.loading, d.timerPending;
  }
}
