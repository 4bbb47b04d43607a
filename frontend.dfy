/**
 * The editor component: the session state it keeps and the handlers that move
 * it from state to state. Each asynchronous handler is one atomic step whose
 * network results arrive as explicit outcome parameters; object URLs are
 * abstract handles drawn from a counter, with the set of those not yet revoked.
 */
module Frontend {
  import opened Wrappers
  import opened Decimal
  import opened Operations

  /** An object URL: a handle the browser hands out and may later revoke. */
  type Handle = nat

  /** A file the user picked; only its identity matters to the editor. */
  datatype File = File(name: string)

  /** Severity of the status bar. */
  datatype StatusType = Info | Error

  /**
   * Result of the upload request. `UploadThrew` covers a rejected request and a
   * body that is not JSON; otherwise the HTTP status and the body's `message`
   * field, which may be absent.
   */
  datatype UploadOutcome =
    | UploadThrew(error: string)
    | UploadReplied(status: nat, message: Option<string>)

  /**
   * Result of the apply request. `ApplyThrew` covers a rejected request and a
   * body that cannot be read (not JSON on success, no text on failure);
   * otherwise the HTTP status and the body text.
   */
  datatype ApplyOutcome =
    | ApplyThrew(error: string)
    | ApplyReplied(status: nat, body: string)

  /**
   * Result of the preview download. `DownloadThrew` covers a rejected request
   * and a body that cannot be read; otherwise the HTTP status and, for a
   * failure, the body text (the image bytes of a success stay opaque).
   */
  datatype DownloadOutcome =
    | DownloadThrew(error: string)
    | DownloadReplied(status: nat, body: string)

  /** A request the editor sends to the backend. */
  datatype Request = PostUpload(file: File) | PostApply(operations: seq<Operation>) | GetDownload

  /** A save-to-disk started from an object URL under a file name. */
  datatype SavedFile = SavedFile(url: Handle, filename: string)

  const ReadySuffix := " Ready to apply operations."
  const NoOperationsMessage := "Please select at least one operation to apply."
  const AppliedMessage := "Operations applied successfully. Preview updated."
  const NothingToDownloadMessage := "No processed image to download. Please apply operations first."
  const DownloadStartedMessage := "Download started."
  const DownloadPrefix := "processed_image_"
  const ErrorPrefix := "Error: "
  const ServerRespondedPrefix := "Server responded with "

  /** The `ok` flag of a fetch response: a status in the 2xx range. */
  predicate IsOk(status: nat) {
    200 <= status <= 299
  }

  predicate UploadSucceeded(o: UploadOutcome) {
    o.UploadReplied? && IsOk(o.status)
  }

  predicate ApplySucceeded(o: ApplyOutcome) {
    o.ApplyReplied? && IsOk(o.status)
  }

  predicate DownloadSucceeded(o: DownloadOutcome) {
    o.DownloadReplied? && IsOk(o.status)
  }

  /** A JavaScript value in string concatenation: an absent field reads "undefined". */
  function JsText(m: Option<string>): string {
    match m
    case Some(s) => s
    case None => "undefined"
  }

  /** JavaScript truthiness of an optional string: present and non-empty. */
  predicate Truthy(m: Option<string>) {
    m.Some? && m.value != ""
  }

  /** The message of the error the upload handler catches. */
  function UploadFailureReason(o: UploadOutcome): string {
    match o
    case UploadThrew(e) => e
    case UploadReplied(_, m) => if Truthy(m) then m.value else "Upload failed"
  }

  /** The message of the error the apply handler catches. */
  function ApplyFailureReason(o: ApplyOutcome): string {
    match o
    case ApplyThrew(e) => e
    case ApplyReplied(s, b) => ServerRespondedPrefix + (DecimalString(s) + (": " + b))
  }

  /** The message of the error the preview fetch catches. */
  function PreviewFailureReason(o: DownloadOutcome): string {
    match o
    case DownloadThrew(e) => e
    case DownloadReplied(s, b) => "Failed to fetch preview: " + DecimalString(s) + " " + b
  }

  /** The name a download is saved under: the prefix and the millisecond timestamp. */
  function DownloadFileName(now: nat): string {
    DownloadPrefix + DecimalString(now)
  }

  /** Reads the timestamp back out of a download file name. */
  function ParseDownloadFileName(name: string): Option<nat> {
    var n := |DownloadPrefix|;
    if |name| > n && name[..n] == DownloadPrefix && AllDigits(name[n..])
    then Some(ParseDecimal(name[n..]))
    else None
  }

  /** Reads a status code, a colon and a space, then the body text. */
  function ParseStatusAndBody(t: string): Option<(nat, string)> {
    var d := DigitRun(t);
    if d == 0 || |t| < d + 2 || t[d..d + 2] != ": " then None
    else Some((ParseDecimal(t[..d]), t[d + 2..]))
  }

  /** What follows `prefix` in `message`, if `message` starts with it. */
  function StripPrefix(prefix: string, message: string): Option<string> {
    if |message| < |prefix| || message[..|prefix|] != prefix then None
    else Some(message[|prefix|..])
  }

  /** Reads the HTTP status and body back out of a rejected-apply status message. */
  function ParseServerError(message: string): Option<(nat, string)> {
    match StripPrefix(ErrorPrefix, message)
    case None => None
    case Some(reason) =>
      match StripPrefix(ServerRespondedPrefix, reason)
      case None => None
      case Some(t) => ParseStatusAndBody(t)
  }

  /** The handles an optional handle stands for. */
  function HandleSet(h: Option<Handle>): set<Handle> {
    match h
    case Some(v) => {v}
    case None => {}
  }

  /** Download file names carry their timestamp, so two downloads at different times never share a name. */
  lemma DownloadFileNameRoundTrip(now: nat)
    ensures ParseDownloadFileName(DownloadFileName(now)) == Some(now)
  {
    var name := DownloadFileName(now);
    var n := |DownloadPrefix|;
    assert name[..n] == DownloadPrefix;
    assert name[n..] == DecimalString(now);
    ParseDecimalRoundTrip(now);
  }

  /** A status code written in decimal and followed by its body is read back exactly. */
  lemma StatusAndBodyRoundTrip(status: nat, body: string)
    ensures ParseStatusAndBody(DecimalString(status) + (": " + body)) == Some((status, body))
  {
    var digits := DecimalString(status);
    var t := digits + (": " + body);
    DigitRunOfNumeral(digits, ": " + body);
    assert t[..|digits|] == digits;
    assert t[|digits|..|digits| + 2] == ": ";
    assert t[|digits| + 2..] == body;
    ParseDecimalRoundTrip(status);
  }

  /** Stripping a prefix from a message that starts with it gives back the rest. */
  lemma StripPrefixOfConcat(prefix: string, t: string)
    ensures StripPrefix(prefix, prefix + t) == Some(t)
  {
    assert (prefix + t)[..|prefix|] == prefix;
    assert (prefix + t)[|prefix|..] == t;
  }

  /** A rejected apply reports the server's status code and body text, both recoverable from the message. */
  lemma ServerErrorRoundTrip(status: nat, body: string)
    ensures ParseServerError(ErrorPrefix + ApplyFailureReason(ApplyReplied(status, body))) == Some((status, body))
  {
    var t := DecimalString(status) + (": " + body);
    StripPrefixOfConcat(ErrorPrefix, ServerRespondedPrefix + t);
    StripPrefixOfConcat(ServerRespondedPrefix, t);
    StatusAndBodyRoundTrip(status, body);
  }

  /** The editor component's state and handlers. */
  class App {
    var selectedImage: Option<File>
    var imagePreview: Option<Handle>
    var processedImage: Option<Handle>
    var statusMessage: string
    var statusType: StatusType
    var isProcessing: bool
    var config: Config
    /** Object URLs created and not yet revoked. */
    var live: set<Handle>
    /** The handle the next object URL receives. */
    var nextHandle: Handle
    /** The object URL made by the last run of the preview effect, which its cleanup revokes. */
    var previewCleanup: Option<Handle>

    /**
     * Every handle in use is live; the original preview is the one the effect
     * made for the current file; the two previews never share a handle.
     */
    ghost predicate Valid()
      reads this
    {
      && (forall h :: h in live ==> h < nextHandle)
      && (processedImage.Some? ==> processedImage.value in live)
      && (previewCleanup.Some? ==> previewCleanup.value in live)
      && (imagePreview.Some? ==> imagePreview == previewCleanup)
      && (selectedImage.None? ==> imagePreview.None?)
      && (processedImage.Some? && previewCleanup.Some? ==> processedImage.value != previewCleanup.value)
    }

    /** The component as first mounted. */
    constructor ()
      ensures Valid()
      ensures selectedImage == None && imagePreview == None && processedImage == None
      ensures statusMessage == "" && statusType == Info && !isProcessing
      ensures config == DefaultConfig
      ensures live == {} && previewCleanup == None
    {
      selectedImage, imagePreview, processedImage := None, None, None;
      statusMessage, statusType, isProcessing := "", Info, false;
      config := DefaultConfig;
      live, nextHandle, previewCleanup := {}, 0, None;
    }

    /** Replaces the status bar's message and severity. */
    method SetStatus(message: string, kind: StatusType)
      modifies this`statusMessage, this`statusType
      ensures statusMessage == message && statusType == kind
    {
      statusMessage := message;
      statusType := kind;
    }

    /** Creates an object URL: a handle never handed out before, now live. */
    method CreateObjectUrl() returns (h: Handle)
      modifies this`live, this`nextHandle
      ensures h == old(nextHandle) && nextHandle == h + 1
      ensures live == old(live) + {h}
    {
      h := nextHandle;
      nextHandle := nextHandle + 1;
      live := live + {h};
    }

    /** Revokes an object URL. */
    method RevokeObjectUrl(h: Handle)
      modifies this`live
      ensures live == old(live) - {h}
    {
      live := live - {h};
    }

    /**
     * The preview effect, run after `selectedImage` changes: the cleanup of the
     * previous run revokes its URL, then a URL is made for the new file, if any.
     */
    method RunPreviewEffect()
      requires Valid()
      modifies this`imagePreview, this`previewCleanup, this`live, this`nextHandle
      ensures Valid()
      ensures selectedImage.Some? ==>
        && imagePreview == previewCleanup == Some(old(nextHandle))
        && live == old(live) - HandleSet(old(previewCleanup)) + {old(nextHandle)}
        && nextHandle == old(nextHandle) + 1
      ensures selectedImage.None? ==>
        && imagePreview == old(imagePreview) && previewCleanup == None
        && live == old(live) - HandleSet(old(previewCleanup))
        && nextHandle == old(nextHandle)
    {
      if previewCleanup.Some? {
        RevokeObjectUrl(previewCleanup.value);
      }
      previewCleanup := None;
      if selectedImage.Some? {
        var url := CreateObjectUrl();
        imagePreview := Some(url);
        previewCleanup := Some(url);
      }
    }

    /**
     * A file was picked: it becomes the selected image, the processed preview
     * is dropped, and the file is uploaded. Whatever the outcome, the handler
     * ends with processing off; the status reports the server's message or the
     * error. The dropped processed preview is not revoked.
     */
    method HandleImageSelected(file: File, outcome: UploadOutcome) returns (requests: seq<Request>)
      requires Valid()
      modifies this`selectedImage, this`processedImage, this`isProcessing, this`statusMessage, this`statusType
      ensures Valid()
      ensures requests == [PostUpload(file)]
      ensures selectedImage == Some(file) && processedImage == None && !isProcessing
      ensures UploadSucceeded(outcome) ==>
        statusMessage == JsText(outcome.message) + ReadySuffix && statusType == Info
      ensures !UploadSucceeded(outcome) ==>
        statusMessage == ErrorPrefix + UploadFailureReason(outcome) && statusType == Error
    {
      selectedImage := Some(file);
      processedImage := None;
      isProcessing := true;
      SetStatus("Uploading image...", Info);
      requests := [PostUpload(file)];
      if UploadSucceeded(outcome) {
        SetStatus(JsText(outcome.message) + ReadySuffix, Info);
      } else {
        SetStatus(ErrorPrefix + UploadFailureReason(outcome), Error);
      }
      isProcessing := false;
    }

    /**
     * Fetches the processed image. On success the previous processed preview,
     * if any, is revoked and a fresh URL replaces it; on failure the preview
     * stays as it was and the status reports the error.
     */
    method FetchProcessedImagePreview(download: DownloadOutcome) returns (requests: seq<Request>)
      requires Valid()
      modifies this`processedImage, this`live, this`nextHandle, this`statusMessage, this`statusType
      ensures Valid()
      ensures requests == [GetDownload]
      ensures DownloadSucceeded(download) ==>
        && processedImage == Some(old(nextHandle)) && nextHandle == old(nextHandle) + 1
        && live == old(live) - HandleSet(old(processedImage)) + {old(nextHandle)}
        && statusMessage == AppliedMessage && statusType == Info
      ensures !DownloadSucceeded(download) ==>
        && processedImage == old(processedImage) && nextHandle == old(nextHandle) && live == old(live)
        && statusMessage == "Error fetching preview: " + PreviewFailureReason(download) && statusType == Error
    {
      requests := [GetDownload];
      if DownloadSucceeded(download) {
        if processedImage.Some? {
          RevokeObjectUrl(processedImage.value);
        }
        var url := CreateObjectUrl();
        processedImage := Some(url);
        SetStatus(AppliedMessage, Info);
      } else {
        SetStatus("Error fetching preview: " + PreviewFailureReason(download), Error);
      }
    }

    /**
     * Apply & Preview. With no toggle on, only an error status is set and no
     * request is made. Otherwise the list is posted; only if the server accepts
     * it is the preview fetched. Processing is off after every exit that made a
     * request, and the processed preview changes only when both calls succeed.
     */
    method HandleApply(apply: ApplyOutcome, download: DownloadOutcome) returns (requests: seq<Request>)
      requires Valid()
      modifies this`processedImage, this`live, this`nextHandle, this`statusMessage, this`statusType, this`isProcessing
      ensures Valid()
      ensures BuildOperations(config) == [] ==>
        && requests == [] && statusMessage == NoOperationsMessage && statusType == Error
        && isProcessing == old(isProcessing) && processedImage == old(processedImage)
        && live == old(live) && nextHandle == old(nextHandle)
      ensures BuildOperations(config) != [] ==>
        && !isProcessing
        && requests == [PostApply(BuildOperations(config))] + (if ApplySucceeded(apply) then [GetDownload] else [])
      ensures BuildOperations(config) != [] && !ApplySucceeded(apply) ==>
        && statusMessage == ErrorPrefix + ApplyFailureReason(apply) && statusType == Error
        && processedImage == old(processedImage) && live == old(live) && nextHandle == old(nextHandle)
      ensures BuildOperations(config) != [] && ApplySucceeded(apply) && DownloadSucceeded(download) ==>
        && processedImage == Some(old(nextHandle)) && nextHandle == old(nextHandle) + 1
        && live == old(live) - HandleSet(old(processedImage)) + {old(nextHandle)}
        && statusMessage == AppliedMessage && statusType == Info
      ensures BuildOperations(config) != [] && ApplySucceeded(apply) && !DownloadSucceeded(download) ==>
        && processedImage == old(processedImage) && live == old(live) && nextHandle == old(nextHandle)
        && statusMessage == "Error fetching preview: " + PreviewFailureReason(download) && statusType == Error
    {
      var operations := CollectOperations(config);
      if |operations| == 0 {
        SetStatus(NoOperationsMessage, Error);
        requests := [];
        return;
      }
      isProcessing := true;
      SetStatus("Applying operations...", Info);
      requests := [PostApply(operations)];
      if ApplySucceeded(apply) {
        var more := FetchProcessedImagePreview(download);
        requests := requests + more;
      } else {
        SetStatus(ErrorPrefix + ApplyFailureReason(apply), Error);
      }
      isProcessing := false;
    }

    /**
     * Download Image: without a processed preview only an error status is set;
     * otherwise its URL is saved under a timestamped name. No request is made.
     */
    method HandleDownload(now: nat) returns (saved: Option<SavedFile>)
      requires Valid()
      modifies this`statusMessage, this`statusType
      ensures Valid()
      ensures processedImage.None? ==>
        saved == None && statusMessage == NothingToDownloadMessage && statusType == Error
      ensures processedImage.Some? ==>
        && saved == Some(SavedFile(processedImage.value, DownloadFileName(now)))
        && statusMessage == DownloadStartedMessage && statusType == Info
    {
      if processedImage.None? {
        SetStatus(NothingToDownloadMessage, Error);
        saved := None;
        return;
      }
      saved := Some(SavedFile(processedImage.value, DownloadFileName(now)));
      SetStatus(DownloadStartedMessage, Info);
    }

    /**
     * Start Over: clears the file, both previews and the status message. The
     * severity, the processing flag, the panel and the live URLs are left alone.
     */
    method ResetAll()
      requires Valid()
      modifies this`selectedImage, this`imagePreview, this`processedImage, this`statusMessage
      ensures Valid()
      ensures selectedImage == None && imagePreview == None && processedImage == None
      ensures statusMessage == ""
    {
      selectedImage := None;
      imagePreview := None;
      processedImage := None;
      statusMessage := "";
    }

    /** Clicking an operation header flips that toggle. */
    method ToggleOperation(k: Kind)
      requires Valid()
      modifies this`config
      ensures Valid()
      ensures config == Toggled(old(config), k)
    {
      config := Toggled(config, k);
    }

    /** Editing the parameter inputs changes the parameters and leaves the toggles alone. */
    method EditParameters(p: Parameters)
      requires Valid()
      modifies this`config
      ensures Valid()
      ensures config == Config(old(config).on, p)
    {
      config := config.(params := p);
    }
  }
}
