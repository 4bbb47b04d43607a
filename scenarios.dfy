/**
 * Whole sessions driven through the editor's handlers, each ending in the
 * state its run of outcomes determines.
 */
module Scenarios {
  import opened Wrappers
  import opened Decimal
  import opened Operations
  import opened Frontend

  /** The status text an upload accepted with the message "Uploaded." shows. */
  lemma UploadedText()
    ensures "Uploaded." + ReadySuffix == "Uploaded. Ready to apply operations."
  {
  }

  /** The reason given for an apply the server rejects with status 500 and body "decode error". */
  lemma RejectedReason()
    ensures ApplyFailureReason(ApplyReplied(500, "decode error")) == ServerRespondedPrefix + "500: decode error"
  {
    assert DecimalString(500) == "500";
  }

  /** The status text of an upload accepted without a message. */
  lemma MissingMessageText()
    ensures JsText(None) + ReadySuffix == "undefined Ready to apply operations."
  {
  }

  /** The name a download at time 42 is saved under. */
  lemma FileNameText()
    ensures DownloadFileName(42) == "processed_image_42"
  {
    assert DecimalString(42) == "42";
  }

  /**
   * A freshly mounted editor after `file` was uploaded and accepted and the
   * preview effect ran: nothing processed yet, every toggle off.
   */
  method UploadedSession(file: File) returns (app: App)
    ensures fresh(app) && app.Valid()
    ensures app.selectedImage == Some(file) && app.imagePreview.Some? && app.processedImage == None
    ensures app.config == DefaultConfig && !app.isProcessing
    ensures app.statusMessage == "Uploaded. Ready to apply operations." && app.statusType == Info
  {
    UploadedText();
    app := new App();
    var upload := app.HandleImageSelected(file, UploadReplied(200, Some("Uploaded.")));
    app.RunPreviewEffect();
  }

  /**
   * A PNG is uploaded, Resize is switched on at 800 by 600, and Apply & Preview
   * succeeds: exactly one resize is posted, then the preview is fetched.
   */
  method UploadThenResize() returns (uploadStatus: string, sent: seq<Request>, finalStatus: string, hasPreview: bool)
    ensures uploadStatus == "Uploaded. Ready to apply operations."
    ensures sent == [PostApply([Resize(800.0, 600.0)]), GetDownload]
    ensures finalStatus == "Operations applied successfully. Preview updated."
    ensures hasPreview
  {
    var app := UploadedSession(File("photo.png"));
    uploadStatus := app.statusMessage;
    var p := DefaultConfig.params.(resizeWidth := 800.0, resizeHeight := 600.0);
    app.EditParameters(p);
    SingleToggle(app.config, ResizeOp);
    app.ToggleOperation(ResizeOp);
    sent := app.HandleApply(ApplyReplied(200, "{}"), DownloadReplied(200, ""));
    finalStatus := app.statusMessage;
    hasPreview := app.processedImage.Some?;
  }

  /**
   * After one successful apply, the server rejects the next with status 500:
   * the status names the code and the body, and the earlier preview stays.
   */
  method ServerRejectsApply() returns (status: string, kind: StatusType, previewKept: bool, busy: bool)
    ensures status == ErrorPrefix + ServerRespondedPrefix + "500: decode error"
    ensures kind == Error && previewKept && !busy
  {
    var app := UploadedSession(File("photo.png"));
    SingleToggle(app.config, RotateOp);
    app.ToggleOperation(RotateOp);
    var first := app.HandleApply(ApplyReplied(200, "{}"), DownloadReplied(200, ""));
    var before := app.processedImage;
    var second := app.HandleApply(ApplyReplied(500, "decode error"), DownloadReplied(200, ""));
    RejectedReason();
    status, kind, busy := app.statusMessage, app.statusType, app.isProcessing;
    previewKept := before.Some? && app.processedImage == before;
  }

  /** Apply & Preview with every toggle off sends nothing and reports the error. */
  method NothingSelected() returns (sent: seq<Request>, status: string, kind: StatusType)
    ensures sent == [] && status == "Please select at least one operation to apply." && kind == Error
  {
    var app := UploadedSession(File("photo.png"));
    BuildOperationsEmpty(app.config);
    sent := app.HandleApply(ApplyReplied(200, "{}"), DownloadReplied(200, ""));
    status, kind := app.statusMessage, app.statusType;
  }

  /**
   * A processed preview exists and another file is picked: the preview is no
   * longer shown and cannot be downloaded, yet its object URL is still live,
   * since nothing revokes it.
   */
  method ReselectKeepsOldPreviewLive() returns (stillLive: bool, stillShown: bool, canDownload: bool)
    ensures stillLive && !stillShown && !canDownload
  {
    var app := UploadedSession(File("a.png"));
    SingleToggle(app.config, FlipOp);
    app.ToggleOperation(FlipOp);
    var applied := app.HandleApply(ApplyReplied(200, "{}"), DownloadReplied(200, ""));
    var dropped := app.processedImage.value;
    var again := app.HandleImageSelected(File("b.png"), UploadReplied(200, Some("Uploaded.")));
    app.RunPreviewEffect();
    stillLive := dropped in app.live;
    stillShown := app.processedImage == Some(dropped);
    var saved := app.HandleDownload(1700000000000);
    canDownload := saved.Some?;
  }

  /** A download after a successful apply saves the processed preview under the timestamped name. */
  method DownloadAfterApply() returns (saved: Option<SavedFile>, status: string)
    ensures saved.Some? && saved.value.filename == "processed_image_42"
    ensures status == "Download started."
  {
    var app := UploadedSession(File("photo.png"));
    SingleToggle(app.config, QualityOp);
    app.ToggleOperation(QualityOp);
    var applied := app.HandleApply(ApplyReplied(200, "{}"), DownloadReplied(200, ""));
    saved := app.HandleDownload(42);
    FileNameText();
    status := app.statusMessage;
  }

  /**
   * An upload accepted without a message reports "undefined ..."; after a
   * rejected upload, Start Over clears what is shown but the severity stays Error.
   */
  method ResetKeepsSeverity() returns (missingMessage: string, kind: StatusType, cleared: bool)
    ensures missingMessage == "undefined Ready to apply operations."
    ensures kind == Error && cleared
  {
    var app := new App();
    var first := app.HandleImageSelected(File("photo.png"), UploadReplied(200, None));
    MissingMessageText();
    missingMessage := app.statusMessage;
    var second := app.HandleImageSelected(File("bad.tiff"), UploadReplied(415, None));
    app.ResetAll();
    kind := app.statusType;
    cleared := app.selectedImage.None? && app.imagePreview.None? && app.processedImage.None? && app.statusMessage == "";
  }
}
