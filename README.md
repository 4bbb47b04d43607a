# Image editor front end — a Dafny model

The editor is a single React component (`frontend354/src/App.tsx`). The user
uploads one image, switches on any of seven ImageMagick operations (resize,
crop, rotate, flip, quality, brightness-contrast, format) with their
parameters, and asks the backend to apply them. The component then fetches
the processed image as a preview and can save it to disk.

This project models two parts of that component:

- **Building the operation list** (`operations.dfy`, module `Operations`).
  The seven toggles and the thirteen parameter fields form a `Config`. The
  list posted to the backend is `BuildOperations(c)`, a pure function, with
  one entry per enabled toggle in the fixed panel order. `CollectOperations`
  is the handler's own sequence of conditional pushes, proved equal to it.
  The lemmas characterise the list completely: it is sound, complete and
  ordered, and only that list has all three properties. They also give its
  length and say when it is empty. Clicking a toggle is `Toggled`: the clicks
  commute, a second click undoes the first, and each click adds or removes
  exactly its own entry.
- **The session state machine** (`frontend.dfy`, module `Frontend`, class
  `App`). The class has the component's state as fields: selected file,
  local preview, processed preview, status message and severity, processing
  flag, and operation panel. The handlers are methods.
  - Each asynchronous handler is one atomic step. What the network answered
    is passed in as an outcome value, and the requests the handler would
    send are returned.
  - Object URLs are handles drawn from a counter. The set `live` holds the
    handles not yet revoked.
  - The preview `useEffect` is the method `RunPreviewEffect`. Its pending
    cleanup is the field `previewCleanup`.
  - `Valid()` is preserved by every handler. It says that every URL the
    component references is live and that the two previews never share a
    handle.
- **Status texts** (`decimal.dfy`, `frontend.dfy`). JavaScript renders
  integers in decimal, as `DecimalString`. The timestamped download name and
  the "Server responded with …" error both carry their numbers recoverably,
  which round-trip lemmas state.
- **Sessions** (`scenarios.dfy`, module `Scenarios`). These replay whole
  interactions from a freshly mounted component through the handlers:
  - a successful resize;
  - a rejected apply;
  - an empty panel;
  - re-selecting a file;
  - a download;
  - Start Over.

Two behaviours of the code are worth noting:

- `handleImageSelected` (App.tsx:48) and `resetAll` (App.tsx:137) set
  `processedImage` to null without revoking it, so its object URL stays live
  (`ReselectKeepsOldPreviewLive`).
- `resetAll` clears the message but not the severity (`ResetKeepsSeverity`).

## Model

| member | source | states |
|---|---|---|
| Operations.CollectOperations | frontend354/src/App.tsx:88-95 | the seven conditional pushes produce exactly `BuildOperations` of the panel |
| Operations.BuildOperationsSpec | frontend354/src/App.tsx:88-95 | every entry belongs to an enabled toggle and carries that toggle's parameters; every enabled toggle has its entry; the entries follow the fixed panel order |
| Operations.BuildOperationsCharacterised | frontend354/src/App.tsx:88-95 | a list equals the built list if and only if it is sound, complete and ordered for the panel |
| Operations.OrderedSameEntries | frontend354/src/App.tsx:88-95 | two strictly ordered lists with the same entries are equal, so the order fixes the list |
| Operations.CollectSound | frontend354/src/App.tsx:88-95 | each entry pushed by the first n steps comes from an enabled toggle among the first n, with its parameters |
| Operations.CollectComplete | frontend354/src/App.tsx:88-95 | every enabled toggle among the first n steps has its entry in the list |
| Operations.CollectOrdered | frontend354/src/App.tsx:88-95 | the first n steps push entries in strictly increasing panel order |
| Operations.CollectLengthFirstFour | frontend354/src/App.tsx:89-92 | the first four steps push one entry per enabled toggle among resize, crop, rotate and flip |
| Operations.BuildOperationsLength | frontend354/src/App.tsx:88-95 | the list has one entry per enabled toggle, so at most seven |
| Operations.BuildOperationsEmpty | frontend354/src/App.tsx:88-96 | the list is empty exactly when no toggle is on, the case the handler rejects |
| Operations.CollectCongruent | frontend354/src/App.tsx:88-95 | two panels with the same enabled toggles and the same per-toggle operations build the same list |
| Operations.OperationFor | frontend354/src/App.tsx:89-95 | the entry built for a toggle is of that toggle's kind |
| Operations.KindAt | frontend354/src/App.tsx:89-95 | the step at position r of the push sequence is the toggle whose rank is r |
| Operations.KindAtRank | frontend354/src/App.tsx:89-95 | each toggle sits at its own rank in the push sequence |
| Operations.Toggled | frontend354/src/App.tsx:165-225 | a header click flips its own toggle only and leaves every parameter alone |
| Operations.ToggleTwice | frontend354/src/App.tsx:165-225 | clicking the same header twice restores the panel |
| Operations.ToggleOrderIrrelevant | frontend354/src/App.tsx:165-225 | the built list does not depend on the order of two header clicks |
| Operations.ToggleAddsOrRemoves | frontend354/src/App.tsx:165-225 | a click adds its toggle's entry if it was off and removes it if it was on, and no other toggle's entry changes |
| Operations.SingleToggle | frontend354/src/App.tsx:88-95 | from an all-off panel, switching one toggle on makes a list of exactly that one entry |
| Decimal.DecimalString | frontend354/src/App.tsx:111 | a number renders as non-empty digits with no leading zero, one digit exactly below ten |
| Decimal.ParseDecimalRoundTrip | frontend354/src/App.tsx:111 | reading a rendered number back gives the number |
| Decimal.DecimalStringInjective | frontend354/src/App.tsx:128 | different numbers render differently |
| Decimal.DigitRun | frontend354/src/App.tsx:111 | the leading digit run of a text is all digits and stops at the first non-digit |
| Decimal.DigitRunOfNumeral | frontend354/src/App.tsx:111 | a rendered number followed by ": " is read up to its last digit and no further |
| Frontend.DownloadFileNameRoundTrip | frontend354/src/App.tsx:128 | the timestamp is recoverable from the download file name |
| Frontend.StatusAndBodyRoundTrip | frontend354/src/App.tsx:111 | a status code followed by ": " and the body reads back as that code and body |
| Frontend.StripPrefixOfConcat | frontend354/src/App.tsx:111-116 | stripping a prefix from text that starts with it leaves the rest |
| Frontend.ServerErrorRoundTrip | frontend354/src/App.tsx:109-116 | the status text of a rejected apply gives back the server's status code and body text exactly |
| Frontend.App.constructor | frontend354/src/App.tsx:7-32 | the component mounts with no file, no previews, an empty info status, processing off, every toggle off at the default parameters, and no live URL |
| Frontend.App.SetStatus | frontend354/src/App.tsx:42-45 | the message and severity become the given ones |
| Frontend.App.CreateObjectUrl | frontend354/src/App.tsx:37 | a URL never handed out before becomes live |
| Frontend.App.RevokeObjectUrl | frontend354/src/App.tsx:39 | the URL stops being live |
| Frontend.App.RunPreviewEffect | frontend354/src/App.tsx:35-41 | the previous run's URL is revoked; if a file is selected, a fresh URL becomes its preview and the next cleanup's target; without a file the preview is left as it was |
| Frontend.App.HandleImageSelected | frontend354/src/App.tsx:46-67 | the file is selected and uploaded; the processed preview is dropped without being revoked; processing ends off; success shows the server's message (or "undefined") with " Ready to apply operations.", failure shows "Error: " and the server's message, "Upload failed", or the thrown error |
| Frontend.App.FetchProcessedImagePreview | frontend354/src/App.tsx:68-86 | on success the old processed URL is revoked and exactly one fresh URL replaces it, with the success status; on failure nothing but the status changes, and the status names the code and body or the thrown error |
| Frontend.App.HandleApply | frontend354/src/App.tsx:87-120 | an empty list sends nothing and changes only the status; otherwise the built list is posted; the preview is fetched only if the server accepts; processing ends off; the processed preview changes only when both calls succeed; a failed apply reports "Error: " and its reason |
| Frontend.App.HandleDownload | frontend354/src/App.tsx:121-133 | without a processed preview only an error status is set; otherwise that URL is saved under the timestamped name and "Download started." is shown |
| Frontend.App.ResetAll | frontend354/src/App.tsx:134-139 | file, both previews and message are cleared; severity, processing flag, panel and live URLs are untouched |
| Frontend.App.ToggleOperation | frontend354/src/App.tsx:165-225 | the panel becomes `Toggled` of the old panel |
| Frontend.App.EditParameters | frontend354/src/App.tsx:169-229 | the parameters become the edited ones and the toggles are unchanged |
| Scenarios.UploadThenResize | frontend354/src/App.tsx:46-120 | upload "Uploaded.", resize 800 by 600 and apply: the status reads "Uploaded. Ready to apply operations.", exactly `[resize 800x600]` is posted and then the preview fetched, and the success status is shown with a preview |
| Scenarios.ServerRejectsApply | frontend354/src/App.tsx:87-120 | a 500 "decode error" after an applied rotate shows "Error: Server responded with 500: decode error" as an error, keeps the earlier preview and ends with processing off |
| Scenarios.NothingSelected | frontend354/src/App.tsx:96-99 | with no toggle on, nothing is sent and "Please select at least one operation to apply." is shown as an error |
| Scenarios.ReselectKeepsOldPreviewLive | frontend354/src/App.tsx:46-49 | after re-selecting a file the old processed URL is no longer shown or downloadable but is still live |
| Scenarios.DownloadAfterApply | frontend354/src/App.tsx:121-133 | a download at time 42 saves under "processed_image_42" and shows "Download started." |
| Scenarios.ResetKeepsSeverity | frontend354/src/App.tsx:134-139 | an upload accepted without a message shows "undefined Ready to apply operations."; Start Over after a rejected upload clears what is shown but the severity stays error |

## Left out

- The network. Upload, apply and download are not performed. Each handler takes the response as an outcome value (status and body, or a thrown error) and returns the requests it would send. The URLs, `credentials: 'include'`, the form data and the headers are not modelled.
- Reply bodies that are not JSON. At App.tsx:59 (upload) and App.tsx:113 (apply), `response.json()` throws on a body that is not JSON. Such a reply is passed as `UploadThrew` or `ApplyThrew` carrying the parser's error. `UploadReplied` and a 2xx `ApplyReplied` stand for bodies that parse. The model does not parse bodies itself.
- The JSON body. `JSON.stringify` of the list is not modelled. An entry's `type` field is `Tag`, and the other fields are the constructor's arguments.
- `Number(...)`. The text inputs are turned into numbers by `Number`, which is floating point and can give `NaN`. The model holds the numeric parameters as `real` values that are already converted.
- Floating-point rendering of numbers other than HTTP status codes and timestamps, which are natural numbers here.
- Asynchronous interleaving. Each handler runs to completion as one step. A handler running while another is awaiting, and React's stale closure over `processedImage`, are not modelled.
- The `disabled` attribute on the Apply and Download buttons (App.tsx:234, 237). The methods can be called in any state.
- React's dependency check for the effect. The effect re-runs only when `selectedImage` changes identity. Here the caller invokes `RunPreviewEffect` after each change of selection. The cleanup on unmount is not modelled.
- `Date.now()` is the parameter `now` of `HandleDownload`.
- The anchor element that the download creates, clicks and removes. The result is a `SavedFile` value.
- A `message` field that is not a string, and thrown values that are not `Error` objects.
- The JSX rendering, CSS and the upload widget. `frontend354/src/ImageUploadComponent.tsx` is not part of this model.
