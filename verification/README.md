# imageDrop client core in Dafny

A functional model of the logic inside the imageDrop web client's three
interactive components:

- **Image uploader** (`uploader.dfy`, module `Uploader`). The component's four
  React hooks (`file`, `previewUrl`, `uploadProgress`, `isUploading`) are one
  immutable `State`. Picking or dropping a file, removing the selection,
  pressing "Upload Image", an interval tick and the completion timeout are
  discrete events. Object URLs are abstract tokens from a counter. The state
  also keeps the set of tokens not yet revoked and the set handed to the
  parent through `onImageUploaded`. `Step` dispatches an event only when the
  rendered component can deliver it:
  - the drop zone and file input exist only while there is no preview;
  - the remove button exists only while there is a preview;
  - the upload button is disabled without a file or while uploading;
  - the timers run only while armed.
- **Initials** (`initials.dfy`, module `Initials`). The `getInitials` helper
  that the gallery and the account menu each carry an identical copy of. It
  is modelled once, with JavaScript `split(' ')` semantics and ASCII
  upper-casing. It is related to an independent character-scan definition
  (`WordStarts`) and to a single-pass method (`ScanInitials`).
- **Gallery** (`gallery.dfy`, module `Gallery`). The empty-state card or
  one card per image, in input order, keyed by id.
- **Account area** (`auth.dfy`, module `Auth`). The loading/user/anonymous
  render branch, and the login and sign-up dialog flags with their cross
  links and success callbacks.
- `types.dfy` (module `Types`). The optional wrapper standing for
  `null`/`undefined`, JavaScript truthiness for strings, image URLs, and the
  `ImageData` record.

Parameters instead of effects: files arrive as event arguments. Toasts and
the parent callback are returned as `Effect` values. The user and the
loading flag of the identity hook are arguments of `Auth.Render`.

## Model

| member | source | states |
|---|---|---|
| Uploader.SelectFile | src/components/image-uploader.tsx:24-37 | No file: nothing changes. A file over 5 MiB: state unchanged, only the destructive "File too large" toast. Otherwise: the file is taken; the old preview is revoked; a never-before-created preview URL becomes current; nothing else changes. |
| Uploader.SizeGate | src/components/image-uploader.tsx:27-30 | An oversized picked file leaves the state exactly as it was. A dropped file of exactly 5 MiB is accepted, because the comparison is strict. |
| Uploader.PickAndDropAgree | src/components/image-uploader.tsx:92-106 | Dropping a file is the same transition as picking it. |
| Uploader.ClearSelection | src/components/image-uploader.tsx:39-48 | The current preview is revoked and file and preview become null. Progress, busy flag, armed timer and handed-off URLs are untouched. |
| Uploader.HandleUpload | src/components/image-uploader.tsx:50-54 | Without both a file and a preview it is a no-op. Otherwise the session is busy at progress 0 and the timer captures the current preview. |
| Uploader.PressOnlyWhenEnabled | src/components/image-uploader.tsx:159 | A press on the disabled button (no file, or an upload running) changes nothing. An enabled press starts the upload at 0 with the preview captured. |
| Uploader.NextProgress | src/components/image-uploader.tsx:56-62 | null becomes 10, 90 or more becomes 95, and other values gain 10. On the counter's reachable values (multiples of ten up to 90, and 95) it stays reachable and never decreases. |
| Uploader.ProgressAfterTicks | src/components/image-uploader.tsx:56-62 | From 0, after n ticks the counter reads 10·n for n ≤ 9 and 95 from the tenth tick on. |
| Uploader.TicksMonotone | src/components/image-uploader.tsx:56-62 | Along any run of ticks the counter stays within its reachable values and never decreases. |
| Uploader.Tick | src/components/image-uploader.tsx:56-62 | An interval tick changes only the progress. Progress is always set afterwards, and a reachable value stays reachable and does not decrease. |
| Uploader.Complete | src/components/image-uploader.tsx:64-88 | Exactly one `onImageUploaded`, whose url is the preview captured at the press, userName "You" and the fixed avatar URL, plus the success toast. Afterwards file, preview and progress are null, busy is false, the timer is disarmed, no URL is revoked, and the reported URL is recorded as handed off. |
| Uploader.InitialAccounted | src/components/image-uploader.tsx:18-21 | The session at its initial hook values (no file, no preview, no progress, not busy, no URL created) meets the well-formedness invariant and the URL bookkeeping. |
| Uploader.Step | src/components/image-uploader.tsx:114-159 | The rendered guards. Pick and drop do nothing while a preview is shown, because the drop zone and its input are rendered only without a preview. Removal does nothing without a preview. With a preview, removal nulls the preview even during an upload, because the remove button has no `disabled`; the upload stays busy with its timer armed. A press on the disabled button does nothing. Tick and completion do nothing unless the timer is armed, and completion always clears the busy flag. |
| Uploader.StepKeepsWellFormed | src/components/image-uploader.tsx:108-163 | Every event the rendered component can deliver preserves the invariant: file and preview are set together; busy, armed timer and visible progress bar coincide; the progress value is reachable; the file passes the gate; every token was created. An event reports an upload exactly when it fires the armed timer, and reports the captured preview. Firing during an upload always clears the busy flag, so it is never left set. |
| Uploader.RunKeepsWellFormed | src/components/image-uploader.tsx:16-106 | Any sequence of events from a well-formed session keeps it well formed. In particular the busy flag is set exactly while a timer is armed. |
| Uploader.UploadCycle | src/components/image-uploader.tsx:50-88 | Press, then k ticks, then completion. During the upload the counter reads TickN(0, k). Afterwards the session is empty and idle, exactly one upload of the pressed preview was reported, and no URL was revoked. |
| Uploader.ClearDuringUploadLeaks | src/components/image-uploader.tsx:138-145 | As written, the remove button stays enabled during an upload. Pick, press, remove, pick another, fire: the parent is handed a revoked URL, and the second preview's URL stays live while it is neither shown nor handed off. |
| Uploader.GuardedStep | src/components/image-uploader.tsx:138-159 | The corrected component: removal is ignored while an upload runs, as the upload button at line 159 already is. Otherwise it is the component as written. While uploading, the preview stays until completion. |
| Uploader.GuardedStepKeepsUrlsAccounted | src/components/image-uploader.tsx:31-87 | With removal disabled while uploading, every event keeps the URL bookkeeping: the live URLs are exactly the preview plus the handed-off ones. |
| Uploader.GuardedRunKeepsUrlsAccounted | src/components/image-uploader.tsx:77-81 | With removal disabled while uploading, over any event sequence no URL leaks and no URL handed to the parent is ever revoked. |
| Initials.GetInitials | src/components/image-gallery.tsx:13-18 | A null, undefined or empty name gives "U". Every result has at most two characters. The account menu's copy at src/components/auth-buttons.tsx:37-42 is identical and is this same function, used by `Auth.Menu`. |
| Initials.InitialsAreWordStarts | src/components/image-gallery.tsx:15-17 | For a non-empty name the result is the upper-cased first characters of its space-separated words, in order, cut to two. This is stated against a character scan that is independent of split/map/join. |
| Initials.FirstCharsOfSplit | src/components/image-gallery.tsx:15-16 | Taking the first character of each split piece, with empty pieces contributing nothing, equals the word-start scan. |
| Initials.JoinSplit | src/components/image-gallery.tsx:15 | The split pieces joined by the separator give the name back, so no character is lost or invented. |
| Initials.SpacesGiveNoInitials | src/components/image-gallery.tsx:14-16 | A name made only of spaces is truthy, so it does not get "U", and it yields the empty string. |
| Initials.SingleWord | src/components/image-gallery.tsx:15-17 | A single non-empty word yields exactly one character, its upper-cased first letter. |
| Initials.AdaLovelace | src/components/image-gallery.tsx:15-17 | "ada lovelace" gives "AL". |
| Initials.ScanInitials | src/components/image-gallery.tsx:15-17 | An equivalent formulation, not code from the component: a one-pass scan that stops after two initials returns the same result as the helper on every input. |
| Gallery.CardFor | src/components/image-gallery.tsx:31-53 | A card is keyed by the image id and shows the image url. Its alt text is "Image uploaded by " followed by the uploader name, which is also its caption. Its avatar fallback has at most two characters. |
| Gallery.Cards | src/components/image-gallery.tsx:30-58 | One card per image, in input order, each built from its own image. |
| Gallery.View | src/components/image-gallery.tsx:24-60 | The empty-state card shows exactly when there are no images. Otherwise the grid has one card per image, keyed by its id and showing its url. |
| Gallery.KeysAreIds | src/components/image-gallery.tsx:30-31 | The grid's key sequence is the image id sequence. |
| Auth.OpenSignup | src/components/auth-buttons.tsx:44-47 | Afterwards the sign-up dialog is open and the login dialog is closed. |
| Auth.OpenLogin | src/components/auth-buttons.tsx:49-52 | Afterwards the login dialog is open and the sign-up dialog is closed. |
| Auth.LoginSucceeded | src/components/auth-buttons.tsx:97 | A login success closes the login dialog and leaves the sign-up dialog as it was. |
| Auth.SignupSucceeded | src/components/auth-buttons.tsx:106 | A sign-up success closes the sign-up dialog and leaves the login dialog as it was. |
| Auth.Apply | src/components/auth-buttons.tsx:90-109 | Each dialog's own open change sets only its flag. No event except a trigger opening one dialog while the other is open leaves both open. |
| Auth.NeverBothOpen | src/components/auth-buttons.tsx:90-109 | From at most one open dialog, the cross links, success callbacks and open/close changes never leave both open. The only exception is a trigger that opens one dialog while the other is already open. |
| Auth.Render | src/components/auth-buttons.tsx:54-110 | Loading gives the skeleton whatever the user. Otherwise a present user gives the account menu, and no user gives the login/sign-up buttons with the current dialog flags. Exactly one branch applies. |
| Auth.Menu | src/components/auth-buttons.tsx:63-87 | The avatar alt text is the display name, or "User" when it is null or empty. The fallback initials come from the display name. The avatar image is present only for a non-empty photo URL. |
| Auth.LoadingHidesUser | src/components/auth-buttons.tsx:54-61 | While loading, the output depends neither on the user nor on the dialogs. |
| Auth.AnonymousAvatar | src/components/auth-buttons.tsx:69-70 | A user without a display name gets alt text "User" and initials "U". A one-word name gives its upper-cased first letter. |

## Findings

| source | as written | input that shows it | evidently intended | confidence | as-written member | corrected member |
|---|---|---|---|---|---|---|
| src/components/image-uploader.tsx:138-145 | The preview's remove button is not disabled while an upload runs. Removing revokes the preview the pending timeout has captured, and the completion later nulls whatever preview is current without revoking it. | Pick f, press Upload, remove the preview, pick g, let the timeout fire. The parent receives f's already revoked URL (a broken gallery image), and g's URL is never revoked. | Removal is blocked during an upload, as the upload button already is (line 159). Then every live URL is the preview or one handed to the parent, and handed-off URLs stay live. | medium; not executed | Uploader.ClearDuringUploadLeaks | Uploader.GuardedRunKeepsUrlsAccounted |

`Uploader.GuardedStep` is `Uploader.Step` with removal ignored while an upload
runs. Every other uploader property above holds for the component as written.
The upload cycle contains no removal, so it holds for both.

## Left out

- Auth.Menu: the alt text falls back to "User" for an empty display name as well as a null one, because the code uses `||`.
- Uploader.HandleUpload: requires that no upload is running. Its only caller is the upload button, which is disabled while busy, so a second armed timer is not modelled.
- Uploader.Complete: the progress value 100 set at the start of the timeout callback is overwritten by null in the same callback, so it is not a separate state.
- Real timer timing and interleaving: the 100 ms interval and the 1500 ms timeout are the discrete `TickEvent` and `Fire` events.
- MIME-type filtering: the file input's `accept` attribute is a picker hint only. Neither the picker nor the drop path checks the type, and the model accepts any type on both.
- Unicode `toUpperCase` and UTF-16 code units in `getInitials`: the model upper-cases ASCII only, and treats one `char` as one code unit.
- Formatting: the relative time of each card (`formatDistanceToNow`) and the size display in megabytes (`toFixed(2)`).
- Clearing the hidden file input's `value` and toast styling: these are DOM side effects with no state in the model.
- Logging out (`handleLogout`, `signOut`): a call into the identity provider.
- `src/lib/firebase.ts` and the login and sign-up forms: SDK setup and thin wrappers over identity-provider calls.
- `main-app.tsx`: its gate repeats the account area's three-way branch, it renders the gallery without its required `images` prop, and its uploader is commented out.
- `header.tsx` and `page.tsx`: layout only.
- Remote storage, document writes and feed merging: the shown uploader only simulates an upload with a timer and writes to no store, and no feed merge exists in these components.
