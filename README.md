# Generation history and image editor, modelled in Dafny

The application lets a user upload an image, type a prompt and get a
restyled image back from a remote generative-image service. This project
models the two parts of it that hold logic:

- the **generation history** of `App.tsx`: a most-recent-first list of
  records capped at 15 (`MAX_HISTORY_ITEMS`) and persisted in the storage
  slot `'nexus-future-history'`. It has three operations. Load (the mount
  effect) reads the slot and keeps at most 15 records, removing a corrupt
  value. Append (`handleNewGeneration`) thumbnails both images, prepends the
  slimmed record, cuts to the cap and writes best-effort. Clear
  (`handleClearHistory`) empties the list and removes the slot. Also
  modelled: the thumbnail size rule of `resizeImage` and the outcome of
  that promise;
- the **editor** of `components/ImageEditor.tsx`: the chosen file, prompt,
  data URL, error line, loading flag and generated image. Its handlers are
  file selection, the file reader's completion, prompt editing and
  generation, and the generate button is enabled by a condition on that
  state.

Files:

- `outcome.dfy` (module `Outcome`): `Option` and `Result`.
- `thumbnailer.dfy` (module `Thumbnailer`): `Resize`, the size rule over the
  reals, and `ResizeImage`, the settled thumbnail promise.
- `history.dfy` (module `History`):
  - `Store` pairs the in-memory history with the slot's content;
  - `LoadStep`, `AppendStep` and `ClearStep` are the three operations as
    functions, with lemmas stating their properties;
  - class `HistoryStore` has fields `history` and `slot` and performs the
    operations in place. Each method is proved to produce exactly the state
    its step function gives.
- `editor.dfy` (module `Editor`):
  - `EditorState` and the step functions `SelectStep`, `ReadStep`,
    `PromptStep`, `StartStep` and `CompleteStep`, with lemmas about them;
  - class `ImageEditor`, whose fields are the component's state variables.
    Its methods are proved against the step functions.

Generation is split at the await. `Generate` runs `handleGenerate` up to the
remote call and returns the request it sends. `Complete` runs the rest once
the call has settled, and returns the record handed to `onGenerate`, if any.
The request holds the prompt, file and data URL captured at the click, so a
prompt edited while the call is in flight does not leak into the record.

File selection is split the same way. `SelectFile` takes the file and starts
the read; `ReaderDone` is the reader's `onloadend`, which sets the data URL
to the reader's result, null when the read failed. Between the two, the
data URL is still the previous file's (or null). A click in that window is
accepted and sends the new file, but the record it hands over carries the
previous data URL (`Editor.ClickBeforeReadEnds`). After a failed read the
record carries a null original image (`Editor.ClickAfterFailedRead`), and
`handleNewGeneration` then drops it (`Editor.FailedReadRecordDropped`).

Inputs from the outside world become parameters:

- the thumbnailer, as a function from an image source to its settled
  promise (`Resizer`, yielding `Result<Thumbnail, ThumbError>`);
- whether `setItem` and `removeItem` succeed (`writeOk`, `removeOk`);
- the parsed slot content (`Slot`: absent, empty string, a record list, or a
  value on which `JSON.parse` or `slice` throws);
- the remote call's outcome (`Remote`);
- the file reader's result (`Option<string>`, none for a failed read);
- the clock-derived `id` and `timestamp`;
- the image decoder's outcome, canvas-context availability and the encoded
  JPEG.

Three details of the code that the model keeps:

- `resizeImage` tests `width > height` strictly, so a square image takes the
  height branch.
- A stored empty string is falsy in the load effect. It is skipped and not
  removed (`Slot.Blank`).
- Load does not set the history when the slot is absent, empty or corrupt.
  The history keeps its value, which is empty at mount.

## Model

| member | source | states |
|---|---|---|
| `Thumbnailer.Resize` | App.tsx:22-34 | never scales up; keeps the aspect ratio; the dominant side (a square counts as tall) ends within its bound and stays dominant; an oversized dominant side lands exactly on its bound; a fitting image is unchanged |
| `Thumbnailer.Scaled` | App.tsx:26-27 | the minor side scaled by `max / dominant` shrinks, keeps its proportion to the dominant side and stays below the bound |
| `Thumbnailer.ResizeImage` | App.tsx:16-47 | resolves exactly when the image loads and a 2D context exists; otherwise rejects with the matching error; a resolved thumbnail is the encoded JPEG, fits 256 x 256, is no larger than the image and keeps its proportions |
| `History.Truncate` | App.tsx:91 | `slice(0, 15)` is the prefix of length min(15, n) |
| `History.Prepend` | App.tsx:89-91 | the new record is at index 0; length is min(15, n + 1); the older records follow in order, only the oldest dropped when full |
| `History.Slim` | App.tsx:83-87 | the stored record keeps `id`, `prompt` and `timestamp`; each image is replaced by its own thumbnail |
| `History.StepsKeepBound` | App.tsx:56-116 | load, append and clear keep the history within 15 records, whatever the outcomes of the browser services |
| `History.LoadOutcomes` | App.tsx:56-73 | absent or empty slot: nothing changes; a record list: history becomes its first min(15, n) records, slot kept; corrupt: history unchanged, slot removed when the removal succeeds and left when it fails |
| `History.AppendPrependsSlimmed` | App.tsx:78-91 | a successful append puts the slimmed record at the head: same id, prompt and timestamp, and each image the thumbnail of that same image of the given record; older records follow in order; length min(15, n + 1) |
| `History.AppendAbandonedOnThumbnailFailure` | App.tsx:76-101 | if either thumbnail is rejected, history and slot are unchanged |
| `History.NullOriginalNeverStored` | App.tsx:78-81 | a record whose original image is null is never stored, whatever the thumbnailer: history and slot are unchanged |
| `History.AppendPersistence` | App.tsx:89-98 | a successful write leaves the slot holding exactly the new history; a failed write leaves the slot as it was and yields the same history as a successful one |
| `History.ClearIdempotent` | App.tsx:109-116 | clear empties the history and removes the slot when removal succeeds; clearing twice equals clearing once |
| `History.ReloadRestoresHistory` | App.tsx:58-62 | a slot holding the (bounded) history loads back into exactly that history at the next start |
| `History.AppendKeepsSynced` | App.tsx:92-93 | appends whose writes succeed (and abandoned appends) keep the slot equal to the history |
| `History.ReloadAfterClear` | App.tsx:109-112 | after a clear whose removal succeeded, the next start loads an empty history |
| `History.PrependAllNewestFirst` | App.tsx:89-91 | any run of successful appends yields the appended records newest first, then the old history, cut to 15 |
| `History.FullAfterEnoughAppends` | App.tsx:14 | from empty, 15 or more appends leave exactly the last 15 records, newest first |
| `History.SixteenAppends` | App.tsx:89-91 | from empty, 16 appends of distinct records leave 15, the 16th at the head and the 1st gone |
| `History.HistoryStore.constructor` | App.tsx:52 | on mount the history is empty beside the existing slot |
| `History.HistoryStore.Load` | App.tsx:56-73 | performs `LoadStep` in place and keeps the history within the cap |
| `History.HistoryStore.Append` | App.tsx:75-101 | performs `AppendStep` in place and keeps the history within the cap |
| `History.HistoryStore.Clear` | App.tsx:109-116 | performs `ClearStep` in place and keeps the history within the cap |
| `Editor.StepsKeepConsistent` | components/ImageEditor.tsx:27-76 | every handler, including the reader's completion, keeps "no generated image while loading" |
| `Editor.SelectOutcomes` | components/ImageEditor.tsx:27-36 | no file: no change; a file over 4 MB: the size error, file unchanged; otherwise the file is taken and the error cleared, while the data URL keeps its previous value |
| `Editor.ClickBeforeReadEnds` | components/ImageEditor.tsx:35-41 | a click after a new file is accepted but before its read ends sends the new file, and the record handed over on success carries the previous data URL |
| `Editor.ClickAfterFailedRead` | components/ImageEditor.tsx:38-40 | after a failed read the file stays chosen, a click is accepted, and the record handed over on success has a null original image |
| `Editor.FailedReadRecordDropped` | components/ImageEditor.tsx:62-69 | the record handed over after a failed read is dropped by the history's append: history and slot are unchanged |
| `Editor.RefusedClick` | components/ImageEditor.tsx:50-53 | a click is refused exactly when no file is chosen or the prompt is empty; then only the missing-input error is set and nothing is sent |
| `Editor.EnabledExactlyWhenAccepted` | components/ImageEditor.tsx:139 | the button is enabled exactly when not loading and a click would be accepted |
| `Editor.GenerateRound` | components/ImageEditor.tsx:49-77 | an accepted click sends the prompt and file; when the call settles the loading flag is down; success shows the URL and hands one record (the click's prompt, data URL as shown at the click, result URL) to `onGenerate`; failure shows the message, hands nothing over and shows no generated image |
| `Editor.ErrorMessageShown` | components/ImageEditor.tsx:73 | an `Error`'s message is shown verbatim, anything else as 'An unknown error occurred.' |
| `Editor.ImageEditor.constructor` | components/ImageEditor.tsx:17-22 | the initial state: nothing chosen, empty prompt, not loading, no error |
| `Editor.ImageEditor.SelectFile` | components/ImageEditor.tsx:27-41 | performs `SelectStep` in place and keeps the state consistent |
| `Editor.ImageEditor.ReaderDone` | components/ImageEditor.tsx:38-40 | performs `ReadStep` in place: the data URL becomes the reader's result |
| `Editor.ImageEditor.SetPrompt` | components/ImageEditor.tsx:112 | performs `PromptStep` in place |
| `Editor.ImageEditor.Generate` | components/ImageEditor.tsx:49-57 | performs `StartStep` in place and returns the request it sends, if any |
| `Editor.ImageEditor.Complete` | components/ImageEditor.tsx:58-76 | performs `CompleteStep` in place and returns the record handed to `onGenerate`, if any |

## Left out

- Image decoding, canvas drawing and JPEG encoding are browser services. Their outcomes are inputs of `ResizeImage`. The size rule is stated over the reals, so floating-point rounding and the canvas's integer truncation of its dimensions are not modelled.
- `Promise.all` runs the two thumbnails concurrently. The model takes their two settled results as independent inputs; the order in which they settle does not matter to the code.
- `JSON.stringify`/`JSON.parse` and the storage quota are abstract. A successful write stores the history itself. A stored JSON value that parses and has a `slice` method but is not an array of records (a JSON string, an array of other values) is not distinguished; the model knows only the four `Slot` kinds.
- `localStorage.getItem` throwing (storage disabled) is not modelled; `Load` starts from the slot's content.
- The remote generation call is not part of this model. Neither is the `FileReader` itself: its result is the parameter of `ReaderDone`. Reads of two files chosen in quick succession may end in either order; the model lets `ReaderDone` happen at any time with any result, so it does not tie a result to the file it was read from.
- The thumbnailer is a function of its source, so two equal sources get the same outcome; the browser might decode the same data URL differently on two attempts, and the model does not capture that. A null source is taken to fail to load (`img.src = null` requests the relative URL "null").
- `id` and `timestamp` come from the clock (`new Date()`) and are parameters of `Complete`.
- `setHistory` applies its updater to the state current when the thumbnails resolve, not when the append was called. The model applies `AppendStep` to the state at the time of the call to `Append`.
- The switch to the history view on narrow screens (`window.innerWidth < 1024`), the image modal, `console.error` logging and all JSX are presentation and are not modelled. So are the components `AboutPage`, `HistoryPanel`, `MobileNav`, `ImageModal`, `Header` and `Footer`.
