# Online Python IDE editor session, modelled in Dafny

This project models the session logic of the `CodeEditor` React component of the online
Python IDE (`src/CodeEditor.jsx`). The session holds the program text (`code`), the program's
standard input (`input`), the last run's `output`, `error` and `errorLine`, the theme flag
`isDarkTheme`, and one persisted local-storage entry named `"code"` that the component writes
whenever `code` changes.

The model has a pure layer and an imperative layer, with two helper modules:

- `SessionState` (session.dfy) gives the session as a value, `Session`, with one pure transition
  per handler: editing the code, editing the input, applying a run completion (a server response
  or a transport failure), toggling the theme, importing a file (or no file) and resetting. It also
  has the initial-load fallback, the run payload and the downloaded file. `Replay` applies a
  sequence of events in the order given. For run and upload completions that order is the order
  in which they complete. The lemmas state the write-through invariant, idempotence of reset,
  the involution of the theme toggle, the fixed failure result, the round trip between download
  and upload (and the byte-order mark that upload drops), the completion-order race between overlapping runs, and what a page reload restores.
- `Component` (component.dfy) gives the component as a class `CodeEditor` whose fields are the
  state hooks and the storage entry. Each handler method sets the fields one at a time, as the
  source's setters do. Each is proved to have exactly the effect of the matching `SessionState`
  transition and to keep `Valid()`, the invariant that the stored entry equals `code`.
- `ErrorView` (error_view.dfy) gives the error block's rendering rule. The block appears only for
  a non-empty `error`, and the `Line N: ` prefix appears only for a truthy `errorLine`. The
  `SplitLabel` function reads a prefixed label back. Lemmas prove that it recovers the line number
  and the error text, and that it accepts nothing but such labels.
- `Decimal` (decimal.dfy) renders an integer the way a JavaScript template literal does for
  magnitudes below 2^53. It proves that reading the digits back gives the number, and that a
  digit string without a leading zero is the rendering of its value.
- `Wrappers` (wrappers.dfy) holds `Option`, which stands for JavaScript's `null` or a value.

In these details the model follows the code:

- An empty stored entry also falls back to the template, because the code uses `||`.
- `error` starts as `""` and reset sets it back to `""`. A run response can set it to `null`, so it
  is an `Option<string>` here. Both `""` and `null` hide the error block.
- `errorLine` is passed through as any integer. A `0` line number is falsy and gets no prefix.
- Reset writes the storage entry explicitly. When the code changes, the persistence effect then
  writes the same value again. The model writes it once.

## Model

| member | source | states |
|---|---|---|
| `Decimal.ShowNat` | src/CodeEditor.jsx:198 | a line number below 2^53 renders as a non-empty string of decimal digits with no leading zero unless the number is 0 |
| `Decimal.ShowInt` | src/CodeEditor.jsx:198 | below 2^53 in magnitude, a negative line number renders with a leading minus sign before its digits, a non-negative one as digits only |
| `Decimal.DigitsValueOfShowNat` | src/CodeEditor.jsx:198 | reading the rendered digits of n back gives n, so the rendering is faithful to the number |
| `ErrorView.ErrorBlock` | src/CodeEditor.jsx:194-200 | the error block is rendered if and only if `error` is a non-empty string; its text always ends with the error text; it is exactly the error text when `errorLine` is null or 0, and it starts with `Line ` otherwise |
| `Decimal.ShowNatOfDigitsValue` | src/CodeEditor.jsx:198 | a digit string without a leading zero is exactly the rendering of the number it denotes, so the rendering is the only one of its value |
| `ErrorView.SplitLabelOfErrorBlock` | src/CodeEditor.jsx:198 | with a truthy `errorLine`, the label can be read back into exactly that line number and the error text |
| `ErrorView.SplitLabelOnlyOfPrefix` | src/CodeEditor.jsx:198 | conversely, any string read as a label is exactly the `Line N: ` prefix of a truthy line number followed by the text |
| `ErrorView.ErrorAtLineThree` | src/CodeEditor.jsx:198 | an error reported at line 3 is shown as `Line 3: ` followed by the error text |
| `SessionState.InitialCode` | src/CodeEditor.jsx:8-11 | the loaded document is never empty: it is the stored text when that is present and non-empty, and the `print("Hello, world!")` template otherwise |
| `SessionState.Initial` | src/CodeEditor.jsx:11-21 | after mount, input, output and error are empty, the error line is null, the theme is dark, and storage holds the loaded code |
| `SessionState.OnEdit` | src/CodeEditor.jsx:106 | an editor change sets the code to the new text and writes it through to storage; every other field is unchanged |
| `SessionState.OnInputEdit` | src/CodeEditor.jsx:118 | an input change sets only the input; code, result, theme and storage are unchanged |
| `SessionState.OnRunComplete` | src/CodeEditor.jsx:30-37 | a completion replaces output, error and error line together with the outcome's result (the response fields, or `""`, the connection message and null); code, input, theme and storage are unchanged |
| `SessionState.OnToggleTheme` | src/CodeEditor.jsx:40 | the toggle flips the theme and changes nothing else |
| `SessionState.OnUpload` | src/CodeEditor.jsx:52-61 | with no file the session is unchanged; with a file the code becomes its text verbatim and is written through; output, error and error line never change |
| `SessionState.OnReset` | src/CodeEditor.jsx:63-69 | reset restores the template, stores it, and clears output, error and error line whatever the prior state; input and theme are kept |
| `SessionState.Request` | src/CodeEditor.jsx:25-28 | a run posts the session's current code and input |
| `SessionState.Export` | src/CodeEditor.jsx:42-50 | a download saves a `code.py` file labelled `text/x-python` whose content is the code verbatim |
| `SessionState.StepKeepsPersisted` | src/CodeEditor.jsx:19-21 | every handler keeps the stored entry equal to the code |
| `SessionState.SlotOnlyWrittenWithCode` | src/CodeEditor.jsx:19-21 | run completions, input edits and theme toggles leave both the code and the stored entry alone |
| `SessionState.FailureIgnoresPriorState` | src/CodeEditor.jsx:33-37 | a failed run shows `""`, `Error connecting to server.` and no line, whatever was shown before |
| `SessionState.ResetIdempotent` | src/CodeEditor.jsx:63-69 | resetting twice is the same as resetting once |
| `SessionState.ToggleInvolution` | src/CodeEditor.jsx:40 | toggling the theme twice restores the original session |
| `SessionState.ReadAsText` | src/CodeEditor.jsx:43-60 | reading back a file that was written from some text gives that text, except that one leading byte-order mark (U+FEFF) is dropped |
| `SessionState.UploadOfExportIsNoOp` | src/CodeEditor.jsx:42-61 | uploading the file just downloaded leaves a persisted session unchanged when the code does not start with a byte-order mark |
| `SessionState.ImportOfExport` | src/CodeEditor.jsx:42-61 | importing the download of any text that does not start with a byte-order mark reproduces it exactly, the empty text and non-ASCII text included |
| `SessionState.ExportDropsByteOrderMark` | src/CodeEditor.jsx:42-61 | a document starting with a byte-order mark comes back without it after a download and re-upload, in both the code and the stored entry |
| `SessionState.ReplayKeepsPersisted` | src/CodeEditor.jsx:19-21 | after any sequence of handler events the stored entry equals the code |
| `SessionState.LastCompletionWins` | src/CodeEditor.jsx:23-37 | the shown result is that of the last run to complete, unless a reset follows it, whichever request was sent first |
| `SessionState.StaleResponseShown` | src/CodeEditor.jsx:23-37 | the two-completion case of the race: when the second request's response arrives before the first's, the first request's result is the one shown |
| `SessionState.ThemeAfterReplay` | src/CodeEditor.jsx:40 | after any sequence of events the theme equals the starting theme exactly when the number of toggles is even |
| `SessionState.ReloadRestoresCode` | src/CodeEditor.jsx:11-21 | reloading the page after any session brings back the code, except that an empty document comes back as the template |
| `Component.CodeEditor.constructor` | src/CodeEditor.jsx:11-21 | mounting the component yields the initial session, with storage equal to the loaded code |
| `Component.CodeEditor.SetCode` | src/CodeEditor.jsx:106 | the editor's change handler followed by the persistence effect has exactly the effect of `OnEdit` and keeps storage equal to the code |
| `Component.CodeEditor.SetInput` | src/CodeEditor.jsx:118 | the input's change handler has exactly the effect of `OnInputEdit` |
| `Component.CodeEditor.RunRequestOf` | src/CodeEditor.jsx:25-28 | the payload handed to the execution endpoint is `Request` of the current session: its code and input |
| `Component.CodeEditor.HandleRun` | src/CodeEditor.jsx:23-38 | applying a run's outcome field by field has exactly the effect of `OnRunComplete` and keeps storage equal to the code |
| `Component.CodeEditor.ToggleTheme` | src/CodeEditor.jsx:40 | the toggle has exactly the effect of `OnToggleTheme` |
| `Component.CodeEditor.HandleDownload` | src/CodeEditor.jsx:42-50 | the downloaded file is `Export` of the current session: `code.py`, labelled `text/x-python`, holding the code |
| `Component.CodeEditor.HandleUpload` | src/CodeEditor.jsx:52-61 | the upload handler has exactly the effect of `OnUpload`: nothing without a file, otherwise the file's text becomes the code and is stored |
| `Component.CodeEditor.HandleReset` | src/CodeEditor.jsx:63-69 | the reset handler has exactly the effect of `OnReset` and keeps storage equal to the code |

## Left out

- The HTTP POST to the remote execution endpoint (src/CodeEditor.jsx:25-28) is network I/O. Its ending is a `RunOutcome` parameter, either the response fields or `Failure`. All transport failures are the one `Failure` case.
- The browser's `localStorage` API is modelled as the field `slot`. Storage that refuses writes is not modelled, so every write succeeds.
- The stored entry is shared by every open tab of the site; the model has a single session writing it, so the write-through invariant (`ReplayKeepsPersisted`) and `ReloadRestoresCode` hold for one open tab. With two tabs, an edit in one makes the other's stored entry differ from its code, and reloading the other brings back the first tab's document.
- The `FileReader` asynchrony (src/CodeEditor.jsx:56-60) is reduced to the text it produces, or to no file.
- The Blob, object-URL and anchor-click mechanics of the download (src/CodeEditor.jsx:42-50) are browser I/O. Only the resulting file (name, type, content) is modelled, and what reading it back as text yields (`ReadAsText`).
- Overlapping run and upload completions are atomic events, applied in whatever order they are given. The interleaving itself, and React's render and effect scheduling, are not modelled. Each handler's effect, including the persistence effect, is applied at once.
- JSX layout, inline styles, CodeMirror and the theme objects (src/CodeEditor.jsx:71-205) are UI. Only the error block's text rule (src/CodeEditor.jsx:194-200) is modelled.
- Response fields of an unexpected JSON type are not modelled: a missing or `null` `output`; an `error` that is a number (a `0` would render a stray "0") or an object (which makes the render throw); a non-integer `line_number` such as `3.5` or `NaN`. Output is a string, the error a string or null, and the line number an integer or null.
- Decimal.ShowNat: renders every natural number as its exact digits. A line number is a JavaScript double: above 2^53 JavaScript prints the shortest digits that identify the double, padded with zeros (2^60 prints as `1152921504606847000`), from 10^21 on it prints exponent form (`1e+21`), and JSON parsing already rounds integers above 2^53. Line numbers are taken as exact integers below 2^53.
- Decimal.ShowInt: has the same bound on the magnitude of a line number, negative or not.
- Strings are sequences of Unicode scalar values. A JavaScript string can also hold a lone surrogate, which the download's UTF-8 encoding would replace with U+FFFD; that case is not modelled.
