# Mermaid AI: a Dafny model of the editor's behaviour

Mermaid AI is a browser editor for mermaid diagram text. It renders the text
live and can ask a generative-text service to repair text that does not
parse. Most of the application is glue around three outside collaborators:
the mermaid engine, the Gemini API and the browser's local storage. This
project models the three parts of it that have behaviour of their own:

- **The repair client** (`services/geminiService.ts`, module `GeminiService`,
  file `gemini_service.dfy`). The service call is a function parameter
  `generate: Request -> Reply`. A reply may lack text, and the call may fail.
  The clean-up of the reply is modelled exactly. It strips a leading
  "```mermaid" (any letter case) with its whitespace, then a bare leading
  "```" with its whitespace, then a "```" that is the last three characters,
  then trims. Every failure of the call becomes one error with the message
  "Failed to fix code via AI".
- **The preview pane** (`components/Preview.tsx`, module `PreviewPane`, file
  `preview.dfy`). It is a class whose fields are the pane's state: the
  markup on screen, the zoom factor, the settled text, and a generation
  counter. `BeginRender` is one run of the render effect and `FinishRender`
  is the completion of its asynchronous part, with the engine's outcome
  passed in. The per-run `isMounted` flag becomes "the attempt's generation
  is the current one". Every later effect run or unmount starts a new
  generation. The zoom factor is kept in integer tenths, 5 to 30.
- **The application shell** (`App.tsx`, module `AppShell`, file
  `app_shell.dfy`). It is a class with the four React state cells plus a
  count of pending notification timers. One method per handler. The
  asynchronous repair is split at its await into `BeginFix` and
  `CompleteFix`. `HandleAiFix` composes the two for the case where nothing
  else runs in between. Each method states the whole new state as the old
  state with named cells replaced, so "nothing else changes" is part of
  every contract.

`js_text.dfy` (module `JsText`) holds the JavaScript string semantics the
three rely on. That is the whitespace set shared by the regular-expression
class `\s` and `trim()`, trimming, and the decimal text of a timestamp.
`scenarios.dfy` (module `Scenarios`) wires the pane's reports into the
shell's `onError` handler, as App.tsx does. It then states, for a few
scenarios, what a caller can conclude from the contracts alone.

Behaviour of the source that the model reproduces:

- The closing-fence pattern has no `m` flag, so `$` means the end of the
  whole reply. A reply ending in "```" and a newline keeps its closing fence
  after trimming (`FenceBeforeTrailingBlankSurvives`). A reply fenced as
  "```mermaid" ... "```" with a final newline therefore cleans to its body
  followed by a newline and "```" (`FencedBodyWithFinalNewline`).
- The opening patterns are anchored at the very start. Whitespace before
  "```mermaid" protects the fence, and trimming then leaves it at the front
  (`UnfencedTextOnlyTrimmed`).
- An empty or missing reply is a successful repair to the empty text
  (`CleanResponse`, `Scenarios.EmptyReplyEmptiesText`).
- Blank settled text is handled before the first await. It therefore always
  commits, whatever happens to the effect run later (`BeginRender`).
- Whitespace-only settled text clears the graphic but is not the empty
  string. "Sketching..." then stays on screen although nothing will be drawn
  (`BeginRender`, `PlaceholdersFor`).
- The shell passes `onError` as a new arrow function on every render. The
  pane's effect therefore runs again whenever the shell re-renders, including
  after every keystroke. An edit clears the recorded error, but the re-run of
  the still-failing settled text reports it again at once
  (`Scenarios.ErrorReturnsAfterEdit`).
- A notification timer clears whatever notification is showing when it
  fires. An older timer therefore cuts short a newer notification
  (`Scenarios.OlderTimerClearsNewerToast`).

Three further facts about the code:

- A render failure keeps the previous graphic on screen, so the graphic then
  reflects an older settled text than the latest one
  (components/Preview.tsx:65-75).
- Blank settled text commits neither a graphic nor an error: it clears the
  graphic and reports `null` (components/Preview.tsx:50-54). A superseded
  attempt commits nothing (components/Preview.tsx:61, 66).
- "Syntax Error" is only the fallback for a thrown value that is neither an
  `Error` nor a string. Otherwise the first line of the thrown message is
  reported (components/Preview.tsx:67-73).

## Model

| member | source | states |
|---|---|---|
| JsText.IsWhitespace | services/geminiService.ts:33-34 | the character set of the regular-expression class `\s` and of `trim()`: tab, line feed, vertical tab, form feed, carriage return, space, no-break space, ogham space mark, the spaces U+2000 to U+200A, line and paragraph separators, narrow no-break space, medium mathematical space, ideographic space and the byte-order mark; its uses are stated by the `Trim` lemmas below |
| JsText.TrimStart | services/geminiService.ts:33-34 | the start half of `trim()` and the greedy `\s*` after an opener; what it removes is stated by `TrimStartSpec` |
| JsText.TrimEnd | services/geminiService.ts:34 | the end half of `trim()`; what it removes is stated by `TrimEndSpec` |
| JsText.TrimStartSpec | services/geminiService.ts:33 | the `\s*` after an opener removes exactly the longest whitespace prefix: what remains is a suffix, all that went is whitespace, and what remains does not start with whitespace |
| JsText.TrimEndSpec | services/geminiService.ts:34 | the end half of `trim()` removes exactly the longest whitespace suffix |
| JsText.Trim | services/geminiService.ts:34 | the trimmed text never begins or ends with whitespace, and it is empty exactly when the input is blank (the `!x.trim()` test of App.tsx:39 and components/Preview.tsx:50) |
| JsText.TrimOfTrimmed | services/geminiService.ts:34 | text already free of whitespace at both ends is unchanged by `trim()`; in particular trimming is idempotent |
| JsText.DecimalString | App.tsx:68 | a timestamp prints as a non-empty run of decimal digits with no leading zero |
| JsText.DecimalRoundTrip | App.tsx:68 | reading the printed timestamp back gives the timestamp |
| GeminiService.StripMermaidOpener | services/geminiService.ts:33 | the first `replace`: a leading "```mermaid" in any letter case with all whitespace after it; text not starting so is unchanged; its effect is stated by `StripMermaidOpenerOf` |
| GeminiService.StripBareOpener | services/geminiService.ts:33 | the second `replace`: a leading bare "```" with all whitespace after it; text not starting so is unchanged; its effect is stated by `StripBareOpenerOf` |
| GeminiService.StripCloser | services/geminiService.ts:33 | the third `replace`: a "```" that is the last three characters is cut off, so the result followed by "```" is the input; otherwise, as for a fence followed by a newline, the text is unchanged |
| GeminiService.StripMermaidOpenerOf | services/geminiService.ts:33 | "```" followed by "mermaid" in any letter case is removed together with all whitespace after it |
| GeminiService.StripBareOpenerOf | services/geminiService.ts:33 | a bare leading "```" is removed together with all whitespace after it |
| GeminiService.CleanText | services/geminiService.ts:33-34 | the cleaned reply never begins or ends with whitespace |
| GeminiService.CleanResponse | services/geminiService.ts:32-34 | a missing or empty reply gives "", not an error; the result never begins or ends with whitespace |
| GeminiService.FixMermaidCode | services/geminiService.ts:25-38 | the result is an error exactly when the generation call fails, the error is always "Failed to fix code via AI", and a success is the cleaned reply text |
| GeminiService.MermaidThenBareOpenerRemoved | services/geminiService.ts:33 | both openers fire in one call: a "```mermaid" opener in any case, whitespace, a bare "```" and whitespace all go, leaving the trimmed body |
| GeminiService.FencedBodyRoundTrip | services/geminiService.ts:33-34 | a trimmed body that does not open with "```", wrapped as "```mermaid", newline, body, newline, "```", cleans back to exactly the body |
| GeminiService.FencedBodyWithFinalNewline | services/geminiService.ts:33-34 | the same fenced reply followed by a final newline keeps its closing fence: a non-empty trimmed body not opening with "```" cleans to the body, a newline and "```" |
| GeminiService.ClosingFenceAtEndRemoved | services/geminiService.ts:33-34 | a closing "```" that is the last three characters is removed before trimming |
| GeminiService.FenceBeforeTrailingBlankSurvives | services/geminiService.ts:33-34 | a closing "```" followed by whitespace (a final newline) is not removed: the cleaned reply is the text with its leading whitespace gone, followed by "```" |
| GeminiService.FenceBeforeTrailingBlankKeepsFence | services/geminiService.ts:33-34 | hence the cleaned text of such a reply still ends with "```" |
| GeminiService.UnfencedTextOnlyTrimmed | services/geminiService.ts:33-34 | text with no fence at its very start or end comes back merely trimmed |
| PreviewPane.FirstLine | components/Preview.tsx:73 | the first line contains no newline, is a prefix of the message, is the whole message when it has no newline, and otherwise stops exactly at the first newline |
| PreviewPane.MessageOf | components/Preview.tsx:67-72 | the message the `catch` clause picks: an `Error`'s message, a thrown string itself, and "Syntax Error" for any other thrown value |
| PreviewPane.ErrorLine | components/Preview.tsx:67-74 | the reported error has no newline and starts the thrown message; a message without newline is reported unchanged; a thrown value that is neither an Error nor a string is reported as "Syntax Error" |
| PreviewPane.PlaceholdersFor | components/Preview.tsx:124-129 | "Sketching..." shows exactly when there is no graphic and the settled text is not "", the start-typing hint exactly when it is ""; never both, and without a graphic always one |
| PreviewPane.Zoomed | components/Preview.tsx:86-88 | zoom in adds a tenth below 3 and gives exactly 3 at or above it; zoom out removes a tenth above 0.5 and gives exactly 0.5 at or below it; reset gives 1; a factor in [0.5, 3] stays there |
| PreviewPane.ZoomStaysInBounds | components/Preview.tsx:86-88 | from any factor in [0.5, 3], in particular the initial 1 of line 43, every sequence of presses keeps the factor in [0.5, 3] |
| PreviewPane.Preview.constructor | components/Preview.tsx:42-44 | the pane starts with no graphic and zoom 1 |
| PreviewPane.Preview.Overlay | components/Preview.tsx:124-129 | without a graphic on screen a placeholder always shows |
| PreviewPane.Preview.BeginRender | components/Preview.tsx:46-54 | an effect run makes every earlier attempt stale; blank text sets the graphic to "" and reports null at once; other text changes nothing yet and leaves one live attempt; whitespace-only text that is not "" leaves "Sketching..." on screen |
| PreviewPane.Preview.FinishRender | components/Preview.tsx:56-76 | a stale attempt changes neither the graphic nor the error; a live success replaces the graphic with the render output and reports null; a live failure keeps the graphic and reports the first line of the message; a live attempt is one for the current settled text, so a committed graphic belongs to that text |
| PreviewPane.Preview.Unmount | components/Preview.tsx:81-83 | the cleanup makes the last attempt stale |
| PreviewPane.Preview.HandleZoomIn | components/Preview.tsx:86 | the factor becomes the zoomed-in factor, capped at 3 |
| PreviewPane.Preview.HandleZoomOut | components/Preview.tsx:87 | the factor becomes the zoomed-out factor, floored at 0.5 |
| PreviewPane.Preview.HandleReset | components/Preview.tsx:88 | the factor becomes 1 |
| AppShell.InitialCode | App.tsx:25 | the stored text is used unless it is absent or "", in which case the built-in example is; the starting text is never empty |
| AppShell.RepairErrorArgument | App.tsx:43 | the service is sent the recorded error, or "General syntax error" when it is null or ""; never an empty description |
| AppShell.DownloadName | App.tsx:68 | the file name is "diagram-", the decimal timestamp and ".svg", and the timestamp reads back from it |
| AppShell.DownloadNamesDistinct | App.tsx:68 | downloads at different milliseconds get different names |
| AppShell.App.constructor | App.tsx:17-20 | the first render has empty text, no repair in flight, no error and no notification |
| AppShell.App.LoadOnMount | App.tsx:23-26 | the mount effect sets the text to the stored text or the example and changes nothing else |
| AppShell.App.HandleCodeChange | App.tsx:33-36 | editing sets the text, clears the error and leaves the flag and the notification; only allowed while no repair is in flight |
| AppShell.App.ReportError | App.tsx:118-121 | the pane's report becomes the recorded error; nothing else changes |
| AppShell.App.ShowToast | App.tsx:55-58 | the notification is replaced and one more dismiss timer is pending |
| AppShell.App.DismissToast | App.tsx:57 | a firing timer clears whatever notification is showing |
| AppShell.App.BeginFix | App.tsx:38-43 | blank text changes no state and sends nothing; otherwise the flag goes up and the text is sent with the error argument |
| AppShell.App.CompleteFix | App.tsx:43-52 | success sets the text to the returned text, clears the error and shows "Code repaired by AI!"; failure keeps text and error and shows "Failed to fix code with AI."; the flag goes down either way |
| AppShell.App.HandleAiFix | App.tsx:38-53 | the whole repair: the flag is down afterwards whatever the outcome, and text, error and notification are those of the service's result |
| AppShell.App.HandleDownloadSvg | App.tsx:60-74 | with a graphic the file named by the timestamp is produced and no state changes; without one no file is produced and "No diagram to download" shows |
| Scenarios.Deliver | App.tsx:118-121 | a report of the pane reaches the shell's error cell; no report changes nothing |
| Scenarios.StaleRenderIsDropped | components/Preview.tsx:61-66 | a render finishing after a newer effect run is dropped; only the newest render reaches the screen |
| Scenarios.MalformedInputKeepsGraphic | components/Preview.tsx:65-75 | after a good render, a malformed text keeps the earlier graphic and records a one-line prefix of the message |
| Scenarios.ErrorReturnsAfterEdit | App.tsx:33-36 | an edit clears the error, and the effect re-run caused by the new `onError` function reports it again |
| Scenarios.RepairStripsFences | App.tsx:38-53 | a fenced reply repairs the text to the bare body, shows the success notification and lowers the flag |
| Scenarios.EmptyReplyEmptiesText | App.tsx:43-46 | a reply without text repairs the text to "" and shows the success notification |
| Scenarios.FailedRepairKeepsText | App.tsx:47-49 | a failed call keeps the text and the recorded error and shows the failure notification |
| Scenarios.DownloadWithoutDiagram | App.tsx:72-74 | export with nothing rendered produces no file and shows the failure notification |
| Scenarios.OlderTimerClearsNewerToast | App.tsx:55-58 | the timer of an earlier notification clears a later one while the later timer is still pending |

## Left out

- The wording of the instruction prompt (services/geminiService.ts:8-23) is not modelled. `Request` carries the model name and the two values the template splices in. The wording carries no behaviour the application depends on.
- The save-on-change effect (App.tsx:29-31) and utils/storage.ts are left out. The storage adapter is a try/catch around `localStorage`, which is foreign. The stored value enters as the `saved` argument of `LoadOnMount`.
- The debounce hook (hooks/useDebounce, imported at components/Preview.tsx:3) is left out: it is timer-based. The settled text is the argument of `BeginRender`, and the caller decides when an effect run happens.
- The mermaid engine and its theme configuration (components/Preview.tsx:11-38) are left out. Parse and render together are one `RenderOutcome` per attempt. The `Date.now()` render id of line 58 does not affect the state.
- Layout, CSS and JSX are left out, as are the Toolbar and Editor components. Their one behavioural effect, the disabled Fix button and editor, is the `!isFixing` precondition of `BeginFix`, `HandleAiFix` and `HandleCodeChange`.
- Timers: `setTimeout` is the explicit `DismissToast` event. The three-second delay and the order in which timers fire are not modelled.
- Zoom uses integer tenths, not floating point. The drift of repeated `+ 0.1` in the source is not modelled, and neither is the percentage label.
- The DOM export is left out: `querySelector`, `XMLSerializer`, `Blob`, the object URL and the link click. The serialized graphic, if any, is the `svgElement` argument, and the clock is the `now` argument.
- Logging (`console.error`, `console.warn`) is left out.
- Interleavings are only those of the methods: React's batching of state updates and its scheduling of effects are not modelled.
- Strings are sequences of Unicode characters, not UTF-16 code units. All whitespace and fence characters are in the Basic Multilingual Plane, so the clean-up, trimming and first-line extraction are unaffected. Lone surrogates cannot be represented.
- Case-insensitive matching of "mermaid" folds ASCII letters only. Without the `u` flag a regular expression never folds a non-ASCII character onto an ASCII letter.
- PreviewPane.Preview.FinishRender: it requires non-blank attempt text, because only non-blank text reaches the engine in the source.
