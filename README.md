# PLaMo Translation App — a Dafny model of its translation logic

PLaMo Translation App puts the PLaMo translation model behind a keyboard
shortcut. It ships as three Python/Tk desktop windows and a Swift macOS
menu-bar app.

- `translator.py` runs the `plamo-translate` command line tool synchronously.
  It cleans up the output, then lays Japanese text out with BudouX phrase
  segments separated by tiny spaces.
- `translator_fixed.py` streams the tool's output into the window one
  character at a time, and chooses the translation direction by looking for
  Japanese characters.
- `translator_streaming.py` drives an in-process streaming engine
  (`streaming_translator.py`). The engine loads the PLaMo chain on a
  background thread and reports chunks, a completion or an error through
  callbacks.
- The macOS app (`PLaMoTranslationApp/*.swift`):
  - watches for a double Command+C;
  - captures the selected text through the Accessibility API or the
    pasteboard;
  - posts it to a local PLaMo server;
  - reports the outcome through notifications and the menu-bar icon;
  - keeps its settings as JSON in UserDefaults.

The model covers the sequential decision and bookkeeping logic of all of
these:

- the four double-press detectors, each with its own windows;
- the busy flags that drop a second request;
- the engine's load lifecycle;
- the streaming accumulation and its error paths;
- the text handling: language detection, `'\n\n'` collapsing and BudouX
  layout;
- on the Swift side:
  - input validation;
  - the mapping of HTTP and URL errors to thrown errors and connection
    statuses;
  - the copy-modify-save configuration store;
  - the text-capture fallback order;
  - four-char-code packing;
  - the mapping of errors to notifications and the menu-bar icon.

## How the model is built

- **Time.** Clock readings are integer milliseconds. The windows are 1000,
  3000 and 500.
- **Threads and callbacks.** Threads, `root.after`, `Task`/`MainActor` and
  `DispatchQueue` callbacks are replayed sequentially, in the order they are
  issued.
  - A worker thread is a method that receives what its foreign call produced
    and performs the callbacks in order: the characters, the exit code and
    stderr of `plamo-translate`, the chunks of `stream_translate`, or the
    HTTP response.
  - `performTranslation` is split at its first `await` into
    `BeginTranslation` and `CompleteTranslation`. This keeps the busy guard
    observable.
- **Foreign code.** These become inputs or function-typed parameters:
  - BudouX `parser.parse` is `string -> Option<seq<string>>`, where None
    means it raised;
  - the JSON codec is a pair of functions;
  - URLSession is `send(url, request) -> Exchange`;
  - the Accessibility reads are an `AxSnapshot`;
  - the pasteboard is an `Option<string>`.
- **Result widget.** A Tk result widget is a sequence of `(text, tag)` runs
  (module `ResultBuffer`). Tk stores no empty insertion. `get("1.0", END)`
  returns the widget's trailing newline as well, so completing a streamed
  session leaves the streamed text plus `"\n"`.
- **Stateful objects.** Objects whose fields the source updates are Dafny
  classes:
  - `FixedTranslatorApp`, `ClassicTranslatorApp`, `StreamingApp`;
  - `StreamingTranslator`, `TranslatorRegistry`;
  - `HotkeyManager`, `TranslationService`, `ConfigurationManager`,
    `AppDelegate`.
- **Value types.** Models.swift's types are datatypes.
- **Specification functions.** Each imperative operation is proved against a
  pure function, and the properties are lemmas about those functions:
  - `InclusiveStep`/`StrictStep` for the detectors;
  - `SpacedSegments`/`LayOut` for the BudouX layout;
  - `StreamEvents` for the engine;
  - `AfterSave`/`AfterLoad` for the configuration store;
  - `FailureOf` for the service;
  - `NoticeFor`/`IconAfter` for the app delegate.

Behaviour of the code that the model reproduces on purpose:

- **Overwritten statuses.** In `translateText` the catch-all `catch` resets
  the connection status to `.error(localizedDescription)` for every error
  thrown inside the `do` block. The intermediate statuses "Server
  unavailable", "HTTP n" and "Invalid response" therefore never remain
  (`Service.HttpFailureClassification`).
- **Button disabled after a streaming error.** The streaming window's error
  path ends with the button disabled: the final status "❌ 翻訳エラー"
  contains "エラー".
- **Icon left on connecting.** After a "no text" or "too long" error the
  menu-bar icon stays on `.connecting`, because `handleTranslationError`
  does not touch the icon for those two errors (`App.NothingSelected`).
- **Capture errors never routed.** `captureSelectedText` only ever throws
  `TranslationError.noTextSelected`, so `performTranslation` never routes an
  error to `handleTextCaptureError`. The model's `CaptureSelectedText`
  returns `Result<string, TranslationError>`.
- **Registration reads the manager.** On a configuration change the hotkey
  is registered through `setupHotkey`, which tests the configuration manager's
  current `hotkeyEnabled` rather than the notification's payload.
- **A single pass over newlines.** `replace('\n\n', '\n')` is a single pass
  over non-overlapping pairs, so four newlines become two
  (`ClassicTranslator.CollapseNewlineRun`).
- **A failure that reads as ready.** `update_status` tests "準備完了" before
  "失敗", so an initialisation failure whose error text contains "準備完了"
  ends with the button enabled and the label green although the engine did
  not load (`StreamingUI.FailedLoadCanEnable`).
- **Whitespace-only selections.** The Accessibility path accepts a
  whitespace-only selection, which the clipboard path would refuse.
  `performTranslation` then rejects it.

## Model

Source paths are relative to the repository's root directory.

| member | source | states |
|---|---|---|
| Debounce.Within | PLaMoTranslationApp/translator_fixed.py:481 | every kept press lies in the window, and nothing is added |
| Debounce.WithinMember | PLaMoTranslationApp/translator_fixed.py:481 | a press is kept exactly when it was in the list and lies in the window |
| Debounce.WithinNested | PLaMoTranslationApp/translator_fixed.py:481-484 | filtering by the 3 s window and then by the 1 s window equals filtering by the 1 s window |
| Debounce.KeepWithin | PLaMoTranslationApp/translator_fixed.py:481 | the list comprehension, computed element by element, keeps exactly the presses in the window, in order |
| Debounce.InclusiveStepRetains | PLaMoTranslationApp/translator_fixed.py:477-481 | after every `on_cmd_c`, each retained press is at most 3000 ms old |
| Debounce.InclusiveStepFires | PLaMoTranslationApp/translator_fixed.py:484-485 | `on_cmd_c` fires iff at least two retained presses (the current one included) are at most 1000 ms old, i.e. iff some earlier press is within 1000 ms inclusive |
| Debounce.SomeWithinIff | PLaMoTranslationApp/translator_fixed.py:484 | the filtered list is non-empty iff some press lies in the window |
| Debounce.InclusiveFireClears | PLaMoTranslationApp/translator_fixed.py:485-488 | firing clears the list, so the very next single press cannot fire |
| Debounce.FirstPressAfterClear | PLaMoTranslationApp/translator_fixed.py:477-488 | from an empty list a press is kept and does not fire |
| Debounce.InclusiveActivationsBound | PLaMoTranslationApp/translator_fixed.py:476-488 | no two consecutive presses both fire: n presses from an empty list activate at most n/2 times |
| Debounce.StrictStepRetains | PLaMoTranslationApp/translator.py:232-236 | after `on_cmd_c_global`, every retained press is strictly less than 1000 ms old |
| Debounce.StrictStepFires | PLaMoTranslationApp/translator.py:241-246 | `on_cmd_c_global` fires iff an earlier retained press is strictly within 1000 ms (the pruned list has two entries), and firing resets the list |
| Debounce.StrictBoundaryExclusive | PLaMoTranslationApp/translator.py:236 | a second press exactly 1000 ms after the first does not pair with it |
| Debounce.InclusiveBoundaryInclusive | PLaMoTranslationApp/translator_fixed.py:484 | in the 3 s / 1 s detector the same two presses do pair |
| Debounce.StrictActivationsBound | PLaMoTranslationApp/translator.py:230-246 | n presses from an empty list activate `on_cmd_c_global` at most n/2 times |
| Hotkey.PressAt | PLaMoTranslationApp/PLaMoTranslationApp/HotkeyManager.swift:45-57 | a Command+C fires iff it follows the stored time by at most 500 ms; firing stores 0, otherwise the current time is stored |
| Hotkey.ActivationsBound | PLaMoTranslationApp/PLaMoTranslationApp/HotkeyManager.swift:45-57 | with clock readings above 0.5 s, the press right after a reset never fires, so at most every second press activates |
| Hotkey.TriplePressActivatesOnce | PLaMoTranslationApp/PLaMoTranslationApp/HotkeyManager.swift:45-57 | three presses within half a second after a reset activate exactly once |
| Hotkey.HotkeyManager.constructor | PLaMoTranslationApp/PLaMoTranslationApp/HotkeyManager.swift:5-10 | no handler, no monitor, `lastCmdCTime` 0 |
| Hotkey.HotkeyManager.RegisterHotkey | PLaMoTranslationApp/PLaMoTranslationApp/HotkeyManager.swift:16-30 | registering while registered keeps the first handler; otherwise the handler and monitor are installed; registered afterwards either way |
| Hotkey.HotkeyManager.UnregisterHotkey | PLaMoTranslationApp/PLaMoTranslationApp/HotkeyManager.swift:32-39 | afterwards not registered and no handler |
| Hotkey.HotkeyManager.HandleKeyEvent | PLaMoTranslationApp/PLaMoTranslationApp/HotkeyManager.swift:41-58 | anything but Command with key code 8 changes nothing and does not fire; a Command+C fires and updates the stored time as `PressAt` decides |
| Hotkey.RegistrationLifecycle | PLaMoTranslationApp/PLaMoTranslationApp/HotkeyManager.swift:16-39 | register twice then unregister twice leaves the manager unregistered with no handler (the second register kept the first handler) |
| Hotkey.FourCharCode | PLaMoTranslationApp/PLaMoTranslationApp/HotkeyManager.swift:79-87 | the code fits in a UInt32; 0 unless the string has four characters |
| Hotkey.ShiftInStep | PLaMoTranslationApp/PLaMoTranslationApp/HotkeyManager.swift:84 | shifting the code left by 8 bits on a UInt32 and or-ing in the byte gives the low 32 bits of `code * 256 + byte` |
| Hotkey.FourCharCodeFrom | PLaMoTranslationApp/PLaMoTranslationApp/HotkeyManager.swift:79-87 | the shift-in loop over the UTF-8 bytes computes the low 32 bits of their big-endian value |
| Hotkey.FourAsciiCharacters | PLaMoTranslationApp/PLaMoTranslationApp/HotkeyManager.swift:79-87 | four ASCII characters pack as b0·2^24 + b1·2^16 + b2·2^8 + b3 |
| Hotkey.HotKeySignature | PLaMoTranslationApp/PLaMoTranslationApp/HotkeyManager.swift:7 | the signature "PLMo" is 0x504C4D6F |
| Common.PyStrip | PLaMoTranslationApp/translator.py:250 | `str.strip()`: no longer than its input and neither end is whitespace |
| Common.PyStripIsMiddle | PLaMoTranslationApp/translator.py:250 | strip keeps a contiguous middle part and removes only whitespace around it |
| Common.PyStripEmptyIff | PLaMoTranslationApp/translator.py:253 | `not s.strip()` holds iff every character is whitespace |
| Common.PyStripIdempotent | PLaMoTranslationApp/translator.py:299-301 | stripping twice is stripping once |
| Common.Split | PLaMoTranslationApp/translator.py:295 | `split('\n')` gives at least one piece and no piece holds the separator |
| Common.JoinSplit | PLaMoTranslationApp/translator.py:295 | joining the pieces of a split with the separator gives back the text |
| Common.SplitNoSeparator | PLaMoTranslationApp/translator.py:342-351 | a text without the separator splits into itself alone |
| ClassicTranslator.Collapse | PLaMoTranslationApp/translator.py:288 | `replace('\n\n', '\n')` never lengthens the text |
| ClassicTranslator.CollapseKeepsOtherCharacters | PLaMoTranslationApp/translator.py:288 | only newlines are removed; every other character survives, in order |
| ClassicTranslator.CollapseWithoutPairs | PLaMoTranslationApp/translator.py:288 | a text with no two adjacent newlines is unchanged |
| ClassicTranslator.CollapseNewlineRun | PLaMoTranslationApp/translator.py:288 | a run of k newlines becomes ceil(k/2) newlines (single pass, non-overlapping) |
| ClassicTranslator.Postprocess | PLaMoTranslationApp/translator.py:285-288 | the exit-code-0 text is no longer than stdout and keeps exactly the non-newline characters of `stdout.strip()` |
| ClassicTranslator.ExitErrorText | PLaMoTranslationApp/translator.py:319-323 | a nonzero exit shows "❌ " and the stripped stderr, or "❌ 翻訳エラー" when stderr is blank |
| ClassicTranslator.InsertSegmentsProperties | PLaMoTranslationApp/translator.py:336-355 | deleting the tiny spaces leaves the concatenated segments; there are exactly len(segments) − 1 tiny spaces, each a single " "; the text is the segments joined by " "; no empty run is inserted |
| ClassicTranslator.ParsedAt | PLaMoTranslationApp/translator.py:298-301 | paragraph k is parsed on its own: blank paragraphs are not parsed, others are parsed after stripping |
| ClassicTranslator.LayOutNext | PLaMoTranslationApp/translator.py:298-310 | the layout after j + 1 paragraphs is one more paragraph step after j |
| ClassicTranslator.LayOutFailureStays | PLaMoTranslationApp/translator.py:293-314 | once the parser raised, later paragraphs do not rescue the layout |
| ClassicTranslator.ParseOnlyNonBlankStripped | PLaMoTranslationApp/translator.py:299-301 | the parser is consulted only on the stripped non-blank paragraphs: two parsers agreeing there give the same layout |
| ClassicTranslator.StripEach | PLaMoTranslationApp/translator.py:299-301 | each paragraph stripped, in order |
| ClassicTranslator.LayOutStepEffect | PLaMoTranslationApp/translator.py:298-310 | one paragraph adds its stripped text (for a faithful parser) and then "\n\n" unless it is last, tiny spaces aside |
| ClassicTranslator.LayOutText | PLaMoTranslationApp/translator.py:298-310 | after j paragraphs, deleting the tiny spaces leaves the first j stripped paragraphs joined by blank lines |
| ClassicTranslator.ParsedParsesBack | PLaMoTranslationApp/translator.py:299-301 | with a parser whose segments concatenate to its input, every parse concatenates to the stripped paragraph |
| ClassicTranslator.LayOutProperties | PLaMoTranslationApp/translator.py:292-312 | a completed BudouX layout, tiny spaces deleted, is the stripped paragraphs joined by "\n\n" (blank paragraphs keep their separator), with no empty run and tiny spaces that are single spaces |
| ClassicTranslator.LayOutAll | PLaMoTranslationApp/translator.py:295-310 | the same for any parse results that concatenate back to the stripped paragraphs |
| ClassicTranslator.ClassicTranslatorApp.constructor | PLaMoTranslationApp/translator.py:69 | the input starts as "Hello world", no presses, no held keys |
| ClassicTranslator.ClassicTranslatorApp.OnKeyDown | PLaMoTranslationApp/translator.py:209-210 | the key is added to the held set |
| ClassicTranslator.ClassicTranslatorApp.OnKeyUp | PLaMoTranslationApp/translator.py:212-214 | the key is removed; releasing a key not held changes nothing |
| ClassicTranslator.ClassicTranslatorApp.OnCmdCGlobal | PLaMoTranslationApp/translator.py:230-246 | the firing decision and new press list are those of the strict 1 s detector |
| ClassicTranslator.ClassicTranslatorApp.OnKeyPress | PLaMoTranslationApp/translator.py:199-207 | only a 'c' while Command or Control is held reaches the detector; any other key changes nothing |
| ClassicTranslator.ClassicTranslatorApp.AppendLines | PLaMoTranslationApp/translator.py:343-348 | each non-empty line part, a newline between consecutive parts |
| ClassicTranslator.ClassicTranslatorApp.InsertSegmentsWithTinySpaces | PLaMoTranslationApp/translator.py:336-355 | the widget ends as the spaced-segment layout whose properties `InsertSegmentsProperties` states |
| ClassicTranslator.ClassicTranslatorApp.AppendSegments | PLaMoTranslationApp/translator.py:303-306 | the segments of one paragraph with a tiny space between consecutive ones |
| ClassicTranslator.ClassicTranslatorApp.AppendParagraph | PLaMoTranslationApp/translator.py:298-310 | succeeds iff the paragraph is blank or parses; on success the paragraph and its separator are appended; on failure the widget is untouched |
| ClassicTranslator.ClassicTranslatorApp.LayOutParagraphs | PLaMoTranslationApp/translator.py:293-312 | succeeds iff every paragraph parsed, and then the widget is the complete layout |
| ClassicTranslator.ClassicTranslatorApp.Translate | PLaMoTranslationApp/translator.py:248-334 | blank input shows "❌ テキストがありません" and never runs the tool; otherwise the tool runs once with --from English --to Japanese --no-stream on the stripped text, and the widget shows the BudouX layout or the plain text on exit 0, the stderr message on a nonzero exit, "❌ タイムアウト" on timeout, or "❌ " and the exception text |
| ResultBuffer.InsertFacts | PLaMoTranslationApp/translator_fixed.py:306-311 | an insertion appends exactly its text, keeps what was there, and adds no empty run |
| ResultBuffer.Replace | PLaMoTranslationApp/translator_fixed.py:327-331 | delete-then-insert shows exactly the new text, in one tag |
| ResultBuffer.TextAppend | PLaMoTranslationApp/translator.py:336-355 | the shown text of two run lists appended is the two texts appended |
| ResultBuffer.InsertEffect | PLaMoTranslationApp/translator.py:304-306 | inserting adds its text to the shown text and, unless it is a tiny space, to the text without tiny spaces |
| ResultBuffer.TextWithoutOtherTag | PLaMoTranslationApp/translator.py:336-355 | runs of one tag only: deleting another tag removes nothing |
| FixedTranslator.DetectLanguage | PLaMoTranslationApp/translator_fixed.py:222-231 | Japanese iff some character lies in U+3040–309F, U+30A0–30FF or U+4E00–9FFF; so the empty text is English |
| FixedTranslator.TargetFor | PLaMoTranslationApp/translator_fixed.py:236-237 | the target is always the other language |
| FixedTranslator.CopyCandidate | PLaMoTranslationApp/translator_fixed.py:338-357 | the stripped result is copied unless it is empty or the "no text" message; a copied text has no surrounding whitespace |
| FixedTranslator.FixedTranslatorApp.constructor | PLaMoTranslationApp/translator_fixed.py:31-42 | idle, empty result, font size 12 within 8..24 |
| FixedTranslator.FixedTranslatorApp.Translate | PLaMoTranslationApp/translator_fixed.py:359-381 | a no-op while busy; blank input shows "❌ テキストがありません" with the flag still false; otherwise the flag is set, the button disabled and the stripped text handed to the worker |
| FixedTranslator.FixedTranslatorApp.ClearResult | PLaMoTranslationApp/translator_fixed.py:300-304 | the result is emptied |
| FixedTranslator.FixedTranslatorApp.AppendChar | PLaMoTranslationApp/translator_fixed.py:306-311 | one character appended, tagged "streaming" |
| FixedTranslator.FixedTranslatorApp.OnTranslationComplete | PLaMoTranslationApp/translator_fixed.py:313-325 | the shown text plus Tk's final newline is kept, retagged "normal"; the session ends with the button enabled |
| FixedTranslator.FixedTranslatorApp.ShowError | PLaMoTranslationApp/translator_fixed.py:327-336 | the whole result is replaced by the message and the session ends |
| FixedTranslator.FixedTranslatorApp.StreamOutput | PLaMoTranslationApp/translator_fixed.py:264-275 | `full_result` is the characters read, in order, and the widget shows the same characters, all tagged "streaming" |
| FixedTranslator.InvocationFor | PLaMoTranslationApp/translator_fixed.py:233-258 | the tool at its fixed path, called with two different languages (the detected direction), fed the text on stdin |
| FixedTranslator.FixedTranslatorApp.TranslateStreaming | PLaMoTranslationApp/translator_fixed.py:233-298 | the tool runs with the detected direction; a nonzero exit shows only the stderr error, exit 0 shows the output plus the final newline; an exception from Popen (no process) or from the stdin write (process spawned) shows the error; the session always ends idle |
| FixedTranslator.FixedTranslatorApp.CopyResult | PLaMoTranslationApp/translator_fixed.py:338-357 | something is copied iff the stripped result is non-empty and not the "no text" message, and then it is that text |
| FixedTranslator.FixedTranslatorApp.OnFontSizeChange | PLaMoTranslationApp/translator_fixed.py:416-432 | a positive delta adds 1 capped at 24, any other delta subtracts 1 floored at 8; the size stays in 8..24 |
| FixedTranslator.FixedTranslatorApp.OnCmdC | PLaMoTranslationApp/translator_fixed.py:476-488 | the firing decision and new press list are those of the 3 s / 1 s inclusive detector |
| StreamingEngine.LoadProgress | PLaMoTranslationApp/streaming_translator.py:35-62 | the progress starts with the loading message and ends with the ready message iff the chain was built, and with the failure prefix otherwise |
| StreamingEngine.TargetLanguage | PLaMoTranslationApp/streaming_translator.py:85-86 | the target is always the other language; English iff the source is Japanese |
| StreamingEngine.Delivered | PLaMoTranslationApp/streaming_translator.py:94-102 | one chunk callback per chunk, in stream order |
| StreamingEngine.ChunkTextsDelivered | PLaMoTranslationApp/streaming_translator.py:94-102 | the chunk callbacks carry exactly the streamed chunks |
| StreamingEngine.StreamEventsShape | PLaMoTranslationApp/streaming_translator.py:77-113 | every callback but possibly the last is a chunk: at most one completion or error ends a session |
| StreamingEngine.CompletionIsConcatenation | PLaMoTranslationApp/streaming_translator.py:91-107 | a completion carries the concatenation of the chunks delivered before it, and a session with a completion has no error |
| StreamingEngine.FailureAfterChunks | PLaMoTranslationApp/streaming_translator.py:94-113 | an exception mid-stream keeps the chunks already delivered, makes no completion, and ends with exactly one error iff the error callback is given |
| StreamingEngine.StreamingTranslator.constructor | PLaMoTranslationApp/streaming_translator.py:28-31 | no chain, not loading, not loaded |
| StreamingEngine.StreamingTranslator.Initialize | PLaMoTranslationApp/streaming_translator.py:64-67 | a load starts iff the engine is neither loading nor loaded |
| StreamingEngine.StreamingTranslator.Load | PLaMoTranslationApp/streaming_translator.py:35-62 | loaded iff the chain was built; never still loading afterwards; progress reported iff a callback was given |
| StreamingEngine.StreamingTranslator.TranslateStreaming | PLaMoTranslationApp/streaming_translator.py:69-117 | the callbacks made are `StreamEvents` (not loaded: one error, no chunk, no completion); the chain is asked for the detected direction iff loaded and detection succeeded |
| StreamingEngine.StreamingTranslator.TranslateSync | PLaMoTranslationApp/streaming_translator.py:119-135 | the fixed not-initialised message when not loaded, the translation, or "❌ 翻訳エラー: " and the exception text |
| StreamingEngine.TranslatorRegistry.GetTranslator | PLaMoTranslationApp/streaming_translator.py:141-146 | creates a fresh idle engine on first use and returns the stored one afterwards |
| StreamingEngine.SameInstance | PLaMoTranslationApp/streaming_translator.py:141-146 | two calls return the same engine |
| StreamingEngine.LoadLifecycle | PLaMoTranslationApp/streaming_translator.py:33-67 | a second `initialize` while loading does nothing; after the load another one starts iff the load failed |
| StreamingUI.NeutralMessage | PLaMoTranslationApp/translator_streaming.py:191-199 | a message without "準", "失" or "エ" leaves the button and colour alone |
| StreamingUI.ReadyEnables | PLaMoTranslationApp/translator_streaming.py:194-196 | the ready message enables the button, green |
| StreamingUI.InitFailureDisables | PLaMoTranslationApp/translator_streaming.py:197-199 | an initialisation failure message whose error text has no "準" disables the button, red |
| StreamingUI.ErrorStatusDisables | PLaMoTranslationApp/translator_streaming.py:235-244 | the error status "❌ 翻訳エラー" disables the button |
| StreamingUI.LoadProgressDecides | PLaMoTranslationApp/translator_streaming.py:184-199 | after the load's messages the button is enabled and green exactly when the engine came up or the failure's error text contains "準備完了", and disabled and red otherwise, whatever it was before |
| StreamingUI.ReadyInFailureMessage | PLaMoTranslationApp/streaming_translator.py:55-59 | the failure message contains "準備完了" exactly when the exception's text does, since the prefix has no "準" |
| StreamingUI.InitFailureReacts | PLaMoTranslationApp/translator_streaming.py:191-199 | an initialisation failure enables the button if its error text contains "準備完了" and disables it otherwise |
| StreamingUI.LoadedIffEnabled | PLaMoTranslationApp/translator_streaming.py:184-199 | when no failure text mentions "準", the button ends enabled iff the engine loaded |
| StreamingUI.FailedLoadCanEnable | PLaMoTranslationApp/translator_streaming.py:191-199 | a failed load whose error text is "準備完了" ends with the button enabled and green |
| StreamingUI.ShownDelivered | PLaMoTranslationApp/translator_streaming.py:205-210 | the chunk callbacks append the chunks' concatenation to the shown text |
| StreamingUI.SessionEnds | PLaMoTranslationApp/streaming_translator.py:104-113 | a session on a loaded engine ends with the completion iff nothing failed, and with an error otherwise |
| StreamingUI.SessionShows | PLaMoTranslationApp/translator_streaming.py:205-244 | a successful session shows the chunks plus Tk's final newline; a failed one shows only the error text |
| StreamingUI.StreamingApp.constructor | PLaMoTranslationApp/translator_streaming.py:34-41 | idle, button enabled, grey initialising status, on the shared engine |
| StreamingUI.StreamingApp.UpdateStatus | PLaMoTranslationApp/translator_streaming.py:191-199 | the label shows the message; "準備完了" wins and enables; else "失敗"/"エラー" disables; else the button is untouched |
| StreamingUI.StreamingApp.ApplyProgress | PLaMoTranslationApp/translator_streaming.py:186-189 | each progress message applied in turn; the label shows the last one |
| StreamingUI.StreamingApp.InitializeTranslator | PLaMoTranslationApp/translator_streaming.py:184-189 | a load starts iff the engine is idle; after it the engine is loaded iff the chain was built, and the indicator is `update_status` applied to every progress message, so the button is enabled iff the engine loaded or the failure text contains "準備完了" |
| StreamingUI.StreamingApp.Translate | PLaMoTranslationApp/translator_streaming.py:246-284 | guards in order: busy (nothing changes), blank (placeholder), not loaded (not-initialised message), none touching the flag; otherwise the flag is set, the result cleared and the stripped text sent to the engine exactly once |
| StreamingUI.StreamingApp.AppendTranslationChunk | PLaMoTranslationApp/translator_streaming.py:205-210 | the chunk appended, tagged "streaming" |
| StreamingUI.StreamingApp.FinalizeTranslation | PLaMoTranslationApp/translator_streaming.py:216-227 | the widget's content plus Tk's final newline is kept, retagged "normal"; the flag is reset and the button enabled |
| StreamingUI.StreamingApp.HandleTranslationError | PLaMoTranslationApp/translator_streaming.py:235-244 | the error replaces the result, the flag is reset, and the button ends disabled because the status matches "エラー" |
| StreamingUI.StreamingApp.OnEvent | PLaMoTranslationApp/translator_streaming.py:201-244 | one callback's effect on the shown text and on the session state |
| StreamingUI.StreamingApp.Replay | PLaMoTranslationApp/translator_streaming.py:201-244 | the callbacks of a session in order: the shown text follows `ShownText` and the final state is decided by the last callback |
| StreamingUI.StreamingApp.OnKeyPress | PLaMoTranslationApp/translator_streaming.py:340-357 | only the Command key counts; the firing decision and new press list are those of the 3 s / 1 s inclusive detector |
| StreamingUI.TranslateSession | PLaMoTranslationApp/translator_streaming.py:246-284 | a started session on a loaded engine ends idle, showing the chunks plus a newline with the button enabled, or the error with the button disabled |
| StreamingUI.StreamSession | PLaMoTranslationApp/streaming_translator.py:77-113 | the streaming thread and its callbacks on a cleared widget end in the three outcomes above |
| Models.FirstWithRawValue | PLaMoTranslationApp/PLaMoTranslationApp/Models.swift:3-20 | `Language(rawValue:)` finds a case with that raw value, or none exists |
| Models.AllLanguagesComplete | PLaMoTranslationApp/PLaMoTranslationApp/Models.swift:3-20 | `allCases` contains every case |
| Models.RawValueInjective | PLaMoTranslationApp/PLaMoTranslationApp/Models.swift:3-20 | the raw values are pairwise distinct |
| Models.RawValueRoundTrip | PLaMoTranslationApp/PLaMoTranslationApp/Models.swift:3-20 | decoding a raw value gives back its case, and only raw values decode |
| Models.DisplayName | PLaMoTranslationApp/PLaMoTranslationApp/Models.swift:22-24 | the display name decodes back to its case (it is the raw value) |
| Models.StatusDescription | PLaMoTranslationApp/PLaMoTranslationApp/Models.swift:73-84 | `.error(m)` reads "Error: " followed by m |
| Models.StatusDescriptionInjective | PLaMoTranslationApp/PLaMoTranslationApp/Models.swift:73-84 | distinct statuses have distinct descriptions |
| Models.TranslationErrorDescription | PLaMoTranslationApp/PLaMoTranslationApp/Models.swift:96-113 | a network error reads "Network error: " followed by its cause |
| Models.TranslationErrorDescriptionInjective | PLaMoTranslationApp/PLaMoTranslationApp/Models.swift:96-113 | each error has its own description |
| Models.TextCaptureErrorDescription | PLaMoTranslationApp/PLaMoTranslationApp/Models.swift:165-182 | a system error reads "System error: " followed by its message |
| Models.TextCaptureErrorDescriptionInjective | PLaMoTranslationApp/PLaMoTranslationApp/Models.swift:165-182 | each capture error has its own description |
| Models.DefaultConfigurationValues | PLaMoTranslationApp/PLaMoTranslationApp/Models.swift:124-131 | the default is englishJapanese → japanese on http://127.0.0.1:30000, no login item, 10 s window, hotkey on |
| TextCapture.TextFromAccessibility | PLaMoTranslationApp/PLaMoTranslationApp/TextCaptureService.swift:18-53 | permission, frontmost application and focused element are checked in that order; the text is found exactly when those pass and the selected text or the value is non-empty; non-empty selected text wins over the value; both empty gives `noTextFound` |
| TextCapture.TextFromClipboard | PLaMoTranslationApp/PLaMoTranslationApp/TextCaptureService.swift:55-63 | nil for a missing or blank pasteboard string, otherwise the string untrimmed |
| TextCapture.CaptureSelectedText | PLaMoTranslationApp/PLaMoTranslationApp/TextCaptureService.swift:6-16 | accessibility text first, then clipboard text, else `TranslationError.noTextSelected` |
| TextCapture.CapturedTextNonEmpty | PLaMoTranslationApp/PLaMoTranslationApp/TextCaptureService.swift:6-63 | captured text is never empty, and is blank only when it came from the selection |
| TextCapture.AccessibilityFailureFallsThrough | PLaMoTranslationApp/PLaMoTranslationApp/TextCaptureService.swift:7-13 | every accessibility failure is swallowed and the clipboard decides |
| TextCapture.WhitespaceSelectionAccepted | PLaMoTranslationApp/PLaMoTranslationApp/TextCaptureService.swift:41-48 | a whitespace-only selection is accepted although the clipboard path would refuse it |
| Service.McpUrlShape | PLaMoTranslationApp/PLaMoTranslationApp/TranslationService.swift:36 | the URL is the endpoint with the path component "mcp", joined by one slash |
| Service.RequestCarriesInput | PLaMoTranslationApp/PLaMoTranslationApp/TranslationService.swift:30-34 | the body has the text as its only user message and both languages as raw values that decode back |
| Service.Validate | PLaMoTranslationApp/PLaMoTranslationApp/TranslationService.swift:20-26 | blank text is `noTextSelected`; otherwise more than 5000 characters is `textTooLong`; 5000 is accepted |
| Service.TranslationService.constructor | PLaMoTranslationApp/PLaMoTranslationApp/TranslationService.swift:12-15 | the endpoint given, status disconnected |
| Service.TranslationService.Prepare | PLaMoTranslationApp/PLaMoTranslationApp/TranslationService.swift:20-28 | a rejected text leaves the status unchanged; an accepted one sets `.connecting` |
| Service.TranslationService.Exchange | PLaMoTranslationApp/PLaMoTranslationApp/TranslationService.swift:41-90 | a 200 with a decodable body is `.connected` with a result carrying the text and both languages; every failure throws and leaves the status `FailureOf` gives |
| Service.TranslationService.TranslateText | PLaMoTranslationApp/PLaMoTranslationApp/TranslationService.swift:17-91 | validation errors leave the status alone; otherwise the request for the text is posted to `<endpoint>/mcp` and the outcome and status follow `FailureOf` |
| Service.TranslationService.CheckServerConnection | PLaMoTranslationApp/PLaMoTranslationApp/TranslationService.swift:93-115 | connected iff an HTTP status below 500 came back, and the status says so |
| Service.TranslationService.UpdateServerEndpoint | PLaMoTranslationApp/PLaMoTranslationApp/TranslationService.swift:117-120 | the new endpoint, status disconnected |
| Service.FailureLeavesErrorStatus | PLaMoTranslationApp/PLaMoTranslationApp/TranslationService.swift:41-90 | a request succeeds iff it is a 200 with a decodable body; every failure leaves an `.error` status |
| Service.HttpFailureClassification | PLaMoTranslationApp/PLaMoTranslationApp/TranslationService.swift:47-90 | 404 or ≥ 500 throws `serverUnavailable`, any other non-200 `invalidResponse`; the intermediate "Server unavailable" or "HTTP n" status never survives |
| Configuration.ConfigurationManager.constructor | PLaMoTranslationApp/PLaMoTranslationApp/ConfigurationManager.swift:14-16 | the stored configuration if present and decodable, else the default; nothing written |
| Configuration.ConfigurationManager.SaveConfiguration | PLaMoTranslationApp/PLaMoTranslationApp/ConfigurationManager.swift:39-53 | the store follows `AfterSave` |
| Configuration.ConfigurationManager.LoadConfiguration | PLaMoTranslationApp/PLaMoTranslationApp/ConfigurationManager.swift:18-37 | the returned configuration and the store follow `AfterLoad` |
| Configuration.ConfigurationManager.ResetToDefaults | PLaMoTranslationApp/PLaMoTranslationApp/ConfigurationManager.swift:55-58 | the default is saved |
| Configuration.ConfigurationManager.UpdateSourceLanguage | PLaMoTranslationApp/PLaMoTranslationApp/ConfigurationManager.swift:60-64 | the current configuration with only the source language changed is saved |
| Configuration.ConfigurationManager.UpdateTargetLanguage | PLaMoTranslationApp/PLaMoTranslationApp/ConfigurationManager.swift:66-70 | the current configuration with only the target language changed is saved |
| Configuration.ConfigurationManager.UpdateServerEndpoint | PLaMoTranslationApp/PLaMoTranslationApp/ConfigurationManager.swift:72-76 | the current configuration with only the endpoint changed is saved |
| Configuration.ConfigurationManager.UpdateAutoLaunch | PLaMoTranslationApp/PLaMoTranslationApp/ConfigurationManager.swift:78-84 | the current configuration with only `autoLaunch` changed is saved |
| Configuration.ConfigurationManager.UpdateResultWindowTimeout | PLaMoTranslationApp/PLaMoTranslationApp/ConfigurationManager.swift:86-90 | the current configuration with only the window timeout changed is saved |
| Configuration.ConfigurationManager.UpdateHotkeyEnabled | PLaMoTranslationApp/PLaMoTranslationApp/ConfigurationManager.swift:92-96 | the current configuration with only `hotkeyEnabled` changed is saved |
| Configuration.SaveEffect | PLaMoTranslationApp/PLaMoTranslationApp/ConfigurationManager.swift:39-53 | a successful save stores the encoding under "PLaMoTranslationConfiguration", adopts the configuration, posts it once and leaves every other key alone; a failed encode changes nothing |
| Configuration.SaveThenLoad | PLaMoTranslationApp/PLaMoTranslationApp/ConfigurationManager.swift:18-53 | with a round-tripping codec, loading after a save returns what was saved and changes nothing |
| Configuration.LoadTwice | PLaMoTranslationApp/PLaMoTranslationApp/ConfigurationManager.swift:18-37 | a second load returns the configuration the first one settled on |
| Configuration.ResetGivesDefault | PLaMoTranslationApp/PLaMoTranslationApp/ConfigurationManager.swift:55-58 | after a reset the configuration is the default, when it encodes |
| App.AppDelegate.constructor | PLaMoTranslationApp/PLaMoTranslationApp/AppDelegate.swift:7-15 | not translating, icon disconnected, no notices, nothing shown |
| App.AppDelegate.SetupHotkey | PLaMoTranslationApp/PLaMoTranslationApp/AppDelegate.swift:62-73 | registers the translation handler iff the configuration enables the hotkey |
| App.AppDelegate.ConfigurationDidChange | PLaMoTranslationApp/PLaMoTranslationApp/AppDelegate.swift:105-117 | no payload: nothing; otherwise the service takes the endpoint (status disconnected), enabled and unregistered registers (through the manager's configuration), disabled and registered unregisters, anything else leaves the hotkey alone |
| App.AppDelegate.CheckInitialServerConnection | PLaMoTranslationApp/PLaMoTranslationApp/AppDelegate.swift:92-103 | the icon shows the probed status; an unreachable server is announced |
| App.AppDelegate.Cleanup | PLaMoTranslationApp/PLaMoTranslationApp/AppDelegate.swift:249-253 | the hotkey is unregistered |
| App.AppDelegate.HandleTranslationRequest | PLaMoTranslationApp/PLaMoTranslationApp/AppDelegate.swift:119-128 | ignored while translating; otherwise the translation starts |
| App.AppDelegate.BeginTranslation | PLaMoTranslationApp/PLaMoTranslationApp/AppDelegate.swift:130-135 | the flag is set and the icon shows connecting |
| App.AppDelegate.CompleteTranslation | PLaMoTranslationApp/PLaMoTranslationApp/AppDelegate.swift:137-173 | the flag always ends false; no capture or blank text notifies "No text selected…", too long notifies the shorter-text message (icon untouched); otherwise the captured text is sent once to `<endpoint>/mcp` with the configured languages and the exchange decides: success shows its translation with the icon connected, a `TranslationError` gets `NoticeFor` and `IconAfter`, any other error the "Unexpected error" notice and icon |
| App.AppDelegate.ReportOutcome | PLaMoTranslationApp/PLaMoTranslationApp/AppDelegate.swift:144-172 | success shows the result; a `TranslationError` goes to `handleTranslationError`; any other error notifies "Unexpected error: …" with the unexpected-error icon |
| App.AppDelegate.HandleTranslationError | PLaMoTranslationApp/PLaMoTranslationApp/AppDelegate.swift:189-205 | the notice and icon are `NoticeFor` and `IconAfter` of the error |
| App.AppDelegate.HandleTextCaptureError | PLaMoTranslationApp/PLaMoTranslationApp/AppDelegate.swift:176-187 | permission denied shows the alert only without permission; no text / no focused element notify "No text selected…"; others notify their description |
| App.SetupServices | PLaMoTranslationApp/PLaMoTranslationApp/AppDelegate.swift:38-46 | the loaded configuration (stored or default) and a service on its endpoint, disconnected |
| App.IconMapping | PLaMoTranslationApp/PLaMoTranslationApp/AppDelegate.swift:189-205 | no-text and too-long keep the icon; every other error shows an error icon chosen by the error alone: "Server unavailable" iff server unavailable, "Network error" iff a network error |
| App.TranslationSession | PLaMoTranslationApp/PLaMoTranslationApp/AppDelegate.swift:119-173 | a request during a translation is dropped, and after a complete run the next one is taken |
| App.NothingSelected | PLaMoTranslationApp/PLaMoTranslationApp/AppDelegate.swift:130-142 | nothing selected and a missing or blank pasteboard string notify "No text selected…" and leave the icon on connecting |

## Left out

- Tk and Cocoa rendering is not modelled: widgets, fonts and tag styles, window placement, auto-scroll, mouse-wheel scroll syncing, `update_font_sizes`, the result window, the menu-bar controller and the status window. They are presentation only.
- Subprocess and network plumbing is not modelled: `Popen`/`run`, pipes, `wait`, the 10 s timeout, URLSession and the JSON codecs. Each becomes the outcome it produced.
- Concurrency is not modelled. Threads, `root.after`, pynput listeners, `NSEvent` monitors, `DispatchQueue` and `Task` run sequentially in issue order. Races are outside the model, for example a second hotkey between `handleTranslationRequest`'s check and the `Task` that sets the flag.
- The `time.sleep` pacing and floating-point timestamps are left out; clock readings are integer milliseconds supplied by the caller.
- `load_clipboard`, `load_and_translate` and `on_text_change` are left out. They read the clipboard into the input widget and call `translate`, which is modelled.
- The listener wiring (`start_global_hotkey`, `GlobalHotKeys`) and `os.environ` are left out.
- accessibility_setup.py and test_window.swift are not part of this model.
- Not modelled in ConfigurationManager.swift: `updateLaunchAgent` and `SMLoginItemSetEnabled`, which are a foreign call.
- Not modelled in AppDelegate.swift: `setupMenuBar`, `setupStatusWindow`, `setupNotifications`, `setupUserNotifications`, `applicationShouldHandleReopen`, the preferences window and the success notification.
- `HotkeyError` descriptions are left out: the error is never thrown.
- `requestAccessibilityPermission` and `showAccessibilityPermissionAlert` are reduced to the alert notice in `HandleTextCaptureError`.
- The hotkey manager's `deinit` is left out; it only unregisters, which `Cleanup` models.
- Swift's `String.count` counts grapheme clusters; the model counts characters. `fourCharCodeFrom` receives each character's UTF-8 bytes explicitly.
- The timestamp and `processingTime` of a result come from caller-supplied times and carry no property.
- App.AppDelegate.constructor: the menu-bar icon's initial state is taken to be `.disconnected`, the menu-bar controller's own choice, which is not part of this model.
- App.AppDelegate.HandleTextCaptureError is modelled but unreachable from `CompleteTranslation`. Text capture only throws `TranslationError`, which the model's types make explicit.
- FixedTranslator.FixedTranslatorApp.TranslateStreaming: an exception raised while output is being read is not modelled, only one raised before any output. The `TimeoutExpired` branch is left out because no timeout is passed, so it cannot be reached.
- FixedTranslator.FixedTranslatorApp.OnFontSizeChange: the status label's temporary "📏 フォントサイズ" notice is left out. The label is restored 1.5 s later, and the notice is presentation only.
