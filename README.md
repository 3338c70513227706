# voice-input, modelled in Dafny

This project models the two core files of the voice-input repository.

**registry/new-york/ui/voice-input.tsx** is a compound React component. It is shown here as pure functions from props to what each part renders:
- `buildTranscript` joins the committed segments and the partial transcript.
- The `VoiceInput` provider derives a context record from its props. It fills in defaults, lets a `transcript` prop override the derived one, and substitutes a shared no-op for each missing action.
- `useVoiceInput` fails outside a provider.
- The record button, the preview and the cancel button are each a function of the context record and their own props.

**components/web-speech-demo.tsx** is the host page that drives the component with the browser's Web Speech API. It is shown here as the class `SpeechDemo.WebSpeechDemo`:
- Its five fields are the page's state cells.
- Its `recognition` field is the lazily created recogniser.
- Its methods are the recogniser's `start`, `result`, `error` and `end` handlers, the page's `start`/`stop`/`cancel` actions, `ensureRecognizer` and the unmount cleanup.

Each method is proved against a pure function on a `Session` value: `State() == AfterX(old(State()))`. Every state-changing method also keeps the class invariant `Valid()`: every committed entry is non-empty and trimmed, and the partial transcript is trimmed (it may be empty). The properties are proved as lemmas about those functions. The main ones:
- the `result` loop commits only non-empty trimmed segments, in order;
- promoting a partial to a final result never shows the text twice;
- cancel is idempotent;
- the recogniser's `start`, `error` and `end` events and the page's `stop` and `cancel` actions never leave "connecting" and "connected" both set. The page's `start` action keeps them apart only when it starts from a disconnected state. A `result` event leaves both flags as they were.

Files:
- `wrappers.dfy`: `Option` and `Result`.
- `text.dfy`: JavaScript's `trim` (the ECMAScript WhiteSpace and LineTerminator code points) and `join(" ")`.
- `voice_input.dfy`: the component file.
- `speech_demo.dfy`: the host page.

How the model represents the page's environment:
- Callbacks are values of `Handler`: `NoOp`, or `Callback(id)` for one the caller supplied.
- A click is the sequence of `Effect`s it fires, in order.
- A `disabled` or `inert` control receives no clicks.
- The browser's recogniser is a `Recognizer` object that records its settings and counts the `start()` and `stop()` calls made on it.
- Whether the browser provides a recogniser constructor is the `supported` parameter.
- What `start()` throws is the `failure` parameter.
- React applies the page's state updates in the order the handlers issue them. The committed list is updated through functional updates, so assigning the fields one after another gives the same final state.

## Model

| member | source | states |
|---|---|---|
| Text.Trim | registry/new-york/ui/voice-input.tsx:70-71 | the result of `trim` has no whitespace at either end |
| Text.TrimSlices | registry/new-york/ui/voice-input.tsx:70-71 | `trim(s)` is a contiguous slice of `s` with only whitespace before and after it |
| Text.TrimEmpty | registry/new-york/ui/voice-input.tsx:318 | `trim(s)` is empty exactly when `s` is whitespace only (both directions) |
| Text.TrimTrimmed | registry/new-york/ui/voice-input.tsx:70-71 | `trim` leaves a string with no end whitespace unchanged, so it is idempotent |
| Text.JoinSpaced | registry/new-york/ui/voice-input.tsx:70 | `join(" ")`: the parts in order with one space between neighbours; its properties are the two rows below |
| Text.AppendSegment | components/web-speech-demo.tsx:105 | appending a non-empty trimmed text to a list of such texts gives a list of such texts |
| Text.JoinSpacedAppend | registry/new-york/ui/voice-input.tsx:70 | joining with one more part appends one space and that part |
| Text.JoinSegments | registry/new-york/ui/voice-input.tsx:70 | joining non-empty trimmed parts gives a trimmed string, empty exactly when there are no parts |
| VoiceInput.BuildTranscript | registry/new-york/ui/voice-input.tsx:63-77 | trimmed committed text, one space, trimmed partial; a side that trims to empty is dropped; the result is trimmed |
| VoiceInput.BuildTranscriptOfSegments | registry/new-york/ui/voice-input.tsx:63-77 | on stored segments and a trimmed partial, the transcript is all of them joined by single spaces, the partial last |
| VoiceInput.PromotionKeepsTranscript | registry/new-york/ui/voice-input.tsx:63-77 | moving the partial to the end of the committed list, with the partial cleared, gives the same transcript |
| VoiceInput.BuildTranscriptExamples | registry/new-york/ui/voice-input.tsx:73-76 | both sides, committed only, partial only and neither give "hello world", "hello", "world" and "" |
| VoiceInput.BuildTranscriptTrimsInputs | registry/new-york/ui/voice-input.tsx:70-74 | padded inputs ("  hi  ", "  there  ") are trimmed before they are joined: "hi there" |
| VoiceInput.Provide | registry/new-york/ui/voice-input.tsx:143-201 | each context field: `isConnecting` defaults to false, transcripts default to empty, a given `transcript` wins over the derived one, a missing action becomes the no-op, size defaults to default |
| VoiceInput.ProvideTranscript | registry/new-york/ui/voice-input.tsx:163-177 | the derived transcript is always trimmed; an override is passed through verbatim |
| VoiceInput.ProvideDefaults | registry/new-york/ui/voice-input.tsx:148-161 | with only `isConnected` given, the context is idle-looking: not connecting, empty transcript, no error, no-op actions, default size; `isConnected` is passed through |
| VoiceInput.UseVoiceInput | registry/new-york/ui/voice-input.tsx:53-61 | fails, with the misuse message, exactly when there is no provider; otherwise yields the provider's context |
| VoiceInput.RecordButton | registry/new-york/ui/voice-input.tsx:233-291 | a click fires `stop` exactly when connected and `start` exactly when not, never `cancel`, then the caller's `onClick` last; the caller's `disabled` wins over "connecting"; the label, the stop glyph and the mic glyph follow the flags, and the two glyphs are never both shown; outside a provider it fails |
| VoiceInput.RecordButtonStates | registry/new-york/ui/voice-input.tsx:247-287 | idle: starts and shows the mic; connecting: disabled, neither glyph; connected: stops and shows the stop glyph |
| VoiceInput.Preview | registry/new-york/ui/voice-input.tsx:308-347 | shows the transcript when non-empty, else the caller's placeholder, else "Listening..."; the title matches; placeholder styling exactly when the transcript is whitespace only; inert, hidden and zero-width exactly when not connected |
| VoiceInput.PreviewWhitespaceTranscript | registry/new-york/ui/voice-input.tsx:317-318 | a whitespace-only override is displayed as it is, yet styled as a placeholder |
| VoiceInput.CancelButton | registry/new-york/ui/voice-input.tsx:360-393 | a click fires `cancel` first and once, never `start` or `stop`, then the caller's `onClick`; inert and collapsed exactly when not connected; labelled "Cancel recording" |
| SpeechDemo.TopTranscript | components/web-speech-demo.tsx:100 | the trimmed text of the first alternative, "" when it is missing; never has end whitespace |
| SpeechDemo.Visited | components/web-speech-demo.tsx:98 | the results the loop visits: from `resultIndex` to the end, none when `resultIndex` is past the end |
| SpeechDemo.Transcript | components/web-speech-demo.tsx:202-206 | the transcript the provider derives from the page's cells; never has end whitespace |
| SpeechDemo.VisitedInOrder | components/web-speech-demo.tsx:98-99 | the loop visits `results[resultIndex..]` in increasing order, and nothing when `resultIndex` is past the end |
| SpeechDemo.AfterResult | components/web-speech-demo.tsx:99-109 | an empty transcript changes nothing; a final one appends to the committed list and clears the partial; an interim one replaces the partial; flags and error untouched |
| SpeechDemo.FinalTexts | components/web-speech-demo.tsx:98-106 | the texts the loop commits are non-empty and trimmed, at most one per visited result |
| SpeechDemo.Fold | components/web-speech-demo.tsx:98-110 | after the loop's first `n` steps: flags and error untouched, a trimmed partial stays trimmed, and the last result (when non-empty) decides the partial (the committed list: `FoldCommitted`) |
| SpeechDemo.FoldStep | components/web-speech-demo.tsx:98-110 | one more iteration of the loop is one more `AfterResult` step |
| SpeechDemo.FoldCommitted | components/web-speech-demo.tsx:104-106 | the committed list only grows, by the final non-empty texts in result order |
| SpeechDemo.AfterResults | components/web-speech-demo.tsx:97-111 | the whole `result` handler: flags and error untouched, and the last visited result (when non-empty) decides the partial |
| SpeechDemo.SkippedResults | components/web-speech-demo.tsx:100-102 | results whose top transcript is missing or blank leave the state unchanged |
| SpeechDemo.AfterResultWellFormed | components/web-speech-demo.tsx:100-109 | one iteration keeps every committed entry non-empty and trimmed, and the partial trimmed |
| SpeechDemo.AfterResultsWellFormed | components/web-speech-demo.tsx:97-111 | a `result` event keeps every committed entry non-empty and trimmed, and the partial trimmed |
| SpeechDemo.FinalResultKeepsTranscript | components/web-speech-demo.tsx:104-106 | a final result repeating the shown partial leaves the aggregated transcript unchanged |
| SpeechDemo.PromotionScenario | components/web-speech-demo.tsx:97-111 | interim "hel", interim "hello", final "hello": transcripts "hel", "hello", "hello", ending with one committed entry |
| SpeechDemo.AfterStartEvent | components/web-speech-demo.tsx:92-95 | `start` event: connected, not connecting, all else kept |
| SpeechDemo.AfterErrorEvent | components/web-speech-demo.tsx:113-117 | `error` event: the code, or "Speech recognition error" when none, becomes the error; disconnected; transcripts kept |
| SpeechDemo.AfterEndEvent | components/web-speech-demo.tsx:119-123 | `end` event: disconnected and the partial dropped; committed list and error kept |
| SpeechDemo.Started | components/web-speech-demo.tsx:129-148 | error and transcripts cleared; unsupported: the unsupported message, flags untouched; otherwise connecting unless `start()` throws, which clears connecting and records the message |
| SpeechDemo.Stopped | components/web-speech-demo.tsx:150-156 | both flags cleared, nothing else changed |
| SpeechDemo.Cancelled | components/web-speech-demo.tsx:158-165 | transcripts discarded and both flags cleared, whatever the state before; the error is kept |
| SpeechDemo.ResultAfterCancelCommits | components/web-speech-demo.tsx:104-106 | after `cancel`, a final result still delivered by the stopped recogniser is committed: the transcript reads that text |
| SpeechDemo.CancelIdempotent | components/web-speech-demo.tsx:158-165 | cancelling twice equals cancelling once; afterwards idle, well formed, with an empty transcript |
| SpeechDemo.LifecyclePreserves | components/web-speech-demo.tsx:92-123 | the `start`, `error` and `end` events and the stop and cancel actions keep the state well formed and never leave both flags set |
| SpeechDemo.HostProps | components/web-speech-demo.tsx:202-210 | the provider sees the page's flags and error, the transcript built from its cells, and its three actions |
| SpeechDemo.HostTranscript | components/web-speech-demo.tsx:202-206 | on a well-formed session, the displayed transcript is the committed entries and the partial joined by single spaces |
| SpeechDemo.HostRecordButton | components/web-speech-demo.tsx:202-214 | on the page, the record button fires the context's `stop` when connected and its `start` otherwise, those two are the page's own `stop` and `start` callbacks, and the button is disabled while connecting |
| SpeechDemo.Recognizer.constructor | components/web-speech-demo.tsx:30-35 | a new recogniser has the Web Speech API's defaults (not continuous, no interim results, empty language; the interface at these lines declares the fields without defaults) and has not yet been started or stopped |
| SpeechDemo.Recognizer.Start | components/web-speech-demo.tsx:34 | counts one `start()` call and changes nothing else |
| SpeechDemo.Recognizer.Stop | components/web-speech-demo.tsx:35 | counts one `stop()` call and changes nothing else |
| SpeechDemo.WebSpeechDemo.constructor | components/web-speech-demo.tsx:63-71 | the state cells start disconnected, with empty transcripts, no error and no recogniser; `Valid()` holds |
| SpeechDemo.WebSpeechDemo.EnsureRecognizer | components/web-speech-demo.tsx:81-90 | null when unsupported; otherwise the existing recogniser, or a fresh one set to continuous, interim results and "en-US", which is then stored |
| SpeechDemo.WebSpeechDemo.OnStart | components/web-speech-demo.tsx:92-95 | the new state is `AfterStartEvent` of the old one; `Valid()` is kept |
| SpeechDemo.WebSpeechDemo.OnResult | components/web-speech-demo.tsx:97-111 | the loop leaves the state that folding `AfterResult` over the visited results gives, in order; `Valid()` is kept |
| SpeechDemo.WebSpeechDemo.TakeResult | components/web-speech-demo.tsx:99-109 | one loop iteration leaves `AfterResult` of the state before it; `Valid()` is kept |
| SpeechDemo.WebSpeechDemo.OnError | components/web-speech-demo.tsx:113-117 | the new state is `AfterErrorEvent` of the old one; `Valid()` is kept |
| SpeechDemo.WebSpeechDemo.OnEnd | components/web-speech-demo.tsx:119-123 | the new state is `AfterEndEvent` of the old one; `Valid()` is kept |
| SpeechDemo.WebSpeechDemo.Start | components/web-speech-demo.tsx:129-148 | the new state is `Started` of the old one, so `Valid()` holds afterwards; when unsupported, an existing recogniser is untouched; when supported, the recogniser (created on first use) has been started exactly once more and not stopped; an existing recogniser keeps its settings |
| SpeechDemo.WebSpeechDemo.Stop | components/web-speech-demo.tsx:150-156 | nothing without a recogniser; otherwise the new state is `Stopped` of the old one, and the recogniser is stopped once and keeps its settings; `Valid()` is kept |
| SpeechDemo.WebSpeechDemo.Cancel | components/web-speech-demo.tsx:158-165 | the new state is `Cancelled` of the old one, so `Valid()` holds afterwards; the recogniser, if any, is stopped once and keeps its settings |
| SpeechDemo.WebSpeechDemo.Unmount | components/web-speech-demo.tsx:167-172 | the recogniser, if any, is stopped once, keeps its settings, and the reference is dropped; the state cells are unchanged, so `Valid()` is kept |

## Left out

- Markup and styling are not modelled: the JSX tree, Tailwind classes, `cn`/`cva`, the Skeleton, Square, Mic and X icons and motion animations. Only the booleans that select a style are kept.
- Size variants (voice-input.tsx:12-25) are kept only as the `size` value in the context. The pixel sizes are presentation.
- Caller pass-through props are not modelled: `className`, `variant`, `ref`, and the `{...props}` spread that could also override attributes such as `aria-label`. The spread is opaque HTML attributes.
- React's machinery is abstracted: `useMemo`/`useCallback` identity, re-rendering, and context propagation. The provider's context is passed to each control as an `Option<Context>`.
- Callbacks that return a Promise are treated as synchronous. Nothing in the core awaits them.
- `getSpeechRecognitionCtor` (web-speech-demo.tsx:44-60) reads the browser `window`. It is replaced by the `supported` parameter of `Start` and `EnsureRecognizer`.
- The support badge and its `useTransition` probe (web-speech-demo.tsx:72-79, 183-199) are display-only, so they are not modelled.
- The transcript panel and error banner (web-speech-demo.tsx:220-235) are display-only, so they are not modelled.
- The recogniser's speech recognition itself, alternative confidence scores and alternatives after the first belong to the browser, so they are not modelled. Events are given as their data.
- `SpeechDemo.WebSpeechDemo.Start` models what `start()` throws only by its message string. `err instanceof Error ? err.message : String(err)` is not distinguished.
- `SpeechDemo.WebSpeechDemo.Start` has no failure path for `new Ctor()` (web-speech-demo.tsx:87). That call sits outside the `try`, so a throwing constructor would escape `start` after the error and transcripts were cleared.
- The recogniser's own behaviour after `stop()` is not modelled. `cancel` (web-speech-demo.tsx:164) calls `stop()`, and the Web Speech API may still deliver a final result after `stop()`; `abort()` would not. The handlers accept results in any state, so such a late result is committed after a cancel (`SpeechDemo.ResultAfterCancelCommits`). Whether a given browser delivers one is outside the model, so this is not recorded as a defect.
- `VoiceInput.RecordButton` and `VoiceInput.CancelButton` always end a click with `CallerOnClick`. If a context action throws synchronously, the caller's `onClick` is skipped (voice-input.tsx:247-253, 375-377). Actions are assumed not to throw.
- JavaScript strings are sequences of UTF-16 code units; Dafny's `string` is a sequence of Unicode scalar values. Lone surrogates cannot be represented. `trim` is unaffected, because every code point it strips is in the Basic Multilingual Plane.
- `SpeechDemo.Started` does not exclude the case where `start` runs while already connected, leaving both flags set. The code allows it. The record button never calls `start` in that state (`VoiceInput.RecordButton`: `start` is fired only when not connected).
- `VoiceInput.RecordButton` and `VoiceInput.CancelButton` describe a click by its effects. They do not model the DOM event object passed on to the caller's `onClick`.
- components/install-snippet.tsx and app/page.tsx are not part of this model: they are a copy-to-clipboard widget and the landing page.
