/** The compound component of registry/new-york/ui/voice-input.tsx: the
    transcript aggregator, the provider that derives a context record from
    its props, and the three controls, each a function of that record. */
module VoiceInput {
  import opened Wrappers
  import opened Text

  const MisuseMessage := "VoiceInput compound components must be used within a VoiceInput"
  const DefaultPlaceholder := "Listening..."
  const StartLabel := "Start recording"
  const StopLabel := "Stop recording"
  const CancelLabel := "Cancel recording"

  // ---------------------------------------------------------------------
  // Transcript aggregation
  // ---------------------------------------------------------------------

  /** `buildTranscript`: the space-joined committed segments, trimmed, then
      one space and the trimmed partial; either side is dropped when empty. */
  function BuildTranscript(committedTranscripts: seq<string>, partialTranscript: string): (r: string)
    ensures IsTrimmed(r)
    ensures var committed := Trim(JoinSpaced(committedTranscripts));
            var partial := Trim(partialTranscript);
            (committed != "" && partial != "" ==> r == committed + " " + partial)
            && (committed == "" ==> r == partial)
            && (partial == "" ==> r == committed)
  {
    var committed := Trim(JoinSpaced(committedTranscripts));
    var partial := Trim(partialTranscript);
    if committed != "" && partial != "" then
      var r := committed + " " + partial;
      assert r[0] == committed[0] && r[|r| - 1] == partial[|partial| - 1];
      r
    else if committed != "" then committed
    else partial
  }

  /** On the segments a recognition session stores (non-empty, trimmed) and
      a trimmed partial, the transcript is simply all of them joined by
      single spaces, the partial last. */
  lemma {:induction false} BuildTranscriptOfSegments(committed: seq<string>, partial: string)
    requires AllSegments(committed) && IsTrimmed(partial)
    ensures BuildTranscript(committed, partial) == JoinSpaced(if partial == "" then committed else committed + [partial])
  {
    JoinSegments(committed);
    TrimTrimmed(JoinSpaced(committed));
    TrimTrimmed(partial);
    if partial != "" && committed != [] {
      JoinSpacedAppend(committed, partial);
    }
  }

  /** Promoting the partial to a committed segment while clearing the
      partial leaves the transcript unchanged: no repeated text appears. */
  lemma PromotionKeepsTranscript(committed: seq<string>, partial: string)
    requires AllSegments(committed) && IsSegment(partial)
    ensures BuildTranscript(committed + [partial], "") == BuildTranscript(committed, partial)
  {
    AppendSegment(committed, partial);
    BuildTranscriptOfSegments(committed + [partial], "");
    BuildTranscriptOfSegments(committed, partial);
  }

  /** Worked cases: both sides, one side, neither. */
  lemma BuildTranscriptExamples()
    ensures BuildTranscript([], "") == ""
    ensures BuildTranscript(["hello"], "") == "hello"
    ensures BuildTranscript([], "world") == "world"
    ensures BuildTranscript(["hello"], "world") == "hello world"
  {
    assert JoinSpaced(["hello"]) == "hello";
    TrimTrimmed("");
    TrimTrimmed("hello");
    TrimTrimmed("world");
  }

  /** Both inputs are trimmed before they are combined. */
  lemma BuildTranscriptTrimsInputs()
    ensures BuildTranscript(["  hi  "], "  there  ") == "hi there"
  {
    assert JoinSpaced(["  hi  "]) == "  hi  ";
    TrimHi();
    TrimThere();
  }

  lemma TrimHi()
    ensures Trim("  hi  ") == "hi"
  {
    var s := "  hi  ";
    assert SkipLeading(s, 2) == 2;
    assert SkipLeading(s, 1) == 2;
    assert SkipLeading(s, 0) == 2;
    assert SkipTrailing(s, 2, 4) == 4;
    assert SkipTrailing(s, 2, 5) == 4;
    assert SkipTrailing(s, 2, 6) == 4;
    assert s[2..4] == "hi";
  }

  lemma TrimThere()
    ensures Trim("  there  ") == "there"
  {
    var s := "  there  ";
    assert SkipLeading(s, 2) == 2;
    assert SkipLeading(s, 1) == 2;
    assert SkipLeading(s, 0) == 2;
    assert SkipTrailing(s, 2, 7) == 7;
    assert SkipTrailing(s, 2, 8) == 7;
    assert SkipTrailing(s, 2, 9) == 7;
    assert s[2..7] == "there";
  }

  // ---------------------------------------------------------------------
  // The provider and its context record
  // ---------------------------------------------------------------------

  /** The three size variants of the buttons (`size` prop). */
  datatype Size = Default | Small | Large

  /** A callback: the provider's shared no-op, or one the caller supplied,
      told apart by an identity. */
  datatype Handler = NoOp | Callback(id: nat)

  /** The props of `VoiceInput`; `None` is a prop left out (or, for
      `error`, passed as null). */
  datatype Props = Props(
    isConnected: bool,
    isConnecting: Option<bool>,
    partialTranscript: Option<string>,
    committedTranscripts: Option<seq<string>>,
    transcript: Option<string>,
    error: Option<string>,
    onStart: Option<Handler>,
    onStop: Option<Handler>,
    onCancel: Option<Handler>,
    size: Option<Size>)

  /** The context value the provider hands to every control. */
  datatype Context = Context(
    isConnected: bool,
    isConnecting: bool,
    transcript: string,
    partialTranscript: string,
    committedTranscripts: seq<string>,
    error: Option<string>,
    start: Handler,
    stop: Handler,
    cancel: Handler,
    size: Size)

  /** The context value `VoiceInput` derives from its props. */
  function Provide(p: Props): (c: Context)
    ensures c.isConnected == p.isConnected
    ensures c.isConnecting == (p.isConnecting.Some? && p.isConnecting.value)
    ensures p.partialTranscript.Some? ==> c.partialTranscript == p.partialTranscript.value
    ensures p.partialTranscript.None? ==> c.partialTranscript == ""
    ensures p.committedTranscripts.Some? ==> c.committedTranscripts == p.committedTranscripts.value
    ensures p.committedTranscripts.None? ==> c.committedTranscripts == []
    ensures p.transcript.Some? ==> c.transcript == p.transcript.value
    ensures p.transcript.None? ==> c.transcript == BuildTranscript(c.committedTranscripts, c.partialTranscript)
    ensures c.error == p.error
    ensures (p.onStart.None? ==> c.start == NoOp) && (p.onStart.Some? ==> c.start == p.onStart.value)
    ensures (p.onStop.None? ==> c.stop == NoOp) && (p.onStop.Some? ==> c.stop == p.onStop.value)
    ensures (p.onCancel.None? ==> c.cancel == NoOp) && (p.onCancel.Some? ==> c.cancel == p.onCancel.value)
    ensures c.size == p.size.GetOr(Default)
  {
    var committed := p.committedTranscripts.GetOr([]);
    var partial := p.partialTranscript.GetOr("");
    Context(
      isConnected := p.isConnected,
      isConnecting := p.isConnecting.GetOr(false),
      transcript := p.transcript.GetOr(BuildTranscript(committed, partial)),
      partialTranscript := partial,
      committedTranscripts := committed,
      error := p.error,
      start := p.onStart.GetOr(NoOp),
      stop := p.onStop.GetOr(NoOp),
      cancel := p.onCancel.GetOr(NoOp),
      size := p.size.GetOr(Default))
  }

  /** Without an override the context transcript is always trimmed; with
      one it is the caller's string verbatim, even an empty or untrimmed one. */
  lemma ProvideTranscript(p: Props)
    ensures p.transcript.None? ==> IsTrimmed(Provide(p).transcript)
    ensures p.transcript.Some? ==> Provide(p).transcript == p.transcript.value
  {
  }

  /** Props that give only `isConnected` yield an idle-looking context:
      empty transcript, no error, every action a no-op, default size. */
  lemma ProvideDefaults(connected: bool)
    ensures var c := Provide(Props(connected, None, None, None, None, None, None, None, None, None));
            c == Context(connected, false, "", "", [], None, NoOp, NoOp, NoOp, Default)
  {
    assert BuildTranscript([], "") == "" by { TrimTrimmed(""); }
  }

  /** `useVoiceInput`: the context from the nearest provider, or the misuse error. */
  function UseVoiceInput(provided: Option<Context>): (r: Result<Context>)
    ensures provided.None? <==> r.Failure?
    ensures r.Failure? ==> r.message == MisuseMessage
    ensures r.Success? ==> r.value == provided.value
  {
    match provided
    case None => Failure(MisuseMessage)
    case Some(c) => Success(c)
  }

  // ---------------------------------------------------------------------
  // Controls
  // ---------------------------------------------------------------------

  /** What activating a control does, in order: fire one of the context
      actions, or run the caller's own `onClick`. */
  datatype Effect = Start | Stop | Cancel | CallerOnClick

  /** The caller's `disabled` prop, if any, and whether an `onClick` was given. */
  datatype RecordButtonProps = RecordButtonProps(disabled: Option<bool>, hasOnClick: bool)

  /** What `VoiceInputRecordButton` renders. A disabled button receives no
      clicks, so `disabled` suppresses `click`. `connectingIndicator` is the
      filled skeleton dot and `compact` the 80% scale. */
  datatype RecordButtonView = RecordButtonView(
    disabled: bool,
    ariaLabel: string,
    compact: bool,
    connectingIndicator: bool,
    stopGlyph: bool,
    micGlyph: bool,
    click: seq<Effect>)

  /** `VoiceInputRecordButton`: a click fires exactly one of `stop` (when
      connected) or `start` (otherwise), then the caller's `onClick`. */
  function RecordButton(provided: Option<Context>, props: RecordButtonProps): (r: Result<RecordButtonView>)
    ensures provided.None? ==> r == Failure(MisuseMessage)
    ensures provided.Some? ==> r.Success?
    ensures r.Success? ==>
      var c, v := provided.value, r.value;
      && |v.click| == (if props.hasOnClick then 2 else 1)
      && (Stop in v.click <==> c.isConnected)
      && (Start in v.click <==> !c.isConnected)
      && Cancel !in v.click
      && (CallerOnClick in v.click <==> props.hasOnClick)
      && (props.hasOnClick ==> v.click[|v.click| - 1] == CallerOnClick)
      && v.disabled == (if props.disabled.Some? then props.disabled.value else c.isConnecting)
      && (v.ariaLabel == StopLabel <==> c.isConnected)
      && (v.ariaLabel == StartLabel <==> !c.isConnected)
      && (v.stopGlyph <==> !c.isConnecting && c.isConnected)
      && (v.micGlyph <==> !c.isConnecting && !c.isConnected)
      && !(v.stopGlyph && v.micGlyph)
      && v.connectingIndicator == c.isConnecting
      && v.compact == c.isConnected
  {
    match UseVoiceInput(provided)
    case Failure(m) => Failure(m)
    case Success(c) =>
      Success(RecordButtonView(
        disabled := props.disabled.GetOr(c.isConnecting),
        ariaLabel := if c.isConnected then StopLabel else StartLabel,
        compact := c.isConnected,
        connectingIndicator := c.isConnecting,
        stopGlyph := !c.isConnecting && c.isConnected,
        micGlyph := !c.isConnecting && !c.isConnected,
        click := [if c.isConnected then Stop else Start] + (if props.hasOnClick then [CallerOnClick] else [])))
  }

  /** The record button's three states: idle starts and shows the mic;
      connecting is disabled (unless the caller forces it) and shows no
      glyph; connected stops and shows the stop glyph. */
  lemma RecordButtonStates(c: Context, props: RecordButtonProps)
    requires !(c.isConnecting && c.isConnected)
    ensures var v := RecordButton(Some(c), props).value;
            && (!c.isConnecting && !c.isConnected ==> v.click[0] == Start && v.micGlyph && !v.stopGlyph)
            && (c.isConnecting && props.disabled.None? ==> v.disabled && !v.micGlyph && !v.stopGlyph)
            && (c.isConnected ==> v.click[0] == Stop && v.stopGlyph && !v.micGlyph)
  {
  }

  /** The caller's `placeholder` prop, if any. */
  datatype PreviewProps = PreviewProps(placeholder: Option<string>)

  /** What `VoiceInputPreview` renders. `placeholderStyle` is the italic
      placeholder styling, `collapsed` the zero width. */
  datatype PreviewView = PreviewView(
    displayText: string,
    title: string,
    placeholderStyle: bool,
    inert: bool,
    ariaHidden: bool,
    collapsed: bool)

  /** `VoiceInputPreview`: the transcript when non-empty, else the
      placeholder; out of reach and out of layout unless connected. */
  function Preview(provided: Option<Context>, props: PreviewProps): (r: Result<PreviewView>)
    ensures provided.None? ==> r == Failure(MisuseMessage)
    ensures provided.Some? ==> r.Success?
    ensures r.Success? ==>
      var c, v := provided.value, r.value;
      && (c.transcript != "" ==> v.displayText == c.transcript)
      && (c.transcript == "" && props.placeholder.Some? ==> v.displayText == props.placeholder.value)
      && (c.transcript == "" && props.placeholder.None? ==> v.displayText == DefaultPlaceholder)
      && v.title == v.displayText
      && (v.placeholderStyle <==> AllWhitespace(c.transcript))
      && (v.inert <==> !c.isConnected)
      && (v.ariaHidden <==> !c.isConnected)
      && (v.collapsed <==> !c.isConnected)
  {
    match UseVoiceInput(provided)
    case Failure(m) => Failure(m)
    case Success(c) =>
      var displayText := if c.transcript != "" then c.transcript else props.placeholder.GetOr(DefaultPlaceholder);
      TrimEmpty(c.transcript);
      Success(PreviewView(
        displayText := displayText,
        title := displayText,
        placeholderStyle := Trim(c.transcript) == "",
        inert := !c.isConnected,
        ariaHidden := !c.isConnected,
        collapsed := !c.isConnected))
  }

  /** A whitespace-only override is shown as it is, yet styled as a placeholder. */
  lemma PreviewWhitespaceTranscript(c: Context)
    requires c.transcript == "  "
    ensures var v := Preview(Some(c), PreviewProps(None)).value;
            v.displayText == "  " && v.placeholderStyle
  {
  }

  /** Whether the caller gave an `onClick`. */
  datatype CancelButtonProps = CancelButtonProps(hasOnClick: bool)

  /** What `VoiceInputCancelButton` renders. An inert button receives no clicks. */
  datatype CancelButtonView = CancelButtonView(
    inert: bool,
    collapsed: bool,
    compact: bool,
    ariaLabel: string,
    click: seq<Effect>)

  /** `VoiceInputCancelButton`: a click fires `cancel` once, then the
      caller's `onClick`; inert and zero-width unless connected. */
  function CancelButton(provided: Option<Context>, props: CancelButtonProps): (r: Result<CancelButtonView>)
    ensures provided.None? ==> r == Failure(MisuseMessage)
    ensures provided.Some? ==> r.Success?
    ensures r.Success? ==>
      var c, v := provided.value, r.value;
      && |v.click| == (if props.hasOnClick then 2 else 1)
      && v.click[0] == Cancel
      && Start !in v.click && Stop !in v.click && Cancel !in v.click[1..]
      && (CallerOnClick in v.click <==> props.hasOnClick)
      && v.ariaLabel == CancelLabel
      && (v.inert <==> !c.isConnected)
      && (v.collapsed <==> !c.isConnected)
      && (v.compact <==> c.isConnected)
  {
    match UseVoiceInput(provided)
    case Failure(m) => Failure(m)
    case Success(c) =>
      Success(CancelButtonView(
        inert := !c.isConnected,
        collapsed := !c.isConnected,
        compact := c.isConnected,
        ariaLabel := CancelLabel,
        click := [Cancel] + (if props.hasOnClick then [CallerOnClick] else [])))
  }
}
