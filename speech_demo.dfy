/** The host integration of components/web-speech-demo.tsx: a recognition
    session whose state cells are updated, one event or user action at a
    time, and handed to the VoiceInput provider as props.

    The browser's recogniser is reduced to an object that counts the
    `start()` and `stop()` calls made on it; its events arrive as calls of
    the `On…` methods, whose event arguments carry only what the handlers read. */
module SpeechDemo {
  import opened Wrappers
  import opened Text
  import VoiceInput

  const DefaultErrorMessage := "Speech recognition error"
  const UnsupportedMessage := "Web Speech API is not supported in this browser."
  const Language := "en-US"

  /** One recognition result: the transcripts of its alternatives, best
      first (`None` where an alternative carries none), and whether it is final. */
  datatype SpeechResult = SpeechResult(alternatives: seq<Option<string>>, isFinal: bool)

  /** A `result` event: the index of the first changed result, and the results. */
  datatype ResultEvent = ResultEvent(resultIndex: nat, results: seq<SpeechResult>)

  /** An `error` event and its optional error code. */
  datatype ErrorEvent = ErrorEvent(error: Option<string>)

  /** The trimmed text of the top alternative, or "" when there is none. */
  function TopTranscript(r: SpeechResult): (t: string)
    ensures IsTrimmed(t)
    ensures t != "" ==> |r.alternatives| > 0 && r.alternatives[0].Some?
    ensures |r.alternatives| > 0 && r.alternatives[0].Some? ==> t == Trim(r.alternatives[0].value)
  {
    if |r.alternatives| > 0 && r.alternatives[0].Some? then Trim(r.alternatives[0].value) else ""
  }

  /** The results a `result` event handler visits. */
  function Visited(ev: ResultEvent): seq<SpeechResult> {
    if ev.resultIndex < |ev.results| then ev.results[ev.resultIndex..] else []
  }

  /** The handler visits indices `resultIndex` up to the last, in
      increasing order, and none when `resultIndex` is past the end. */
  lemma VisitedInOrder(ev: ResultEvent)
    ensures |Visited(ev)| == if ev.resultIndex < |ev.results| then |ev.results| - ev.resultIndex else 0
    ensures forall k :: 0 <= k < |Visited(ev)| ==> Visited(ev)[k] == ev.results[ev.resultIndex + k]
  {
  }

  // ---------------------------------------------------------------------
  // The session's state cells, and how each event or action changes them
  // ---------------------------------------------------------------------

  datatype Session = Session(
    isConnected: bool,
    isConnecting: bool,
    partialTranscript: string,
    committedTranscripts: seq<string>,
    error: Option<string>)

  /** The state on mount. */
  const Initial := Session(false, false, "", [], None)

  /** Every committed entry is non-empty and trimmed, and so is the partial (or it is empty). */
  predicate WellFormed(s: Session) {
    AllSegments(s.committedTranscripts) && IsTrimmed(s.partialTranscript)
  }

  /** Connecting and connected do not hold together. */
  predicate Exclusive(s: Session) {
    !(s.isConnecting && s.isConnected)
  }

  /** The aggregated transcript the provider derives from the session. */
  function Transcript(s: Session): (t: string)
    ensures IsTrimmed(t)
  {
    VoiceInput.BuildTranscript(s.committedTranscripts, s.partialTranscript)
  }

  /** One step of the `result` handler's loop: an empty top transcript is
      skipped; a final one is appended to the committed list and clears the
      partial in the same step; an interim one replaces the partial. */
  function AfterResult(s: Session, r: SpeechResult): (s': Session)
    ensures s'.isConnected == s.isConnected && s'.isConnecting == s.isConnecting && s'.error == s.error
    ensures TopTranscript(r) == "" ==> s' == s
    ensures TopTranscript(r) != "" && r.isFinal ==>
              s'.committedTranscripts == s.committedTranscripts + [TopTranscript(r)] && s'.partialTranscript == ""
    ensures TopTranscript(r) != "" && !r.isFinal ==>
              s'.committedTranscripts == s.committedTranscripts && s'.partialTranscript == TopTranscript(r)
  {
    var transcript := TopTranscript(r);
    if transcript == "" then s
    else if r.isFinal then s.(committedTranscripts := s.committedTranscripts + [transcript], partialTranscript := "")
    else s.(partialTranscript := transcript)
  }

  /** The non-empty top transcripts of the final results among the first `n`, in order. */
  function FinalTexts(rs: seq<SpeechResult>, n: nat): (ts: seq<string>)
    requires n <= |rs|
    ensures AllSegments(ts)
    ensures |ts| <= n
  {
    if n == 0 then []
    else
      var t := TopTranscript(rs[n - 1]);
      FinalTexts(rs, n - 1) + (if t != "" && rs[n - 1].isFinal then [t] else [])
  }

  /** The `result` handler's loop run over the first `n` of `rs`: the
      partial ends as the last non-empty result left it, and flags and
      error are untouched (the committed list: `FoldCommitted`). */
  function Fold(s: Session, rs: seq<SpeechResult>, n: nat): (s': Session)
    requires n <= |rs|
    ensures s'.isConnected == s.isConnected && s'.isConnecting == s.isConnecting && s'.error == s.error
    ensures IsTrimmed(s.partialTranscript) ==> IsTrimmed(s'.partialTranscript)
    ensures n > 0 && TopTranscript(rs[n - 1]) != "" ==>
              s'.partialTranscript == if rs[n - 1].isFinal then "" else TopTranscript(rs[n - 1])
  {
    if n == 0 then s else AfterResult(Fold(s, rs, n - 1), rs[n - 1])
  }

  /** One more step of the loop is one more `AfterResult`. */
  lemma FoldStep(s: Session, rs: seq<SpeechResult>, k: nat)
    requires k < |rs|
    ensures Fold(s, rs, k + 1) == AfterResult(Fold(s, rs, k), rs[k])
  {
  }

  /** The committed list only grows, by the final texts in order. */
  lemma {:induction false} FoldCommitted(s: Session, rs: seq<SpeechResult>, n: nat)
    requires n <= |rs|
    ensures Fold(s, rs, n).committedTranscripts == s.committedTranscripts + FinalTexts(rs, n)
  {
    if n > 0 {
      FoldCommitted(s, rs, n - 1);
    }
  }

  /** What one `result` event does: the loop over the visited results. */
  function AfterResults(s: Session, rs: seq<SpeechResult>): (s': Session)
    ensures s'.isConnected == s.isConnected && s'.isConnecting == s.isConnecting && s'.error == s.error
    ensures |rs| > 0 && TopTranscript(rs[|rs| - 1]) != "" ==>
              s'.partialTranscript == if rs[|rs| - 1].isFinal then "" else TopTranscript(rs[|rs| - 1])
  {
    Fold(s, rs, |rs|)
  }

  /** Results whose top transcript is empty or missing change nothing. */
  lemma {:induction false} SkippedResults(s: Session, rs: seq<SpeechResult>, n: nat)
    requires n <= |rs|
    requires forall k :: 0 <= k < n ==> TopTranscript(rs[k]) == ""
    ensures Fold(s, rs, n) == s
  {
    if n > 0 {
      SkippedResults(s, rs, n - 1);
    }
  }

  /** One step of the loop keeps the state well formed. */
  lemma AfterResultWellFormed(s: Session, r: SpeechResult)
    requires WellFormed(s)
    ensures WellFormed(AfterResult(s, r))
  {
    var t := TopTranscript(r);
    if t != "" && r.isFinal {
      AppendSegment(s.committedTranscripts, t);
    }
  }

  /** `result` events keep the state well formed: what they commit is
      non-empty and trimmed, and so is what they leave as the partial. */
  lemma AfterResultsWellFormed(s: Session, rs: seq<SpeechResult>)
    requires WellFormed(s)
    ensures WellFormed(AfterResults(s, rs))
  {
    FoldCommitted(s, rs, |rs|);
    var a, b := s.committedTranscripts, FinalTexts(rs, |rs|);
    forall i | 0 <= i < |a + b| ensures IsSegment((a + b)[i]) {
      if i < |a| { assert (a + b)[i] == a[i]; } else { assert (a + b)[i] == b[i - |a|]; }
    }
  }

  /** A final result carrying the text already shown as the partial leaves
      the aggregated transcript as it was: the text is never shown twice. */
  lemma FinalResultKeepsTranscript(s: Session, r: SpeechResult)
    requires WellFormed(s) && r.isFinal && TopTranscript(r) == s.partialTranscript != ""
    ensures Transcript(AfterResult(s, r)) == Transcript(s)
  {
    VoiceInput.PromotionKeepsTranscript(s.committedTranscripts, s.partialTranscript);
  }

  /** Interim "hel", interim "hello", then final "hello": the transcript
      reads "hel", "hello" and "hello", ending with one committed entry. */
  lemma PromotionScenario()
    ensures var s0 := Session(true, false, "", [], None);
            var s1 := AfterResults(s0, Visited(ResultEvent(0, [SpeechResult([Some("hel")], false)])));
            var s2 := AfterResults(s1, Visited(ResultEvent(0, [SpeechResult([Some("hello")], false)])));
            var s3 := AfterResults(s2, Visited(ResultEvent(0, [SpeechResult([Some("hello")], true)])));
            && s1.partialTranscript == "hel" && Transcript(s1) == "hel"
            && s2.partialTranscript == "hello" && s2.committedTranscripts == [] && Transcript(s2) == "hello"
            && s3.partialTranscript == "" && s3.committedTranscripts == ["hello"] && Transcript(s3) == "hello"
  {
    TrimTrimmed("hel");
    TrimTrimmed("hello");
    var r1, r2, r3 := SpeechResult([Some("hel")], false), SpeechResult([Some("hello")], false), SpeechResult([Some("hello")], true);
    assert Visited(ResultEvent(0, [r1])) == [r1];
    assert Visited(ResultEvent(0, [r2])) == [r2];
    assert Visited(ResultEvent(0, [r3])) == [r3];
    var s0 := Session(true, false, "", [], None);
    var s1 := AfterResult(s0, r1);
    var s2 := AfterResult(s1, r2);
    var s3 := AfterResult(s2, r3);
    assert s2 == Session(true, false, "hello", [], None);
    VoiceInput.BuildTranscriptOfSegments([], "hel");
    VoiceInput.BuildTranscriptOfSegments([], "hello");
    VoiceInput.BuildTranscriptOfSegments(["hello"], "");
  }

  /** `start` event: connected, no longer connecting. */
  function AfterStartEvent(s: Session): (s': Session)
    ensures s'.isConnected && !s'.isConnecting && Exclusive(s')
    ensures s'.partialTranscript == s.partialTranscript && s'.committedTranscripts == s.committedTranscripts
    ensures s'.error == s.error
  {
    s.(isConnecting := false, isConnected := true)
  }

  /** `error` event: the event's code (or the generic message) becomes the
      error, and the session is disconnected; transcripts are kept. */
  function AfterErrorEvent(s: Session, ev: ErrorEvent): (s': Session)
    ensures !s'.isConnected && !s'.isConnecting
    ensures ev.error.Some? ==> s'.error == ev.error
    ensures ev.error.None? ==> s'.error == Some(DefaultErrorMessage)
    ensures s'.partialTranscript == s.partialTranscript && s'.committedTranscripts == s.committedTranscripts
  {
    s.(error := Some(ev.error.GetOr(DefaultErrorMessage)), isConnecting := false, isConnected := false)
  }

  /** `end` event: disconnected and the partial dropped; the committed list and error are kept. */
  function AfterEndEvent(s: Session): (s': Session)
    ensures !s'.isConnected && !s'.isConnecting && s'.partialTranscript == ""
    ensures s'.committedTranscripts == s.committedTranscripts && s'.error == s.error
  {
    s.(isConnecting := false, isConnected := false, partialTranscript := "")
  }

  /** The `start` action. It first clears the error and both transcripts.
      Unsupported: the unsupported message, flags untouched. Otherwise
      connecting, unless the recogniser's `start()` throws `failure`, which
      clears connecting again and becomes the error. */
  function Started(s: Session, supported: bool, failure: Option<string>): (s': Session)
    ensures s'.committedTranscripts == [] && s'.partialTranscript == "" && WellFormed(s')
    ensures s'.isConnected == s.isConnected
    ensures !supported ==> s'.error == Some(UnsupportedMessage) && s'.isConnecting == s.isConnecting
    ensures supported && failure.None? ==> s'.error == None && s'.isConnecting
    ensures supported && failure.Some? ==> s'.error == failure && !s'.isConnecting
    ensures Exclusive(s) && !s.isConnected ==> Exclusive(s')
  {
    var cleared := s.(error := None, committedTranscripts := [], partialTranscript := "");
    if !supported then cleared.(error := Some(UnsupportedMessage))
    else
      var connecting := cleared.(isConnecting := true);
      match failure
      case None => connecting
      case Some(message) => connecting.(isConnecting := false, error := Some(message))
  }

  /** The `stop` action on an existing recogniser: both flags cleared, nothing else. */
  function Stopped(s: Session): (s': Session)
    ensures !s'.isConnected && !s'.isConnecting
    ensures s'.partialTranscript == s.partialTranscript && s'.committedTranscripts == s.committedTranscripts
    ensures s'.error == s.error
  {
    s.(isConnecting := false, isConnected := false)
  }

  /** The `cancel` action: transcripts discarded and both flags cleared,
      whatever the state before; only the error is kept. */
  function Cancelled(s: Session): (s': Session)
    ensures s'.committedTranscripts == [] && s'.partialTranscript == ""
    ensures !s'.isConnected && !s'.isConnecting
    ensures s'.error == s.error
  {
    s.(committedTranscripts := [], partialTranscript := "", isConnecting := false, isConnected := false)
  }

  /** `cancel` only stops the recogniser, so a final result it still
      delivers afterwards is committed like any other: the transcript that
      was discarded is replaced by the late text. */
  lemma ResultAfterCancelCommits(s: Session)
    ensures var s' := AfterResults(Cancelled(s), [SpeechResult([Some("x")], true)]);
            s'.committedTranscripts == ["x"] && s'.partialTranscript == "" && Transcript(s') == "x"
  {
    TrimTrimmed("x");
    var c, r := Cancelled(s), SpeechResult([Some("x")], true);
    assert Fold(c, [r], 0) == c;
    assert AfterResults(c, [r]) == AfterResult(c, r);
    assert c.committedTranscripts + ["x"] == ["x"];
    VoiceInput.BuildTranscriptOfSegments(["x"], "");
  }

  /** Cancelling twice is cancelling once, and cancel leaves an idle,
      well-formed state with an empty transcript. */
  lemma CancelIdempotent(s: Session)
    ensures Cancelled(Cancelled(s)) == Cancelled(s)
    ensures WellFormed(Cancelled(s)) && Exclusive(Cancelled(s)) && Transcript(Cancelled(s)) == ""
  {
    TrimTrimmed("");
  }

  /** The `start`, `error` and `end` events and the `stop` and `cancel`
      actions keep the state well formed and end with the two flags not both set. */
  lemma LifecyclePreserves(s: Session, ev: ErrorEvent)
    requires WellFormed(s)
    ensures WellFormed(AfterStartEvent(s)) && Exclusive(AfterStartEvent(s))
    ensures WellFormed(AfterErrorEvent(s, ev)) && Exclusive(AfterErrorEvent(s, ev))
    ensures WellFormed(AfterEndEvent(s)) && Exclusive(AfterEndEvent(s))
    ensures WellFormed(Stopped(s)) && Exclusive(Stopped(s))
    ensures WellFormed(Cancelled(s)) && Exclusive(Cancelled(s))
  {
  }

  // ---------------------------------------------------------------------
  // The props the page passes to the VoiceInput provider
  // ---------------------------------------------------------------------

  /** Identities of the page's `start`, `stop` and `cancel` callbacks. */
  const StartCallback := VoiceInput.Callback(0)
  const StopCallback := VoiceInput.Callback(1)
  const CancelCallback := VoiceInput.Callback(2)

  /** The props the page renders `VoiceInput` with: the five state cells
      and its three actions; no transcript override. */
  function HostProps(s: Session): (p: VoiceInput.Props)
    ensures var c := VoiceInput.Provide(p);
            && c.isConnected == s.isConnected && c.isConnecting == s.isConnecting && c.error == s.error
            && c.transcript == Transcript(s)
            && c.start == StartCallback && c.stop == StopCallback && c.cancel == CancelCallback
  {
    VoiceInput.Props(
      isConnected := s.isConnected,
      isConnecting := Some(s.isConnecting),
      partialTranscript := Some(s.partialTranscript),
      committedTranscripts := Some(s.committedTranscripts),
      transcript := None,
      error := s.error,
      onStart := Some(StartCallback),
      onStop := Some(StopCallback),
      onCancel := Some(CancelCallback),
      size := None)
  }

  /** On a well-formed session the provider shows the committed entries
      and the partial, joined by single spaces. */
  lemma HostTranscript(s: Session)
    requires WellFormed(s)
    ensures VoiceInput.Provide(HostProps(s)).transcript ==
            JoinSpaced(if s.partialTranscript == "" then s.committedTranscripts
                       else s.committedTranscripts + [s.partialTranscript])
  {
    VoiceInput.BuildTranscriptOfSegments(s.committedTranscripts, s.partialTranscript);
  }

  /** Inside the page, the record button fires the page's `stop` when
      connected and its `start` otherwise, and is disabled while connecting. */
  lemma HostRecordButton(s: Session)
    ensures var v := VoiceInput.RecordButton(Some(VoiceInput.Provide(HostProps(s))), VoiceInput.RecordButtonProps(None, false)).value;
            var c := VoiceInput.Provide(HostProps(s));
            && v.click == [if s.isConnected then VoiceInput.Stop else VoiceInput.Start]
            && c.stop == StopCallback && c.start == StartCallback
            && v.disabled == s.isConnecting
  {
  }

  // ---------------------------------------------------------------------
  // The recogniser and the page's state
  // ---------------------------------------------------------------------

  /** The recogniser object: its three settings and the number of
      `start()` and `stop()` calls made on it. */
  class Recognizer {
    var continuous: bool
    var interimResults: bool
    var lang: string
    var startCalls: nat
    var stopCalls: nat

    /** The three settings the page configures once, on creation. */
    function Settings(): (bool, bool, string)
      reads this
    {
      (continuous, interimResults, lang)
    }

    constructor ()
      ensures !continuous && !interimResults && lang == ""
      ensures startCalls == 0 && stopCalls == 0
    {
      continuous, interimResults, lang := false, false, "";
      startCalls, stopCalls := 0, 0;
    }

    method Start()
      modifies this
      ensures startCalls == old(startCalls) + 1
      ensures stopCalls == old(stopCalls)
      ensures continuous == old(continuous) && interimResults == old(interimResults) && lang == old(lang)
    {
      startCalls := startCalls + 1;
    }

    method Stop()
      modifies this
      ensures stopCalls == old(stopCalls) + 1
      ensures startCalls == old(startCalls)
      ensures continuous == old(continuous) && interimResults == old(interimResults) && lang == old(lang)
    {
      stopCalls := stopCalls + 1;
    }
  }

  /** `WebSpeechDemo`: the five state cells and the lazily created recogniser. */
  class WebSpeechDemo {
    var isConnected: bool
    var isConnecting: bool
    var partialTranscript: string
    var committedTranscripts: seq<string>
    var error: Option<string>
    var recognition: Recognizer?

    function State(): Session
      reads this
    {
      Session(isConnected, isConnecting, partialTranscript, committedTranscripts, error)
    }

    predicate Valid()
      reads this
    {
      WellFormed(State())
    }

    constructor ()
      ensures State() == Initial && recognition == null && Valid()
    {
      isConnected, isConnecting := false, false;
      partialTranscript, committedTranscripts, error := "", [], None;
      recognition := null;
    }

    /** `ensureRecognizer`: null when unsupported; otherwise the existing
        recogniser, or a new one set to continuous, interim results, en-US. */
    method EnsureRecognizer(supported: bool) returns (r: Recognizer?)
      modifies this`recognition
      ensures !supported ==> r == null && recognition == old(recognition)
      ensures supported ==> r != null && recognition == r
      ensures supported && old(recognition) != null ==> r == old(recognition)
      ensures supported && old(recognition) == null ==>
                fresh(r) && r.continuous && r.interimResults && r.lang == Language
                && r.startCalls == 0 && r.stopCalls == 0
    {
      if !supported {
        return null;
      }
      if recognition != null {
        return recognition;
      }
      r := new Recognizer();
      r.continuous := true;
      r.interimResults := true;
      r.lang := Language;
      recognition := r;
    }

    method OnStart()
      requires Valid()
      modifies this
      ensures State() == AfterStartEvent(old(State())) && recognition == old(recognition)
      ensures Valid()
    {
      isConnecting := false;
      isConnected := true;
    }

    /** The `result` handler: visits the event's results from `resultIndex` on, in order. */
    method OnResult(ev: ResultEvent)
      requires Valid()
      modifies this
      ensures State() == AfterResults(old(State()), Visited(ev)) && recognition == old(recognition)
      ensures Valid()
    {
      ghost var visited := Visited(ev);
      VisitedInOrder(ev);
      var i := ev.resultIndex;
      ghost var k := 0;
      while i < |ev.results|
        invariant k == i - ev.resultIndex && k <= |visited|
        invariant State() == Fold(old(State()), visited, k)
        invariant recognition == old(recognition)
        invariant Valid()
      {
        assert ev.results[i] == visited[k];
        FoldStep(old(State()), visited, k);
        TakeResult(ev.results[i]);
        i, k := i + 1, k + 1;
      }
      assert k == |visited|;
      assert State() == AfterResults(old(State()), visited);
    }

    /** The body of the `result` handler's loop, for one result. */
    method TakeResult(result: SpeechResult)
      requires Valid()
      modifies this
      ensures State() == AfterResult(old(State()), result) && recognition == old(recognition)
      ensures Valid()
    {
      AfterResultWellFormed(State(), result);
      var transcript := TopTranscript(result);
      if transcript == "" {
        return;
      }
      if result.isFinal {
        committedTranscripts := committedTranscripts + [transcript];
        partialTranscript := "";
      } else {
        partialTranscript := transcript;
      }
    }

    method OnError(ev: ErrorEvent)
      requires Valid()
      modifies this
      ensures State() == AfterErrorEvent(old(State()), ev) && recognition == old(recognition)
      ensures Valid()
    {
      error := Some(ev.error.GetOr(DefaultErrorMessage));
      isConnecting := false;
      isConnected := false;
    }

    method OnEnd()
      requires Valid()
      modifies this
      ensures State() == AfterEndEvent(old(State())) && recognition == old(recognition)
      ensures Valid()
    {
      isConnecting := false;
      isConnected := false;
      partialTranscript := "";
    }

    /** `start`: `supported` is the constructor probe's answer, `failure`
        the message when the recogniser's `start()` throws. */
    method Start(supported: bool, failure: Option<string>)
      modifies this, recognition
      ensures State() == Started(old(State()), supported, failure) && Valid()
      ensures !supported ==> recognition == old(recognition)
      ensures !supported && old(recognition) != null ==> unchanged(old(recognition))
      ensures old(recognition) != null ==> old(recognition).Settings() == old(recognition.Settings())
      ensures supported ==> recognition != null
      ensures supported && old(recognition) != null ==>
                recognition == old(recognition) && recognition.startCalls == old(recognition.startCalls) + 1
                && recognition.stopCalls == old(recognition.stopCalls)
      ensures supported && old(recognition) == null ==>
                fresh(recognition) && recognition.startCalls == 1 && recognition.stopCalls == 0
                && recognition.continuous && recognition.interimResults && recognition.lang == Language
    {
      error := None;
      committedTranscripts := [];
      partialTranscript := "";
      var r := EnsureRecognizer(supported);
      if r == null {
        error := Some(UnsupportedMessage);
        return;
      }
      isConnecting := true;
      r.Start();
      if failure.Some? {
        isConnecting := false;
        error := Some(failure.value);
      }
    }

    /** `stop`: nothing without a recogniser; otherwise both flags cleared and the recogniser stopped. */
    method Stop()
      requires Valid()
      modifies this, recognition
      ensures recognition == old(recognition) && Valid()
      ensures recognition != null ==> recognition.Settings() == old(recognition.Settings())
      ensures old(recognition) == null ==> State() == old(State())
      ensures old(recognition) != null ==>
                State() == Stopped(old(State()))
                && recognition.stopCalls == old(recognition.stopCalls) + 1
                && recognition.startCalls == old(recognition.startCalls)
    {
      var r := recognition;
      if r == null {
        return;
      }
      isConnecting := false;
      isConnected := false;
      r.Stop();
    }

    /** `cancel`: always resets, then stops the recogniser if there is one. */
    method Cancel()
      modifies this, recognition
      ensures recognition == old(recognition)
      ensures State() == Cancelled(old(State())) && Valid()
      ensures recognition != null ==> recognition.Settings() == old(recognition.Settings())
      ensures old(recognition) != null ==>
                recognition.stopCalls == old(recognition.stopCalls) + 1
                && recognition.startCalls == old(recognition.startCalls)
    {
      var r := recognition;
      committedTranscripts := [];
      partialTranscript := "";
      isConnecting := false;
      isConnected := false;
      if r != null {
        r.Stop();
      }
    }

    /** The unmount cleanup: stop the recogniser, if any, and drop the reference. */
    method Unmount()
      requires Valid()
      modifies this, recognition
      ensures recognition == null && State() == old(State()) && Valid()
      ensures old(recognition) != null ==> old(recognition).Settings() == old(recognition.Settings())
      ensures old(recognition) != null ==>
                old(recognition).stopCalls == old(recognition.stopCalls) + 1
                && old(recognition).startCalls == old(recognition.startCalls)
    {
      if recognition != null {
        recognition.Stop();
      }
      recognition := null;
    }
  }
}
