/**
 * translator_streaming.py: the Tk application driving the streaming engine.
 * The engine's callbacks reach the application through `root.after`; they are
 * replayed here in the order the engine made them.
 */
module StreamingUI {
  import opened Common
  import opened ResultBuffer
  import Debounce
  import FixedTranslator
  import opened StreamingEngine

  const InitialStatus: string := "🔄 翻訳エンジン初期化中..."

  /** The status label's colour: grey at start, green when ready, red on failure. */
  datatype Color = Grey | Green | Red

  /** What `update_status` sets besides the label text. */
  datatype Indicator = Indicator(buttonEnabled: bool, color: Color)

  /** `update_status`: "準備完了" wins and enables the button; otherwise "失敗" or
      "エラー" disables it; any other message leaves the button and colour alone. */
  function React(current: Indicator, message: string): Indicator {
    if Contains(message, "準備完了") then Indicator(true, Green)
    else if Contains(message, "失敗") || Contains(message, "エラー") then Indicator(false, Red)
    else current
  }

  /** `update_status` applied to each message in turn. */
  function ReactAll(current: Indicator, messages: seq<string>): Indicator {
    if messages == [] then current else React(ReactAll(current, messages[..|messages| - 1]), messages[|messages| - 1])
  }

  /** A message lacking the first character of all three keywords changes nothing. */
  lemma NeutralMessage(current: Indicator, message: string)
    requires '準' !in message && '失' !in message && 'エ' !in message
    ensures React(current, message) == current
  {
    NotContains(message, "準備完了");
    NotContains(message, "失敗");
    NotContains(message, "エラー");
  }

  /** The progress and status messages that mention none of the keywords. */
  lemma LoadingModelNeutral(current: Indicator)
    ensures React(current, LoadingModelMessage) == current
  {
    NeutralMessage(current, LoadingModelMessage);
  }

  lemma LoadingFilesNeutral(current: Indicator)
    ensures React(current, LoadingFilesMessage) == current
  {
    NeutralMessage(current, LoadingFilesMessage);
  }

  lemma TranslatingStatusNeutral(current: Indicator)
    ensures React(current, FixedTranslator.StatusTranslating) == current
  {
    NeutralMessage(current, FixedTranslator.StatusTranslating);
  }

  lemma DoneStatusNeutral(current: Indicator)
    ensures React(current, FixedTranslator.StatusDone) == current
  {
    NeutralMessage(current, FixedTranslator.StatusDone);
  }

  lemma ModuleUnavailableDisables(current: Indicator)
    ensures React(current, InitFailedPrefix + ModuleUnavailableMessage) == Indicator(false, Red)
  {
    InitFailureDisables(current, ModuleUnavailableMessage);
  }

  /** The ready message enables the button. */
  lemma ReadyEnables(current: Indicator)
    ensures React(current, ReadyMessage) == Indicator(true, Green)
  {
    assert ReadyMessage[8..12] == "準備完了";
    ContainsAt(ReadyMessage, "準備完了", 8);
  }

  /** An initialisation failure disables the button, unless the error text itself
      says "準備完了". */
  lemma InitFailureDisables(current: Indicator, message: string)
    requires '準' !in message
    ensures React(current, InitFailedPrefix + message) == Indicator(false, Red)
  {
    var m := InitFailedPrefix + message;
    assert m[11..13] == "失敗";
    ContainsAt(m, "失敗", 11);
    assert forall i :: 0 <= i < |m| ==> m[i] == if i < |InitFailedPrefix| then InitFailedPrefix[i] else message[i - |InitFailedPrefix|];
    assert '準' !in InitFailedPrefix;
    NotContains(m, "準備完了");
  }

  /** The status shown after an error disables the button it was about to enable. */
  lemma ErrorStatusDisables(current: Indicator)
    ensures React(current, FixedTranslator.StatusError) == Indicator(false, Red)
  {
    assert FixedTranslator.StatusError[4..7] == "エラー";
    ContainsAt(FixedTranslator.StatusError, "エラー", 4);
    NotContains(FixedTranslator.StatusError, "準備完了");
  }

  lemma ReactAllTwo(current: Indicator, a: string, b: string)
    ensures ReactAll(current, [a, b]) == React(React(current, a), b)
  {
    assert ReactAll(current, [a]) == React(current, a) by {
      assert [a][..0] == [];
    }
    assert [a, b][..1] == [a];
  }

  lemma ReactAllThree(current: Indicator, a: string, b: string, c: string)
    ensures ReactAll(current, [a, b, c]) == React(React(React(current, a), b), c)
  {
    assert [a, b, c][..2] == [a, b];
    ReactAllTwo(current, a, b);
  }

  /** "準備完了" inside an initialisation failure can only come from the error text. */
  lemma {:induction false} ReadyInFailureMessage(message: string)
    ensures Contains(InitFailedPrefix + message, "準備完了") <==> Contains(message, "準備完了")
  {
    var m := InitFailedPrefix + message;
    var k := |InitFailedPrefix|;
    if Contains(message, "準備完了") {
      var i :| 0 <= i <= |message| && OccursAt(message, "準備完了", i);
      assert m[i + k..i + k + 4] == message[i..i + 4];
      ContainsAt(m, "準備完了", i + k);
    }
    if Contains(m, "準備完了") {
      var j :| 0 <= j <= |m| && OccursAt(m, "準備完了", j);
      assert m[j] == '準' by { assert m[j..j + 4][0] == m[j]; }
      assert '準' !in InitFailedPrefix;
      assert message[j - k..j - k + 4] == m[j..j + 4];
      ContainsAt(message, "準備完了", j - k);
    }
  }

  /** An initialisation failure disables the button unless its error text
      contains "準備完了", in which case `update_status` enables it. */
  lemma InitFailureReacts(current: Indicator, message: string)
    ensures React(current, InitFailedPrefix + message)
      == if Contains(message, "準備完了") then Indicator(true, Green) else Indicator(false, Red)
  {
    var m := InitFailedPrefix + message;
    assert m[11..13] == "失敗";
    ContainsAt(m, "失敗", 11);
    ReadyInFailureMessage(message);
  }

  /** Whether the load's last message enables the button: the ready message, or
      a failure whose error text happens to contain "準備完了". */
  predicate EnablesButton(outcome: LoadOutcome) {
    outcome.ChainBuilt? || (outcome.ChainRaised? && Contains(outcome.message, "準備完了"))
  }

  /** After the load, the button is enabled exactly when the last message says
      "準備完了", whatever it was before. */
  lemma LoadProgressDecides(current: Indicator, outcome: LoadOutcome)
    ensures ReactAll(current, LoadProgress(outcome))
      == if EnablesButton(outcome) then Indicator(true, Green) else Indicator(false, Red)
  {
    LoadingModelNeutral(current);
    match outcome {
      case ModuleUnavailable =>
        ReactAllTwo(current, LoadingModelMessage, InitFailedPrefix + ModuleUnavailableMessage);
        ModuleUnavailableDisables(current);
      case ChainRaised(message) =>
        LoadingFilesNeutral(current);
        ReactAllThree(current, LoadingModelMessage, LoadingFilesMessage, InitFailedPrefix + message);
        InitFailureReacts(current, message);
      case ChainBuilt =>
        LoadingFilesNeutral(current);
        ReactAllThree(current, LoadingModelMessage, LoadingFilesMessage, ReadyMessage);
        ReadyEnables(current);
    }
  }

  /** The engine loaded exactly when the button ends enabled, as long as no
      failure message mentions "準". */
  lemma LoadedIffEnabled(current: Indicator, outcome: LoadOutcome)
    requires outcome.ChainRaised? ==> '準' !in outcome.message
    ensures ReactAll(current, LoadProgress(outcome)).buttonEnabled <==> outcome.ChainBuilt?
  {
    LoadProgressDecides(current, outcome);
    if outcome.ChainRaised? {
      NotContains(outcome.message, "準備完了");
    }
  }

  /** A failed load whose error text reads "準備完了" still ends with the button
      enabled and the label green. */
  lemma FailedLoadCanEnable(current: Indicator)
    ensures ReactAll(current, LoadProgress(ChainRaised("準備完了"))) == Indicator(true, Green)
  {
    ContainsAt("準備完了", "準備完了", 0);
    LoadProgressDecides(current, ChainRaised("準備完了"));
  }

  /** What the result widget shows, in text, after the callbacks of one session. */
  function ShownText(shown: string, events: seq<Event>): string {
    if events == [] then shown
    else ShownAfter(ShownText(shown, events[..|events| - 1]), events[|events| - 1])
  }

  /** The widget's text after one callback: a chunk is appended, completion
      adds Tk's final newline, an error replaces everything. */
  function ShownAfter(before: string, event: Event): string {
    match event
    case Chunk(text) => before + text
    case Completed(_) => before + "\n"
    case Failed(message) => message
  }

  /** A successful session shows the concatenated chunks plus Tk's final newline;
      a failed one shows only the error, whatever was streamed before it. */
  lemma {:induction false} ShownDelivered(shown: string, chunks: seq<string>)
    ensures ShownText(shown, Delivered(chunks)) == shown + Concat(chunks)
    decreases |chunks|
  {
    if chunks != [] {
      var init := chunks[..|chunks| - 1];
      ShownDelivered(shown, init);
      var d := Delivered(chunks);
      assert d[..|d| - 1] == Delivered(init);
    }
  }

  /** A session on a loaded engine ends with the completion when nothing failed,
      and with the error otherwise. */
  lemma SessionEnds(outcome: StreamOutcome)
    ensures var events := StreamEvents(true, outcome, true, true);
      && events != []
      && (events[|events| - 1].Completed? <==> outcome.Streamed? && outcome.failure.None?)
      && (events[|events| - 1].Failed? <==> !(outcome.Streamed? && outcome.failure.None?))
  {
  }

  lemma SessionShows(shown: string, text: string, outcome: StreamOutcome)
    ensures ShownText(shown, StreamEvents(true, outcome, true, true)) ==
      if outcome.DetectionFailed? then TranslationErrorPrefix + outcome.message
      else if outcome.failure.Some? then TranslationErrorPrefix + outcome.failure.value
      else shown + Concat(outcome.chunks) + "\n"
  {
    var events := StreamEvents(true, outcome, true, true);
    if outcome.Streamed? {
      var d := Delivered(outcome.chunks);
      assert events[..|events| - 1] == d;
      ShownDelivered(shown, outcome.chunks);
    }
  }

  /** `on_key_press` sees bare keys only: the Command key itself is what it counts. */
  datatype PressedKey = Command | OtherKey

  class StreamingApp {
    const engine: StreamingTranslator
    var isTranslating: bool
    /** Content of the input text widget. */
    var input: string
    /** Content of the result text widget. */
    var result: seq<Run>
    var buttonEnabled: bool
    var buttonText: string
    var statusText: string
    var statusColor: Color
    var cPressTimes: seq<int>
    /** Every text handed to the engine's `translate_streaming`, in order. */
    ghost var requests: seq<string>

    /** The window as built, on the engine `get_translator` returned. */
    constructor (engine: StreamingTranslator)
      ensures this.engine == engine && !isTranslating && input == [] && result == []
      ensures buttonEnabled && buttonText == FixedTranslator.ButtonIdle
      ensures statusText == InitialStatus && statusColor == Grey
      ensures cPressTimes == [] && requests == []
    {
      this.engine := engine;
      isTranslating := false;
      input := [];
      result := [];
      buttonEnabled := true;
      buttonText := FixedTranslator.ButtonIdle;
      statusText := InitialStatus;
      statusColor := Grey;
      cPressTimes := [];
      requests := [];
    }

    /** `update_status` */
    method UpdateStatus(message: string)
      modifies this`statusText, this`statusColor, this`buttonEnabled
      ensures statusText == message
      ensures Indicator(buttonEnabled, statusColor) == React(Indicator(old(buttonEnabled), old(statusColor)), message)
    {
      statusText := message;
      if Contains(message, "準備完了") {
        statusColor := Green;
        buttonEnabled := true;
      } else if Contains(message, "失敗") || Contains(message, "エラー") {
        statusColor := Red;
        buttonEnabled := false;
      }
    }

    /** The progress callback of `initialize_translator`, replayed over the messages
        the loader reported. */
    method ApplyProgress(messages: seq<string>)
      modifies this`statusText, this`statusColor, this`buttonEnabled
      ensures Indicator(buttonEnabled, statusColor) == ReactAll(Indicator(old(buttonEnabled), old(statusColor)), messages)
      ensures statusText == if messages == [] then old(statusText) else messages[|messages| - 1]
    {
      for i := 0 to |messages|
        invariant Indicator(buttonEnabled, statusColor) == ReactAll(Indicator(old(buttonEnabled), old(statusColor)), messages[..i])
        invariant statusText == if i == 0 then old(statusText) else messages[i - 1]
      {
        assert messages[..i + 1][..i] == messages[..i];
        UpdateStatus(messages[i]);
      }
      assert messages[..|messages|] == messages;
    }

    /** `initialize_translator` followed by the loader it starts, if any. */
    method InitializeTranslator(outcome: LoadOutcome) returns (started: bool)
      modifies engine, this`statusText, this`statusColor, this`buttonEnabled
      ensures started <==> !old(engine.isLoading) && !old(engine.isLoaded)
      ensures started ==> (engine.isLoaded <==> outcome.ChainBuilt?) && !engine.isLoading
      ensures started ==> Indicator(buttonEnabled, statusColor) == ReactAll(Indicator(old(buttonEnabled), old(statusColor)), LoadProgress(outcome))
      ensures started ==> buttonEnabled == EnablesButton(outcome) && statusText == LoadProgress(outcome)[|LoadProgress(outcome)| - 1]
      ensures !started ==> buttonEnabled == old(buttonEnabled) && statusText == old(statusText) && statusColor == old(statusColor)
    {
      started := engine.Initialize();
      if started {
        var progress := engine.Load(outcome, true);
        ApplyProgress(progress);
        LoadProgressDecides(Indicator(old(buttonEnabled), old(statusColor)), outcome);
      }
    }

    /** `translate`: the guards in order (busy, blank input, engine not loaded),
        none of which touches the busy flag; otherwise the session starts and the
        stripped text goes to the engine. */
    method Translate() returns (started: bool)
      modifies this`isTranslating, this`result, this`buttonEnabled, this`buttonText
      modifies this`statusText, this`statusColor, this`requests
      ensures old(isTranslating) ==> !started && unchanged(this)
      ensures !old(isTranslating) && PyStrip(input + "\n") == [] ==>
        && !started && !isTranslating && result == Replace(FixedTranslator.NoTextMessage, Untagged)
        && buttonEnabled == old(buttonEnabled) && statusText == old(statusText) && requests == old(requests)
      ensures !old(isTranslating) && PyStrip(input + "\n") != [] && !engine.isLoaded ==>
        && !started && !isTranslating && result == Replace(NotInitializedMessage, Untagged)
        && buttonEnabled == old(buttonEnabled) && statusText == old(statusText) && requests == old(requests)
      ensures !old(isTranslating) && PyStrip(input + "\n") != [] && engine.isLoaded ==>
        && started && isTranslating && result == []
        && !buttonEnabled && buttonText == FixedTranslator.ButtonBusy
        && statusText == FixedTranslator.StatusTranslating && statusColor == old(statusColor)
        && requests == old(requests) + [PyStrip(input + "\n")]
      ensures !started ==> buttonText == old(buttonText) && statusColor == old(statusColor)
    {
      if isTranslating {
        return false;
      }
      var text := PyStrip(input + "\n");
      if text == [] {
        result := Replace(FixedTranslator.NoTextMessage, Untagged);
        return false;
      }
      if !engine.isLoaded {
        result := Replace(NotInitializedMessage, Untagged);
        return false;
      }
      isTranslating := true;
      buttonText, buttonEnabled := FixedTranslator.ButtonBusy, false;
      TranslatingStatusNeutral(Indicator(buttonEnabled, statusColor));
      UpdateStatus(FixedTranslator.StatusTranslating);
      result := [];
      requests := requests + [text];
      started := true;
    }

    /** `append_translation_chunk`: one chunk, tagged "streaming". */
    method AppendTranslationChunk(chunk: string)
      modifies this`result
      ensures result == Insert(old(result), chunk, Streaming)
      ensures Text(result) == Text(old(result)) + chunk
    {
      InsertFacts(result, chunk, Streaming);
      result := Insert(result, chunk, Streaming);
    }

    /** `finalize_translation`: the widget's own content (not `full_result`) is kept,
        with Tk's final newline, retagged "normal"; the session ends with the button
        enabled. */
    method FinalizeTranslation(fullResult: string)
      modifies this`result, this`isTranslating, this`buttonEnabled, this`buttonText, this`statusText, this`statusColor
      ensures result == Replace(TkGet(old(result)), Normal) && Text(result) == Text(old(result)) + "\n"
      ensures !isTranslating && buttonEnabled && buttonText == FixedTranslator.ButtonIdle
      ensures statusText == FixedTranslator.StatusDone && statusColor == old(statusColor)
    {
      result := Replace(TkGet(result), Normal);
      isTranslating := false;
      buttonText, buttonEnabled := FixedTranslator.ButtonIdle, true;
      DoneStatusNeutral(Indicator(buttonEnabled, statusColor));
      UpdateStatus(FixedTranslator.StatusDone);
    }

    /** `handle_translation_error`: the error replaces the result and the session
        ends; the closing status "❌ 翻訳エラー" matches "エラー", so the button that
        was just enabled ends disabled. */
    method HandleTranslationError(error: string)
      modifies this`result, this`isTranslating, this`buttonEnabled, this`buttonText, this`statusText, this`statusColor
      ensures result == Replace(error, Normal) && Text(result) == error
      ensures !isTranslating && !buttonEnabled && buttonText == FixedTranslator.ButtonIdle
      ensures statusText == FixedTranslator.StatusError && statusColor == Red
    {
      result := Replace(error, Normal);
      isTranslating := false;
      buttonText, buttonEnabled := FixedTranslator.ButtonIdle, true;
      ErrorStatusDisables(Indicator(buttonEnabled, statusColor));
      UpdateStatus(FixedTranslator.StatusError);
    }

    /** One engine callback: `on_translation_chunk`, `on_translation_complete`
        or `on_translation_error`. */
    method OnEvent(event: Event)
      modifies this`result, this`isTranslating, this`buttonEnabled, this`buttonText, this`statusText, this`statusColor
      ensures Text(result) == ShownAfter(Text(old(result)), event)
      ensures event.Chunk? ==>
        && isTranslating == old(isTranslating) && buttonEnabled == old(buttonEnabled)
        && buttonText == old(buttonText) && statusText == old(statusText) && statusColor == old(statusColor)
      ensures event.Completed? ==> !isTranslating && buttonEnabled && statusText == FixedTranslator.StatusDone
      ensures event.Failed? ==>
        !isTranslating && !buttonEnabled && statusText == FixedTranslator.StatusError && statusColor == Red
    {
      match event {
        case Chunk(text) => AppendTranslationChunk(text);
        case Completed(fullResult) => FinalizeTranslation(fullResult);
        case Failed(message) => HandleTranslationError(message);
      }
    }

    /** The engine's callbacks replayed in order over one session's events. */
    method Replay(events: seq<Event>)
      requires forall i :: 0 <= i < |events| - 1 ==> events[i].Chunk?
      modifies this`result, this`isTranslating, this`buttonEnabled, this`buttonText, this`statusText, this`statusColor
      ensures Text(result) == ShownText(Text(old(result)), events)
      ensures events == [] || events[|events| - 1].Chunk? ==>
        && isTranslating == old(isTranslating) && buttonEnabled == old(buttonEnabled)
        && buttonText == old(buttonText) && statusText == old(statusText) && statusColor == old(statusColor)
      ensures events != [] && events[|events| - 1].Completed? ==>
        !isTranslating && buttonEnabled && statusText == FixedTranslator.StatusDone
      ensures events != [] && events[|events| - 1].Failed? ==>
        !isTranslating && !buttonEnabled && statusText == FixedTranslator.StatusError && statusColor == Red
    {
      for i := 0 to |events|
        invariant Text(result) == ShownText(Text(old(result)), events[..i])
        invariant i == 0 || events[i - 1].Chunk? ==>
          && isTranslating == old(isTranslating) && buttonEnabled == old(buttonEnabled)
          && buttonText == old(buttonText) && statusText == old(statusText) && statusColor == old(statusColor)
        invariant 0 < i && events[i - 1].Completed? ==>
          !isTranslating && buttonEnabled && statusText == FixedTranslator.StatusDone
        invariant 0 < i && events[i - 1].Failed? ==>
          !isTranslating && !buttonEnabled && statusText == FixedTranslator.StatusError && statusColor == Red
      {
        assert events[..i + 1][..i] == events[..i];
        OnEvent(events[i]);
      }
      assert events[..|events|] == events;
    }

    /** `on_key_press`: only the Command key is counted; presses of the last 3 s
        are kept and two within 1 s fire (starting `load_and_translate`), clearing
        the list. */
    method OnKeyPress(key: PressedKey, now: int) returns (fired: bool)
      modifies this`cPressTimes
      ensures key != Command ==> !fired && cPressTimes == old(cPressTimes)
      ensures key == Command ==> Debounce.Step(fired, cPressTimes) == Debounce.InclusiveStep(old(cPressTimes), now)
    {
      fired := false;
      if key == Command {
        cPressTimes := cPressTimes + [now];
        cPressTimes := Debounce.KeepWithin(cPressTimes, now, Debounce.RetainWindowMs, false);
        var recent := Debounce.KeepWithin(cPressTimes, now, Debounce.PairWindowMs, false);
        fired := |recent| >= 2;
        if fired {
          cPressTimes := [];
        }
      }
    }
  }

  /** A whole session on a loaded engine: the busy flag is raised, the engine's
      callbacks are replayed, and the window ends showing the chunks plus a final
      newline with the button enabled, or the error with the button disabled. */
  method TranslateSession(app: StreamingApp, outcome: StreamOutcome) returns (started: bool)
    requires !app.isTranslating && app.engine.isLoaded
    modifies app
    ensures started <==> PyStrip(old(app.input) + "\n") != []
    ensures started && outcome.Streamed? && outcome.failure.None? ==>
      Text(app.result) == Concat(outcome.chunks) + "\n" && !app.isTranslating && app.buttonEnabled
    ensures started && outcome.Streamed? && outcome.failure.Some? ==>
      Text(app.result) == TranslationErrorPrefix + outcome.failure.value && !app.isTranslating && !app.buttonEnabled
    ensures started && outcome.DetectionFailed? ==>
      Text(app.result) == TranslationErrorPrefix + outcome.message && !app.isTranslating && !app.buttonEnabled
  {
    var text := PyStrip(app.input + "\n");
    started := app.Translate();
    if started {
      StreamSession(app, text, outcome);
    }
  }

  /** The streaming thread of a started session (`stream_translate` in the
      engine) and the callbacks it schedules, on a cleared result widget. */
  method StreamSession(app: StreamingApp, text: string, outcome: StreamOutcome)
    requires app.engine.isLoaded && app.result == []
    modifies app`result, app`isTranslating, app`buttonEnabled, app`buttonText, app`statusText, app`statusColor
    ensures outcome.Streamed? && outcome.failure.None? ==>
      Text(app.result) == Concat(outcome.chunks) + "\n" && !app.isTranslating && app.buttonEnabled
    ensures outcome.Streamed? && outcome.failure.Some? ==>
      Text(app.result) == TranslationErrorPrefix + outcome.failure.value && !app.isTranslating && !app.buttonEnabled
    ensures outcome.DetectionFailed? ==>
      Text(app.result) == TranslationErrorPrefix + outcome.message && !app.isTranslating && !app.buttonEnabled
  {
    var _, events := app.engine.TranslateStreaming(text, outcome, true, true);
    StreamEventsShape(true, outcome, true, true);
    assert Text(app.result) == [];
    app.Replay(events);
    SessionShows([], text, outcome);
    SessionEnds(outcome);
    if outcome.Streamed? {
      assert [] + Concat(outcome.chunks) + "\n" == Concat(outcome.chunks) + "\n";
    }
  }
}
