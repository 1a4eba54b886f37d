/**
 * translator_fixed.py: the Tk application that pipes the input text to the
 * `plamo-translate` command line tool and shows its output one character at
 * a time.  The worker thread and the `root.after` callbacks are replayed in
 * the order they are issued; the subprocess is reduced to what it produced.
 */
module FixedTranslator {
  import opened Common
  import opened ResultBuffer
  import Debounce

  datatype Lang = English | Japanese

  function LangName(l: Lang): string {
    match l
    case English => "English"
    case Japanese => "Japanese"
  }

  /** Hiragana U+3040–U+309F, katakana U+30A0–U+30FF or CJK ideographs U+4E00–U+9FFF. */
  predicate IsJapaneseChar(c: char) {
    || ('\U{3040}' <= c <= '\U{309F}')
    || ('\U{30A0}' <= c <= '\U{30FF}')
    || ('\U{4E00}' <= c <= '\U{9FFF}')
  }

  /** `detect_language`: Japanese when any character is Japanese, English otherwise. */
  function DetectLanguage(text: string): (r: Lang)
    ensures r == Japanese <==> exists i :: 0 <= i < |text| && IsJapaneseChar(text[i])
  {
    if text == [] then English
    else if IsJapaneseChar(text[0]) then Japanese
    else
      var r := DetectLanguage(text[1..]);
      assert forall i :: 1 <= i < |text| ==> text[i] == text[1..][i - 1];
      r
  }

  /** The direction choice: the target is always the other language. */
  function TargetFor(source: Lang): (target: Lang)
    ensures target != source
    ensures target == English <==> source == Japanese
  {
    if source == Japanese then English else Japanese
  }

  const PlamoPath: string := "/opt/homebrew/bin/plamo-translate"
  const NoTextMessage: string := "❌ テキストがありません"
  const ErrorPrefix: string := "❌ 翻訳エラー: "
  const StatusReady: string := "✅ ストリーミング翻訳対応"
  const StatusTranslating: string := "🔄 翻訳中..."
  const StatusDone: string := "✅ 翻訳完了"
  const StatusError: string := "❌ 翻訳エラー"
  const ButtonIdle: string := "🔄 翻訳実行"
  const ButtonBusy: string := "⏸️ 翻訳中..."
  const MinFontSize: int := 8
  const MaxFontSize: int := 24

  /** One spawn of the command line tool: its arguments and the text written to its stdin. */
  datatype Invocation = Invocation(args: seq<string>, stdin: string)

  /** What the tool did: an exception before any output was read, raised by Popen
      (no process) or by the write to the spawned process's stdin, or the characters
      it wrote to stdout, its exit code and its stderr. */
  datatype CliRun =
    | SpawnFailed(message: string)
    | WriteFailed(message: string)
    | Exited(stdout: string, exitCode: int, stderr: string)

  /** The spawn `translate_streaming` makes for `text`: the tool with the detected
      direction, fed the text on stdin. */
  function InvocationFor(text: string): (call: Invocation)
    ensures call.stdin == text && |call.args| == 5 && call.args[0] == PlamoPath
    ensures call.args[2] != call.args[4]
  {
    Invocation([PlamoPath, "--from", LangName(DetectLanguage(text)), "--to", LangName(TargetFor(DetectLanguage(text)))], text)
  }

  /** `copy_result`: the stripped widget text is copied unless it is empty or the
      "no text" placeholder. */
  function CopyCandidate(runs: seq<Run>): (copied: Option<string>)
    ensures copied.Some? ==> copied.value != [] && copied.value != NoTextMessage
    ensures copied.Some? ==> !PyIsSpace(copied.value[0]) && !PyIsSpace(copied.value[|copied.value| - 1])
    ensures copied.None? ==> PyStrip(TkGet(runs)) == [] || PyStrip(TkGet(runs)) == NoTextMessage
  {
    var text := PyStrip(TkGet(runs));
    if text != [] && text != NoTextMessage then Some(text) else None
  }

  class FixedTranslatorApp {
    var isTranslating: bool
    /** Content of the input text widget. */
    var input: string
    /** Content of the result text widget. */
    var result: seq<Run>
    var buttonEnabled: bool
    var buttonText: string
    var statusText: string
    var baseFontSize: int
    var cmdCTimes: seq<int>
    /** Every spawn of the command line tool, in order. */
    ghost var invocations: seq<Invocation>

    ghost predicate Valid()
      reads this
    {
      MinFontSize <= baseFontSize <= MaxFontSize && NoEmptyRuns(result)
    }

    constructor ()
      ensures Valid()
      ensures !isTranslating && input == [] && result == [] && cmdCTimes == []
      ensures buttonEnabled && buttonText == ButtonIdle && statusText == StatusReady
      ensures baseFontSize == 12 && invocations == []
    {
      isTranslating := false;
      input := [];
      result := [];
      buttonEnabled := true;
      buttonText := ButtonIdle;
      statusText := StatusReady;
      baseFontSize := 12;
      cmdCTimes := [];
      invocations := [];
    }

    /** `translate`: returns the text handed to the worker thread, if one is started. */
    method Translate() returns (worker: Option<string>)
      requires Valid()
      modifies this
      ensures Valid()
      ensures old(isTranslating) ==> worker == None && unchanged(this)
      ensures !old(isTranslating) && PyStrip(old(input) + "\n") == [] ==>
        && worker == None && !isTranslating
        && result == Replace(NoTextMessage, Untagged)
        && buttonEnabled == old(buttonEnabled) && buttonText == old(buttonText) && statusText == old(statusText)
      ensures !old(isTranslating) && PyStrip(old(input) + "\n") != [] ==>
        && worker == Some(PyStrip(old(input) + "\n")) && isTranslating
        && !buttonEnabled && buttonText == ButtonBusy && statusText == StatusTranslating
        && result == old(result)
      ensures input == old(input) && baseFontSize == old(baseFontSize)
      ensures cmdCTimes == old(cmdCTimes) && invocations == old(invocations)
    {
      if isTranslating {
        return None;
      }
      var text := PyStrip(input + "\n");
      if text == [] {
        result := Replace(NoTextMessage, Untagged);
        return None;
      }
      isTranslating := true;
      buttonText, buttonEnabled := ButtonBusy, false;
      statusText := StatusTranslating;
      worker := Some(text);
    }

    /** `clear_result` */
    method ClearResult()
      modifies this`result
      ensures result == []
    {
      result := [];
    }

    /** `append_char`: one streamed character, tagged "streaming". */
    method AppendChar(c: char)
      modifies this`result
      ensures result == old(result) + [Run([c], Streaming)]
    {
      result := Insert(result, [c], Streaming);
    }

    /** `on_translation_complete`: the shown text is re-inserted with the "normal" tag
        (Tk's get("1.0", END) adds the widget's final newline to it) and the session ends. */
    method OnTranslationComplete()
      requires Valid()
      modifies this
      ensures Valid()
      ensures result == Replace(TkGet(old(result)), Normal)
      ensures Text(result) == Text(old(result)) + "\n"
      ensures !isTranslating && buttonEnabled && buttonText == ButtonIdle && statusText == StatusDone
      ensures input == old(input) && baseFontSize == old(baseFontSize)
      ensures cmdCTimes == old(cmdCTimes) && invocations == old(invocations)
    {
      var content := TkGet(result);
      result := Replace(content, Normal);
      isTranslating := false;
      buttonText, buttonEnabled := ButtonIdle, true;
      statusText := StatusDone;
    }

    /** `show_error`: the whole result is replaced by the message and the session ends. */
    method ShowError(message: string)
      requires Valid()
      modifies this
      ensures Valid()
      ensures result == Replace(message, Normal) && Text(result) == message
      ensures !isTranslating && buttonEnabled && buttonText == ButtonIdle && statusText == StatusError
      ensures input == old(input) && baseFontSize == old(baseFontSize)
      ensures cmdCTimes == old(cmdCTimes) && invocations == old(invocations)
    {
      result := Replace(message, Normal);
      isTranslating := false;
      buttonText, buttonEnabled := ButtonIdle, true;
      statusText := StatusError;
    }

    /** The read loop of `translate_streaming`: every character of the output is
        appended to `full_result` and to the widget as it arrives. */
    method StreamOutput(stdout: string) returns (fullResult: string)
      requires result == []
      modifies this`result
      ensures fullResult == stdout
      ensures Text(result) == stdout && AllTagged(result, Streaming) && NoEmptyRuns(result)
    {
      fullResult := [];
      var i := 0;
      while i < |stdout|
        invariant 0 <= i <= |stdout|
        invariant fullResult == stdout[..i]
        invariant Text(result) == fullResult && AllTagged(result, Streaming) && NoEmptyRuns(result)
      {
        var c := stdout[i];
        fullResult := fullResult + [c];
        InsertFacts(result, [c], Streaming);
        AppendChar(c);
        assert stdout[..i + 1] == stdout[..i] + [c];
        i := i + 1;
      }
      assert stdout[..|stdout|] == stdout;
    }

    /** `translate_streaming`, the worker: spawns the tool with the detected direction,
        forwards every character it prints, in order, then completes or reports the error.
        Returns the accumulated `full_result`. */
    method TranslateStreaming(text: string, run: CliRun) returns (fullResult: string)
      requires Valid()
      modifies this
      ensures Valid()
      ensures run.SpawnFailed? ==>
        && fullResult == [] && invocations == old(invocations)
        && result == Replace(ErrorPrefix + run.message, Normal) && statusText == StatusError
      ensures run.WriteFailed? ==>
        && fullResult == [] && invocations == old(invocations) + [InvocationFor(text)]
        && result == Replace(ErrorPrefix + run.message, Normal) && statusText == StatusError
      ensures run.Exited? ==>
        && fullResult == run.stdout
        && invocations == old(invocations) + [InvocationFor(text)]
        && (run.exitCode != 0 ==> result == Replace(ErrorPrefix + run.stderr, Normal) && statusText == StatusError)
        && (run.exitCode == 0 ==> result == Replace(run.stdout + "\n", Normal) && statusText == StatusDone)
      ensures !isTranslating && buttonEnabled && buttonText == ButtonIdle
      ensures input == old(input) && baseFontSize == old(baseFontSize) && cmdCTimes == old(cmdCTimes)
    {
      var source := DetectLanguage(text);
      var target := TargetFor(source);
      if run.SpawnFailed? {
        ShowError(ErrorPrefix + run.message);
        return [];
      }
      invocations := invocations + [Invocation([PlamoPath, "--from", LangName(source), "--to", LangName(target)], text)];
      if run.WriteFailed? {
        ShowError(ErrorPrefix + run.message);
        return [];
      }
      ClearResult();
      fullResult := StreamOutput(run.stdout);
      if run.exitCode != 0 {
        ShowError(ErrorPrefix + run.stderr);
        return;
      }
      OnTranslationComplete();
    }

    /** `copy_result`: what would be placed on the clipboard, if anything. */
    method CopyResult() returns (copied: Option<string>)
      ensures copied.Some? <==> PyStrip(TkGet(result)) != [] && PyStrip(TkGet(result)) != NoTextMessage
      ensures copied.Some? ==> copied.value == PyStrip(TkGet(result))
    {
      copied := CopyCandidate(result);
    }

    /** `on_font_size_change`: a positive wheel delta enlarges by one point up to 24,
        any other delta (zero included) shrinks by one point down to 8. */
    method OnFontSizeChange(delta: int)
      requires Valid()
      modifies this`baseFontSize
      ensures Valid()
      ensures delta > 0 ==> baseFontSize == if old(baseFontSize) < MaxFontSize then old(baseFontSize) + 1 else MaxFontSize
      ensures delta <= 0 ==> baseFontSize == if old(baseFontSize) > MinFontSize then old(baseFontSize) - 1 else MinFontSize
    {
      if delta > 0 {
        baseFontSize := if baseFontSize + 1 < MaxFontSize then baseFontSize + 1 else MaxFontSize;
      } else {
        baseFontSize := if baseFontSize - 1 > MinFontSize then baseFontSize - 1 else MinFontSize;
      }
    }

    /** `on_cmd_c`: record the press, keep the last 3 s, fire on two presses within 1 s. */
    method OnCmdC(now: int) returns (fired: bool)
      modifies this`cmdCTimes
      ensures Debounce.Step(fired, cmdCTimes) == Debounce.InclusiveStep(old(cmdCTimes), now)
    {
      cmdCTimes := cmdCTimes + [now];
      cmdCTimes := Debounce.KeepWithin(cmdCTimes, now, Debounce.RetainWindowMs, false);
      var recent := Debounce.KeepWithin(cmdCTimes, now, Debounce.PairWindowMs, false);
      fired := |recent| >= 2;
      if fired {
        cmdCTimes := [];
      }
    }
  }

  /** Two requests without a completion in between start a single worker. */
  method SecondRequestIsDropped(app: FixedTranslatorApp)
    requires app.Valid() && !app.isTranslating
    modifies app
  {
    var first := app.Translate();
    var second := app.Translate();
    assert first.Some? ==> second.None?;
  }
}
