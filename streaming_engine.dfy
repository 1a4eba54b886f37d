/**
 * streaming_translator.py: the translation engine behind the streaming Tk
 * application.  Loading runs on a background thread and translation streams
 * chunks from the PLaMo chain; both are replayed here as sequential calls.
 * The callbacks the caller passes in become the list of calls they receive,
 * in order, and the chain itself becomes the outcome it produced.
 */
module StreamingEngine {
  import opened Common

  const LoadingModelMessage: string := "🚀 PLaMo翻訳モデルを読み込み中..."
  const LoadingFilesMessage: string := "📦 モデルファイルをロード中..."
  const ReadyMessage: string := "✅ 翻訳エンジン準備完了！"
  const InitFailedPrefix: string := "❌ 翻訳エンジン初期化失敗: "
  /** The text of the ImportError raised when the PLaMo module could not be imported. */
  const ModuleUnavailableMessage: string := "PLaMo streaming module not available"
  const NotInitializedMessage: string := "❌ 翻訳エンジンが初期化されていません"
  const TranslationErrorPrefix: string := "❌ 翻訳エラー: "

  /** What `_load` met: the PLaMo module missing (`PLAMO_AVAILABLE` false), the
      chain constructor raising with a message, or a chain built. */
  datatype LoadOutcome = ModuleUnavailable | ChainRaised(message: string) | ChainBuilt

  /** The progress messages `_load` reports, in order, when a callback is given. */
  function LoadProgress(outcome: LoadOutcome): (r: seq<string>)
    ensures |r| >= 2 && r[0] == LoadingModelMessage
    ensures outcome.ChainBuilt? <==> r[|r| - 1] == ReadyMessage
    ensures !outcome.ChainBuilt? ==>
      |InitFailedPrefix| <= |r[|r| - 1]| && r[|r| - 1][..|InitFailedPrefix|] == InitFailedPrefix
  {
    match outcome
    case ModuleUnavailable => [LoadingModelMessage, InitFailedPrefix + ModuleUnavailableMessage]
    case ChainRaised(message) => [LoadingModelMessage, LoadingFilesMessage, InitFailedPrefix + message]
    case ChainBuilt => [LoadingModelMessage, LoadingFilesMessage, ReadyMessage]
  }

  /** The direction choice after `detect_language`: Japanese goes to English,
      anything else to Japanese. */
  function TargetLanguage(source: string): (target: string)
    ensures target != source
    ensures target == "English" <==> source == "Japanese"
  {
    if source == "Japanese" then "English" else "Japanese"
  }

  /** One call of a caller's callback. */
  datatype Event = Chunk(text: string) | Completed(fullResult: string) | Failed(message: string)

  /** What the engine did with a loaded chain: `detect_language` raised, or
      `stream_translate` yielded `chunks` and then either ended or raised. */
  datatype StreamOutcome =
    | DetectionFailed(message: string)
    | Streamed(source: string, chunks: seq<string>, failure: Option<string>)

  /** One call of `stream_translate`. */
  datatype Request = Request(text: string, source: string, target: string)

  /** One `chunk_callback` per chunk, in stream order. */
  function Delivered(chunks: seq<string>): (r: seq<Event>)
    ensures |r| == |chunks|
    ensures forall i :: 0 <= i < |r| ==> r[i] == Chunk(chunks[i])
  {
    if chunks == [] then [] else Delivered(chunks[..|chunks| - 1]) + [Chunk(chunks[|chunks| - 1])]
  }

  /** The callback calls `_translate` makes; `withComplete` and `withError` say
      whether those optional callbacks were given. */
  function StreamEvents(loaded: bool, outcome: StreamOutcome, withComplete: bool, withError: bool): seq<Event> {
    if !loaded then (if withError then [Failed(NotInitializedMessage)] else [])
    else match outcome
      case DetectionFailed(message) => if withError then [Failed(TranslationErrorPrefix + message)] else []
      case Streamed(_, chunks, None) => Delivered(chunks) + (if withComplete then [Completed(Concat(chunks))] else [])
      case Streamed(_, chunks, Some(message)) =>
        Delivered(chunks) + (if withError then [Failed(TranslationErrorPrefix + message)] else [])
  }

  /** The texts of the chunk events, in order. */
  function ChunkTexts(events: seq<Event>): seq<string> {
    if events == [] then []
    else ChunkTexts(events[..|events| - 1]) + (if events[|events| - 1].Chunk? then [events[|events| - 1].text] else [])
  }

  lemma {:induction false} ChunkTextsDelivered(chunks: seq<string>)
    ensures ChunkTexts(Delivered(chunks)) == chunks
    decreases |chunks|
  {
    if chunks != [] {
      var init := chunks[..|chunks| - 1];
      ChunkTextsDelivered(init);
      var d := Delivered(chunks);
      assert d[..|d| - 1] == Delivered(init);
      assert init + [chunks[|chunks| - 1]] == chunks;
    }
  }

  lemma ChunkTextsSnoc(events: seq<Event>, e: Event)
    ensures ChunkTexts(events + [e]) == ChunkTexts(events) + (if e.Chunk? then [e.text] else [])
  {
    assert (events + [e])[..|events|] == events;
  }

  /** Every call but possibly the last is a chunk: a session ends with at most one
      completion or error, and nothing follows it. Without the error callback a
      failure is silent; without the completion callback a success is. */
  lemma StreamEventsShape(loaded: bool, outcome: StreamOutcome, withComplete: bool, withError: bool)
    ensures var events := StreamEvents(loaded, outcome, withComplete, withError);
      forall i :: 0 <= i < |events| - 1 ==> events[i].Chunk?
  {
  }

  /** A completion carries exactly the concatenation of the chunks delivered
      before it, and a session with a completion has no error. */
  lemma CompletionIsConcatenation(loaded: bool, outcome: StreamOutcome, withComplete: bool, withError: bool)
    requires var events := StreamEvents(loaded, outcome, withComplete, withError);
      events != [] && events[|events| - 1].Completed?
    ensures var events := StreamEvents(loaded, outcome, withComplete, withError);
      && events[|events| - 1].fullResult == Concat(ChunkTexts(events[..|events| - 1]))
      && forall i :: 0 <= i < |events| ==> !events[i].Failed?
  {
    var events := StreamEvents(loaded, outcome, withComplete, withError);
    var chunks := outcome.chunks;
    assert events == Delivered(chunks) + [Completed(Concat(chunks))];
    assert events[..|events| - 1] == Delivered(chunks);
    ChunkTextsDelivered(chunks);
  }

  /** An error mid-stream comes after every chunk already delivered and no
      completion is ever made. */
  lemma FailureAfterChunks(outcome: StreamOutcome, withComplete: bool, withError: bool)
    requires outcome.Streamed? && outcome.failure.Some?
    ensures var events := StreamEvents(true, outcome, withComplete, withError);
      && ChunkTexts(events) == outcome.chunks
      && (forall i :: 0 <= i < |events| ==> !events[i].Completed?)
      && (withError <==> events != [] && events[|events| - 1] == Failed(TranslationErrorPrefix + outcome.failure.value))
  {
    var chunks := outcome.chunks;
    ChunkTextsDelivered(chunks);
    if withError {
      ChunkTextsSnoc(Delivered(chunks), Failed(TranslationErrorPrefix + outcome.failure.value));
    } else {
      assert StreamEvents(true, outcome, withComplete, withError) == Delivered(chunks);
    }
  }

  class StreamingTranslator {
    /** `self.chain is not None` */
    var hasChain: bool
    var isLoading: bool
    var isLoaded: bool

    constructor ()
      ensures !hasChain && !isLoading && !isLoaded
    {
      hasChain := false;
      isLoading := false;
      isLoaded := false;
    }

    /** `initialize`: a load starts (and `started` is true) only when the engine
        is neither loading nor loaded. The load itself is `Load`. */
    method Initialize() returns (started: bool)
      modifies this`isLoading
      ensures started <==> !old(isLoading) && !old(isLoaded)
      ensures isLoading == (old(isLoading) || started)
    {
      started := !isLoading && !isLoaded;
      if started {
        isLoading := true;
      }
    }

    /** `_load`, the loader thread: reports its progress when `withProgress`, ends
        loaded exactly when the chain was built, and never ends loading. */
    method Load(outcome: LoadOutcome, withProgress: bool) returns (progress: seq<string>)
      modifies this`hasChain, this`isLoaded, this`isLoading
      ensures progress == if withProgress then LoadProgress(outcome) else []
      ensures isLoaded <==> outcome.ChainBuilt?
      ensures hasChain == (old(hasChain) || outcome.ChainBuilt?)
      ensures !isLoading
    {
      progress := [];
      if withProgress {
        progress := progress + [LoadingModelMessage];
      }
      match outcome {
        case ModuleUnavailable =>
          isLoaded := false;
          if withProgress {
            progress := progress + [InitFailedPrefix + ModuleUnavailableMessage];
          }
        case ChainRaised(message) =>
          if withProgress {
            progress := progress + [LoadingFilesMessage];
          }
          isLoaded := false;
          if withProgress {
            progress := progress + [InitFailedPrefix + message];
          }
        case ChainBuilt =>
          if withProgress {
            progress := progress + [LoadingFilesMessage];
          }
          hasChain := true;
          isLoaded := true;
          if withProgress {
            progress := progress + [ReadyMessage];
          }
      }
      isLoading := false;
    }

    /** `translate_streaming`'s worker `_translate`: the request it makes of the
        chain, if any, and the callback calls it makes, in order. */
    method TranslateStreaming(text: string, outcome: StreamOutcome, withComplete: bool, withError: bool)
      returns (request: Option<Request>, events: seq<Event>)
      ensures events == StreamEvents(isLoaded, outcome, withComplete, withError)
      ensures request.Some? <==> isLoaded && outcome.Streamed?
      ensures request.Some? ==> request.value == Request(text, outcome.source, TargetLanguage(outcome.source))
    {
      request := None;
      events := [];
      if !isLoaded {
        if withError {
          events := [Failed(NotInitializedMessage)];
        }
        return;
      }
      match outcome {
        case DetectionFailed(message) =>
          if withError {
            events := [Failed(TranslationErrorPrefix + message)];
          }
        case Streamed(source, chunks, failure) =>
          request := Some(Request(text, source, TargetLanguage(source)));
          var fullResult := "";
          for i := 0 to |chunks|
            invariant fullResult == Concat(chunks[..i])
            invariant events == Delivered(chunks[..i])
          {
            assert chunks[..i + 1][..i] == chunks[..i];
            fullResult := fullResult + chunks[i];
            events := events + [Chunk(chunks[i])];
          }
          assert chunks[..|chunks|] == chunks;
          match failure {
            case Some(message) =>
              if withError {
                events := events + [Failed(TranslationErrorPrefix + message)];
              }
            case None =>
              if withComplete {
                events := events + [Completed(fullResult)];
              }
          }
      }
    }

    /** `translate_sync`: the fixed message when not loaded (the chain is not
        consulted), the chain's translation, or the error text if it raised. */
    method TranslateSync(text: string, outcome: Result<string, string>) returns (r: string)
      ensures !isLoaded ==> r == NotInitializedMessage
      ensures isLoaded && outcome.Ok? ==> r == outcome.value
      ensures isLoaded && outcome.Err? ==> r == TranslationErrorPrefix + outcome.error
    {
      if !isLoaded {
        return NotInitializedMessage;
      }
      match outcome {
        case Ok(translation) => r := translation;
        case Err(message) => r := TranslationErrorPrefix + message;
      }
    }
  }

  /** The `_translator_instance` global behind `get_translator`. */
  class TranslatorRegistry {
    var instance: StreamingTranslator?

    constructor ()
      ensures instance == null
    {
      instance := null;
    }

    /** `get_translator`: creates the engine on first use, then always returns it. */
    method GetTranslator() returns (t: StreamingTranslator)
      modifies this
      ensures instance == t
      ensures old(instance) != null ==> t == old(instance)
      ensures old(instance) == null ==> fresh(t) && !t.hasChain && !t.isLoading && !t.isLoaded
    {
      if instance == null {
        instance := new StreamingTranslator();
      }
      t := instance;
    }
  }

  /** Every caller of `get_translator` shares one engine. */
  method SameInstance(registry: TranslatorRegistry) returns (first: StreamingTranslator, second: StreamingTranslator)
    modifies registry
    ensures first == second
  {
    first := registry.GetTranslator();
    second := registry.GetTranslator();
  }

  /** The load lifecycle: a second `initialize` while loading does nothing, and
      once the load has run a further `initialize` starts again only if it failed. */
  method LoadLifecycle(engine: StreamingTranslator, outcome: LoadOutcome) returns (again: bool)
    requires !engine.isLoading && !engine.isLoaded
    modifies engine
    ensures again <==> !outcome.ChainBuilt?
  {
    var first := engine.Initialize();
    var second := engine.Initialize();
    assert first && !second;
    var _ := engine.Load(outcome, true);
    again := engine.Initialize();
  }
}
