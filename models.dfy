/**
 * Models.swift: the value types shared by the macOS app — the supported
 * languages, the wire and result records, the connection status, the two
 * error enumerations with their user-facing descriptions, and the default
 * configuration.
 */
module Models {
  import opened Common

  /** `Language`, a String-backed enumeration (CaseIterable, Codable). */
  datatype Language =
    | Japanese | JapaneseEasy | English | Chinese | Taiwanese | Korean | Arabic
    | Italian | Indonesian | Dutch | Spanish | Thai | German | French
    | Vietnamese | Russian | EnglishJapanese

  /** `rawValue`, also what the JSON codec writes. */
  function RawValue(l: Language): string {
    match l
    case Japanese => "Japanese"
    case JapaneseEasy => "Japanese(easy)"
    case English => "English"
    case Chinese => "Chinese"
    case Taiwanese => "Taiwanese"
    case Korean => "Korean"
    case Arabic => "Arabic"
    case Italian => "Italian"
    case Indonesian => "Indonesian"
    case Dutch => "Dutch"
    case Spanish => "Spanish"
    case Thai => "Thai"
    case German => "German"
    case French => "French"
    case Vietnamese => "Vietnamese"
    case Russian => "Russian"
    case EnglishJapanese => "English|Japanese"
  }

  /** `allCases`, in declaration order. */
  const AllLanguages: seq<Language> := [
    Japanese, JapaneseEasy, English, Chinese, Taiwanese, Korean, Arabic,
    Italian, Indonesian, Dutch, Spanish, Thai, German, French,
    Vietnamese, Russian, EnglishJapanese]

  /** `Language(rawValue:)`: the first case in `allCases` with that raw value. */
  function FromRawValue(s: string): (l: Option<Language>) {
    FirstWithRawValue(s, AllLanguages)
  }

  function FirstWithRawValue(s: string, candidates: seq<Language>): (l: Option<Language>)
    ensures l.Some? ==> l.value in candidates && RawValue(l.value) == s
    ensures l.None? ==> forall c :: c in candidates ==> RawValue(c) != s
  {
    if candidates == [] then None
    else if RawValue(candidates[0]) == s then Some(candidates[0])
    else FirstWithRawValue(s, candidates[1..])
  }

  /** `allCases` lists every case exactly once. */
  lemma AllLanguagesComplete(l: Language)
    ensures l in AllLanguages
  {
  }

  /** The raw values are pairwise distinct. */
  lemma RawValueInjective(a: Language, b: Language)
    ensures RawValue(a) == RawValue(b) ==> a == b
  {
    if RawValue(a) == RawValue(b) {
      var s := RawValue(a);
      assert |s| == |RawValue(b)|;
      assert s[0] == RawValue(b)[0];
      assert s[|s| - 1] == RawValue(b)[|s| - 1];
    }
  }

  /** Decoding a raw value gives back its case, and only raw values decode. */
  lemma RawValueRoundTrip(l: Language, s: string)
    ensures FromRawValue(RawValue(l)) == Some(l)
    ensures FromRawValue(s) == Some(l) ==> s == RawValue(l)
  {
    AllLanguagesComplete(l);
    var r := FromRawValue(RawValue(l));
    RawValueInjective(r.value, l);
  }

  /** `displayName`: the raw value, so it names its case unambiguously. */
  function DisplayName(l: Language): (name: string)
    ensures FromRawValue(name) == Some(l)
  {
    RawValueRoundTrip(l, RawValue(l));
    RawValue(l)
  }

  /** `Message`, one chat message of the request body. */
  datatype Message = Message(role: string, content: string)

  /** `TranslationRequest`, the body posted to the server. */
  datatype TranslationRequest = TranslationRequest(messages: seq<Message>, sourceLanguage: string, targetLanguage: string)

  /** `TranslationResponse`, the decoded server answer. */
  datatype TranslationResponse = TranslationResponse(
    translatedText: string, sourceLanguage: Option<string>, targetLanguage: Option<string>, processingTime: Option<real>)

  /** `TranslationResult`; the timestamp is in milliseconds, the processing time in seconds. */
  datatype TranslationResult = TranslationResult(
    originalText: string, translatedText: string, sourceLanguage: Language, targetLanguage: Language,
    timestamp: int, processingTime: real)

  /** `ConnectionStatus` */
  datatype ConnectionStatus = Connected | Disconnected | Connecting | Error(message: string)

  const ErrorStatusPrefix: string := "Error: "

  /** `ConnectionStatus.description` */
  function StatusDescription(s: ConnectionStatus): (d: string)
    ensures s.Error? ==> |ErrorStatusPrefix| <= |d| && d[..|ErrorStatusPrefix|] == ErrorStatusPrefix && d[|ErrorStatusPrefix|..] == s.message
  {
    match s
    case Connected => "Connected"
    case Disconnected => "Disconnected"
    case Connecting => "Connecting..."
    case Error(message) => ErrorStatusPrefix + message
  }

  /** Distinct statuses read differently. */
  lemma StatusDescriptionInjective(a: ConnectionStatus, b: ConnectionStatus)
    ensures StatusDescription(a) == StatusDescription(b) ==> a == b
  {
    var da, db := StatusDescription(a), StatusDescription(b);
    if da == db {
      if a.Error? || b.Error? {
        assert da[0] == db[0];
      } else {
        assert |da| == |db|;
      }
    }
  }

  /** `TranslationError`; a network error keeps the `localizedDescription` of its cause. */
  datatype TranslationError =
    | ServerUnavailable
    | InvalidResponse
    | NetworkError(cause: string)
    | TextTooLong
    | UnsupportedLanguage
    | NoTextSelected
    | InvalidConfiguration

  /** The long fixed texts are written as a short first piece and the rest, so
      that their first characters are within the prover's reach. */
  const ServerUnavailableText: string :=
    "PLaMo server is not running. " + "Please start the server with: plamo-translate --precision bf16 server"
  const NetworkErrorPrefix: string := "Network error: "
  const NoTextSelectedText: string := "No text selected. " + "Please select text and try again."

  /** `TranslationError.errorDescription` (never nil). */
  function TranslationErrorDescription(e: TranslationError): (d: string)
    ensures e.NetworkError? ==> |NetworkErrorPrefix| <= |d| && d[..|NetworkErrorPrefix|] == NetworkErrorPrefix && d[|NetworkErrorPrefix|..] == e.cause
  {
    match e
    case ServerUnavailable => ServerUnavailableText
    case InvalidResponse => "Invalid response from PLaMo server"
    case NetworkError(cause) => NetworkErrorPrefix + cause
    case TextTooLong => "Selected text is too long for translation"
    case UnsupportedLanguage => "Unsupported language combination"
    case NoTextSelected => NoTextSelectedText
    case InvalidConfiguration => "Invalid translation configuration"
  }

  /** Each error kind has its own description. */
  lemma TranslationErrorDescriptionInjective(a: TranslationError, b: TranslationError)
    ensures TranslationErrorDescription(a) == TranslationErrorDescription(b) ==> a == b
  {
    var da, db := TranslationErrorDescription(a), TranslationErrorDescription(b);
    if a.NetworkError? && b.NetworkError? {
      assert a.cause == da[|NetworkErrorPrefix|..] && b.cause == db[|NetworkErrorPrefix|..];
    } else if a.NetworkError? {
      NetworkDescriptionStart(a.cause);
      FixedTextFacts(b);
    } else if b.NetworkError? {
      NetworkDescriptionStart(b.cause);
      FixedTextFacts(a);
    } else {
      FixedTextFacts(a);
      FixedTextFacts(b);
    }
  }

  function FixedTextLength(e: TranslationError): nat {
    match e
    case ServerUnavailable => 98
    case InvalidResponse => 34
    case NetworkError(_) => 0
    case TextTooLong => 41
    case UnsupportedLanguage => 32
    case NoTextSelected => 51
    case InvalidConfiguration => 33
  }

  /** The fixed texts differ in length and none starts like a network error. */
  lemma FixedTextFacts(e: TranslationError)
    requires !e.NetworkError?
    ensures var d := TranslationErrorDescription(e); |d| == FixedTextLength(e) && 2 <= |d| && (d[0] != 'N' || d[1] != 'e')
  {
  }

  lemma NetworkDescriptionStart(cause: string)
    ensures var d := TranslationErrorDescription(NetworkError(cause)); d[0] == 'N' && d[1] == 'e'
  {
    assert (NetworkErrorPrefix + cause)[..2] == NetworkErrorPrefix[..2];
  }

  /** `TextCaptureError` */
  datatype TextCaptureError =
    | AccessibilityPermissionDenied
    | CaptureNoTextSelected
    | CaptureTimeout
    | SystemError(message: string)
    | NoFrontmostApplication
    | NoFocusedElement
    | NoTextFound

  const SystemErrorPrefix: string := "System error: "
  /** The long fixed texts are written as a short first piece and the rest, so
      that their first characters are within the prover's reach. */
  const AccessibilityPermissionText: string :=
    "Accessibility permission " +
    "is required to capture text. Please enable it in System Preferences > Security & Privacy > Privacy > Accessibility."
  const NoFrontmostApplicationText: string := "Unable to identify " + "the frontmost application"

  /** `TextCaptureError.errorDescription` (never nil). */
  function TextCaptureErrorDescription(e: TextCaptureError): (d: string)
    ensures e.SystemError? ==> |SystemErrorPrefix| <= |d| && d[..|SystemErrorPrefix|] == SystemErrorPrefix && d[|SystemErrorPrefix|..] == e.message
  {
    match e
    case AccessibilityPermissionDenied => AccessibilityPermissionText
    case CaptureNoTextSelected => "No text is currently selected."
    case CaptureTimeout => "Text capture timed out."
    case SystemError(message) => SystemErrorPrefix + message
    case NoFrontmostApplication => NoFrontmostApplicationText
    case NoFocusedElement => "No focused UI element found"
    case NoTextFound => "No text found in the focused element"
  }

  /** Each capture error kind has its own description. */
  lemma TextCaptureErrorDescriptionInjective(a: TextCaptureError, b: TextCaptureError)
    ensures TextCaptureErrorDescription(a) == TextCaptureErrorDescription(b) ==> a == b
  {
    var da, db := TextCaptureErrorDescription(a), TextCaptureErrorDescription(b);
    if a.SystemError? && b.SystemError? {
      assert a.message == da[|SystemErrorPrefix|..] && b.message == db[|SystemErrorPrefix|..];
    } else if a.SystemError? {
      SystemDescriptionStart(a.message);
      FixedCaptureTextFacts(b);
    } else if b.SystemError? {
      SystemDescriptionStart(b.message);
      FixedCaptureTextFacts(a);
    } else {
      FixedCaptureTextFacts(a);
      FixedCaptureTextFacts(b);
    }
  }

  lemma SystemDescriptionStart(message: string)
    ensures TextCaptureErrorDescription(SystemError(message))[0] == 'S'
  {
    assert (SystemErrorPrefix + message)[0] == SystemErrorPrefix[0];
  }

  function FixedCaptureTextLength(e: TextCaptureError): nat {
    match e
    case AccessibilityPermissionDenied => 140
    case CaptureNoTextSelected => 30
    case CaptureTimeout => 23
    case SystemError(_) => 0
    case NoFrontmostApplication => 44
    case NoFocusedElement => 27
    case NoTextFound => 36
  }

  /** The fixed capture texts differ in length and none starts like a system error. */
  lemma FixedCaptureTextFacts(e: TextCaptureError)
    requires !e.SystemError?
    ensures var d := TextCaptureErrorDescription(e); |d| == FixedCaptureTextLength(e) && 1 <= |d| && d[0] != 'S'
  {
  }

  /** `AppConfiguration`; the endpoint is kept as its URL string and the
      window timeout in seconds. */
  datatype AppConfiguration = AppConfiguration(
    sourceLanguage: Language, targetLanguage: Language, serverEndpoint: string,
    autoLaunch: bool, resultWindowTimeout: real, hotkeyEnabled: bool)

  const DefaultEndpoint: string := "http://127.0.0.1:30000"

  /** `AppConfiguration.default` */
  const DefaultConfiguration: AppConfiguration :=
    AppConfiguration(EnglishJapanese, Japanese, DefaultEndpoint, false, 10.0, true)

  /** The default translates with automatic direction into Japanese, on the
      local server, with the hotkey on, no login item and a 10 s window. */
  lemma DefaultConfigurationValues()
    ensures RawValue(DefaultConfiguration.sourceLanguage) == "English|Japanese"
    ensures RawValue(DefaultConfiguration.targetLanguage) == "Japanese"
    ensures DefaultConfiguration.sourceLanguage != DefaultConfiguration.targetLanguage
    ensures DefaultConfiguration.serverEndpoint == "http://127.0.0.1:30000"
    ensures !DefaultConfiguration.autoLaunch && DefaultConfiguration.hotkeyEnabled
    ensures DefaultConfiguration.resultWindowTimeout == 10.0
  {
  }
}
