/**
 * AppDelegate.swift: the macOS app's controller.  It wires the hotkey to
 * `handleTranslationRequest`, runs one translation at a time (capture the
 * selection, translate it, show it), routes every failure to a notification
 * and a menu-bar icon, and follows configuration changes.  The menu bar icon
 * is the last `ConnectionStatus` handed to `updateMenuBarIcon`; notifications
 * are collected in order.  `performTranslation` runs as a Task: its part
 * before the first `await` is `BeginTranslation`, the rest
 * `CompleteTranslation`, replayed one after the other.
 */
module App {
  import opened Common
  import opened Models
  import opened Hotkey
  import opened Service
  import opened Configuration
  import opened TextCapture

  /** The closure `{ self?.handleTranslationRequest() }` registered as the hotkey handler. */
  const TranslationRequestHandler: Handler := Handler(0)

  const TextTooLongNotice: string := "Selected text is too long. Please select shorter text."
  const UnexpectedErrorPrefix: string := "Unexpected error: "
  const ServerUnavailableIcon: string := "Server unavailable"
  const NetworkErrorIcon: string := "Network error"
  const TranslationErrorIcon: string := "Translation error"
  const UnexpectedErrorIcon: string := "Unexpected error"

  /** A user notification or alert: the server-unavailable notification, an
      error notification with its body, or the accessibility permission alert. */
  datatype Notice = ServerUnavailableNotice | ErrorNotice(message: string) | AccessibilityAlert

  class AppDelegate {
    const hotkeyManager: HotkeyManager
    const translationService: TranslationService
    const configurationManager: ConfigurationManager
    var isTranslating: bool
    var icon: ConnectionStatus
    var notices: seq<Notice>
    /** Results handed to the result window, in order. */
    var shown: seq<TranslationResult>

    constructor (hotkeyManager: HotkeyManager, translationService: TranslationService, configurationManager: ConfigurationManager)
      ensures this.hotkeyManager == hotkeyManager && this.translationService == translationService
      ensures this.configurationManager == configurationManager
      ensures !isTranslating && icon == Disconnected && notices == [] && shown == []
    {
      this.hotkeyManager := hotkeyManager;
      this.translationService := translationService;
      this.configurationManager := configurationManager;
      isTranslating := false;
      icon := Disconnected;
      notices := [];
      shown := [];
    }

    /** `setupHotkey`: registers the translation handler when the current
        configuration enables the hotkey; `registerHotkey` never throws. */
    method SetupHotkey()
      modifies hotkeyManager
      ensures configurationManager.configuration.hotkeyEnabled ==>
        && hotkeyManager.IsRegistered()
        && hotkeyManager.handler == if old(hotkeyManager.IsRegistered()) then old(hotkeyManager.handler) else Some(TranslationRequestHandler)
      ensures !configurationManager.configuration.hotkeyEnabled ==>
        hotkeyManager.handler == old(hotkeyManager.handler) && hotkeyManager.monitorInstalled == old(hotkeyManager.monitorInstalled)
      ensures hotkeyManager.lastCmdCTime == old(hotkeyManager.lastCmdCTime)
    {
      if !configurationManager.configuration.hotkeyEnabled {
        return;
      }
      hotkeyManager.RegisterHotkey(TranslationRequestHandler);
    }

    /** `configurationDidChange`: without a configuration payload nothing happens;
        otherwise the service takes the new endpoint and the hotkey follows
        `hotkeyEnabled` (registration goes through `setupHotkey`, which reads the
        manager's configuration rather than the payload). */
    method ConfigurationDidChange(payload: Option<AppConfiguration>)
      modifies hotkeyManager, translationService
      ensures payload.None? ==>
        && hotkeyManager.handler == old(hotkeyManager.handler) && hotkeyManager.monitorInstalled == old(hotkeyManager.monitorInstalled)
        && translationService.serverEndpoint == old(translationService.serverEndpoint)
        && translationService.connectionStatus == old(translationService.connectionStatus)
      ensures payload.Some? ==>
        translationService.serverEndpoint == payload.value.serverEndpoint && translationService.connectionStatus == Disconnected
      ensures payload.Some? && payload.value.hotkeyEnabled && !old(hotkeyManager.IsRegistered()) ==>
        if configurationManager.configuration.hotkeyEnabled
        then hotkeyManager.IsRegistered() && hotkeyManager.handler == Some(TranslationRequestHandler)
        else hotkeyManager.handler == old(hotkeyManager.handler) && hotkeyManager.monitorInstalled == old(hotkeyManager.monitorInstalled)
      ensures payload.Some? && !payload.value.hotkeyEnabled && old(hotkeyManager.IsRegistered()) ==>
        !hotkeyManager.IsRegistered() && hotkeyManager.handler == None
      ensures payload.Some? && payload.value.hotkeyEnabled == old(hotkeyManager.IsRegistered()) ==>
        hotkeyManager.handler == old(hotkeyManager.handler) && hotkeyManager.monitorInstalled == old(hotkeyManager.monitorInstalled)
      ensures hotkeyManager.lastCmdCTime == old(hotkeyManager.lastCmdCTime)
    {
      if payload.None? {
        return;
      }
      var config := payload.value;
      translationService.UpdateServerEndpoint(config.serverEndpoint);
      if config.hotkeyEnabled && !hotkeyManager.IsRegistered() {
        SetupHotkey();
      } else if !config.hotkeyEnabled && hotkeyManager.IsRegistered() {
        hotkeyManager.UnregisterHotkey();
      }
    }

    /** `checkInitialServerConnection`: the icon shows the status the probe left,
        and an unreachable server is announced. */
    method CheckInitialServerConnection(probe: Option<Option<int>>) returns (connected: bool)
      modifies this`icon, this`notices, translationService`connectionStatus
      ensures connected <==> probe.Some? && probe.value.Some? && probe.value.value < 500
      ensures icon == translationService.connectionStatus == if connected then Connected else Disconnected
      ensures notices == old(notices) + if connected then [] else [ServerUnavailableNotice]
    {
      connected := translationService.CheckServerConnection(probe);
      icon := translationService.connectionStatus;
      if !connected {
        notices := notices + [ServerUnavailableNotice];
      }
    }

    /** `cleanup` at termination: the hotkey is released. */
    method Cleanup()
      modifies hotkeyManager
      ensures !hotkeyManager.IsRegistered() && hotkeyManager.handler == None
    {
      hotkeyManager.UnregisterHotkey();
    }

    /** `handleTranslationRequest`: ignored while a translation runs; otherwise
        the translation task starts. */
    method HandleTranslationRequest() returns (started: bool)
      modifies this`isTranslating, this`icon
      ensures started <==> !old(isTranslating)
      ensures !started ==> isTranslating == old(isTranslating) && icon == old(icon)
      ensures started ==> isTranslating && icon == Connecting
    {
      if isTranslating {
        return false;
      }
      BeginTranslation();
      return true;
    }

    /** `performTranslation` up to its first `await`. */
    method BeginTranslation()
      modifies this`isTranslating, this`icon
      ensures isTranslating && icon == Connecting
    {
      isTranslating := true;
      icon := Connecting;
    }

    /** The rest of `performTranslation`: capture, check, translate, report;
        every error kind is caught, so the flag is always cleared. */
    method CompleteTranslation(ax: AxSnapshot, pasteboard: Option<string>,
                               send: (string, TranslationRequest) -> Exchange, startTime: int, finishTime: int)
      modifies this`isTranslating, this`icon, this`notices, this`shown, translationService`connectionStatus
      ensures !isTranslating
      ensures var captured := CaptureSelectedText(ax, pasteboard);
        (captured.Err? || SwiftIsBlank(captured.value)) ==>
          && notices == old(notices) + [ErrorNotice(NoTextSelectedText)] && icon == old(icon) && shown == old(shown)
          && translationService.connectionStatus == old(translationService.connectionStatus)
      ensures var captured := CaptureSelectedText(ax, pasteboard);
        captured.Ok? && !SwiftIsBlank(captured.value) && |captured.value| > MaxTextLength ==>
          && notices == old(notices) + [ErrorNotice(TextTooLongNotice)] && icon == old(icon) && shown == old(shown)
          && translationService.connectionStatus == old(translationService.connectionStatus)
      ensures |shown| <= |old(shown)| + 1
      ensures |shown| == |old(shown)| + 1 ==>
        && shown[..|old(shown)|] == old(shown) && icon == Connected && notices == old(notices)
        && shown[|old(shown)|].originalText == CaptureSelectedText(ax, pasteboard).value
        && shown[|old(shown)|].sourceLanguage == configurationManager.configuration.sourceLanguage
        && shown[|old(shown)|].targetLanguage == configurationManager.configuration.targetLanguage
      // A valid capture is sent once, to the service's endpoint, and the exchange decides the rest.
      ensures var captured := CaptureSelectedText(ax, pasteboard);
        captured.Ok? && Validate(captured.value).None? ==>
          var config := configurationManager.configuration;
          var exchange := send(McpUrl(old(translationService.serverEndpoint)),
                               RequestFor(captured.value, config.sourceLanguage, config.targetLanguage));
          var failure := FailureOf(exchange);
          && (failure.None? ==>
                && |shown| == |old(shown)| + 1 && shown[|old(shown)|].translatedText == exchange.body.value.translatedText
                && icon == Connected && translationService.connectionStatus == Connected)
          && (failure.Some? ==> shown == old(shown) && translationService.connectionStatus == failure.value.status)
          && (failure.Some? && failure.value.error.Translation? ==>
                notices == old(notices) + [NoticeFor(failure.value.error.error)]
                && icon == IconAfter(failure.value.error.error, old(icon)))
          && (failure.Some? && failure.value.error.Foreign? ==>
                notices == old(notices) + [ErrorNotice(UnexpectedErrorPrefix + failure.value.error.description)]
                && icon == Error(UnexpectedErrorIcon))
    {
      var captured := CaptureSelectedText(ax, pasteboard);
      if captured.Err? {
        HandleTranslationError(captured.error);
      } else if SwiftIsBlank(captured.value) {
        HandleTranslationError(NoTextSelected);
      } else {
        var text := captured.value;
        var config := configurationManager.configuration;
        var r := translationService.TranslateText(text, config.sourceLanguage, config.targetLanguage, send, startTime, finishTime);
        ReportOutcome(r);
      }
      isTranslating := false;
    }

    /** What `performTranslation` does with the outcome of `translateText`. */
    method ReportOutcome(r: Result<TranslationResult, ServiceError>)
      modifies this`icon, this`notices, this`shown
      requires r.Ok? ==> translationService.connectionStatus == Connected
      ensures r.Ok? ==> shown == old(shown) + [r.value] && icon == Connected && notices == old(notices)
      ensures r.Err? ==> shown == old(shown)
      ensures r.Err? && r.error.Foreign? ==>
        notices == old(notices) + [ErrorNotice(UnexpectedErrorPrefix + r.error.description)] && icon == Error(UnexpectedErrorIcon)
      ensures r.Err? && r.error.Translation? ==>
        notices == old(notices) + [NoticeFor(r.error.error)] && icon == IconAfter(r.error.error, old(icon))
    {
      match r
      case Ok(result) =>
        shown := shown + [result];
        icon := translationService.connectionStatus;
      case Err(Translation(e)) =>
        HandleTranslationError(e);
      case Err(Foreign(description)) =>
        notices := notices + [ErrorNotice(UnexpectedErrorPrefix + description)];
        icon := Error(UnexpectedErrorIcon);
    }

    /** `handleTranslationError` */
    method HandleTranslationError(error: TranslationError)
      modifies this`icon, this`notices
      ensures notices == old(notices) + [NoticeFor(error)] && icon == IconAfter(error, old(icon))
    {
      match error
      case ServerUnavailable =>
        notices := notices + [ServerUnavailableNotice];
        icon := Error(ServerUnavailableIcon);
      case NoTextSelected =>
        notices := notices + [ErrorNotice(NoTextSelectedText)];
      case TextTooLong =>
        notices := notices + [ErrorNotice(TextTooLongNotice)];
      case NetworkError(cause) =>
        notices := notices + [ErrorNotice(NetworkErrorPrefix + cause)];
        icon := Error(NetworkErrorIcon);
      case _ =>
        notices := notices + [ErrorNotice(TranslationErrorDescription(error))];
        icon := Error(TranslationErrorIcon);
    }

    /** `handleTextCaptureError`; `hasPermission` is `AXIsProcessTrusted()` at
        the time.  The icon is left alone. */
    method HandleTextCaptureError(error: TextCaptureError, hasPermission: bool)
      modifies this`notices
      ensures error == AccessibilityPermissionDenied ==>
        notices == old(notices) + (if hasPermission then [] else [AccessibilityAlert])
      ensures error == NoTextFound || error == NoFocusedElement ==>
        notices == old(notices) + [ErrorNotice(NoTextSelectedText)]
      ensures error !in {AccessibilityPermissionDenied, NoTextFound, NoFocusedElement} ==>
        notices == old(notices) + [ErrorNotice(TextCaptureErrorDescription(error))]
    {
      match error
      case AccessibilityPermissionDenied =>
        if !hasPermission {
          notices := notices + [AccessibilityAlert];
        }
      case NoTextFound =>
        notices := notices + [ErrorNotice(NoTextSelectedText)];
      case NoFocusedElement =>
        notices := notices + [ErrorNotice(NoTextSelectedText)];
      case _ =>
        notices := notices + [ErrorNotice(TextCaptureErrorDescription(error))];
    }
  }

  /** `setupServices`: the configuration is loaded (the stored one, else the
      default, which is then saved) and the service talks to its endpoint. */
  method SetupServices(stored: map<string, Data>, encode: AppConfiguration -> Option<Data>, decode: Data -> Option<AppConfiguration>)
    returns (configurationManager: ConfigurationManager, translationService: TranslationService)
    ensures fresh(configurationManager) && fresh(translationService)
    ensures configurationManager.configuration == match StoredConfiguration(stored, decode)
      case Some(config) => config
      case None => DefaultConfiguration
    ensures translationService.serverEndpoint == configurationManager.configuration.serverEndpoint
    ensures translationService.connectionStatus == Disconnected
  {
    configurationManager := new ConfigurationManager(stored, encode, decode);
    var configuration := configurationManager.LoadConfiguration();
    translationService := new TranslationService(configuration.serverEndpoint);
  }

  /** The notification `handleTranslationError` shows for each error. */
  function NoticeFor(error: TranslationError): Notice {
    match error
    case ServerUnavailable => ServerUnavailableNotice
    case NoTextSelected => ErrorNotice(NoTextSelectedText)
    case TextTooLong => ErrorNotice(TextTooLongNotice)
    case NetworkError(cause) => ErrorNotice(NetworkErrorPrefix + cause)
    case _ => ErrorNotice(TranslationErrorDescription(error))
  }

  /** The menu-bar icon after `handleTranslationError`, from the one before. */
  function IconAfter(error: TranslationError, before: ConnectionStatus): ConnectionStatus {
    match error
    case ServerUnavailable => Error(ServerUnavailableIcon)
    case NetworkError(_) => Error(NetworkErrorIcon)
    case NoTextSelected => before
    case TextTooLong => before
    case _ => Error(TranslationErrorIcon)
  }

  /** The icon mapping: the two user errors leave the icon as it was; every
      other error shows one of three distinct fixed statuses, chosen by the
      kind of error alone and never the connected or connecting icon. */
  lemma IconMapping(error: TranslationError, before: ConnectionStatus, other: ConnectionStatus)
    ensures error in {NoTextSelected, TextTooLong} ==> IconAfter(error, before) == before
    ensures error !in {NoTextSelected, TextTooLong} ==>
      && IconAfter(error, before) == IconAfter(error, other)
      && IconAfter(error, before).Error?
      && (IconAfter(error, before) == Error(ServerUnavailableIcon) <==> error == ServerUnavailable)
      && (IconAfter(error, before) == Error(NetworkErrorIcon) <==> error.NetworkError?)
  {
    assert ServerUnavailableIcon[0] == 'S' && NetworkErrorIcon[0] == 'N' && TranslationErrorIcon[0] == 'T';
  }

  /** A request while one is running changes nothing; a full run always ends
      with the flag cleared, so the next request is taken. */
  method TranslationSession(app: AppDelegate, ax: AxSnapshot, pasteboard: Option<string>,
                            send: (string, TranslationRequest) -> Exchange, startTime: int, finishTime: int)
    returns (first: bool, second: bool, third: bool)
    requires !app.isTranslating
    modifies app, app.translationService
    ensures first && !second && third
  {
    first := app.HandleTranslationRequest();
    second := app.HandleTranslationRequest();
    app.CompleteTranslation(ax, pasteboard, send, startTime, finishTime);
    third := app.HandleTranslationRequest();
  }

  /** With nothing selected and the pasteboard missing or blank, the user is
      told to select text and the icon keeps the `.connecting` set when the
      request began. */
  method NothingSelected(app: AppDelegate, ax: AxSnapshot, pasteboard: Option<string>,
                         send: (string, TranslationRequest) -> Exchange, now: int)
    requires !app.isTranslating && TextFromAccessibility(ax).Err?
    requires pasteboard.None? || SwiftIsBlank(pasteboard.value)
    modifies app, app.translationService
    ensures app.notices == old(app.notices) + [ErrorNotice(NoTextSelectedText)]
    ensures app.icon == Connecting && !app.isTranslating
  {
    var started := app.HandleTranslationRequest();
    app.CompleteTranslation(ax, pasteboard, send, now, now);
  }
}
