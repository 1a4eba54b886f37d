/**
 * TranslationService.swift: the client of the local PLaMo server.  The
 * service owns the server endpoint and the connection status shown by the
 * menu bar.  URLSession, the JSON codec and the clock are outside the model:
 * a request's fate is given as an `Exchange` produced by a `send` function
 * from the URL and the request body, and times are milliseconds supplied by
 * the caller.
 */
module Service {
  import opened Common
  import opened Models

  const MaxTextLength: int := 5000
  const InvalidResponseStatus: string := "Invalid response"
  const ServerUnavailableStatus: string := "Server unavailable"
  const InvalidFormatStatus: string := "Invalid response format"
  const NetworkErrorStatus: string := "Network error"
  const DefaultServerEndpoint: string := "http://127.0.0.1:30000"

  /** The URLError codes the service distinguishes. */
  datatype UrlErrorCode = CannotConnectToHost | CannotFindHost | OtherUrlErrorCode

  /** A URLError with its `localizedDescription`. */
  datatype UrlError = UrlError(code: UrlErrorCode, description: string)

  /** What can come back from encoding the request and awaiting `session.data`. */
  datatype Exchange =
    | EncodingFailed(description: string)
    | TransportFailed(error: UrlError)
    | OtherFailure(description: string)
    | NonHttpResponse
    | HttpResponse(statusCode: int, body: Option<TranslationResponse>)

  /** An error escaping `translateText`: a `TranslationError`, or any other
      error the catch-all rethrows unchanged, known by its description. */
  datatype ServiceError = Translation(error: TranslationError) | Foreign(description: string)

  /** `error.localizedDescription`; for a `TranslationError` it is its `errorDescription`. */
  function ServiceErrorDescription(e: ServiceError): string {
    match e
    case Translation(t) => TranslationErrorDescription(t)
    case Foreign(d) => d
  }

  /** What the `do` block throws, before the `catch` clauses see it. */
  datatype Thrown = Raised(error: ServiceError) | DecodingFailed | Transport(urlError: UrlError)

  /** `serverEndpoint.appendingPathComponent("mcp")` */
  function McpUrl(endpoint: string): string {
    if |endpoint| > 0 && endpoint[|endpoint| - 1] == '/' then endpoint + "mcp" else endpoint + "/mcp"
  }

  /** The URL is the endpoint with one more path component, "mcp", joined by a
      single slash. */
  lemma McpUrlShape(endpoint: string)
    ensures var url := McpUrl(endpoint);
      && |url| >= 4 && url[|url| - 4..] == "/mcp"
      && (url[..|url| - 4] == endpoint || url[..|url| - 3] == endpoint)
      && (url[..|url| - 3] == endpoint ==> |endpoint| > 0 && endpoint[|endpoint| - 1] == '/')
  {
    var url := McpUrl(endpoint);
    if |endpoint| > 0 && endpoint[|endpoint| - 1] == '/' {
      assert url[..|url| - 3] == endpoint;
      assert url[|url| - 4..] == [endpoint[|endpoint| - 1]] + "mcp";
    } else {
      assert url[..|url| - 4] == endpoint;
    }
  }

  /** The request body: one user message with the text and both raw values. */
  function RequestFor(text: string, source: Language, target: Language): TranslationRequest {
    TranslationRequest([Message("user", text)], RawValue(source), RawValue(target))
  }

  /** The server receives the text as the only message and both languages in a
      form that decodes back to the requested ones. */
  lemma RequestCarriesInput(text: string, source: Language, target: Language)
    ensures var r := RequestFor(text, source, target);
      && |r.messages| == 1 && r.messages[0] == Message("user", text)
      && FromRawValue(r.sourceLanguage) == Some(source) && FromRawValue(r.targetLanguage) == Some(target)
  {
    RawValueRoundTrip(source, RawValue(source));
    RawValueRoundTrip(target, RawValue(target));
  }

  /** The guards of `translateText`: blank text, then more than 5000 characters. */
  function Validate(text: string): (e: Option<TranslationError>)
    ensures e == Some(NoTextSelected) <==> SwiftIsBlank(text)
    ensures e == Some(TextTooLong) <==> !SwiftIsBlank(text) && |text| > MaxTextLength
    ensures e.None? <==> !SwiftIsBlank(text) && |text| <= MaxTextLength
  {
    if SwiftIsBlank(text) then Some(NoTextSelected)
    else if |text| > MaxTextLength then Some(TextTooLong)
    else None
  }

  /** A status code the service treats as the server being down. */
  predicate ServerDown(statusCode: int) {
    statusCode == 404 || statusCode >= 500
  }

  class TranslationService {
    var serverEndpoint: string
    var connectionStatus: ConnectionStatus

    constructor (endpoint: string)
      ensures serverEndpoint == endpoint && connectionStatus == Disconnected
    {
      serverEndpoint := endpoint;
      connectionStatus := Disconnected;
    }

    /** `translateText` up to the request: the guards, then `.connecting`. */
    method Prepare(text: string) returns (rejected: Option<TranslationError>)
      modifies this`connectionStatus
      ensures rejected == Validate(text)
      ensures rejected.Some? ==> connectionStatus == old(connectionStatus)
      ensures rejected.None? ==> connectionStatus == Connecting
    {
      if SwiftIsBlank(text) {
        return Some(NoTextSelected);
      }
      if |text| > MaxTextLength {
        return Some(TextTooLong);
      }
      connectionStatus := Connecting;
      return None;
    }

    /** The `do`/`catch` of `translateText` once the status is `.connecting`.
        Failures inside the `do` block may first set an intermediate status;
        every error then passes through the `catch` clauses. */
    method Exchange(text: string, source: Language, target: Language, exchange: Exchange, startTime: int, finishTime: int)
      returns (r: Result<TranslationResult, ServiceError>)
      modifies this`connectionStatus
      ensures FailureOf(exchange).None? ==>
        && r.Ok? && connectionStatus == Connected
        && r.value.originalText == text && r.value.translatedText == exchange.body.value.translatedText
        && r.value.sourceLanguage == source && r.value.targetLanguage == target
      ensures FailureOf(exchange).Some? ==>
        r == Err(FailureOf(exchange).value.error) && connectionStatus == FailureOf(exchange).value.status
    {
      var thrown: Thrown;
      match exchange {
      case EncodingFailed(description) =>
        thrown := Raised(Foreign(description));
      case TransportFailed(error) =>
        thrown := Transport(error);
      case OtherFailure(description) =>
        thrown := Raised(Foreign(description));
      case NonHttpResponse =>
        connectionStatus := Error(InvalidResponseStatus);
        thrown := Raised(Translation(InvalidResponse));
      case HttpResponse(statusCode, body) =>
        if statusCode != 200 {
          if ServerDown(statusCode) {
            connectionStatus := Error(ServerUnavailableStatus);
            thrown := Raised(Translation(ServerUnavailable));
          } else {
            connectionStatus := Error("HTTP " + DecimalString(statusCode));
            thrown := Raised(Translation(InvalidResponse));
          }
        } else if body.None? {
          thrown := DecodingFailed;
        } else {
          connectionStatus := Connected;
          var processingTime := (finishTime - startTime) as real / 1000.0;
          return Ok(TranslationResult(text, body.value.translatedText, source, target, finishTime, processingTime));
        }
      }
      // catch _ as DecodingError / catch let error as URLError / catch
      match thrown
      case DecodingFailed =>
        connectionStatus := Error(InvalidFormatStatus);
        r := Err(Translation(InvalidResponse));
      case Transport(urlError) =>
        connectionStatus := Error(NetworkErrorStatus);
        if urlError.code == CannotConnectToHost || urlError.code == CannotFindHost {
          r := Err(Translation(ServerUnavailable));
        } else {
          r := Err(Translation(NetworkError(urlError.description)));
        }
      case Raised(e) =>
        connectionStatus := Error(ServiceErrorDescription(e));
        r := Err(e);
    }

    /** `translateText`: the request for `text` is posted to `<endpoint>/mcp`
        through `send`; the outcome and the final status follow `FailureOf`. */
    method TranslateText(text: string, source: Language, target: Language,
                         send: (string, TranslationRequest) -> Exchange, startTime: int, finishTime: int)
      returns (r: Result<TranslationResult, ServiceError>)
      modifies this`connectionStatus
      ensures Validate(text).Some? ==> r == Err(Translation(Validate(text).value)) && connectionStatus == old(connectionStatus)
      ensures Validate(text).None? ==>
        var exchange := send(McpUrl(serverEndpoint), RequestFor(text, source, target));
        var failure := FailureOf(exchange);
        && (failure.None? ==> r.Ok? && connectionStatus == Connected && r.value.translatedText == exchange.body.value.translatedText)
        && (failure.Some? ==> r == Err(failure.value.error) && connectionStatus == failure.value.status)
      ensures r.Ok? ==> r.value.originalText == text && r.value.sourceLanguage == source && r.value.targetLanguage == target
    {
      var rejected := Prepare(text);
      if rejected.Some? {
        return Err(Translation(rejected.value));
      }
      var exchange := send(McpUrl(serverEndpoint), RequestFor(text, source, target));
      r := Exchange(text, source, target, exchange, startTime, finishTime);
    }

    /** `checkServerConnection`: a GET on `<endpoint>/mcp`; any HTTP status below
        500 counts as connected.  `probe` is the answer: None for a thrown
        error, Some(None) for a non-HTTP response, Some(Some(code)) for HTTP. */
    method CheckServerConnection(probe: Option<Option<int>>) returns (connected: bool)
      modifies this`connectionStatus
      ensures connected <==> probe.Some? && probe.value.Some? && probe.value.value < 500
      ensures connectionStatus == (if connected then Connected else Disconnected)
    {
      if probe.None? {
        connectionStatus := Disconnected;
        return false;
      }
      if probe.value.Some? {
        var isConnected := probe.value.value < 500;
        connectionStatus := if isConnected then Connected else Disconnected;
        return isConnected;
      }
      connectionStatus := Disconnected;
      return false;
    }

    /** `updateServerEndpoint` */
    method UpdateServerEndpoint(endpoint: string)
      modifies this
      ensures serverEndpoint == endpoint && connectionStatus == Disconnected
    {
      serverEndpoint := endpoint;
      connectionStatus := Disconnected;
    }
  }

  /** An error leaving `translateText` after validation, with the status left behind. */
  datatype Failure = Failure(error: ServiceError, status: ConnectionStatus)

  /** The outcome of each exchange as the code's branches and catch clauses
      decide it: the catch-all rewrites the status of every error thrown inside
      the `do` block to `.error(localizedDescription)`, so the intermediate
      "Invalid response", "Server unavailable" and "HTTP n" never remain. */
  function FailureOf(exchange: Exchange): Option<Failure> {
    match exchange
    case EncodingFailed(d) => Some(Failure(Foreign(d), Error(d)))
    case OtherFailure(d) => Some(Failure(Foreign(d), Error(d)))
    case TransportFailed(e) =>
      Some(Failure(Translation(if e.code == OtherUrlErrorCode then NetworkError(e.description) else ServerUnavailable),
                   Error(NetworkErrorStatus)))
    case NonHttpResponse =>
      Some(Failure(Translation(InvalidResponse), Error(TranslationErrorDescription(InvalidResponse))))
    case HttpResponse(code, body) =>
      if code != 200 then
        var e := if ServerDown(code) then ServerUnavailable else InvalidResponse;
        Some(Failure(Translation(e), Error(TranslationErrorDescription(e))))
      else if body.None? then Some(Failure(Translation(InvalidResponse), Error(InvalidFormatStatus)))
      else None
  }

  /** A request succeeds exactly when it leaves the status `.connected`; every
      failure leaves an `.error` status. */
  lemma FailureLeavesErrorStatus(exchange: Exchange)
    ensures FailureOf(exchange).Some? ==> FailureOf(exchange).value.status.Error?
    ensures FailureOf(exchange).None? <==> exchange.HttpResponse? && exchange.statusCode == 200 && exchange.body.Some?
  {
  }

  /** Which `TranslationError` escapes for each HTTP status other than 200. */
  lemma HttpFailureClassification(code: int, body: Option<TranslationResponse>)
    requires code != 200
    ensures FailureOf(HttpResponse(code, body)).Some?
    ensures FailureOf(HttpResponse(code, body)).value.error
      == Translation(if code == 404 || code >= 500 then ServerUnavailable else InvalidResponse)
    ensures FailureOf(HttpResponse(code, body)).value.status
      != Error(if ServerDown(code) then ServerUnavailableStatus else "HTTP " + DecimalString(code))
  {
    var e := if ServerDown(code) then ServerUnavailable else InvalidResponse;
    FixedTextFacts(e);
    if !ServerDown(code) {
      assert ("HTTP " + DecimalString(code))[0] == 'H';
      assert TranslationErrorDescription(InvalidResponse)[0] == 'I';
    }
  }
}
