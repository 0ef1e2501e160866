/**
 * The client of the question-answering service: one request per operation
 * (ingest a PDF, ask a question, get follow-up questions, summarise), each run
 * once through `retryOperation`, with a `catch` that rewrites some errors into
 * messages for the user and rethrows the rest unchanged.
 *
 * The network is a parameter: `respond` gives, for the request the client
 * builds, either a response or the error `fetch` rejects with.
 */
module QaClient {
  import opened Common
  import opened JsText

  const IngestPath: string := "/api/v1/qa/ingest"
  const AskPath: string := "/api/v1/qa/ask"
  const FollowUpPath: string := "/api/v1/qa/follow-up"
  const SummarizePath: string := "/api/v1/summarize"

  const DefaultTopK: int := 5
  const DefaultSummaryType: string := "comprehensive"
  const DefaultSummaryLength: int := 250

  const AbortErrorName: string := "AbortError"
  const FailedToFetch: string := "Failed to fetch"

  const IngestTimeoutMessage: string := "Request timed out. The server might be busy or the file may be too large."
  const AskTimeoutMessage: string := "Request timed out. The server might be busy or your question might be too complex."
  const FollowUpTimeoutMessage: string := "Request timed out. The server might be busy."
  const SummaryTimeoutMessage: string := "Request timed out. Summarizing large documents can take time."

  const NoFileProvided: string := "No file provided"
  const UnsupportedFormat: string := "Unsupported file format"
  const FileSizeExceeds: string := "File size exceeds"
  const NoFileMessage: string := "No file was provided for upload. Please select a PDF file."
  const UnsupportedFormatMessage: string := "Unsupported file format. Only PDF files are accepted."
  const FileSizeMessage: string := "File size exceeds the maximum limit of 20MB."

  /** A thrown JavaScript error, by the two properties the client inspects. */
  datatype JsError = JsError(name: string, message: string)

  /** `new Error(message)`. */
  function NewError(message: string): (e: JsError)
    ensures e.name == "Error" && e.message == message
  {
    JsError("Error", message)
  }

  /** A value of a JSON request body. */
  datatype Field = Text(s: string) | Number(n: int)

  type Payload = map<string, Field>

  datatype RequestBody = Form(file: string) | JsonBody(payload: Payload)

  /** A `POST` to `url`. */
  datatype Request = Request(url: string, body: RequestBody)

  /** What `response.json()` gives: the data, or the error it rejects with. */
  datatype Body<D> = Parsed(data: D) | Malformed(error: JsError)

  datatype Response<D> = Response(ok: bool, status: int, text: string, json: Body<D>)

  /** What `fetch` gives: a response, or the error it rejects with. */
  datatype FetchResult<D> = Responded(response: Response<D>) | Rejected(error: JsError)

  /** How an operation's promise settles. */
  datatype Outcome<D> = Resolved(data: D) | Thrown(error: JsError)

  /** `retryOperation(operation)`: the operation runs once and its result, or error, is passed on as it is. */
  function RetryOperation<T>(operation: () -> T): (r: T)
    ensures r == operation()
  {
    operation()
  }

  /** `checkServer()`: the configured base URL, with no request made. */
  function CheckServer(configuredUrl: string): (r: string)
    ensures r == configuredUrl
  {
    configuredUrl
  }

  /** The part of an `API error` message that comes before the response text. */
  function ApiErrorPrefix(status: int): string {
    "API error (" + (IntToString(status) + "): ")
  }

  /** `API error (status): text`, the message a non-OK response is turned into. */
  function ApiErrorMessage(status: int, text: string): (m: string)
    ensures ApiErrorPrefix(status) <= m && m[|ApiErrorPrefix(status)|..] == text
    ensures m[0] == 'A'
  {
    ApiErrorPrefix(status) + text
  }

  /**
   * The `try` block shared by the four operations: a rejected `fetch` and a
   * body that does not parse throw their own errors, a non-OK response throws
   * `API error (status): text`, and only an OK response with a parsed body
   * resolves, with that body.
   */
  function Attempt<D>(f: FetchResult<D>): (o: Outcome<D>)
    ensures o.Resolved? <==> f.Responded? && f.response.ok && f.response.json.Parsed?
    ensures o.Resolved? ==> o.data == f.response.json.data
    ensures f.Responded? && !f.response.ok ==> o == Thrown(NewError(ApiErrorMessage(f.response.status, f.response.text)))
    ensures f.Rejected? ==> o == Thrown(f.error)
    ensures f.Responded? && f.response.ok && f.response.json.Malformed? ==> o == Thrown(f.response.json.error)
  {
    match f
    case Rejected(e) => Thrown(e)
    case Responded(r) =>
      if !r.ok then Thrown(NewError(ApiErrorMessage(r.status, r.text)))
      else match r.json
        case Parsed(d) => Resolved(d)
        case Malformed(e) => Thrown(e)
  }

  function NetworkMessage(apiUrl: string): string {
    "Network error: Unable to connect to the API server at " + apiUrl + ". Please ensure the server is running."
  }

  /**
   * The `catch` of `askQuestion`, `getFollowUpQuestions` and `getSummary`, with
   * the operation's own timeout message: a timeout and a failed connection are
   * rewritten, everything else is rethrown (`None`).
   */
  function CommonRewrite(e: JsError, apiUrl: string, timeoutMessage: string): (r: Option<string>)
    ensures e.name == AbortErrorName ==> r == Some(timeoutMessage)
    ensures e.name != AbortErrorName && e.message == FailedToFetch ==> r == Some(NetworkMessage(apiUrl))
    ensures r.None? <==> e.name != AbortErrorName && e.message != FailedToFetch
  {
    if e.name == AbortErrorName then Some(timeoutMessage)
    else if e.message == FailedToFetch then Some(NetworkMessage(apiUrl))
    else None
  }

  /** The substring rules of the ingest `catch`, first match wins; `None` when none applies. */
  function ServerMessageRewrite(message: string): (r: Option<string>)
    ensures Includes(message, NoFileProvided) ==> r == Some(NoFileMessage)
    ensures !Includes(message, NoFileProvided) && Includes(message, UnsupportedFormat) ==> r == Some(UnsupportedFormatMessage)
    ensures !Includes(message, NoFileProvided) && !Includes(message, UnsupportedFormat) && Includes(message, FileSizeExceeds)
      ==> r == Some(FileSizeMessage)
    ensures r.None? <==> !Includes(message, NoFileProvided) && !Includes(message, UnsupportedFormat) && !Includes(message, FileSizeExceeds)
  {
    if Includes(message, NoFileProvided) then Some(NoFileMessage)
    else if Includes(message, UnsupportedFormat) then Some(UnsupportedFormatMessage)
    else if Includes(message, FileSizeExceeds) then Some(FileSizeMessage)
    else None
  }

  /**
   * The `catch` of `ingestDocument`: the timeout and connection rules with the
   * ingest timeout message, then the substring rules on the message.
   */
  function IngestRewrite(e: JsError, apiUrl: string): (r: Option<string>)
    ensures e.name == AbortErrorName ==> r == Some(IngestTimeoutMessage)
    ensures e.name != AbortErrorName && e.message == FailedToFetch ==> r == Some(NetworkMessage(apiUrl))
    ensures e.name != AbortErrorName && e.message != FailedToFetch ==> r == ServerMessageRewrite(e.message)
  {
    var first := CommonRewrite(e, apiUrl, IngestTimeoutMessage);
    if first.Some? then first else ServerMessageRewrite(e.message)
  }

  /** `throw new Error(message)` for a rewrite, `throw error` otherwise. */
  function Rethrow(e: JsError, rewrite: Option<string>): (r: JsError)
    ensures rewrite.None? ==> r == e
    ensures rewrite.Some? ==> r == NewError(rewrite.value)
  {
    if rewrite.Some? then NewError(rewrite.value) else e
  }

  /** A value the JavaScript `if (documentId)` test accepts. */
  predicate Truthy(documentId: Option<string>) {
    documentId.Some? && documentId.value != ""
  }

  // ---------------------------------------------------------------------------
  // The non-OK response inside the ingest `try`

  /** No character of the `API error (status): ` prefix starts one of the ingest substrings. */
  lemma {:induction false} PrefixAvoids(status: int, w: string)
    requires w == NoFileProvided || w == UnsupportedFormat || w == FileSizeExceeds
    ensures forall i :: 0 <= i < |ApiErrorPrefix(status)| ==> ApiErrorPrefix(status)[i] != w[0]
  {
    var digits := IntToString(status);
    var p := ApiErrorPrefix(status);
    forall i | 0 <= i < |p| ensures p[i] != w[0] {
      if 11 <= i < 11 + |digits| {
        assert p[i] == digits[i - 11];
      }
    }
  }

  /** The substrings the ingest rules look for are found in `API error (status): text` exactly when found in `text`. */
  lemma {:induction false} ApiErrorIncludes(status: int, text: string, w: string)
    requires w == NoFileProvided || w == UnsupportedFormat || w == FileSizeExceeds
    ensures Includes(ApiErrorMessage(status, text), w) <==> Includes(text, w)
  {
    PrefixAvoids(status, w);
    IncludesPastPrefix(ApiErrorPrefix(status), text, w);
  }

  /**
   * The error thrown for a non-OK ingest response is caught by the same `try`
   * and classified by the text of the response: the substring rules decide as
   * they would on the text alone, and a text none of them matches lets the
   * `API error` itself through.
   */
  lemma {:induction false} IngestApiErrorByBody(status: int, text: string, apiUrl: string)
    ensures IngestRewrite(NewError(ApiErrorMessage(status, text)), apiUrl) == ServerMessageRewrite(text)
  {
    assert ApiErrorMessage(status, text)[0] != FailedToFetch[0];
    ApiErrorIncludes(status, text, NoFileProvided);
    ApiErrorIncludes(status, text, UnsupportedFormat);
    ApiErrorIncludes(status, text, FileSizeExceeds);
  }

  /** A non-OK ingest response whose text mentions the size limit ends in the 20MB message. */
  lemma {:induction false} IngestSizeRejection(status: int, text: string, apiUrl: string)
    requires Includes(text, FileSizeExceeds)
    requires !Includes(text, NoFileProvided) && !Includes(text, UnsupportedFormat)
    ensures Rethrow(NewError(ApiErrorMessage(status, text)), IngestRewrite(NewError(ApiErrorMessage(status, text)), apiUrl))
      == NewError(FileSizeMessage)
  {
    IngestApiErrorByBody(status, text, apiUrl);
  }

  /** For ask, follow-up and summarise, the `API error` of a non-OK response is rethrown as it is. */
  lemma {:induction false} ApiErrorPropagates(status: int, text: string, apiUrl: string, timeoutMessage: string)
    ensures CommonRewrite(NewError(ApiErrorMessage(status, text)), apiUrl, timeoutMessage).None?
  {
    assert ApiErrorMessage(status, text)[0] == 'A';
  }

  // ---------------------------------------------------------------------------
  // The four operations

  /** The body of `askQuestion`: `query` and `top_k` (5 when not given), and `document_id` only for a truthy id. */
  method AskPayload(query: string, documentId: Option<string>, topK: Option<int>) returns (payload: Payload)
    ensures payload.Keys == if Truthy(documentId) then {"query", "top_k", "document_id"} else {"query", "top_k"}
    ensures payload["query"] == Text(query)
    ensures payload["top_k"] == Number(topK.GetOr(DefaultTopK))
    ensures Truthy(documentId) ==> payload["document_id"] == Text(documentId.value)
  {
    payload := map["query" := Text(query), "top_k" := Number(topK.GetOr(DefaultTopK))];
    if Truthy(documentId) {
      payload := payload["document_id" := Text(documentId.value)];
    }
  }

  /** The body of `getFollowUpQuestions`: `query`, and `document_id` only for a truthy id. */
  method FollowUpPayload(query: string, documentId: Option<string>) returns (payload: Payload)
    ensures payload.Keys == if Truthy(documentId) then {"query", "document_id"} else {"query"}
    ensures payload["query"] == Text(query)
    ensures Truthy(documentId) ==> payload["document_id"] == Text(documentId.value)
  {
    payload := map["query" := Text(query)];
    if Truthy(documentId) {
      payload := payload["document_id" := Text(documentId.value)];
    }
  }

  /** The body of `getSummary`, with the defaults `'comprehensive'` and 250 words. */
  method SummaryPayload(documentId: string, summaryType: Option<string>, length: Option<int>) returns (payload: Payload)
    ensures payload.Keys == {"doc_id", "summary_type", "max_length"}
    ensures payload["doc_id"] == Text(documentId)
    ensures payload["summary_type"] == Text(summaryType.GetOr(DefaultSummaryType))
    ensures payload["max_length"] == Number(length.GetOr(DefaultSummaryLength))
  {
    payload := map[
      "doc_id" := Text(documentId),
      "summary_type" := Text(summaryType.GetOr(DefaultSummaryType)),
      "max_length" := Number(length.GetOr(DefaultSummaryLength))
    ];
  }

  /**
   * `ingestDocument(file)`: the file is posted as a form; the data comes back
   * only from an OK response whose body parses, and every failure, the
   * `API error` of a non-OK response included, goes through the ingest rules.
   */
  method IngestDocument<D>(configuredUrl: string, file: string, respond: Request -> FetchResult<D>)
    returns (request: Request, outcome: Outcome<D>)
    ensures request == Request(configuredUrl + IngestPath, Form(file))
    ensures outcome.Resolved? <==> Attempt(respond(request)).Resolved?
    ensures outcome.Resolved? ==> outcome == Attempt(respond(request))
    ensures outcome.Thrown? ==> outcome.error == Rethrow(Attempt(respond(request)).error,
                                                         IngestRewrite(Attempt(respond(request)).error, configuredUrl))
    ensures respond(request).Responded? && !respond(request).response.ok ==>
      outcome == Thrown(Rethrow(NewError(ApiErrorMessage(respond(request).response.status, respond(request).response.text)),
                                ServerMessageRewrite(respond(request).response.text)))
  {
    var apiUrl := CheckServer(configuredUrl);
    request := Request(apiUrl + IngestPath, Form(file));
    var attempt := RetryOperation(() => Attempt(respond(request)));
    match attempt
    case Resolved(_) =>
      outcome := attempt;
    case Thrown(e) =>
      outcome := Thrown(Rethrow(e, IngestRewrite(e, apiUrl)));
      var f := respond(request);
      if f.Responded? && !f.response.ok {
        IngestApiErrorByBody(f.response.status, f.response.text, apiUrl);
      }
  }

  /**
   * The shared tail of the JSON operations: post `payload` to `path`, and on
   * failure rewrite only a timeout (with `timeoutMessage`) and a failed
   * connection. A non-OK response is rejected with its `API error` unchanged.
   */
  method PostJson<D>(apiUrl: string, path: string, payload: Payload, timeoutMessage: string,
                     respond: Request -> FetchResult<D>)
    returns (request: Request, outcome: Outcome<D>)
    ensures request == Request(apiUrl + path, JsonBody(payload))
    ensures outcome.Resolved? <==> Attempt(respond(request)).Resolved?
    ensures outcome.Resolved? ==> outcome == Attempt(respond(request))
    ensures outcome.Thrown? ==> outcome.error == Rethrow(Attempt(respond(request)).error,
                                                         CommonRewrite(Attempt(respond(request)).error, apiUrl, timeoutMessage))
    ensures respond(request).Responded? && !respond(request).response.ok ==>
      outcome == Thrown(NewError(ApiErrorMessage(respond(request).response.status, respond(request).response.text)))
  {
    request := Request(apiUrl + path, JsonBody(payload));
    var attempt := RetryOperation(() => Attempt(respond(request)));
    match attempt
    case Resolved(_) =>
      outcome := attempt;
    case Thrown(e) =>
      outcome := Thrown(Rethrow(e, CommonRewrite(e, apiUrl, timeoutMessage)));
      var f := respond(request);
      if f.Responded? && !f.response.ok {
        ApiErrorPropagates(f.response.status, f.response.text, apiUrl, timeoutMessage);
      }
  }

  /** `askQuestion(query, documentId, topK)`. */
  method AskQuestion<D>(configuredUrl: string, query: string, documentId: Option<string>, topK: Option<int>,
                        respond: Request -> FetchResult<D>)
    returns (request: Request, outcome: Outcome<D>)
    ensures request.url == configuredUrl + AskPath && request.body.JsonBody?
    ensures "query" in request.body.payload && request.body.payload["query"] == Text(query)
    ensures "top_k" in request.body.payload && request.body.payload["top_k"] == Number(topK.GetOr(DefaultTopK))
    ensures request.body.payload.Keys == if Truthy(documentId) then {"query", "top_k", "document_id"} else {"query", "top_k"}
    ensures Truthy(documentId) ==> request.body.payload["document_id"] == Text(documentId.value)
    ensures outcome.Resolved? <==> Attempt(respond(request)).Resolved?
    ensures outcome.Resolved? ==> outcome == Attempt(respond(request))
    ensures outcome.Thrown? ==> outcome.error == Rethrow(Attempt(respond(request)).error,
                                                         CommonRewrite(Attempt(respond(request)).error, configuredUrl, AskTimeoutMessage))
    ensures respond(request).Responded? && !respond(request).response.ok ==>
      outcome == Thrown(NewError(ApiErrorMessage(respond(request).response.status, respond(request).response.text)))
  {
    var apiUrl := CheckServer(configuredUrl);
    var payload := AskPayload(query, documentId, topK);
    request, outcome := PostJson(apiUrl, AskPath, payload, AskTimeoutMessage, respond);
  }

  /** `getFollowUpQuestions(query, documentId)`. */
  method GetFollowUpQuestions<D>(configuredUrl: string, query: string, documentId: Option<string>,
                                 respond: Request -> FetchResult<D>)
    returns (request: Request, outcome: Outcome<D>)
    ensures request.url == configuredUrl + FollowUpPath && request.body.JsonBody?
    ensures "query" in request.body.payload && request.body.payload["query"] == Text(query)
    ensures request.body.payload.Keys == if Truthy(documentId) then {"query", "document_id"} else {"query"}
    ensures Truthy(documentId) ==> request.body.payload["document_id"] == Text(documentId.value)
    ensures outcome.Resolved? <==> Attempt(respond(request)).Resolved?
    ensures outcome.Resolved? ==> outcome == Attempt(respond(request))
    ensures outcome.Thrown? ==> outcome.error == Rethrow(Attempt(respond(request)).error,
                                                         CommonRewrite(Attempt(respond(request)).error, configuredUrl, FollowUpTimeoutMessage))
    ensures respond(request).Responded? && !respond(request).response.ok ==>
      outcome == Thrown(NewError(ApiErrorMessage(respond(request).response.status, respond(request).response.text)))
  {
    var apiUrl := CheckServer(configuredUrl);
    var payload := FollowUpPayload(query, documentId);
    request, outcome := PostJson(apiUrl, FollowUpPath, payload, FollowUpTimeoutMessage, respond);
  }

  /** `getSummary(documentId, summaryType, length)`. */
  method GetSummary<D>(configuredUrl: string, documentId: string, summaryType: Option<string>, length: Option<int>,
                       respond: Request -> FetchResult<D>)
    returns (request: Request, outcome: Outcome<D>)
    ensures request.url == configuredUrl + SummarizePath && request.body.JsonBody?
    ensures request.body.payload == map["doc_id" := Text(documentId),
                                        "summary_type" := Text(summaryType.GetOr(DefaultSummaryType)),
                                        "max_length" := Number(length.GetOr(DefaultSummaryLength))]
    ensures outcome.Resolved? <==> Attempt(respond(request)).Resolved?
    ensures outcome.Resolved? ==> outcome == Attempt(respond(request))
    ensures outcome.Thrown? ==> outcome.error == Rethrow(Attempt(respond(request)).error,
                                                         CommonRewrite(Attempt(respond(request)).error, configuredUrl, SummaryTimeoutMessage))
    ensures respond(request).Responded? && !respond(request).response.ok ==>
      outcome == Thrown(NewError(ApiErrorMessage(respond(request).response.status, respond(request).response.text)))
  {
    var apiUrl := CheckServer(configuredUrl);
    var payload := SummaryPayload(documentId, summaryType, length);
    request, outcome := PostJson(apiUrl, SummarizePath, payload, SummaryTimeoutMessage, respond);
  }
}
