/** The chat service client of the storefront's support widget: the message and
    response records, how a request's outcome is classified into a value or an
    `ApiError`, the health probe, the category fallback, the quick replies
    offered for an intent, and the sentence shown to the user for an error.
    The network itself is not modelled: a request is given by its outcome. */
module ChatApi {
  import opened Wrappers
  import opened Text

  datatype Sender = User | Bot

  /** A transcript entry. The optional timestamp is never set by the widget. */
  datatype Message = Message(sender: Sender, text: string)

  /** A catalogue product as the chat service reports it. The price, a
      JavaScript number with at most two decimals, is held in cents. */
  datatype Product = Product(
    id: string,
    name: string,
    description: string,
    priceCents: nat,
    category: string,
    inStock: bool,
    tags: seq<string>,
    features: seq<string>,
    imageUrl: Option<string>)

  /** The body of a successful reply to `POST /chat`. */
  datatype ChatResponse = ChatResponse(
    response: string,
    conversationId: string,
    suggestedQuestions: seq<string>,
    relevantProducts: seq<Product>,
    intent: string,
    confidence: real)

  /** The values a request can throw: the client's own `ApiError`, any other
      JavaScript `Error` (with its `name`, e.g. "AbortError" or "TypeError"), or
      a thrown value that is not an `Error` at all. */
  datatype ErrorValue =
    | ApiError(status: nat, message: string)
    | JsError(name: string, message: string)
    | NonError

  /** What `fetch` produced: a thrown value, or a response with its status,
      its body text and what `JSON.parse` makes of that text (None when the
      text is not valid JSON). */
  datatype HttpResponse<T> = HttpResponse(status: nat, body: string, json: Option<T>)

  datatype FetchOutcome<T> = Thrown(error: ErrorValue) | Responded(response: HttpResponse<T>)

  /** `response.ok`. */
  predicate IsOk(status: nat) {
    200 <= status <= 299
  }

  /** The abort raised when the request's timer fires. */
  predicate IsAbort(e: ErrorValue) {
    e.JsError? && e.name == "AbortError"
  }

  const TimeoutStatus: nat := 408
  const SnippetLength: nat := 100
  const InvalidJsonPrefix := "Invalid JSON response: "
  const EmptyBodyText := "Empty response from server"

  function HttpErrorMessage(status: nat, body: string): string {
    "HTTP error! status: " + DecimalText(status) + ", message: " + body
  }

  function Min(a: nat, b: nat): nat {
    if a <= b then a else b
  }

  /** `fetchWithTimeout`: an abort becomes a timeout `ApiError`, a non-2xx
      response an `ApiError` carrying the status and the body, any other thrown
      value is passed on unchanged, and a 2xx response is returned. */
  function FetchWithTimeout<T>(o: FetchOutcome<T>): (r: Result<HttpResponse<T>, ErrorValue>)
    ensures r.Success? <==> o.Responded? && IsOk(o.response.status)
    ensures r.Success? ==> r.value == o.response
    ensures o.Thrown? && IsAbort(o.error) ==> r == Failure(ApiError(TimeoutStatus, "Request timeout"))
    ensures o.Thrown? && !IsAbort(o.error) ==> r == Failure(o.error)
    ensures o.Responded? && !IsOk(o.response.status) ==>
      r == Failure(ApiError(o.response.status, HttpErrorMessage(o.response.status, o.response.body)))
  {
    match o
    case Thrown(e) =>
      if IsAbort(e) then Failure(ApiError(TimeoutStatus, "Request timeout")) else Failure(e)
    case Responded(resp) =>
      if !IsOk(resp.status) then Failure(ApiError(resp.status, HttpErrorMessage(resp.status, resp.body)))
      else Success(resp)
  }

  /** `handleResponse`: an empty body and a body that does not parse are both
      `ApiError`s with the response's status; the latter quotes at most the
      first 100 characters of the body. */
  function HandleResponse<T>(resp: HttpResponse<T>): (r: Result<T, ErrorValue>)
    ensures r.Success? <==> resp.body != "" && resp.json.Some?
    ensures r.Success? ==> r.value == resp.json.value
    ensures r.Failure? ==> r.error.ApiError? && r.error.status == resp.status
    ensures resp.body == "" ==> r.error.message == EmptyBodyText
    ensures resp.body != "" && resp.json.None? ==>
      r.error.message == InvalidJsonPrefix + resp.body[..Min(SnippetLength, |resp.body|)] &&
      |r.error.message| <= |InvalidJsonPrefix| + SnippetLength
  {
    if resp.body == "" then Failure(ApiError(resp.status, EmptyBodyText))
    else if resp.json.None? then
      Failure(ApiError(resp.status, InvalidJsonPrefix + resp.body[..Min(SnippetLength, |resp.body|)]))
    else Success(resp.json.value)
  }

  /** A request of the client: `fetchWithTimeout` followed by `handleResponse`. */
  function Request<T>(o: FetchOutcome<T>): (r: Result<T, ErrorValue>)
    ensures r.Success? <==>
      o.Responded? && IsOk(o.response.status) && o.response.body != "" && o.response.json.Some?
    ensures r.Success? ==> r.value == o.response.json.value
    ensures o.Responded? && r.Failure? ==> r.error.ApiError? && r.error.status == o.response.status
  {
    match FetchWithTimeout(o)
    case Failure(e) => Failure(e)
    case Success(resp) => HandleResponse(resp)
  }

  /** The root endpoint's reply, as far as the client reads it. */
  datatype HealthPayload = HealthPayload(message: string, status: string)

  /** `checkApiHealth`: healthy exactly when `healthCheck` raised nothing,
      i.e. the root endpoint answered 2xx with a non-empty JSON body. */
  function CheckApiHealth(o: FetchOutcome<HealthPayload>): (healthy: bool)
    ensures healthy <==>
      o.Responded? && IsOk(o.response.status) && o.response.body != "" && o.response.json.Some?
  {
    Request(o).Success?
  }

  datatype CategoriesPayload = CategoriesPayload(categories: seq<string>)

  /** The six categories `getCategories` falls back to. */
  const FallbackCategories: seq<string> := ["electronics", "clothing", "home", "beauty", "sports", "books"]

  /** `chatService.getCategories`: the service's list, or the fallback on any error. */
  function GetCategories(o: FetchOutcome<CategoriesPayload>): (r: seq<string>)
    ensures Request(o).Success? ==> r == o.response.json.value.categories
    ensures Request(o).Failure? ==> r == FallbackCategories
  {
    match Request(o)
    case Success(payload) => payload.categories
    case Failure(_) => FallbackCategories
  }

  /** Every failed request, whatever the error, yields six categories. */
  lemma CategoriesFallbackOnError(o: FetchOutcome<CategoriesPayload>)
    requires !(o.Responded? && IsOk(o.response.status) && o.response.body != "" && o.response.json.Some?)
    ensures GetCategories(o) == FallbackCategories && |GetCategories(o)| == 6
  {
  }

  const DefaultReplies: seq<string> := ["Best sellers", "Current deals", "Shipping info", "Return policy"]

  /** The intents that have a list of their own. */
  const ReplyIntents: seq<string> := ["product_inquiry", "shipping", "support", "pricing", "returns"]

  /** `chatService.getQuickReplies`: a fixed list per known intent, the four
      defaults for any other intent and for a missing one. */
  function QuickReplies(intent: Option<string>): (r: seq<string>)
    ensures |r| > 0
    ensures r == DefaultReplies <==> !(intent.Some? && intent.value in ReplyIntents)
  {
    if intent == Some("product_inquiry") then
      ["Show me electronics", "Clothing items", "Home & garden", "All categories"]
    else if intent == Some("shipping") then
      ["Shipping costs", "Delivery time", "International shipping", "Track my order"]
    else if intent == Some("support") then
      ["Contact support", "Store locations", "Business hours", "Technical help"]
    else if intent == Some("pricing") then
      ["Do you offer discounts?", "What's the return policy?", "Any bundle deals?"]
    else if intent == Some("returns") then
      ["How do I return an item?", "What's your warranty policy?", "Do you offer exchanges?"]
    else DefaultReplies
  }

  /** Each known intent has a list of its own: no two of them share one. */
  lemma QuickRepliesDistinguishIntents(a: string, b: string)
    requires a in ReplyIntents && b in ReplyIntents && a != b
    ensures QuickReplies(Some(a)) != QuickReplies(Some(b))
  {
  }

  const BadRequestText := "Invalid request. Please check your input."
  const NotFoundText := "The requested resource was not found."
  const ServerErrorText := "Server error. Please try again later."
  const TimeoutText := "Request timeout. Please check your connection."
  const NetworkText := "Network error. Please check your internet connection and ensure the server is running."
  const ProtocolText := "Connection error. Please ensure you're using the correct protocol (HTTP vs HTTPS)."
  const UnexpectedText := "An unexpected error occurred."

  /** `handleApiError`: the sentence the widget shows for a failed request. */
  function HandleApiError(e: ErrorValue): string {
    match e
    case ApiError(status, message) =>
      if status == 400 then BadRequestText
      else if status == 404 then NotFoundText
      else if status == 500 then ServerErrorText
      else if status == 408 then TimeoutText
      else "Error: " + message
    case JsError(_, message) =>
      if Contains(message, "Failed to fetch") || Contains(message, "NetworkError") then NetworkText
      else if Contains(message, "SSL") then ProtocolText
      else message
    case NonError => UnexpectedText
  }

  /** The network test comes first: a message that names both a failed fetch
      and SSL is reported as a network error. */
  lemma NetworkWordingBeforeProtocol(name: string, message: string)
    requires Contains(message, "Failed to fetch") || Contains(message, "NetworkError")
    ensures HandleApiError(JsError(name, message)) == NetworkText
    ensures HandleApiError(JsError(name, message)) != ProtocolText
  {
  }

  /** A request that timed out is reported as a timeout. */
  lemma TimeoutWording<T>(o: FetchOutcome<T>)
    requires o.Thrown? && IsAbort(o.error)
    ensures Request(o) == Failure(ApiError(TimeoutStatus, "Request timeout"))
    ensures HandleApiError(Request(o).error) == TimeoutText
  {
  }

  /** Any other thrown value reaches `handleApiError` as it was thrown. */
  lemma ThrownWording<T>(o: FetchOutcome<T>)
    requires o.Thrown? && !IsAbort(o.error)
    ensures HandleApiError(Request(o).error) == HandleApiError(o.error)
  {
  }

  /** How `handleApiError` words each kind of error: an `ApiError` by its
      status, an `Error` by the words its message contains (a failed fetch
      before SSL), and anything else by the generic sentence. */
  lemma ErrorWording(e: ErrorValue)
    ensures e.ApiError? ==>
      HandleApiError(e) ==
        (if e.status == 400 then BadRequestText
         else if e.status == 404 then NotFoundText
         else if e.status == 500 then ServerErrorText
         else if e.status == 408 then TimeoutText
         else "Error: " + e.message)
    ensures e.JsError? && (Contains(e.message, "Failed to fetch") || Contains(e.message, "NetworkError")) ==>
      HandleApiError(e) == NetworkText
    ensures e.JsError? && !Contains(e.message, "Failed to fetch") && !Contains(e.message, "NetworkError") ==>
      HandleApiError(e) == (if Contains(e.message, "SSL") then ProtocolText else e.message)
    ensures e.NonError? ==> HandleApiError(e) == UnexpectedText
  {
  }

  /** A non-2xx reply is worded by its status; a status without a sentence of
      its own shows the status and the body the server sent. */
  lemma StatusWording<T>(o: FetchOutcome<T>)
    requires o.Responded? && !IsOk(o.response.status)
    ensures o.response.status == 400 ==> HandleApiError(Request(o).error) == BadRequestText
    ensures o.response.status == 404 ==> HandleApiError(Request(o).error) == NotFoundText
    ensures o.response.status == 500 ==> HandleApiError(Request(o).error) == ServerErrorText
    ensures o.response.status == 408 ==> HandleApiError(Request(o).error) == TimeoutText
    ensures o.response.status !in {400, 404, 408, 500} ==>
      HandleApiError(Request(o).error) == "Error: " + HttpErrorMessage(o.response.status, o.response.body)
  {
  }

  /** A 2xx reply with an empty body or a body that does not parse is never
      given one of the status sentences: the user reads the client's message. */
  lemma ProtocolWording<T>(resp: HttpResponse<T>)
    requires IsOk(resp.status)
    ensures resp.body == "" ==>
      HandleApiError(Request(Responded(resp)).error) == "Error: " + EmptyBodyText
    ensures resp.body != "" && resp.json.None? ==>
      HandleApiError(Request(Responded(resp)).error) ==
        "Error: " + InvalidJsonPrefix + resp.body[..Min(SnippetLength, |resp.body|)]
  {
    OkResponseHandled(resp);
    var r := HandleResponse(resp);
    if r.Failure? {
      OtherStatusWording(resp.status, r.error.message);
    }
  }

  /** A 2xx response goes straight to `handleResponse`. */
  lemma OkResponseHandled<T>(resp: HttpResponse<T>)
    requires IsOk(resp.status)
    ensures Request(Responded(resp)) == HandleResponse(resp)
  {
    assert FetchWithTimeout(Responded(resp)) == Success(resp);
  }

  /** A status without a sentence of its own is shown with its message. */
  lemma OtherStatusWording(status: nat, message: string)
    requires 200 <= status <= 299
    ensures HandleApiError(ApiError(status, message)) == "Error: " + message
  {
  }

  /** What the widget's status indicator shows. */
  datatype ApiStatus = Checking | Online | Offline
}
