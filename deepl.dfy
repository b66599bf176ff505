/**
 * deepl.go: the response shapes, the credential lookup and the response
 * classifier that turns an HTTP status code and a body into either the
 * decoded target value or a categorised error.
 *
 * JSON decoding (encoding/json) is a parameter: an `Unmarshal<T>` yields the
 * decoded value or the decoder's own error text. Reading the body
 * (ioReadAll) is the outcome stored in a `Response`. The environment
 * (os.LookupEnv) is a map from variable name to value.
 */
module DeepL {
  import opened Wrappers
  import opened Errors
  import opened Decimal

  /** The variable getAPIKey reads unless the caller names another; GetAPIKey takes the name as an argument. */
  const NameEnvKeyAPIDefault := "DEEPL_API_KEY"

  const StatusOK := 200
  const StatusBadRequest := 400
  const StatusUnauthorized := 401
  const StatusForbidden := 403
  const StatusNotFound := 404
  const StatusRequestEntityTooLarge := 413
  const StatusTooManyRequests := 429
  /** The vendor's own status for "character quota for the period used up". */
  const StatusQuotaExceeded := 456
  const StatusServiceUnavailable := 503

  newtype byte = x: int | 0 <= x < 256
  type Bytes = seq<byte>

  // The response shapes the client decodes. The classifier is generic in its
  // target, so AccountStatus, Translation and TranslateResponse are declared
  // only as the shapes an Unmarshal<T> would produce; ErrorResponse is the
  // one the classifier itself decodes.
  datatype AccountStatus = AccountStatus(characterCount: int, characterLimit: int)
  datatype ErrorResponse = ErrorResponse(errMessage: string)
  datatype Translation = Translation(detectedSourceLanguage: string, text: string)
  datatype TranslateResponse = TranslateResponse(translations: seq<Translation>)

  /** json.Unmarshal into a T: the decoded value, or the text of the decoder's error. */
  type Unmarshal<T> = Bytes -> Result<T, string>

  /** An HTTP response as responseParse sees it: its status code and the outcome of reading its whole body. */
  datatype Response = Response(statusCode: int, body: Result<Bytes, Error>)

  // ---------------------------------------------------------------------------
  //  Credential lookup
  // ---------------------------------------------------------------------------

  /**
   * getAPIKey: the key stored under `name`, or an error with an empty key.
   * An absent variable and an empty one give two different messages.
   */
  function GetAPIKey(env: map<string, string>, name: string): (r: (string, Option<Error>))
    ensures r.1.None? <==> name in env && env[name] != ""
    ensures r.1.None? ==> r.0 == env[name]
    ensures r.1.Some? ==> r.0 == ""
    ensures name !in env ==> r.1 == Some(Leaf("env variable for API key not set: " + name))
    ensures name in env && env[name] == "" ==> r.1 == Some(Leaf("env var is set but empty: " + name))
  {
    if name !in env then ("", Some(Leaf("env variable for API key not set: " + name)))
    else if env[name] == "" then ("", Some(Leaf("env var is set but empty: " + name)))
    else (env[name], None)
  }

  /** The two failures of GetAPIKey can be told apart by their messages. */
  lemma MissingAndEmptyKeyDiffer(name: string)
    ensures GetAPIKey(map[], name).1 != GetAPIKey(map[name := ""], name).1
  {
    var absent := GetAPIKey(map[], name).1.value.text;
    var empty := GetAPIKey(map[name := ""], name).1.value.text;
    assert absent[7] != empty[7];
  }

  // ---------------------------------------------------------------------------
  //  Decoding
  // ---------------------------------------------------------------------------

  /** decodeBody: the decoder's outcome, its failure wrapped as "failed to decode json". */
  function DecodeBody<T>(body: Bytes, unmarshal: Unmarshal<T>): (r: Result<T, Error>)
    ensures r.Success? <==> unmarshal(body).Success?
    ensures r.Success? ==> r.value == unmarshal(body).value
    ensures r.Failure? ==> IsPrefix("failed to decode json: ", Message(r.error))
    ensures r.Failure? ==> RootCause(r.error) == Leaf(unmarshal(body).error)
    ensures r.Failure? ==> r.error == Wrapped("failed to decode json", Leaf(unmarshal(body).error))
  {
    match unmarshal(body)
    case Success(v) => Success(v)
    case Failure(msg) => Failure(WrapIfErr(Some(Leaf(msg)), "failed to decode json").value)
  }

  /** A decoder that refuses empty input, as encoding/json does ("unexpected end of JSON input"). */
  predicate RejectsEmpty<T>(unmarshal: Unmarshal<T>) {
    unmarshal([]).Failure?
  }

  // ---------------------------------------------------------------------------
  //  Status classification
  // ---------------------------------------------------------------------------

  /** The kinds of error treatBodyAsErr reports for a status other than 200. */
  datatype Category =
    | BadRequest | Unauthorized | AuthorizationFailed | NotFound | EntityTooLarge
    | TooManyRequests | QuotaExceeded | ServiceUnavailable
    | InternalServerError | UnexpectedStatus

  /** The status code a category is reserved for, if it is one of the exact cases of the switch. */
  function ExactStatus(c: Category): (r: Option<int>)
    ensures r.Some? <==> !ReportsStatus(c)
    ensures r.Some? ==> 400 <= r.value <= 599
  {
    match c
    case BadRequest => Some(StatusBadRequest)
    case Unauthorized => Some(StatusUnauthorized)
    case AuthorizationFailed => Some(StatusForbidden)
    case NotFound => Some(StatusNotFound)
    case EntityTooLarge => Some(StatusRequestEntityTooLarge)
    case TooManyRequests => Some(StatusTooManyRequests)
    case QuotaExceeded => Some(StatusQuotaExceeded)
    case ServiceUnavailable => Some(StatusServiceUnavailable)
    case InternalServerError => None
    case UnexpectedStatus => None
  }

  /** The status is one of the eight codes the switch names outright. */
  predicate IsExactStatus(status: int) {
    status in {400, 401, 403, 404, 413, 429, 456, 503}
  }

  /**
   * The switch of treatBodyAsErr for a status other than 200: the exact codes
   * first, then the sweep over 500..599 (which 503 never reaches), then the
   * catch-all.
   */
  function CategoryOf(status: int): (c: Category)
    requires status != StatusOK
    ensures IsExactStatus(status) <==> ExactStatus(c) == Some(status)
    ensures ExactStatus(c).Some? ==> ExactStatus(c) == Some(status)
    ensures c == InternalServerError <==> 500 <= status <= 599 && status != StatusServiceUnavailable
    ensures c == UnexpectedStatus <==> !IsExactStatus(status) && !(500 <= status <= 599)
  {
    if status == StatusBadRequest then BadRequest
    else if status == StatusUnauthorized then Unauthorized
    else if status == StatusForbidden then AuthorizationFailed
    else if status == StatusNotFound then NotFound
    else if status == StatusRequestEntityTooLarge then EntityTooLarge
    else if status == StatusTooManyRequests then TooManyRequests
    else if status == StatusQuotaExceeded then QuotaExceeded
    else if status == StatusServiceUnavailable then ServiceUnavailable
    else if 599 >= status >= 500 then InternalServerError
    else UnexpectedStatus
  }

  /** The categories whose message also reports the status code. */
  predicate ReportsStatus(c: Category) {
    c == InternalServerError || c == UnexpectedStatus
  }

  /** The sentences that open each category's error text. */
  function Headline(c: Category): string {
    match c
    case BadRequest => "Bad request. Please check the error message and your parameters. "
    case Unauthorized => "Unauthorized. Please check your API key. "
    case AuthorizationFailed => "Authorization failed. Please supply a valid auth_key parameter. "
    case NotFound => "Not found. The requested resource clould not be found. "
    case EntityTooLarge => "Request entity too large. The entity size exceeds the limit of each request. "
    case TooManyRequests => "Too many requests. Please wait and resend your request. "
    case QuotaExceeded => "Quota exceeded. The character limit has been reached. "
    case ServiceUnavailable => "Service currently unavailable. Try again later. "
    case InternalServerError => "Internal server error. Please try again later. "
    case UnexpectedStatus => "Unexpected error. "
  }

  const ReturnedMessageLabel := "Returned message: "
  const StatusCodeLabel := "Status code: "

  /**
   * The format text of each category's error up to its first verb: the
   * headline, then the label of what follows, "Status code: " before the
   * `%d` of the two categories that report the status and
   * "Returned message: " before the `%s` of the others.
   */
  function Template(c: Category): (t: string)
    ensures IsPrefix(Headline(c), t)
    ensures ReportsStatus(c) ==> IsSuffix(StatusCodeLabel, t)
    ensures !ReportsStatus(c) ==> IsSuffix(ReturnedMessageLabel, t)
  {
    Headline(c) + if ReportsStatus(c) then StatusCodeLabel else ReturnedMessageLabel
  }

  /** The format text between the status (`%d`) and the message (`%s`) of the two categories that report the status. */
  const StatusCodeTail := ", Returned message: "

  /**
   * The text of the error treatBodyAsErr returns for a status other than 200
   * once the error body's message `msg` is known: the category's format with
   * the status (for the two range categories) and `msg` filled in.
   */
  function StatusText(status: int, msg: string): (text: string)
    requires status != StatusOK
    ensures IsPrefix(Template(CategoryOf(status)), text)
    ensures IsSuffix(msg, text)
    ensures !ReportsStatus(CategoryOf(status)) ==> |text| == |Template(CategoryOf(status))| + |msg|
    ensures ReportsStatus(CategoryOf(status)) ==>
      IsPrefix(Template(CategoryOf(status)) + IntToDecimal(status), text) && IsSuffix(StatusCodeTail + msg, text)
    ensures ReportsStatus(CategoryOf(status)) ==>
      |text| == |Template(CategoryOf(status))| + |IntToDecimal(status)| + |StatusCodeTail| + |msg|
  {
    var c := CategoryOf(status);
    var t := Template(c);
    if ReportsStatus(c) then
      var d := IntToDecimal(status);
      Joined(t, d, StatusCodeTail, msg);
      t + d + StatusCodeTail + msg
    else
      Joined(t, [], [], msg);
      t + msg
  }

  /** How the four parts of a joined text sit in it. */
  lemma Joined(a: string, b: string, c: string, d: string)
    ensures IsPrefix(a, a + b + c + d) && IsPrefix(a + b, a + b + c + d)
    ensures IsSuffix(d, a + b + c + d) && IsSuffix(c + d, a + b + c + d)
    ensures a + b + c + d == (a + b) + (c + d)
  {
  }

  /**
   * treatBodyAsErr. For status 200 the result is the decoding of the body into
   * the target. For any other status the result is an error: if the body is
   * non-empty and is not an ErrorResponse, the error says so whatever the
   * status; otherwise its text is StatusText of the status and the body's
   * message (empty for an empty body).
   */
  function TreatBodyAsErr<T>(status: int, body: Bytes, target: Unmarshal<T>, errorBody: Unmarshal<ErrorResponse>)
    : (r: Result<T, Error>)
    ensures status == StatusOK ==> (r.Success? <==> target(body).Success?)
    ensures status == StatusOK && r.Success? ==> r.value == target(body).value
    ensures status == StatusOK && r.Failure? ==>
      r.error == Wrapped("failed to parse JSON response", Wrapped("failed to decode json", Leaf(target(body).error)))
    ensures status != StatusOK ==> r.Failure?
    ensures status != StatusOK && |body| != 0 && errorBody(body).Failure? ==>
      r.error == Wrapped("failed to decode error response", Wrapped("failed to decode json", Leaf(errorBody(body).error)))
    ensures status != StatusOK && |body| == 0 ==> r == Failure(Leaf(StatusText(status, "")))
    ensures status != StatusOK && |body| != 0 && errorBody(body).Success? ==>
      r == Failure(Leaf(StatusText(status, errorBody(body).value.errMessage)))
  {
    var errResp := if status != StatusOK && |body| != 0 then Some(DecodeBody(body, errorBody)) else None;
    if errResp.Some? && errResp.value.Failure? then
      Failure(Wrapped("failed to decode error response", errResp.value.error))
    else
      var errMessage := if errResp.Some? then errResp.value.value.errMessage else "";
      if status == StatusOK then
        match DecodeBody(body, target)
        case Success(v) => Success(v)
        case Failure(e) => Failure(Wrapped("failed to parse JSON response", e))
      else
        Failure(Leaf(StatusText(status, errMessage)))
  }

  /**
   * responseParse: a missing response or target is refused before any body is
   * read; a failed read is wrapped; otherwise the body is classified.
   */
  function ResponseParse<T>(resp: Option<Response>, hasTarget: bool, target: Unmarshal<T>, errorBody: Unmarshal<ErrorResponse>)
    : (r: Result<T, Error>)
    ensures resp.None? || !hasTarget ==> r == Failure(Leaf("the input was nil"))
    ensures resp.Some? && hasTarget && resp.value.body.Failure? ==>
      r == Failure(Wrapped("failed to read response", resp.value.body.error))
    ensures resp.Some? && hasTarget && resp.value.body.Success? ==>
      r == TreatBodyAsErr(resp.value.statusCode, resp.value.body.value, target, errorBody)
  {
    if resp.None? || !hasTarget then Failure(Leaf("the input was nil"))
    else
      match resp.value.body
      case Failure(e) => Failure(Wrapped("failed to read response", e))
      case Success(bodyBytes) => TreatBodyAsErr(resp.value.statusCode, bodyBytes, target, errorBody)
  }
}
