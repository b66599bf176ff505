/**
 * What treatBodyAsErr and responseParse promise, stated over all statuses,
 * bodies and decoders: the order in which the checks are made and the exact
 * texts of the errors.
 */
module DeepLProperties {
  import opened Wrappers
  import opened Errors
  import opened Decimal
  import opened DeepL

  /**
   * Status 200 never consults the error-body decoder: two classifiers that
   * differ only in it agree. A target that does not decode is reported as a
   * JSON parse failure around the decoder's own failure.
   */
  lemma OKNeverDecodesErrorBody<T>(body: Bytes, target: Unmarshal<T>, e1: Unmarshal<ErrorResponse>, e2: Unmarshal<ErrorResponse>)
    ensures TreatBodyAsErr(StatusOK, body, target, e1) == TreatBodyAsErr(StatusOK, body, target, e2)
    ensures target(body).Failure? ==>
      IsPrefix("failed to parse JSON response" + ": " + "failed to decode json" + ": ",
               Message(TreatBodyAsErr(StatusOK, body, target, e1).error))
  {
    if target(body).Failure? {
      TwoContextsOpenMessage("failed to parse JSON response", "failed to decode json", Leaf(target(body).error));
    }
  }

  /** An empty body with status 200 fails to parse under a decoder that, like encoding/json, refuses empty input. */
  lemma OKEmptyBodyFails<T>(target: Unmarshal<T>, errorBody: Unmarshal<ErrorResponse>)
    requires RejectsEmpty(target)
    ensures TreatBodyAsErr(StatusOK, [], target, errorBody).Failure?
    ensures TreatBodyAsErr(StatusOK, [], target, errorBody).error.context == "failed to parse JSON response"
  {
  }

  /**
   * A non-empty body that is not an ErrorResponse is reported as such before
   * the status is looked at: every status other than 200 gives the same
   * error, "failed to decode error response" around "failed to decode json"
   * around the decoder's message, and its text ends with that message.
   */
  lemma MalformedErrorBodyWhateverStatus<T>(s1: int, s2: int, body: Bytes, target: Unmarshal<T>, errorBody: Unmarshal<ErrorResponse>)
    requires s1 != StatusOK && s2 != StatusOK
    requires |body| != 0 && errorBody(body).Failure?
    ensures TreatBodyAsErr(s1, body, target, errorBody) == TreatBodyAsErr(s2, body, target, errorBody)
    ensures IsPrefix("failed to decode error response" + ": " + "failed to decode json" + ": ",
                     Message(TreatBodyAsErr(s1, body, target, errorBody).error))
    ensures IsSuffix(errorBody(body).error, Message(TreatBodyAsErr(s1, body, target, errorBody).error))
  {
    TwoContextsOpenMessage("failed to decode error response", "failed to decode json", Leaf(errorBody(body).error));
    RootCauseEndsMessage(TreatBodyAsErr(s1, body, target, errorBody).error);
  }

  /**
   * With a status other than 200 and an empty body no decoder is consulted
   * and the returned message filled into the template is empty.
   */
  lemma EmptyBodyNeverDecodes<T>(status: int, t1: Unmarshal<T>, e1: Unmarshal<ErrorResponse>, t2: Unmarshal<T>, e2: Unmarshal<ErrorResponse>)
    requires status != StatusOK
    ensures TreatBodyAsErr(status, [], t1, e1) == TreatBodyAsErr(status, [], t2, e2)
    ensures Message(TreatBodyAsErr(status, [], t1, e1).error) == StatusText(status, "")
  {
  }

  /**
   * Each of the eight exact codes gives the fixed template of its own
   * category (Template holds the Go code's texts, the 404 one with its
   * "clould") followed by the error body's message verbatim.
   */
  lemma ExactCodeTemplates<T>(status: int, body: Bytes, target: Unmarshal<T>, errorBody: Unmarshal<ErrorResponse>, m: string)
    requires IsExactStatus(status)
    requires |body| != 0 && errorBody(body) == Success(ErrorResponse(m))
    ensures Message(TreatBodyAsErr(status, body, target, errorBody).error) == Template(CategoryOf(status)) + m
  {
    ExactStatusText(status, m);
    assert TreatBodyAsErr(status, body, target, errorBody).error == Leaf(StatusText(status, m));
  }

  lemma ExactStatusText(status: int, m: string)
    requires IsExactStatus(status)
    ensures StatusText(status, m) == Template(CategoryOf(status)) + m
  {
    assert !ReportsStatus(CategoryOf(status));
  }

  /** Every status from 500 to 599 except 503 is an internal server error that reports the status and the message. */
  lemma ServerErrorSweep<T>(status: int, body: Bytes, target: Unmarshal<T>, errorBody: Unmarshal<ErrorResponse>, m: string)
    requires 500 <= status <= 599 && status != StatusServiceUnavailable
    requires |body| != 0 && errorBody(body) == Success(ErrorResponse(m))
    ensures Message(TreatBodyAsErr(status, body, target, errorBody).error)
         == "Internal server error. Please try again later. Status code: " + IntToDecimal(status) + ", Returned message: " + m
  {
    var c := CategoryOf(status);
    assert c == InternalServerError;
    var t := Template(c);
    assert t == "Internal server error. Please try again later. Status code: " by { InternalServerErrorTemplate(); }
    assert StatusText(status, m) == t + IntToDecimal(status) + StatusCodeTail + m;
  }

  /** Every other status (1xx, 3xx, unlisted 4xx, above 599, negative) is an unexpected error that reports the status and the message. */
  lemma UnexpectedStatusCatchAll<T>(status: int, body: Bytes, target: Unmarshal<T>, errorBody: Unmarshal<ErrorResponse>, m: string)
    requires status != StatusOK && !IsExactStatus(status) && !(500 <= status <= 599)
    requires |body| != 0 && errorBody(body) == Success(ErrorResponse(m))
    ensures Message(TreatBodyAsErr(status, body, target, errorBody).error)
         == "Unexpected error. Status code: " + IntToDecimal(status) + ", Returned message: " + m
  {
    var c := CategoryOf(status);
    assert c == UnexpectedStatus;
    var t := Template(c);
    assert t == "Unexpected error. Status code: " by { UnexpectedStatusTemplate(); }
    assert StatusText(status, m) == t + IntToDecimal(status) + StatusCodeTail + m;
  }

  /** The template of the 500..599 sweep, as one text. */
  lemma InternalServerErrorTemplate()
    ensures Template(InternalServerError) == "Internal server error. Please try again later. Status code: "
  {
  }

  /** The 404 template, as one text, with the code's spelling "clould". */
  lemma NotFoundTemplate()
    ensures Template(NotFound) == "Not found. The requested resource clould not be found. Returned message: "
  {
  }

  /** The template of the catch-all, as one text. */
  lemma UnexpectedStatusTemplate()
    ensures Template(UnexpectedStatus) == "Unexpected error. Status code: "
  {
  }

  /** Status 500 reads "Internal server error. … Status code: 500, …". */
  lemma Status500Text<T>(body: Bytes, target: Unmarshal<T>, errorBody: Unmarshal<ErrorResponse>, m: string)
    requires |body| != 0 && errorBody(body) == Success(ErrorResponse(m))
    ensures Message(TreatBodyAsErr(500, body, target, errorBody).error)
         == "Internal server error. Please try again later. Status code: " + "500" + ", Returned message: " + m
  {
    assert IntToDecimal(500) == "500" by { DecimalText500(); }
    ServerErrorSweep(500, body, target, errorBody, m);
  }

  /** Status 999 reads "Unexpected error. Status code: 999, …". */
  lemma Status999Text<T>(body: Bytes, target: Unmarshal<T>, errorBody: Unmarshal<ErrorResponse>, m: string)
    requires |body| != 0 && errorBody(body) == Success(ErrorResponse(m))
    ensures Message(TreatBodyAsErr(999, body, target, errorBody).error)
         == "Unexpected error. Status code: " + "999" + ", Returned message: " + m
  {
    assert IntToDecimal(999) == "999" by { DecimalText999(); }
    UnexpectedStatusCatchAll(999, body, target, errorBody, m);
  }

  /** `%d` of 500, digit by digit. */
  lemma DecimalText500()
    ensures IntToDecimal(500) == "500"
  {
  }

  /** `%d` of 999, digit by digit. */
  lemma DecimalText999()
    ensures IntToDecimal(999) == "999"
  {
  }
}
