/**
  * The error taxonomy: the generic `Error` and `CommunicationError` texts,
  * and `ApiError`, which classifies a failed response by status, extracts a
  * diagnostic value from its body and assembles a one-line message.
  *
  * JSON parsing and UTF-8 decoding are collaborators, given as a `Codec`.
  */
module Errors {
  import opened Wrappers
  import opened PyValues
  import opened Transport

  // ---------------------------------------------------------------------------
  // Error and CommunicationError
  // ---------------------------------------------------------------------------

  const ErrorPrefix := "Error: Error message: "

  /** `str(Error(message))` */
  function ErrorStr(message: string): (r: string)
    ensures |r| == |ErrorPrefix| + |message| + 1
    ensures r[..|ErrorPrefix|] == ErrorPrefix
    ensures r[|ErrorPrefix|..|r| - 1] == message
    ensures r[|r| - 1] == '.'
  {
    ErrorPrefix + message + "."
  }

  /** Different messages give different texts. */
  lemma ErrorStrInjective(m1: string, m2: string)
    requires ErrorStr(m1) == ErrorStr(m2)
    ensures m1 == m2
  {
  }

  const CommunicationPrefix := "CommunicationError, "

  /** `str(CommunicationError(message))` */
  function CommunicationErrorStr(message: string): (r: string)
    ensures |r| == |CommunicationPrefix| + |message|
    ensures r[..|CommunicationPrefix|] == CommunicationPrefix
    ensures r[|CommunicationPrefix|..] == message
  {
    CommunicationPrefix + message
  }

  // ---------------------------------------------------------------------------
  // Classification
  // ---------------------------------------------------------------------------

  const ClientErrorType := "Client error"
  const ServerErrorType := "Server error"
  const FallbackErrorType := "Not a request error. The  error handling has a bug"

  /** `find_error_type_from_response`: 4xx and 5xx are classified, anything else falls through. */
  function FindErrorType(statusCode: int): (r: string)
    ensures r == ClientErrorType <==> IsClientError(statusCode)
    ensures r == ServerErrorType <==> IsServerError(statusCode)
    ensures r == FallbackErrorType <==> !IsClientError(statusCode) && !IsServerError(statusCode)
  {
    if IsClientError(statusCode) then ClientErrorType
    else if IsServerError(statusCode) then ServerErrorType
    else FallbackErrorType
  }

  /**
    * Every status outside 400..599 falls through to the fallback: the
    * informational and redirect responses `raise_for_status` rejects, and
    * the 2xx responses too.
    */
  lemma FallbackForNonErrorStatuses(statusCode: int)
    requires statusCode < 400 || statusCode > 599
    ensures FindErrorType(statusCode) == FallbackErrorType
  {
  }

  // ---------------------------------------------------------------------------
  // Diagnostic extraction
  // ---------------------------------------------------------------------------

  /** The two exceptions decoding a body can raise. */
  datatype DecodeError = JsonDecodeError | UnicodeDecodeError

  /**
    * The collaborators: `json.loads` on bytes (it raises `UnicodeDecodeError`
    * on bytes that are not valid text, `JSONDecodeError` on text that is not
    * JSON) and `bytes.decode("utf-8")` (`None` when it raises).
    */
  datatype Codec = Codec(loads: seq<byte> -> Result<Value, DecodeError>, decodeUtf8: seq<byte> -> Option<string>)

  /**
    * `is_jsonable`: true when parsing succeeds, false on `JSONDecodeError`;
    * any other exception from the parser escapes.
    */
  function IsJsonable(content: seq<byte>, codec: Codec): (r: Result<bool, DecodeError>)
    ensures r == Success(true) <==> codec.loads(content).Success?
    ensures r == Success(false) <==> codec.loads(content) == Failure(JsonDecodeError)
    ensures r.Failure? <==> codec.loads(content) == Failure(UnicodeDecodeError)
    ensures r.Failure? ==> r.error == UnicodeDecodeError
  {
    match codec.loads(content)
    case Success(_) => Success(true)
    case Failure(JsonDecodeError) => Success(false)
    case Failure(UnicodeDecodeError) => Failure(UnicodeDecodeError)
  }

  /**
    * `error_parse_json_or_utf8`: non-JSON content is its UTF-8 text, a JSON
    * object gives its "errors" entry (None when absent), any other JSON value
    * is returned whole.
    */
  function ErrorParseJsonOrUtf8(content: seq<byte>, codec: Codec): (r: Result<Value, DecodeError>)
    ensures codec.loads(content) == Failure(JsonDecodeError) ==>
              r == (if codec.decodeUtf8(content).Some? then Success(PyStr(codec.decodeUtf8(content).value))
                    else Failure(UnicodeDecodeError))
    ensures codec.loads(content) == Failure(UnicodeDecodeError) ==> r == Failure(UnicodeDecodeError)
    ensures codec.loads(content).Success? && codec.loads(content).value.PyDict? ==>
              r == Success(DictGet(codec.loads(content).value.entries, "errors"))
    ensures codec.loads(content).Success? && !codec.loads(content).value.PyDict? ==>
              r == Success(codec.loads(content).value)
  {
    match IsJsonable(content, codec)
    case Failure(e) => Failure(e)
    case Success(jsonable) =>
      if !jsonable then
        match codec.decodeUtf8(content)
        case Some(text) => Success(PyStr(text))
        case None => Failure(UnicodeDecodeError)
      else
        var error := codec.loads(content).value;
        if error.PyDict? then Success(DictGet(error.entries, "errors")) else Success(error)
  }

  // ---------------------------------------------------------------------------
  // ApiError
  // ---------------------------------------------------------------------------

  /** The fields `ApiError.__init__` sets that the model keeps. */
  datatype ApiError = ApiError(statusCode: int, reasonPhrase: string, errors: Value, errorType: string, message: string)

  /** `response.reason_phrase or ""` */
  function ReasonOrEmpty(reasonPhrase: Option<string>): (r: string)
    ensures reasonPhrase.None? ==> r == ""
    ensures reasonPhrase.Some? ==> r == reasonPhrase.value
  {
    match reasonPhrase
    case None => ""
    case Some(text) => text
  }

  /**
    * `ApiError(error, response)`: the body is only decoded when it is not
    * empty; the decoding can raise, and then no error object is built.
    */
  function NewApiError(response: Response, codec: Codec): (r: Result<ApiError, DecodeError>)
    ensures |response.content| == 0 ==> r.Success? && r.value.errors == PyStr("")
    ensures |response.content| > 0 ==>
              && (r.Success? <==> ErrorParseJsonOrUtf8(response.content, codec).Success?)
              && (r.Success? ==> r.value.errors == ErrorParseJsonOrUtf8(response.content, codec).value)
              && (r.Failure? ==> r.error == ErrorParseJsonOrUtf8(response.content, codec).error)
    ensures r.Success? ==>
              && r.value.statusCode == response.statusCode
              && r.value.reasonPhrase == ReasonOrEmpty(response.reasonPhrase)
              && r.value.errorType == FindErrorType(response.statusCode)
              && r.value.message == ApiMessage(r.value.errorType, r.value.statusCode, r.value.reasonPhrase, r.value.errors)
  {
    var errors := if |response.content| == 0 then Success(PyStr(""))
                  else ErrorParseJsonOrUtf8(response.content, codec);
    match errors
    case Failure(e) => Failure(e)
    case Success(diagnostic) =>
      var errorType := FindErrorType(response.statusCode);
      var reason := ReasonOrEmpty(response.reasonPhrase);
      Success(ApiError(response.statusCode, reason, diagnostic, errorType,
                       ApiMessage(errorType, response.statusCode, reason, diagnostic)))
  }

  /** `f"{error_type} {status_code} {reason_phrase} {errors}"` */
  function ApiMessage(errorType: string, statusCode: int, reasonPhrase: string, errors: Value): (r: string)
    ensures |r| == |errorType| + |IntToString(statusCode)| + |reasonPhrase| + |ToStr(errors)| + 3
    ensures r[..|errorType| + 1] == errorType + " "
    ensures r[|errorType| + 1..|errorType| + 1 + |IntToString(statusCode)|] == IntToString(statusCode)
    ensures var tail := " " + reasonPhrase + " " + ToStr(errors);
            r[|r| - |tail|..] == tail
  {
    var status := IntToString(statusCode);
    var tail := " " + reasonPhrase + " " + ToStr(errors);
    var r := errorType + " " + status + tail;
    assert r == (errorType + " ") + status + tail;
    r
  }

  /** An empty body is never handed to the collaborators: the error does not depend on them. */
  lemma EmptyContentIsNotParsed(response: Response, c1: Codec, c2: Codec)
    requires |response.content| == 0
    ensures NewApiError(response, c1) == NewApiError(response, c2)
  {
  }

  /** The message opens with the classification and the status, e.g. "Client error 404 ". */
  lemma MessageOpensWithClassification(response: Response, codec: Codec)
    requires NewApiError(response, codec).Success?
    ensures var e := NewApiError(response, codec).value;
            var head := FindErrorType(response.statusCode) + " " + IntToString(response.statusCode) + " ";
            |head| <= |e.message| && e.message[..|head|] == head
            && (IsClientError(response.statusCode) ==> e.message[..13] == "Client error ")
            && (IsServerError(response.statusCode) ==> e.message[..13] == "Server error ")
  {
  }

  /** The diagnostic values for a JSON object with "errors", a text body and an empty body. */
  lemma DiagnosticExamples(codec: Codec, json: seq<byte>, text: seq<byte>)
    requires codec.loads(json) == Success(PyDict([("errors", PyStr("bad field"))]))
    requires codec.loads(text) == Failure(JsonDecodeError) && codec.decodeUtf8(text) == Some("oops")
    ensures ErrorParseJsonOrUtf8(json, codec) == Success(PyStr("bad field"))
    ensures ErrorParseJsonOrUtf8(text, codec) == Success(PyStr("oops"))
    ensures NewApiError(Response(404, Some("Not Found"), []), codec).value.errors == PyStr("")
  {
  }
}
