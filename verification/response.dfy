/** Reading a response: the nil checks on the response and its body, the
    error-status rule, and the fallback error message for a failed call. */
module Responses {
  import opened Wrappers
  import opened Text

  /** A response body as a stream: the bytes it yields, and the error the
      read ends with, if any. */
  datatype BodyStream = BodyStream(contents: seq<byte>, readFailure: Option<string>)

  /** `http.Response`: the status code and a body that may be nil. */
  datatype Response = Response(statusCode: int, body: Option<BodyStream>)

  const NilResponseMessage := "invalid response: nil response or body"

  /** `readResponseBody`: a nil response or nil body is an error and yields
      no bytes; a failed read is an error wrapped with context; otherwise the
      whole body. */
  function ReadResponseBody(resp: Option<Response>): (r: Result<seq<byte>, string>)
    ensures resp.None? || resp.value.body.None? ==> r == Err(NilResponseMessage)
    ensures r.Ok? <==> resp.Some? && resp.value.body.Some? && resp.value.body.value.readFailure.None?
    ensures r.Ok? ==> r.value == resp.value.body.value.contents
    ensures resp.Some? && resp.value.body.Some? && resp.value.body.value.readFailure.Some? ==>
      r == Err("failed to read response body: " + resp.value.body.value.readFailure.value)
  {
    match resp
    case None => Err(NilResponseMessage)
    case Some(Response(_, body)) =>
      match body
      case None => Err(NilResponseMessage)
      case Some(BodyStream(contents, failure)) =>
        if failure.Some? then Err("failed to read response body: " + failure.value)
        else Ok(contents)
  }

  /** `isErrorStatus`: 400 (`http.StatusBadRequest`) and everything above,
      which for a well-formed code is exactly the client-error and
      server-error classes (sections 15.5 and 15.6 of RFC 9110). */
  function IsErrorStatus(statusCode: int): (isError: bool)
    ensures 100 <= statusCode <= 599 ==> (isError <==> statusCode / 100 == 4 || statusCode / 100 == 5)
  {
    statusCode >= 400
  }

  /** A status above an error status is an error status too. */
  lemma ErrorStatusMonotone(s: int, t: int)
    requires IsErrorStatus(s) && s <= t
    ensures IsErrorStatus(t)
  {
  }

  const ErrorMessagePrefix := "request failed with status "

  /** `handleErrorResponse`: an error that reports the status code in decimal
      and then the raw body text. */
  function HandleErrorResponse(statusCode: int, body: seq<byte>): (message: string)
    ensures ErrorMessagePrefix <= message
  {
    ErrorMessagePrefix + Decimal(statusCode) + ": " + BytesToString(body)
  }

  /** Reads a message of the shape `HandleErrorResponse` writes back into the
      status code and the body text: the number runs from the end of the fixed
      prefix up to the first ':', and the text starts after the ": " that
      follows. */
  function ParseErrorMessage(message: string): Option<(int, string)> {
    if !(ErrorMessagePrefix <= message) then None
    else
      var rest := message[|ErrorMessagePrefix|..];
      var colon := IndexOf(rest, ':');
      if colon + 1 < |rest| && rest[colon + 1] == ' ' then
        match ParseDecimal(rest[..colon])
        case Some(code) => Some((code, rest[colon + 2..]))
        case None => None
      else None
  }

  /** The message loses neither the status code nor any byte of the body:
      both read back exactly, whatever the body holds (even a ':'). */
  lemma ErrorMessageRoundTrip(statusCode: int, body: seq<byte>)
    ensures ParseErrorMessage(HandleErrorResponse(statusCode, body))
         == Some((statusCode, BytesToString(body)))
  {
    var digits := Decimal(statusCode);
    var text := BytesToString(body);
    var message := HandleErrorResponse(statusCode, body);
    var tail := ": " + text;
    assert message == ErrorMessagePrefix + (digits + tail);
    var rest := message[|ErrorMessagePrefix|..];
    assert rest == digits + tail;
    assert ':' !in digits;
    IndexOfAfterPrefix(digits, tail, ':');
    assert IndexOf(rest, ':') == |digits|;
    assert rest[..|digits|] == digits;
    assert rest[|digits| + 2..] == text;
    DecimalRoundTrip(statusCode);
  }
}
