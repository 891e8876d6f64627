/**
 * `AppError`, the Express error handler and the catch-all 404 handler.
 *
 * The handler fills in a missing status code (500) and status ("error"),
 * then remaps five kinds of error in turn (a later rule overrides an earlier
 * one) and answers with the final code. It never recomputes `status`.
 */
module ErrorHandler {
  import opened Wrappers
  import opened Text
  import opened Http

  /**
   * The parts of an error object the handler reads or writes. A `code` that
   * is not a number is `None`: the handler only compares it with the number 11000.
   * `fieldMessages` are the messages of `err.errors`, in order.
   */
  datatype ErrorFields = ErrorFields(
    name: string,
    code: Option<int>,
    statusCode: Option<int>,
    status: Option<string>,
    message: string,
    fieldMessages: seq<string>)

  const CastErrorName: string := "CastError"
  const ValidationErrorName: string := "ValidationError"
  const JsonWebTokenErrorName: string := "JsonWebTokenError"
  const TokenExpiredErrorName: string := "TokenExpiredError"
  const DuplicateKeyCode: int := 11000

  const ResourceNotFound: string := "Resource not found"
  const DuplicateField: string := "Duplicate field value entered"
  const InvalidToken: string := "Invalid token. Please log in again."
  const SessionExpired: string := "Your session has expired. Please log in again."

  /** The `status` of an `AppError`: "fail" when the decimal text of the code starts with 4. */
  function AppStatus(statusCode: int): (r: string)
    ensures r == "fail" || r == "error"
  {
    if DecimalText(statusCode)[0] == '4' then "fail" else "error"
  }

  /** A new `AppError(message, statusCode)`. */
  function AppErrorFields(message: string, statusCode: int): ErrorFields {
    ErrorFields("Error", None, Some(statusCode), Some(AppStatus(statusCode)), message, [])
  }

  /** `messages.join(sep)`. */
  function Join(messages: seq<string>, sep: string): (r: string)
    ensures messages == [] ==> r == ""
    ensures |messages| == 1 ==> r == messages[0]
  {
    if messages == [] then ""
    else if |messages| == 1 then messages[0]
    else Join(messages[..|messages| - 1], sep) + sep + messages[|messages| - 1]
  }

  /** Joining one more message appends the separator and that message. */
  lemma JoinAppend(messages: seq<string>, sep: string, m: string)
    requires messages != []
    ensures Join(messages + [m], sep) == Join(messages, sep) + sep + m
  {
    assert (messages + [m])[..|messages|] == messages;
  }

  /** `x || fallback` for an optional number: absent and 0 are falsy. */
  function CodeOr(x: Option<int>, fallback: int): int {
    if x.Some? && x.value != 0 then x.value else fallback
  }

  /** `x || fallback` for an optional string: absent and "" are falsy. */
  function TextOr(x: Option<string>, fallback: string): string {
    if x.Some? && x.value != "" then x.value else fallback
  }

  /** The error object after lines 15-50 of the handler. */
  function Handled(e: ErrorFields): ErrorFields {
    var e0 := e.(statusCode := Some(CodeOr(e.statusCode, 500)), status := Some(TextOr(e.status, "error")));
    var e1 := if e0.name == CastErrorName then e0.(message := ResourceNotFound, statusCode := Some(404)) else e0;
    var e2 := if e1.code == Some(DuplicateKeyCode) then e1.(message := DuplicateField, statusCode := Some(400)) else e1;
    var e3 := if e2.name == ValidationErrorName then e2.(message := Join(e2.fieldMessages, ". "), statusCode := Some(400)) else e2;
    var e4 := if e3.name == JsonWebTokenErrorName then e3.(message := InvalidToken, statusCode := Some(401)) else e3;
    if e4.name == TokenExpiredErrorName then e4.(message := SessionExpired, statusCode := Some(401)) else e4
  }

  /** The response the handler sends for an error (the development-only stack is left out). */
  function Respond(e: ErrorFields): Response {
    var h := Handled(e);
    Response(CodeOr(h.statusCode, 500), false, h.status, h.message, NoPayload)
  }

  /**
   * The same decision stated as a table read from the highest priority down:
   * a token error, then a validation error, then a duplicate key, then a cast
   * error, else the error's own code (500 when it has none).
   */
  function Classified(e: ErrorFields): (int, string) {
    if e.name == TokenExpiredErrorName then (401, SessionExpired)
    else if e.name == JsonWebTokenErrorName then (401, InvalidToken)
    else if e.name == ValidationErrorName then (400, Join(e.fieldMessages, ". "))
    else if e.code == Some(DuplicateKeyCode) then (400, DuplicateField)
    else if e.name == CastErrorName then (404, ResourceNotFound)
    else (CodeOr(e.statusCode, 500), e.message)
  }

  /**
   * The handler answers with the code and message of the table; its `status`
   * is the error's own, or "error", whatever the new code is; it always sets
   * `success` to false.
   */
  lemma RespondMatchesClassification(e: ErrorFields)
    ensures var r := Respond(e);
      && (r.statusCode, r.message) == Classified(e)
      && r.status == Some(TextOr(e.status, "error"))
      && !r.success
  {
  }

  /** Because `status` is not recomputed, a cast error without a status answers 404 with status "error", not "fail". */
  lemma RemappedClientErrorKeepsErrorStatus(message: string)
    ensures var r := Respond(ErrorFields(CastErrorName, None, None, None, message, []));
      r.statusCode == 404 && r.status == Some("error") && AppStatus(404) == "fail"
  {
    NatTextLeading(404, 2, 4);
  }

  /** An error with no code, no status and a name the handler does not recognise becomes 500 "error" with its own message. */
  lemma PlainErrorIs500(name: string, message: string)
    requires name != CastErrorName && name != ValidationErrorName
    requires name != JsonWebTokenErrorName && name != TokenExpiredErrorName
    ensures Respond(ErrorFields(name, None, None, None, message, [])) ==
      Response(500, false, Some("error"), message, NoPayload)
  {
  }

  /** An `AppError` keeps its code and its status through the handler, unless its code is 0. */
  lemma AppErrorKeepsItsCode(message: string, statusCode: int)
    requires statusCode != 0
    ensures Respond(AppErrorFields(message, statusCode)) ==
      Response(statusCode, false, Some(AppStatus(statusCode)), message, NoPayload)
  {
  }

  // ---------------------------------------------------------------------------
  // What `AppStatus` means for numbers.

  /** `n` (at least 1) has the leading digit `d` at decimal position `p`. */
  lemma {:induction false} LeadingDigit(n: nat) returns (p: nat, d: nat)
    requires n >= 1
    ensures 1 <= d < 10 && d * Pow10(p) <= n < (d + 1) * Pow10(p)
  {
    if n < 10 {
      p, d := 0, n;
    } else {
      var p', d' := LeadingDigit(n / 10);
      p, d := p' + 1, d';
      var q := Pow10(p');
      assert Pow10(p) == 10 * q;
      assert d * Pow10(p) == 10 * (d * q);
      assert (d + 1) * Pow10(p) == 10 * ((d + 1) * q);
    }
  }

  lemma DigitCharInjective(d: nat, e: nat)
    requires d < 10 && e < 10 && DigitChar(d) == DigitChar(e)
    ensures d == e
  {
  }

  /**
   * `AppStatus(c)` is "fail" exactly when `c` lies in `[4·10^p, 5·10^p)` for
   * some `p`: every code from 400 to 499, but also 4, 40 to 49, 4000 to 4999.
   */
  lemma AppStatusFailIffLeadingFour(c: int)
    ensures AppStatus(c) == "fail" <==> exists p: nat :: 4 * Pow10(p) <= c < 5 * Pow10(p)
  {
    if exists p: nat :: 4 * Pow10(p) <= c < 5 * Pow10(p) {
      var p: nat :| 4 * Pow10(p) <= c < 5 * Pow10(p);
      NatTextLeading(c, p, 4);
    }
    if AppStatus(c) == "fail" {
      var p, d := LeadingDigit(c);
      NatTextLeading(c, p, d);
      DigitCharInjective(d, 4);
    }
  }

  /** Client-error codes are "fail", server-error codes are "error". */
  lemma AppStatusOfHttpCodes(c: int)
    ensures 400 <= c < 500 ==> AppStatus(c) == "fail"
    ensures 500 <= c < 600 ==> AppStatus(c) == "error"
  {
    if 400 <= c < 500 {
      NatTextLeading(c, 2, 4);
    }
    if 500 <= c < 600 {
      NatTextLeading(c, 2, 5);
    }
  }

  // ---------------------------------------------------------------------------
  // The error object and the handler as the source writes them.

  class ErrorObject {
    var name: string
    var code: Option<int>
    var statusCode: Option<int>
    var status: Option<string>
    var message: string
    var fieldMessages: seq<string>
    var isOperational: bool

    function Fields(): ErrorFields
      reads this
    {
      ErrorFields(name, code, statusCode, status, message, fieldMessages)
    }

    /** An error raised elsewhere (a Mongoose or JWT error, a plain `Error`, a thrown object). */
    constructor (fields: ErrorFields)
      ensures Fields() == fields && !isOperational
    {
      name, code, statusCode, status := fields.name, fields.code, fields.statusCode, fields.status;
      message, fieldMessages, isOperational := fields.message, fields.fieldMessages, false;
    }

    /** `new AppError(message, statusCode)`. */
    constructor App(message: string, statusCode: int)
      ensures Fields() == AppErrorFields(message, statusCode) && isOperational
    {
      this.name, this.code, this.message, this.fieldMessages := "Error", None, message, [];
      this.statusCode := Some(statusCode);
      this.status := Some(if DecimalText(statusCode)[0] == '4' then "fail" else "error");
      this.isOperational := true;
    }
  }

  /** The Express error handler: rewrites the error in place, then answers with it. */
  method HandleError(err: ErrorObject) returns (response: Response)
    modifies err
    ensures err.Fields() == Handled(old(err.Fields()))
    ensures response == Respond(old(err.Fields()))
    ensures err.isOperational == old(err.isOperational)
  {
    err.statusCode := Some(CodeOr(err.statusCode, 500));
    err.status := Some(TextOr(err.status, "error"));
    if err.name == CastErrorName {
      err.message := ResourceNotFound;
      err.statusCode := Some(404);
    }
    if err.code == Some(DuplicateKeyCode) {
      err.message := DuplicateField;
      err.statusCode := Some(400);
    }
    if err.name == ValidationErrorName {
      err.message := Join(err.fieldMessages, ". ");
      err.statusCode := Some(400);
    }
    if err.name == JsonWebTokenErrorName {
      err.message := InvalidToken;
      err.statusCode := Some(401);
    }
    if err.name == TokenExpiredErrorName {
      err.message := SessionExpired;
      err.statusCode := Some(401);
    }
    response := Response(err.statusCode.value, false, err.status, err.message, NoPayload);
  }

  const NotFoundPrefix: string := "Not Found - "

  /** The catch-all handler: an `AppError` for the URL, passed on to `next`. */
  method NotFound(originalUrl: string) returns (err: ErrorObject)
    ensures fresh(err)
    ensures err.Fields() == AppErrorFields(NotFoundPrefix + originalUrl, 404)
  {
    err := new ErrorObject.App(NotFoundPrefix + originalUrl, 404);
  }

  /** An unknown route ends as a 404 with status "fail" and the URL in the message. */
  lemma UnknownRouteAnswers404(originalUrl: string)
    ensures Respond(AppErrorFields(NotFoundPrefix + originalUrl, 404)) ==
      Response(404, false, Some("fail"), NotFoundPrefix + originalUrl, NoPayload)
  {
    AppStatusOfHttpCodes(404);
  }
}
