/**
 * The decision table of `AuthService.handleError`: which message a failed
 * request is reported with, which object it is rethrown as, and whether it
 * ends the session.
 */
module ErrorHandling {
  import opened Wrappers
  import opened JsStrings
  import opened AuthTypes

  const ValidationFallback: string := "Errores de validación"

  /** `err.msg` as it appears in a join: a missing member joins as "". */
  function MsgText(e: FieldError): (t: string)
    ensures e.msg.Some? ==> t == e.msg.value
    ensures e.msg.None? ==> t == ""
  {
    match e.msg
    case None => ""
    case Some(m) => m
  }

  /** `errors.map(err => err.msg)`, rendered as the join renders it. */
  function MsgTexts(errors: seq<FieldError>): (texts: seq<string>)
    ensures |texts| == |errors|
    ensures forall i :: 0 <= i < |errors| ==> texts[i] == MsgText(errors[i])
  {
    if errors == [] then [] else [MsgText(errors[0])] + MsgTexts(errors[1..])
  }

  /** The lists whose newline join is the empty string. */
  predicate FallsBack(errors: seq<FieldError>)
  {
    |errors| == 0 || (|errors| == 1 && MsgText(errors[0]) == "")
  }

  /** The message of a 400 response: the field messages joined by newlines,
      or the fixed fallback when that join is empty. */
  function ValidationMessage(errors: seq<FieldError>): (m: string)
    ensures m != ""
    ensures FallsBack(errors) ==> m == ValidationFallback
    ensures !FallsBack(errors) ==> m == Join(MsgTexts(errors), "\n")
  {
    var joined := Join(MsgTexts(errors), "\n");
    JoinEmptyIff(MsgTexts(errors), "\n");
    if joined == "" then ValidationFallback else joined
  }

  /** When no field message contains a newline and the fallback does not
      apply, the message splits back into exactly the field messages. */
  lemma ValidationMessageLines(errors: seq<FieldError>)
    requires !FallsBack(errors)
    requires forall i :: 0 <= i < |errors| ==> '\n' !in MsgText(errors[i])
    ensures Split(ValidationMessage(errors), '\n') == MsgTexts(errors)
  {
    SplitJoin(MsgTexts(errors), '\n');
  }

  /** `error.error?.errors`: passed through unchanged, undefined for a body
      that is not a JSON object. */
  function PassedErrors(body: ErrorBody): (errors: Option<seq<FieldError>>)
    ensures body.JsonBody? ==> errors == body.errors
    ensures !body.JsonBody? ==> errors.None?
  {
    if body.JsonBody? then body.errors else None
  }

  /** What one call of the handler decides. */
  datatype Handling = Handling(rejection: Rejection, logsOut: bool)

  /**
   * One call of the handler on a failure with `status` and `body`.
   * `thisBound` says whether the call sees the service as `this`: only the
   * 401 branch uses `this`, and with it unbound that branch throws.
   */
  function Handle(status: int, body: ErrorBody, thisBound: bool): (h: Handling)
    // The normalised object carries the original status and passes `errors` through.
    ensures h.rejection.Normalized? ==>
              h.rejection.status == status && h.rejection.errors == PassedErrors(body)
    // 400: the validation message, or a crash when there is no `errors` list to map.
    ensures status == 400 ==> !h.logsOut
    ensures status == 400 ==> (h.rejection.Normalized? <==> body.JsonBody? && body.errors.Some?)
    ensures status == 400 && h.rejection.Normalized? ==>
              h.rejection.message == Some(ValidationMessage(body.errors.value))
    // Any other status: the body's own `message`, undefined when it has none;
    // a null body cannot be read.
    ensures status != 400 && body.NullBody? ==> h == Handling(TypeError, false)
    ensures status != 400 && h.rejection.Normalized? ==>
              h.rejection.message == (if body.JsonBody? then body.message else None)
    ensures status != 400 && status != 401 ==> !h.logsOut && h.rejection.Normalized? == !body.NullBody?
    // 401 with a readable body ends the session, provided `this` is the service.
    ensures status == 401 && !body.NullBody? ==>
              (if thisBound then h.logsOut && h.rejection.Normalized? else h == Handling(TypeError, false))
    ensures h.logsOut ==> status == 401 && thisBound
  {
    if status == 400 then
      match body
      case JsonBody(_, Some(errs)) =>
        Handling(Normalized(status, Some(ValidationMessage(errs)), Some(errs)), false)
      case _ =>
        Handling(TypeError, false)
    else if body.NullBody? then
      Handling(TypeError, false)
    else
      var message := if body.JsonBody? then body.message else None;
      if status == 401 && !thisBound then Handling(TypeError, false)
      else Handling(Normalized(status, message, PassedErrors(body)), status == 401)
  }

  /** As the service passes it to `catchError`, the handler is unbound: no
      failure ever ends the session, and a 401 with a readable body is
      rejected with a `TypeError` instead of the normalised object. */
  lemma UnboundHandlerNeverLogsOut(status: int, body: ErrorBody)
    ensures !Handle(status, body, false).logsOut
    ensures status == 401 && !body.NullBody? ==>
              Handle(status, body, false).rejection == TypeError
              && Handle(status, body, true).logsOut
  {
  }
}
