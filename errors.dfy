/**
 * middleware/errorHandler.js: turns a thrown error into a JSON body whose
 * title depends on the response's status code. The five codes come from a
 * constants module that is not part of this model, so they are a parameter.
 */
module Errors {
  import opened Wrappers

  /** `constants.VALIDATION_ERROR`, `NOT_FOUND`, `UNAUTHORIZED`, `FORBIDDEN`, `SERVER` */
  datatype StatusCodes = StatusCodes(validationError: int, notFound: int, unauthorized: int,
                                     forbidden: int, server: int)

  /** The codes are five different numbers. */
  predicate Distinct(codes: StatusCodes)
  {
    var all := [codes.validationError, codes.notFound, codes.unauthorized, codes.forbidden, codes.server];
    forall i, j :: 0 <= i < j < |all| ==> all[i] != all[j]
  }

  /** The `{title, message}` part of the body (the stack trace is not modelled). */
  datatype ErrorBody = ErrorBody(title: string, message: string)

  /** The five codes as a set. */
  function Known(codes: StatusCodes): set<int>
  {
    {codes.validationError, codes.notFound, codes.unauthorized, codes.forbidden, codes.server}
  }

  /** `res.statusCode ? res.statusCode : 500`: an unset (zero) status counts as 500, any other is kept. */
  function EffectiveStatus(statusCode: int): (status: int)
    ensures status != 0
    ensures statusCode != 0 ==> status == statusCode
    ensures statusCode == 0 ==> status == 500
  {
    if statusCode != 0 then statusCode else 500
  }

  /** The `switch`: the first matching case gives the title, no case gives no title. */
  function Title(codes: StatusCodes, status: int): (title: Option<string>)
    ensures title.Some? <==> status in Known(codes)
    ensures title.Some? ==>
              title.value in {"Validation Failed", "Not Found", "Unauthorized", "forbidden", "Server"}
  {
    if status == codes.validationError then Some("Validation Failed")
    else if status == codes.notFound then Some("Not Found")
    else if status == codes.unauthorized then Some("Unauthorized")
    else if status == codes.forbidden then Some("forbidden")
    else if status == codes.server then Some("Server")
    else None
  }

  /**
   * `errorHandler`: a body is written exactly when the effective status is
   * one of the five codes, and every body carries the error's own message.
   */
  function ErrorHandler(codes: StatusCodes, statusCode: int, message: string): (body: Option<ErrorBody>)
    ensures body.Some? <==> EffectiveStatus(statusCode) in Known(codes)
    ensures body.Some? ==> body.value.message == message
    ensures body.Some? ==> Title(codes, EffectiveStatus(statusCode)) == Some(body.value.title)
  {
    match Title(codes, EffectiveStatus(statusCode))
    case Some(title) => Some(ErrorBody(title, message))
    case None => None
  }

  /** With distinct codes each known code gets its own fixed title. */
  lemma KnownTitles(codes: StatusCodes)
    requires Distinct(codes)
    ensures Title(codes, codes.validationError) == Some("Validation Failed")
    ensures Title(codes, codes.notFound) == Some("Not Found")
    ensures Title(codes, codes.unauthorized) == Some("Unauthorized")
    ensures Title(codes, codes.forbidden) == Some("forbidden")
    ensures Title(codes, codes.server) == Some("Server")
  {
    var all := [codes.validationError, codes.notFound, codes.unauthorized, codes.forbidden, codes.server];
    assert all[0] != all[1] && all[0] != all[2] && all[0] != all[3] && all[0] != all[4];
    assert all[1] != all[2] && all[1] != all[3] && all[1] != all[4];
    assert all[2] != all[3] && all[2] != all[4] && all[3] != all[4];
  }

  /**
   * An error thrown while the status is still Express's default 200 gets no
   * body when 200 is not one of the codes, which is the case for the usual
   * HTTP values.
   */
  lemma DefaultStatusWritesNothing(codes: StatusCodes, message: string)
    requires codes == StatusCodes(400, 404, 401, 403, 500)
    ensures ErrorHandler(codes, 200, message) == None
    ensures ErrorHandler(codes, 0, message) == Some(ErrorBody("Server", message))
  {
  }
}
