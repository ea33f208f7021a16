/** `ResponseUtils` and the part of Spring's `ResponseEntity` the handlers use: a
    response is a status and an optional body; the error and message bodies are the
    `HashMap`s the factories fill, without their timestamp entry. */
module Responses {
  import opened Base

  /** The statuses the code names, with the numbers `HttpStatus.value()` gives them. */
  datatype HttpStatus = Ok | Created | NoContent | BadRequest | NotFound
                      | InternalServerError | ServiceUnavailable
  {
    function Code(): (n: int)
      ensures 200 <= n < 600
      ensures 200 <= n < 300 <==> this == Ok || this == Created || this == NoContent
      ensures 400 <= n < 500 <==> this == BadRequest || this == NotFound
    {
      match this
      case Ok => 200
      case Created => 201
      case NoContent => 204
      case BadRequest => 400
      case NotFound => 404
      case InternalServerError => 500
      case ServiceUnavailable => 503
    }

    /** A 2xx status. */
    predicate IsSuccessful()
    {
      200 <= Code() < 300
    }
  }

  /** `HttpStatus.valueOf(code)` over the statuses above. */
  function StatusOf(code: int): (s: Option<HttpStatus>)
    ensures s.Some? ==> s.value.Code() == code
  {
    if code == 200 then Some(Ok)
    else if code == 201 then Some(Created)
    else if code == 204 then Some(NoContent)
    else if code == 400 then Some(BadRequest)
    else if code == 404 then Some(NotFound)
    else if code == 500 then Some(InternalServerError)
    else if code == 503 then Some(ServiceUnavailable)
    else None
  }

  /** Every status is recovered from its number, so no two share one. */
  lemma StatusOfCode(s: HttpStatus)
    ensures StatusOf(s.Code()) == Some(s)
  {
  }

  lemma CodesDistinct(s: HttpStatus, t: HttpStatus)
    ensures s.Code() == t.Code() <==> s == t
  {
    StatusOfCode(s);
    StatusOfCode(t);
  }

  /** A `ResponseEntity`: its status and its body, None for one built without a body. */
  datatype Response<+T> = Response(status: HttpStatus, body: Option<T>)

  /** `success(data)`, `ResponseEntity.ok(data)`. */
  function Success<T>(data: T): (r: Response<T>)
    ensures r.status.Code() == 200 && r.body == Some(data)
  {
    Response(Ok, Some(data))
  }

  /** `created(data)`. */
  function CreatedWith<T>(data: T): (r: Response<T>)
    ensures r.status.Code() == 201 && r.body == Some(data)
  {
    Response(Created, Some(data))
  }

  /** `notFound()`. */
  function NotFoundResponse<T>(): (r: Response<T>)
    ensures r.status.Code() == 404 && r.body.None?
  {
    Response(NotFound, None)
  }

  /** `badRequest()`. */
  function BadRequestResponse<T>(): (r: Response<T>)
    ensures r.status.Code() == 400 && r.body.None?
  {
    Response(BadRequest, None)
  }

  /** `noContent()`. */
  function NoContentResponse<T>(): (r: Response<T>)
    ensures r.status.Code() == 204 && r.body.None?
  {
    Response(NoContent, None)
  }

  /** `optional.map(ResponseEntity::ok).orElse(ResponseEntity.notFound().build())`. */
  function OkOrNotFound<T>(value: Option<T>): (r: Response<T>)
    ensures r.status == Ok <==> value.Some?
    ensures r.status == Ok || r.status == NotFound
    ensures r.body == value
  {
    match value
    case None => NotFoundResponse()
    case Some(v) => Success(v)
  }

  /** The body `error` fills, without the timestamp. */
  function ErrorBody(status: HttpStatus, message: Option<string>): (j: Json)
    ensures j.JObject? && j.fields.Keys == {"error", "status", "message"}
  {
    JObject(map["error" := JBool(true), "status" := JNumber(status.Code()),
                "message" := TextOrNull(message)])
  }

  /** `error(status, message)`. */
  function Error(status: HttpStatus, message: Option<string>): (r: Response<Json>)
    ensures r.status == status && r.body.Some?
  {
    Response(status, Some(ErrorBody(status, message)))
  }

  /** Reading an error body back: its status by number and its message. */
  function ReadError(body: Json): (r: Option<(HttpStatus, Option<string>)>)
  {
    if body.JObject? && "status" in body.fields && "message" in body.fields
       && body.fields["status"].JNumber? then
      match StatusOf(body.fields["status"].num)
      case None => None
      case Some(s) =>
        match body.fields["message"]
        case JNull => Some((s, None))
        case JString(m) => Some((s, Some(m)))
        case _ => None
    else None
  }

  /** The error body carries the response's own status and the message unchanged, as
      the flag `error` = true. */
  lemma ErrorBodyReadsBack(status: HttpStatus, message: Option<string>)
    ensures var r := Error(status, message);
      && ReadError(r.body.value) == Some((r.status, message))
      && r.body.value.fields["error"] == JBool(true)
  {
    StatusOfCode(status);
  }

  /** `validationError(message)`. */
  function ValidationError(message: Option<string>): (r: Response<Json>)
    ensures r == Error(BadRequest, message) && r.status.Code() == 400
  {
    Error(BadRequest, message)
  }

  /** `internalServerError(message)`. */
  function InternalServerErrorResponse(message: Option<string>): (r: Response<Json>)
    ensures r == Error(InternalServerError, message) && r.status.Code() == 500
  {
    Error(InternalServerError, message)
  }

  /** `successMessage(message)`, without the timestamp. */
  function SuccessMessage(message: Option<string>): (r: Response<Json>)
    ensures r.status.Code() == 200 && r.body.Some? && r.body.value.JObject?
    ensures r.body.value.fields.Keys == {"success", "message"}
    ensures r.body.value.fields["success"] == JBool(true)
    ensures r.body.value.fields["message"] == TextOrNull(message)
  {
    Response(Ok, Some(JObject(map["success" := JBool(true), "message" := TextOrNull(message)])))
  }

  /** Which factories answer with a 2xx status and which with an error one. */
  lemma StatusClasses<T>(data: T, message: Option<string>)
    ensures Success(data).status.IsSuccessful() && CreatedWith(data).status.IsSuccessful()
    ensures NoContentResponse<T>().status.IsSuccessful()
    ensures SuccessMessage(message).status.IsSuccessful()
    ensures !NotFoundResponse<T>().status.IsSuccessful()
    ensures !BadRequestResponse<T>().status.IsSuccessful()
    ensures !ValidationError(message).status.IsSuccessful()
    ensures !InternalServerErrorResponse(message).status.IsSuccessful()
  {
  }
}
