/** Shared vocabulary of the web layer: Rust's Option and Result, the application
    error type, its conversion into an HTTP response, and the `found` / `allow` /
    `good` helpers that turn a missing value into an error. */
module Prelude {

  datatype Option<+T> = None | Some(value: T)

  datatype Result<+T, +E> = Ok(value: T) | Err(error: E)

  /** Uuids are compared and stored as their canonical text. */
  type Uuid = string

  /** A naive local timestamp; only its order is used. */
  type DateTime = int

  /** The error of a failed database query (sea_orm's DbErr). */
  datatype DbErr = DbErr(message: string)

  /** A filesystem error (std::io::Error). */
  datatype IoErr = IoErr(message: string)

  /** An `anyhow::Error` carried by Forbidden, NotFound and BadRequest, by its Debug text. */
  datatype Cause = Cause(debug: string)

  datatype AppError =
    | DatabaseError(db: DbErr)
    | StorageError(io: IoErr)
    | Forbidden(forbidden: Option<Cause>)
    | NotFound(notFound: Option<Cause>)
    | BadRequest(badRequest: Option<Cause>)

  type AppResult<T> = Result<T, AppError>

  /** The response an AppError turns into: HTTP status code, and the `type` and
      `message` members of its JSON body. */
  datatype Response = Response(status: int, kind: string, message: string)

  /** `format!("{:?}", e)` of an `Option<anyhow::Error>`. */
  function DebugCause(c: Option<Cause>): string
  {
    match c
    case None => "None"
    case Some(e) => "Some(" + e.debug + ")"
  }

  /** AppError::into_response. */
  function IntoResponse(e: AppError): (r: Response)
    ensures 400 <= r.status < 600
  {
    match e
    case DatabaseError(d) => Response(500, "database_error", d.message)
    case StorageError(i) => Response(500, "storage_error", i.message)
    case Forbidden(c) => Response(403, "forbidden", DebugCause(c))
    case NotFound(c) => Response(404, "not_found", DebugCause(c))
    case BadRequest(c) => Response(400, "bad_request", DebugCause(c))
  }

  /** Two errors are of the same variant. */
  predicate SameVariant(a: AppError, b: AppError)
  {
    || (a.DatabaseError? && b.DatabaseError?)
    || (a.StorageError? && b.StorageError?)
    || (a.Forbidden? && b.Forbidden?)
    || (a.NotFound? && b.NotFound?)
    || (a.BadRequest? && b.BadRequest?)
  }

  /** The `type` tag names the variant: equal tags exactly for equal variants. */
  lemma KindIdentifiesVariant(a: AppError, b: AppError)
    ensures IntoResponse(a).kind == IntoResponse(b).kind <==> SameVariant(a, b)
  {
  }

  /** Server-side failures, and only they, are reported as 500; everything else is a 4xx. */
  lemma StatusClasses(e: AppError)
    ensures IntoResponse(e).status == 500 <==> e.DatabaseError? || e.StorageError?
    ensures IntoResponse(e).status < 500 <==> e.Forbidden? || e.NotFound? || e.BadRequest?
    ensures IntoResponse(e).status == 403 <==> e.Forbidden?
    ensures IntoResponse(e).status == 404 <==> e.NotFound?
    ensures IntoResponse(e).status == 400 <==> e.BadRequest?
  {
  }

  /** Rust's `Result::ok`. */
  function ResultOk<T, E>(r: Result<T, E>): (o: Option<T>)
    ensures o.Some? <==> r.Ok?
    ensures o.Some? ==> o.value == r.value
  {
    match r
    case Ok(x) => Some(x)
    case Err(_) => None
  }

  /** `ErrorForOption::found`: a missing value is NotFound. */
  function Found<T>(o: Option<T>): (r: AppResult<T>)
    ensures ResultOk(r) == o
    ensures r.Err? ==> r.error == NotFound(None)
  {
    match o
    case Some(x) => Ok(x)
    case None => Err(NotFound(None))
  }

  /** `ErrorForOption::allow`: a missing value is Forbidden. */
  function Allow<T>(o: Option<T>): (r: AppResult<T>)
    ensures ResultOk(r) == o
    ensures r.Err? ==> r.error == Forbidden(None)
  {
    match o
    case Some(x) => Ok(x)
    case None => Err(Forbidden(None))
  }

  /** `ErrorForOption::good`: a missing value is BadRequest. */
  function Good<T>(o: Option<T>): (r: AppResult<T>)
    ensures ResultOk(r) == o
    ensures r.Err? ==> r.error == BadRequest(None)
  {
    match o
    case Some(x) => Ok(x)
    case None => Err(BadRequest(None))
  }

  /** `ErrorForResult::found`: the error, converted to an anyhow::Error by `into`, is kept. */
  function FoundResult<T, E>(r: Result<T, E>, into: E -> Cause): (q: AppResult<T>)
    ensures ResultOk(q) == ResultOk(r)
    ensures r.Err? ==> q == Err(NotFound(Some(into(r.error))))
  {
    match r
    case Ok(x) => Ok(x)
    case Err(e) => Err(NotFound(Some(into(e))))
  }

  /** `ErrorForResult::allow`. */
  function AllowResult<T, E>(r: Result<T, E>, into: E -> Cause): (q: AppResult<T>)
    ensures ResultOk(q) == ResultOk(r)
    ensures r.Err? ==> q == Err(Forbidden(Some(into(r.error))))
  {
    match r
    case Ok(x) => Ok(x)
    case Err(e) => Err(Forbidden(Some(into(e))))
  }

  /** `ErrorForResult::good`. */
  function GoodResult<T, E>(r: Result<T, E>, into: E -> Cause): (q: AppResult<T>)
    ensures ResultOk(q) == ResultOk(r)
    ensures r.Err? ==> q == Err(BadRequest(Some(into(r.error))))
  {
    match r
    case Ok(x) => Ok(x)
    case Err(e) => Err(BadRequest(Some(into(e))))
  }

  /** A missing value becomes a 404, 403 or 400 response depending on the helper used. */
  lemma MissingValueStatuses<T>(o: Option<T>)
    requires o.None?
    ensures IntoResponse(Found(o).error).status == 404
    ensures IntoResponse(Allow(o).error).status == 403
    ensures IntoResponse(Good(o).error).status == 400
  {
  }

  /** The `?` conversion of a database error (`From<DbErr> for AppError`). */
  function FromDb<T>(r: Result<T, DbErr>): (q: AppResult<T>)
    ensures ResultOk(q) == ResultOk(r)
    ensures r.Err? ==> q == Err(DatabaseError(r.error))
  {
    match r
    case Ok(x) => Ok(x)
    case Err(e) => Err(DatabaseError(e))
  }
}
