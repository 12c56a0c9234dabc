/**
 * How the HTTP API turns results into responses: an optional result is a 200
 * with its payload or a 404, and an error is classified into a bad request
 * (a malformed URL path) or an internal error, each answered with a JSON
 * report of the error.
 */
module ApiResult {
  import opened Wrappers

  // ---------------------------------------------------------------------------
  // Responses

  const StatusOk: nat := 200
  const StatusBadRequest: nat := 400
  const StatusNotFound: nat := 404
  const StatusInternalServerError: nat := 500

  /** The JSON error report sent with a failed response. */
  datatype ErrorReport = ErrorReport(error: string, errorCode: Option<string>, backtrace: Option<string>)

  /** What a response carries: a payload, a message, an error report, or nothing. */
  datatype Body<T> = Payload(value: T) | Message(text: string) | Report(report: ErrorReport) | Empty

  datatype Response<T> = Response(status: nat, body: Body<T>)

  // ---------------------------------------------------------------------------
  // Optional results

  /** A result that may be absent. */
  datatype OptionalResult<T> = OptionalResult(result: Option<T>)

  /** Wrapping an option keeps it unchanged. */
  function FromOption<T>(result: Option<T>): (r: OptionalResult<T>)
    ensures r.result == result
  {
    OptionalResult(result)
  }

  /** A present result is a 200 carrying it; an absent one is a bare 404. */
  function OptionalIntoResponse<T>(r: OptionalResult<T>): (resp: Response<T>)
    ensures resp.status == StatusOk <==> r.result.Some?
    ensures r.result.Some? ==> resp.body == Payload(r.result.value)
    ensures r.result.None? ==> resp == Response(StatusNotFound, Empty)
  {
    match r.result
    case Some(x) => Response(StatusOk, Payload(x))
    case None => Response(StatusNotFound, Empty)
  }

  /** The payload of a 200 answer to a wrapped option is the option's value, so nothing is lost. */
  lemma OptionalResponseRecoversOption<T>(result: Option<T>)
    ensures var resp := OptionalIntoResponse(FromOption(result));
      (if resp.status == StatusOk && resp.body.Payload? then Some(resp.body.value) else None) == result
  {
  }

  // ---------------------------------------------------------------------------
  // Errors

  /** The kinds of failure the API itself reports. */
  datatype ApiErrorKind =
    | Bootstrap
    | Registrar
    | UpdateWeather
    | Noaa
    | Path
    | Json
    | HttpEngine
    | Database
    | Sql
    | TaskJoin
    | IO

  /** An API failure: its kind and its rendered message. */
  datatype ApiError = ApiError(kind: ApiErrorKind, message: string)

  /**
   * A type-erased error: its message, its captured backtrace, and the API
   * failure it wraps when it is one.
   */
  datatype AnyError = AnyError(message: string, backtrace: string, api: Option<ApiErrorKind>)

  /** Erasing an API failure keeps its message and remembers its kind. */
  function EraseApiError(e: ApiError, backtrace: string): (a: AnyError)
    ensures a.api == Some(e.kind) && a.message == e.message && a.backtrace == backtrace
  {
    AnyError(e.message, backtrace, Some(e.kind))
  }

  /** The report of an error: its message, no error code, and always its backtrace. */
  function ReportOf(error: AnyError): (r: ErrorReport)
    ensures r.error == error.message
    ensures r.errorCode.None?
    ensures r.backtrace == Some(error.backtrace)
  {
    ErrorReport(error.message, None, Some(error.backtrace))
  }

  datatype HttpError =
    | BadRequest(report: ErrorReport)
    | NotFound(message: string)
    | Internal(report: ErrorReport)

  /** An invalid URL path is the caller's fault; every other failure, API or not, is internal. */
  function HttpErrorFrom(error: AnyError): (h: HttpError)
    ensures h.BadRequest? <==> error.api == Some(Path)
    ensures h.Internal? <==> error.api != Some(Path)
    ensures !h.NotFound? && h.report == ReportOf(error)
  {
    match error.api
    case Some(Path) => BadRequest(ReportOf(error))
    case Some(Registrar) | Some(UpdateWeather) | Some(Noaa) | Some(Json) | Some(HttpEngine)
       | Some(IO) | Some(Sql) | Some(Database) | Some(TaskJoin) => Internal(ReportOf(error))
    case Some(Bootstrap) => Internal(ReportOf(error))
    case None => Internal(ReportOf(error))
  }

  /** A not-found answers 404 with its message, a bad request 400 and an internal error 500, each with its report. */
  function HttpErrorIntoResponse<T>(h: HttpError): (resp: Response<T>)
    ensures resp.status == StatusNotFound <==> h.NotFound?
    ensures resp.status == StatusBadRequest <==> h.BadRequest?
    ensures resp.status == StatusInternalServerError <==> h.Internal?
    ensures h.NotFound? ==> resp.body == Message(h.message)
    ensures !h.NotFound? ==> resp.body == Report(h.report)
  {
    match h
    case NotFound(message) => Response(StatusNotFound, Message(message))
    case BadRequest(report) => Response(StatusBadRequest, Report(report))
    case Internal(report) => Response(StatusInternalServerError, Report(report))
  }

  /** An API failure answers through its erased form. */
  function ApiErrorIntoResponse<T>(e: ApiError, backtrace: string): Response<T>
  {
    HttpErrorIntoResponse(HttpErrorFrom(EraseApiError(e, backtrace)))
  }

  /**
   * An API failure is answered 400 exactly when it is a path rejection and
   * 500 otherwise, never 404, and the report carries its message.
   */
  lemma ApiErrorStatus<T>(e: ApiError, backtrace: string)
    ensures var resp: Response<T> := ApiErrorIntoResponse(e, backtrace);
      (resp.status == StatusBadRequest <==> e.kind == Path) &&
      (resp.status == StatusInternalServerError <==> e.kind != Path) &&
      resp.body == Report(ErrorReport(e.message, None, Some(backtrace)))
  {
  }
}
