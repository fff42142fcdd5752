/** The application's exception classes (backend/app/core/errors/exceptions.py): each
    constructor fixes the HTTP status, the detail text and the error code. */
module Errors {
  import opened Wrappers
  import opened Json

  /** What an `AppException` carries: `error_code` and `headers` default to None. */
  datatype AppError = AppError(statusCode: int, detail: string, errorCode: Option<string>,
                               headers: Option<map<string, string>>)

  const UnknownError: string := "Unknown error"

  /** `detail or 'Unknown error'`. */
  function OrUnknown(detail: Option<string>): (s: string)
    ensures Given(detail) ==> s == detail.value
    ensures !Given(detail) ==> s == UnknownError
    ensures s != ""
  {
    if Given(detail) then detail.value else UnknownError
  }

  /** `AppException(status_code, detail, error_code, headers)`. */
  function AppException(statusCode: int, detail: string, errorCode: Option<string>,
                        headers: Option<map<string, string>>): (e: AppError)
    ensures e.statusCode == statusCode && e.detail == detail
    ensures e.errorCode == errorCode && e.headers == headers
  {
    AppError(statusCode, detail, errorCode, headers)
  }

  /** The text before the id in a not-found detail. */
  function NotFoundText(name: string): string
  {
    name + " not found"
  }

  function WithIdText(name: string): string
  {
    NotFoundText(name) + " with id: "
  }

  /** `ResourceNotFoundException(resource_name, resource_id)`. */
  function ResourceNotFound(name: string, id: Option<string>): (e: AppError)
    ensures e.statusCode == 404 && e.errorCode == Some("RESOURCE_NOT_FOUND") && e.headers.None?
    ensures Given(id) ==> e.detail == WithIdText(name) + id.value
    ensures !Given(id) ==> e.detail == NotFoundText(name)
  {
    var detail := NotFoundText(name);
    AppException(404, if Given(id) then detail + " with id: " + id.value else detail,
                 Some("RESOURCE_NOT_FOUND"), None)
  }

  /** Reads the id back from a not-found detail. */
  function NotFoundId(name: string, detail: string): (id: Option<string>)
  {
    var p := WithIdText(name);
    if |detail| > |p| && detail[..|p|] == p then Some(detail[|p|..]) else None
  }

  /** The detail names the id exactly when one was given. */
  lemma ResourceNotFoundRoundTrip(name: string, id: Option<string>)
    ensures NotFoundId(name, ResourceNotFound(name, id).detail) == if Given(id) then id else None
  {
    var p := WithIdText(name);
    var d := ResourceNotFound(name, id).detail;
    if Given(id) {
      assert d[..|p|] == p && d[|p|..] == id.value;
    } else {
      assert |d| < |p|;
    }
  }

  /** The text before the reason in a service-unavailable detail. */
  function UnavailableText(service: string): string
  {
    service + " service unavailable: "
  }

  /** `ExternalServiceException(service_name, detail)`. */
  function ExternalService(service: string, detail: Option<string>): (e: AppError)
    ensures e.statusCode == 503 && e.errorCode == Some("EXTERNAL_SERVICE_ERROR") && e.headers.None?
    ensures e.detail == UnavailableText(service) + OrUnknown(detail)
  {
    AppException(503, service + " service unavailable: " + OrUnknown(detail), Some("EXTERNAL_SERVICE_ERROR"), None)
  }

  /** The reason after a detail's fixed prefix. */
  function Reason(prefix: string, detail: string): string
  {
    if |prefix| <= |detail| && detail[..|prefix|] == prefix then detail[|prefix|..] else ""
  }

  /** The reason is the given detail, or "Unknown error" when it was None or empty. */
  lemma ExternalServiceRoundTrip(service: string, detail: Option<string>)
    ensures Reason(UnavailableText(service), ExternalService(service, detail).detail) == OrUnknown(detail)
    ensures Given(detail) ==> Reason(UnavailableText(service), ExternalService(service, detail).detail) == detail.value
  {
    var p := UnavailableText(service);
    var d := ExternalService(service, detail).detail;
    assert d[..|p|] == p && d[|p|..] == OrUnknown(detail);
  }

  /** `ValidationException(detail)`. */
  function Validation(detail: string): (e: AppError)
    ensures e.statusCode == 422 && e.errorCode == Some("VALIDATION_ERROR") && e.headers.None?
    ensures e.detail == detail
  {
    AppException(422, detail, Some("VALIDATION_ERROR"), None)
  }

  function FailedText(operation: string): string
  {
    "Database " + operation + " failed: "
  }

  /** `DatabaseException(operation, detail)`. */
  function Database(operation: string, detail: Option<string>): (e: AppError)
    ensures e.statusCode == 500 && e.errorCode == Some("DATABASE_ERROR") && e.headers.None?
    ensures e.detail == FailedText(operation) + OrUnknown(detail)
  {
    AppException(500, "Database " + operation + " failed: " + OrUnknown(detail), Some("DATABASE_ERROR"), None)
  }

  lemma DatabaseRoundTrip(operation: string, detail: Option<string>)
    ensures Reason(FailedText(operation), Database(operation, detail).detail) == OrUnknown(detail)
  {
    var p := FailedText(operation);
    var d := Database(operation, detail).detail;
    assert d[..|p|] == p && d[|p|..] == OrUnknown(detail);
  }

  /** The four subclasses have four different status codes and error codes, so either
      one tells which exception was raised. */
  lemma KindsDistinct(name: string, id: Option<string>, service: string, reason: Option<string>,
                      detail: string, operation: string, cause: Option<string>)
    ensures var es := [ResourceNotFound(name, id), ExternalService(service, reason), Validation(detail), Database(operation, cause)];
      forall i, j | 0 <= i < j < 4 :: es[i].statusCode != es[j].statusCode && es[i].errorCode != es[j].errorCode
  {
  }
}
