/**
 * The status check every request makes before it reads the response body:
 * `if (!res.ok) throw new Error(`HTTP ${res.status}`)`.
 */
module Response {
  import opened Wrappers

  /** The error a non-successful response raises: `HTTP <status>`. */
  datatype HttpError = HttpError(status: int)

  /** `if (!res.ok) throw ...`: a response is ok for a status from 200 to 299. */
  function Receive<T>(status: int, body: T): (r: Result<T, HttpError>)
    ensures r.Success? <==> 200 <= status <= 299
    ensures r.Success? ==> r.value == body
    ensures r.Failure? ==> r.error.status == status
  {
    if 200 <= status <= 299 then Success(body) else Failure(HttpError(status))
  }
}
