/**
 * The slice of OkHttp/Retrofit the app's logic observes: a request is its encoded
 * path and its headers; a response is successful for codes 200 to 299.
 */
module Http {
  import opened Wrappers

  datatype Request = Request(path: Option<string>, headers: map<string, string>)

  /** `request.header(name)`. */
  function Header(r: Request, name: string): Option<string>
  {
    if name in r.headers then Some(r.headers[name]) else None
  }

  /** `request.newBuilder().header(name, value).build()`: replaces the header, keeps the rest. */
  function WithHeader(r: Request, name: string, value: string): Request
  {
    r.(headers := r.headers[name := value])
  }

  /** Retrofit's `Response.isSuccessful()`. */
  predicate IsSuccessful(code: int) { 200 <= code <= 299 }

  /** The throwable handed to `onFailure`: an `HttpException` carries a status code, anything else does not. */
  datatype Failure = HttpException(code: int) | OtherFailure

  /** `code == 401 || code == 403`, the test both profile and address repositories use. */
  predicate IsUnauthorized(code: int) { code == 401 || code == 403 }
}
