/** Error values of package proxmox, and the Option/Result shapes that stand for Go's
    nil-able results and (value, error) pairs. */
module Errors {

  datatype Option<+T> = None | Some(value: T)

  datatype Result<+T, +E> = Success(value: T) | Failure(error: E)

  /** An error produced by library code outside the model (net/url, net/http, io,
      encoding/json); only its text is kept. */
  datatype Cause = Cause(message: string)

  /** The errors the package returns. The sentinels are compared by identity in Go
      (errors.Is); here by constructor. The wrapping ones carry the `%w` operand. */
  datatype Error =
    | InvalidTokenAuth                    // ErrInvalidTokenAuth
    | InvalidLoginAuth                    // ErrInvalidLoginAuth
    | InvalidStatusCode(statusCode: int)  // ErrInvalidStatusCode wrapped with the status code
    | ConstructURL(cause: Cause)          // "failed to construct URL: %w"
    | CreateRequest(cause: Cause)         // "failed to create request: %w"
    | MakeRequest(cause: Cause)           // "failed to make request: %w"
    | ReadBody(cause: Cause)              // "failed to read response body: %w"
    | ParseJSON(cause: Cause)             // "failed to parse JSON response: %w"
}
