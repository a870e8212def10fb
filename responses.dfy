/** The response envelope both client variants receive. */
module Responses {

  /** The `{code, data, msg}` envelope; `code == 0` is the only success value. */
  datatype ApiResponse<T> = ApiResponse(code: int, data: T, msg: string)
}
