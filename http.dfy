/** The shape of every route's answer: a JSON body on success, or an HTTP status with an error body. */
module Http {

  /** What a failed response carries in its `error` field. */
  datatype ErrorBody =
    | Message(text: string)  // { error: "<text>" }
    | FieldErrors            // { error: <the validator's flattened field errors> }
    | Unhandled              // an exception escaped the handler; the framework answers it

  datatype Response<T> = Ok(value: T) | Err(status: int, body: ErrorBody)

  const BAD_REQUEST := 400
  const UNAUTHORIZED := 401
  const FORBIDDEN := 403
  const NOT_FOUND := 404
  const INTERNAL_ERROR := 500
}
