/** Small value types shared by every part of the model: optional values,
    the outcome of one awaited network call, and JavaScript truthiness of
    optional strings and ids. */
module Common {

  datatype Option<+T> = None | Some(value: T)

  /** What a rejected request carries, as the callers read it:
      `error.response?.status`, `error.response?.data?.detail`,
      `error.response?.data?.message` and `error.message`. */
  datatype ApiError = ApiError(
    status: Option<int>,
    detail: Option<string>,
    dataMessage: Option<string>,
    message: Option<string>)

  /** The outcome of one awaited network call: the resolved value, or the
      error it was rejected with. Every network call of the model consumes
      one such value, supplied by the caller. */
  datatype Fetch<+T> = Ok(value: T) | Thrown(error: ApiError)

  /** JavaScript truthiness of an optional string: both a missing value and
      the empty string are falsy. */
  predicate Present(s: Option<string>) {
    s.Some? && s.value != ""
  }

  /** The expression `s || fallback`. */
  function OrElse(s: Option<string>, fallback: string): string {
    if Present(s) then s.value else fallback
  }

  /** JavaScript truthiness of an optional numeric id: missing and 0 are falsy. */
  predicate PresentId(id: Option<int>) {
    id.Some? && id.value != 0
  }
}
