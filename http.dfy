/** The shapes in which the screens see the backend. A request either produced a
    response whose JSON body the code read, or it threw: `fetch` rejected, or the
    `response.json()` the handler awaited failed. Both land in the same `catch`. */
module Http {

  datatype Option<T> = None | Some(value: T)

  datatype Reply<T> = Responded(ok: bool, status: int, body: T) | Threw

  /** One entry of a backend validation report. */
  datatype Detail = Detail(field: string, message: string)

  /** The `details` member of an error body: missing, an array, or some other value. */
  datatype Details = Absent | Entries(items: seq<Detail>) | NotAnArray

  /** The error body the resource screens read: `error`, `message`, `details`.
      A string field that is missing is the empty string: the code only ever
      tests these fields for truthiness. */
  datatype ErrorBody = ErrorBody(error: string, message: string, details: Details)

  /** JavaScript `a || b` on strings: the empty string is falsy. */
  function Or(a: string, b: string): string {
    if a != "" then a else b
  }
}
