/** The outcome of one `fetch` call as the client services see it: either the
    call itself rejected (network failure), or a response arrived with a
    status, a text body and the result of parsing that body as JSON. */
module Fetch {

  datatype Json<T> = Parsed(value: T) | Malformed(message: string)

  datatype Response<T> =
    | Rejected(message: string)
    | Received(status: int, text: string, json: Json<T>)

  /** `response.ok`. */
  predicate IsOk(status: int) {
    200 <= status <= 299
  }

  /** A response whose status is OK and whose body parsed. */
  predicate Succeeded<T>(r: Response<T>) {
    r.Received? && IsOk(r.status) && r.json.Parsed?
  }
}
