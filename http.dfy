/** What a route handler hands back, and what a call that can raise hands back to its caller. */
module Http {
  /** The handler's body, or an `HTTPException` with its status code and detail text. */
  datatype Response<T> = Ok(body: T) | Error(status: nat, detail: string)

  /** A call into code outside the model (a parser, a model server, a search index): its value, or the exception it raised. */
  datatype Outcome<T> = Done(value: T) | Raised(message: string)
}
