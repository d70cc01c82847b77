/**
  The outward effects the views produce, as values: the notifications they raise
  and the HTTP requests they would send. Nothing here performs I/O.
*/
module Effects {
  import opened Wrappers

  datatype Toast =
    | Success(title: string, description: Option<string>)
    | Error(title: string, description: Option<string>)

  datatype Verb = Get | Put

  /** A request to the backend; every request carries the project key in the `CK` header. */
  datatype Request = Request(verb: Verb, url: string, ck: string)

  /** The state of an asynchronous fetch as a view reads it: not finished, or its result. */
  datatype Fetch<+T> = Pending | Fetched(value: T) | Failed(error: string)
}
