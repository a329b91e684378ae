/** Requests as values (method, URL, body, headers), the errors a call can fail
    with, and the outcome of one remote call. The transport itself is not
    modelled: each outcome is an input to the component that made the call. */
module Http {
  import opened Wrappers
  import opened Models

  datatype Method = Get | Post | Put | Patch

  /** The JSON bodies the application sends. */
  datatype Body =
    | NoBody
    | EmptyObject
    | NewTask(newTask: CreateTask)
    | FullTask(task: Task)
    | EmailOnly(email: string)

  type Headers = map<string, string>

  datatype Request = Request(verb: Method, url: string, body: Body, headers: Headers)

  /** The headers every service attaches to its calls. */
  const JsonHeaders: Headers := map["Content-Type" := "application/json", "Accept" := "application/json"]

  /** The `error` member of an HTTP error response: a client-side `ErrorEvent`
      (network failure) or whatever the server sent, of which only `message`
      is ever read. */
  datatype ErrorPayload = ClientSide(eventMessage: string) | ServerSide(bodyMessage: Option<string>)

  datatype HttpError = HttpError(status: int, statusText: string, error: ErrorPayload)

  /** What one remote call produced: a reply envelope, or an error. */
  datatype Outcome<+R> = Replied(reply: R) | Failed(failure: HttpError)

  /** JavaScript truthiness of an optional string: present and non-empty. */
  predicate Truthy(s: Option<string>)
  {
    s.Some? && s.value != ""
  }
}
