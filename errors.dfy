/** The error values the controllers see. The Kubernetes API server's
    errors are told apart only where the controllers look at them: "not
    found" (ignored on the first fetch) and "already exists" (ignored when
    creating the secret). The Langfuse client's errors are the three kinds
    its `do` helper returns. */
module Errors {
  import opened Wrappers

  datatype Error =
    | NotFound
    | AlreadyExists
    | ApiServer(message: string)
    | ControllerReference(message: string)
    | Transport(message: string)
    | Api(message: string)
    | Decode(message: string)

  /** `client.IgnoreNotFound`: a "not found" error becomes no error. */
  function IgnoreNotFound(e: Error): (r: Option<Error>)
    ensures r.None? <==> e.NotFound?
    ensures r.Some? ==> r.value == e
  {
    if e.NotFound? then None else Some(e)
  }

  /** `client.IgnoreAlreadyExists`: an "already exists" error becomes no error. */
  function IgnoreAlreadyExists(e: Error): (r: Option<Error>)
    ensures r.None? <==> e.AlreadyExists?
    ensures r.Some? ==> r.value == e
  {
    if e.AlreadyExists? then None else Some(e)
  }
}
