/**
  The values that cross the HTTP boundary of both dispatchers: the request
  as the handler sees it once the body is complete, the push payload as
  `JSON.parse` returns it, and the response together with the deploy
  processes the request starts, returned as data.
*/
module Http {
  import opened JsValues

  /**
    A request with its body read in full; `verb` is the HTTP method. `signature` and `event` are the
    `X-Hub-Signature-256` and `X-GitHub-Event` headers.
  */
  datatype Request = Request(
    verb: string,
    url: string,
    signature: Option<string>,
    event: Option<string>,
    body: string)

  datatype Repository = Repository(fullName: Option<string>)

  /** The parts of a push payload either dispatcher reads. */
  datatype Payload = Payload(repository: Option<Repository>, ref: Option<string>)

  /** `JSON.parse` of the body: `None` when it throws. */
  type Parser = string -> Option<Payload>

  /** One `spawn(command, args, {cwd, shell})` the handler performs. `cwd` is `None` when the child inherits it. */
  datatype Invocation = Invocation(command: string, args: seq<string>, cwd: Option<string>, shell: bool)

  /** Status code and text written to the caller, plus the processes started for the request. */
  datatype Response = Response(status: int, text: string, deploys: seq<Invocation>)

  /** The gate both servers apply first: only `POST` to the configured path is served. */
  predicate Routed(req: Request, path: string) {
    req.verb == "POST" && req.url == path
  }

  /** The prefix a branch ref carries: `refs/heads/<branch>`. */
  const HeadsPrefix: string := "refs/heads/"

  const NotFound: Response := Response(404, "Not found", [])
  const InvalidJson: Response := Response(400, "Invalid JSON", [])
}
