/**
 * How an Express router runs the middleware listed before a handler: each step either
 * calls `next()` or answers; the first answer ends the chain and the handler never runs.
 * An upload step whose multer call fails reaches Express's default error handler, which
 * answers 500 (the server installs no error handler of its own).
 */
module Router {
  import opened Wrappers
  import opened Http
  import opened AuthMiddleware
  import opened UploadMiddleware

  datatype Verb = Get | Post | Patch | Delete

  /** A middleware listed in a route registration. */
  datatype Step = Authenticate | RequireAdmin | Upload(uploader: Uploader, field: string)

  /** `router.<verb>(path, ...steps, handler)`. */
  datatype Route<H> = Route(verb: Verb, path: string, steps: seq<Step>, handler: H)

  /** What the middleware looks at: the session, the uploaded part, and the name inputs. */
  datatype Request = Request(session: Option<Session>, file: Option<FilePart>, uuid: string, projectRoot: string)

  function RunStep(step: Step, req: Request): GuardOutcome {
    match step
    case Authenticate => EnsureAuthenticated(req.session)
    case RequireAdmin => EnsureAdmin(req.session)
    case Upload(u, field) =>
      match Single(u, field, req.projectRoot, req.file, req.uuid)
      case Ok(_) => Next
      case Err(e) => Halt(Response(ServerError, e))
  }

  /** `Halted(at, r)`: step `at` answered `r`; `Reached`: every step called `next()`. */
  datatype ChainResult = Halted(at: nat, response: Response) | Reached

  function RunChain(steps: seq<Step>, req: Request): (r: ChainResult)
    ensures r.Reached? <==> forall i :: 0 <= i < |steps| ==> RunStep(steps[i], req).Next?
    ensures r.Halted? ==>
              r.at < |steps| && RunStep(steps[r.at], req) == Halt(r.response) &&
              forall i :: 0 <= i < r.at ==> RunStep(steps[i], req).Next?
  {
    if steps == [] then Reached
    else
      match RunStep(steps[0], req)
      case Halt(res) => Halted(0, res)
      case Next =>
        match RunChain(steps[1..], req)
        case Reached => Reached
        case Halted(k, res) => Halted(k + 1, res)
  }

  /** Step `k` of the chain is executed for this request. */
  predicate Runs(steps: seq<Step>, req: Request, k: nat) {
    var r := RunChain(steps, req);
    k < |steps| && (r.Reached? || k <= r.at)
  }

  /** A step runs only when every step before it called `next()`. */
  lemma RunsOnlyAfterEarlierSteps(steps: seq<Step>, req: Request, k: nat, j: nat)
    requires Runs(steps, req, k) && j < k
    ensures RunStep(steps[j], req).Next?
  {
  }
}
