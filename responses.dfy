/** The per-entity task of `doLookup`: the response handler that maps a
    status code to a task result, and the batch run of all tasks (modelled
    one after another, keeping results in task order as `async.parallelLimit`
    reports them). The lookup API is a parameter `server` answering each
    request. */
module LookupResponses {
  import opened Outcomes
  import opened JsValues
  import opened Transport
  import opened LookupRequests

  /** The branches of the handler's `if / else if` chain, in order. */
  datatype StatusClass =
    | Ok | NotFound | Accepted | NonExistentDevice | ApiLimitExceeded | JwtTokenExpired | ServerError | Unlisted

  /** `Math.round(s / 10)` for an integer `s`: rounding half up, so a status
      ending in 5 rounds to the next multiple of ten. */
  function RoundTenth(s: int): int
  {
    (s + 5) / 10
  }

  /** `Math.round(res.statusCode / 10) * 10 === 500`. */
  predicate ServerErrorTest(s: int)
  {
    RoundTenth(s) * 10 == 500
  }

  /** The server-error test holds exactly for 495 to 504: it includes five
      4xx codes and leaves out 505 to 599. */
  lemma ServerErrorRange(s: int)
    ensures ServerErrorTest(s) <==> 495 <= s <= 504
  {
  }

  function ClassifyStatus(s: int): StatusClass
  {
    if s == 200 then Ok
    else if s == 404 then NotFound
    else if s == 202 then Accepted
    else if s == 403 then NonExistentDevice
    else if s == 429 then ApiLimitExceeded
    else if s == 401 then JwtTokenExpired
    else if ServerErrorTest(s) then ServerError
    else Unlisted
  }

  /** The `err` of the object the handler assigns to its local `error`. */
  function ErrorName(c: StatusClass): Option<string>
  {
    match c
    case NonExistentDevice => Some("Non-Existent Device")
    case ApiLimitExceeded => Some("API Limit Exceeded")
    case JwtTokenExpired => Some("JWT Token Expired")
    case ServerError => Some("Server Error")
    case _ => None
  }

  /** What the task passes to `done`: `{entity, body}`, or the initial `{}`. */
  datatype TaskResult = EmptyResult | Found(entity: Entity, body: Value)

  /** One task on its response: `None` is `done(error)` for a transport
      error; otherwise `done(null, result)`. The named error is assigned to a
      local variable and never passed on, so it does not appear here. */
  function RunTask(req: Request, resp: Response): Option<TaskResult>
  {
    match resp
    case TransportError => None
    case Reply(status, body) =>
      match ClassifyStatus(status)
      case Ok => Some(Found(req.entity, body))
      case NotFound => Some(Found(req.entity, Null))
      case Accepted => Some(Found(req.entity, Null))
      case _ => Some(EmptyResult)
  }

  function TaskStep(server: Request -> Response): Request -> Option<TaskResult>
  {
    req => RunTask(req, server(req))
  }

  /** The batch: an error from any task fails it; otherwise one result per task. */
  function Execute(tasks: seq<Request>, server: Request -> Response): Option<seq<TaskResult>>
  {
    MapAll(TaskStep(server), tasks)
  }

  /** Status 200 gives the body, 404 and 202 give a null body, every other
      status gives `{}`. */
  lemma StatusMapping(req: Request, s: int, body: Value)
    ensures RunTask(req, Reply(s, body)) ==
      if s == 200 then Some(Found(req.entity, body))
      else if s == 404 || s == 202 then Some(Found(req.entity, Null))
      else Some(EmptyResult)
  {
  }

  /** A 404 and a 202 cannot be told apart, whatever their bodies. */
  lemma MissesIndistinguishable(req: Request, b1: Value, b2: Value)
    ensures RunTask(req, Reply(404, b1)) == RunTask(req, Reply(202, b2))
  {
  }

  /** The named errors are exactly 403, 429, 401 and 495 to 504; each of
      them, like every unlisted status, completes the task with `{}` and
      no error. */
  lemma NamedErrorsSwallowed(req: Request, s: int, body: Value)
    ensures ErrorName(ClassifyStatus(s)).Some? <==> s == 403 || s == 429 || s == 401 || 495 <= s <= 504
    ensures s != 200 && s != 404 && s != 202 ==> RunTask(req, Reply(s, body)) == Some(EmptyResult)
    ensures ClassifyStatus(505) == Unlisted && ClassifyStatus(599) == Unlisted && ClassifyStatus(495) == ServerError
  {
  }

  /** The batch fails exactly when some request meets a transport error, and
      otherwise holds one result per task, in task order. */
  lemma ExecuteOutcome(tasks: seq<Request>, server: Request -> Response)
    ensures Execute(tasks, server).None? <==> exists i :: 0 <= i < |tasks| && server(tasks[i]).TransportError?
    ensures Execute(tasks, server).Some? ==>
      |Execute(tasks, server).value| == |tasks| &&
      forall i :: 0 <= i < |tasks| ==> Some(Execute(tasks, server).value[i]) == RunTask(tasks[i], server(tasks[i]))
  {
    MapAllFailsIff(TaskStep(server), tasks);
    if Execute(tasks, server).Some? {
      MapAllPointwise(TaskStep(server), tasks);
    }
  }

  method RunTasks(tasks: seq<Request>, server: Request -> Response) returns (r: Option<seq<TaskResult>>)
    ensures r == Execute(tasks, server)
  {
    var results := [];
    var i := 0;
    while i < |tasks|
      invariant 0 <= i <= |tasks|
      invariant Execute(tasks[..i], server) == Some(results)
    {
      var outcome := RunTask(tasks[i], server(tasks[i]));
      if outcome.None? {
        MapAllFailsIff(TaskStep(server), tasks);
        return None;
      }
      MapAllSnoc(TaskStep(server), tasks[..i], tasks[i]);
      assert tasks[..i] + [tasks[i]] == tasks[..i + 1];
      results := results + [outcome.value];
      i := i + 1;
    }
    assert tasks[..i] == tasks;
    r := Some(results);
  }
}
