/** The task service: each operation builds one request to the remote API.
    The API's base URL is a deployment setting, so it is the parameter `api`. */
module Tasks {
  import opened Wrappers
  import opened Strings
  import opened Models
  import opened Http

  /** The three status-change endpoints. */
  datatype StatusEndpoint = MoveToInProgress | MarkAsDone | MoveBackToTodo

  /** The last path segment of each status-change endpoint. */
  function Suffix(e: StatusEndpoint): string
  {
    match e
    case MoveToInProgress => "in-progress"
    case MarkAsDone => "done"
    case MoveBackToTodo => "todo"
  }

  function EndpointOfSuffix(s: string): (r: Option<StatusEndpoint>)
    ensures r.Some? ==> Suffix(r.value) == s
  {
    if s == "in-progress" then Some(MoveToInProgress)
    else if s == "done" then Some(MarkAsDone)
    else if s == "todo" then Some(MoveBackToTodo)
    else None
  }

  /** The operations of the service (deletion is not among them: the service
      does not define it). */
  datatype TaskOperation =
    | CreateTaskOp(newTask: CreateTask)
    | ListByEmail(email: string)
    | ChangeStatus(id: string, endpoint: StatusEndpoint)
    | UpdateTaskOp(task: Task)

  const ListPrefix := "/task/?userEmail="

  /** The request each operation sends: create is a POST of the input, listing
      a GET whose email is put into the query string as it is (not encoded),
      a status change a PATCH with an empty object, update a PUT of the whole
      task; all of them with the JSON headers. */
  function Build(api: string, op: TaskOperation): (r: Request)
    ensures r.headers == JsonHeaders
    ensures |api| <= |r.url| && r.url[..|api|] == api
  {
    match op
    case CreateTaskOp(t) => Request(Post, api + "/task", NewTask(t), JsonHeaders)
    case ListByEmail(email) => Request(Get, api + ListPrefix + email, NoBody, JsonHeaders)
    case ChangeStatus(id, e) => Request(Patch, api + "/task/" + id + "/" + Suffix(e), EmptyObject, JsonHeaders)
    case UpdateTaskOp(t) => Request(Put, api + "/task/" + t.id, FullTask(t), JsonHeaders)
  }

  predicate HasPrefix(s: string, prefix: string)
  {
    |prefix| <= |s| && s[..|prefix|] == prefix
  }

  /** Reads `<id>/<suffix>` back into the status change it names. */
  function ParseStatusPath(rest: string): Option<TaskOperation>
  {
    match LastIndexOf(rest, '/')
    case None => None
    case Some(k) =>
      match EndpointOfSuffix(rest[k + 1..])
      case None => None
      case Some(e) => Some(ChangeStatus(rest[..k], e))
  }

  lemma {:induction false} ParseStatusPathJoin(id: string, e: StatusEndpoint)
    ensures ParseStatusPath(id + "/" + Suffix(e)) == Some(ChangeStatus(id, e))
  {
    var rest := id + "/" + Suffix(e);
    LastIndexOfJoin(id, '/', Suffix(e));
    assert rest[|id| + 1..] == Suffix(e);
    assert rest[..|id|] == id;
  }

  /** Reads back which operation a request performs, as the server routes it:
      the method selects the route, the path after `api` names the task. A
      status-change path is cut at its last '/', so an id may itself hold '/'. */
  function Parse(api: string, req: Request): Option<TaskOperation>
  {
    if !HasPrefix(req.url, api) then None
    else
      var path := req.url[|api|..];
      match req.verb
      case Post =>
        if path == "/task" && req.body.NewTask? then Some(CreateTaskOp(req.body.newTask)) else None
      case Get =>
        if HasPrefix(path, ListPrefix) && req.body.NoBody? then Some(ListByEmail(path[|ListPrefix|..])) else None
      case Patch =>
        if !HasPrefix(path, "/task/") || !req.body.EmptyObject? then None
        else
          ParseStatusPath(path[6..])
      case Put =>
        if HasPrefix(path, "/task/") && req.body.FullTask? && path[6..] == req.body.task.id
        then Some(UpdateTaskOp(req.body.task))
        else None
  }

  /** The path of a built request, after the base URL. */
  lemma {:induction false} PathAfterBase(api: string, req: Request, path: string)
    requires req.url == api + path
    ensures HasPrefix(req.url, api) && req.url[|api|..] == path
  {
    assert req.url[..|api|] == api;
  }

  lemma {:induction false} ParsePatch(api: string, req: Request)
    requires req.verb == Patch && req.body == EmptyObject && HasPrefix(req.url, api)
    requires HasPrefix(req.url[|api|..], "/task/")
    ensures Parse(api, req) == ParseStatusPath(req.url[|api|..][6..])
  {
  }

  lemma {:induction false} ParseBuildStatus(api: string, id: string, e: StatusEndpoint)
    ensures Parse(api, Build(api, ChangeStatus(id, e))) == Some(ChangeStatus(id, e))
  {
    var req := Build(api, ChangeStatus(id, e));
    var rest := id + "/" + Suffix(e);
    var path := "/task/" + rest;
    assert req.url == api + path;
    PathAfterBase(api, req, path);
    assert path[..6] == "/task/";
    assert path[6..] == rest;
    ParseStatusPathJoin(id, e);
    ParsePatch(api, req);
  }

  lemma {:induction false} ParseBuildList(api: string, email: string)
    ensures Parse(api, Build(api, ListByEmail(email))) == Some(ListByEmail(email))
  {
    var req := Build(api, ListByEmail(email));
    assert req.url == api + (ListPrefix + email);
    PathAfterBase(api, req, ListPrefix + email);
    assert (ListPrefix + email)[|ListPrefix|..] == email;
  }

  lemma {:induction false} ParseBuildUpdate(api: string, t: Task)
    ensures Parse(api, Build(api, UpdateTaskOp(t))) == Some(UpdateTaskOp(t))
  {
    var req := Build(api, UpdateTaskOp(t));
    var path := "/task/" + t.id;
    assert req.url == api + path;
    PathAfterBase(api, req, path);
    assert HasPrefix(path, "/task/");
    assert path[6..] == t.id;
  }

  /** Every request the service builds names its operation unambiguously:
      reading the request back gives the operation that built it, whatever
      the ids, emails and task contents. */
  lemma {:induction false} ParseBuild(api: string, op: TaskOperation)
    ensures Parse(api, Build(api, op)) == Some(op)
  {
    match op
    case CreateTaskOp(t) =>
      PathAfterBase(api, Build(api, op), "/task");
    case ListByEmail(email) =>
      ParseBuildList(api, email);
    case ChangeStatus(id, e) =>
      ParseBuildStatus(api, id, e);
    case UpdateTaskOp(t) =>
      ParseBuildUpdate(api, t);
  }

  /** Consequently two different operations never build the same request. */
  lemma BuildInjective(api: string, op1: TaskOperation, op2: TaskOperation)
    requires Build(api, op1) == Build(api, op2)
    ensures op1 == op2
  {
    ParseBuild(api, op1);
    ParseBuild(api, op2);
  }
}
