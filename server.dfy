/**
 * main.go: the routing closures registered on the default `http.ServeMux`,
 * the whole request path from the mux to a handler (`Serve`), and the
 * seeding of sample tasks at start-up (`insertDummyData`).
 */
module Server {
  import opened Wrappers
  import opened Text
  import opened Models
  import opened Http
  import opened Store
  import opened Handlers

  /** The handler functions a closure can call. `TasksPage` is the HTML list page of handlers/web.go. */
  datatype Handler =
    | ListTasks
    | TasksPage
    | CreateTask
    | GetTask
    | UpdateTask
    | DeleteTask
    | ToggleTask
    | Health

  /** What a routing closure does: call a handler, write a bare status, or redirect with 301. */
  datatype Dispatch = Call(handler: Handler) | Reply(status: int) | Redirect(location: string)

  /** The patterns registered on the mux. */
  datatype Pattern = RootPattern | HealthPattern | TasksPattern | TaskItemPattern

  predicate HasPrefix(s: string, prefix: string) {
    |prefix| <= |s| && s[..|prefix|] == prefix
  }

  /**
   * Which registered pattern the mux picks: the exact paths `/health` and
   * `/tasks`, else the subtree `/tasks/` for any path under it, else the
   * catch-all `/`.
   */
  function Match(path: string): (r: Pattern)
    ensures r == HealthPattern <==> path == "/health"
    ensures r == TasksPattern <==> path == "/tasks"
    ensures r == TaskItemPattern <==> HasPrefix(path, "/tasks/")
    ensures r == RootPattern <==> path != "/health" && path != "/tasks" && !HasPrefix(path, "/tasks/")
  {
    if path == "/health" then assert path[1] != 't'; HealthPattern
    else if path == "/tasks" then TasksPattern
    else if HasPrefix(path, "/tasks/") then TaskItemPattern
    else RootPattern
  }

  /** The `/` closure: the root itself redirects to the list, any other unmatched path is 404. */
  function RootRoute(path: string): (r: Dispatch)
    ensures r.Redirect? <==> path == "/"
    ensures r.Redirect? ==> r.location == "/tasks"
    ensures !r.Redirect? ==> r == Reply(StatusNotFound)
  {
    if path == "/" then Redirect("/tasks") else Reply(StatusNotFound)
  }

  /** The `/tasks` closure: the Accept header chooses JSON or HTML for GET; POST creates. */
  function TasksRoute(verb: string, accept: string): (r: Dispatch)
    ensures r == Call(ListTasks) <==> verb == MethodGet && accept == "application/json"
    ensures r == Call(TasksPage) <==> verb == MethodGet && accept != "application/json"
    ensures r == Call(CreateTask) <==> verb == MethodPost
    ensures !r.Call? ==> r == Reply(StatusMethodNotAllowed)
  {
    if verb == MethodGet then
      if accept == "application/json" then Call(ListTasks) else Call(TasksPage)
    else if verb == MethodPost then Call(CreateTask)
    else Reply(StatusMethodNotAllowed)
  }

  /**
   * The `/tasks/` closure. A four-part path ending in `toggle` is the toggle
   * action, whatever the form says; a three-part path is a single task,
   * where a POST may name PUT or DELETE in its `_method` form field.
   */
  function TaskItemRoute(verb: string, path: string, formMethod: string): (r: Dispatch)
    ensures r == Call(ToggleTask) <==>
              verb == MethodPatch && |Split(path, '/')| == 4 && Split(path, '/')[3] == "toggle"
    ensures r.Call? ==> r.handler in {GetTask, UpdateTask, DeleteTask, ToggleTask}
    ensures r.Call? && r.handler != ToggleTask ==> |Split(path, '/')| == 3
    ensures r.Redirect? ==> path == "/tasks/" && r.location == "/tasks"
    ensures r.Reply? ==> r.status in {StatusMethodNotAllowed, StatusNotFound}
  {
    var parts := Split(path, '/');
    if |parts| == 4 && parts[3] == "toggle" then
      if verb == MethodPatch then Call(ToggleTask) else Reply(StatusMethodNotAllowed)
    else if |parts| == 3 then
      if verb == MethodPost && formMethod == "PUT" then Call(UpdateTask)
      else if verb == MethodPost && formMethod == "DELETE" then Call(DeleteTask)
      else if verb == MethodGet then Call(GetTask)
      else if verb == MethodPut then Call(UpdateTask)
      else if verb == MethodDelete then Call(DeleteTask)
      else Reply(StatusMethodNotAllowed)
    else if path == "/tasks/" then Redirect("/tasks")
    else Reply(StatusNotFound)
  }

  /** The mux followed by the closure it picks. `formMethod` is `r.FormValue("_method")`. */
  function Route(verb: string, path: string, accept: string, formMethod: string): (r: Dispatch)
    ensures r == Call(Health) <==> path == "/health"
    ensures r.Call? && r.handler in {ListTasks, TasksPage, CreateTask} <==>
              path == "/tasks" && (verb == MethodGet || verb == MethodPost)
    ensures r.Call? && r.handler in {GetTask, UpdateTask, DeleteTask, ToggleTask} ==>
              HasPrefix(path, "/tasks/") && 3 <= |Split(path, '/')| <= 4
    ensures r.Reply? ==> r.status in {StatusMethodNotAllowed, StatusNotFound}
  {
    match Match(path)
    case RootPattern => RootRoute(path)
    case HealthPattern => Call(Health)
    case TasksPattern => TasksRoute(verb, accept)
    case TaskItemPattern => TaskItemRoute(verb, path, formMethod)
  }

  /**
   * A request as the service sees it. The body is given as the decoder would
   * leave it for each of the two request types, since which one is decoded
   * depends on the handler the request reaches.
   */
  datatype Request = Request(
    verb: string,
    path: string,
    accept: string,
    formMethod: string,
    createBody: Decoded<CreateTaskRequest>,
    updateBody: Decoded<UpdateTaskRequest>)

  /** A request from the mux to the response, with the store it leaves behind. */
  function Serve(db: Db, req: Request, fault: Fault): (r: Outcome)
    ensures Valid(db) ==> Valid(r.db)
  {
    match Route(req.verb, req.path, req.accept, req.formMethod)
    case Reply(status) => Outcome(Response(status, NoBody), db)
    case Redirect(location) => Outcome(Response(StatusMovedPermanently, Location(location)), db)
    case Call(handler) =>
      match handler
      case Health => Outcome(Response(StatusOK, HealthBody), db)
      case TasksPage =>
        if fault == ReadFault then Reject(db, StatusInternalServerError, ListFailed)
        else Outcome(Response(StatusOK, PageBody(ToJsonList(Find(db)))), db)
      case ListTasks => ListTasksOutcome(db, req.verb, fault)
      case CreateTask => CreateTaskOutcome(db, req.verb, req.createBody, fault)
      case GetTask => GetTaskOutcome(db, req.verb, req.path, fault)
      case UpdateTask => UpdateTaskOutcome(db, req.path, req.updateBody, fault)
      case DeleteTask => DeleteTaskOutcome(db, req.verb, req.path, fault)
      case ToggleTask => ToggleTaskOutcome(db, req.verb, req.path, fault)
  }

  /** The path of a single task, with its id written in decimal. */
  function TaskPath(id: int): string {
    "/tasks/" + Itoa(id)
  }

  /** The path of a task's toggle action. */
  function TogglePath(id: int): string {
    "/tasks/" + Itoa(id) + "/toggle"
  }

  // ---------------------------------------------------------------------------
  // Sample data

  /** The five sample tasks, in insertion order; only the first is done. */
  const DummyTasks: seq<Task> := [
    Unsaved("Renderへのデプロイ", "Go WebアプリケーションをRenderにデプロイする",
            true, Some(Date(2025, 3, 20, 0, 0, 0, 0))),
    Unsaved("テストコードの作成", "アプリケーションの単体テストとE2Eテストを実装する",
            false, Some(Date(2025, 3, 25, 0, 0, 0, 0))),
    Unsaved("ユーザー認証の実装", "JWTを使用したユーザー認証システムを追加する",
            false, Some(Date(2025, 3, 30, 0, 0, 0, 0))),
    Unsaved("検索機能の追加", "タスクのタイトルと説明で検索できる機能を実装する",
            false, Some(Date(2025, 4, 5, 0, 0, 0, 0))),
    Unsaved("UIの改善", "モバイル対応とダークモードの実装",
            false, Some(Date(2025, 4, 10, 0, 0, 0, 0)))
  ]

  /** Whether seeding returned an error, and the store it left. */
  datatype Seeded = Seeded(failed: bool, db: Db)

  /** `insertDummyData`: count the visible rows; only when there are none, insert the sample tasks in one batch. */
  function SeedOutcome(db: Db, fault: Fault): (r: Seeded)
    ensures Valid(db) ==> Valid(r.db)
    ensures r.failed ==> r.db == db
    ensures Count(db) > 0 ==> r.db == db
  {
    if fault == ReadFault then Seeded(true, db)
    else if Count(db) > 0 then Seeded(false, db)
    else if fault == WriteFault then Seeded(true, db)
    else Seeded(false, CreateAll(db, DummyTasks))
  }

  method InsertDummyData(svc: TaskService, fault: Fault) returns (failed: bool)
    requires Valid(svc.db)
    modifies svc
    ensures Valid(svc.db)
    ensures Seeded(failed, svc.db) == SeedOutcome(old(svc.db), fault)
  {
    if fault == ReadFault {
      return true;
    }
    var count := Count(svc.db);
    if count > 0 {
      return false;
    }
    var dummyTasks := DummyTasks;
    if fault == WriteFault {
      return true;
    }
    svc.db := CreateAll(svc.db, dummyTasks);
    failed := false;
  }

  // ---------------------------------------------------------------------------
  // Routing properties

  /** `/tasks/` splits into three parts, the last one empty. */
  lemma TasksSlashParts()
    ensures Split("/tasks/", '/') == ["", "tasks", ""]
  {
    SplitAtSeparator("", "tasks/", '/');
    SplitAtSeparator("tasks", "", '/');
    assert "" + ['/'] + "tasks/" == "/tasks/";
    assert "tasks" + ['/'] + "" == "tasks/";
  }

  /**
   * Only the root path is ever redirected: the `/tasks/` redirect in the
   * subtree closure is dead, because `/tasks/` has three parts and is
   * taken as a single-task path first.
   */
  lemma RedirectOnlyAtRoot(verb: string, path: string, accept: string, formMethod: string)
    ensures Route(verb, path, accept, formMethod).Redirect? <==> path == "/"
    ensures Route(verb, path, accept, formMethod).Redirect? ==>
              Route(verb, path, accept, formMethod).location == "/tasks"
  {
    if path == "/tasks/" {
      TasksSlashParts();
    }
  }

  /** GET `/tasks/` reaches GetTask, which rejects the empty id with 400 and leaves the store alone. */
  lemma GetTasksSlashIsBadRequest(db: Db, req: Request, fault: Fault)
    requires req.verb == MethodGet && req.path == "/tasks/"
    ensures Route(req.verb, req.path, req.accept, req.formMethod) == Call(GetTask)
    ensures Serve(db, req, fault) == Outcome(Response(StatusBadRequest, ErrorBody(InvalidId)), db)
  {
    TasksSlashParts();
    assert Atoi("") == None;
  }

  /** The exact path `/tasks`: JSON list only for an Accept of exactly `application/json`. */
  lemma TasksRoutes(verb: string, accept: string, formMethod: string)
    ensures Route(verb, "/tasks", accept, formMethod) == Call(ListTasks) <==>
              verb == MethodGet && accept == "application/json"
    ensures Route(verb, "/tasks", accept, formMethod) == Call(TasksPage) <==>
              verb == MethodGet && accept != "application/json"
    ensures Route(verb, "/tasks", accept, formMethod) == Call(CreateTask) <==> verb == MethodPost
    ensures Route(verb, "/tasks", accept, formMethod) == Reply(StatusMethodNotAllowed) <==>
              verb != MethodGet && verb != MethodPost
  {
  }

  /** Paths the mux sends to the `/` closure: the root redirects, everything else is 404. */
  lemma RootRoutes(verb: string, path: string, accept: string, formMethod: string)
    requires Match(path) == RootPattern
    ensures path == "/" ==> Route(verb, path, accept, formMethod) == Redirect("/tasks")
    ensures path != "/" ==> Route(verb, path, accept, formMethod) == Reply(StatusNotFound)
  {
  }

  /** The single-task shape: which method reaches which handler, with the form override only on POST. */
  lemma ItemRoutes(verb: string, path: string, accept: string, formMethod: string)
    requires HasPrefix(path, "/tasks/") && |Split(path, '/')| == 3
    ensures Route(verb, path, accept, formMethod) == Call(GetTask) <==> verb == MethodGet
    ensures Route(verb, path, accept, formMethod) == Call(UpdateTask) <==>
              verb == MethodPut || (verb == MethodPost && formMethod == "PUT")
    ensures Route(verb, path, accept, formMethod) == Call(DeleteTask) <==>
              verb == MethodDelete || (verb == MethodPost && formMethod == "DELETE")
    ensures Route(verb, path, accept, formMethod) == Reply(StatusMethodNotAllowed) <==>
              verb !in {MethodGet, MethodPut, MethodDelete} &&
              !(verb == MethodPost && formMethod in {"PUT", "DELETE"})
  {
  }

  /** The toggle shape: PATCH reaches ToggleTask, every other method is 405, and the form is never read. */
  lemma ToggleRoutes(verb: string, path: string, accept: string, formMethod: string, otherForm: string)
    requires HasPrefix(path, "/tasks/")
    requires |Split(path, '/')| == 4 && Split(path, '/')[3] == "toggle"
    ensures Route(verb, path, accept, formMethod) ==
              (if verb == MethodPatch then Call(ToggleTask) else Reply(StatusMethodNotAllowed))
    ensures Route(verb, path, accept, formMethod) == Route(verb, path, accept, otherForm)
  {
  }

  /** Under `/tasks/`, a path of neither shape is 404 for every method. */
  lemma OtherShapesNotFound(verb: string, path: string, accept: string, formMethod: string)
    requires HasPrefix(path, "/tasks/")
    requires |Split(path, '/')| != 3
    requires !(|Split(path, '/')| == 4 && Split(path, '/')[3] == "toggle")
    ensures Route(verb, path, accept, formMethod) == Reply(StatusNotFound)
  {
    if path == "/tasks/" {
      TasksSlashParts();
    }
  }

  /** A trailing slash after the id gives four parts, the last one empty: 404 (for example `/tasks/1/`). */
  lemma TrailingSlashNotFound(id: int, verb: string, accept: string, formMethod: string)
    ensures Route(verb, TaskPath(id) + "/", accept, formMethod) == Reply(StatusNotFound)
  {
    var path := TaskPath(id) + "/";
    var parts := ["", "tasks", Itoa(id), ""];
    assert Join(parts[2..], '/') == Itoa(id) + "/";
    assert Join(parts[1..], '/') == "tasks/" + Itoa(id) + "/";
    assert Join(parts, '/') == path;
    SplitOfJoin(parts, '/');
    assert path[..7] == "/tasks/";
    OtherShapesNotFound(verb, path, accept, formMethod);
  }

  /** Two more segments after the id give five parts: 404 (for example `/tasks/1/x/y`). */
  lemma ExtraSegmentsNotFound(id: int, x: string, y: string, verb: string, accept: string, formMethod: string)
    requires '/' !in x && '/' !in y
    ensures Route(verb, TaskPath(id) + "/" + x + "/" + y, accept, formMethod) == Reply(StatusNotFound)
  {
    var path := TaskPath(id) + "/" + x + "/" + y;
    var parts := ["", "tasks", Itoa(id), x, y];
    assert Join(parts[3..], '/') == x + "/" + y;
    assert Join(parts[2..], '/') == Itoa(id) + "/" + x + "/" + y;
    assert Join(parts[1..], '/') == "tasks/" + Itoa(id) + "/" + x + "/" + y;
    assert Join(parts, '/') == path;
    SplitOfJoin(parts, '/');
    assert path[..7] == "/tasks/";
    OtherShapesNotFound(verb, path, accept, formMethod);
  }

  /** A task path splits into `""`, `tasks` and the decimal id, which parses back to the id. */
  lemma TaskPathParts(id: int)
    requires MinInt <= id <= MaxInt
    ensures HasPrefix(TaskPath(id), "/tasks/")
    ensures Split(TaskPath(id), '/') == ["", "tasks", Itoa(id)]
    ensures ItemTarget(TaskPath(id)) == Id(id)
  {
    var p := TaskPath(id);
    var parts := ["", "tasks", Itoa(id)];
    assert Join(parts[1..], '/') == "tasks/" + Itoa(id);
    assert Join(parts, '/') == p;
    SplitOfJoin(parts, '/');
    assert p[..7] == "/tasks/";
    AtoiOfItoa(id);
  }

  /** A toggle path splits into four parts ending in `toggle`, and its id parses back. */
  lemma TogglePathParts(id: int)
    requires MinInt <= id <= MaxInt
    ensures HasPrefix(TogglePath(id), "/tasks/")
    ensures Split(TogglePath(id), '/') == ["", "tasks", Itoa(id), "toggle"]
    ensures ToggleTarget(TogglePath(id)) == Id(id)
  {
    var p := TogglePath(id);
    var parts := ["", "tasks", Itoa(id), "toggle"];
    assert Join(parts[2..], '/') == Itoa(id) + "/toggle";
    assert Join(parts[1..], '/') == "tasks/" + Itoa(id) + "/toggle";
    assert Join(parts, '/') == p;
    SplitOfJoin(parts, '/');
    assert p[..7] == "/tasks/";
    AtoiOfItoa(id);
  }

  /**
   * PATCH on a single-task path is 405: the router offers toggle only on
   * the four-part path.
   */
  lemma PatchOnTaskPathNotAllowed(id: int, accept: string, formMethod: string)
    requires MinInt <= id <= MaxInt
    ensures Route(MethodPatch, TaskPath(id), accept, formMethod) == Reply(StatusMethodNotAllowed)
  {
    TaskPathParts(id);
    ItemRoutes(MethodPatch, TaskPath(id), accept, formMethod);
  }

  /**
   * A POST whose form names DELETE is routed to DeleteTask, which checks the
   * real method, finds POST and answers 405 without touching the store.
   */
  lemma FormDeleteIsRejected(db: Db, req: Request, fault: Fault)
    requires req.verb == MethodPost && req.formMethod == "DELETE"
    requires HasPrefix(req.path, "/tasks/") && |Split(req.path, '/')| == 3
    ensures Route(req.verb, req.path, req.accept, req.formMethod) == Call(DeleteTask)
    ensures Serve(db, req, fault) == Outcome(Response(StatusMethodNotAllowed, NoBody), db)
  {
    ItemRoutes(req.verb, req.path, req.accept, req.formMethod);
  }

  /** A POST whose form names PUT behaves exactly as a PUT, since UpdateTask never checks the method. */
  lemma FormPutIsUpdate(db: Db, req: Request, fault: Fault)
    requires req.verb == MethodPost && req.formMethod == "PUT"
    requires HasPrefix(req.path, "/tasks/") && |Split(req.path, '/')| == 3
    ensures Serve(db, req, fault) == Serve(db, req.(verb := MethodPut), fault)
    ensures Serve(db, req, fault) == UpdateTaskOutcome(db, req.path, req.updateBody, fault)
  {
    ItemRoutes(req.verb, req.path, req.accept, req.formMethod);
    ItemRoutes(MethodPut, req.path, req.accept, req.formMethod);
  }

  // ---------------------------------------------------------------------------
  // Seeding properties

  /** After a run that did not fail, the store has visible rows, so a second run changes nothing. */
  lemma SeedIdempotent(db: Db, first: Fault, second: Fault)
    requires Valid(db)
    requires !SeedOutcome(db, first).failed
    ensures SeedOutcome(SeedOutcome(db, first).db, second).db == SeedOutcome(db, first).db
  {
    if Count(db) == 0 && first == NoFault {
      FindAfterCreateAll(db, DummyTasks);
    }
  }

  /**
   * On a store with no visible rows, seeding lists exactly the five sample
   * tasks, with consecutive fresh ids; only the first is done.
   */
  lemma SeedOnEmpty(db: Db)
    requires Valid(db) && Count(db) == 0
    ensures !SeedOutcome(db, NoFault).failed
    ensures Count(SeedOutcome(db, NoFault).db) == 5
    ensures multiset(Find(SeedOutcome(db, NoFault).db)) == multiset(Assigned(DummyTasks, db.nextId))
    ensures forall t :: t in Find(SeedOutcome(db, NoFault).db) ==> (t.status <==> t.id == db.nextId)
  {
    var seeded := SeedOutcome(db, NoFault).db;
    assert seeded == CreateAll(db, DummyTasks);
    DummyTasksLive();
    SeedEmptyStore(db, DummyTasks);
    SeededStatusAll(db.nextId, Find(seeded));
  }

  /** The sample tasks: five of them, none deleted. */
  lemma DummyTasksLive()
    ensures |DummyTasks| == 5
    ensures forall i :: 0 <= i < |DummyTasks| ==> !DummyTasks[i].deleted
  {
  }

  lemma SeededStatusAll(first: nat, after: seq<Task>)
    requires multiset(after) == multiset(Assigned(DummyTasks, first))
    ensures forall t :: t in after ==> (t.status <==> t.id == first)
  {
    forall t | t in after ensures t.status <==> t.id == first {
      assert t in multiset(Assigned(DummyTasks, first));
      SeededStatus(first, t);
    }
  }

  /** On a store with no visible rows, a batch of live rows lists exactly the batch. */
  lemma SeedEmptyStore(db: Db, ts: seq<Task>)
    requires Valid(db) && Count(db) == 0
    requires forall i :: 0 <= i < |ts| ==> !ts[i].deleted
    ensures multiset(Find(CreateAll(db, ts))) == multiset(Assigned(ts, db.nextId))
    ensures Count(CreateAll(db, ts)) == |ts|
  {
    FindAfterCreateAll(db, ts);
    assert multiset(Find(db)) == multiset{};
    assert |Find(CreateAll(db, ts))| == |multiset(Assigned(ts, db.nextId))|;
  }

  lemma SeededStatus(first: nat, t: Task)
    requires t in Assigned(DummyTasks, first)
    ensures t.status <==> t.id == first
  {
    var i :| 0 <= i < 5 && Assigned(DummyTasks, first)[i] == t;
    assert t == DummyTasks[i].(id := first + i);
  }
}
