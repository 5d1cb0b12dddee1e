/**
 * The JSON handlers of handlers/tasks.go. Each handler is given here twice:
 * as a function from the store and the request to the response and the new
 * store (`...Outcome`), which the lemmas reason about, and as a method of
 * `TaskService`, which performs the same checks step by step against the
 * shared store and is proved to produce that outcome.
 *
 * A request reaches a handler as its method (`verb`), its path, its body as the JSON
 * decoder left it (`Decoded` or `Malformed`) and a `Fault` saying whether the
 * store fails this request's read or write.
 */
module Handlers {
  import opened Wrappers
  import opened Text
  import opened Models
  import opened Http
  import opened Store

  /** The body of a create request; it has no status field, so a caller cannot set one. */
  datatype CreateTaskRequest = CreateTaskRequest(title: string, description: string, dueDate: Time)

  /** The body of an update request: every field the update overwrites. */
  datatype UpdateTaskRequest = UpdateTaskRequest(title: string, description: string, dueDate: Time, status: bool)

  /** What `json.NewDecoder(r.Body).Decode(&req)` left: a request value or a decode error. */
  datatype Decoded<T> = Decoded(value: T) | Malformed

  /** A store failure injected into one request: its read (`Find`, `First`, `Count`) or its write (`Create`, `Save`, `Delete`) fails. */
  datatype Fault = NoFault | ReadFault | WriteFault

  /** The response a handler writes and the store it leaves behind. */
  datatype Outcome = Outcome(resp: Response, db: Db)

  function Reject(db: Db, status: int, kind: ErrorKind): Outcome {
    Outcome(Response(status, ErrorBody(kind)), db)
  }

  /** What the id segment of a request path yields: an id, or the 400 error the handler writes. */
  datatype Target = Id(id: int) | BadPath(kind: ErrorKind)

  /** The path check of Get, Update and Delete: exactly three `/`-separated parts, the third a decimal id. */
  function ItemTarget(path: string): (r: Target)
    ensures r == BadPath(InvalidUrl) <==> |Split(path, '/')| != 3
    ensures r == BadPath(InvalidId) <==> |Split(path, '/')| == 3 && Atoi(Split(path, '/')[2]).None?
    ensures r.Id? ==> Atoi(Split(path, '/')[2]) == Some(r.id) && MinInt <= r.id <= MaxInt
  {
    var parts := Split(path, '/');
    if |parts| != 3 then BadPath(InvalidUrl)
    else match Atoi(parts[2])
      case None => BadPath(InvalidId)
      case Some(id) => Id(id)
  }

  /** The path check of Toggle: exactly four parts, the fourth `toggle`, the third a decimal id. */
  function ToggleTarget(path: string): (r: Target)
    ensures r == BadPath(InvalidUrl) <==> !(|Split(path, '/')| == 4 && Split(path, '/')[3] == "toggle")
    ensures r == BadPath(InvalidId) <==>
              |Split(path, '/')| == 4 && Split(path, '/')[3] == "toggle" && Atoi(Split(path, '/')[2]).None?
    ensures r.Id? ==> Atoi(Split(path, '/')[2]) == Some(r.id) && MinInt <= r.id <= MaxInt
  {
    var parts := Split(path, '/');
    if |parts| != 4 || parts[3] != "toggle" then BadPath(InvalidUrl)
    else match Atoi(parts[2])
      case None => BadPath(InvalidId)
      case Some(id) => Id(id)
  }

  /** `First(&task, id)` as the handlers see it: any error, a failed read included, reads as "not found". */
  function Lookup(db: Db, id: int, fault: Fault): (r: Option<Task>)
    ensures r.Some? <==> fault != ReadFault && Visible(db, id)
    ensures r.Some? ==> r.value == db.rows[id]
  {
    if fault == ReadFault then None else First(db, id)
  }

  // ---------------------------------------------------------------------------
  // The handlers as functions of the store and the request

  /** ListTasks: GET only; every visible task, or 500 when the read fails. */
  function ListTasksOutcome(db: Db, verb: string, fault: Fault): (r: Outcome)
    ensures r.db == db
    ensures r.resp.status in {StatusOK, StatusMethodNotAllowed, StatusInternalServerError}
    ensures r.resp.status == StatusMethodNotAllowed <==> verb != MethodGet
    ensures r.resp.status == StatusInternalServerError <==> verb == MethodGet && fault == ReadFault
    ensures r.resp.status == StatusOK <==> verb == MethodGet && fault != ReadFault
    ensures r.resp.status == StatusOK ==> r.resp.body == TaskListBody(ToJsonList(Find(db)))
  {
    if verb != MethodGet then Outcome(Response(StatusMethodNotAllowed, NoBody), db)
    else if fault == ReadFault then Reject(db, StatusInternalServerError, ListFailed)
    else Outcome(Response(StatusOK, TaskListBody(ToJsonList(Find(db)))), db)
  }

  /**
   * CreateTask: POST only; the body must decode and carry a non-empty title.
   * Only a 201 changes the store.
   */
  function CreateTaskOutcome(db: Db, verb: string, body: Decoded<CreateTaskRequest>, fault: Fault): (r: Outcome)
    ensures Valid(db) ==> Valid(r.db)
    ensures r.resp.status in {StatusCreated, StatusBadRequest, StatusMethodNotAllowed, StatusInternalServerError}
    ensures r.resp.status != StatusCreated ==> r.db == db
    ensures r.resp.status == StatusCreated <==>
              verb == MethodPost && body.Decoded? && body.value.title != "" && fault != WriteFault
  {
    if verb != MethodPost then Outcome(Response(StatusMethodNotAllowed, NoBody), db)
    else if body.Malformed? then Reject(db, StatusBadRequest, MalformedBody)
    else if body.value.title == "" then Reject(db, StatusBadRequest, TitleRequired)
    else
      var req := body.value;
      var task := Unsaved(req.title, req.description, false, Some(req.dueDate));
      if fault == WriteFault then Reject(db, StatusInternalServerError, CreateFailed)
      else
        var c := Create(db, task);
        Outcome(Response(StatusCreated, TaskBody(ToJson(c.task))), c.db)
  }

  /** GetTask: GET only; never changes the store. */
  function GetTaskOutcome(db: Db, verb: string, path: string, fault: Fault): (r: Outcome)
    ensures r.db == db
    ensures r.resp.status in {StatusOK, StatusBadRequest, StatusNotFound, StatusMethodNotAllowed}
    ensures r.resp.status == StatusMethodNotAllowed <==> verb != MethodGet
    ensures r.resp.status == StatusOK <==>
              verb == MethodGet && ItemTarget(path).Id? && Visible(db, ItemTarget(path).id) && fault != ReadFault
    ensures r.resp.status == StatusOK ==>
              ItemTarget(path).Id? && Visible(db, ItemTarget(path).id) &&
              r.resp.body == TaskBody(ToJson(db.rows[ItemTarget(path).id]))
  {
    if verb != MethodGet then Outcome(Response(StatusMethodNotAllowed, NoBody), db)
    else match ItemTarget(path)
      case BadPath(kind) => Reject(db, StatusBadRequest, kind)
      case Id(id) =>
        match Lookup(db, id, fault)
        case None => Reject(db, StatusNotFound, NotFound)
        case Some(task) => Outcome(Response(StatusOK, TaskBody(ToJson(task))), db)
  }

  /**
   * UpdateTask: no method check; path, then body, then lookup, then the
   * write. Only a 200 changes the store.
   */
  function UpdateTaskOutcome(db: Db, path: string, body: Decoded<UpdateTaskRequest>, fault: Fault): (r: Outcome)
    ensures Valid(db) ==> Valid(r.db)
    ensures r.resp.status in {StatusOK, StatusBadRequest, StatusNotFound, StatusInternalServerError}
    ensures r.resp.status != StatusOK ==> r.db == db
    ensures r.resp.status == StatusOK <==>
              ItemTarget(path).Id? && body.Decoded? && Visible(db, ItemTarget(path).id) && fault == NoFault
    ensures Valid(db) && r.resp.status == StatusOK ==>
              ItemTarget(path).Id? && Visible(db, ItemTarget(path).id) && body.Decoded? &&
              var id := ItemTarget(path).id;
              var task := db.rows[id].(title := body.value.title, description := body.value.description,
                                       status := body.value.status, dueDate := Some(body.value.dueDate));
              r.db == Db(db.rows[id := task], db.nextId) && r.resp.body == TaskBody(ToJson(task))
  {
    match ItemTarget(path)
    case BadPath(kind) => Reject(db, StatusBadRequest, kind)
    case Id(id) =>
      if body.Malformed? then Reject(db, StatusBadRequest, MalformedBody)
      else
        match Lookup(db, id, fault)
        case None => Reject(db, StatusNotFound, NotFound)
        case Some(found) =>
          var req := body.value;
          var task := found.(title := req.title, description := req.description,
                             status := req.status, dueDate := Some(req.dueDate));
          if fault == WriteFault then Reject(db, StatusInternalServerError, UpdateFailed)
          else Outcome(Response(StatusOK, TaskBody(ToJson(task))), Save(db, task))
  }

  /** DeleteTask: DELETE only; a 204 soft-deletes the row, anything else leaves the store alone. */
  function DeleteTaskOutcome(db: Db, verb: string, path: string, fault: Fault): (r: Outcome)
    ensures Valid(db) ==> Valid(r.db)
    ensures r.resp.status in {StatusNoContent, StatusBadRequest, StatusNotFound, StatusMethodNotAllowed, StatusInternalServerError}
    ensures r.resp.status != StatusNoContent ==> r.db == db
    ensures r.resp.status == StatusMethodNotAllowed <==> verb != MethodDelete
    ensures r.resp.status == StatusNoContent <==>
              verb == MethodDelete && ItemTarget(path).Id? && Visible(db, ItemTarget(path).id) && fault == NoFault
    ensures Valid(db) && r.resp.status == StatusNoContent ==>
              ItemTarget(path).Id? && r.db == Delete(db, ItemTarget(path).id) && r.resp.body == NoBody
  {
    if verb != MethodDelete then Outcome(Response(StatusMethodNotAllowed, NoBody), db)
    else match ItemTarget(path)
      case BadPath(kind) => Reject(db, StatusBadRequest, kind)
      case Id(id) =>
        match Lookup(db, id, fault)
        case None => Reject(db, StatusNotFound, NotFound)
        case Some(task) =>
          if fault == WriteFault then Reject(db, StatusInternalServerError, DeleteFailed)
          else Outcome(Response(StatusNoContent, NoBody), Delete(db, task.id))
  }

  /** ToggleTask: PATCH only, on `/tasks/{id}/toggle`; flips the status of a visible task. */
  function ToggleTaskOutcome(db: Db, verb: string, path: string, fault: Fault): (r: Outcome)
    ensures Valid(db) ==> Valid(r.db)
    ensures r.resp.status in {StatusOK, StatusBadRequest, StatusNotFound, StatusMethodNotAllowed, StatusInternalServerError}
    ensures r.resp.status != StatusOK ==> r.db == db
    ensures r.resp.status == StatusMethodNotAllowed <==> verb != MethodPatch
    ensures r.resp.status == StatusOK <==>
              verb == MethodPatch && ToggleTarget(path).Id? && Visible(db, ToggleTarget(path).id) && fault == NoFault
    ensures Valid(db) && r.resp.status == StatusOK ==>
              ToggleTarget(path).Id? && Visible(db, ToggleTarget(path).id) &&
              var id := ToggleTarget(path).id;
              var task := db.rows[id].(status := !db.rows[id].status);
              r.db == Db(db.rows[id := task], db.nextId) && r.resp.body == TaskBody(ToJson(task))
  {
    if verb != MethodPatch then Outcome(Response(StatusMethodNotAllowed, NoBody), db)
    else match ToggleTarget(path)
      case BadPath(kind) => Reject(db, StatusBadRequest, kind)
      case Id(id) =>
        match Lookup(db, id, fault)
        case None => Reject(db, StatusNotFound, NotFound)
        case Some(found) =>
          var task := found.(status := !found.status);
          if fault == WriteFault then Reject(db, StatusInternalServerError, UpdateFailed)
          else Outcome(Response(StatusOK, TaskBody(ToJson(task))), Save(db, task))
  }

  // ---------------------------------------------------------------------------
  // The handlers as they run against the shared store

  class TaskService {
    /** The process-wide store handle. */
    var db: Db

    constructor (initial: Db)
      requires Valid(initial)
      ensures db == initial
    {
      db := initial;
    }

    method ListTasks(verb: string, fault: Fault) returns (resp: Response)
      ensures resp == ListTasksOutcome(db, verb, fault).resp
    {
      if verb != MethodGet {
        return Response(StatusMethodNotAllowed, NoBody);
      }
      if fault == ReadFault {
        return Response(StatusInternalServerError, ErrorBody(ListFailed));
      }
      var tasks := Find(db);
      resp := Response(StatusOK, TaskListBody(ToJsonList(tasks)));
    }

    method CreateTask(verb: string, body: Decoded<CreateTaskRequest>, fault: Fault) returns (resp: Response)
      requires Valid(db)
      modifies this
      ensures Valid(db)
      ensures Outcome(resp, db) == CreateTaskOutcome(old(db), verb, body, fault)
    {
      if verb != MethodPost {
        return Response(StatusMethodNotAllowed, NoBody);
      }
      if body.Malformed? {
        return Response(StatusBadRequest, ErrorBody(MalformedBody));
      }
      var req := body.value;
      if req.title == "" {
        return Response(StatusBadRequest, ErrorBody(TitleRequired));
      }
      var task := Unsaved(req.title, req.description, false, Some(req.dueDate));
      if fault == WriteFault {
        return Response(StatusInternalServerError, ErrorBody(CreateFailed));
      }
      var created := Create(db, task);
      db := created.db;
      task := created.task;
      resp := Response(StatusCreated, TaskBody(ToJson(task)));
    }

    method GetTask(verb: string, path: string, fault: Fault) returns (resp: Response)
      ensures resp == GetTaskOutcome(db, verb, path, fault).resp
    {
      if verb != MethodGet {
        return Response(StatusMethodNotAllowed, NoBody);
      }
      var parts := Split(path, '/');
      if |parts| != 3 {
        return Response(StatusBadRequest, ErrorBody(InvalidUrl));
      }
      var id := Atoi(parts[2]);
      if id.None? {
        return Response(StatusBadRequest, ErrorBody(InvalidId));
      }
      var found := Lookup(db, id.value, fault);
      if found.None? {
        return Response(StatusNotFound, ErrorBody(NotFound));
      }
      resp := Response(StatusOK, TaskBody(ToJson(found.value)));
    }

    method UpdateTask(path: string, body: Decoded<UpdateTaskRequest>, fault: Fault) returns (resp: Response)
      requires Valid(db)
      modifies this
      ensures Valid(db)
      ensures Outcome(resp, db) == UpdateTaskOutcome(old(db), path, body, fault)
    {
      var parts := Split(path, '/');
      if |parts| != 3 {
        return Response(StatusBadRequest, ErrorBody(InvalidUrl));
      }
      var id := Atoi(parts[2]);
      if id.None? {
        return Response(StatusBadRequest, ErrorBody(InvalidId));
      }
      if body.Malformed? {
        return Response(StatusBadRequest, ErrorBody(MalformedBody));
      }
      var req := body.value;
      var found := Lookup(db, id.value, fault);
      if found.None? {
        return Response(StatusNotFound, ErrorBody(NotFound));
      }
      var task := found.value;
      task := task.(title := req.title);
      task := task.(description := req.description);
      task := task.(status := req.status);
      task := task.(dueDate := Some(req.dueDate));
      if fault == WriteFault {
        return Response(StatusInternalServerError, ErrorBody(UpdateFailed));
      }
      db := Save(db, task);
      resp := Response(StatusOK, TaskBody(ToJson(task)));
    }

    method DeleteTask(verb: string, path: string, fault: Fault) returns (resp: Response)
      requires Valid(db)
      modifies this
      ensures Valid(db)
      ensures Outcome(resp, db) == DeleteTaskOutcome(old(db), verb, path, fault)
    {
      if verb != MethodDelete {
        return Response(StatusMethodNotAllowed, NoBody);
      }
      var parts := Split(path, '/');
      if |parts| != 3 {
        return Response(StatusBadRequest, ErrorBody(InvalidUrl));
      }
      var id := Atoi(parts[2]);
      if id.None? {
        return Response(StatusBadRequest, ErrorBody(InvalidId));
      }
      var found := Lookup(db, id.value, fault);
      if found.None? {
        return Response(StatusNotFound, ErrorBody(NotFound));
      }
      if fault == WriteFault {
        return Response(StatusInternalServerError, ErrorBody(DeleteFailed));
      }
      db := Delete(db, found.value.id);
      resp := Response(StatusNoContent, NoBody);
    }

    method ToggleTask(verb: string, path: string, fault: Fault) returns (resp: Response)
      requires Valid(db)
      modifies this
      ensures Valid(db)
      ensures Outcome(resp, db) == ToggleTaskOutcome(old(db), verb, path, fault)
    {
      if verb != MethodPatch {
        return Response(StatusMethodNotAllowed, NoBody);
      }
      var parts := Split(path, '/');
      if |parts| != 4 || parts[3] != "toggle" {
        return Response(StatusBadRequest, ErrorBody(InvalidUrl));
      }
      var id := Atoi(parts[2]);
      if id.None? {
        return Response(StatusBadRequest, ErrorBody(InvalidId));
      }
      var found := Lookup(db, id.value, fault);
      if found.None? {
        return Response(StatusNotFound, ErrorBody(NotFound));
      }
      var task := found.value;
      task := task.(status := !task.status);
      if fault == WriteFault {
        return Response(StatusInternalServerError, ErrorBody(UpdateFailed));
      }
      db := Save(db, task);
      resp := Response(StatusOK, TaskBody(ToJson(task)));
    }
  }
}
