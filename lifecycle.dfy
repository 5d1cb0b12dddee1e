/**
 * The task lifecycle across handlers: what one request leaves behind and
 * what the next request on the same id then sees.
 */
module Lifecycle {
  import opened Wrappers
  import opened Text
  import opened Models
  import opened Http
  import opened Store
  import opened Handlers
  import opened Server

  /** The row a successful create writes: the next id, the request's fields, not done, not deleted. */
  function CreatedRow(db: Db, req: CreateTaskRequest): Task {
    Task(db.nextId, req.title, req.description, false, Some(req.dueDate), false)
  }

  /**
   * A successful create takes a fresh id, answers with the new task, adds it
   * to the tasks already listed and nothing else, and a later GET of its path
   * returns the title, description and due date that were submitted, with
   * status false.
   */
  lemma CreateThenGet(db: Db, req: CreateTaskRequest, fault: Fault)
    requires Valid(db) && db.nextId <= MaxInt
    requires CreateTaskOutcome(db, MethodPost, Decoded(req), fault).resp.status == StatusCreated
    ensures db.nextId !in db.rows
    ensures CreateTaskOutcome(db, MethodPost, Decoded(req), fault) ==
              Outcome(Response(StatusCreated, TaskBody(ToJson(CreatedRow(db, req)))),
                      Db(db.rows[db.nextId := CreatedRow(db, req)], db.nextId + 1))
    ensures multiset(Find(CreateTaskOutcome(db, MethodPost, Decoded(req), fault).db)) ==
              multiset(Find(db)) + multiset{CreatedRow(db, req)}
    ensures GetTaskOutcome(CreateTaskOutcome(db, MethodPost, Decoded(req), fault).db,
                           MethodGet, TaskPath(db.nextId), NoFault).resp ==
              Response(StatusOK, TaskBody(TaskJson(db.nextId, req.title, req.description, false, Some(req.dueDate))))
  {
    var task := Unsaved(req.title, req.description, false, Some(req.dueDate));
    FindAfterCreate(db, task);
    TaskPathParts(db.nextId);
  }

  /**
   * A list that succeeds holds one entry per visible task, each as stored:
   * every visible task is listed, nothing else is, and no id twice.
   */
  lemma ListShowsVisible(db: Db, fault: Fault)
    requires Valid(db) && fault != ReadFault
    ensures ListTasksOutcome(db, MethodGet, fault).resp.status == StatusOK
    ensures var tasks := ListTasksOutcome(db, MethodGet, fault).resp.body.tasks;
            && |tasks| == Count(db)
            && (forall id :: Visible(db, id) ==> ToJson(db.rows[id]) in tasks)
            && (forall i :: 0 <= i < |tasks| ==> Visible(db, tasks[i].id) && tasks[i] == ToJson(db.rows[tasks[i].id]))
            && (forall i, j :: 0 <= i < j < |tasks| ==> tasks[i].id != tasks[j].id)
  {
  }

  /**
   * On the path of a visible task, with a working store, each single-task
   * handler succeeds: get answers 200 with the task as stored, update 200,
   * delete 204, and toggle on the toggle path 200.
   */
  lemma VisibleIdSucceeds(db: Db, id: int, req: UpdateTaskRequest)
    requires Valid(db) && Visible(db, id) && id <= MaxInt
    ensures GetTaskOutcome(db, MethodGet, TaskPath(id), NoFault).resp ==
              Response(StatusOK, TaskBody(ToJson(db.rows[id])))
    ensures UpdateTaskOutcome(db, TaskPath(id), Decoded(req), NoFault).resp.status == StatusOK
    ensures DeleteTaskOutcome(db, MethodDelete, TaskPath(id), NoFault).resp.status == StatusNoContent
    ensures ToggleTaskOutcome(db, MethodPatch, TogglePath(id), NoFault).resp.status == StatusOK
  {
    TaskPathParts(id);
    TogglePathParts(id);
  }

  /** A body that does not decode, or that has an empty title, is a 400 and inserts nothing. */
  lemma CreateRejectsBadBody(db: Db, body: Decoded<CreateTaskRequest>, fault: Fault)
    requires body.Malformed? || body.value.title == ""
    ensures CreateTaskOutcome(db, MethodPost, body, fault) ==
              Reject(db, StatusBadRequest, if body.Malformed? then MalformedBody else TitleRequired)
  {
  }

  /**
   * A successful toggle changes nothing but the status of that one row, and
   * toggling the same path again restores the original store.
   */
  lemma ToggleTwiceRestores(db: Db, path: string, fault: Fault)
    requires Valid(db)
    requires ToggleTaskOutcome(db, MethodPatch, path, fault).resp.status == StatusOK
    ensures ToggleTarget(path).Id? && Visible(db, ToggleTarget(path).id)
    ensures ToggleTaskOutcome(db, MethodPatch, path, fault).db ==
              Db(db.rows[ToggleTarget(path).id := db.rows[ToggleTarget(path).id].(status := !db.rows[ToggleTarget(path).id].status)],
                 db.nextId)
    ensures ToggleTaskOutcome(ToggleTaskOutcome(db, MethodPatch, path, fault).db, MethodPatch, path, NoFault).resp.status == StatusOK
    ensures ToggleTaskOutcome(ToggleTaskOutcome(db, MethodPatch, path, fault).db, MethodPatch, path, NoFault).db == db
  {
  }

  /**
   * After a successful delete the row stays in the table but is hidden:
   * it is missing from the list, every other visible task is still listed,
   * and Get, Update, Delete and Toggle on that id all answer 404, whatever
   * fault the later request meets.
   */
  lemma DeleteHides(db: Db, path: string, fault: Fault, itemPath: string, togglePath: string,
                    req: UpdateTaskRequest, later: Fault)
    requires Valid(db)
    requires DeleteTaskOutcome(db, MethodDelete, path, fault).resp.status == StatusNoContent
    requires ItemTarget(itemPath) == ItemTarget(path) && ToggleTarget(togglePath) == ItemTarget(path)
    ensures ItemTarget(path).Id? && ItemTarget(path).id in DeleteTaskOutcome(db, MethodDelete, path, fault).db.rows
    ensures forall t :: t in Find(DeleteTaskOutcome(db, MethodDelete, path, fault).db) ==> t.id != ItemTarget(path).id
    ensures forall t :: t in Find(db) && t.id != ItemTarget(path).id ==>
              t in Find(DeleteTaskOutcome(db, MethodDelete, path, fault).db)
    ensures GetTaskOutcome(DeleteTaskOutcome(db, MethodDelete, path, fault).db, MethodGet, itemPath, later) ==
              Reject(DeleteTaskOutcome(db, MethodDelete, path, fault).db, StatusNotFound, NotFound)
    ensures UpdateTaskOutcome(DeleteTaskOutcome(db, MethodDelete, path, fault).db, itemPath, Decoded(req), later) ==
              Reject(DeleteTaskOutcome(db, MethodDelete, path, fault).db, StatusNotFound, NotFound)
    ensures DeleteTaskOutcome(DeleteTaskOutcome(db, MethodDelete, path, fault).db, MethodDelete, itemPath, later) ==
              Reject(DeleteTaskOutcome(db, MethodDelete, path, fault).db, StatusNotFound, NotFound)
    ensures ToggleTaskOutcome(DeleteTaskOutcome(db, MethodDelete, path, fault).db, MethodPatch, togglePath, later) ==
              Reject(DeleteTaskOutcome(db, MethodDelete, path, fault).db, StatusNotFound, NotFound)
  {
  }

  /** Update decodes the body before it looks the task up: a bad body is 400 even for an id that does not exist. */
  lemma UpdateDecodesBeforeLookup(db: Db, path: string, fault: Fault)
    requires ItemTarget(path).Id?
    ensures UpdateTaskOutcome(db, path, Malformed, fault) == Reject(db, StatusBadRequest, MalformedBody)
  {
  }

  /**
   * A successful update overwrites title, description, status and due date
   * of a visible row, keeps its id and its visibility, and a later GET of
   * the same path returns what the update answered.
   */
  lemma UpdateOverwrites(db: Db, path: string, req: UpdateTaskRequest, fault: Fault)
    requires Valid(db)
    requires UpdateTaskOutcome(db, path, Decoded(req), fault).resp.status == StatusOK
    ensures ItemTarget(path).Id? && Visible(db, ItemTarget(path).id)
    ensures UpdateTaskOutcome(db, path, Decoded(req), fault).db ==
              Db(db.rows[ItemTarget(path).id :=
                   Task(ItemTarget(path).id, req.title, req.description, req.status, Some(req.dueDate), false)],
                 db.nextId)
    ensures GetTaskOutcome(UpdateTaskOutcome(db, path, Decoded(req), fault).db, MethodGet, path, NoFault).resp ==
              UpdateTaskOutcome(db, path, Decoded(req), fault).resp
  {
  }

  /**
   * Update does not reject an empty title, so a visible task can end up with
   * one, although create requires a title.
   */
  lemma UpdateAcceptsEmptyTitle(db: Db, id: int, description: string, due: Time, done: bool)
    requires Valid(db) && Visible(db, id) && id <= MaxInt
    ensures UpdateTaskOutcome(db, TaskPath(id), Decoded(UpdateTaskRequest("", description, due, done)), NoFault).resp.status
              == StatusOK
    ensures First(UpdateTaskOutcome(db, TaskPath(id), Decoded(UpdateTaskRequest("", description, due, done)), NoFault).db, id)
              == Some(Task(id, "", description, done, Some(due), false))
  {
    TaskPathParts(id);
  }

  /**
   * The path is checked before the store is consulted: with a bad path the
   * response is the same 400 whatever the store holds and whatever fault it
   * would meet, and the store is left alone.
   */
  lemma BadPathIgnoresStore(db: Db, other: Db, path: string, body: Decoded<UpdateTaskRequest>, fault: Fault, otherFault: Fault)
    ensures ItemTarget(path).BadPath? ==>
              GetTaskOutcome(db, MethodGet, path, fault) == Reject(db, StatusBadRequest, ItemTarget(path).kind) &&
              GetTaskOutcome(other, MethodGet, path, otherFault).resp == GetTaskOutcome(db, MethodGet, path, fault).resp &&
              UpdateTaskOutcome(db, path, body, fault) == Reject(db, StatusBadRequest, ItemTarget(path).kind) &&
              UpdateTaskOutcome(other, path, body, otherFault).resp == UpdateTaskOutcome(db, path, body, fault).resp &&
              DeleteTaskOutcome(db, MethodDelete, path, fault) == Reject(db, StatusBadRequest, ItemTarget(path).kind) &&
              DeleteTaskOutcome(other, MethodDelete, path, otherFault).resp == DeleteTaskOutcome(db, MethodDelete, path, fault).resp
    ensures ToggleTarget(path).BadPath? ==>
              ToggleTaskOutcome(db, MethodPatch, path, fault) == Reject(db, StatusBadRequest, ToggleTarget(path).kind) &&
              ToggleTaskOutcome(other, MethodPatch, path, otherFault).resp == ToggleTaskOutcome(db, MethodPatch, path, fault).resp
  {
  }

  /** A missing or soft-deleted id is 404 with the store unchanged, for each of the four single-task handlers. */
  lemma MissingIdNotFound(db: Db, path: string, togglePath: string, body: UpdateTaskRequest, fault: Fault)
    requires ItemTarget(path).Id? && !Visible(db, ItemTarget(path).id)
    requires ToggleTarget(togglePath) == ItemTarget(path)
    ensures GetTaskOutcome(db, MethodGet, path, fault) == Reject(db, StatusNotFound, NotFound)
    ensures UpdateTaskOutcome(db, path, Decoded(body), fault) == Reject(db, StatusNotFound, NotFound)
    ensures DeleteTaskOutcome(db, MethodDelete, path, fault) == Reject(db, StatusNotFound, NotFound)
    ensures ToggleTaskOutcome(db, MethodPatch, togglePath, fault) == Reject(db, StatusNotFound, NotFound)
  {
  }

  /** A failed write leaves the store as it was, in every handler that writes; the failure is a 500 once the row was found. */
  lemma WriteFailureChangesNothing(db: Db, verb: string, path: string,
                                   create: Decoded<CreateTaskRequest>, update: Decoded<UpdateTaskRequest>)
    ensures CreateTaskOutcome(db, verb, create, WriteFault).db == db
    ensures UpdateTaskOutcome(db, path, update, WriteFault).db == db
    ensures DeleteTaskOutcome(db, verb, path, WriteFault).db == db
    ensures ToggleTaskOutcome(db, verb, path, WriteFault).db == db
    ensures verb == MethodPost && create.Decoded? && create.value.title != "" ==>
              CreateTaskOutcome(db, verb, create, WriteFault).resp == Response(StatusInternalServerError, ErrorBody(CreateFailed))
    ensures ItemTarget(path).Id? && Visible(db, ItemTarget(path).id) && update.Decoded? ==>
              UpdateTaskOutcome(db, path, update, WriteFault).resp == Response(StatusInternalServerError, ErrorBody(UpdateFailed))
    ensures verb == MethodDelete && ItemTarget(path).Id? && Visible(db, ItemTarget(path).id) ==>
              DeleteTaskOutcome(db, verb, path, WriteFault).resp == Response(StatusInternalServerError, ErrorBody(DeleteFailed))
    ensures verb == MethodPatch && ToggleTarget(path).Id? && Visible(db, ToggleTarget(path).id) ==>
              ToggleTaskOutcome(db, verb, path, WriteFault).resp == Response(StatusInternalServerError, ErrorBody(UpdateFailed))
  {
  }

  /**
   * A failed read: the list answers 500, while the single-task handlers,
   * which treat every lookup error as absence, answer 404.
   */
  lemma ReadFailure(db: Db, path: string)
    ensures ListTasksOutcome(db, MethodGet, ReadFault) == Reject(db, StatusInternalServerError, ListFailed)
    ensures ItemTarget(path).Id? ==> GetTaskOutcome(db, MethodGet, path, ReadFault) == Reject(db, StatusNotFound, NotFound)
  {
  }

  /** The method guards: a wrong method is a bare 405 and leaves the store alone. */
  lemma WrongMethodRejected(db: Db, verb: string, path: string, body: Decoded<CreateTaskRequest>, fault: Fault)
    ensures verb != MethodGet ==> ListTasksOutcome(db, verb, fault) == Outcome(Response(StatusMethodNotAllowed, NoBody), db)
    ensures verb != MethodPost ==> CreateTaskOutcome(db, verb, body, fault) == Outcome(Response(StatusMethodNotAllowed, NoBody), db)
    ensures verb != MethodGet ==> GetTaskOutcome(db, verb, path, fault) == Outcome(Response(StatusMethodNotAllowed, NoBody), db)
    ensures verb != MethodDelete ==> DeleteTaskOutcome(db, verb, path, fault) == Outcome(Response(StatusMethodNotAllowed, NoBody), db)
    ensures verb != MethodPatch ==> ToggleTaskOutcome(db, verb, path, fault) == Outcome(Response(StatusMethodNotAllowed, NoBody), db)
  {
  }

  /**
   * One task's life through the whole service, from the mux onwards: POST
   * `/tasks` creates it not done, PATCH on its toggle path marks it done,
   * DELETE on its path answers 204, and a GET of its path is then 404.
   */
  lemma WalkThrough(db: Db, req: CreateTaskRequest, accept: string, form: string, update: Decoded<UpdateTaskRequest>)
    requires Valid(db) && db.nextId <= MaxInt && req.title != ""
    ensures var id := db.nextId;
            var created := Serve(db, Request(MethodPost, "/tasks", accept, form, Decoded(req), update), NoFault);
            var toggled := Serve(created.db, Request(MethodPatch, TogglePath(id), accept, form, Decoded(req), update), NoFault);
            var deleted := Serve(toggled.db, Request(MethodDelete, TaskPath(id), accept, form, Decoded(req), update), NoFault);
            var fetched := Serve(deleted.db, Request(MethodGet, TaskPath(id), accept, form, Decoded(req), update), NoFault);
            && created.resp == Response(StatusCreated, TaskBody(TaskJson(id, req.title, req.description, false, Some(req.dueDate))))
            && toggled.resp == Response(StatusOK, TaskBody(TaskJson(id, req.title, req.description, true, Some(req.dueDate))))
            && deleted.resp == Response(StatusNoContent, NoBody)
            && fetched.resp == Response(StatusNotFound, ErrorBody(NotFound))
  {
    var id := db.nextId;
    var created := Serve(db, Request(MethodPost, "/tasks", accept, form, Decoded(req), update), NoFault);
    assert created == CreateTaskOutcome(db, MethodPost, Decoded(req), NoFault);
    CreateThenGet(db, req, NoFault);
    assert Visible(created.db, id);
    TogglePathParts(id);
    ToggleRoutes(MethodPatch, TogglePath(id), accept, form, form);
    var toggled := Serve(created.db, Request(MethodPatch, TogglePath(id), accept, form, Decoded(req), update), NoFault);
    assert toggled == ToggleTaskOutcome(created.db, MethodPatch, TogglePath(id), NoFault);
    assert Visible(toggled.db, id);
    TaskPathParts(id);
    ItemRoutes(MethodDelete, TaskPath(id), accept, form);
    var deleted := Serve(toggled.db, Request(MethodDelete, TaskPath(id), accept, form, Decoded(req), update), NoFault);
    assert deleted == DeleteTaskOutcome(toggled.db, MethodDelete, TaskPath(id), NoFault);
    assert !Visible(deleted.db, id);
    ItemRoutes(MethodGet, TaskPath(id), accept, form);
  }
}
