# Task service: router and task lifecycle

A model of a small task-management web service written in Go (net/http,
gorm, html/template). It covers the two parts of the service that make
decisions of their own:

- **The router** (`main.go`). The default `ServeMux` takes a request to one of
  four patterns: `/`, `/health`, `/tasks` and the subtree `/tasks/`. Under
  `/tasks/` the closure splits the path on `/` with `strings.Split`. It picks
  a handler, or a bare 404/405, or a 301 redirect, from:
  - the number of parts and whether the fourth part is `toggle`;
  - the request method;
  - the `_method` form field, for POST only.
- **The task lifecycle** (`handlers/tasks.go`, `models/task.go`,
  `insertDummyData` in `main.go`). There are six JSON handlers: list,
  create, get, update, delete and toggle. They share one store.
  - Each handler checks things in a fixed order: method, path shape, id,
    body, lookup, write.
  - Each failure has its own status code.
  - Deletion is soft: the row stays in the table with its deletion marker
    set, and every read hides it.

The store is abstract (`Store.Db`): a map from id to `Task` holding every
row ever created, plus the next id the primary-key sequence hands out.
Reads (`Find`, `First`, `Count`) skip soft-deleted rows. The list query has
no ORDER BY, so the database may return the rows in any order. The model
lists them in id order, but every property about the list is stated without
depending on that order: by membership, as a multiset, or as "no id twice". Responses carry `Models.TaskJson`, which has
no deletion field, so the soft-delete marker is never written out, as
`json:"-"` on `DeletedAt` ensures (models/task.go:18).

Each handler appears twice:
- a function `Handlers.XOutcome(db, …)` that gives the response and the new
  store;
- a method of the class `Handlers.TaskService`, whose field `db` is the
  shared store handle. The method does the same checks step by step, assigns
  the fetched task's fields one at a time as the Go code does, and is proved
  to produce the function's outcome.

The lemmas in `Lifecycle` reason about the functions. `Server.Serve` chains
the router and the handler functions, so properties can be stated for a
whole request.

Inputs the service gets from outside are parameters:
- the request body, as the JSON decoder left it: `Decoded(value)` or
  `Malformed`;
- the `_method` form value;
- the Accept header;
- a `Fault` naming the store failure this request meets, if any:
  `NoFault`, `ReadFault` or `WriteFault`.

Where the service's documented behaviour and the code disagree, the model
follows the code:
- `UpdateTask` has no method guard. Called directly, it accepts any method.
  Through the router it is reached only by PUT, or by POST with `_method=PUT`.
- `UpdateTask` accepts an empty title. So a live task can have an empty
  title (`Lifecycle.UpdateAcceptsEmptyTitle`), although the documented
  behaviour is that a live title is never empty.
- `PATCH /tasks/1` is answered 405 by the router. Toggling is only offered on
  `/tasks/1/toggle` (`Server.PatchOnTaskPathNotAllowed`), not as a 404/200 on
  the task path.
- Every error from `First` is answered 404, including a store failure and not
  only a missing row (`Lifecycle.ReadFailure`).
- The `/tasks/` redirect (main.go:101-104) can never fire. `/tasks/` splits
  into `["", "tasks", ""]`, so it is taken as a single-task path, and GET on
  it receives GetTask's 400 for an invalid id (`Server.RedirectOnlyAtRoot`,
  `Server.GetTasksSlashIsBadRequest`).

## Model

| member | source | states |
|---|---|---|
| Text.Split | main.go:62 | `strings.Split` on one separator: one part more than there are separators, and no part contains the separator |
| Text.JoinOfSplit | main.go:62 | joining the parts of a split with the separator gives back the original string |
| Text.SplitOfJoin | handlers/tasks.go:105 | splitting a join of separator-free parts gives back those parts, so split and join are inverse |
| Text.Atoi | handlers/tasks.go:113 | `strconv.Atoi`: nothing after the optional sign fails (the empty string, a sign alone); a non-digit after the sign fails; otherwise the signed decimal value is the result exactly when it fits a 64-bit int, and overflow fails |
| Text.AtoiOfItoa | handlers/tasks.go:113 | every 64-bit integer written in decimal parses back to itself |
| Models.JsonOmitsDeletion | models/task.go:10-19 | two tasks have the same JSON exactly when they differ at most in the soft-delete marker, which is tagged `json:"-"` |
| Store.Find | handlers/tasks.go:39 | the list holds only visible rows, each as stored; every visible row is in it; no id appears twice |
| Store.Count | main.go:120 | the count is the number of visible ids, and it is zero exactly when no row is visible |
| Store.First | handlers/tasks.go:122 | a lookup finds a row exactly when the row exists and is not soft-deleted, and the row it finds is the stored one |
| Store.Create | models/task.go:11 | the store, not the caller, picks the id; that id has never been used by any row, live or deleted; the other fields are written as given; the next id increases; the store invariant is kept |
| Store.CreateAll | main.go:168 | a batch insert moves the next id on by the batch size and keeps the store invariant |
| Store.Save | handlers/tasks.go:174 | a full-row save replaces the row at the task's id, leaves every other row and the id counter as they were, and keeps the store invariant |
| Store.Delete | models/task.go:18 | soft delete: afterwards the row is hidden, every other row is unchanged, and no id leaves the table |
| Store.FindAfterCreate | handlers/tasks.go:83 | after a create the list holds, as a multiset, the tasks listed before plus the created task, and nothing else |
| Store.FindAfterCreateAll | main.go:168 | after a batch insert the list holds, as a multiset, the tasks listed before plus the batch with consecutive fresh ids |
| Handlers.ItemTarget | handlers/tasks.go:105-118 | a path whose split has other than three parts is an invalid URL; a third part that does not parse is an invalid id; otherwise the id is the parsed third part, within 64-bit range |
| Handlers.ToggleTarget | handlers/tasks.go:237-250 | a path that is not four parts ending in `toggle` is an invalid URL; a third part that does not parse is an invalid id; otherwise the id is the parsed third part |
| Handlers.Lookup | handlers/tasks.go:120-127 | a lookup finds a task exactly when the read works and the row is visible, and gives the stored row; every failure reads as absence |
| Handlers.ListTasksOutcome | handlers/tasks.go:30-49 | list never changes the store; 405 exactly for a method other than GET; 500 exactly for GET with a failed read; 200 exactly for GET with a working read, and then it answers the listed tasks |
| Handlers.CreateTaskOutcome | handlers/tasks.go:52-94 | create answers 201 exactly for POST with a decoded body, a non-empty title and a working write; every other answer leaves the store unchanged; the invariant is kept |
| Handlers.GetTaskOutcome | handlers/tasks.go:97-132 | get never changes the store; 405 exactly for a method other than GET; 200 exactly for GET on a good path whose id is visible, with a working read, and then the body is that stored task |
| Handlers.UpdateTaskOutcome | handlers/tasks.go:135-183 | update has no 405 (no method check); 200 exactly for a good path, a decoded body, a visible id and no fault, and then the row's title, description, status and due date are overwritten and nothing else changes; every other answer leaves the store unchanged |
| Handlers.DeleteTaskOutcome | handlers/tasks.go:186-226 | delete answers 405 exactly for a method other than DELETE; 204 exactly for DELETE on a good path whose id is visible, with no fault, and then the row is soft-deleted; every other answer leaves the store unchanged |
| Handlers.ToggleTaskOutcome | handlers/tasks.go:229-273 | toggle answers 405 exactly for a method other than PATCH; 200 exactly for PATCH on a good toggle path whose id is visible, with no fault, and then only that row's status is negated; every other answer leaves the store unchanged |
| Handlers.TaskService.ListTasks | handlers/tasks.go:30-49 | the method answers the list outcome for the current store |
| Handlers.TaskService.CreateTask | handlers/tasks.go:52-94 | the step-by-step handler produces the create outcome, both the response and the new store |
| Handlers.TaskService.GetTask | handlers/tasks.go:97-132 | the step-by-step handler (split, parse, lookup) answers the get outcome |
| Handlers.TaskService.UpdateTask | handlers/tasks.go:135-183 | the handler, which assigns the fields one by one, produces the update outcome |
| Handlers.TaskService.DeleteTask | handlers/tasks.go:186-226 | the handler produces the delete outcome |
| Handlers.TaskService.ToggleTask | handlers/tasks.go:229-273 | the handler, which negates the fetched status, produces the toggle outcome |
| Server.Match | main.go:29-108 | the mux picks the exact `/health` and `/tasks` patterns for those paths, the `/tasks/` subtree for every path under it, and the catch-all `/` for everything else |
| Server.RootRoute | main.go:29-37 | the `/` closure redirects to `/tasks` exactly for the root path, and answers 404 otherwise |
| Server.TasksRoute | main.go:46-59 | the `/tasks` closure: JSON list exactly for GET with Accept `application/json`, HTML page for any other GET, create exactly for POST, 405 otherwise |
| Server.TaskItemRoute | main.go:61-108 | the `/tasks/` closure: toggle exactly for PATCH on a four-part path ending in `toggle`; the other handlers only on three-part paths; a redirect only for `/tasks/`; any bare reply is 404 or 405 |
| Server.Route | main.go:29-108 | the health handler exactly for `/health`; list, page or create exactly for GET or POST on `/tasks`; single-task handlers only under `/tasks/` on three- or four-part paths; any bare reply is 404 or 405 |
| Server.Serve | main.go:29-108 | a request passed through the mux and into a handler keeps the store invariant |
| Server.TasksSlashParts | main.go:62 | `/tasks/` splits into `""`, `tasks`, `""` |
| Server.RedirectOnlyAtRoot | main.go:101-104 | the only path that is ever redirected is `/`, and it goes to `/tasks`; the `/tasks/` redirect is unreachable |
| Server.GetTasksSlashIsBadRequest | main.go:88-90 | GET `/tasks/` reaches GetTask, which answers 400 for an invalid id and leaves the store alone |
| Server.TasksRoutes | main.go:46-59 | on `/tasks`: JSON list exactly for GET with Accept equal to `application/json`, the HTML page for any other GET, create for POST, 405 for every other method |
| Server.RootRoutes | main.go:29-37 | a path the `/` closure receives is redirected when it is `/`, and otherwise answered 404 |
| Server.ItemRoutes | main.go:75-99 | on a three-part path: get exactly for GET; update exactly for PUT or POST with `_method` PUT; delete exactly for DELETE or POST with `_method` DELETE; 405 otherwise |
| Server.ToggleRoutes | main.go:64-72 | on a four-part path ending in `toggle`: toggle for PATCH, 405 for every other method, and the `_method` field has no effect |
| Server.OtherShapesNotFound | main.go:106-107 | under `/tasks/`, a path with neither shape is 404 for every method |
| Server.TrailingSlashNotFound | main.go:106-107 | a task path with a trailing slash (`/tasks/1/`) is 404 |
| Server.ExtraSegmentsNotFound | main.go:106-107 | a task path with two more segments (`/tasks/1/x/y`) is 404 |
| Server.TaskPathParts | handlers/tasks.go:105-118 | `/tasks/{id}` splits into three parts, and the handlers read back exactly that id |
| Server.TogglePathParts | handlers/tasks.go:237-250 | `/tasks/{id}/toggle` splits into four parts ending in `toggle`, and the toggle handler reads back exactly that id |
| Server.PatchOnTaskPathNotAllowed | main.go:88-97 | PATCH on `/tasks/{id}` is answered 405 by the router |
| Server.FormDeleteIsRejected | main.go:82-84 | POST with `_method=DELETE` is routed to DeleteTask; DeleteTask sees the real method POST, answers 405 and leaves the store alone |
| Server.FormPutIsUpdate | main.go:79-81 | POST with `_method=PUT` has exactly the effect of a PUT, since update checks no method |
| Server.SeedOutcome | main.go:117-169 | seeding keeps the invariant; it changes nothing when it fails or when a task is already visible |
| Server.InsertDummyData | main.go:117-169 | the step-by-step seeding produces the seeding outcome and its error result |
| Server.SeedIdempotent | main.go:124-126 | after a run without error, another run changes nothing, whatever fault it meets |
| Server.SeedOnEmpty | main.go:135-168 | on a store with no visible task, seeding lists exactly the five sample tasks (as a multiset) with consecutive fresh ids; only the first is done |
| Lifecycle.CreateThenGet | handlers/tasks.go:75-93 | create takes an unused id and answers 201 with the request's title, description and due date (never null), and status false; the list gains exactly that task; a later GET of its path returns the same fields |
| Lifecycle.ListShowsVisible | handlers/tasks.go:38-48 | a list with a working read answers 200 with one entry per visible task, each as stored: every visible task is listed, nothing else, no id twice, as many as the count |
| Lifecycle.VisibleIdSucceeds | handlers/tasks.go:97-273 | on the path of a visible task with a working store, get answers 200 with the stored task, update 200, delete 204, and toggle (on the toggle path) 200 |
| Lifecycle.CreateRejectsBadBody | handlers/tasks.go:61-72 | an undecodable body, or an empty title, is a 400 and inserts nothing |
| Lifecycle.ToggleTwiceRestores | handlers/tasks.go:253-272 | toggle changes only the status of that one row, and a second toggle restores the original store |
| Lifecycle.DeleteHides | handlers/tasks.go:210-225 | after delete answers 204, the row is kept but missing from the list, the other visible tasks are still listed, and get, update, delete and toggle on that id answer 404 |
| Lifecycle.UpdateDecodesBeforeLookup | handlers/tasks.go:153-166 | a bad body is 400 even when the id does not exist |
| Lifecycle.UpdateOverwrites | handlers/tasks.go:168-182 | update replaces title, description, status and due date of a visible row and keeps its id; a later GET returns what the update answered |
| Lifecycle.UpdateAcceptsEmptyTitle | handlers/tasks.go:168-172 | update with an empty title succeeds and leaves a visible task with an empty title |
| Lifecycle.BadPathIgnoresStore | handlers/tasks.go:105-118 | a bad path shape or id is a 400 that depends neither on the store nor on a fault, and leaves the store alone |
| Lifecycle.MissingIdNotFound | handlers/tasks.go:120-127 | a missing or soft-deleted id is 404 with the store unchanged in get, update, delete and toggle |
| Lifecycle.WriteFailureChangesNothing | handlers/tasks.go:83-88 | a failed write never changes the store; once the checks pass and the row is found, it is a 500 |
| Lifecycle.ReadFailure | handlers/tasks.go:39-44 | a failed read is 500 for the list, but 404 for get |
| Lifecycle.WrongMethodRejected | handlers/tasks.go:32-35 | a wrong method is a bare 405 with the store unchanged, for list, create, get, delete and toggle |
| Lifecycle.WalkThrough | main.go:46-99 | through the mux: POST `/tasks` creates a task not yet done; PATCH on its toggle path marks it done; DELETE on its path answers 204; a later GET of its path answers 404 |

## Left out

- Database connection and schema migration (`db/db.go`, `AutoMigrate`): process start-up and I/O. The model starts from a valid store value.
- SQL, and gorm's upkeep of `CreatedAt` and `UpdatedAt`: `Task` has no timestamp fields, so the model does not record when a row was written. With them, two toggles would restore every field except `UpdatedAt`.
- The exact behaviour of the id sequence: a failed insert here uses no id, whereas a real sequence may skip one. What the model keeps is that ids are unique and never reused.
- JSON encoding and decoding, `time.Time` parsing and error message texts. A decoded body is an input. Responses carry the kind of error, not its text.
- How `r.FormValue` consumes a form-encoded body before the JSON decoder runs: `_method` is an independent input.
- HTML template parsing and rendering (`handlers/web.go`). `Serve` models the page handler only as the same list read, with 500 on a failed read; a template execution error is not modelled.
- `ServeMux` path cleaning and its redirects, `ListenAndServe`, logging, and concurrent requests: each request is modelled as one atomic step on the store.
- Store.Find: the list query has no ORDER BY, so the source promises no listing order. The model lists in id order as one possible order. The lemmas about the list state membership, multisets and the absence of duplicates, so they hold for any order. The one exception is the 200 body of `Handlers.ListTasksOutcome`: it is the model's list in id order, whereas the real service may send the same entries in another order.
- Response headers other than the redirect's location (such as `Content-Type`).
