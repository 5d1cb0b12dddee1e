/** The parts of net/http the service uses: method names, status codes and the response it writes. */
module Http {
  import opened Models

  const MethodGet := "GET"
  const MethodPost := "POST"
  const MethodPut := "PUT"
  const MethodPatch := "PATCH"
  const MethodDelete := "DELETE"

  const StatusOK := 200
  const StatusCreated := 201
  const StatusNoContent := 204
  const StatusMovedPermanently := 301
  const StatusBadRequest := 400
  const StatusNotFound := 404
  const StatusMethodNotAllowed := 405
  const StatusInternalServerError := 500

  /** Which of the handlers' error messages is written; the message text itself is not modelled. */
  datatype ErrorKind =
    | InvalidUrl
    | InvalidId
    | MalformedBody
    | TitleRequired
    | NotFound
    | ListFailed
    | CreateFailed
    | UpdateFailed
    | DeleteFailed

  datatype Body =
    | NoBody
    | ErrorBody(kind: ErrorKind)
    | TaskBody(task: TaskJson)
    | TaskListBody(tasks: seq<TaskJson>)
    | PageBody(tasks: seq<TaskJson>)
    | HealthBody
    | Location(url: string)

  datatype Response = Response(status: int, body: Body)
}
