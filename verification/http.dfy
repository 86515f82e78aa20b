/** The parts of an Echo request and response the access-control core
    reads or writes: request headers in, status code and JSON body out. */
module Http {

  const StatusOK := 200
  const StatusBadRequest := 400
  const StatusUnauthorized := 401
  const StatusNotFound := 404
  const StatusInternalServerError := 500

  /** An incoming request, reduced to its headers. */
  datatype Request = Request(headers: map<string, string>)

  /** `c.JSON(status, echo.Map{...})` with string-valued entries. */
  datatype Reply = Reply(status: int, body: map<string, string>)

  /** `Header.Get("Authorization")`: an absent header reads as the empty
      string. */
  function Authorization(req: Request): (h: string)
    ensures "Authorization" !in req.headers ==> h == ""
    ensures "Authorization" in req.headers ==> h == req.headers["Authorization"]
  {
    if "Authorization" in req.headers then req.headers["Authorization"] else ""
  }

  /** The single reply every failed authentication produces. */
  const Unauthorised := Reply(StatusUnauthorized, map["message" := "unauthorised"])

  /** The reply for a storage failure. */
  const InternalError := Reply(StatusInternalServerError, map["message" := "internal server error"])
}
