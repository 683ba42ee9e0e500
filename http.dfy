/** HTTP vocabulary shared by the inventory server and the API clients: the
    status codes that the code uses (section 15 of RFC 9110) and the server's
    response as a value. */
module Http {
  import opened Common
  import opened Models

  const StatusOK := 200                    // RFC 9110 section 15.3.1
  const StatusCreated := 201               // RFC 9110 section 15.3.2
  const StatusNoContent := 204             // RFC 9110 section 15.3.5
  const StatusBadRequest := 400            // RFC 9110 section 15.5.1
  const StatusUnauthorized := 401          // RFC 9110 section 15.5.2
  const StatusNotFound := 404              // RFC 9110 section 15.5.5
  const StatusContentTooLarge := 413       // RFC 9110 section 15.5.14
  const StatusInternalServerError := 500   // RFC 9110 section 15.6.1

  const ApplicationJson := "application/json"

  /** What the server writes after the status line. */
  datatype Body =
    | NoBody                            // nothing is written (204)
    | ErrorBody(error: string)          // {"error": "<message>"}
    | Record(machine: Machine)          // one machine object
    | Records(machines: seq<Machine>)   // a JSON array of machine objects
    | JsonNull                          // `null`, what a nil Go slice encodes to

  datatype Response = Response(status: int, contentType: Option<string>, body: Body)

  /** writeJSON: sets Content-Type to application/json, then status, then body. */
  function WriteJson(status: int, body: Body): Response {
    Response(status, Some(ApplicationJson), body)
  }

  /** writeError: a JSON object whose only field is `error`. */
  function WriteError(status: int, message: string): Response {
    WriteJson(status, ErrorBody(message))
  }

  /** An outgoing request as a client builds it: method, full URL, the
      headers it sets, and the record it encodes as the body, if any. */
  datatype Request<+B> = Request(verb: string, url: string, headers: map<string, string>, body: Option<B>)
}
