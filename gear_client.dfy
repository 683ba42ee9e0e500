/** The lab_gear provider's API client
    (terraform-provider-lab_gear/internal/apiclient/client.go): request
    construction and, for each operation, the mapping from the HTTP reply to
    an outcome. Sending the request is left to the caller: every operation
    takes the reply it got as a parameter. */
module GearClient {
  import opened Common
  import Models
  import Http

  /** The record as this client sends and receives it: the server's record
      without its timestamps. */
  datatype Machine = Machine(
    id: string,
    name: string,
    kind: string,
    make: string,
    model: string,
    cpu: string,
    ramGb: int,
    storageTb: Models.Float64,
    location: string,
    serial: string,
    notes: string)

  /** The zero Machine, what decoding a JSON object with none of these
      fields yields. */
  const ZeroMachine: Machine := Machine("", "", "", "", "", "", 0, Models.ZeroFloat, "", "", "")

  /** endpoint and token, fixed when NewClient builds the client. */
  datatype Client = Client(endpoint: string, token: string)

  type Request = Http.Request<Machine>

  const MachinesPath: string := "/api/v1/machines"

  /** doRequest: the endpoint is prefixed verbatim, and every request carries
      the Bearer token and a JSON content type, whether or not it has a body. */
  function NewRequest(c: Client, verb: string, path: string, body: Option<Machine>): Request {
    Http.Request(verb, c.endpoint + path,
                 map["Authorization" := "Bearer " + c.token, "Content-Type" := Http.ApplicationJson],
                 body)
  }

  function CreateRequest(c: Client, m: Machine): Request {
    NewRequest(c, "POST", MachinesPath, Some(m))
  }

  function GetRequest(c: Client, id: string): Request {
    NewRequest(c, "GET", MachinesPath + "/" + id, None)
  }

  /** The target is taken from the record itself. */
  function UpdateRequest(c: Client, m: Machine): Request {
    NewRequest(c, "PUT", MachinesPath + "/" + m.id, Some(m))
  }

  function DeleteRequest(c: Client, id: string): Request {
    NewRequest(c, "DELETE", MachinesPath + "/" + id, None)
  }

  /** What came back: no response at all (the request could not be built,
      encoded or sent), or a status and what decoding the body as a Machine
      gives. */
  datatype Reply = TransportFailure | Reply(status: int, body: Json<Machine>)

  datatype ClientError =
    | Transport              // the error from building or sending the request
    | UnexpectedStatus(status: int)
    | NotFoundOnUpdate       // "update machine %q: not found"
    | BadBody                // the decoder's error

  /** json.NewDecoder(resp.Body).Decode(&out). */
  function DecodeBody(body: Json<Machine>): Result<Machine, ClientError> {
    match body
    case Decoded(m) => Ok(m)
    case Malformed => Err(BadBody)
  }

  /** CreateMachine: only 201 with a decodable body succeeds. */
  function CreateMachine(reply: Reply): (r: Result<Machine, ClientError>)
    ensures r.Ok? <==> reply.Reply? && reply.status == Http.StatusCreated && reply.body.Decoded?
    ensures r.Ok? ==> r.value == reply.body.value
    ensures reply.Reply? && reply.status != Http.StatusCreated ==> r == Err(UnexpectedStatus(reply.status))
  {
    match reply
    case TransportFailure => Err(Transport)
    case Reply(status, body) =>
      if status != Http.StatusCreated then Err(UnexpectedStatus(status)) else DecodeBody(body)
  }

  /** GetMachine: 404 is "absent" and not an error; 200 carries the record;
      any other status is an error. */
  function GetMachine(reply: Reply): (r: Result<Option<Machine>, ClientError>)
    ensures r == Ok(None) <==> reply.Reply? && reply.status == Http.StatusNotFound
    ensures r.Ok? && r.value.Some? <==> reply.Reply? && reply.status == Http.StatusOK && reply.body.Decoded?
    ensures r.Ok? && r.value.Some? ==> r.value.value == reply.body.value
    ensures reply.Reply? && reply.status != Http.StatusNotFound && reply.status != Http.StatusOK
            ==> r == Err(UnexpectedStatus(reply.status))
  {
    match reply
    case TransportFailure => Err(Transport)
    case Reply(status, body) =>
      if status == Http.StatusNotFound then Ok(None)
      else if status != Http.StatusOK then Err(UnexpectedStatus(status))
      else match DecodeBody(body)
        case Ok(m) => Ok(Some(m))
        case Err(e) => Err(e)
  }

  /** UpdateMachine: unlike GetMachine, a 404 is an error. */
  function UpdateMachine(reply: Reply): (r: Result<Machine, ClientError>)
    ensures r.Ok? <==> reply.Reply? && reply.status == Http.StatusOK && reply.body.Decoded?
    ensures r.Ok? ==> r.value == reply.body.value
    ensures reply.Reply? && reply.status == Http.StatusNotFound ==> r == Err(NotFoundOnUpdate)
    ensures reply.Reply? && reply.status != Http.StatusNotFound && reply.status != Http.StatusOK
            ==> r == Err(UnexpectedStatus(reply.status))
  {
    match reply
    case TransportFailure => Err(Transport)
    case Reply(status, body) =>
      if status == Http.StatusNotFound then Err(NotFoundOnUpdate)
      else if status != Http.StatusOK then Err(UnexpectedStatus(status))
      else DecodeBody(body)
  }

  /** DeleteMachine: 204 and 404 both mean the record is gone; the body is
      never read. */
  function DeleteMachine(reply: Reply): (r: Option<ClientError>)
    ensures r.None? <==> reply.Reply? && (reply.status == Http.StatusNoContent || reply.status == Http.StatusNotFound)
    ensures reply.Reply? && r.Some? ==> r.value == UnexpectedStatus(reply.status)
  {
    match reply
    case TransportFailure => Some(Transport)
    case Reply(status, _) =>
      if status == Http.StatusNotFound || status == Http.StatusNoContent then None
      else Some(UnexpectedStatus(status))
  }

  /** Every request names the collection or one member of it, and carries
      the same two headers. */
  lemma RequestShapes(c: Client, m: Machine, id: string)
    ensures CreateRequest(c, m).verb == "POST" && CreateRequest(c, m).url == c.endpoint + "/api/v1/machines"
    ensures GetRequest(c, id).verb == "GET" && GetRequest(c, id).url == c.endpoint + "/api/v1/machines/" + id
    ensures UpdateRequest(c, m).verb == "PUT" && UpdateRequest(c, m).url == c.endpoint + "/api/v1/machines/" + m.id
    ensures DeleteRequest(c, id).verb == "DELETE" && DeleteRequest(c, id).url == c.endpoint + "/api/v1/machines/" + id
    ensures forall r :: r in {CreateRequest(c, m), GetRequest(c, id), UpdateRequest(c, m), DeleteRequest(c, id)} ==>
              r.headers.Keys == {"Authorization", "Content-Type"}
              && r.headers["Authorization"] == "Bearer " + c.token
              && r.headers["Content-Type"] == "application/json"
    ensures CreateRequest(c, m).body == Some(m) && UpdateRequest(c, m).body == Some(m)
    ensures GetRequest(c, id).body.None? && DeleteRequest(c, id).body.None?
  {
    assert (c.endpoint + MachinesPath) + "/" + id == c.endpoint + (MachinesPath + "/" + id);
    assert (c.endpoint + MachinesPath) + "/" + m.id == c.endpoint + (MachinesPath + "/" + m.id);
  }

  /** The three ways a 404 is read: absent for get, an error for update,
      success for delete. */
  lemma NotFoundIsReadThreeWays(body: Json<Machine>)
    ensures GetMachine(Reply(Http.StatusNotFound, body)) == Ok(None)
    ensures UpdateMachine(Reply(Http.StatusNotFound, body)) == Err(NotFoundOnUpdate)
    ensures DeleteMachine(Reply(Http.StatusNotFound, body)).None?
    ensures CreateMachine(Reply(Http.StatusNotFound, body)) == Err(UnexpectedStatus(Http.StatusNotFound))
  {
  }
}
