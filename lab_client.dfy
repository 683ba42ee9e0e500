/** The lab provider's API client
    (terraform-provider-lab/internal/labapi/client.go): base URL
    normalisation, request construction, and doJSON's single expected-status
    check. Sending the request is left to the caller: every operation takes
    the reply it got as a parameter. */
module LabClient {
  import opened Common
  import Models
  import Http

  /** The wire record: optional fields are pointers, absent from the JSON
      when nil; timestamps are the server's strings. */
  datatype Machine = Machine(
    id: string,
    name: string,
    kind: string,
    make: string,
    model: string,
    cpu: Option<string>,
    ramGb: Option<int>,
    storageTb: Option<Models.Float64>,
    location: Option<string>,
    serial: Option<string>,
    notes: Option<string>,
    createdAt: string,
    updatedAt: string)

  const ZeroMachine: Machine := Machine("", "", "", "", "", None, None, None, None, None, None, "", "")

  datatype Client = Client(baseUrl: string, apiKey: string)

  /** NewClient: surrounding white space is trimmed, an endpoint with nothing
      left is refused, and every trailing '/' is then removed. The key is kept
      as given. */
  function NewClient(endpoint: string, apiKey: string): (r: Result<Client, string>)
    ensures r.Err? <==> AllSpace(endpoint)
    ensures r.Err? ==> r.error == "endpoint cannot be empty"
    ensures r.Ok? ==> r.value.apiKey == apiKey
    ensures r.Ok? ==> var t := TrimSpace(endpoint); var b := r.value.baseUrl;
                      |b| <= |t| && t[..|b|] == b && (forall i :: |b| <= i < |t| ==> t[i] == '/')
                      && (b == [] || b[|b| - 1] != '/')
  {
    TrimSpaceEmpty(endpoint);
    var trimmed := TrimSpace(endpoint);
    if trimmed == "" then Err("endpoint cannot be empty")
    else Ok(Client(TrimRightChar(trimmed, '/'), apiKey))
  }

  type Request = Http.Request<Machine>

  const MachinesPath: string := "/api/v1/machines"

  /** doJSON's request: Authorization and Accept always, Content-Type only
      when a body is encoded. */
  function NewRequest(c: Client, verb: string, path: string, body: Option<Machine>): Request {
    var always := map["Authorization" := "Bearer " + c.apiKey, "Accept" := Http.ApplicationJson];
    Http.Request(verb, c.baseUrl + path,
                 if body.Some? then always["Content-Type" := Http.ApplicationJson] else always,
                 body)
  }

  function CreateRequest(c: Client, m: Machine): Request {
    NewRequest(c, "POST", MachinesPath, Some(m))
  }

  function GetRequest(c: Client, id: string): Request {
    NewRequest(c, "GET", MachinesPath + "/" + id, None)
  }

  function UpdateRequest(c: Client, id: string, m: Machine): Request {
    NewRequest(c, "PUT", MachinesPath + "/" + id, Some(m))
  }

  function DeleteRequest(c: Client, id: string): Request {
    NewRequest(c, "DELETE", MachinesPath + "/" + id, None)
  }

  /** What came back: no response (building, sending or reading failed), or a
      status, the raw body, and what json.Unmarshal makes of that body. */
  datatype Reply = TransportFailure | Reply(status: int, payload: string, parsed: Json<Machine>)

  datatype LabError =
    | ApiError(statusCode: int, body: string)   // APIError{StatusCode, Body}
    | TransportError
    | DecodeError

  /** doJSON after the request is sent. `decodeInto` is whether the caller
      passed an output target; None means the target was left untouched. */
  function DoJson(expected: int, decodeInto: bool, reply: Reply): (r: Result<Option<Machine>, LabError>)
    ensures reply.Reply? && reply.status != expected ==> r == Err(ApiError(reply.status, reply.payload))
    ensures r.Ok? <==> reply.Reply? && reply.status == expected
                       && (!decodeInto || reply.payload == "" || reply.parsed.Decoded?)
    ensures r.Ok? && r.value.Some? <==> reply.Reply? && reply.status == expected && decodeInto
                                         && reply.payload != "" && reply.parsed.Decoded?
    ensures r.Ok? && r.value.Some? ==> r.value.value == reply.parsed.value
    ensures r.Err? && r.error.ApiError? ==> reply.Reply? && r.error.statusCode == reply.status != expected
  {
    match reply
    case TransportFailure => Err(TransportError)
    case Reply(status, payload, parsed) =>
      if status != expected then Err(ApiError(status, payload))
      else if !decodeInto || payload == "" then Ok(None)
      else match parsed
        case Decoded(m) => Ok(Some(m))
        case Malformed => Err(DecodeError)
  }

  /** The record a wrapper returns: the decoded one, or the zero Machine it
      started from when nothing was decoded. */
  function Filled(r: Result<Option<Machine>, LabError>): Result<Machine, LabError> {
    match r
    case Ok(Some(m)) => Ok(m)
    case Ok(None) => Ok(ZeroMachine)
    case Err(e) => Err(e)
  }

  function CreateMachine(reply: Reply): Result<Machine, LabError> {
    Filled(DoJson(Http.StatusCreated, true, reply))
  }

  function GetMachine(reply: Reply): Result<Machine, LabError> {
    Filled(DoJson(Http.StatusOK, true, reply))
  }

  function UpdateMachine(reply: Reply): Result<Machine, LabError> {
    Filled(DoJson(Http.StatusOK, true, reply))
  }

  function DeleteMachine(reply: Reply): Option<LabError> {
    match DoJson(Http.StatusNoContent, false, reply)
    case Ok(_) => None
    case Err(e) => Some(e)
  }

  /** Each wrapper expects exactly one status (create 201, get and update
      200, delete 204); every other status, 404 included, is an APIError with
      that status and the raw body. */
  lemma ExpectedStatuses(reply: Reply)
    requires reply.Reply?
    ensures CreateMachine(reply).Err? && CreateMachine(reply).error.ApiError? <==> reply.status != 201
    ensures GetMachine(reply).Err? && GetMachine(reply).error.ApiError? <==> reply.status != 200
    ensures UpdateMachine(reply).Err? && UpdateMachine(reply).error.ApiError? <==> reply.status != 200
    ensures DeleteMachine(reply).None? <==> reply.status == 204
    ensures reply.status != 204 ==> DeleteMachine(reply) == Some(ApiError(reply.status, reply.payload))
    ensures reply.status != 200 ==> GetMachine(reply) == Err(ApiError(reply.status, reply.payload))
  {
  }

  /** With the expected status, an empty body is success without decoding,
      and a malformed non-empty one is a decode error. */
  lemma EmptyAndMalformedBodies(parsed: Json<Machine>, payload: string)
    requires payload != ""
    ensures GetMachine(Reply(200, "", parsed)) == Ok(ZeroMachine)
    ensures CreateMachine(Reply(201, "", parsed)) == Ok(ZeroMachine)
    ensures GetMachine(Reply(200, payload, Malformed)) == Err(DecodeError)
    ensures DeleteMachine(Reply(204, payload, Malformed)).None?
  {
  }

  /** Every request carries the key and asks for JSON; only the two with a
      body declare a content type. */
  lemma RequestHeaders(c: Client, m: Machine, id: string)
    ensures forall r :: r in {CreateRequest(c, m), GetRequest(c, id), UpdateRequest(c, id, m), DeleteRequest(c, id)} ==>
              r.headers["Authorization"] == "Bearer " + c.apiKey && r.headers["Accept"] == "application/json"
              && ("Content-Type" in r.headers <==> r.body.Some?)
    ensures CreateRequest(c, m).url == c.baseUrl + "/api/v1/machines"
    ensures UpdateRequest(c, id, m).url == c.baseUrl + "/api/v1/machines/" + id
  {
    assert (c.baseUrl + MachinesPath) + "/" + id == c.baseUrl + (MachinesPath + "/" + id);
  }

  /** An endpoint with nothing but white space is refused. */
  lemma BlankEndpointsAreRefused(apiKey: string)
    ensures NewClient("", apiKey).Err? && NewClient(" \t\n", apiKey).Err?
  {
    assert AllSpace(" \t\n");
  }

  /** A trailing slash is removed. */
  lemma TrailingSlashIsRemoved(apiKey: string)
    ensures NewClient("http://h/", apiKey) == Ok(Client("http://h", apiKey))
  {
    var e := "http://h/";
    assert !IsSpace(e[0]) && !IsSpace(e[|e| - 1]);
    assert TrimLeftSpace(e) == e;
    assert TrimRightSpace(e) == e;
    assert e[..|e| - 1] == "http://h";
    assert TrimRightChar("http://h", '/') == "http://h";
  }

  /** The edge normalisation leaves open: an endpoint of slashes only passes
      the emptiness check, which comes first, and leaves an empty base URL. */
  lemma SlashOnlyEndpointIsAccepted(apiKey: string)
    ensures NewClient("/", apiKey) == Ok(Client("", apiKey))
  {
    var e := "/";
    assert !IsSpace(e[0]);
    assert TrimLeftSpace(e) == e;
    assert TrimRightSpace(e) == e;
    assert e[..0] == "";
  }
}
