# lab_gear in Dafny

A model of the lab_gear homelab inventory: the HTTP server that keeps machine
records (a store keyed by id, five JSON handlers, bearer-token authentication,
request logging, configuration from the environment) and the two Terraform
providers that drive it — `lab_gear` (client, `lab_gear_machine` resource,
`lab_gear_machines` data source, provider) and `lab` (client, `machine`
resource, provider and its configuration precedence).

Modules follow the program:

- `Common` — Go's `strings` helpers used by the core (`HasPrefix`, `TrimPrefix`, `TrimSpace` over the `unicode.IsSpace` set, `TrimRight` of one character).
- `Models` — the `Machine` record and the set of valid kinds.
- `Http` — status codes (section 15 of RFC 9110), responses and bodies.
- `Store` — the SQLite table as a map from id to row; a `MachineStore` class whose methods change it, each proved against a function of the old table.
- `Handlers` — the five API handlers as a `Handler` class over a `MachineStore`, each method proved against a specification function of the table, with lemmas about those functions.
- `Auth`, `RequestLogger`, `ServerConfig` — the middleware and `loadConfig`.
- `GearClient`, `GearResource`, `GearDataSource`, `GearProvider` — the lab_gear provider.
- `LabClient`, `LabResource`, `LabProvider`, `ProviderConfig` — the lab provider.
- `Framework` — the part of the Terraform plugin framework the resources rely on: null/unknown/known values, diagnostics, provider data, and what a Create/Read/Update/Delete step does to the tracked state.
- `EndToEnd` — each provider composed with the server's handlers.

A resource operation is modelled as a function from the plan or prior state and
the reply its HTTP client received to a `Step`: the request it sends, what it
writes to state, and its diagnostics. The network round trip in between is
the caller's business, so the reply is a parameter; `EndToEnd` supplies it from
the server's specification functions.

Time is a parameter: a timestamp is an integer count of nanoseconds, and the
store keeps it cut to the second, as it stores RFC 3339 text without
fractional seconds (section 5.6 of RFC 3339). New ids are a parameter in place
of `uuid.New()`. JSON decoding is an oracle: a decoded value or a failure.

## Model

| member | source | states |
|---|---|---|
| Models.ValidKindsAreSix | internal/models/models.go:22-30 | exactly six kinds are valid, and a kind is valid iff it is one of proxmox, nas, sbc, bare_metal, workstation, laptop |
| Models.KindIsCaseSensitive | internal/models/models.go:23-30 | validity is by exact string: the empty kind and case variants of valid kinds are refused |
| Store.ToSecond | internal/db/db.go:75-76 | a stored timestamp is the instant cut down to a whole second, never later than the instant and less than a second before it |
| Store.MachineStore.constructor | internal/db/db.go:18-33 | a store over a new database file is empty and well formed |
| Store.MachineStore.Create | internal/db/db.go:69-79 | inserting adds the row with timestamps cut to the second when the id is new, and otherwise fails with a duplicate error and leaves the table unchanged |
| Store.MachineStore.GetByID | internal/db/db.go:82-87 | returns the row under the id, or not-found when there is none; a found row carries the requested id |
| Store.MachineStore.List | internal/db/db.go:90-118 | returns every row matching the kind filter (all rows for the empty filter) exactly once, and no other; a nil slice exactly when nothing matched |
| Store.MachineStore.Update | internal/db/db.go:122-143 | replaces the mutable fields and updated_at of an existing row, keeping its created_at; an absent id is not-found and changes nothing |
| Store.MachineStore.Delete | internal/db/db.go:147-160 | removes an existing row; an absent id is not-found and changes nothing |
| Store.CreateThenGet | internal/db/db.go:69-87 | a created row reads back with timestamps cut to the second (unchanged when already whole seconds), and a second insert of the same id fails |
| Store.UpdateSemantics | internal/db/db.go:120-143 | update keeps the id and created_at of the row, sets every other field from the argument, and leaves every other row alone |
| Store.DeleteThenGet | internal/db/db.go:145-160 | after a delete the id is not found and every other row reads as before |
| Store.IdsOfMember | internal/db/db.go:90-118 | an id is in the id set of a sequence iff some element carries it |
| Store.DistinctIdsCount | internal/db/db.go:90-118 | a sequence of rows with distinct ids has as many ids as rows |
| Store.ListAllHasEveryRow | internal/db/db.go:99-118 | the unfiltered listing has one element per stored row |
| Store.DistinctMultiplicity | internal/db/db.go:90-118 | in a listing with distinct ids each row appears once or not at all |
| Store.ListingsArePermutations | internal/db/db.go:90-118 | any two listings of the same table and filter are permutations of each other (the order of SQL rows is not fixed) |
| Store.ListingOfNothing | internal/db/db.go:95-118 | when no row matches the filter the listing is empty |
| Handlers.Validate | internal/handlers/handlers.go:66-73 | a request passes iff name, kind, make and model are non-empty and the kind is valid; a refusal has a non-empty message |
| Handlers.Handler.constructor | internal/handlers/handlers.go:17-21 | the handler serves the given store |
| Handlers.Handler.CreateMachine | internal/handlers/handlers.go:53-86 | the response and new table are those of the create specification: 413 for an oversized body, 400 for bad JSON or a refused record, otherwise a stored record with the minted id and created_at = updated_at = now, answered 201 |
| Handlers.Handler.ListMachines | internal/handlers/handlers.go:89-106 | an invalid kind filter is 400; otherwise 200 with a listing of the matching rows, never null |
| Handlers.Handler.GetMachine | internal/handlers/handlers.go:109-121 | 200 with the stored row, or 404 "machine not found" |
| Handlers.Handler.UpdateMachine | internal/handlers/handlers.go:124-168 | the response and new table are those of the update specification: 404 before the body is read, then 413/400 as for create, otherwise the record under the path's id with the old created_at and updated_at = now, answered 200 |
| Handlers.Handler.DeleteMachine | internal/handlers/handlers.go:171-183 | 204 with no body and the row removed, or 404 and nothing changed |
| Handlers.CreateOutcomes | internal/handlers/handlers.go:53-86 | create stores a record iff the body decoded, validated and the id is new; every failure leaves the table as it was and carries an error message; 413, 400 and 400 for the three kinds of failure |
| Handlers.CreateSuccess | internal/handlers/handlers.go:75-85 | a successful create answers 201 with the sent fields, the minted id and equal timestamps, and a later get returns it with timestamps cut to the second |
| Handlers.UpdateOutcomes | internal/handlers/handlers.go:137-167 | on an existing record, update answers 200 iff the body decoded and validated; 413 for an oversized body, 400 for bad JSON or a refused record, each with an error message and the table unchanged |
| Handlers.InvalidKindIsBadRequest | internal/handlers/handlers.go:70-73 | an invalid kind is 400 on create, on update of an existing record, and as a list filter |
| Handlers.EmptyListIsEmptyArray | internal/handlers/handlers.go:102-105 | the list body is never null; an empty table answers 200 with an empty array |
| Handlers.AbsentIsNotFound | internal/handlers/handlers.go:109-183 | get and delete of an absent id are 404 "machine not found" and change nothing |
| Handlers.UpdateAbsentIsNotFound | internal/handlers/handlers.go:124-135 | update of an absent id is 404 whatever the body, and changes nothing |
| Handlers.UpdateKeepsIdentity | internal/handlers/handlers.go:158-167 | a successful update keeps the path's id and the old created_at whatever the body says, sets updated_at, and touches no other row |
| Handlers.DeleteThenGetIsNotFound | internal/handlers/handlers.go:171-183 | a successful delete answers 204 with no body, and the next get is 404 |
| Handlers.HandlersKeepInvariant | internal/handlers/handlers.go:53-183 | no handler stores a record validation would refuse, and the table stays keyed by id |
| Handlers.CreateKeepsInvariant | internal/handlers/handlers.go:53-86 | create keeps every stored row valid and keyed by its id |
| Handlers.UpdateKeepsInvariant | internal/handlers/handlers.go:124-168 | update keeps every stored row valid and keyed by its id |
| Handlers.Walkthrough | internal/handlers/handlers.go:53-183 | create, get, update and delete of one machine compose as the API promises: same id throughout, created_at kept, 404 after delete |
| Auth.GateIsExactMatch | internal/middleware/auth.go:14-26 | a request is forwarded iff its Authorization header is exactly "Bearer " followed by the token; every other request gets the 401 JSON error |
| Auth.NamedRejections | internal/middleware/auth.go:9-26 | a missing header, Basic credentials, an empty bearer token, a lower-case scheme and a doubled space are refused; the right header is accepted |
| Auth.TokensDoNotMix | internal/middleware/auth.go:14-26 | a header built for one token is refused by a server holding a different one |
| RequestLogger.StatusRecorder.constructor | internal/middleware/slog.go:39 | a new recorder has recorded no status and passed nothing on |
| RequestLogger.StatusRecorder.WriteHeader | internal/middleware/slog.go:16-19 | records the code and passes the call on |
| RequestLogger.StatusRecorder.Write | internal/middleware/slog.go:21-26 | records 200 if no status was recorded yet, and passes the call on |
| RequestLogger.ReplayAppend | internal/middleware/slog.go:16-26 | the recorded status after two runs of calls is the second run replayed from the first's status |
| RequestLogger.Serve | internal/middleware/slog.go:31-55 | every writer call reaches the real writer; a skipped request logs nothing; any other logs one entry with method, path, the recorded status (200 if none), duration and remote address |
| RequestLogger.WritesKeepStatus | internal/middleware/slog.go:21-26 | writes never change a status already recorded |
| RequestLogger.DefaultsTo200 | internal/middleware/slog.go:42-45 | a handler that never calls WriteHeader is logged as 200 |
| RequestLogger.LastWriteHeaderWins | internal/middleware/slog.go:16-19 | the logged status is the last explicit WriteHeader code |
| ServerConfig.LoadConfig | cmd/server/main.go:29-44 | an error iff API_TOKEN is empty, with zero results; otherwise the token, DB_PATH if set and ./lab_gear.db if not, PORT if set and 8080 if not, each default independently of the other |
| ServerConfig.LoadConfigOutcomes | cmd/server/main.go:29-44 | without a token the other variables do not matter; with only a token the defaults apply |
| GearClient.CreateMachine | terraform-provider-lab_gear/internal/apiclient/client.go:59-70 | success iff the reply is 201 with a decodable body, returning the decoded record; any other status is an unexpected-status error |
| GearClient.GetMachine | terraform-provider-lab_gear/internal/apiclient/client.go:74-88 | 404 is "no record" and not an error; 200 with a decodable body is the record; other statuses are errors |
| GearClient.UpdateMachine | terraform-provider-lab_gear/internal/apiclient/client.go:91-105 | 200 with a decodable body is the record; 404 is the not-found error; other statuses are errors |
| GearClient.DeleteMachine | terraform-provider-lab_gear/internal/apiclient/client.go:108-118 | no error iff the reply is 204 or 404 |
| GearClient.RequestShapes | terraform-provider-lab_gear/internal/apiclient/client.go:42-118 | method, URL and body of each of the four requests; every request carries the bearer token and a JSON content type |
| GearClient.NotFoundIsReadThreeWays | terraform-provider-lab_gear/internal/apiclient/client.go:59-118 | a 404 is "absent" to get, an error to update, success to delete, and an unexpected status to create |
| GearResource.MachineToState | terraform-provider-lab_gear/internal/resources/machine.go:220-232 | the state written from a record holds exactly that record, all attributes known |
| GearResource.StateRoundTrip | terraform-provider-lab_gear/internal/resources/machine.go:220-232 | record to state to request record is the identity, a fully known model survives the trip the other way, and prior state does not show through |
| GearResource.MachineResource.constructor | terraform-provider-lab_gear/internal/resources/machine.go:92-105 | a new resource has no client |
| GearResource.MachineResource.Configure | terraform-provider-lab_gear/internal/resources/machine.go:92-105 | no provider data keeps the client; lab_gear data sets it; anything else is the unexpected-type diagnostic |
| GearResource.MachineResource.Create | terraform-provider-lab_gear/internal/resources/machine.go:107-133 | posts the planned record; state is set to the returned record iff the client succeeded, else nothing is written and the create error is reported |
| GearResource.MachineResource.Read | terraform-provider-lab_gear/internal/resources/machine.go:135-155 | gets the state's id; removes state iff the server answered 404; sets state to the record on success; reports the read error otherwise |
| GearResource.MachineResource.Update | terraform-provider-lab_gear/internal/resources/machine.go:157-187 | puts the plan under the prior state's id; state is set to the returned record iff the client succeeded, else the update error |
| GearResource.MachineResource.Delete | terraform-provider-lab_gear/internal/resources/machine.go:189-198 | deletes the state's id; no diagnostic iff the client reported success |
| GearResource.MachineResource.ImportState | terraform-provider-lab_gear/internal/resources/machine.go:201-217 | gets the imported id; state holds the record on success; 404 is "Machine not found"; a client error is the import error |
| GearResource.ReadTransitions | terraform-provider-lab_gear/internal/resources/machine.go:142-151 | a 404 drops the tracked state without a diagnostic; any status but 200 and 404 keeps it and reports an error |
| GearResource.FailedCreateTracksNothing | terraform-provider-lab_gear/internal/resources/machine.go:126-129 | when the client fails, nothing is tracked and a diagnostic is reported |
| GearDataSource.MachinesDataSource.constructor | terraform-provider-lab_gear/internal/datasources/machines.go:80-93 | a new data source has no client |
| GearDataSource.MachinesDataSource.Configure | terraform-provider-lab_gear/internal/datasources/machines.go:80-93 | as for the resource: no data keeps the client, lab_gear data sets it, anything else is a diagnostic |
| GearDataSource.MachinesDataSource.Read | terraform-provider-lab_gear/internal/datasources/machines.go:95-126 | lists with the configured kind or ""; an error writes nothing and reports it; otherwise the state keeps the kind and holds one entry per listed record, in order, each exactly that record |
| GearProvider.Configure | terraform-provider-lab_gear/internal/provider/provider.go:50-80 | a known non-empty attribute wins over the environment; a missing endpoint or token is its own diagnostic and configures nothing; otherwise both resources and data sources get the same client |
| GearProvider.OnlyTheResourceIsRegistered | terraform-provider-lab_gear/internal/provider/provider.go:82-90 | the provider registers the machine resource and no data source |
| LabClient.NewClient | terraform-provider-lab/internal/labapi/client.go:45-58 | refuses an endpoint that is empty after trimming white space; otherwise the base URL is the trimmed endpoint without trailing slashes and the key is kept |
| LabClient.DoJson | terraform-provider-lab/internal/labapi/client.go:91-131 | a reply with another status than expected is an API error carrying status and body; an empty body is success without a record; a body is decoded only when asked, and a failure to decode is an error |
| LabClient.ExpectedStatuses | terraform-provider-lab/internal/labapi/client.go:60-89 | create expects 201, get and update 200, delete 204; any other status is an API error with the raw body |
| LabClient.EmptyAndMalformedBodies | terraform-provider-lab/internal/labapi/client.go:122-130 | an empty success body yields the zero record; a malformed body is a decode error for get but ignored by delete |
| LabClient.RequestHeaders | terraform-provider-lab/internal/labapi/client.go:60-109 | every request carries the bearer key and accepts JSON; only requests with a body set a content type; the URL is the base URL plus the machines path |
| LabClient.BlankEndpointsAreRefused | terraform-provider-lab/internal/labapi/client.go:45-49 | an empty or all-blank endpoint is refused |
| LabClient.TrailingSlashIsRemoved | terraform-provider-lab/internal/labapi/client.go:51-53 | a trailing slash is removed from the endpoint |
| LabClient.SlashOnlyEndpointIsAccepted | terraform-provider-lab/internal/labapi/client.go:46-57 | "/" passes the emptiness check and leaves an empty base URL |
| LabResource.ConversionsRoundTrip | terraform-provider-lab/internal/resources/machine.go:204-277 | record to state and back loses only the three server-owned fields; a model with known required attributes and no unknown optional one comes back with null optionals still null |
| LabResource.ServerFieldsAreNeverSent | terraform-provider-lab/internal/resources/machine.go:204-277 | id, created_at and updated_at of a model never reach the request; state takes them from the record |
| LabResource.UnknownIsSentAsAbsent | terraform-provider-lab/internal/resources/machine.go:212-235 | an unknown optional attribute is sent as absent, like a null one |
| LabResource.MachineResource.constructor | terraform-provider-lab/internal/resources/machine.go:93-105 | a new resource has no client |
| LabResource.MachineResource.Configure | terraform-provider-lab/internal/resources/machine.go:93-105 | no provider data keeps the client; lab data sets it; anything else is a diagnostic |
| LabResource.MachineResource.Create | terraform-provider-lab/internal/resources/machine.go:107-127 | without a client only "Provider not configured"; otherwise posts the converted plan, and state is set to the returned record iff the client succeeded |
| LabResource.MachineResource.Read | terraform-provider-lab/internal/resources/machine.go:129-154 | without a client only "Provider not configured"; a 404 API error removes state without a diagnostic; success sets the record; any other error is reported |
| LabResource.MachineResource.Update | terraform-provider-lab/internal/resources/machine.go:156-176 | puts the converted plan under the plan's id; state is set iff the client succeeded |
| LabResource.MachineResource.Delete | terraform-provider-lab/internal/resources/machine.go:178-198 | no diagnostic iff the client succeeded or reported a 404 API error |
| LabResource.MachineResource.ImportState | terraform-provider-lab/internal/resources/machine.go:200-202 | import sends nothing and writes a state holding only the id |
| LabResource.NotFoundMeansGone | terraform-provider-lab/internal/resources/machine.go:141-197 | a 404 on read or on delete ends the tracking of the record without a diagnostic |
| ProviderConfig.SettingMeaning | terraform-provider-lab/internal/config/provider_config.go:8-20 | a non-blank explicit value wins, trimmed; otherwise the trimmed environment value; the result is trimmed, and empty iff both are blank |
| ProviderConfig.Precedence | terraform-provider-lab/internal/config/provider_config.go:8-20 | endpoint and key each follow the explicit-over-environment rule; nothing set gives two empty values |
| ProviderConfig.Independence | terraform-provider-lab/internal/config/provider_config.go:8-20 | the endpoint does not depend on the key inputs and the key not on the endpoint inputs |
| ProviderConfig.SlashIsKept | terraform-provider-lab/internal/config/provider_config.go:12-14 | resolution trims white space only; a trailing slash survives |
| LabProvider.Configure | terraform-provider-lab/internal/provider/provider.go:54-106 | a missing endpoint and a missing key are reported, each with its attribute path, and then nothing is configured; otherwise resources and data sources get the same client, the one NewClient builds from the resolved settings |
| LabProvider.Connect | terraform-provider-lab/internal/provider/provider.go:98-105 | with a non-blank resolved endpoint the client is built without a diagnostic |
| Framework.AfterDelete | terraform-provider-lab_gear/internal/resources/machine.go:189-198 | a delete stops tracking the record iff it reported no error |
| Common.TrimPrefix | internal/middleware/auth.go:17 | with the prefix present the result is what follows it; otherwise the input unchanged |
| Common.LeadingSpaces | terraform-provider-lab/internal/config/provider_config.go:9-16 | the number of leading white-space characters: all of them are space and the next is not |
| Common.TrailingSpaces | terraform-provider-lab/internal/config/provider_config.go:9-16 | the number of trailing white-space characters: all of them are space and the one before is not |
| Common.TrimSpaceShape | terraform-provider-lab/internal/config/provider_config.go:9-16 | TrimSpace returns a slice of its input with only white space cut at both ends, and neither end of a non-empty result is white space |
| Common.TrimSpaceEmpty | terraform-provider-lab/internal/config/provider_config.go:12-16 | the trimmed string is empty iff the input is all white space |
| Common.TrimSpaceIdempotent | terraform-provider-lab/internal/config/provider_config.go:9-16 | trimming twice is trimming once |
| Common.TrimRightChar | terraform-provider-lab/internal/labapi/client.go:52 | the result is a prefix of the input, only slashes are cut, and it does not end in one |
| EndToEnd.GearCreateAdoptsServerRecord | terraform-provider-lab_gear/internal/resources/machine.go:107-133 | a lab_gear create against the server is answered 201, the server stores the planned fields under the minted id, and the tracked state is exactly that record |
| EndToEnd.GearReadAfterOutOfBandDelete | terraform-provider-lab_gear/internal/resources/machine.go:142-151 | after the record is deleted on the server, a refresh drops it from state without a diagnostic |
| EndToEnd.GearUpdateKeepsId | terraform-provider-lab_gear/internal/resources/machine.go:157-187 | a lab_gear update is answered 200 and the tracked id stays the prior one, with the planned fields |
| EndToEnd.DeleteOfAbsentSucceeds | terraform-provider-lab/internal/resources/machine.go:178-198 | deleting a record the server does not have succeeds and ends tracking in both providers |
| EndToEnd.LabReadOfAbsentRemoves | terraform-provider-lab/internal/resources/machine.go:141-147 | a lab refresh of a record the server does not have drops it without a diagnostic |
| EndToEnd.LabCreateTurnsNullIntoEmpty | terraform-provider-lab/internal/resources/machine.go:249-259 | an optional attribute left null in the plan comes back from this server as the known empty string |
| EndToEnd.RunningServerRefusesBareBearer | internal/middleware/auth.go:14-26 | a server that started has a non-empty token, so "Bearer " with nothing after it is refused |

## Left out

- The SQLite engine, WAL mode, the schema migration, `Close` and `Ping` (`internal/db/db.go`): the table is a map from id to row; a failing database is not modelled, so the 500 responses of the handlers are unreachable in the model.
- Handlers.Handler.UpdateMachine: the 500 path after a successful lookup cannot be reached without a concurrent delete, and concurrency is not modelled.
- RFC 3339 formatting and parsing of timestamps (section 5.6 of RFC 3339): a timestamp is an integer number of nanoseconds, stored cut to the second; the text formatter used by the lab client is a parameter.
- JSON encoding and decoding and `http.MaxBytesReader`: the request body arrives already classified as decoded, malformed or too large; response bodies are values, not bytes.
- `uuid.New()` and `time.Now()`: the new id and the current time are parameters.
- Integer width: ram_gb is a Go `int` (`int64` in the providers), so a JSON value beyond 2^63-1 is a decoding error in the source, while the model's `Parsed` accepts any integer; no proved property depends on the width.
- Reopening an existing database file: `CREATE TABLE IF NOT EXISTS` keeps its rows, while the model's store always starts empty, as over a new file.
- `float64` arithmetic: storage_tb is an opaque 64-bit pattern that is only copied.
- `subtle.ConstantTimeCompare`: modelled as string equality; timing is not modelled.
- `Health`, the OpenAPI document and `docs.go`, the Prometheus metrics, `main` functions, routing, graceful shutdown and the provider `main.go` files: outside the modelled core.
- Terraform plumbing (schemas, plan modifiers, `Metadata`, `Schema`, reading the plan and writing the state, the detail text of diagnostics): a resource receives its plan or state as a value and returns a `Step`; only diagnostic summaries and attribute paths are kept.
- The log line's format and level and the bytes written: an entry holds the five logged values; `Write`'s return values are not modelled.
- ListMachines of the lab_gear client: the data source calls it, but it is not part of the client source, so its result is a parameter of GearDataSource.MachinesDataSource.Read.
- GearResource.MachineResource.Create: the lab_gear resource methods require a configured client; the source dereferences a nil client and panics, which the model does not represent. The same holds for Read, Update, Delete and ImportState.
- GearDataSource.MachinesDataSource.Read: requires a configured client, for the same reason.
- The lab_gear data source expects an API client type that the provider never stores there, and the provider registers no data source; the model uses one client type for both and keeps the empty registration.
- LabProvider.Connect: `NewClient` cannot fail on an endpoint that is non-empty after trimming, so the "Unable to create lab API client" path is never taken; the model keeps the branch, and the contract of Connect shows that it is never taken.

## Observations

- The lab provider sends an unset optional attribute as absent, but this server fills it with its zero value and returns it, so the state ends with the known empty string where the configuration had null (EndToEnd.LabCreateTurnsNullIntoEmpty).
- An endpoint of "/" passes the lab client's emptiness check and leaves an empty base URL (LabClient.SlashOnlyEndpointIsAccepted).
- In the lab_gear Update the id copied from prior state is overwritten by machineToState with the id the server returns; against this server the two agree (EndToEnd.GearUpdateKeepsId).
- The bearer scheme is matched case-sensitively and with exactly one space, while section 11.1 of RFC 9110 makes authentication scheme names case-insensitive (Auth.NamedRejections).
