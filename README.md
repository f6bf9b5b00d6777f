# mcp-pyodide core, modelled in Dafny

mcp-pyodide is a Model Context Protocol server. It exposes a Pyodide-based
Python engine as five tools and exposes the engine's mounted directories as
resources. This project models and proves the parts of the server with real
logic:

- **Session table** (`streamable.dfy`). This is the streamable-HTTP binding's
  `transports` record, keyed by `mcp-session-id`. It covers the POST, GET and
  DELETE `/mcp` routes that create, use and close sessions, the `onclose`
  removal, `getClientIp`, and the enrichment of forwarded bodies with
  `params._meta = {ip, headers}`.
  - Each route is a pure state-transition function (`PostRoute`,
    `SessionRoute`, `OnClose`) over a `TableState`.
  - The lemmas are proved about those functions.
  - The class `SessionTable` holds the same state as mutable fields. Its
    methods are proved to follow the functions and to keep the table
    invariant.
  - A transport is opaque. What its `handleRequest` does with a request is an
    `Exchange` value:
    - the session id it assigns;
    - whether it closes meanwhile;
    - whether it completes or throws, and if it throws, whether headers were
      already sent.
  - Every `handleRequest` call is appended to a log, so "nothing is
    forwarded" and "forwarded to exactly this transport" can be stated.
- **Tool dispatcher and validators** (`handlers.dfy`, `validators.dfy`).
  - Each arktype validator is a schema value checked structurally over a
    JSON-value argument map.
  - The CallTool switch is `Dispatch`, which gives either one engine call, a
    thrown failure or a returned envelope.
  - `CallTool` adds the catch-all and returns the engine calls it made
    together with its result.
  - The engine is a function parameter.
  - `formatCallToolError` is the uninterpreted envelope constructor
    `CallToolError`.
  - The file also models the `TOOLS` list, ListTools, the two resource
    handlers and the registration of handlers on a `Server` object.
- **Resources** (`resources.dfy`). `ResourceClient.readResource` sits over an
  abstract URI resolver and an abstract engine read. `listResources` is a
  field projection.
- **Tool registry** (`tools.dfy`). These are the five constant descriptors.
  The lemmas in `tools.dfy` prove their shape: distinct names, and which
  properties each declares and requires. The lemmas that prove the
  descriptors agree with the dispatcher's case labels and validators are in
  `handlers.dfy` (`ToolAgreesWithCase`, `RegistryAgreesWithDispatcher`).

`json.dfy` holds the JSON values and the bits of JavaScript semantics the
code relies on: truthiness, `?.` property access and object spread.
`wrappers.dfy` holds Option and Result.

Behaviour of the code that the model keeps as written:

- `getClientIp` consults Express's `req.ip` between `x-real-ip` and the
  socket address. The first piece of `x-forwarded-for` is not trimmed.
- An empty `mcp-session-id` header is falsy. It is treated as no session id.
- `transports` is a plain object literal, so it inherits the properties of
  `Object.prototype` (`OBJECT_PROTOTYPE_KEYS`). A session id such as
  `constructor` or `toString` that is not a registered key still makes
  `transports[sessionId]` truthy. POST, GET and DELETE then call
  `.transport.handleRequest` on a value that has no `transport`. That throws
  before anything is forwarded, and the client gets 500 where an unknown id
  gets 404 (`PrototypeSessionIdInternalError`).
- On a known session, a truthy non-object `params` (a string, number or
  `true`) makes `params._meta = …` throw a TypeError under strict mode. The
  route answers 500 before forwarding anything.
- Spreading a JSON array body creates index-keyed fields (`{"0": …, "1": …}`)
  next to `params`. This means a JSON-RPC batch on a session is forwarded as
  an object.
- A transport that closes while it handles its own initialize request is
  still registered afterwards. Its `onclose` ran before the entry existed.
  So the table keeps a closed session (`CloseDuringInitializeLeavesEntry`).
- If `handleRequest` throws, or `handleRequest` completes without assigning a
  session id, nothing is registered.
- `randomUUID` is not modelled. The announced id is an input. If it collides
  with a registered id, the new entry replaces the old one, exactly as the
  record assignment does.
- Validation failures reach the client as arktype's own error list. The
  engine's failure text reaches the client through `formatCallToolError`.
- The read-media and upload tools take `imagePath`, not `path`. The tool
  names carry the `pyodide_` prefix.

## Model

| member | source | states |
|---|---|---|
| `JsonValues.Property` | src/streamable.ts:51 | `v?.key` is defined exactly for an object that has the key, and then is that field |
| `JsonValues.Spread` | src/streamable.ts:57-60 | spreading an object copies its fields; anything else contributes only index-keyed properties |
| `JsonValues.DecimalInjective` | src/streamable.ts:57-60 | distinct indices are spread under distinct keys: equal decimal forms mean equal numbers |
| `JsonValues.IndexedPropertiesLookup` | src/streamable.ts:57-60 | spreading an array or string puts item i under the key `String(i)`, and every key is such an index |
| `Tools.Descriptors` | src/tools/index.ts:3-85 | there are five descriptors and their names are pairwise distinct |
| `Tools.DescriptorsWellFormed` | src/tools/index.ts:3-85 | every descriptor has distinct property names, and every required name is one of its properties |
| `Tools.ExecuteRequiresOnlyCode` | src/tools/index.ts:7-20 | `pyodide_execute` has properties `code` and `timeout`, and requires exactly `code` |
| `Tools.GetMountPointsTakesNothing` | src/tools/index.ts:40-47 | `pyodide_get-mount-points` has no properties and no `required` list |
| `Tools.FileToolsTakeMountNameAndImagePath` | src/tools/index.ts:49-85 | read-media and upload-file-oss both have exactly `mountName` and `imagePath` as properties, both required |
| `ArgumentValidators.Diagnose` | src/handlers/index.ts:27-48 | one key yields a diagnostic iff it is missing and not optional, or present with the wrong type; the diagnostic names that key |
| `ArgumentValidators.Problems` | src/handlers/index.ts:27-48 | there are no diagnostics iff every schema key is met, and each diagnostic names a failing key of the schema |
| `ArgumentValidators.ProblemsNameEveryFailingKey` | src/handlers/index.ts:27-48 | every failing key is named by some diagnostic |
| `ArgumentValidators.Validate` | src/handlers/index.ts:81-84 | the argument map is accepted as it is iff it conforms; otherwise the non-empty diagnostics are returned |
| `ArgumentValidators.IsExecutePythonArgs` | src/handlers/index.ts:27-30 | the map is accepted iff `code` is a string and `timeout` is absent or a number; the typed result carries both values unchanged |
| `ArgumentValidators.IsInstallPythonPackagesArgs` | src/handlers/index.ts:32-34 | the map is accepted iff `package` is a string, which is carried unchanged; otherwise there is exactly one diagnostic for `package` |
| `ArgumentValidators.IsFileArgs` | src/handlers/index.ts:40-48 | the map is accepted iff `mountName` and `imagePath` are strings; both are carried unchanged; diagnostics name only those keys |
| `ArgumentValidators.IsReadMediaArgs` | src/handlers/index.ts:40-43 | the map is accepted iff `mountName` and `imagePath` are strings; both are carried unchanged; diagnostics name only those keys |
| `ArgumentValidators.IsUploadFileOssArgs` | src/handlers/index.ts:45-48 | the same as read-media, for the upload validator |
| `Handlers.Dispatch` | src/handlers/index.ts:71-121 | missing arguments throw "No arguments provided"; an engine call happens iff the name is a case label and the arguments pass that case's validator; other names return the unknown-tool envelope; a validation throw carries the validator's diagnostics |
| `Handlers.CallTool` | src/handlers/index.ts:69-125 | there is at most one engine call, and it is made exactly when dispatch decides so; the engine's value is returned only if the engine resolved; a rejection becomes the error envelope of its message |
| `Handlers.FormatCallToolError` | src/handlers/index.ts:118-124 | the envelope is an error result built from exactly the failure it is handed |
| `Handlers.NoArgumentsNoEngineCall` | src/handlers/index.ts:73-75 | without `arguments`, every tool name gets the "No arguments provided" envelope and no engine call is made |
| `Handlers.UnknownToolIsEnvelope` | src/handlers/index.ts:118-120 | an unknown name yields the `Unknown tool: <name>` envelope with no engine call |
| `Handlers.InvalidArgumentsNoEngineCall` | src/handlers/index.ts:80-117 | failed validation means no engine call, and the result is the envelope of the (non-empty) diagnostics |
| `Handlers.ExecutePassesCodeAndTimeout` | src/handlers/index.ts:80-88 | `executePython` receives `code` unchanged and `timeout` as given or 5000; invalid arguments give no call |
| `Handlers.InstallPassesPackage` | src/handlers/index.ts:89-97 | `installPackage` receives the `package` string unchanged |
| `Handlers.GetMountPointsCallsOnce` | src/handlers/index.ts:98-101 | with arguments present, `getMountPoints` is called exactly once and nothing is validated |
| `Handlers.FileToolsPassArguments` | src/handlers/index.ts:102-117 | `readImage` and `uploadFileOss` receive `mountName` and `imagePath` unchanged |
| `Handlers.ListTools` | src/handlers/index.ts:19-25 | the five descriptors each appear, in the order of the switch's case labels |
| `Handlers.NonOptionalKeys` | src/handlers/index.ts:27-48 | the keys a validator schema does not mark with `?` |
| `Handlers.ExecuteDescriptorAgrees` | src/tools/index.ts:7-20 | the `pyodide_execute` schema lists the validator's keys and types, and requires its non-optional key |
| `Handlers.InstallDescriptorAgrees` | src/tools/index.ts:27-37 | the same for install-packages |
| `Handlers.FileDescriptorsAgree` | src/tools/index.ts:52-84 | the same for read-media and upload-file-oss |
| `Handlers.ToolAgreesWithCase` | src/handlers/index.ts:79-117 | the i-th advertised tool is a case label, and its schema agrees with that case's validator |
| `Handlers.RegistryAgreesWithDispatcher` | src/handlers/index.ts:19-25 | every advertised tool is a case label and every case label is advertised; schemas agree with the validators |
| `Handlers.ListResourcesHandler` | src/handlers/index.ts:51-56 | returns the engine's list projected element-wise onto uri, name and mimeType |
| `Handlers.ReadResourceHandler` | src/handlers/index.ts:58-63 | an unresolvable uri fails with "Invalid URI"; a blob answer gives exactly one content with the requested uri and the engine's blob and mimeType; an `error` answer fails with that message |
| `Handlers.Server.constructor` | src/handlers/index.ts:129-140 | a server with the given name, version and capabilities, and no handlers |
| `Handlers.Server.SetRequestHandler` | src/handlers/index.ts:51 | registers a handler for the request kind |
| `Handlers.SetupServerHandlers` | src/handlers/index.ts:50-67 | registers the ListResources, ReadResource, ListTools and CallTool handlers |
| `Handlers.CreateServer` | src/handlers/index.ts:128-144 | a fresh `mcp-pyodide` 1.0.0 server with the tools and resources capabilities and all four handlers |
| `Resources.ReadResource` | src/resources/index.ts:19-40 | an unresolvable URI gives "Invalid URI" with no engine read; otherwise exactly one read with the resolved mountName and relativePath; an `error` answer fails with that message; a blob answer returns the input URI with the engine's blob and mimeType |
| `Resources.ListResources` | src/resources/index.ts:8-17 | the same length and order as the engine's list, with uri, name and mimeType copied element-wise |
| `Resources.ListResourcesAppend` | src/resources/index.ts:10-16 | listing commutes with concatenating the engine's lists |
| `Streamable.FirstPiece` | src/streamable.ts:11 | `split(",")[0]` is a comma-free prefix that ends at the first comma or at the end |
| `Streamable.ForwardedFor` | src/streamable.ts:11 | present exactly when `x-forwarded-for` is, and then its first piece |
| `Streamable.GetClientIp` | src/streamable.ts:9-17 | never empty; picks the first non-empty value of: first x-forwarded-for piece, x-real-ip, req.ip, socket address, "unknown" |
| `Streamable.FirstNonEmpty` | src/streamable.ts:10-16 | a reference precedence rule: the fallback, or a candidate that is present and non-empty |
| `Streamable.FirstNonEmptyIsFirst` | src/streamable.ts:10-16 | the rule picks the first present, non-empty candidate |
| `Streamable.FirstNonEmptyFallback` | src/streamable.ts:10-16 | with no present, non-empty candidate the rule gives the fallback |
| `Streamable.GetClientIpIsFirstNonEmpty` | src/streamable.ts:9-17 | `getClientIp` is the reference rule over its four candidates |
| `Streamable.HeadersJson` | src/streamable.ts:54 | the header map as a JSON object with the same keys, each holding that header's value |
| `Streamable.MetaOf` | src/streamable.ts:52-55 | `_meta` has exactly the keys `ip` and `headers`: `ip` is `getClientIp(req)` (never empty), `headers` holds every request header with its value |
| `Streamable.ParamsOf` | src/streamable.ts:51 | `body?.params` if truthy, else `{}` |
| `Streamable.WithMeta` | src/streamable.ts:52-55 | object params gain `_meta`; primitive params throw |
| `Streamable.Enrich` | src/streamable.ts:50-60 | throws exactly for truthy primitive params; otherwise an object holding the spread body's keys plus `params`, with every other key unchanged |
| `Streamable.EnrichObjectBody` | src/streamable.ts:50-60 | an object body is returned with only `params._meta` added; missing or falsy params become `{_meta}` |
| `Streamable.EnrichInitializeBody` | src/streamable.ts:86-96 | enriching an initialize body never throws and only adds `params._meta` |
| `Streamable.IsInitializeRequest` | src/streamable.ts:66 | an accepted body is an object whose `params` is an object carrying `protocolVersion`, `capabilities` and `clientInfo` |
| `Streamable.OnClose` | src/streamable.ts:79-84 | removes only the closing transport's own non-empty session id; touches nothing else |
| `Streamable.OnCloseIdempotent` | src/streamable.ts:79-84 | a second close is a no-op |
| `Streamable.OnClosePreservesInvariant` | src/streamable.ts:79-84 | closing keeps the table invariant |
| `Streamable.Settle` | src/streamable.ts:104-108 | 500 exactly when handling threw before headers were sent; otherwise the transport's own response |
| `Streamable.Forward` | src/streamable.ts:62 | `handleRequest` is logged once for that transport; the table changes only through its `onclose` |
| `Streamable.PostRoute` | src/streamable.ts:40-110 | at most one transport/server pair is created and at most one request is forwarded, as a POST; the route's own replies are 400, 404 or 500, and 400 and 404 leave the state unchanged |
| `Streamable.SessionRoute` | src/streamable.ts:112-144 | for GET and DELETE only (`SessionVerb` excludes POST): no pair is created and no entry is added or changed; at most one bodiless request of the route's verb is forwarded; the route's own replies are 404 or 500, and 404 leaves the state unchanged |
| `Streamable.PostUnknownSessionNotFound` | src/streamable.ts:42-62 | an unregistered session id gets 404 whatever the body, or 500 if it names an inherited property; the state is unchanged, nothing is forwarded |
| `Streamable.PrototypeSessionIdInternalError` | src/streamable.ts:43-120 | the session id `constructor`, when not registered, gets 500 from POST, GET and DELETE, with the state unchanged |
| `Streamable.PostOnlyInitializeAddsSessions` | src/streamable.ts:40-110 | a POST adds a session only if it is an initialize without session id that completes, and only under the id the transport was assigned |
| `Streamable.PostWithoutSessionNeedsInitialize` | src/streamable.ts:66-69 | no session id and a non-initialize body gives 400; no transport or entry is created |
| `Streamable.PostKnownSessionForwards` | src/streamable.ts:43-63 | the enriched body goes to exactly that session's transport; the table loses only that session, and only if the transport closes |
| `Streamable.InitializeRegistersSession` | src/streamable.ts:71-103 | after `handleRequest` completes, whether or not the transport closed meanwhile, the table is the old one with the new transport/server pair set under the assigned id and every other entry kept; with a fresh id the table grows by one |
| `Streamable.InitializeCompletes` | src/streamable.ts:71-103 | a completed initialize with a non-empty assigned id creates one pair, forwards the enriched body to it, applies its `onclose` (removing only that id), then sets the new entry under that id |
| `Streamable.CloseDuringInitializeLeavesEntry` | src/streamable.ts:79-103 | a transport that closes during its own initialize is still registered (a corollary of `InitializeRegistersSession`) |
| `Streamable.InitializeWithoutIdRegistersNothing` | src/streamable.ts:71-108 | an initialize whose transport throws or is assigned no id still creates a pair and forwards the enriched body, but registers nothing; a close drops only the assigned id |
| `Streamable.SessionRouteUnknownNotFound` | src/streamable.ts:112-120 | GET/DELETE with a missing or unregistered id gets 404, or 500 if it names an inherited property, and forwards nothing |
| `Streamable.SessionRouteForwards` | src/streamable.ts:119-120 | GET/DELETE on a registered id forwards to that transport only; the table changes only by that session's removal if it closes |
| `Streamable.InternalErrorOnlyBeforeHeaders` | src/streamable.ts:104-108 | 500 only when handling threw before headers were sent, or the route threw before forwarding; on POST, 500 never follows a completed or header-sending exchange except for those route throws |
| `Streamable.RegisterPreservesInvariant` | src/streamable.ts:100-103 | registering a transport whose serial is unused keeps the invariant |
| `Streamable.InitializePreservesInvariant` | src/streamable.ts:71-103 | the initialize path keeps the invariant |
| `Streamable.PostPreservesInvariant` | src/streamable.ts:40-110 | every POST keeps the invariant: each key maps to a distinct transport carrying that key as its session id |
| `Streamable.SessionRoutePreservesInvariant` | src/streamable.ts:112-144 | every GET and DELETE keeps the invariant |
| `Streamable.DeletedSessionIsGone` | src/streamable.ts:129-144 | after a DELETE that closes the transport, later POST/GET/DELETE with that id get 404 (500 for an inherited property name) |
| `Streamable.TwoInitializesTwoSessions` | src/streamable.ts:71-103 | two initializes with fresh ids give two entries with distinct transports and servers |
| `Streamable.SessionTable.constructor` | src/streamable.ts:25 | an empty table |
| `Streamable.SessionTable.Close` | src/streamable.ts:79-84 | the new state is `OnClose` of the old one; the invariant is kept |
| `Streamable.SessionTable.HandleRequest` | src/streamable.ts:62 | the new state is `Forward` of the old one |
| `Streamable.SessionTable.Post` | src/streamable.ts:40-110 | the new state and reply are those of `PostRoute`; the invariant is kept |
| `Streamable.SessionTable.PostOnSession` | src/streamable.ts:43-63 | the POST branch for a named session follows `PostRoute`; the invariant is kept |
| `Streamable.SessionTable.Initialize` | src/streamable.ts:71-103 | the initialize branch follows `PostRoute`; the invariant is kept |
| `Streamable.SessionTable.Resume` | src/streamable.ts:112-144 | the new state and reply are those of `SessionRoute` (GET or DELETE); the invariant is kept |
| `Streamable.SessionLifecycle` | src/streamable.ts:40-144 | initialize, call, DELETE with close, then call again gives the transport's replies and then 404 (500 for an inherited property name) |

## Left out

- Express setup, CORS, body parsing, `app.listen` and the port variable are framework plumbing. The request reaches the model already parsed.
- The catch-all 404 JSON route is left out. It depends on the clock.
- What `randomUUID` promises (unguessability) cannot be stated. The session id a transport announces is an input of the model.
- What happens inside `StreamableHTTPServerTransport.handleRequest` (streaming, JSON-RPC) is left out. Its effect is summarised by `Exchange`. A close during the exchange is applied once `handleRequest` ends.
- Interleaving of concurrent requests at `await` points is not modelled. A network close at any other time is the explicit `SessionTable.Close`.
- Exceptions thrown by `createServer()` or `server.connect` are not modelled. These calls are opaque SDK calls.
- `console.error` logging and the tool description strings are left out.
- `runServer`, `initializePyodide` (environment variables, `mountDirectory`), the stdio transport and the SSE binding are process bootstrap. `src/sse.ts` is not part of this model.
- PyodideManager internals are opaque. `getMountPointInfo` is an abstract resolver, so no path-containment property is claimed.
- `formatCallToolError` internals are opaque. The formatter module is not part of this model.
- arktype is modelled only as structural key/type checks. Its message texts and its NaN handling are left out. JavaScript numbers are modelled as unbounded integers, so floating point is left out.
- `isListMountedDirectoryArgs` is defined but never used, so it is not modelled.
- Streamable.IsInitializeRequest: checks the SDK's initialize schema only down to the types of `protocolVersion`, `capabilities` and `clientInfo.name`/`version`. The contents of `capabilities` are not checked.
- An announced session id `__proto__` is treated as an ordinary key. In JavaScript, assigning `transports["__proto__"]` replaces the record's prototype instead of adding a key. The SDK announces UUIDs, so it never arises.
- Streamable.WithMeta: a `_meta` property set on an array `params` is dropped. It is not part of the array's JSON value.
- Header values are single strings. Repeated headers that Node joins into arrays are not modelled.
- Assigning `params._meta` mutates the request's own `params` object in place. The model builds a new value instead. Nothing reads the old one afterwards.
- Resources.ReadResource: a rejected engine promise (as opposed to an `error` answer) is not modelled separately. It would propagate unchanged.
- The engine's own listing promise rejecting in `listResources` is not modelled.
- Handlers.Server.SetRequestHandler: records only that a handler is registered for a request kind. The handler bodies are the functions of this model.
