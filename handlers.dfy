/** The protocol server's request handlers: tool listing, the CallTool
    dispatcher with its argument checks and its single engine call, the two
    resource handlers, and the server object they are registered on.

    The engine is a parameter `engine: EngineCall -> EngineReply`, and the
    dispatcher returns the list of engine calls it made together with its
    result, so that "no engine call" and "exactly this engine call" can be
    stated. `formatCallToolError` is the uninterpreted constructor
    `CallToolError` of the tool-level error envelope. */
module Handlers {
  import opened Wrappers
  import opened JsonValues
  import opened ArgumentValidators
  import Tools
  import Resources

  const DEFAULT_TIMEOUT := 5000
  const NO_ARGUMENTS := "No arguments provided"

  /** A request to the execution engine, with the arguments it receives. */
  datatype EngineCall =
    | ExecutePython(code: string, timeout: int)
    | InstallPackage(packageSpec: string)
    | GetMountPoints
    | ReadImage(mountName: string, imagePath: string)
    | UploadFileOss(mountName: string, imagePath: string)

  /** How an engine promise settles. */
  datatype EngineReply = Resolved(value: Json) | Rejected(message: string)

  /** What is handed to `formatCallToolError`: an `Error` object, an arktype
      error list, or a plain string. */
  datatype Failure =
    | ErrorObject(message: string)
    | ArkErrors(problems: seq<FieldError>)
    | Text(text: string)

  /** The value the CallTool handler returns: the engine's result as it is, or
      the envelope `formatCallToolError` builds from a failure. */
  datatype ToolResult = EngineResult(value: Json) | CallToolError(cause: Failure)

  /** `formatCallToolError`, whose shape is not part of this model. */
  function FormatCallToolError(failure: Failure): (r: ToolResult)
    ensures r.CallToolError? && r.cause == failure
  {
    CallToolError(failure)
  }

  /** The labels of the dispatch switch, in source order. */
  const CASE_LABELS: seq<string> :=
    ["pyodide_execute", "pyodide_install-packages", "pyodide_get-mount-points",
     "pyodide_read-media", "pyodide_upload-file-oss"]

  predicate IsCaseLabel(name: string)
  {
    name in CASE_LABELS
  }

  /** The schema the switch case for `name` validates against; the
      `pyodide_get-mount-points` case and the default case validate nothing. */
  function ValidatorFor(name: string): Option<Schema>
  {
    if name == "pyodide_execute" then Some(ExecutePythonSchema)
    else if name == "pyodide_install-packages" then Some(InstallPythonPackagesSchema)
    else if name == "pyodide_read-media" then Some(ReadMediaSchema)
    else if name == "pyodide_upload-file-oss" then Some(UploadFileOssSchema)
    else None
  }

  /** The arguments pass the validation of the case for `name`. */
  predicate ArgumentsValid(name: string, args: map<string, Json>)
  {
    ValidatorFor(name).None? || Conforms(ValidatorFor(name).value, args)
  }

  /** Where the try block of the CallTool handler goes before any engine call
      settles: make one engine call, throw, or return a value. */
  datatype Step = Invoke(call: EngineCall) | Throw(failure: Failure) | Return(result: ToolResult)

  /** The try block of the CallTool handler up to its engine call: the
      presence check, then the switch on the tool name with each case's
      validator. */
  function Dispatch(name: string, args: Option<map<string, Json>>): (s: Step)
    ensures args.None? ==> s == Throw(ErrorObject(NO_ARGUMENTS))
    ensures s.Invoke? <==> args.Some? && IsCaseLabel(name) && ArgumentsValid(name, args.value)
    ensures s.Return? <==> args.Some? && !IsCaseLabel(name)
    ensures s.Return? ==> s.result == FormatCallToolError(Text("Unknown tool: " + name))
    ensures s.Throw? && args.Some? ==>
      ValidatorFor(name).Some? && s.failure == ArkErrors(Problems(ValidatorFor(name).value, args.value))
  {
    if args.None? then Throw(ErrorObject(NO_ARGUMENTS))
    else
      var a := args.value;
      if name == "pyodide_execute" then
        match IsExecutePythonArgs(a)
        case Err(errs) => Throw(ArkErrors(errs))
        case Ok(v) => Invoke(ExecutePython(v.code, v.timeout.GetOrDefault(DEFAULT_TIMEOUT)))
      else if name == "pyodide_install-packages" then
        match IsInstallPythonPackagesArgs(a)
        case Err(errs) => Throw(ArkErrors(errs))
        case Ok(v) => Invoke(InstallPackage(v.packageSpec))
      else if name == "pyodide_get-mount-points" then
        Invoke(GetMountPoints)
      else if name == "pyodide_read-media" then
        match IsReadMediaArgs(a)
        case Err(errs) => Throw(ArkErrors(errs))
        case Ok(v) => Invoke(ReadImage(v.mountName, v.imagePath))
      else if name == "pyodide_upload-file-oss" then
        match IsUploadFileOssArgs(a)
        case Err(errs) => Throw(ArkErrors(errs))
        case Ok(v) => Invoke(UploadFileOss(v.mountName, v.imagePath))
      else
        Return(FormatCallToolError(Text("Unknown tool: " + name)))
  }

  /** The CallTool handler's result and the engine calls it made. */
  datatype Handled = Handled(engineCalls: seq<EngineCall>, result: ToolResult)

  /** The CallTool handler: the try block, with every thrown failure (including
      a rejected engine promise) caught and passed to `formatCallToolError`. */
  function CallTool(name: string, args: Option<map<string, Json>>, engine: EngineCall -> EngineReply): (h: Handled)
    ensures |h.engineCalls| <= 1
    ensures h.engineCalls == [] <==> !Dispatch(name, args).Invoke?
    ensures h.engineCalls != [] ==> h.engineCalls[0] == Dispatch(name, args).call
    ensures h.result.EngineResult? <==> h.engineCalls != [] && engine(h.engineCalls[0]).Resolved?
    ensures h.result.EngineResult? ==> h.result.value == engine(h.engineCalls[0]).value
    ensures h.engineCalls != [] && engine(h.engineCalls[0]).Rejected? ==>
      h.result == FormatCallToolError(ErrorObject(engine(h.engineCalls[0]).message))
  {
    match Dispatch(name, args)
    case Invoke(call) =>
      var settled := match engine(call)
        case Resolved(value) => EngineResult(value)
        case Rejected(message) => FormatCallToolError(ErrorObject(message));
      Handled([call], settled)
    case Throw(failure) => Handled([], FormatCallToolError(failure))
    case Return(result) => Handled([], result)
  }

  /** Without `arguments` every tool name, known or not, gets the same error
      and no engine call is made. */
  lemma NoArgumentsNoEngineCall(name: string, engine: EngineCall -> EngineReply)
    ensures CallTool(name, None, engine) == Handled([], FormatCallToolError(ErrorObject(NO_ARGUMENTS)))
  {
  }

  /** A name that is not a case label gets the unknown-tool envelope and no
      engine call. */
  lemma UnknownToolIsEnvelope(name: string, args: map<string, Json>, engine: EngineCall -> EngineReply)
    requires !IsCaseLabel(name)
    ensures CallTool(name, Some(args), engine) == Handled([], FormatCallToolError(Text("Unknown tool: " + name)))
  {
  }

  /** Arguments that fail the case's validator never reach the engine; the
      result is the envelope of the (non-empty) diagnostics. */
  lemma InvalidArgumentsNoEngineCall(name: string, args: map<string, Json>, engine: EngineCall -> EngineReply)
    requires ValidatorFor(name).Some? && !Conforms(ValidatorFor(name).value, args)
    ensures CallTool(name, Some(args), engine).engineCalls == []
    ensures CallTool(name, Some(args), engine).result ==
      FormatCallToolError(ArkErrors(Problems(ValidatorFor(name).value, args)))
    ensures Problems(ValidatorFor(name).value, args) != []
  {
    assert IsCaseLabel(name);
  }

  /** `pyodide_execute`: the engine call happens exactly when `code` is a
      string and `timeout` is absent or a number; `code` is passed unchanged
      and `timeout` is the given number or the default. */
  lemma ExecutePassesCodeAndTimeout(args: map<string, Json>, engine: EngineCall -> EngineReply)
    ensures var calls := CallTool("pyodide_execute", Some(args), engine).engineCalls;
      if "code" in args && args["code"].JStr? && ("timeout" in args ==> args["timeout"].JNum?) then
        calls == [ExecutePython(args["code"].s, if "timeout" in args then args["timeout"].n else DEFAULT_TIMEOUT)]
      else
        calls == []
  {
  }

  /** `pyodide_install-packages` passes the `package` string unchanged. */
  lemma InstallPassesPackage(args: map<string, Json>, engine: EngineCall -> EngineReply)
    ensures var calls := CallTool("pyodide_install-packages", Some(args), engine).engineCalls;
      if "package" in args && args["package"].JStr? then calls == [InstallPackage(args["package"].s)]
      else calls == []
  {
  }

  /** `pyodide_get-mount-points` checks nothing beyond the presence of
      `arguments` and calls the engine once. */
  lemma GetMountPointsCallsOnce(args: map<string, Json>, engine: EngineCall -> EngineReply)
    ensures CallTool("pyodide_get-mount-points", Some(args), engine).engineCalls == [GetMountPoints]
  {
  }

  /** Both file tools pass `mountName` and `imagePath` unchanged to their
      engine method. */
  lemma FileToolsPassArguments(args: map<string, Json>, engine: EngineCall -> EngineReply)
    ensures var valid := "mountName" in args && args["mountName"].JStr? && "imagePath" in args && args["imagePath"].JStr?;
      && CallTool("pyodide_read-media", Some(args), engine).engineCalls ==
           (if valid then [ReadImage(args["mountName"].s, args["imagePath"].s)] else [])
      && CallTool("pyodide_upload-file-oss", Some(args), engine).engineCalls ==
           (if valid then [UploadFileOss(args["mountName"].s, args["imagePath"].s)] else [])
  {
  }

  /** The `TOOLS` list, in the order the server advertises it. */
  const TOOLS: seq<Tools.Tool> :=
    [Tools.EXECUTE_PYTHON_TOOL, Tools.INSTALL_PYTHON_PACKAGES_TOOL, Tools.GET_MOUNT_POINTS_TOOL,
     Tools.READ_MEDIA_TOOL, Tools.UPLOAD_FILE_OSS_TOOL]

  /** The ListTools handler: the five descriptors, each once, in the order
      of the switch's case labels. */
  function ListTools(): (tools: seq<Tools.Tool>)
    ensures |tools| == |CASE_LABELS|
    ensures forall i :: 0 <= i < |tools| ==> tools[i].name == CASE_LABELS[i]
    ensures forall t :: t in tools <==> t in Tools.Descriptors()
  {
    TOOLS
  }

  /** The keys a schema does not mark optional, in schema order. */
  function NonOptionalKeys(schema: Schema): (keys: seq<string>)
    ensures forall k :: k in keys <==> exists i :: 0 <= i < |schema| && schema[i].key == k && !schema[i].optional
  {
    if schema == [] then []
    else
      var rest := NonOptionalKeys(schema[1..]);
      assert forall i :: 0 < i < |schema| ==> schema[i] == schema[1..][i - 1];
      if schema[0].optional then rest else [schema[0].key] + rest
  }

  /** A descriptor's input schema describes exactly what a validator checks:
      the same keys in the same order with matching types, and the required
      list is the validator's non-optional keys. */
  predicate Describes(schema: Tools.InputSchema, validator: Schema)
  {
    && |schema.properties| == |validator|
    && (forall i :: 0 <= i < |validator| ==>
          && schema.properties[i].name == validator[i].key
          && (schema.properties[i].propertyType == Tools.StringType <==> validator[i].kind == StringKind))
    && Tools.RequiredNames(schema) == NonOptionalKeys(validator)
  }

  /** The `pyodide_execute` descriptor agrees with `isExecutePythonArgs`. */
  lemma ExecuteDescriptorAgrees()
    ensures Describes(Tools.EXECUTE_PYTHON_TOOL.inputSchema, ExecutePythonSchema)
  {
    assert NonOptionalKeys(ExecutePythonSchema) == ["code"] by {
      assert ExecutePythonSchema[1..] == [FieldSpec("timeout", NumberKind, true)];
      assert NonOptionalKeys(ExecutePythonSchema[1..][1..]) == [];
    }
  }

  /** The `pyodide_install-packages` descriptor agrees with
      `isInstallPythonPackagesArgs`. */
  lemma InstallDescriptorAgrees()
    ensures Describes(Tools.INSTALL_PYTHON_PACKAGES_TOOL.inputSchema, InstallPythonPackagesSchema)
  {
    assert NonOptionalKeys(InstallPythonPackagesSchema[1..]) == [];
  }

  /** Both file-tool descriptors agree with the mountName/imagePath validators. */
  lemma FileDescriptorsAgree()
    ensures Describes(Tools.READ_MEDIA_TOOL.inputSchema, ReadMediaSchema)
    ensures Describes(Tools.UPLOAD_FILE_OSS_TOOL.inputSchema, UploadFileOssSchema)
  {
    assert ReadMediaSchema[1..] == [FieldSpec("imagePath", StringKind, false)];
    assert NonOptionalKeys(ReadMediaSchema[1..][1..]) == [];
    assert NonOptionalKeys(ReadMediaSchema[1..]) == ["imagePath"];
  }

  /** What the schema of a descriptor must say about the case `name`. */
  predicate AgreesWithCase(t: Tools.Tool)
  {
    && IsCaseLabel(t.name)
    && (ValidatorFor(t.name).Some? ==> Describes(t.inputSchema, ValidatorFor(t.name).value))
    && (ValidatorFor(t.name).None? ==>
          t.inputSchema.properties == [] && Tools.RequiredNames(t.inputSchema) == [])
  }

  /** The i-th advertised tool agrees with its case of the switch. */
  lemma ToolAgreesWithCase(i: nat)
    requires i < |TOOLS|
    ensures AgreesWithCase(TOOLS[i])
  {
    if i == 0 {
      assert TOOLS[0] == Tools.EXECUTE_PYTHON_TOOL;
      assert IsCaseLabel(Tools.EXECUTE_PYTHON_TOOL.name) by { assert CASE_LABELS[0] == Tools.EXECUTE_PYTHON_TOOL.name; }
      ExecuteDescriptorAgrees();
    } else if i == 1 {
      assert TOOLS[1] == Tools.INSTALL_PYTHON_PACKAGES_TOOL;
      assert IsCaseLabel(Tools.INSTALL_PYTHON_PACKAGES_TOOL.name) by { assert CASE_LABELS[1] == Tools.INSTALL_PYTHON_PACKAGES_TOOL.name; }
      InstallDescriptorAgrees();
    } else if i == 2 {
      assert TOOLS[2] == Tools.GET_MOUNT_POINTS_TOOL;
      assert IsCaseLabel(Tools.GET_MOUNT_POINTS_TOOL.name) by { assert CASE_LABELS[2] == Tools.GET_MOUNT_POINTS_TOOL.name; }
    } else if i == 3 {
      assert TOOLS[3] == Tools.READ_MEDIA_TOOL;
      assert IsCaseLabel(Tools.READ_MEDIA_TOOL.name) by { assert CASE_LABELS[3] == Tools.READ_MEDIA_TOOL.name; }
      FileDescriptorsAgree();
    } else {
      assert TOOLS[4] == Tools.UPLOAD_FILE_OSS_TOOL;
      assert IsCaseLabel(Tools.UPLOAD_FILE_OSS_TOOL.name) by { assert CASE_LABELS[4] == Tools.UPLOAD_FILE_OSS_TOOL.name; }
      FileDescriptorsAgree();
    }
  }

  /** Every advertised tool is a case of the dispatch switch and every case
      is advertised; each tool's input schema agrees with the validator of
      its case, and the one tool without a validator advertises no
      properties. */
  lemma RegistryAgreesWithDispatcher()
    ensures forall t :: t in ListTools() ==> AgreesWithCase(t)
    ensures forall c :: c in CASE_LABELS ==> exists t :: t in ListTools() && t.name == c
  {
    forall t | t in ListTools() ensures AgreesWithCase(t) {
      var i :| 0 <= i < |TOOLS| && TOOLS[i] == t;
      ToolAgreesWithCase(i);
    }
    forall c | c in CASE_LABELS ensures exists t :: t in ListTools() && t.name == c {
      var i :| 0 <= i < |CASE_LABELS| && CASE_LABELS[i] == c;
      assert ListTools()[i] in ListTools();
    }
  }

  /** The ListResources handler: `{ resources }`. */
  function ListResourcesHandler(listed: seq<Resources.EngineResource>): (resources: seq<Resources.Resource>)
    ensures |resources| == |listed|
    ensures forall i :: 0 <= i < |listed| ==>
      resources[i] == Resources.Resource(listed[i].uri, listed[i].name, listed[i].mimeType)
  {
    Resources.ListResources(listed)
  }

  /** The ReadResource handler: `{ contents: [resource] }`, or the failure of
      `readResource`, which the handler does not catch. */
  function ReadResourceHandler(uri: string, resolve: string -> Option<Resources.MountPointInfo>,
                               read: (string, string) -> Resources.EngineReadResult)
    : (r: Result<seq<Resources.BlobResourceContents>, string>)
    ensures r.Ok? ==> |r.value| == 1 && r.value[0].uri == uri
    ensures resolve(uri).None? ==> r == Err(Resources.INVALID_URI)
    ensures resolve(uri).Some? ==>
      var answer := read(resolve(uri).value.mountName, resolve(uri).value.relativePath);
      && (answer.ResourceBlob? ==> r == Ok([Resources.BlobResourceContents(uri, answer.blob, answer.mimeType)]))
      && (answer.ResourceError? ==> r == Err(answer.error))
  {
    match Resources.ReadResource(uri, resolve, read).result
    case Ok(resource) => Ok([resource])
    case Err(message) => Err(message)
  }

  /** The request kinds the server has handlers for. */
  datatype RequestKind = ListResourcesRequest | ReadResourceRequest | ListToolsRequest | CallToolRequest

  datatype Capability = ToolsCapability | ResourcesCapability

  /** The protocol server object on which handlers are registered. */
  class Server {
    const name: string
    const version: string
    const capabilities: set<Capability>
    var handlers: set<RequestKind>

    constructor (name: string, version: string, capabilities: set<Capability>)
      ensures this.name == name && this.version == version && this.capabilities == capabilities
      ensures handlers == {}
    {
      this.name := name;
      this.version := version;
      this.capabilities := capabilities;
      handlers := {};
    }

    /** `server.setRequestHandler(schema, handler)`; a later registration for
        the same kind replaces the earlier handler. */
    method SetRequestHandler(kind: RequestKind)
      modifies this
      ensures handlers == old(handlers) + {kind}
    {
      handlers := handlers + {kind};
    }
  }

  /** `setupServerHandlers`: registers the four handlers on the server. */
  method SetupServerHandlers(server: Server)
    modifies server
    ensures server.handlers == old(server.handlers) + {ListResourcesRequest, ReadResourceRequest, ListToolsRequest, CallToolRequest}
  {
    server.SetRequestHandler(ListResourcesRequest);
    server.SetRequestHandler(ReadResourceRequest);
    server.SetRequestHandler(ListToolsRequest);
    server.SetRequestHandler(CallToolRequest);
  }

  /** `createServer`: a new server named `mcp-pyodide` at version `1.0.0`
      with the tools and resources capabilities and all four handlers. */
  method CreateServer() returns (server: Server)
    ensures fresh(server)
    ensures server.name == "mcp-pyodide" && server.version == "1.0.0"
    ensures server.capabilities == {ToolsCapability, ResourcesCapability}
    ensures server.handlers == {ListResourcesRequest, ReadResourceRequest, ListToolsRequest, CallToolRequest}
  {
    server := new Server("mcp-pyodide", "1.0.0", {ToolsCapability, ResourcesCapability});
    SetupServerHandlers(server);
  }
}
