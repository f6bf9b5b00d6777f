/** The per-tool argument validators. Each arktype `type({...})` declaration
    is modelled as a schema value (its keys in declaration order, the type of
    each and whether the key carries the `?` optional marker) and one
    structural check over the argument map. A check either accepts the map
    as it is or reports one diagnostic per offending key; keys the schema
    does not declare are ignored. */
module ArgumentValidators {
  import opened Wrappers
  import opened JsonValues

  /** The arktype keywords used by the validators. */
  datatype FieldKind = StringKind | NumberKind

  /** One key of an arktype object type: `key: "string"` or `"key?": "number"`. */
  datatype FieldSpec = FieldSpec(key: string, kind: FieldKind, optional: bool)

  type Schema = seq<FieldSpec>

  /** A field-level diagnostic naming the offending key. */
  datatype FieldError =
    | MissingKey(key: string, expected: FieldKind)
    | WrongKind(key: string, expected: FieldKind)

  const ExecutePythonSchema: Schema :=
    [FieldSpec("code", StringKind, false), FieldSpec("timeout", NumberKind, true)]

  const InstallPythonPackagesSchema: Schema :=
    [FieldSpec("package", StringKind, false)]

  const ReadMediaSchema: Schema :=
    [FieldSpec("mountName", StringKind, false), FieldSpec("imagePath", StringKind, false)]

  const UploadFileOssSchema: Schema :=
    [FieldSpec("mountName", StringKind, false), FieldSpec("imagePath", StringKind, false)]

  predicate HasKind(v: Json, kind: FieldKind)
  {
    match kind
    case StringKind => v.JStr?
    case NumberKind => v.JNum?
  }

  /** The argument map meets one key of the schema: a present key holds a
      value of the declared kind, and an absent key is optional. */
  predicate Meets(spec: FieldSpec, args: map<string, Json>)
  {
    if spec.key in args then HasKind(args[spec.key], spec.kind) else spec.optional
  }

  /** The argument map meets every key of the schema. */
  predicate Conforms(schema: Schema, args: map<string, Json>)
  {
    forall i :: 0 <= i < |schema| ==> Meets(schema[i], args)
  }

  /** The diagnostic for one key, if the argument map fails it. */
  function Diagnose(spec: FieldSpec, args: map<string, Json>): (e: Option<FieldError>)
    ensures e.None? <==> Meets(spec, args)
    ensures e.Some? ==> e.value.key == spec.key && e.value.expected == spec.kind
    ensures e.Some? ==> (e.value.MissingKey? <==> spec.key !in args)
  {
    if spec.key !in args then
      if spec.optional then None else Some(MissingKey(spec.key, spec.kind))
    else if HasKind(args[spec.key], spec.kind) then None
    else Some(WrongKind(spec.key, spec.kind))
  }

  /** All diagnostics for a schema, one per failing key, in schema order. */
  function Problems(schema: Schema, args: map<string, Json>): (errs: seq<FieldError>)
    ensures |errs| <= |schema|
    ensures errs == [] <==> Conforms(schema, args)
    ensures forall e :: e in errs ==> exists i :: 0 <= i < |schema| && schema[i].key == e.key && !Meets(schema[i], args)
  {
    if schema == [] then []
    else
      var rest := Problems(schema[1..], args);
      assert Conforms(schema, args) <==> Meets(schema[0], args) && Conforms(schema[1..], args) by {
        assert forall i :: 0 < i < |schema| ==> schema[i] == schema[1..][i - 1];
      }
      match Diagnose(schema[0], args)
      case None => rest
      case Some(e) => [e] + rest
  }

  /** Every failing key of the schema is named by some diagnostic. */
  lemma {:induction false} ProblemsNameEveryFailingKey(schema: Schema, args: map<string, Json>, i: nat)
    requires i < |schema| && !Meets(schema[i], args)
    ensures exists e :: e in Problems(schema, args) && e.key == schema[i].key
  {
    if i == 0 {
      var e := Diagnose(schema[0], args).value;
      assert e in Problems(schema, args);
    } else {
      ProblemsNameEveryFailingKey(schema[1..], args, i - 1);
      var e :| e in Problems(schema[1..], args) && e.key == schema[1..][i - 1].key;
      assert e in Problems(schema, args);
    }
  }

  /** The arktype call `validator(args)`: the input itself when it conforms,
      otherwise the (non-empty) list of diagnostics. */
  function Validate(schema: Schema, args: map<string, Json>): (r: Result<map<string, Json>, seq<FieldError>>)
    ensures r.Ok? <==> Conforms(schema, args)
    ensures r.Ok? ==> r.value == args
    ensures r.Err? ==> r.error != [] && r.error == Problems(schema, args)
  {
    var errs := Problems(schema, args);
    if errs == [] then Ok(args) else Err(errs)
  }

  datatype ExecutePythonArgs = ExecutePythonArgs(code: string, timeout: Option<int>)

  datatype InstallPythonPackagesArgs = InstallPythonPackagesArgs(packageSpec: string)

  /** The validated arguments of both file tools. */
  datatype FileArgs = FileArgs(mountName: string, imagePath: string)

  /** `isExecutePythonArgs`: a string `code` and, if present, a numeric `timeout`. */
  function IsExecutePythonArgs(args: map<string, Json>): (r: Result<ExecutePythonArgs, seq<FieldError>>)
    ensures r.Ok? <==>
      "code" in args && args["code"].JStr? && ("timeout" in args ==> args["timeout"].JNum?)
    ensures r.Ok? ==> r.value.code == args["code"].s
    ensures r.Ok? ==> r.value.timeout == (if "timeout" in args then Some(args["timeout"].n) else None)
    ensures r.Err? ==> r.error != [] && forall e :: e in r.error ==> e.key in {"code", "timeout"}
  {
    assert Conforms(ExecutePythonSchema, args) <==>
      Meets(ExecutePythonSchema[0], args) && Meets(ExecutePythonSchema[1], args);
    match Validate(ExecutePythonSchema, args)
    case Err(errs) => Err(errs)
    case Ok(valid) =>
      Ok(ExecutePythonArgs(valid["code"].s, if "timeout" in valid then Some(valid["timeout"].n) else None))
  }

  /** `isInstallPythonPackagesArgs`: a string `package`. */
  function IsInstallPythonPackagesArgs(args: map<string, Json>): (r: Result<InstallPythonPackagesArgs, seq<FieldError>>)
    ensures r.Ok? <==> "package" in args && args["package"].JStr?
    ensures r.Ok? ==> r.value.packageSpec == args["package"].s
    ensures r.Err? ==> r.error == [if "package" in args then WrongKind("package", StringKind) else MissingKey("package", StringKind)]
  {
    assert Conforms(InstallPythonPackagesSchema, args) <==> Meets(InstallPythonPackagesSchema[0], args);
    match Validate(InstallPythonPackagesSchema, args)
    case Err(errs) => Err(errs)
    case Ok(valid) => Ok(InstallPythonPackagesArgs(valid["package"].s))
  }

  /** Shared by `isReadMediaArgs` and `isUploadFileOssArgs`, whose schemas are equal. */
  function IsFileArgs(args: map<string, Json>): (r: Result<FileArgs, seq<FieldError>>)
    ensures r.Ok? <==>
      "mountName" in args && args["mountName"].JStr? && "imagePath" in args && args["imagePath"].JStr?
    ensures r.Ok? ==> r.value == FileArgs(args["mountName"].s, args["imagePath"].s)
    ensures r.Err? ==> r.error != [] && forall e :: e in r.error ==> e.key in {"mountName", "imagePath"}
  {
    assert Conforms(ReadMediaSchema, args) <==> Meets(ReadMediaSchema[0], args) && Meets(ReadMediaSchema[1], args);
    match Validate(ReadMediaSchema, args)
    case Err(errs) => Err(errs)
    case Ok(valid) => Ok(FileArgs(valid["mountName"].s, valid["imagePath"].s))
  }

  /** `isReadMediaArgs`: string `mountName` and string `imagePath`. */
  function IsReadMediaArgs(args: map<string, Json>): (r: Result<FileArgs, seq<FieldError>>)
    ensures r.Ok? <==>
      "mountName" in args && args["mountName"].JStr? && "imagePath" in args && args["imagePath"].JStr?
    ensures r.Ok? ==> r.value == FileArgs(args["mountName"].s, args["imagePath"].s)
    ensures r.Err? ==> r.error != [] && forall e :: e in r.error ==> e.key in {"mountName", "imagePath"}
  {
    IsFileArgs(args)
  }

  /** `isUploadFileOssArgs`: string `mountName` and string `imagePath`. */
  function IsUploadFileOssArgs(args: map<string, Json>): (r: Result<FileArgs, seq<FieldError>>)
    ensures r.Ok? <==>
      "mountName" in args && args["mountName"].JStr? && "imagePath" in args && args["imagePath"].JStr?
    ensures r.Ok? ==> r.value == FileArgs(args["mountName"].s, args["imagePath"].s)
    ensures r.Err? ==> r.error != [] && forall e :: e in r.error ==> e.key in {"mountName", "imagePath"}
  {
    assert UploadFileOssSchema == ReadMediaSchema;
    IsFileArgs(args)
  }
}
