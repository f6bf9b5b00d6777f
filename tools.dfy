/** The tool registry: the five constant tool descriptors the server
    advertises, each with its JSON input schema (property names and types and
    the list of required properties). Descriptions are not modelled. */
module Tools {
  import opened Wrappers

  /** The JSON Schema `type` of a property. */
  datatype PropertyType = StringType | NumberType

  datatype Property = Property(name: string, propertyType: PropertyType)

  /** An `inputSchema` of `type: "object"`: its `properties` in declaration
      order and its `required` list, which may be absent. */
  datatype InputSchema = InputSchema(properties: seq<Property>, required: Option<seq<string>>)

  datatype Tool = Tool(name: string, inputSchema: InputSchema)

  const EXECUTE_PYTHON_TOOL := Tool(
    "pyodide_execute",
    InputSchema([Property("code", StringType), Property("timeout", NumberType)], Some(["code"])))

  const INSTALL_PYTHON_PACKAGES_TOOL := Tool(
    "pyodide_install-packages",
    InputSchema([Property("package", StringType)], Some(["package"])))

  const GET_MOUNT_POINTS_TOOL := Tool(
    "pyodide_get-mount-points",
    InputSchema([], None))

  const UPLOAD_FILE_OSS_TOOL := Tool(
    "pyodide_upload-file-oss",
    InputSchema([Property("mountName", StringType), Property("imagePath", StringType)],
                Some(["mountName", "imagePath"])))

  const READ_MEDIA_TOOL := Tool(
    "pyodide_read-media",
    InputSchema([Property("mountName", StringType), Property("imagePath", StringType)],
                Some(["mountName", "imagePath"])))

  /** The property names of a schema, in declaration order. */
  function PropertyNames(schema: InputSchema): (names: seq<string>)
    ensures |names| == |schema.properties|
    ensures forall i :: 0 <= i < |names| ==> names[i] == schema.properties[i].name
  {
    seq(|schema.properties|, i requires 0 <= i < |schema.properties| => schema.properties[i].name)
  }

  /** The required property names; an absent `required` list requires nothing. */
  function RequiredNames(schema: InputSchema): (names: seq<string>)
    ensures schema.required.None? ==> names == []
    ensures schema.required.Some? ==> names == schema.required.value
  {
    match schema.required
    case None => []
    case Some(names) => names
  }

  /** A schema is well-formed when its property names are distinct and every
      required name is one of its properties. */
  predicate WellFormed(schema: InputSchema)
  {
    && (forall i, j :: 0 <= i < j < |schema.properties| ==>
          schema.properties[i].name != schema.properties[j].name)
    && (forall r :: r in RequiredNames(schema) ==> r in PropertyNames(schema))
  }

  /** The descriptors in the order in which they are declared. */
  function Descriptors(): (tools: seq<Tool>)
    ensures |tools| == 5
    ensures forall i, j :: 0 <= i < j < |tools| ==> tools[i].name != tools[j].name
  {
    [EXECUTE_PYTHON_TOOL, INSTALL_PYTHON_PACKAGES_TOOL, GET_MOUNT_POINTS_TOOL,
     UPLOAD_FILE_OSS_TOOL, READ_MEDIA_TOOL]
  }

  /** Every descriptor's schema is well-formed. */
  lemma DescriptorsWellFormed()
    ensures forall t :: t in Descriptors() ==> WellFormed(t.inputSchema)
  {
    ExecuteRequiresOnlyCode();
    FileToolsTakeMountNameAndImagePath();
    assert PropertyNames(INSTALL_PYTHON_PACKAGES_TOOL.inputSchema) == ["package"];
  }

  /** `pyodide_execute` requires exactly `code`; `timeout` is a property that
      is not required. */
  lemma ExecuteRequiresOnlyCode()
    ensures RequiredNames(EXECUTE_PYTHON_TOOL.inputSchema) == ["code"]
    ensures PropertyNames(EXECUTE_PYTHON_TOOL.inputSchema) == ["code", "timeout"]
    ensures "timeout" !in RequiredNames(EXECUTE_PYTHON_TOOL.inputSchema)
  {
  }

  /** `pyodide_get-mount-points` has no properties and no `required` list. */
  lemma GetMountPointsTakesNothing()
    ensures GET_MOUNT_POINTS_TOOL.inputSchema.properties == []
    ensures GET_MOUNT_POINTS_TOOL.inputSchema.required.None?
  {
  }

  /** Both file tools take exactly `mountName` and `imagePath`, both required. */
  lemma FileToolsTakeMountNameAndImagePath()
    ensures PropertyNames(READ_MEDIA_TOOL.inputSchema) == ["mountName", "imagePath"]
    ensures RequiredNames(READ_MEDIA_TOOL.inputSchema) == ["mountName", "imagePath"]
    ensures PropertyNames(UPLOAD_FILE_OSS_TOOL.inputSchema) == ["mountName", "imagePath"]
    ensures RequiredNames(UPLOAD_FILE_OSS_TOOL.inputSchema) == ["mountName", "imagePath"]
  {
  }
}
