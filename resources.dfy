/** `ResourceClient`: reading one resource by URI and listing all resources,
    on top of the engine. The engine's URI resolver (`getMountPointInfo`),
    its `readResource` and its `listResources` are parameters: the resolver
    and the reader are functions of their arguments, the listing is the
    engine's answer. */
module Resources {
  import opened Wrappers
  import opened JsonValues

  /** What the resolver returns for a URI it accepts. */
  datatype MountPointInfo = MountPointInfo(mountName: string, relativePath: string)

  /** The engine's answer to `readResource(mountName, relativePath)`: either a
      blob with its MIME type or an object carrying an `error` message. */
  datatype EngineReadResult =
    | ResourceBlob(blob: string, mimeType: string)
    | ResourceError(error: string)

  /** One `readResource` request made to the engine. */
  datatype ReadRequest = ReadRequest(mountName: string, relativePath: string)

  /** A resource as the engine lists it; `extra` stands for any further
      properties the engine's objects carry. */
  datatype EngineResource = EngineResource(uri: string, name: string, mimeType: string, extra: map<string, Json>)

  /** A resource as the server lists it. */
  datatype Resource = Resource(uri: string, name: string, mimeType: string)

  datatype BlobResourceContents = BlobResourceContents(uri: string, blob: string, mimeType: string)

  /** The result of `readResource` (a rejected promise is `Err` with the
      message of the thrown `Error`) together with the engine reads it made. */
  datatype ReadOutcome = ReadOutcome(engineReads: seq<ReadRequest>, result: Result<BlobResourceContents, string>)

  const INVALID_URI := "Invalid URI"

  /** `ResourceClient.readResource(uri)`. */
  function ReadResource(uri: string, resolve: string -> Option<MountPointInfo>,
                        read: (string, string) -> EngineReadResult): (o: ReadOutcome)
    ensures resolve(uri).None? ==> o.engineReads == [] && o.result == Err(INVALID_URI)
    ensures resolve(uri).Some? ==>
      o.engineReads == [ReadRequest(resolve(uri).value.mountName, resolve(uri).value.relativePath)]
    ensures resolve(uri).Some? ==>
      var answer := read(resolve(uri).value.mountName, resolve(uri).value.relativePath);
      && (answer.ResourceError? ==> o.result == Err(answer.error))
      && (answer.ResourceBlob? ==> o.result == Ok(BlobResourceContents(uri, answer.blob, answer.mimeType)))
    ensures o.result.Ok? ==> o.result.value.uri == uri
  {
    match resolve(uri)
    case None => ReadOutcome([], Err(INVALID_URI))
    case Some(info) =>
      var answer := read(info.mountName, info.relativePath);
      var request := ReadRequest(info.mountName, info.relativePath);
      match answer
      case ResourceError(message) => ReadOutcome([request], Err(message))
      case ResourceBlob(blob, mimeType) => ReadOutcome([request], Ok(BlobResourceContents(uri, blob, mimeType)))
  }

  /** The projection applied to each listed resource. */
  function Project(r: EngineResource): Resource
  {
    Resource(r.uri, r.name, r.mimeType)
  }

  /** `ResourceClient.listResources()`: the engine's list, element by element
      projected onto `uri`, `name` and `mimeType`. */
  function ListResources(listed: seq<EngineResource>): (resources: seq<Resource>)
    ensures |resources| == |listed|
    ensures forall i :: 0 <= i < |listed| ==>
      resources[i] == Resource(listed[i].uri, listed[i].name, listed[i].mimeType)
  {
    if listed == [] then [] else [Project(listed[0])] + ListResources(listed[1..])
  }

  /** Listing commutes with concatenation of the engine's lists. */
  lemma {:induction false} ListResourcesAppend(a: seq<EngineResource>, b: seq<EngineResource>)
    ensures ListResources(a + b) == ListResources(a) + ListResources(b)
  {
    if a == [] {
      assert a + b == b;
    } else {
      assert (a + b)[1..] == a[1..] + b;
      ListResourcesAppend(a[1..], b);
    }
  }
}
