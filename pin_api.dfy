/**
 * The three calls the client makes on the pinning service: look a pin up
 * by id, upload files as a new pin, and unpin by id. Each builds its
 * request, goes through `DoRequest`, and decodes the body.
 */
module PinApi {
  import opened Wrappers
  import opened Os
  import opened Errors
  import opened Client

  const FilesPath: string := "/v3/files/public/"
  const PinFilePath: string := "/pinning/pinFileToIPFS"

  /** The URL of one pinned file, shared by look-up and unpin. */
  function FileURL(c: Client, id: string): string {
    c.hostURL + FilesPath + id
  }

  function PinURL(c: Client): string {
    c.hostURL + PinFilePath
  }

  /**
   * `json.Unmarshal` into `PinById`: a syntax error fails; a well-formed body
   * of another shape decodes to the zero record.
   */
  function DecodePinById(j: Json): (r: Result<PinById, Error>)
    ensures r.Err? <==> j.Malformed?
    ensures j.Malformed? ==> r == Err(DecodeError(j.reason))
    ensures j.PinByIdJson? ==> r == Ok(j.byId)
    ensures j.PinFileToIpfsJson? ==> r == Ok(PinById(PinData("", "", "")))
  {
    match j
    case PinByIdJson(byId) => Ok(byId)
    case PinFileToIpfsJson(_) => Ok(PinById(PinData("", "", "")))
    case Malformed(reason) => Err(DecodeError(reason))
  }

  /** `json.Unmarshal` into `PinFileToIpfs`, with the same leniency. */
  function DecodePinFileToIpfs(j: Json): (r: Result<PinFileToIpfs, Error>)
    ensures r.Err? <==> j.Malformed?
    ensures j.Malformed? ==> r == Err(DecodeError(j.reason))
    ensures j.PinFileToIpfsJson? ==> r == Ok(j.pin)
    ensures j.PinByIdJson? ==> r == Ok(PinFileToIpfs("", "", ""))
  {
    match j
    case PinFileToIpfsJson(pin) => Ok(pin)
    case PinByIdJson(_) => Ok(PinFileToIpfs("", "", ""))
    case Malformed(reason) => Err(DecodeError(reason))
  }

  /** `http.NewRequest` for the look-up: no header and no body yet. */
  function NewGetRequest(c: Client, id: string): Request {
    Request(Get, FileURL(c, id), map[], [])
  }

  /** `http.NewRequest` for the unpin. */
  function NewUnpinRequest(c: Client, id: string): Request {
    Request(Delete, FileURL(c, id), map[], [])
  }

  /** `http.NewRequest` for the upload of a written body. */
  function NewPinRequest(c: Client, parts: seq<Part>): Request {
    Request(Post, PinURL(c), map[], parts)
  }

  /** The look-up as it goes out. */
  function GetRequest(c: Client, id: string): Request {
    Authorized(NewGetRequest(c, id), c.token)
  }

  /** The unpin as it goes out. */
  function UnpinRequest(c: Client, id: string): Request {
    Authorized(NewUnpinRequest(c, id), c.token)
  }

  /** What `GetPinById` returns for a reply: the gate's error, a decode error, or the record. */
  function GetPinByIdResult(reply: Reply): (r: Result<PinById, Error>)
    ensures Gate(reply).Err? ==> r == Err(Gate(reply).error)
    ensures r.Ok? ==> reply.Response? && reply.status == 200
    ensures reply.Response? && reply.status == 200 && reply.body.json.PinByIdJson? ==> r == Ok(reply.body.json.byId)
    ensures reply.Response? && reply.status == 200 && reply.body.json.Malformed? ==> r == Err(DecodeError(reply.body.json.reason))
    ensures reply.Response? && reply.status == 200 && reply.body.json.PinFileToIpfsJson? ==> r == Ok(PinById(PinData("", "", "")))
  {
    match Gate(reply)
    case Err(e) => Err(e)
    case Ok(body) => DecodePinById(body.json)
  }

  /** What `Unpin` returns for a reply: nil exactly when the service answered 200. */
  function UnpinResult(reply: Reply): (r: Option<Error>)
    ensures r.None? <==> reply.Response? && reply.status == 200
    ensures r.Some? ==> r.value == Gate(reply).error
  {
    match Gate(reply)
    case Err(e) => Some(e)
    case Ok(_) => None
  }

  /** What `PinFolder` returns for a reply. */
  function PinFolderResult(reply: Reply): (r: Result<PinFileToIpfs, Error>)
    ensures Gate(reply).Err? ==> r == Err(Gate(reply).error)
    ensures r.Ok? ==> reply.Response? && reply.status == 200
    ensures reply.Response? && reply.status == 200 && reply.body.json.PinFileToIpfsJson? ==> r == Ok(reply.body.json.pin)
    ensures reply.Response? && reply.status == 200 && reply.body.json.Malformed? ==> r == Err(DecodeError(reply.body.json.reason))
    ensures reply.Response? && reply.status == 200 && reply.body.json.PinByIdJson? ==> r == Ok(PinFileToIpfs("", "", ""))
  {
    match Gate(reply)
    case Err(e) => Err(e)
    case Ok(body) => DecodePinFileToIpfs(body.json)
  }

  method GetPinById(c: Client, id: string, reply: Reply) returns (pin: Result<PinById, Error>, sent: Request)
    ensures sent == GetRequest(c, id)
    ensures pin == GetPinByIdResult(reply)
  {
    var req := NewGetRequest(c, id);
    var body;
    body, sent := DoRequest(c, req, reply);
    if body.Err? {
      return Err(body.error), sent;
    }
    pin := DecodePinById(body.value.json);
  }

  method Unpin(c: Client, id: string, reply: Reply) returns (err: Option<Error>, sent: Request)
    ensures sent == UnpinRequest(c, id)
    ensures err == UnpinResult(reply)
  {
    var req := NewUnpinRequest(c, id);
    var body;
    body, sent := DoRequest(c, req, reply);
    if body.Err? {
      return Some(body.error), sent;
    }
    return None, sent;
  }

  /** Look-up and unpin of the same id address the same resource. */
  lemma UnpinTargetsLookupURL(c: Client, id: string)
    ensures UnpinRequest(c, id).url == GetRequest(c, id).url == c.hostURL + FilesPath + id
    ensures UnpinRequest(c, id).verb == Delete && GetRequest(c, id).verb == Get
  {
  }

  // ---- the upload body ----

  const FileField: string := "file"
  const MetadataField: string := "pinataMetadata"
  const OptionsField: string := "pinataOptions"
  const MetadataOpen: string := "{\"name\":\""
  const MetadataClose: string := "\"}"
  const OptionsOpen: string := "{\"cidVersion\":"
  const OptionsClose: string := "}"

  /** The text of the `pinataMetadata` field; the name is spliced in without escaping. */
  function MetadataText(name: string): (t: string)
    ensures |t| == |name| + 11
    ensures t[..9] == MetadataOpen && t[9..9 + |name|] == name && t[9 + |name|..] == MetadataClose
  {
    MetadataOpen + name + MetadataClose
  }

  /** The text of the `pinataOptions` field; the version is spliced in unquoted. */
  function OptionsText(version: string): (t: string)
    ensures |t| == |version| + 15
    ensures t[..14] == OptionsOpen && t[14..14 + |version|] == version && t[14 + |version|..] == OptionsClose
  {
    OptionsOpen + version + OptionsClose
  }

  function FileFormPart(fs: FileSystem, f: File): Part {
    FilePart(FileField, f.name, CopiedContents(fs, f.path))
  }

  /**
   * The parts of an upload, in order: one `file` part per file, then the
   * metadata field, then the options field.
   */
  function UploadParts(files: seq<File>, name: string, version: string, fs: FileSystem): (parts: seq<Part>)
    ensures |parts| == |files| + 2
    ensures forall i :: 0 <= i < |files| ==> parts[i] == FileFormPart(fs, files[i])
    ensures parts[|files|] == FieldPart(MetadataField, MetadataText(name))
    ensures parts[|files| + 1] == FieldPart(OptionsField, OptionsText(version))
  {
    if files == [] then
      [FieldPart(MetadataField, MetadataText(name)), FieldPart(OptionsField, OptionsText(version))]
    else
      [FileFormPart(fs, files[0])] + UploadParts(files[1..], name, version, fs)
  }

  function PinFolderRequest(c: Client, files: seq<File>, name: string, version: string, fs: FileSystem): Request {
    Authorized(NewPinRequest(c, UploadParts(files, name, version, fs)), c.token)
  }

  /** The upload is a POST to the pin URL whose next-to-last part names the pin. */
  lemma UploadNamesPin(c: Client, files: seq<File>, name: string, version: string, fs: FileSystem)
    ensures var req := PinFolderRequest(c, files, name, version, fs);
      req.verb == Post && req.url == PinURL(c) && |req.body| == |files| + 2
      && req.body[|req.body| - 2] == FieldPart(MetadataField, MetadataText(name))
  {
  }

  /**
   * The upload goes out with the bearer header and no other: in particular
   * no `Content-Type` naming the multipart boundary.
   */
  lemma UploadCarriesOnlyAuthorization(c: Client, files: seq<File>, name: string, version: string, fs: FileSystem)
    ensures PinFolderRequest(c, files, name, version, fs).header == map[AuthorizationHeader := BearerPrefix + c.token]
  {
  }

  /** The `multipart.Writer` over the request's body buffer: the parts written so far. */
  class MultipartWriter {
    var parts: seq<Part>

    constructor ()
      ensures parts == []
    {
      parts := [];
    }

    /** `CreateFormFile(field, fileName)` followed by copying `content` into the part. */
    method WriteFile(field: string, fileName: string, content: Bytes)
      modifies this
      ensures parts == old(parts) + [FilePart(field, fileName, content)]
    {
      parts := parts + [FilePart(field, fileName, content)];
    }

    /** `CreateFormField(field)` followed by writing `text` into it. */
    method WriteField(field: string, text: string)
      modifies this
      ensures parts == old(parts) + [FieldPart(field, text)]
    {
      parts := parts + [FieldPart(field, text)];
    }
  }

  /**
   * `PinFolder`: writes one part per file in order, then the metadata and
   * options fields, posts the body, and decodes the answer. Errors from
   * opening or copying a file are ignored, as in the source.
   */
  method PinFolder(c: Client, files: seq<File>, name: string, version: string, fs: FileSystem, reply: Reply)
    returns (pin: Result<PinFileToIpfs, Error>, sent: Request)
    ensures sent == PinFolderRequest(c, files, name, version, fs)
    ensures pin == PinFolderResult(reply)
  {
    var writer := new MultipartWriter();
    var i := 0;
    while i < |files|
      invariant 0 <= i <= |files|
      invariant |writer.parts| == i
      invariant forall j :: 0 <= j < i ==> writer.parts[j] == FileFormPart(fs, files[j])
    {
      writer.WriteFile(FileField, files[i].name, CopiedContents(fs, files[i].path));
      i := i + 1;
    }
    writer.WriteField(MetadataField, MetadataText(name));
    writer.WriteField(OptionsField, OptionsText(version));
    var expected := UploadParts(files, name, version, fs);
    assert writer.parts == expected;

    var req := NewPinRequest(c, writer.parts);
    var raw;
    raw, sent := DoRequest(c, req, reply);
    if raw.Err? {
      return Err(raw.error), sent;
    }
    pin := DecodePinFileToIpfs(raw.value.json);
  }
}
