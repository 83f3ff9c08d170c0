# Pinata pin provider: a verified model of its reconciliation core

This project models, in Dafny, the core of a Terraform provider for the Pinata
IPFS pinning service. One resource, `pinata_pin`, keeps a record
`{id, cid, name, version, paths, hash}` for a set of local files pinned as one
remote object. The model covers:

- the content fingerprint (`paths`): SHA-256 over the declared files' bytes,
  concatenated in declared order, hex-encoded;
- the resource lifecycle: Create, Read, Update, Delete, and ModifyPlan, which
  forces a replace when the fingerprint differs from the stored one;
- the provider's `Configure`: API root and token resolved from the provider
  block or the `PINATA_ROOT` / `PINATA_TOKEN` environment variables;
- the HTTP client: host defaulting, the bearer header, the status-200 gate,
  the three request URLs and the ordered multipart upload body.

Modules follow the source files:

- `Client` (client.dfy): `internal/client/client.go` and `internal/client/models.go`;
- `PinApi` (pin_api.dfy): `internal/client/pin.go`;
- `Checksum` (checksum.dfy): `paths` in `internal/provider/pin_resource.go`;
- `PinResource` (pin_resource.dfy): the resource in `internal/provider/pin_resource.go`;
- `Provider` (provider.dfy): `Configure` in `internal/provider/provider.go`;
- `Wrappers`, `Decimal`, `Os`, `Errors`, `Tf`: Option/Result, Go's `%d`, files and
  environment, error values, and the framework's null/unknown/known values.

The outside world comes in as parameters:

- The file system is a map from path to bytes. A path that is absent does not exist.
- The clock is a number of Unix milliseconds.
- SHA-256 followed by hex encoding is a function `Digest` from bytes to text.
  Lemmas that need the hash to tell inputs apart assume it is injective.
- Each exchange with the service is given its `Reply`: no response, or a
  status and a body. The body holds its text and the value the JSON library
  would decode it to.

Every lifecycle method returns the requests it sent, in order, so
"unpin before pin" and "nothing is sent after a failed unpin" are stated on
that list.

Each lifecycle method is written as the source is: it reassigns the record's
fields one at a time. It is proved equal to a specification function
(`CreateSpec`, `ReadSpec`, ...). The lemmas state the resource's behaviour on
those functions. The response state starts as terraform-plugin-framework sets
it:

- null for Create;
- the prior state for Read and Delete;
- the planned state for Update.

Delete's state becomes null when no error was reported, because the framework
removes the resource then.

## Model

| member | source | states |
|---|---|---|
| `Decimal.NatText` | internal/provider/pin_resource.go:96 | the decimal text of a natural number is non-empty, all digits, and has no leading zero |
| `Decimal.IntText` | internal/provider/pin_resource.go:96 | `%d` text: non-empty, starting with '-' exactly for negative numbers |
| `Decimal.IntTextInjective` | internal/provider/pin_resource.go:96 | two different numbers never print alike (proved by parsing the text back) |
| `Os.Getenv` | internal/provider/provider.go:79-80 | an unset environment variable reads as the empty string |
| `Errors.Message` | internal/client/client.go:53-55 | a service error reads exactly `status: <status in decimal>, body: <body verbatim>`; a missing file reads exactly `open <path>: no such file or directory`; transport and decode errors carry their own text |
| `Errors.StatusMessageIdentifiesReply` | internal/client/client.go:53-55 | two service errors with the same text have the same status and the same body: the text loses nothing |
| `Tf.ValueString` | internal/provider/pin_resource.go:260 | a null or unknown string reads as "", a known one as its value |
| `Tf.NumberString` | internal/provider/pin_resource.go:107 | a known number gives its text; a null or unknown one gives a bracketed placeholder (`<null>`, `<unknown>`), which is what reaches the options field |
| `Client.NewClient` | internal/client/client.go:18-35 | never fails; host is the given one when present and non-empty, else `https://api.pinata.cloud`, so it is never empty; token is "" when nil, else the given one; timeout is 10 seconds |
| `Client.Authorized` | internal/client/client.go:38-40 | the request gains `Authorization: Bearer <token>`; method, URL, body and every other header are unchanged |
| `Client.Gate` | internal/client/client.go:42-57 | succeeds exactly for status 200, returning the body unchanged; any other status is an error carrying status and body; no response is a transport error |
| `Client.DoRequest` | internal/client/client.go:37-58 | sends the request with the bearer header and returns what the status gate makes of the reply |
| `Client.OnlyStatus200Succeeds` | internal/client/client.go:53-55 | every other 2xx status fails with a status error |
| `PinApi.DecodePinById` | internal/client/pin.go:24-28 | fails exactly on a malformed body, with a decode error; a by-id record decodes to itself, a body of the other shape to the zero record |
| `PinApi.DecodePinFileToIpfs` | internal/client/pin.go:58-62 | fails exactly on a malformed body, with a decode error; an upload record decodes to itself, a body of the other shape to the zero record |
| `PinApi.GetPinByIdResult` | internal/client/pin.go:19-30 | a gate error propagates unchanged; success needs status 200; on a 200 reply a malformed body is a decode error, a by-id record yields that record, a body of the other shape the zero record |
| `PinApi.UnpinResult` | internal/client/pin.go:73-78 | no error exactly when the service answered 200; otherwise the gate's error |
| `PinApi.PinFolderResult` | internal/client/pin.go:53-64 | a gate error propagates unchanged; success needs status 200; on a 200 reply a malformed body is a decode error, an upload record yields that record, a body of the other shape the zero record |
| `PinApi.GetPinById` | internal/client/pin.go:13-31 | sends an authorised GET to `<host>/v3/files/public/<id>` and returns the look-up result of the reply |
| `PinApi.Unpin` | internal/client/pin.go:67-79 | sends an authorised DELETE to `<host>/v3/files/public/<id>` and returns the unpin result of the reply |
| `PinApi.UnpinTargetsLookupURL` | internal/client/pin.go:68 | unpin and look-up of one id address the same URL, `<host>/v3/files/public/<id>` |
| `PinApi.MetadataText` | internal/client/pin.go:42-43 | the metadata text is `{"name":"` + name + `"}`, the name spliced in verbatim, unescaped |
| `PinApi.OptionsText` | internal/client/pin.go:44-45 | the options text is `{"cidVersion":` + version + `}`, the version spliced in unquoted |
| `PinApi.UploadParts` | internal/client/pin.go:36-45 | one `file` part per file in input order, named by the file's name and holding its bytes (none when it cannot be opened), then the metadata field, then the options field |
| `PinApi.UploadCarriesOnlyAuthorization` | internal/client/pin.go:48 | the upload's only header is the bearer header; no `Content-Type` names the multipart boundary |
| `PinApi.MultipartWriter.constructor` | internal/client/pin.go:34-35 | a new writer has written no parts |
| `PinApi.MultipartWriter.WriteFile` | internal/client/pin.go:39-40 | appends one file part after the parts already written |
| `PinApi.MultipartWriter.WriteField` | internal/client/pin.go:42-45 | appends one field part after the parts already written |
| `PinApi.PinFolder` | internal/client/pin.go:33-65 | the loop writes exactly the ordered upload parts, POSTs them authorised to `<host>/pinning/pinFileToIPFS`, and returns the upload result of the reply |
| `Checksum.PathStrings` | internal/provider/pin_resource.go:259-260 | the path list has one entry per declared element, in order, each its `ValueString` |
| `Checksum.FirstUnreadable` | internal/provider/pin_resource.go:259-264 | the index it returns is the first path that does not exist; every path before it exists |
| `Checksum.ConcatSnoc` | internal/provider/pin_resource.go:265-266 | feeding one more file to the stream appends its bytes to the concatenation |
| `Checksum.Paths` | internal/provider/pin_resource.go:256-269 | the loop's result is `PathsResult`. When every path exists: the digest of c1 ++ ... ++ cn in declared order, and the input paths unchanged. Otherwise: "", no list, and the error of the first missing path |
| `Checksum.FingerprintsEqualIffConcatenationsEqual` | internal/provider/pin_resource.go:257-268 | with an injective hash, two path lists share a fingerprint exactly when their bytes concatenate alike |
| `Checksum.FingerprintIsOrderSensitive` | internal/provider/pin_resource.go:259-268 | with an injective hash, two files whose contents do not commute give different fingerprints in the two orders |
| `Checksum.ReorderingDifferentFilesCanCollide` | internal/provider/pin_resource.go:259-268 | files "a" and "aa" have the same fingerprint in either order: no separators are hashed |
| `Checksum.DifferentPathListsCanCollide` | internal/provider/pin_resource.go:259-268 | one file "xy" and two files "x", "y" have the same fingerprint: neither path names nor file boundaries are hashed |
| `Checksum.ConcatSensitiveToContent` | internal/provider/pin_resource.go:259-266 | changing the bytes of one declared file, keeping its length, changes the concatenation, wherever and however often it occurs |
| `Checksum.Occurrences` | internal/provider/pin_resource.go:259 | the number of times a path is declared: at least one exactly when it is declared, never more than the list's length |
| `Checksum.ConcatLength` | internal/provider/pin_resource.go:259-266 | rewriting one file changes the concatenation's length by the change in its length times the number of times it is declared |
| `Checksum.ConcatSensitiveToEdit` | internal/provider/pin_resource.go:259-266 | any rewrite of a declared file to different bytes changes the concatenation, whether it keeps the file's length, grows it or shrinks it |
| `Checksum.FingerprintSensitiveToContent` | internal/provider/pin_resource.go:256-268 | with an injective hash, rewriting any declared file to different bytes, of any length, changes the fingerprint |
| `PinResource.DefaultNamesDiffer` | internal/provider/pin_resource.go:94-97 | pins created at different milliseconds get different default names |
| `PinResource.BaseName` | internal/provider/pin_resource.go:107 | the name a file is uploaded under is the path's last segment: a suffix of the path, containing no '/', preceded by '/' when shorter than the path |
| `PinResource.FilesFor` | internal/provider/pin_resource.go:107 | one file per path, in order, pairing the path's base name with the path |
| `PinResource.PathsRequireReplace` | internal/provider/pin_resource.go:74-76 | a change of the path list of an existing pin requires a replace |
| `PinResource.ToDiagnostic` | internal/provider/pin_resource.go:101-111 | every resource error is attribute-less, and its summary names the failing step: "Error pinning" exactly for the fingerprint, paths and upload failures, the read and unpin summaries exactly for those (lines 137-140, 174-177, 223-226) |
| `PinResource.DetailEndsWithCause` | internal/provider/pin_resource.go:101-111 | every resource error's detail ends with the text of the error that caused it (lines 137-140, 196-199, 223-226) |
| `PinResource.ReadDiagnosticNamesId` | internal/provider/pin_resource.go:137-140 | a failed read's detail names the id looked up, right after its fixed text |
| `PinResource.Create` | internal/provider/pin_resource.go:86-125 | the step-by-step body computes `CreateSpec` |
| `PinResource.Read` | internal/provider/pin_resource.go:127-156 | the step-by-step body computes `ReadSpec` |
| `PinResource.Update` | internal/provider/pin_resource.go:158-211 | the step-by-step body computes `UpdateSpec` |
| `PinResource.Delete` | internal/provider/pin_resource.go:213-229 | the body computes `DeleteSpec` |
| `PinResource.ModifyPlan` | internal/provider/pin_resource.go:271-304 | the body computes `ModifyPlanSpec` |
| `PinResource.CreateUploadsUnderResolvedName` | internal/provider/pin_resource.go:94-107 | Create sends one POST to the pin URL, whose metadata names the planned pin, or `terraform-<millis>` when the planned name is null or unknown |
| `PinResource.CreateStoresServiceIdentity` | internal/provider/pin_resource.go:107-120 | when every declared file can be read, a successful upload leaves a state holding the service's id, CID (IpfsHash) and name, the computed fingerprint, and the planned version and paths |
| `PinResource.CreateFailureSetsNoState` | internal/provider/pin_resource.go:107-114 | a failed upload sets no state and reports the upload error last |
| `PinResource.CreateContinuesAfterChecksumError` | internal/provider/pin_resource.go:99-107 | with a missing file Create reports the first missing path, still uploads a body with no file parts, and on success stores the planned state with the service's id, CID and name and the checksum "" |
| `PinResource.ReadRefreshesIdentityOnly` | internal/provider/pin_resource.go:135-151 | Read looks up the stored id. On success only id, CID and name are overwritten, a null checksum becomes unknown and any other is kept. On failure the state is left exactly as it was, with one read error |
| `PinResource.ReadIsIdempotent` | internal/provider/pin_resource.go:144-149 | whenever a read succeeds, reading the refreshed state again against the same reply leaves it unchanged |
| `PinResource.CreateThenReadRoundTrip` | internal/provider/pin_resource.go:115-149 | when the service reports the same name and CID for the new id, Read looks that id up and leaves the created state unchanged |
| `PinResource.UpdateUnpinsFirst` | internal/provider/pin_resource.go:172-194 | Update's first request unpins the stored id. If the unpin fails, nothing more is sent and the unpin error is reported. Otherwise one POST to the pin URL follows |
| `PinResource.UpdateUploadsUnderResolvedName` | internal/provider/pin_resource.go:188-194 | Update uploads under the planned name, falling back to the stored name only when the planned one is null; an unknown planned name goes out as "" |
| `PinResource.UpdateStoresNewIdentity` | internal/provider/pin_resource.go:202-206 | when every declared file can be read, a successful Update stores the new id, CID and fingerprint; name, version and paths stay as planned, not taken from the service |
| `PinResource.UpdateContinuesAfterPathsError` | internal/provider/pin_resource.go:181-201 | after a successful unpin, a missing file is reported first, the upload still goes out with no file parts, and on success the state is the plan with the new id and CID and the checksum "" |
| `PinResource.UpdateUploadFailureKeepsPlan` | internal/provider/pin_resource.go:194-201 | when the unpin succeeds and the upload fails, the state stays the plan, the unpin of the old id and the upload were both sent, and the upload error is the last diagnostic |
| `PinResource.DeleteKeepsStateOnFailure` | internal/provider/pin_resource.go:221-228 | Delete unpins the stored id; on failure the state is intact with one unpin error, on success the resource leaves the state |
| `PinResource.ModifyPlanDecidesReplace` | internal/provider/pin_resource.go:272-297 | no prior state or an unreadable file leaves the plan untouched; otherwise the plan gets the computed checksum and `hash` requires a replace exactly when it differs from the stored checksum |
| `PinResource.UnknownChecksumForcesReplace` | internal/provider/pin_resource.go:294-297 | when every declared file can be read, a null or unknown stored checksum (an imported pin, once read) forces a replace, since no 64-character hex SHA-256 digest is empty (an unreadable file plans no replace at all: see `ModifyPlanDecidesReplace`) |
| `PinResource.UnchangedInputsNeedNoReplace` | internal/provider/pin_resource.go:289-297 | the same path list over unchanged files triggers neither the `paths` nor the `hash` replace |
| `PinResource.EditedFileForcesReplace` | internal/provider/pin_resource.go:289-297 | with an injective hash: after a successful Create the same files plan no replace, and rewriting one declared file to different bytes, of any length, forces a replace on `hash` |
| `PinResource.EditedFileUpdateStoresNewFingerprint` | internal/provider/pin_resource.go:172-204 | with an injective hash: updating a created pin after one of its files was rewritten to different bytes unpins the created id, reports nothing, and stores the new upload's id and CID with a fingerprint different from the created one |
| `PinResource.EditedFileExample` | internal/provider/pin_resource.go:289-297 | with an injective hash, two files "x", "y": created, no replace; second rewritten to "z": replace required, and an update unpins the first pin and stores the new one with a different fingerprint |
| `Provider.Resolve` | internal/provider/provider.go:79-88 | a non-null configured value overrides the environment; a null one falls back to it |
| `Provider.UnknownProblems` | internal/provider/provider.go:57-73 | one problem per unknown setting and no other, the unknown root first, both together when both are unknown |
| `Provider.ToDiagnostic` | internal/provider/provider.go:58-63 | an unknown root is reported on attribute `root`, an unknown or missing token on `token`, each under its own summary (lines 67-72, 91-97) |
| `Provider.ConfigDiagnosticsDistinct` | internal/provider/provider.go:57-97 | the three configuration problems have pairwise different summaries |
| `Provider.Configure` | internal/provider/provider.go:49-120 | an unknown setting reports and builds no client. An empty effective token, even a configured "", is an error and builds no client. Otherwise one client goes to resources and data sources alike, built from the resolved root (empty means the default host) and token |

## Notes on the source

- `internal/provider/pin_resource.go:99,107,181,194` do not compile.
  `paths` returns `[]string`, but `PinFolder` takes `[]client.File`, and
  `File`'s fields are unexported. The model follows the evident intent: each
  path becomes a file named by its base name (`FilesFor`).
- `internal/provider/pin_resource.go:144` does not compile either. It passes
  `PinById.Data.ID`, an `int` (`internal/client/models.go:11`), to
  `types.StringValue`. The model takes the id as a string, as everywhere else.
- Create and Update do not stop when the fingerprint fails
  (`internal/provider/pin_resource.go:99-105,181-187`). They upload the empty
  file list and store the checksum "". This looks unintended. It is modelled
  as written and stated in `CreateContinuesAfterChecksumError` and
  `UpdateContinuesAfterPathsError`.
- The upload is sent without a `Content-Type` header naming the multipart
  boundary (`internal/client/pin.go:48`), stated in
  `UploadCarriesOnlyAuthorization`.
- The pin name goes into the metadata JSON unescaped
  (`internal/client/pin.go:43`). A name containing `"` yields malformed JSON.
- Errors from opening or copying a file during the upload are ignored
  (`internal/client/pin.go:37-40`). A missing file becomes an empty part, not
  an error.
- Only status 200 succeeds; other 2xx statuses fail too.
- Reordering files whose contents differ does not always change the
  fingerprint (`ReorderingDifferentFilesCanCollide`). With an injective hash, the
  fingerprint changes exactly when the concatenated bytes change
  (`FingerprintsEqualIffConcatenationsEqual`).
- When Update reports an error, the response state is the framework's
  pre-populated planned record, not the prior record.

## Left out

- HTTP transport, connection errors, the 10-second timeout's effect, and reading the response body. A failed exchange or body read is a `NoResponse` reply.
- `http.NewRequest` failing on a malformed URL (`internal/client/pin.go:15-17,49-51,69-71`): request construction is taken to succeed.
- JSON encoding and decoding: a reply body carries the value the JSON library would decode it to. A body of the other record's shape decodes to the zero record, as `json.Unmarshal` does.
- SHA-256 and hex encoding: the `Digest` parameter. Only the bytes fed to it are modelled.
- File errors other than "no such file or directory" (permissions, directories, read failures): the file system map only tells existing files from missing ones. The fingerprint and the upload read the same snapshot.
- The clock: `time.Now().UnixMilli()` is the `millis` parameter.
- The multipart encoding itself: boundary, part headers and the closing delimiter. A body is the ordered list of parts.
- `PinResource.BaseName`: Go's `filepath.Base` also strips trailing slashes and returns "." for "". The model returns the text after the last '/'.
- The version number is kept as the text its `String()` gives; number formatting is not modelled.
- Framework glue: schema and metadata declarations other than `RequiresReplace` on `paths`, `ImportState` passthrough, the resource's `Configure` type assertion, `tflog` logging, and the diagnostics of `Get`/`Set`. Records arrive already decoded.
- Which lifecycle call Terraform invokes (update, or delete then create on replace), and what Terraform core stores when a call reports an error.
- The ModifyPlan call during destroy, when the plan is null and decoding it into the record fails. It is not modelled.
- `Provider.Configure`: the client-construction error branch (`internal/provider/provider.go:108-116`) is not modelled, because `NewClient` never returns an error.
- `Provider`'s `Metadata`, `Schema`, `Resources`, `DataSources` and `New` (`internal/provider/provider.go:30-47,122-138`): declarations only.
- `tools/tools.go`: code-generation directives only.
