/**
 * The `pinata_pin` resource: how Create, Read, Update, Delete and
 * ModifyPlan turn the planned and prior records, the files on disk and the
 * service's replies into the record Terraform stores, the diagnostics it
 * shows and the requests sent to the service.
 *
 * Each lifecycle call is a method that reassigns the record's fields step by
 * step, as the source does, and is proved equal to a specification function
 * (`CreateSpec`, ...); the lemmas below state the behaviour on those functions.
 * The response state starts as the framework sets it: null for Create, the
 * prior state for Read and Delete, the planned state for Update.
 */
module PinResource {
  import opened Wrappers
  import opened Os
  import opened Errors
  import opened Tf
  import opened Client
  import opened PinApi
  import opened Checksum
  import Decimal

  /** `pinResourceModel`. */
  datatype PinModel = PinModel(
    id: TfString,
    cid: TfString,
    name: TfString,
    version: TfNumber,
    paths: seq<TfString>,
    checksum: TfString)

  /**
   * What a lifecycle call leaves: the response state, the error diagnostics
   * it added (see `ToDiagnostic`), and the requests it sent, in order.
   */
  datatype Outcome = Outcome(state: Option<PinModel>, diagnostics: seq<Problem>, requests: seq<Request>)

  /** The schema name of the checksum attribute. */
  const HashAttribute: string := "hash"

  /** What ModifyPlan leaves: the plan, and the attributes whose change requires a replace. */
  datatype PlanOutcome = PlanOutcome(plan: PinModel, requiresReplace: seq<string>)

  const DefaultNamePrefix: string := "terraform-"

  /** The name given to a pin whose name is not configured: `terraform-<Unix milliseconds>`. */
  function DefaultName(millis: int): string {
    DefaultNamePrefix + Decimal.IntText(millis)
  }

  /** Pins created at different milliseconds get different default names. */
  lemma DefaultNamesDiffer(millis1: int, millis2: int)
    requires millis1 != millis2
    ensures DefaultName(millis1) != DefaultName(millis2)
  {
    var prefix := DefaultNamePrefix;
    if DefaultName(millis1) == DefaultName(millis2) {
      assert Decimal.IntText(millis1) == DefaultName(millis1)[|prefix|..] == DefaultName(millis2)[|prefix|..] == Decimal.IntText(millis2);
      Decimal.IntTextInjective(millis1, millis2);
    }
  }

  /** The last element of a slash-separated path. */
  function BaseName(p: string): (b: string)
    ensures '/' !in b
    ensures |b| <= |p| && p[|p| - |b|..] == b
    ensures |b| < |p| ==> p[|p| - |b| - 1] == '/'
  {
    if p == [] || p[|p| - 1] == '/' then [] else BaseName(p[..|p| - 1]) + [p[|p| - 1]]
  }

  /** The files to upload for the path list `paths` returns, each under its base name. */
  function FilesFor(ps: seq<string>): (files: seq<File>)
    ensures |files| == |ps|
    ensures forall i :: 0 <= i < |ps| ==> files[i] == File(BaseName(ps[i]), ps[i])
  {
    seq(|ps|, i requires 0 <= i < |ps| => File(BaseName(ps[i]), ps[i]))
  }

  // ---- diagnostics ----

  /** The error diagnostics the resource reports, by the call and step that failed. */
  datatype Problem =
    | ChecksumFailed(cause: Error)    // Create: `paths` failed
    | PathsFailed(cause: Error)       // Update: `paths` failed
    | PinFailed(cause: Error)         // Create, Update: the upload failed
    | ReadFailed(id: string, cause: Error)
    | UnpinFailed(cause: Error)       // Update, Delete: the unpin failed

  const PinningSummary: string := "Error pinning"
  const ReadSummary: string := "Error Reading Pinata pin"
  const UnpinSummary: string := "Error unpinning pin"
  const ReadDetail: string := "Could not read Pinata pin with ID "
  const ChecksumDetail: string := "Could not compute checksum: "
  const PathsDetail: string := "Could not process paths: "
  const PinDetail: string := "Could not pin resources, unexpected error: "
  const UnpinDetail: string := "Could not unpin, unexpected error: "
  const CauseSeparator: string := ": "

  /**
   * The diagnostic each problem is reported as: an error on no particular
   * attribute, whose summary names the step and whose detail ends with the
   * cause's text.
   */
  function ToDiagnostic(p: Problem): (d: Diagnostic)
    ensures d.attribute.None?
    ensures d.summary == PinningSummary <==> p.ChecksumFailed? || p.PathsFailed? || p.PinFailed?
    ensures d.summary == ReadSummary <==> p.ReadFailed?
    ensures d.summary == UnpinSummary <==> p.UnpinFailed?
  {
    match p
    case ChecksumFailed(e) => Diagnostic(None, PinningSummary, ChecksumDetail + Message(e))
    case PathsFailed(e) => Diagnostic(None, PinningSummary, PathsDetail + Message(e))
    case PinFailed(e) => Diagnostic(None, PinningSummary, PinDetail + Message(e))
    case ReadFailed(id, e) => Diagnostic(None, ReadSummary, ReadDetail + id + CauseSeparator + Message(e))
    case UnpinFailed(e) => Diagnostic(None, UnpinSummary, UnpinDetail + Message(e))
  }

  /** A diagnostic's detail ends with the text of the error that caused it. */
  lemma DetailEndsWithCause(p: Problem)
    ensures var detail := ToDiagnostic(p).detail;
      |detail| > |Message(p.cause)| && detail[|detail| - |Message(p.cause)|..] == Message(p.cause)
  {
  }

  /** A failed read names the id it looked up, right after the fixed text. */
  lemma ReadDiagnosticNamesId(id: string, e: Error)
    ensures var detail := ToDiagnostic(ReadFailed(id, e)).detail;
      |detail| > |ReadDetail| + |id| && detail[..|ReadDetail|] == ReadDetail
      && detail[|ReadDetail|..|ReadDetail| + |id|] == id
  {
  }

  // ---- specification functions ----

  /** The name Create pins under: the planned one, unless it is null or unknown. */
  function CreateName(planned: TfString, millis: int): TfString {
    if planned.Null? || planned.Unknown? then Known(DefaultName(millis)) else planned
  }

  function CreateSpec(c: Client, plan: PinModel, fs: FileSystem, digest: Digest, millis: int, reply: Reply): Outcome {
    var name := CreateName(plan.name, millis);
    var fingerprint := PathsResult(plan.paths, fs, digest);
    var diagnostics := if fingerprint.2.Some? then [ChecksumFailed(fingerprint.2.value)] else [];
    var request := PinFolderRequest(c, FilesFor(fingerprint.1), ValueString(name), NumberString(plan.version), fs);
    match PinFolderResult(reply)
    case Err(e) => Outcome(None, diagnostics + [PinFailed(e)], [request])
    case Ok(pin) =>
      var state := plan.(id := Known(pin.id), cid := Known(pin.ipfsHash), name := Known(pin.name),
                         checksum := Known(fingerprint.0));
      Outcome(Some(state), diagnostics, [request])
  }

  function ReadSpec(c: Client, state: PinModel, reply: Reply): Outcome {
    var request := GetRequest(c, ValueString(state.id));
    match GetPinByIdResult(reply)
    case Err(e) => Outcome(Some(state), [ReadFailed(ValueString(state.id), e)], [request])
    case Ok(pin) =>
      var refreshed := state.(id := Known(pin.data.id), cid := Known(pin.data.cid), name := Known(pin.data.name),
                              checksum := if state.checksum.Null? then Unknown else state.checksum);
      Outcome(Some(refreshed), [], [request])
  }

  /** The name Update pins under: the planned one, or the stored one when the plan's is null. */
  function UpdateName(planned: TfString, stored: TfString): TfString {
    if planned.Null? then stored else planned
  }

  function UpdateSpec(c: Client, plan: PinModel, state: PinModel, fs: FileSystem, digest: Digest,
                      unpinReply: Reply, pinReply: Reply): Outcome
  {
    var unpinRequest := UnpinRequest(c, ValueString(state.id));
    match UnpinResult(unpinReply)
    case Some(e) => Outcome(Some(plan), [UnpinFailed(e)], [unpinRequest])
    case None =>
      var fingerprint := PathsResult(plan.paths, fs, digest);
      var diagnostics := if fingerprint.2.Some? then [PathsFailed(fingerprint.2.value)] else [];
      var name := UpdateName(plan.name, state.name);
      var pinRequest := PinFolderRequest(c, FilesFor(fingerprint.1), ValueString(name), NumberString(plan.version), fs);
      match PinFolderResult(pinReply)
      case Err(e) => Outcome(Some(plan), diagnostics + [PinFailed(e)], [unpinRequest, pinRequest])
      case Ok(pin) =>
        var updated := plan.(id := Known(pin.id), cid := Known(pin.ipfsHash), checksum := Known(fingerprint.0));
        Outcome(Some(updated), diagnostics, [unpinRequest, pinRequest])
  }

  function DeleteSpec(c: Client, state: PinModel, reply: Reply): Outcome {
    var request := UnpinRequest(c, ValueString(state.id));
    match UnpinResult(reply)
    case Some(e) => Outcome(Some(state), [UnpinFailed(e)], [request])
    case None => Outcome(None, [], [request])
  }

  function ModifyPlanSpec(prior: Option<PinModel>, plan: PinModel, fs: FileSystem, digest: Digest): PlanOutcome {
    if prior.None? then PlanOutcome(plan, [])
    else
      var fingerprint := PathsResult(plan.paths, fs, digest);
      if fingerprint.2.Some? then PlanOutcome(plan, [])
      else
        var computed := fingerprint.0;
        PlanOutcome(plan.(checksum := Known(computed)),
                    if computed != ValueString(prior.value.checksum) then [HashAttribute] else [])
  }

  /** The schema's `RequiresReplace` on `paths`: an update that changes the path list replaces the pin. */
  function PathsRequireReplace(prior: Option<PinModel>, plan: PinModel): (replace: bool)
    ensures replace <==> prior.Some? && prior.value.paths != plan.paths
  {
    prior.Some? && prior.value.paths != plan.paths
  }

  // ---- the lifecycle methods ----

  method Create(c: Client, plan: PinModel, fs: FileSystem, digest: Digest, millis: int, reply: Reply)
    returns (resp: Outcome)
    ensures resp == CreateSpec(c, plan, fs, digest, millis, reply)
  {
    var diagnostics: seq<Problem> := [];
    var name := plan.name;
    if name.Null? || name.Unknown? {
      name := Known(DefaultName(millis));
    }

    var checksum, files, err := Paths(plan.paths, fs, digest);
    ghost var fingerprint := PathsResult(plan.paths, fs, digest);
    assert checksum == fingerprint.0 && files == fingerprint.1 && err == fingerprint.2;
    if err.Some? {
      diagnostics := diagnostics + [ChecksumFailed(err.value)];
    }
    assert name == CreateName(plan.name, millis);

    var pin, sent := PinFolder(c, FilesFor(files), ValueString(name), NumberString(plan.version), fs, reply);
    assert sent == PinFolderRequest(c, FilesFor(fingerprint.1), ValueString(CreateName(plan.name, millis)),
                                    NumberString(plan.version), fs);
    if pin.Err? {
      diagnostics := diagnostics + [PinFailed(pin.error)];
      return Outcome(None, diagnostics, [sent]);
    }
    var state := plan;
    state := state.(id := Known(pin.value.id));
    state := state.(cid := Known(pin.value.ipfsHash));
    state := state.(name := Known(pin.value.name));
    state := state.(checksum := Known(checksum));
    resp := Outcome(Some(state), diagnostics, [sent]);
  }

  method Read(c: Client, state: PinModel, reply: Reply) returns (resp: Outcome)
    ensures resp == ReadSpec(c, state, reply)
  {
    var pin, sent := GetPinById(c, ValueString(state.id), reply);
    if pin.Err? {
      return Outcome(Some(state), [ReadFailed(ValueString(state.id), pin.error)], [sent]);
    }
    var refreshed := state;
    refreshed := refreshed.(id := Known(pin.value.data.id));
    refreshed := refreshed.(cid := Known(pin.value.data.cid));
    refreshed := refreshed.(name := Known(pin.value.data.name));
    if refreshed.checksum.Null? {
      refreshed := refreshed.(checksum := Unknown);
    }
    resp := Outcome(Some(refreshed), [], [sent]);
  }

  method Update(c: Client, plan: PinModel, state: PinModel, fs: FileSystem, digest: Digest,
                unpinReply: Reply, pinReply: Reply)
    returns (resp: Outcome)
    ensures resp == UpdateSpec(c, plan, state, fs, digest, unpinReply, pinReply)
  {
    var err, unpinSent := Unpin(c, ValueString(state.id), unpinReply);
    if err.Some? {
      return Outcome(Some(plan), [UnpinFailed(err.value)], [unpinSent]);
    }

    var diagnostics: seq<Problem> := [];
    var checksum, files, pathsErr := Paths(plan.paths, fs, digest);
    ghost var fingerprint := PathsResult(plan.paths, fs, digest);
    assert checksum == fingerprint.0 && files == fingerprint.1 && pathsErr == fingerprint.2;
    if pathsErr.Some? {
      diagnostics := diagnostics + [PathsFailed(pathsErr.value)];
    }
    var name := plan.name;
    if name.Null? {
      name := state.name;
    }
    assert name == UpdateName(plan.name, state.name);

    var pin, pinSent := PinFolder(c, FilesFor(files), ValueString(name), NumberString(plan.version), fs, pinReply);
    assert pinSent == PinFolderRequest(c, FilesFor(fingerprint.1), ValueString(UpdateName(plan.name, state.name)),
                                       NumberString(plan.version), fs);
    if pin.Err? {
      diagnostics := diagnostics + [PinFailed(pin.error)];
      return Outcome(Some(plan), diagnostics, [unpinSent, pinSent]);
    }
    var updated := plan;
    updated := updated.(id := Known(pin.value.id));
    updated := updated.(cid := Known(pin.value.ipfsHash));
    updated := updated.(checksum := Known(checksum));
    resp := Outcome(Some(updated), diagnostics, [unpinSent, pinSent]);
  }

  method Delete(c: Client, state: PinModel, reply: Reply) returns (resp: Outcome)
    ensures resp == DeleteSpec(c, state, reply)
  {
    var err, sent := Unpin(c, ValueString(state.id), reply);
    if err.Some? {
      return Outcome(Some(state), [UnpinFailed(err.value)], [sent]);
    }
    // no error: the framework removes the resource from the state
    resp := Outcome(None, [], [sent]);
  }

  method ModifyPlan(prior: Option<PinModel>, plan: PinModel, fs: FileSystem, digest: Digest)
    returns (resp: PlanOutcome)
    ensures resp == ModifyPlanSpec(prior, plan, fs, digest)
  {
    resp := PlanOutcome(plan, []);
    if prior.None? {
      return;
    }
    var computed, _, err := Paths(plan.paths, fs, digest);
    if err.Some? {
      return;
    }
    var planned := plan;
    planned := planned.(checksum := Known(computed));
    var requiresReplace: seq<string> := [];
    if computed != ValueString(prior.value.checksum) {
      requiresReplace := [HashAttribute];
    }
    resp := PlanOutcome(planned, requiresReplace);
  }

  // ---- Create ----

  /** The metadata field of Create's upload names the planned pin, or `terraform-<millis>` when the name is null or unknown. */
  lemma CreateUploadsUnderResolvedName(c: Client, plan: PinModel, fs: FileSystem, digest: Digest, millis: int, reply: Reply)
    ensures var r := CreateSpec(c, plan, fs, digest, millis, reply);
      var expected := if plan.name.Known? then plan.name.value else DefaultName(millis);
      |r.requests| == 1 && r.requests[0].verb == Post && r.requests[0].url == PinURL(c)
      && |r.requests[0].body| >= 2
      && r.requests[0].body[|r.requests[0].body| - 2] == FieldPart(MetadataField, MetadataText(expected))
  {
    var files := FilesFor(PathsResult(plan.paths, fs, digest).1);
    var name := ValueString(CreateName(plan.name, millis));
    CreateSendsUpload(c, plan, fs, digest, millis, reply);
    UploadNamesPin(c, files, name, NumberString(plan.version), fs);
  }

  /** The one request Create sends: the upload of the fingerprinted files under the resolved name. */
  lemma CreateSendsUpload(c: Client, plan: PinModel, fs: FileSystem, digest: Digest, millis: int, reply: Reply)
    ensures CreateSpec(c, plan, fs, digest, millis, reply).requests
         == [PinFolderRequest(c, FilesFor(PathsResult(plan.paths, fs, digest).1), ValueString(CreateName(plan.name, millis)),
                              NumberString(plan.version), fs)]
  {
  }

  /**
   * A successful Create stores the identity, CID and name the service
   * reported, the locally computed fingerprint, and the planned version and
   * paths.
   */
  lemma CreateStoresServiceIdentity(c: Client, plan: PinModel, fs: FileSystem, digest: Digest, millis: int, reply: Reply, pin: PinFileToIpfs)
    requires PinFolderResult(reply) == Ok(pin)
    requires AllReadable(PathStrings(plan.paths), fs)
    ensures var r := CreateSpec(c, plan, fs, digest, millis, reply);
      r.diagnostics == []
      && r.state == Some(PinModel(Known(pin.id), Known(pin.ipfsHash), Known(pin.name), plan.version, plan.paths,
                                  Known(Fingerprint(PathStrings(plan.paths), fs, digest))))
  {
  }

  /** A failed upload sets no state and reports the failure last. */
  lemma CreateFailureSetsNoState(c: Client, plan: PinModel, fs: FileSystem, digest: Digest, millis: int, reply: Reply)
    requires PinFolderResult(reply).Err?
    ensures var r := CreateSpec(c, plan, fs, digest, millis, reply);
      r.state.None? && |r.diagnostics| >= 1 && r.diagnostics[|r.diagnostics| - 1] == PinFailed(PinFolderResult(reply).error)
  {
  }

  /**
   * Create does not stop when the fingerprint fails: it reports the file
   * error, still uploads, with no file parts at all, and on success stores an
   * empty checksum next to the new identity.
   */
  lemma CreateContinuesAfterChecksumError(c: Client, plan: PinModel, fs: FileSystem, digest: Digest, millis: int, reply: Reply)
    requires !AllReadable(PathStrings(plan.paths), fs)
    ensures var r := CreateSpec(c, plan, fs, digest, millis, reply);
      var ps := PathStrings(plan.paths);
      |r.diagnostics| >= 1 && r.diagnostics[0] == ChecksumFailed(FileError(ps[FirstUnreadable(ps, fs)]))
      && |r.requests| == 1 && |r.requests[0].body| == 2
      && (PinFolderResult(reply).Ok? ==>
            var pin := PinFolderResult(reply).value;
            r.state == Some(plan.(id := Known(pin.id), cid := Known(pin.ipfsHash), name := Known(pin.name),
                                  checksum := Known(""))))
  {
  }

  // ---- Read ----

  /**
   * Read overwrites only the identity (id, CID, name) with the fetched
   * values; a null checksum becomes unknown, any other is kept. On a failed
   * fetch the state is left exactly as it was.
   */
  lemma ReadRefreshesIdentityOnly(c: Client, state: PinModel, reply: Reply)
    ensures var r := ReadSpec(c, state, reply);
      r.requests == [GetRequest(c, ValueString(state.id))] && r.state.Some?
      && (GetPinByIdResult(reply).Err? ==>
            r.state == Some(state) && r.diagnostics == [ReadFailed(ValueString(state.id), GetPinByIdResult(reply).error)])
      && (GetPinByIdResult(reply).Ok? ==>
            var data := GetPinByIdResult(reply).value.data;
            r.diagnostics == []
            && r.state.value.id == Known(data.id) && r.state.value.cid == Known(data.cid)
            && r.state.value.name == Known(data.name)
            && r.state.value.version == state.version && r.state.value.paths == state.paths
            && (state.checksum.Null? ==> r.state.value.checksum.Unknown?)
            && (!state.checksum.Null? ==> r.state.value.checksum == state.checksum))
  {
  }

  /** Reading twice against an unchanged service gives the state of reading once. */
  lemma ReadIsIdempotent(c: Client, state: PinModel, reply: Reply)
    requires GetPinByIdResult(reply).Ok?
    ensures var once := ReadSpec(c, state, reply).state.value;
      ReadSpec(c, once, reply).state == Some(once)
  {
  }

  /**
   * Create then Read: when the service reports for the new id the same name
   * and CID it answered the upload with, Read looks up that id and leaves the
   * created state exactly as it was.
   */
  lemma CreateThenReadRoundTrip(c: Client, plan: PinModel, fs: FileSystem, digest: Digest, millis: int,
                                pinReply: Reply, readReply: Reply, pin: PinFileToIpfs)
    requires PinFolderResult(pinReply) == Ok(pin)
    requires GetPinByIdResult(readReply) == Ok(PinById(PinData(pin.id, pin.name, pin.ipfsHash)))
    ensures var created := CreateSpec(c, plan, fs, digest, millis, pinReply).state;
      created.Some?
      && ReadSpec(c, created.value, readReply).requests == [GetRequest(c, pin.id)]
      && ReadSpec(c, created.value, readReply).state == created
  {
  }

  // ---- Update ----

  /**
   * Update unpins the stored id before anything else; when that fails it
   * reports the error and sends nothing more.
   */
  lemma UpdateUnpinsFirst(c: Client, plan: PinModel, state: PinModel, fs: FileSystem, digest: Digest,
                          unpinReply: Reply, pinReply: Reply)
    ensures var r := UpdateSpec(c, plan, state, fs, digest, unpinReply, pinReply);
      |r.requests| >= 1 && r.requests[0] == UnpinRequest(c, ValueString(state.id))
      && (UnpinResult(unpinReply).Some? <==> |r.requests| == 1)
      && (UnpinResult(unpinReply).Some? ==> r.diagnostics == [UnpinFailed(UnpinResult(unpinReply).value)] && r.state == Some(plan))
      && (UnpinResult(unpinReply).None? ==> |r.requests| == 2 && r.requests[1].verb == Post && r.requests[1].url == PinURL(c))
  {
  }

  /**
   * Update uploads under the planned name, falling back to the stored name
   * only when the planned one is null; an unknown planned name is sent as the
   * empty string.
   */
  lemma UpdateUploadsUnderResolvedName(c: Client, plan: PinModel, state: PinModel, fs: FileSystem, digest: Digest,
                                       unpinReply: Reply, pinReply: Reply)
    requires UnpinResult(unpinReply).None?
    ensures var r := UpdateSpec(c, plan, state, fs, digest, unpinReply, pinReply);
      var expected := if plan.name.Null? then ValueString(state.name) else ValueString(plan.name);
      |r.requests| == 2 && |r.requests[1].body| >= 2
      && r.requests[1].body[|r.requests[1].body| - 2] == FieldPart(MetadataField, MetadataText(expected))
      && (plan.name.Unknown? ==> expected == "")
  {
    var files := FilesFor(PathsResult(plan.paths, fs, digest).1);
    var name := ValueString(UpdateName(plan.name, state.name));
    UpdateSendsUpload(c, plan, state, fs, digest, unpinReply, pinReply);
    UploadNamesPin(c, files, name, NumberString(plan.version), fs);
  }

  /** After a successful unpin, Update sends the upload of the fingerprinted files under the resolved name. */
  lemma UpdateSendsUpload(c: Client, plan: PinModel, state: PinModel, fs: FileSystem, digest: Digest,
                          unpinReply: Reply, pinReply: Reply)
    requires UnpinResult(unpinReply).None?
    ensures UpdateSpec(c, plan, state, fs, digest, unpinReply, pinReply).requests
         == [UnpinRequest(c, ValueString(state.id)),
             PinFolderRequest(c, FilesFor(PathsResult(plan.paths, fs, digest).1), ValueString(UpdateName(plan.name, state.name)),
                              NumberString(plan.version), fs)]
  {
  }

  /**
   * A successful Update takes the new id, CID and fingerprint and keeps
   * everything else as planned: the name is not taken from the service.
   */
  lemma UpdateStoresNewIdentity(c: Client, plan: PinModel, state: PinModel, fs: FileSystem, digest: Digest,
                                unpinReply: Reply, pinReply: Reply, pin: PinFileToIpfs)
    requires UnpinResult(unpinReply).None? && PinFolderResult(pinReply) == Ok(pin)
    requires AllReadable(PathStrings(plan.paths), fs)
    ensures var r := UpdateSpec(c, plan, state, fs, digest, unpinReply, pinReply);
      r.diagnostics == []
      && r.state == Some(PinModel(Known(pin.id), Known(pin.ipfsHash), plan.name, plan.version, plan.paths,
                                  Known(Fingerprint(PathStrings(plan.paths), fs, digest))))
  {
  }

  /**
   * Update does not stop when the fingerprint fails either: it reports the
   * file error, uploads a body with no file parts, and on success stores an
   * empty checksum.
   */
  lemma UpdateContinuesAfterPathsError(c: Client, plan: PinModel, state: PinModel, fs: FileSystem, digest: Digest,
                                       unpinReply: Reply, pinReply: Reply)
    requires UnpinResult(unpinReply).None?
    requires !AllReadable(PathStrings(plan.paths), fs)
    ensures var r := UpdateSpec(c, plan, state, fs, digest, unpinReply, pinReply);
      var ps := PathStrings(plan.paths);
      |r.diagnostics| >= 1 && r.diagnostics[0] == PathsFailed(FileError(ps[FirstUnreadable(ps, fs)]))
      && |r.requests| == 2 && |r.requests[1].body| == 2
      && (PinFolderResult(pinReply).Ok? ==>
            var pin := PinFolderResult(pinReply).value;
            r.state == Some(plan.(id := Known(pin.id), cid := Known(pin.ipfsHash), checksum := Known(""))))
  {
    UpdateSendsUpload(c, plan, state, fs, digest, unpinReply, pinReply);
  }
  /**
   * A failed upload after a successful unpin leaves the planned state in
   * place (the framework's pre-populated value), with the upload error last.
   */
  lemma UpdateUploadFailureKeepsPlan(c: Client, plan: PinModel, state: PinModel, fs: FileSystem, digest: Digest,
                                     unpinReply: Reply, pinReply: Reply)
    requires UnpinResult(unpinReply).None? && PinFolderResult(pinReply).Err?
    ensures var r := UpdateSpec(c, plan, state, fs, digest, unpinReply, pinReply);
      r.state == Some(plan) && |r.requests| == 2 && r.requests[0] == UnpinRequest(c, ValueString(state.id))
      && |r.diagnostics| >= 1 && r.diagnostics[|r.diagnostics| - 1] == PinFailed(PinFolderResult(pinReply).error)
  {
  }

  // ---- Delete ----

  /** Delete unpins the stored id; the resource leaves the state only when the unpin succeeded. */
  lemma DeleteKeepsStateOnFailure(c: Client, state: PinModel, reply: Reply)
    ensures var r := DeleteSpec(c, state, reply);
      r.requests == [UnpinRequest(c, ValueString(state.id))]
      && (UnpinResult(reply).Some? ==> r.state == Some(state) && r.diagnostics == [UnpinFailed(UnpinResult(reply).value)])
      && (UnpinResult(reply).None? ==> r.state.None? && r.diagnostics == [])
  {
  }

  // ---- ModifyPlan ----

  /**
   * ModifyPlan leaves the plan alone when there is no prior state or the
   * fingerprint cannot be computed; otherwise it plans the computed
   * fingerprint and requires a replace on `hash` exactly when it differs from
   * the stored one.
   */
  lemma ModifyPlanDecidesReplace(prior: Option<PinModel>, plan: PinModel, fs: FileSystem, digest: Digest)
    ensures var r := ModifyPlanSpec(prior, plan, fs, digest);
      var ps := PathStrings(plan.paths);
      (prior.None? || !AllReadable(ps, fs) ==> r == PlanOutcome(plan, []))
      && (prior.Some? && AllReadable(ps, fs) ==>
            var computed := Fingerprint(ps, fs, digest);
            r.plan == plan.(checksum := Known(computed))
            && (r.requiresReplace == [HashAttribute] <==> computed != ValueString(prior.value.checksum))
            && (r.requiresReplace == [] <==> computed == ValueString(prior.value.checksum)))
  {
  }

  /**
   * A state whose checksum is null or unknown (an imported pin, once read)
   * is replaced at the next plan when every declared file can be read and
   * the digest is 64 hex characters: such a digest is never empty.
   */
  lemma UnknownChecksumForcesReplace(prior: PinModel, plan: PinModel, fs: FileSystem, digest: Digest)
    requires forall b: Bytes :: |digest(b)| == 64
    requires !prior.checksum.Known?
    requires AllReadable(PathStrings(plan.paths), fs)
    ensures ModifyPlanSpec(Some(prior), plan, fs, digest).requiresReplace == [HashAttribute]
  {
    var computed := Fingerprint(PathStrings(plan.paths), fs, digest);
    assert |computed| == 64;
  }

  /**
   * The two replace triggers together: with the same path list and files
   * whose bytes have not changed since the stored fingerprint, nothing forces
   * a replace.
   */
  lemma UnchangedInputsNeedNoReplace(prior: PinModel, plan: PinModel, fs: FileSystem, digest: Digest)
    requires plan.paths == prior.paths
    requires AllReadable(PathStrings(plan.paths), fs)
    requires prior.checksum == Known(Fingerprint(PathStrings(prior.paths), fs, digest))
    ensures !PathsRequireReplace(Some(prior), plan)
    ensures ModifyPlanSpec(Some(prior), plan, fs, digest).requiresReplace == []
  {
  }

  /**
   * Declared files created as a pin; the same declaration plans no replace;
   * once one of the files is rewritten with different bytes, of any length,
   * the plan requires a replace (given a hash that tells byte strings apart).
   */
  lemma EditedFileForcesReplace(c: Client, plan: PinModel, fs: FileSystem, digest: Digest, millis: int, reply: Reply,
                                pin: PinFileToIpfs, edited: string, content: Bytes)
    requires Injective(digest)
    requires PinFolderResult(reply) == Ok(pin)
    requires AllReadable(PathStrings(plan.paths), fs)
    requires edited in PathStrings(plan.paths) && content != fs[edited]
    ensures var created := CreateSpec(c, plan, fs, digest, millis, reply).state;
      created.Some?
      && ModifyPlanSpec(created, plan, fs, digest).requiresReplace == []
      && ModifyPlanSpec(created, plan, fs[edited := content], digest).requiresReplace == [HashAttribute]
  {
    var ps := PathStrings(plan.paths);
    CreateStoresServiceIdentity(c, plan, fs, digest, millis, reply, pin);
    var created := CreateSpec(c, plan, fs, digest, millis, reply).state.value;
    UnchangedInputsNeedNoReplace(created, plan, fs, digest);
    FingerprintSensitiveToContent(ps, fs, edited, content, digest);
    ModifyPlanDecidesReplace(Some(created), plan, fs[edited := content], digest);
  }

  /**
   * Updating a created pin after one of its files was edited unpins the
   * created pin, stores the identity of the new upload and a fingerprint
   * different from the created one.
   */
  lemma EditedFileUpdateStoresNewFingerprint(c: Client, plan: PinModel, fs: FileSystem, digest: Digest, millis: int,
                                             reply: Reply, pin: PinFileToIpfs, edited: string, content: Bytes,
                                             unpinReply: Reply, pinReply: Reply, repinned: PinFileToIpfs)
    requires Injective(digest)
    requires PinFolderResult(reply) == Ok(pin)
    requires AllReadable(PathStrings(plan.paths), fs)
    requires edited in PathStrings(plan.paths) && content != fs[edited]
    requires UnpinResult(unpinReply).None? && PinFolderResult(pinReply) == Ok(repinned)
    ensures var created := CreateSpec(c, plan, fs, digest, millis, reply).state;
      created.Some?
      && var r := UpdateSpec(c, plan, created.value, fs[edited := content], digest, unpinReply, pinReply);
      |r.requests| == 2 && r.requests[0] == UnpinRequest(c, pin.id) && r.diagnostics == []
      && r.state.Some? && r.state.value.id == Known(repinned.id) && r.state.value.cid == Known(repinned.ipfsHash)
      && r.state.value.checksum != created.value.checksum
  {
    var ps := PathStrings(plan.paths);
    CreateStoresServiceIdentity(c, plan, fs, digest, millis, reply, pin);
    var created := CreateSpec(c, plan, fs, digest, millis, reply).state.value;
    FingerprintSensitiveToContent(ps, fs, edited, content, digest);
    UpdateStoresNewIdentity(c, plan, created, fs[edited := content], digest, unpinReply, pinReply, repinned);
  }

  /**
   * The two-file scenario: "x" and "y" pinned; planning again needs no
   * replace; once the second file reads "z" the plan requires a replace, and
   * an update unpins the first pin and stores the second under a new
   * fingerprint, with an injective hash.
   */
  lemma EditedFileExample(c: Client, plan: PinModel, digest: Digest, millis: int, reply: Reply, pin: PinFileToIpfs,
                          a: string, b: string, unpinReply: Reply, pinReply: Reply, repinned: PinFileToIpfs)
    requires Injective(digest)
    requires a != b && plan.paths == [Known(a), Known(b)]
    requires PinFolderResult(reply) == Ok(pin)
    requires UnpinResult(unpinReply).None? && PinFolderResult(pinReply) == Ok(repinned)
    ensures var fs := map[a := [120 as bv8], b := [121 as bv8]];
      var created := CreateSpec(c, plan, fs, digest, millis, reply).state;
      created.Some?
      && ModifyPlanSpec(created, plan, fs, digest).requiresReplace == []
      && ModifyPlanSpec(created, plan, fs[b := [122 as bv8]], digest).requiresReplace == [HashAttribute]
      && var r := UpdateSpec(c, plan, created.value, fs[b := [122 as bv8]], digest, unpinReply, pinReply);
      r.requests[0] == UnpinRequest(c, pin.id)
      && r.state.Some? && r.state.value.id == Known(repinned.id)
      && r.state.value.checksum != created.value.checksum
  {
    var fs := map[a := [120 as bv8], b := [121 as bv8]];
    assert PathStrings(plan.paths) == [a, b];
    EditedFileForcesReplace(c, plan, fs, digest, millis, reply, pin, b, [122 as bv8]);
    EditedFileUpdateStoresNewFingerprint(c, plan, fs, digest, millis, reply, pin, b, [122 as bv8],
                                         unpinReply, pinReply, repinned);
  }
}
