/**
 Two uploads of one content completing at once: a run that reaches the lost race, and exactly when the
 publishing transaction fails.
 */
module LibraryRace {
  import opened Bytes
  import opened MaterialFiles
  import opened UploadRecords
  import opened UploadGuards
  import opened LibraryDisk
  import opened LibrarySteps
  import opened LibraryWorld
  import opened LibraryRows
  import opened LibraryStates
  import opened LibraryFiles
  import opened LibraryPublication
  import opened LibraryReconcile
  import opened LibraryReconcileRun

  /**
   The publishing transaction fails exactly when the hash's blob row is already there, for an operation
   that meant to insert it, or the drawn identifier is taken.
   */
  lemma PublicationFailsIff(sha: Sha256, world: World, upload: UploadId, path: Path, createBlob: bool,
                            wrote: nat, material: MaterialId)
    requires RowInv(sha, world)
    requires upload in world.running && world.running[upload] == PublishReference(path, createBlob)
    ensures Known(world.disk, upload)
    ensures Advance(sha, world.disk, upload, world.running[upload], wrote, material).1 == Finished(Threw(ConstraintViolated))
       <==> (createBlob && world.disk.rows[upload].sha in world.disk.blobs) || material in world.disk.references
  {
    hide OrderOk, ReferencesOk, OneReferenceEach, BlobPathsOk, ChunkTableOk, Referenced;
    assert PcOk(sha, world.disk, upload, world.running[upload]);
    assert RowOk(world.disk, upload);
  }

  // The run, phase by phase

  /** Everything that belongs to other uploads is as before; no row was published. */
  ghost predicate OthersSame(before: World, after: World, upload: UploadId) {
    && (forall v :: v != upload ==>
          && (v in before.disk.rows <==> v in after.disk.rows)
          && (v in before.disk.chunks <==> v in after.disk.chunks)
          && (v in before.disk.rows ==> after.disk.rows[v] == before.disk.rows[v])
          && (v in before.disk.chunks ==> after.disk.chunks[v] == before.disk.chunks[v])
          && (v in before.running <==> v in after.running)
          && (v in before.running ==> after.running[v] == before.running[v])
          && (StagingPath(v) in before.disk.files <==> StagingPath(v) in after.disk.files)
          && (StagingPath(v) in before.disk.files ==>
                after.disk.files[StagingPath(v)] == before.disk.files[StagingPath(v)]))
    && after.disk.blobs == before.disk.blobs
    && after.disk.references == before.disk.references
    && after.creation == before.creation
  }

  ghost predicate SameBlobFiles(before: Disk, after: Disk) {
    forall hash :: BlobPath(hash) in after.files <==> BlobPath(hash) in before.files
  }

  function CreateEvents(upload: UploadId, request: CreateRequest): seq<Event> {
    [BeginCreate(request), AssessCreate, OpenStaging(upload), InsertCreated, Turn(upload, 0, "")]
  }

  function AppendEvents(upload: UploadId, input: AppendInput): seq<Event> {
    [StartAppend(upload, input), Turn(upload, |input.bytes|, ""), Turn(upload, 0, ""), Turn(upload, 0, ""), Turn(upload, 0, "")]
  }

  function Turns(upload: UploadId, count: nat): seq<Event> {
    if count == 0 then [] else [Turn(upload, 0, "")] + Turns(upload, count - 1)
  }

  /** One event in front of a run. */
  lemma RunPrepend(sha: Sha256, world: World, event: Event, rest: seq<Event>)
    requires Enabled(sha, world, event) && Legal(sha, Apply(sha, world, event), rest)
    ensures Legal(sha, world, [event] + rest)
    ensures After(sha, world, [event] + rest) == After(sha, Apply(sha, world, event), rest)
  {
    hide Enabled, Apply;
    assert ([event] + rest)[1..] == rest;
  }

  lemma RunOfNone(sha: Sha256, world: World)
    ensures Legal(sha, world, []) && After(sha, world, []) == world
  {
  }

  lemma RunOfFive(sha: Sha256, world: World, a: Event, b: Event, c: Event, d: Event, e: Event)
    requires Enabled(sha, world, a)
    requires (var w1 := Apply(sha, world, a);
              && Enabled(sha, w1, b)
              && (var w2 := Apply(sha, w1, b);
                  && Enabled(sha, w2, c)
                  && (var w3 := Apply(sha, w2, c);
                      Enabled(sha, w3, d) && Enabled(sha, Apply(sha, w3, d), e))))
    ensures Legal(sha, world, [a, b, c, d, e])
    ensures After(sha, world, [a, b, c, d, e])
         == Apply(sha, Apply(sha, Apply(sha, Apply(sha, Apply(sha, world, a), b), c), d), e)
  {
    hide Enabled, Apply;
    var w1 := Apply(sha, world, a);
    var w2 := Apply(sha, w1, b);
    var w3 := Apply(sha, w2, c);
    var w4 := Apply(sha, w3, d);
    RunOfNone(sha, Apply(sha, w4, e));
    RunPrepend(sha, w4, e, []);
    RunPrepend(sha, w3, d, [e]);
    RunPrepend(sha, w2, c, [d, e]);
    RunPrepend(sha, w1, b, [c, d, e]);
    RunPrepend(sha, world, a, [b, c, d, e]);
    assert [e] + [] == [e] && [d] + [e] == [d, e] && [c] + [d, e] == [c, d, e];
    assert [b] + [c, d, e] == [b, c, d, e] && [a] + [b, c, d, e] == [a, b, c, d, e];
  }

  /** A turn whose result is known, and takes no space that is not there. */
  lemma TurnIs(sha: Sha256, world: World, upload: UploadId, wrote: nat, material: MaterialId, disk: Disk, pc: Pc)
    requires upload in world.running && Known(world.disk, upload)
    requires Advance(sha, world.disk, upload, world.running[upload], wrote, material) == (disk, pc) && 0 <= disk.free
    ensures Enabled(sha, world, Turn(upload, wrote, material))
    ensures Apply(sha, world, Turn(upload, wrote, material))
         == world.(disk := disk, running := Resume(world.running, upload, pc))
  {
    hide Advance;
  }

  function Created(disk: Disk, upload: UploadId, request: CreateRequest): Disk {
    var row := UploadRow(request.expected, request.sha, request.target, Transferring, 0, 0);
    InsertUpload(CreateFile(disk, StagingPath(upload)), upload, row)
  }

  lemma CreateSteps(sha: Sha256, world: World, upload: UploadId, request: CreateRequest)
    requires world.creation.NoCreation? && upload !in world.disk.rows && upload !in world.running
    requires StagingPath(upload) !in world.disk.files
    requires 0 <= Reserved(world.disk) + request.expected <= world.disk.free
    ensures Enabled(sha, world, BeginCreate(request))
    ensures (var w1 := Apply(sha, world, BeginCreate(request));
             && Enabled(sha, w1, AssessCreate)
             && (var w2 := Apply(sha, w1, AssessCreate);
                 && Enabled(sha, w2, OpenStaging(upload))
                 && (var w3 := Apply(sha, w2, OpenStaging(upload));
                     && Enabled(sha, w3, InsertCreated)
                     && (var changed := Created(world.disk, upload, request);
                         Apply(sha, w3, InsertCreated) ==
                         World(changed, world.running[upload := Mirror(ManifestOf(changed, upload), Finished(Done))],
                               NoCreation)))))
  {
    hide Reserved, ManifestOf, FreeAfter, BeginAppend, Advance;
  }

  /** A creation that fits: row, chunks and staging file of a new upload. */
  lemma CreateRun(sha: Sha256, world: World, upload: UploadId, request: CreateRequest)
    requires world.creation.NoCreation? && upload !in world.disk.rows && upload !in world.running
    requires StagingPath(upload) !in world.disk.files
    requires 0 <= world.disk.free && 0 <= Reserved(world.disk) + request.expected <= world.disk.free
    ensures Legal(sha, world, CreateEvents(upload, request))
    ensures (var after := After(sha, world, CreateEvents(upload, request));
             && OthersSame(world, after, upload) && Known(after.disk, upload)
             && after.disk.rows[upload] == UploadRow(request.expected, request.sha, request.target, Transferring, 0, 0)
             && after.disk.chunks[upload] == [] && upload !in after.running
             && StagingPath(upload) in after.disk.files && after.disk.files[StagingPath(upload)] == EMPTY_FILE
             && after.disk.free == world.disk.free
             && after.disk.order == world.disk.order + [upload]
             && SameBlobFiles(world.disk, after.disk))
  {
    hide Reserved, ManifestOf, Enabled, Apply, Legal, After;
    CreateSteps(sha, world, upload, request);
    var changed := Created(world.disk, upload, request);
    var mirror := ManifestOf(changed, upload);
    var w4 := World(changed, world.running[upload := Mirror(mirror, Finished(Done))], NoCreation);
    CreateEffect(world, upload, request, mirror);
    TurnIs(sha, w4, upload, 0, "", SaveManifest(changed, upload, mirror), Finished(Done));
    assert w4.running - {upload} == world.running;
    hide Created, OthersSame;
    RunOfFive(sha, world, BeginCreate(request), AssessCreate, OpenStaging(upload), InsertCreated, Turn(upload, 0, ""));
  }

  lemma CreateEffect(world: World, upload: UploadId, request: CreateRequest, mirror: Manifest)
    requires world.creation.NoCreation? && upload !in world.disk.rows
    ensures (var disk := SaveManifest(Created(world.disk, upload, request), upload, mirror);
             && OthersSame(world, world.(disk := disk), upload) && Known(disk, upload)
             && disk.rows[upload] == UploadRow(request.expected, request.sha, request.target, Transferring, 0, 0)
             && disk.chunks[upload] == []
             && StagingPath(upload) in disk.files && disk.files[StagingPath(upload)] == EMPTY_FILE
             && disk.free == world.disk.free && disk.order == world.disk.order + [upload]
             && SameBlobFiles(world.disk, disk))
    ensures Created(world.disk, upload, request).free == world.disk.free
    ensures Known(Created(world.disk, upload, request), upload)
  {
  }

  lemma FirstChunkFits(sha: Sha256, row: UploadRow, data: seq<Byte>)
    requires row.state == Transferring && row.expected == |data| <= MAX_SAFE_INTEGER
    ensures JudgeAppend(sha, row, [], AppendInput(0, 0, data, sha(data))) == Accepted
  {
  }

  lemma WholeWrite(data: seq<Byte>)
    ensures (var file := Write(EMPTY_FILE, 0, data);
             && file.bytes == data && |file.blocks| == |data|
             && Sync(file).bytes == data && Sync(file).blocks == file.blocks)
  {
    assert EMPTY_FILE.blocks + Positions(0, |data|) == Positions(0, |data|);
  }

  lemma StartAppendIs(sha: Sha256, world: World, upload: UploadId, input: AppendInput)
    requires Known(world.disk, upload) && upload !in world.running
    requires JudgeAppend(sha, world.disk.rows[upload], world.disk.chunks[upload], input) == Accepted
    ensures Enabled(sha, world, StartAppend(upload, input))
    ensures Apply(sha, world, StartAppend(upload, input)) == world.(running := world.running[upload := WriteChunk(input, 0)])
  {
    hide JudgeAppend;
  }

  /** The whole content in one chunk: written at once, synced, recorded and mirrored. */
  lemma AppendRun(sha: Sha256, world: World, upload: UploadId, data: seq<Byte>)
    requires Known(world.disk, upload) && upload !in world.running
    requires world.disk.rows[upload].state == Transferring && world.disk.rows[upload].received == 0
    requires world.disk.rows[upload].expected == |data| && 0 < |data| <= MAX_SAFE_INTEGER
    requires world.disk.chunks[upload] == [] && |data| <= world.disk.free
    requires StagingPath(upload) in world.disk.files && world.disk.files[StagingPath(upload)] == EMPTY_FILE
    ensures (var events := AppendEvents(upload, AppendInput(0, 0, data, sha(data)));
             && Legal(sha, world, events)
             && (var after := After(sha, world, events);
                 && OthersSame(world, after, upload) && Known(after.disk, upload)
                 && after.disk.rows[upload] == world.disk.rows[upload].(ackEpoch := world.disk.rows[upload].ackEpoch + 1,
                                                                        received := |data|)
                 && upload !in after.running
                 && StagingPath(upload) in after.disk.files && after.disk.files[StagingPath(upload)].bytes == data
                 && |after.disk.files[StagingPath(upload)].blocks| == |data|
                 && after.disk.free == world.disk.free - |data|
                 && after.disk.order == world.disk.order
                 && SameBlobFiles(world.disk, after.disk)))
  {
    hide JudgeAppend, Written, Appended, Enabled, Apply, Legal, After, OthersSame, InsertChunk, SaveManifest, ManifestOf;
    hide AppendEvents, SameBlobFiles;
    var input := AppendInput(0, 0, data, sha(data));
    FirstChunkFits(sha, world.disk.rows[upload], data);
    AppendSteps(sha, world, upload, input);
    WrittenIs(world, upload, input);
    AppendOwn(world, upload, input);
    AppendOthers(world, upload, input);
    AppendEnd(sha, Written(world, upload, input), upload, input);
    AppendedIs(world, upload, input);
    RunOfFive(sha, world, StartAppend(upload, input), Turn(upload, |data|, ""), Turn(upload, 0, ""), Turn(upload, 0, ""),
              Turn(upload, 0, ""));
    AppendEventsAre(upload, input);
  }

  lemma AppendedIs(world: World, upload: UploadId, input: AppendInput)
    requires StagingPath(upload) in world.disk.files && Known(world.disk, upload)
    ensures (var w3 := Written(world, upload, input);
             && Known(w3.disk, upload)
             && (var changed := InsertChunk(w3.disk, upload, RecordOf(input));
                 Appended(world, upload, input)
                 == w3.(disk := SaveManifest(changed, upload, ManifestOf(changed, upload)), running := w3.running - {upload})))
  {
    hide Write, Sync, ManifestOf;
  }

  lemma AppendEventsAre(upload: UploadId, input: AppendInput)
    ensures AppendEvents(upload, input)
         == [StartAppend(upload, input), Turn(upload, |input.bytes|, ""), Turn(upload, 0, ""), Turn(upload, 0, ""), Turn(upload, 0, "")]
  {
  }

  /** The world once the chunk is written and synced. */
  function Written(world: World, upload: UploadId, input: AppendInput): World
    requires StagingPath(upload) in world.disk.files
  {
    var staging := StagingPath(upload);
    world.(disk := SyncFile(WriteFile(world.disk, staging, 0, input.bytes), staging),
           running := world.running[upload := PersistChunk(input)])
  }

  lemma AppendSteps(sha: Sha256, world: World, upload: UploadId, input: AppendInput)
    requires Known(world.disk, upload) && upload !in world.running && input.offset == 0 && 0 < |input.bytes|
    requires JudgeAppend(sha, world.disk.rows[upload], world.disk.chunks[upload], input) == Accepted
    requires StagingPath(upload) in world.disk.files && world.disk.files[StagingPath(upload)] == EMPTY_FILE
    requires |input.bytes| <= world.disk.free
    ensures Enabled(sha, world, StartAppend(upload, input))
    ensures (var w1 := Apply(sha, world, StartAppend(upload, input));
             && Enabled(sha, w1, Turn(upload, |input.bytes|, ""))
             && (var w2 := Apply(sha, w1, Turn(upload, |input.bytes|, ""));
                 && Enabled(sha, w2, Turn(upload, 0, ""))
                 && Apply(sha, w2, Turn(upload, 0, "")) == Written(world, upload, input)))
  {
    hide JudgeAppend, Write, Sync, Enabled, Apply;
    var size, staging := |input.bytes|, StagingPath(upload);
    StartAppendIs(sha, world, upload, input);
    WholeWrite(input.bytes);
    var w1 := world.(running := world.running[upload := WriteChunk(input, 0)]);
    assert input.bytes[0..0 + size] == input.bytes;
    var d2 := WriteFile(world.disk, staging, 0, input.bytes);
    TurnIs(sha, w1, upload, size, "", d2, WriteChunk(input, size));
    var w2 := w1.(disk := d2, running := w1.running[upload := WriteChunk(input, size)]);
    TurnIs(sha, w2, upload, 0, "", SyncFile(d2, staging), PersistChunk(input));
    assert w2.running[upload := PersistChunk(input)] == world.running[upload := PersistChunk(input)];
  }

  /** The world once the chunk is recorded and mirrored too. */
  function Appended(world: World, upload: UploadId, input: AppendInput): World
    requires StagingPath(upload) in world.disk.files && Known(world.disk, upload)
  {
    var w3 := Written(world, upload, input);
    var changed := InsertChunk(w3.disk, upload, RecordOf(input));
    w3.(disk := SaveManifest(changed, upload, ManifestOf(changed, upload)), running := w3.running - {upload})
  }

  lemma WrittenIs(world: World, upload: UploadId, input: AppendInput)
    requires Known(world.disk, upload) && |input.bytes| <= world.disk.free
    requires StagingPath(upload) in world.disk.files && world.disk.files[StagingPath(upload)] == EMPTY_FILE
    ensures (var w3 := Written(world, upload, input);
             && Known(w3.disk, upload) && upload in w3.running && w3.running[upload] == PersistChunk(input)
             && w3.disk.free == world.disk.free - |input.bytes| && 0 <= w3.disk.free
             && StagingPath(upload) in w3.disk.files && w3.disk.files[StagingPath(upload)].bytes == input.bytes
             && |w3.disk.files[StagingPath(upload)].blocks| == |input.bytes|)
  {
    hide Write, Sync;
    WholeWrite(input.bytes);
  }

  lemma AppendOwn(world: World, upload: UploadId, input: AppendInput)
    requires Known(world.disk, upload) && |input.bytes| <= world.disk.free
    requires StagingPath(upload) in world.disk.files && world.disk.files[StagingPath(upload)] == EMPTY_FILE
    ensures (var after, row := Appended(world, upload, input), world.disk.rows[upload];
             && Known(after.disk, upload)
             && after.disk.rows[upload] == row.(ackEpoch := row.ackEpoch + 1, received := row.received + |input.bytes|)
             && upload !in after.running
             && StagingPath(upload) in after.disk.files && after.disk.files[StagingPath(upload)].bytes == input.bytes
             && |after.disk.files[StagingPath(upload)].blocks| == |input.bytes|
             && after.disk.free == world.disk.free - |input.bytes|
             && after.disk.order == world.disk.order)
  {
    hide Write, Sync, ManifestOf;
    WrittenIs(world, upload, input);
  }

  lemma WrittenOthers(world: World, upload: UploadId, input: AppendInput)
    requires StagingPath(upload) in world.disk.files && Known(world.disk, upload)
    ensures (var w3 := Written(world, upload, input);
             && OthersSame(world, w3.(running := world.running), upload) && SameBlobFiles(world.disk, w3.disk)
             && Known(w3.disk, upload) && w3.running - {upload} == world.running - {upload})
  {
    hide Write, Sync;
  }

  lemma OneRowOthers(world: World, after: Disk, upload: UploadId, row: UploadRow, chunks: seq<ChunkRow>)
    requires after.rows == world.disk.rows[upload := row] && after.chunks == world.disk.chunks[upload := chunks]
    requires after.files == world.disk.files
    requires after.blobs == world.disk.blobs && after.references == world.disk.references
    ensures OthersSame(world, world.(disk := after), upload)
  {
  }

  lemma RecordedOthers(world: World, upload: UploadId, chunk: ChunkRow)
    requires Known(world.disk, upload)
    ensures (var changed := InsertChunk(world.disk, upload, chunk);
             var after := SaveManifest(changed, upload, ManifestOf(changed, upload));
             OthersSame(world, world.(disk := after), upload) && after.files == world.disk.files)
  {
    hide ManifestOf, OthersSame;
    var changed := InsertChunk(world.disk, upload, chunk);
    var after := SaveManifest(changed, upload, ManifestOf(changed, upload));
    OneRowOthers(world, after, upload, changed.rows[upload], changed.chunks[upload]);
  }

  lemma AppendOthers(world: World, upload: UploadId, input: AppendInput)
    requires StagingPath(upload) in world.disk.files && Known(world.disk, upload) && upload !in world.running
    ensures OthersSame(world, Appended(world, upload, input), upload)
    ensures SameBlobFiles(world.disk, Appended(world, upload, input).disk)
  {
    hide Written, InsertChunk, SaveManifest, ManifestOf;
    var w3 := Written(world, upload, input);
    WrittenOthers(world, upload, input);
    RecordedOthers(w3.(running := world.running), upload, RecordOf(input));
    assert w3.running - {upload} == world.running;
  }

  lemma AppendEnd(sha: Sha256, world: World, upload: UploadId, input: AppendInput)
    requires upload in world.running && world.running[upload] == PersistChunk(input) && Known(world.disk, upload)
    requires 0 <= world.disk.free
    ensures Enabled(sha, world, Turn(upload, 0, ""))
    ensures (var w4 := Apply(sha, world, Turn(upload, 0, ""));
             && Enabled(sha, w4, Turn(upload, 0, ""))
             && (var changed := InsertChunk(world.disk, upload, RecordOf(input));
                 Apply(sha, w4, Turn(upload, 0, "")) ==
                 world.(disk := SaveManifest(changed, upload, ManifestOf(changed, upload)),
                        running := world.running - {upload})))
  {
    hide ManifestOf, Enabled, Apply;
    var changed := InsertChunk(world.disk, upload, RecordOf(input));
    var mirror := ManifestOf(changed, upload);
    var outcome := Finished(Acknowledged(changed.rows[upload].ackEpoch, changed.rows[upload].received));
    TurnIs(sha, world, upload, 0, "", changed, Mirror(mirror, outcome));
    var w4 := world.(disk := changed, running := world.running[upload := Mirror(mirror, outcome)]);
    TurnIs(sha, w4, upload, 0, "", SaveManifest(changed, upload, mirror), outcome);
    assert w4.running - {upload} == world.running - {upload};
  }

  // Completion up to the publishing transaction

  /** `count` turns of the upload's operation lead from one world to the other. */
  ghost predicate Leads(sha: Sha256, world: World, upload: UploadId, count: nat, after: World) {
    Legal(sha, world, Turns(upload, count)) && After(sha, world, Turns(upload, count)) == after
  }

  lemma LeadsNone(sha: Sha256, world: World, upload: UploadId)
    ensures Leads(sha, world, upload, 0, world)
  {
  }

  lemma LeadsOne(sha: Sha256, world: World, upload: UploadId, disk: Disk, pc: Pc, count: nat, after: World)
    requires upload in world.running && Known(world.disk, upload) && !pc.Finished?
    requires Advance(sha, world.disk, upload, world.running[upload], 0, "") == (disk, pc) && 0 <= disk.free
    requires Leads(sha, world.(disk := disk, running := world.running[upload := pc]), upload, count, after)
    ensures Leads(sha, world, upload, count + 1, after)
  {
    hide Advance, Enabled, Apply, Legal, After;
    TurnIs(sha, world, upload, 0, "", disk, pc);
    RunPrepend(sha, world, Turn(upload, 0, ""), Turns(upload, count));
  }

  lemma {:induction false} LeadsOn(sha: Sha256, a: World, b: World, c: World, upload: UploadId, first: nat, second: nat)
    requires Leads(sha, a, upload, first, b) && Leads(sha, b, upload, second, c)
    ensures Leads(sha, a, upload, first + second, c)
  {
    hide Enabled, Apply, Legal, After;
    TurnsConcat(upload, first, second);
    RunConcat(sha, a, Turns(upload, first), Turns(upload, second));
  }

  lemma {:induction false} TurnsConcat(upload: UploadId, first: nat, second: nat)
    ensures Turns(upload, first + second) == Turns(upload, first) + Turns(upload, second)
  {
    if first > 0 {
      TurnsConcat(upload, first - 1, second);
    }
  }

  function At(world: World, upload: UploadId, disk: Disk, pc: Pc): World {
    world.(disk := disk, running := world.running[upload := pc])
  }

  /** The staged bytes hash as expected: two turns of hashing, then the next state and its manifest. */
  lemma VerifyRun(sha: Sha256, world: World, upload: UploadId)
    requires Known(world.disk, upload) && 0 <= world.disk.free
    requires StagingPath(upload) in world.disk.files
    requires sha(world.disk.files[StagingPath(upload)].bytes) == world.disk.rows[upload].sha
    ensures (var changed := SetState(world.disk, upload, Staged);
             var staged := Entered(world.disk, upload, Staged);
             && Known(changed, upload) && Known(staged, upload)
             && Leads(sha, At(world, upload, changed, Mirror(ManifestOf(changed, upload), HashStaged)), upload, 4,
                      At(world, upload, Entered(staged, upload, HashVerified), FindBlob)))
  {
    hide Leads, ManifestOf;
    var changed := SetState(world.disk, upload, Staged);
    var staged := Entered(world.disk, upload, Staged);
    var verified := SetState(staged, upload, HashVerified);
    var hash := world.disk.rows[upload].sha;
    var last := At(world, upload, Entered(staged, upload, HashVerified), FindBlob);
    var mirror := Mirror(ManifestOf(verified, upload), FindBlob);
    LeadsNone(sha, last, upload);
    LeadsOneAt(sha, world, upload, verified, mirror, Entered(staged, upload, HashVerified), FindBlob, 0, last);
    LeadsOneAt(sha, world, upload, staged, StagedHashed(hash), verified, mirror, 1, last);
    LeadsOneAt(sha, world, upload, staged, HashStaged, staged, StagedHashed(hash), 2, last);
    LeadsOneAt(sha, world, upload, changed, Mirror(ManifestOf(changed, upload), HashStaged), staged, HashStaged, 3, last);
  }

  lemma LeadsOneAt(sha: Sha256, world: World, upload: UploadId, before: Disk, pc: Pc, disk: Disk, next: Pc,
                   count: nat, after: World)
    requires Known(before, upload) && !next.Finished? && 0 <= disk.free
    requires Advance(sha, before, upload, pc, 0, "") == (disk, next)
    requires Leads(sha, At(world, upload, disk, next), upload, count, after)
    ensures Leads(sha, At(world, upload, before, pc), upload, count + 1, after)
  {
    hide Advance, Leads;
    var here := At(world, upload, before, pc);
    assert here.running[upload := next] == world.running[upload := next];
    LeadsOne(sha, here, upload, disk, next, count, after);
  }

  /** No blob row of the hash: the staging file takes the blob path, whatever was there. */
  lemma PlaceRun(sha: Sha256, world: World, upload: UploadId, disk: Disk)
    requires Known(disk, upload) && 0 <= disk.free
    requires StagingPath(upload) in disk.files && disk.rows[upload].sha !in disk.blobs
    ensures (var blob := BlobPath(disk.rows[upload].sha);
             Leads(sha, At(world, upload, disk, FindBlob), upload, 3,
                   At(world, upload, MoveFile(disk, StagingPath(upload), blob), RecordCommitted(blob, true))))
  {
    hide Leads;
    var blob := BlobPath(disk.rows[upload].sha);
    var moved := MoveFile(disk, StagingPath(upload), blob);
    var last := At(world, upload, moved, RecordCommitted(blob, true));
    LeadsNone(sha, last, upload);
    LeadsOneAt(sha, world, upload, disk, MoveStaging, moved, RecordCommitted(blob, true), 0, last);
    LeadsOneAt(sha, world, upload, disk, ProbeStaging, disk, MoveStaging, 1, last);
    LeadsOneAt(sha, world, upload, disk, FindBlob, disk, ProbeStaging, 2, last);
  }

  lemma CommitRun(sha: Sha256, world: World, upload: UploadId, disk: Disk)
    requires Known(disk, upload) && 0 <= disk.free
    requires BlobPath(disk.rows[upload].sha) in disk.files
    requires sha(disk.files[BlobPath(disk.rows[upload].sha)].bytes) == disk.rows[upload].sha
    ensures (var blob := BlobPath(disk.rows[upload].sha);
             Leads(sha, At(world, upload, disk, RecordCommitted(blob, true)), upload, 4,
                   At(world, upload, Entered(disk, upload, Committed), PublishReference(blob, true))))
  {
    hide Leads, ManifestOf;
    var blob := BlobPath(disk.rows[upload].sha);
    var changed := SetState(disk, upload, Committed);
    var committed := Entered(disk, upload, Committed);
    var last := At(world, upload, committed, PublishReference(blob, true));
    var mirror := Mirror(ManifestOf(changed, upload), ProbeFinal(blob, true));
    LeadsNone(sha, last, upload);
    LeadsOneAt(sha, world, upload, committed, HashFinal(blob, true), committed, PublishReference(blob, true), 0, last);
    LeadsOneAt(sha, world, upload, committed, ProbeFinal(blob, true), committed, HashFinal(blob, true), 1, last);
    LeadsOneAt(sha, world, upload, changed, mirror, committed, ProbeFinal(blob, true), 2, last);
    LeadsOneAt(sha, world, upload, disk, RecordCommitted(blob, true), changed, mirror, 3, last);
  }

  function CompleteEvents(upload: UploadId): seq<Event> {
    [StartComplete(upload)] + Turns(upload, 11)
  }

  /** Completing an upload whose bytes are all there, up to the transaction that publishes it. */
  lemma CompleteRun(sha: Sha256, world: World, upload: UploadId)
    requires Known(world.disk, upload) && upload !in world.running && 0 <= world.disk.free
    requires (var row := world.disk.rows[upload];
              && row.state == Transferring && row.received == row.expected && row.sha !in world.disk.blobs)
    requires StagingPath(upload) in world.disk.files
    requires sha(world.disk.files[StagingPath(upload)].bytes) == world.disk.rows[upload].sha
    ensures Legal(sha, world, CompleteEvents(upload))
    ensures (var after := After(sha, world, CompleteEvents(upload));
             var row := world.disk.rows[upload];
             && OthersSame(world, after, upload) && Known(after.disk, upload)
             && after.disk.rows[upload] == row.(state := Committed)
             && upload in after.running && after.running[upload] == PublishReference(BlobPath(row.sha), true)
             && world.disk.free <= after.disk.free)
  {
    hide Leads, ManifestOf, Enabled, Apply, Legal, After, SetState, SaveManifest, MoveFile, OthersSame;
    var changed := SetState(world.disk, upload, Staged);
    VerifyRun(sha, world, upload);
    var verified := Entered(Entered(world.disk, upload, Staged), upload, HashVerified);
    EnteredTwice(world.disk, upload);
    PlaceRun(sha, world, upload, verified);
    var blob := BlobPath(world.disk.rows[upload].sha);
    var moved := MoveFile(verified, StagingPath(upload), blob);
    MovedFacts(verified, upload);
    CommitRun(sha, world, upload, moved);
    var start := At(world, upload, changed, Mirror(ManifestOf(changed, upload), HashStaged));
    var last := At(world, upload, Entered(moved, upload, Committed), PublishReference(blob, true));
    LeadsOn(sha, start, At(world, upload, verified, FindBlob), At(world, upload, moved, RecordCommitted(blob, true)),
            upload, 4, 3);
    LeadsOn(sha, start, At(world, upload, moved, RecordCommitted(blob, true)), last, upload, 7, 4);
    StartCompleteIs(sha, world, upload);
    LeadsIs(sha, start, upload, 11, last);
    RunPrepend(sha, world, StartComplete(upload), Turns(upload, 11));
    CompleteEffect(sha, world, upload, verified, moved);
  }

  lemma LeadsIs(sha: Sha256, world: World, upload: UploadId, count: nat, after: World)
    requires Leads(sha, world, upload, count, after)
    ensures Legal(sha, world, Turns(upload, count)) && After(sha, world, Turns(upload, count)) == after
  {
  }

  lemma StartCompleteIs(sha: Sha256, world: World, upload: UploadId)
    requires Known(world.disk, upload) && upload !in world.running
    requires world.disk.rows[upload].state == Transferring
    requires world.disk.rows[upload].received == world.disk.rows[upload].expected
    ensures Enabled(sha, world, StartComplete(upload))
    ensures (var changed := SetState(world.disk, upload, Staged);
             && Known(changed, upload)
             && Apply(sha, world, StartComplete(upload))
                == At(world, upload, changed, Mirror(ManifestOf(changed, upload), HashStaged)))
  {
    hide ManifestOf;
  }

  lemma EnteredTwice(disk: Disk, upload: UploadId)
    requires Known(disk, upload)
    ensures Known(Entered(disk, upload, Staged), upload)
    ensures (var verified := Entered(Entered(disk, upload, Staged), upload, HashVerified);
             && Known(verified, upload) && verified.files == disk.files && verified.blobs == disk.blobs
             && verified.references == disk.references
             && verified.free == disk.free && verified.chunks == disk.chunks
             && verified.rows == disk.rows[upload := disk.rows[upload].(state := HashVerified)])
  {
    hide ManifestOf;
  }

  lemma MovedFacts(disk: Disk, upload: UploadId)
    requires Known(disk, upload) && StagingPath(upload) in disk.files
    ensures (var blob := BlobPath(disk.rows[upload].sha);
             var moved := MoveFile(disk, StagingPath(upload), blob);
             && Known(moved, upload) && moved.rows == disk.rows && moved.chunks == disk.chunks
             && moved.blobs == disk.blobs && moved.references == disk.references
             && blob in moved.files && moved.files[blob] == disk.files[StagingPath(upload)]
             && (forall v :: v != upload ==>
                   (StagingPath(v) in disk.files <==> StagingPath(v) in moved.files)
                   && (StagingPath(v) in disk.files ==> moved.files[StagingPath(v)] == disk.files[StagingPath(v)]))
             && disk.free <= moved.free)
  {
  }

  lemma CompleteEffect(sha: Sha256, world: World, upload: UploadId, verified: Disk, moved: Disk)
    requires Known(world.disk, upload) && Known(verified, upload) && Known(moved, upload)
    requires verified.files == world.disk.files && verified.blobs == world.disk.blobs
    requires verified.references == world.disk.references && verified.chunks == world.disk.chunks
    requires verified.free == world.disk.free
    requires verified.rows == world.disk.rows[upload := world.disk.rows[upload].(state := HashVerified)]
    requires moved.rows == verified.rows && moved.chunks == verified.chunks && moved.blobs == verified.blobs
    requires moved.references == verified.references && verified.free <= moved.free
    requires forall v :: v != upload ==>
               (StagingPath(v) in verified.files <==> StagingPath(v) in moved.files)
               && (StagingPath(v) in verified.files ==> moved.files[StagingPath(v)] == verified.files[StagingPath(v)])
    ensures (var blob := BlobPath(world.disk.rows[upload].sha);
             var after := At(world, upload, Entered(moved, upload, Committed), PublishReference(blob, true));
             && OthersSame(world, after, upload) && Known(after.disk, upload)
             && after.disk.rows[upload] == world.disk.rows[upload].(state := Committed)
             && upload in after.running && after.running[upload] == PublishReference(blob, true)
             && world.disk.free <= after.disk.free)
  {
    hide ManifestOf;
  }

  // The lost race

  function RaceEvents(sha: Sha256, data: seq<Byte>, first: UploadId, second: UploadId, target: string, material: MaterialId): seq<Event> {
    var request, input := CreateRequest(|data|, sha(data), target), AppendInput(0, 0, data, sha(data));
    CreateEvents(first, request) + (CreateEvents(second, request) +
    (AppendEvents(first, input) + (AppendEvents(second, input) +
    (CompleteEvents(first) + (CompleteEvents(second) + [Turn(first, 0, material)])))))
  }

  lemma ReservedOfOne(disk: Disk, upload: UploadId)
    requires disk.order == [upload] && upload in disk.rows && disk.rows[upload].state == Transferring
    ensures Reserved(disk) == disk.rows[upload].expected
  {
    var promised := PromisedIn(disk);
    assert [upload][..0] == [];
    assert SumOver([], promised) == 0;
    assert SumOver([upload], promised) == promised(upload);
  }

  /** The first of the two publishes; the second is left before a blob row that is already there. */
  lemma FirstPublishes(sha: Sha256, world: World, first: UploadId, second: UploadId, material: MaterialId)
    requires Known(world.disk, first) && Known(world.disk, second) && first != second && 0 <= world.disk.free
    requires world.disk.references == map[] && world.disk.rows[first].sha !in world.disk.blobs
    requires first in world.running && second in world.running
    requires world.running[first] == PublishReference(BlobPath(world.disk.rows[first].sha), true)
    ensures Enabled(sha, world, Turn(first, 0, material))
    ensures (var after := Apply(sha, world, Turn(first, 0, material));
             && Known(after.disk, first) && Known(after.disk, second)
             && after.disk.rows[first] == world.disk.rows[first].(state := Ready)
             && after.disk.rows[second] == world.disk.rows[second]
             && world.disk.rows[first].sha in after.disk.blobs
             && second in after.running && after.running[second] == world.running[second])
  {
  }

  /** All bytes are there, and no operation is at work on the upload. */
  ghost predicate Completable(sha: Sha256, world: World, upload: UploadId, hash: Hash) {
    && Known(world.disk, upload) && upload !in world.running && StagingPath(upload) in world.disk.files
    && world.disk.rows[upload].state == Transferring && world.disk.rows[upload].sha == hash
    && world.disk.rows[upload].received == world.disk.rows[upload].expected
    && sha(world.disk.files[StagingPath(upload)].bytes) == hash
  }

  /** What one upload's run leaves of another one. */
  lemma OtherStays(sha: Sha256, before: World, after: World, upload: UploadId, other: UploadId)
    requires OthersSame(before, after, upload) && other != upload && Known(before.disk, other)
    ensures Known(after.disk, other) && after.disk.rows[other] == before.disk.rows[other]
    ensures other in before.running ==> other in after.running && after.running[other] == before.running[other]
    ensures forall hash :: Completable(sha, before, other, hash) ==> Completable(sha, after, other, hash)
  {
  }

  lemma TablesSame(before: World, after: World, upload: UploadId)
    requires OthersSame(before, after, upload)
    ensures after.disk.blobs == before.disk.blobs && after.disk.references == before.disk.references
  {
  }

  lemma RaceTail(sha: Sha256, world: World, first: UploadId, second: UploadId, hash: Hash, material: MaterialId)
    requires first != second && 0 <= world.disk.free && world.disk.references == map[]
    requires hash !in world.disk.blobs
    requires Completable(sha, world, first, hash) && Completable(sha, world, second, hash)
    ensures (var events := CompleteEvents(first) + (CompleteEvents(second) + [Turn(first, 0, material)]);
             && Legal(sha, world, events)
             && (var after := After(sha, world, events);
                 && Known(after.disk, first) && Known(after.disk, second)
                 && after.disk.rows[first].state == Ready && after.disk.rows[second].state == Committed
                 && after.disk.rows[second].sha == hash && hash in after.disk.blobs
                 && second in after.running && after.running[second] == PublishReference(BlobPath(hash), true)))
  {
    hide Enabled, Apply, Legal, After, CompleteEvents, OthersSame;
    CompleteRun(sha, world, first);
    var w1 := After(sha, world, CompleteEvents(first));
    OtherStays(sha, world, w1, first, second);
    TablesSame(world, w1, first);
    CompleteRun(sha, w1, second);
    var w2 := After(sha, w1, CompleteEvents(second));
    OtherStays(sha, w1, w2, second, first);
    TablesSame(w1, w2, second);
    FirstPublishes(sha, w2, first, second, material);
    RunOfNone(sha, Apply(sha, w2, Turn(first, 0, material)));
    RunPrepend(sha, w2, Turn(first, 0, material), []);
    assert [Turn(first, 0, material)] + [] == [Turn(first, 0, material)];
    RunConcat(sha, w1, CompleteEvents(second), [Turn(first, 0, material)]);
    RunConcat(sha, world, CompleteEvents(first), CompleteEvents(second) + [Turn(first, 0, material)]);
  }

  /**
   The race does happen: from an empty library with room for both, two uploads of one content, created,
   transferred and completed side by side, reach the point where one is `Ready` and the other is about
   to insert the blob row that is already there.
   */
  lemma RacingUploadsCollide(sha: Sha256, capacity: nat, data: seq<Byte>, first: UploadId, second: UploadId,
                             target: string, material: MaterialId)
    requires first != second && 0 < |data| <= MAX_SAFE_INTEGER && 2 * |data| <= capacity
    ensures Legal(sha, Begin(capacity), RaceEvents(sha, data, first, second, target, material))
    ensures (var now := After(sha, Begin(capacity), RaceEvents(sha, data, first, second, target, material));
             && Known(now.disk, first) && Known(now.disk, second)
             && now.disk.rows[first].state == Ready && now.disk.rows[second].state == Committed
             && now.disk.rows[second].sha == sha(data) && sha(data) in now.disk.blobs
             && second in now.running && now.running[second] == PublishReference(BlobPath(sha(data)), true))
  {
    hide Enabled, Apply, Legal, After, CreateEvents, AppendEvents, CompleteEvents, Reserved;
    var request, input := CreateRequest(|data|, sha(data), target), AppendInput(0, 0, data, sha(data));
    var w0 := Begin(capacity);
    ReservedOfNone(capacity);
    CreateRun(sha, w0, first, request);
    var w1 := After(sha, w0, CreateEvents(first, request));
    ReservedOfOne(w1.disk, first);
    CreateRun(sha, w1, second, request);
    var w2 := After(sha, w1, CreateEvents(second, request));
    AppendRun(sha, w2, first, data);
    var w3 := After(sha, w2, AppendEvents(first, input));
    AppendRun(sha, w3, second, data);
    var w4 := After(sha, w3, AppendEvents(second, input));
    RaceTail(sha, w4, first, second, sha(data), material);
    var tail := CompleteEvents(first) + (CompleteEvents(second) + [Turn(first, 0, material)]);
    RunConcat(sha, w3, AppendEvents(second, input), tail);
    RunConcat(sha, w2, AppendEvents(first, input), AppendEvents(second, input) + tail);
    RunConcat(sha, w1, CreateEvents(second, request), AppendEvents(first, input) + (AppendEvents(second, input) + tail));
    RunConcat(sha, w0, CreateEvents(first, request),
              CreateEvents(second, request) + (AppendEvents(first, input) + (AppendEvents(second, input) + tail)));
  }

  /** And there the second one's transaction fails, whatever identifier it draws. */
  lemma SecondPublicationFails(sha: Sha256, capacity: nat, data: seq<Byte>, first: UploadId, second: UploadId,
                               target: string, material: MaterialId, wrote: nat, other: MaterialId)
    requires first != second && 0 < |data| <= MAX_SAFE_INTEGER && 2 * |data| <= capacity
    ensures Legal(sha, Begin(capacity), RaceEvents(sha, data, first, second, target, material))
    ensures (var now := After(sha, Begin(capacity), RaceEvents(sha, data, first, second, target, material));
             && Known(now.disk, second) && second in now.running
             && Advance(sha, now.disk, second, now.running[second], wrote, other).1 == Finished(Threw(ConstraintViolated)))
  {
    hide RaceEvents, RowInv, Advance, Legal, After, Begin;
    RacingUploadsCollide(sha, capacity, data, first, second, target, material);
    BeginRows(sha, capacity);
    RunKeepsRows(sha, Begin(capacity), RaceEvents(sha, data, first, second, target, material));
    var now := After(sha, Begin(capacity), RaceEvents(sha, data, first, second, target, material));
    PublicationFailsIff(sha, now, second, BlobPath(sha(data)), true, wrote, other);
  }

  lemma ReservedOfNone(capacity: int)
    ensures Reserved(Begin(capacity).disk) == 0
  {
  }
}
