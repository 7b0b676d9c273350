/** The storage that a power loss can claim back, and exactly when the storage promise survives it. */
module LibraryDirectoryRisk {
  import opened Bytes
  import opened MaterialFiles
  import opened UploadRecords
  import opened LibraryDisk
  import opened LibraryRows
  import opened LibraryStates
  import opened LibraryFiles
  import opened LibraryCapacity
  import opened LibraryDirectory
  import opened LibraryDirectoryLoss
  import opened LibraryDirectoryRun
  import opened LibraryDirectoryKeeps
  import opened LibraryDirectorySpace
  import L = LibraryWorld

  // Sums over maps

  ghost function Pick<K, V>(m: map<K, V>): (k: K)
    requires m != map[]
    ensures k in m
  {
    assert m.Keys != {};
    var k :| k in m;
    k
  }

  ghost function SumMap<K, V>(m: map<K, V>, amount: V -> nat): nat
    decreases m.Keys
  {
    if m == map[] then 0
    else
      var k := Pick(m);
      assert (m - {k}).Keys < m.Keys by { assert k !in (m - {k}).Keys; }
      amount(m[k]) + SumMap(m - {k}, amount)
  }

  /** The order in which a sum takes its entries makes no difference. */
  lemma {:induction false} SumMapSplit<K, V>(m: map<K, V>, k: K, amount: V -> nat)
    requires k in m
    ensures SumMap(m, amount) == amount(m[k]) + SumMap(m - {k}, amount)
    decreases m.Keys
  {
    var first := Pick(m);
    if first != k {
      var rest := m - {first};
      assert rest.Keys < m.Keys by { assert first !in rest.Keys; }
      SumMapSplit(rest, k, amount);
      assert (m - {k}).Keys < m.Keys by { assert k !in (m - {k}).Keys; }
      SumMapSplit(m - {k}, first, amount);
      assert rest - {k} == m - {k} - {first};
    }
  }

  lemma SumMapUpdate<K, V>(m: map<K, V>, k: K, value: V, amount: V -> nat)
    requires k in m
    ensures SumMap(m[k := value], amount) == SumMap(m, amount) - amount(m[k]) + amount(value)
  {
    SumMapSplit(m, k, amount);
    SumMapSplit(m[k := value], k, amount);
    assert m[k := value] - {k} == m - {k};
  }

  lemma {:induction false} SumMapFewer<K, V>(fewer: map<K, V>, m: map<K, V>, amount: V -> nat)
    requires forall k :: k in fewer ==> k in m && fewer[k] == m[k]
    ensures SumMap(fewer, amount) <= SumMap(m, amount)
    decreases m.Keys
  {
    if m != map[] {
      var k := Pick(m);
      assert (m - {k}).Keys < m.Keys by { assert k !in (m - {k}).Keys; }
      SumMapFewer(fewer - {k}, m - {k}, amount);
      if k in fewer {
        SumMapSplit(fewer, k, amount);
      } else {
        assert fewer - {k} == fewer;
      }
    } else {
      assert fewer == map[];
    }
  }

  // What is at risk

  function Blocks(file: File): nat {
    |file.blocks|
  }

  /** The storage of the files below a path's pending renames. */
  function BelowBlocks(moves: seq<Move>): nat {
    if moves == [] then 0
    else
      var last := moves[|moves| - 1];
      BelowBlocks(moves[..|moves| - 1]) + if last.below.Some? then |last.below.value.blocks| else 0
  }

  function Count(moves: seq<Move>): nat {
    |moves|
  }

  /** Every pending unlink and every pending rename over a file may bring its storage back. */
  ghost function AtRisk(names: Names): nat {
    SumMap(names.removed, Blocks) + SumMap(names.moves, BelowBlocks)
  }

  lemma LostMoveRisk(names: Names, hash: Hash)
    requires MovesOf(names, hash) != []
    ensures (var moves, last := MovesOf(names, hash), LastMove(names, hash);
             var after := names.(moves := names.moves[hash := moves[..|moves| - 1]]);
             && AtRisk(after) == AtRisk(names) - (if last.below.Some? then |last.below.value.blocks| else 0)
             && SumMap(after.moves, Count) == SumMap(names.moves, Count) - 1)
  {
    var moves := MovesOf(names, hash);
    SumMapUpdate(names.moves, hash, moves[..|moves| - 1], BelowBlocks);
    SumMapUpdate(names.moves, hash, moves[..|moves| - 1], Count);
  }

  lemma LostFolderRisk(names: Names, folder: Folder)
    ensures AtRisk(WithoutFolder(names, folder)) <= AtRisk(names)
  {
    var after := WithoutFolder(names, folder);
    SumMapFewer(after.removed, names.removed, Blocks);
    SumMapFewer(after.moves, names.moves, BelowBlocks);
  }

  /** What a loss takes is no longer at risk; only a lost creation or directory leaves more slack than that. */
  lemma LossKeepsBalance(sha: Sha256, v: Volume, step: Step)
    requires TrackInv(sha, v) && AllInRange(v.world.disk) && Enabled(sha, v, step) && Loses(step)
    ensures (var after := Apply(sha, v, step);
             && Slack(v.world.disk) - AtRisk(v.names) <= Slack(after.world.disk) - AtRisk(after.names)
             && (step.LoseRemoval? || step.LoseMove? ==>
                   Slack(v.world.disk) - AtRisk(v.names) == Slack(after.world.disk) - AtRisk(after.names))
             && AllInRange(after.world.disk))
  {
    hide TrackInv, AllInRange, Slack, AtRisk, WithoutFolder, WithoutFiles, BlocksOf, Lists;
    LossTakes(sha, v, step);
    match step {
      case LoseCreation(upload) => SameRisk(v.names, Apply(sha, v, step).names);
      case LoseRemoval(upload, file) => LostRemovalRisk(v.names, upload);
      case LoseMove(hash, below) => LostMoveRisk(v.names, hash);
      case LoseFolder(folder, lost) =>
        LostFolderRisk(v.names, folder);
        ClaimsNonNegative(v.world.disk);
    }
  }

  lemma ClaimsNonNegative(disk: Disk)
    requires AllInRange(disk)
    ensures 0 <= SumOver(disk.order, DebtIn(disk))
  {
    hide BlocksInRange, DebtIn;
    DebtsNonNegative(disk);
  }

  lemma SameRisk(names: Names, after: Names)
    requires after.removed == names.removed && after.moves == names.moves
    ensures AtRisk(after) == AtRisk(names)
  {
  }

  lemma LostRemovalRisk(names: Names, upload: UploadId)
    requires upload in names.removed
    ensures AtRisk(names.(removed := names.removed - {upload})) == AtRisk(names) - |names.removed[upload].blocks|
  {
    SumMapSplit(names.removed, upload, Blocks);
  }

  lemma {:induction false} LossesKeepBalance(sha: Sha256, v: Volume, steps: seq<Step>)
    requires TrackInv(sha, v) && AllInRange(v.world.disk) && Legal(sha, v, steps) && OnlyLosses(steps)
    ensures (var after := After(sha, v, steps);
             && Slack(v.world.disk) - AtRisk(v.names) <= Slack(after.world.disk) - AtRisk(after.names)
             && AllInRange(after.world.disk) && after.world.creation == v.world.creation)
    decreases |steps|
  {
    hide TrackInv, AllInRange, Slack, AtRisk, Enabled, Apply;
    if steps != [] {
      assert steps[0] in steps;
      LossKeepsBalance(sha, v, steps[0]);
      LossKeepsTrack(sha, v, steps[0]);
      LoseTables(sha, v, steps[0]);
      LossesKeepBalance(sha, Apply(sha, v, steps[0]), steps[1..]);
    }
  }

  // The worst case

  lemma {:induction false} NothingBelow(moves: map<Hash, seq<Move>>)
    requires forall h :: h in moves ==> moves[h] == []
    ensures SumMap(moves, BelowBlocks) == 0
    decreases moves.Keys
  {
    if moves != map[] {
      var k := Pick(moves);
      assert (moves - {k}).Keys < moves.Keys by { assert k !in (moves - {k}).Keys; }
      NothingBelow(moves - {k});
    }
  }

  lemma NothingAtRisk(names: Names)
    requires names.removed == map[] && forall h :: h in names.moves ==> names.moves[h] == []
    ensures AtRisk(names) == 0
  {
    NothingBelow(names.moves);
  }

  lemma RemovalCanGo(sha: Sha256, v: Volume, upload: UploadId)
    requires v.dark && NamesOk(sha, v.world.disk, v.names) && upload in v.names.removed
    ensures Enabled(sha, v, LoseRemoval(upload, Settled(v.names.removed[upload])))
  {
    hide MoveOk, Torn, Verified;
    assert RemovedOk(sha, v.world.disk, v.names, upload);
    SettledIsTorn(v.names.removed[upload]);
  }

  /** In the dark, everything at risk can come back: every unlink and every rename is taken back, and nothing else. */
  lemma {:induction false} AllComesBack(sha: Sha256, v: Volume) returns (steps: seq<Step>)
    requires v.dark && TrackInv(sha, v) && AllInRange(v.world.disk)
    ensures Legal(sha, v, steps) && OnlyLosses(steps)
    ensures Slack(After(sha, v, steps).world.disk) == Slack(v.world.disk) - AtRisk(v.names)
    decreases v.names.removed.Keys, SumMap(v.names.moves, Count)
  {
    hide TrackInv, AllInRange, Slack, AtRisk, MoveOk, Torn, Legal, After, Enabled, OnlyLosses;
    TrackedNames(sha, v);
    if v.names.removed != map[] {
      var upload := Pick(v.names.removed);
      var step := LoseRemoval(upload, Settled(v.names.removed[upload]));
      RemovalCanGo(sha, v, upload);
      RemovalIs(sha, v, step);
      steps := Onwards(sha, v, step);
    } else if exists h :: h in v.names.moves && v.names.moves[h] != [] {
      var hash :| hash in v.names.moves && v.names.moves[hash] != [];
      var last := LastMove(v.names, hash);
      var step := LoseMove(hash, if last.below.Some? then Settled(last.below.value) else EMPTY_FILE);
      LastCanGo(sha, v, hash);
      LostMoveRisk(v.names, hash);
      steps := Onwards(sha, v, step);
    } else {
      NothingAtRisk(v.names);
      StepsOfNone(sha, v);
      NoLosses();
      steps := [];
    }
  }

  lemma NoLosses()
    ensures OnlyLosses([])
  {
  }

  lemma RemovalIs(sha: Sha256, v: Volume, step: Step)
    requires Enabled(sha, v, step) && step.LoseRemoval?
    ensures Apply(sha, v, step).names.removed.Keys < v.names.removed.Keys
    ensures Apply(sha, v, step).dark
  {
    hide Returns;
    assert step.upload !in Apply(sha, v, step).names.removed.Keys;
  }

  lemma TrackedNames(sha: Sha256, v: Volume)
    requires TrackInv(sha, v)
    ensures NamesOk(sha, v.world.disk, v.names)
  {
  }

  /** One exact loss, and everything after it. */
  lemma Onwards(sha: Sha256, v: Volume, step: Step) returns (steps: seq<Step>)
    requires v.dark && TrackInv(sha, v) && AllInRange(v.world.disk)
    requires Enabled(sha, v, step) && (step.LoseRemoval? || step.LoseMove?)
    requires (var next := Apply(sha, v, step).names;
              next.removed.Keys < v.names.removed.Keys
              || (next.removed.Keys == v.names.removed.Keys
                  && SumMap(next.moves, Count) < SumMap(v.names.moves, Count)))
    ensures Legal(sha, v, steps) && OnlyLosses(steps)
    ensures Slack(After(sha, v, steps).world.disk) == Slack(v.world.disk) - AtRisk(v.names)
    decreases v.names.removed.Keys, SumMap(v.names.moves, Count), 0
  {
    hide TrackInv, AllInRange, Slack, AtRisk, Legal, After;
    LossKeepsBalance(sha, v, step);
    LossKeepsTrack(sha, v, step);
    StillDark(sha, v, step);
    var rest := AllComesBack(sha, Apply(sha, v, step));
    StepsPrepend(sha, v, step, rest);
    steps := [step] + rest;
  }

  lemma StillDark(sha: Sha256, v: Volume, step: Step)
    requires v.dark && Enabled(sha, v, step) && Loses(step)
    ensures Apply(sha, v, step).dark
  {
    hide Returns;
  }

  // The promise

  /** After any power loss, and any entries it takes back, what admitted uploads still have to write fits. */
  ghost predicate CapacitySurvives(sha: Sha256, v: Volume) {
    forall files, steps :: Legal(sha, v, [PowerLoss(files)] + steps) && OnlyLosses(steps) ==>
      CapacityInv(After(sha, v, [PowerLoss(files)] + steps).world)
  }

  lemma PowerLossKeepsBalance(sha: Sha256, v: Volume, files: map<Path, File>)
    requires Enabled(sha, v, PowerLoss(files)) && AllInRange(v.world.disk)
    ensures (var after := Apply(sha, v, PowerLoss(files));
             && after.dark && after.names == v.names && after.world.creation == L.NoCreation
             && Slack(after.world.disk) == Slack(v.world.disk) && AllInRange(after.world.disk))
  {
    hide Positions;
    var disk, after := v.world.disk, Apply(sha, v, PowerLoss(files)).world.disk;
    PowerLossIs(sha, v, files);
    forall u | u in disk.order ensures DebtIn(disk)(u) == DebtIn(after)(u) && BlocksInRange(after, u) {
      assert BlocksInRange(disk, u);
    }
    SumSame(disk.order, DebtIn(disk), DebtIn(after));
  }

  lemma CapacityIs(world: L.World)
    requires world.creation.NoCreation?
    ensures CapacityInv(world) <==> AllInRange(world.disk) && 0 <= Slack(world.disk)
  {
    hide BlocksInRange;
  }

  lemma WithinRange(world: L.World)
    requires CapacityInv(world)
    ensures AllInRange(world.disk)
  {
    hide BlocksInRange;
  }

  /**
   The storage promise survives every power loss, whatever entries it takes back, if and only if the files
   of all pending unlinks and below all pending renames fit in the slack there is now.
   */
  lemma CapacitySurvivesIff(sha: Sha256, v: Volume)
    requires TrackInv(sha, v) && FileInv(sha, v.world) && CapacityInv(v.world) && !v.dark
    ensures CapacitySurvives(sha, v) <==> AtRisk(v.names) <= Slack(v.world.disk)
  {
    hide TrackInv, CapacityInv, AllInRange, Slack, AtRisk, Legal, After, Enabled, Apply, OnlyLosses;
    WithinRange(v.world);
    if AtRisk(v.names) <= Slack(v.world.disk) {
      forall files, steps | Legal(sha, v, [PowerLoss(files)] + steps) && OnlyLosses(steps)
        ensures CapacityInv(After(sha, v, [PowerLoss(files)] + steps).world)
      {
        LossesWithin(sha, v, files, steps);
      }
    } else {
      var files, steps := WorstLosses(sha, v);
      assert !CapacitySurvives(sha, v);
    }
  }

  lemma LossesWithin(sha: Sha256, v: Volume, files: map<Path, File>, steps: seq<Step>)
    requires TrackInv(sha, v) && FileInv(sha, v.world) && AllInRange(v.world.disk)
    requires AtRisk(v.names) <= Slack(v.world.disk)
    requires Legal(sha, v, [PowerLoss(files)] + steps) && OnlyLosses(steps)
    ensures CapacityInv(After(sha, v, [PowerLoss(files)] + steps).world)
  {
    hide TrackInv, FileInv, CapacityInv, AllInRange, Slack, AtRisk, Enabled, Apply, OnlyLosses;
    var all := [PowerLoss(files)] + steps;
    assert all[0] == PowerLoss(files) && all[1..] == steps;
    var dark := Apply(sha, v, PowerLoss(files));
    PowerLossKeepsBalance(sha, v, files);
    StepKeepsTrack(sha, v, PowerLoss(files));
    LossesKeepBalance(sha, dark, steps);
    CapacityIs(After(sha, dark, steps).world);
  }

  lemma WorstLosses(sha: Sha256, v: Volume) returns (files: map<Path, File>, steps: seq<Step>)
    requires TrackInv(sha, v) && FileInv(sha, v.world) && AllInRange(v.world.disk) && !v.dark
    requires Slack(v.world.disk) < AtRisk(v.names)
    ensures Legal(sha, v, [PowerLoss(files)] + steps) && OnlyLosses(steps)
    ensures !CapacityInv(After(sha, v, [PowerLoss(files)] + steps).world)
  {
    hide TrackInv, BlobFilesOk, FileOk, PcFileOk, CapacityInv, AllInRange, Slack, AtRisk, Enabled, Apply, Legal, After, Torn;
    files := SettledFiles(v.world.disk.files);
    PowerCanGo(sha, v);
    var dark := Apply(sha, v, PowerLoss(files));
    PowerLossKeepsBalance(sha, v, files);
    StepKeepsTrack(sha, v, PowerLoss(files));
    steps := AllComesBack(sha, dark);
    LossesKeepBalance(sha, dark, steps);
    CapacityIs(After(sha, dark, steps).world);
    StepsPrepend(sha, v, PowerLoss(files), steps);
  }

  // Admissions

  /** Inserting the row of an opened creation claims exactly its expected size. */
  lemma InsertClaims(sha: Sha256, world: L.World)
    requires RowInv(sha, world) && FileInv(sha, world) && CapacityInv(world) && world.creation.Opened?
    ensures Slack(L.Apply(sha, world, L.InsertCreated).disk) == Slack(world.disk) - world.creation.request.expected
  {
    hide RowsOk, ReferencesOk, OneReferenceEach, BlobPathsOk, PcOk, PcFileOk, DiskFilesOk, DebtIn, BlocksInRange;
    var Opened(request, upload) := world.creation;
    var order := world.disk.order;
    var row := UploadRow(request.expected, request.sha, request.target, Transferring, 0, 0);
    var after := L.Apply(sha, world, L.InsertCreated).disk;
    assert after == InsertUpload(world.disk, upload, row);
    forall u | u in order ensures DebtIn(world.disk)(u) == DebtIn(after)(u) {
      InsertDebts(world.disk, upload, row, u);
    }
    NewDebt(world.disk, upload, row);
    SumSame(order, DebtIn(world.disk), DebtIn(after));
    assert (order + [upload])[..|order|] == order;
  }

  /** Opening an empty staging file claims nothing. */
  lemma OpenClaims(sha: Sha256, world: L.World, upload: UploadId)
    requires RowInv(sha, world) && L.Enabled(sha, world, L.OpenStaging(upload))
    ensures Slack(L.Apply(sha, world, L.OpenStaging(upload)).disk) == Slack(world.disk)
  {
    hide RowsOk, ReferencesOk, OneReferenceEach, BlobPathsOk, PcOk;
    var disk, after := world.disk, L.Apply(sha, world, L.OpenStaging(upload)).disk;
    forall u | u in disk.order ensures DebtIn(disk)(u) == DebtIn(after)(u) {
    }
    SumSame(disk.order, DebtIn(disk), DebtIn(after));
  }

  /**
   Which admissions stay covered: an approved creation that opens its file and inserts its row leaves a
   library whose promise survives every power loss if and only if its size and everything at risk fit
   together in the slack. With nothing at risk, every admission does.
   */
  lemma AdmissionStaysCoveredIff(sha: Sha256, v: Volume, upload: UploadId)
    requires TrackInv(sha, v) && FileInv(sha, v.world) && CapacityInv(v.world)
    requires v.world.creation.Approved? && Enabled(sha, v, Visible(L.OpenStaging(upload)))
    ensures Enabled(sha, Apply(sha, v, Visible(L.OpenStaging(upload))), Visible(L.InsertCreated))
    ensures (var admitted := Apply(sha, Apply(sha, v, Visible(L.OpenStaging(upload))), Visible(L.InsertCreated));
             && (CapacitySurvives(sha, admitted) <==>
                 v.world.creation.request.expected + AtRisk(v.names) <= Slack(v.world.disk))
             && (AtRisk(v.names) == 0 ==> CapacitySurvives(sha, admitted)))
  {
    hide TrackInv, FileInv, CapacityInv, AllInRange, Slack, AtRisk, CapacitySurvives, RowInv;
    var open, insert := Visible(L.OpenStaging(upload)), Visible(L.InsertCreated);
    var staged := Apply(sha, v, open);
    TrackedRows(sha, v);
    StepKeepsTrack(sha, v, open);
    OtherStepsKeepFiles(sha, v, open);
    ApplyCapacity(sha, v.world, L.OpenStaging(upload));
    OpenClaims(sha, v.world, upload);
    TrackedRows(sha, staged);
    var admitted := Apply(sha, staged, insert);
    StepKeepsTrack(sha, staged, insert);
    OtherStepsKeepFiles(sha, staged, insert);
    ApplyCapacity(sha, staged.world, L.InsertCreated);
    InsertClaims(sha, staged.world);
    SameRisk(v.names, admitted.names);
    ApprovedFits(v.world);
    CapacitySurvivesIff(sha, admitted);
  }

  lemma ApprovedFits(world: L.World)
    requires CapacityInv(world) && world.creation.Approved?
    ensures world.creation.request.expected <= Slack(world.disk)
  {
    hide BlocksInRange;
  }
}
