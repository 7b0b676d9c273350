/**
 The phone's durable queue: a snapshot in memory that rolls back when a mutation or its persistence
 fails, and one document replaced by rename. Faults may stop persistence at any of its steps.
 */
module NativeUploadQueue {
  import opened UploadRecords

  type SessionId = string

  datatype Progress = Progress(ackEpoch: string, received: string, nextChunkIndex: string)

  datatype Status = Pending | Transferring | Paused(reason: string) | Cancelled | Completed(material: MaterialId)

  /** `source` stands for the path and fingerprint, which no operation changes. */
  datatype Entry = Entry(source: string, progress: Progress, status: Status)

  type Snapshot = map<UploadId, Entry>

  datatype QueueError = DuplicateUpload | InitialStateInvalid | UploadNotFound | StateInvalid | PersistFailed | DocumentInvalid

  datatype Result<+T> = Ok(value: T) | Err(error: QueueError)

  // Mutations of the snapshot

  datatype Mutation =
    | Enqueue(id: UploadId, entry: Entry)
    | RecordAck(id: UploadId, progress: Progress)
    | SetStatus(id: UploadId, status: Status)

  predicate AllowsTransitionTo(from: Status, to: Status) {
    match from
    case Pending => to.Pending? || to.Transferring? || to.Paused? || to.Cancelled?
    case Transferring => to.Transferring? || to.Paused? || to.Cancelled? || to.Completed?
    case Paused(_) => to.Paused? || to.Transferring? || to.Cancelled?
    case Cancelled => to.Cancelled?
    case Completed(_) => to.Completed?
  }

  function Mutated(snapshot: Snapshot, mutation: Mutation): Result<Snapshot> {
    match mutation
    case Enqueue(id, entry) =>
      if id in snapshot then Err(DuplicateUpload)
      else if entry.status != Pending then Err(InitialStateInvalid)
      else Ok(snapshot[id := entry])
    case RecordAck(id, progress) =>
      if !(id in snapshot) then Err(UploadNotFound)
      else if snapshot[id].status != Status.Transferring then Err(StateInvalid)
      else Ok(snapshot[id := snapshot[id].(progress := progress)])
    case SetStatus(id, status) =>
      if !(id in snapshot) then Err(UploadNotFound)
      else if !AllowsTransitionTo(snapshot[id].status, status) then Err(StateInvalid)
      else Ok(snapshot[id := snapshot[id].(status := status)])
  }

  // The document on disk

  datatype Document = Missing | Whole(snapshot: Snapshot) | Torn

  datatype Temporary = Absent | Unsynced(snapshot: Snapshot) | Synced(snapshot: Snapshot)

  /**
   `main` is what reads of the document return now; `possible` is what it may hold after a power loss.
   `mainSynced` says whether the bytes of `main` had been synced before they got their name.
   */
  datatype Files = Files(main: Document, mainSynced: bool, possible: set<Document>, temporary: Temporary)

  function RemoveTemporary(files: Files): Files {
    files.(temporary := Absent)
  }

  function WriteTemporary(files: Files, snapshot: Snapshot): Files {
    files.(temporary := Unsynced(snapshot))
  }

  function SyncTemporary(files: Files): Files {
    if files.temporary.Unsynced? then files.(temporary := Synced(files.temporary.snapshot)) else files
  }

  /** A rename of unsynced bytes could leave a torn document behind; one of synced bytes cannot. */
  function RenameTemporary(files: Files): Files {
    match files.temporary
    case Absent => files
    case Synced(snapshot) => Files(Whole(snapshot), true, files.possible + {Whole(snapshot)}, Absent)
    case Unsynced(snapshot) => Files(Whole(snapshot), false, files.possible + {Whole(snapshot), Torn}, Absent)
  }

  function SyncDirectory(files: Files): Files {
    files.(possible := {files.main} + if files.mainSynced then {} else {Torn})
  }

  const DIRECTORY_CREATED := 1
  const TEMPORARY_REMOVED := 2
  const TEMPORARY_WRITTEN := 3
  const TEMPORARY_SYNCED := 4
  const RENAMED := 5
  const PERSISTED := 6

  /** `persist_snapshot` stopped after its first `steps` steps. */
  function Persisted(files: Files, snapshot: Snapshot, steps: nat): Files
  {
    var f2 := if steps < TEMPORARY_REMOVED then files else RemoveTemporary(files);
    var f3 := if steps < TEMPORARY_WRITTEN then f2 else WriteTemporary(f2, snapshot);
    var f4 := if steps < TEMPORARY_SYNCED then f3 else SyncTemporary(f3);
    var f5 := if steps < RENAMED then f4 else RenameTemporary(f4);
    if steps < PERSISTED then f5 else SyncDirectory(f5)
  }

  /** `load_snapshot`: no document is an empty queue; a torn one does not parse. */
  function Loaded(document: Document): Result<Snapshot> {
    match document
    case Missing => Ok(map[])
    case Whole(snapshot) => Ok(snapshot)
    case Torn => Err(DocumentInvalid)
  }

  // The queue and the session bindings as one machine

  datatype CloseReason = ConnectionFailed | TransferCancelled | TransferFinished

  datatype State = State(memory: Snapshot, files: Files, bindings: map<SessionId, UploadId>)

  datatype Event =
    | Mutate(mutation: Mutation, steps: nat)
    | Bind(session: SessionId, upload: UploadId)
    | CloseFrame(session: SessionId, reason: CloseReason, steps: nat)
    | Restart
    | Crash(found: Document)

  /** `mutate`: apply, persist, and put the prior snapshot back if either fails. */
  function MutateState(s: State, mutation: Mutation, steps: nat): (State, Option<QueueError>) {
    match Mutated(s.memory, mutation)
    case Err(error) => (s, Some(error))
    case Ok(next) =>
      var files := Persisted(s.files, next, steps);
      if steps < PERSISTED then (s.(files := files), Some(PersistFailed))
      else (s.(memory := next, files := files), None)
  }

  /** The status a close frame asks for; a finished transfer changes no status. */
  function CloseStatus(reason: CloseReason): Option<Status> {
    match reason
    case ConnectionFailed => Some(Paused("NETWORK_UNAVAILABLE"))
    case TransferCancelled => Some(Status.Cancelled)
    case TransferFinished => None
  }

  function CloseState(s: State, session: SessionId, reason: CloseReason, steps: nat): (State, Option<QueueError>) {
    if !(session in s.bindings) then (s, None)
    else
      match CloseStatus(reason)
      case None => (s.(bindings := s.bindings - {session}), None)
      case Some(status) =>
        var (next, error) := MutateState(s, SetStatus(s.bindings[session], status), steps);
        (if error.Some? then next else next.(bindings := next.bindings - {session}), error)
  }

  function Opened(document: Document): Snapshot {
    if Loaded(document).Ok? then Loaded(document).value else map[]
  }

  /**
   A `Restart` is the death of the process alone: what was renamed stays visible and stays unsynced. A
   `Crash` is a power loss, after which the disk holds one of the possible documents.
   */
  predicate Enabled(s: State, event: Event) {
    event.Crash? ==> event.found in s.files.possible
  }

  function Step(s: State, event: Event): State
    requires Enabled(s, event)
  {
    match event
    case Mutate(mutation, steps) => MutateState(s, mutation, steps).0
    case Bind(session, upload) =>
      if session in s.bindings then s else s.(bindings := s.bindings[session := upload])
    case CloseFrame(session, reason, steps) => CloseState(s, session, reason, steps).0
    case Restart => State(Opened(s.files.main), s.files, map[])
    case Crash(found) => State(Opened(found), Files(found, true, {found}, s.files.temporary), map[])
  }

  ghost predicate Legal(s: State, events: seq<Event>)
    decreases |events|
  {
    events == [] || (Enabled(s, events[0]) && Legal(Step(s, events[0]), events[1..]))
  }

  ghost function After(s: State, events: seq<Event>): State
    requires Legal(s, events)
    decreases |events|
  {
    if events == [] then s else After(Step(s, events[0]), events[1..])
  }

  const FIRST_START := State(map[], Files(Missing, true, {Missing}, Absent), map[])

  // What every run keeps

  ghost predicate Successor(from: Snapshot, to: Snapshot) {
    exists mutation :: Mutated(from, mutation) == Ok(to)
  }

  /** The document that holds a snapshot: an empty queue has never been written. */
  function DocumentOf(snapshot: Snapshot): Document {
    if snapshot == map[] then Missing else Whole(snapshot)
  }

  /** The document shows the snapshot in memory, or that with one refused mutation applied. */
  ghost predicate Near(memory: Snapshot, document: Document) {
    && Loaded(document).Ok?
    && (Loaded(document).value == memory || Successor(memory, Loaded(document).value))
  }

  /** Every document a power loss could leave is one whole snapshot, and the one in memory is among them. */
  ghost predicate QueueInv(s: State) {
    && (forall d :: d in s.files.possible ==> Loaded(d).Ok? && d == DocumentOf(Loaded(d).value))
    && DocumentOf(s.memory) in s.files.possible
    && s.files.main in s.files.possible
    && s.files.mainSynced
    && Near(s.memory, s.files.main)
  }

  lemma SuccessorIsWritten(memory: Snapshot, next: Snapshot)
    requires Successor(memory, next)
    ensures next != map[] && DocumentOf(next) == Whole(next) && Near(memory, Whole(next))
  {
    var mutation :| Mutated(memory, mutation) == Ok(next);
    var id := match mutation case Enqueue(i, _) => i case RecordAck(i, _) => i case SetStatus(i, _) => i;
    assert id in next;
  }

  /** What each stopping point of persistence leaves visible and possible. */
  lemma PersistLeaves(files: Files, next: Snapshot, steps: nat)
    requires files.mainSynced
    ensures (var after := Persisted(files, next, steps);
             && after.mainSynced
             && (steps < RENAMED ==> after.main == files.main && after.possible == files.possible)
             && (steps == RENAMED ==> after.main == Whole(next) && after.possible == files.possible + {Whole(next)})
             && (steps >= PERSISTED ==> after.main == Whole(next) && after.possible == {Whole(next)}))
  {
  }

  lemma MutateKeeps(s: State, mutation: Mutation, steps: nat)
    requires QueueInv(s)
    ensures QueueInv(MutateState(s, mutation, steps).0)
  {
    hide Persisted, Near, Mutated;
    match Mutated(s.memory, mutation) {
      case Err(_) =>
      case Ok(next) =>
        assert Successor(s.memory, next);
        SuccessorIsWritten(s.memory, next);
        PersistLeaves(s.files, next, steps);
        NearItself(next);
    }
  }

  lemma NearItself(snapshot: Snapshot)
    ensures Near(snapshot, DocumentOf(snapshot))
  {
  }

  lemma StepKeeps(s: State, event: Event)
    requires QueueInv(s) && Enabled(s, event)
    ensures QueueInv(Step(s, event))
  {
    hide MutateState, Near;
    match event {
      case Mutate(mutation, steps) => MutateKeeps(s, mutation, steps);
      case Bind(_, _) =>
      case CloseFrame(session, reason, steps) =>
        if session in s.bindings && CloseStatus(reason).Some? {
          MutateKeeps(s, SetStatus(s.bindings[session], CloseStatus(reason).value), steps);
        }
      case Restart =>
        NearItself(Opened(s.files.main));
      case Crash(found) =>
        NearItself(Opened(found));
    }
  }

  lemma {:induction false} RunKeepsQueue(s: State, events: seq<Event>)
    requires QueueInv(s) && Legal(s, events)
    ensures QueueInv(After(s, events))
    decreases |events|
  {
    hide QueueInv, Step, Enabled;
    if events != [] {
      StepKeeps(s, events[0]);
      RunKeepsQueue(Step(s, events[0]), events[1..]);
    }
  }

  lemma FirstStartIsOk()
    ensures QueueInv(FIRST_START)
  {
  }

  // How entries move

  /** How one entry may differ after a step: the source never, the progress only in transfer. */
  ghost predicate EntryMoves(before: Entry, after: Entry) {
    && after.source == before.source
    && AllowsTransitionTo(before.status, after.status)
    && (after.progress != before.progress ==> before.status == Status.Transferring)
  }

  ghost predicate SnapshotMoves(before: Snapshot, after: Snapshot) {
    forall id :: id in before ==> id in after && EntryMoves(before[id], after[id])
  }

  lemma SuccessorMoves(before: Snapshot, after: Snapshot)
    requires before == after || Successor(before, after)
    ensures SnapshotMoves(before, after)
  {
  }

  /** Steps other than a power loss lead from a snapshot to itself or one mutation ahead. */
  lemma StepIsNear(s: State, event: Event)
    requires QueueInv(s) && Enabled(s, event) && !event.Crash?
    ensures Step(s, event).memory == s.memory || Successor(s.memory, Step(s, event).memory)
  {
    hide Persisted;
    var next := Step(s, event).memory;
    match event {
      case Mutate(mutation, steps) =>
        assert next == s.memory || Mutated(s.memory, mutation) == Ok(next);
      case Bind(_, _) =>
      case CloseFrame(session, reason, steps) =>
        if session in s.bindings && CloseStatus(reason).Some? {
          var mutation := SetStatus(s.bindings[session], CloseStatus(reason).value);
          assert next == s.memory || Mutated(s.memory, mutation) == Ok(next);
        }
      case Restart =>
        assert Near(s.memory, s.files.main);
    }
  }

  /**
   In every run, every step but a power loss keeps all entries, follows the allowed transitions, and
   changes progress only of an entry in transfer. A power loss does so too exactly if the document it
   leaves does.
   */
  lemma ProgressOnlyInTransfer(events: seq<Event>, event: Event)
    requires Legal(FIRST_START, events) && Enabled(After(FIRST_START, events), event)
    ensures (var s := After(FIRST_START, events);
             SnapshotMoves(s.memory, Step(s, event).memory) <==>
             (event.Crash? ==> SnapshotMoves(s.memory, Opened(event.found))))
  {
    hide QueueInv, SnapshotMoves;
    FirstStartIsOk();
    RunKeepsQueue(FIRST_START, events);
    var s := After(FIRST_START, events);
    if !event.Crash? {
      StepIsNear(s, event);
      SuccessorMoves(s.memory, Step(s, event).memory);
    }
  }

  // Final states

  /** What must not be undone about an entry: that it exists, and a cancellation or completion. */
  ghost predicate Kept(first: Entry, later: Entry) {
    && later.source == first.source
    && (first.status.Cancelled? ==> later == first)
    && (first.status.Completed? ==> later.status.Completed? && later.progress == first.progress)
  }

  ghost predicate KeptIn(first: Entry, id: UploadId, snapshot: Snapshot) {
    id in snapshot && Kept(first, snapshot[id])
  }

  /** Every document a power loss could leave keeps the entry. */
  ghost predicate Secured(first: Entry, id: UploadId, s: State) {
    forall d :: d in s.files.possible ==> Loaded(d).Ok? && KeptIn(first, id, Loaded(d).value)
  }

  lemma SuccessorKeeps(first: Entry, id: UploadId, from: Snapshot, to: Snapshot)
    requires KeptIn(first, id, from) && Successor(from, to)
    ensures KeptIn(first, id, to)
  {
    SuccessorMoves(from, to);
  }

  lemma MutateSecures(first: Entry, id: UploadId, s: State, mutation: Mutation, steps: nat)
    requires QueueInv(s) && Secured(first, id, s)
    ensures Secured(first, id, MutateState(s, mutation, steps).0)
  {
    hide Persisted, KeptIn, Near, Mutated;
    match Mutated(s.memory, mutation) {
      case Err(_) =>
      case Ok(next) =>
        assert Successor(s.memory, next);
        PersistLeaves(s.files, next, steps);
        SecuredMemory(first, id, s);
        SuccessorKeeps(first, id, s.memory, next);
    }
  }

  lemma SecuredMemory(first: Entry, id: UploadId, s: State)
    requires QueueInv(s) && Secured(first, id, s)
    ensures KeptIn(first, id, s.memory)
  {
    hide KeptIn;
    assert Loaded(DocumentOf(s.memory)) == Ok(s.memory);
  }

  lemma StepSecures(first: Entry, id: UploadId, s: State, event: Event)
    requires QueueInv(s) && Secured(first, id, s) && Enabled(s, event)
    ensures Secured(first, id, Step(s, event))
  {
    hide MutateState, KeptIn, QueueInv;
    match event {
      case Mutate(mutation, steps) => MutateSecures(first, id, s, mutation, steps);
      case CloseFrame(session, reason, steps) =>
        if session in s.bindings && CloseStatus(reason).Some? {
          MutateSecures(first, id, s, SetStatus(s.bindings[session], CloseStatus(reason).value), steps);
        }
      case Bind(_, _) | Restart | Crash(_) =>
    }
  }

  lemma {:induction false} SecuredStays(first: Entry, id: UploadId, s: State, events: seq<Event>)
    requires QueueInv(s) && Secured(first, id, s) && Legal(s, events)
    ensures KeptIn(first, id, After(s, events).memory)
    decreases |events|
  {
    hide QueueInv, Secured, KeptIn, Step, Enabled;
    if events == [] {
      SecuredMemory(first, id, s);
    } else {
      StepKeeps(s, events[0]);
      StepSecures(first, id, s, events[0]);
      SecuredStays(first, id, Step(s, events[0]), events[1..]);
    }
  }

  ghost predicate KeptAfter(first: Entry, id: UploadId, s: State, events: seq<Event>)
    requires Legal(s, events)
  {
    KeptIn(first, id, After(s, events).memory)
  }

  /** The entry is kept by every continuation. */
  ghost predicate KeptForever(first: Entry, id: UploadId, s: State) {
    forall events | Legal(s, events) :: KeptAfter(first, id, s, events)
  }

  /**
   Exactly when an entry is kept for good. From any reachable state, over every continuation of
   operations, close frames, failures, restarts and power losses, the entry in memory is never lost, a
   cancelled one stays cancelled and a completed one completed without further progress (its material
   identifier may change), if and only if every document a power loss could leave now says so.
   */
  lemma FinalStatesAreFinal(s: State, id: UploadId)
    requires QueueInv(s) && id in s.memory
    ensures KeptForever(s.memory[id], id, s) <==> Secured(s.memory[id], id, s)
  {
    hide QueueInv, KeptIn;
    var first := s.memory[id];
    if Secured(first, id, s) {
      forall events | Legal(s, events) ensures KeptAfter(first, id, s, events) {
        SecuredStays(first, id, s, events);
      }
    }
    if KeptForever(first, id, s) {
      forall d | d in s.files.possible ensures Loaded(d).Ok? && KeptIn(first, id, Loaded(d).value) {
        OneStepRun(s, Crash(d));
        assert KeptAfter(first, id, s, [Crash(d)]);
        PossibleLoads(s, d);
      }
    }
  }

  lemma PossibleLoads(s: State, d: Document)
    requires QueueInv(s) && d in s.files.possible
    ensures Loaded(d).Ok?
  {
  }

  lemma OneStepRun(s: State, event: Event)
    requires Enabled(s, event)
    ensures Legal(s, [event]) && After(s, [event]) == Step(s, event)
  {
    hide Step, Enabled;
    assert [event][1..] == [];
  }

  // Restarts and what they show

  /** Restarts happen only when no rename still waits for its directory sync. */
  ghost predicate CleanRestarts(s: State, events: seq<Event>)
    requires Legal(s, events)
    decreases |events|
  {
    events == [] ||
    ((events[0].Restart? ==> s.files.possible == {s.files.main}) && CleanRestarts(Step(s, events[0]), events[1..]))
  }

  ghost predicate AllNear(s: State) {
    forall d :: d in s.files.possible ==> Near(s.memory, d)
  }

  lemma MutateStaysNear(s: State, mutation: Mutation, steps: nat)
    requires QueueInv(s) && AllNear(s)
    ensures AllNear(MutateState(s, mutation, steps).0)
  {
    hide Persisted, Near, Mutated;
    match Mutated(s.memory, mutation) {
      case Err(_) =>
      case Ok(next) =>
        assert Successor(s.memory, next);
        SuccessorIsWritten(s.memory, next);
        PersistLeaves(s.files, next, steps);
        NearItself(next);
    }
  }

  lemma StepStaysNear(s: State, event: Event)
    requires QueueInv(s) && AllNear(s) && Enabled(s, event)
    requires event.Restart? ==> s.files.possible == {s.files.main}
    ensures AllNear(Step(s, event))
  {
    hide MutateState, Near;
    match event {
      case Mutate(mutation, steps) => MutateStaysNear(s, mutation, steps);
      case CloseFrame(session, reason, steps) =>
        if session in s.bindings && CloseStatus(reason).Some? {
          MutateStaysNear(s, SetStatus(s.bindings[session], CloseStatus(reason).value), steps);
        }
      case Bind(_, _) =>
      case Restart =>
        NearItself(Opened(s.files.main));
      case Crash(found) =>
        NearItself(Opened(found));
    }
  }

  lemma {:induction false} CleanRunStaysNear(s: State, events: seq<Event>)
    requires QueueInv(s) && AllNear(s) && Legal(s, events) && CleanRestarts(s, events)
    ensures QueueInv(After(s, events)) && AllNear(After(s, events))
    decreases |events|
  {
    hide QueueInv, AllNear, Step, Enabled;
    if events != [] {
      StepKeeps(s, events[0]);
      StepStaysNear(s, events[0]);
      CleanRunStaysNear(Step(s, events[0]), events[1..]);
    }
  }

  /**
   After any run whose restarts were clean, a power loss leaves the snapshot in memory or that with one
   refused mutation; so every entry in memory is kept over every continuation, even by later restarts
   that are not clean.
   */
  lemma CleanRunsKeepFinalStates(events: seq<Event>, id: UploadId, later: seq<Event>)
    requires Legal(FIRST_START, events) && CleanRestarts(FIRST_START, events)
    requires id in After(FIRST_START, events).memory && Legal(After(FIRST_START, events), later)
    ensures AllNear(After(FIRST_START, events))
    ensures (var s := After(FIRST_START, events);
             KeptIn(s.memory[id], id, After(s, later).memory))
  {
    hide QueueInv;
    FirstStartIsOk();
    CleanRunStaysNear(FIRST_START, events);
    var s := After(FIRST_START, events);
    forall d | d in s.files.possible ensures Loaded(d).Ok? && KeptIn(s.memory[id], id, Loaded(d).value) {
      assert Near(s.memory, d);
      SuccessorMoves(s.memory, Loaded(d).value);
    }
    SecuredStays(s.memory[id], id, s, later);
  }

  /**
   What a restart shows is final exactly when it is clean: no power loss takes anything back if and only
   if no rename was waiting for its directory sync.
   */
  lemma RestartShowsDurableIff(s: State)
    requires QueueInv(s)
    ensures (forall d | d in s.files.possible :: Opened(d) == Step(s, Restart).memory)
       <==> s.files.possible == {s.files.main}
  {
    if forall d | d in s.files.possible :: Opened(d) == Step(s, Restart).memory {
      forall d | d in s.files.possible ensures d == s.files.main {
        assert Opened(d) == Opened(s.files.main);
      }
    }
  }

  /** The same along a whole run: every restart shows only durable state if and only if every restart is clean. */
  ghost predicate RestartsShowDurable(s: State, events: seq<Event>)
    requires Legal(s, events)
    decreases |events|
  {
    events == [] ||
    (&& (events[0].Restart? ==> forall d | d in s.files.possible :: Opened(d) == Step(s, Restart).memory)
     && RestartsShowDurable(Step(s, events[0]), events[1..]))
  }

  lemma {:induction false} RunShowsDurableIff(s: State, events: seq<Event>)
    requires QueueInv(s) && Legal(s, events)
    ensures RestartsShowDurable(s, events) <==> CleanRestarts(s, events)
    decreases |events|
  {
    hide QueueInv, Step, Enabled;
    if events != [] {
      StepKeeps(s, events[0]);
      if events[0].Restart? {
        RestartShowsDurableIff(s);
      }
      RunShowsDurableIff(Step(s, events[0]), events[1..]);
    }
  }

  /**
   The failing run, for every mutation at every durable state: it is stopped between its rename and its
   directory sync, the process restarts and shows it, and a power loss takes it back. With a cancel the
   entry is cancelled and then not; with an enqueue it is there and then lost.
   */
  lemma RestartShowsWhatPowerLossUndoes(s: State, mutation: Mutation)
    requires QueueInv(s) && s.files.possible == {s.files.main}
    requires Mutated(s.memory, mutation).Ok?
    ensures (var events := [Mutate(mutation, RENAMED), Restart];
             && Legal(s, events)
             && After(s, events).memory == Mutated(s.memory, mutation).value
             && Legal(s, events + [Crash(s.files.main)])
             && After(s, events + [Crash(s.files.main)]).memory == s.memory)
  {
    hide Persisted, Mutated;
    var next := Mutated(s.memory, mutation).value;
    PersistLeaves(s.files, next, RENAMED);
    var first, last := Mutate(mutation, RENAMED), Crash(s.files.main);
    var s1 := Step(s, first);
    var s2 := Step(s1, Restart);
    assert s2.memory == next && s.files.main in s2.files.possible;
    assert Opened(s.files.main) == s.memory;
    assert [first, Restart] + [last] == [first, Restart, last];
    RunOfTwo(s, first, Restart);
    RunOfThree(s, first, Restart, last);
  }

  lemma RunOfTwo(s: State, a: Event, b: Event)
    requires Enabled(s, a) && Enabled(Step(s, a), b)
    ensures Legal(s, [a, b]) && After(s, [a, b]) == Step(Step(s, a), b)
  {
    hide Step, Enabled;
    OneStepRun(Step(s, a), b);
    assert [a, b][1..] == [b];
  }

  lemma RunOfThree(s: State, a: Event, b: Event, c: Event)
    requires Enabled(s, a) && Enabled(Step(s, a), b) && Enabled(Step(Step(s, a), b), c)
    ensures Legal(s, [a, b, c]) && After(s, [a, b, c]) == Step(Step(Step(s, a), b), c)
  {
    hide Step, Enabled;
    RunOfTwo(Step(s, a), b, c);
    assert [a, b, c][1..] == [b, c];
  }

  // One mutation

  /**
   After an error the memory is the prior snapshot; after success memory, document and every document a
   power loss could leave are the same; and whatever a power loss leaves is one whole snapshot: one that
   was possible before, or the one this mutation was writing.
   */
  lemma MutationIsAtomic(events: seq<Event>, mutation: Mutation, steps: nat)
    requires Legal(FIRST_START, events)
    ensures (var s := After(FIRST_START, events);
             var (next, error) := MutateState(s, mutation, steps);
             && (error.Some? ==> next.memory == s.memory)
             && (error.None? ==> Mutated(s.memory, mutation) == Ok(next.memory)
                                 && next.files.main == Whole(next.memory)
                                 && next.files.possible == {Whole(next.memory)})
             && (forall d :: d in next.files.possible ==> Loaded(d).Ok?)
             && (forall d :: d in next.files.possible ==>
                   d in s.files.possible || Ok(Opened(d)) == Mutated(s.memory, mutation)))
  {
    hide Persisted;
    FirstStartIsOk();
    RunKeepsQueue(FIRST_START, events);
    var s := After(FIRST_START, events);
    MutateKeeps(s, mutation, steps);
    if Mutated(s.memory, mutation).Ok? {
      PersistLeaves(s.files, Mutated(s.memory, mutation).value, steps);
    }
  }

  /**
   An operation that reported failure can still surface after a restart, in exactly one case: the rename
   was done and only the directory sync failed.
   */
  lemma FailedMutationSurfacesIff(s: State, mutation: Mutation, steps: nat)
    requires QueueInv(s) && Mutated(s.memory, mutation).Ok? && steps < PERSISTED
    requires !(Whole(Mutated(s.memory, mutation).value) in s.files.possible)
    ensures MutateState(s, mutation, steps).1 == Some(PersistFailed)
    ensures Whole(Mutated(s.memory, mutation).value) in MutateState(s, mutation, steps).0.files.possible
       <==> steps == RENAMED
  {
    hide Persisted;
    PersistLeaves(s.files, Mutated(s.memory, mutation).value, steps);
  }

  /** A close frame touches only the upload its session is bound to, and a binding is never redirected. */
  lemma CloseTouchesOnlyItsUpload(s: State, session: SessionId, reason: CloseReason, steps: nat)
    ensures (var (next, error) := CloseState(s, session, reason, steps);
             && (!(session in s.bindings) ==> next == s && error.None?)
             && (session in s.bindings ==>
                   forall id :: id in s.memory && id != s.bindings[session] ==>
                     id in next.memory && next.memory[id] == s.memory[id])
             && (error.Some? ==> next.bindings == s.bindings && next.memory == s.memory)
             && (error.None? ==> next.bindings == s.bindings - {session})
             && (session in s.bindings && error.None? && reason.TransferCancelled? ==>
                   s.bindings[session] in next.memory && next.memory[s.bindings[session]].status == Status.Cancelled))
  {
    hide Persisted;
    if !(session in s.bindings) {
      assert s.bindings - {session} == s.bindings;
    }
  }

  lemma {:induction false} BindingsAreNeverRedirected(s: State, events: seq<Event>, session: SessionId)
    requires Legal(s, events) && session in s.bindings
    requires forall e :: e in events ==> !e.Crash? && !e.Restart? && !(e.CloseFrame? && e.session == session)
    ensures session in After(s, events).bindings && After(s, events).bindings[session] == s.bindings[session]
    decreases |events|
  {
    hide Persisted, Mutated;
    if events != [] {
      assert events[0] in events;
      BindingsAreNeverRedirected(Step(s, events[0]), events[1..], session);
    }
  }

  // What entries say, from the requests that succeeded

  /** The transitions a status may take; staying is always one. */
  lemma TransitionsAre(from: Status, to: Status)
    ensures AllowsTransitionTo(from, to) <==>
            || (from.Pending? && !to.Completed?)
            || (from.Transferring? && !to.Pending?)
            || (from.Paused? && !to.Pending? && !to.Completed?)
            || (from.Cancelled? && to.Cancelled?)
            || (from.Completed? && to.Completed?)
  {
  }

  /** The event succeeds: the change is made and persisted. */
  predicate Succeeds(s: State, event: Event) {
    match event
    case Mutate(mutation, steps) => MutateState(s, mutation, steps).1.None?
    case CloseFrame(session, reason, steps) => CloseState(s, session, reason, steps).1.None?
    case _ => true
  }

  /**
   A session is bound exactly from its first bind to its first close frame that succeeds, and to the
   upload of that bind; a restart or a power loss leaves no binding at all.
   */
  lemma BindingsMoveExactly(s: State, event: Event, session: SessionId)
    requires Enabled(s, event)
    ensures (var next := Step(s, event).bindings;
             && (session in next <==>
                 && !event.Restart? && !event.Crash?
                 && (session in s.bindings || (event.Bind? && event.session == session))
                 && !(event.CloseFrame? && event.session == session && Succeeds(s, event)))
             && (session in next ==>
                   next[session] == if session in s.bindings then s.bindings[session] else event.upload))
  {
    hide Persisted, Mutated;
  }

  /** What a successful event tells of the progress of `id`. */
  function ToldProgress(event: Event, id: UploadId): Option<Progress> {
    match event
    case Mutate(Enqueue(other, entry), _) => if other == id then Some(entry.progress) else None
    case Mutate(RecordAck(other, progress), _) => if other == id then Some(progress) else None
    case _ => None
  }

  /** What it tells of the status; a close frame speaks of the upload its session is bound to. */
  function ToldStatus(s: State, event: Event, id: UploadId): Option<Status> {
    match event
    case Mutate(Enqueue(other, entry), _) => if other == id then Some(entry.status) else None
    case Mutate(SetStatus(other, status), _) => if other == id then Some(status) else None
    case CloseFrame(session, ConnectionFailed, _) =>
      if session in s.bindings && s.bindings[session] == id then Some(Paused("NETWORK_UNAVAILABLE")) else None
    case CloseFrame(session, TransferCancelled, _) =>
      if session in s.bindings && s.bindings[session] == id then Some(Status.Cancelled) else None
    case _ => None
  }

  function Newest<T>(older: Option<T>, newer: Option<T>): Option<T> {
    if newer.Some? then newer else older
  }

  /** The newest progress told in a run, `told` being what was told before it. */
  ghost function LastProgress(s: State, events: seq<Event>, id: UploadId, told: Option<Progress>): Option<Progress>
    requires Legal(s, events)
    decreases |events|
  {
    if events == [] then told
    else
      LastProgress(Step(s, events[0]), events[1..], id,
                   if Succeeds(s, events[0]) then Newest(told, ToldProgress(events[0], id)) else told)
  }

  ghost function LastStatus(s: State, events: seq<Event>, id: UploadId, told: Option<Status>): Option<Status>
    requires Legal(s, events)
    decreases |events|
  {
    if events == [] then told
    else
      LastStatus(Step(s, events[0]), events[1..], id,
                 if Succeeds(s, events[0]) then Newest(told, ToldStatus(s, events[0], id)) else told)
  }

  function ProgressIn(snapshot: Snapshot, id: UploadId): Option<Progress> {
    if id in snapshot then Some(snapshot[id].progress) else None
  }

  function StatusIn(snapshot: Snapshot, id: UploadId): Option<Status> {
    if id in snapshot then Some(snapshot[id].status) else None
  }

  /** One step that succeeds makes of an entry exactly what it tells; one that fails makes nothing of it. */
  lemma StepTells(s: State, event: Event, id: UploadId)
    requires Enabled(s, event) && !event.Restart? && !event.Crash?
    ensures (var next := Step(s, event).memory;
             && ProgressIn(next, id)
                == (if Succeeds(s, event) then Newest(ProgressIn(s.memory, id), ToldProgress(event, id))
                    else ProgressIn(s.memory, id))
             && StatusIn(next, id)
                == (if Succeeds(s, event) then Newest(StatusIn(s.memory, id), ToldStatus(s, event, id))
                    else StatusIn(s.memory, id)))
  {
    hide Persisted, AllowsTransitionTo;
  }

  /**
   Over every run without restart or power loss, an entry holds the progress of its last successful
   acknowledgement, or the enqueued one, and the status that was set last: by a status change, by a close
   frame of a session bound to it, or by its enqueue. A failed operation leaves both.
   */
  lemma {:induction false} EntriesSayWhatWasTold(s: State, events: seq<Event>, id: UploadId)
    requires Legal(s, events) && forall e :: e in events ==> !e.Restart? && !e.Crash?
    ensures ProgressIn(After(s, events).memory, id) == LastProgress(s, events, id, ProgressIn(s.memory, id))
    ensures StatusIn(After(s, events).memory, id) == LastStatus(s, events, id, StatusIn(s.memory, id))
    decreases |events|
  {
    hide Step, Enabled, Succeeds, ToldProgress, ToldStatus, ProgressIn, StatusIn;
    if events != [] {
      assert events[0] in events;
      assert forall e :: e in events[1..] ==> e in events;
      StepTells(s, events[0], id);
      EntriesSayWhatWasTold(Step(s, events[0]), events[1..], id);
    }
  }

  /**
   In a step that is no restart or power loss an entry becomes cancelled only by being set so, or by a
   cancelling close frame of a session bound to it.
   */
  lemma CancelledOnlyBy(s: State, event: Event, id: UploadId)
    requires Enabled(s, event) && !event.Restart? && !event.Crash?
    requires id in Step(s, event).memory && Step(s, event).memory[id].status.Cancelled?
    requires id in s.memory ==> !s.memory[id].status.Cancelled?
    ensures Succeeds(s, event) && id in s.memory
    ensures (event.Mutate? && event.mutation == SetStatus(id, Status.Cancelled))
            || (event.CloseFrame? && event.reason.TransferCancelled?
                && event.session in s.bindings && s.bindings[event.session] == id)
  {
    hide Persisted, AllowsTransitionTo;
    StepTells(s, event, id);
  }

  // The queue object

  /** The guards of the three operations, in the order they are checked. */
  predicate Refuses(snapshot: Snapshot, mutation: Mutation, error: QueueError) {
    match error
    case DuplicateUpload => mutation.Enqueue? && mutation.id in snapshot
    case InitialStateInvalid => mutation.Enqueue? && !(mutation.id in snapshot) && mutation.entry.status != Pending
    case UploadNotFound => !mutation.Enqueue? && !(mutation.id in snapshot)
    case StateInvalid =>
      && mutation.id in snapshot
      && (mutation.RecordAck? ==> !snapshot[mutation.id].status.Transferring?)
      && (mutation.SetStatus? ==> !AllowsTransitionTo(snapshot[mutation.id].status, mutation.status))
      && !mutation.Enqueue?
    case _ => false
  }

  class UploadQueue {
    var state: Snapshot
    var files: Files

    /** `open` after whatever the last run left: it reads the document and syncs nothing. */
    constructor (files: Files)
      requires Loaded(files.main).Ok?
      ensures State(state, this.files, map[]) == Step(State(map[], files, map[]), Restart)
      ensures this.files == files && state == if files.main.Whole? then files.main.snapshot else map[]
    {
      this.files, state := files, Loaded(files.main).value;
    }

    /** Each step may fail; `steps` is how many succeed. */
    method PersistSnapshot(snapshot: Snapshot, steps: nat) returns (stored: bool)
      modifies this`files
      ensures stored <==> steps >= PERSISTED
      ensures files == Persisted(old(files), snapshot, steps)
      ensures old(files).mainSynced && steps < RENAMED ==>
                files.main == old(files).main && files.possible == old(files).possible
      ensures old(files).mainSynced && steps == RENAMED ==>
                files.main == Whole(snapshot) && files.possible == old(files).possible + {Whole(snapshot)}
      ensures old(files).mainSynced && stored ==> files.main == Whole(snapshot) && files.possible == {Whole(snapshot)}
    {
      if steps < DIRECTORY_CREATED { return false; }
      if steps < TEMPORARY_REMOVED { return false; }
      files := RemoveTemporary(files);
      if steps < TEMPORARY_WRITTEN { return false; }
      files := WriteTemporary(files, snapshot);
      if steps < TEMPORARY_SYNCED { return false; }
      files := SyncTemporary(files);
      if steps < RENAMED { return false; }
      files := RenameTemporary(files);
      if steps < PERSISTED { return false; }
      files := SyncDirectory(files);
      stored := true;
    }

    method MutateSnapshot(mutation: Mutation, steps: nat, ghost bindings: map<SessionId, UploadId>)
      returns (error: Option<QueueError>)
      modifies this
      ensures (State(state, files, bindings), error) == MutateState(State(old(state), old(files), bindings), mutation, steps)
      ensures forall e :: Refuses(old(state), mutation, e) ==> error == Some(e) && files == old(files)
      ensures (forall e :: !Refuses(old(state), mutation, e)) ==>
                error == if steps < PERSISTED then Some(PersistFailed) else None
      ensures error.Some? ==> state == old(state)
      ensures error.None? ==>
                match mutation
                case Enqueue(id, entry) => state == old(state)[id := entry]
                case RecordAck(id, progress) => id in old(state) && state == old(state)[id := old(state)[id].(progress := progress)]
                case SetStatus(id, status) => id in old(state) && state == old(state)[id := old(state)[id].(status := status)]
      ensures error.None? && old(files).mainSynced ==> files.main == Whole(state) && files.possible == {Whole(state)}
    {
      hide Persisted;
      var prior := state;
      error := ChangeInPlace(mutation);
      if error.Some? {
        state := prior;
        return;
      }
      var stored := PersistSnapshot(state, steps);
      if !stored {
        state := prior;
        error := Some(PersistFailed);
      }
    }

    /** The closures `enqueue`, `record_ack` and `set_status` pass to `mutate`. */
    method ChangeInPlace(mutation: Mutation) returns (error: Option<QueueError>)
      modifies this`state
      ensures error.None? ==> Mutated(old(state), mutation) == Ok(state)
      ensures error.Some? ==> Mutated(old(state), mutation) == Err(error.value)
      ensures error.Some? ==> Refuses(old(state), mutation, error.value) && state == old(state)
      ensures error.None? ==> forall e :: !Refuses(old(state), mutation, e)
      ensures error.None? ==>
                match mutation
                case Enqueue(id, entry) => state == old(state)[id := entry]
                case RecordAck(id, progress) => id in old(state) && state == old(state)[id := old(state)[id].(progress := progress)]
                case SetStatus(id, status) => id in old(state) && state == old(state)[id := old(state)[id].(status := status)]
    {
      match mutation {
        case Enqueue(id, entry) =>
          if id in state {
            return Some(DuplicateUpload);
          }
          if entry.status != Pending {
            return Some(InitialStateInvalid);
          }
          state := state[id := entry];
        case RecordAck(id, progress) =>
          if !(id in state) {
            return Some(UploadNotFound);
          }
          if state[id].status != Status.Transferring {
            return Some(StateInvalid);
          }
          state := state[id := state[id].(progress := progress)];
        case SetStatus(id, status) =>
          if !(id in state) {
            return Some(UploadNotFound);
          }
          if !AllowsTransitionTo(state[id].status, status) {
            return Some(StateInvalid);
          }
          state := state[id := state[id].(status := status)];
      }
      error := None;
    }
  }

  lemma NoBinding(bindings: map<SessionId, UploadId>, session: SessionId)
    requires !(session in bindings)
    ensures bindings - {session} == bindings
  {
  }

  class TransferControl {
    var bindings: map<SessionId, UploadId>

    constructor ()
      ensures bindings == map[]
    {
      bindings := map[];
    }

    /** Binding again to the same upload is harmless; to another it is refused. */
    method Bind(session: SessionId, upload: UploadId) returns (bound: bool)
      modifies this
      ensures bound <==> !(session in old(bindings) && old(bindings)[session] != upload)
      ensures bindings == if session in old(bindings) then old(bindings) else old(bindings)[session := upload]
    {
      if session in bindings {
        return bindings[session] == upload;
      }
      bindings := bindings[session := upload];
      bound := true;
    }

    method ConsumeClose(queue: UploadQueue, session: SessionId, reason: CloseReason, steps: nat) returns (error: Option<QueueError>)
      modifies this, queue
      ensures (State(queue.state, queue.files, bindings), error)
           == CloseState(State(old(queue.state), old(queue.files), old(bindings)), session, reason, steps)
      ensures !(session in old(bindings)) || reason.TransferFinished? ==>
                error.None? && queue.state == old(queue.state) && queue.files == old(queue.files)
      ensures bindings == if error.None? then old(bindings) - {session} else old(bindings)
      ensures error.Some? ==> queue.state == old(queue.state)
      ensures (session in old(bindings) && !reason.TransferFinished? ==>
                 var id := old(bindings)[session];
                 var status := if reason.ConnectionFailed? then Paused("NETWORK_UNAVAILABLE") else Status.Cancelled;
                 if !(id in old(queue.state)) then error == Some(UploadNotFound)
                 else
                   var was := old(queue.state)[id].status;
                   if was.Completed? || (was.Cancelled? && reason.ConnectionFailed?) then error == Some(StateInvalid)
                   else if steps < PERSISTED then error == Some(PersistFailed)
                   else
                     && error.None?
                     && queue.state == old(queue.state)[id := old(queue.state)[id].(status := status)])
    {
      hide Persisted;
      if !(session in bindings) {
        NoBinding(bindings, session);
      }
      if !(session in bindings) {
        return None;
      }
      error := None;
      match reason {
        case ConnectionFailed =>
          error := queue.MutateSnapshot(SetStatus(bindings[session], Paused("NETWORK_UNAVAILABLE")), steps, bindings);
        case TransferCancelled =>
          error := queue.MutateSnapshot(SetStatus(bindings[session], Status.Cancelled), steps, bindings);
        case TransferFinished =>
      }
      if error.None? {
        bindings := bindings - {session};
      }
    }
  }
}
