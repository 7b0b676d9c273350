/**
 The phone's list of resumable uploads: each save or remove reads the whole list, then overwrites it,
 both asynchronously. A serial queue keeps one such pair from falling inside another.
 */
module MobileState {
  import opened UploadRecords

  datatype Resumable = Resumable(id: UploadId, details: string)

  datatype Mutation = Save(upload: Resumable) | Remove(id: UploadId)

  function Without(uploads: seq<Resumable>, id: UploadId): (rest: seq<Resumable>)
    ensures forall u :: u in rest <==> u in uploads && u.id != id
  {
    if uploads == [] then []
    else if uploads[0].id == id then Without(uploads[1..], id)
    else [uploads[0]] + Without(uploads[1..], id)
  }

  function Changed(uploads: seq<Resumable>, mutation: Mutation): seq<Resumable> {
    match mutation
    case Save(upload) => [upload] + Without(uploads, upload.id)
    case Remove(id) => Without(uploads, id)
  }

  /** `Writing` remembers the list computed from what was read. */
  datatype Phase = Waiting | Reading | Writing(next: seq<Resumable>) | Settled(succeeded: bool)

  datatype Task = Task(mutation: Mutation, phase: Phase)

  datatype State = State(stored: seq<Resumable>, tasks: seq<Task>)

  datatype Event =
    | Enqueue(mutation: Mutation)
    | Start(task: nat)
    | GetDone(task: nat, succeeds: bool)
    | PutDone(task: nat, succeeds: bool)
    | AppKilled

  predicate Enabled(s: State, event: Event) {
    match event
    case Enqueue(_) => true
    case Start(k) => k < |s.tasks| && s.tasks[k].phase.Waiting? && (k == 0 || s.tasks[k - 1].phase.Settled?)
    case GetDone(k, _) => k < |s.tasks| && s.tasks[k].phase.Reading?
    case PutDone(k, _) => k < |s.tasks| && s.tasks[k].phase.Writing?
    case AppKilled => true
  }

  function Abandon(tasks: seq<Task>): (abandoned: seq<Task>)
    ensures |abandoned| == |tasks|
    ensures forall k :: 0 <= k < |tasks| ==>
              abandoned[k] == if tasks[k].phase.Settled? then tasks[k] else tasks[k].(phase := Settled(false))
  {
    seq(|tasks|, k requires 0 <= k < |tasks| =>
      if tasks[k].phase.Settled? then tasks[k] else tasks[k].(phase := Settled(false)))
  }

  function Apply(s: State, event: Event): State
    requires Enabled(s, event)
  {
    match event
    case Enqueue(mutation) => s.(tasks := s.tasks + [Task(mutation, Waiting)])
    case Start(k) => s.(tasks := s.tasks[k := s.tasks[k].(phase := Reading)])
    case GetDone(k, succeeds) =>
      var phase := if succeeds then Writing(Changed(s.stored, s.tasks[k].mutation)) else Settled(false);
      s.(tasks := s.tasks[k := s.tasks[k].(phase := phase)])
    case PutDone(k, succeeds) =>
      State(if succeeds then s.tasks[k].phase.next else s.stored,
            s.tasks[k := s.tasks[k].(phase := Settled(succeeds))])
    case AppKilled => s.(tasks := Abandon(s.tasks))
  }

  ghost predicate Legal(s: State, events: seq<Event>)
    decreases |events|
  {
    events == [] || (Enabled(s, events[0]) && Legal(Apply(s, events[0]), events[1..]))
  }

  ghost function After(s: State, events: seq<Event>): State
    requires Legal(s, events)
    decreases |events|
  {
    if events == [] then s else After(Apply(s, events[0]), events[1..])
  }

  /** The mutations that succeeded, applied in the order they were enqueued. */
  function Outcome(start: seq<Resumable>, tasks: seq<Task>): seq<Resumable> {
    if tasks == [] then start
    else
      var before, last := Outcome(start, tasks[..|tasks| - 1]), tasks[|tasks| - 1];
      if last.phase == Settled(true) then Changed(before, last.mutation) else before
  }

  /** Tasks run one after another, so whatever is being written was computed from what is stored now. */
  ghost predicate Serial(s: State) {
    && (forall j, k :: 0 <= j < k < |s.tasks| && !s.tasks[k].phase.Waiting? ==> s.tasks[j].phase.Settled?)
    && (forall k :: 0 <= k < |s.tasks| && s.tasks[k].phase.Writing? ==>
          s.tasks[k].phase.next == Changed(s.stored, s.tasks[k].mutation))
  }

  ghost predicate StateInv(start: seq<Resumable>, s: State) {
    Serial(s) && s.stored == Outcome(start, s.tasks)
  }

  /** Tasks that did not succeed leave the outcome alone, wherever they stand. */
  lemma {:induction false} SameSuccesses(start: seq<Resumable>, before: seq<Task>, after: seq<Task>)
    requires |before| == |after|
    requires forall k :: 0 <= k < |before| ==>
               before[k].mutation == after[k].mutation
               && (before[k].phase == Settled(true) <==> after[k].phase == Settled(true))
    ensures Outcome(start, before) == Outcome(start, after)
  {
    if before != [] {
      SameSuccesses(start, before[..|before| - 1], after[..|after| - 1]);
    }
  }

  lemma {:induction false} NothingAfter(start: seq<Resumable>, tasks: seq<Task>, k: nat)
    requires k <= |tasks| && forall j :: k <= j < |tasks| ==> tasks[j].phase != Settled(true)
    ensures Outcome(start, tasks) == Outcome(start, tasks[..k])
    decreases |tasks|
  {
    if k < |tasks| {
      NothingAfter(start, tasks[..|tasks| - 1], k);
      assert tasks[..|tasks| - 1][..k] == tasks[..k];
    } else {
      assert tasks[..k] == tasks;
    }
  }

  /** The running task succeeds: everything enqueued earlier is over, everything later has not begun. */
  lemma SuccessExtendsOutcome(start: seq<Resumable>, s: State, k: nat)
    requires StateInv(start, s) && Enabled(s, PutDone(k, true))
    ensures Outcome(start, Apply(s, PutDone(k, true)).tasks) == Changed(s.stored, s.tasks[k].mutation)
  {
    var after := Apply(s, PutDone(k, true)).tasks;
    forall j | k < j < |s.tasks| ensures s.tasks[j].phase.Waiting? {
    }
    NothingAfter(start, s.tasks, k);
    NothingAfter(start, after, k + 1);
    assert after[..k + 1][..k] == s.tasks[..k];
  }

  lemma ApplyKeeps(start: seq<Resumable>, s: State, event: Event)
    requires StateInv(start, s) && Enabled(s, event)
    ensures StateInv(start, Apply(s, event))
  {
    hide Outcome, Changed;
    var next := Apply(s, event);
    match event {
      case Enqueue(mutation) => EnqueueOutcome(start, s.tasks, mutation);
      case Start(k) =>
        StartIsSerial(s, k);
        SameSuccesses(start, s.tasks, next.tasks);
      case GetDone(k, _) => SameSuccesses(start, s.tasks, next.tasks);
      case PutDone(k, succeeds) =>
        if succeeds {
          SuccessExtendsOutcome(start, s, k);
        } else {
          SameSuccesses(start, s.tasks, next.tasks);
        }
      case AppKilled => SameSuccesses(start, s.tasks, next.tasks);
    }
  }

  lemma StartIsSerial(s: State, k: nat)
    requires Serial(s) && Enabled(s, Start(k))
    ensures forall j :: 0 <= j < k ==> s.tasks[j].phase.Settled?
  {
  }

  lemma EnqueueOutcome(start: seq<Resumable>, tasks: seq<Task>, mutation: Mutation)
    ensures Outcome(start, tasks + [Task(mutation, Waiting)]) == Outcome(start, tasks)
  {
    assert (tasks + [Task(mutation, Waiting)])[..|tasks|] == tasks;
  }

  /**
   No update is lost or reordered: at every moment of every interleaving, failed reads, failed writes
   and killed apps included, the stored list is the successful mutations applied in enqueue order.
   */
  lemma {:induction false} StoredIsOutcome(start: seq<Resumable>, s: State, events: seq<Event>)
    requires StateInv(start, s) && Legal(s, events)
    ensures StateInv(start, After(s, events))
    ensures After(s, events).stored == Outcome(start, After(s, events).tasks)
    decreases |events|
  {
    hide Outcome, Serial, Apply, Enabled;
    if events != [] {
      ApplyKeeps(start, s, events[0]);
      StoredIsOutcome(start, Apply(s, events[0]), events[1..]);
    }
  }

  /** A failure never blocks: while a task is unsettled, it or one enqueued before it can move. */
  lemma {:induction false} SomeTaskCanMove(s: State, k: nat)
    requires k < |s.tasks| && !s.tasks[k].phase.Settled?
    ensures exists j: nat :: j <= k && (Enabled(s, Start(j)) || Enabled(s, GetDone(j, true)) || Enabled(s, PutDone(j, true)))
  {
    if s.tasks[k].phase.Waiting? && 0 < k && !s.tasks[k - 1].phase.Settled? {
      SomeTaskCanMove(s, k - 1);
    } else {
      assert Enabled(s, Start(k)) || Enabled(s, GetDone(k, true)) || Enabled(s, PutDone(k, true));
    }
  }

  // What the list means

  ghost predicate DistinctIds(uploads: seq<Resumable>) {
    forall i, j :: 0 <= i < j < |uploads| ==> uploads[i].id != uploads[j].id
  }

  lemma {:induction false} WithoutKeepsDistinct(uploads: seq<Resumable>, id: UploadId)
    requires DistinctIds(uploads)
    ensures DistinctIds(Without(uploads, id))
  {
    if uploads != [] {
      var head, tail := uploads[0], uploads[1..];
      WithoutKeepsDistinct(tail, id);
      if head.id != id {
        var rest := Without(tail, id);
        assert Without(uploads, id) == [head] + rest;
        forall j | 0 <= j < |rest| ensures rest[j].id != head.id {
          assert rest[j] in rest && rest[j] in tail;
        }
      }
    }
  }

  lemma ChangedKeepsDistinct(uploads: seq<Resumable>, mutation: Mutation)
    requires DistinctIds(uploads)
    ensures DistinctIds(Changed(uploads, mutation))
  {
    hide Without;
    var id := if mutation.Save? then mutation.upload.id else mutation.id;
    WithoutKeepsDistinct(uploads, id);
    var rest := Without(uploads, id);
    forall j | 0 <= j < |rest| ensures rest[j].id != id {
      assert rest[j] in rest;
    }
  }

  lemma {:induction false} OutcomeKeepsDistinct(start: seq<Resumable>, tasks: seq<Task>)
    requires DistinctIds(start)
    ensures DistinctIds(Outcome(start, tasks))
  {
    hide Changed, DistinctIds;
    if tasks != [] {
      var front, last := tasks[..|tasks| - 1], tasks[|tasks| - 1];
      OutcomeKeepsDistinct(start, front);
      ChangedKeepsDistinct(Outcome(start, front), last.mutation);
    }
  }

  /** The last successful mutation of an upload, in enqueue order. */
  function LastOf(tasks: seq<Task>, id: UploadId): Option<Mutation> {
    if tasks == [] then None
    else
      var last := tasks[|tasks| - 1];
      var about := match last.mutation case Save(upload) => upload.id case Remove(removed) => removed;
      if last.phase == Settled(true) && about == id then Some(last.mutation) else LastOf(tasks[..|tasks| - 1], id)
  }

  /** What is listed for an upload is decided by its last successful mutation alone. */
  lemma {:induction false} LastMutationWins(start: seq<Resumable>, tasks: seq<Task>, upload: Resumable)
    ensures upload in Outcome(start, tasks) <==>
            match LastOf(tasks, upload.id)
            case Some(Save(saved)) => saved == upload
            case Some(Remove(_)) => false
            case None => upload in start
  {
    if tasks != [] {
      LastMutationWins(start, tasks[..|tasks| - 1], upload);
    }
  }

  /** Filtering works element by element, so what stays keeps its order. */
  lemma {:induction false} WithoutConcat(front: seq<Resumable>, back: seq<Resumable>, id: UploadId)
    ensures Without(front + back, id) == Without(front, id) + Without(back, id)
  {
    if front == [] {
      assert front + back == back;
    } else {
      WithoutConcat(front[1..], back, id);
      assert (front + back)[1..] == front[1..] + back;
    }
  }

  /** The upload saved last stands first. */
  lemma {:induction false} LatestSaveIsFirst(start: seq<Resumable>, tasks: seq<Task>, k: nat)
    requires k < |tasks| && tasks[k].phase == Settled(true) && tasks[k].mutation.Save?
    requires forall j :: k < j < |tasks| ==> tasks[j].phase != Settled(true)
    ensures Outcome(start, tasks) != [] && Outcome(start, tasks)[0] == tasks[k].mutation.upload
  {
    NothingAfter(start, tasks, k + 1);
    assert tasks[..k + 1][..k] == tasks[..k];
  }

  /** Over every interleaving from a list without duplicates: no duplicates, and the last mutation wins. */
  lemma ListedExactlyAsLastMutated(start: seq<Resumable>, events: seq<Event>, upload: Resumable)
    requires DistinctIds(start) && Legal(State(start, []), events)
    ensures (var s := After(State(start, []), events);
             && DistinctIds(s.stored)
             && (upload in s.stored <==>
                 match LastOf(s.tasks, upload.id)
                 case Some(Save(saved)) => saved == upload
                 case Some(Remove(_)) => false
                 case None => upload in start))
  {
    StoredIsOutcome(start, State(start, []), events);
    OutcomeKeepsDistinct(start, After(State(start, []), events).tasks);
    LastMutationWins(start, After(State(start, []), events).tasks, upload);
  }

  // The object on the phone

  class ResumableUploads {
    var stored: seq<Resumable>
    var tasks: seq<Task>
    ghost const start: seq<Resumable>

    constructor (stored: seq<Resumable>)
      ensures Valid() && start == stored && Contents() == State(stored, [])
    {
      this.stored, tasks, start := stored, [], stored;
    }

    ghost function Contents(): State
      reads this
    {
      State(stored, tasks)
    }

    /** Tasks are serial, and the list is what the successful ones make of the list at the start. */
    ghost predicate Valid()
      reads this
    {
      StateInv(start, Contents())
    }

    /** `SerialTaskQueue.enqueue` called by `saveResumableUpload` or `removeResumableUpload`. */
    method EnqueueMutation(mutation: Mutation)
      requires Valid()
      modifies this`tasks
      ensures Valid() && Contents() == Apply(old(Contents()), Enqueue(mutation))
      ensures tasks == old(tasks) + [Task(mutation, Waiting)]
      ensures Enabled(Contents(), Start(|tasks| - 1)) ==>
                forall j :: 0 <= j < |tasks| - 1 ==> tasks[j].phase.Settled?
    {
      ApplyKeeps(start, Contents(), Enqueue(mutation));
      tasks := tasks + [Task(mutation, Waiting)];
      if Enabled(Contents(), Start(|tasks| - 1)) {
        StartIsSerial(Contents(), |tasks| - 1);
      }
    }

    /** A task starts alone: everything enqueued earlier is over, nothing later has begun. */
    method StartTask(task: nat)
      requires Valid() && Enabled(Contents(), Start(task))
      modifies this`tasks
      ensures Valid() && Contents() == Apply(old(Contents()), Start(task))
      ensures tasks == old(tasks)[task := Task(old(tasks)[task].mutation, Reading)]
      ensures forall j :: 0 <= j < task ==> tasks[j].phase.Settled?
      ensures forall j :: task < j < |tasks| ==> tasks[j].phase.Waiting?
    {
      ApplyKeeps(start, Contents(), Start(task));
      StartIsSerial(Contents(), task);
      tasks := tasks[task := tasks[task].(phase := Reading)];
    }

    /**
     Continues after the read: the new list is computed with one pass over the old one, from everything
     that succeeded before this task.
     */
    method ContinueWithList(task: nat, succeeds: bool)
      requires Valid() && Enabled(Contents(), GetDone(task, succeeds))
      modifies this`tasks
      ensures Valid() && Contents() == Apply(old(Contents()), GetDone(task, succeeds))
      ensures |tasks| == |old(tasks)| && tasks[task].mutation == old(tasks)[task].mutation
      ensures forall j :: 0 <= j < |tasks| && j != task ==> tasks[j] == old(tasks)[j]
      ensures tasks[task].phase
           == if succeeds then Writing(Changed(Outcome(start, tasks), tasks[task].mutation)) else Settled(false)
    {
      ApplyKeeps(start, Contents(), GetDone(task, succeeds));
      if !succeeds {
        tasks := tasks[task := tasks[task].(phase := Settled(false))];
        return;
      }
      var mutation := tasks[task].mutation;
      var id := if mutation.Save? then mutation.upload.id else mutation.id;
      var rest := Filter(stored, id);
      var next := if mutation.Save? then [mutation.upload] + rest else rest;
      tasks := tasks[task := tasks[task].(phase := Writing(next))];
    }

    method Filter(uploads: seq<Resumable>, id: UploadId) returns (rest: seq<Resumable>)
      ensures rest == Without(uploads, id)
    {
      rest := [];
      for i := 0 to |uploads|
        invariant rest + Without(uploads[i..], id) == Without(uploads, id)
      {
        assert uploads[i..][1..] == uploads[i + 1..];
        if uploads[i].id != id {
          rest := rest + [uploads[i]];
        }
      }
    }

    /** The write replaces the whole list with one that misses no earlier success, or changes nothing. */
    method FinishWrite(task: nat, succeeds: bool)
      requires Valid() && Enabled(Contents(), PutDone(task, succeeds))
      modifies this
      ensures Valid() && Contents() == Apply(old(Contents()), PutDone(task, succeeds))
      ensures stored == if succeeds then Changed(old(stored), tasks[task].mutation) else old(stored)
      ensures tasks == old(tasks)[task := Task(old(tasks)[task].mutation, Settled(succeeds))]
      ensures DistinctIds(start) ==> DistinctIds(stored)
    {
      ApplyKeeps(start, Contents(), PutDone(task, succeeds));
      if succeeds {
        stored := tasks[task].phase.next;
      }
      tasks := tasks[task := tasks[task].(phase := Settled(succeeds))];
      if DistinctIds(start) {
        OutcomeKeepsDistinct(start, tasks);
      }
    }
  }
}
