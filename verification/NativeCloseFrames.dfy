/**
 Close frames cut where the native code releases the lock on the session bindings: between looking up the
 upload, changing its status and removing the binding, other calls may come.
 */
module NativeCloseFrames {
  import opened UploadRecords
  import Q = NativeUploadQueue

  /** A frame past its lookup; `removing` once only the binding is left to remove. */
  datatype Frame = Frame(session: Q.SessionId, upload: UploadId, reason: Q.CloseReason, removing: bool)

  datatype State = State(queue: Q.State, frames: map<nat, Frame>)

  datatype Event =
    | Other(event: Q.Event)
    | LookUp(id: nat, session: Q.SessionId, reason: Q.CloseReason)
    | SetStatus(id: nat, steps: nat)
    | Unbind(id: nat)

  predicate Enabled(s: State, event: Event) {
    match event
    case Other(e) => !e.CloseFrame? && Q.Enabled(s.queue, e)
    case LookUp(id, _, _) => !(id in s.frames)
    case SetStatus(id, _) => id in s.frames && !s.frames[id].removing
    case Unbind(id) => id in s.frames && s.frames[id].removing
  }

  function StatusOf(frame: Frame): Q.Mutation {
    var status := Q.CloseStatus(frame.reason);
    Q.SetStatus(frame.upload, if status.Some? then status.value else Q.Status.Cancelled)
  }

  function Step(s: State, event: Event): State
    requires Enabled(s, event)
  {
    match event
    case Other(e) => State(Q.Step(s.queue, e), if e.Restart? || e.Crash? then map[] else s.frames)
    case LookUp(id, session, reason) =>
      if session in s.queue.bindings then
        s.(frames := s.frames[id := Frame(session, s.queue.bindings[session], reason, reason.TransferFinished?)])
      else s
    case SetStatus(id, steps) =>
      var (queue, error) := Q.MutateState(s.queue, StatusOf(s.frames[id]), steps);
      State(queue, if error.Some? then s.frames - {id} else s.frames[id := s.frames[id].(removing := true)])
    case Unbind(id) =>
      State(s.queue.(bindings := s.queue.bindings - {s.frames[id].session}), s.frames - {id})
  }

  ghost predicate Legal(s: State, events: seq<Event>)
    decreases |events|
  {
    events == [] || (Enabled(s, events[0]) && Legal(Step(s, events[0]), events[1..]))
  }

  ghost function After(s: State, events: seq<Event>): State
    requires Legal(s, events)
    decreases |events|
  {
    if events == [] then s else After(Step(s, events[0]), events[1..])
  }

  // The queue sees nothing but mutations

  /** What the steps of frames are to the queue: a status change is a mutation, the rest only moves bindings. */
  ghost function SeenByQueue(s: State, events: seq<Event>): seq<Q.Event>
    requires Legal(s, events)
    decreases |events|
  {
    if events == [] then []
    else
      (match events[0]
       case Other(e) => [e]
       case SetStatus(id, steps) => [Q.Mutate(StatusOf(s.frames[id]), steps)]
       case _ => [])
      + SeenByQueue(Step(s, events[0]), events[1..])
  }

  ghost predicate SameQueue(a: Q.State, b: Q.State) {
    a.memory == b.memory && a.files == b.files
  }

  lemma SameQueueSteps(a: Q.State, b: Q.State, event: Q.Event)
    requires SameQueue(a, b) && Q.Enabled(a, event) && !event.CloseFrame?
    ensures Q.Enabled(b, event) && SameQueue(Q.Step(a, event), Q.Step(b, event))
  {
    hide Q.Persisted, Q.Mutated;
  }

  lemma StatusIsMutation(s: State, id: nat, steps: nat)
    requires Enabled(s, SetStatus(id, steps))
    ensures Step(s, SetStatus(id, steps)).queue == Q.Step(s.queue, Q.Mutate(StatusOf(s.frames[id]), steps))
  {
    hide Q.Persisted, Q.Mutated;
  }

  /**
   However frames interleave with other calls, failures, restarts and power losses, the queue and its
   document run through the steps of the queue's own machine, so all that its runs keep is kept.
   */
  lemma {:induction false} InterleavingsAreQueueRuns(s: State, q: Q.State, events: seq<Event>)
    requires Legal(s, events) && SameQueue(s.queue, q)
    ensures Q.Legal(q, SeenByQueue(s, events))
    ensures SameQueue(After(s, events).queue, Q.After(q, SeenByQueue(s, events)))
    decreases |events|
  {
    hide Q.Enabled, Q.Step, Q.MutateState, StatusOf, SameQueue;
    if events != [] {
      var next, rest := Step(s, events[0]), SeenByQueue(Step(s, events[0]), events[1..]);
      match events[0] {
        case Other(e) =>
          SameQueueSteps(s.queue, q, e);
          InterleavingsAreQueueRuns(next, Q.Step(q, e), events[1..]);
          assert ([e] + rest)[1..] == rest;
        case SetStatus(id, steps) =>
          var e := Q.Mutate(StatusOf(s.frames[id]), steps);
          StatusIsMutation(s, id, steps);
          MutationsAreEnabled(s.queue, e);
          SameQueueSteps(s.queue, q, e);
          InterleavingsAreQueueRuns(next, Q.Step(q, e), events[1..]);
          assert ([e] + rest)[1..] == rest;
        case LookUp(_, _, _) =>
          InterleavingsAreQueueRuns(next, q, events[1..]);
          assert [] + rest == rest;
        case Unbind(id) =>
          BindingsAreNoQueue(s.queue, q, s.queue.bindings - {s.frames[id].session});
          InterleavingsAreQueueRuns(next, q, events[1..]);
          assert [] + rest == rest;
      }
    }
  }

  lemma MutationsAreEnabled(s: Q.State, event: Q.Event)
    requires event.Mutate?
    ensures Q.Enabled(s, event)
  {
  }

  lemma BindingsAreNoQueue(a: Q.State, b: Q.State, bindings: map<Q.SessionId, UploadId>)
    requires SameQueue(a, b)
    ensures SameQueue(a.(bindings := bindings), b)
  {
  }

  /** Over every interleaving from the first start, an entry secured against power losses is kept for good. */
  lemma InterleavingsKeepFinalStates(events: seq<Event>, later: seq<Event>, id: UploadId)
    requires Legal(State(Q.FIRST_START, map[]), events)
    requires Legal(After(State(Q.FIRST_START, map[]), events), later)
    requires (var q := After(State(Q.FIRST_START, map[]), events).queue;
              id in q.memory && Q.Secured(q.memory[id], id, q))
    ensures (var s := After(State(Q.FIRST_START, map[]), events);
             Q.QueueInv(s.queue) && Q.KeptIn(s.queue.memory[id], id, After(s, later).queue.memory))
  {
    hide Q.Enabled, Q.Step, Q.QueueInv, Q.Secured, Q.KeptIn, Step, Enabled;
    var start := State(Q.FIRST_START, map[]);
    var s := After(start, events);
    InterleavingsAreQueueRuns(start, Q.FIRST_START, events);
    Q.FirstStartIsOk();
    Q.RunKeepsQueue(Q.FIRST_START, SeenByQueue(start, events));
    InvIgnoresBindings(Q.After(Q.FIRST_START, SeenByQueue(start, events)), s.queue);
    InterleavingsAreQueueRuns(s, s.queue, later);
    Q.SecuredStays(s.queue.memory[id], id, s.queue, SeenByQueue(s, later));
  }

  lemma InvIgnoresBindings(a: Q.State, b: Q.State)
    requires SameQueue(a, b) && Q.QueueInv(a)
    ensures Q.QueueInv(b)
  {
  }

  // Without interruption

  /** A frame that nothing interrupts is the one step of the queue's machine. */
  lemma UninterruptedFrameIsAtomic(s: State, id: nat, session: Q.SessionId, reason: Q.CloseReason, steps: nat)
    requires !(id in s.frames) && session in s.queue.bindings
    ensures (var first := Step(s, LookUp(id, session, reason));
             var (queue, error) := Q.CloseState(s.queue, session, reason, steps);
             if reason.TransferFinished? then
               Enabled(first, Unbind(id)) && Step(first, Unbind(id)) == State(queue, s.frames)
             else
               && Enabled(first, SetStatus(id, steps))
               && (var second := Step(first, SetStatus(id, steps));
                   if error.Some? then second == State(queue, s.frames)
                   else Enabled(second, Unbind(id)) && Step(second, Unbind(id)) == State(queue, s.frames)))
  {
    hide Q.MutateState;
    var frame := Frame(session, s.queue.bindings[session], reason, reason.TransferFinished?);
    var removing := frame.(removing := true);
    assert s.frames[id := frame] - {id} == s.frames;
    assert s.frames[id := frame][id := removing] - {id} == s.frames;
  }

  // Whose binding a frame removes

  /** Every frame would remove its own upload's binding, or none. */
  ghost predicate Matched(s: State) {
    forall id :: id in s.frames && s.frames[id].session in s.queue.bindings ==>
      s.queue.bindings[s.frames[id].session] == s.frames[id].upload
  }

  /** A session is bound to another upload while one of its frames is still on its way. */
  ghost predicate Rebinds(s: State, event: Event) {
    && event.Other? && event.event.Bind? && !(event.event.session in s.queue.bindings)
    && exists id :: id in s.frames && s.frames[id].session == event.event.session
                    && s.frames[id].upload != event.event.upload
  }

  ghost predicate MatchedThroughout(s: State, events: seq<Event>)
    requires Legal(s, events)
    decreases |events|
  {
    Matched(s) && (events == [] || MatchedThroughout(Step(s, events[0]), events[1..]))
  }

  ghost predicate NeverRebinds(s: State, events: seq<Event>)
    requires Legal(s, events)
    decreases |events|
  {
    events == [] || (!Rebinds(s, events[0]) && NeverRebinds(Step(s, events[0]), events[1..]))
  }

  lemma StepMatchesIff(s: State, event: Event)
    requires Matched(s) && Enabled(s, event)
    ensures Matched(Step(s, event)) <==> !Rebinds(s, event)
  {
    hide Q.Persisted, Q.Mutated;
    var next := Step(s, event);
    if Rebinds(s, event) {
      var id :| id in s.frames && s.frames[id].session == event.event.session
                && s.frames[id].upload != event.event.upload;
      assert id in next.frames && next.frames[id] == s.frames[id];
    } else {
      forall id | id in next.frames && next.frames[id].session in next.queue.bindings
        ensures next.queue.bindings[next.frames[id].session] == next.frames[id].upload
      {
        if id in s.frames {
          assert next.frames[id].session == s.frames[id].session && next.frames[id].upload == s.frames[id].upload;
        }
      }
    }
  }

  lemma {:induction false} MatchedRunIff(s: State, events: seq<Event>)
    requires Legal(s, events) && Matched(s)
    ensures MatchedThroughout(s, events) <==> NeverRebinds(s, events)
    decreases |events|
  {
    hide Matched, Rebinds, Step, Enabled;
    if events != [] {
      StepMatchesIff(s, events[0]);
      if !Rebinds(s, events[0]) {
        MatchedRunIff(Step(s, events[0]), events[1..]);
      } else {
        UnmatchedIsNotThroughout(Step(s, events[0]), events[1..]);
      }
    }
  }

  lemma UnmatchedIsNotThroughout(s: State, events: seq<Event>)
    requires Legal(s, events) && !Matched(s)
    ensures !MatchedThroughout(s, events)
  {
  }

  /**
   Over every interleaving from the first start: no frame is ever about to remove the binding of an upload
   it did not look up, if and only if no session is bound to another upload while its frame is on its way.
   */
  lemma FramesRemoveTheirOwnIff(events: seq<Event>)
    requires Legal(State(Q.FIRST_START, map[]), events)
    ensures MatchedThroughout(State(Q.FIRST_START, map[]), events) <==>
            NeverRebinds(State(Q.FIRST_START, map[]), events)
  {
    MatchedRunIff(State(Q.FIRST_START, map[]), events);
  }

  /**
   And it does happen: two frames of one session overlap, the session is bound anew between their removals,
   and the second frame removes the new binding.
   */
  lemma OverlappingFramesUnbindAnother(s: State, session: Q.SessionId, other: UploadId)
    requires s.frames == map[] && session in s.queue.bindings && s.queue.bindings[session] != other
    ensures (var frame, last := Q.TransferFinished, Unbind(1);
             var events := [LookUp(0, session, frame), LookUp(1, session, frame), Unbind(0),
                            Other(Q.Bind(session, other))];
             && Legal(s, events)
             && (var bound := After(s, events);
                 && session in bound.queue.bindings && bound.queue.bindings[session] == other
                 && Enabled(bound, last) && !(session in Step(bound, last).queue.bindings)))
  {
    var frame := Q.TransferFinished;
    var a, b, c, d := LookUp(0, session, frame), LookUp(1, session, frame), Unbind(0), Other(Q.Bind(session, other));
    var s1 := Step(s, a);
    var s2 := Step(s1, b);
    var s3 := Step(s2, c);
    assert [a, b, c, d][1..] == [b, c, d] && [b, c, d][1..] == [c, d] && [c, d][1..] == [d] && [d][1..] == [];
    assert Legal(Step(s3, d), []) && After(Step(s3, d), []) == Step(s3, d);
    assert Legal(s3, [d]) && After(s3, [d]) == Step(s3, d);
    assert Legal(s2, [c, d]) && After(s2, [c, d]) == Step(s3, d);
    assert Legal(s1, [b, c, d]) && After(s1, [b, c, d]) == Step(s3, d);
  }
}
