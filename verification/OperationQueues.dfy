/**
 The promise chains that serialize library operations. Each `run` call becomes a ticket that waits for
 the tail it found; which callback runs next is up to the event loop.
 */
module OperationQueues {
  import opened UploadRecords

  datatype Phase = Waiting | Active | Settled(succeeded: bool)

  /** `tailSettled` and `cleaned` say whether the two callbacks on the ticket's result have run. */
  datatype Ticket = Ticket(key: UploadId, previous: Option<nat>, phase: Phase, tailSettled: bool, cleaned: bool)

  datatype Queue = Queue(tickets: seq<Ticket>, tails: map<UploadId, nat>)

  datatype Event =
    | Run(key: UploadId)
    | Start(ticket: nat)
    | Settle(ticket: nat, succeeded: bool)
    | SettleTail(ticket: nat)
    | Finally(ticket: nat)

  const EMPTY_QUEUE := Queue([], map[])

  predicate Enabled(queue: Queue, event: Event) {
    match event
    case Run(_) => true
    case Start(k) =>
      && k < |queue.tickets| && queue.tickets[k].phase == Waiting
      && (match queue.tickets[k].previous
          case None => true
          case Some(p) => p < |queue.tickets| && queue.tickets[p].tailSettled)
    case Settle(k, _) => k < |queue.tickets| && queue.tickets[k].phase == Active
    case SettleTail(k) => k < |queue.tickets| && queue.tickets[k].phase.Settled? && !queue.tickets[k].tailSettled
    case Finally(k) => k < |queue.tickets| && queue.tickets[k].phase.Settled? && !queue.tickets[k].cleaned
  }

  function Apply(queue: Queue, event: Event): Queue
    requires Enabled(queue, event)
  {
    var tickets := queue.tickets;
    match event
    case Run(key) =>
      var previous := if key in queue.tails then Some(queue.tails[key]) else None;
      Queue(tickets + [Ticket(key, previous, Waiting, false, false)], queue.tails[key := |tickets|])
    case Start(k) => queue.(tickets := tickets[k := tickets[k].(phase := Active)])
    case Settle(k, succeeded) => queue.(tickets := tickets[k := tickets[k].(phase := Settled(succeeded))])
    case SettleTail(k) => queue.(tickets := tickets[k := tickets[k].(tailSettled := true)])
    case Finally(k) =>
      var key := tickets[k].key;
      Queue(tickets[k := tickets[k].(cleaned := true)],
            if key in queue.tails && queue.tails[key] == k then queue.tails - {key} else queue.tails)
  }

  ghost predicate Legal(queue: Queue, events: seq<Event>)
    decreases |events|
  {
    events == [] || (Enabled(queue, events[0]) && Legal(Apply(queue, events[0]), events[1..]))
  }

  ghost function After(queue: Queue, events: seq<Event>): Queue
    requires Legal(queue, events)
    decreases |events|
  {
    if events == [] then queue else After(Apply(queue, events[0]), events[1..])
  }

  // The invariant

  /** The ticket of the same key just before `k`, or everything earlier is over. */
  ghost predicate ChainOk(tickets: seq<Ticket>, k: nat)
    requires k < |tickets|
  {
    match tickets[k].previous
    case Some(p) =>
      && p < k && tickets[p].key == tickets[k].key
      && forall i :: p < i < k ==> tickets[i].key != tickets[k].key
    case None => forall i :: 0 <= i < k && tickets[i].key == tickets[k].key ==> tickets[i].phase.Settled?
  }

  /** Operations of one key: nothing of `k` has begun before everything earlier has settled. */
  ghost predicate InTurn(tickets: seq<Ticket>, k: nat)
    requires k < |tickets|
  {
    tickets[k].phase != Waiting ==>
      forall i :: 0 <= i < k && tickets[i].key == tickets[k].key ==> tickets[i].phase.Settled?
  }

  ghost predicate TailOk(queue: Queue, key: UploadId)
    requires key in queue.tails
  {
    var tail := queue.tails[key];
    && tail < |queue.tickets| && queue.tickets[tail].key == key && !queue.tickets[tail].cleaned
    && forall i :: tail < i < |queue.tickets| ==> queue.tickets[i].key != key
  }

  ghost predicate QueueInv(queue: Queue) {
    && (forall k :: 0 <= k < |queue.tickets| ==> ChainOk(queue.tickets, k) && InTurn(queue.tickets, k))
    && (forall k :: 0 <= k < |queue.tickets| && (queue.tickets[k].tailSettled || queue.tickets[k].cleaned) ==>
          queue.tickets[k].phase.Settled?)
    && (forall key :: key in queue.tails ==> TailOk(queue, key))
    && (forall k :: 0 <= k < |queue.tickets| && queue.tickets[k].key !in queue.tails ==>
          queue.tickets[k].phase.Settled?)
  }

  /** Progress of one ticket, seen by the others: phases only move forward. */
  lemma AdvanceTicket(queue: Queue, k: nat, next: Ticket)
    requires QueueInv(queue) && k < |queue.tickets|
    requires next.key == queue.tickets[k].key && next.previous == queue.tickets[k].previous
    requires queue.tickets[k].phase.Settled? ==> next.phase.Settled?
    requires next.tailSettled || next.cleaned ==> next.phase.Settled?
    requires queue.tickets[k].phase == Waiting && next.phase != Waiting ==>
               forall i :: 0 <= i < k && queue.tickets[i].key == next.key ==> queue.tickets[i].phase.Settled?
    ensures (var tickets := queue.tickets[k := next];
             forall j :: 0 <= j < |tickets| ==> ChainOk(tickets, j) && InTurn(tickets, j))
  {
    var tickets := queue.tickets[k := next];
    forall j | 0 <= j < |tickets| ensures ChainOk(tickets, j) && InTurn(tickets, j) {
      assert ChainOk(queue.tickets, j) && InTurn(queue.tickets, j);
    }
  }

  lemma {:induction false} StartedInTurn(queue: Queue, k: nat)
    requires QueueInv(queue) && Enabled(queue, Start(k))
    ensures forall i :: 0 <= i < k && queue.tickets[i].key == queue.tickets[k].key ==> queue.tickets[i].phase.Settled?
  {
    var tickets := queue.tickets;
    assert ChainOk(tickets, k);
    if tickets[k].previous.Some? {
      var p := tickets[k].previous.value;
      assert tickets[p].phase.Settled? && InTurn(tickets, p);
    }
  }

  lemma RunKeeps(queue: Queue, key: UploadId)
    requires QueueInv(queue)
    ensures QueueInv(Apply(queue, Run(key)))
  {
    var next := Apply(queue, Run(key));
    forall k | 0 <= k < |next.tickets| ensures ChainOk(next.tickets, k) && InTurn(next.tickets, k) {
      if k < |queue.tickets| {
        assert ChainOk(queue.tickets, k) && InTurn(queue.tickets, k);
      } else if key in queue.tails {
        assert TailOk(queue, key);
      }
    }
    forall other | other in next.tails ensures TailOk(next, other) {
      if other != key {
        assert TailOk(queue, other);
      }
    }
  }

  lemma TailsStay(queue: Queue, k: nat, next: Ticket)
    requires QueueInv(queue) && k < |queue.tickets|
    requires next.key == queue.tickets[k].key && next.cleaned == queue.tickets[k].cleaned
    ensures forall key :: key in queue.tails ==> TailOk(queue.(tickets := queue.tickets[k := next]), key)
  {
    forall key | key in queue.tails ensures TailOk(queue.(tickets := queue.tickets[k := next]), key) {
      assert TailOk(queue, key);
    }
  }

  lemma FinallyKeeps(queue: Queue, k: nat)
    requires QueueInv(queue) && Enabled(queue, Finally(k))
    ensures QueueInv(Apply(queue, Finally(k)))
  {
    var next := Apply(queue, Finally(k));
    AdvanceTicket(queue, k, next.tickets[k]);
    forall key | key in next.tails ensures TailOk(next, key) {
      assert TailOk(queue, key);
    }
    forall j | 0 <= j < |next.tickets| && next.tickets[j].key !in next.tails ensures next.tickets[j].phase.Settled? {
      if queue.tickets[j].key in queue.tails {
        assert TailOk(queue, queue.tickets[j].key);
        assert InTurn(queue.tickets, k);
      }
    }
  }

  lemma ApplyKeeps(queue: Queue, event: Event)
    requires QueueInv(queue) && Enabled(queue, event)
    ensures QueueInv(Apply(queue, event))
  {
    hide ChainOk, InTurn, TailOk;
    match event {
      case Run(key) => RunKeeps(queue, key);
      case Start(k) =>
        StartedInTurn(queue, k);
        AdvanceTicket(queue, k, queue.tickets[k].(phase := Active));
        TailsStay(queue, k, queue.tickets[k].(phase := Active));
      case Settle(k, succeeded) =>
        AdvanceTicket(queue, k, queue.tickets[k].(phase := Settled(succeeded)));
        TailsStay(queue, k, queue.tickets[k].(phase := Settled(succeeded)));
      case SettleTail(k) =>
        AdvanceTicket(queue, k, queue.tickets[k].(tailSettled := true));
        TailsStay(queue, k, queue.tickets[k].(tailSettled := true));
      case Finally(k) => FinallyKeeps(queue, k);
    }
  }

  lemma {:induction false} RunsKeepQueue(queue: Queue, events: seq<Event>)
    requires QueueInv(queue) && Legal(queue, events)
    ensures QueueInv(After(queue, events))
    decreases |events|
  {
    hide QueueInv, Apply, Enabled;
    if events != [] {
      ApplyKeeps(queue, events[0]);
      RunsKeepQueue(Apply(queue, events[0]), events[1..]);
    }
  }

  // What callers rely on

  /** In every interleaving, at most one operation of a key is active, and they begin in call order. */
  lemma OneAtATimeInOrder(events: seq<Event>, i: nat, j: nat)
    requires Legal(EMPTY_QUEUE, events)
    requires i < j < |After(EMPTY_QUEUE, events).tickets|
    requires After(EMPTY_QUEUE, events).tickets[i].key == After(EMPTY_QUEUE, events).tickets[j].key
    ensures (var tickets := After(EMPTY_QUEUE, events).tickets;
             && !(tickets[i].phase == Active && tickets[j].phase == Active)
             && (tickets[j].phase != Waiting ==> tickets[i].phase.Settled?))
  {
    RunsKeepQueue(EMPTY_QUEUE, events);
    assert InTurn(After(EMPTY_QUEUE, events).tickets, j);
  }

  /**
   Nothing blocks: while a key has an unfinished operation, one of its own callbacks or operations can
   move, however earlier ones ended.
   */
  lemma {:induction false} FailureNeverBlocks(events: seq<Event>, k: nat)
    requires Legal(EMPTY_QUEUE, events)
    requires k < |After(EMPTY_QUEUE, events).tickets| && After(EMPTY_QUEUE, events).tickets[k].phase == Waiting
    ensures (var queue := After(EMPTY_QUEUE, events);
             exists i :: 0 <= i <= k && queue.tickets[i].key == queue.tickets[k].key
                         && (Enabled(queue, Start(i)) || queue.tickets[i].phase == Active || Enabled(queue, SettleTail(i))))
  {
    var queue := After(EMPTY_QUEUE, events);
    RunsKeepQueue(EMPTY_QUEUE, events);
    FirstToMove(queue, k);
  }

  lemma {:induction false} FirstToMove(queue: Queue, k: nat)
    requires QueueInv(queue) && k < |queue.tickets| && !queue.tickets[k].tailSettled
    ensures exists i :: 0 <= i <= k && queue.tickets[i].key == queue.tickets[k].key
                        && (Enabled(queue, Start(i)) || queue.tickets[i].phase == Active || Enabled(queue, SettleTail(i)))
  {
    assert ChainOk(queue.tickets, k);
    if queue.tickets[k].phase == Active || Enabled(queue, SettleTail(k)) || Enabled(queue, Start(k)) {
      assert 0 <= k <= k;
    } else {
      FirstToMove(queue, queue.tickets[k].previous.value);
    }
  }

  /** An entry leaves the map only when nothing of its key is queued behind, so a later call never overlaps. */
  lemma DeletionIsSafe(events: seq<Event>, k: nat)
    requires Legal(EMPTY_QUEUE, events) && Enabled(After(EMPTY_QUEUE, events), Finally(k))
    ensures (var queue := After(EMPTY_QUEUE, events);
             var key := queue.tickets[k].key;
             key in queue.tails && key !in Apply(queue, Finally(k)).tails ==>
               forall i :: 0 <= i < |queue.tickets| && queue.tickets[i].key == key ==>
                             i <= k && queue.tickets[i].phase.Settled?)
  {
    RunsKeepQueue(EMPTY_QUEUE, events);
    var queue := After(EMPTY_QUEUE, events);
    var key := queue.tickets[k].key;
    if key in queue.tails && key !in Apply(queue, Finally(k)).tails {
      assert TailOk(queue, key) && InTurn(queue.tickets, k);
    }
  }

  lemma TailIsUncleaned(queue: Queue, key: UploadId)
    requires QueueInv(queue) && key in queue.tails
    ensures exists k :: 0 <= k < |queue.tickets| && !queue.tickets[k].cleaned
  {
    assert TailOk(queue, key);
  }

  /** Once every callback has run, the map holds nothing: keys do not accumulate. */
  lemma IdleQueueIsEmpty(events: seq<Event>)
    requires Legal(EMPTY_QUEUE, events)
    requires forall k :: 0 <= k < |After(EMPTY_QUEUE, events).tickets| ==> After(EMPTY_QUEUE, events).tickets[k].cleaned
    ensures After(EMPTY_QUEUE, events).tails == map[]
  {
    RunsKeepQueue(EMPTY_QUEUE, events);
    hide QueueInv;
    var queue := After(EMPTY_QUEUE, events);
    if key :| key in queue.tails {
      TailIsUncleaned(queue, key);
    }
  }

  // The class the library holds

  class UploadOperationQueue {
    var tickets: seq<Ticket>
    var tails: map<UploadId, nat>

    constructor ()
      ensures Valid() && State() == EMPTY_QUEUE
    {
      tickets, tails := [], map[];
    }

    ghost function State(): Queue
      reads this
    {
      Queue(tickets, tails)
    }

    ghost predicate Valid()
      reads this
    {
      QueueInv(State())
    }

    /** Everything earlier of the ticket's key is over, and nothing later has begun. */
    ghost predicate Alone(ticket: nat)
      requires ticket < |tickets|
      reads this
    {
      forall i :: 0 <= i < |tickets| && i != ticket && tickets[i].key == tickets[ticket].key ==>
        if i < ticket then tickets[i].phase.Settled? else tickets[i].phase == Waiting
    }

    /**
     The synchronous part of `run`: the operation is chained behind the tail found in the map. If it may
     start at once, everything earlier of its key is over.
     */
    method RunOperation(key: UploadId) returns (ticket: nat)
      requires Valid()
      modifies this
      ensures Valid() && ticket == |old(tickets)| && State() == Apply(old(State()), Run(key))
      ensures |tickets| == ticket + 1 && tickets[..ticket] == old(tickets)
      ensures tickets[ticket].key == key && tickets[ticket].phase == Waiting && tails == old(tails)[key := ticket]
      ensures tickets[ticket].previous == if key in old(tails) then Some(old(tails)[key]) else None
      ensures Enabled(State(), Start(ticket)) ==> Alone(ticket)
    {
      ApplyKeeps(State(), Run(key));
      ticket := |tickets|;
      var previous := None;
      if key in tails {
        previous := Some(tails[key]);
      }
      tickets := tickets + [Ticket(key, previous, Waiting, false, false)];
      tails := tails[key := ticket];
      if Enabled(State(), Start(ticket)) {
        StartsAlone(State(), ticket);
      }
    }

    /** The callback that starts the operation once the previous tail has settled, either way. */
    method StartOperation(ticket: nat)
      requires Valid() && Enabled(State(), Start(ticket))
      modifies this`tickets
      ensures Valid() && State() == Apply(old(State()), Start(ticket))
      ensures tickets[ticket].phase == Active && Alone(ticket)
    {
      ApplyKeeps(State(), Start(ticket));
      tickets := tickets[ticket := tickets[ticket].(phase := Active)];
      ActiveIsAlone(State(), ticket);
    }

    /** The operation's result settles: from here to the next start, nothing of its key is at work. */
    method ResultSettled(ticket: nat, succeeded: bool)
      requires Valid() && Enabled(State(), Settle(ticket, succeeded))
      modifies this`tickets
      ensures Valid() && State() == Apply(old(State()), Settle(ticket, succeeded))
      ensures tickets[ticket].phase == Settled(succeeded) && Alone(ticket)
    {
      ApplyKeeps(State(), Settle(ticket, succeeded));
      ActiveIsAlone(State(), ticket);
      tickets := tickets[ticket := tickets[ticket].(phase := Settled(succeeded))];
    }

    /** The tail settles: whoever was chained behind this ticket could not start before, and can now. */
    method TailCallback(ticket: nat)
      requires Valid() && Enabled(State(), SettleTail(ticket))
      modifies this`tickets
      ensures Valid() && State() == Apply(old(State()), SettleTail(ticket))
      ensures forall k :: 0 <= k < |tickets| && tickets[k].previous == Some(ticket) && tickets[k].phase == Waiting ==>
                !Enabled(old(State()), Start(k)) && Enabled(State(), Start(k))
    {
      ApplyKeeps(State(), SettleTail(ticket));
      tickets := tickets[ticket := tickets[ticket].(tailSettled := true)];
    }

    /** The map entry goes only if this ticket is the tail, and then everything of its key is over. */
    method FinallyCallback(ticket: nat)
      requires Valid() && Enabled(State(), Finally(ticket))
      modifies this
      ensures Valid() && State() == Apply(old(State()), Finally(ticket))
      ensures (var key := tickets[ticket].key;
               tails == if key in old(tails) && old(tails)[key] == ticket then old(tails) - {key} else old(tails))
      ensures (var key := tickets[ticket].key;
               key !in tails ==> forall i :: 0 <= i < |tickets| && tickets[i].key == key ==> tickets[i].phase.Settled?)
    {
      ApplyKeeps(State(), Finally(ticket));
      var key := tickets[ticket].key;
      tickets := tickets[ticket := tickets[ticket].(cleaned := true)];
      if key in tails && tails[key] == ticket {
        tails := tails - {key};
      }
    }
  }

  lemma StartsAlone(queue: Queue, k: nat)
    requires QueueInv(queue) && Enabled(queue, Start(k))
    ensures forall i :: 0 <= i < k && queue.tickets[i].key == queue.tickets[k].key ==> queue.tickets[i].phase.Settled?
  {
    assert ChainOk(queue.tickets, k);
    if queue.tickets[k].previous.Some? {
      assert InTurn(queue.tickets, queue.tickets[k].previous.value);
    }
  }

  lemma ActiveIsAlone(queue: Queue, k: nat)
    requires QueueInv(queue) && k < |queue.tickets| && queue.tickets[k].phase == Active
    ensures forall i :: 0 <= i < |queue.tickets| && i != k && queue.tickets[i].key == queue.tickets[k].key ==>
              if i < k then queue.tickets[i].phase.Settled? else queue.tickets[i].phase == Waiting
  {
    assert InTurn(queue.tickets, k);
    forall i | k < i < |queue.tickets| && queue.tickets[i].key == queue.tickets[k].key
      ensures queue.tickets[i].phase == Waiting
    {
      assert InTurn(queue.tickets, i);
    }
  }

  const CREATION: UploadId := "creation"

  /** The queue all creations share: one chain, whose tail is a field and never deleted. */
  class CreationOperationQueue {
    var tickets: seq<Ticket>
    var tail: Option<nat>

    constructor ()
      ensures Valid() && State() == EMPTY_QUEUE
    {
      tickets, tail := [], None;
    }

    ghost function State(): Queue
      reads this
    {
      Queue(tickets, if tail.Some? then map[CREATION := tail.value] else map[])
    }

    ghost predicate Valid()
      reads this
    {
      QueueInv(State())
    }

    method RunOperation() returns (ticket: nat)
      requires Valid()
      modifies this
      ensures Valid() && ticket == |old(tickets)| && State() == Apply(old(State()), Run(CREATION))
      ensures tickets == old(tickets) + [Ticket(CREATION, old(tail), Waiting, false, false)] && tail == Some(ticket)
      ensures Enabled(State(), Start(ticket)) ==>
                forall i :: 0 <= i < ticket && tickets[i].key == CREATION ==> tickets[i].phase.Settled?
    {
      ApplyKeeps(State(), Run(CREATION));
      ghost var after := Apply(State(), Run(CREATION));
      ticket := |tickets|;
      tickets := tickets + [Ticket(CREATION, tail, Waiting, false, false)];
      tail := Some(ticket);
      assert State() == after;
      if Enabled(State(), Start(ticket)) {
        StartsAlone(State(), ticket);
      }
    }
  }

  /** Creations therefore run one at a time and in call order, admission check and row insert together. */
  lemma OneCreationAtATime(events: seq<Event>, i: nat, j: nat)
    requires Legal(EMPTY_QUEUE, events)
    requires forall e :: e in events && e.Run? ==> e.key == CREATION
    requires i < j < |After(EMPTY_QUEUE, events).tickets|
    ensures (var tickets := After(EMPTY_QUEUE, events).tickets;
             && !(tickets[i].phase == Active && tickets[j].phase == Active)
             && (tickets[j].phase != Waiting ==> tickets[i].phase.Settled?))
  {
    OnlyCreations(EMPTY_QUEUE, events, i);
    OnlyCreations(EMPTY_QUEUE, events, j);
    OneAtATimeInOrder(events, i, j);
  }

  lemma {:induction false} OnlyCreations(queue: Queue, events: seq<Event>, k: nat)
    requires Legal(queue, events) && forall e :: e in events && e.Run? ==> e.key == CREATION
    requires forall i :: 0 <= i < |queue.tickets| ==> queue.tickets[i].key == CREATION
    requires k < |After(queue, events).tickets|
    ensures After(queue, events).tickets[k].key == CREATION
    decreases |events|
  {
    if events != [] {
      assert events[0] in events;
      OnlyCreations(Apply(queue, events[0]), events[1..], k);
    }
  }
}
