/** The phone's mailbox for control messages: stored messages, at most one waiter, one final error. */
module TransferControlInbox {
  import opened UploadRecords

  datatype Message = Message(upload: UploadId, kind: string, body: string)

  datatype InboxError = MessageInvalid | TimedOut | Other(reason: string)

  /** A stored message with its arrival number. */
  datatype Received = Received(number: nat, message: Message)

  datatype WaitResult = Open | Delivered(number: nat) | Refused(error: InboxError)

  datatype Wait = Wait(upload: UploadId, accepts: Message -> bool, result: WaitResult)

  /** `timers` are the waits whose timeout has neither fired nor been cleared. */
  datatype State = State(
    arrived: seq<Message>,
    messages: seq<Received>,
    waiter: Option<nat>,
    terminal: Option<InboxError>,
    waits: seq<Wait>,
    timers: set<nat>)

  const EMPTY_INBOX := State([], [], None, None, [], {})

  datatype Event =
    | Receive(parsed: Option<Message>)
    | WaitFor(upload: UploadId, accepts: Message -> bool)
    | Reject(error: InboxError)
    | TimerFired(wait: nat)

  predicate Matches(wait: Wait, message: Message) {
    message.upload == wait.upload && wait.accepts(message)
  }

  /** `findIndex` over the stored messages. */
  function FindFirst(messages: seq<Received>, wait: Wait): (found: Option<nat>)
    ensures found.Some? ==> found.value < |messages| && Matches(wait, messages[found.value].message)
    ensures found.Some? ==> forall i :: 0 <= i < found.value ==> !Matches(wait, messages[i].message)
    ensures found.None? ==> forall i :: 0 <= i < |messages| ==> !Matches(wait, messages[i].message)
  {
    if messages == [] then None
    else if Matches(wait, messages[0].message) then Some(0)
    else
      match FindFirst(messages[1..], wait)
      case None => None
      case Some(i) => Some(i + 1)
  }

  function Settle(s: State, wait: nat, result: WaitResult): State
    requires wait < |s.waits|
  {
    s.(waits := s.waits[wait := s.waits[wait].(result := result)], waiter := None, timers := s.timers - {wait})
  }

  function Fail(s: State, error: InboxError): State {
    if s.terminal.Some? then s
    else
      var ended := s.(terminal := Some(error));
      if s.waiter.Some? && s.waiter.value < |s.waits| then Settle(ended, s.waiter.value, Refused(error)) else ended
  }

  predicate Enabled(s: State, event: Event) {
    event.TimerFired? ==> event.wait in s.timers
  }

  function Apply(s: State, event: Event): State {
    match event
    case Receive(None) => Fail(s, MessageInvalid)
    case Receive(Some(message)) =>
      var number := |s.arrived|;
      var grown := s.(arrived := s.arrived + [message]);
      if s.waiter.Some? && s.waiter.value < |s.waits| && Matches(s.waits[s.waiter.value], message) then
        Settle(grown, s.waiter.value, Delivered(number))
      else
        grown.(messages := s.messages + [Received(number, message)])
    case WaitFor(upload, accepts) =>
      var wait := Wait(upload, accepts, Open);
      if s.terminal.Some? then
        s.(waits := s.waits + [wait.(result := Refused(s.terminal.value))])
      else
        (match FindFirst(s.messages, wait)
         case Some(i) =>
           s.(waits := s.waits + [wait.(result := Delivered(s.messages[i].number))],
              messages := s.messages[..i] + s.messages[i + 1..])
         case None =>
           s.(waits := s.waits + [wait], waiter := Some(|s.waits|), timers := s.timers + {|s.waits|}))
    case Reject(error) => Fail(s, error)
    case TimerFired(wait) => Fail(s.(timers := s.timers - {wait}), TimedOut)
  }

  ghost predicate Legal(s: State, events: seq<Event>)
    decreases |events|
  {
    events == [] || (Enabled(s, events[0]) && Legal(Apply(s, events[0]), events[1..]))
  }

  ghost function After(s: State, events: seq<Event>): State
    decreases |events|
  {
    if events == [] then s else After(Apply(s, events[0]), events[1..])
  }

  // The invariant

  ghost predicate Stored(s: State, number: nat) {
    exists i :: 0 <= i < |s.messages| && s.messages[i].number == number
  }

  ghost predicate StoreOk(s: State) {
    && (forall i :: 0 <= i < |s.messages| ==>
          s.messages[i].number < |s.arrived| && s.messages[i].message == s.arrived[s.messages[i].number])
    && (forall i, j :: 0 <= i < j < |s.messages| ==> s.messages[i].number < s.messages[j].number)
  }

  ghost predicate WaiterOk(s: State) {
    s.waiter.Some? ==>
      && s.waiter.value < |s.waits|
      && s.waits[s.waiter.value].result == Open
      && s.waiter.value in s.timers
      && s.terminal.None?
      && forall i :: 0 <= i < |s.messages| ==> !Matches(s.waits[s.waiter.value], s.messages[i].message)
  }

  /** A delivered message matched, is gone from the store, and no older match was left behind. */
  ghost predicate DeliveryOk(s: State, k: nat)
    requires k < |s.waits|
  {
    s.waits[k].result.Delivered? ==>
      var n := s.waits[k].result.number;
      && n < |s.arrived| && Matches(s.waits[k], s.arrived[n]) && !Stored(s, n)
      && forall i :: 0 <= i < |s.messages| && s.messages[i].number < n ==> !Matches(s.waits[k], s.messages[i].message)
  }

  ghost predicate WaitsOk(s: State) {
    && (forall k :: 0 <= k < |s.waits| ==> DeliveryOk(s, k))
    && (forall j, k :: 0 <= j < k < |s.waits| && s.waits[j].result.Delivered? && s.waits[k].result.Delivered? ==>
          s.waits[j].result.number != s.waits[k].result.number)
    && (forall k :: 0 <= k < |s.waits| && s.waits[k].result.Refused? ==>
          s.terminal == Some(s.waits[k].result.error))
  }

  /** Every message that arrived is stored or was delivered. */
  ghost predicate NothingLost(s: State) {
    forall n :: 0 <= n < |s.arrived| ==>
      Stored(s, n) || exists k :: 0 <= k < |s.waits| && s.waits[k].result == Delivered(n)
  }

  ghost predicate InboxInv(s: State) {
    StoreOk(s) && WaiterOk(s) && WaitsOk(s) && NothingLost(s)
  }

  lemma SettleDelivers(s: State, message: Message)
    requires InboxInv(s) && s.waiter.Some? && Matches(s.waits[s.waiter.value], message)
    ensures InboxInv(Settle(s.(arrived := s.arrived + [message]), s.waiter.value, Delivered(|s.arrived|)))
  {
    var w := s.waiter.value;
    var next := Settle(s.(arrived := s.arrived + [message]), w, Delivered(|s.arrived|));
    assert forall n: nat :: Stored(next, n) <==> Stored(s, n);
    forall k | 0 <= k < |s.waits| && s.waits[k].result.Delivered? ensures s.waits[k].result.number < |s.arrived| {
      assert DeliveryOk(s, k);
    }
    forall k | 0 <= k < |next.waits| ensures DeliveryOk(next, k) {
      assert DeliveryOk(s, k);
    }
    forall n | 0 <= n < |next.arrived|
      ensures Stored(next, n) || exists k :: 0 <= k < |next.waits| && next.waits[k].result == Delivered(n)
    {
      if n == |s.arrived| {
        assert next.waits[w].result == Delivered(n);
      } else if !Stored(s, n) {
        var k :| 0 <= k < |s.waits| && s.waits[k].result == Delivered(n);
        assert next.waits[k].result == Delivered(n);
      }
    }
  }

  lemma StoreKeeps(s: State, message: Message)
    requires InboxInv(s) && (s.waiter.Some? ==> !Matches(s.waits[s.waiter.value], message))
    ensures InboxInv(s.(arrived := s.arrived + [message], messages := s.messages + [Received(|s.arrived|, message)]))
  {
    var next := s.(arrived := s.arrived + [message], messages := s.messages + [Received(|s.arrived|, message)]);
    forall n: nat ensures Stored(next, n) <==> Stored(s, n) || n == |s.arrived| {
      if Stored(s, n) {
        var i :| 0 <= i < |s.messages| && s.messages[i].number == n;
        assert next.messages[i].number == n;
      }
      assert next.messages[|s.messages|].number == |s.arrived|;
    }
    forall k | 0 <= k < |next.waits| ensures DeliveryOk(next, k) {
      assert DeliveryOk(s, k);
    }
  }

  lemma StaysStored(s: State, next: State, i: nat, j: nat)
    requires i < |s.messages| && next.messages == s.messages[..i] + s.messages[i + 1..]
    requires j < |s.messages| && j != i
    ensures Stored(next, s.messages[j].number)
  {
    var at := if j < i then j else j - 1;
    assert next.messages[at] == s.messages[j];
  }

  lemma WasStored(s: State, next: State, i: nat, j: nat)
    requires StoreOk(s) && i < |s.messages| && next.messages == s.messages[..i] + s.messages[i + 1..]
    requires j < |next.messages|
    ensures Stored(s, next.messages[j].number) && next.messages[j].number != s.messages[i].number
  {
    var at := if j < i then j else j + 1;
    assert next.messages[j] == s.messages[at] && at != i;
  }

  lemma StoredWithout(s: State, next: State, i: nat, n: nat)
    requires StoreOk(s) && i < |s.messages| && next.messages == s.messages[..i] + s.messages[i + 1..]
    ensures Stored(next, n) <==> Stored(s, n) && n != s.messages[i].number
  {
    hide StoreOk;
    if Stored(s, n) && n != s.messages[i].number {
      var j :| 0 <= j < |s.messages| && s.messages[j].number == n;
      StaysStored(s, next, i, j);
    }
    if Stored(next, n) {
      var j :| 0 <= j < |next.messages| && next.messages[j].number == n;
      WasStored(s, next, i, j);
    }
  }

  lemma TakeStore(s: State, next: State, i: nat)
    requires StoreOk(s) && i < |s.messages| && next.arrived == s.arrived
    requires next.messages == s.messages[..i] + s.messages[i + 1..]
    ensures StoreOk(next)
    ensures forall j :: 0 <= j < |next.messages| ==> next.messages[j] in s.messages
  {
    forall j | 0 <= j < |next.messages|
      ensures next.messages[j] == s.messages[if j < i then j else j + 1]
    {
    }
  }

  /** Taking a message changes nothing for waits already served. */
  lemma TakeDelivery(s: State, next: State, k: nat, taken: nat)
    requires k < |s.waits| && DeliveryOk(s, k) && Stored(s, taken)
    requires next.arrived == s.arrived && k < |next.waits| && next.waits[k] == s.waits[k]
    requires forall n: nat :: Stored(next, n) <==> Stored(s, n) && n != taken
    requires forall j :: 0 <= j < |next.messages| ==> next.messages[j] in s.messages
    ensures DeliveryOk(next, k)
    ensures s.waits[k].result.Delivered? ==> s.waits[k].result.number != taken
  {
    hide Stored;
  }

  /** The message taken was the oldest match. */
  lemma TakenIsOldest(s: State, next: State, wait: Wait, i: nat)
    requires StoreOk(s) && FindFirst(s.messages, wait) == Some(i)
    requires next.arrived == s.arrived && next.messages == s.messages[..i] + s.messages[i + 1..]
    requires next.waits == s.waits + [wait.(result := Delivered(s.messages[i].number))]
    requires !Stored(next, s.messages[i].number)
    ensures DeliveryOk(next, |s.waits|)
  {
    hide Stored, FindFirst;
    forall j | 0 <= j < |next.messages| && next.messages[j].number < s.messages[i].number
      ensures !Matches(wait, next.messages[j].message)
    {
      assert next.messages[j] == s.messages[if j < i then j else j + 1];
    }
  }

  lemma TakeKeeps(s: State, wait: Wait, i: nat)
    requires InboxInv(s) && s.terminal.None? && wait.result.Open? && FindFirst(s.messages, wait) == Some(i)
    ensures InboxInv(s.(waits := s.waits + [wait.(result := Delivered(s.messages[i].number))],
                        messages := s.messages[..i] + s.messages[i + 1..]))
  {
    hide StoreOk, DeliveryOk, FindFirst, NothingLost, Stored;
    var taken := s.messages[i].number;
    var next := s.(waits := s.waits + [wait.(result := Delivered(taken))],
                   messages := s.messages[..i] + s.messages[i + 1..]);
    TakeStore(s, next, i);
    forall n: nat ensures Stored(next, n) <==> Stored(s, n) && n != taken {
      StoredWithout(s, next, i, n);
    }
    IsStored(s, i);
    forall k | 0 <= k < |s.waits|
      ensures DeliveryOk(next, k)
      ensures s.waits[k].result.Delivered? ==> s.waits[k].result.number != taken
    {
      TakeDelivery(s, next, k, taken);
    }
    TakenIsOldest(s, next, wait, i);
    TakeLosesNothing(s, next, taken);
    TakeWaiter(s, next);
  }

  lemma IsStored(s: State, i: nat)
    requires i < |s.messages|
    ensures Stored(s, s.messages[i].number)
  {
  }

  lemma TakeWaiter(s: State, next: State)
    requires WaiterOk(s) && next.waiter == s.waiter && next.timers == s.timers && next.terminal == s.terminal
    requires s.waits <= next.waits
    requires forall j :: 0 <= j < |next.messages| ==> next.messages[j] in s.messages
    ensures WaiterOk(next)
  {
  }

  lemma TakeLosesNothing(s: State, next: State, taken: nat)
    requires NothingLost(s) && next.arrived == s.arrived
    requires forall n: nat :: Stored(next, n) <==> Stored(s, n) && n != taken
    requires |next.waits| == |s.waits| + 1 && next.waits[..|s.waits|] == s.waits
    requires next.waits[|s.waits|].result == Delivered(taken)
    ensures NothingLost(next)
  {
    hide Stored;
    forall n | 0 <= n < |next.arrived|
      ensures Stored(next, n) || exists k :: 0 <= k < |next.waits| && next.waits[k].result == Delivered(n)
    {
      if n == taken {
        assert next.waits[|s.waits|].result == Delivered(n);
      } else if !Stored(s, n) {
        var k :| 0 <= k < |s.waits| && s.waits[k].result == Delivered(n);
        assert next.waits[k] == next.waits[..|s.waits|][k];
      }
    }
  }

  /** Appending a wait that delivers nothing. */
  lemma AppendWaitKeeps(s: State, next: State, wait: Wait)
    requires InboxInv(s) && !wait.result.Delivered?
    requires next.arrived == s.arrived && next.messages == s.messages && next.terminal == s.terminal
    requires next.waits == s.waits + [wait]
    requires wait.result.Refused? ==> s.terminal == Some(wait.result.error)
    ensures StoreOk(next) && WaitsOk(next) && NothingLost(next)
  {
    assert forall n: nat :: Stored(next, n) <==> Stored(s, n);
    forall k | 0 <= k < |next.waits| ensures DeliveryOk(next, k) {
      if k < |s.waits| {
        assert DeliveryOk(s, k);
      }
    }
    forall n | 0 <= n < |next.arrived|
      ensures Stored(next, n) || exists k :: 0 <= k < |next.waits| && next.waits[k].result == Delivered(n)
    {
      if !Stored(s, n) {
        var k :| 0 <= k < |s.waits| && s.waits[k].result == Delivered(n);
        assert next.waits[k].result == Delivered(n);
      }
    }
  }

  lemma FailKeeps(s: State, error: InboxError)
    requires InboxInv(s)
    ensures InboxInv(Fail(s, error))
  {
    var next := Fail(s, error);
    assert forall n: nat :: Stored(next, n) <==> Stored(s, n);
    forall k | 0 <= k < |next.waits| ensures DeliveryOk(next, k) {
      assert DeliveryOk(s, k);
    }
    forall n | 0 <= n < |next.arrived|
      ensures Stored(next, n) || exists k :: 0 <= k < |next.waits| && next.waits[k].result == Delivered(n)
    {
      if !Stored(s, n) {
        var k :| 0 <= k < |s.waits| && s.waits[k].result == Delivered(n);
        assert next.waits[k].result == Delivered(n);
      }
    }
  }

  /** A timer that fires while its wait is the waiter refuses it like any other error. */
  lemma TimerKeeps(s: State, wait: nat)
    requires InboxInv(s) && wait in s.timers
    ensures InboxInv(Apply(s, TimerFired(wait)))
  {
    FailKeeps(s, TimedOut);
    var plain, timed := Fail(s, TimedOut), Apply(s, TimerFired(wait));
    assert timed.(timers := plain.timers) == plain;
    assert forall n: nat :: Stored(timed, n) <==> Stored(plain, n);
    forall k | 0 <= k < |timed.waits| ensures DeliveryOk(timed, k) {
      assert DeliveryOk(plain, k);
    }
  }

  lemma ApplyKeeps(s: State, event: Event)
    requires InboxInv(s) && Enabled(s, event)
    ensures InboxInv(Apply(s, event))
  {
    hide StoreOk, WaitsOk, NothingLost, Settle, Fail, Matches;
    match event {
      case Receive(None) => FailKeeps(s, MessageInvalid);
      case Receive(Some(message)) =>
        if s.waiter.Some? && Matches(s.waits[s.waiter.value], message) {
          SettleDelivers(s, message);
        } else {
          StoreKeeps(s, message);
        }
      case WaitFor(upload, accepts) =>
        var wait := Wait(upload, accepts, Open);
        if s.terminal.Some? {
          AppendWaitKeeps(s, Apply(s, event), wait.(result := Refused(s.terminal.value)));
        } else if FindFirst(s.messages, wait).Some? {
          TakeKeeps(s, wait, FindFirst(s.messages, wait).value);
        } else {
          AppendWaitKeeps(s, Apply(s, event), wait);
        }
      case Reject(error) => FailKeeps(s, error);
      case TimerFired(wait) => TimerKeeps(s, wait);
    }
  }

  lemma {:induction false} RunKeepsInbox(s: State, events: seq<Event>)
    requires InboxInv(s) && Legal(s, events)
    ensures InboxInv(After(s, events))
    decreases |events|
  {
    hide InboxInv, Apply, Enabled;
    if events != [] {
      ApplyKeeps(s, events[0]);
      RunKeepsInbox(Apply(s, events[0]), events[1..]);
    }
  }

  // What callers rely on

  /** No lost wakeup: a registered waiter never matches a stored message, and none outlives the final error. */
  lemma NoLostWakeup(events: seq<Event>)
    requires Legal(EMPTY_INBOX, events)
    ensures (var s := After(EMPTY_INBOX, events);
             s.waiter.Some? ==>
               && s.waiter.value < |s.waits| && s.terminal.None?
               && forall i :: 0 <= i < |s.messages| ==> !Matches(s.waits[s.waiter.value], s.messages[i].message))
  {
    RunKeepsInbox(EMPTY_INBOX, events);
  }

  /**
   Each message is delivered at most once, to a wait it matches, and only after every earlier message
   that matches that wait; every message is either delivered or still stored.
   */
  lemma DeliveredOnceInOrder(events: seq<Event>, k: nat, n: nat)
    requires Legal(EMPTY_INBOX, events)
    requires k < |After(EMPTY_INBOX, events).waits| && After(EMPTY_INBOX, events).waits[k].result == Delivered(n)
    ensures (var s := After(EMPTY_INBOX, events);
             && n < |s.arrived| && Matches(s.waits[k], s.arrived[n])
             && (forall j :: 0 <= j < |s.waits| && s.waits[j].result == Delivered(n) ==> j == k)
             && (forall m :: 0 <= m < n && Matches(s.waits[k], s.arrived[m]) ==>
                   exists j :: 0 <= j < |s.waits| && s.waits[j].result == Delivered(m)))
  {
    RunKeepsInbox(EMPTY_INBOX, events);
    var s := After(EMPTY_INBOX, events);
    assert DeliveryOk(s, k);
    forall m | 0 <= m < n && Matches(s.waits[k], s.arrived[m])
      ensures exists j :: 0 <= j < |s.waits| && s.waits[j].result == Delivered(m)
    {
      assert forall i :: 0 <= i < |s.messages| && s.messages[i].number < n ==> s.messages[i].number != m;
      assert !Stored(s, m);
    }
  }

  /** The first error is final: it never changes, and every later wait is refused with it. */
  lemma {:induction false} FirstErrorIsFinal(s: State, events: seq<Event>)
    requires InboxInv(s) && Legal(s, events) && s.terminal.Some?
    ensures After(s, events).terminal == s.terminal && After(s, events).waiter == None
    ensures |s.waits| <= |After(s, events).waits|
    ensures forall k :: |s.waits| <= k < |After(s, events).waits| ==>
                          After(s, events).waits[k].result == Refused(s.terminal.value)
    ensures After(s, events).waits[..|s.waits|] == s.waits
    decreases |events|
  {
    hide StoreOk, WaitsOk, NothingLost;
    if events != [] {
      ApplyKeeps(s, events[0]);
      FirstErrorIsFinal(Apply(s, events[0]), events[1..]);
    }
  }

  /** The error an event ends the inbox with, unless an earlier one did. */
  function ErrorOf(event: Event): Option<InboxError> {
    match event
    case Receive(None) => Some(MessageInvalid)
    case Receive(Some(_)) => None
    case WaitFor(_, _) => None
    case Reject(error) => Some(error)
    case TimerFired(_) => Some(TimedOut)
  }

  function FirstError(events: seq<Event>): Option<InboxError> {
    if events == [] then None
    else if ErrorOf(events[0]).Some? then ErrorOf(events[0])
    else FirstError(events[1..])
  }

  /** The final error is the first one of the run: an invalid message, a rejection or a timeout. */
  lemma {:induction false} TerminalIsFirstError(s: State, events: seq<Event>)
    requires Legal(s, events)
    ensures After(s, events).terminal == if s.terminal.Some? then s.terminal else FirstError(events)
    decreases |events|
  {
    if events != [] {
      TerminalIsFirstError(Apply(s, events[0]), events[1..]);
    }
  }

  ghost predicate TimersOk(s: State) {
    forall t :: t in s.timers ==> t < |s.waits| && s.waits[t].result == Open
  }

  lemma StepKeepsTimers(s: State, event: Event)
    requires WaiterOk(s) && TimersOk(s) && Enabled(s, event)
    ensures TimersOk(Apply(s, event))
  {
    hide FindFirst, Matches;
  }

  /** Only waits that are still open have a timer, so no settled wait ever times the inbox out. */
  lemma {:induction false} OnlyOpenWaitsAreTimed(s: State, events: seq<Event>)
    requires InboxInv(s) && TimersOk(s) && Legal(s, events)
    ensures TimersOk(After(s, events))
    decreases |events|
  {
    hide StoreOk, WaitsOk, NothingLost, TimersOk, Apply, Enabled;
    if events != [] {
      ApplyKeeps(s, events[0]);
      StepKeepsTimers(s, events[0]);
      OnlyOpenWaitsAreTimed(Apply(s, events[0]), events[1..]);
    }
  }

  // Displaced waits

  /** A wait registers over an open one: no final error, no stored match, and a waiter already there. */
  predicate Displaces(s: State, event: Event) {
    && event.WaitFor? && s.terminal.None? && s.waiter.Some?
    && FindFirst(s.messages, Wait(event.upload, event.accepts, Open)).None?
  }

  /** The registered wait goes out of the inbox unsettled exactly in a displacing step. */
  lemma DisplacedExactlyBy(s: State, event: Event)
    requires InboxInv(s) && Enabled(s, event) && s.waiter.Some?
    ensures s.waiter.value < |Apply(s, event).waits|
    ensures Displaces(s, event) <==>
            Apply(s, event).waiter != s.waiter && Apply(s, event).waits[s.waiter.value].result == Open
  {
    hide StoreOk, WaitsOk, NothingLost, FindFirst;
  }

  /** Open, but no longer the waiter. */
  ghost predicate Displaced(s: State, wait: nat) {
    wait < |s.waits| && s.waits[wait].result == Open && s.waiter != Some(wait)
  }

  lemma DisplacedStep(s: State, event: Event, wait: nat)
    requires InboxInv(s) && Enabled(s, event) && Displaced(s, wait)
    ensures Displaced(Apply(s, event), wait)
    ensures wait in s.timers ==>
              (wait in Apply(s, event).timers || (event == TimerFired(wait) && Apply(s, event).terminal.Some?))
    ensures s.terminal.Some? ==> Apply(s, event).terminal.Some?
  {
    hide StoreOk, WaitsOk, NothingLost;
  }

  /**
   A displaced wait stays open in every continuation: no message, error or timeout ever settles it. Its
   own timer is never cleared either, so once that fires the inbox has a final error.
   */
  lemma {:induction false} DisplacedWaitIsLost(s: State, events: seq<Event>, wait: nat)
    requires InboxInv(s) && Legal(s, events) && Displaced(s, wait)
    ensures Displaced(After(s, events), wait)
    ensures wait in s.timers ==> wait in After(s, events).timers || After(s, events).terminal.Some?
    ensures s.terminal.Some? ==> After(s, events).terminal.Some?
    ensures wait in s.timers && TimerFired(wait) in events ==> After(s, events).terminal.Some?
    decreases |events|
  {
    hide InboxInv, Displaced, Apply, Enabled;
    if events != [] {
      ApplyKeeps(s, events[0]);
      DisplacedStep(s, events[0], wait);
      TimerEndsInbox(s, events[0], wait);
      DisplacedWaitIsLost(Apply(s, events[0]), events[1..], wait);
      assert events == [events[0]] + events[1..];
    }
  }

  lemma TimerEndsInbox(s: State, event: Event, wait: nat)
    requires Enabled(s, event)
    ensures event == TimerFired(wait) ==> Apply(s, event).terminal.Some?
    ensures event != TimerFired(wait) && wait in s.timers && s.waiter != Some(wait) ==> wait in Apply(s, event).timers
  {
  }

  /** No step of the run displaces a wait. */
  ghost predicate DisplacesNone(s: State, events: seq<Event>)
    decreases |events|
  {
    events == [] || (!Displaces(s, events[0]) && DisplacesNone(Apply(s, events[0]), events[1..]))
  }

  /** Every wait but the registered one is settled, and only its timer is left. */
  ghost predicate OnlyWaiterOpen(s: State) {
    && (forall k :: 0 <= k < |s.waits| && s.waits[k].result == Open ==> s.waiter == Some(k))
    && (forall k :: k in s.timers ==> s.waiter == Some(k))
  }

  lemma OnlyWaiterStep(s: State, event: Event)
    requires InboxInv(s) && Enabled(s, event) && OnlyWaiterOpen(s)
    ensures !Displaces(s, event) ==> OnlyWaiterOpen(Apply(s, event))
    ensures Displaces(s, event) ==> Displaced(Apply(s, event), s.waiter.value)
  {
    hide StoreOk, WaitsOk, NothingLost, FindFirst;
  }

  lemma DisplacedIsNotOnly(s: State, wait: nat)
    requires Displaced(s, wait)
    ensures !OnlyWaiterOpen(s)
  {
  }

  lemma {:induction false} OnlyWaiterIff(s: State, events: seq<Event>)
    requires InboxInv(s) && OnlyWaiterOpen(s) && Legal(s, events)
    ensures OnlyWaiterOpen(After(s, events)) <==> DisplacesNone(s, events)
    decreases |events|
  {
    hide InboxInv, OnlyWaiterOpen, Displaced, Apply, Enabled, FindFirst;
    if events != [] {
      var next := Apply(s, events[0]);
      ApplyKeeps(s, events[0]);
      OnlyWaiterStep(s, events[0]);
      if Displaces(s, events[0]) {
        DisplacedWaitIsLost(next, events[1..], s.waiter.value);
        DisplacedIsNotOnly(After(next, events[1..]), s.waiter.value);
      } else {
        OnlyWaiterIff(next, events[1..]);
      }
    }
  }

  /**
   Over every run of the inbox: every wait but the registered one is settled and no stray timer is left
   if and only if no wait of the run displaced another.
   */
  lemma EveryOtherWaitIsSettledIff(events: seq<Event>)
    requires Legal(EMPTY_INBOX, events)
    ensures OnlyWaiterOpen(After(EMPTY_INBOX, events)) <==> DisplacesNone(EMPTY_INBOX, events)
  {
    OnlyWaiterIff(EMPTY_INBOX, events);
  }

  // The inbox object

  class Inbox {
    var messages: seq<Received>
    var waiter: Option<nat>
    var terminalError: Option<InboxError>
    ghost var arrived: seq<Message>
    var waits: seq<Wait>
    var timers: set<nat>
    var arrivals: nat

    constructor ()
      ensures Contents() == EMPTY_INBOX && Valid()
    {
      messages, waiter, terminalError, arrived, waits, timers, arrivals := [], None, None, [], [], {}, 0;
    }

    ghost function Contents(): State
      reads this
    {
      State(arrived, messages, waiter, terminalError, waits, timers)
    }

    ghost predicate Valid()
      reads this
    {
      arrivals == |arrived| && InboxInv(Contents())
    }

    /** Of all waits only `wait` has got a result. */
    twostate predicate Settles(wait: nat, result: WaitResult)
      reads this
    {
      && |waits| == |old(waits)| && wait < |waits|
      && waits[wait] == old(waits)[wait].(result := result)
      && forall k :: 0 <= k < |waits| && k != wait ==> waits[k] == old(waits)[k]
    }

    /** The first error is kept and refuses the registered wait; a later one changes nothing. */
    twostate predicate Ends(error: InboxError)
      reads this
    {
      && messages == old(messages)
      && if old(terminalError).Some? then
           terminalError == old(terminalError) && waiter == old(waiter) && waits == old(waits)
         else
           && terminalError == Some(error) && waiter == None
           && if old(waiter).Some? then Settles(old(waiter).value, Refused(error)) else waits == old(waits)
    }

    method Receive(parsed: Option<Message>)
      requires Valid()
      modifies this
      ensures Valid() && Contents() == Apply(old(Contents()), Event.Receive(parsed))
      ensures parsed.None? ==> Ends(MessageInvalid) && arrived == old(arrived)
      ensures parsed.Some? ==> arrived == old(arrived) + [parsed.value] && terminalError == old(terminalError)
      ensures (parsed.Some? ==>
                 if old(waiter).Some? && Matches(old(waits)[old(waiter).value], parsed.value) then
                   && waiter == None && messages == old(messages) && timers == old(timers) - {old(waiter).value}
                   && Settles(old(waiter).value, Delivered(old(arrivals)))
                 else
                   && waiter == old(waiter) && waits == old(waits) && timers == old(timers)
                   && messages == old(messages) + [Received(old(arrivals), parsed.value)])
    {
      ApplyKeeps(Contents(), Event.Receive(parsed));
      match parsed {
        case None =>
          RejectWith(MessageInvalid);
        case Some(message) =>
          if waiter.Some? && Matches(waits[waiter.value], message) {
            var waiting := waiter.value;
            ClearWaiter();
            waits := waits[waiting := waits[waiting].(result := Delivered(arrivals))];
          } else {
            messages := messages + [Received(arrivals, message)];
          }
          arrived := arrived + [message];
          arrivals := arrivals + 1;
      }
    }

    /** The stored message at `i` is the oldest that matches, and only it leaves the store. */
    twostate predicate TakesFirst(i: nat, number: nat, wait: Wait)
      requires i < |old(messages)|
      reads this
    {
      && old(messages)[i].number == number && Matches(wait, old(messages)[i].message)
      && (forall j :: 0 <= j < i ==> !Matches(wait, old(messages)[j].message))
      && messages == old(messages)[..i] + old(messages)[i + 1..]
    }

    method WaitFor(upload: UploadId, accepts: Message -> bool) returns (wait: nat)
      requires Valid()
      modifies this
      ensures Valid() && Contents() == Apply(old(Contents()), Event.WaitFor(upload, accepts))
      ensures wait == |old(waits)| && |waits| == wait + 1 && waits[..wait] == old(waits)
      ensures waits[wait].upload == upload && waits[wait].accepts == accepts
      ensures terminalError == old(terminalError) && arrived == old(arrived)
      ensures (match waits[wait].result
               case Refused(error) => terminalError == Some(error) && messages == old(messages) && waiter == old(waiter)
               case Delivered(number) =>
                 && terminalError.None? && waiter == old(waiter) && timers == old(timers)
                 && (exists i :: 0 <= i < |old(messages)| && TakesFirst(i, number, waits[wait]))
               case Open =>
                 && terminalError.None? && messages == old(messages) && waiter == Some(wait)
                 && timers == old(timers) + {wait}
                 && forall i :: 0 <= i < |messages| ==> !Matches(waits[wait], messages[i].message))
    {
      hide InboxInv;
      ApplyKeeps(Contents(), Event.WaitFor(upload, accepts));
      wait := |waits|;
      var request := Wait(upload, accepts, Open);
      if terminalError.Some? {
        waits := waits + [request.(result := Refused(terminalError.value))];
        return;
      }
      var queued := FindFirst(messages, request);
      if queued.Some? {
        waits := waits + [request.(result := Delivered(messages[queued.value].number))];
        messages := messages[..queued.value] + messages[queued.value + 1..];
        assert TakesFirst(queued.value, waits[wait].result.number, waits[wait]);
        return;
      }
      waits := waits + [request];
      waiter := Some(wait);
      timers := timers + {wait};
    }

    method RejectWith(error: InboxError)
      requires waiter.Some? ==> waiter.value < |waits|
      modifies this
      ensures Contents() == Fail(old(Contents()), error) && arrivals == old(arrivals) && Ends(error)
    {
      if terminalError.Some? {
        return;
      }
      terminalError := Some(error);
      if waiter.None? {
        return;
      }
      var waiting := waiter.value;
      ClearWaiter();
      waits := waits[waiting := waits[waiting].(result := Refused(error))];
    }

    /** The callback of a wait's timer: the inbox ends with a timeout, whoever is waiting by now. */
    method TimerFires(wait: nat)
      requires Valid() && wait in timers
      modifies this
      ensures Valid() && Contents() == Apply(old(Contents()), TimerFired(wait))
      ensures Ends(TimedOut) && wait !in timers && terminalError.Some?
    {
      ApplyKeeps(Contents(), TimerFired(wait));
      timers := timers - {wait};
      RejectWith(TimedOut);
    }

    method ClearWaiter()
      modifies this`waiter, this`timers
      ensures waiter == None
      ensures timers == if old(waiter).Some? then old(timers) - {old(waiter).value} else old(timers)
    {
      if waiter.Some? {
        timers := timers - {waiter.value};
      }
      waiter := None;
    }
  }
}
