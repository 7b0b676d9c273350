/**
 Replacing WebRTC sessions: the coordinator's session map, the service's map from uploads to sessions
 and the gateway's connections, over every interleaving of creates, failures, expiries and closes. One
 event is what runs between two awaits.
 */
module UploadSessions {
  import opened UploadRecords

  type SessionId = string

  datatype Live = Live(upload: UploadId, expires: int)

  /** `connecting` holds the connects still awaited; `issued` every session identifier ever drawn. */
  datatype Registry = Registry(
    sessions: map<SessionId, Live>,
    byUpload: map<UploadId, SessionId>,
    connecting: set<SessionId>,
    connections: set<SessionId>,
    issued: set<SessionId>)

  const EMPTY_REGISTRY := Registry(map[], map[], {}, {}, {})

  datatype Event =
    | Create(upload: UploadId, session: SessionId, now: int, expires: int)
    | CreateRefused(now: int)
    | Connected(session: SessionId)
    | ConnectFailed(session: SessionId)
    | ConnectionLost(session: SessionId)
    | Close(session: SessionId)
    | Inbound(via: SessionId, named: SessionId, closes: bool, now: int)
    | DirectFailed(session: SessionId)
    | Sweep(now: int)

  function Unexpired(sessions: map<SessionId, Live>, now: int): map<SessionId, Live> {
    map s | s in sessions && now < sessions[s].expires :: sessions[s]
  }

  function Forget(byUpload: map<UploadId, SessionId>, session: SessionId): map<UploadId, SessionId> {
    map u | u in byUpload && byUpload[u] != session :: byUpload[u]
  }

  /** `close` and `abortOnSignalingFailure`: the session leaves the coordinator, the gateway and the map. */
  function Dropped(r: Registry, session: SessionId): Registry {
    r.(sessions := r.sessions - {session},
       connections := r.connections - {session},
       byUpload := Forget(r.byUpload, session))
  }

  /** `create` after the relay servers are known: the old session is closed once the new one exists. */
  function Replaced(r: Registry, upload: UploadId, session: SessionId, expires: int): Registry {
    var added := r.(sessions := r.sessions[session := Live(upload, expires)], issued := r.issued + {session});
    var cleared := if upload in added.byUpload then Dropped(added, added.byUpload[upload]) else added;
    cleared.(byUpload := cleared.byUpload[upload := session], connecting := cleared.connecting + {session})
  }

  predicate Enabled(r: Registry, event: Event) {
    match event
    case Create(_, session, _, _) => session !in r.issued
    case Connected(session) => session in r.connecting
    case ConnectFailed(session) => session in r.connecting
    case _ => true
  }

  function Apply(r: Registry, event: Event): Registry
    requires Enabled(r, event)
  {
    match event
    case Create(upload, session, now, expires) =>
      Replaced(r.(sessions := Unexpired(r.sessions, now)), upload, session, expires)
    case CreateRefused(now) => r.(sessions := Unexpired(r.sessions, now))
    case Connected(session) =>
      r.(connecting := r.connecting - {session}, connections := r.connections + {session})
    case ConnectFailed(session) => Dropped(r.(connecting := r.connecting - {session}), session)
    case ConnectionLost(session) => Dropped(r, session)
    case Close(session) => Dropped(r, session)
    case Inbound(via, named, closes, now) =>
      if !(named in r.sessions) then r.(connections := r.connections - {via})
      else if closes || r.sessions[named].expires <= now then
        r.(sessions := r.sessions - {named}, connections := r.connections - {via})
      else r
    case DirectFailed(session) =>
      if session in r.sessions then
        r.(sessions := r.sessions - {session}, connections := r.connections - {session})
      else r
    case Sweep(now) => r.(sessions := Unexpired(r.sessions, now))
  }

  ghost predicate Legal(r: Registry, events: seq<Event>)
    decreases |events|
  {
    events == [] || (Enabled(r, events[0]) && Legal(Apply(r, events[0]), events[1..]))
  }

  ghost function After(r: Registry, events: seq<Event>): Registry
    requires Legal(r, events)
    decreases |events|
  {
    if events == [] then r else After(Apply(r, events[0]), events[1..])
  }

  /** Every live session is the one its upload's entry names, and no two entries name one session. */
  ghost predicate RegistryInv(r: Registry) {
    && (forall s :: s in r.sessions ==>
          s in r.issued && r.sessions[s].upload in r.byUpload && r.byUpload[r.sessions[s].upload] == s)
    && (forall u :: u in r.byUpload ==> r.byUpload[u] in r.issued)
    && (forall u, v :: u in r.byUpload && v in r.byUpload && r.byUpload[u] == r.byUpload[v] ==> u == v)
  }

  lemma ApplyKeeps(r: Registry, event: Event)
    requires RegistryInv(r) && Enabled(r, event)
    ensures RegistryInv(Apply(r, event))
  {
  }

  lemma {:induction false} RunKeepsRegistry(r: Registry, events: seq<Event>)
    requires RegistryInv(r) && Legal(r, events)
    ensures RegistryInv(After(r, events))
    decreases |events|
  {
    if events != [] {
      ApplyKeeps(r, events[0]);
      RunKeepsRegistry(Apply(r, events[0]), events[1..]);
    }
  }

  /** At every await point an upload has at most one live session, and it is the one its entry names. */
  lemma OneLiveSessionPerUpload(events: seq<Event>, s: SessionId, t: SessionId)
    requires Legal(EMPTY_REGISTRY, events)
    requires s in After(EMPTY_REGISTRY, events).sessions && t in After(EMPTY_REGISTRY, events).sessions
    ensures (var r := After(EMPTY_REGISTRY, events);
             && r.sessions[s].upload in r.byUpload && r.byUpload[r.sessions[s].upload] == s
             && (r.sessions[s].upload == r.sessions[t].upload ==> s == t))
  {
    RunKeepsRegistry(EMPTY_REGISTRY, events);
  }

  /** The events that speak of session `t`, replace it, or find it expired. */
  predicate MayEnd(event: Event, t: SessionId, live: Live) {
    match event
    case Create(upload, _, now, _) => upload == live.upload || live.expires <= now
    case CreateRefused(now) => live.expires <= now
    case Connected(_) => false
    case ConnectFailed(session) => session == t
    case ConnectionLost(session) => session == t
    case Close(session) => session == t
    case Inbound(_, named, closes, now) => named == t && (closes || live.expires <= now)
    case DirectFailed(session) => session == t
    case Sweep(now) => live.expires <= now
  }

  /**
   A live session ends exactly when it is named, replaced by a create for its own upload, or found
   expired. The late failure of a superseded session therefore never ends its replacement.
   */
  lemma SessionEndsExactlyWhen(events: seq<Event>, event: Event, t: SessionId)
    requires Legal(EMPTY_REGISTRY, events) && Enabled(After(EMPTY_REGISTRY, events), event)
    requires t in After(EMPTY_REGISTRY, events).sessions
    ensures (var r := After(EMPTY_REGISTRY, events);
             var next := Apply(r, event);
             && (t in next.sessions <==> !MayEnd(event, t, r.sessions[t]))
             && (t in next.sessions ==>
                   next.sessions[t] == r.sessions[t]
                   && r.sessions[t].upload in next.byUpload && next.byUpload[r.sessions[t].upload] == t))
  {
    hide RegistryInv, Enabled, Apply, MayEnd;
    RunKeepsRegistry(EMPTY_REGISTRY, events);
    EndsExactlyWhen(After(EMPTY_REGISTRY, events), event, t);
  }

  lemma EndsExactlyWhen(r: Registry, event: Event, t: SessionId)
    requires RegistryInv(r) && Enabled(r, event) && t in r.sessions
    ensures (var next := Apply(r, event);
             && (t in next.sessions <==> !MayEnd(event, t, r.sessions[t]))
             && (t in next.sessions ==>
                   next.sessions[t] == r.sessions[t]
                   && r.sessions[t].upload in next.byUpload && next.byUpload[r.sessions[t].upload] == t))
  {
    ApplyKeeps(r, event);
    match event {
      case Create(upload, session, now, expires) => CreateEnds(r, upload, session, now, expires, t);
      case _ =>
    }
  }

  lemma CreateEnds(r: Registry, upload: UploadId, session: SessionId, now: int, expires: int, t: SessionId)
    requires RegistryInv(r) && session !in r.issued && t in r.sessions
    ensures (var next := Apply(r, Create(upload, session, now, expires));
             && (t in next.sessions <==> upload != r.sessions[t].upload && now < r.sessions[t].expires)
             && (t in next.sessions ==> next.sessions[t] == r.sessions[t]))
  {
    assert r.sessions[t].upload in r.byUpload && r.byUpload[r.sessions[t].upload] == t;
    assert session != t;
  }

  lemma {:induction false} StaysUntilEnded(r: Registry, events: seq<Event>, t: SessionId)
    requires RegistryInv(r) && Legal(r, events) && t in r.sessions
    requires forall e :: e in events ==> !MayEnd(e, t, r.sessions[t])
    ensures t in After(r, events).sessions && After(r, events).sessions[t] == r.sessions[t]
    decreases |events|
  {
    hide RegistryInv, Enabled, Apply, MayEnd;
    if events != [] {
      assert events[0] in events;
      ApplyKeeps(r, events[0]);
      EndsExactlyWhen(r, events[0], t);
      StaysUntilEnded(Apply(r, events[0]), events[1..], t);
    }
  }

  /**
   Replacement over a whole run: whatever happens to other sessions after `t` was created, the loss of
   any earlier session of the same upload included, `t` is still live and still its upload's session.
   */
  lemma ReplacementSurvives(before: seq<Event>, upload: UploadId, t: SessionId, now: int, expires: int, later: seq<Event>)
    requires Legal(EMPTY_REGISTRY, before)
    requires Enabled(After(EMPTY_REGISTRY, before), Create(upload, t, now, expires))
    requires Legal(Apply(After(EMPTY_REGISTRY, before), Create(upload, t, now, expires)), later)
    requires forall e :: e in later ==> !MayEnd(e, t, Live(upload, expires))
    ensures (var r := After(Apply(After(EMPTY_REGISTRY, before), Create(upload, t, now, expires)), later);
             && t in r.sessions && r.sessions[t].upload == upload
             && upload in r.byUpload && r.byUpload[upload] == t
             && forall s :: s in r.sessions && r.sessions[s].upload == upload ==> s == t)
  {
    var r0 := After(EMPTY_REGISTRY, before);
    RunKeepsRegistry(EMPTY_REGISTRY, before);
    CreateMakesLive(r0, upload, t, now, expires);
    var r1 := Apply(r0, Create(upload, t, now, expires));
    StaysUntilEnded(r1, later, t);
    RunKeepsRegistry(r1, later);
  }

  lemma CreateMakesLive(r: Registry, upload: UploadId, t: SessionId, now: int, expires: int)
    requires RegistryInv(r) && Enabled(r, Create(upload, t, now, expires))
    ensures (var next := Apply(r, Create(upload, t, now, expires));
             RegistryInv(next) && t in next.sessions && next.sessions[t] == Live(upload, expires))
  {
    ApplyKeeps(r, Create(upload, t, now, expires));
  }

  /** What names a session to end it also ends the connection registered for it. */
  lemma EndedSessionIsDisconnected(r: Registry, event: Event, s: SessionId)
    requires Enabled(r, event)
    requires match event
             case Create(upload, session, _, _) => upload in r.byUpload && r.byUpload[upload] == s && s != session
             case ConnectFailed(session) => session == s
             case ConnectionLost(session) => session == s
             case Close(session) => session == s
             case DirectFailed(session) => session == s && s in r.sessions
             case _ => false
    ensures !(s in Apply(r, event).sessions) && !(s in Apply(r, event).connections)
    ensures !event.DirectFailed? ==>
              forall u :: u in Apply(r, event).byUpload ==>
                Apply(r, event).byUpload[u] != s
    ensures forall t :: t in r.connections && t != s ==> t in Apply(r, event).connections
  {
  }

  // What one event does, and nothing besides

  /** The gateway holds a connection exactly when it did or its connect completes, and it does not close it. */
  lemma ConnectionsMoveExactly(r: Registry, event: Event, s: SessionId)
    requires Enabled(r, event)
    ensures s in Apply(r, event).connections <==>
            (s in r.connections || event == Connected(s)) && !GatewayCloses(r, event, s)
    ensures s in Apply(r, event).connecting <==>
            (s in r.connecting || IsCreated(event, s)) && event != Connected(s) && event != ConnectFailed(s)
    ensures s in Apply(r, event).issued <==> s in r.issued || IsCreated(event, s)
  {
  }

  predicate IsCreated(event: Event, s: SessionId) {
    event.Create? && event.session == s
  }

  /** A session appears only with its own create, and then with that upload and expiry. */
  lemma SessionsAppearExactly(r: Registry, event: Event, s: SessionId)
    requires RegistryInv(r) && Enabled(r, event) && !(s in r.sessions)
    ensures s in Apply(r, event).sessions <==> IsCreated(event, s)
    ensures IsCreated(event, s) ==> Apply(r, event).sessions[s] == Live(event.upload, event.expires)
  {
  }

  /** A step makes the service forget a session: its close, its lost connection, or its failed connect. */
  predicate Forgets(event: Event, s: SessionId) {
    match event
    case Close(session) => session == s
    case ConnectionLost(session) => session == s
    case ConnectFailed(session) => session == s
    case _ => false
  }

  /**
   An upload's entry is the session created last for it, until that session is closed or lost; an expiry,
   a refusal or a failed direct connection leaves the entry behind.
   */
  lemma EntriesMoveExactly(r: Registry, event: Event, u: UploadId)
    requires RegistryInv(r) && Enabled(r, event)
    ensures (var next := Apply(r, event);
             if event.Create? && event.upload == u then
               u in next.byUpload && next.byUpload[u] == event.session
             else
               && (u in next.byUpload <==> u in r.byUpload && !Forgets(event, r.byUpload[u]))
               && (u in next.byUpload ==> next.byUpload[u] == r.byUpload[u]))
  {
  }

  // What the gateway keeps of an ended session

  /** The session was issued once and is no longer live. */
  ghost predicate Ended(r: Registry, s: SessionId) {
    s in r.issued && !(s in r.sessions)
  }

  /** The gateway closes the connection of `s` in this step. */
  predicate GatewayCloses(r: Registry, event: Event, s: SessionId) {
    match event
    case Create(upload, _, _, _) => upload in r.byUpload && r.byUpload[upload] == s
    case ConnectFailed(session) => session == s
    case ConnectionLost(session) => session == s
    case Close(session) => session == s
    case Inbound(via, named, closes, now) =>
      via == s && (!(named in r.sessions) || closes || r.sessions[named].expires <= now)
    case DirectFailed(session) => session == s && s in r.sessions
    case _ => false
  }

  ghost predicate NeverClosed(r: Registry, events: seq<Event>, s: SessionId)
    requires Legal(r, events)
    decreases |events|
  {
    events == [] || (!GatewayCloses(r, events[0], s) && NeverClosed(Apply(r, events[0]), events[1..], s))
  }

  /** The connect of `s` completes in this run, and the gateway does not close it afterwards. */
  ghost predicate ConnectsForGood(r: Registry, events: seq<Event>, s: SessionId)
    requires Legal(r, events)
    decreases |events|
  {
    events != [] &&
    (var next := Apply(r, events[0]);
     || (events[0] == Connected(s) && NeverClosed(next, events[1..], s))
     || ConnectsForGood(next, events[1..], s))
  }

  /** An ended session stays ended, and only its pending connect, once, can register a connection for it. */
  lemma EndedStep(r: Registry, event: Event, s: SessionId)
    requires Ended(r, s) && Enabled(r, event)
    ensures (var next := Apply(r, event);
             && Ended(next, s)
             && (s in next.connecting <==>
                 s in r.connecting && event != Connected(s) && event != ConnectFailed(s))
             && (s in next.connections <==>
                 (s in r.connections || event == Connected(s)) && !GatewayCloses(r, event, s)))
  {
  }

  /**
   Exactly which ended sessions hold a connection after a run: those whose pending connect completed, or
   whose connection was registered before, with no close of it by the gateway since.
   */
  lemma {:induction false} EndedSessionHoldsConnectionIff(r: Registry, events: seq<Event>, s: SessionId)
    requires Ended(r, s) && Legal(r, events)
    ensures Ended(After(r, events), s)
    ensures s in After(r, events).connections <==>
            (s in r.connections && NeverClosed(r, events, s)) || ConnectsForGood(r, events, s)
    ensures Connected(s) in events ==> s in r.connecting
    ensures ConnectsForGood(r, events, s) ==> Connected(s) in events
    decreases |events|
  {
    hide Ended, Apply, Enabled, GatewayCloses;
    if events != [] {
      EndedStep(r, events[0], s);
      EndedSessionHoldsConnectionIff(Apply(r, events[0]), events[1..], s);
      assert events == [events[0]] + events[1..];
      ConnectingOnly(r, events[0], s);
    }
  }

  lemma ConnectingOnly(r: Registry, event: Event, s: SessionId)
    requires Enabled(r, event)
    ensures event == Connected(s) ==> s in r.connecting && !GatewayCloses(r, event, s)
  {
  }

  /**
   A session that ends may hold a connection later if and only if it is registered or its connect is
   still awaited at that moment. A close, a failure or a replacement leaves none registered, so for
   them it is the awaited connect alone that decides.
   */
  lemma EndedSessionMayConnectIff(before: seq<Event>, event: Event, s: SessionId)
    requires Legal(EMPTY_REGISTRY, before) && Enabled(After(EMPTY_REGISTRY, before), event)
    requires s in After(EMPTY_REGISTRY, before).sessions
    requires !(s in Apply(After(EMPTY_REGISTRY, before), event).sessions)
    ensures (var r := Apply(After(EMPTY_REGISTRY, before), event);
             && Ended(r, s)
             && (MayHoldConnection(r, s) <==> s in r.connections || s in r.connecting)
             && (GatewayCloses(After(EMPTY_REGISTRY, before), event, s) ==>
                   (MayHoldConnection(r, s) <==> s in r.connecting)))
  {
    hide RegistryInv, Apply, Enabled, GatewayCloses;
    var r0 := After(EMPTY_REGISTRY, before);
    RunKeepsRegistry(EMPTY_REGISTRY, before);
    var r := Apply(r0, event);
    EndsDisconnected(r0, event, s);
    if MayHoldConnection(r, s) {
      var events :| Legal(r, events) && HoldsAfter(r, events, s);
      EndedSessionHoldsConnectionIff(r, events, s);
    }
    if s in r.connections {
      assert HoldsAfter(r, [], s);
    }
    if s in r.connecting {
      ConnectRegisters(r, s);
    }
  }

  ghost predicate HoldsAfter(r: Registry, events: seq<Event>, s: SessionId)
    requires Legal(r, events)
  {
    s in After(r, events).connections
  }

  /** Some continuation leaves the session's connection registered. */
  ghost predicate MayHoldConnection(r: Registry, s: SessionId) {
    exists events :: Legal(r, events) && HoldsAfter(r, events, s)
  }

  lemma ConnectRegisters(r: Registry, s: SessionId)
    requires s in r.connecting
    ensures Legal(r, [Connected(s)]) && HoldsAfter(r, [Connected(s)], s)
  {
    var next := Apply(r, Connected(s));
    assert [Connected(s)][1..] == [];
    assert Legal(next, []) && After(next, []) == next;
    assert Legal(r, [Connected(s)]);
  }

  lemma EndsDisconnected(r: Registry, event: Event, s: SessionId)
    requires RegistryInv(r) && Enabled(r, event) && s in r.sessions && !(s in Apply(r, event).sessions)
    ensures Ended(Apply(r, event), s)
    ensures GatewayCloses(r, event, s) ==> !(s in Apply(r, event).connections)
  {
  }

  /**
   So the gateway may hold the connection of a replaced session: from every reachable registry, a session
   created and replaced while its connect is awaited is connected once that completes, and not live.
   */
  lemma ClosedSessionMayStayConnected(before: seq<Event>, upload: UploadId, first: SessionId, second: SessionId,
                                      now: int, expires: int)
    requires Legal(EMPTY_REGISTRY, before) && first != second
    requires !(first in After(EMPTY_REGISTRY, before).issued) && !(second in After(EMPTY_REGISTRY, before).issued)
    ensures (var r := After(EMPTY_REGISTRY, before);
             var events := [Create(upload, first, now, expires), Create(upload, second, now, expires), Connected(first)];
             && Legal(r, events)
             && first in After(r, events).connections && !(first in After(r, events).sessions)
             && upload in After(r, events).byUpload && After(r, events).byUpload[upload] == second)
  {
    hide RegistryInv;
    var r := After(EMPTY_REGISTRY, before);
    RunKeepsRegistry(EMPTY_REGISTRY, before);
    ReplaceOnly(r, upload, first, second, now, expires);
    RunOfThree(r, Create(upload, first, now, expires), Create(upload, second, now, expires), Connected(first));
  }

  lemma ReplaceOnly(r: Registry, upload: UploadId, first: SessionId, second: SessionId, now: int, expires: int)
    requires RegistryInv(r) && first != second && !(first in r.issued) && !(second in r.issued)
    ensures (var r1 := Apply(r, Create(upload, first, now, expires));
             Enabled(r1, Create(upload, second, now, expires))
             && (var r2 := Apply(r1, Create(upload, second, now, expires));
                 && first in r2.connecting
                 && (var r3 := Apply(r2, Connected(first));
                     first in r3.connections && !(first in r3.sessions)
                     && upload in r3.byUpload && r3.byUpload[upload] == second)))
  {
    var r1 := Apply(r, Create(upload, first, now, expires));
    assert upload in r1.byUpload && r1.byUpload[upload] == first && r1.issued == r.issued + {first};
    ApplyKeeps(r, Create(upload, first, now, expires));
  }

  lemma RunOfThree(r: Registry, a: Event, b: Event, c: Event)
    requires Enabled(r, a) && Enabled(Apply(r, a), b) && Enabled(Apply(Apply(r, a), b), c)
    ensures Legal(r, [a, b, c]) && After(r, [a, b, c]) == Apply(Apply(Apply(r, a), b), c)
  {
    hide Apply, Enabled;
    var s := Apply(Apply(r, a), b);
    assert [c][1..] == [] && After(Apply(s, c), []) == Apply(s, c);
    assert Legal(s, [c]) && After(s, [c]) == Apply(s, c);
    assert [b, c][1..] == [c];
    assert Legal(Apply(r, a), [b, c]) && After(Apply(r, a), [b, c]) == Apply(s, c);
    assert [a, b, c][1..] == [b, c];
  }
}
