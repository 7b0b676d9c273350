/** The three objects behind `UploadSessions`, each with the map it owns. */
module UploadTransferService {
  import opened UploadRecords
  import opened UploadSessions
  import UploadGuards

  class UploadSessionCoordinator {
    var sessions: map<SessionId, Live>

    constructor ()
      ensures sessions == map[]
    {
      sessions := map[];
    }

    /** The deleting loop: exactly the sessions whose time has come are closed, and counted. */
    method CloseExpired(now: int) returns (closed: nat)
      modifies this
      ensures sessions == Unexpired(old(sessions), now)
      ensures closed == |old(sessions)| - |sessions|
    {
      closed := 0;
      var rest := sessions.Keys;
      while rest != {}
        invariant rest <= sessions.Keys <= old(sessions).Keys
        invariant forall s :: s in sessions ==> sessions[s] == old(sessions)[s]
        invariant forall s :: s in old(sessions) && s !in rest ==> (s in sessions <==> now < old(sessions)[s].expires)
        invariant closed == |old(sessions)| - |sessions|
        decreases |rest|
      {
        var s :| s in rest;
        rest := rest - {s};
        if sessions[s].expires <= now {
          DropOne(sessions, s);
          sessions := sessions - {s};
          closed := closed + 1;
        }
      }
    }

    /** `create` for an upload that may be transferred; the fresh identifier is the caller's. */
    method Create(upload: UploadId, session: SessionId, now: int, lifetime: nat, transferable: bool) returns (created: bool)
      modifies this
      ensures created == (transferable && now + lifetime <= UploadGuards.MAX_SAFE_INTEGER)
      ensures (var swept := Unexpired(old(sessions), now);
               sessions == if created then swept[session := Live(upload, now + lifetime)] else swept)
    {
      var _ := CloseExpired(now);
      if !transferable || now + lifetime > UploadGuards.MAX_SAFE_INTEGER {
        return false;
      }
      sessions := sessions[session := Live(upload, now + lifetime)];
      created := true;
    }

    method Accept(named: SessionId, closes: bool, now: int) returns (accepted: bool)
      modifies this
      ensures accepted <==> named in old(sessions) && now < old(sessions)[named].expires
      ensures sessions == if named in old(sessions) && (closes || old(sessions)[named].expires <= now)
                          then old(sessions) - {named} else old(sessions)
    {
      if !(named in sessions) {
        return false;
      }
      accepted := now < sessions[named].expires;
      if !accepted || closes {
        sessions := sessions - {named};
      }
    }

    method Abort(session: SessionId) returns (wasLive: bool)
      modifies this
      ensures wasLive <==> session in old(sessions)
      ensures sessions == old(sessions) - {session}
    {
      wasLive := session in sessions;
      if !wasLive {
        Absent(sessions, session);
        return;
      }
      sessions := sessions - {session};
    }
  }

  lemma DropOne(sessions: map<SessionId, Live>, s: SessionId)
    requires s in sessions
    ensures |sessions - {s}| == |sessions| - 1
  {
    assert (sessions - {s}).Keys == sessions.Keys - {s};
    assert |sessions| == |sessions.Keys| && |sessions - {s}| == |(sessions - {s}).Keys|;
  }

  lemma Absent<K, V>(m: map<K, V>, k: K)
    requires k !in m
    ensures m - {k} == m
  {
  }

  class SessionSignalingGateway {
    var connections: set<SessionId>

    constructor ()
      ensures connections == {}
    {
      connections := {};
    }

    method Close(session: SessionId)
      modifies this
      ensures connections == old(connections) - {session}
    {
      if session in connections {
        connections := connections - {session};
      }
    }

    /** A close announcement ends its own connection, delivered or not; without one it cannot be sent. */
    method ForwardClose(session: SessionId, sends: bool) returns (delivered: bool)
      modifies this
      ensures delivered <==> session in old(connections) && sends
      ensures connections == old(connections) - {session}
    {
      if !(session in connections) {
        return false;
      }
      if !sends {
        connections := connections - {session};
        return false;
      }
      Close(session);
      delivered := true;
    }
  }

  class Service {
    const coordinator: UploadSessionCoordinator
    const gateway: SessionSignalingGateway
    var byUpload: map<UploadId, SessionId>

    constructor (coordinator: UploadSessionCoordinator, gateway: SessionSignalingGateway)
      ensures this.coordinator == coordinator && this.gateway == gateway && byUpload == map[]
    {
      this.coordinator, this.gateway, byUpload := coordinator, gateway, map[];
    }

    /** The registry these objects hold, given what is being connected and what was issued. */
    ghost function State(connecting: set<SessionId>, issued: set<SessionId>): Registry
      reads this, coordinator, gateway
    {
      Registry(coordinator.sessions, byUpload, connecting, gateway.connections, issued)
    }

    ghost predicate OneEntryEach()
      reads this
    {
      forall u, v :: u in byUpload && v in byUpload && byUpload[u] == byUpload[v] ==> u == v
    }

    /** The loop deletes the first entry that names the session; there is no other. */
    method ForgetSession(session: SessionId)
      requires OneEntryEach()
      modifies this
      ensures byUpload == Forget(old(byUpload), session)
      ensures forall u :: u in byUpload <==> u in old(byUpload) && old(byUpload)[u] != session
      ensures forall u :: u in byUpload ==> byUpload[u] == old(byUpload)[u]
    {
      var rest := byUpload.Keys;
      while rest != {}
        invariant rest <= byUpload.Keys && byUpload == old(byUpload)
        invariant forall u :: u in byUpload && u !in rest ==> byUpload[u] != session
        decreases |rest|
      {
        var u :| u in rest;
        rest := rest - {u};
        if byUpload[u] == session {
          byUpload := byUpload - {u};
          return;
        }
      }
    }

    /** `close` and, without the announcement, `abortOnSignalingFailure`. */
    method CloseSession(session: SessionId, announces: bool, sends: bool)
      requires OneEntryEach()
      modifies this, coordinator, gateway
      ensures State({}, {}) == Dropped(old(State({}, {})), session)
      ensures coordinator.sessions == old(coordinator.sessions) - {session}
      ensures gateway.connections == old(gateway.connections) - {session}
    {
      var wasLive := coordinator.Abort(session);
      if wasLive && announces {
        var _ := gateway.ForwardClose(session, sends);
      }
      gateway.Close(session);
      ForgetSession(session);
    }

    /**
     `create` up to its second await: a new session replaces the upload's previous one in the same turn,
     so no other callback ever sees two.
     */
    method Create(upload: UploadId, session: SessionId, now: int, lifetime: nat, transferable: bool, sends: bool,
                  ghost connecting: set<SessionId>, ghost issued: set<SessionId>) returns (created: bool)
      requires RegistryInv(State(connecting, issued)) && session !in issued
      modifies this, coordinator, gateway
      ensures created == (transferable && now + lifetime <= UploadGuards.MAX_SAFE_INTEGER)
      ensures (var event := if created then UploadSessions.Create(upload, session, now, now + lifetime)
                            else CreateRefused(now);
               var next := Apply(old(State(connecting, issued)), event);
               RegistryInv(next) && State(next.connecting, next.issued) == next)
    {
      ghost var before := State(connecting, issued);
      created := coordinator.Create(upload, session, now, lifetime, transferable);
      if !created {
        ApplyKeeps(before, CreateRefused(now));
        return;
      }
      ApplyKeeps(before, UploadSessions.Create(upload, session, now, now + lifetime));
      if upload in byUpload {
        CloseSession(byUpload[upload], true, sends);
      }
      byUpload := byUpload[upload := session];
    }

    /** A signaling message goes to the session it names; the connection it came over closes with it. */
    method AcceptInbound(via: SessionId, named: SessionId, closes: bool, now: int)
      modifies coordinator, gateway
      ensures State({}, {}) == Apply(old(State({}, {})), Inbound(via, named, closes, now))
      ensures (var accepted := named in old(coordinator.sessions) && now < old(coordinator.sessions)[named].expires;
               && gateway.connections
                  == (if accepted && !closes then old(gateway.connections) else old(gateway.connections) - {via})
               && coordinator.sessions
                  == (if accepted && !closes then old(coordinator.sessions) else old(coordinator.sessions) - {named}))
    {
      var accepted := coordinator.Accept(named, closes, now);
      if !accepted || closes {
        gateway.Close(via);
      }
      if !(named in old(coordinator.sessions)) {
        Absent(old(coordinator.sessions), named);
      }
    }

    /** A failed direct connection closes its session but leaves the upload's entry behind. */
    method CloseFailedDirectSession(session: SessionId, sends: bool)
      modifies coordinator, gateway
      ensures State({}, {}) == Apply(old(State({}, {})), DirectFailed(session))
      ensures coordinator.sessions == old(coordinator.sessions) - {session}
      ensures gateway.connections
           == if session in old(coordinator.sessions) then old(gateway.connections) - {session} else old(gateway.connections)
    {
      var wasLive := coordinator.Abort(session);
      if wasLive {
        var _ := gateway.ForwardClose(session, sends);
      } else {
        assert old(coordinator.sessions) - {session} == old(coordinator.sessions);
      }
    }
  }
}
