/** The session hooks run to their end: what a start and an end leave in the state files, in the registry
    and with the control plane, whatever fails on the way. */
module Hooks {
  import opened JsonGrammar
  import opened Registry
  import opened Lifecycle

  /** How the calls made by an end turn out: does the daemon answer, is the state file written, does revoking succeed. */
  datatype EndAnswers = EndAnswers(reached: bool, saves: bool, revokes: bool)

  /** How the calls made by a start turn out; `minted` is absent when creating the credential fails. */
  datatype StartAnswers = StartAnswers(resetting: bool, end: EndAnswers, agent: string, minted: Option<Session>,
                                       routes: bool, sameAgent: bool, resettingNow: bool, saves: bool,
                                       reached: bool, revokes: bool)

  /** The registry's session for a state file's handle, when the daemon answers and returns it to this id. */
  function Current(sessions: Sessions, sid: string, saved: Saved, reached: bool): Option<Session> {
    if reached && IsHandle(saved.handle) && saved.handle in sessions && sessions[saved.handle].sid in {"", sid}
    then Some(sessions[saved.handle]) else None
  }

  function ToRevoke(sessions: Sessions, sid: string, saved: Saved, reached: bool): nat {
    var current := Current(sessions, sid, saved, reached);
    if current.Some? then current.value.ulid else saved.ulid
  }

  /** The registry after an end got through to the daemon, or did not. */
  function WithoutSaved(sessions: Sessions, saved: Saved, reached: bool): Sessions {
    if reached && IsHandle(saved.handle) then sessions - {saved.handle} else sessions
  }

  /** When an end succeeds: there is a session to end, the daemon answers for a usable handle and does not hold another
      session under it, and the revocation goes through. */
  predicate EndSucceeds(disk: map<string, Saved>, sessions: Sessions, sid: string, a: EndAnswers) {
    && sid in disk && a.reached && a.revokes
    && var handle := disk[sid].handle;
       0 < |handle| <= 4096 && (handle in sessions ==> sessions[handle].sid == "" || sessions[handle].sid == sid)
  }

  /** When a start gets as far as creating a credential. */
  predicate StartCreates(disk: map<string, Saved>, sessions: Sessions, sid: string, a: StartAnswers) {
    !a.resetting && a.agent != "" && a.minted.Some? && (sid in disk ==> EndSucceeds(disk, sessions, sid, a.end))
  }

  /** What has to go well before the state is saved. */
  predicate StartSaves(a: StartAnswers) {
    a.routes && a.sameAgent && !a.resettingNow && a.saves
  }

  /** When the daemon takes the new session. */
  predicate StartRegisters(handle: string, a: StartAnswers)
    requires a.minted.Some?
  {
    && a.reached && 0 < |handle| <= 4096
    && 0 < |a.minted.value.spiffe| <= 2048 && 0 < |a.minted.value.kit| <= 1048576
  }

  class Host {
    const server: Server
    var disk: map<string, Saved>
    var sent: seq<nat>

    constructor (server: Server)
      ensures this.server == server && disk == map[] && sent == []
    {
      this.server := server;
      disk := map[];
      sent := [];
    }

    /** Sends a message and reads the answer; `None` is an error. */
    method Exchange(message: Message, reached: bool, now: int) returns (answer: Option<Option<Session>>)
      requires message.Unregister? || message.Register?
      modifies server`log, server.registry
      ensures !(reached && IsValid(Request(server.secret, message, true))) ==>
                answer.None? && server.registry.m == old(server.registry.m)
      ensures reached && IsValid(Request(server.secret, message, true)) ==> answer.Some?
      ensures answer.Some? && message.Register? ==>
                server.registry.m == old(server.registry.m)[message.session.handle := message.session.(issuedAt := Some(now))]
      ensures answer.Some? && message.Unregister? ==>
                && server.registry.m == old(server.registry.m) - {message.handle}
                && answer.value == if message.handle in old(server.registry.m) then Some(old(server.registry.m)[message.handle]) else None
    {
      if !reached { return None; }
      server.Handle(Request(server.secret, message, true), now);
      match server.log[|server.log| - 1]
      case Acked(snapshot) => return Some(snapshot);
      case _ => return None;
    }

    /** An end revokes the credential the registry held, or the saved one when the daemon has none to give;
        the state file goes exactly when nothing failed, and otherwise names the credential to revoke again. */
    method SessionEnd(sid: string, a: EndAnswers, now: int) returns (ok: bool)
      modifies this, server`log, server.registry
      ensures ok <==> EndSucceeds(old(disk), old(server.registry.m), sid, a)
      ensures sid !in old(disk) ==> disk == old(disk) && sent == old(sent) && server.registry.m == old(server.registry.m)
      ensures sid in old(disk) ==>
                var saved := old(disk)[sid];
                var revoked := ToRevoke(old(server.registry.m), sid, saved, a.reached);
                && sent == old(sent) + [revoked]
                && server.registry.m == WithoutSaved(old(server.registry.m), saved, a.reached)
                && (ok ==> saved.handle !in server.registry.m)
                && disk == if ok then old(disk) - {sid}
                           else old(disk)[sid := saved.(ulid := if a.saves then revoked else saved.ulid)]
    {
      if sid !in disk { return false; }
      var saved := disk[sid];
      var ulid := saved.ulid;
      var answer := Exchange(Unregister(saved.handle), a.reached, now);
      var failed := answer.None?;
      if answer.Some? && answer.value.Some? {
        var session := answer.value.value;
        if session.sid != "" && session.sid != sid {
          failed := true;
        } else {
          ulid := session.ulid;
          if a.saves { disk := disk[sid := saved.(ulid := ulid)]; }
        }
      }
      sent := sent + [ulid];
      if !a.revokes || failed { return false; }
      disk := disk - {sid};
      return true;
    }

    /** A start first ends the session it replaces. It succeeds, exactly when every step does, with the new credential both
        saved and registered; otherwise a credential it created is revoked and nothing of it is registered, and it stays in
        the state file only for a retry of a revocation that failed. */
    method SessionStart(sid: string, handle: string, a: StartAnswers, now: int) returns (ok: bool, created: bool)
      modifies this, server`log, server.registry
      ensures created <==> StartCreates(old(disk), old(server.registry.m), sid, a)
      ensures ok <==> created && StartSaves(a) && StartRegisters(handle, a)
      ensures var ends := !a.resetting && sid in old(disk);
              var ended := if ends then [ToRevoke(old(server.registry.m), sid, old(disk)[sid], a.end.reached)] else [];
              var left := if ends then WithoutSaved(old(server.registry.m), old(disk)[sid], a.end.reached) else old(server.registry.m);
              && sent == old(sent) + ended + (if created && !ok then [a.minted.value.ulid] else [])
              && server.registry.m == if !ok then left
                 else left[handle := a.minted.value.(handle := handle, sid := sid, agent := a.agent, owner := NO_OWNER, issuedAt := Some(now))]
      ensures created ==> (sid in disk <==> ok || (StartSaves(a) && !a.revokes))
      ensures created && sid in disk ==> disk[sid] == Saved(handle, a.minted.value.ulid, NO_OWNER)
      ensures forall other :: other != sid ==> (other in disk <==> other in old(disk)) && (other in disk ==> disk[other] == old(disk)[other])
    {
      created := false;
      if a.resetting { return false, created; }
      if sid in disk {
        var ended := SessionEnd(sid, a.end, now);
        if !ended { return false, created; }
      }
      if a.agent == "" || a.minted.None? { return false, created; }
      var minted := a.minted.value;
      created := true;
      if !a.routes || !a.sameAgent || a.resettingNow {
        sent := sent + [minted.ulid];
        return false, created;
      }
      if !a.saves {
        sent := sent + [minted.ulid];
        disk := disk - {sid};
        return false, created;
      }
      disk := disk[sid := Saved(handle, minted.ulid, NO_OWNER)];
      var session := minted.(handle := handle, sid := sid, agent := a.agent, owner := NO_OWNER);
      var answer := Exchange(Message.Register(session), a.reached, now);
      if answer.None? {
        sent := sent + [minted.ulid];
        if a.revokes { disk := disk - {sid}; }
        return false, created;
      }
      return true, created;
    }
  }
}
