/** The life of session credentials: session starts and ends, owner updates, background renewal and retirement,
    as steps of processes that share the daemon's registry and the state files. The control plane and the
    scheduler are arbitrary; a created credential is new. */
module Lifecycle {
  import opened JsonGrammar
  import opened Registry

  /** A state file. */
  datatype Saved = Saved(handle: string, ulid: nat, owner: Owner)

  /** What a successful revocation cleans up. */
  datatype Cleanup = Keep | Remove(sid: string)

  datatype Proc =
    | Starting(sid: string, handle: string, ulid: nat)      // created, routes not yet accepted
    | Registering(sid: string, handle: string, ulid: nat)   // state file written
    | Ending(sid: string, saved: Saved)                     // state file read
    | Answered(sid: string, saved: Saved, session: Session) // the daemon returned its session
    | Updating(sid: string, saved: Saved, owner: Owner)
    | Setting(handle: string, owner: Owner)
    | Renewing(snapshot: Session)
    | Renewed(snapshot: Session, ulid: nat)                 // replacement created, not yet swapped in
    | Retiring(snapshot: Session)
    | Revoking(ulid: nat, cleanup: Cleanup)
    | Done

  /** `replaced` holds a pair for each replacement created; `taken` the credentials that left the registry at a
      session's end; `overwritten` those another registration of the same handle pushed out. */
  datatype Past = Past(sent: set<nat>, replaced: set<(nat, nat)>, taken: set<nat>, overwritten: set<nat>)

  /** `bound` says which session id each handle was ever bound for; credentials are numbered below `next`. */
  datatype State = State(registry: Sessions, disk: map<string, Saved>, procs: seq<Proc>, bound: map<string, string>, next: nat, past: Past)

  const INITIAL := State(map[], map[], [], map[], 0, Past({}, {}, {}, {}))

  datatype Action =
    | Start(sid: string, handle: string)
    | StartSave(i: nat)
    | StartRegister(i: nat, like: Session)
    | StartFail(i: nat, clears: bool)
    | EndLoad(sid: string)
    | EndTake(i: nat)
    | EndUnanswered(i: nat)
    | EndSave(i: nat)
    | OwnerLoad(sid: string, owner: Owner)
    | OwnerSave(i: nat)
    | OwnerSet(i: nat)
    | RenewSnapshot(handle: string)
    | RenewCreate(i: nat)
    | RenewAbort(i: nat)
    | RenewSwap(i: nat, like: Session, persists: bool)
    | RetireSnapshot(handle: string)
    | RetireTake(i: nat)
    | Revoke(i: nat, ok: bool)

  predicate Enabled(s: State, a: Action) {
    match a
    // A handle is new, or the one cgroup path of its session id.
    case Start(sid, handle) => handle in s.bound ==> s.bound[handle] == sid
    case StartSave(i) => i < |s.procs| && s.procs[i].Starting?
    case StartRegister(i, _) => i < |s.procs| && s.procs[i].Registering?
    case StartFail(i, _) => i < |s.procs| && (s.procs[i].Starting? || s.procs[i].Registering?)
    case EndLoad(sid) => sid in s.disk
    case EndTake(i) => i < |s.procs| && s.procs[i].Ending?
    case EndUnanswered(i) => i < |s.procs| && s.procs[i].Ending?
    case EndSave(i) => i < |s.procs| && s.procs[i].Answered?
    case OwnerLoad(sid, _) => sid in s.disk
    case OwnerSave(i) => i < |s.procs| && s.procs[i].Updating?
    case OwnerSet(i) => i < |s.procs| && s.procs[i].Setting?
    case RenewSnapshot(handle) => handle in s.registry
    case RenewCreate(i) => i < |s.procs| && s.procs[i].Renewing?
    case RenewAbort(i) => i < |s.procs| && (s.procs[i].Renewing? || s.procs[i].Renewed?)
    case RenewSwap(i, _, _) => i < |s.procs| && s.procs[i].Renewed?
    case RetireSnapshot(handle) => handle in s.registry
    case RetireTake(i) => i < |s.procs| && s.procs[i].Retiring?
    case Revoke(i, _) => i < |s.procs| && s.procs[i].Revoking?
  }

  function Add(s: State, p: Proc): State {
    s.(procs := s.procs + [p])
  }

  function Becomes(s: State, i: nat, p: Proc): State
    requires i < |s.procs|
  {
    s.(procs := s.procs[i := p])
  }

  function DoStart(s: State, sid: string, handle: string): State {
    Add(s, Starting(sid, handle, s.next)).(next := s.next + 1, bound := s.bound[handle := sid])
  }

  function DoSave(s: State, i: nat): State
    requires Enabled(s, StartSave(i))
  {
    var p := s.procs[i];
    Becomes(s, i, Registering(p.sid, p.handle, p.ulid)).(disk := s.disk[p.sid := Saved(p.handle, p.ulid, NO_OWNER)])
  }

  function DoRegister(s: State, i: nat, like: Session): State
    requires Enabled(s, StartRegister(i, like))
  {
    var p := s.procs[i];
    var session := like.(handle := p.handle, sid := p.sid, ulid := p.ulid, owner := NO_OWNER);
    var out := if p.handle in s.registry then {s.registry[p.handle].ulid} else {};
    Becomes(s, i, Done).(registry := s.registry[p.handle := session], past := s.past.(overwritten := s.past.overwritten + out))
  }

  function DoStartFail(s: State, i: nat, clears: bool): State
    requires Enabled(s, StartFail(i, clears))
  {
    Becomes(s, i, Revoking(s.procs[i].ulid, if clears then Remove(s.procs[i].sid) else Keep))
  }

  /** The session leaves the registry. */
  function Taken(s: State, handle: string): State
    requires handle in s.registry
  {
    s.(registry := s.registry - {handle}, past := s.past.(taken := s.past.taken + {s.registry[handle].ulid}))
  }

  /** A session returned under another id is not revoked; the saved credential is. */
  function DoEndTake(s: State, i: nat): State
    requires Enabled(s, EndTake(i))
  {
    var p := s.procs[i];
    if p.saved.handle !in s.registry then Becomes(s, i, Revoking(p.saved.ulid, Remove(p.sid)))
    else
      var session := s.registry[p.saved.handle];
      Becomes(Taken(s, p.saved.handle), i,
        if session.sid != "" && session.sid != p.sid then Revoking(p.saved.ulid, Keep) else Answered(p.sid, p.saved, session))
  }

  function DoEndSave(s: State, i: nat): State
    requires Enabled(s, EndSave(i))
  {
    var p := s.procs[i];
    Becomes(s, i, Revoking(p.session.ulid, Remove(p.sid))).(disk := s.disk[p.sid := p.saved.(ulid := p.session.ulid)])
  }

  function DoOwnerSave(s: State, i: nat): State
    requires Enabled(s, OwnerSave(i))
  {
    var p := s.procs[i];
    Becomes(s, i, Setting(p.saved.handle, p.owner)).(disk := s.disk[p.sid := p.saved.(owner := p.owner)])
  }

  function DoRenewCreate(s: State, i: nat): State
    requires Enabled(s, RenewCreate(i))
  {
    var p := s.procs[i];
    Becomes(s, i, Renewed(p.snapshot, s.next))
      .(next := s.next + 1, past := s.past.(replaced := s.past.replaced + {(p.snapshot.ulid, s.next)}))
  }

  function DoRenewAbort(s: State, i: nat): State
    requires Enabled(s, RenewAbort(i))
  {
    Becomes(s, i, if s.procs[i].Renewing? then Done else Revoking(s.procs[i].ulid, Keep))
  }

  /** The renewed session keeps the owner of the snapshot. */
  function Replacement(snapshot: Session, ulid: nat, like: Session): Session {
    like.(handle := snapshot.handle, sid := snapshot.sid, agent := snapshot.agent, ulid := ulid, owner := snapshot.owner)
  }

  function DoRenewSwap(s: State, i: nat, like: Session, persists: bool): State
    requires Enabled(s, RenewSwap(i, like, persists))
  {
    var p := s.procs[i];
    var was := p.snapshot;
    if IsCurrent(s.registry, was.handle, was.ulid) then
      Becomes(s, i, Done)
        .(registry := s.registry[was.handle := Replacement(was, p.ulid, like)],
          disk := if persists && was.sid != "" then s.disk[was.sid := Saved(was.handle, p.ulid, was.owner)] else s.disk)
    else Becomes(s, i, Revoking(p.ulid, Keep))
  }

  function DoRetireTake(s: State, i: nat): State
    requires Enabled(s, RetireTake(i))
  {
    var handle := s.procs[i].snapshot.handle;
    if handle !in s.registry then Becomes(s, i, Done)
    else
      var session := s.registry[handle];
      Becomes(Taken(s, handle), i, Revoking(session.ulid, if session.sid != "" then Remove(session.sid) else Keep))
  }

  function DoRevoke(s: State, i: nat, ok: bool): State
    requires Enabled(s, Revoke(i, ok))
  {
    var p := s.procs[i];
    Becomes(s, i, Done)
      .(disk := if ok && p.cleanup.Remove? then s.disk - {p.cleanup.sid} else s.disk, past := s.past.(sent := s.past.sent + {p.ulid}))
  }

  function Step(s: State, a: Action): State
    requires Enabled(s, a)
  {
    match a
    case Start(sid, handle) => DoStart(s, sid, handle)
    case StartSave(i) => DoSave(s, i)
    case StartRegister(i, like) => DoRegister(s, i, like)
    case StartFail(i, clears) => DoStartFail(s, i, clears)
    case EndLoad(sid) => Add(s, Ending(sid, s.disk[sid]))
    case EndTake(i) => DoEndTake(s, i)
    case EndUnanswered(i) => Becomes(s, i, Revoking(s.procs[i].saved.ulid, Keep))
    case EndSave(i) => DoEndSave(s, i)
    case OwnerLoad(sid, owner) => Add(s, Updating(sid, s.disk[sid], owner))
    case OwnerSave(i) => DoOwnerSave(s, i)
    case OwnerSet(i) => Becomes(s, i, Done).(registry := Owned(s.registry, s.procs[i].handle, s.procs[i].owner))
    case RenewSnapshot(handle) => Add(s, Renewing(s.registry[handle]))
    case RenewCreate(i) => DoRenewCreate(s, i)
    case RenewAbort(i) => DoRenewAbort(s, i)
    case RenewSwap(i, like, persists) => DoRenewSwap(s, i, like, persists)
    case RetireSnapshot(handle) => Add(s, Retiring(s.registry[handle]))
    case RetireTake(i) => DoRetireTake(s, i)
    case Revoke(i, ok) => DoRevoke(s, i, ok)
  }
}
