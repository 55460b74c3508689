/** The daemon's session registry and the socket server that applies hook messages to it. */
module Registry {
  import opened JsonGrammar

  datatype Owner = Owner(pid: int, managed: bool, identity: string)

  const NO_OWNER := Owner(0, false, "")

  /** Times are nanoseconds; `issuedAt` and `expiresAt` are absent when zero or unreadable. */
  datatype Session = Session(handle: string, sid: string, agent: string, ulid: nat, spiffe: string, kit: string,
                             expiresAt: Option<int>, issuedAt: Option<int>, owner: Owner)

  type Sessions = map<string, Session>

  // ----- what the registry operations do, as functions of its map -----

  function Owned(sessions: Sessions, handle: string, owner: Owner): Sessions {
    if handle in sessions then sessions[handle := sessions[handle].(owner := owner)] else sessions
  }

  predicate IsCurrent(sessions: Sessions, handle: string, ulid: nat) {
    handle in sessions && sessions[handle].ulid == ulid
  }

  predicate IsKeyed(sessions: Sessions) {
    forall h :: h in sessions ==> sessions[h].handle == h
  }

  class SessionRegistry {
    var m: Sessions

    constructor ()
      ensures m == map[]
    {
      m := map[];
    }

    method Register(s: Session)
      modifies this
      ensures m == old(m)[s.handle := s]
      ensures IsKeyed(old(m)) ==> IsKeyed(m)
    {
      m := m[s.handle := s];
    }

    method Take(handle: string) returns (taken: Option<Session>)
      modifies this
      ensures taken == if handle in old(m) then Some(old(m)[handle]) else None
      ensures m == old(m) - {handle}
    {
      taken := None;
      if handle in m {
        taken := Some(m[handle]);
        m := m - {handle};
      }
    }

    method SetOwner(handle: string, owner: Owner) returns (ok: bool)
      modifies this
      ensures ok == (handle in old(m)) && m == Owned(old(m), handle, owner)
      ensures IsKeyed(old(m)) ==> IsKeyed(m)
    {
      ok := handle in m;
      if ok { m := m[handle := m[handle].(owner := owner)]; }
    }

    /** Every session exactly once. */
    method Snapshot() returns (sessions: seq<Session>)
      requires IsKeyed(m)
      ensures forall s :: s in sessions <==> s.handle in m && m[s.handle] == s
      ensures forall i, j :: 0 <= i < j < |sessions| ==> sessions[i].handle != sessions[j].handle
    {
      sessions := [];
      var rest := m.Keys;
      while rest != {}
        invariant rest <= m.Keys
        invariant forall s :: s in sessions <==> s.handle in m && s.handle !in rest && m[s.handle] == s
        invariant forall i, j :: 0 <= i < j < |sessions| ==> sessions[i].handle != sessions[j].handle
        decreases |rest|
      {
        var h :| h in rest;
        sessions := sessions + [m[h]];
        rest := rest - {h};
      }
    }

    /** The swap happens only while the handle still holds the expected credential; the write of the
        durable state, whose outcome is `persists`, falls inside it. */
    method ReplaceWith(handle: string, expected: nat, next: Session, persists: bool) returns (replaced: bool, written: bool)
      requires next.handle == handle
      modifies this
      ensures replaced == IsCurrent(old(m), handle, expected) && written == (replaced && persists)
      ensures m == if replaced then old(m)[handle := next] else old(m)
      ensures IsKeyed(old(m)) ==> IsKeyed(m)
    {
      if handle !in m || m[handle].ulid != expected { return false, false; }
      m := m[handle := next];
      return true, persists;
    }
  }

  // ----- the socket server -----

  datatype Message =
    | Register(session: Session)
    | UpdateOwner(handle: string, owner: Owner)
    | Unregister(handle: string)
    | Lookup(handle: string)
    | Health

  datatype Request = Unreadable | Request(auth: string, message: Message, routesValid: bool)

  const MAX_HANDLE: nat := 4096
  const MAX_SPIFFE: nat := 2048
  const MAX_KIT: nat := 0x10_0000
  const MAX_IDENTITY: nat := 512

  predicate IsHandle(handle: string) {
    0 < |handle| <= MAX_HANDLE
  }

  predicate IsValid(request: Request)
    requires request.Request?
  {
    match request.message
    case Register(s) => IsHandle(s.handle) && 0 < |s.spiffe| <= MAX_SPIFFE && 0 < |s.kit| <= MAX_KIT && request.routesValid
    case UpdateOwner(handle, owner) => IsHandle(handle) && 0 < owner.pid && |owner.identity| <= MAX_IDENTITY
    case Unregister(handle) => IsHandle(handle)
    case Lookup(handle) => IsHandle(handle)
    case Health => true
  }

  /** What the server does outside the registry, in order. */
  datatype Effect =
    | Flushed(session: Session)
    | Refused
    | Acked(snapshot: Option<Session>)
    | Healthy(sessions: nat)

  class Server {
    const registry: SessionRegistry
    const secret: string
    var log: seq<Effect>

    constructor (registry: SessionRegistry, secret: string)
      requires secret != ""
      ensures this.registry == registry && this.secret == secret && log == []
    {
      this.registry := registry;
      this.secret := secret;
      log := [];
    }

    /** Only an authenticated, valid message touches the registry. A departing session is flushed
        after it left the registry and before the acknowledgement that lets the hook revoke it. */
    method Handle(request: Request, now: int)
      modifies this`log, registry
      ensures !(request.Request? && request.auth == secret && IsValid(request)) ==>
                registry.m == old(registry.m) && log == old(log) + [Refused]
      ensures request.Request? && request.auth == secret && IsValid(request) ==>
                match request.message
                case Register(s) =>
                  registry.m == old(registry.m)[s.handle := s.(issuedAt := Some(now))] && log == old(log) + [Acked(None)]
                case UpdateOwner(handle, owner) =>
                  registry.m == Owned(old(registry.m), handle, owner) && log == old(log) + [Acked(None)]
                case Unregister(handle) =>
                  && registry.m == old(registry.m) - {handle}
                  && (handle !in old(registry.m) ==> log == old(log) + [Acked(None)])
                  && (handle in old(registry.m) ==>
                        log == old(log) + [Flushed(old(registry.m)[handle]), Acked(Some(old(registry.m)[handle]))])
                case Lookup(handle) =>
                  && registry.m == old(registry.m)
                  && log == old(log) + [if handle in registry.m then Acked(Some(registry.m[handle])) else Refused]
                case Health => registry.m == old(registry.m) && log == old(log) + [Healthy(|registry.m|)]
    {
      if request.Unreadable? || request.auth != secret || !IsValid(request) {
        log := log + [Refused];
        return;
      }
      var snapshot := None;
      match request.message {
      case Register(s) =>
        registry.Register(s.(issuedAt := Some(now)));
      case UpdateOwner(handle, owner) =>
        var _ := registry.SetOwner(handle, owner);
      case Unregister(handle) =>
        snapshot := registry.Take(handle);
        if snapshot.Some? { log := log + [Flushed(snapshot.value)]; }
      case Lookup(handle) =>
        if handle !in registry.m {
          log := log + [Refused];
          return;
        }
        snapshot := Some(registry.m[handle]);
      case Health =>
        log := log + [Healthy(|registry.m|)];
        return;
      }
      log := log + [Acked(snapshot)];
    }
  }
}
