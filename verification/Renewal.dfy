/** The daemon's renewal loop: when a session is due, and which managed sessions a tick renews or retires. */
module Renewal {
  import opened JsonGrammar
  import opened Registry

  const SECOND: int := 1_000_000_000
  const POLL: int := 30 * SECOND
  const MAX_WINDOW: int := 300 * SECOND
  const MIN_WINDOW: int := 10 * SECOND

  // ----- when a session is due -----

  /** How long before its end a session is renewed. */
  function Window(session: Session): (w: int)
    requires session.expiresAt.Some?
    ensures MIN_WINDOW <= w <= MAX_WINDOW
  {
    var end := session.expiresAt.value;
    var w := if session.issuedAt.Some? && session.issuedAt.value < end && (end - session.issuedAt.value) / 3 < MAX_WINDOW
             then (end - session.issuedAt.value) / 3 else MAX_WINDOW;
    if w < MIN_WINDOW then MIN_WINDOW else w
  }

  predicate IsDue(session: Session, now: int) {
    session.expiresAt.None? || session.expiresAt.value <= now + Window(session)
  }

  lemma DueStays(session: Session, now: int, later: int)
    requires IsDue(session, now) && now <= later
    ensures IsDue(session, later)
  {
  }

  predicate HasLifetime(session: Session, lifetime: int) {
    session.issuedAt.Some? && session.expiresAt == Some(session.issuedAt.value + lifetime)
  }

  /** When a session is due, by how much of its life is left: always without a readable end; in the last five minutes when its
      life is long or unknown; otherwise in the last third, but never less than ten seconds. */
  lemma DueExactly(session: Session, lifetime: int, now: int)
    requires session.issuedAt.Some? && session.expiresAt.Some? ==> HasLifetime(session, lifetime)
    ensures session.expiresAt.None? ==> IsDue(session, now)
    ensures session.expiresAt.Some? ==>
              var left := session.expiresAt.value - now;
              IsDue(session, now) <==>
                if session.issuedAt.None? || lifetime <= 0 || lifetime >= 900 * SECOND then left <= 300 * SECOND
                else if lifetime >= 30 * SECOND then 3 * left <= lifetime
                else left <= 10 * SECOND
  {
  }

  /** A session that lives at least 30 s is not due in the first two thirds of its life. */
  lemma NotDueEarly(session: Session, lifetime: int, now: int)
    requires HasLifetime(session, lifetime) && lifetime >= 30 * SECOND
    requires 3 * (now - session.issuedAt.value) < 2 * lifetime
    ensures !IsDue(session, now)
  {
  }

  /** When the loop ticks every 30 s, a session that lives at least 90 s is due at a tick before its end. */
  lemma DueInTime(session: Session, lifetime: int, first: int) returns (k: nat)
    requires HasLifetime(session, lifetime) && lifetime >= 90 * SECOND
    requires session.issuedAt.value <= first <= session.issuedAt.value + POLL
    ensures IsDue(session, first + k * POLL) && first + k * POLL < session.expiresAt.value
  {
    k := 0;
    while first + (k + 1) * POLL < session.expiresAt.value
      invariant first + k * POLL < session.expiresAt.value
      decreases session.expiresAt.value - first - k * POLL
    {
      k := k + 1;
    }
  }

  /** For a shorter life, some phase of the ticks has none in which the session is due before its end. */
  lemma ShorterMayBeLate(lifetime: int) returns (session: Session, first: int)
    requires 0 < lifetime < 90 * SECOND
    ensures HasLifetime(session, lifetime)
    ensures session.issuedAt.value <= first <= session.issuedAt.value + POLL
    ensures forall k: nat :: first + k * POLL < session.expiresAt.value ==> !IsDue(session, first + k * POLL)
  {
    session := Session("h", "s", "", 0, "", "", Some(lifetime), Some(0), NO_OWNER);
    first := lifetime % POLL;
    forall k: nat | first + k * POLL < lifetime ensures !IsDue(session, first + k * POLL) {
      assert lifetime - first == lifetime / POLL * POLL;
      assert k < lifetime / POLL;
      assert k * POLL <= lifetime - first - POLL;
    }
  }

  // ----- one tick -----

  datatype Finding = Alive | Dead | Unknown

  /** What a tick sees: the registered sessions by handle, and what the check of each owner process says. */
  datatype Tick = Tick(now: int, sessions: Sessions, owners: map<string, Finding>)

  predicate IsTick(t: Tick) {
    IsKeyed(t.sessions) && t.owners.Keys == t.sessions.Keys
  }

  predicate IsVerifiable(session: Session) {
    session.owner.managed && session.owner.pid > 0 && session.owner.identity != ""
  }

  predicate Found(t: Tick, handle: string, finding: Finding)
    requires IsTick(t)
  {
    handle in t.sessions && IsVerifiable(t.sessions[handle]) && t.owners[handle] == finding
  }

  /** Since when the owner of each handle has been seen dead. */
  type DeadOwners = map<string, int>

  predicate IsRetired(dead: DeadOwners, t: Tick, handle: string)
    requires IsTick(t)
  {
    Found(t, handle, Dead) && handle in dead && t.now - dead[handle] >= POLL
  }

  predicate IsRenewed(t: Tick, handle: string)
    requires IsTick(t)
  {
    handle in t.sessions && (t.sessions[handle].owner.managed ==> Found(t, handle, Alive)) && IsDue(t.sessions[handle], t.now)
  }

  function SinceThen(dead: DeadOwners, t: Tick, handle: string): Option<int>
    requires IsTick(t)
  {
    if handle !in t.sessions || Found(t, handle, Alive) || IsRetired(dead, t, handle) then None
    else if handle in dead then Some(dead[handle])
    else if Found(t, handle, Dead) then Some(t.now) else None
  }

  function After(dead: DeadOwners, t: Tick): DeadOwners
    requires IsTick(t)
  {
    map h | h in t.sessions && SinceThen(dead, t, h).Some? :: SinceThen(dead, t, h).value
  }

  function Entry(dead: DeadOwners, handle: string): Option<int> {
    if handle in dead then Some(dead[handle]) else None
  }

  datatype Effect = Retire(session: Session) | Renew(session: Session)

  /** What a tick does about one session. */
  function EffectFor(dead: DeadOwners, t: Tick, session: Session): Option<Effect>
    requires IsTick(t)
  {
    if IsRetired(dead, t, session.handle) then Some(Retire(session))
    else if IsRenewed(t, session.handle) then Some(Renew(session)) else None
  }

  function EffectsFor(dead: DeadOwners, t: Tick, sessions: seq<Session>): seq<Effect>
    requires IsTick(t)
  {
    if sessions == [] then []
    else
      var effect := EffectFor(dead, t, sessions[|sessions| - 1]);
      EffectsFor(dead, t, sessions[..|sessions| - 1]) + if effect.Some? then [effect.value] else []
  }

  lemma {:induction false} EffectsAreFor(dead: DeadOwners, t: Tick, sessions: seq<Session>)
    requires IsTick(t) && forall i, j :: 0 <= i < j < |sessions| ==> sessions[i].handle != sessions[j].handle
    ensures var effects := EffectsFor(dead, t, sessions);
            && (forall e :: e in effects <==> e.session in sessions && EffectFor(dead, t, e.session) == Some(e))
            && forall i, j :: 0 <= i < j < |effects| ==> effects[i].session.handle != effects[j].session.handle
  {
    if sessions != [] {
      var front, last := sessions[..|sessions| - 1], sessions[|sessions| - 1];
      EffectsAreFor(dead, t, front);
      var effects := EffectsFor(dead, t, front);
      assert sessions == front + [last];
      forall i | 0 <= i < |effects| ensures effects[i].session.handle != last.handle {
        assert effects[i] in effects;
      }
    }
  }

  class RenewalLoop {
    var deadOwners: DeadOwners

    constructor ()
      ensures deadOwners == map[]
    {
      deadOwners := map[];
    }

    method Visit(t: Tick, session: Session) returns (effect: Option<Effect>)
      requires IsTick(t) && session.handle in t.sessions && t.sessions[session.handle] == session
      modifies this
      ensures Entry(deadOwners, session.handle) == SinceThen(old(deadOwners), t, session.handle)
      ensures forall h :: h != session.handle ==> Entry(deadOwners, h) == old(Entry(deadOwners, h))
      ensures effect == EffectFor(old(deadOwners), t, session)
    {
      var h := session.handle;
      if session.owner.managed {
        if session.owner.pid <= 0 || session.owner.identity == "" || t.owners[h] == Unknown { return None; }
        if t.owners[h] == Dead {
          if h !in deadOwners {
            deadOwners := deadOwners[h := t.now];
            return None;
          }
          if t.now - deadOwners[h] < POLL { return None; }
          deadOwners := deadOwners - {h};
          return Some(Retire(session));
        }
        deadOwners := deadOwners - {h};
      }
      return if IsDue(session, t.now) then Some(Renew(session)) else None;
    }

    /** Visits the sessions of a snapshot, one after the other. */
    method VisitAll(t: Tick, snapshot: seq<Session>) returns (effects: seq<Effect>)
      requires IsTick(t) && forall i :: 0 <= i < |snapshot| ==> snapshot[i].handle in t.sessions && t.sessions[snapshot[i].handle] == snapshot[i]
      requires forall i, j :: 0 <= i < j < |snapshot| ==> snapshot[i].handle != snapshot[j].handle
      modifies this
      ensures forall i :: 0 <= i < |snapshot| ==> Entry(deadOwners, snapshot[i].handle) == SinceThen(old(deadOwners), t, snapshot[i].handle)
      ensures effects == EffectsFor(old(deadOwners), t, snapshot)
    {
      ghost var was := deadOwners;
      effects := [];
      for k := 0 to |snapshot|
        invariant forall i :: k <= i < |snapshot| ==> Entry(deadOwners, snapshot[i].handle) == Entry(was, snapshot[i].handle)
        invariant forall i :: 0 <= i < k ==> Entry(deadOwners, snapshot[i].handle) == SinceThen(was, t, snapshot[i].handle)
        invariant effects == EffectsFor(was, t, snapshot[..k])
      {
        var session := snapshot[k];
        SameEntry(deadOwners, was, t, session.handle);
        EffectsMore(was, t, snapshot, k);
        var effect := Visit(t, session);
        if effect.Some? { effects := effects + [effect.value]; }
      }
      assert snapshot[..|snapshot|] == snapshot;
    }

    /** One pass over a snapshot of the registry: exactly the retirements and renewals that are due, each session once. */
    method RunTick(t: Tick, snapshot: seq<Session>) returns (effects: seq<Effect>)
      requires IsTick(t)
      requires forall s :: s in snapshot <==> s.handle in t.sessions && t.sessions[s.handle] == s
      requires forall i, j :: 0 <= i < j < |snapshot| ==> snapshot[i].handle != snapshot[j].handle
      modifies this
      ensures deadOwners == After(old(deadOwners), t)
      ensures effects == EffectsFor(old(deadOwners), t, snapshot)
      ensures forall s :: Retire(s) in effects <==> s in snapshot && IsRetired(old(deadOwners), t, s.handle)
      ensures forall s :: Renew(s) in effects <==> s in snapshot && IsRenewed(t, s.handle)
      ensures forall i, j :: 0 <= i < j < |effects| ==> effects[i].session.handle != effects[j].session.handle
    {
      ghost var was := deadOwners;
      effects := VisitAll(t, snapshot);
      TickEffects(was, t, snapshot);
      deadOwners := map h | h in deadOwners && h in t.sessions :: deadOwners[h];
      forall h ensures Entry(deadOwners, h) == Entry(After(was, t), h) {
        if h in t.sessions { assert t.sessions[h] in snapshot; }
      }
      SameEntries(deadOwners, After(was, t));
    }
  }

  lemma EffectsMore(dead: DeadOwners, t: Tick, sessions: seq<Session>, k: nat)
    requires IsTick(t) && k < |sessions|
    ensures var effect := EffectFor(dead, t, sessions[k]);
            EffectsFor(dead, t, sessions[..k + 1]) == EffectsFor(dead, t, sessions[..k]) + if effect.Some? then [effect.value] else []
  {
    assert sessions[..k + 1][..k] == sessions[..k];
  }

  /** Exactly the retirements and renewals that are due, each session once. */
  lemma TickEffects(dead: DeadOwners, t: Tick, snapshot: seq<Session>)
    requires IsTick(t)
    requires forall s :: s in snapshot <==> s.handle in t.sessions && t.sessions[s.handle] == s
    requires forall i, j :: 0 <= i < j < |snapshot| ==> snapshot[i].handle != snapshot[j].handle
    ensures var effects := EffectsFor(dead, t, snapshot);
            && (forall s :: Retire(s) in effects <==> s in snapshot && IsRetired(dead, t, s.handle))
            && (forall s :: Renew(s) in effects <==> s in snapshot && IsRenewed(t, s.handle))
            && forall i, j :: 0 <= i < j < |effects| ==> effects[i].session.handle != effects[j].session.handle
  {
    EffectsAreFor(dead, t, snapshot);
    forall s | s in snapshot ensures EffectFor(dead, t, s) == Some(Renew(s)) <==> IsRenewed(t, s.handle) {
      RetiredIsNotRenewed(dead, t, s.handle);
    }
  }

  lemma RetiredIsNotRenewed(dead: DeadOwners, t: Tick, handle: string)
    requires IsTick(t)
    ensures !(IsRetired(dead, t, handle) && IsRenewed(t, handle))
  {
  }

  lemma SameEntry(dead: DeadOwners, was: DeadOwners, t: Tick, handle: string)
    requires IsTick(t) && Entry(dead, handle) == Entry(was, handle)
    ensures SinceThen(dead, t, handle) == SinceThen(was, t, handle)
    ensures IsRetired(dead, t, handle) == IsRetired(was, t, handle)
  {
  }

  lemma SameEntries(a: DeadOwners, b: DeadOwners)
    requires forall h :: Entry(a, h) == Entry(b, h)
    ensures a == b
  {
    forall h ensures h in a <==> h in b { assert Entry(a, h) == Entry(b, h); }
    forall h | h in a ensures a[h] == b[h] { assert Entry(a, h) == Entry(b, h); }
  }

  // ----- any number of ticks -----

  predicate IsHistory(ticks: seq<Tick>) {
    && (forall k :: 0 <= k < |ticks| ==> IsTick(ticks[k]))
    && (forall j, k :: 0 <= j < k < |ticks| ==> ticks[j].now <= ticks[k].now)
  }

  /** What the loop remembers after the ticks, starting from nothing. */
  function Remembered(ticks: seq<Tick>): DeadOwners
    requires IsHistory(ticks)
  {
    if ticks == [] then map[] else After(Remembered(ticks[..|ticks| - 1]), ticks[|ticks| - 1])
  }

  /** The last tick retires the session of this handle. */
  predicate Retires(ticks: seq<Tick>, handle: string)
    requires IsHistory(ticks) && ticks != []
  {
    IsRetired(Remembered(ticks[..|ticks| - 1]), ticks[|ticks| - 1], handle)
  }

  /** The owner was found dead at tick `j`; since then the session stayed registered and no owner of it was found alive. */
  predicate IsDeadSince(ticks: seq<Tick>, handle: string, j: nat)
    requires IsHistory(ticks)
  {
    && j < |ticks| && Found(ticks[j], handle, Dead)
    && forall m :: j < m < |ticks| ==> handle in ticks[m].sessions && !Found(ticks[m], handle, Alive)
  }

  lemma {:induction false} RememberedIsDead(ticks: seq<Tick>, handle: string) returns (j: nat)
    requires IsHistory(ticks) && handle in Remembered(ticks)
    ensures IsDeadSince(ticks, handle, j) && ticks[j].now == Remembered(ticks)[handle]
  {
    var last := |ticks| - 1;
    var before := Remembered(ticks[..last]);
    assert SinceThen(before, ticks[last], handle) == Some(Remembered(ticks)[handle]);
    if handle in before {
      j := RememberedIsDead(ticks[..last], handle);
    } else {
      j := last;
    }
  }

  /** A session is retired only when its owner was found dead at a tick at least 30 s earlier, is found dead now,
      and was never found alive in between. */
  lemma RetiredAfterGrace(ticks: seq<Tick>, handle: string)
    requires IsHistory(ticks) && ticks != [] && Retires(ticks, handle)
    ensures Found(ticks[|ticks| - 1], handle, Dead)
    ensures exists j :: 0 <= j < |ticks| - 1 && IsDeadSince(ticks, handle, j) && ticks[|ticks| - 1].now - ticks[j].now >= POLL
  {
    var last := |ticks| - 1;
    var j := RememberedIsDead(ticks[..last], handle);
    assert IsDeadSince(ticks, handle, j);
  }

  /** Tick `j` or a later one retires the session. */
  predicate RetiresSince(ticks: seq<Tick>, handle: string, j: nat)
    requires IsHistory(ticks)
  {
    j < |ticks| && (Retires(ticks, handle) || RetiresSince(ticks[..|ticks| - 1], handle, j))
  }

  lemma {:induction false} DeadIsRemembered(ticks: seq<Tick>, handle: string, j: nat)
    requires IsHistory(ticks) && IsDeadSince(ticks, handle, j)
    ensures RetiresSince(ticks, handle, j) || (handle in Remembered(ticks) && Remembered(ticks)[handle] <= ticks[j].now)
  {
    var before := ticks[..|ticks| - 1];
    if j < |before| {
      assert IsDeadSince(before, handle, j);
      DeadIsRemembered(before, handle, j);
    } else if handle in Remembered(before) {
      var k := RememberedIsDead(before, handle);
    }
  }

  /** And it is retired by then: now, or at a tick since it was found dead. */
  lemma DeadIsRetired(ticks: seq<Tick>, handle: string, j: nat)
    requires IsHistory(ticks) && j < |ticks| - 1 && IsDeadSince(ticks, handle, j)
    requires Found(ticks[|ticks| - 1], handle, Dead) && ticks[|ticks| - 1].now - ticks[j].now >= POLL
    ensures RetiresSince(ticks, handle, j)
  {
    var before := ticks[..|ticks| - 1];
    assert IsDeadSince(before, handle, j);
    DeadIsRemembered(before, handle, j);
  }
}
