/** No credential is orphaned and no ended session comes back, in every interleaving. */
module LifecycleSafe {
  import opened JsonGrammar
  import opened Registry
  import opened Lifecycle

  // ----- who holds a credential -----

  /** A credential on its way into the registry. */
  function Incoming(p: Proc): Option<nat> {
    match p
    case Starting(_, _, u) => Some(u)
    case Registering(_, _, u) => Some(u)
    case Renewed(_, u) => Some(u)
    case _ => None
  }

  /** A credential on its way to revocation. */
  function Outgoing(p: Proc): Option<nat> {
    match p
    case Answered(_, _, session) => Some(session.ulid)
    case Revoking(u, _) => Some(u)
    case _ => None
  }

  predicate IsRegistered(s: State, u: nat) {
    exists h :: h in s.registry && s.registry[h].ulid == u
  }

  predicate IsIncoming(s: State, u: nat) {
    exists i :: 0 <= i < |s.procs| && Incoming(s.procs[i]) == Some(u)
  }

  predicate IsOutgoing(s: State, u: nat) {
    exists i :: 0 <= i < |s.procs| && Outgoing(s.procs[i]) == Some(u)
  }

  predicate IsReplaced(s: State, u: nat) {
    exists v :: u < v < s.next && (u, v) in s.past.replaced
  }

  /** Each credential ever created is registered, held by a running process, replaced, sent to revoke,
      or was pushed out of the registry by another registration of its handle. */
  predicate IsAccounted(s: State, u: nat) {
    IsRegistered(s, u) || IsIncoming(s, u) || IsOutgoing(s, u) || IsReplaced(s, u) || u in s.past.sent || u in s.past.overwritten
  }

  predicate AllAccounted(s: State) {
    forall u: nat :: u < s.next ==> IsAccounted(s, u)
  }

  /** A credential the registry gave up at a session's end is sent to revoke or about to be. */
  predicate TakenAreRevoked(s: State) {
    forall u :: u in s.past.taken ==> IsOutgoing(s, u) || u in s.past.sent
  }

  // ----- each credential has one way in -----

  predicate RegisteredOnce(s: State) {
    && (forall h :: h in s.registry ==> s.registry[h].ulid < s.next && s.registry[h].ulid !in s.past.taken)
    && (forall h, k :: h in s.registry && k in s.registry && h != k ==> s.registry[h].ulid != s.registry[k].ulid)
  }

  predicate IncomingOnce(s: State) {
    && (forall i :: 0 <= i < |s.procs| && Incoming(s.procs[i]).Some? ==>
          Incoming(s.procs[i]).value < s.next && Incoming(s.procs[i]).value !in s.past.taken)
    && (forall i, j :: 0 <= i < j < |s.procs| && Incoming(s.procs[i]).Some? ==> Incoming(s.procs[i]) != Incoming(s.procs[j]))
    && (forall i, h :: 0 <= i < |s.procs| && h in s.registry ==> Incoming(s.procs[i]) != Some(s.registry[h].ulid))
  }

  // ----- handles belong to session ids -----

  predicate IsBound(s: State, handle: string, sid: string) {
    handle in s.bound && s.bound[handle] == sid
  }

  predicate SessionFits(s: State, session: Session) {
    IsBound(s, session.handle, session.sid) && session.ulid < s.next
  }

  predicate SavedFits(s: State, sid: string, saved: Saved) {
    IsBound(s, saved.handle, sid) && saved.ulid < s.next
  }

  predicate ProcFits(s: State, p: Proc) {
    match p
    case Starting(sid, handle, u) => IsBound(s, handle, sid) && u < s.next
    case Registering(sid, handle, u) => IsBound(s, handle, sid) && u < s.next
    case Ending(sid, saved) => SavedFits(s, sid, saved)
    case Answered(sid, saved, session) => SavedFits(s, sid, saved) && session.ulid < s.next
    case Updating(sid, saved, _) => SavedFits(s, sid, saved)
    case Setting(_, _) => true
    case Renewing(snapshot) => SessionFits(s, snapshot)
    case Renewed(snapshot, u) => SessionFits(s, snapshot) && snapshot.ulid < u < s.next && (snapshot.ulid, u) in s.past.replaced
    case Retiring(snapshot) => true
    case Revoking(u, _) => u < s.next
    case Done => true
  }

  predicate RegistryFits(s: State) {
    forall h :: h in s.registry ==> SessionFits(s, s.registry[h])
  }

  predicate DiskFits(s: State) {
    forall sid :: sid in s.disk ==> SavedFits(s, sid, s.disk[sid])
  }

  predicate ProcsFit(s: State) {
    forall i :: 0 <= i < |s.procs| ==> ProcFits(s, s.procs[i])
  }

  predicate IsSound(s: State) {
    Fits(s) && Once(s) && AllAccounted(s) && TakenAreRevoked(s)
  }

  // ----- the fit of handles -----

  predicate IsLater(s: State, t: State) {
    && (forall h :: h in s.bound ==> h in t.bound && t.bound[h] == s.bound[h])
    && s.next <= t.next && s.past.replaced <= t.past.replaced
  }

  lemma StaysFitting(s: State, t: State)
    requires IsLater(s, t)
    ensures RegistryFits(s) && t.registry == s.registry ==> RegistryFits(t)
    ensures DiskFits(s) && t.disk == s.disk ==> DiskFits(t)
    ensures forall p :: ProcFits(s, p) ==> ProcFits(t, p)
  {
  }

  lemma StepIsLater(s: State, a: Action)
    requires Enabled(s, a)
    ensures IsLater(s, Step(s, a))
  {
  }

  lemma ProcStaysFitting(s: State, t: State, i: nat, p: Proc)
    requires ProcsFit(s) && IsLater(s, t) && i < |s.procs| && t.procs == s.procs[i := p] && ProcFits(t, p)
    ensures ProcsFit(t)
  {
    StaysFitting(s, t);
  }

  lemma MoreProcsFit(s: State, t: State, p: Proc)
    requires ProcsFit(s) && IsLater(s, t) && t.procs == s.procs + [p] && ProcFits(t, p)
    ensures ProcsFit(t)
  {
    StaysFitting(s, t);
  }

  predicate Fits(s: State) {
    IsKeyed(s.registry) && RegistryFits(s) && DiskFits(s) && ProcsFit(s)
  }

  predicate IsAdding(a: Action) {
    a.Start? || a.EndLoad? || a.OwnerLoad? || a.RenewSnapshot? || a.RetireSnapshot?
  }

  lemma AddingFits(s: State, a: Action)
    requires Enabled(s, a) && Fits(s) && IsAdding(a)
    ensures Fits(Step(s, a))
  {
    var t := Step(s, a);
    StepIsLater(s, a);
    StaysFitting(s, t);
    MoreProcsFit(s, t, t.procs[|s.procs|]);
  }

  lemma StartStepsFit(s: State, a: Action)
    requires Enabled(s, a) && Fits(s) && (a.StartSave? || a.StartRegister? || a.StartFail?)
    ensures Fits(Step(s, a))
  {
    var t := Step(s, a);
    StepIsLater(s, a);
    StaysFitting(s, t);
    assert ProcFits(s, s.procs[a.i]);
    ProcStaysFitting(s, t, a.i, t.procs[a.i]);
  }

  /** The registry holds a session of a handle only under the id its state file has, so the answer is never refused. */
  lemma AnswerMatches(s: State, i: nat)
    requires Fits(s) && Enabled(s, EndTake(i)) && s.procs[i].saved.handle in s.registry
    ensures s.registry[s.procs[i].saved.handle].sid == s.procs[i].sid
  {
    assert ProcFits(s, s.procs[i]);
  }

  lemma EndStepsFit(s: State, a: Action)
    requires Enabled(s, a) && Fits(s) && (a.EndTake? || a.EndUnanswered? || a.EndSave? || a.RetireTake? || a.Revoke?)
    ensures Fits(Step(s, a))
  {
    var t := Step(s, a);
    StepIsLater(s, a);
    StaysFitting(s, t);
    assert ProcFits(s, s.procs[a.i]);
    ProcStaysFitting(s, t, a.i, t.procs[a.i]);
  }

  lemma RenewStepsFit(s: State, a: Action)
    requires Enabled(s, a) && Fits(s)
    requires a.OwnerSave? || a.OwnerSet? || a.RenewCreate? || a.RenewAbort?
    ensures Fits(Step(s, a))
  {
    var t := Step(s, a);
    StepIsLater(s, a);
    StaysFitting(s, t);
    assert ProcFits(s, s.procs[a.i]);
    ProcStaysFitting(s, t, a.i, t.procs[a.i]);
  }

  lemma SwapFits(s: State, i: nat, like: Session, persists: bool)
    requires Enabled(s, RenewSwap(i, like, persists)) && Fits(s)
    ensures Fits(DoRenewSwap(s, i, like, persists))
  {
    var t := DoRenewSwap(s, i, like, persists);
    StaysFitting(s, t);
    assert ProcFits(s, s.procs[i]);
    ProcStaysFitting(s, t, i, t.procs[i]);
  }

  lemma StepFits(s: State, a: Action)
    requires Enabled(s, a) && Fits(s)
    ensures Fits(Step(s, a))
  {
    if IsAdding(a) { AddingFits(s, a); }
    else if a.StartSave? || a.StartRegister? || a.StartFail? { StartStepsFit(s, a); }
    else if a.EndTake? || a.EndUnanswered? || a.EndSave? || a.RetireTake? || a.Revoke? { EndStepsFit(s, a); }
    else if a.RenewSwap? { SwapFits(s, a.i, a.like, a.persists); }
    else { RenewStepsFit(s, a); }
  }

  // ----- each credential has one way in -----

  predicate Once(s: State) {
    RegisteredOnce(s) && IncomingOnce(s)
  }

  predicate SameUlids(a: Sessions, b: Sessions) {
    a.Keys == b.Keys && forall h :: h in a ==> a[h].ulid == b[h].ulid
  }

  lemma QuietOnce(s: State, t: State, i: nat, p: Proc)
    requires Once(s) && i < |s.procs| && t.procs == s.procs[i := p] && t.next == s.next && t.past.taken == s.past.taken
    requires Incoming(p).None? || Incoming(p) == Incoming(s.procs[i])
    requires SameUlids(s.registry, t.registry)
    ensures Once(t)
  {
  }

  lemma AddedOnce(s: State, t: State, p: Proc)
    requires Once(s) && t.procs == s.procs + [p] && s.next <= t.next && t.past.taken == s.past.taken && t.registry == s.registry
    requires Incoming(p).None? || s.next <= Incoming(p).value < t.next
    requires forall u :: u in s.past.taken ==> u < s.next
    ensures Once(t)
  {
  }

  lemma CreatedOnce(s: State, t: State, i: nat, p: Proc)
    requires Once(s) && i < |s.procs| && t.procs == s.procs[i := p] && s.next <= t.next
    requires t.past.taken == s.past.taken && t.registry == s.registry
    requires Incoming(p).Some? && s.next <= Incoming(p).value < t.next
    requires forall u :: u in s.past.taken ==> u < s.next
    ensures Once(t)
  {
  }

  lemma TakenOnce(s: State, t: State, handle: string, i: nat, p: Proc)
    requires Once(s) && handle in s.registry && i < |s.procs| && Incoming(p).None?
    requires t.registry == s.registry - {handle} && t.past.taken == s.past.taken + {s.registry[handle].ulid}
    requires t.procs == s.procs[i := p] && t.next == s.next
    ensures Once(t)
  {
  }

  lemma ArrivedOnce(s: State, t: State, handle: string, i: nat, session: Session)
    requires Once(s) && i < |s.procs| && Incoming(s.procs[i]) == Some(session.ulid)
    requires t.registry == s.registry[handle := session] && t.past.taken == s.past.taken
    requires t.procs == s.procs[i := Done] && t.next == s.next
    ensures Once(t)
  {
  }

  predicate TakenCreated(s: State) {
    forall u :: u in s.past.taken ==> u < s.next
  }

  lemma AddingOnce(s: State, a: Action)
    requires Enabled(s, a) && Once(s) && TakenCreated(s) && IsAdding(a)
    ensures Once(Step(s, a)) && TakenCreated(Step(s, a))
  {
    var t := Step(s, a);
    AddedOnce(s, t, t.procs[|s.procs|]);
  }

  lemma RegisterOnce(s: State, i: nat, like: Session)
    requires Enabled(s, StartRegister(i, like)) && Once(s)
    ensures Once(DoRegister(s, i, like))
  {
    var t := DoRegister(s, i, like);
    ArrivedOnce(s, t, s.procs[i].handle, i, t.registry[s.procs[i].handle]);
  }

  lemma SwapOnce(s: State, i: nat, like: Session, persists: bool)
    requires Enabled(s, RenewSwap(i, like, persists)) && Once(s)
    ensures Once(DoRenewSwap(s, i, like, persists))
  {
    var t := DoRenewSwap(s, i, like, persists);
    var was := s.procs[i].snapshot;
    if IsCurrent(s.registry, was.handle, was.ulid) {
      ArrivedOnce(s, t, was.handle, i, Replacement(was, s.procs[i].ulid, like));
    } else {
      QuietOnce(s, t, i, t.procs[i]);
    }
  }

  lemma EndTakeOnce(s: State, i: nat)
    requires Enabled(s, EndTake(i)) && Once(s)
    ensures Once(DoEndTake(s, i))
  {
    var t := DoEndTake(s, i);
    var handle := s.procs[i].saved.handle;
    if handle in s.registry { TakenOnce(s, t, handle, i, t.procs[i]); } else { QuietOnce(s, t, i, t.procs[i]); }
  }

  lemma RetireTakeOnce(s: State, i: nat)
    requires Enabled(s, RetireTake(i)) && Once(s)
    ensures Once(DoRetireTake(s, i))
  {
    var t := DoRetireTake(s, i);
    var handle := s.procs[i].snapshot.handle;
    if handle in s.registry { TakenOnce(s, t, handle, i, t.procs[i]); } else { QuietOnce(s, t, i, t.procs[i]); }
  }

  lemma StepTakenCreated(s: State, a: Action)
    requires Enabled(s, a) && TakenCreated(s) && RegisteredOnce(s)
    ensures TakenCreated(Step(s, a))
  {
  }

  /** A credential enters or leaves the registry, or is created. */
  predicate IsPassing(a: Action) {
    a.StartRegister? || a.RenewSwap? || a.EndTake? || a.RetireTake? || a.RenewCreate?
  }

  lemma StepOnce(s: State, a: Action)
    requires Enabled(s, a) && Once(s) && TakenCreated(s)
    ensures Once(Step(s, a))
  {
    if IsAdding(a) {
      AddingOnce(s, a);
    } else if IsPassing(a) {
      match a
      case StartRegister(i, like) => RegisterOnce(s, i, like);
      case RenewSwap(i, like, persists) => SwapOnce(s, i, like, persists);
      case EndTake(i) => EndTakeOnce(s, i);
      case RetireTake(i) => RetireTakeOnce(s, i);
      case RenewCreate(i) => CreatedOnce(s, DoRenewCreate(s, i), i, DoRenewCreate(s, i).procs[i]);
    } else {
      var t := Step(s, a);
      QuietOnce(s, t, a.i, t.procs[a.i]);
    }
  }

  // ----- no credential is lost -----

  lemma Moves(s: State, t: State, i: nat, p: Proc, u: nat)
    requires i < |s.procs| && t.procs == s.procs[i := p]
    ensures IsIncoming(s, u) && Incoming(s.procs[i]) != Some(u) ==> IsIncoming(t, u)
    ensures IsOutgoing(s, u) && Outgoing(s.procs[i]) != Some(u) ==> IsOutgoing(t, u)
    ensures Incoming(p) == Some(u) ==> IsIncoming(t, u)
    ensures Outgoing(p) == Some(u) ==> IsOutgoing(t, u)
  {
    if IsIncoming(s, u) && Incoming(s.procs[i]) != Some(u) {
      var j :| 0 <= j < |s.procs| && Incoming(s.procs[j]) == Some(u);
      assert Incoming(t.procs[j]) == Some(u);
    }
    if IsOutgoing(s, u) && Outgoing(s.procs[i]) != Some(u) {
      var j :| 0 <= j < |s.procs| && Outgoing(s.procs[j]) == Some(u);
      assert Outgoing(t.procs[j]) == Some(u);
    }
    assert t.procs[i] == p;
  }

  lemma Grows(s: State, t: State, p: Proc, u: nat)
    requires t.procs == s.procs + [p]
    ensures IsIncoming(s, u) ==> IsIncoming(t, u)
    ensures IsOutgoing(s, u) ==> IsOutgoing(t, u)
    ensures Incoming(p) == Some(u) ==> IsIncoming(t, u)
  {
    if IsIncoming(s, u) {
      var j :| 0 <= j < |s.procs| && Incoming(s.procs[j]) == Some(u);
      assert Incoming(t.procs[j]) == Some(u);
    }
    if IsOutgoing(s, u) {
      var j :| 0 <= j < |s.procs| && Outgoing(s.procs[j]) == Some(u);
      assert Outgoing(t.procs[j]) == Some(u);
    }
    assert t.procs[|s.procs|] == p;
  }

  /** Everything but the registry and the processes only grows. */
  predicate IsPastKept(s: State, t: State) {
    && s.past.sent <= t.past.sent && s.past.overwritten <= t.past.overwritten
    && s.past.replaced <= t.past.replaced && s.next <= t.next
  }

  lemma StepKeepsPast(s: State, a: Action)
    requires Enabled(s, a)
    ensures IsPastKept(s, Step(s, a))
  {
  }

  lemma ReplacedStays(s: State, t: State, u: nat)
    requires IsPastKept(s, t) && IsReplaced(s, u)
    ensures IsReplaced(t, u)
  {
    var v :| u < v < s.next && (u, v) in s.past.replaced;
    assert u < v < t.next && (u, v) in t.past.replaced;
  }

  lemma RegisteredStays(s: State, t: State, u: nat)
    requires SameUlids(s.registry, t.registry) && IsRegistered(s, u)
    ensures IsRegistered(t, u)
  {
    var h :| h in s.registry && s.registry[h].ulid == u;
    assert h in t.registry && t.registry[h].ulid == u;
  }

  lemma AddingAccounted(s: State, a: Action, u: nat)
    requires Enabled(s, a) && IsAdding(a) && u < Step(s, a).next
    requires u < s.next ==> IsAccounted(s, u)
    ensures IsAccounted(Step(s, a), u)
  {
    var t := Step(s, a);
    StepKeepsPast(s, a);
    Grows(s, t, t.procs[|s.procs|], u);
    if u < s.next {
      if IsReplaced(s, u) { ReplacedStays(s, t, u); }
      else if IsRegistered(s, u) { RegisteredStays(s, t, u); }
    }
  }

  /** A process passes on the credential it holds, or puts it where it is accounted for. */
  lemma PassedOn(s: State, t: State, i: nat, p: Proc, u: nat)
    requires IsAccounted(s, u) && IsPastKept(s, t) && i < |s.procs| && t.procs == s.procs[i := p]
    requires Incoming(s.procs[i]) == Some(u) || Outgoing(s.procs[i]) == Some(u) ==>
               Incoming(p) == Some(u) || Outgoing(p) == Some(u) || u in t.past.sent || IsRegistered(t, u)
    requires IsRegistered(s, u) ==> IsAccounted(t, u)
    ensures IsAccounted(t, u)
  {
    Moves(s, t, i, p, u);
    if IsReplaced(s, u) { ReplacedStays(s, t, u); }
  }

  lemma RegisterAccounted(s: State, i: nat, like: Session, u: nat)
    requires Enabled(s, StartRegister(i, like)) && IsAccounted(s, u)
    ensures IsAccounted(DoRegister(s, i, like), u)
  {
    var t := DoRegister(s, i, like);
    var p := s.procs[i];
    assert t.registry[p.handle].ulid == p.ulid;
    if IsRegistered(s, u) {
      var h :| h in s.registry && s.registry[h].ulid == u;
      assert h != p.handle ==> h in t.registry && t.registry[h].ulid == u;
    }
    PassedOn(s, t, i, Done, u);
  }

  lemma SwapAccounted(s: State, i: nat, like: Session, persists: bool, u: nat)
    requires Enabled(s, RenewSwap(i, like, persists)) && IsAccounted(s, u) && ProcFits(s, s.procs[i])
    ensures IsAccounted(DoRenewSwap(s, i, like, persists), u)
  {
    var t := DoRenewSwap(s, i, like, persists);
    var p := s.procs[i];
    var handle := p.snapshot.handle;
    assert (p.snapshot.ulid, p.ulid) in t.past.replaced;
    if IsCurrent(s.registry, handle, p.snapshot.ulid) {
      assert t.registry[handle].ulid == p.ulid;
      if IsRegistered(s, u) {
        var h :| h in s.registry && s.registry[h].ulid == u;
        assert h != handle ==> h in t.registry && t.registry[h].ulid == u;
      }
    } else if IsRegistered(s, u) {
      RegisteredStays(s, t, u);
    }
    PassedOn(s, t, i, t.procs[i], u);
  }

  lemma TakeAccounted(s: State, t: State, handle: string, i: nat, p: Proc, u: nat)
    requires IsAccounted(s, u) && handle in s.registry && i < |s.procs| && Incoming(s.procs[i]).None? && Outgoing(s.procs[i]).None?
    requires t == Becomes(Taken(s, handle), i, p) && Outgoing(p) == Some(s.registry[handle].ulid)
    ensures IsAccounted(t, u)
  {
    Moves(s, t, i, p, u);
    if IsRegistered(s, u) {
      var h :| h in s.registry && s.registry[h].ulid == u;
      assert h != handle ==> h in t.registry && t.registry[h].ulid == u;
    }
    PassedOn(s, t, i, p, u);
  }

  lemma QuietAccounted(s: State, t: State, i: nat, p: Proc, u: nat)
    requires IsAccounted(s, u) && IsPastKept(s, t) && i < |s.procs| && t.procs == s.procs[i := p]
    requires SameUlids(s.registry, t.registry)
    requires Incoming(s.procs[i]) == Some(u) || Outgoing(s.procs[i]) == Some(u) ==>
               Incoming(p) == Some(u) || Outgoing(p) == Some(u) || u in t.past.sent
    ensures IsAccounted(t, u)
  {
    if IsRegistered(s, u) { RegisteredStays(s, t, u); }
    PassedOn(s, t, i, p, u);
  }

  lemma EndTakeAccounted(s: State, i: nat, u: nat)
    requires Enabled(s, EndTake(i)) && IsAccounted(s, u) && Fits(s)
    ensures IsAccounted(DoEndTake(s, i), u)
  {
    var t := DoEndTake(s, i);
    var handle := s.procs[i].saved.handle;
    if handle in s.registry {
      AnswerMatches(s, i);
      TakeAccounted(s, t, handle, i, t.procs[i], u);
    } else {
      QuietAccounted(s, t, i, t.procs[i], u);
    }
  }

  lemma RetireTakeAccounted(s: State, i: nat, u: nat)
    requires Enabled(s, RetireTake(i)) && IsAccounted(s, u)
    ensures IsAccounted(DoRetireTake(s, i), u)
  {
    var t := DoRetireTake(s, i);
    var handle := s.procs[i].snapshot.handle;
    if handle in s.registry {
      TakeAccounted(s, t, handle, i, t.procs[i], u);
    } else {
      QuietAccounted(s, t, i, t.procs[i], u);
    }
  }

  lemma CreateAccounted(s: State, i: nat, u: nat)
    requires Enabled(s, RenewCreate(i)) && u < s.next + 1
    requires u < s.next ==> IsAccounted(s, u)
    ensures IsAccounted(DoRenewCreate(s, i), u)
  {
    var t := DoRenewCreate(s, i);
    if u < s.next { QuietAccounted(s, t, i, t.procs[i], u); } else { Moves(s, t, i, t.procs[i], u); }
  }

  lemma PassingAccounted(s: State, a: Action, u: nat)
    requires Enabled(s, a) && Fits(s) && IsPassing(a) && u < Step(s, a).next
    requires u < s.next ==> IsAccounted(s, u)
    ensures IsAccounted(Step(s, a), u)
  {
    match a
    case StartRegister(i, like) => RegisterAccounted(s, i, like, u);
    case RenewSwap(i, like, persists) => SwapAccounted(s, i, like, persists, u);
    case EndTake(i) => EndTakeAccounted(s, i, u);
    case RetireTake(i) => RetireTakeAccounted(s, i, u);
    case RenewCreate(i) => CreateAccounted(s, i, u);
  }

  lemma StepAccounted(s: State, a: Action, u: nat)
    requires Enabled(s, a) && Fits(s) && u < Step(s, a).next
    requires u < s.next ==> IsAccounted(s, u)
    ensures IsAccounted(Step(s, a), u)
  {
    if IsAdding(a) {
      AddingAccounted(s, a, u);
    } else if IsPassing(a) {
      PassingAccounted(s, a, u);
    } else {
      StepKeepsPast(s, a);
      var t := Step(s, a);
      QuietAccounted(s, t, a.i, t.procs[a.i], u);
    }
  }

  // ----- what a session's end took is revoked -----

  lemma AddingRevokesTaken(s: State, a: Action)
    requires Enabled(s, a) && IsAdding(a) && TakenAreRevoked(s)
    ensures TakenAreRevoked(Step(s, a))
  {
    var t := Step(s, a);
    forall u | u in t.past.taken ensures IsOutgoing(t, u) || u in t.past.sent { Grows(s, t, t.procs[|s.procs|], u); }
  }

  lemma EndTakeRevokes(s: State, i: nat, u: nat)
    requires Enabled(s, EndTake(i)) && Fits(s) && TakenAreRevoked(s) && u in DoEndTake(s, i).past.taken
    ensures IsOutgoing(DoEndTake(s, i), u) || u in DoEndTake(s, i).past.sent
  {
    var t := DoEndTake(s, i);
    Moves(s, t, i, t.procs[i], u);
    if s.procs[i].saved.handle in s.registry { AnswerMatches(s, i); }
  }

  lemma OtherRevokes(s: State, a: Action, u: nat)
    requires Enabled(s, a) && !IsAdding(a) && !a.EndTake? && TakenAreRevoked(s) && u in Step(s, a).past.taken
    ensures IsOutgoing(Step(s, a), u) || u in Step(s, a).past.sent
  {
    var t := Step(s, a);
    Moves(s, t, a.i, t.procs[a.i], u);
  }

  lemma StepRevokesTaken(s: State, a: Action)
    requires Enabled(s, a) && Fits(s) && TakenAreRevoked(s)
    ensures TakenAreRevoked(Step(s, a))
  {
    var t := Step(s, a);
    if IsAdding(a) {
      AddingRevokesTaken(s, a);
    } else {
      forall u | u in t.past.taken ensures IsOutgoing(t, u) || u in t.past.sent {
        if a.EndTake? { EndTakeRevokes(s, a.i, u); } else { OtherRevokes(s, a, u); }
      }
    }
  }

  lemma StepIsSound(s: State, a: Action)
    requires Enabled(s, a) && IsSound(s) && TakenCreated(s)
    ensures IsSound(Step(s, a)) && TakenCreated(Step(s, a))
  {
    StepFits(s, a);
    StepOnce(s, a);
    StepTakenCreated(s, a);
    StepRevokesTaken(s, a);
    forall u: nat | u < Step(s, a).next ensures IsAccounted(Step(s, a), u) { StepAccounted(s, a, u); }
  }
}