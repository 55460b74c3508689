/** Whole runs of the credential protocol. */
module LifecycleRuns {
  import opened JsonGrammar
  import opened Registry
  import opened Lifecycle
  import opened LifecycleSafe

  predicate CanRun(s: State, actions: seq<Action>)
    decreases |actions|
  {
    actions == [] || (Enabled(s, actions[0]) && CanRun(Step(s, actions[0]), actions[1..]))
  }

  function RunAll(s: State, actions: seq<Action>): State
    requires CanRun(s, actions)
    decreases |actions|
  {
    if actions == [] then s else RunAll(Step(s, actions[0]), actions[1..])
  }

  ghost predicate Reaches(s: State, t: State) {
    exists actions :: CanRun(s, actions) && RunAll(s, actions) == t
  }

  ghost predicate IsReachable(s: State) {
    Reaches(INITIAL, s)
  }

  lemma {:induction false} RunIsSound(s: State, actions: seq<Action>)
    requires CanRun(s, actions) && IsSound(s) && TakenCreated(s)
    ensures IsSound(RunAll(s, actions))
    decreases |actions|
  {
    if actions != [] {
      StepIsSound(s, actions[0]);
      RunIsSound(Step(s, actions[0]), actions[1..]);
    }
  }

  lemma ReachableIsSound(s: State)
    requires IsReachable(s)
    ensures IsSound(s)
  {
    var actions :| CanRun(INITIAL, actions) && RunAll(INITIAL, actions) == s;
    RunIsSound(INITIAL, actions);
  }

  /** In every interleaving: a created credential is registered, held by a running process, replaced,
      sent to revoke, or was overwritten by another registration of its handle. */
  lemma EveryCredentialIsAccounted(s: State, u: nat)
    requires IsReachable(s) && u < s.next
    ensures IsRegistered(s, u) || IsIncoming(s, u) || IsOutgoing(s, u) || IsReplaced(s, u) || u in s.past.sent || u in s.past.overwritten
  {
    ReachableIsSound(s);
    assert IsAccounted(s, u);
  }

  /** The end of a session revokes what the registry held for its handle, whatever the state file says,
      and no renewal or registration brings that credential back. */
  lemma EndedStaysEnded(s: State, u: nat)
    requires IsReachable(s) && u in s.past.taken
    ensures IsOutgoing(s, u) || u in s.past.sent
    ensures !IsRegistered(s, u) && !IsIncoming(s, u)
  {
    ReachableIsSound(s);
  }

  /** A renewal that raced with the end of its session changes nothing and revokes its replacement. */
  lemma LateRenewalIsRevoked(s: State, i: nat, like: Session, persists: bool)
    requires IsReachable(s) && Enabled(s, RenewSwap(i, like, persists)) && s.procs[i].snapshot.ulid in s.past.taken
    ensures var t := Step(s, RenewSwap(i, like, persists));
            t.registry == s.registry && t.disk == s.disk && Outgoing(t.procs[i]) == Incoming(s.procs[i])
  {
    ReachableIsSound(s);
  }

  /** A renewal swaps its replacement in, for the same session, exactly while the registry still holds the credential it set
      out to replace; then nothing is revoked and, if the write succeeds, the state file names the replacement. */
  lemma TimelyRenewalSwaps(s: State, i: nat, like: Session, persists: bool)
    requires IsReachable(s) && Enabled(s, RenewSwap(i, like, persists))
    ensures var was := s.procs[i].snapshot; var u := s.procs[i].ulid;
            var t := Step(s, RenewSwap(i, like, persists));
            if was.handle in s.registry && s.registry[was.handle].ulid == was.ulid then
              && t.procs == s.procs[i := Done] && t.past == s.past
              && t.registry == s.registry[was.handle := t.registry[was.handle]] && t.registry[was.handle].ulid == u
              && t.registry[was.handle].sid == s.registry[was.handle].sid
              && t.disk == if persists && was.sid != "" then s.disk[was.sid := Saved(was.handle, u, was.owner)] else s.disk
            else t.registry == s.registry && t.disk == s.disk && t.procs[i] == Revoking(u, Keep)
  {
    ReachableIsSound(s);
  }

  /** A session end takes from the registry, and revokes next, the session registered for the handle it knows;
      the daemon's answer never names another session id. */
  lemma EndRevokesTheCurrent(s: State, i: nat)
    requires IsReachable(s) && Enabled(s, EndTake(i)) && s.procs[i].saved.handle in s.registry
    ensures var session := s.registry[s.procs[i].saved.handle];
            var t := Step(s, EndTake(i));
            t.procs[i] == Answered(s.procs[i].sid, s.procs[i].saved, session)
            && Step(t, EndSave(i)).procs[i] == Revoking(session.ulid, Remove(session.sid))
  {
    ReachableIsSound(s);
    AnswerMatches(s, i);
  }

  // ----- when all processes are done -----

  predicate IsQuiet(s: State) {
    forall i :: 0 <= i < |s.procs| ==> s.procs[i].Done?
  }

  /** Following replacements from `u` leads to a credential that is registered, sent to revoke or overwritten. */
  predicate ComesToRest(s: State, u: nat)
    decreases s.next - u
  {
    IsRegistered(s, u) || u in s.past.sent || u in s.past.overwritten
    || exists v :: u < v < s.next && (u, v) in s.past.replaced && ComesToRest(s, v)
  }

  lemma {:induction false} QuietComesToRest(s: State, u: nat)
    requires IsSound(s) && IsQuiet(s) && u < s.next
    ensures ComesToRest(s, u)
    decreases s.next - u
  {
    assert IsAccounted(s, u);
    if IsReplaced(s, u) {
      var v :| u < v < s.next && (u, v) in s.past.replaced;
      QuietComesToRest(s, v);
    }
  }

  // ----- registrations of an occupied handle -----

  /** Registrations meet a free handle, as they do when every start has a new random handle. */
  predicate IsClean(s: State, a: Action)
    requires Enabled(s, a)
  {
    a.StartRegister? ==> s.procs[a.i].handle !in s.registry
  }

  predicate IsCleanRun(s: State, actions: seq<Action>)
    requires CanRun(s, actions)
    decreases |actions|
  {
    actions == [] || (IsClean(s, actions[0]) && IsCleanRun(Step(s, actions[0]), actions[1..]))
  }

  ghost predicate IsCleanlyReached(s: State) {
    exists actions :: CanRun(INITIAL, actions) && IsCleanRun(INITIAL, actions) && RunAll(INITIAL, actions) == s
  }

  lemma StepOverwrites(s: State, a: Action)
    requires Enabled(s, a)
    ensures Step(s, a).past.overwritten
            == s.past.overwritten + if IsClean(s, a) then {} else {s.registry[s.procs[a.i].handle].ulid}
  {
  }

  lemma {:induction false} CleanRunOverwritesNothing(s: State, actions: seq<Action>)
    requires CanRun(s, actions) && IsCleanRun(s, actions)
    ensures RunAll(s, actions).past.overwritten == s.past.overwritten
    decreases |actions|
  {
    if actions != [] {
      StepOverwrites(s, actions[0]);
      CleanRunOverwritesNothing(Step(s, actions[0]), actions[1..]);
    }
  }

  /** No orphans: once no process runs, every credential, or what it was replaced by, is registered or was sent to revoke. */
  lemma NoOrphans(s: State, u: nat)
    requires IsCleanlyReached(s) && IsQuiet(s) && u < s.next
    ensures s.past.overwritten == {} && ComesToRest(s, u)
  {
    var actions :| CanRun(INITIAL, actions) && IsCleanRun(INITIAL, actions) && RunAll(INITIAL, actions) == s;
    CleanRunOverwritesNothing(INITIAL, actions);
    assert IsReachable(s);
    ReachableIsSound(s);
    QuietComesToRest(s, u);
  }

  /** Any other registration takes a credential out of the registry and hands it to no one: it is sent, about to be sent or
      replaced afterwards exactly when it was before. */
  lemma OccupiedHandleLoses(s: State, a: Action)
    requires IsReachable(s) && Enabled(s, a) && !IsClean(s, a)
    ensures var u := s.registry[s.procs[a.i].handle].ulid;
            var t := Step(s, a);
            && IsRegistered(s, u) && !IsRegistered(t, u) && !IsIncoming(t, u)
            && (u in t.past.sent <==> u in s.past.sent) && (IsOutgoing(t, u) <==> IsOutgoing(s, u))
            && (IsReplaced(t, u) <==> IsReplaced(s, u))
  {
    ReachableIsSound(s);
    var u := s.registry[s.procs[a.i].handle].ulid;
    Moves(s, Step(s, a), a.i, Done, u);
    if IsOutgoing(Step(s, a), u) {
      var j :| 0 <= j < |s.procs| && Outgoing(Step(s, a).procs[j]) == Some(u);
      assert j != a.i && Outgoing(s.procs[j]) == Some(u);
    }
  }

  // ----- what does not hold -----

  lemma {:induction false} RunThen(s: State, actions: seq<Action>, a: Action)
    requires CanRun(s, actions) && Enabled(RunAll(s, actions), a)
    ensures CanRun(s, actions + [a]) && RunAll(s, actions + [a]) == Step(RunAll(s, actions), a)
    decreases |actions|
  {
    if actions == [] {
      assert ([] + [a])[1..] == [];
    } else {
      RunThen(Step(s, actions[0]), actions[1..], a);
      assert (actions + [a])[1..] == actions[1..] + [a];
    }
  }

  lemma Then(s: State, a: Action, t: State)
    requires IsReachable(s) && Enabled(s, a) && Step(s, a) == t
    ensures IsReachable(t)
  {
    var actions :| CanRun(INITIAL, actions) && RunAll(INITIAL, actions) == s;
    RunThen(INITIAL, actions, a);
  }

  const ANY := Session("", "", "", 0, "", "", None, None, NO_OWNER)
  const NOTHING := Past({}, {}, {}, {})

  function Registered(u: nat): Session {
    ANY.(handle := "h", sid := "s", ulid := u)
  }

  lemma FirstStarts()
    ensures IsReachable(State(map[], map[], [Starting("s", "h", 0)], map["h" := "s"], 1, NOTHING))
  {
    assert CanRun(INITIAL, []) && RunAll(INITIAL, []) == INITIAL;
    Then(INITIAL, Start("s", "h"), State(map[], map[], [Starting("s", "h", 0)], map["h" := "s"], 1, NOTHING));
  }

  lemma TwoStarts()
    ensures IsReachable(State(map["h" := Registered(0)], map["s" := Saved("h", 1, NO_OWNER)], [Done, Registering("s", "h", 1)], map["h" := "s"], 2, NOTHING))
  {
    FirstStarts();
    var bound := map["h" := "s"];
    var s1 := State(map[], map[], [Starting("s", "h", 0)], bound, 1, NOTHING);
    var s2 := State(map[], map[], [Starting("s", "h", 0), Starting("s", "h", 1)], bound, 2, NOTHING);
    var s3 := State(map[], map["s" := Saved("h", 0, NO_OWNER)], [Registering("s", "h", 0), Starting("s", "h", 1)], bound, 2, NOTHING);
    var s4 := State(map[], map["s" := Saved("h", 1, NO_OWNER)], [Registering("s", "h", 0), Registering("s", "h", 1)], bound, 2, NOTHING);
    Then(s1, Start("s", "h"), s2);
    Then(s2, StartSave(0), s3);
    Then(s3, StartSave(1), s4);
    Then(s4, StartRegister(0, ANY), s4.(registry := map["h" := Registered(0)], procs := [Done, Registering("s", "h", 1)]));
  }

  /** Two starts of one session id that share a cgroup handle leave a credential nobody will revoke. */
  lemma SharedHandleOrphans()
    ensures exists s :: IsReachable(s) && IsQuiet(s) && 0 < s.next && !IsRegistered(s, 0) && !IsReplaced(s, 0) && 0 !in s.past.sent
  {
    TwoStarts();
    var s5 := State(map["h" := Registered(0)], map["s" := Saved("h", 1, NO_OWNER)], [Done, Registering("s", "h", 1)], map["h" := "s"], 2, NOTHING);
    var s6 := s5.(registry := map["h" := Registered(1)], procs := [Done, Done], past := Past({}, {}, {}, {0}));
    Then(s5, StartRegister(1, ANY), s6);
    assert IsQuiet(s6) && !IsRegistered(s6, 0) && !IsReplaced(s6, 0);
  }

  lemma Renews(owner: Owner)
    ensures IsReachable(State(map["h" := Registered(1)], map["s" := Saved("h", 1, NO_OWNER)],
                              [Done, Updating("s", Saved("h", 0, NO_OWNER), owner), Done], map["h" := "s"], 2, NOTHING.(replaced := {(0, 1)})))
  {
    FirstStarts();
    var s1 := State(map[], map[], [Starting("s", "h", 0)], map["h" := "s"], 1, NOTHING);
    var disk := map["s" := Saved("h", 0, NO_OWNER)];
    var s2 := s1.(disk := disk, procs := [Registering("s", "h", 0)]);
    var s3 := s2.(registry := map["h" := Registered(0)], procs := [Done]);
    var s4 := s3.(procs := [Done, Updating("s", disk["s"], owner)]);
    Then(s1, StartSave(0), s2);
    Then(s2, StartRegister(0, ANY), s3);
    Then(s3, OwnerLoad("s", owner), s4);
    RenewsNow(s4, owner);
  }

  lemma RenewsNow(s: State, owner: Owner)
    requires s == State(map["h" := Registered(0)], map["s" := Saved("h", 0, NO_OWNER)],
                        [Done, Updating("s", Saved("h", 0, NO_OWNER), owner)], map["h" := "s"], 1, NOTHING)
    requires IsReachable(s)
    ensures IsReachable(State(map["h" := Registered(1)], map["s" := Saved("h", 1, NO_OWNER)],
                              [Done, Updating("s", Saved("h", 0, NO_OWNER), owner), Done], map["h" := "s"], 2, NOTHING.(replaced := {(0, 1)})))
  {
    var two := s.procs;
    var s5 := s.(procs := two + [Renewing(Registered(0))]);
    var s6 := s5.(procs := two + [Renewed(Registered(0), 1)], next := 2, past := NOTHING.(replaced := {(0, 1)}));
    var s7 := s6.(registry := map["h" := Registered(1)], disk := map["s" := Saved("h", 1, NO_OWNER)], procs := two + [Done]);
    Then(s, RenewSnapshot("h"), s5);
    Then(s5, RenewCreate(2), s6);
    Then(s6, RenewSwap(2, ANY, true), s7);
    assert s7.procs == [Done, two[1], Done];
  }

  /** An owner update that read the state file before a renewal writes the old credential back, for good:
      a session end can only rely on the registry. */
  lemma StateFileMayBeStale(owner: Owner)
    ensures exists s :: IsReachable(s) && IsQuiet(s) && "h" in s.registry && "s" in s.disk
                        && s.disk["s"].handle == "h" && s.disk["s"].ulid != s.registry["h"].ulid
  {
    Renews(owner);
    var s7 := State(map["h" := Registered(1)], map["s" := Saved("h", 1, NO_OWNER)],
                    [Done, Updating("s", Saved("h", 0, NO_OWNER), owner), Done], map["h" := "s"], 2, NOTHING.(replaced := {(0, 1)}));
    var s8 := s7.(disk := map["s" := Saved("h", 0, owner)], procs := [Done, Setting("h", owner), Done]);
    var s9 := s8.(registry := map["h" := Registered(1).(owner := owner)], procs := [Done, Done, Done]);
    Then(s7, OwnerSave(1), s8);
    Then(s8, OwnerSet(1), s9);
    assert IsQuiet(s9);
  }
}
