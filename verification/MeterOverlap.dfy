/** What overlapping final flushes of one handle can do: discard a recorded event, and acknowledge events out of order. */
module MeterOverlap {
  import opened JsonGrammar
  import opened MeterProtocol
  import opened MeterRuns
  import opened MeterCalm

  ghost predicate Reaches(s: State, t: State)
    requires IsState(s)
  {
    exists actions :: CanRun(s, actions) && RunAll(s, actions) == t
  }

  lemma Then(s: State, a: Action, t: State, end: State)
    requires IsState(s) && Enabled(s, a) && Step(s, a) == t && Reaches(t, end)
    ensures Reaches(s, end)
  {
    var rest :| CanRun(t, rest) && RunAll(t, rest) == end;
    var actions := [a] + rest;
    assert actions[1..] == rest;
    assert CanRun(s, actions) && RunAll(s, actions) == end;
  }

  lemma Stays(s: State)
    requires IsState(s)
    ensures Reaches(s, s)
  {
    assert CanRun(s, []) && RunAll(s, []) == s;
  }

  const NOTHING := History([], [], [], [], [])

  /** A handle with one closed record and one final flush in the given phase. */
  function Alone(ship: Ship, entered: bool, phase: Phase): State {
    State(false, [], [ship], Some(0), [Flush(true, false, if entered then Some(0) else None, phase, [])], NOTHING)
  }

  /** The first final flush up to its last step, and the mark of a second one. */
  const OVERLAP := State(false, [], [Ship(true, None, None)], Some(0),
    [Flush(true, false, Some(0), Deleting, []), Flush(true, false, None, Marked, [])], NOTHING)

  lemma FirstTakes(end: State)
    requires Reaches(OVERLAP, end)
    ensures Reaches(Alone(Ship(true, Some(0), None), true, Locked), end)
  {
    var s5 := Alone(Ship(true, None, None), true, Deleting);
    var s4 := Alone(Ship(true, Some(0), Some(0)), true, Ready);
    Then(s5, MarkFinal, OVERLAP, end);
    Then(s4, Finish(0), s5, end);
    Then(Alone(Ship(true, Some(0), None), true, Locked), Take(0), s4, end);
  }

  lemma FirstFinal(end: State)
    requires Reaches(OVERLAP, end)
    ensures Reaches(INITIAL, end)
  {
    FirstTakes(end);
    var closed := Ship(true, None, None);
    var s3 := Alone(Ship(true, Some(0), None), true, Locked);
    var s2 := Alone(closed, true, Waiting);
    var s1 := Alone(closed, false, Marked);
    Then(s2, Acquire(0), s3, end);
    Then(s1, EnterFinal(0), s2, end);
    Then(INITIAL, MarkFinal, s1, end);
  }

  /** The first final flush has forgotten the handle; the second one works on a record that is not closed. */
  function Reopened(ship: Ship, phase: Phase, buffer: seq<Event>): State {
    State(false, buffer, [Ship(true, None, None), ship], Some(1),
      [Flush(true, false, Some(0), Gone, []), Flush(true, false, Some(1), phase, [])], NOTHING.(accepted := buffer))
  }

  lemma SecondEnters(end: State)
    requires Reaches(Reopened(Ship(false, None, None), Waiting, []), end)
    ensures Reaches(OVERLAP, end)
  {
    var t := Step(OVERLAP, Delete(0));
    Then(t, EnterFinal(1), Reopened(Ship(false, None, None), Waiting, []), end);
    Then(OVERLAP, Delete(0), t, end);
  }

  lemma SecondTakes(end: State)
    requires Reaches(Reopened(Ship(false, None, None), Deleting, []), end)
    ensures Reaches(Reopened(Ship(false, Some(1), None), Locked, []), end)
  {
    var s10 := Reopened(Ship(false, Some(1), Some(1)), Ready, []);
    Then(s10, Finish(1), Reopened(Ship(false, None, None), Deleting, []), end);
    Then(Reopened(Ship(false, Some(1), None), Locked, []), Take(1), s10, end);
  }

  lemma SecondWaits(end: State)
    requires Reaches(Reopened(Ship(false, Some(1), None), Locked, []), end)
    ensures Reaches(Reopened(Ship(false, None, None), Waiting, []), end)
  {
    Then(Reopened(Ship(false, None, None), Waiting, []), Acquire(1), Reopened(Ship(false, Some(1), None), Locked, []), end);
  }

  lemma SecondDeletes() returns (end: State)
    ensures Reaches(Reopened(Ship(false, None, None), Deleting, []), end) && end.past.discarded == [Event(7)]
  {
    var idle := Ship(false, None, None);
    var s12 := Reopened(idle, Deleting, [Event(7)]);
    end := Step(s12, Delete(1));
    Stays(end);
    Then(s12, Delete(1), end, end);
    Then(Reopened(idle, Deleting, []), MeterProtocol.Record(Event(7)), s12, end);
  }

  /** The condition is needed: a second final flush that starts before the first forgets the handle
      can delete an event recorded after its own buffer was taken. */
  lemma OverlapDiscards()
    ensures exists end :: Reaches(INITIAL, end) && end.past.discarded == [Event(7)]
  {
    var end := SecondDeletes();
    SecondTakes(end);
    SecondWaits(end);
    SecondEnters(end);
    FirstFinal(end);
  }

  // ----- out of order -----

  const SHUT := Ship(true, None, None)
  const IDLE := Ship(false, None, None)
  const FIRST := Event(1)
  const SECOND := Event(2)

  /** Two final flushes on the first shipping record. */
  function Finals(ship: Ship, a: Flush, b: Flush): State {
    State(false, [], [ship], Some(0), [a, b], NOTHING)
  }

  const MARKED := Flush(true, false, None, Marked, [])

  function Final(phase: Phase): Flush {
    Flush(true, false, Some(0), phase, [])
  }

  lemma FinalsEnter(end: State)
    requires Reaches(Finals(SHUT, Final(Waiting), Final(Waiting)), end)
    ensures Reaches(INITIAL, end)
  {
    var one := Alone(SHUT, false, Marked);
    Then(Finals(SHUT, Final(Waiting), MARKED), EnterFinal(1), Finals(SHUT, Final(Waiting), Final(Waiting)), end);
    Then(Finals(SHUT, MARKED, MARKED), EnterFinal(0), Finals(SHUT, Final(Waiting), MARKED), end);
    Then(one, MarkFinal, Finals(SHUT, MARKED, MARKED), end);
    Then(INITIAL, MarkFinal, one, end);
  }

  lemma FirstFinishes(end: State)
    requires Reaches(Finals(SHUT, Final(Deleting), Final(Waiting)), end)
    ensures Reaches(Finals(SHUT, Final(Waiting), Final(Waiting)), end)
  {
    var locked := Finals(Ship(true, Some(0), None), Final(Locked), Final(Waiting));
    var ready := Finals(Ship(true, Some(0), Some(0)), Final(Ready), Final(Waiting));
    Then(ready, Finish(0), Finals(SHUT, Final(Deleting), Final(Waiting)), end);
    Then(locked, Take(0), ready, end);
    Then(Finals(SHUT, Final(Waiting), Final(Waiting)), Acquire(0), locked, end);
  }

  lemma SecondLocks(end: State)
    requires Reaches(Finals(Ship(true, Some(1), None), Final(Deleting), Final(Locked)), end)
    ensures Reaches(Finals(SHUT, Final(Deleting), Final(Waiting)), end)
  {
    Then(Finals(SHUT, Final(Deleting), Final(Waiting)), Acquire(1), Finals(Ship(true, Some(1), None), Final(Deleting), Final(Locked)), end);
  }

  lemma SecondFinishes(end: State)
    requires Reaches(Finals(SHUT, Final(Deleting), Final(Deleting)), end)
    ensures Reaches(Finals(Ship(true, Some(1), None), Final(Deleting), Final(Locked)), end)
  {
    var ready := Finals(Ship(true, Some(1), Some(1)), Final(Deleting), Final(Ready));
    Then(ready, Finish(1), Finals(SHUT, Final(Deleting), Final(Deleting)), end);
    Then(Finals(Ship(true, Some(1), None), Final(Deleting), Final(Locked)), Take(1), ready, end);
  }

  lemma BothFinish(end: State)
    requires Reaches(Finals(SHUT, Final(Deleting), Final(Deleting)), end)
    ensures Reaches(INITIAL, end)
  {
    SecondFinishes(end);
    SecondLocks(end);
    FirstFinishes(end);
    FinalsEnter(end);
  }

  /** The first final flush has forgotten the handle; an event is recorded on a new record, and a background flush ships it. */
  function Shipping(ship: Ship, buffer: seq<Event>, background: seq<Flush>): State {
    State(false, buffer, [SHUT, ship], Some(1), [Final(Gone), Final(Deleting)] + background, NOTHING.(accepted := [FIRST]))
  }

  function Background(k: nat, phase: Phase, rest: seq<Event>): Flush {
    Flush(false, false, Some(k), phase, rest)
  }

  const FORGOTTEN := State(false, [], [SHUT], None, [Final(Gone), Final(Deleting)], NOTHING)

  lemma FirstForgets(end: State)
    requires Reaches(FORGOTTEN, end)
    ensures Reaches(Finals(SHUT, Final(Deleting), Final(Deleting)), end)
  {
    Then(Finals(SHUT, Final(Deleting), Final(Deleting)), Delete(0), FORGOTTEN, end);
  }

  lemma FirstRecorded(end: State)
    requires Reaches(Shipping(IDLE, [FIRST], [Background(1, Waiting, [])]), end)
    ensures Reaches(FORGOTTEN, end)
  {
    var u := Shipping(IDLE, [FIRST], []);
    Then(u, StartFlush, Shipping(IDLE, [FIRST], [Background(1, Waiting, [])]), end);
    Then(FORGOTTEN, MeterProtocol.Record(FIRST), u, end);
  }

  const TAKEN := Ship(false, Some(2), Some(2))

  lemma FirstSent(end: State)
    requires Reaches(Shipping(TAKEN, [], [Background(1, Sending(false), [FIRST])]), end)
    ensures Reaches(Shipping(IDLE, [FIRST], [Background(1, Waiting, [])]), end)
  {
    var locked := Shipping(Ship(false, Some(2), None), [FIRST], [Background(1, Locked, [])]);
    var ready := Shipping(TAKEN, [], [Background(1, Ready, [FIRST])]);
    Then(ready, Send(2, true), Shipping(TAKEN, [], [Background(1, Sending(false), [FIRST])]), end);
    Then(locked, Take(2), ready, end);
    Then(Shipping(IDLE, [FIRST], [Background(1, Waiting, [])]), Acquire(2), locked, end);
  }

  /** The second final flush has forgotten the handle under that background flush; a third record is in use. */
  function Again(ship: Ship, buffer: seq<Event>, background: seq<Flush>, acked: seq<Event>): State {
    State(false, buffer, [SHUT, TAKEN, ship], Some(2),
      [Final(Gone), Final(Gone), Background(1, Sending(false), [FIRST])] + background,
      NOTHING.(accepted := [FIRST, SECOND], acked := acked))
  }

  function ForgottenAgain(): State {
    State(false, [], [SHUT, TAKEN], None, [Final(Gone), Final(Gone), Background(1, Sending(false), [FIRST])],
      NOTHING.(accepted := [FIRST]))
  }

  lemma SecondForgets(end: State)
    requires Reaches(ForgottenAgain(), end)
    ensures Reaches(Shipping(TAKEN, [], [Background(1, Sending(false), [FIRST])]), end)
  {
    Then(Shipping(TAKEN, [], [Background(1, Sending(false), [FIRST])]), Delete(1), ForgottenAgain(), end);
  }

  lemma SecondRecorded(end: State)
    requires Reaches(Again(IDLE, [SECOND], [], []), end)
    ensures Reaches(ForgottenAgain(), end)
  {
    Then(ForgottenAgain(), MeterProtocol.Record(SECOND), Again(IDLE, [SECOND], [], []), end);
  }

  lemma SecondStarts(end: State)
    requires Reaches(Again(IDLE, [SECOND], [Background(2, Waiting, [])], []), end)
    ensures Reaches(Again(IDLE, [SECOND], [], []), end)
  {
    Then(Again(IDLE, [SECOND], [], []), StartFlush, Again(IDLE, [SECOND], [Background(2, Waiting, [])], []), end);
  }

  const TAKEN_TOO := Ship(false, Some(3), Some(3))

  lemma SecondSent(end: State)
    requires Reaches(Again(TAKEN_TOO, [], [Background(2, Sending(false), [SECOND])], []), end)
    ensures Reaches(Again(IDLE, [SECOND], [Background(2, Waiting, [])], []), end)
  {
    var locked := Again(Ship(false, Some(3), None), [SECOND], [Background(2, Locked, [])], []);
    var ready := Again(TAKEN_TOO, [], [Background(2, Ready, [SECOND])], []);
    Then(ready, Send(3, true), Again(TAKEN_TOO, [], [Background(2, Sending(false), [SECOND])], []), end);
    Then(locked, Take(3), ready, end);
    Then(Again(IDLE, [SECOND], [Background(2, Waiting, [])], []), Acquire(3), locked, end);
  }

  lemma WholeBatch(e: Event)
    ensures Batch([e]) == [e] && [e][|Batch([e])|..] == [] && [] + [e] == [e]
  {
  }

  lemma SecondAcknowledged(end: State)
    requires Reaches(Again(TAKEN_TOO, [], [Background(2, Ready, [])], [SECOND]), end)
    ensures Reaches(Again(TAKEN_TOO, [], [Background(2, Sending(false), [SECOND])], []), end)
  {
    WholeBatch(SECOND);
    Then(Again(TAKEN_TOO, [], [Background(2, Sending(false), [SECOND])], []), Ack(3),
         Again(TAKEN_TOO, [], [Background(2, Ready, [])], [SECOND]), end);
  }

  lemma FirstAcknowledged() returns (end: State)
    ensures Reaches(Again(TAKEN_TOO, [], [Background(2, Ready, [])], [SECOND]), end)
    ensures end.past.acked == [SECOND] + [FIRST] && end.past.accepted == [FIRST, SECOND]
  {
    var t := Again(TAKEN_TOO, [], [Background(2, Ready, [])], [SECOND]);
    WholeBatch(FIRST);
    end := Step(t, Ack(2));
    Stays(end);
    Then(t, Ack(2), end, end);
  }

  /** The order of acknowledgement needs calm runs as well: two final flushes that overlap let two background flushes
      hold events at once, and the later event can be acknowledged first. */
  lemma OverlapReorders()
    ensures exists end :: Reaches(INITIAL, end) && !IsSub(end.past.acked, end.past.accepted)
  {
    var end := FirstAcknowledged();
    SecondAcknowledged(end);
    SecondSent(end);
    SecondStarts(end);
    SecondRecorded(end);
    SecondForgets(end);
    FirstSent(end);
    FirstRecorded(end);
    FirstForgets(end);
    BothFinish(end);
    Swapped();
  }

  lemma Swapped()
    ensures !IsSub([SECOND] + [FIRST], [FIRST, SECOND])
  {
    var a, b := [SECOND] + [FIRST], [FIRST, SECOND];
    assert b[..1] == [FIRST] && a[..1] == [SECOND] && [FIRST][..0] == [];
    assert !IsSub([SECOND], []) && !IsSub(a, []);
    assert !IsSub(a, [FIRST]);
  }
}
