/** Shipping the usage events of one session handle: Record, background and ticker flushes, and final flushes,
    as steps over the regions the meter runs under its locks. History fields record where each event went. */
module MeterProtocol {
  import opened JsonGrammar

  datatype Event = Event(id: nat)

  const MAX_BUFFERED: nat := 1000
  const MAX_BATCH: nat := 100

  // ----- the two buffer updates -----

  datatype Change = Change(buffer: seq<Event>, dropped: seq<Event>)

  /** Record: a full buffer loses its oldest event. */
  function Append(buffer: seq<Event>, e: Event): (c: Change)
    ensures c.dropped + c.buffer == buffer + [e]
    ensures |buffer| <= MAX_BUFFERED ==> |c.buffer| <= MAX_BUFFERED
  {
    if |buffer| >= MAX_BUFFERED then
      assert buffer == buffer[..1] + buffer[1..];
      Change(buffer[1..] + [e], buffer[..1])
    else Change(buffer + [e], [])
  }

  /** Requeue: unsent events go back in front; overflow is dropped from the front. */
  function Requeued(events: seq<Event>, buffer: seq<Event>): (c: Change)
    ensures c.dropped + c.buffer == events + buffer
    ensures |c.buffer| <= MAX_BUFFERED
  {
    var combined := events + buffer;
    var overflow := if |combined| > MAX_BUFFERED then |combined| - MAX_BUFFERED else 0;
    Change(combined[overflow..], combined[..overflow])
  }

  // ----- state -----

  /** A shipping record of the handle: `holder` has the send lock, `running` can be cancelled. */
  datatype Ship = Ship(closing: bool, holder: Option<nat>, running: Option<nat>)

  datatype Phase =
    | Marked                  // final: closing is set, the flush itself not entered
    | Waiting                 // for the send lock
    | Locked
    | Ready                   // between batches
    | Sending(again: bool)    // a report is on the wire
    | Returning               // unsent events, not yet requeued
    | Ended                   // nothing left, send lock still held
    | Deleting                // final: about to forget the handle
    | Gone

  /** `rest` is what the flush took and has not yet seen acknowledged. */
  datatype Flush = Flush(final: bool, cancelled: bool, ship: Option<nat>, phase: Phase, rest: seq<Event>)

  /** Where the accepted events went. */
  datatype History = History(accepted: seq<Event>, acked: seq<Event>, dropped: seq<Event>, lost: seq<Event>, discarded: seq<Event>)

  datatype State = State(closed: bool, buffer: seq<Event>, ships: seq<Ship>, current: Option<nat>, flushes: seq<Flush>, past: History)

  const INITIAL := State(false, [], [], None, [], History([], [], [], [], []))

  datatype Action =
    | Record(e: Event)
    | CloseMeter
    | StartFlush
    | MarkFinal
    | EnterFinal(i: nat)
    | Acquire(i: nat)
    | Take(i: nat)
    | Send(i: nat, token: bool)
    | Ack(i: nat)
    | Fail(i: nat, retry: bool)
    | Requeue(i: nat)
    | Finish(i: nat)
    | Delete(i: nat)

  predicate IsState(s: State) {
    && (s.current.Some? ==> s.current.value < |s.ships|)
    && forall i :: 0 <= i < |s.flushes| ==> s.flushes[i].ship.Some? ==> s.flushes[i].ship.value < |s.ships|
  }

  /** Neither the meter nor the handle is closing. */
  predicate IsOpen(s: State)
    requires IsState(s)
  {
    !s.closed && (s.current.Some? ==> !s.ships[s.current.value].closing)
  }

  /** The handle's shipping record, made if there is none. */
  function Opened(s: State): (r: State)
    requires IsState(s)
    ensures IsState(r) && r.current.Some?
  {
    if s.current.Some? then s else s.(ships := s.ships + [Ship(false, None, None)], current := Some(|s.ships|))
  }

  function WithFlush(s: State, i: nat, f: Flush): State
    requires i < |s.flushes|
  {
    s.(flushes := s.flushes[i := f])
  }

  function WithShip(s: State, k: nat, ship: Ship): State
    requires k < |s.ships|
  {
    s.(ships := s.ships[k := ship])
  }

  /** The next report: at most 100 events. */
  function Batch(rest: seq<Event>): seq<Event> {
    if |rest| <= MAX_BATCH then rest else rest[..MAX_BATCH]
  }

  predicate IsPhase(s: State, i: nat, phase: Phase) {
    i < |s.flushes| && s.flushes[i].ship.Some? && s.flushes[i].phase == phase
  }

  predicate IsSending(s: State, i: nat) {
    i < |s.flushes| && s.flushes[i].ship.Some? && s.flushes[i].phase.Sending? && s.flushes[i].rest != []
  }

  predicate Enabled(s: State, a: Action)
    requires IsState(s)
  {
    match a
    case Record(_) => true
    case CloseMeter => true
    case StartFlush => true
    case MarkFinal => true
    case EnterFinal(i) => i < |s.flushes| && s.flushes[i].phase.Marked?
    case Acquire(i) => IsPhase(s, i, Waiting) && s.ships[s.flushes[i].ship.value].holder.None?
    case Take(i) => IsPhase(s, i, Locked)
    case Send(i, _) => IsPhase(s, i, Ready) && s.flushes[i].rest != []
    case Ack(i) => IsSending(s, i)
    case Fail(i, _) => IsSending(s, i)
    case Requeue(i) => IsPhase(s, i, Returning)
    case Finish(i) => IsPhase(s, i, Ended) || (IsPhase(s, i, Ready) && s.flushes[i].rest == [])
    case Delete(i) => i < |s.flushes| && s.flushes[i].phase.Deleting?
  }

  function DoRecord(s: State, e: Event): (r: State)
    requires IsState(s)
    ensures IsState(r)
  {
    if s.closed then s
    else
      var s := Opened(s);
      if s.ships[s.current.value].closing then s
      else
        var c := Append(s.buffer, e);
        s.(buffer := c.buffer, past := s.past.(dropped := s.past.dropped + c.dropped, accepted := s.past.accepted + [e]))
  }

  function DoStart(s: State): (r: State)
    requires IsState(s)
    ensures IsState(r)
  {
    var s := Opened(s);
    s.(flushes := s.flushes + [Flush(false, false, s.current, Waiting, [])])
  }

  /** The attempt a shipping record can cancel is cancelled. */
  function Cancelled(s: State, running: Option<nat>): State {
    if running.Some? && running.value < |s.flushes|
    then WithFlush(s, running.value, s.flushes[running.value].(cancelled := true)) else s
  }

  /** A final flush begins: no more recording, and a running attempt is cancelled. */
  function DoMark(s: State): (r: State)
    requires IsState(s)
    ensures IsState(r)
  {
    var s := Opened(s);
    var k := s.current.value;
    var s := Cancelled(WithShip(s, k, s.ships[k].(closing := true)), s.ships[k].running);
    s.(flushes := s.flushes + [Flush(true, false, None, Marked, [])])
  }

  function DoEnter(s: State, i: nat): (r: State)
    requires IsState(s) && Enabled(s, EnterFinal(i))
    ensures IsState(r)
  {
    var s := Opened(s);
    WithFlush(s, i, s.flushes[i].(ship := s.current, phase := Waiting))
  }

  function DoAcquire(s: State, i: nat): (r: State)
    requires IsState(s) && Enabled(s, Acquire(i))
    ensures IsState(r)
  {
    var k := s.flushes[i].ship.value;
    WithFlush(WithShip(s, k, s.ships[k].(holder := Some(i))), i, s.flushes[i].(phase := Locked))
  }

  function DoTake(s: State, i: nat): (r: State)
    requires IsState(s) && Enabled(s, Take(i))
    ensures IsState(r)
  {
    var f := s.flushes[i];
    var k := f.ship.value;
    if s.ships[k].closing && !f.final
    then WithFlush(WithShip(s, k, s.ships[k].(holder := None)), i, f.(phase := Gone))
    else WithFlush(WithShip(s, k, s.ships[k].(running := Some(i))), i, f.(phase := Ready, rest := s.buffer)).(buffer := [])
  }

  /** A flush that cannot send the rest: a background one returns it, a final one gives it up. */
  function GiveUp(s: State, i: nat): (r: State)
    requires i < |s.flushes|
    ensures IsState(s) ==> IsState(r)
  {
    var f := s.flushes[i];
    if f.final then WithFlush(s, i, f.(phase := Ended, rest := [])).(past := s.past.(lost := s.past.lost + f.rest))
    else WithFlush(s, i, f.(phase := Returning))
  }

  function DoSend(s: State, i: nat, token: bool): (r: State)
    requires IsState(s) && Enabled(s, Send(i, token))
    ensures IsState(r)
  {
    if !token || s.flushes[i].cancelled then GiveUp(s, i)
    else WithFlush(s, i, s.flushes[i].(phase := Sending(false)))
  }

  function DoAck(s: State, i: nat): (r: State)
    requires IsState(s) && Enabled(s, Ack(i))
    ensures IsState(r)
  {
    var f := s.flushes[i];
    var batch := Batch(f.rest);
    WithFlush(s, i, f.(phase := Ready, rest := f.rest[|batch|..])).(past := s.past.(acked := s.past.acked + batch))
  }

  function DoFail(s: State, i: nat, retry: bool): (r: State)
    requires IsState(s) && Enabled(s, Fail(i, retry))
    ensures IsState(r)
  {
    var f := s.flushes[i];
    if f.final && retry && !f.phase.again then WithFlush(s, i, f.(phase := Sending(true))) else GiveUp(s, i)
  }

  function DoRequeue(s: State, i: nat): (r: State)
    requires IsState(s) && Enabled(s, Requeue(i))
    ensures IsState(r)
  {
    var f := s.flushes[i];
    var c := Requeued(f.rest, s.buffer);
    WithFlush(s, i, f.(phase := Ended, rest := [])).(buffer := c.buffer, past := s.past.(dropped := s.past.dropped + c.dropped))
  }

  function DoFinish(s: State, i: nat): (r: State)
    requires IsState(s) && Enabled(s, Finish(i))
    ensures IsState(r)
  {
    var f := s.flushes[i];
    var k := f.ship.value;
    WithFlush(WithShip(s, k, s.ships[k].(running := None, holder := None)), i, f.(phase := if f.final then Deleting else Gone))
  }

  /** A final flush forgets the handle. */
  function DoDelete(s: State, i: nat): (r: State)
    requires IsState(s) && Enabled(s, Delete(i))
    ensures IsState(r)
  {
    WithFlush(s, i, s.flushes[i].(phase := Gone))
      .(buffer := [], current := None, past := s.past.(discarded := s.past.discarded + s.buffer))
  }

  function Step(s: State, a: Action): (r: State)
    requires IsState(s) && Enabled(s, a)
    ensures IsState(r)
  {
    match a
    case Record(e) => DoRecord(s, e)
    case CloseMeter => s.(closed := true)
    case StartFlush => DoStart(s)
    case MarkFinal => DoMark(s)
    case EnterFinal(i) => DoEnter(s, i)
    case Acquire(i) => DoAcquire(s, i)
    case Take(i) => DoTake(s, i)
    case Send(i, token) => DoSend(s, i, token)
    case Ack(i) => DoAck(s, i)
    case Fail(i, retry) => DoFail(s, i, retry)
    case Requeue(i) => DoRequeue(s, i)
    case Finish(i) => DoFinish(s, i)
    case Delete(i) => DoDelete(s, i)
  }

  // ----- conservation: every accepted event is in exactly one place -----

  function Bag(f: Flush): multiset<Event> {
    multiset(f.rest)
  }

  function InFlight(flushes: seq<Flush>): multiset<Event> {
    if flushes == [] then multiset{} else InFlight(flushes[..|flushes| - 1]) + Bag(flushes[|flushes| - 1])
  }

  lemma {:induction false} InFlightUpdate(flushes: seq<Flush>, i: nat, f: Flush)
    requires i < |flushes|
    ensures Bag(flushes[i]) <= InFlight(flushes)
    ensures InFlight(flushes[i := f]) == InFlight(flushes) - Bag(flushes[i]) + Bag(f)
  {
    var last := |flushes| - 1;
    if i == last {
      assert flushes[i := f][..last] == flushes[..last];
    } else {
      InFlightUpdate(flushes[..last], i, f);
      assert flushes[i := f][..last] == flushes[..last][i := f];
    }
  }

  lemma InFlightMore(flushes: seq<Flush>, f: Flush)
    requires f.rest == []
    ensures InFlight(flushes + [f]) == InFlight(flushes)
  {
    assert (flushes + [f])[..|flushes|] == flushes;
  }

  function Settled(past: History): multiset<Event> {
    multiset(past.acked) + multiset(past.dropped) + multiset(past.lost) + multiset(past.discarded)
  }

  predicate IsConserved(s: State) {
    && multiset(s.past.accepted) == multiset(s.buffer) + InFlight(s.flushes) + Settled(s.past)
    && |s.buffer| <= MAX_BUFFERED
  }

  lemma SameBag(a: seq<Event>, b: seq<Event>, c: seq<Event>, d: seq<Event>)
    requires a + b == c + d
    ensures multiset(a) + multiset(b) == multiset(c) + multiset(d)
  {
    assert multiset(a + b) == multiset(c + d);
  }

  lemma Counted(dropped: seq<Event>, more: seq<Event>)
    ensures multiset(dropped + more) == multiset(dropped) + multiset(more)
  {
  }

  /** What comes in is in the new buffer or among the newly dropped. */
  lemma Balance(before: multiset<Event>, more: multiset<Event>, after: multiset<Event>, dropped: multiset<Event>,
                flying: multiset<Event>, past: History)
    requires dropped + after == before + more
    ensures before + more + flying + Settled(past)
            == after + flying + (multiset(past.acked) + (multiset(past.dropped) + dropped) + multiset(past.lost) + multiset(past.discarded))
  {
  }

  lemma RecordConserves(s: State, e: Event)
    requires IsState(s) && IsConserved(s)
    ensures IsConserved(DoRecord(s, e))
  {
    var c := Append(s.buffer, e);
    SameBag(c.dropped, c.buffer, s.buffer, [e]);
    Counted(s.past.dropped, c.dropped);
    Counted(s.past.accepted, [e]);
    Balance(multiset(s.buffer), multiset([e]), multiset(c.buffer), multiset(c.dropped), InFlight(s.flushes), s.past);
  }

  /** A flush that keeps what it holds changes nothing. */
  lemma SameRest(s: State, i: nat, f: Flush)
    requires i < |s.flushes| && f.rest == s.flushes[i].rest
    ensures InFlight(s.flushes[i := f]) == InFlight(s.flushes)
  {
    InFlightUpdate(s.flushes, i, f);
  }

  /** A flush that held nothing now holds something. */
  lemma Loaded(flushes: seq<Flush>, i: nat, f: Flush)
    requires i < |flushes| && flushes[i].rest == []
    ensures InFlight(flushes[i := f]) == InFlight(flushes) + Bag(f)
  {
    InFlightUpdate(flushes, i, f);
  }

  lemma TakeConserves(s: State, i: nat)
    requires IsState(s) && Enabled(s, Take(i)) && IsConserved(s) && s.flushes[i].rest == []
    ensures IsConserved(DoTake(s, i))
  {
    var f := DoTake(s, i).flushes[i];
    Loaded(s.flushes, i, f);
    assert DoTake(s, i).flushes == s.flushes[i := f];
  }

  /** A flush lets go of everything it holds. */
  lemma Released(flushes: seq<Flush>, i: nat, f: Flush) returns (others: multiset<Event>)
    requires i < |flushes| && f.rest == []
    ensures InFlight(flushes) == others + multiset(flushes[i].rest)
    ensures InFlight(flushes[i := f]) == others
  {
    InFlightUpdate(flushes, i, f);
    others := InFlight(flushes) - multiset(flushes[i].rest);
  }

  lemma LossBalance(buffer: multiset<Event>, flying: multiset<Event>, past: History, rest: seq<Event>)
    ensures buffer + (flying + multiset(rest)) + Settled(past) == buffer + flying + Settled(past.(lost := past.lost + rest))
  {
    Counted(past.lost, rest);
  }

  lemma GiveUpConserves(s: State, i: nat)
    requires i < |s.flushes| && IsConserved(s)
    ensures IsConserved(GiveUp(s, i))
  {
    var f := GiveUp(s, i).flushes[i];
    if s.flushes[i].final {
      var others := Released(s.flushes, i, f);
      LossBalance(multiset(s.buffer), others, s.past, s.flushes[i].rest);
    } else {
      SameRest(s, i, f);
    }
  }

  lemma CutBag(rest: seq<Event>, n: nat)
    requires n <= |rest|
    ensures multiset(rest) == multiset(rest[..n]) + multiset(rest[n..])
  {
    assert rest == rest[..n] + rest[n..];
  }

  /** A flush lets go of the front of what it holds. */
  lemma Unloaded(flushes: seq<Flush>, i: nat, n: nat, f: Flush)
    requires i < |flushes| && n <= |flushes[i].rest| && f.rest == flushes[i].rest[n..]
    ensures InFlight(flushes) == InFlight(flushes[i := f]) + multiset(flushes[i].rest[..n])
  {
    InFlightUpdate(flushes, i, f);
    CutBag(flushes[i].rest, n);
  }

  lemma AckBalance(buffer: multiset<Event>, flying: multiset<Event>, past: History, batch: seq<Event>)
    ensures buffer + (flying + multiset(batch)) + Settled(past) == buffer + flying + Settled(past.(acked := past.acked + batch))
  {
    Counted(past.acked, batch);
  }

  lemma AckConserves(s: State, i: nat)
    requires IsState(s) && Enabled(s, Ack(i)) && IsConserved(s)
    ensures IsConserved(DoAck(s, i))
  {
    var f := DoAck(s, i).flushes[i];
    var rest := s.flushes[i].rest;
    var batch := Batch(rest);
    assert batch == rest[..|batch|];
    Unloaded(s.flushes, i, |batch|, f);
    AckBalance(multiset(s.buffer), InFlight(s.flushes[i := f]), s.past, batch);
  }

  lemma RequeueConserves(s: State, i: nat)
    requires IsState(s) && Enabled(s, Requeue(i)) && IsConserved(s)
    ensures IsConserved(DoRequeue(s, i))
  {
    var rest := s.flushes[i].rest;
    var c := Requeued(rest, s.buffer);
    var others := Released(s.flushes, i, s.flushes[i].(phase := Ended, rest := []));
    SameBag(rest, s.buffer, c.dropped, c.buffer);
    Counted(s.past.dropped, c.dropped);
    Balance(multiset(s.buffer), multiset(rest), multiset(c.buffer), multiset(c.dropped), others, s.past);
  }
}
