/** The meter's own data: per handle a buffer and a shipping record, changed inside its locked regions.
    Each region is one step of the shipping protocol for its handle and leaves other handles alone. */
module Meter {
  import opened JsonGrammar
  import opened MeterProtocol

  const FLUSH_TRIGGER: nat := 25

  class SessionShip {
    var closing: bool
    var scheduled: bool
    constructor ()
      ensures !closing && !scheduled
    {
      closing := false;
      scheduled := false;
    }
  }

  class UsageMeter {
    var closed: bool
    var dropped: nat
    var buffers: map<string, seq<Event>>
    var ships: map<string, SessionShip>

    constructor ()
      ensures Valid() && !closed && dropped == 0
      ensures forall handle :: Matches(handle, INITIAL, [])
    {
      closed := false;
      dropped := 0;
      buffers := map[];
      ships := map[];
    }

    ghost predicate Valid()
      reads this
    {
      forall h, k :: h in ships && k in ships && h != k ==> ships[h] != ships[k]
    }

    function Buffered(handle: string): seq<Event>
      reads this
    {
      if handle in buffers then buffers[handle] else []
    }

    /** The meter's data for `handle` are those of the protocol state; `records` are all its shipping records so far. */
    ghost predicate Matches(handle: string, s: State, records: seq<SessionShip>)
      reads this, records
    {
      && IsState(s) && s.closed == closed && s.buffer == Buffered(handle)
      && |records| == |s.ships|
      && (forall i, j :: 0 <= i < j < |records| ==> records[i] != records[j])
      && (forall k :: 0 <= k < |records| ==> records[k].closing == s.ships[k].closing)
      && (handle in ships <==> s.current.Some?)
      && (s.current.Some? ==> ships[handle] == records[s.current.value])
    }

    /** Nothing about handles other than `handle` differs from before. */
    twostate predicate OnlyChanges(handle: string)
      reads this
    {
      && (forall h :: h != handle ==> Buffered(h) == old(Buffered(h)))
      && (forall h :: h != handle ==> (h in ships <==> h in old(ships)))
      && (forall h :: h != handle && h in old(ships) ==> ships[h] == old(ships[h]))
    }

    method StateOf(handle: string, ghost s: State, ghost records: seq<SessionShip>) returns (ship: SessionShip, ghost all: seq<SessionShip>)
      requires Valid() && Matches(handle, s, records)
      requires forall h :: h in ships && h != handle ==> ships[h] !in records
      modifies this`ships
      ensures Valid() && handle in ships && ships[handle] == ship
      ensures Matches(handle, Opened(s), all)
      ensures forall r :: r in all ==> r in records || fresh(r)
      ensures ship in all && (ship in records || (fresh(ship) && !ship.scheduled))
      ensures if handle in old(ships) then ship == old(ships[handle]) else fresh(ship)
      ensures OnlyChanges(handle) && buffers == old(buffers)
      ensures forall h :: h in ships && h != handle ==> ships[h] !in all
    {
      all := records;
      if handle in ships {
        ship := ships[handle];
      } else {
        ship := new SessionShip();
        ships := ships[handle := ship];
        all := records + [ship];
      }
    }

    /** `starts`: a background flush is to be started for the handle. */
    method Record(handle: string, e: Event, registered: bool, ghost s: State, ghost records: seq<SessionShip>)
      returns (starts: bool, ghost all: seq<SessionShip>)
      requires Valid() && Matches(handle, s, records)
      requires forall h :: h in ships && h != handle ==> ships[h] !in records
      modifies this, records
      ensures Valid() && OnlyChanges(handle)
      ensures handle == "" || !registered ==> all == records && Matches(handle, s, all)
      ensures handle != "" && registered ==> Matches(handle, DoRecord(s, e), all)
      ensures dropped - old(dropped) + |Buffered(handle)| - |old(Buffered(handle))|
              == if handle == "" || !registered || s.closed || Opened(s).ships[Opened(s).current.value].closing then 0 else 1
      ensures starts <==> && handle != "" && registered && IsOpen(s) && |Buffered(handle)| >= 25
                          && !(handle in old(ships) && old(ships[handle].scheduled))
      ensures starts ==> handle in ships && ships[handle].scheduled
      ensures forall r :: r in all ==> r in records || fresh(r)
    {
      starts := false;
      all := records;
      if handle == "" || !registered || closed { return; }
      var ship;
      ship, all := StateOf(handle, s, records);
      if ship.closing { return; }
      var buffer := Buffered(handle);
      if |buffer| >= MAX_BUFFERED {
        buffer := buffer[1..];
        dropped := dropped + 1;
      }
      buffers := buffers[handle := buffer + [e]];
      if |buffers[handle]| >= FLUSH_TRIGGER && !ship.scheduled {
        ship.scheduled := true;
        starts := true;
      }
    }

    /** The first region of a final flush; a running attempt's context is not part of these data. */
    method BeginFinal(handle: string, ghost s: State, ghost records: seq<SessionShip>) returns (ghost all: seq<SessionShip>)
      requires Valid() && Matches(handle, s, records)
      requires forall h :: h in ships && h != handle ==> ships[h] !in records
      modifies this`ships, records
      ensures Valid() && OnlyChanges(handle) && Matches(handle, DoMark(s), all)
      ensures forall r :: r in all ==> r in records || fresh(r)
    {
      var ship;
      ship, all := StateOf(handle, s, records);
      ship.closing := true;
    }

    /** Under the send lock: the flush takes the whole buffer, unless the record is closing and the flush is not final. */
    method TakeEvents(handle: string, ship: SessionShip, final: bool, ghost s: State, ghost records: seq<SessionShip>, ghost i: nat)
      returns (taken: bool, events: seq<Event>)
      requires Valid() && Matches(handle, s, records) && Enabled(s, Take(i))
      requires s.flushes[i].final == final && records[s.flushes[i].ship.value] == ship
      modifies this`buffers
      ensures OnlyChanges(handle) && Matches(handle, DoTake(s, i), records)
      ensures taken <==> DoTake(s, i).flushes[i].phase.Ready?
      ensures events == if taken then DoTake(s, i).flushes[i].rest else []
    {
      taken := !(ship.closing && !final);
      events := [];
      if taken {
        events := Buffered(handle);
        buffers := buffers - {handle};
      }
    }

    method Requeue(handle: string, events: seq<Event>, ghost s: State, ghost records: seq<SessionShip>, ghost i: nat)
      requires Valid() && Matches(handle, s, records) && Enabled(s, MeterProtocol.Requeue(i)) && s.flushes[i].rest == events
      modifies this`buffers, this`dropped
      ensures OnlyChanges(handle) && Matches(handle, DoRequeue(s, i), records)
      ensures dropped + |Buffered(handle)| == old(dropped) + |old(Buffered(handle))| + |events|
    {
      var combined := events + Buffered(handle);
      if |combined| > MAX_BUFFERED {
        var overflow := |combined| - MAX_BUFFERED;
        combined := combined[overflow..];
        dropped := dropped + overflow;
      }
      buffers := buffers[handle := combined];
    }

    /** The last region of a final flush. */
    method Forget(handle: string, ghost s: State, ghost records: seq<SessionShip>, ghost i: nat)
      requires Valid() && Matches(handle, s, records) && Enabled(s, Delete(i))
      modifies this`buffers, this`ships
      ensures Valid() && OnlyChanges(handle) && Matches(handle, DoDelete(s, i), records)
    {
      buffers := buffers - {handle};
      ships := ships - {handle};
    }
  }

  // ----- the batch loop of one flush -----

  function Concat(batches: seq<seq<Event>>): seq<Event> {
    if batches == [] then [] else Concat(batches[..|batches| - 1]) + batches[|batches| - 1]
  }

  /** What the world answers while one batch is sent: is there a token, do the two tries succeed, is the context still live. */
  datatype Answer = Answer(token: bool, first: bool, live: bool, second: bool)

  /** The batch is delivered: the second try is for final flushes only. */
  predicate IsDelivered(final: bool, answer: Answer) {
    answer.token && (answer.first || (final && answer.live && answer.second))
  }

  /** The batches concatenate to the taken events; the loop stops at the first one that is not delivered. */
  method SendBatches(final: bool, events: seq<Event>, answers: seq<Answer>) returns (sent: seq<seq<Event>>, unsent: seq<Event>)
    requires |answers| >= |events|
    ensures Concat(sent) + unsent == events && |sent| <= |events|
    ensures forall k :: 0 <= k < |sent| ==> 1 <= |sent[k]| <= MAX_BATCH && IsDelivered(final, answers[k])
    ensures forall k :: 0 <= k < |sent| && (k + 1 < |sent| || unsent != []) ==> |sent[k]| == MAX_BATCH
    ensures unsent != [] ==> |sent| < |answers| && !IsDelivered(final, answers[|sent|])
  {
    var start := 0;
    sent := [];
    while start < |events|
      invariant 0 <= start <= |events| && |sent| <= start
      invariant Concat(sent) == events[..start]
      invariant forall k :: 0 <= k < |sent| ==> 1 <= |sent[k]| <= MAX_BATCH && IsDelivered(final, answers[k])
      invariant forall k :: 0 <= k < |sent| && (k + 1 < |sent| || start < |events|) ==> |sent[k]| == MAX_BATCH
    {
      var end := if start + MAX_BATCH <= |events| then start + MAX_BATCH else |events|;
      var answer := answers[|sent|];
      if !answer.token {
        return sent, events[start..];
      }
      var delivered := answer.first;
      if !delivered && final && answer.live {
        delivered := answer.second;
      }
      if !delivered {
        return sent, events[start..];
      }
      assert events[..end] == events[..start] + events[start..end];
      assert (sent + [events[start..end]])[..|sent|] == sent;
      sent := sent + [events[start..end]];
      start := end;
    }
    unsent := [];
  }
}
