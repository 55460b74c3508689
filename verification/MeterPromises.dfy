/** What the steps of shipping get done: recording is accepted, flushes deliver, failed ones give back or retry. */
module MeterPromises {
  import opened JsonGrammar
  import opened MeterProtocol
  import opened MeterRuns

  /** An event is accepted exactly while the meter and the handle are open; it comes last, and only a full buffer loses an
      event for it, the oldest one. */
  lemma RecordIsAccepted(s: State, e: Event)
    requires IsState(s) && |s.buffer| <= 1000
    ensures var r := Step(s, Record(e));
            if !IsOpen(s) then r.buffer == s.buffer && r.past == s.past
            else if |s.buffer| < 1000 then
              r.buffer == s.buffer + [e] && r.past == s.past.(accepted := s.past.accepted + [e])
            else
              && r.buffer == s.buffer[1..] + [e]
              && r.past == s.past.(accepted := s.past.accepted + [e], dropped := s.past.dropped + [s.buffer[0]])
  {
    if IsOpen(s) && |s.buffer| == 1000 { assert s.buffer[..1] == [s.buffer[0]]; }
    if IsOpen(s) && |s.buffer| < 1000 { assert s.past.dropped + [] == s.past.dropped; }
  }

  // ----- delivery -----

  predicate CanReport(s: State, i: nat) {
    IsState(s) && IsPhase(s, i, Ready) && !s.flushes[i].cancelled && s.flushes[i].rest != []
  }

  function Sent(s: State, i: nat): State
    requires CanReport(s, i)
  {
    WithFlush(s, i, s.flushes[i].(phase := Sending(false)))
  }

  /** One report, acknowledged: at most 100 events, from the front. */
  function Reported(s: State, i: nat): State
    requires CanReport(s, i)
  {
    var rest := s.flushes[i].rest;
    var n := if |rest| <= 100 then |rest| else 100;
    WithFlush(s, i, s.flushes[i].(rest := rest[n..])).(past := s.past.(acked := s.past.acked + rest[..n]))
  }

  lemma SendSends(s: State, i: nat)
    requires CanReport(s, i)
    ensures Enabled(s, Send(i, true)) && Step(s, Send(i, true)) == Sent(s, i)
  {
  }

  lemma AckReports(s: State, i: nat)
    requires CanReport(s, i)
    ensures IsState(Sent(s, i)) && Enabled(Sent(s, i), Ack(i)) && Step(Sent(s, i), Ack(i)) == Reported(s, i)
  {
    var rest := s.flushes[i].rest;
    assert rest[..|rest|] == rest;
    assert DoAck(Sent(s, i), i).flushes == Reported(s, i).flushes;
  }

  lemma RunOne(s: State, a: Action, more: seq<Action>)
    requires IsState(s) && Enabled(s, a) && CanRun(Step(s, a), more)
    ensures CanRun(s, [a] + more) && RunAll(s, [a] + more) == RunAll(Step(s, a), more)
  {
    assert ([a] + more)[1..] == more;
  }

  /** What is left of a flush once it delivered everything. */
  function Delivered(s: State, i: nat): State
    requires i < |s.flushes|
  {
    WithFlush(s, i, s.flushes[i].(rest := [])).(past := s.past.(acked := s.past.acked + s.flushes[i].rest))
  }

  lemma ReportedDelivers(s: State, i: nat)
    requires CanReport(s, i)
    ensures Delivered(Reported(s, i), i) == Delivered(s, i)
  {
    var rest := s.flushes[i].rest;
    var n := if |rest| <= 100 then |rest| else 100;
    assert rest[..n] + rest[n..] == rest;
    assert s.past.acked + rest[..n] + rest[n..] == s.past.acked + (rest[..n] + rest[n..]);
  }

  lemma NothingLeft(s: State, i: nat)
    requires i < |s.flushes| && s.flushes[i].rest == []
    ensures Delivered(s, i) == s
  {
    assert s.past.acked + [] == s.past.acked;
    assert s.flushes[i := s.flushes[i].(rest := [])] == s.flushes;
  }

  /** A flush that is not cancelled can deliver all it took, in order, in reports of at most 100 events, and leaves everything
      else as it is. */
  lemma {:induction false} FlushDelivers(s: State, i: nat) returns (actions: seq<Action>)
    requires IsState(s) && IsPhase(s, i, Ready) && !s.flushes[i].cancelled
    ensures |actions| == 2 * ((|s.flushes[i].rest| + 99) / 100)
    ensures CanRun(s, actions) && RunAll(s, actions) == Delivered(s, i)
    decreases |s.flushes[i].rest|
  {
    if s.flushes[i].rest == [] {
      actions := [];
      NothingLeft(s, i);
    } else {
      SendSends(s, i);
      AckReports(s, i);
      ReportedDelivers(s, i);
      var more := FlushDelivers(Reported(s, i), i);
      RunOne(Sent(s, i), Ack(i), more);
      RunOne(s, Send(i, true), [Ack(i)] + more);
      actions := [Send(i, true)] + ([Ack(i)] + more);
    }
  }

  // ----- failure -----

  /** A background flush gives up. */
  lemma BackgroundGivesUp(s: State, i: nat, a: Action)
    requires IsState(s) && i < |s.flushes| && !s.flushes[i].final && Enabled(s, a)
    requires match a
             case Fail(j, _) => j == i
             case Send(j, token) => j == i && (!token || s.flushes[i].cancelled)
             case _ => false
    ensures Step(s, a) == WithFlush(s, i, s.flushes[i].(phase := Returning)) && Enabled(Step(s, a), Requeue(i))
  {
  }

  lemma Kept(events: seq<Event>)
    ensures events[0..] == events && events[..0] == []
    ensures |events| > 1000 ==> events[..|events| - 1000] + events[|events| - 1000..] == events
  {
  }

  /** A background flush that has no credential, is cancelled or whose report fails gives back all it holds, in front of what
      came meanwhile; beyond 1000 events the oldest go. */
  lemma BackgroundGivesBack(s: State, i: nat)
    requires IsState(s) && IsPhase(s, i, Returning)
    ensures var r := Step(s, Requeue(i));
            var all := s.flushes[i].rest + s.buffer;
            && r.flushes[i].rest == [] && r.past.acked == s.past.acked && r.past.lost == s.past.lost
            && (|all| <= 1000 ==> r.buffer == all && r.past == s.past)
            && (|all| > 1000 ==> |r.buffer| == 1000 && r.past.dropped + r.buffer == s.past.dropped + all)
  {
    var all := s.flushes[i].rest + s.buffer;
    Kept(all);
    assert s.past.dropped + [] == s.past.dropped;
  }

  /** A final flush sends a failed report once more while there is time, and gives up what is left at the next failure. */
  lemma FinalRetriesOnce(s: State, i: nat, retry: bool)
    requires IsState(s) && IsPhase(s, i, Sending(false)) && s.flushes[i].rest != [] && s.flushes[i].final
    ensures var once := Step(s, Fail(i, true));
            && once == WithFlush(s, i, s.flushes[i].(phase := Sending(true))) && Enabled(once, Ack(i)) && Enabled(once, Fail(i, retry))
            && var twice := Step(once, Fail(i, retry));
               twice.flushes[i].rest == [] && twice.past == s.past.(lost := s.past.lost + s.flushes[i].rest) && twice.buffer == s.buffer
    ensures Step(s, Fail(i, false)).past == s.past.(lost := s.past.lost + s.flushes[i].rest)
  {
  }
}
