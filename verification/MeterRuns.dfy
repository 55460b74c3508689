/** Every run of the shipping protocol: what is conserved in all of them, and what holds when
    final flushes of a handle do not overlap. */
module MeterRuns {
  import opened JsonGrammar
  import opened MeterProtocol

  predicate CanRun(s: State, actions: seq<Action>)
    requires IsState(s)
    decreases |actions|
  {
    actions == [] || (Enabled(s, actions[0]) && CanRun(Step(s, actions[0]), actions[1..]))
  }

  function RunAll(s: State, actions: seq<Action>): (r: State)
    requires IsState(s) && CanRun(s, actions)
    ensures IsState(r)
    decreases |actions|
  {
    if actions == [] then s else RunAll(Step(s, actions[0]), actions[1..])
  }

  // ----- all runs -----

  predicate IsBusy(f: Flush) {
    f.phase.Ready? || f.phase.Sending? || f.phase.Returning?
  }

  /** Only a flush between taking and returning holds events. */
  predicate AreFit(flushes: seq<Flush>) {
    forall i :: 0 <= i < |flushes| ==> IsBusy(flushes[i]) || flushes[i].rest == []
  }

  predicate RestsFit(s: State) {
    AreFit(s.flushes)
  }

  lemma StaysFit(flushes: seq<Flush>, i: nat, f: Flush)
    requires AreFit(flushes) && i < |flushes| && (IsBusy(f) || f.rest == [])
    ensures AreFit(flushes[i := f])
  {
  }

  lemma MarkRestsFit(s: State)
    requires IsState(s) && RestsFit(s)
    ensures RestsFit(DoMark(s))
  {
    var t := Opened(s);
    var running := t.ships[t.current.value].running;
    if running.Some? && running.value < |t.flushes| {
      StaysFit(t.flushes, running.value, t.flushes[running.value].(cancelled := true));
    }
  }

  /** The steps of a flush from taking the buffer to giving back what it could not send. */
  predicate IsShipping(a: Action) {
    a.Take? || a.Send? || a.Ack? || a.Fail? || a.Requeue?
  }

  lemma ShippingRestsFit(s: State, a: Action)
    requires IsState(s) && Enabled(s, a) && RestsFit(s) && IsShipping(a)
    ensures RestsFit(Step(s, a))
  {
    match a
    case Take(i) => StaysFit(s.flushes, i, DoTake(s, i).flushes[i]);
    case Send(i, token) => StaysFit(s.flushes, i, DoSend(s, i, token).flushes[i]);
    case Ack(i) => StaysFit(s.flushes, i, DoAck(s, i).flushes[i]);
    case Fail(i, retry) => StaysFit(s.flushes, i, DoFail(s, i, retry).flushes[i]);
    case Requeue(i) => StaysFit(s.flushes, i, DoRequeue(s, i).flushes[i]);
  }

  lemma StepRestsFit(s: State, a: Action)
    requires IsState(s) && Enabled(s, a) && RestsFit(s)
    ensures RestsFit(Step(s, a))
  {
    if IsShipping(a) {
      ShippingRestsFit(s, a);
    } else {
      match a
      case Record(e) =>
      case CloseMeter =>
      case StartFlush =>
      case MarkFinal => MarkRestsFit(s);
      case EnterFinal(i) => StaysFit(s.flushes, i, DoEnter(s, i).flushes[i]);
      case Acquire(i) => StaysFit(s.flushes, i, DoAcquire(s, i).flushes[i]);
      case Finish(i) => StaysFit(s.flushes, i, DoFinish(s, i).flushes[i]);
      case Delete(i) => StaysFit(s.flushes, i, DoDelete(s, i).flushes[i]);
    }
  }

  lemma StepConserves(s: State, a: Action)
    requires IsState(s) && Enabled(s, a) && RestsFit(s) && IsConserved(s)
    ensures IsConserved(Step(s, a))
  {
    match a
    case Record(e) => RecordConserves(s, e);
    case CloseMeter =>
    case StartFlush => InFlightMore(s.flushes, Flush(false, false, Opened(s).current, Waiting, []));
    case MarkFinal => MarkConserves(s);
    case EnterFinal(i) => SameRest(s, i, DoEnter(s, i).flushes[i]);
    case Acquire(i) => SameRest(s, i, DoAcquire(s, i).flushes[i]);
    case Take(i) => TakeConserves(s, i);
    case Send(i, token) =>
      if !token || s.flushes[i].cancelled { GiveUpConserves(s, i); } else { SameRest(s, i, DoSend(s, i, token).flushes[i]); }
    case Ack(i) => AckConserves(s, i);
    case Fail(i, retry) =>
      var f := s.flushes[i];
      if f.final && retry && !f.phase.again { SameRest(s, i, DoFail(s, i, retry).flushes[i]); } else { GiveUpConserves(s, i); }
    case Requeue(i) => RequeueConserves(s, i);
    case Finish(i) => SameRest(s, i, DoFinish(s, i).flushes[i]);
    case Delete(i) => DeleteConserves(s, i);
  }

  lemma MarkConserves(s: State)
    requires IsState(s) && IsConserved(s)
    ensures IsConserved(DoMark(s))
  {
    var t := Opened(s);
    var running := t.ships[t.current.value].running;
    if running.Some? && running.value < |t.flushes| {
      SameRest(t, running.value, t.flushes[running.value].(cancelled := true));
    }
    InFlightMore(Cancelled(t, running).flushes, Flush(true, false, None, Marked, []));
  }

  lemma DeleteConserves(s: State, i: nat)
    requires IsState(s) && Enabled(s, Delete(i)) && IsConserved(s)
    ensures IsConserved(DoDelete(s, i))
  {
    SameRest(s, i, DoDelete(s, i).flushes[i]);
  }

  /** In every interleaving: each accepted event is buffered, in flight, acknowledged, dropped for overflow,
      lost by a final flush or discarded with the handle, exactly once; and the buffer never exceeds its bound. */
  lemma {:induction false} RunConserves(s: State, actions: seq<Action>)
    requires IsState(s) && CanRun(s, actions) && RestsFit(s) && IsConserved(s)
    ensures IsConserved(RunAll(s, actions))
    decreases |actions|
  {
    if actions != [] {
      StepRestsFit(s, actions[0]);
      StepConserves(s, actions[0]);
      RunConserves(Step(s, actions[0]), actions[1..]);
    }
  }

  lemma EveryRunConserves(actions: seq<Action>)
    requires CanRun(INITIAL, actions)
    ensures IsConserved(RunAll(INITIAL, actions))
  {
    RunConserves(INITIAL, actions);
  }
}
