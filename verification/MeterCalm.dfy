/** Runs in which final flushes of the handle do not overlap: nothing is discarded, order is kept,
    and a final flush finds every undelivered event in the buffer it takes. */
module MeterCalm {
  import opened JsonGrammar
  import opened MeterProtocol
  import opened MeterRuns

  /** A final flush that has started and not yet forgotten the handle. */
  predicate IsActiveFinal(f: Flush) {
    f.final && !f.phase.Gone?
  }

  predicate HasActiveFinal(s: State) {
    exists i :: 0 <= i < |s.flushes| && IsActiveFinal(s.flushes[i])
  }

  /** A final flush starts only when no other one is active. */
  predicate IsCalm(s: State, a: Action) {
    a.MarkFinal? ==> !HasActiveFinal(s)
  }

  predicate HoldsLock(f: Flush) {
    f.phase.Locked? || f.phase.Ended? || IsBusy(f)
  }

  /** A final flush that has taken the buffer. */
  predicate HasTaken(f: Flush) {
    f.final && (f.phase.Ended? || f.phase.Deleting? || IsBusy(f))
  }

  predicate LocksFit(s: State)
    requires IsState(s)
  {
    forall i :: 0 <= i < |s.flushes| && HoldsLock(s.flushes[i]) ==>
      s.flushes[i].ship.Some? && s.ships[s.flushes[i].ship.value].holder == Some(i)
  }

  /** A busy flush is the one its shipping record can cancel. */
  predicate CancelsFit(s: State)
    requires IsState(s)
  {
    forall i :: 0 <= i < |s.flushes| && IsBusy(s.flushes[i]) ==>
      s.flushes[i].ship.Some? && s.ships[s.flushes[i].ship.value].running == Some(i)
  }

  /** Records no longer current are closed for good. */
  predicate OldShipsClosed(s: State) {
    forall k :: 0 <= k < |s.ships| ==> s.current == Some(k) || s.ships[k].closing
  }

  /** A background flush that holds events does so on the current record, and is cancelled once that closes. */
  predicate BusyIsCurrent(s: State)
    requires IsState(s)
  {
    forall i :: 0 <= i < |s.flushes| && IsBusy(s.flushes[i]) && !s.flushes[i].final ==>
      && s.flushes[i].ship.Some? && s.current == s.flushes[i].ship
      && (s.ships[s.flushes[i].ship.value].closing ==> s.flushes[i].cancelled)
  }

  predicate OneFinal(s: State) {
    forall i, j :: 0 <= i < |s.flushes| && 0 <= j < |s.flushes| && IsActiveFinal(s.flushes[i]) && IsActiveFinal(s.flushes[j]) ==> i == j
  }

  /** An active final flush keeps the current record closed and, once entered, works on it. */
  predicate FinalFits(s: State)
    requires IsState(s)
  {
    forall i :: 0 <= i < |s.flushes| && IsActiveFinal(s.flushes[i]) ==>
      && s.current.Some? && s.ships[s.current.value].closing
      && (s.flushes[i].phase.Marked? || s.flushes[i].ship == s.current)
  }

  /** After a final flush has taken the buffer, it stays empty and no background flush holds events. */
  predicate TakenFits(s: State) {
    forall i :: 0 <= i < |s.flushes| && HasTaken(s.flushes[i]) ==>
      s.buffer == [] && forall j :: 0 <= j < |s.flushes| && IsBusy(s.flushes[j]) ==> i == j
  }

  /** Only final flushes mark and delete; only background ones return events. */
  predicate KindsFit(s: State) {
    forall i :: 0 <= i < |s.flushes| ==>
      && (s.flushes[i].phase.Marked? || s.flushes[i].phase.Deleting? ==> s.flushes[i].final)
      && (s.flushes[i].phase.Returning? ==> !s.flushes[i].final)
  }

  predicate IsOrderly(s: State)
    requires IsState(s)
  {
    && LocksFit(s) && CancelsFit(s) && OldShipsClosed(s) && BusyIsCurrent(s)
    && OneFinal(s) && FinalFits(s) && TakenFits(s) && KindsFit(s) && s.past.discarded == []
  }

  lemma OpenedOrderly(s: State)
    requires IsState(s) && IsOrderly(s)
    ensures IsOrderly(Opened(s))
  {
  }

  lemma RecordOrderly(s: State, e: Event)
    requires IsState(s) && IsOrderly(s)
    ensures IsOrderly(DoRecord(s, e))
  {
    OpenedOrderly(s);
  }

  lemma StartOrderly(s: State)
    requires IsState(s) && IsOrderly(s)
    ensures IsOrderly(DoStart(s))
  {
    OpenedOrderly(s);
    QueuedOrderly(Opened(s));
  }

  lemma QueuedOrderly(s: State)
    requires IsState(s) && IsOrderly(s) && s.current.Some?
    ensures var r := s.(flushes := s.flushes + [Flush(false, false, s.current, Waiting, [])]); IsState(r) && IsOrderly(r)
  {
    QueuedLocks(s);
    QueuedFinals(s);
  }

  lemma QueuedLocks(s: State)
    requires IsState(s) && IsOrderly(s) && s.current.Some?
    ensures var r := s.(flushes := s.flushes + [Flush(false, false, s.current, Waiting, [])]);
            IsState(r) && LocksFit(r) && CancelsFit(r) && BusyIsCurrent(r) && KindsFit(r)
  {
  }

  lemma QueuedFinals(s: State)
    requires IsState(s) && IsOrderly(s) && s.current.Some?
    ensures var r := s.(flushes := s.flushes + [Flush(false, false, s.current, Waiting, [])]);
            IsState(r) && OneFinal(r) && FinalFits(r) && TakenFits(r)
  {
  }

  /** Closing the current record and cancelling its running attempt. */
  function Closed(s: State, k: nat): (t: State)
    requires IsState(s) && k < |s.ships|
    ensures IsState(t) && |t.flushes| == |s.flushes|
    ensures t == s.(flushes := t.flushes, ships := s.ships[k := s.ships[k].(closing := true)])
    ensures forall i :: 0 <= i < |t.flushes| ==> t.flushes[i] == s.flushes[i].(cancelled := t.flushes[i].cancelled)
  {
    Cancelled(WithShip(s, k, s.ships[k].(closing := true)), s.ships[k].running)
  }

  lemma ClosedBusy(s: State, k: nat)
    requires IsState(s) && IsOrderly(s) && s.current == Some(k)
    ensures BusyIsCurrent(Closed(s, k))
  {
  }

  lemma ClosedLocks(s: State, k: nat)
    requires IsState(s) && IsOrderly(s) && s.current == Some(k)
    ensures var t := Closed(s, k); LocksFit(t) && CancelsFit(t) && OldShipsClosed(t) && KindsFit(t)
  {
  }

  lemma ClosedOrderly(s: State, k: nat)
    requires IsState(s) && IsOrderly(s) && s.current == Some(k) && !HasActiveFinal(s)
    ensures IsOrderly(Closed(s, k)) && !HasActiveFinal(Closed(s, k))
  {
    ClosedBusy(s, k);
    ClosedLocks(s, k);
    var t := Closed(s, k);
    assert forall i :: 0 <= i < |t.flushes| ==> (HasTaken(t.flushes[i]) ==> IsActiveFinal(t.flushes[i]));
    assert !HasActiveFinal(t) by {
      forall i | 0 <= i < |t.flushes| ensures !IsActiveFinal(t.flushes[i]) { assert !IsActiveFinal(s.flushes[i]); }
    }
  }

  lemma MarkOrderly(s: State)
    requires IsState(s) && IsOrderly(s) && !HasActiveFinal(s)
    ensures IsOrderly(DoMark(s))
  {
    OpenedOrderly(s);
    var t := Opened(s);
    var k := t.current.value;
    ClosedOrderly(t, k);
    MarkedOrderly(Closed(t, k));
  }

  lemma MarkedOrderly(s: State)
    requires IsState(s) && IsOrderly(s) && s.current.Some? && s.ships[s.current.value].closing && !HasActiveFinal(s)
    ensures var r := s.(flushes := s.flushes + [Flush(true, false, None, Marked, [])]); IsState(r) && IsOrderly(r)
  {
  }

  lemma EnterOrderly(s: State, i: nat)
    requires IsState(s) && IsOrderly(s) && Enabled(s, EnterFinal(i))
    ensures IsOrderly(DoEnter(s, i))
  {
  }

  lemma AcquireOrderly(s: State, i: nat)
    requires IsState(s) && IsOrderly(s) && Enabled(s, Acquire(i))
    ensures IsOrderly(DoAcquire(s, i))
  {
  }

  lemma TakeOrderly(s: State, i: nat)
    requires IsState(s) && IsOrderly(s) && Enabled(s, Take(i))
    ensures IsOrderly(DoTake(s, i))
  {
    if s.ships[s.flushes[i].ship.value].closing && !s.flushes[i].final {
      TurnedAwayOrderly(s, i);
    } else {
      NoneBusy(s, i);
      TakenOrderly(s, i);
    }
  }

  lemma TurnedAwayOrderly(s: State, i: nat)
    requires IsState(s) && IsOrderly(s) && Enabled(s, Take(i))
    requires s.ships[s.flushes[i].ship.value].closing && !s.flushes[i].final
    ensures IsOrderly(DoTake(s, i))
  {
  }

  /** A flush about to take the buffer has the current record, so no other flush is busy. */
  lemma NoneBusy(s: State, i: nat)
    requires IsState(s) && IsOrderly(s) && Enabled(s, Take(i))
    requires !(s.ships[s.flushes[i].ship.value].closing && !s.flushes[i].final)
    ensures s.current == s.flushes[i].ship
    ensures forall j :: 0 <= j < |s.flushes| ==> !IsBusy(s.flushes[j])
    ensures forall j :: 0 <= j < |s.flushes| ==> !HasTaken(s.flushes[j])
    ensures !s.flushes[i].final ==> !HasActiveFinal(s)
  {
  }

  lemma TakenOrderly(s: State, i: nat)
    requires IsState(s) && IsOrderly(s) && Enabled(s, Take(i))
    requires !(s.ships[s.flushes[i].ship.value].closing && !s.flushes[i].final)
    requires s.current == s.flushes[i].ship
    requires forall j :: 0 <= j < |s.flushes| ==> !IsBusy(s.flushes[j])
    requires forall j :: 0 <= j < |s.flushes| ==> !HasTaken(s.flushes[j])
    ensures IsOrderly(DoTake(s, i))
  {
    var r := DoTake(s, i);
    assert LocksFit(r) && CancelsFit(r);
    assert OneFinal(r) && FinalFits(r);
  }

  lemma GiveUpOrderly(s: State, i: nat)
    requires IsState(s) && IsOrderly(s) && i < |s.flushes| && IsBusy(s.flushes[i])
    ensures IsOrderly(GiveUp(s, i))
  {
    if s.flushes[i].final { FinalGivesUp(s, i); } else { BackgroundGivesUp(s, i); }
  }

  lemma FinalGivesUp(s: State, i: nat)
    requires IsState(s) && IsOrderly(s) && i < |s.flushes| && IsBusy(s.flushes[i]) && s.flushes[i].final
    ensures IsOrderly(GiveUp(s, i))
  {
  }

  lemma BackgroundGivesUp(s: State, i: nat)
    requires IsState(s) && IsOrderly(s) && i < |s.flushes| && IsBusy(s.flushes[i]) && !s.flushes[i].final
    ensures IsOrderly(GiveUp(s, i))
  {
  }

  lemma OnTheWireOrderly(s: State, i: nat, again: bool)
    requires IsState(s) && IsOrderly(s) && i < |s.flushes| && IsBusy(s.flushes[i]) && !s.flushes[i].phase.Returning?
    ensures var r := WithFlush(s, i, s.flushes[i].(phase := Sending(again))); IsState(r) && IsOrderly(r)
  {
  }

  lemma SendOrderly(s: State, i: nat, token: bool)
    requires IsState(s) && IsOrderly(s) && Enabled(s, Send(i, token))
    ensures IsOrderly(DoSend(s, i, token))
  {
    if !token || s.flushes[i].cancelled { GiveUpOrderly(s, i); } else { OnTheWireOrderly(s, i, false); }
  }

  lemma AckOrderly(s: State, i: nat)
    requires IsState(s) && IsOrderly(s) && Enabled(s, Ack(i))
    ensures IsOrderly(DoAck(s, i))
  {
  }

  lemma FailOrderly(s: State, i: nat, retry: bool)
    requires IsState(s) && IsOrderly(s) && Enabled(s, Fail(i, retry))
    ensures IsOrderly(DoFail(s, i, retry))
  {
    var f := s.flushes[i];
    if f.final && retry && !f.phase.again { OnTheWireOrderly(s, i, true); } else { GiveUpOrderly(s, i); }
  }

  lemma RequeueOrderly(s: State, i: nat)
    requires IsState(s) && IsOrderly(s) && Enabled(s, Requeue(i))
    ensures IsOrderly(DoRequeue(s, i))
  {
  }

  lemma FinishOrderly(s: State, i: nat)
    requires IsState(s) && IsOrderly(s) && Enabled(s, Finish(i))
    ensures IsOrderly(DoFinish(s, i))
  {
  }

  lemma DeleteOrderly(s: State, i: nat)
    requires IsState(s) && IsOrderly(s) && Enabled(s, Delete(i))
    ensures IsOrderly(DoDelete(s, i))
  {
  }

  lemma StepOrderly(s: State, a: Action)
    requires IsState(s) && IsOrderly(s) && Enabled(s, a) && IsCalm(s, a)
    ensures IsOrderly(Step(s, a))
  {
    match a
    case Record(e) => RecordOrderly(s, e);
    case CloseMeter =>
    case StartFlush => StartOrderly(s);
    case MarkFinal => MarkOrderly(s);
    case EnterFinal(i) => EnterOrderly(s, i);
    case Acquire(i) => AcquireOrderly(s, i);
    case Take(i) => TakeOrderly(s, i);
    case Send(i, token) => SendOrderly(s, i, token);
    case Ack(i) => AckOrderly(s, i);
    case Fail(i, retry) => FailOrderly(s, i, retry);
    case Requeue(i) => RequeueOrderly(s, i);
    case Finish(i) => FinishOrderly(s, i);
    case Delete(i) => DeleteOrderly(s, i);
  }

  // ----- order -----

  /** `a` is `b` with some elements left out. */
  predicate IsSub(a: seq<Event>, b: seq<Event>)
    decreases |b|
  {
    a == [] || (b != [] &&
      ((a[|a| - 1] == b[|b| - 1] && IsSub(a[..|a| - 1], b[..|b| - 1])) || IsSub(a, b[..|b| - 1])))
  }

  lemma SubMore(a: seq<Event>, b: seq<Event>, e: Event)
    requires IsSub(a, b)
    ensures IsSub(a + [e], b + [e])
  {
    assert (a + [e])[..|a|] == a && (b + [e])[..|b|] == b;
  }

  /** Leaving out a middle part keeps a subsequence one. */
  lemma {:induction false} SubCut(p: seq<Event>, q: seq<Event>, r: seq<Event>, b: seq<Event>)
    requires IsSub(p + q + r, b)
    ensures IsSub(p + r, b)
    decreases |b|
  {
    var a := p + q + r;
    if q == [] {
      assert a == p + r;
    } else if IsSub(a, b[..|b| - 1]) {
      SubCut(p, q, r, b[..|b| - 1]);
    } else if r == [] {
      assert a[..|a| - 1] == p + q[..|q| - 1] + r;
      SubCut(p, q[..|q| - 1], r, b[..|b| - 1]);
    } else {
      assert a[..|a| - 1] == p + q + r[..|r| - 1];
      SubCut(p, q, r[..|r| - 1], b[..|b| - 1]);
      assert (p + r)[..|p + r| - 1] == p + r[..|r| - 1];
    }
  }

  /** What the flushes hold, in the order of the flushes; at most one of them holds anything. */
  function Flying(flushes: seq<Flush>): seq<Event> {
    if flushes == [] then [] else Flying(flushes[..|flushes| - 1]) + flushes[|flushes| - 1].rest
  }

  lemma {:induction false} FlyingNone(flushes: seq<Flush>)
    requires forall j :: 0 <= j < |flushes| ==> flushes[j].rest == []
    ensures Flying(flushes) == []
  {
    if flushes != [] { FlyingNone(flushes[..|flushes| - 1]); }
  }

  lemma {:induction false} FlyingOne(flushes: seq<Flush>, i: nat)
    requires i < |flushes| && forall j :: 0 <= j < |flushes| && j != i ==> flushes[j].rest == []
    ensures Flying(flushes) == flushes[i].rest
  {
    if i == |flushes| - 1 {
      FlyingNone(flushes[..i]);
    } else {
      FlyingOne(flushes[..|flushes| - 1], i);
    }
  }

  lemma {:induction false} FlyingSame(a: seq<Flush>, b: seq<Flush>)
    requires |a| == |b| && forall j :: 0 <= j < |a| ==> a[j].rest == b[j].rest
    ensures Flying(a) == Flying(b)
  {
    if a != [] { FlyingSame(a[..|a| - 1], b[..|b| - 1]); }
  }

  lemma FlyingMore(flushes: seq<Flush>, f: Flush)
    requires f.rest == []
    ensures Flying(flushes + [f]) == Flying(flushes)
  {
    assert (flushes + [f])[..|flushes|] == flushes;
  }

  /** Acknowledged, in flight and buffered events, in that order, are the accepted ones with some left out. */
  predicate IsOrdered(s: State) {
    IsSub(s.past.acked + Flying(s.flushes) + s.buffer, s.past.accepted)
  }

  /** Only one flush is busy at a time. */
  lemma OnlyBusy(s: State, i: nat)
    requires IsState(s) && IsOrderly(s) && RestsFit(s) && i < |s.flushes| && IsBusy(s.flushes[i])
    ensures forall j :: 0 <= j < |s.flushes| && j != i ==> s.flushes[j].rest == []
    ensures Flying(s.flushes) == s.flushes[i].rest
  {
    FlyingOne(s.flushes, i);
  }

  lemma RecordOrdered(s: State, e: Event)
    requires IsState(s) && IsOrdered(s)
    ensures IsOrdered(DoRecord(s, e))
  {
    var c := Append(s.buffer, e);
    var head := s.past.acked + Flying(s.flushes);
    SubMore(head + s.buffer, s.past.accepted, e);
    assert head + s.buffer + [e] == head + c.dropped + c.buffer by {
      assert s.buffer + [e] == c.dropped + c.buffer;
      assert head + s.buffer + [e] == head + (s.buffer + [e]);
    }
    SubCut(head, c.dropped, c.buffer, s.past.accepted + [e]);
  }

  lemma FlyingKept(s: State, i: nat, f: Flush)
    requires i < |s.flushes| && f.rest == s.flushes[i].rest
    ensures Flying(s.flushes[i := f]) == Flying(s.flushes)
  {
    FlyingSame(s.flushes[i := f], s.flushes);
  }

  lemma TakenOrdered(s: State, i: nat, f: Flush)
    requires IsOrdered(s) && RestsFit(s) && i < |s.flushes| && f.rest == s.buffer
    requires forall j :: 0 <= j < |s.flushes| ==> !IsBusy(s.flushes[j])
    ensures IsSub(s.past.acked + Flying(s.flushes[i := f]) + [], s.past.accepted)
  {
    FlyingNone(s.flushes);
    FlyingOne(s.flushes[i := f], i);
    MovedOver(s.past.acked, s.buffer);
  }

  lemma MovedOver(acked: seq<Event>, buffer: seq<Event>)
    ensures acked + [] + buffer == acked + buffer + []
  {
  }

  lemma TakeOrdered(s: State, i: nat)
    requires IsState(s) && IsOrderly(s) && RestsFit(s) && IsOrdered(s) && Enabled(s, Take(i))
    ensures IsOrdered(DoTake(s, i))
  {
    var r := DoTake(s, i);
    if s.ships[s.flushes[i].ship.value].closing && !s.flushes[i].final {
      FlyingKept(s, i, r.flushes[i]);
    } else {
      NoneBusy(s, i);
      TakenOrdered(s, i, r.flushes[i]);
    }
  }

  lemma GiveUpOrdered(s: State, i: nat)
    requires IsState(s) && IsOrderly(s) && RestsFit(s) && IsOrdered(s) && i < |s.flushes| && IsBusy(s.flushes[i])
    ensures IsOrdered(GiveUp(s, i))
  {
    OnlyBusy(s, i);
    FlyingOne(GiveUp(s, i).flushes, i);
    if s.flushes[i].final {
      SubCut(s.past.acked, s.flushes[i].rest, s.buffer, s.past.accepted);
      assert s.past.acked + [] + s.buffer == s.past.acked + s.buffer;
    }
  }

  lemma AckOrdered(s: State, i: nat)
    requires IsState(s) && IsOrderly(s) && RestsFit(s) && IsOrdered(s) && Enabled(s, Ack(i))
    ensures IsOrdered(DoAck(s, i))
  {
    OnlyBusy(s, i);
    FlyingOne(DoAck(s, i).flushes, i);
    var rest := s.flushes[i].rest;
    var batch := Batch(rest);
    Shifted(s.past.acked, batch, rest[|batch|..], rest, s.buffer);
  }

  lemma Shifted(acked: seq<Event>, batch: seq<Event>, tail: seq<Event>, rest: seq<Event>, buffer: seq<Event>)
    requires rest == batch + tail
    ensures acked + rest + buffer == acked + batch + tail + buffer
  {
  }

  /** What goes back in front of the buffer keeps the order, whatever overflows. */
  lemma ReturnedIsSub(acked: seq<Event>, rest: seq<Event>, buffer: seq<Event>, accepted: seq<Event>)
    requires IsSub(acked + rest + buffer, accepted)
    ensures IsSub(acked + [] + Requeued(rest, buffer).buffer, accepted)
  {
    var c := Requeued(rest, buffer);
    Regrouped(acked, rest, buffer, c.dropped, c.buffer);
    SubCut(acked, c.dropped, c.buffer, accepted);
    assert acked + [] == acked;
  }

  lemma Regrouped(acked: seq<Event>, rest: seq<Event>, buffer: seq<Event>, dropped: seq<Event>, kept: seq<Event>)
    requires rest + buffer == dropped + kept
    ensures acked + rest + buffer == acked + dropped + kept
  {
    assert acked + rest + buffer == acked + (rest + buffer);
    assert acked + dropped + kept == acked + (dropped + kept);
  }

  lemma RequeueOrdered(s: State, i: nat)
    requires IsState(s) && IsOrderly(s) && RestsFit(s) && IsOrdered(s) && Enabled(s, Requeue(i))
    ensures IsOrdered(DoRequeue(s, i))
  {
    OnlyBusy(s, i);
    FlyingOne(DoRequeue(s, i).flushes, i);
    ReturnedIsSub(s.past.acked, s.flushes[i].rest, s.buffer, s.past.accepted);
  }

  lemma MarkOrdered(s: State)
    requires IsState(s) && IsOrdered(s)
    ensures IsOrdered(DoMark(s))
  {
    var t := Opened(s);
    var u := Cancelled(WithShip(t, t.current.value, t.ships[t.current.value].(closing := true)), t.ships[t.current.value].running);
    FlyingSame(u.flushes, s.flushes);
    FlyingMore(u.flushes, Flush(true, false, None, Marked, []));
  }

  lemma StepOrdered(s: State, a: Action)
    requires IsState(s) && IsOrderly(s) && RestsFit(s) && IsOrdered(s) && Enabled(s, a)
    ensures IsOrdered(Step(s, a))
  {
    match a
    case Record(e) => RecordOrdered(s, e);
    case CloseMeter =>
    case StartFlush => FlyingMore(s.flushes, Flush(false, false, Opened(s).current, Waiting, []));
    case MarkFinal => MarkOrdered(s);
    case EnterFinal(i) => FlyingKept(s, i, DoEnter(s, i).flushes[i]);
    case Acquire(i) => FlyingKept(s, i, DoAcquire(s, i).flushes[i]);
    case Take(i) => TakeOrdered(s, i);
    case Send(i, token) =>
      if !token || s.flushes[i].cancelled { GiveUpOrdered(s, i); } else { FlyingKept(s, i, DoSend(s, i, token).flushes[i]); }
    case Ack(i) => AckOrdered(s, i);
    case Fail(i, retry) =>
      var f := s.flushes[i];
      if f.final && retry && !f.phase.again { FlyingKept(s, i, DoFail(s, i, retry).flushes[i]); } else { GiveUpOrdered(s, i); }
    case Requeue(i) => RequeueOrdered(s, i);
    case Finish(i) => FlyingKept(s, i, DoFinish(s, i).flushes[i]);
    case Delete(i) => DeleteOrdered(s, i);
  }

  lemma DeleteOrdered(s: State, i: nat)
    requires IsState(s) && IsOrderly(s) && IsOrdered(s) && Enabled(s, Delete(i))
    ensures IsOrdered(DoDelete(s, i))
  {
    FlyingKept(s, i, DoDelete(s, i).flushes[i]);
  }

  // ----- whole runs -----

  /** A run in which no final flush starts while another one is active. */
  predicate IsCalmRun(s: State, actions: seq<Action>)
    requires IsState(s) && CanRun(s, actions)
    decreases |actions|
  {
    actions == [] || (IsCalm(s, actions[0]) && IsCalmRun(Step(s, actions[0]), actions[1..]))
  }

  predicate IsSound(s: State)
    requires IsState(s)
  {
    IsOrderly(s) && RestsFit(s) && IsConserved(s) && IsOrdered(s)
  }

  lemma {:induction false} CalmRunIsSound(s: State, actions: seq<Action>)
    requires IsState(s) && CanRun(s, actions) && IsCalmRun(s, actions) && IsSound(s)
    ensures IsSound(RunAll(s, actions))
    decreases |actions|
  {
    if actions != [] {
      var a := actions[0];
      StepOrderly(s, a);
      StepRestsFit(s, a);
      StepConserves(s, a);
      StepOrdered(s, a);
      CalmRunIsSound(Step(s, a), actions[1..]);
    }
  }

  /** `s` is reached from the start with final flushes of the handle that do not overlap. */
  ghost predicate IsCalmlyReached(s: State) {
    exists actions :: CanRun(INITIAL, actions) && IsCalmRun(INITIAL, actions) && RunAll(INITIAL, actions) == s
  }

  lemma CalmlyReachedIsSound(s: State)
    requires IsCalmlyReached(s)
    ensures IsState(s) && IsSound(s)
  {
    var actions :| CanRun(INITIAL, actions) && IsCalmRun(INITIAL, actions) && RunAll(INITIAL, actions) == s;
    CalmRunIsSound(INITIAL, actions);
  }

  /** Without overlapping final flushes nothing is discarded, and events reach the server in record order. */
  lemma CalmRunDiscardsNothing(s: State)
    requires IsCalmlyReached(s)
    ensures s.past.discarded == []
    ensures multiset(s.past.accepted)
            == multiset(s.buffer) + InFlight(s.flushes) + multiset(s.past.acked) + multiset(s.past.dropped) + multiset(s.past.lost)
    ensures IsSub(s.past.acked + Flying(s.flushes) + s.buffer, s.past.accepted)
  {
    CalmlyReachedIsSound(s);
  }

  lemma {:induction false} NothingFlies(flushes: seq<Flush>)
    requires forall j :: 0 <= j < |flushes| ==> flushes[j].rest == []
    ensures InFlight(flushes) == multiset{}
  {
    if flushes != [] { NothingFlies(flushes[..|flushes| - 1]); }
  }

  /** When a final flush takes the buffer, no flush holds events. */
  lemma TakeFindsTheRest(s: State, i: nat)
    requires IsState(s) && IsSound(s) && Enabled(s, Take(i)) && s.flushes[i].final
    ensures DoTake(s, i).flushes[i].rest == s.buffer && DoTake(s, i).buffer == []
    ensures InFlight(s.flushes) == multiset{}
  {
    NoneBusy(s, i);
    NothingFlies(s.flushes);
  }

  /** So each accepted event is then in that buffer, acknowledged, dropped for overflow,
      or was lost by an earlier final flush. */
  lemma FinalTakesTheRest(s: State, i: nat)
    requires IsState(s) && IsCalmlyReached(s) && Enabled(s, Take(i)) && s.flushes[i].final
    ensures Step(s, Take(i)).flushes[i].rest == s.buffer && Step(s, Take(i)).buffer == []
    ensures multiset(s.past.accepted) == multiset(s.buffer) + multiset(s.past.acked) + multiset(s.past.dropped) + multiset(s.past.lost)
  {
    CalmRunDiscardsNothing(s);
    CalmlyReachedIsSound(s);
    TakeFindsTheRest(s, i);
  }

  lemma ActiveFinalCloses(s: State)
    requires IsState(s) && IsSound(s) && HasActiveFinal(s)
    ensures s.current.Some? && s.ships[s.current.value].closing
  {
  }

  /** Once a final flush is active, a background flush that has taken the buffer is cancelled, whether it is between
      batches or sending one. */
  lemma BackgroundIsCancelled(s: State, i: nat)
    requires IsState(s) && IsSound(s) && HasActiveFinal(s) && i < |s.flushes| && !s.flushes[i].final && IsBusy(s.flushes[i])
    ensures s.flushes[i].cancelled
  {
    ActiveFinalCloses(s);
  }

  lemma BackgroundIsTurnedAway(s: State, i: nat)
    requires IsState(s) && IsSound(s) && HasActiveFinal(s) && Enabled(s, Take(i)) && !s.flushes[i].final
    ensures DoTake(s, i).flushes[i].phase.Gone? && DoTake(s, i).buffer == s.buffer
  {
    ActiveFinalCloses(s);
  }

  /** Once a final flush is active, a background flush starts no report: its context is cancelled, also when it is
      sending one; between batches it gives up, and one that has not taken the buffer never does. Recording stops as well. */
  lemma FinalSilencesOthers(s: State, i: nat, token: bool, e: Event)
    requires IsState(s) && IsCalmlyReached(s) && HasActiveFinal(s) && i < |s.flushes| && !s.flushes[i].final
    ensures IsBusy(s.flushes[i]) ==> s.flushes[i].cancelled
    ensures Enabled(s, Send(i, token)) ==> Step(s, Send(i, token)).flushes[i].phase.Returning?
    ensures Enabled(s, Take(i)) ==> Step(s, Take(i)).flushes[i].phase.Gone? && Step(s, Take(i)).buffer == s.buffer
    ensures Step(s, Record(e)).past.accepted == s.past.accepted
  {
    CalmlyReachedIsSound(s);
    ActiveFinalCloses(s);
    if IsBusy(s.flushes[i]) { BackgroundIsCancelled(s, i); }
    if Enabled(s, Take(i)) { BackgroundIsTurnedAway(s, i); }
  }

  /** The buffer a final flush deletes at the end is empty. */
  lemma FinalDeletesNothing(s: State, i: nat)
    requires IsState(s) && IsCalmlyReached(s) && Enabled(s, Delete(i))
    ensures s.buffer == []
  {
    CalmlyReachedIsSound(s);
  }
}
