/** Deciding, waiting for an approval and trying again, against a control plane that may answer anything. */
module Approval {
  import opened JsonGrammar
  import opened Runtime

  datatype Call =
    | Authorize(requestId: string, body: string)
    | Execute(requestId: string, body: string)
    | Gateway(requestId: string, body: string)
    | RelaySession(requestId: string, body: string)
    | Mint(requestId: string, body: string)
    | Poll(requestId: string)

  /** The reply to the n-th call is `replies(n)`, whatever the call; a wait for approval ends after `patience` pauses. */
  class ControlPlane {
    const replies: nat -> Reply
    const patience: nat
    var calls: seq<Call>

    constructor (replies: nat -> Reply, patience: nat)
      ensures this.replies == replies && this.patience == patience && calls == []
    {
      this.replies := replies;
      this.patience := patience;
      calls := [];
    }

    method Ask(call: Call) returns (reply: Reply)
      modifies this
      ensures calls == old(calls) + [call] && reply == replies(|old(calls)|)
    {
      reply := replies(|calls|);
      calls := calls + [call];
    }

    /** One validated poll; a request id that cannot be asked about is refused without a call. */
    method GetApprovalStatus(token: string, requestId: string) returns (status: Option<Status>)
      modifies this
      ensures token == "" || !IsRequestId(requestId) ==> status.None? && calls == old(calls)
      ensures token != "" && IsRequestId(requestId) ==>
                calls == old(calls) + [Poll(requestId)] && status == StatusOf(replies(|old(calls)|), requestId)
    {
      if token == "" || !IsRequestId(requestId) { return None; }
      var reply := Ask(Poll(requestId));
      status := StatusOf(reply, requestId);
    }

    /** Goes on while the status is pending and there is time: approved exactly when an approval comes, in time and after
        pending ones only. */
    method WaitForApproval(token: string, requestId: string) returns (approved: bool)
      modifies this
      ensures old(calls) <= calls && IsWait(calls, |old(calls)|, token, requestId, replies, patience, approved)
      ensures approved <==> && token != "" && IsRequestId(requestId)
                            && GetsApproval(replies, |old(calls)|, requestId, patience)
    {
      var pauses := 0;
      while true
        invariant |calls| == |old(calls)| + pauses && pauses <= patience
        invariant pauses > 0 ==> token != "" && IsRequestId(requestId)
        invariant old(calls) <= calls && ArePolls(calls, |old(calls)|, requestId)
        invariant forall k :: |old(calls)| <= k < |calls| ==> StatusOf(replies(k), requestId) == Some(Pending)
        decreases patience - pauses
      {
        var status := GetApprovalStatus(token, requestId);
        if status == Some(Approved) {
          WaitIsExact(calls, |old(calls)|, token, requestId, replies, patience, true);
          return true;
        }
        if status != Some(Pending) || pauses == patience {
          WaitIsExact(calls, |old(calls)|, token, requestId, replies, patience, false);
          return false;
        }
        pauses := pauses + 1;
      }
    }
  }

  /** The status of a reply that says, in due form, how this request stands. */
  function StatusOf(reply: Reply, requestId: string): (status: Option<Status>)
    ensures status.Some? ==> && reply.Approval? && reply.approval.requestId == requestId && reply.approval.status == status.value
                             && !status.value.OtherStatus? && (status.value.Pending? ==> reply.approval.resolvedAt.None?)
  {
    if reply.Approval? && IsValidApproval(reply.approval, requestId) then Some(reply.approval.status) else None
  }

  predicate ArePolls(calls: seq<Call>, from: nat, requestId: string) {
    forall k :: from <= k < |calls| ==> calls[k] == Poll(requestId)
  }

  /** The poll `n` after `from` finds the request approved, and all before it find it pending. */
  predicate ApprovesAt(replies: nat -> Reply, from: nat, requestId: string, n: nat) {
    && StatusOf(replies(from + n), requestId) == Some(Approved)
    && forall k :: from <= k < from + n ==> StatusOf(replies(k), requestId) == Some(Pending)
  }

  /** The request is approved within `patience` pauses, after pending polls only. */
  ghost predicate GetsApproval(replies: nat -> Reply, from: nat, requestId: string, patience: nat) {
    exists n: nat :: n <= patience && ApprovesAt(replies, from, requestId, n)
  }

  /** The calls from `from` on are a whole wait: polls that go on exactly while the status is pending and there is time. */
  predicate IsWait(calls: seq<Call>, from: nat, token: string, requestId: string, replies: nat -> Reply, patience: nat, approved: bool) {
    && from <= |calls| <= from + patience + 1 && ArePolls(calls, from, requestId)
    && (forall k :: from <= k < |calls| - 1 ==> StatusOf(replies(k), requestId) == Some(Pending))
    && if token == "" || !IsRequestId(requestId) then |calls| == from && !approved
       else
         && |calls| > from
         && match StatusOf(replies(|calls| - 1), requestId)
            case Some(Approved) => approved
            case Some(Pending) => !approved && |calls| == from + patience + 1
            case _ => !approved
  }

  lemma WaitIsExact(calls: seq<Call>, from: nat, token: string, requestId: string, replies: nat -> Reply, patience: nat, approved: bool)
    requires IsWait(calls, from, token, requestId, replies, patience, approved)
    ensures approved <==> && token != "" && IsRequestId(requestId)
                          && GetsApproval(replies, from, requestId, patience)
    ensures approved ==> from < |calls| && ApprovesAt(replies, from, requestId, |calls| - 1 - from)
  {
    if approved {
      assert ApprovesAt(replies, from, requestId, |calls| - 1 - from);
    } else if token != "" && IsRequestId(requestId) {
      forall n: nat | n <= patience ensures !ApprovesAt(replies, from, requestId, n) {
        if ApprovesAt(replies, from, requestId, n) { NotLater(calls, from, requestId, replies, patience, n); }
      }
    }
  }

  lemma NotLater(calls: seq<Call>, from: nat, requestId: string, replies: nat -> Reply, patience: nat, n: nat)
    requires n <= patience && ApprovesAt(replies, from, requestId, n) && from < |calls|
    requires forall k :: from <= k < |calls| - 1 ==> StatusOf(replies(k), requestId) == Some(Pending)
    requires StatusOf(replies(|calls| - 1), requestId) == Some(Pending) ==> |calls| == from + patience + 1
    ensures StatusOf(replies(|calls| - 1), requestId) == Some(Approved)
  {
  }

  /** The calls from `from` on, if any, are a `first` call and what follows from its reply: nothing, unless it asks for an
      approval; then a whole wait, and, when that ends with the approval, the same call once more. */
  predicate IsGoverned(calls: seq<Call>, from: nat, first: Call, asks: Reply -> bool, token: string, replies: nat -> Reply, patience: nat) {
    from >= |calls| || (
      && calls[from] == first
      && if !asks(replies(from)) then |calls| == from + 1
         else if |calls| > from + 1 && calls[|calls| - 1] == first
         then IsWait(calls[..|calls| - 1], from + 1, token, first.requestId, replies, patience, true)
         else IsWait(calls, from + 1, token, first.requestId, replies, patience, false))
  }

  lemma GovernedOnce(calls: seq<Call>, from: nat, first: Call, asks: Reply -> bool, token: string, replies: nat -> Reply, patience: nat)
    requires |calls| == from + 1 && calls[from] == first && !asks(replies(from))
    ensures IsGoverned(calls, from, first, asks, token, replies, patience)
  {
  }

  /** A wait after the first call, without or with the approval at its end and the second call. */
  lemma GovernedWait(calls: seq<Call>, from: nat, first: Call, asks: Reply -> bool, token: string, replies: nat -> Reply, patience: nat, approved: bool)
    requires !first.Poll? && from < |calls| && calls[from] == first && asks(replies(from))
    requires IsWait(calls, from + 1, token, first.requestId, replies, patience, approved)
    ensures IsGoverned(if approved then calls + [first] else calls, from, first, asks, token, replies, patience)
  {
    if approved { assert (calls + [first])[..|calls|] == calls; }
  }

  /** After a reply that asks for an approval, the call is made a second time exactly when the approval comes in time. */
  lemma SecondOnApproval(calls: seq<Call>, from: nat, first: Call, asks: Reply -> bool, token: string, replies: nat -> Reply, patience: nat)
    requires IsGoverned(calls, from, first, asks, token, replies, patience) && from < |calls| && asks(replies(from))
    ensures |calls| > from + 1 && calls[|calls| - 1] == first
            <==> && token != "" && IsRequestId(first.requestId)
                 && GetsApproval(replies, from + 1, first.requestId, patience)
  {
    if |calls| > from + 1 && calls[|calls| - 1] == first {
      WaitIsExact(calls[..|calls| - 1], from + 1, token, first.requestId, replies, patience, true);
    } else {
      WaitIsExact(calls, from + 1, token, first.requestId, replies, patience, false);
    }
  }

  /** Of two execution calls, the second is the last call of all, came right after an approved status,
      and the first one's reply asked for the approval; in between there were only polls. */
  lemma SecondNeedsApproval(calls: seq<Call>, from: nat, first: Call, asks: Reply -> bool, token: string, replies: nat -> Reply, patience: nat,
                            i: nat, j: nat)
    requires IsGoverned(calls, from, first, asks, token, replies, patience) && !first.Poll?
    requires from <= i < j < |calls| && !calls[i].Poll? && !calls[j].Poll?
    ensures calls[i] == first && calls[j] == first && i == from && j == |calls| - 1
    ensures asks(replies(from)) && StatusOf(replies(j - 1), first.requestId) == Some(Approved)
    ensures forall k :: i < k < j ==> calls[k] == Poll(first.requestId)
  {
    var most := calls[..|calls| - 1];
    assert forall k :: from + 1 <= k < |most| ==> most[k] == calls[k];
  }

  /** One call, perhaps polls, and perhaps the same call again. */
  predicate IsOneCall(calls: seq<Call>, from: nat, first: Call) {
    && from < |calls| && calls[from] == first
    && forall k :: from < k < |calls| ==> calls[k] == Poll(first.requestId) || (k == |calls| - 1 && calls[k] == first)
  }

  lemma GovernedIsOneCall(calls: seq<Call>, from: nat, first: Call, asks: Reply -> bool, token: string, replies: nat -> Reply, patience: nat)
    requires IsGoverned(calls, from, first, asks, token, replies, patience) && from < |calls|
    ensures IsOneCall(calls, from, first)
  {
    var most := calls[..|calls| - 1];
    assert forall k :: from + 1 <= k < |most| ==> most[k] == calls[k];
  }

  // ----- authorizing a shell command -----

  /** The decision of a reply that answers this request in due form. */
  function DecisionOf(reply: Reply, requestId: string): (decision: Option<DecisionResponse>)
    ensures decision.Some? ==> && reply == Decided(decision.value) && decision.value.requestId == requestId && decision.value.schema == 1
                               && decision.value.obligations == Some(0) && !decision.value.decision.OtherDecision?
    ensures decision.Some? && decision.value.decision.Allow? ==>
              decision.value.reason == PolicyAllowed || decision.value.reason == ApprovalGranted
  {
    if reply.Decided? && IsValidDecision(reply.decision) && reply.decision.requestId == requestId then Some(reply.decision) else None
  }

  predicate AsksCommand(requestId: string, reply: Reply) {
    DecisionOf(reply, requestId).Some? && DecisionOf(reply, requestId).value.decision.ApprovalRequired?
  }

  function CommandAsks(requestId: string): Reply -> bool {
    reply => AsksCommand(requestId, reply)
  }

  method AuthorizeOnce(cp: ControlPlane, requestId: string, body: string) returns (decision: Option<DecisionResponse>)
    modifies cp
    ensures cp.calls == old(cp.calls) + [Authorize(requestId, body)]
    ensures decision == DecisionOf(cp.replies(|old(cp.calls)|), requestId)
  {
    var reply := cp.Ask(Authorize(requestId, body));
    decision := DecisionOf(reply, requestId);
  }

  /** An approval comes at one poll only. */
  lemma OneApproval(replies: nat -> Reply, from: nat, requestId: string, n: nat, m: nat)
    requires ApprovesAt(replies, from, requestId, n) && ApprovesAt(replies, from, requestId, m)
    ensures n == m
  {
  }

  ghost predicate IsInEffectAfter(decision: DecisionResponse, replies: nat -> Reply, from: nat, requestId: string, patience: nat) {
    exists n: nat :: n <= patience && ApprovesAt(replies, from, requestId, n)
                     && DecisionOf(replies(from + n + 1), requestId) == Some(decision)
  }

  /** With the approval at poll `n`, the reply after it is the one in effect. */
  lemma InEffectIs(decision: Option<DecisionResponse>, replies: nat -> Reply, from: nat, requestId: string, patience: nat, n: nat)
    requires n <= patience && ApprovesAt(replies, from, requestId, n) && decision == DecisionOf(replies(from + n + 1), requestId)
    ensures forall d :: decision == Some(d) <==> IsInEffectAfter(d, replies, from, requestId, patience)
  {
    forall d ensures decision == Some(d) <==> IsInEffectAfter(d, replies, from, requestId, patience) {
      if IsInEffectAfter(d, replies, from, requestId, patience) {
        var m: nat :| m <= patience && ApprovesAt(replies, from, requestId, m) && DecisionOf(replies(from + m + 1), requestId) == Some(d);
        OneApproval(replies, from, requestId, n, m);
      }
    }
  }

  lemma NotInEffect(replies: nat -> Reply, from: nat, requestId: string, patience: nat)
    ensures !GetsApproval(replies, from, requestId, patience) ==> forall d :: !IsInEffectAfter(d, replies, from, requestId, patience)
  {
  }

  /** The decision in effect is the first reply's, unless it asks for an approval; then it is that of the reply after the
      approval, if that comes in time. */
  ghost predicate IsInEffect(decision: DecisionResponse, replies: nat -> Reply, from: nat, token: string, requestId: string, patience: nat) {
    if AsksCommand(requestId, replies(from)) then
      && token != "" && IsRequestId(requestId)
      && IsInEffectAfter(decision, replies, from + 1, requestId, patience)
    else DecisionOf(replies(from), requestId) == Some(decision)
  }

  /** What the calls of an authorization decide: the reply to its last call, if that is not a poll and asks for no first approval. */
  function Authorized(calls: seq<Call>, from: nat, first: Call, replies: nat -> Reply): Option<DecisionResponse>
    requires from < |calls|
  {
    if calls[|calls| - 1] == first && (|calls| > from + 1 || !AsksCommand(first.requestId, replies(from)))
    then DecisionOf(replies(|calls| - 1), first.requestId) else None
  }

  /** It is the decision in effect. */
  lemma AuthorizedIsInEffect(calls: seq<Call>, from: nat, first: Call, token: string, replies: nat -> Reply, patience: nat)
    requires from < |calls| && first.Authorize? && IsGoverned(calls, from, first, CommandAsks(first.requestId), token, replies, patience)
    ensures forall d :: Authorized(calls, from, first, replies) == Some(d)
                        <==> IsInEffect(d, replies, from, token, first.requestId, patience)
  {
    var last := |calls| - 1;
    if AsksCommand(first.requestId, replies(from)) {
      SecondOnApproval(calls, from, first, CommandAsks(first.requestId), token, replies, patience);
      if last > from && calls[last] == first {
        WaitIsExact(calls[..last], from + 1, token, first.requestId, replies, patience, true);
        InEffectIs(DecisionOf(replies(last), first.requestId), replies, from + 1, first.requestId, patience, last - 2 - from);
      } else {
        NotInEffect(replies, from + 1, first.requestId, patience);
      }
    }
  }

  method AuthorizeCommand(cp: ControlPlane, token: string, requestId: string, body: string) returns (decision: Option<DecisionResponse>)
    modifies cp
    ensures old(cp.calls) < cp.calls
    ensures IsGoverned(cp.calls, |old(cp.calls)|, Authorize(requestId, body), CommandAsks(requestId), token, cp.replies, cp.patience)
    ensures decision == Authorized(cp.calls, |old(cp.calls)|, Authorize(requestId, body), cp.replies)
  {
    ghost var from, first := |cp.calls|, Authorize(requestId, body);
    decision := AuthorizeOnce(cp, requestId, body);
    assert cp.calls[from] == first;
    if decision.None? || !decision.value.decision.ApprovalRequired? {
      GovernedOnce(cp.calls, from, first, CommandAsks(requestId), token, cp.replies, cp.patience);
      return;
    }
    var approved := cp.WaitForApproval(token, requestId);
    GovernedWait(cp.calls, from, first, CommandAsks(requestId), token, cp.replies, cp.patience, approved);
    if !approved { return None; }
    decision := AuthorizeOnce(cp, requestId, body);
  }

  datatype Verdict = AllowCommand | DenyCommand

  function CommandVerdict(decision: Option<DecisionResponse>): Verdict {
    if decision.Some? && decision.value.decision.Allow? then AllowCommand else DenyCommand
  }

  /** What the two harnesses print: Claude Code always a verdict, Codex only a denial; a permission request gets either. */
  datatype Output = Silence | Printed(verdict: Verdict)

  function CodexOutput(verdict: Verdict): Output {
    if verdict == DenyCommand then Printed(verdict) else Silence
  }

  /** A command goes through exactly when the session and the payload are in order and the decision in effect is an allow:
      that of the last reply, validated. `ready` is what all checks before the authorization come to. */
  method DecidePreToolUse(cp: ControlPlane, ready: bool, token: string, requestId: string, body: string) returns (verdict: Verdict, codex: Output)
    modifies cp
    ensures !ready ==> verdict == DenyCommand && cp.calls == old(cp.calls)
    ensures old(cp.calls) <= cp.calls && (ready ==> |cp.calls| > |old(cp.calls)|)
    ensures IsGoverned(cp.calls, |old(cp.calls)|, Authorize(requestId, body), CommandAsks(requestId), token, cp.replies, cp.patience)
    ensures verdict == AllowCommand <==>
              ready && exists d: DecisionResponse :: d.decision == Allow
                                 && IsInEffect(d, cp.replies, |old(cp.calls)|, token, requestId, cp.patience)
    ensures verdict == AllowCommand ==>
              var last := |cp.calls| - 1;
              && cp.calls[last] == Authorize(requestId, body) && cp.replies(last).Decided?
              && var d := cp.replies(last).decision;
                 && d.decision == Allow && d.requestId == requestId && d.schema == 1 && d.obligations == Some(0)
                 && (d.reason == PolicyAllowed || d.reason == ApprovalGranted)
    ensures codex == Silence <==> verdict == AllowCommand
  {
    verdict := DenyCommand;
    if ready {
      ghost var from := |cp.calls|;
      var decision := AuthorizeCommand(cp, token, requestId, body);
      AuthorizedIsInEffect(cp.calls, from, Authorize(requestId, body), token, cp.replies, cp.patience);
      verdict := CommandVerdict(decision);
    }
    codex := CodexOutput(verdict);
  }
}
