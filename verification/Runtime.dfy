/** The control plane's answers to runtime calls, and the checks that make an answer count. */
module Runtime {
  import opened JsonGrammar

  const SCHEMA := 1

  // ----- identifiers -----

  predicate IsAlnum(c: char) {
    '0' <= c <= '9' || 'A' <= c <= 'Z' || 'a' <= c <= 'z'
  }

  predicate IsRequestId(s: string) {
    && 1 <= |s| <= 128 && IsAlnum(s[0])
    && forall i :: 0 < i < |s| ==> IsAlnum(s[i]) || s[i] in {'.', '_', ':', '-'}
  }

  predicate IsUlid(s: string) {
    |s| == 26 && forall i :: 0 <= i < |s| ==> IsAlnum(s[i]) && s[i] < 'a' && s[i] !in {'I', 'L', 'O', 'U'}
  }

  predicate IsDecisionId(s: string) {
    "Keydris-" <= s && IsUlid(s[8..])
  }

  predicate IsHex(c: char) {
    '0' <= c <= '9' || 'a' <= c <= 'f' || 'A' <= c <= 'F'
  }

  predicate IsUuid(s: string) {
    && |s| == 36
    && (forall i :: 0 <= i < |s| ==> if i in {8, 13, 18, 23} then s[i] == '-' else IsHex(s[i]))
    && '1' <= s[14] <= '8' && s[19] in {'8', '9', 'a', 'b', 'A', 'B'}
  }

  // ----- answers -----

  datatype Decision = Allow | Deny | ApprovalRequired | OtherDecision(text: string)

  /** Reason codes by what they may accompany. */
  datatype Reason =
    | PolicyAllowed | ApprovalGranted
    | PolicyDenied | PolicyUnavailable | InvalidRequest | IdentityUnavailable | TargetUnavailable
    | ActionUnsupported | ManifestStale | RequestConflict | TokenInvalid | EnforcementUnavailable
    | NeedsApproval
    | OtherReason(text: string)

  /** A time of an answer: whether it parses is all that matters. */
  datatype Stamp = Readable(text: string) | Unreadable(text: string)

  datatype DecisionResponse = DecisionResponse(schema: int, decisionId: string, requestId: string, attemptId: string,
                                               correlationId: string, decidedAt: Stamp, obligations: Option<nat>,
                                               decision: Decision, reason: Reason)

  datatype Status = Pending | Approved | Rejected | Expired | Consumed | Cancelled | OtherStatus(text: string)

  datatype ApprovalStatus = ApprovalStatus(approvalId: string, requestId: string, status: Status, expiresAt: Stamp, resolvedAt: Option<Stamp>)

  datatype Outcome = Denied | Succeeded | Failed | Unknown | OtherOutcome(text: string)

  datatype HttpResponse = HttpResponse(status: int, body: string)

  /** `result` and `error` are the raw members after trimming; `wellFormed` says that the result is JSON. */
  datatype RpcResponse = RpcResponse(version: string, id: string, result: string, wellFormed: bool, error: Option<string>)

  datatype Execution<R> = Execution(schema: int, requestId: string, decisionSchema: int, decisionRequestId: string,
                                    decision: Decision, outcome: Outcome, errorCode: Option<string>, response: Option<R>)

  datatype SessionStatus = Relayed | Accepted | RelayFailed | OtherSessionStatus(text: string)

  datatype Relay = Relay(schema: int, requestId: string, status: SessionStatus, errorCode: Option<string>, response: Option<RpcResponse>)

  datatype Minted = Minted(schema: int, token: string, expiresLater: bool)

  /** What comes back for a call: nothing usable, or a body that decodes strictly as one of these. */
  datatype Reply =
    | Unusable
    | Decided(decision: DecisionResponse)
    | Approval(approval: ApprovalStatus)
    | Provided(provider: Execution<HttpResponse>)
    | Gatewayed(gateway: Execution<RpcResponse>)
    | SessionRelayed(relay: Relay)
    | TokenMinted(minted: Minted)

  // ----- the checks -----

  predicate IsReasonFor(reason: Reason, decision: Decision) {
    match decision
    case Allow => reason.PolicyAllowed? || reason.ApprovalGranted?
    case Deny => !reason.PolicyAllowed? && !reason.ApprovalGranted? && !reason.NeedsApproval? && !reason.OtherReason?
    case ApprovalRequired => reason.NeedsApproval?
    case OtherDecision(_) => false
  }

  predicate IsValidDecision(r: DecisionResponse) {
    && r.schema == SCHEMA && IsDecisionId(r.decisionId) && IsRequestId(r.requestId)
    && IsUlid(r.attemptId) && IsUlid(r.correlationId) && r.decidedAt.Readable?
    && r.obligations == Some(0) && IsReasonFor(r.reason, r.decision)
  }

  predicate IsValidApproval(r: ApprovalStatus, requestId: string) {
    && IsUuid(r.approvalId) && r.requestId == requestId && IsRequestId(r.requestId)
    && r.expiresAt.Readable? && (r.resolvedAt.Some? ==> r.resolvedAt.value.Readable?)
    && (r.status.Pending? ==> r.resolvedAt.None?) && !r.status.OtherStatus?
  }

  predicate IsValidRpc(r: RpcResponse, id: string) {
    && r.version == "2.0" && r.id == id && (r.result != "") != r.error.Some?
    && (r.result != "" ==> r.wellFormed) && (r.error.Some? ==> r.error.value != "")
  }

  predicate IsConsistent<R>(e: Execution<R>, requestId: string) {
    && e.schema == SCHEMA && e.requestId == requestId && e.decisionSchema == SCHEMA && e.decisionRequestId == requestId
    && !e.decision.OtherDecision?
    && match e.outcome
       case Denied => !e.decision.Allow? && e.response.None? && e.errorCode.None?
       case Succeeded => e.decision.Allow? && e.response.Some? && e.errorCode.None?
       case Failed => e.decision.Allow? && (e.response.Some? || e.errorCode.Some?)
       case Unknown => e.decision.Allow? && e.response.None? && e.errorCode.Some?
       case OtherOutcome(_) => false
  }

  predicate IsValidProvider(e: Execution<HttpResponse>, requestId: string) {
    IsConsistent(e, requestId) && (e.response.Some? ==> 100 <= e.response.value.status <= 599)
  }

  predicate IsValidGateway(e: Execution<RpcResponse>, requestId: string, id: string) {
    && IsConsistent(e, requestId)
    && (e.outcome.Succeeded? ==> e.response.value.error.None?)
    && (e.response.Some? ==> IsValidRpc(e.response.value, id))
  }

  predicate IsValidRelay(r: Relay, requestId: string, id: string) {
    && r.schema == SCHEMA && r.requestId == requestId
    && (r.response.Some? ==> IsValidRpc(r.response.value, id))
    && match r.status
       case Relayed => r.response.Some? && r.errorCode.None?
       case Accepted => r.response.None?
       case RelayFailed => r.errorCode.Some?
       case OtherSessionStatus(_) => false
  }

  const MAX_TOKEN: nat := 0x10_0000

  predicate IsValidToken(m: Minted) {
    m.schema == SCHEMA && 0 < |m.token| <= MAX_TOKEN && m.expiresLater
  }

  /** A consistent answer carries a response only with an allow, and asks for approval only as a denial. */
  lemma ResponsesAreAllowed<R>(e: Execution<R>, requestId: string)
    requires IsConsistent(e, requestId)
    ensures e.response.Some? ==> e.decision.Allow? && !e.outcome.Denied?
    ensures e.decision.ApprovalRequired? ==> e.outcome.Denied? && e.response.None?
    ensures e.outcome.Denied? <==> !e.decision.Allow?
  {
  }
}
