/** Routing one intercepted flow: what reaches the upstream, and what the client gets, under a control plane that may answer anything. */
module Router {
  import opened JsonGrammar
  import opened Runtime
  import opened Approval

  datatype Mode = ProviderExecutor | McpGateway | McpKitReader | OtherMode(text: string)

  datatype Resource = Resource(kind: string, external: string, available: bool)

  /** The governed action an MCP request names. `message` is absent when no gateway message can be built for it,
      and `mintable` says whether a token request can. */
  datatype McpAction = McpAction(kind: string, value: string, resource: Option<Resource>, message: Option<string>, mintable: bool)

  datatype Route = Route(available: bool, mode: Mode, requiresAuth: bool)

  /** `routes` is absent for sessions without routes; `target` is what the provider's request path resolves to:
      the resource kind and, if it is selected, the resource. */
  datatype Flow = Flow(token: string, verb: string, mcpMethod: string, metadataValid: bool, rpcId: string, body: string,
                       routes: Option<seq<Route>>, managedOrigin: bool, oauthProbe: bool,
                       target: Option<(string, Option<Resource>)>, action: Option<McpAction>)

  datatype Action =
    | PassThrough
    | Reject
    | NotFound
    | NoStream
    | Respond(response: HttpResponse)
    | RespondRpc(rpc: RpcResponse)
    | Acknowledge
    | Inject(token: string)

  class DataPlane {
    var actions: seq<Action>
    constructor ()
      ensures actions == []
    {
      actions := [];
    }

    method Do(a: Action)
      modifies this
      ensures actions == old(actions) + [a]
    {
      actions := actions + [a];
    }
  }

  // ----- what passes ungoverned -----

  const LIFECYCLE: set<string> := {
    "initialize", "server/discover", "tools/list", "notifications/initialized", "ping", "prompts/list", "prompts/get",
    "resources/list", "resources/templates/list", "resources/subscribe", "resources/unsubscribe", "completion/complete",
    "logging/setLevel", "notifications/cancelled", "notifications/progress", "notifications/roots/list_changed"
  }

  const SESSION_METHODS: set<string> := {
    "initialize", "notifications/initialized", "ping", "server/discover", "tools/list", "resources/list", "prompts/list"
  }

  const BODILESS: set<string> := {"GET", "HEAD", "DELETE"}

  predicate PassesMcp(flow: Flow, route: Route) {
    !route.requiresAuth && ((flow.verb in BODILESS && flow.mcpMethod == "") || flow.mcpMethod in LIFECYCLE)
  }

  // ----- validated replies -----

  function ProviderOf(reply: Reply, requestId: string): Option<Execution<HttpResponse>> {
    if reply.Provided? && IsValidProvider(reply.provider, requestId) then Some(reply.provider) else None
  }

  function GatewayOf(reply: Reply, requestId: string, rpcId: string): Option<Execution<RpcResponse>> {
    if reply.Gatewayed? && IsValidGateway(reply.gateway, requestId, rpcId) then Some(reply.gateway) else None
  }

  predicate AsksProvider(requestId: string, reply: Reply) {
    ProviderOf(reply, requestId).Some? && reply.provider.decision.ApprovalRequired?
  }

  predicate AsksGateway(requestId: string, rpcId: string, reply: Reply) {
    GatewayOf(reply, requestId, rpcId).Some? && reply.gateway.decision.ApprovalRequired?
  }

  function ProviderAsks(requestId: string): Reply -> bool {
    reply => AsksProvider(requestId, reply)
  }

  function GatewayAsks(requestId: string, rpcId: string): Reply -> bool {
    reply => AsksGateway(requestId, rpcId, reply)
  }

  /** The response a validated execution lets through, and it lets one through only under an allow. */
  function Released<R>(e: Option<Execution<R>>): (r: Option<R>)
    ensures r.Some? ==> e.Some? && e.value.response == r
  {
    if e.Some? && !e.value.outcome.Denied? then e.value.response else None
  }

  lemma AskingReleasesNothing(reply: Reply, requestId: string, rpcId: string)
    ensures AsksProvider(requestId, reply) ==> Released(ProviderOf(reply, requestId)).None?
    ensures AsksGateway(requestId, rpcId, reply) ==> Released(GatewayOf(reply, requestId, rpcId)).None?
  {
    if AsksProvider(requestId, reply) { ResponsesAreAllowed(reply.provider, requestId); }
    if AsksGateway(requestId, rpcId, reply) { ResponsesAreAllowed(reply.gateway, requestId); }
  }

  // ----- which flows reach the control plane -----

  /** The provider request names a selected resource of the target's kind that is available. */
  predicate ReachesProvider(flow: Flow) {
    flow.token != "" && flow.metadataValid
    && match flow.target
       case Some((kind, Some(resource))) => resource.kind == kind && resource.available
       case _ => false
  }

  /** The MCP request names a selected resource, by its own kind and name, that is available. */
  predicate NamesResource(flow: Flow) {
    flow.metadataValid && flow.rpcId != ""
    && match flow.action
       case Some(McpAction(kind, value, Some(resource), _, _)) => resource == Resource(kind, value, true)
       case _ => false
  }

  predicate ReachesGateway(flow: Flow) {
    flow.token != "" && NamesResource(flow) && flow.action.value.message.Some?
  }

  predicate ReachesKitReader(flow: Flow) {
    flow.token != "" && NamesResource(flow) && flow.action.value.mintable
  }

  predicate ReachesSession(flow: Flow) {
    flow.token != "" && flow.metadataValid
  }

  /** The checks of the two handlers of governed actions, in their order. */
  predicate HasGovernedAction(flow: Flow) {
    && flow.metadataValid && flow.action.Some? && flow.rpcId != "" && flow.action.value.resource.Some?
    && flow.action.value.resource.value.kind == flow.action.value.kind
    && flow.action.value.resource.value.external == flow.action.value.value
    && flow.action.value.resource.value.available
  }

  class Router {
    const cp: ControlPlane
    const dp: DataPlane

    constructor (cp: ControlPlane, dp: DataPlane)
      ensures this.cp == cp && this.dp == dp
    {
      this.cp := cp;
      this.dp := dp;
    }

    method ExecuteProvider(token: string, requestId: string, body: string) returns (result: Option<Execution<HttpResponse>>)
      modifies cp
      ensures token == "" ==> result.None? && cp.calls == old(cp.calls)
      ensures token != "" ==> cp.calls == old(cp.calls) + [Execute(requestId, body)]
                              && result == ProviderOf(cp.replies(|old(cp.calls)|), requestId)
    {
      if token == "" { return None; }
      var reply := cp.Ask(Execute(requestId, body));
      result := ProviderOf(reply, requestId);
    }

    /** One execution, or two with an approval between them. */
    method ObtainProvider(token: string, requestId: string, body: string) returns (result: Option<Execution<HttpResponse>>)
      modifies cp
      ensures old(cp.calls) <= cp.calls
      ensures |cp.calls| > |old(cp.calls)| <==> token != ""
      ensures IsGoverned(cp.calls, |old(cp.calls)|, Execute(requestId, body), ProviderAsks(requestId), token, cp.replies, cp.patience)
      ensures var last := |cp.calls| - 1;
              Released(result) == if last >= |old(cp.calls)| && cp.calls[last] == Execute(requestId, body) then Released(ProviderOf(cp.replies(last), requestId)) else None
    {
      ghost var from, first := |cp.calls|, Execute(requestId, body);
      result := ExecuteProvider(token, requestId, body);
      if token == "" { return; }
      assert cp.calls[from] == first;
      if result.None? || !result.value.decision.ApprovalRequired? {
        GovernedOnce(cp.calls, from, first, ProviderAsks(requestId), token, cp.replies, cp.patience);
        return;
      }
      AskingReleasesNothing(cp.replies(from), requestId, "");
      var approved := cp.WaitForApproval(token, requestId);
      GovernedWait(cp.calls, from, first, ProviderAsks(requestId), token, cp.replies, cp.patience, approved);
      if !approved { return None; }
      result := ExecuteProvider(token, requestId, body);
    }

    /** A call is made exactly for a resource that is selected for the session, of the target's kind and available. The
        provider's response is relayed exactly when the last call is an execution whose validated reply carries one; the
        decision in that reply is then an allow. */
    method HandleProvider(flow: Flow, requestId: string) returns (a: Action)
      modifies cp, dp
      ensures dp.actions == old(dp.actions) + [a] && (a.Reject? || a.Respond?)
      ensures old(cp.calls) <= cp.calls
      ensures if ReachesProvider(flow) then |cp.calls| > |old(cp.calls)| else cp.calls == old(cp.calls) && a == Reject
      ensures IsGoverned(cp.calls, |old(cp.calls)|, Execute(requestId, flow.body), ProviderAsks(requestId), flow.token, cp.replies, cp.patience)
      ensures var last := |cp.calls| - 1;
              (a.Respond? <==> last >= |old(cp.calls)| && cp.calls[last] == Execute(requestId, flow.body)
                               && Released(ProviderOf(cp.replies(last), requestId)).Some?)
              && (a.Respond? ==> Released(ProviderOf(cp.replies(last), requestId)) == Some(a.response)
                                 && cp.replies(last).provider.decision == Allow && cp.replies(last).provider.requestId == requestId
                                 && 100 <= a.response.status <= 599)
    {
      a := Reject;
      if flow.metadataValid && flow.target.Some? && flow.target.value.1.Some? {
        var resource := flow.target.value.1.value;
        if resource.kind == flow.target.value.0 && resource.available {
          var result := ObtainProvider(flow.token, requestId, flow.body);
          if result.Some? && !result.value.outcome.Denied? && result.value.response.Some? {
            ResponsesAreAllowed(cp.replies(|cp.calls| - 1).provider, requestId);
            a := Respond(result.value.response.value);
          }
        }
      }
      dp.Do(a);
    }

    method ExecuteGateway(token: string, requestId: string, rpcId: string, body: string) returns (result: Option<Execution<RpcResponse>>)
      modifies cp
      ensures token == "" ==> result.None? && cp.calls == old(cp.calls)
      ensures token != "" ==> cp.calls == old(cp.calls) + [Gateway(requestId, body)]
                              && result == GatewayOf(cp.replies(|old(cp.calls)|), requestId, rpcId)
    {
      if token == "" { return None; }
      var reply := cp.Ask(Gateway(requestId, body));
      result := GatewayOf(reply, requestId, rpcId);
    }

    method ObtainGateway(token: string, requestId: string, rpcId: string, body: string) returns (result: Option<Execution<RpcResponse>>)
      modifies cp
      ensures old(cp.calls) <= cp.calls
      ensures |cp.calls| > |old(cp.calls)| <==> token != ""
      ensures IsGoverned(cp.calls, |old(cp.calls)|, Gateway(requestId, body), GatewayAsks(requestId, rpcId), token, cp.replies, cp.patience)
      ensures var last := |cp.calls| - 1;
              Released(result) == if last >= |old(cp.calls)| && cp.calls[last] == Gateway(requestId, body) then Released(GatewayOf(cp.replies(last), requestId, rpcId)) else None
    {
      ghost var from, first := |cp.calls|, Gateway(requestId, body);
      result := ExecuteGateway(token, requestId, rpcId, body);
      if token == "" { return; }
      assert cp.calls[from] == first;
      if result.None? || !result.value.decision.ApprovalRequired? {
        GovernedOnce(cp.calls, from, first, GatewayAsks(requestId, rpcId), token, cp.replies, cp.patience);
        return;
      }
      AskingReleasesNothing(cp.replies(from), requestId, rpcId);
      var approved := cp.WaitForApproval(token, requestId);
      GovernedWait(cp.calls, from, first, GatewayAsks(requestId, rpcId), token, cp.replies, cp.patience, approved);
      if !approved { return None; }
      result := ExecuteGateway(token, requestId, rpcId, body);
    }

    /** A call is made exactly for an action on a resource that is selected and available and for which a message can be
        built. An upstream MCP answer is relayed exactly when the last call is an execution whose validated reply carries
        one; the decision in that reply is then an allow. */
    method HandleGateway(flow: Flow, requestId: string) returns (a: Action)
      modifies cp, dp
      ensures dp.actions == old(dp.actions) + [a] && (a.Reject? || a.RespondRpc?)
      ensures old(cp.calls) <= cp.calls
      ensures if ReachesGateway(flow) then |cp.calls| > |old(cp.calls)| else cp.calls == old(cp.calls) && a == Reject
      ensures IsGoverned(cp.calls, |old(cp.calls)|, Gateway(requestId, GatewayBody(flow)), GatewayAsks(requestId, flow.rpcId), flow.token, cp.replies, cp.patience)
      ensures var last := |cp.calls| - 1;
              (a.RespondRpc? <==> last >= |old(cp.calls)| && cp.calls[last] == Gateway(requestId, GatewayBody(flow))
                                  && Released(GatewayOf(cp.replies(last), requestId, flow.rpcId)).Some?)
              && (a.RespondRpc? ==> Released(GatewayOf(cp.replies(last), requestId, flow.rpcId)) == Some(a.rpc)
                                    && cp.replies(last).gateway.decision == Allow && cp.replies(last).gateway.requestId == requestId
                                    && a.rpc.version == "2.0" && a.rpc.id == flow.rpcId)
    {
      a := Reject;
      if HasGovernedAction(flow) && flow.action.value.message.Some? {
        var result := ObtainGateway(flow.token, requestId, flow.rpcId, flow.action.value.message.value);
        if result.Some? && !result.value.outcome.Denied? && result.value.response.Some? {
          ResponsesAreAllowed(cp.replies(|cp.calls| - 1).gateway, requestId);
          a := RespondRpc(result.value.response.value);
        }
      }
      dp.Do(a);
    }

    /** One token is asked for, exactly for an action on a selected and available resource, and injected exactly when the
        answer is a valid one. */
    method HandleKitReader(flow: Flow, requestId: string) returns (a: Action)
      modifies cp, dp
      ensures dp.actions == old(dp.actions) + [a] && (a.Reject? || a.Inject?)
      ensures cp.calls == old(cp.calls) + if ReachesKitReader(flow) then [Mint(requestId, flow.body)] else []
      ensures a.Inject? <==> && ReachesKitReader(flow) && cp.replies(|old(cp.calls)|).TokenMinted?
                             && var minted := cp.replies(|old(cp.calls)|).minted;
                                minted.schema == 1 && 0 < |minted.token| <= 0x10_0000 && minted.expiresLater
      ensures a.Inject? ==> cp.replies(|old(cp.calls)|).minted.token == a.token
    {
      a := Reject;
      if HasGovernedAction(flow) && flow.action.value.mintable && flow.token != "" {
        var reply := cp.Ask(Mint(requestId, flow.body));
        if reply.TokenMinted? && IsValidToken(reply.minted) { a := Inject(reply.minted.token); }
      }
      dp.Do(a);
    }

    /** A handshake or listing is relayed once, if its metadata are valid and there is a token; its answer is passed on
        exactly when it is valid and not failed. */
    method HandleSession(flow: Flow, requestId: string) returns (a: Action)
      modifies cp, dp
      ensures dp.actions == old(dp.actions) + [a] && (a.Reject? || a.Acknowledge? || a.RespondRpc?)
      ensures cp.calls == old(cp.calls) + if ReachesSession(flow) then [RelaySession(requestId, flow.body)] else []
      ensures !a.Reject? <==>
                && ReachesSession(flow) && cp.replies(|old(cp.calls)|).SessionRelayed?
                && var relay := cp.replies(|old(cp.calls)|).relay; IsValidRelay(relay, requestId, flow.rpcId) && !relay.status.RelayFailed?
      ensures !a.Reject? ==>
                var relay := cp.replies(|old(cp.calls)|).relay;
                && relay.requestId == requestId
                && (if a.Acknowledge? then relay.status == Accepted else relay.status == Relayed && relay.response == Some(a.rpc))
    {
      a := Reject;
      if flow.metadataValid && flow.token != "" {
        var reply := cp.Ask(RelaySession(requestId, flow.body));
        if reply.SessionRelayed? && IsValidRelay(reply.relay, requestId, flow.rpcId) && !reply.relay.status.RelayFailed? {
          a := if reply.relay.status.Accepted? || reply.relay.response.None? then Acknowledge
               else RespondRpc(reply.relay.response.value);
        }
      }
      dp.Do(a);
    }

    /** A flow on a ready route: what passes, what is refused without a call, and which call is made otherwise, if any. */
    method HandleRoute(flow: Flow, route: Route, requestId: string) returns (a: Action)
      modifies cp, dp
      ensures dp.actions == old(dp.actions) + [a] && old(cp.calls) <= cp.calls
      ensures CallsFor(flow, route) <==> |cp.calls| > |old(cp.calls)|
      ensures !CallsFor(flow, route) ==> a == WithoutCalls(flow, route)
      ensures a.PassThrough? ==> !route.requiresAuth && flow.mcpMethod !in {"tools/call", "resources/read"}
      ensures |cp.calls| > |old(cp.calls)| ==> IsAnswer(a, flow, cp.calls, |old(cp.calls)|, cp.replies, requestId)
    {
      match route.mode
      case ProviderExecutor =>
        ghost var from := |cp.calls|;
        a := HandleProvider(flow, requestId);
        if |cp.calls| > from {
          GovernedIsOneCall(cp.calls, from, Execute(requestId, flow.body), ProviderAsks(requestId), flow.token, cp.replies, cp.patience);
        }
      case McpGateway =>
        if PassesMcp(flow, route) {
          ActionsNeverPass(flow, route);
          a := PassThrough;
          dp.Do(a);
        } else if flow.mcpMethod in SESSION_METHODS {
          a := HandleSession(flow, requestId);
        } else if flow.mcpMethod == "" {
          a := NoStream;
          dp.Do(a);
        } else {
          ghost var from := |cp.calls|;
          a := HandleGateway(flow, requestId);
          if |cp.calls| > from {
            GovernedIsOneCall(cp.calls, from, Gateway(requestId, GatewayBody(flow)), GatewayAsks(requestId, flow.rpcId), flow.token, cp.replies, cp.patience);
          }
        }
      case McpKitReader =>
        if PassesMcp(flow, route) {
          ActionsNeverPass(flow, route);
          a := PassThrough;
          dp.Do(a);
        } else {
          a := HandleKitReader(flow, requestId);
        }
      case OtherMode(_) =>
        a := Reject;
        dp.Do(a);
    }

    /** The whole decision. A flow of a session with routes gets exactly one action, and every other flow none. An origin no
        route manages is left alone; a managed one without a route is refused, or told that there is no OAuth; several
        routes, or one that is not ready, are refused; and one ready route decides as above. */
    method Handle(flow: Flow, requestId: string) returns (owned: bool, a: Action)
      modifies cp, dp
      ensures owned == flow.routes.Some? && old(cp.calls) <= cp.calls
      ensures dp.actions == old(dp.actions) + if owned then [a] else []
      ensures !owned ==> cp.calls == old(cp.calls)
      ensures owned && flow.routes.value == [] ==>
                && cp.calls == old(cp.calls)
                && (!flow.managedOrigin ==> a == PassThrough)
                && (flow.managedOrigin && flow.oauthProbe ==> a == NotFound)
                && (flow.managedOrigin && !flow.oauthProbe ==> a == Reject)
      ensures owned && (|flow.routes.value| > 1 || (|flow.routes.value| == 1 && !flow.routes.value[0].available)) ==>
                cp.calls == old(cp.calls) && a == Reject
      ensures owned && |flow.routes.value| == 1 && flow.routes.value[0].available ==>
                && (CallsFor(flow, flow.routes.value[0]) <==> |cp.calls| > |old(cp.calls)|)
                && (!CallsFor(flow, flow.routes.value[0]) ==> a == WithoutCalls(flow, flow.routes.value[0]))
                && (|cp.calls| > |old(cp.calls)| ==> IsAnswer(a, flow, cp.calls, |old(cp.calls)|, cp.replies, requestId))
      ensures owned && flow.routes.value != [] && a.PassThrough? ==>
                !flow.routes.value[0].requiresAuth && flow.mcpMethod !in {"tools/call", "resources/read"}
    {
      a := Reject;
      if flow.routes.None? { return false, a; }
      owned := true;
      var routes := flow.routes.value;
      if |routes| == 0 {
        a := if !flow.managedOrigin then PassThrough else if flow.oauthProbe then NotFound else Reject;
        dp.Do(a);
      } else if |routes| > 1 || !routes[0].available {
        dp.Do(a);
      } else {
        a := HandleRoute(flow, routes[0], requestId);
      }
    }
  }

  // ----- what a ready route comes to -----

  /** The flows on a ready route that make the control plane be called. */
  predicate CallsFor(flow: Flow, route: Route) {
    match route.mode
    case ProviderExecutor => ReachesProvider(flow)
    case McpGateway =>
      && !PassesMcp(flow, route)
      && if flow.mcpMethod in SESSION_METHODS then ReachesSession(flow) else flow.mcpMethod != "" && ReachesGateway(flow)
    case McpKitReader => !PassesMcp(flow, route) && ReachesKitReader(flow)
    case OtherMode(_) => false
  }

  /** Without a call, only MCP transport and life cycle pass, a bare stream request is told there is none, and all else is refused. */
  function WithoutCalls(flow: Flow, route: Route): (a: Action)
    ensures a.PassThrough? <==> (route.mode.McpGateway? || route.mode.McpKitReader?) && PassesMcp(flow, route)
    ensures a.NoStream? <==> route.mode.McpGateway? && !PassesMcp(flow, route) && flow.mcpMethod == ""
    ensures a.PassThrough? || a.NoStream? || a.Reject?
  {
    if (route.mode.McpGateway? || route.mode.McpKitReader?) && PassesMcp(flow, route) then PassThrough
    else if route.mode.McpGateway? && flow.mcpMethod == "" then NoStream
    else Reject
  }

  /** What is relayed comes from the reply to the last call, and under an allow where the call was for an action. All calls
      are for this request: one call, perhaps polls, and perhaps the same call again. */
  predicate IsAnswer(a: Action, flow: Flow, calls: seq<Call>, from: nat, replies: nat -> Reply, requestId: string)
    requires from < |calls|
  {
    var first, last := calls[from], replies(|calls| - 1);
    && first.requestId == requestId && !first.Poll? && IsOneCall(calls, from, first)
    && match a
       case Reject => true
       case Respond(response) => last.Provided? && last.provider.decision == Allow && last.provider.response == Some(response)
       case RespondRpc(rpc) =>
         if flow.mcpMethod in SESSION_METHODS then last.SessionRelayed? && last.relay.response == Some(rpc)
         else last.Gatewayed? && last.gateway.decision == Allow && last.gateway.response == Some(rpc)
       case Acknowledge => last.SessionRelayed? && last.relay.status == Accepted
       case Inject(token) => last.TokenMinted? && last.minted.token == token
       case _ => false
  }

  /** No call for an action passes by, and nothing does where the upstream needs a credential. */
  lemma ActionsNeverPass(flow: Flow, route: Route)
    requires PassesMcp(flow, route)
    ensures !route.requiresAuth && flow.mcpMethod !in {"tools/call", "resources/read"}
  {
  }

  function GatewayBody(flow: Flow): string {
    if flow.action.Some? && flow.action.value.message.Some? then flow.action.value.message.value else ""
  }
}
