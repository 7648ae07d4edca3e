/** Whole round trips across the three contexts, each message taken from the
    sender's outbox and delivered to the receiving listener: the awaited call
    settles with exactly the value the remote handler produced, and the
    pending entry that awaited it is gone afterwards. */
module Scenarios {
  import opened Types
  import opened Funcs
  import opened Emitters
  import opened ServerAdapter
  import opened ClientAdapter
  import opened WebviewAdapter

  /** A registry holds a user handler under `event`. */
  ghost predicate Registered(s: Storage, event: string, handler: HandlerId) {
    event in s && s[event].cb == Handler(handler)
  }

  /** Client `emitServer`: the server dispatches with the client's server id
      prepended and answers; the client settles the call with the result. */
  method ClientCallsServer(client: RpcClient, server: RpcServer, event: string, args: seq<Value>,
                           draws: seq<int>, run: HandlerTable, handler: HandlerId, v: Value)
    returns (uuid: string)
    requires client.Valid() && server.Valid() && client.Repr() !! server.Repr()
    requires ValidDraws(draws) && client.serverId != -1
    requires Registered(server.emitterClient.storage, event, handler)
    requires run(handler, [VNum(client.serverId)] + args) == Done(v)
    modifies client.Repr(), server.Repr()
    ensures uuid == UuidText(draws)
    ensures client.settled == old(client.settled)[uuid := v]
    ensures client.pendingServer.storage == old(client.pendingServer.storage) - {uuid}
    ensures server.settled == old(server.settled)
  {
    uuid := client.EmitServer(event, args, draws);
    var call := client.outbox[|client.outbox| - 1];
    var served := server.Receive(call.channel, call.body, run);
    var answer := server.outbox[|server.outbox| - 1];
    assert answer.channel == ListenerServer && answer.target == Some(client.serverId);
    var settledBy := client.HandleServer(answer.body, run);
  }

  /** Server `emitClient`: the client dispatches with the call's data, and
      the server settles the call with the result. */
  method ServerCallsClient(server: RpcServer, client: RpcClient, player: int, event: string, args: seq<Value>,
                           draws: seq<int>, run: HandlerTable, handler: HandlerId, v: Value)
    returns (uuid: string)
    requires client.Valid() && server.Valid() && client.Repr() !! server.Repr()
    requires ValidDraws(draws)
    requires Registered(client.emitterServer.storage, event, handler)
    requires run(handler, args) == Done(v)
    modifies client.Repr(), server.Repr()
    ensures uuid == UuidText(draws)
    ensures server.settled == old(server.settled)[uuid := v]
    ensures server.pendingClient.storage == old(server.pendingClient.storage) - {uuid}
    ensures client.settled == old(client.settled)
  {
    uuid := server.Emit(Client, player, event, args, draws);
    var call := server.outbox[|server.outbox| - 1];
    assert call.channel == ListenerServer && call.target == Some(player);
    var served := client.HandleServer(call.body, run);
    var answer := client.outbox[|client.outbox| - 1];
    var settledBy := server.Receive(answer.channel, answer.body, run);
  }

  /** Server `emitWebview`, first leg: the player's client pushes the call
      into its page unchanged, and the webview dispatches it and posts
      exactly one response to its client. */
  method ServerCallReachesWebview(server: RpcServer, client: RpcClient, webview: RpcWebview, player: int,
                                  event: string, args: seq<Value>, draws: seq<int>,
                                  run: HandlerTable, handler: HandlerId, v: Value)
    returns (uuid: string)
    requires client.Valid() && server.Valid() && webview.Valid()
    requires client.Repr() !! server.Repr() && webview.Repr() !! server.Repr() && webview.Repr() !! client.Repr()
    requires ValidDraws(draws)
    requires Registered(webview.emitterServer.storage, event, handler)
    requires run(handler, args) == Done(v)
    modifies client.Repr(), server.Repr(), webview.Repr()
    ensures uuid == UuidText(draws)
    ensures server.pendingWeb.storage == old(server.pendingWeb.storage)[uuid := Entry(Settle, true)]
    ensures server.settled == old(server.settled)
    ensures webview.requests == old(webview.requests) + [HttpRequest(StateData(ResponseTo(
      CallEnvelope(event, uuid, Server, Webview, args, Some(player)), Webview, Server, v)), webview.resource)]
  {
    uuid := server.Emit(Webview, player, event, args, draws);
    var call := server.outbox[|server.outbox| - 1];
    assert call.channel == ListenerServer && call.target == Some(player);
    var relayed := client.HandleServer(call.body, run);
    var pushed := client.outbox[|client.outbox| - 1];
    var served := webview.OnMessage(pushed.web, run);
  }

  /** Server `emitWebview`, whole trip: the webview's response is forwarded
      by its client on `LISTENER_WEB` with the server id as player, and the
      server settles the call with the webview handler's result. */
  method ServerCallsWebview(server: RpcServer, client: RpcClient, webview: RpcWebview, player: int,
                            event: string, args: seq<Value>, draws: seq<int>,
                            run: HandlerTable, handler: HandlerId, v: Value)
    returns (uuid: string)
    requires client.Valid() && server.Valid() && webview.Valid()
    requires client.Repr() !! server.Repr() && webview.Repr() !! server.Repr() && webview.Repr() !! client.Repr()
    requires ValidDraws(draws)
    requires Registered(webview.emitterServer.storage, event, handler)
    requires run(handler, args) == Done(v)
    modifies client.Repr(), server.Repr(), webview.Repr()
    ensures uuid == UuidText(draws)
    ensures server.settled == old(server.settled)[uuid := v]
    ensures server.pendingWeb.storage == old(server.pendingWeb.storage) - {uuid}
  {
    uuid := ServerCallReachesWebview(server, client, webview, player, event, args, draws, run, handler, v);
    var request := webview.requests[|webview.requests| - 1];
    var acknowledged := client.HandleWeb(Parse(request.body).value, run);
    var forwarded := client.outbox[|client.outbox| - 1];
    var settledBy := server.Receive(forwarded.channel, forwarded.body, run);
  }

  /** Webview `emitServer`: its client stamps the call with the server id and
      forwards it, the server dispatches it with that id prepended and
      answers the client, and the client settles the awaited HTTP request
      with the result. */
  method WebviewCallsServer(webview: RpcWebview, client: RpcClient, server: RpcServer,
                            event: string, args: seq<Value>, draws: seq<int>,
                            run: HandlerTable, handler: HandlerId, v: Value)
    returns (reply: WebReply)
    requires client.Valid() && server.Valid() && webview.Valid()
    requires client.Repr() !! server.Repr() && webview.Repr() !! server.Repr() && webview.Repr() !! client.Repr()
    requires ValidDraws(draws) && client.serverId != -1
    requires Registered(server.emitterWeb.storage, event, handler)
    requires run(handler, [VNum(client.serverId)] + args) == Done(v)
    modifies client.Repr(), server.Repr(), webview.Repr()
    ensures reply == Awaiting(UuidText(draws)) && FetchAnswer(reply, client.settled) == Some(v)
    ensures client.settled == old(client.settled)[UuidText(draws) := v]
    ensures client.pendingWebToServer.storage == old(client.pendingWebToServer.storage) - {UuidText(draws)}
  {
    webview.Emit(Server, event, args, draws);
    var request := webview.requests[|webview.requests| - 1];
    reply := client.HandleWeb(Parse(request.body).value, run);
    var forwarded := client.outbox[|client.outbox| - 1];
    var served := server.Receive(forwarded.channel, forwarded.body, run);
    var answer := server.outbox[|server.outbox| - 1];
    assert answer.channel == ListenerServer && answer.target == Some(client.serverId);
    var settledBy := client.HandleServer(answer.body, run);
  }

  /** Client `emitWebview`: the webview dispatches the pushed call and posts
      the response, and the client settles the call with the result and
      acknowledges the request with `{status: 'ok'}`. */
  method ClientCallsWebview(client: RpcClient, webview: RpcWebview, event: string, args: seq<Value>,
                            draws: seq<int>, run: HandlerTable, handler: HandlerId, v: Value)
    returns (uuid: string, ack: WebReply)
    requires client.Valid() && webview.Valid() && client.Repr() !! webview.Repr()
    requires ValidDraws(draws)
    requires Registered(webview.emitterClient.storage, event, handler)
    requires run(handler, args) == Done(v)
    modifies client.Repr(), webview.Repr()
    ensures uuid == UuidText(draws)
    ensures client.settled == old(client.settled)[uuid := v]
    ensures client.pendingWeb.storage == old(client.pendingWeb.storage) - {uuid}
    ensures ack == Answer(Done(StatusObject("ok"))) && FetchAnswer(ack, client.settled) == Some(StatusObject("ok"))
  {
    uuid := client.EmitWebview(event, args, draws);
    var pushed := client.outbox[|client.outbox| - 1];
    var served := webview.OnMessage(pushed.web, run);
    var request := webview.requests[|webview.requests| - 1];
    ack := client.HandleWeb(Parse(request.body).value, run);
  }

  /** Webview `emitClient`: the client settles the request directly with
      the handler's outcome. With no handler, `_handleWeb` rejects with the
      registry's bare rejection, since this path skips the registration
      guard, and the webview's request is never answered. */
  method WebviewCallsClient(webview: RpcWebview, client: RpcClient, event: string, args: seq<Value>,
                            draws: seq<int>, run: HandlerTable)
    returns (reply: WebReply)
    requires client.Valid() && webview.Valid() && client.Repr() !! webview.Repr()
    requires ValidDraws(draws)
    modifies client.Repr(), webview.Repr()
    ensures event in old(client.emitterWeb.storage) ==>
      reply == Answer(Invoke(run, old(client.emitterWeb.storage)[event].cb, args))
    ensures event !in old(client.emitterWeb.storage) ==>
      reply == Answer(Failed(NotRegistered())) && FetchAnswer(reply, client.settled) == None
    ensures client.outbox == old(client.outbox) && client.settled == old(client.settled)
  {
    webview.Emit(Client, event, args, draws);
    var request := webview.requests[|webview.requests| - 1];
    reply := client.HandleWeb(Parse(request.body).value, run);
  }

  /** `emitClientEveryone`: a client that handles the broadcast answers it
      like any call, but the server awaited nothing under that id, so the
      answer is rejected as not registered. */
  method BroadcastAnswerRejected(server: RpcServer, client: RpcClient, event: string, args: seq<Value>,
                                 draws: seq<int>, run: HandlerTable, handler: HandlerId, v: Value)
    returns (r: Completion)
    requires client.Valid() && server.Valid() && client.Repr() !! server.Repr()
    requires ValidDraws(draws) && UuidText(draws) !in server.pendingClient.storage
    requires Registered(client.emitterServer.storage, event, handler)
    requires run(handler, args) == Done(v)
    modifies client.Repr(), server.Repr()
    ensures r == Failed(NotRegistered())
    ensures server.settled == old(server.settled)
    ensures client.outbox == old(client.outbox) + [Net(ListenerClient, None, Stringify(ResponseTo(
      CallEnvelope(event, UuidText(draws), Server, Client, args, Some(-1)), Client, Server, v)))]
  {
    server.EmitClientEveryone(event, args, draws);
    var call := server.outbox[|server.outbox| - 1];
    assert call.channel == ListenerServer && call.target == Some(-1);
    var served := client.HandleServer(call.body, run);
    var answer := client.outbox[|client.outbox| - 1];
    r := server.Receive(answer.channel, answer.body, run);
  }
}
