/** The client context adapter (rpc/src/core/client.ts). It talks to the
    server over the network (`LISTENER_CLIENT` out, `LISTENER_SERVER` in),
    pushes messages into its webview, and answers the webview's HTTP requests.
    Webview calls to the server pass through it, awaited in a registry of
    their own. */
module ClientAdapter {
  import opened Types
  import opened Funcs
  import opened Emitters
  import opened Base

  /** How `_handleWeb` settles: with a completion now, or later with the
      settlement of the pending entry under this uuid. */
  datatype WebReply = Answer(completion: Completion) | Awaiting(uuid: string)

  /** What the webview's `fetch` receives through the `__cfx_nui:` callback,
      given the values awaited calls have settled with so far. `callback(res)`
      runs only once `_handleWeb` resolves: when it rejects, the callback is
      never called and the request stays unanswered (`None`), as it does while
      the awaited call is still pending. One `settled` map serves all three
      pending registries, so reading it by uuid relies on ids never repeating,
      which the model does not guarantee (the draws are given). */
  function FetchAnswer(reply: WebReply, settled: map<string, Value>): (r: Option<Value>)
    ensures r.Some? <==> (reply.Answer? && reply.completion.Done?) || (reply.Awaiting? && reply.uuid in settled)
    ensures reply.Answer? && reply.completion.Done? ==> r == Some(reply.completion.value)
    ensures reply.Awaiting? && reply.uuid in settled ==> r == Some(settled[reply.uuid])
  {
    match reply
    case Answer(Done(v)) => Some(v)
    case Answer(Failed(_)) => None
    case Awaiting(uuid) => if uuid in settled then Some(settled[uuid]) else None
  }

  class RpcClient {
    const wrapper: Wrapper
    const emitterServer: Emitter
    const pendingServer: Emitter
    const emitterWeb: Emitter
    const pendingWeb: Emitter
    const pendingWebToServer: Emitter
    /** `PlayerId()`: the local player index. */
    const playerId: int
    /** `GetPlayerServerId(PlayerId())`: the server's id for the local player. */
    const serverId: int
    /** Every `emitNet` and `SendNuiMessage` so far, oldest first. */
    var outbox: seq<Message>
    /** The value each awaited call has resolved with, by uuid. */
    var settled: map<string, Value>

    /** The six registries are distinct objects. */
    ghost predicate Valid() {
      && wrapper.local != emitterServer && wrapper.local != pendingServer && wrapper.local != emitterWeb
      && wrapper.local != pendingWeb && wrapper.local != pendingWebToServer
      && emitterServer != pendingServer && emitterServer != emitterWeb
      && emitterServer != pendingWeb && emitterServer != pendingWebToServer
      && pendingServer != emitterWeb && pendingServer != pendingWeb && pendingServer != pendingWebToServer
      && emitterWeb != pendingWeb && emitterWeb != pendingWebToServer
      && pendingWeb != pendingWebToServer
    }

    /** The objects the adapter owns. */
    ghost function Repr(): set<object> {
      {this, wrapper, wrapper.local, emitterServer, pendingServer, emitterWeb, pendingWeb, pendingWebToServer}
    }

    /** As built: every registry empty, nothing sent and nothing settled. */
    ghost predicate Initial()
      reads this, wrapper.local, emitterServer, pendingServer, emitterWeb, pendingWeb, pendingWebToServer
    {
      && wrapper.local.storage == map[] && emitterServer.storage == map[] && pendingServer.storage == map[]
      && emitterWeb.storage == map[] && pendingWeb.storage == map[] && pendingWebToServer.storage == map[]
      && outbox == [] && settled == map[]
    }

    /** The registry for calls from `peer`; the client's own for itself. */
    function Handlers(peer: Env): Emitter {
      match peer
      case Server => emitterServer
      case Webview => emitterWeb
      case Client => wrapper.local
    }

    constructor(cfg: Config, playerId: int, serverId: int)
      ensures Valid() && Initial() && fresh(Repr() - {this})
      ensures wrapper.env == cfg.env && wrapper.debug == (cfg.debug == Some(true))
      ensures this.playerId == playerId && this.serverId == serverId
      ensures fresh(wrapper) && fresh(wrapper.local)
      ensures fresh(emitterServer) && fresh(pendingServer) && fresh(emitterWeb) && fresh(pendingWeb) && fresh(pendingWebToServer)
      ensures wrapper.local.storage == map[] && emitterServer.storage == map[] && pendingServer.storage == map[]
      ensures emitterWeb.storage == map[] && pendingWeb.storage == map[] && pendingWebToServer.storage == map[]
      ensures outbox == [] && settled == map[]
    {
      wrapper := new Wrapper(cfg);
      emitterServer := new Emitter();
      pendingServer := new Emitter();
      emitterWeb := new Emitter();
      pendingWeb := new Emitter();
      pendingWebToServer := new Emitter();
      this.playerId := playerId;
      this.serverId := serverId;
      outbox := [];
      settled := map[];
    }

    /** `_handleServer`, the `LISTENER_SERVER` listener. A call to the client
        is checked against and dispatched on `_emitterServer` with the data as
        arguments and answered once on `LISTENER_CLIENT`; a call to the webview
        is pushed to it unchanged, unchecked and undispatched. A response
        settles `_pendingServer` when addressed to the client and
        `_pendingWebToServer` when addressed to the webview. */
    method HandleServer(raw: Raw, run: HandlerTable) returns (r: Completion)
      requires Valid()
      modifies this, emitterServer, pendingServer, pendingWebToServer
      ensures Parse(raw).None? ==>
        r == Failed(Error(ErrorText(InvalidData))) && unchanged(this, emitterServer, pendingServer, pendingWebToServer)
      // a call to the client
      ensures Parse(raw).Some? ==> var p := Parse(raw).value;
        p.kind == Event && p.calledTo == Client && p.event !in old(emitterServer.storage) ==>
          r == Failed(Raised(p, EventNotRegistered)) && unchanged(this, emitterServer, pendingServer, pendingWebToServer)
      ensures Parse(raw).Some? ==> var p := Parse(raw).value;
        p.kind == Event && p.calledTo == Client && p.event in old(emitterServer.storage) ==>
          var em := Emitted(old(emitterServer.storage), p.event, SpreadData(p.data), run);
          && emitterServer.storage == em.storage
          && unchanged(pendingServer, pendingWebToServer) && settled == old(settled)
          && (em.outcome.Failed? ==> r == em.outcome && outbox == old(outbox))
          && (em.outcome.Done? ==>
                r == Done(VUndefined)
                && outbox == old(outbox) + [Net(ListenerClient, None, Stringify(ResponseTo(p, Client, Server, em.outcome.value)))])
      // a call to the webview is relayed verbatim
      ensures Parse(raw).Some? ==> var p := Parse(raw).value;
        p.kind == Event && p.calledTo == Webview ==>
          r == Done(VUndefined)
          && outbox == old(outbox) + [Nui(WebState(ChannelName(ListenerServer), p))]
          && settled == old(settled) && unchanged(emitterServer, pendingServer, pendingWebToServer)
      // responses
      ensures Parse(raw).Some? ==> var p := Parse(raw).value;
        p.kind == Response && p.calledTo == Client ==>
          var em := Emitted(old(pendingServer.storage), p.uuid, SpreadData(p.data), run);
          && pendingServer.storage == em.storage
          && unchanged(emitterServer, pendingWebToServer) && outbox == old(outbox)
          && (em.outcome.Failed? ==> r == em.outcome && settled == old(settled))
          && (em.outcome.Done? ==> r == Done(VUndefined) && settled == old(settled)[p.uuid := em.outcome.value])
      ensures Parse(raw).Some? ==> var p := Parse(raw).value;
        p.kind == Response && p.calledTo == Webview ==>
          var em := Emitted(old(pendingWebToServer.storage), p.uuid, SpreadData(p.data), run);
          && pendingWebToServer.storage == em.storage
          && unchanged(emitterServer, pendingServer) && outbox == old(outbox)
          && (em.outcome.Failed? ==> r == em.outcome && settled == old(settled))
          && (em.outcome.Done? ==> r == Done(VUndefined) && settled == old(settled)[p.uuid := em.outcome.value])
      // anything addressed to the server is ignored
      ensures Parse(raw).Some? ==> var p := Parse(raw).value;
        p.calledTo == Server ==>
          r == Done(VUndefined) && unchanged(this, emitterServer, pendingServer, pendingWebToServer)
    {
      var parsed := Parse(raw);
      if parsed.None? {
        return Failed(Error(ErrorText(InvalidData)));
      }
      var payload := parsed.value;
      r := Done(VUndefined);
      if payload.kind == Event {
        if payload.calledTo == Client {
          var check, marked := wrapper.VerifyEvent(emitterServer, payload);
          if check.Throw? {
            return Failed(check.fault);
          }
          var result := emitterServer.Emit(payload.event, SpreadData(payload.data), run);
          if result.Failed? {
            return result;
          }
          var response := ResponseTo(payload, Client, Server, result.value);
          outbox := outbox + [Net(ListenerClient, None, Stringify(response))];
        }
        if payload.calledTo == Webview {
          outbox := outbox + [Nui(WebState(ChannelName(ListenerServer), payload))];
        }
      }
      if payload.kind == Response {
        if payload.calledTo == Client {
          var result := pendingServer.Emit(payload.uuid, SpreadData(payload.data), run);
          if result.Failed? {
            return result;
          }
          settled := settled[payload.uuid := result.value];
        }
        if payload.calledTo == Webview {
          var result := pendingWebToServer.Emit(payload.uuid, SpreadData(payload.data), run);
          if result.Failed? {
            return result;
          }
          settled := settled[payload.uuid := result.value];
        }
      }
    }

    /** `_handleWeb`, the `__cfx_nui:` callback for the webview's requests.
        A call to the client is dispatched on `_emitterWeb` without the
        registration guard, and its result is the answer. A call to the server
        gets the local server id as player, goes out on `LISTENER_WEB`, and is
        answered when the once entry under its uuid in `_pendingWebToServer`
        settles. A response to the client settles `_pendingWeb`; a response to
        the server gets the server id and goes out on `LISTENER_WEB`; both are
        acknowledged with `{status: 'ok'}`. Anything else gets
        `{status: 'unknown'}` and changes nothing. */
    method HandleWeb(p: Envelope, run: HandlerTable) returns (reply: WebReply)
      requires Valid()
      modifies this, emitterWeb, pendingWeb, pendingWebToServer
      ensures p.kind == Event && p.calledTo == Client ==>
        var em := Emitted(old(emitterWeb.storage), p.event, SpreadData(p.data), run);
        && reply == Answer(em.outcome)
        && emitterWeb.storage == em.storage
        && unchanged(this, pendingWeb, pendingWebToServer)
      ensures p.kind == Event && p.calledTo == Server ==>
        && reply == Awaiting(p.uuid)
        && outbox == old(outbox) + [Net(ListenerWeb, None, Stringify(p.(player := Some(serverId))))]
        && pendingWebToServer.storage == old(pendingWebToServer.storage)[p.uuid := Entry(Settle, true)]
        && settled == old(settled) && unchanged(emitterWeb, pendingWeb)
      ensures p.kind == Response && p.calledTo == Client ==>
        var em := Emitted(old(pendingWeb.storage), p.uuid, SpreadData(p.data), run);
        && pendingWeb.storage == em.storage
        && outbox == old(outbox) && unchanged(emitterWeb, pendingWebToServer)
        && (em.outcome.Failed? ==> reply == Answer(em.outcome) && settled == old(settled))
        && (em.outcome.Done? ==>
              reply == Answer(Done(StatusObject("ok"))) && settled == old(settled)[p.uuid := em.outcome.value])
      ensures p.kind == Response && p.calledTo == Server ==>
        && reply == Answer(Done(StatusObject("ok")))
        && outbox == old(outbox) + [Net(ListenerWeb, None, Stringify(p.(player := Some(serverId))))]
        && settled == old(settled) && unchanged(emitterWeb, pendingWeb, pendingWebToServer)
      ensures p.calledTo == Webview ==>
        reply == Answer(Done(StatusObject("unknown"))) && unchanged(this, emitterWeb, pendingWeb, pendingWebToServer)
    {
      if p.kind == Event {
        if p.calledTo == Client {
          var result := emitterWeb.Emit(p.event, SpreadData(p.data), run);
          return Answer(result);
        }
        if p.calledTo == Server {
          var relayed := p.(player := Some(serverId));
          outbox := outbox + [Net(ListenerWeb, None, Stringify(relayed))];
          pendingWebToServer.Once(relayed.uuid, Settle);
          return Awaiting(relayed.uuid);
        }
      }
      if p.kind == Response {
        if p.calledTo == Client {
          var result := pendingWeb.Emit(p.uuid, SpreadData(p.data), run);
          if result.Failed? {
            return Answer(result);
          }
          settled := settled[p.uuid := result.value];
          return Answer(Done(StatusObject("ok")));
        }
        if p.calledTo == Server {
          var relayed := p.(player := Some(serverId));
          outbox := outbox + [Net(ListenerWeb, None, Stringify(relayed))];
          return Answer(Done(StatusObject("ok")));
        }
      }
      reply := Answer(Done(StatusObject("unknown")));
    }

    /** `emitServer`: one call envelope on `LISTENER_CLIENT` with the local
        server id as player, awaited under a fresh id in `_pendingServer`. */
    method EmitServer(event: string, args: seq<Value>, draws: seq<int>) returns (uuid: string)
      requires Valid() && ValidDraws(draws)
      modifies this, pendingServer
      ensures uuid == UuidText(draws) && UuidShape(uuid)
      ensures outbox == old(outbox) + [Net(ListenerClient, None, Stringify(CallEnvelope(event, uuid, Client, Server, args, Some(serverId))))]
      ensures pendingServer.storage == old(pendingServer.storage)[uuid := Entry(Settle, true)]
      ensures settled == old(settled)
    {
      uuid := GenerateUuid(draws);
      var payload := CallEnvelope(event, uuid, Client, Server, args, Some(serverId));
      outbox := outbox + [Net(ListenerClient, None, Stringify(payload))];
      pendingServer.Once(payload.uuid, Settle);
    }

    /** `emitWebview`: one call envelope pushed to the webview with origin
        `LISTENER_CLIENT` and the local player index, awaited under a fresh id
        in `_pendingWeb`. */
    method EmitWebview(event: string, args: seq<Value>, draws: seq<int>) returns (uuid: string)
      requires Valid() && ValidDraws(draws)
      modifies this, pendingWeb
      ensures uuid == UuidText(draws) && UuidShape(uuid)
      ensures outbox == old(outbox) + [Nui(WebState(ChannelName(ListenerClient), CallEnvelope(event, uuid, Client, Webview, args, Some(playerId))))]
      ensures pendingWeb.storage == old(pendingWeb.storage)[uuid := Entry(Settle, true)]
      ensures settled == old(settled)
    {
      uuid := GenerateUuid(draws);
      var payload := CallEnvelope(event, uuid, Client, Webview, args, Some(playerId));
      outbox := outbox + [Nui(WebState(ChannelName(ListenerClient), payload))];
      pendingWeb.Once(payload.uuid, Settle);
    }

    /** `emitSelf`: checked against and dispatched on the local registry. */
    method EmitSelf(event: string, args: seq<Value>, draws: seq<int>, run: HandlerTable) returns (r: Completion)
      requires ValidDraws(draws)
      modifies wrapper.local
      ensures Emission(r, wrapper.local.storage) == SelfCall(Client, old(wrapper.local.storage), event, args, draws, run)
    {
      var uuid := GenerateUuid(draws);
      var payload := CallEnvelope(event, uuid, Client, Client, args, None);
      var check, marked := wrapper.VerifyEvent(wrapper.local, payload);
      if check.Throw? {
        return Failed(check.fault);
      }
      r := wrapper.local.Emit(payload.event, SpreadData(payload.data), run);
    }

    /** `onServer`, `onWebview` and `onSelf`. */
    method On(peer: Env, event: string, handler: HandlerId)
      modifies Handlers(peer)
      ensures Handlers(peer).storage == old(Handlers(peer).storage)[event := Entry(Handler(handler), false)]
    {
      Handlers(peer).On(event, Handler(handler));
    }

    /** `offServer`, `offWebview` and `offSelf`. */
    method Off(peer: Env, event: string)
      modifies Handlers(peer)
      ensures Handlers(peer).storage == old(Handlers(peer).storage) - {event}
    {
      Handlers(peer).Off(event);
    }
  }
}
