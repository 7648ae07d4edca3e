/** The server context adapter (rpc/src/core/server.ts). It receives calls and
    responses from clients on `LISTENER_CLIENT` and from webviews (relayed by
    their client) on `LISTENER_WEB`, and sends everything on `LISTENER_SERVER`
    addressed to one player, or to -1 for every player. */
module ServerAdapter {
  import opened Types
  import opened Funcs
  import opened Emitters
  import opened Base

  /** The kind of caller whose envelopes a server listener accepts:
      `_handleClient` on `LISTENER_CLIENT`, `_handleWeb` on `LISTENER_WEB`. */
  function CallerOn(channel: Channel): Env
    requires channel != ListenerServer
  {
    if channel == ListenerClient then Client else Webview
  }

  class RpcServer {
    const wrapper: Wrapper
    const emitterClient: Emitter
    const pendingClient: Emitter
    const emitterWeb: Emitter
    const pendingWeb: Emitter
    /** Every `emitNet` so far, oldest first. */
    var outbox: seq<Message>
    /** The value each awaited outbound call has resolved with, by uuid. */
    var settled: map<string, Value>

    /** The five registries are distinct objects. */
    ghost predicate Valid() {
      && wrapper.local != emitterClient && wrapper.local != pendingClient
      && wrapper.local != emitterWeb && wrapper.local != pendingWeb
      && emitterClient != pendingClient && emitterClient != emitterWeb && emitterClient != pendingWeb
      && pendingClient != emitterWeb && pendingClient != pendingWeb
      && emitterWeb != pendingWeb
    }

    /** The objects the adapter owns. */
    ghost function Repr(): set<object> {
      {this, wrapper, wrapper.local, emitterClient, pendingClient, emitterWeb, pendingWeb}
    }

    /** As built: every registry empty, nothing sent and nothing settled. */
    ghost predicate Initial()
      reads this, wrapper.local, emitterClient, pendingClient, emitterWeb, pendingWeb
    {
      && wrapper.local.storage == map[] && emitterClient.storage == map[] && pendingClient.storage == map[]
      && emitterWeb.storage == map[] && pendingWeb.storage == map[]
      && outbox == [] && settled == map[]
    }

    /** The registry for calls from `peer`; the server's own for itself. */
    function Handlers(peer: Env): Emitter {
      match peer
      case Client => emitterClient
      case Webview => emitterWeb
      case Server => wrapper.local
    }

    /** The registry of calls awaiting a response from `peer`. */
    function Pending(peer: Env): Emitter
      requires peer != Server
    {
      if peer == Client then pendingClient else pendingWeb
    }

    constructor(cfg: Config)
      ensures Valid() && Initial() && fresh(Repr() - {this})
      ensures wrapper.env == cfg.env && wrapper.debug == (cfg.debug == Some(true))
      ensures fresh(wrapper) && fresh(wrapper.local)
      ensures fresh(emitterClient) && fresh(pendingClient) && fresh(emitterWeb) && fresh(pendingWeb)
      ensures wrapper.local.storage == map[] && emitterClient.storage == map[] && pendingClient.storage == map[]
      ensures emitterWeb.storage == map[] && pendingWeb.storage == map[]
      ensures outbox == [] && settled == map[]
    {
      wrapper := new Wrapper(cfg);
      emitterClient := new Emitter();
      pendingClient := new Emitter();
      emitterWeb := new Emitter();
      pendingWeb := new Emitter();
      outbox := [];
      settled := map[];
    }

    /** `_handleClient` (channel `LISTENER_CLIENT`) and `_handleWeb` (channel
        `LISTENER_WEB`). Malformed text throws `INVALID_DATA`; an envelope not
        from the listener's caller kind is ignored. A call is checked for
        registration first and for a player second, runs the handler with the
        player prepended, and is answered by exactly one response to that
        player. A response settles the pending call with its uuid, and a
        response nobody awaits rejects. */
    method Receive(channel: Channel, raw: Raw, run: HandlerTable) returns (r: Completion)
      requires Valid() && channel != ListenerServer
      modifies this, Handlers(CallerOn(channel)), Pending(CallerOn(channel))
      ensures Parse(raw).None? ==>
        r == Failed(Error(ErrorText(InvalidData)))
        && unchanged(this, Handlers(CallerOn(channel)), Pending(CallerOn(channel)))
      ensures Parse(raw).Some? ==> var p := Parse(raw).value;
        p.calledFrom != CallerOn(channel) ==>
          r == Done(VUndefined) && unchanged(this, Handlers(CallerOn(channel)), Pending(CallerOn(channel)))
      // a call for an unregistered event fails before the player is looked at
      ensures Parse(raw).Some? ==> var p := Parse(raw).value;
        p.calledFrom == CallerOn(channel) && p.kind == Event && p.event !in old(Handlers(CallerOn(channel)).storage) ==>
          r == Failed(Raised(p, EventNotRegistered))
          && unchanged(this, Handlers(CallerOn(channel)), Pending(CallerOn(channel)))
      // a registered call without a player is rejected without dispatch
      ensures Parse(raw).Some? ==> var p := Parse(raw).value;
        p.calledFrom == CallerOn(channel) && p.kind == Event && p.event in old(Handlers(CallerOn(channel)).storage)
        && (p.player == None || p.player == Some(-1)) ==>
          r == Failed(Raised(p, NoPlayer))
          && unchanged(this, Handlers(CallerOn(channel)), Pending(CallerOn(channel)))
      // a valid call is dispatched with the player first and answered once
      ensures Parse(raw).Some? ==> var p := Parse(raw).value;
        p.calledFrom == CallerOn(channel) && p.kind == Event && p.event in old(Handlers(CallerOn(channel)).storage)
        && p.player.Some? && p.player.value != -1 ==>
          var em := Emitted(old(Handlers(CallerOn(channel)).storage), p.event, [VNum(p.player.value)] + SpreadData(p.data), run);
          && Handlers(CallerOn(channel)).storage == em.storage
          && unchanged(Pending(CallerOn(channel)))
          && settled == old(settled)
          && (em.outcome.Failed? ==> r == em.outcome && outbox == old(outbox))
          && (em.outcome.Done? ==>
                r == Done(VUndefined)
                && outbox == old(outbox) + [Net(ListenerServer, p.player, Stringify(ResponseTo(p, Server, CallerOn(channel), em.outcome.value)))])
      // a response resolves the pending call with its uuid, and nothing else
      ensures Parse(raw).Some? ==> var p := Parse(raw).value;
        p.calledFrom == CallerOn(channel) && p.kind == Response ==>
          var em := Emitted(old(Pending(CallerOn(channel)).storage), p.uuid, SpreadData(p.data), run);
          && Pending(CallerOn(channel)).storage == em.storage
          && unchanged(Handlers(CallerOn(channel)))
          && outbox == old(outbox)
          && (em.outcome.Failed? ==> r == em.outcome && settled == old(settled))
          && (em.outcome.Done? ==> r == Done(VUndefined) && settled == old(settled)[p.uuid := em.outcome.value])
    {
      var from := CallerOn(channel);
      var parsed := Parse(raw);
      if parsed.None? {
        return Failed(Error(ErrorText(InvalidData)));
      }
      var payload := parsed.value;
      r := Done(VUndefined);
      if payload.calledFrom == from {
        if payload.kind == Event {
          var check, marked := wrapper.VerifyEvent(Handlers(from), payload);
          if check.Throw? {
            return Failed(check.fault);
          }
          if payload.player == None || payload.player == Some(-1) {
            var fault := wrapper.TriggerError(payload.(error := Some(ErrorText(NoPlayer))), "");
            return Failed(fault);
          }
          var result := Handlers(from).Emit(payload.event, [VNum(payload.player.value)] + SpreadData(payload.data), run);
          if result.Failed? {
            return result;
          }
          var response := ResponseTo(payload, Server, from, result.value);
          outbox := outbox + [Net(ListenerServer, response.player, Stringify(response))];
        }
        if payload.kind == Response {
          var result := Pending(from).Emit(payload.uuid, SpreadData(payload.data), run);
          if result.Failed? {
            return result;
          }
          settled := settled[payload.uuid := result.value];
        }
      }
    }

    /** `emitClient` (`to` = client) and `emitWebview` (`to` = webview): one
        call envelope to the player under a fresh id, and a once entry under
        that id which the response will settle. */
    method Emit(to: Env, player: int, event: string, args: seq<Value>, draws: seq<int>) returns (uuid: string)
      requires Valid() && to != Server && ValidDraws(draws)
      modifies this, Pending(to)
      ensures uuid == UuidText(draws) && UuidShape(uuid)
      ensures outbox == old(outbox) + [Net(ListenerServer, Some(player), Stringify(CallEnvelope(event, uuid, Server, to, args, Some(player))))]
      ensures Pending(to).storage == old(Pending(to).storage)[uuid := Entry(Settle, true)]
      ensures settled == old(settled)
    {
      uuid := GenerateUuid(draws);
      var payload := CallEnvelope(event, uuid, Server, to, args, Some(player));
      outbox := outbox + [Net(ListenerServer, Some(player), Stringify(payload))];
      Pending(to).Once(payload.uuid, Settle);
    }

    /** `emitClientEveryone`: one call envelope with player -1 to every
        player, and nothing to await. */
    method EmitClientEveryone(event: string, args: seq<Value>, draws: seq<int>)
      requires Valid() && ValidDraws(draws)
      modifies this
      ensures outbox == old(outbox) + [Net(ListenerServer, Some(-1), Stringify(CallEnvelope(event, UuidText(draws), Server, Client, args, Some(-1))))]
      ensures settled == old(settled)
      ensures pendingClient.storage == old(pendingClient.storage) && pendingWeb.storage == old(pendingWeb.storage)
    {
      var uuid := GenerateUuid(draws);
      var payload := CallEnvelope(event, uuid, Server, Client, args, Some(-1));
      outbox := outbox + [Net(ListenerServer, Some(-1), Stringify(payload))];
    }

    /** `emitSelf`: checked against and dispatched on the local registry,
        with no transport involved. */
    method EmitSelf(event: string, args: seq<Value>, draws: seq<int>, run: HandlerTable) returns (r: Completion)
      requires ValidDraws(draws)
      modifies wrapper.local
      ensures Emission(r, wrapper.local.storage) == SelfCall(Server, old(wrapper.local.storage), event, args, draws, run)
    {
      var uuid := GenerateUuid(draws);
      var payload := CallEnvelope(event, uuid, Server, Server, args, None);
      var check, marked := wrapper.VerifyEvent(wrapper.local, payload);
      if check.Throw? {
        return Failed(check.fault);
      }
      r := wrapper.local.Emit(payload.event, SpreadData(payload.data), run);
    }

    /** `onClient`, `onWebview` and `onSelf`. */
    method On(peer: Env, event: string, handler: HandlerId)
      modifies Handlers(peer)
      ensures Handlers(peer).storage == old(Handlers(peer).storage)[event := Entry(Handler(handler), false)]
    {
      Handlers(peer).On(event, Handler(handler));
    }

    /** `offClient`, `offWebview` and `offSelf`. */
    method Off(peer: Env, event: string)
      modifies Handlers(peer)
      ensures Handlers(peer).storage == old(Handlers(peer).storage) - {event}
    {
      Handlers(peer).Off(event);
    }
  }
}
