/** The webview context adapter (rpc/src/core/webview.ts). It receives what its
    client pushes into the page (tagged with the origin channel) and can only
    send by posting an HTTP request back to its client, whatever the final
    destination. */
module WebviewAdapter {
  import opened Types
  import opened Funcs
  import opened Emitters
  import opened Base

  /** What `_createHttpClientRequest` is given: text already encoded, or an
      envelope still to encode. */
  datatype RequestData = RawData(raw: Raw) | StateData(state: Envelope)

  /** A `fetch(url, { method, headers, body })` the webview issues. */
  datatype Request = Request(verb: string, contentType: string, url: string, body: Raw)

  /** The resource name used when the page cannot ask for its parent's. */
  const DefaultResource: string := "nui-frame-app"
  const UrlScheme: string := "https://"

  /** The path every request is posted to: `/` and the `LISTENER_WEB` name. */
  function UrlPath(): string {
    "/" + ChannelName(ListenerWeb)
  }

  /** The resource an endpoint URL addresses, read back from the URL. */
  function UrlResource(url: string): Option<string> {
    var path := UrlPath();
    if |UrlScheme| + |path| <= |url| && url[..|UrlScheme|] == UrlScheme && url[|url| - |path|..] == path
    then Some(url[|UrlScheme|..|url| - |path|])
    else None
  }

  /** `_createHttpClientRequest`: a JSON POST whose body is the raw text
      passed through, or the envelope encoded; its URL addresses the parent
      resource, or `nui-frame-app` when there is none, at path
      `/__rpc:listenerWeb`. */
  function HttpRequest(data: RequestData, resource: Option<string>): (req: Request)
    ensures req.verb == "post" && req.contentType == "application/json; charset=UTF-8"
    ensures data.RawData? ==> req.body == data.raw
    ensures data.StateData? ==> Parse(req.body) == Some(data.state)
    ensures UrlResource(req.url) == Some(resource.GetOr(DefaultResource))
  {
    var body := match data
      case RawData(raw) => raw
      case StateData(state) => Stringify(state);
    var name := resource.GetOr(DefaultResource);
    var url := UrlScheme + name + UrlPath();
    assert url[..|UrlScheme|] == UrlScheme;
    assert url[|url| - |UrlPath()|..] == UrlPath();
    assert url[|UrlScheme|..|url| - |UrlPath()|] == name;
    Request("post", "application/json; charset=UTF-8", url, body)
  }

  /** Which handler a pushed message goes to, by its origin tag. */
  function OriginPeer(origin: string): Option<Env> {
    if origin == ChannelName(ListenerClient) then Some(Client)
    else if origin == ChannelName(ListenerServer) then Some(Server)
    else None
  }

  class RpcWebview {
    const wrapper: Wrapper
    const emitterClient: Emitter
    const emitterServer: Emitter
    /** `window.GetParentResourceName?.()`, when the page has it. */
    const resource: Option<string>
    /** Every request posted so far, oldest first. */
    var requests: seq<Request>

    /** The three registries are distinct objects. */
    ghost predicate Valid() {
      wrapper.local != emitterClient && wrapper.local != emitterServer && emitterClient != emitterServer
    }

    /** The objects the adapter owns. */
    ghost function Repr(): set<object> {
      {this, wrapper, wrapper.local, emitterClient, emitterServer}
    }

    /** As built: every registry empty and nothing posted. */
    ghost predicate Initial()
      reads this, wrapper.local, emitterClient, emitterServer
    {
      wrapper.local.storage == map[] && emitterClient.storage == map[] && emitterServer.storage == map[]
      && requests == []
    }

    /** The registry for calls from `peer`; the webview's own for itself. */
    function Handlers(peer: Env): Emitter {
      match peer
      case Client => emitterClient
      case Server => emitterServer
      case Webview => wrapper.local
    }

    constructor(cfg: Config, resource: Option<string>)
      ensures Valid() && Initial() && fresh(Repr() - {this})
      ensures wrapper.env == cfg.env && wrapper.debug == (cfg.debug == Some(true))
      ensures this.resource == resource
      ensures fresh(wrapper) && fresh(wrapper.local) && fresh(emitterClient) && fresh(emitterServer)
      ensures wrapper.local.storage == map[] && emitterClient.storage == map[] && emitterServer.storage == map[]
      ensures requests == []
    {
      wrapper := new Wrapper(cfg);
      emitterClient := new Emitter();
      emitterServer := new Emitter();
      this.resource := resource;
      requests := [];
    }

    /** `_createHttpClientRequest`: issues one request. */
    method Post(data: RequestData)
      modifies this
      ensures requests == old(requests) + [HttpRequest(data, resource)]
    {
      requests := requests + [HttpRequest(data, resource)];
    }

    /** The `message` listener with `_handleClient` and `_handleServer`. A
        message tagged `LISTENER_CLIENT` goes to the client registry, one tagged
        `LISTENER_SERVER` to the server registry, any other is ignored; only a
        call from the matching peer kind is handled. It is checked for
        registration, dispatched with its data as arguments, and answered by
        exactly one posted response. */
    method OnMessage(msg: WebState, run: HandlerTable) returns (r: Completion)
      requires Valid()
      modifies this, emitterClient, emitterServer
      ensures OriginPeer(msg.origin).None? ==>
        r == Done(VUndefined) && unchanged(this, emitterClient, emitterServer)
      ensures OriginPeer(msg.origin).Some? ==> var from := OriginPeer(msg.origin).value; var p := msg.data;
        (p.calledFrom != from || p.kind != Event) ==>
          r == Done(VUndefined) && unchanged(this, emitterClient, emitterServer)
      ensures OriginPeer(msg.origin).Some? ==> var from := OriginPeer(msg.origin).value; var p := msg.data;
        p.calledFrom == from && p.kind == Event && p.event !in old(Handlers(from).storage) ==>
          r == Failed(Raised(p, EventNotRegistered)) && unchanged(this, emitterClient, emitterServer)
      ensures OriginPeer(msg.origin).Some? ==> var from := OriginPeer(msg.origin).value; var p := msg.data;
        p.calledFrom == from && p.kind == Event && p.event in old(Handlers(from).storage) ==>
          var em := Emitted(old(Handlers(from).storage), p.event, SpreadData(p.data), run);
          && Handlers(from).storage == em.storage
          && (from == Client ==> unchanged(emitterServer))
          && (from == Server ==> unchanged(emitterClient))
          && (em.outcome.Failed? ==> r == em.outcome && requests == old(requests))
          && (em.outcome.Done? ==>
                r == Done(VUndefined)
                && requests == old(requests) + [HttpRequest(StateData(ResponseTo(p, Webview, from, em.outcome.value)), resource)])
    {
      var origin := OriginPeer(msg.origin);
      if origin.None? {
        return Done(VUndefined);
      }
      var from := origin.value;
      var payload := msg.data;
      r := Done(VUndefined);
      if payload.calledFrom == from && payload.kind == Event {
        var check, marked := wrapper.VerifyEvent(Handlers(from), payload);
        if check.Throw? {
          return Failed(check.fault);
        }
        var result := Handlers(from).Emit(payload.event, SpreadData(payload.data), run);
        if result.Failed? {
          return result;
        }
        var response := ResponseTo(payload, Webview, from, result.value);
        Post(StateData(response));
      }
    }

    /** `emitClient` (`to` = client) and `emitServer` (`to` = server): one
        request carrying a call envelope without a player; nothing is
        registered, since the request's own answer is the call's result. */
    method Emit(to: Env, event: string, args: seq<Value>, draws: seq<int>)
      requires to != Webview && ValidDraws(draws)
      modifies this
      ensures requests == old(requests) + [HttpRequest(StateData(CallEnvelope(event, UuidText(draws), Webview, to, args, None)), resource)]
    {
      var uuid := GenerateUuid(draws);
      var payload := CallEnvelope(event, uuid, Webview, to, args, None);
      Post(StateData(payload));
    }

    /** `emitSelf`: checked against and dispatched on the local registry. */
    method EmitSelf(event: string, args: seq<Value>, draws: seq<int>, run: HandlerTable) returns (r: Completion)
      requires ValidDraws(draws)
      modifies wrapper.local
      ensures Emission(r, wrapper.local.storage) == SelfCall(Webview, old(wrapper.local.storage), event, args, draws, run)
    {
      var uuid := GenerateUuid(draws);
      var payload := CallEnvelope(event, uuid, Webview, Webview, args, None);
      var check, marked := wrapper.VerifyEvent(wrapper.local, payload);
      if check.Throw? {
        return Failed(check.fault);
      }
      r := wrapper.local.Emit(payload.event, SpreadData(payload.data), run);
    }

    /** `onClient`, `onServer` and `onSelf`. */
    method On(peer: Env, event: string, handler: HandlerId)
      modifies Handlers(peer)
      ensures Handlers(peer).storage == old(Handlers(peer).storage)[event := Entry(Handler(handler), false)]
    {
      Handlers(peer).On(event, Handler(handler));
    }

    /** `offClient`, `offServer` and `offSelf`. */
    method Off(peer: Env, event: string)
      modifies Handlers(peer)
      ensures Handlers(peer).storage == old(Handlers(peer).storage) - {event}
    {
      Handlers(peer).Off(event);
    }
  }
}
