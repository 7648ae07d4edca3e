/** The entry point (rpc/src/index.ts): one factory per context, which builds
    the adapter its environment tag names and hands it out. */
module Factory {
  import opened Types
  import opened Base
  import opened ServerAdapter
  import opened ClientAdapter
  import opened WebviewAdapter

  /** What the host runtime supplies to the adapter being built: the natives
      `PlayerId()` and `GetPlayerServerId(PlayerId())` for a client, and
      `GetParentResourceName`, when the page has it, for a webview. */
  datatype Host = Host(playerId: int, serverId: int, resource: Option<string>)

  /** The adapter a factory holds. */
  datatype Operator = ServerOp(server: RpcServer) | ClientOp(client: RpcClient) | WebviewOp(webview: RpcWebview)
  {
    /** The context the adapter serves. */
    function Kind(): Env {
      match this
      case ServerOp(_) => Server
      case ClientOp(_) => Client
      case WebviewOp(_) => Webview
    }
  }

  /** `new RPCFactory(opts)`: a factory, or the error its constructor throws. */
  datatype Built = Built(factory: RpcFactory) | Thrown(fault: Fault)

  class RpcFactory {
    const wrapper: Wrapper
    const operator: Operator

    /** The adapter is the one the environment tag names. */
    ghost predicate Valid() {
      ParseEnv(wrapper.env) == Some(operator.Kind())
    }

    /** The `switch (opts.env)` arms for the three known tags: each builds
        its adapter from the same options, with empty registries. */
    constructor(cfg: Config, host: Host)
      requires ParseEnv(cfg.env).Some?
      ensures Valid() && fresh(wrapper) && wrapper.env == cfg.env
      ensures operator.Kind() == ParseEnv(cfg.env).value
      ensures operator.ServerOp? ==>
        var s := operator.server;
        fresh(s) && fresh(s.Repr()) && s.Valid() && s.Initial() && s.wrapper.env == cfg.env
      ensures operator.ClientOp? ==>
        var c := operator.client;
        fresh(c) && fresh(c.Repr()) && c.Valid() && c.Initial() && c.wrapper.env == cfg.env
        && c.playerId == host.playerId && c.serverId == host.serverId
      ensures operator.WebviewOp? ==>
        var w := operator.webview;
        fresh(w) && fresh(w.Repr()) && w.Valid() && w.Initial() && w.wrapper.env == cfg.env
        && w.resource == host.resource
    {
      wrapper := new Wrapper(cfg);
      match ParseEnv(cfg.env).value {
        case Server =>
          var s := new RpcServer(cfg);
          operator := ServerOp(s);
        case Client =>
          var c := new RpcClient(cfg, host.playerId, host.serverId);
          operator := ClientOp(c);
        case Webview =>
          var w := new RpcWebview(cfg, host.resource);
          operator := WebviewOp(w);
      }
    }

    /** `get`: the adapter for the factory's environment. */
    function Get(): (op: Operator)
      requires Valid()
      ensures ParseEnv(wrapper.env) == Some(op.Kind())
      ensures EnvName(op.Kind()) == wrapper.env
    {
      operator
    }
  }

  /** `new RPCFactory(opts)`: an environment tag other than `server`, `client`
      or `webview` throws `UNKNOWN_ENVIRONMENT`; each of the three builds a
      factory holding the adapter of that context. */
  method NewFactory(cfg: Config, host: Host) returns (r: Built)
    ensures r.Thrown? <==> ParseEnv(cfg.env).None?
    ensures r.Thrown? ==> r.fault == Error(ErrorText(UnknownEnvironment))
    ensures r.Built? ==> fresh(r.factory) && r.factory.Valid() && r.factory.wrapper.env == cfg.env
    ensures forall e: Env :: cfg.env == EnvName(e) ==> r.Built? && r.factory.operator.Kind() == e
  {
    if ParseEnv(cfg.env).None? {
      return Thrown(Error(ErrorText(UnknownEnvironment)));
    }
    var f := new RpcFactory(cfg, host);
    r := Built(f);
    forall e: Env | cfg.env == EnvName(e)
      ensures r.factory.operator.Kind() == e
    {
      ParseEnvName(e);
    }
  }
}
