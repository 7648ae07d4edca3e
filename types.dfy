/** The shared vocabulary of the RPC engine: environments, envelope, listener
    channels, error strings, and the payload values the envelope carries
    (rpc/src/utils/types.ts). */
module Types {

  datatype Option<+T> = None | Some(value: T) {
    /** JavaScript's `x ?? d` for an optional value. */
    function GetOr(default: T): T {
      match this
      case Some(v) => v
      case None => default
    }
  }

  /** `RPCEnvironment`: the three kinds of context. */
  datatype Env = Server | Client | Webview

  function EnvName(e: Env): string {
    match e
    case Server => "server"
    case Client => "client"
    case Webview => "webview"
  }

  /** Reads an environment tag; the three tag strings are the only ones accepted. */
  function ParseEnv(s: string): (r: Option<Env>)
    ensures r.Some? <==> (s == "server" || s == "client" || s == "webview")
    ensures r.Some? ==> EnvName(r.value) == s
  {
    if s == "server" then Some(Server)
    else if s == "client" then Some(Client)
    else if s == "webview" then Some(Webview)
    else None
  }

  lemma ParseEnvName(e: Env)
    ensures ParseEnv(EnvName(e)) == Some(e)
  {
  }

  /** `RPCEventType`: a call or the reply to one. */
  datatype EventType = Event | Response

  function EventTypeName(t: EventType): string {
    match t
    case Event => "event"
    case Response => "response"
  }

  /** `RPCEvents`: the names of the three listener channels. */
  datatype Channel = ListenerServer | ListenerClient | ListenerWeb

  function ChannelName(c: Channel): string {
    match c
    case ListenerServer => "__rpc:listenerServer"
    case ListenerClient => "__rpc:listenerClient"
    case ListenerWeb => "__rpc:listenerWeb"
  }

  /** `RPCErrors`. */
  datatype ErrorKind = EventNotRegistered | InvalidData | NoPlayer | UnknownNative | UnknownEnvironment

  function ErrorText(k: ErrorKind): string {
    match k
    case EventNotRegistered => "Event not registered"
    case InvalidData => "Invalid data (possibly broken JSON)"
    case NoPlayer => "No player (failed to resolve from local index)"
    case UnknownNative => "Unknown native event (if you are sure this exists - use native handler)"
    case UnknownEnvironment => "Unknown environment (must be either \"server\", \"client\" or \"webview\")"
  }

  /** A serialisable argument or result value; opaque to the engine. Numbers
      are integers only. */
  datatype Value =
    | VUndefined
    | VNull
    | VBool(b: bool)
    | VNum(n: int)
    | VStr(s: string)
    | VList(items: seq<Value>)
    | VRecord(fields: seq<(string, Value)>)

  /** `{ status: s }`, the acknowledgement the client returns to the webview. */
  function StatusObject(s: string): Value {
    VRecord([("status", VStr(s))])
  }

  /** `RPCState`, the envelope exchanged over every transport. Its `type`
      field is called `kind` here. */
  datatype Envelope = Envelope(
    event: string,
    uuid: string,
    calledFrom: Env,
    calledTo: Env,
    error: Option<string>,
    data: Option<seq<Value>>,
    player: Option<int>,
    kind: EventType)

  /** `RPCStateRaw`: the text form of an envelope. The JSON codec is kept
      abstract: well-formed text stands for the envelope it encodes. */
  datatype Raw = Json(state: Envelope) | Malformed(text: string)

  /** `RPCStateWeb`: what the client pushes into the webview. The origin is
      kept as a string, since the webview listener sees any posted message. */
  datatype WebState = WebState(origin: string, data: Envelope)

  /** One outbound native send: `emitNet(channel, [target,] text)` or
      `SendNuiMessage(stringifyWeb(state))`. */
  datatype Message =
    | Net(channel: Channel, target: Option<int>, body: Raw)
    | Nui(web: WebState)

  /** Something thrown or rejected: a bare value (the registry rejects with the
      error string itself) or an `Error` with a message. */
  datatype Fault = Rejection(reason: Value) | Error(message: string)

  /** How a (possibly asynchronous) call settles. */
  datatype Completion = Done(value: Value) | Failed(fault: Fault)

  /** A guard that either returns normally or throws. */
  datatype Outcome = Pass | Throw(fault: Fault)

  /** The rejection every registry gives for a missing name. */
  function NotRegistered(): Fault {
    Rejection(VStr(ErrorText(EventNotRegistered)))
  }

  /** The arguments an inbound envelope is dispatched with:
      `payload.data && payload.data.length > 0 ? payload.data : []`. */
  function SpreadData(data: Option<seq<Value>>): seq<Value> {
    match data
    case None => []
    case Some(xs) => xs
  }

  /** An outbound call's `data` field: `args.length ? args : null`. Spreading
      the packed field gives the arguments back, and an empty argument list is
      never sent as an empty list. */
  function PackArgs(args: seq<Value>): (data: Option<seq<Value>>)
    ensures data.None? <==> args == []
    ensures data.Some? ==> data.value != []
    ensures SpreadData(data) == args
  {
    if |args| > 0 then Some(args) else None
  }

  /** The value a promise's `res(...args)` resolves with. */
  function First(args: seq<Value>): Value {
    if |args| > 0 then args[0] else VUndefined
  }

  /** The envelope every `emitX` builds. */
  function CallEnvelope(event: string, uuid: string, from: Env, to: Env, args: seq<Value>, player: Option<int>): (e: Envelope)
    ensures e.kind == Event && e.error == None
    ensures SpreadData(e.data) == args && (e.data.None? <==> args == [])
  {
    Envelope(event, uuid, from, to, None, PackArgs(args), player, Event)
  }

  /** The response an adapter sends after a local dispatch of `call`. It echoes
      the call's event, uuid and player, and its data spreads to exactly the
      handler's result, which is what the caller's resolver settles with. */
  function ResponseTo(call: Envelope, from: Env, to: Env, result: Value): (r: Envelope)
    ensures r.kind == Response && r.error == None
    ensures r.event == call.event && r.uuid == call.uuid && r.player == call.player
    ensures r.calledFrom == from && r.calledTo == to
    ensures SpreadData(r.data) == [result] && First(SpreadData(r.data)) == result
  {
    Envelope(call.event, call.uuid, from, to, None, Some([result]), call.player, Response)
  }
}
