# fivem-rpc: the call-correlation and routing engine, in Dafny

This project models the core of the `fivem-rpc` TypeScript library. The library
turns one-way FiveM transports into awaitable request/response calls between
three kinds of context:

- the **server** (`RPCInstanceServer`);
- a **client** (`RPCInstanceClient`);
- the client's embedded **webview** page (`RPCInstanceWebview`).

Every message is an envelope (`RPCState`) with these fields: event name, uuid,
caller kind, callee kind, error, data, player and type (event or response).

Each context owns name-keyed registries (`Emitter`):

- *handler registries* map an event name to a user handler. They are filled by
  `onX`.
- *pending-call registries* map a call's uuid to the resolver of the promise
  the caller awaits. `emitX` fills them with a one-shot entry.

An inbound listener decides on the envelope's `(type, calledFrom, calledTo)`
and then does one of four things:

- dispatches locally and sends exactly one response;
- relays the envelope;
- resolves the pending entry with the envelope's uuid;
- throws: the diagnostic error of `triggerError` (`EVENT_NOT_REGISTERED`,
  `NO_PLAYER`), or a plain `INVALID_DATA` error for text that does not parse.

The modules follow the source files:

| module | file | form |
|---|---|---|
| `Types` | `rpc/src/utils/types.ts` | envelope, channels, error strings, and the envelope builders every adapter repeats |
| `Funcs` | `rpc/src/utils/funcs.ts` | the codec (abstract) and `generateUUID` as a loop proved against a formatting function |
| `Emitters` | `rpc/src/utils/emitter.ts` | class `Emitter` over a `map`, with `Emitted` as the specification of `emit` |
| `Base` | `rpc/src/core/wrapper.ts` | class `Wrapper`: defaults, `verifyEvent`, `triggerError` |
| `ServerAdapter`, `ClientAdapter`, `WebviewAdapter` | `rpc/src/core/{server,client,webview}.ts` | one class per adapter |
| `Factory` | `rpc/src/index.ts` | `RPCFactory` |
| `Scenarios` | — | whole round trips across adapters |

How the model stands in for the runtime:

- **Handlers.** User handlers are named by an id and run through a total
  `HandlerTable`. A handler either resolves with a value or throws/rejects
  (`Completion`).
- **Awaited calls.** An awaited call is a one-shot `Settle` entry, the
  promise's `res`. Resolving it removes the entry and records the first
  response datum under the uuid in the adapter's `settled` map.
- **Natives.** `emitNet` and `SendNuiMessage` append to an adapter's `outbox`,
  and `fetch` appends to the webview's `requests`.
- **Host inputs.** `PlayerId()` and `GetPlayerServerId(PlayerId())` are given
  to the client when it is built, and `GetParentResourceName` to the webview.
- **Randomness.** `Math.random` draws are an input sequence of 32 nibbles.
- **Inheritance.** Each adapter extends `Wrapper` in the source. Here it holds
  a `Wrapper`, whose `local` registry is `_emitterLocal`.

`Scenarios` delivers each message from the sender's outbox to the receiving
listener. It proves that each kind of call settles with exactly the remote
handler's result and leaves no pending entry behind:

- client→server;
- server→client;
- server→webview, through the client;
- webview→server, through the client;
- client→webview;
- webview→client.

It also proves that a client's answer to an `emitClientEveryone` broadcast is
rejected by the server as not registered, because the broadcast awaits nothing.

Behaviours of the code worth knowing, all modelled as written:

- A response for an unknown uuid is not ignored. `Emitter.emit` rejects with
  `EVENT_NOT_REGISTERED` (rpc/src/utils/emitter.ts:36-38), and the listeners
  that await it pass the rejection on (rpc/src/core/server.ts:89,
  rpc/src/core/client.ts:110,150).
- The server checks that an inbound call's event is registered before it
  checks the player (rpc/src/core/server.ts:62-63). So an unregistered call
  without a player fails with `EVENT_NOT_REGISTERED`, not `NO_PLAYER`.
- The server answers every call on `LISTENER_SERVER`, whichever listener the
  call arrived on (rpc/src/core/server.ts:86,137).
- The webview adapter checks registration before dispatch
  (rpc/src/core/webview.ts:51,81). The client's handling of webview calls
  does not (rpc/src/core/client.ts:132-137): a missing handler gives the
  registry's bare rejection instead of the diagnostic.
- The `__cfx_nui:` callback answers the webview's request only after
  `_handleWeb` resolves (rpc/src/core/client.ts:54-60). When `_handleWeb`
  rejects, the request is never answered (`ClientAdapter.FetchAnswer`).

## Model

| member | source | states |
|---|---|---|
| Types.ParseEnv | rpc/src/utils/types.ts:8 | a tag is accepted exactly when it is `server`, `client` or `webview`, and it reads back to the same name |
| Types.PackArgs | rpc/src/core/server.ts:197 | `data` is null exactly when there are no arguments, and spreading `data` gives the arguments back |
| Types.CallEnvelope | rpc/src/core/server.ts:191-200 | an outbound call is an event with no error, and its data spreads to exactly the arguments |
| Types.ResponseTo | rpc/src/core/server.ts:75-84 | a response echoes the call's event, uuid and player, is addressed back to the caller, has no error, and its first datum is the handler's result |
| Funcs.Stringify | rpc/src/utils/funcs.ts:13-24 | parsing the encoded envelope gives the envelope back |
| Funcs.GenerateUuid | rpc/src/utils/funcs.ts:41-50 | the loop builds the formatted id: 36 characters with hyphens at 8, 13 and 18 and 23 only, a `4` at 14, one of `89ab` at 19, and every other digit the hex of its draw |
| Funcs.PrefixShape | rpc/src/utils/funcs.ts:44-48 | after each step the partial id has the expected length, hyphens exactly at hyphen positions, and the digit written for each earlier step |
| Funcs.UuidTextShape | rpc/src/utils/funcs.ts:46-47 | the version digit ignores the step-12 draw, and the variant digit is `8` plus the low two bits of the step-16 draw |
| Emitters.EmitUnregistered | rpc/src/utils/emitter.ts:36-38 | `emit` of a missing name rejects with `EVENT_NOT_REGISTERED` and leaves the storage as it was |
| Emitters.EmitOnceConsumes | rpc/src/utils/emitter.ts:45-47 | a once entry is removed, every other entry is kept, and a second `emit` of the name rejects |
| Emitters.EmitOnPersists | rpc/src/utils/emitter.ts:40-51 | an `on` entry survives `emit`, so the next `emit` runs the same callback |
| Emitters.EmitSettles | rpc/src/utils/emitter.ts:49-51 | a pending entry settles with the first argument, or undefined when there is none, and is removed |
| Emitters.Emitter.constructor | rpc/src/utils/emitter.ts:7-9 | the storage starts empty |
| Emitters.Emitter.On | rpc/src/utils/emitter.ts:15-18 | the name maps to exactly the new persistent entry, any earlier one is replaced, and all other names are unchanged |
| Emitters.Emitter.Once | rpc/src/utils/emitter.ts:20-23 | the name maps to exactly the new one-shot entry, and all other names are unchanged |
| Emitters.Emitter.Off | rpc/src/utils/emitter.ts:25-28 | the name is absent afterwards, other names are unchanged, and removing an absent name changes nothing |
| Emitters.Emitter.Has | rpc/src/utils/emitter.ts:30-32 | the answer is exactly membership in the storage |
| Emitters.Emitter.Emit | rpc/src/utils/emitter.ts:34-53 | the outcome and new storage are those of `Emitted`: rejection and no change for a missing name; otherwise a handler's own outcome, or for a pending entry the value its awaiting promise settles with |
| Base.JoinAppend | rpc/src/core/wrapper.ts:45-49 | pushing one more line onto the message adds the separator and that line at the end |
| Base.NatText | rpc/src/core/wrapper.ts:40 | a number is written as decimal digits, without a leading zero, that spell exactly that number |
| Base.CheckNative | rpc/src/core/client.ts:367-369 | a native name passes exactly when it is on the allow-list, and otherwise throws `UNKNOWN_NATIVE` |
| Base.Wrapper.constructor | rpc/src/core/wrapper.ts:17-22 | the tag is copied, `debug` is true only when given as true, and the local registry starts empty |
| Base.Wrapper.VerifyEvent | rpc/src/core/wrapper.ts:24-31 | returns normally exactly when the registry has the event; otherwise marks the payload `EVENT_NOT_REGISTERED` and throws its diagnostic |
| Base.Wrapper.TriggerError | rpc/src/core/wrapper.ts:33-50 | always throws; the message is the eight lines in order, followed by an `Info:` line exactly when extra text is given |
| ServerAdapter.RpcServer.constructor | rpc/src/core/server.ts:30-42 | four distinct, empty registries besides the local one |
| ServerAdapter.RpcServer.Receive | rpc/src/core/server.ts:46-146 | malformed text gives `INVALID_DATA`; a wrong caller kind is ignored; registration is checked before the player; a missing or -1 player gives `NO_PLAYER` without dispatch; a valid call runs with the player prepended and sends exactly one response to that player; a response settles its own pending entry only |
| ServerAdapter.RpcServer.Emit | rpc/src/core/server.ts:182-207 | one call is sent to the player under the formatted fresh id, and a one-shot entry under that id is added to the callee kind's pending registry |
| ServerAdapter.RpcServer.EmitClientEveryone | rpc/src/core/server.ts:209-225 | one call with player -1 is sent to target -1, and no pending entry is added |
| ServerAdapter.RpcServer.EmitSelf | rpc/src/core/server.ts:321-349 | a missing name throws the call's diagnostic; otherwise it dispatches locally with exactly the arguments |
| ServerAdapter.RpcServer.On | rpc/src/core/server.ts:150-168 | `onClient`, `onWebview` and `onSelf` store a persistent handler in the peer's registry |
| ServerAdapter.RpcServer.Off | rpc/src/core/server.ts:170-180 | `offClient`, `offWebview` and `offSelf` remove the name from the peer's registry |
| ClientAdapter.RpcClient.constructor | rpc/src/core/client.ts:41-61 | five distinct, empty registries besides the local one, and the host's player ids |
| ClientAdapter.RpcClient.HandleServer | rpc/src/core/client.ts:65-122 | a call to the client is checked, dispatched with its data, and answered once on `LISTENER_CLIENT`; a call to the webview is pushed on unchanged; a response settles `_pendingServer` or `_pendingWebToServer` by its callee |
| ClientAdapter.RpcClient.HandleWeb | rpc/src/core/client.ts:124-165 | a call to the client is dispatched unchecked and answered directly; a call to the server is stamped with the server id, sent on `LISTENER_WEB` and awaited; responses settle `_pendingWeb` or are forwarded, answering `ok`; anything else answers `unknown` and changes nothing |
| ClientAdapter.RpcClient.EmitServer | rpc/src/core/client.ts:200-221 | one call with the local server id as player goes out on `LISTENER_CLIENT`, awaited under its id in `_pendingServer` |
| ClientAdapter.RpcClient.EmitWebview | rpc/src/core/client.ts:256-280 | one call tagged `LISTENER_CLIENT` with the local player index is pushed to the webview, awaited under its id in `_pendingWeb` |
| ClientAdapter.RpcClient.EmitSelf | rpc/src/core/client.ts:315-343 | a missing name throws the call's diagnostic; otherwise it dispatches locally with exactly the arguments |
| ClientAdapter.RpcClient.On | rpc/src/core/client.ts:169-186 | `onServer`, `onWebview` and `onSelf` store a persistent handler in the peer's registry |
| ClientAdapter.RpcClient.Off | rpc/src/core/client.ts:188-198 | `offServer`, `offWebview` and `offSelf` remove the name from the peer's registry |
| ClientAdapter.FetchAnswer | rpc/src/core/client.ts:54-60 | the webview's request is answered with the value `_handleWeb` resolves with, or with the settled value once the awaited call settles; never when `_handleWeb` rejects |
| WebviewAdapter.HttpRequest | rpc/src/core/webview.ts:272-288 | a JSON POST; raw text passes through and an envelope is encoded so it parses back; the URL addresses the parent resource, or `nui-frame-app`, at `/__rpc:listenerWeb` |
| WebviewAdapter.RpcWebview.constructor | rpc/src/core/webview.ts:23-39 | two distinct, empty registries besides the local one |
| WebviewAdapter.RpcWebview.Post | rpc/src/core/webview.ts:284-287 | exactly one request is issued |
| WebviewAdapter.RpcWebview.OnMessage | rpc/src/core/webview.ts:31-101 | routed by origin tag, and other origins are ignored; only an event from the matching peer kind is handled: checked, dispatched with its data, and answered by exactly one posted response |
| WebviewAdapter.RpcWebview.Emit | rpc/src/core/webview.ts:136-153 | `emitClient` and `emitServer` post one call without a player and register nothing |
| WebviewAdapter.RpcWebview.EmitSelf | rpc/src/core/webview.ts:240-268 | a missing name throws the call's diagnostic; otherwise it dispatches locally with exactly the arguments |
| WebviewAdapter.RpcWebview.On | rpc/src/core/webview.ts:105-122 | `onClient`, `onServer` and `onSelf` store a persistent handler in the peer's registry |
| WebviewAdapter.RpcWebview.Off | rpc/src/core/webview.ts:124-134 | `offClient`, `offServer` and `offSelf` remove the name from the peer's registry |
| Factory.RpcFactory.constructor | rpc/src/index.ts:46-55 | each known tag builds the adapter of that context from the same options: all of its objects fresh, every registry empty, nothing sent or posted, nothing settled |
| Factory.RpcFactory.Get | rpc/src/index.ts:61-63 | the adapter handed out is the one the environment tag names |
| Factory.NewFactory | rpc/src/index.ts:41-59 | an unknown tag throws `UNKNOWN_ENVIRONMENT`; each of the three tags builds the adapter of that context |
| Scenarios.ClientCallsServer | rpc/src/core/client.ts:200-221 | the call settles with the server handler's result for the client's server id and the arguments, and its pending entry is gone |
| Scenarios.ServerCallsClient | rpc/src/core/server.ts:182-207 | the call settles with the client handler's result, and its pending entry is gone |
| Scenarios.ServerCallReachesWebview | rpc/src/core/client.ts:101-106 | a server call to a webview is relayed by the client and answered by exactly one webview request carrying the response |
| Scenarios.ServerCallsWebview | rpc/src/core/server.ts:261-286 | the call settles with the webview handler's result, and its pending entry is gone |
| Scenarios.WebviewCallsServer | rpc/src/core/client.ts:138-145 | the webview's request waits on the call's uuid and is answered with the server handler's result, leaving no pending entry |
| Scenarios.ClientCallsWebview | rpc/src/core/client.ts:256-280 | the call settles with the webview handler's result, and the webview's request is answered with `{status: 'ok'}` |
| Scenarios.WebviewCallsClient | rpc/src/core/client.ts:131-137 | `_handleWeb` settles with the client handler's outcome; with no handler it rejects with the bare registry rejection and the webview's request is never answered |
| Scenarios.BroadcastAnswerRejected | rpc/src/core/server.ts:209-225 | a client's answer to a broadcast is rejected by the server as not registered |

## Left out

- JSON encoding: `parse`, `stringify` and `stringifyWeb` are modelled as the identity on envelopes. Malformed text is a separate case that parsing rejects. JSON's handling of `undefined`, of numbers and of field order is not modelled.
- Numbers: values are integers. Floating-point data and its text form are not modelled.
- `verifyEvent` accepts either an envelope or raw text and parses the text. Every caller in the library passes an envelope, so only that case is modelled.
- Debug and initialization logging through `console` is not modelled.
- Native registration: `onNet`, `RegisterNuiCallbackType`, the `__cfx_nui:` callback and `window.addEventListener` are not modelled. Their listeners are the methods called directly.
- Sends: `emitNet` and `SendNuiMessage` are appends to an outbox. `fetch` is an append to the webview's requests. The answer a request receives is `ClientAdapter.FetchAnswer` of what `HandleWeb` settles with.
- Asynchrony: promises resolve in one step and there is no interleaving. A suspended `await` is an entry in a pending registry, and its resolution is recorded in `settled`.
- The webview's `_handleClient`/`_handleServer` are started without being awaited. The model returns their outcome from `OnMessage` instead of leaving the rejection unobserved.
- `onCommand`, `setWebviewFocus`, and the native registration in `onNativeEvent`/`onNativeNetworkEvent` are calls into FiveM. Only their allow-list guard is modelled (`Base.CheckNative`), and the allow-lists are a parameter, since `utils/native` is not part of this model.
- UUID: uniqueness and unpredictability of ids depend on `Math.random` and are not modelled. The draws are given.
- Type-level helpers and the native event catalogs in `rpc/src/utils/types.ts` carry no behaviour and are not modelled.
- WebviewAdapter.RpcWebview.Emit: does not return the request's answer, which `emitClient` and `emitServer` await and return (rpc/src/core/webview.ts:152,204), because the model does not carry the HTTP answer back into the webview. `ClientAdapter.FetchAnswer` stands for that answer.
- Factory.RpcFactory.constructor: requires a known tag. The throwing `default` arm is modelled by `Factory.NewFactory`, which is the entry point that stands for `new RPCFactory(opts)`.
