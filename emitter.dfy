/** The name-keyed registry every adapter uses twice over: as a handler
    registry (event name to handler, registered with `on`) and as a
    pending-call registry (uuid to the resolver of an awaited call,
    registered with `once`) (rpc/src/utils/emitter.ts). */
module Emitters {
  import opened Types

  /** Handlers are user code; they are named by an id and run through a table. */
  type HandlerId = nat

  /** What a handler does with its arguments: resolve with a value or throw. */
  type HandlerTable = (HandlerId, seq<Value>) -> Completion

  /** A stored callback: a user handler, or the `res` of a promise someone
      awaits, which settles that promise with its first argument. */
  datatype Callback = Handler(id: HandlerId) | Settle

  /** `[callback, once]`. */
  datatype Entry = Entry(cb: Callback, once: bool)

  type Storage = map<string, Entry>

  /** Running a callback on the arguments `emit` spreads into it. For a
      `Settle` entry the result is the value the awaiting promise settles
      with, the first argument; the promise `emit` itself returns then
      resolves with `res`'s own return value, `undefined`, which no caller
      in the library looks at. */
  function Invoke(run: HandlerTable, cb: Callback, args: seq<Value>): Completion {
    match cb
    case Handler(id) => run(id, args)
    case Settle => Done(First(args))
  }

  /** The settled promise and the storage left by one `emit`. */
  datatype Emission = Emission(outcome: Completion, storage: Storage)

  /** `emit(event, ...args)` on storage `s`: a missing name rejects and
      changes nothing; a once entry is deleted before its callback runs; the
      promise settles as the callback does. */
  function Emitted(s: Storage, event: string, args: seq<Value>, run: HandlerTable): Emission {
    if event !in s then Emission(Failed(NotRegistered()), s)
    else
      var entry := s[event];
      Emission(Invoke(run, entry.cb, args), if entry.once then s - {event} else s)
  }

  lemma EmitUnregistered(s: Storage, event: string, args: seq<Value>, run: HandlerTable)
    requires event !in s
    ensures Emitted(s, event, args, run) == Emission(Failed(Rejection(VStr("Event not registered"))), s)
  {
  }

  /** A once entry is consumed: it is gone afterwards, every other entry is
      kept, and a second `emit` of the name rejects. */
  lemma EmitOnceConsumes(s: Storage, event: string, args: seq<Value>, again: seq<Value>, run: HandlerTable)
    requires event in s && s[event].once
    ensures var first := Emitted(s, event, args, run);
      && event !in first.storage
      && (forall k :: k in s && k != event ==> k in first.storage && first.storage[k] == s[k])
      && Emitted(first.storage, event, again, run).outcome == Failed(NotRegistered())
  {
  }

  /** An `on` entry survives `emit`, so the next `emit` runs the same handler. */
  lemma EmitOnPersists(s: Storage, event: string, args: seq<Value>, again: seq<Value>, run: HandlerTable)
    requires event in s && !s[event].once
    ensures var first := Emitted(s, event, args, run);
      && first.storage == s
      && Emitted(first.storage, event, again, run).outcome == Invoke(run, s[event].cb, again)
  {
  }

  /** Resolving a pending call settles it with the first response datum, or
      `undefined` when there is none. */
  lemma EmitSettles(s: Storage, uuid: string, args: seq<Value>, run: HandlerTable)
    requires uuid in s && s[uuid] == Entry(Settle, true)
    ensures Emitted(s, uuid, args, run) == Emission(Done(First(args)), s - {uuid})
  {
  }

  class Emitter {
    /** `_storage`: event name to `[callback, once]`. */
    var storage: Storage

    constructor()
      ensures storage == map[]
    {
      storage := map[];
    }

    /** `on`: stores a persistent entry, replacing any earlier one for the name. */
    method On(event: string, cb: Callback)
      modifies this
      ensures event in storage && storage[event] == Entry(cb, false)
      ensures forall k :: k != event ==> (k in storage <==> k in old(storage))
      ensures storage == old(storage)[event := Entry(cb, false)]
    {
      storage := storage[event := Entry(cb, false)];
    }

    /** `once`: stores a one-shot entry, replacing any earlier one for the name. */
    method Once(event: string, cb: Callback)
      modifies this
      ensures event in storage && storage[event] == Entry(cb, true)
      ensures storage == old(storage)[event := Entry(cb, true)]
    {
      storage := storage[event := Entry(cb, true)];
    }

    /** `off`: removes the name's entry, if any, and nothing else. */
    method Off(event: string)
      modifies this
      ensures event !in storage
      ensures storage == old(storage) - {event}
      ensures event !in old(storage) ==> storage == old(storage)
    {
      storage := storage - {event};
    }

    /** `has`: whether a name has an entry. */
    method Has(event: string) returns (b: bool)
      ensures b <==> event in storage
    {
      b := event in storage;
    }

    /** `emit`: the outcome and the new storage are those of `Emitted`. */
    method Emit(event: string, args: seq<Value>, run: HandlerTable) returns (r: Completion)
      modifies this
      ensures Emission(r, storage) == Emitted(old(storage), event, args, run)
      ensures event !in old(storage) ==> r == Failed(NotRegistered()) && storage == old(storage)
      ensures event in old(storage) ==> r == Invoke(run, old(storage)[event].cb, args)
    {
      if event !in storage {
        return Failed(NotRegistered());
      }
      var entry := storage[event];
      if entry.once {
        storage := storage - {event};
      }
      r := Invoke(run, entry.cb, args);
    }
  }
}
