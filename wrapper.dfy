/** The base every adapter and the factory build on: configuration defaults,
    the local ("self") registry, the registration guard and the diagnostic
    error (rpc/src/core/wrapper.ts). */
module Base {
  import opened Types
  import opened Funcs
  import opened Emitters

  /** `RPCConfig`: the environment tag as given, and the optional debug flag. */
  datatype Config = Config(env: string, debug: Option<bool>)

  // ----- JavaScript string conversion, as template literals apply it -----

  const DecimalDigits: string := "0123456789"

  /** The number a string of decimal digits spells. */
  function DigitsValue(s: string): int {
    if s == [] then 0 else DigitsValue(s[..|s| - 1]) * 10 + (s[|s| - 1] as int - '0' as int)
  }

  /** `${n}` for a natural number: decimal digits, with no leading zero,
      spelling `n`. */
  function NatText(n: nat): (s: string)
    ensures |s| > 0 && forall i :: 0 <= i < |s| ==> s[i] in DecimalDigits
    ensures DigitsValue(s) == n
    ensures |s| > 1 ==> s[0] != '0'
  {
    if n < 10 then
      assert DecimalDigits[n] as int - '0' as int == n;
      [DecimalDigits[n]]
    else
      var high := NatText(n / 10);
      assert (high + [DecimalDigits[n % 10]])[..|high|] == high;
      assert DecimalDigits[n % 10] as int - '0' as int == n % 10;
      high + [DecimalDigits[n % 10]]
  }

  /** `${n}` for an integer. */
  function IntText(n: int): string {
    if n < 0 then "-" + NatText(-n) else NatText(n)
  }

  /** `${v}`. */
  function ValueText(v: Value): string {
    match v
    case VUndefined => "undefined"
    case VNull => "null"
    case VBool(b) => if b then "true" else "false"
    case VNum(n) => IntText(n)
    case VStr(s) => s
    case VList(xs) => ListText(xs)
    case VRecord(_) => "[object Object]"
  }

  /** `Array.prototype.toString`: elements joined by commas, with `null` and
      `undefined` elements written as empty strings. */
  function ListText(xs: seq<Value>): string {
    if xs == [] then ""
    else
      var head := if xs[0].VUndefined? || xs[0].VNull? then "" else ValueText(xs[0]);
      if |xs| == 1 then head else head + "," + ListText(xs[1..])
  }

  function OptionText(o: Option<string>): string {
    match o
    case None => "null"
    case Some(s) => s
  }

  function PlayerText(player: Option<int>): string {
    match player
    case None => "null"
    case Some(n) => IntText(n)
  }

  function DataText(data: Option<seq<Value>>): string {
    match data
    case None => "null"
    case Some(xs) => ListText(xs)
  }

  // ----- triggerError -----

  const Separator: string := "\n | "

  /** `Array.prototype.join`. */
  function Join(parts: seq<string>, sep: string): string {
    if parts == [] then ""
    else if |parts| == 1 then parts[0]
    else parts[0] + sep + Join(parts[1..], sep)
  }

  /** Joining one more part appends the separator and that part. */
  lemma {:induction false} JoinAppend(parts: seq<string>, last: string, sep: string)
    requires parts != []
    ensures Join(parts + [last], sep) == Join(parts, sep) + sep + last
  {
    if |parts| > 1 {
      JoinAppend(parts[1..], last, sep);
      assert (parts + [last])[1..] == parts[1..] + [last];
    }
  }

  /** The eight lines of a diagnostic, in order. */
  function DiagnosticLines(p: Envelope): seq<string> {
    [ OptionText(p.error),
      "Event: " + p.event,
      "Uuid: " + p.uuid,
      "From: " + EnvName(p.calledFrom),
      "To: " + EnvName(p.calledTo),
      "Player: " + PlayerText(p.player),
      "Type: " + EventTypeName(p.kind),
      "Data: " + DataText(p.data) ]
  }

  /** The message of the error `triggerError` throws without extra info. */
  function Diagnostic(p: Envelope): string {
    Join(DiagnosticLines(p), Separator)
  }

  /** The error raised after the payload's `error` field is set to `kind`. */
  function Raised(p: Envelope, kind: ErrorKind): Fault {
    Error(Diagnostic(p.(error := Some(ErrorText(kind)))))
  }

  /** `emitSelf` in context `self` with local storage `s`: the name is checked
      first, so a missing one throws the diagnostic of the call envelope
      rather than the registry's bare rejection; a registered one is
      dispatched with exactly the given arguments. */
  function SelfCall(self: Env, s: Storage, event: string, args: seq<Value>, draws: seq<int>, run: HandlerTable): Emission
    requires ValidDraws(draws)
  {
    if event in s then Emitted(s, event, args, run)
    else Emission(Failed(Raised(CallEnvelope(event, UuidText(draws), self, self, args, None), EventNotRegistered)), s)
  }

  /** The allow-list guard of `onNativeEvent` and `onNativeNetworkEvent` on
      server and client: a name outside the list throws `UNKNOWN_NATIVE`.
      The lists are given, since they are defined outside this model. */
  function CheckNative(allowed: seq<string>, name: string): (o: Outcome)
    ensures o.Pass? <==> name in allowed
    ensures o.Throw? ==> o.fault == Error(ErrorText(UnknownNative))
  {
    if name in allowed then Pass else Throw(Error(ErrorText(UnknownNative)))
  }

  class Wrapper {
    const env: string
    const debug: bool
    /** `_emitterLocal`: handlers for calls a context makes to itself. */
    const local: Emitter

    /** Copies the environment tag, defaults `debug` to false and starts with
        an empty local registry. */
    constructor(cfg: Config)
      ensures env == cfg.env
      ensures debug == (cfg.debug == Some(true))
      ensures fresh(local) && local.storage == map[]
    {
      env := cfg.env;
      debug := cfg.debug.GetOr(false);
      local := new Emitter();
    }

    /** `triggerError`: never returns normally. The message is the eight
        diagnostic lines, then an `Info:` line exactly when `extra` is
        non-empty, joined by `"\n | "`. */
    method TriggerError(p: Envelope, extra: string) returns (fault: Fault)
      ensures fault.Error?
      ensures extra == "" ==> fault.message == Diagnostic(p)
      ensures extra != "" ==> fault.message == Diagnostic(p) + Separator + "Info: " + extra
      ensures |Diagnostic(p)| <= |fault.message| && fault.message[..|Diagnostic(p)|] == Diagnostic(p)
    {
      var lines := DiagnosticLines(p);
      if extra != "" {
        JoinAppend(lines, "Info: " + extra, Separator);
        lines := lines + ["Info: " + extra];
      }
      fault := Error(Join(lines, Separator));
    }

    /** `verifyEvent`: returns normally exactly when the registry has the
        event; otherwise marks the payload with `EVENT_NOT_REGISTERED` and
        throws the diagnostic of the marked payload. */
    method VerifyEvent(registry: Emitter, p: Envelope) returns (outcome: Outcome, marked: Envelope)
      ensures outcome.Pass? <==> p.event in registry.storage
      ensures outcome.Pass? ==> marked == p
      ensures outcome.Throw? ==> marked == p.(error := Some(ErrorText(EventNotRegistered)))
      ensures outcome.Throw? ==> outcome.fault == Raised(p, EventNotRegistered)
    {
      marked := p;
      var registered := registry.Has(p.event);
      if !registered {
        marked := marked.(error := Some(ErrorText(EventNotRegistered)));
        var fault := TriggerError(marked, "");
        return Throw(fault), marked;
      }
      outcome := Pass;
    }
  }
}
