/**
 * The hook registry and the hook chain runner: an append-only map from event name to the
 * handlers registered for it, and the sequential run of those handlers (`Promise.reduce`).
 */
module Hooks {
  import opened Wrappers
  import opened JsValues

  /** A registered callback: called with the event's arguments, it returns a value or fails. */
  type Handler = seq<Value> -> Result<Value, Error>

  type Registry = map<string, seq<Handler>>

  /** How a chain ran: how many handlers were called, and what the chain settled to. */
  datatype HookRun = HookRun(calls: nat, outcome: Result<Value, Error>)

  /**
   * `this._hooks[event] || []`. Event names are only ever `beforeRequest` and `afterRequest`, so
   * the names inherited from `Object.prototype` (`constructor`, ...) never reach the registry.
   */
  function Handlers(hooks: Registry, event: string): (r: seq<Handler>)
    ensures event in hooks ==> r == hooks[event]
    ensures event !in hooks ==> r == []
  {
    if event in hooks then hooks[event] else []
  }

  /** `_addHook`: the registry with `handler` appended to the list of `event`. */
  function AppendHook(hooks: Registry, event: string, handler: Handler): (r: Registry)
    ensures Handlers(r, event) == Handlers(hooks, event) + [handler]
    ensures r.Keys == hooks.Keys + {event}
    ensures forall e :: e in hooks && e != event ==> r[e] == hooks[e]
  {
    hooks[event := Handlers(hooks, event) + [handler]]
  }

  /** `eventArgs[0]`, `undefined` when there are no arguments. */
  function FirstArg(args: seq<Value>): (r: Value)
    ensures |args| > 0 ==> r == args[0]
    ensures |args| == 0 ==> r == Undefined
  {
    if |args| == 0 then Undefined else args[0]
  }

  /**
   * `Promise.reduce(handlers, (total, handler) => handler(...args), total)`: each handler is called
   * with the same arguments, the accumulator is never passed on, and a failure ends the chain.
   */
  function Reduce(handlers: seq<Handler>, args: seq<Value>, total: Value): (r: HookRun)
    ensures r.calls <= |handlers|
    ensures handlers != [] ==> 1 <= r.calls
    ensures r.outcome.Success? ==> r.calls == |handlers|
    decreases |handlers|
  {
    if handlers == [] then HookRun(0, Success(total))
    else
      match handlers[0](args)
      case Failure(e) => HookRun(1, Failure(e))
      case Success(v) =>
        var rest := Reduce(handlers[1..], args, v);
        HookRun(rest.calls + 1, rest.outcome)
  }

  /** `_runHooks(event, ...args)` */
  function RunHooks(hooks: Registry, event: string, args: seq<Value>): (r: HookRun)
    ensures Handlers(hooks, event) == [] ==> r == HookRun(0, Success(FirstArg(args)))
    ensures Handlers(hooks, event) != [] ==> 1 <= r.calls <= |Handlers(hooks, event)|
    ensures r.outcome.Success? ==> r.calls == |Handlers(hooks, event)|
  {
    var handlers := Handlers(hooks, event);
    if |handlers| == 0 then HookRun(0, Success(FirstArg(args)))
    else Reduce(handlers, args, List(args))
  }

  /** When every handler succeeds, all are called and the chain yields the last handler's value. */
  lemma {:induction false} ReduceAllSucceed(handlers: seq<Handler>, args: seq<Value>, total: Value)
    requires handlers != []
    requires forall i :: 0 <= i < |handlers| ==> handlers[i](args).Success?
    ensures Reduce(handlers, args, total) == HookRun(|handlers|, handlers[|handlers| - 1](args))
    decreases |handlers|
  {
    if |handlers| > 1 {
      var rest := handlers[1..];
      assert forall i :: 0 <= i < |rest| ==> rest[i] == handlers[i + 1];
      ReduceAllSucceed(rest, args, handlers[0](args).value);
    }
  }

  /**
   * When handler `k` is the first to fail, exactly `k + 1` handlers are called and the chain fails
   * with that handler's error; no later handler can affect the outcome.
   */
  lemma {:induction false} ReduceFirstFailure(handlers: seq<Handler>, args: seq<Value>, total: Value, k: nat)
    requires k < |handlers|
    requires forall i :: 0 <= i < k ==> handlers[i](args).Success?
    requires handlers[k](args).Failure?
    ensures Reduce(handlers, args, total) == HookRun(k + 1, handlers[k](args))
    decreases k
  {
    if k > 0 {
      var rest := handlers[1..];
      assert forall i :: 0 <= i < |rest| ==> rest[i] == handlers[i + 1];
      ReduceFirstFailure(rest, args, handlers[0](args).value, k - 1);
    }
  }

  /** Appending a handler runs it after the others, and only if they all succeeded. */
  lemma {:induction false} ReduceAppend(handlers: seq<Handler>, handler: Handler, args: seq<Value>, total: Value)
    ensures var before := Reduce(handlers, args, total);
      Reduce(handlers + [handler], args, total) ==
        if before.outcome.Failure? then before else HookRun(before.calls + 1, handler(args))
    decreases |handlers|
  {
    if handlers != [] {
      assert (handlers + [handler])[1..] == handlers[1..] + [handler];
      match handlers[0](args)
      case Failure(_) =>
      case Success(v) => ReduceAppend(handlers[1..], handler, args, v);
    }
  }

  /**
   * Registering a handler for an event makes it the last one that event's chain calls: it runs
   * only if every earlier handler succeeded, and its result becomes the chain's result.
   */
  lemma RunHooksAfterAppend(hooks: Registry, event: string, handler: Handler, args: seq<Value>)
    ensures var before := RunHooks(hooks, event, args);
      RunHooks(AppendHook(hooks, event, handler), event, args) ==
        if Handlers(hooks, event) == [] then HookRun(1, handler(args))
        else if before.outcome.Failure? then before
        else HookRun(before.calls + 1, handler(args))
  {
    var old_ := Handlers(hooks, event);
    if old_ == [] {
      assert Handlers(AppendHook(hooks, event, handler), event) == [handler];
    } else {
      ReduceAppend(old_, handler, args, List(args));
    }
  }

  /** Registering a handler for one event leaves every other event's chain as it was. */
  lemma RunHooksOtherEvent(hooks: Registry, event: string, other: string, handler: Handler, args: seq<Value>)
    requires other != event
    ensures RunHooks(AppendHook(hooks, event, handler), other, args) == RunHooks(hooks, other, args)
  {
    assert Handlers(AppendHook(hooks, event, handler), other) == Handlers(hooks, other);
  }
}
