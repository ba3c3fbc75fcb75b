/**
 * The signal broadcaster of `src/util/signals.ts`: a table from signal name
 * to an ordered list of handlers. Handlers are opaque values of type `H`;
 * emitting a signal yields the handler invocations in the order they happen.
 */
module Signals {
  import opened Values

  /** The name whose handlers receive every non-internal signal. */
  const AnySignal: string := "any"

  /** One call of handler `handler` with the argument list `args`. */
  datatype Invocation<H> = Invocation(handler: H, args: seq<Json>)

  /**
   * What one `emit` does: `invoked` lists every handler call in order;
   * `awaited` lists the calls whose results the returned promise collects.
   */
  datatype Emission<H> = Emission(invoked: seq<Invocation<H>>, awaited: seq<Invocation<H>>)

  /** Signals whose names start with `__` are internal and never reach `any` handlers. */
  predicate Internal(name: string) {
    |name| >= 2 && name[0] == '_' && name[1] == '_'
  }

  /** `hs.map(f => f(...args))`: each handler called once, in list order. */
  function CallAll<H>(hs: seq<H>, args: seq<Json>): (r: seq<Invocation<H>>)
    ensures |r| == |hs|
    ensures forall i :: 0 <= i < |hs| ==> r[i] == Invocation(hs[i], args)
  {
    seq(|hs|, i requires 0 <= i < |hs| => Invocation(hs[i], args))
  }

  class Signaler<H> {
    /** The `listeners` table. */
    var listeners: map<string, seq<H>>

    /** A broadcaster with no handlers. */
    constructor ()
      ensures listeners == map[]
    {
      listeners := map[];
    }

    /** The handlers of `name`, `[]` when the name has no entry. */
    function Handlers(name: string): seq<H>
      reads this
    {
      if name in listeners then listeners[name] else []
    }

    /**
     * `emit(name, ...args)`: the handlers of `name` are called with `args`,
     * then, unless the name is internal, the `any` handlers with the name
     * appended to the arguments. Only the first group of results is
     * awaited, because the result of `concat` is discarded.
     */
    function Emit(name: string, args: seq<Json>): (r: Emission<H>)
      reads this
      ensures |r.invoked| == |Handlers(name)| + (if Internal(name) then 0 else |Handlers(AnySignal)|)
      ensures forall i :: 0 <= i < |Handlers(name)| ==> r.invoked[i] == Invocation(Handlers(name)[i], args)
      ensures !Internal(name) ==>
                forall i :: 0 <= i < |Handlers(AnySignal)| ==>
                  r.invoked[|Handlers(name)| + i] == Invocation(Handlers(AnySignal)[i], args + [JStr(name)])
      ensures r.awaited == r.invoked[..|Handlers(name)|]
    {
      var out := CallAll(Handlers(name), args);
      var rest := if Internal(name) then [] else CallAll(Handlers(AnySignal), args + [JStr(name)]);
      Emission(out + rest, out)
    }

    /** `connect(name, handler)`: appends `handler` to the list of `name`. */
    method Connect(name: string, handler: H)
      modifies this
      ensures listeners == old(listeners)[name := old(Handlers(name)) + [handler]]
    {
      if name !in listeners {
        listeners := listeners[name := []];
      }
      listeners := listeners[name := listeners[name] + [handler]];
    }

    /** `clear(name)`: removes every handler of `name`. */
    method Clear(name: string)
      modifies this
      ensures listeners == old(listeners) - {name}
    {
      listeners := listeners - {name};
    }
  }

  /** After `Connect(name, h)` the handlers of `name` end with `h`; no other list changes. */
  lemma ConnectAppends<H>(before: map<string, seq<H>>, after: map<string, seq<H>>, name: string, h: H)
    requires after == before[name := (if name in before then before[name] else []) + [h]]
    ensures name in after && after[name][..|after[name]| - 1] == (if name in before then before[name] else [])
    ensures after[name][|after[name]| - 1] == h
    ensures forall n :: n != name ==> (n in after <==> n in before) && (n in before ==> after[n] == before[n])
  {
  }

  /** An internal signal reaches only its own handlers. */
  lemma InternalSkipsAny<H>(s: Signaler<H>, name: string, args: seq<Json>)
    requires Internal(name)
    ensures s.Emit(name, args).invoked == CallAll(s.Handlers(name), args)
    ensures s.Emit(name, args).awaited == s.Emit(name, args).invoked
  {
  }

  /** A non-internal signal that has no handlers of its own reaches only the `any` handlers. */
  lemma UnknownReachesOnlyAny<H>(s: Signaler<H>, name: string, args: seq<Json>)
    requires !Internal(name) && name !in s.listeners
    ensures s.Emit(name, args).invoked == CallAll(s.Handlers(AnySignal), args + [JStr(name)])
    ensures s.Emit(name, args).awaited == []
  {
    assert s.Handlers(name) == [];
  }

  /** Emitting `any` itself calls every `any` handler twice: plainly, then with `"any"` appended. */
  lemma EmitAnyTwice<H>(s: Signaler<H>, args: seq<Json>)
    ensures var r := s.Emit(AnySignal, args);
            var hs := s.Handlers(AnySignal);
            |r.invoked| == 2 * |hs| &&
            forall i :: 0 <= i < |hs| ==>
              r.invoked[i] == Invocation(hs[i], args) &&
              r.invoked[|hs| + i] == Invocation(hs[i], args + [JStr(AnySignal)])
  {
    assert !Internal(AnySignal);
  }
}
