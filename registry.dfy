/** The event-handler registry of the client: a fixed table from event name
    to an ordered list of callbacks (index.js:65-83), with `on`, `off` and
    `emit` (index.js:135-157). Callbacks are opaque ids compared by
    reference; handing a payload to a callback is recorded as a `Call`. */
module EventRegistry {

  /** A callback, identified by reference. */
  type HandlerId = int

  /** One invocation `handler(data)` made by `emit`. */
  datatype Call<P> = Call(handler: HandlerId, data: P)

  /** The names the constructor puts in the table (index.js:65-83). */
  const EventNames: set<string> := {
    "open", "close", "error", "message", "disconnect", "streamStart",
    "streamEnd", "audioPlay", "audioEnd", "reconnecting", "reconnected",
    "reconnectError", "reconnectFailed", "call-start", "call-end",
    "assistant-config", "unknown"
  }

  /** Names that a plain object inherits from `Object.prototype`. Looking one
      of them up in the table yields a function (or, for `__proto__`, the
      prototype object): a truthy value that has no `push`, `filter` or
      `forEach`, so `on`, `off` and `emit` throw a TypeError on them. */
  const InheritedNames: set<string> := {
    "constructor", "hasOwnProperty", "isPrototypeOf", "propertyIsEnumerable",
    "toLocaleString", "toString", "valueOf", "__proto__", "__defineGetter__",
    "__defineSetter__", "__lookupGetter__", "__lookupSetter__"
  }

  /** What a registry call did: its work, only a warning / nothing, or a throw. */
  datatype Outcome = Done | UnknownEvent | Threw

  type Table = map<string, seq<HandlerId>>

  /** The handler list `emit` walks for `name`; an unknown name has none. */
  function Listeners(table: Table, name: string): seq<HandlerId> {
    if name in table then table[name] else []
  }

  /** The table after `on(name, cb)`. */
  function Subscribed(table: Table, name: string, cb: HandlerId): (r: Table)
    ensures r.Keys == table.Keys
    ensures forall n :: n in table && n != name ==> r[n] == table[n]
    ensures name in table ==> Listeners(r, name) == Listeners(table, name) + [cb]
    ensures name !in table ==> r == table
  {
    if name in table then table[name := table[name] + [cb]] else table
  }

  /** `hs.filter(h => h !== cb)`. */
  function Without(hs: seq<HandlerId>, cb: HandlerId): (r: seq<HandlerId>)
    ensures cb !in r
    ensures |r| <= |hs|
    ensures multiset(r) == multiset(hs)[cb := 0]
  {
    if hs == [] then []
    else
      assert hs == [hs[0]] + hs[1..];
      if hs[0] == cb then Without(hs[1..], cb) else [hs[0]] + Without(hs[1..], cb)
  }

  /** The table after `off(name, cb)`. */
  function Unsubscribed(table: Table, name: string, cb: HandlerId): (r: Table)
    ensures r.Keys == table.Keys
    ensures forall n :: n in table && n != name ==> r[n] == table[n]
    ensures name in table ==> cb !in r[name]
    ensures name in table ==> r[name] == Without(table[name], cb)
  {
    if name in table then table[name := Without(table[name], cb)] else table
  }

  /** The table the constructor builds: every known name, no handler. */
  function InitialTable(): (t: Table)
    ensures t.Keys == EventNames
    ensures forall n :: Listeners(t, n) == []
  {
    map n | n in EventNames :: []
  }

  /** `filter` keeps the order of what it keeps: it distributes over `+`. */
  lemma {:induction false} WithoutAppend(a: seq<HandlerId>, b: seq<HandlerId>, cb: HandlerId)
    ensures Without(a + b, cb) == Without(a, cb) + Without(b, cb)
  {
    if a == [] {
      assert a + b == b;
    } else {
      assert (a + b)[1..] == a[1..] + b;
      WithoutAppend(a[1..], b, cb);
    }
  }

  /** Removing a callback that is not in the list leaves the list as it was. */
  lemma {:induction false} WithoutAbsent(hs: seq<HandlerId>, cb: HandlerId)
    requires cb !in hs
    ensures Without(hs, cb) == hs
  {
    if hs != [] {
      WithoutAbsent(hs[1..], cb);
    }
  }

  /** Calling `off` twice with the same callback is the same as calling it once. */
  lemma UnsubscribeIdempotent(table: Table, name: string, cb: HandlerId)
    ensures Unsubscribed(Unsubscribed(table, name, cb), name, cb) == Unsubscribed(table, name, cb)
  {
    if name in table {
      WithoutAbsent(Without(table[name], cb), cb);
    }
  }

  /** `off` right after `on` with a callback that was not registered for that
      name restores the table. */
  lemma OffUndoesOn(table: Table, name: string, cb: HandlerId)
    requires name in table && cb !in table[name]
    ensures Unsubscribed(Subscribed(table, name, cb), name, cb) == table
  {
    WithoutAppend(table[name], [cb], cb);
    WithoutAbsent(table[name], cb);
    assert Without([cb], cb) == [];
    assert Subscribed(table, name, cb)[name] == table[name] + [cb];
    assert Without(table[name] + [cb], cb) == table[name];
  }

  /** `emit` called the handlers `hs` with `data` up to the first throwing one:
      each called handler once, in list order, a prefix of the list, and the
      dispatch stops only at a handler that throws. */
  predicate DispatchedPrefix<P(==)>(hs: seq<HandlerId>, data: P, throwing: set<HandlerId>, calls: seq<Call<P>>) {
    && |calls| <= |hs|
    && (forall i :: 0 <= i < |calls| ==> calls[i] == Call(hs[i], data))
    && (forall i :: 0 <= i < |calls| - 1 ==> hs[i] !in throwing)
    && (|calls| < |hs| ==> |calls| > 0 && hs[|calls| - 1] in throwing)
  }

  /** Some listener of `name` throws when called. */
  predicate ListenerThrows(table: Table, name: string, throwing: set<HandlerId>) {
    exists h :: h in Listeners(table, name) && h in throwing
  }

  /** A dispatch reaches a throwing handler exactly when the list holds one:
      the prefix stops only at a thrower, and otherwise covers the list. */
  lemma DispatchThrowsIffListThrows<P>(hs: seq<HandlerId>, data: P, throwing: set<HandlerId>, calls: seq<Call<P>>)
    requires DispatchedPrefix(hs, data, throwing, calls)
    ensures (exists i :: 0 <= i < |calls| && calls[i].handler in throwing) <==>
            (exists h :: h in hs && h in throwing)
  {
    if h :| h in hs && h in throwing {
      if |calls| < |hs| {
        assert calls[|calls| - 1].handler in throwing;
      } else {
        var j :| 0 <= j < |hs| && hs[j] == h;
        assert calls[j].handler in throwing;
      }
    }
    if i :| 0 <= i < |calls| && calls[i].handler in throwing {
      assert hs[i] in hs;
    }
  }

  /** If no handler throws, a dispatched prefix is the whole list. */
  lemma DispatchWithoutThrowsIsComplete<P>(hs: seq<HandlerId>, data: P, throwing: set<HandlerId>, calls: seq<Call<P>>)
    requires DispatchedPrefix(hs, data, throwing, calls)
    requires forall h :: h in hs ==> h !in throwing
    ensures |calls| == |hs|
    ensures forall i :: 0 <= i < |hs| ==> calls[i] == Call(hs[i], data)
  {
  }

  /** The registry object: the `eventHandlers` field of the client. */
  class Registry {
    var handlers: Table

    ghost predicate Valid()
      reads this
    {
      handlers.Keys == EventNames
    }

    constructor ()
      ensures Valid()
      ensures handlers == InitialTable()
    {
      handlers := InitialTable();
    }

    /** `on(name, cb)` (index.js:135-142): appends `cb` to a known name's list;
        warns about an unknown name and changes nothing. */
    method On(name: string, cb: HandlerId) returns (outcome: Outcome)
      requires Valid()
      modifies this
      ensures Valid()
      ensures outcome == (if name in EventNames then Done
                          else if name in InheritedNames then Threw
                          else UnknownEvent)
      ensures handlers == Subscribed(old(handlers), name, cb)
    {
      if name in handlers {
        handlers := handlers[name := handlers[name] + [cb]];
        outcome := Done;
      } else if name in InheritedNames {
        outcome := Threw;
      } else {
        outcome := UnknownEvent;
      }
    }

    /** `off(name, cb)` (index.js:144-151): drops every occurrence of `cb`
        from a known name's list; an unknown name is ignored silently. */
    method Off(name: string, cb: HandlerId) returns (outcome: Outcome)
      requires Valid()
      modifies this
      ensures Valid()
      ensures outcome == (if name in EventNames then Done
                          else if name in InheritedNames then Threw
                          else UnknownEvent)
      ensures handlers == Unsubscribed(old(handlers), name, cb)
    {
      if name in handlers {
        handlers := handlers[name := Without(handlers[name], cb)];
        outcome := Done;
      } else if name in InheritedNames {
        outcome := Threw;
      } else {
        outcome := UnknownEvent;
      }
    }

    /** `emit(name, data)` (index.js:153-157): calls the listeners of `name`
        in list order, each with `data`; `throwing` is the set of handlers
        that throw when called, and the first of them aborts the dispatch.
        The list is read once, so `on`/`off` made by a handler do not change
        this dispatch. */
    method Emit<P(==)>(name: string, data: P, throwing: set<HandlerId>) returns (calls: seq<Call<P>>, outcome: Outcome)
      requires Valid()
      ensures name in InheritedNames ==> calls == [] && outcome == Threw
      ensures name !in InheritedNames ==> DispatchedPrefix(Listeners(handlers, name), data, throwing, calls)
      ensures name !in InheritedNames ==>
        (outcome == Threw <==> exists i :: 0 <= i < |calls| && calls[i].handler in throwing)
      ensures name !in InheritedNames ==> (outcome == Threw <==> ListenerThrows(handlers, name, throwing))
      ensures outcome != UnknownEvent
      ensures name !in EventNames ==> calls == []
    {
      calls := [];
      if name in InheritedNames {
        outcome := Threw;
        return;
      }
      outcome := Done;
      var hs := Listeners(handlers, name);
      var i := 0;
      while i < |hs|
        invariant 0 <= i <= |hs|
        invariant |calls| == i
        invariant forall k :: 0 <= k < i ==> calls[k] == Call(hs[k], data) && hs[k] !in throwing
      {
        calls := calls + [Call(hs[i], data)];
        if hs[i] in throwing {
          outcome := Threw;
          DispatchThrowsIffListThrows(hs, data, throwing, calls);
          return;
        }
        i := i + 1;
      }
      DispatchThrowsIffListThrows(hs, data, throwing, calls);
    }
  }
}
