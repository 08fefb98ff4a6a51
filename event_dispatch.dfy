/** The in-process domain-event dispatcher: a registry from an event-type
    name to the ordered list of handlers registered under it, with
    register, unregister, unregister-all and notify.

    Notify replaces the handlers' side effects by the sequence of `handle`
    calls it performs, one `Invocation` per call, in call order. */
module EventDispatch {
  import opened Events

  datatype Option<T> = None | Some(value: T)

  /** A handler object. Handlers are matched by identity, so two distinct
      objects of the same class have different ids. */
  datatype HandlerId = HandlerId(ref: nat)

  /** One call `handler.handle(event)`. */
  datatype Invocation = Invocation(handler: HandlerId, event: Event)

  /** The registry read back through `getEventHandlers`. */
  type Registry = map<string, seq<HandlerId>>

  /** `getEventHandlers[eventName]`: undefined, or the list under that key. */
  function Lookup(r: Registry, eventName: string): Option<seq<HandlerId>>
  {
    if eventName in r then Some(r[eventName]) else None
  }

  /** The handlers registered under `eventName`, none for an unknown key. */
  function HandlersFor(r: Registry, eventName: string): seq<HandlerId>
  {
    if eventName in r then r[eventName] else []
  }

  /** The registry after `register(eventName, handler)`. */
  function Registered(r: Registry, eventName: string, handler: HandlerId): Registry
  {
    r[eventName := HandlersFor(r, eventName) + [handler]]
  }

  /** `hs` with its first occurrence of `handler` removed. */
  function RemoveFirst(hs: seq<HandlerId>, handler: HandlerId): seq<HandlerId>
  {
    if hs == [] then []
    else if hs[0] == handler then hs[1..]
    else [hs[0]] + RemoveFirst(hs[1..], handler)
  }

  /** The registry after `unregister(eventName, handler)`: the key, when it
      exists, stays, even if its list becomes empty. */
  function Unregistered(r: Registry, eventName: string, handler: HandlerId): Registry
  {
    if eventName in r then r[eventName := RemoveFirst(r[eventName], handler)] else r
  }

  /** The calls made when each handler of `hs`, in order, handles `e`. */
  function Invocations(hs: seq<HandlerId>, e: Event): seq<Invocation>
  {
    seq(|hs|, i requires 0 <= i < |hs| => Invocation(hs[i], e))
  }

  /** The calls `notify(e)` makes on registry `r`. */
  function Dispatch(r: Registry, e: Event): seq<Invocation>
  {
    Invocations(HandlersFor(r, TypeName(e)), e)
  }

  /** How often `x` occurs in `s`. */
  function Count<T(==)>(s: seq<T>, x: T): nat
  {
    multiset(s)[x]
  }

  class EventDispatcher {
    var eventHandlers: Registry

    constructor ()
      ensures eventHandlers == map[]
    {
      eventHandlers := map[];
    }

    /** Appends `handler` to the list under `eventName`, creating the list
        when the key is new; duplicates are kept. */
    method Register(eventName: string, handler: HandlerId)
      modifies this
      ensures eventHandlers == Registered(old(eventHandlers), eventName, handler)
      ensures Lookup(eventHandlers, eventName) == Some(HandlersFor(old(eventHandlers), eventName) + [handler])
      ensures eventName !in old(eventHandlers) ==> Lookup(eventHandlers, eventName) == Some([handler])
      ensures forall k :: k != eventName ==> Lookup(eventHandlers, k) == Lookup(old(eventHandlers), k)
    {
      if eventName !in eventHandlers {
        eventHandlers := eventHandlers[eventName := []];
      }
      eventHandlers := eventHandlers[eventName := eventHandlers[eventName] + [handler]];
      assert eventName !in old(eventHandlers) ==> eventHandlers[eventName] == [handler];
    }

    /** Removes the first occurrence of `handler` under `eventName`; the
        key stays, possibly with an empty list. An unknown key is a no-op. */
    method Unregister(eventName: string, handler: HandlerId)
      modifies this
      ensures eventHandlers == Unregistered(old(eventHandlers), eventName, handler)
      ensures eventHandlers.Keys == old(eventHandlers).Keys
      ensures forall k :: k != eventName ==> Lookup(eventHandlers, k) == Lookup(old(eventHandlers), k)
    {
      if eventName in eventHandlers {
        eventHandlers := eventHandlers[eventName := RemoveFirst(eventHandlers[eventName], handler)];
      }
    }

    /** Forgets every key. */
    method UnregisterAll()
      modifies this
      ensures eventHandlers == map[]
      ensures forall k :: Lookup(eventHandlers, k) == None
    {
      eventHandlers := map[];
    }

    /** Calls `handle(event)` on every handler registered under the event's
        type name, in registration order; returns the calls made. The
        registry is left as it was. */
    method Notify(event: Event) returns (log: seq<Invocation>)
      ensures |log| == |HandlersFor(eventHandlers, TypeName(event))|
      ensures forall i :: 0 <= i < |log| ==>
        log[i] == Invocation(HandlersFor(eventHandlers, TypeName(event))[i], event)
      ensures log == Dispatch(eventHandlers, event)
    {
      log := [];
      var eventName := TypeName(event);
      if eventName in eventHandlers {
        var hs := eventHandlers[eventName];
        var i := 0;
        while i < |hs|
          invariant 0 <= i <= |hs|
          invariant |log| == i
          invariant forall j :: 0 <= j < i ==> log[j] == Invocation(hs[j], event)
        {
          log := log + [Invocation(hs[i], event)];
          i := i + 1;
        }
      }
    }
  }

  // ---------------------------------------------------------------------
  // Register

  /** Registering appends at the end of the type's list and touches no
      other key; on a type never seen the list is exactly `[handler]`. */
  lemma RegisterAppends(r: Registry, eventName: string, handler: HandlerId)
    ensures Lookup(Registered(r, eventName, handler), eventName) == Some(HandlersFor(r, eventName) + [handler])
    ensures eventName !in r ==> Lookup(Registered(r, eventName, handler), eventName) == Some([handler])
    ensures forall k :: k != eventName ==> Lookup(Registered(r, eventName, handler), k) == Lookup(r, k)
  {
    if eventName !in r {
      assert HandlersFor(r, eventName) + [handler] == [handler];
    }
  }

  // ---------------------------------------------------------------------
  // Unregister

  /** Removing the first occurrence takes out exactly one copy of the
      handler when there is one. */
  lemma {:induction false} RemoveFirstRemovesOne(hs: seq<HandlerId>, handler: HandlerId)
    ensures multiset(RemoveFirst(hs, handler)) == multiset(hs) - multiset{handler}
    ensures |RemoveFirst(hs, handler)| == if handler in hs then |hs| - 1 else |hs|
  {
    if hs != [] {
      var rest := hs[1..];
      assert hs == [hs[0]] + rest;
      if hs[0] != handler {
        RemoveFirstRemovesOne(rest, handler);
        assert RemoveFirst(hs, handler) == [hs[0]] + RemoveFirst(rest, handler);
        assert handler in hs <==> handler in rest;
      }
    }
  }

  /** Removing a handler that is not listed changes nothing. */
  lemma {:induction false} RemoveFirstAbsent(hs: seq<HandlerId>, handler: HandlerId)
    requires handler !in hs
    ensures RemoveFirst(hs, handler) == hs
  {
    if hs != [] {
      assert handler !in hs[1..] by { assert forall x :: x in hs[1..] ==> x in hs; }
      RemoveFirstAbsent(hs[1..], handler);
    }
  }

  /** Removing the first occurrence splices out the entry at the first
      index holding the handler, and keeps the order of the others. */
  lemma {:induction false} RemoveFirstSplices(hs: seq<HandlerId>, handler: HandlerId, i: nat)
    requires i < |hs| && hs[i] == handler
    requires handler !in hs[..i]
    ensures RemoveFirst(hs, handler) == hs[..i] + hs[i + 1..]
  {
    if i > 0 {
      assert hs[0] in hs[..i];
      assert hs[1..][..i - 1] == hs[1..i];
      assert handler !in hs[1..][..i - 1];
      RemoveFirstSplices(hs[1..], handler, i - 1);
      assert hs[..i] == [hs[0]] + hs[1..][..i - 1];
      assert hs[i + 1..] == hs[1..][i..];
    }
  }

  /** Unregistering never adds or removes a key, leaves the other keys'
      lists alone, and removes one copy of the handler from its type's. */
  lemma UnregisterKeepsKeys(r: Registry, eventName: string, handler: HandlerId)
    ensures Unregistered(r, eventName, handler).Keys == r.Keys
    ensures forall k :: k != eventName ==> Lookup(Unregistered(r, eventName, handler), k) == Lookup(r, k)
    ensures eventName in r ==>
      multiset(Unregistered(r, eventName, handler)[eventName]) == multiset(r[eventName]) - multiset{handler}
    ensures eventName !in r ==> Unregistered(r, eventName, handler) == r
  {
    if eventName in r {
      RemoveFirstRemovesOne(r[eventName], handler);
      if handler !in r[eventName] {
        RemoveFirstAbsent(r[eventName], handler);
      }
    }
  }

  /** Unregistering a handler that is not listed under a type leaves the
      whole registry unchanged. */
  lemma UnregisterAbsentIsNoOp(r: Registry, eventName: string, handler: HandlerId)
    requires handler !in HandlersFor(r, eventName)
    ensures Unregistered(r, eventName, handler) == r
  {
    if eventName in r {
      RemoveFirstAbsent(r[eventName], handler);
    }
  }

  /** Unregistering the only handler of a type leaves the key present
      with an empty list. */
  lemma UnregisterOnlyHandler(r: Registry, eventName: string, handler: HandlerId)
    requires eventName !in r
    ensures Lookup(Unregistered(Registered(r, eventName, handler), eventName, handler), eventName) == Some([])
  {
  }

  /** Unregistering the handler just registered restores the previous
      list of a known type. */
  lemma {:induction false} UnregisterUndoesRegister(hs: seq<HandlerId>, handler: HandlerId)
    requires handler !in hs
    ensures RemoveFirst(hs + [handler], handler) == hs
  {
    if hs != [] {
      assert (hs + [handler])[1..] == hs[1..] + [handler];
      UnregisterUndoesRegister(hs[1..], handler);
    }
  }

  /** After unregister the key is known with an empty list; after
      unregister-all the same lookup finds no key at all. */
  lemma UnregisterDiffersFromUnregisterAll(r: Registry, eventName: string, handler: HandlerId)
    requires eventName !in r
    ensures Lookup(Unregistered(Registered(r, eventName, handler), eventName, handler), eventName) == Some([])
    ensures Lookup(map[], eventName) == None
    ensures Lookup(Unregistered(Registered(r, eventName, handler), eventName, handler), eventName)
         != Lookup(map[], eventName)
  {
  }

  // ---------------------------------------------------------------------
  // Notify

  /** A handler is called by notify exactly when it is registered under
      the event's type name, and every call receives the event itself. */
  lemma DispatchCallsRegistered(r: Registry, e: Event, handler: HandlerId)
    ensures Invocation(handler, e) in Dispatch(r, e) <==> handler in HandlersFor(r, TypeName(e))
    ensures forall c :: c in Dispatch(r, e) ==> c.event == e && c.handler in HandlersFor(r, TypeName(e))
  {
    var hs := HandlersFor(r, TypeName(e));
    var log := Dispatch(r, e);
    if handler in hs {
      var i :| 0 <= i < |hs| && hs[i] == handler;
      assert log[i] == Invocation(handler, e);
    }
    forall c | c in log
      ensures c.event == e && c.handler in hs
    {
      var i :| 0 <= i < |log| && log[i] == c;
      assert c.handler == hs[i];
    }
  }

  /** Registering one more handler adds one call to the end of the list. */
  lemma InvocationsAppend(hs: seq<HandlerId>, handler: HandlerId, e: Event)
    ensures Invocations(hs + [handler], e) == Invocations(hs, e) + [Invocation(handler, e)]
  {
  }

  /** Each handler is called as many times as it is registered under the
      event's type: exactly once when registered once. */
  lemma {:induction false} InvocationsCount(hs: seq<HandlerId>, e: Event, handler: HandlerId)
    ensures Count(Invocations(hs, e), Invocation(handler, e)) == Count(hs, handler)
    decreases |hs|
  {
    if hs != [] {
      var init, last := hs[..|hs| - 1], hs[|hs| - 1];
      assert hs == init + [last];
      InvocationsCount(init, e, handler);
      InvocationsAppend(init, last, e);
    }
  }

  /** Notify calls each registered handler once per registration, and a
      handler not registered under the event's type not at all. */
  lemma DispatchCallsOncePerRegistration(r: Registry, e: Event, handler: HandlerId)
    ensures Count(Dispatch(r, e), Invocation(handler, e)) == Count(HandlersFor(r, TypeName(e)), handler)
    ensures handler !in HandlersFor(r, TypeName(e)) ==> forall c :: c in Dispatch(r, e) ==> c.handler != handler
  {
    InvocationsCount(HandlersFor(r, TypeName(e)), e, handler);
    DispatchCallsRegistered(r, e, handler);
  }

  /** A handler registered under the event's type name is called last, after
      the handlers that were there before; one registered under another
      name changes nothing about the notification. */
  lemma RegisterThenDispatch(r: Registry, eventName: string, handler: HandlerId, e: Event)
    ensures eventName == TypeName(e) ==>
      Dispatch(Registered(r, eventName, handler), e) == Dispatch(r, e) + [Invocation(handler, e)]
    ensures eventName != TypeName(e) ==>
      Dispatch(Registered(r, eventName, handler), e) == Dispatch(r, e)
  {
    if eventName == TypeName(e) {
      InvocationsAppend(HandlersFor(r, eventName), handler, e);
    }
  }

  /** On a fresh registry the handler at index 0 after register is the one
      notify calls, once. */
  lemma RegisterOnFreshThenDispatch(eventName: string, handler: HandlerId, e: Event)
    requires eventName == TypeName(e)
    ensures HandlersFor(Registered(map[], eventName, handler), eventName)[0] == handler
    ensures Dispatch(Registered(map[], eventName, handler), e) == [Invocation(handler, e)]
  {
    RegisterThenDispatch(map[], eventName, handler, e);
  }

  /** A handler registered and then unregistered on a fresh registry is
      never called. */
  lemma RegisterUnregisterThenDispatch(eventName: string, handler: HandlerId, e: Event)
    requires eventName == TypeName(e)
    ensures Dispatch(Unregistered(Registered(map[], eventName, handler), eventName, handler), e) == []
  {
  }

  /** After unregister-all notify calls nobody. */
  lemma ClearedDispatchesNothing(e: Event)
    ensures Dispatch(map[], e) == []
  {
  }
}
