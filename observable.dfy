/**
 * ObservableStorage: a state object that is updated by deep partial merges and
 * that notifies its listeners with the new state after every update.
 *
 * A merge never adds a key: an update key the state does not have as an own
 * key is skipped at every nesting level (names the state only inherits, such as
 * `toString`, are not modelled); a primitive update value overwrites; an object update
 * value is merged into the existing object. The state is a value here, so the
 * merge builds a new tree instead of writing through shared references.
 */
module Observable {
  import opened JsValue

  type State = map<string, Json>

  /** The state after merging `updates` into `target`. */
  function Merge(target: map<string, Json>, updates: map<string, Json>): map<string, Json>
    decreases Obj(updates), 0
  {
    map k | k in target :: if k in updates then MergeValue(target[k], updates[k]) else target[k]
  }

  /** The new value of a key the updates mention. */
  function MergeValue(current: Json, update: Json): Json
    decreases update, 1
  {
    if IsObject(update) then
      if IsObject(current) then Obj(Merge(current.fields, update.fields)) else current
    else update
  }

  /**
   * The shape `RecursivePartial<T>` demands of an update: an object update value
   * only for a key whose current value is an object, at every nesting level.
   */
  predicate Conforms(target: map<string, Json>, updates: map<string, Json>)
    decreases Obj(updates)
  {
    forall k :: k in updates && k in target && IsObject(updates[k]) ==>
      IsObject(target[k]) && Conforms(target[k].fields, updates[k].fields)
  }

  /** `updatePartial`: walks the update entries, skipping keys the target lacks and recursing into objects. */
  method UpdatePartial(target: map<string, Json>, updates: map<string, Json>) returns (r: map<string, Json>)
    requires Conforms(target, updates)
    ensures r == Merge(target, updates)
    ensures r.Keys == target.Keys
    ensures forall k :: k in target && k !in updates ==> r[k] == target[k]
    ensures forall k :: k in target && k in updates && !IsObject(updates[k]) ==> r[k] == updates[k]
    decreases Obj(updates)
  {
    r := target;
    var pending := updates.Keys;
    while pending != {}
      invariant pending <= updates.Keys
      invariant r.Keys == target.Keys
      invariant forall k :: k in r ==>
        r[k] == if k in updates && k !in pending then MergeValue(target[k], updates[k]) else target[k]
      decreases pending
    {
      var key :| key in pending;
      pending := pending - {key};
      if key !in r {
        continue;
      }
      var value := updates[key];
      if IsObject(value) {
        var merged := UpdatePartial(r[key].fields, value.fields);
        r := r[key := Obj(merged)];
      } else {
        r := r[key := value];
      }
    }
  }

  /** `r` has no key `t` lacks, at any nesting level where `r` holds an object. */
  predicate NoNewKeys(r: map<string, Json>, t: map<string, Json>)
    decreases Obj(r)
  {
    && r.Keys == t.Keys
    && forall k :: k in r && IsObject(r[k]) ==> IsObject(t[k]) && NoNewKeys(r[k].fields, t[k].fields)
  }

  /** A merge adds no key anywhere in the tree. */
  lemma {:induction false} MergeAddsNoKeys(target: map<string, Json>, updates: map<string, Json>)
    ensures NoNewKeys(Merge(target, updates), target)
    decreases Obj(updates)
  {
    var r := Merge(target, updates);
    forall k | k in r && IsObject(r[k])
      ensures IsObject(target[k]) && NoNewKeys(r[k].fields, target[k].fields)
    {
      if k in updates && IsObject(updates[k]) && IsObject(target[k]) {
        MergeAddsNoKeys(target[k].fields, updates[k].fields);
      } else {
        NoNewKeysReflexive(target[k]);
      }
    }
  }

  lemma {:induction false} NoNewKeysReflexive(v: Json)
    ensures IsObject(v) ==> NoNewKeys(v.fields, v.fields)
    decreases v
  {
    if IsObject(v) {
      forall k | k in v.fields && IsObject(v.fields[k])
        ensures NoNewKeys(v.fields[k].fields, v.fields[k].fields)
      {
        NoNewKeysReflexive(v.fields[k]);
      }
    }
  }

  /** Applying the same update twice gives the state applying it once gives. */
  lemma {:induction false} MergeIdempotent(target: map<string, Json>, updates: map<string, Json>)
    ensures Merge(Merge(target, updates), updates) == Merge(target, updates)
    decreases Obj(updates)
  {
    var once := Merge(target, updates);
    forall k | k in once
      ensures Merge(once, updates)[k] == once[k]
    {
      if k in updates && IsObject(updates[k]) && IsObject(target[k]) {
        MergeIdempotent(target[k].fields, updates[k].fields);
        assert once[k] == Obj(Merge(target[k].fields, updates[k].fields));
        assert Merge(once, updates)[k] == MergeValue(once[k], updates[k]);
      }
    }
  }

  /** An update that fits the state still fits it after being applied, so it can be applied again. */
  lemma {:induction false} MergeKeepsConformance(target: map<string, Json>, updates: map<string, Json>)
    requires Conforms(target, updates)
    ensures Conforms(Merge(target, updates), updates)
    decreases Obj(updates)
  {
    var once := Merge(target, updates);
    forall k | k in updates && k in once && IsObject(updates[k])
      ensures IsObject(once[k]) && Conforms(once[k].fields, updates[k].fields)
    {
      assert IsObject(target[k]) && Conforms(target[k].fields, updates[k].fields);
      assert once[k] == MergeValue(target[k], updates[k]);
      MergeKeepsConformance(target[k].fields, updates[k].fields);
    }
  }

  /** One invocation of a listener with the state it was given. */
  datatype Notification<H> = Notification(handler: H, state: State)

  /** The invocations one emit makes: every listener, in registration order, with `s`. */
  function Notify<H>(handlers: seq<H>, s: State): (ns: seq<Notification<H>>)
    ensures |ns| == |handlers|
    ensures forall i :: 0 <= i < |handlers| ==> ns[i] == Notification(handlers[i], s)
  {
    if handlers == [] then [] else [Notification(handlers[0], s)] + Notify(handlers[1..], s)
  }

  /** A handler is invoked by an emit exactly when it is registered, and only with the emitted state. */
  lemma NotifiedIffListening<H>(handlers: seq<H>, s: State, h: H, t: State)
    ensures Notification(h, t) in Notify(handlers, s) <==> h in handlers && t == s
  {
    var ns := Notify(handlers, s);
    if Notification(h, t) in ns {
      var i :| 0 <= i < |ns| && ns[i] == Notification(h, t);
      assert handlers[i] == h;
    }
    if h in handlers && t == s {
      var i :| 0 <= i < |handlers| && handlers[i] == h;
      assert ns[i] == Notification(h, t);
    }
  }

  /** The index of the last occurrence of `h`, or -1. */
  function LastIndexOf<H(==)>(handlers: seq<H>, h: H): (i: int)
    ensures -1 <= i < |handlers|
    ensures i >= 0 ==> handlers[i] == h
    ensures forall j :: i < j < |handlers| ==> handlers[j] != h
  {
    if handlers == [] then -1
    else if handlers[|handlers| - 1] == h then |handlers| - 1
    else LastIndexOf(handlers[..|handlers| - 1], h)
  }

  /** `removeListener`: drops the most recently added occurrence of `h`, if any. */
  function RemoveLast<H(==)>(handlers: seq<H>, h: H): seq<H> {
    var i := LastIndexOf(handlers, h);
    if i < 0 then handlers else handlers[..i] + handlers[i + 1..]
  }

  /**
   * Removing takes away one registration of `h` and keeps every other one; a
   * handler registered once is then no longer registered.
   */
  lemma RemoveLastDropsOne<H>(handlers: seq<H>, h: H)
    ensures multiset(RemoveLast(handlers, h)) == multiset(handlers) - multiset{h}
    ensures multiset(handlers)[h] <= 1 ==> h !in RemoveLast(handlers, h)
  {
    var i := LastIndexOf(handlers, h);
    if i >= 0 {
      assert handlers == handlers[..i] + [h] + handlers[i + 1..];
      assert multiset(handlers) == multiset(handlers[..i]) + multiset{h} + multiset(handlers[i + 1..]);
    } else {
      assert h !in handlers;
    }
    assert multiset(handlers)[h] <= 1 ==> multiset(RemoveLast(handlers, h))[h] == 0;
  }

  class ObservableStorage<H(==)> {
    var state: State
    /** The registered listeners, oldest first. */
    var listeners: seq<H>
    /** Every listener invocation made so far, in order. */
    var delivered: seq<Notification<H>>

    constructor (initial: State)
      ensures state == initial && listeners == [] && delivered == []
    {
      state, listeners, delivered := initial, [], [];
    }

    /** `get`: a copy of the state; a caller that changes it changes only its copy. */
    method Get() returns (s: State)
      ensures s == state
    {
      s := state;
    }

    /** `set`: merges the updates into the state, then hands the new state to every listener. */
    method Set(updates: State)
      requires Conforms(state, updates)
      modifies this
      ensures state == Merge(old(state), updates)
      ensures listeners == old(listeners)
      ensures delivered == old(delivered) + Notify(listeners, state)
    {
      var current := Get();
      state := UpdatePartial(current, updates);
      Emit();
    }

    /**
     * `set` with the `{ override: true }` option that background/storage.ts passes:
     * the given state replaces the old one, then every listener is notified.
     * The `set` of storage/observable.ts has no such option.
     */
    method Override(replacement: State)
      modifies this
      ensures state == replacement
      ensures listeners == old(listeners)
      ensures delivered == old(delivered) + Notify(listeners, state)
    {
      state := replacement;
      Emit();
    }

    /** The `StateUpdated` event: each listener, oldest first, receives a copy of the current state. */
    method Emit()
      modifies this
      ensures state == old(state) && listeners == old(listeners)
      ensures delivered == old(delivered) + Notify(listeners, state)
    {
      var i := 0;
      while i < |listeners|
        invariant 0 <= i <= |listeners|
        invariant state == old(state) && listeners == old(listeners)
        invariant delivered == old(delivered) + Notify(listeners[..i], state)
      {
        var snapshot := Get();
        delivered := delivered + [Notification(listeners[i], snapshot)];
        i := i + 1;
        assert listeners[..i] == listeners[..i - 1] + [listeners[i - 1]];
      }
      assert listeners[..i] == listeners;
    }

    method Subscribe(handler: H)
      modifies this
      ensures listeners == old(listeners) + [handler]
      ensures state == old(state) && delivered == old(delivered)
    {
      listeners := listeners + [handler];
    }

    method Unsubscribe(handler: H)
      modifies this
      ensures listeners == RemoveLast(old(listeners), handler)
      ensures state == old(state) && delivered == old(delivered)
    {
      var i := |listeners|;
      while i > 0 && listeners[i - 1] != handler
        invariant 0 <= i <= |listeners|
        invariant forall j :: i <= j < |listeners| ==> listeners[j] != handler
        invariant LastIndexOf(listeners, handler) == LastIndexOf(listeners[..i], handler)
        decreases i
      {
        assert listeners[..i - 1] == listeners[..i][..i - 1];
        i := i - 1;
      }
      if i > 0 {
        listeners := listeners[..i - 1] + listeners[i..];
      }
    }
  }
}
