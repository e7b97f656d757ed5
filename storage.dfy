/** The global registry of src/storage.ts: one entry per kore class name,
    holding the instance and, once something mounts, its listener map. It
    also installs, on each instance it builds, the dispatcher that
    `_setState` calls (forward to every listener, then to the class's
    subscriptions) and `destroyInstance`. */
module Storage {
  import opened Values
  import opened ListenerSets
  import opened Partial
  import opened KoreModel
  import opened Subscriptions

  /** The listener `Map` of one entry: dispatcher references in insertion
      order, each with the callback registered for it. */
  datatype Listeners = Listeners(order: seq<Ref>, callbacks: map<Ref, Callback>)

  predicate WellFormed(ls: Listeners) {
    NoDup(ls.order) && (forall r :: r in ls.order ==> r in ls.callbacks) && (forall r :: r in ls.callbacks ==> r in ls.order)
  }

  /** `map.set(r, cb)`: a known reference keeps its place and gets the new
      callback; a new one goes last. */
  function MapSet(ls: Listeners, r: Ref, cb: Callback): (t: Listeners)
    requires WellFormed(ls)
    ensures WellFormed(t) && t.callbacks == ls.callbacks[r := cb]
    ensures |t.order| == if r in ls.order then |ls.order| else |ls.order| + 1
  {
    Listeners(Added(ls.order, r), ls.callbacks[r := cb])
  }

  /** `map.delete(r)`: every other reference keeps its callback and place. */
  function MapDelete(ls: Listeners, r: Ref): (t: Listeners)
    requires WellFormed(ls)
    ensures WellFormed(t) && t.callbacks == ls.callbacks - {r}
    ensures |t.order| == if r in ls.order then |ls.order| - 1 else |ls.order|
  {
    Listeners(Removed(ls.order, r), ls.callbacks - {r})
  }

  /** A registry entry `{kore, listeners?}`. */
  datatype Entry = Entry(kore: Kore, listeners: Option<Listeners>)

  type Registry = map<string, Entry>

  /** Every entry sits under its instance's class name, and its listener map
      is well formed. */
  predicate RegistryOk(reg: Registry) {
    forall n :: n in reg ==> reg[n].kore.name == n && (reg[n].listeners.Some? ==> WellFormed(reg[n].listeners.value))
  }

  /** `storage.get(name)?.listeners?.size ?? 0`. */
  function ListenerCount(reg: Registry, name: string): nat {
    if name in reg && reg[name].listeners.Some? then |reg[name].listeners.value.order| else 0
  }

  /** Whether `destroyInstance(kore, force)` drops the entry. */
  predicate Destroys(reg: Registry, name: string, force: bool) {
    force || ListenerCount(reg, name) == 0
  }

  /** The registry after `destroyInstance(kore, force)`: the entry goes when
      forced or when no listener is left, and no other name is touched. */
  function Destroyed(reg: Registry, name: string, force: bool): (r: Registry)
    requires RegistryOk(reg)
    ensures RegistryOk(r)
    ensures name !in r <==> name !in reg || Destroys(reg, name, force)
    ensures forall n :: n != name ==> (n in r <==> n in reg) && (n in r ==> r[n] == reg[n])
    ensures name in r ==> r[name] == reg[name]
  {
    if Destroys(reg, name, force) then reg - {name} else reg
  }

  /** A call of a React state setter made by a listener. */
  datatype Render = Render(listener: Ref, state: Val)

  /** A lifecycle hook call, made on one particular instance. */
  datatype Hook = Created(kore: Kore) | Deleted(kore: Kore)

  function RendersOf(r: Ref, vs: seq<Val>): (out: seq<Render>)
    ensures |out| == |vs| && forall i :: 0 <= i < |vs| ==> out[i] == Render(r, vs[i])
  {
    seq(|vs|, i requires 0 <= i < |vs| => Render(r, vs[i]))
  }

  /** What each listener of `order` does on `(p, n)`, in map order: the
      setter calls it makes, or `None` when its comparison throws. */
  function Outcomes(order: seq<Ref>, callbacks: map<Ref, Callback>, p: Val, n: Val): (outs: seq<Option<seq<Val>>>)
    requires forall x :: x in order ==> x in callbacks
    ensures |outs| == |order|
    ensures forall i :: 0 <= i < |order| ==> outs[i] == CallbackDispatches(callbacks[order[i]], p, n)
  {
    seq(|order|, i requires 0 <= i < |order| => CallbackDispatches(callbacks[order[i]], p, n))
  }

  /** One more listener `r` whose call made the setter calls `d` (`None`:
      it threw), after the listeners before it produced `before`. */
  function Extend(before: (seq<Render>, bool), r: Ref, d: Option<seq<Val>>): (seq<Render>, bool) {
    if !before.1 then before
    else if d.None? then (before.0, false)
    else (before.0 + RendersOf(r, d.value), true)
  }

  /** `forEach` over listeners whose calls do `outs`: the setter calls made,
      and whether every listener returned; the first one that throws ends
      the loop. */
  function Collect(order: seq<Ref>, outs: seq<Option<seq<Val>>>): (seq<Render>, bool)
    requires |outs| == |order|
    decreases |order|
  {
    if order == [] then ([], true)
    else Extend(Collect(order[..|order| - 1], outs[..|outs| - 1]), order[|order| - 1], outs[|outs| - 1])
  }

  /** `listeners.forEach(l => l(p, n))` over the references in `order`. */
  function Forwarded(order: seq<Ref>, callbacks: map<Ref, Callback>, p: Val, n: Val): (seq<Render>, bool)
    requires forall x :: x in order ==> x in callbacks
  {
    Collect(order, Outcomes(order, callbacks, p, n))
  }

  /** One more listener extends the result on the shorter prefix. */
  lemma CollectStep(order: seq<Ref>, outs: seq<Option<seq<Val>>>, i: nat)
    requires |outs| == |order| && i < |order|
    ensures Collect(order[..i + 1], outs[..i + 1]) == Extend(Collect(order[..i], outs[..i]), order[i], outs[i])
  {
    assert order[..i + 1][..i] == order[..i];
    assert outs[..i + 1][..i] == outs[..i];
  }

  /** Once a listener throws, the rest of the map is not reached. */
  lemma {:induction false} CollectStops(order: seq<Ref>, outs: seq<Option<seq<Val>>>, j: nat)
    requires |outs| == |order| && j <= |order| && !Collect(order[..j], outs[..j]).1
    ensures Collect(order, outs) == Collect(order[..j], outs[..j])
    decreases |order|
  {
    if j < |order| {
      var init, initOuts := order[..|order| - 1], outs[..|outs| - 1];
      assert init[..j] == order[..j];
      assert initOuts[..j] == outs[..j];
      CollectStops(init, initOuts, j);
    } else {
      assert order[..j] == order;
      assert outs[..j] == outs;
    }
  }

  /** The loop over the listeners ends at the last one or at the first
      that throws; either way its result is the whole map's. */
  lemma CollectFinish(order: seq<Ref>, outs: seq<Option<seq<Val>>>, i: nat)
    requires |outs| == |order| && i <= |order|
    requires i == |order| || !Collect(order[..i], outs[..i]).1
    ensures Collect(order, outs) == Collect(order[..i], outs[..i])
  {
    if i == |order| {
      assert order[..i] == order && outs[..i] == outs;
    } else {
      CollectStops(order, outs, i);
    }
  }

  /** Listeners that each make exactly the call `n` produce one render per
      listener, in order. */
  lemma {:induction false} CollectOnePerListener(order: seq<Ref>, outs: seq<Option<seq<Val>>>, n: Val)
    requires |outs| == |order| && forall i :: 0 <= i < |outs| ==> outs[i] == Some([n])
    ensures Collect(order, outs).1 && |Collect(order, outs).0| == |order|
    ensures forall i :: 0 <= i < |order| ==> Collect(order, outs).0[i] == Render(order[i], n)
    decreases |order|
  {
    if order != [] {
      var init, initOuts := order[..|order| - 1], outs[..|outs| - 1];
      CollectOnePerListener(init, initOuts, n);
      var f := Collect(order, outs);
      assert f.0 == Collect(init, initOuts).0 + RendersOf(order[|order| - 1], [n]);
      forall i | 0 <= i < |order|
        ensures f.0[i] == Render(order[i], n)
      {
        if i < |init| {
          assert f.0[i] == Collect(init, initOuts).0[i];
        }
      }
    }
  }

  /** Listeners whose calls all carry `n` produce only renders of `n`, each
      by one of the listeners. */
  lemma {:induction false} CollectCarries(order: seq<Ref>, outs: seq<Option<seq<Val>>>, n: Val)
    requires |outs| == |order|
    requires forall i :: 0 <= i < |outs| && outs[i].Some? ==> forall v :: v in outs[i].value ==> v == n
    ensures forall r :: r in Collect(order, outs).0 ==> r.state == n && r.listener in order
    decreases |order|
  {
    if order != [] {
      var init, initOuts := order[..|order| - 1], outs[..|outs| - 1];
      CollectCarries(init, initOuts, n);
      var last := order[|order| - 1];
      var d := outs[|outs| - 1];
      if d.Some? {
        var added := RendersOf(last, d.value);
        forall r | r in added
          ensures r.state == n && r.listener in order
        {
          var k :| 0 <= k < |added| && added[k] == r;
          assert d.value[k] in d.value;
        }
      }
    }
  }

  /** Listeners registered without a gate each receive the new state exactly
      once, in map order. */
  lemma UngatedListenersRenderNewState(order: seq<Ref>, callbacks: map<Ref, Callback>, p: Val, n: Val)
    requires forall x :: x in order ==> x in callbacks && callbacks[x] == PassNew
    ensures Forwarded(order, callbacks, p, n).1
    ensures |Forwarded(order, callbacks, p, n).0| == |order|
    ensures forall i :: 0 <= i < |order| ==> Forwarded(order, callbacks, p, n).0[i] == Render(order[i], n)
  {
    CollectOnePerListener(order, Outcomes(order, callbacks, p, n), n);
  }

  /** Whatever the gates decide, every setter call carries the full new
      state, never a selected slice, and comes from a registered listener. */
  lemma ForwardedHandsOverNewState(order: seq<Ref>, callbacks: map<Ref, Callback>, p: Val, n: Val)
    requires forall x :: x in order ==> x in callbacks
    ensures forall r :: r in Forwarded(order, callbacks, p, n).0 ==> r.state == n && r.listener in order
  {
    var outs := Outcomes(order, callbacks, p, n);
    forall i | 0 <= i < |outs| && outs[i].Some?
      ensures forall v :: v in outs[i].value ==> v == n
    {
      match callbacks[order[i]]
      case PassNew =>
      case Gated(g) => GateHandsOverNewState(g, p, n);
    }
    CollectCarries(order, outs, n);
  }

  /** What the dispatcher installed for `name` does on `(p, n)`. */
  function ForwardOf(reg: Registry, name: string, p: Val, n: Val): (seq<Render>, bool)
    requires RegistryOk(reg)
  {
    if name in reg && reg[name].listeners.Some? then
      Forwarded(reg[name].listeners.value.order, reg[name].listeners.value.callbacks, p, n)
    else ([], true)
  }

  /** The calls one registered listener makes. */
  method RunCallback(c: Callback, p: Val, n: Val) returns (out: Option<seq<Val>>)
    ensures out == CallbackDispatches(c, p, n)
  {
    match c
    case PassNew =>
      out := Some([n]);
    case Gated(g) =>
      out := RunGate(g, p, n);
  }

  /** `listeners.forEach(l => l(p, n))`, in map order, stopping at a
      listener that throws: the setter calls made, and whether all returned. */
  method ForwardTo(ls: Listeners, p: Val, n: Val) returns (rs: seq<Render>, ok: bool)
    requires forall x :: x in ls.order ==> x in ls.callbacks
    ensures (rs, ok) == Forwarded(ls.order, ls.callbacks, p, n)
  {
    ghost var outs := Outcomes(ls.order, ls.callbacks, p, n);
    var i := 0;
    rs, ok := [], true;
    while i < |ls.order| && ok
      invariant 0 <= i <= |ls.order|
      invariant (rs, ok) == Collect(ls.order[..i], outs[..i])
    {
      var r := ls.order[i];
      var d := RunCallback(ls.callbacks[r], p, n);
      CollectStep(ls.order, outs, i);
      if d.Some? {
        rs := rs + RendersOf(r, d.value);
      }
      ok := d.Some?;
      i := i + 1;
    }
    CollectFinish(ls.order, outs, i);
  }

  class Store {
    var entries: Registry
    var renders: seq<Render>
    var hooks: seq<Hook>
    const subs: SubscriptionTable

    ghost predicate Valid()
      reads this
    {
      RegistryOk(entries)
    }

    constructor (subs: SubscriptionTable)
      ensures Valid() && entries == map[] && renders == [] && hooks == [] && this.subs == subs
    {
      entries := map[];
      renders := [];
      hooks := [];
      this.subs := subs;
    }

    /** `initKore(cls, init)`. An unseen name gets one new instance, with the
        initial value applied, the dispatcher and `destroyInstance`
        installed, stored without a listener map, and its subscriptions
        called. A stored name returns the stored instance; only a `false`
        marker makes it re-apply the initial value, drop the marker and call
        the subscriptions. */
    method InitKore(cls: KoreClass, init: Initial) returns (k: Kore)
      requires Valid()
      modifies this`entries, subs`calls, if cls.name in entries then {entries[cls.name].kore} else {}
      ensures Valid()
      ensures cls.name !in old(entries) ==>
        fresh(k) && k.name == cls.name && k.merge == cls.merge && k.destroyOnUnmount == cls.destroyOnUnmount
        && k.state == InitialState(cls.constructed, init) && k.installed && k.marker.None?
        && entries == old(entries)[cls.name := Entry(k, None)]
        && subs.calls == old(subs.calls) + SubCalls(ListOf(subs.lists, cls.name), k)
      ensures cls.name in old(entries) ==> k == old(entries[cls.name].kore) && entries == old(entries)
      ensures cls.name in old(entries) && old(k.marker) == Some(false) ==>
        k.state == InitialState(old(k.state), init) && k.marker.None? && k.installed == old(k.installed)
        && subs.calls == old(subs.calls) + SubCalls(ListOf(subs.lists, cls.name), k)
      ensures cls.name in old(entries) && old(k.marker) != Some(false) ==>
        unchanged(k) && subs.calls == old(subs.calls)
    {
      if cls.name !in entries {
        k := new Kore(cls, cls.constructed);
        k.SetInitialValue(init);
        entries := entries[cls.name := Entry(k, None)];
        k.installed := true;
        subs.CallSubscriptors(k);
      } else {
        k := entries[cls.name].kore;
        if k.marker == Some(false) {
          k.SetInitialValue(init);
          k.marker := None;
          subs.CallSubscriptors(k);
        }
      }
    }

    /** `destroyInstance(kore, force)`: drop the entry of the instance's
        class name when forced or when it has no listener left, and then
        call `instanceDeleted`; otherwise nothing happens. */
    method DestroyInstance(k: Kore, force: bool)
      requires Valid()
      modifies this`entries, this`hooks
      ensures Valid()
      ensures entries == Destroyed(old(entries), k.name, force)
      ensures hooks == old(hooks) + (if Destroys(old(entries), k.name, force) && k.hasInstanceDeleted then [Deleted(k)] else [])
    {
      var size := if k.name in entries && entries[k.name].listeners.Some? then |entries[k.name].listeners.value.order| else 0;
      if force || size == 0 {
        entries := entries - {k.name};
        if k.hasInstanceDeleted {
          hooks := hooks + [Deleted(k)];
        }
      }
    }

    /** The forwarding half of the installed dispatcher: call every listener
        of `name` with `(p, n)`. */
    method Forward(name: string, p: Val, n: Val) returns (ok: bool)
      requires Valid()
      modifies this`renders
      ensures renders == old(renders) + ForwardOf(entries, name, p, n).0
      ensures ok == ForwardOf(entries, name, p, n).1
    {
      ok := true;
      if name in entries && entries[name].listeners.Some? {
        var rs;
        rs, ok := ForwardTo(entries[name].listeners.value, p, n);
        renders := renders + rs;
      }
    }

    /** `kore._setState(value)` end to end: the new state is stored, then the
        installed dispatcher forwards `(oldState, newState)` to the
        listeners and, if none threw, calls the subscriptions. Before
        `initKore` installed the dispatcher the call throws after the
        assignment (`ok` is false). `id` is the identity a merge allocates. */
    method KoreSetState(k: Kore, value: Update, id: nat) returns (ok: bool)
      requires Valid()
      requires k.merge && k.state.Obj? ==> id != k.state.id
      modifies k`state, this`renders, subs`calls
      ensures k.state == NextState(k.merge, old(k.state), value, id)
      ensures !k.installed ==> !ok && renders == old(renders) && subs.calls == old(subs.calls)
      ensures k.installed ==>
        var f := ForwardOf(entries, k.name, old(k.state), k.state);
        ok == f.1 && renders == old(renders) + f.0
        && subs.calls == old(subs.calls) + (if ok then SubCalls(ListOf(subs.lists, k.name), k) else [])
    {
      var oldState, newState := k.ApplyUpdate(value, id);
      if !k.installed {
        return false;
      }
      ok := Forward(k.name, oldState, newState);
      if ok {
        subs.CallSubscriptors(k);
      }
    }
  }

  /** After `destroyInstance` removes an entry, the next `initKore` for that
      class name builds a new instance rather than returning the old one. */
  method DestroyThenInit(s: Store, k: Kore, cls: KoreClass, init: Initial) returns (k2: Kore)
    requires s.Valid() && cls.name == k.name && cls.name in s.entries && s.entries[cls.name].kore == k
    modifies s, s.subs
    ensures s.Valid() && fresh(k2) && k2 != k
    ensures s.entries == old(s.entries)[cls.name := Entry(k2, None)]
    ensures s.subs.lists == old(s.subs.lists)
    ensures s.subs.calls == old(s.subs.calls) + SubCalls(ListOf(s.subs.lists, cls.name), k2)
  {
    s.DestroyInstance(k, true);
    k2 := s.InitKore(cls, init);
  }

  /** A stale instance keeps the dispatcher installed on it: after its
      entry is destroyed and a new instance built, its `_setState` still
      forwards to the listeners stored under the class name (none, for the
      new entry) and calls the subscriptions with the stale instance, not
      with the one the registry holds. */
  method StaleInstanceSetState(s: Store, k: Kore, cls: KoreClass, init: Initial, value: Update, id: nat)
    returns (k2: Kore, ok: bool)
    requires s.Valid() && cls.name == k.name && cls.name in s.entries && s.entries[cls.name].kore == k
    requires k.installed && (k.merge && k.state.Obj? ==> id != k.state.id)
    modifies s, s.subs, k
    ensures fresh(k2) && k2 != k && cls.name in s.entries && s.entries[cls.name].kore == k2 && ok
    ensures s.subs.calls == old(s.subs.calls)
              + SubCalls(ListOf(s.subs.lists, cls.name), k2)
              + SubCalls(ListOf(s.subs.lists, cls.name), k)
  {
    k2 := DestroyThenInit(s, k, cls, init);
    ok := s.KoreSetState(k, value, id);
  }
}
