/** The function-object core of src/main.ts: `fun` instruments a holder so that
    every tracked action broadcasts `(next, prev)` to the holder's listener
    set; `init` and `mounting` bind consumers to it. */
module FunCore {
  import opened Values
  import opened Equality
  import opened Actions
  import opened ListenerSets

  /** An own property of the function-object. `Wrapped` is a wrapper this
      holder's `fun` installed around the original body. */
  datatype Prop = Data(v: Val) | Method(body: Action) | Wrapped(body: Action)

  /** What a call of a property returns to its caller. */
  datatype Ret =
    | Returned(v: Val)
      /** the cancel sentinel object itself, from a method `fun` did not wrap */
    | ReturnedNoUp(payload: Val)
    | ReturnedPromise
    | Raised

  /** The effect of one wrapper run (or one `handlePromise` run): the pair it
      broadcast, if any, the new value of the closure variable `prev`, and what
      the caller gets. */
  datatype Effect = Effect(broadcast: Option<(Val, Val)>, prev: Val, ret: Ret)

  /** A settlement still to come: what the body does to the state before its
      promise fulfils, and whether a wrapper attached `handlePromise` to it. */
  datatype Continuation = Continuation(rest: Val -> Val, handled: bool)

  predicate EndsWithUnderscore(key: string) {
    |key| > 0 && key[|key| - 1] == '_'
  }

  /** The filter of `fun`: own function-valued properties other than `state`
      whose names do not end in `_`. */
  predicate Tracked(key: string, p: Prop) {
    p.Method? && key != "state" && !EndsWithUnderscore(key)
  }

  /** The properties after `fun` replaced the tracked ones. */
  function Instrumented(props: map<string, Prop>): map<string, Prop> {
    map k | k in props :: if Tracked(k, props[k]) then Wrapped(props[k].body) else props[k]
  }

  /** What the wrapper does once the original body has returned `out`, leaving
      the state at `next`, when the closure variable holds `prev`. */
  function WrapperEffect(prev: Val, next: Val, out: Outcome): (e: Effect)
    ensures e.broadcast.Some? ==> e.broadcast.value == (next, prev) && e.prev == next
    ensures e.broadcast.None? ==> e.prev == prev
    ensures out.Returns? ==> e == Effect(Some((next, prev)), next, Returned(out.v))
    ensures out.ReturnsNoUp? ==> e == Effect(None, prev, Returned(out.payload))
    ensures out.ReturnsPromise? ==>
              (e.broadcast.Some? <==> !ChangeThrows(prev, next) && Changed(prev, next)) &&
              (e.ret == Raised <==> ChangeThrows(prev, next)) &&
              (e.ret != Raised ==> e.ret == ReturnedPromise)
    ensures out.Throws? ==> e == Effect(None, prev, Raised)
  {
    match out
    case Throws => Effect(None, prev, Raised)
    case ReturnsPromise(_, _) =>
      if ChangeThrows(prev, next) then Effect(None, prev, Raised)
      else if !Changed(prev, next) then Effect(None, prev, ReturnedPromise)
      else Effect(Some((next, prev)), next, ReturnedPromise)
    case ReturnsNoUp(payload) => Effect(None, prev, Returned(payload))
    case Returns(v) => Effect(Some((next, prev)), next, Returned(v))
  }

  /** `handlePromise`, run when a wrapped call's promise fulfils and the state
      is `next`; `Raised` stands for the TypeError `change` throws, which
      rejects the promise `then` returned. */
  function HandlePromise(prev: Val, next: Val): (e: Effect)
    ensures e.ret == Raised <==> ChangeThrows(prev, next)
    ensures e.broadcast.Some? <==> !ChangeThrows(prev, next) && Changed(prev, next)
    ensures e.broadcast.Some? ==> e.broadcast.value == (next, prev) && e.prev == next
    ensures e.broadcast.None? ==> e.prev == prev
  {
    if ChangeThrows(prev, next) then Effect(None, prev, Raised)
    else if Changed(prev, next) then Effect(Some((next, prev)), next, Returned(Undef))
    else Effect(None, prev, Returned(Undef))
  }

  /** One step in the life of an instrumented holder: a call of a wrapped
      action that left the state at `next`, or a `handlePromise` run while the
      state is `next`. */
  datatype Event = Invoke(next: Val, out: Outcome) | Settle(next: Val)

  function EventEffect(prev: Val, ev: Event): Effect {
    match ev
    case Invoke(next, out) => WrapperEffect(prev, next, out)
    case Settle(next) => HandlePromise(prev, next)
  }

  function Pairs(b: Option<(Val, Val)>): seq<(Val, Val)> {
    if b.Some? then [b.value] else []
  }

  /** The broadcasts a sequence of events makes, and the final `prev`. */
  function Run(prev: Val, evs: seq<Event>): (r: (seq<(Val, Val)>, Val))
    decreases |evs|
  {
    if evs == [] then ([], prev)
    else
      var e := EventEffect(prev, evs[0]);
      var rest := Run(e.prev, evs[1..]);
      (Pairs(e.broadcast) + rest.0, rest.1)
  }

  /** `bs` is a chain starting at `prev`: each pair reports as its previous
      snapshot the `next` of the pair before it (the first one: `prev`). */
  predicate Chained(prev: Val, bs: seq<(Val, Val)>)
    decreases |bs|
  {
    bs == [] || (bs[0].1 == prev && Chained(bs[0].0, bs[1..]))
  }

  /** The `next` of the last pair of a chain, or `prev` for an empty one. */
  function LastNext(prev: Val, bs: seq<(Val, Val)>): Val
    decreases |bs|
  {
    if bs == [] then prev else LastNext(bs[0].0, bs[1..])
  }

  /** `Run` on a sequence that starts with `ev`. */
  lemma RunFirst(prev: Val, ev: Event, evs: seq<Event>)
    ensures var e := EventEffect(prev, ev);
      Run(prev, [ev] + evs) == (Pairs(e.broadcast) + Run(e.prev, evs).0, Run(e.prev, evs).1)
  {
    assert ([ev] + evs)[0] == ev && ([ev] + evs)[1..] == evs;
  }

  /** No drift: whatever mix of wrapped calls and settlements runs, the
      broadcasts form a chain from the snapshot `fun` took, and `prev` ends as
      the last `next` broadcast (unchanged when nothing was broadcast), so a
      change that was not broadcast is never forgotten. */
  lemma {:induction false} BroadcastsChain(prev: Val, evs: seq<Event>)
    ensures Chained(prev, Run(prev, evs).0)
    ensures Run(prev, evs).1 == LastNext(prev, Run(prev, evs).0)
    decreases |evs|
  {
    if evs != [] {
      var e := EventEffect(prev, evs[0]);
      BroadcastsChain(e.prev, evs[1..]);
      var rest := Run(e.prev, evs[1..]);
      RunFirst(prev, evs[0], evs[1..]);
      assert [evs[0]] + evs[1..] == evs;
      if e.broadcast.Some? {
        var bs := [e.broadcast.value] + rest.0;
        assert bs[0] == e.broadcast.value && bs[1..] == rest.0;
        assert e.broadcast.value.1 == prev && e.broadcast.value.0 == e.prev;
      } else {
        assert Pairs(e.broadcast) + rest.0 == rest.0;
      }
    }
  }

  /** A synchronous call always broadcasts exactly once, even when the state
      did not change; repeating it with an unchanged state broadcasts again. */
  lemma SyncCallsAlwaysBroadcast(prev: Val, next: Val, v1: Val, v2: Val)
    ensures Run(prev, [Invoke(next, Returns(v1)), Invoke(next, Returns(v2))]).0
            == [(next, prev), (next, next)]
  {
    RunFirst(next, Invoke(next, Returns(v2)), []);
    RunFirst(prev, Invoke(next, Returns(v1)), [Invoke(next, Returns(v2))]);
    assert [Invoke(next, Returns(v1))] + [Invoke(next, Returns(v2))]
        == [Invoke(next, Returns(v1)), Invoke(next, Returns(v2))];
    assert [Invoke(next, Returns(v2))] + [] == [Invoke(next, Returns(v2))];
  }

  /** A cancelled call broadcasts nothing and leaves `prev` alone, so the next
      broadcast reports the snapshot from before the cancelled call. */
  lemma CancelKeepsPrev(prev: Val, n1: Val, n2: Val, payload: Val, v: Val)
    ensures Run(prev, [Invoke(n1, ReturnsNoUp(payload)), Invoke(n2, Returns(v))]) == ([(n2, prev)], n2)
  {
    RunFirst(prev, Invoke(n2, Returns(v)), []);
    RunFirst(prev, Invoke(n1, ReturnsNoUp(payload)), [Invoke(n2, Returns(v))]);
    assert [Invoke(n1, ReturnsNoUp(payload))] + [Invoke(n2, Returns(v))]
        == [Invoke(n1, ReturnsNoUp(payload)), Invoke(n2, Returns(v))];
    assert [Invoke(n2, Returns(v))] + [] == [Invoke(n2, Returns(v))];
    assert [(n2, prev)] + [] == [(n2, prev)];
    assert Run(prev, [Invoke(n2, Returns(v))]) == ([(n2, prev)], n2);
    assert [] + [(n2, prev)] == [(n2, prev)];
  }

  /** Deferred settlement ordering: an async action that changed the state
      synchronously and again before it fulfils broadcasts `(n1, prev)` at once
      and `(n2, n1)` on settlement, in that order. */
  lemma DeferredAfterSync(prev: Val, n1: Val, n2: Val, rest: Val -> Val, s: Settlement)
    requires !ChangeThrows(prev, n1) && Changed(prev, n1)
    requires !ChangeThrows(n1, n2) && Changed(n1, n2)
    ensures Run(prev, [Invoke(n1, ReturnsPromise(rest, s)), Settle(n2)]) == ([(n1, prev), (n2, n1)], n2)
  {
    RunFirst(n1, Settle(n2), []);
    RunFirst(prev, Invoke(n1, ReturnsPromise(rest, s)), [Settle(n2)]);
    assert [Invoke(n1, ReturnsPromise(rest, s))] + [Settle(n2)]
        == [Invoke(n1, ReturnsPromise(rest, s)), Settle(n2)];
    assert [Settle(n2)] + [] == [Settle(n2)];
    assert [(n2, n1)] + [] == [(n2, n1)];
    assert Run(n1, [Settle(n2)]) == ([(n2, n1)], n2);
    assert [(n1, prev)] + [(n2, n1)] == [(n1, prev), (n2, n1)];
  }

  /** The broadcast an effect makes, as calls on the listener set. */
  function Fanned(members: seq<Ref>, b: Option<(Val, Val)>): seq<Call> {
    if b.Some? then Fanout(members, b.value.0, b.value.1) else []
  }

  /** The function-object: the holder's state (what `state()` returns), its
      own properties, the hidden listener set, the closure variable `prev` of
      `fun`, and the settlements still to come. */
  class FunObject {
    var st: Val
    var props: map<string, Prop>
    var listeners: ListenerSet?
    var prev: Val
    var pending: seq<Continuation>

    ghost predicate Valid()
      reads this, listeners
    {
      && (listeners != null ==> listeners.Valid())
      && (forall k :: k in props && props[k].Wrapped? ==> listeners != null)
    }

    /** A plain holder, not yet instrumented. */
    constructor (st: Val, props: map<string, Prop>)
      requires forall k :: k in props ==> !props[k].Wrapped?
      ensures Valid() && listeners == null
      ensures this.st == st && this.props == props && pending == []
    {
      this.st := st;
      this.props := props;
      listeners := null;
      prev := Undef;
      pending := [];
    }

    /** `fun(funObj)`: a fresh listener set, `prev := state()`, and every
        tracked property replaced by its wrapper. */
    method Fun()
      requires Valid() && listeners == null
      modifies this
      ensures Valid() && listeners != null && fresh(listeners)
      ensures listeners.members == [] && listeners.calls == []
      ensures prev == st && st == old(st) && pending == old(pending)
      ensures props == Instrumented(old(props))
    {
      listeners := new ListenerSet();
      prev := st;
      var todo := props.Keys;
      while todo != {}
        invariant todo <= props.Keys && props.Keys == old(props).Keys
        invariant forall k :: k in props && k in todo ==> props[k] == old(props)[k]
        invariant forall k :: k in props && k !in todo ==> props[k] == Instrumented(old(props))[k]
        invariant listeners != null && listeners.Valid() && fresh(listeners)
        invariant listeners.members == [] && listeners.calls == []
        invariant prev == st && st == old(st) && pending == old(pending)
        decreases todo
      {
        var key :| key in todo;
        var p := props[key];
        if p.Method? && key != "state" && !EndsWithUnderscore(key) {
          props := props[key := Wrapped(p.body)];
        }
        todo := todo - {key};
      }
    }

    /** `funObj[name](arg)`: a wrapper runs the original body and then does
        `WrapperEffect`; an unwrapped method just runs; a data property is not
        callable. */
    method CallProp(name: string, arg: Val) returns (r: Ret)
      requires Valid() && name in props
      modifies this, listeners
      ensures Valid() && props == old(props) && listeners == old(listeners)
      ensures listeners != null ==> listeners.members == old(listeners.members)
      ensures old(props[name]).Data? ==>
                r == Raised && st == old(st) && prev == old(prev) && pending == old(pending) &&
                (listeners != null ==> listeners.calls == old(listeners.calls))
      ensures !old(props[name]).Data? ==>
                var step := old(props[name]).body(old(st), arg);
                && st == step.state
                && pending == old(pending) +
                     (if step.outcome.ReturnsPromise?
                      then [Continuation(step.outcome.rest, old(props[name]).Wrapped?)] else [])
                && (old(props[name]).Method? ==>
                      && prev == old(prev)
                      && (listeners != null ==> listeners.calls == old(listeners.calls))
                      && r == match step.outcome
                              case Returns(v) => Returned(v)
                              case ReturnsNoUp(p) => ReturnedNoUp(p)
                              case ReturnsPromise(_, _) => ReturnedPromise
                              case Throws => Raised)
                && (old(props[name]).Wrapped? ==>
                      var e := WrapperEffect(old(prev), step.state, step.outcome);
                      && prev == e.prev && r == e.ret
                      && listeners.calls == old(listeners.calls) + Fanned(listeners.members, e.broadcast))
    {
      match props[name]
      case Data(_) =>
        r := Raised;
      case Method(body) =>
        var step := body(st, arg);
        st := step.state;
        match step.outcome {
          case Returns(v) => r := Returned(v);
          case ReturnsNoUp(p) => r := ReturnedNoUp(p);
          case ReturnsPromise(rest, _) =>
            pending := pending + [Continuation(rest, false)];
            r := ReturnedPromise;
          case Throws => r := Raised;
        }
      case Wrapped(body) =>
        var step := body(st, arg);
        st := step.state;
        var next := st;
        match step.outcome
        case Throws =>
          r := Raised;
        case ReturnsPromise(rest, _) =>
          pending := pending + [Continuation(rest, true)];
          var c := ComputeChange(prev, next);
          if c.None? {
            r := Raised;
          } else if !c.value {
            r := ReturnedPromise;
          } else {
            listeners.Dispatch(next, prev);
            prev := next;
            r := ReturnedPromise;
          }
        case ReturnsNoUp(p) =>
          r := Returned(p);
        case Returns(v) =>
          listeners.Dispatch(next, prev);
          prev := next;
          r := Returned(v);
    }

    /** The `i`-th outstanding promise fulfils: the body finishes its work on
        the state, then `handlePromise` runs if a wrapper attached it. */
    method Settle(i: nat)
      requires Valid() && i < |pending|
      requires pending[i].handled ==> listeners != null
      modifies this, listeners
      ensures Valid() && props == old(props) && listeners == old(listeners)
      ensures listeners != null ==> listeners.members == old(listeners.members)
      ensures pending == old(pending[..i] + pending[i + 1..])
      ensures st == old(pending[i].rest(st))
      ensures !old(pending[i].handled) ==>
                prev == old(prev) && (listeners != null ==> listeners.calls == old(listeners.calls))
      ensures old(pending[i].handled) ==>
                var e := HandlePromise(old(prev), st);
                prev == e.prev && listeners.calls == old(listeners.calls) + Fanned(listeners.members, e.broadcast)
    {
      var c := pending[i];
      pending := pending[..i] + pending[i + 1..];
      st := c.rest(st);
      if c.handled {
        var next := st;
        var ch := ComputeChange(prev, next);
        if ch.Some? && ch.value {
          listeners.Dispatch(next, prev);
          prev := next;
        }
      }
    }

    /** `mounting`: add the consumer's listener (its setter, or the selector
        dispatcher made for this mount) and hand back the reference the
        cleanup deletes. The listener set must exist (`fun[listeners]!`). */
    method Mounting(sst: Ref) returns (cleanup: Ref)
      requires Valid() && listeners != null
      modifies listeners`members
      ensures Valid() && cleanup == sst
      ensures listeners.members == Added(old(listeners.members), sst)
    {
      listeners.Add(sst);
      cleanup := sst;
    }

    /** The cleanup `mounting` returns: delete that same reference. */
    method Cleanup(sst: Ref)
      requires Valid() && listeners != null
      modifies listeners`members
      ensures Valid() && listeners.members == Removed(old(listeners.members), sst)
    {
      listeners.Delete(sst);
    }
  }

  /** What `init` is handed, after `isConstructor` told a class from a
      factory: a ready function-object, a factory, or a class. */
  datatype Source =
    | Instance(h: FunObject)
      /** `funT()`: `made` is what the factory returns */
    | Factory(made: Made)
      /** `new funT()`: always a new object with this state and these own properties */
    | Constructor(st: Val, props: map<string, Prop>)

  /** What a factory returns: a function-object that already exists (shared
      across consumers), or a new one. */
  datatype Made = Existing(h: FunObject) | Built(st: Val, props: map<string, Prop>)

  /** The object `init` resolves to when it already exists. */
  function ExistingHolder(src: Source): Option<FunObject> {
    match src
    case Instance(h) => Some(h)
    case Factory(Existing(h)) => Some(h)
    case _ => None
  }

  /** The state and properties of the object `init` resolves to when it is new. */
  function NewParts(src: Source): (Val, map<string, Prop>)
    requires ExistingHolder(src).None?
  {
    match src
    case Factory(Built(st, props)) => (st, props)
    case Constructor(st, props) => (st, props)
  }

  /** `init`: resolve the holder, instrument it unless it already has a
      listener set, and return `select(state())` or `state()` beside it. */
  method Init(src: Source, select: Option<Val -> Val>) returns (value: Val, h: FunObject)
    requires ExistingHolder(src).Some? ==> ExistingHolder(src).value.Valid()
    requires ExistingHolder(src).None? ==>
               forall k :: k in NewParts(src).1 ==> !NewParts(src).1[k].Wrapped?
    modifies if ExistingHolder(src).Some? then {ExistingHolder(src).value} else {}
    ensures h.Valid() && h.listeners != null
    ensures value == if select.Some? then select.value(h.st) else h.st
    ensures ExistingHolder(src).Some? ==> h == ExistingHolder(src).value
    ensures ExistingHolder(src).Some? && old(ExistingHolder(src).value.listeners) != null ==>
              unchanged(h)
    ensures ExistingHolder(src).Some? && old(ExistingHolder(src).value.listeners) == null ==>
              && fresh(h.listeners) && h.listeners.members == []
              && h.st == old(h.st) && h.prev == h.st && h.pending == old(h.pending)
              && h.props == Instrumented(old(h.props))
    ensures ExistingHolder(src).None? ==>
              && fresh(h) && fresh(h.listeners) && h.listeners.members == []
              && h.st == NewParts(src).0 && h.prev == h.st && h.pending == []
              && h.props == Instrumented(NewParts(src).1)
  {
    match src {
      case Instance(x) => h := x;
      case Factory(Existing(x)) => h := x;
      case Factory(Built(st, props)) =>
        assert NewParts(src) == (st, props);
        h := new FunObject(st, props);
      case Constructor(st, props) =>
        assert NewParts(src) == (st, props);
        h := new FunObject(st, props);
    }
    if h.listeners == null {
      h.Fun();
    }
    value := if select.Some? then select.value(h.st) else h.st;
  }

  /** What one run of a selector dispatcher does with React's `setState`. */
  datatype Decision = Render(v: Val) | Skip | Raise

  /** The listener `makeSelectDispatcher(select, setState)` builds, run on a
      broadcast of `(next, prev)`: it calls `change(newSelector, oldSelector)`,
      so the keys of the OLD selection are the ones compared, and a TypeError
      escapes when the old selection is an object and the new one is
      undefined or null. */
  function SelectDispatch(select: Val -> Val, next: Val, prev: Val): (d: Decision)
    ensures d.Raise? <==> ChangeThrows(select(next), select(prev))
    ensures d.Render? <==> !ChangeThrows(select(next), select(prev)) && Changed(select(next), select(prev))
    ensures d.Render? ==> d.v == select(next)
  {
    var oldSelector := select(prev);
    var newSelector := select(next);
    if ChangeThrows(newSelector, oldSelector) then Raise
    else if Changed(newSelector, oldSelector) then Render(newSelector)
    else Skip
  }

  /** The selector `s => s.item`. */
  function SelectItem(s: Val): Val {
    if IsNullish(s) then Undef else Get(s, "item")
  }

  /** When the selected slice goes from `{a: 1}` to undefined, the selector
      dispatcher throws instead of re-rendering. */
  lemma SelectDispatchRaisesOnVanishedSlice()
    ensures var prev := Obj(0, map["item" := Obj(1, map["a" := Num(1)])]);
            var next := Obj(2, map[]);
            SelectDispatch(SelectItem, next, prev) == Raise
  {
    var prev := Obj(0, map["item" := Obj(1, map["a" := Num(1)])]);
    var next := Obj(2, map[]);
    assert SelectItem(prev) == Obj(1, map["a" := Num(1)]);
    assert "a" in SelectItem(prev).fields;
  }

  /** When the selected slice gains a key, from `{a: 1}` to `{a: 1, b: 2}`,
      the selector dispatcher does not re-render. */
  lemma SelectDispatchMissesAddedKey()
    ensures var prev := Obj(0, map["item" := Obj(1, map["a" := Num(1)])]);
            var next := Obj(2, map["item" := Obj(3, map["a" := Num(1), "b" := Num(2)])]);
            SelectDispatch(SelectItem, next, prev) == Skip
  {
    var prev := Obj(0, map["item" := Obj(1, map["a" := Num(1)])]);
    var next := Obj(2, map["item" := Obj(3, map["a" := Num(1), "b" := Num(2)])]);
    var o := SelectItem(prev);
    var n := SelectItem(next);
    assert o.fields.Keys == {"a"};
    assert !Changed(n, o) by {
      forall k | k in o.fields
        ensures SameValue(Get(n, k), o.fields[k])
      {
        assert k == "a";
      }
    }
  }

  /** The selector dispatcher as evidently intended: a slice that appears or
      disappears always re-renders, and otherwise the new slice is compared
      key by key against the old one, as `fun` compares `next` against `prev`. */
  function GuardedSelectDispatch(select: Val -> Val, next: Val, prev: Val): (d: Decision)
    ensures !d.Raise?
    ensures d.Render? <==>
              || IsNullish(select(next)) != IsNullish(select(prev))
              || (IsNullish(select(next)) == IsNullish(select(prev)) && Changed(select(prev), select(next)))
    ensures d.Render? ==> d.v == select(next)
  {
    var oldSelector := select(prev);
    var newSelector := select(next);
    if IsNullish(newSelector) != IsNullish(oldSelector) then Render(newSelector)
    else if Changed(oldSelector, newSelector) then Render(newSelector)
    else Skip
  }

  /** The guarded dispatcher re-renders on both inputs the as-written one
      gets wrong. */
  lemma GuardedSelectDispatchRendersBoth()
    ensures var prev := Obj(0, map["item" := Obj(1, map["a" := Num(1)])]);
            GuardedSelectDispatch(SelectItem, Obj(2, map[]), prev).Render?
    ensures var prev := Obj(0, map["item" := Obj(1, map["a" := Num(1)])]);
            var next := Obj(2, map["item" := Obj(3, map["a" := Num(1), "b" := Num(2)])]);
            GuardedSelectDispatch(SelectItem, next, prev).Render?
  {
    var prev := Obj(0, map["item" := Obj(1, map["a" := Num(1)])]);
    var next := Obj(2, map["item" := Obj(3, map["a" := Num(1), "b" := Num(2)])]);
    var o := SelectItem(prev);
    var n := SelectItem(next);
    assert SelectItem(Obj(2, map[])) == Undef;
    assert "b" in n.fields && Get(o, "b") == Undef;
  }

  /** A holder whose state starts undefined and becomes an object when an
      async action fulfils: `handlePromise` throws inside the `then` callback,
      so the change is never broadcast. */
  lemma HandlePromiseRaisesFromUndefined()
    ensures var e := HandlePromise(Undef, Obj(0, map["items" := Num(3)]));
            e.ret == Raised && e.broadcast.None? && e.prev == Undef
  {
    assert "items" in Obj(0, map["items" := Num(3)]).fields;
  }

  /** `handlePromise` as evidently intended: it never throws, and a state that
      appears where there was none counts as a change. */
  function GuardedHandlePromise(prev: Val, next: Val): (e: Effect)
    ensures e.ret != Raised
    ensures e.broadcast.Some? <==> ChangeThrows(prev, next) || Changed(prev, next)
    ensures e.broadcast.Some? ==> e.broadcast.value == (next, prev) && e.prev == next
    ensures e.broadcast.None? ==> e.prev == prev
  {
    if ChangeThrows(prev, next) || Changed(prev, next) then Effect(Some((next, prev)), next, Returned(Undef))
    else Effect(None, prev, Returned(Undef))
  }

  /** The guarded `handlePromise` broadcasts where the as-written one throws. */
  lemma GuardedHandlePromiseBroadcastsFirstObject()
    ensures GuardedHandlePromise(Undef, Obj(0, map["items" := Num(3)])).broadcast
            == Some((Obj(0, map["items" := Num(3)]), Undef))
  {
    assert "items" in Obj(0, map["items" := Num(3)]).fields;
  }
}
