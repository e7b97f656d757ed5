/** The earlier compiled core of lib/main.js: `initFun` puts a Proxy in front
    of the object's `setState` actions. Reading an action through the Proxy
    yields an async wrapper that snapshots `state()`, awaits the action, and
    then, unless the result is the `cancelFun` sentinel, calls every listener
    with `(state(), old)`. */
module CjsVariant {
  import opened Values
  import opened Equality
  import opened Actions
  import opened ListenerSets
  import opened Partial
  import opened FunCore
  import opened EsmVariant

  /** How the promise an async wrapper returns settles. */
  datatype Resolution = Resolved(v: Val) | Rejected

  /** A wrapper call waiting at its `await`: the snapshot `old` taken before
      the call, and what the action returned. */
  datatype InFlight = InFlight(snapshot: Val, outcome: Outcome)

  /** What a property read through the Proxy yields: an async wrapper around
      an action, or the raw property. */
  datatype Member = AsyncWrapper(body: Action) | Raw(p: Prop)

  /** The Proxy's `get` trap: a function-valued property comes back wrapped,
      anything else as it is. Before `initFun` there is no Proxy. */
  function ReadThrough(p: Prop, proxied: bool): (m: Member)
    ensures m.AsyncWrapper? <==> proxied && p.Method?
    ensures m.AsyncWrapper? ==> m.body == p.body
    ensures m.Raw? ==> m.p == p
  {
    if proxied && p.Method? then AsyncWrapper(p.body) else Raw(p)
  }

  /** `{ ...fun.noSet, ...fun.setState }`: every name of either object, the
      `setState` one (read through the Proxy) winning on a clash. */
  function ActionSurface(noSet: map<string, Prop>, setState: map<string, Prop>, proxied: bool): (r: map<string, Member>)
    ensures r.Keys == noSet.Keys + setState.Keys
    ensures forall k :: k in setState ==> r[k] == ReadThrough(setState[k], proxied)
    ensures forall k :: k in noSet && k !in setState ==> r[k] == Raw(noSet[k])
  {
    map k | k in noSet.Keys + setState.Keys :: if k in setState then ReadThrough(setState[k], proxied) else Raw(noSet[k])
  }

  /** What `await func(...)` yields: the value returned or fulfilled, or
      `None` when the action threw. */
  function Awaited(out: Outcome): (s: Option<Settlement>)
    ensures s.None? <==> out.Throws?
    ensures out.Returns? ==> s == Some(Fulfils(out.v))
    ensures out.ReturnsNoUp? ==> s == Some(FulfilsNoUp(out.payload))
    ensures out.ReturnsPromise? ==> s == Some(out.settles)
  {
    match out
    case Returns(v) => Some(Fulfils(v))
    case ReturnsNoUp(p) => Some(FulfilsNoUp(p))
    case ReturnsPromise(_, s) => Some(s)
    case Throws => None
  }

  /** The rest of the wrapper after `await`, when `state()` reads `now`: a
      cancel sentinel returns its `returnValue` and broadcasts nothing; any
      other value broadcasts `(now, old)`, with no change check, and is
      returned; a thrown action rejects. */
  function ResumeEffect(snapshot: Val, now: Val, awaited: Option<Settlement>): (e: (Option<(Val, Val)>, Resolution))
    ensures awaited.None? ==> e == (None, Rejected)
    ensures awaited.Some? && awaited.value.FulfilsNoUp? ==> e == (None, Resolved(awaited.value.payload))
    ensures awaited.Some? && awaited.value.Fulfils? ==> e == (Some((now, snapshot)), Resolved(awaited.value.v))
  {
    match awaited
    case None => (None, Rejected)
    case Some(FulfilsNoUp(p)) => (None, Resolved(p))
    case Some(Fulfils(v)) => (Some((now, snapshot)), Resolved(v))
  }

  /** The wrapper awaits before looking at the result, so a promise that
      fulfils with the cancel sentinel suppresses the broadcast here, where
      `handlePromise` of src/main.ts ignores the fulfilled value and
      broadcasts on a change. */
  lemma CancelHonouredAfterAwait()
    ensures var before := Obj(0, map["a" := Num(1)]);
      var now := Obj(1, map["a" := Num(2)]);
      && ResumeEffect(before, now, Awaited(ReturnsPromise(s => now, FulfilsNoUp(Num(7))))) == (None, Resolved(Num(7)))
      && HandlePromise(before, now).broadcast == Some((now, before))
  {
    var before := Obj(0, map["a" := Num(1)]);
    var now := Obj(1, map["a" := Num(2)]);
    assert Get(before, "a") == Num(1) && now.fields["a"] == Num(2);
    assert Changed(before, now);
  }

  /** The listener `makeSelectDispatcher(select, setState)` builds, run on a
      broadcast of `(next, prev)`: the calls `setState(next)` it makes
      (`None`: reading a key of a null old selection threw). */
  function CjsSelectDispatches(select: Val -> Val, next: Val, prev: Val): (r: Option<seq<Val>>)
    ensures r.Some? ==> forall v :: v in r.value ==> v == next
    ensures select(next).Undef? != select(prev).Undef? ==> r == Some([next])
    ensures select(next).Undef? == select(prev).Undef? && !select(next).Obj? ==>
      r == Some(if SameValue(select(next), select(prev)) then [] else [next])
    ensures select(next).Undef? == select(prev).Undef? && select(next).Obj? && !IsNullish(select(prev)) ==>
      r == Some(Repeat(next, |DifferingKeys(select(prev), select(next))|))
    ensures select(next).Obj? && select(prev).Null? ==> (r.None? <==> select(next).fields.Keys != {})
  {
    var r := GateDispatches(SelectorGate(select), prev, next);
    GateHandsOverNewState(SelectorGate(select), prev, next);
    assert Repeat(next, 1) == [next];
    assert Repeat(next, 0) == [];
    r
  }

  /** For the same broadcast, where two keys of the selection change, this
      dispatcher calls `setState(next)` twice, while the one of
      lib/main.esm.js calls `setState(selection)` once. */
  lemma PerKeyVersusOnce()
    ensures var prev := Obj(0, map["item" := Obj(1, map["a" := Num(1), "b" := Num(1)])]);
      var next := Obj(2, map["item" := Obj(3, map["a" := Num(2), "b" := Num(2)])]);
      && CjsSelectDispatches(SelectItem, next, prev) == Some([next, next])
      && EsmSelectDispatch(SelectItem, next, prev) == Render(SelectItem(next))
  {
    var prev := Obj(0, map["item" := Obj(1, map["a" := Num(1), "b" := Num(1)])]);
    var next := Obj(2, map["item" := Obj(3, map["a" := Num(2), "b" := Num(2)])]);
    var o := SelectItem(prev);
    var n := SelectItem(next);
    assert o == Obj(1, map["a" := Num(1), "b" := Num(1)]);
    assert n == Obj(3, map["a" := Num(2), "b" := Num(2)]);
    assert DifferingKeys(o, n) == {"a", "b"} by {
      assert !SameValue(Get(o, "a"), n.fields["a"]);
      assert !SameValue(Get(o, "b"), n.fields["b"]);
    }
    assert |DifferingKeys(o, n)| == 2;
    assert Repeat(next, 2) == [next, next] by {
      assert Repeat(next, 0) == [];
    }
    assert Get(n, "a") == Num(2) && "a" in o.fields;
  }

  class CjsFun {
    /** What `fun.state()` returns now. */
    var st: Val
    /** The object behind `fun.setState`. */
    var setState: map<string, Prop>
    var noSet: map<string, Prop>
    /** Whether `fun.setState` is the Proxy `enableSet` made. */
    var proxied: bool
    /** `fun[listeners]`, absent until `initFun`. */
    var listeners: ListenerSet?
    /** Wrapper calls waiting at their `await`, in call order. */
    var inflight: seq<InFlight>

    ghost predicate Valid()
      reads this, listeners
    {
      && (listeners != null ==> listeners.Valid())
      && (proxied <==> listeners != null)
      && (forall k :: k in setState ==> !setState[k].Wrapped?)
    }

    constructor (st: Val, setState: map<string, Prop>, noSet: map<string, Prop>)
      requires forall k :: k in setState ==> !setState[k].Wrapped?
      ensures Valid() && listeners == null && !proxied && inflight == []
      ensures this.st == st && this.setState == setState && this.noSet == noSet
    {
      this.st := st;
      this.setState := setState;
      this.noSet := noSet;
      proxied := false;
      listeners := null;
      inflight := [];
    }

    /** `initFun(fun)`: the first call creates the listener set and the
        Proxy; later calls change nothing. Returns `state()` and the action
        surface. */
    method InitFun() returns (state: Val, actions: map<string, Member>)
      requires Valid()
      modifies this`listeners, this`proxied
      ensures Valid() && proxied
      ensures old(listeners) == null ==> fresh(listeners) && listeners.members == [] && listeners.calls == []
      ensures old(listeners) != null ==> listeners == old(listeners) && proxied == old(proxied)
      ensures state == st && actions == ActionSurface(noSet, setState, true)
    {
      if listeners == null {
        listeners := new ListenerSet();
        proxied := true;
      }
      state := st;
      actions := map k | k in noSet.Keys + setState.Keys ::
        if k in setState then ReadThrough(setState[k], proxied) else Raw(noSet[k]);
    }

    /** Calling the async wrapper for `setState[name]`: snapshot
        `old = state()`, run the action up to its `await`; the call's
        promise is `inflight[handle]`. */
    method Call(name: string, arg: Val) returns (handle: nat)
      requires Valid() && proxied && name in setState && setState[name].Method?
      modifies this`st, this`inflight
      ensures var step := setState[name].body(old(st), arg);
        st == step.state && inflight == old(inflight) + [InFlight(old(st), step.outcome)]
      ensures handle == |old(inflight)|
    {
      var snapshot := st;
      var step := setState[name].body(st, arg);
      st := step.state;
      handle := |inflight|;
      inflight := inflight + [InFlight(snapshot, step.outcome)];
    }

    /** The `await` of `inflight[i]` completes: a returned promise first does
        the rest of its work on the state, then `ResumeEffect` decides the
        broadcast and the settlement. */
    method Resume(i: nat) returns (r: Resolution)
      requires Valid() && proxied && i < |inflight|
      modifies this`st, this`inflight, listeners`calls
      ensures Valid() && listeners == old(listeners)
      ensures inflight == old(inflight[..i] + inflight[i + 1..])
      ensures old(inflight[i]).outcome.ReturnsPromise? ==> st == old(inflight[i].outcome.rest(st))
      ensures !old(inflight[i]).outcome.ReturnsPromise? ==> st == old(st)
      ensures var e := ResumeEffect(old(inflight[i]).snapshot, st, Awaited(old(inflight[i]).outcome));
        r == e.1 && listeners.calls == old(listeners.calls) + Fanned(listeners.members, e.0)
    {
      var c := inflight[i];
      inflight := inflight[..i] + inflight[i + 1..];
      if c.outcome.ReturnsPromise? {
        st := c.outcome.rest(st);
      }
      match c.outcome
      case Throws =>
        r := Rejected;
      case ReturnsNoUp(p) =>
        r := Resolved(p);
      case ReturnsPromise(_, FulfilsNoUp(p)) =>
        r := Resolved(p);
      case Returns(v) =>
        listeners.Dispatch(st, c.snapshot);
        r := Resolved(v);
      case ReturnsPromise(_, Fulfils(v)) =>
        listeners.Dispatch(st, c.snapshot);
        r := Resolved(v);
    }

    /** `mounting`: add the listener when the set exists (`?.`), and hand
        back the reference its cleanup deletes. */
    method Mounting(sst: Ref) returns (cleanup: Ref)
      requires Valid()
      modifies listeners
      ensures Valid() && cleanup == sst
      ensures listeners != null ==> listeners.members == Added(old(listeners.members), sst)
      ensures listeners != null ==> listeners.calls == old(listeners.calls)
    {
      if listeners != null {
        listeners.Add(sst);
      }
      cleanup := sst;
    }

    /** The cleanup: delete the same reference when the set exists. */
    method Cleanup(sst: Ref)
      requires Valid()
      modifies listeners
      ensures Valid()
      ensures listeners != null ==> listeners.members == Removed(old(listeners.members), sst)
      ensures listeners != null ==> listeners.calls == old(listeners.calls)
    {
      if listeners != null {
        listeners.Delete(sst);
      }
    }
  }

  /** Two overlapping calls each report the snapshot taken before their own
      call. `a` starts from `s0`, leaves `s1` and returns a promise that is
      still pending; `b` starts from `s1`, leaves `s2` and returns a plain
      value. Awaiting a plain value completes after one microtask, so `b`
      resumes while `a`'s promise is pending and broadcasts `(s2, s1)`. When
      `a`'s promise later fulfils, its remaining work leaves `s3` and `a`
      broadcasts `(s3, s0)`: the later broadcast reports an older snapshot
      than the one before it. */
  method OverlappingCalls(f: CjsFun, a: string, b: string, x: Val, y: Val) returns (ra: Resolution, rb: Resolution)
    requires f.Valid() && f.proxied && f.inflight == []
    requires a in f.setState && f.setState[a].Method? && b in f.setState && f.setState[b].Method?
    requires forall s, v :: f.setState[a].body(s, v).outcome.ReturnsPromise? && f.setState[a].body(s, v).outcome.settles.Fulfils?
    requires forall s, v :: f.setState[b].body(s, v).outcome.Returns?
    modifies f, f.listeners
    ensures f.inflight == [] && f.listeners == old(f.listeners) && f.setState == old(f.setState)
    ensures var sa := f.setState[a].body(old(f.st), x);
      var s2 := f.setState[b].body(sa.state, y).state;
      var s3 := sa.outcome.rest(s2);
      f.st == s3
      && ra == Resolved(sa.outcome.settles.v) && rb == Resolved(f.setState[b].body(sa.state, y).outcome.v)
      && f.listeners.calls == old(f.listeners.calls) + Fanout(f.listeners.members, s2, sa.state) + Fanout(f.listeners.members, s3, old(f.st))
  {
    var ha := f.Call(a, x);
    var hb := f.Call(b, y);
    rb := f.Resume(hb);
    ra := f.Resume(ha);
  }
}
