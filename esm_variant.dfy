/** The earlier compiled core of lib/main.esm.js: `fun(fn, funA, funB)`
    builds a new function-object around a state getter `fn`. Action objects
    are wrapped so that every call broadcasts `(fn(), prev)` with no change
    check; action factories receive a `set` callback instead. */
module EsmVariant {
  import opened Values
  import opened Equality
  import opened Actions
  import opened ListenerSets
  import opened FunCore

  /** An argument `funA` / `funB` of `fun`: an object of actions (wrapped by
      `mutate`), or a function called with `set` whose result is merged as
      it is; `props` is that result. */
  datatype Part = ActionObject(props: map<string, Prop>) | SetFactory(props: map<string, Prop>)

  predicate Unwrapped(m: map<string, Prop>) {
    forall k :: k in m ==> !m[k].Wrapped?
  }

  /** `mutate(obj)`: every own function-valued property replaced by its
      wrapper, with no name filter. */
  function Mutated(m: map<string, Prop>): map<string, Prop> {
    map k | k in m :: if m[k].Method? then Wrapped(m[k].body) else m[k]
  }

  /** What `Object.assign` copies from one argument. */
  function Prepared(part: Part): map<string, Prop> {
    match part
    case ActionObject(props) => Mutated(props)
    case SetFactory(made) => made
  }

  /** The properties of the built object: `funA`'s, then `funB`'s, which win
      on a shared name. */
  function Surface(funA: Part, funB: Option<Part>): (r: map<string, Prop>)
    ensures funB.None? ==> r == Prepared(funA)
    ensures funB.Some? ==> r.Keys == Prepared(funA).Keys + Prepared(funB.value).Keys
    ensures funB.Some? ==> forall k :: k in Prepared(funB.value) ==> r[k] == Prepared(funB.value)[k]
    ensures funB.Some? ==> forall k :: k in Prepared(funA) && k !in Prepared(funB.value) ==> r[k] == Prepared(funA)[k]
  {
    if funB.None? then Prepared(funA) else Prepared(funA) + Prepared(funB.value)
  }

  /** `mutate`: the loop over the own property names. */
  method Mutate(m: map<string, Prop>) returns (r: map<string, Prop>)
    ensures r.Keys == m.Keys
    ensures forall k :: k in m && m[k].Method? ==> r[k] == Wrapped(m[k].body)
    ensures forall k :: k in m && !m[k].Method? ==> r[k] == m[k]
  {
    r := m;
    var todo := m.Keys;
    while todo != {}
      invariant todo <= m.Keys && r.Keys == m.Keys
      invariant forall k :: k in todo ==> r[k] == m[k]
      invariant forall k :: k in m && k !in todo ==> r[k] == Mutated(m)[k]
      decreases todo
    {
      var key :| key in todo;
      if m[key].Method? {
        r := r[key := Wrapped(m[key].body)];
      }
      todo := todo - {key};
    }
    assert r == Mutated(m);
  }

  /** The two `Object.assign` calls of `fun`: `funA` prepared, then `funB`
      (when given) prepared on top. */
  method Assign(funA: Part, funB: Option<Part>) returns (props: map<string, Prop>)
    ensures props == Surface(funA, funB)
  {
    props := funA.props;
    if funA.ActionObject? {
      props := Mutate(funA.props);
    }
    if funB.Some? {
      var b := funB.value.props;
      if funB.value.ActionObject? {
        b := Mutate(b);
      }
      props := props + b;
    }
  }

  /** Unlike `fun` of src/main.ts, `mutate` also wraps an action named
      `state` or ending in `_`. */
  lemma MutateWrapsUntrackedNames(body: Action)
    ensures Mutated(map["state" := Method(body)])["state"].Wrapped?
    ensures Instrumented(map["state" := Method(body)])["state"] == Method(body)
    ensures Mutated(map["reset_" := Method(body)])["reset_"].Wrapped?
    ensures Instrumented(map["reset_" := Method(body)])["reset_"] == Method(body)
  {
    assert EndsWithUnderscore("reset_");
  }

  /** What a wrapper does once the original body returned `out` and the
      getter reads `next`: broadcast `(next, prev)` unless the body threw,
      with no change check and no cancel sentinel, and return the body's
      result. */
  function EsmWrapperEffect(prev: Val, next: Val, out: Outcome): (e: Effect)
    ensures out.Throws? <==> e.ret == Raised
    ensures out.Throws? ==> e.broadcast.None? && e.prev == prev
    ensures !out.Throws? ==> e.broadcast == Some((next, prev)) && e.prev == next
    ensures out.Returns? ==> e.ret == Returned(out.v)
    ensures out.ReturnsNoUp? ==> e.ret == ReturnedNoUp(out.payload)
    ensures out.ReturnsPromise? ==> e.ret == ReturnedPromise
  {
    match out
    case Throws => Effect(None, prev, Raised)
    case Returns(v) => Effect(Some((next, prev)), next, Returned(v))
    case ReturnsNoUp(p) => Effect(Some((next, prev)), next, ReturnedNoUp(p))
    case ReturnsPromise(_, _) => Effect(Some((next, prev)), next, ReturnedPromise)
  }

  /** Two wrapped calls in a row that leave the state alone still broadcast
      twice, each time `(s, s)`. */
  lemma EveryCallBroadcasts(s: Val, v: Val, w: Val)
    ensures var e1 := EsmWrapperEffect(s, s, Returns(v));
      var e2 := EsmWrapperEffect(e1.prev, s, Returns(w));
      e1.broadcast == Some((s, s)) && e2.broadcast == Some((s, s))
  {
  }

  /** `set(rv)`'s result: `rv` if truthy, otherwise `undefined`. */
  function SetResult(rv: Val): (r: Val)
    ensures Truthy(r) || r == Undef
    ensures Truthy(rv) ==> r == rv
    ensures !Truthy(rv) ==> r == Undef
  {
    if Truthy(rv) then rv else Undef
  }

  /** The listener `makeSelectDispatcher(select, setState)` builds: an
      undefined transition of the selection renders; otherwise
      `change(newSelector, oldSelector)` decides, comparing on the keys of
      the OLD selection. A null new selection after an object with keys
      throws. */
  function EsmSelectDispatch(select: Val -> Val, next: Val, prev: Val): (d: Decision)
    ensures select(next).Undef? != select(prev).Undef? ==> d == Render(select(next))
    ensures select(next).Undef? == select(prev).Undef? ==>
      (d.Raise? <==> ChangeThrows(select(next), select(prev)))
      && (d.Render? <==> !ChangeThrows(select(next), select(prev)) && Changed(select(next), select(prev)))
    ensures d.Render? ==> d.v == select(next)
  {
    var oldSelector := select(prev);
    var newSelector := select(next);
    if newSelector.Undef? != oldSelector.Undef? then Render(newSelector)
    else if ChangeThrows(newSelector, oldSelector) then Raise
    else if Changed(newSelector, oldSelector) then Render(newSelector)
    else Skip
  }

  /** The undefined guard covers a slice that vanishes to `undefined`, but
      not one that becomes `null`. */
  lemma EsmSelectDispatchRaisesOnNullSlice()
    ensures var prev := Obj(0, map["item" := Obj(1, map["a" := Num(1)])]);
      && EsmSelectDispatch(SelectItem, Obj(2, map[]), prev) == Render(Undef)
      && EsmSelectDispatch(SelectItem, Obj(3, map["item" := Null]), prev) == Raise
  {
    var prev := Obj(0, map["item" := Obj(1, map["a" := Num(1)])]);
    assert SelectItem(prev) == Obj(1, map["a" := Num(1)]);
    assert SelectItem(Obj(2, map[])) == Undef;
    assert SelectItem(Obj(3, map["item" := Null])) == Null;
    assert "a" in SelectItem(prev).fields;
  }

  /** The value `init` hands the consumer: the selection of the state, or
      the state. */
  function InitialValue(st: Val, select: Option<Val -> Val>): (r: Val)
    ensures select.Some? ==> r == select.value(st)
    ensures select.None? ==> r == st
  {
    if select.Some? then select.value(st) else st
  }

  class EsmFun {
    /** What the getter `fn` returns now. */
    var st: Val
    var props: map<string, Prop>
    /** `fun[listeners]`; null for an object `fun` did not build. */
    var listeners: ListenerSet?
    /** The closure variable `prev` of `fun`. */
    var prev: Val
    /** Promises returned by actions: what each body still does to the state. */
    var pending: seq<Val -> Val>

    ghost predicate Valid()
      reads this, listeners
    {
      && (listeners != null ==> listeners.Valid())
      && (forall k :: k in props && props[k].Wrapped? ==> listeners != null)
    }

    /** `fun(fn, funA, funB)` with `fn()` reading `st`. */
    constructor Fun(st: Val, funA: Part, funB: Option<Part>)
      requires Unwrapped(funA.props)
      requires funB.Some? ==> Unwrapped(funB.value.props)
      ensures Valid() && listeners != null && fresh(listeners)
      ensures listeners.members == [] && listeners.calls == []
      ensures this.st == st && prev == st && pending == []
      ensures props == Surface(funA, funB)
    {
      this.st := st;
      prev := st;
      pending := [];
      listeners := new ListenerSet();
      var surface := Assign(funA, funB);
      props := surface;
    }

    /** An object with a state and actions that `fun` did not build: it has
        no listener set and no `getSt` getter, which only `fun` installs. */
    constructor Plain(st: Val, props: map<string, Prop>)
      requires Unwrapped(props)
      ensures Valid() && listeners == null
      ensures this.st == st && this.props == props && prev == st && pending == []
    {
      this.st := st;
      this.props := props;
      listeners := null;
      prev := st;
      pending := [];
    }

    /** `set(rv)`: broadcast `(fn(), prev)`, refresh `prev`, and return `rv`
        if truthy. */
    method Set(rv: Val) returns (r: Val)
      requires Valid() && listeners != null
      modifies this`prev, listeners`calls
      ensures Valid() && prev == st
      ensures listeners.calls == old(listeners.calls) + Fanout(listeners.members, st, old(prev))
      ensures r == SetResult(rv)
    {
      listeners.Dispatch(st, prev);
      prev := st;
      r := if Truthy(rv) then rv else Undef;
    }

    /** `fun[name](arg)`: a wrapper runs the body and then does
        `EsmWrapperEffect`; an action from a factory just runs; a data
        property is not callable. */
    method CallProp(name: string, arg: Val) returns (r: Ret)
      requires Valid() && name in props
      modifies this, listeners
      ensures Valid() && props == old(props) && listeners == old(listeners)
      ensures listeners != null ==> listeners.members == old(listeners.members)
      ensures old(props[name]).Data? ==>
        r == Raised && st == old(st) && prev == old(prev) && pending == old(pending)
        && (listeners != null ==> listeners.calls == old(listeners.calls))
      ensures !old(props[name]).Data? ==>
        var step := old(props[name]).body(old(st), arg);
        && st == step.state
        && pending == old(pending) + (if step.outcome.ReturnsPromise? then [step.outcome.rest] else [])
        && (old(props[name]).Method? ==>
              prev == old(prev) && (listeners != null ==> listeners.calls == old(listeners.calls))
              && r == match step.outcome
                      case Returns(v) => Returned(v)
                      case ReturnsNoUp(p) => ReturnedNoUp(p)
                      case ReturnsPromise(_, _) => ReturnedPromise
                      case Throws => Raised)
        && (old(props[name]).Wrapped? ==>
              var e := EsmWrapperEffect(old(prev), step.state, step.outcome);
              prev == e.prev && r == e.ret
              && listeners.calls == old(listeners.calls) + Fanned(listeners.members, e.broadcast))
    {
      match props[name]
      case Data(_) =>
        r := Raised;
      case Method(body) =>
        var step := body(st, arg);
        st := step.state;
        match step.outcome {
          case Returns(v) => r := Returned(v);
          case ReturnsNoUp(p) => r := ReturnedNoUp(p);
          case ReturnsPromise(rest, _) =>
            pending := pending + [rest];
            r := ReturnedPromise;
          case Throws => r := Raised;
        }
      case Wrapped(body) =>
        var step := body(st, arg);
        st := step.state;
        if step.outcome.ReturnsPromise? {
          pending := pending + [step.outcome.rest];
        }
        if step.outcome.Throws? {
          r := Raised;
        } else {
          listeners.Dispatch(st, prev);
          prev := st;
          r := match step.outcome
               case Returns(v) => Returned(v)
               case ReturnsNoUp(p) => ReturnedNoUp(p)
               case ReturnsPromise(_, _) => ReturnedPromise;
        }
    }

    /** `fun[name](arg)` for an action a factory built around `set` whose
        body ends with `return set(rv)`: the body runs, and when it returns
        `rv` the `set` call broadcasts `(fn(), prev)`, refreshes `prev` and
        its result is returned; a body that throws or returns otherwise
        reaches no `set`. */
    method CallSetting(name: string, arg: Val) returns (r: Ret)
      requires Valid() && listeners != null && name in props && props[name].Method?
      modifies this, listeners
      ensures Valid() && props == old(props) && listeners == old(listeners)
      ensures listeners.members == old(listeners.members)
      ensures var step := old(props[name]).body(old(st), arg);
        && st == step.state
        && pending == old(pending) + (if step.outcome.ReturnsPromise? then [step.outcome.rest] else [])
        && (step.outcome.Returns? ==>
              && prev == st && r == Returned(SetResult(step.outcome.v))
              && listeners.calls == old(listeners.calls) + Fanout(listeners.members, st, old(prev)))
        && (!step.outcome.Returns? ==>
              && prev == old(prev) && listeners.calls == old(listeners.calls)
              && r == match step.outcome
                      case ReturnsNoUp(p) => ReturnedNoUp(p)
                      case ReturnsPromise(_, _) => ReturnedPromise
                      case Throws => Raised)
    {
      var step := props[name].body(st, arg);
      st := step.state;
      match step.outcome {
        case Returns(v) =>
          var res := Set(v);
          r := Returned(res);
        case ReturnsNoUp(p) => r := ReturnedNoUp(p);
        case ReturnsPromise(rest, _) =>
          pending := pending + [rest];
          r := ReturnedPromise;
        case Throws => r := Raised;
      }
    }

    /** The `i`-th returned promise fulfils: the body finishes its work on
        the state; nothing is broadcast. */
    method Settle(i: nat)
      requires Valid() && i < |pending|
      modifies this`st, this`pending
      ensures pending == old(pending[..i] + pending[i + 1..])
      ensures st == old(pending[i](st)) && prev == old(prev)
    {
      var rest := pending[i];
      pending := pending[..i] + pending[i + 1..];
      st := rest(st);
    }

    /** `mounting`: add the listener when the set exists (`?.`), and hand
        back the reference its cleanup deletes. */
    method Mounting(sst: Ref) returns (cleanup: Ref)
      requires Valid()
      modifies listeners
      ensures Valid() && cleanup == sst
      ensures listeners != null ==> listeners.members == Added(old(listeners.members), sst)
      ensures listeners != null ==> listeners.calls == old(listeners.calls)
    {
      if listeners != null {
        listeners.Add(sst);
      }
      cleanup := sst;
    }

    /** The cleanup: delete the same reference when the set exists. */
    method Cleanup(sst: Ref)
      requires Valid()
      modifies listeners
      ensures Valid()
      ensures listeners != null ==> listeners.members == Removed(old(listeners.members), sst)
      ensures listeners != null ==> listeners.calls == old(listeners.calls)
    {
      if listeners != null {
        listeners.Delete(sst);
      }
    }
  }

  /** What `init` is handed: the object itself, or a factory; `made` is the
      object the factory returns. */
  datatype EsmSource = Ready(f: EsmFun) | MakeWith(made: EsmFun)

  /** `init(funT, select)`: call a factory once, then read the state through
      the `getSt` getter. Only objects `fun` built have that getter (they are
      the ones with a listener set); on any other object the read yields
      `undefined` and calling it throws, which `value == None` stands for. */
  method Init(src: EsmSource, select: Option<Val -> Val>) returns (value: Option<Val>, f: EsmFun)
    ensures f == (if src.Ready? then src.f else src.made)
    ensures value.None? <==> f.listeners == null
    ensures f.listeners != null ==> value == Some(InitialValue(f.st, select))
  {
    f := if src.Ready? then src.f else src.made;
    if f.listeners == null {
      value := None;
    } else {
      value := Some(if select.Some? then select.value(f.st) else f.st);
    }
  }
}
