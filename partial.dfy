/** The re-render gate of src/partial.ts (`checkDepsSetter`) and the routing
    that picks it for a mount (src/useSoKore.ts, `mountLogicAssign`). A gate
    turns one `(oldState, newState)` notification into a sequence of calls of
    React's dispatcher, each with the full new state. */
module Partial {
  import opened Values

  /** What `checkDepsSetter` gates with: a compare function, or a selector. */
  datatype Gate = CompareGate(compare: (Val, Val) -> bool) | SelectorGate(selector: Val -> Val)

  /** `checkDepsSetter(dispatcher, selector, compare)`: a compare function wins
      over a selector; with neither there is no callback. */
  function CheckDepsSetter(selector: Option<Val -> Val>, compare: Option<(Val, Val) -> bool>): (g: Option<Gate>)
    ensures g.None? <==> selector.None? && compare.None?
    ensures compare.Some? ==> g.Some? && g.value.CompareGate? && g.value.compare == compare.value
    ensures compare.None? && selector.Some? ==>
              g.Some? && g.value.SelectorGate? && g.value.selector == selector.value
  {
    if compare.Some? then Some(CompareGate(compare.value))
    else if selector.Some? then Some(SelectorGate(selector.value))
    else None
  }

  /** `n` calls, each handing over `v`. */
  function Repeat(v: Val, n: nat): (s: seq<Val>)
    ensures |s| == n && forall x :: x in s ==> x == v
  {
    seq(n, _ => v)
  }

  /** The keys of the new selection whose value differs (`!==`) from the old
      selection's; only the new selection's keys are ever visited. */
  function DifferingKeys(oldSel: Val, newSel: Val): set<string>
    requires newSel.Obj? && !IsNullish(oldSel)
  {
    set k | k in newSel.fields && !SameValue(Get(oldSel, k), newSel.fields[k])
  }

  /** How many times the selector branch calls the dispatcher for the
      selections `oldSel` and `newSel`; `None` is the TypeError of reading a
      key of a null old selection. */
  function SliceDispatchCount(oldSel: Val, newSel: Val): Option<nat> {
    if newSel.Undef? != oldSel.Undef? then Some(1)
    else if newSel.Obj? then
      if oldSel.Null? then (if newSel.fields.Keys == {} then Some(0) else None)
      else Some(|DifferingKeys(oldSel, newSel)|)
    else if !SameValue(newSel, oldSel) then Some(1)
    else Some(0)
  }

  /** The dispatcher calls a gate makes for one notification. */
  function GateDispatches(g: Gate, oldState: Val, newState: Val): Option<seq<Val>> {
    match g
    case CompareGate(compare) => Some(if compare(oldState, newState) then [newState] else [])
    case SelectorGate(selector) =>
      var c := SliceDispatchCount(selector(oldState), selector(newState));
      if c.None? then None else Some(Repeat(newState, c.value))
  }

  /** The selector branch as written: one dispatcher call on an undefined
      transition, one per differing key of an object selection, one for a
      differing primitive. */
  method SliceDispatch(oldSel: Val, newSel: Val, newState: Val) returns (out: Option<seq<Val>>)
    ensures SliceDispatchCount(oldSel, newSel).None? <==> out.None?
    ensures out.Some? ==> out.value == Repeat(newState, SliceDispatchCount(oldSel, newSel).value)
  {
    if newSel.Undef? != oldSel.Undef? {
      return Some([newState]);
    } else if newSel.Obj? {
      var calls: seq<Val> := [];
      var todo := newSel.fields.Keys;
      ghost var differing: set<string> := {};
      while todo != {}
        invariant todo <= newSel.fields.Keys
        invariant todo != newSel.fields.Keys ==> !oldSel.Null?
        invariant differing <= newSel.fields.Keys - todo
        invariant !oldSel.Null? ==>
                    differing == (set k | k in newSel.fields && k !in todo &&
                                    !SameValue(Get(oldSel, k), newSel.fields[k]))
        invariant calls == Repeat(newState, |differing|)
        decreases todo
      {
        var key :| key in todo;
        if oldSel.Null? {
          return None;
        }
        if !SameValue(Get(oldSel, key), newSel.fields[key]) {
          calls := calls + [newState];
          differing := differing + {key};
        }
        todo := todo - {key};
      }
      assert !oldSel.Null? ==> differing == DifferingKeys(oldSel, newSel);
      return Some(calls);
    } else if !SameValue(newSel, oldSel) {
      return Some([newState]);
    } else {
      return Some([]);
    }
  }

  /** The callback `checkDepsSetter` returns, run on `(oldState, newState)`. */
  method RunGate(g: Gate, oldState: Val, newState: Val) returns (out: Option<seq<Val>>)
    ensures out == GateDispatches(g, oldState, newState)
  {
    match g {
      case CompareGate(compare) =>
        out := Some(if compare(oldState, newState) then [newState] else []);
      case SelectorGate(selector) =>
        out := SliceDispatch(selector(oldState), selector(newState), newState);
    }
  }

  /** The dispatcher always receives the full new state, never the slice; a
      compare gate calls it iff `compare` holds; an undefined transition of
      the slice calls it exactly once. */
  lemma GateHandsOverNewState(g: Gate, oldState: Val, newState: Val)
    ensures var d := GateDispatches(g, oldState, newState);
      && (d.Some? ==> forall v :: v in d.value ==> v == newState)
      && (g.CompareGate? ==> d == Some(if g.compare(oldState, newState) then [newState] else []))
      && (g.SelectorGate? && g.selector(newState).Undef? != g.selector(oldState).Undef? ==>
            d == Some([newState]))
  {
    if g.SelectorGate? && g.selector(newState).Undef? != g.selector(oldState).Undef? {
      assert Repeat(newState, 1) == [newState];
    }
  }

  /** Possibly several calls per notification: an object selection whose keys
      all changed calls the dispatcher once per key; none changed, not at all. */
  lemma PerKeyDispatchCount(oldSel: Val, newSel: Val)
    requires newSel.Obj? && oldSel.Obj?
    ensures SliceDispatchCount(oldSel, newSel).Some?
    ensures (forall k :: k in newSel.fields ==> !SameValue(Get(oldSel, k), newSel.fields[k])) ==>
              SliceDispatchCount(oldSel, newSel) == Some(|newSel.fields.Keys|)
    ensures (forall k :: k in newSel.fields ==> SameValue(Get(oldSel, k), newSel.fields[k])) ==>
              SliceDispatchCount(oldSel, newSel) == Some(0)
  {
    if forall k :: k in newSel.fields ==> !SameValue(Get(oldSel, k), newSel.fields[k]) {
      assert DifferingKeys(oldSel, newSel) == newSel.fields.Keys;
    }
    if forall k :: k in newSel.fields ==> SameValue(Get(oldSel, k), newSel.fields[k]) {
      assert DifferingKeys(oldSel, newSel) == {};
    }
  }

  /** Keys present only in the old selection are never examined: two old
      selections that agree on the new selection's keys give the same count. */
  lemma OldOnlyKeysNeverExamined(old1: Val, old2: Val, newSel: Val)
    requires newSel.Obj? && old1.Obj? && old2.Obj?
    requires forall k :: k in newSel.fields ==> Get(old1, k) == Get(old2, k)
    ensures SliceDispatchCount(old1, newSel) == SliceDispatchCount(old2, newSel)
  {
    assert DifferingKeys(old1, newSel) == DifferingKeys(old2, newSel);
  }

  /** Selector gating: with state `{a: 1, b: 1}` and the selector `s => s.a`,
      changing only `b` does not re-render, changing `a` does, once. */
  lemma SelectorGatingExample()
    ensures var sel := (s: Val) => if IsNullish(s) then Undef else Get(s, "a");
      && GateDispatches(SelectorGate(sel), Obj(0, map["a" := Num(1), "b" := Num(1)]),
                                           Obj(1, map["a" := Num(1), "b" := Num(2)])) == Some([])
      && GateDispatches(SelectorGate(sel), Obj(0, map["a" := Num(1), "b" := Num(1)]),
                                           Obj(2, map["a" := Num(2), "b" := Num(1)]))
         == Some([Obj(2, map["a" := Num(2), "b" := Num(1)])])
  {
    var n := Obj(2, map["a" := Num(2), "b" := Num(1)]);
    assert Repeat(n, 1) == [n];
  }

  /** The `compare` argument of the hooks: absent, a function, or `true`
      (which switches gating off). */
  datatype CompareArg = NoCompare | CompareFn(f: (Val, Val) -> bool) | CompareTrue

  /** The listener a mount registers: hand every new state to React's
      dispatcher, or gate it. */
  datatype Callback = PassNew | Gated(gate: Gate)

  /** `mountLogicAssign`: gate only when a selector or a compare function is
      given and `compare` is not `true`; otherwise `(_, n) => dispatcher(n)`. */
  function ListenerFor(selector: Option<Val -> Val>, compare: CompareArg): (c: Callback)
    ensures c.Gated? <==> (selector.Some? || compare.CompareFn?) && !compare.CompareTrue?
    ensures c.Gated? && compare.CompareFn? ==> c.gate.CompareGate? && c.gate.compare == compare.f
    ensures c.Gated? && compare.NoCompare? ==> c.gate.SelectorGate? && c.gate.selector == selector.value
  {
    if (selector.Some? || compare.CompareFn?) && !compare.CompareTrue? then
      Gated(CheckDepsSetter(selector, if compare.CompareFn? then Some(compare.f) else None).value)
    else PassNew
  }

  /** The dispatcher calls a registered listener makes for `(p, n)`. */
  function CallbackDispatches(c: Callback, p: Val, n: Val): Option<seq<Val>> {
    match c
    case PassNew => Some([n])
    case Gated(g) => GateDispatches(g, p, n)
  }
}
