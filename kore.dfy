/** The class-based "Kore" state holder of src/Kore.ts: a `state` field, an
    optional shallow merge on update, and the per-instance fields that
    `initKore` installs (the dispatcher, `destroyInstance`, the re-init
    marker). The dispatcher call itself lives with the registry (module
    `Storage`), which owns the listener maps it forwards to. */
module KoreModel {
  import opened Values

  /** What a subclass declares: its name (the registry key), its
      `_koreConfig`, which lifecycle hooks it defines, and the state its own
      field initialiser leaves after `new koreClass()` (`Undef` when it has
      none). */
  datatype KoreClass = KoreClass(
    name: string,
    merge: bool,
    destroyOnUnmount: bool,
    hasInstanceCreated: bool,
    hasInstanceDeleted: bool,
    constructed: Val)

  /** The optional `initial_value` argument: absent, a value, or a function
      that produces the value. */
  datatype Initial = NoInitial | InitialValue(v: Val) | InitialFactory(make: () -> Val)

  /** The argument of `_setState`: a new (or partial) state, or an updater
      applied to the old state. */
  datatype Update = NewValue(v: Val) | Updater(f: Val -> Val)

  /** The state `setInitialValue` leaves: a factory's result, else the value
      unless it is undefined or null, else the current state. */
  function InitialState(current: Val, init: Initial): (r: Val)
    ensures init.InitialFactory? ==> r == init.make()
    ensures init.InitialValue? && !IsNullish(init.v) ==> r == init.v
    ensures (init.NoInitial? || (init.InitialValue? && IsNullish(init.v))) ==> r == current
  {
    match init
    case InitialFactory(make) => make()
    case InitialValue(v) => if IsNullish(v) then current else v
    case NoInitial => current
  }

  /** The own enumerable properties that object spread copies. */
  function Spread(v: Val): map<string, Val> {
    if v.Obj? then v.fields else map[]
  }

  /** `{ ...oldState, ...update }`, a new object with identity `id`. */
  function Merged(oldState: Val, update: Val, id: nat): (r: Val)
    ensures r.Obj? && r.id == id
    ensures r.fields.Keys == Keys(oldState) + Keys(update)
    ensures forall k :: k in Keys(update) ==> r.fields[k] == update.fields[k]
    ensures forall k :: k in Keys(oldState) && k !in Keys(update) ==> r.fields[k] == oldState.fields[k]
  {
    Obj(id, Spread(oldState) + Spread(update))
  }

  /** The update `_setState(value)` applies: an updater's result on the old
      state, or the value itself. */
  function UpdateValue(oldState: Val, value: Update): (r: Val)
    ensures value.Updater? ==> r == value.f(oldState)
    ensures value.NewValue? ==> r == value.v
  {
    if value.Updater? then value.f(oldState) else value.v
  }

  /** The state `_setState(value)` stores. With `merge`, no key of the old
      state is lost and every key of the update wins; without it, the new
      state is exactly the update. `id` is the identity of the object a merge
      allocates; callers pass one the old state does not have. */
  function NextState(merge: bool, oldState: Val, value: Update, id: nat): (r: Val)
    ensures merge ==> r.Obj? && r.fields.Keys == Keys(oldState) + Keys(UpdateValue(oldState, value))
    ensures merge ==> forall k :: k in Keys(UpdateValue(oldState, value)) ==>
      r.fields[k] == UpdateValue(oldState, value).fields[k]
    ensures merge ==> forall k :: k in Keys(oldState) && k !in Keys(UpdateValue(oldState, value)) ==>
      r.fields[k] == oldState.fields[k]
    ensures !merge ==> r == UpdateValue(oldState, value)
    ensures merge && oldState.Obj? && id != oldState.id ==> !SameValue(r, oldState)
  {
    var update := UpdateValue(oldState, value);
    if merge then Merged(oldState, update, id) else update
  }

  /** A merge whose update carries no keys still replaces the state object:
      the new state is a different object with the same fields, so a
      listener comparing by identity sees a change. */
  lemma EmptyMergeIsNewObject(oldState: Val, id: nat)
    requires oldState.Obj? && oldState.id != id
    ensures var r := NextState(true, oldState, NewValue(Null), id);
      r.fields == oldState.fields && !SameValue(r, oldState)
  {
  }

  class Kore {
    const name: string
    const merge: bool
    const destroyOnUnmount: bool
    const hasInstanceCreated: bool
    const hasInstanceDeleted: bool
    var state: Val
    /** Whether `initKore` has installed the dispatcher and `destroyInstance`;
        before that both are `undefined` and calling them throws. */
    var installed: bool
    /** The `_properInitdKoreko` property: absent, or a boolean. */
    var marker: Option<bool>

    /** `new cls(state)`: the constructor stores its argument as the state. */
    constructor (cls: KoreClass, state: Val)
      ensures name == cls.name && merge == cls.merge && destroyOnUnmount == cls.destroyOnUnmount
      ensures hasInstanceCreated == cls.hasInstanceCreated && hasInstanceDeleted == cls.hasInstanceDeleted
      ensures this.state == state && !installed && marker.None?
    {
      name := cls.name;
      merge := cls.merge;
      destroyOnUnmount := cls.destroyOnUnmount;
      hasInstanceCreated := cls.hasInstanceCreated;
      hasInstanceDeleted := cls.hasInstanceDeleted;
      this.state := state;
      installed := false;
      marker := None;
    }

    /** `setInitialValue(this, init)`. */
    method SetInitialValue(init: Initial)
      modifies this`state
      ensures state == InitialState(old(state), init)
    {
      match init
      case InitialFactory(make) =>
        state := make();
      case InitialValue(v) =>
        if !IsNullish(v) {
          state := v;
        }
      case NoInitial =>
    }

    /** The assignment part of `_setState(value)`: returns the old and the new
        state that the dispatcher is then called with. */
    method ApplyUpdate(value: Update, id: nat) returns (oldState: Val, newState: Val)
      requires merge && state.Obj? ==> id != state.id
      modifies this`state
      ensures oldState == old(state) && state == newState
      ensures newState == NextState(merge, oldState, value, id)
    {
      oldState := state;
      var update;
      if value.Updater? {
        update := value.f(oldState);
      } else {
        update := value.v;
      }
      if merge {
        state := Obj(id, Spread(oldState) + Spread(update));
      } else {
        state := update;
      }
      newState := state;
    }
  }
}
