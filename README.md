# usefun notification core, modelled in Dafny

This project models the change-detection and notification core of the
usefun React state library. It leaves out the React hooks and keeps
the bookkeeping beneath them:

- **Function-object core** (`src/main.ts`). `fun` instruments a holder so that
  each tracked action broadcasts `(next, prev)` to the holder's listener `Set`.
  - `change` is the shallow comparison. It looks only at the keys of its second
    argument and compares them with `Object.is`.
  - A `noUp` result cancels the broadcast.
  - A promise result broadcasts at once only on a change. `handlePromise` checks
    again when the promise fulfils.
  - `init` instruments a holder once. `mounting` adds one listener reference, and
    its cleanup deletes that same reference.
- **Class-based "Kore" core**:
  - `src/Kore.ts`: the state, the optional shallow merge in `_setState`, and
    `setInitialValue`.
  - `src/storage.ts`: the global registry keyed by class name, the dispatcher
    `initKore` installs, and `destroyInstance`.
  - `src/mountLogic.ts`: the listener map of each name, `instanceCreated` on the
    first mount, and `destroyOnUnmount`.
  - `src/subscriptions.ts`: the ordered subscription lists.
  - `src/partial.ts` and `src/useSoKore.ts`: the selector or compare gate, which
    can call React's dispatcher once per differing key.
- **Two earlier compiled variants**, modelled separately:
  - `lib/main.esm.js` broadcasts unconditionally and passes a `set` callback to
    action factories.
  - `lib/main.js` wraps `setState` in a Proxy of async wrappers. These honour a
    cancel sentinel after `await` and dispatch once per differing key.

How JavaScript is represented:

- Values are a datatype (`Values.Val`). Objects carry an identity and their own
  enumerable fields.
- `Object.is` and `===` become `SameValue`, which compares objects by identity.
- A TypeError raised by reading a property of `undefined` or `null` is an
  explicit outcome: `ChangeThrows`, `Raise`, `None` or `Raised`.
- Actions are state transformers (`Actions.Action`). The settlement of a promise
  is a later method call (`Settle`, `Resume`).
- A listener `Set` is a duplicate-free sequence in insertion order. A listener
  `Map` keeps such a sequence beside its callbacks.
- The bodies of listeners, subscriptions and lifecycle hooks are opaque. Their
  calls are recorded instead: `calls`, `renders`, `hooks`.

Two behaviours of the code are worth knowing before reading the model:

- `handlePromise` in `src/main.ts` (lines 74-80, attached at line 89) ignores
  the value a promise fulfils with. A `noUp` result inside a promise therefore
  does not suppress the deferred broadcast. The async wrapper of `lib/main.js`
  (lines 48-55) awaits the result first and does honour it.
  `CjsVariant.CancelHonouredAfterAwait` contrasts the two.
- In `src/main.ts`, a synchronous, non-cancelled call broadcasts even when
  nothing changed (`FunCore.SyncCallsAlwaysBroadcast`). Only the promise path
  checks `change`. `lib/main.esm.js` broadcasts on every call.

## Model

| member | source | states |
|---|---|---|
| Equality.ComputeChange | src/main.ts:117-125 | The loop of `change(a, b)` throws exactly when `b` is an object with a key and `a` is undefined or null. Otherwise it answers true iff some key of `b` holds a value not `Object.is` to `a`'s value at that key, or, for a non-object `b`, iff `b` is not `Object.is` to `a`. |
| Equality.NoChangeAgainstItself | src/main.ts:117-125 | `change(x, x)` never throws and never reports a change. |
| Equality.PrevOnlyKeysIgnored | src/main.ts:117-122 | Keys only the first argument has never matter: two first arguments that agree on `b`'s keys give the same answer. |
| Equality.FieldwiseEqualIsNoChange | src/main.ts:117-122 | A new object whose every key holds what the previous object holds reports no change, even though it is a different object. |
| ListenerSets.Added | src/main.ts:135-137 | `Set.add` keeps the set duplicate-free and adds exactly `r`. A present reference keeps its place; a new one goes last, with the old order as a prefix. |
| ListenerSets.Removed | src/main.ts:138 | `Set.delete` keeps every other member and only them, stays duplicate-free, and shrinks by one iff `r` was a member. |
| ListenerSets.RemovedUndoesAdded | src/main.ts:135-138 | Adding a reference that was not a member and then deleting it restores the set exactly. |
| ListenerSets.Fanout | src/main.ts:65-66 | One broadcast calls each member, in set order, with the same `(next, prev)`. |
| ListenerSets.FanoutReachesEveryMemberOnce | src/main.ts:65-66 | A broadcast reaches a reference iff it is a member, never calls a member twice, and hands every call the same pair. |
| ListenerSets.UnsubscribeIsolation | src/main.ts:135-138 | After one reference is deleted, a broadcast reaches exactly the other members. |
| ListenerSets.ListenerSet.constructor | src/main.ts:70 | A new listener set is empty and has made no calls. |
| ListenerSets.ListenerSet.Add | src/main.ts:137 | Adds the reference as `Set.add` does. |
| ListenerSets.ListenerSet.Delete | src/main.ts:138 | Deletes the reference as `Set.delete` does. |
| ListenerSets.ListenerSet.Dispatch | src/main.ts:65-66 | `dispatch` appends exactly one call per member, in set order, each with `(next, prev)`. |
| FunCore.WrapperEffect | src/main.ts:85-97 | After the body returns, the wrapper does one of the following. A plain result broadcasts `(next, prev)`, sets `prev := next` and is returned. A `noUp` result returns its payload with no broadcast and leaves `prev` alone. A promise broadcasts iff `change(prev, next)` holds, raises iff `change` throws, and otherwise returns the promise. A throwing body broadcasts nothing. |
| FunCore.HandlePromise | src/main.ts:74-80 | On fulfilment, `handlePromise` broadcasts `(next, prev)` and refreshes `prev` iff `change(prev, next)` holds, and raises iff `change` throws. |
| FunCore.BroadcastsChain | src/main.ts:72-96 | For any sequence of wrapped calls and settlements, the broadcasts form a chain starting at the snapshot `fun` took. Each pair's `prev` is the previous pair's `next`, and `prev` ends as the last broadcast `next`. |
| FunCore.SyncCallsAlwaysBroadcast | src/main.ts:86-96 | Two synchronous calls that leave the same state broadcast `(next, prev)` and then `(next, next)`. A call broadcasts even when nothing changed. |
| FunCore.CancelKeepsPrev | src/main.ts:93-95 | A cancelled call broadcasts nothing, so the next broadcast reports the snapshot from before the cancelled call as `prev`. |
| FunCore.DeferredAfterSync | src/main.ts:74-96 | A call that changes the state and again before its promise fulfils broadcasts `(n1, prev)` and then `(n2, n1)`, in that order. |
| FunCore.FunObject.Fun | src/main.ts:68-102 | `fun` creates an empty listener set, sets `prev` to `state()`, and replaces exactly the tracked properties by wrappers. Tracked means a method not named `state` and not ending in `_`; every other property is untouched. |
| FunCore.FunObject.CallProp | src/main.ts:85-97 | Calling a wrapper runs the body, queues a returned promise with its `handlePromise`, and has the effect `WrapperEffect` describes on `prev`, the result and the listener calls. An unwrapped method only runs. A data property raises. |
| FunCore.FunObject.Settle | src/main.ts:74-80 | A fulfilling promise finishes its work on the state. If a wrapper attached `handlePromise`, its effect is what `HandlePromise` describes. |
| FunCore.FunObject.Mounting | src/main.ts:135-137 | Adds the consumer's listener reference and returns the same reference for the cleanup. |
| FunCore.FunObject.Cleanup | src/main.ts:138 | Deletes that same reference. |
| FunCore.Init | src/main.ts:105-115 | `init` resolves the instance, the factory result or a new object. It instruments that object only if it has no listener set, so an instrumented holder is left unchanged. It returns `select(state())` when a selector is given, else `state()`. |
| FunCore.SelectDispatch | src/main.ts:127-133 | The selector dispatcher calls `setState(select(next))` iff `change(select(next), select(prev))` holds, and raises iff that `change` throws. |
| FunCore.SelectDispatchRaisesOnVanishedSlice | src/main.ts:127-133 | With `s => s.item`, a slice that goes from `{a: 1}` to undefined raises instead of re-rendering. |
| FunCore.SelectDispatchMissesAddedKey | src/main.ts:127-133 | A slice that goes from `{a: 1}` to `{a: 1, b: 2}` does not re-render. |
| FunCore.GuardedSelectDispatch | src/main.ts:127-133 | The intended dispatcher never raises. It re-renders with the new slice iff exactly one slice is undefined or null, or `change(old slice, new slice)` holds. |
| FunCore.GuardedSelectDispatchRendersBoth | src/main.ts:127-133 | The guarded dispatcher re-renders on both inputs above. |
| FunCore.HandlePromiseRaisesFromUndefined | src/main.ts:74-80 | When the state goes from undefined to an object while a promise is pending, `handlePromise` raises and never broadcasts the change. |
| FunCore.GuardedHandlePromise | src/main.ts:74-80 | The intended `handlePromise` never raises. It broadcasts `(next, prev)` iff the state appeared or `change(prev, next)` holds. |
| FunCore.GuardedHandlePromiseBroadcastsFirstObject | src/main.ts:74-80 | The guarded `handlePromise` broadcasts the input above. |
| Partial.CheckDepsSetter | src/partial.ts:31-47 | A compare function wins over a selector. With neither, there is no callback. |
| Partial.SliceDispatch | src/partial.ts:35-47 | The selector branch calls the dispatcher once when exactly one selection is undefined. For an object selection it calls once per key whose value differs by `!==`, and throws on a null old selection. For a primitive selection it calls once iff the values differ. |
| Partial.RunGate | src/partial.ts:31-47 | The returned callback makes exactly the calls `GateDispatches` describes for the compare or selector gate. |
| Partial.GateHandsOverNewState | src/partial.ts:32-46 | Every dispatcher call receives the full new state. A compare gate calls iff `compare(old, new)` holds. An undefined transition calls exactly once. |
| Partial.PerKeyDispatchCount | src/partial.ts:40-43 | If every key of the new selection changed, there is one call per key. If none changed, there are no calls. |
| Partial.OldOnlyKeysNeverExamined | src/partial.ts:41-42 | Two old selections that agree on the new selection's keys give the same number of calls. |
| Partial.SelectorGatingExample | src/partial.ts:35-47 | With `s => s.a`, changing only `b` does not re-render, and changing `a` re-renders once. |
| Partial.ListenerFor | src/useSoKore.ts:33-38 | A mount gates iff a selector or a compare function is given and `compare` is not `true`. Otherwise it passes each new state straight to the dispatcher. |
| KoreModel.InitialState | src/Kore.ts:28-30 | A factory's result is stored. A non-nullish value is stored. An undefined or null value, or none, keeps the current state. |
| KoreModel.Merged | src/Kore.ts:87 | The object spread has every key of both sides, and the update's values win. |
| KoreModel.UpdateValue | src/Kore.ts:85-86 | An updater is applied to the old state. A value is used as it is. |
| KoreModel.NextState | src/Kore.ts:85-87 | With `merge`, no key of the old state is lost and every key of the update wins, and under an identity the old state lacks the result is a different object. Without `merge`, the new state is exactly the update. |
| KoreModel.EmptyMergeIsNewObject | src/Kore.ts:87 | A merge with no keys gives a new object with the same fields, which an identity comparison sees as a change. |
| KoreModel.Kore.constructor | src/Kore.ts:118-120 | The constructor stores its argument as the state. |
| KoreModel.Kore.SetInitialValue | src/Kore.ts:28-30 | The state becomes `InitialState` of the old state. |
| KoreModel.Kore.ApplyUpdate | src/Kore.ts:84-87 | Returns the old state and the new state that the dispatcher is called with. The new state is `NextState`. |
| Storage.MapSet | src/mountLogic.ts:36 | `Map.set` keeps the map well formed and binds the reference to the callback. The size grows only for a new reference. |
| Storage.MapDelete | src/mountLogic.ts:43 | `Map.delete` keeps the map well formed and drops exactly that reference. The size shrinks only if it was present. |
| Storage.Destroyed | src/storage.ts:60-65 | The entry goes iff the destroy is forced or no listener is left. Every other name is untouched. |
| Storage.CollectStops | src/storage.ts:40 | Once a listener throws, no later listener in the map is reached. |
| Storage.UngatedListenersRenderNewState | src/storage.ts:39-42 | Listeners registered without a gate each receive the new state exactly once, in map order. |
| Storage.ForwardedHandsOverNewState | src/storage.ts:39-42 | Whatever the gates decide, every setter call carries the full new state and comes from a registered listener. |
| Storage.RunCallback | src/storage.ts:40 | One registered listener makes the dispatcher calls its gate describes. |
| Storage.ForwardTo | src/storage.ts:40 | The `forEach` over a listener map makes exactly the forwarded setter calls in map order. It stops at the first listener that throws. |
| Storage.Store.constructor | src/storage.ts:29 | The registry starts empty. |
| Storage.Store.InitKore | src/storage.ts:32-58 | For an unseen name, `initKore` builds one new instance with the initial value applied, installs its dispatcher, stores it with no listener map, and calls the name's subscriptions. For a stored name it returns the stored instance. A `false` marker there re-applies the initial value, drops the marker and calls the subscriptions; otherwise nothing changes. |
| Storage.Store.DestroyInstance | src/storage.ts:60-65 | Drops the entry and records `instanceDeleted` on the given instance iff the destroy is forced or the listener count is 0. Otherwise nothing changes. |
| Storage.Store.Forward | src/storage.ts:39-42 | The installed dispatcher forwards `(p, n)` to every listener of the name, as `Forwarded` describes. |
| Storage.Store.KoreSetState | src/Kore.ts:84-89 | `_setState` stores `NextState`, then dispatches `(oldState, newState)` exactly once, whether or not anything changed. The subscriptions are called after the listeners unless a listener threw. Before `initKore` installed the dispatcher, the call throws after the assignment. |
| Storage.DestroyThenInit | src/storage.ts:33-62 | After an entry is destroyed, the next `initKore` for that name builds a new instance and calls the subscriptions with it. |
| Storage.StaleInstanceSetState | src/storage.ts:39-45 | A destroyed instance keeps the dispatcher installed on it. After a new instance is built, the old instance's `_setState` calls the subscriptions with the old instance, while the registry holds the new one. |
| MountLogic.Mounted | src/mountLogic.ts:27-39 | The entry is created if absent. A first mount creates a map holding only `ref`; a later mount sets `ref` in the existing map. Other names are untouched. |
| MountLogic.Unmounted | src/mountLogic.ts:41-47 | An empty or missing map changes nothing. Otherwise exactly `ref` is deleted. With `destroyOnUnmount`, the instance is destroyed iff that left no listener, and the call throws if `destroyInstance` was never installed. |
| MountLogic.Mount | src/mountLogic.ts:27-39 | `mountLogic` leaves the registry as `Mounted` says. It records `instanceCreated` on the mounting instance exactly on a first mount and returns the cleanup for the same reference. |
| MountLogic.Unmount | src/mountLogic.ts:41-47 | `unmountLogic` leaves the registry as `Unmounted` says, and records `instanceDeleted` on the unmounting instance exactly when it destroys it. |
| MountLogic.MountThenCleanupRestores | src/mountLogic.ts:35-43 | Mounting a new reference and running its cleanup restores the registry when the instance is kept on unmount. |
| MountLogic.MountTwiceKeepsOneEntry | src/mountLogic.ts:35-36 | Mounting the same reference twice leaves one entry, holding the later callback. |
| MountLogic.FirstMountsBounded | src/mountLogic.ts:31-36 | For any class, over any run of mounts, cleanups and destroys, the first mounts (the `instanceCreated` calls) number at most one plus the operations that actually dropped the entry. |
| MountLogic.NoSecondCreationWithoutDestroy | src/mountLogic.ts:31-36 | For any class, including one destroyed on unmount, once something has mounted, `instanceCreated` is not called again by a run in which the entry is never dropped. Listeners may unmount and remount, and unforced destroys may be refused. |
| MountLogic.StaysMounted | src/mountLogic.ts:35-45 | An operation that does not drop the entry leaves the class's listener map in place. |
| MountLogic.RemountWhileOthersListen | src/mountLogic.ts:31-45 | For a class destroyed on unmount, with two listeners: one leaves, an unforced destroy is refused, and it remounts. Nothing is dropped and `instanceCreated` is not called. |
| MountLogic.DestroyOnlyWhenLastLeaves | src/mountLogic.ts:41-47 | With `destroyOnUnmount` and two listeners, the first cleanup keeps the entry and the second destroys it. |
| Subscriptions.IndexOf | src/subscriptions.ts:31 | `indexOf` returns -1 iff the value is absent; otherwise it returns its first position. |
| Subscriptions.RemoveFirst | src/subscriptions.ts:29-34 | Removes one occurrence when the value is present and nothing otherwise. The counts of all other values are unchanged. |
| Subscriptions.RemoveFirstSplits | src/subscriptions.ts:31-33 | The removal cuts at the first occurrence and keeps the rest in order. |
| Subscriptions.Pushed | src/subscriptions.ts:26-27 | After a push, the name's list (created when absent) ends with the new callback after all it held before. Every other name keeps its list. |
| Subscriptions.PushTwiceListsTwice | src/subscriptions.ts:26-27 | Two pushes of the same function list it twice more, after everything the list held before. |
| Subscriptions.SubscriptionTable.constructor | src/subscriptions.ts:24 | The subscription map starts empty. |
| Subscriptions.SubscriptionTable.Push | src/subscriptions.ts:26-27 | `pushSubscription` leaves the map as `Pushed` describes. |
| Subscriptions.SubscriptionTable.Unsubscribe | src/subscriptions.ts:29-34 | `unsubscribe` removes only the first occurrence. An unknown name or an absent callback changes nothing, and other names are unchanged. |
| Subscriptions.SubscriptionTable.CallSubscriptors | src/subscriptions.ts:36-37 | `callSubscriptors(kore)` calls each subscription listed under the instance's class name once, in list order, and records the instance object each call is handed. |
| Subscriptions.SubCalls | src/subscriptions.ts:37 | One call per list entry, in order, each handed the same instance. |
| EsmVariant.Surface | lib/main.esm.js:58-60 | The built object has `funA`'s prepared properties, then `funB`'s, which win on a shared name. |
| EsmVariant.Mutate | lib/main.esm.js:43-57 | `mutate` wraps every own function-valued property, with no name filter, and leaves the rest. |
| EsmVariant.Assign | lib/main.esm.js:58-60 | The two `Object.assign` calls produce `Surface`. An action factory's result is merged unwrapped. |
| EsmVariant.MutateWrapsUntrackedNames | lib/main.esm.js:43-57 | Unlike `fun` of `src/main.ts`, `mutate` also wraps `state` and names ending in `_`. |
| EsmVariant.EsmWrapperEffect | lib/main.esm.js:47-53 | Every call that does not throw broadcasts `(fn(), prev)`, with no change check and no cancel handling. It refreshes `prev` and returns the body's result. |
| EsmVariant.EveryCallBroadcasts | lib/main.esm.js:47-53 | Two calls that leave the state alone broadcast twice. |
| EsmVariant.SetResult | lib/main.esm.js:39-41 | `set(rv)` returns `rv` if it is truthy, otherwise undefined. |
| EsmVariant.EsmSelectDispatch | lib/main.esm.js:80-85 | An undefined transition re-renders with the selection. Otherwise the listener re-renders iff `change(new, old)` holds, and raises when that `change` throws. |
| EsmVariant.EsmSelectDispatchRaisesOnNullSlice | lib/main.esm.js:80-85 | A slice that vanishes to undefined re-renders. One that becomes `null` raises. |
| EsmVariant.InitialValue | lib/main.esm.js:69 | `init` returns `select(getSt())` or `getSt()`. |
| EsmVariant.EsmFun.Fun | lib/main.esm.js:29-62 | `fun(fn, funA, funB)` creates an empty listener set, sets `prev` to `fn()`, and puts the `Surface` properties on the object. |
| EsmVariant.EsmFun.Plain | lib/main.esm.js:67-68 | An object not built by `fun` has no listener set and no `getSt` getter. |
| EsmVariant.EsmFun.Set | lib/main.esm.js:35-42 | `set(rv)` broadcasts `(fn(), prev)` once, refreshes `prev` and returns `SetResult(rv)`. |
| EsmVariant.EsmFun.CallProp | lib/main.esm.js:47-53 | A wrapper runs the body and has the effect `EsmWrapperEffect` describes. A factory action whose body does not call `set` only runs. |
| EsmVariant.EsmFun.CallSetting | lib/main.esm.js:35-42 | A factory action whose body ends with `return set(rv)` broadcasts `(fn(), prev)` once when the body returns. It then refreshes `prev` and returns `SetResult(rv)`. A throwing body broadcasts nothing. |
| EsmVariant.EsmFun.Settle | lib/main.esm.js:47-53 | A fulfilling promise changes the state and broadcasts nothing, because no continuation is attached. |
| EsmVariant.EsmFun.Mounting | lib/main.esm.js:86-88 | Adds the reference when the set exists and otherwise does nothing. Returns the same reference. |
| EsmVariant.EsmFun.Cleanup | lib/main.esm.js:89 | Deletes that reference when the set exists and otherwise does nothing. |
| EsmVariant.Init | lib/main.esm.js:67-70 | `init` takes the object or the factory's single result. It returns `InitialValue` of its state when `fun` built the object, and throws (`None`) iff the object has no `getSt` getter, i.e. `fun` did not build it. |
| CjsVariant.ReadThrough | lib/main.js:44-58 | Through the Proxy, a function-valued property comes back as an async wrapper around it, and anything else comes back as it is. |
| CjsVariant.ActionSurface | lib/main.js:64 | The action map has every name of `noSet` and `setState`, and `setState`'s entry (read through the Proxy) wins on a clash. |
| CjsVariant.Awaited | lib/main.js:50 | `await` yields the returned or fulfilled value, and rejects iff the action threw. |
| CjsVariant.ResumeEffect | lib/main.js:48-55 | After `await`, a cancel sentinel returns its `returnValue` and broadcasts nothing. Any other value broadcasts `(state(), old)` with no change check and is returned. |
| CjsVariant.CancelHonouredAfterAwait | lib/main.js:48-55 | A promise fulfilling with the sentinel suppresses the broadcast here. `handlePromise` of `src/main.ts` broadcasts on the same change. |
| CjsVariant.CjsSelectDispatches | lib/main.js:66-78 | The selector dispatcher calls `setState(next)` once on an undefined transition, and once per key that differs by `Object.is` for an object selection. A primitive selection calls once iff it differs. Every call gets `next`. It throws on a null old selection with keys to read. |
| CjsVariant.PerKeyVersusOnce | lib/main.js:66-78 | Where two keys change, this dispatcher calls `setState(next)` twice. `EsmVariant.EsmSelectDispatch` re-renders once, with the selection. |
| CjsVariant.CjsFun.constructor | lib/main.js:59-60 | Before `initFun`, the object has no listener set and no Proxy. |
| CjsVariant.CjsFun.InitFun | lib/main.js:59-65 | The first call creates the listener set and the Proxy, and later calls change nothing. It returns `state()` and `ActionSurface`. |
| CjsVariant.CjsFun.Call | lib/main.js:48-50 | A wrapper call snapshots `old = state()` before running the action, then waits at `await`. |
| CjsVariant.CjsFun.Resume | lib/main.js:50-54 | When the `await` completes, the effect on the listeners and the settlement is what `ResumeEffect` describes for that call's own snapshot. |
| CjsVariant.CjsFun.Mounting | lib/main.js:79-81 | Adds the reference when the set exists and otherwise does nothing. Returns the same reference. |
| CjsVariant.CjsFun.Cleanup | lib/main.js:82 | Deletes that reference when the set exists and otherwise does nothing. |
| CjsVariant.OverlappingCalls | lib/main.js:48-54 | Call `a` returns a pending promise and call `b`, started after it, returns a plain value. `b` resumes first and broadcasts `(s2, s1)`. When `a`'s promise fulfils, `a` broadcasts `(s3, s0)` with the snapshot from before its own call. The later broadcast therefore reports an older `prev`. |

## Left out

- React hook plumbing is not part of this model. That is `useFun` in all three forms, `src/useSoKore.ts` and `src/useKore.ts`. Only the routing rule of `mountLogicAssign` is kept, as `Partial.ListenerFor`.
- `isConstructor` (src/main.ts:28-35) is a Proxy and exception trick. The model is told explicitly whether `init` received an instance, a factory or a class.
- `extendFun` (src/main.ts:40-42) is a one-line `Object.assign` and is not modelled.
- Reflection is not modelled: `Object.getOwnPropertyNames`, `.bind`, `Object.assign` enumerability, Proxy traps other than `get`, and symbol-keyed properties. Actions are an explicit map of state transformers.
- NaN and signed zero, the only cases where `Object.is` and `===` differ, are not representable. Numbers are unbounded integers.
- Promise rejection, microtask timing and the promise returned by `then` are not modelled. A settlement is an explicit later call, on a single thread.
- Objects are immutable snapshots. An action that mutates the state object in place is modelled as one that produces a different object under the same identity. Aliasing between `prev` and the live state is not captured.
- In a merge, the spread of a string update (which spreads its characters) and of other non-object values is treated as spreading nothing.
- In `lib/main.js`, the `noSet` actions are returned unwrapped, and their calls are not modelled.
- `callSubscriptors` iterates the live array, so a subscription that unsubscribes during the iteration shortens it. The model iterates the list as it was when the call began.
- Listener, subscription and lifecycle-hook bodies are opaque. Their calls are recorded, not what they do, and they cannot re-enter the model.
- FunCore.FunObject.CallProp, FunCore.FunObject.Settle, ListenerSets.ListenerSet.Dispatch and FunCore.BroadcastsChain: every listener on a holder's set is assumed to return. In the source, a listener that throws (the selector dispatcher's `Raise` included) aborts the `forEach` of `dispatch`. The later listeners are then skipped, the wrapper or `handlePromise` exits before `prev = next`, and `prev` stays stale. None of this is captured. The registry's dispatcher does model a throwing listener (`Storage.ForwardTo`, `Storage.CollectStops`).
- EsmVariant.EsmFun.CallProp: a factory action calling `set` is modelled only when its body ends with `return set(rv)` (`EsmVariant.EsmFun.CallSetting`). A `set` call in the middle of a body, or several per call, is modelled as `CallProp` followed by `EsmVariant.EsmFun.Set` calls.
- Values.Get: a property read on a primitive yields `undefined`, and the prototype chain is ignored. In JavaScript, `"ab"[0]`, `"ab".length` and `({}).toString` are defined. So `change(a, b)` can differ from the source when `a` is a string or `b` has a key such as `toString` or `constructor`.
- KoreModel.Kore.ApplyUpdate and Storage.Store.KoreSetState: the identity of the object a merge allocates is a parameter. It is required only to differ from the old state's identity, not from every other object alive.
- FunCore.FunObject.Fun: requires the holder to have no listener set. `init` only calls it then, and the effect of a second direct `fun(funObj)` call (which discards the listener set and wraps the wrappers) is not modelled.
- FunCore.FunObject.Mounting: requires the listener set to exist. The source's non-null assertion would throw a TypeError otherwise, which cannot happen after `init`.
- KoreModel.KoreClass: `constructed` stands for the state the subclass's own field initialisers leave after `new koreClass()`. Subclass constructor code is opaque.
- Storage.Store.InitKore: `_properInitdKoreko` is never set to `false` anywhere in the modelled files. The marker is a field that other code may set.
- The ordering of mount effects relative to React's render and commit phases is out of scope.

## Findings

| source | as written | input that shows it | evidently intended | confidence | as-written member | corrected member |
|---|---|---|---|---|---|---|
| src/main.ts:127-133 | The selector dispatcher calls `change(newSelector, oldSelector)` with no undefined or null guard, so an old object slice with keys and a vanished new slice make `change` read a key of `undefined` | state `{item: {a: 1}}` becomes `{}` under `s => s.item` | a slice that appears or vanishes re-renders, as the undefined guard of `lib/main.esm.js:83` does | high (not executed) | FunCore.SelectDispatchRaisesOnVanishedSlice | FunCore.GuardedSelectDispatch |
| src/main.ts:127-133 | `change(newSelector, oldSelector)` iterates the keys of the OLD slice, so a key added to the slice is never compared | slice `{a: 1}` becomes `{a: 1, b: 2}` | compare the new slice against the old one, as `fun` compares `next` against `prev` | medium (not executed) | FunCore.SelectDispatchMissesAddedKey | FunCore.GuardedSelectDispatch |
| src/main.ts:74-80 | `handlePromise` calls `change(prev, next)`, which throws when `prev` is undefined or null and `next` is an object with keys, so the change is never broadcast | state `undefined`, then an async action fulfils leaving `{items: 3}` | a state that appears counts as a change and is broadcast | high (not executed) | FunCore.HandlePromiseRaisesFromUndefined | FunCore.GuardedHandlePromise |
| lib/main.esm.js:80-85 | the guard checks only `=== undefined`, so an old object slice with keys and a new `null` slice still make `change` read a key of `null` | state `{item: {a: 1}}` becomes `{item: null}` under `s => s.item` | a null slice is treated like an undefined one | medium (not executed) | EsmVariant.EsmSelectDispatchRaisesOnNullSlice | FunCore.GuardedSelectDispatch |
