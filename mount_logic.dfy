/** The mount and unmount bookkeeping of src/mountLogic.ts: each mounted
    component registers its dispatcher in the listener map of its kore's
    registry entry; the first one to do so triggers `instanceCreated`, and
    unmounting may destroy the instance. */
module MountLogic {
  import opened Values
  import opened ListenerSets
  import opened Partial
  import opened KoreModel
  import opened Storage

  /** Whether a mount of the class `name` is a first mount: no entry, or an
      entry without a listener map. */
  predicate FirstMount(reg: Registry, name: string) {
    name !in reg || reg[name].listeners.None?
  }

  /** The registry after `mountLogic(cb, ref, k)`: the entry exists (with `k`
      if it had to be created), the first mount creates a map holding only
      `ref`, a later one sets `ref` in the existing map; no other name is
      touched. */
  function Mounted(reg: Registry, k: Kore, ref: Ref, cb: Callback): (r: Registry)
    requires RegistryOk(reg)
    ensures RegistryOk(r) && k.name in r && !FirstMount(r, k.name)
    ensures FirstMount(reg, k.name) ==> r[k.name].listeners == Some(Listeners([ref], map[ref := cb]))
    ensures !FirstMount(reg, k.name) ==>
      r[k.name].listeners == Some(MapSet(reg[k.name].listeners.value, ref, cb))
    ensures r[k.name].kore == if k.name in reg then reg[k.name].kore else k
    ensures forall n :: n != k.name ==> (n in r <==> n in reg) && (n in r ==> r[n] == reg[n])
  {
    var reg1 := if k.name in reg then reg else reg[k.name := Entry(k, None)];
    var e := reg1[k.name];
    if e.listeners.None? then reg1[k.name := e.(listeners := Some(Listeners([ref], map[ref := cb])))]
    else reg1[k.name := e.(listeners := Some(MapSet(e.listeners.value, ref, cb)))]
  }

  /** What `unmountLogic(ref, k)` leaves: the registry, whether it destroyed
      the instance, and whether it threw (`destroyInstance` called before
      `initKore` installed it). */
  datatype Unmounting = Unmounting(reg: Registry, destroyed: bool, raised: bool)

  /** `unmountLogic(ref, k)`: with a non-empty map, delete `ref`; then, with
      `destroyOnUnmount`, a non-forced destroy. An empty or missing map
      changes nothing. */
  function Unmounted(reg: Registry, k: Kore, ref: Ref, installed: bool): (u: Unmounting)
    requires RegistryOk(reg)
    ensures RegistryOk(u.reg)
    ensures ListenerCount(reg, k.name) == 0 ==> u == Unmounting(reg, false, false)
    ensures ListenerCount(reg, k.name) > 0 && !u.destroyed ==>
      u.reg == reg[k.name := reg[k.name].(listeners := Some(MapDelete(reg[k.name].listeners.value, ref)))]
    ensures u.destroyed <==>
      k.destroyOnUnmount && installed && ListenerCount(reg, k.name) > 0
      && ListenerCount(reg, k.name) == (if ref in reg[k.name].listeners.value.order then 1 else 0)
    ensures u.destroyed ==> k.name !in u.reg
    ensures u.raised <==> k.destroyOnUnmount && !installed && ListenerCount(reg, k.name) > 0
    ensures forall n :: n != k.name ==> (n in u.reg <==> n in reg) && (n in u.reg ==> u.reg[n] == reg[n])
  {
    if ListenerCount(reg, k.name) > 0 then
      var e := reg[k.name];
      var reg1 := reg[k.name := e.(listeners := Some(MapDelete(e.listeners.value, ref)))];
      if k.destroyOnUnmount then
        if !installed then Unmounting(reg1, false, true)
        else Unmounting(Destroyed(reg1, k.name, false), Destroys(reg1, k.name, false), false)
      else Unmounting(reg1, false, false)
    else Unmounting(reg, false, false)
  }

  /** The cleanup `mountLogic` returns: `unmountLogic` for the same reference
      and instance. */
  datatype Cleanup = Cleanup(ref: Ref, kore: Kore)

  /** `mountLogic(cb, ref, k)`, calling `instanceCreated` on a first mount. */
  method Mount(s: Store, cb: Callback, ref: Ref, k: Kore) returns (cleanup: Cleanup)
    requires s.Valid()
    modifies s`entries, s`hooks
    ensures s.Valid()
    ensures s.entries == Mounted(old(s.entries), k, ref, cb)
    ensures s.hooks == old(s.hooks) + (if FirstMount(old(s.entries), k.name) && k.hasInstanceCreated then [Created(k)] else [])
    ensures cleanup == Cleanup(ref, k)
  {
    if k.name !in s.entries {
      s.entries := s.entries[k.name := Entry(k, None)];
    }
    var e := s.entries[k.name];
    if e.listeners.None? {
      s.entries := s.entries[k.name := e.(listeners := Some(Listeners([ref], map[ref := cb])))];
      if k.hasInstanceCreated {
        s.hooks := s.hooks + [Created(k)];
      }
    } else {
      s.entries := s.entries[k.name := e.(listeners := Some(MapSet(e.listeners.value, ref, cb)))];
    }
    cleanup := Cleanup(ref, k);
  }

  /** `unmountLogic(ref, k)`, calling `instanceDeleted` when it destroys the
      instance; `ok` is false when it throws. */
  method Unmount(s: Store, c: Cleanup) returns (ok: bool)
    requires s.Valid()
    modifies s`entries, s`hooks
    ensures s.Valid()
    ensures var u := Unmounted(old(s.entries), c.kore, c.ref, c.kore.installed);
      s.entries == u.reg && ok == !u.raised
      && s.hooks == old(s.hooks) + (if u.destroyed && c.kore.hasInstanceDeleted then [Deleted(c.kore)] else [])
  {
    var k := c.kore;
    ok := true;
    var size := if k.name in s.entries && s.entries[k.name].listeners.Some? then |s.entries[k.name].listeners.value.order| else 0;
    if size > 0 {
      var e := s.entries[k.name];
      s.entries := s.entries[k.name := e.(listeners := Some(MapDelete(e.listeners.value, c.ref)))];
      if k.destroyOnUnmount {
        if !k.installed {
          return false;
        }
        s.DestroyInstance(k, false);
      }
    }
  }

  /** Mounting a reference and running its cleanup restores the registry,
      when the instance is not destroyed on unmount and the map already
      existed without that reference. */
  lemma MountThenCleanupRestores(reg: Registry, k: Kore, ref: Ref, cb: Callback, installed: bool)
    requires RegistryOk(reg) && !k.destroyOnUnmount
    requires k.name in reg && reg[k.name].listeners.Some? && ref !in reg[k.name].listeners.value.order
    ensures Unmounted(Mounted(reg, k, ref, cb), k, ref, installed) == Unmounting(reg, false, false)
  {
    var ls := reg[k.name].listeners.value;
    RemovedUndoesAdded(ls.order, ref);
    assert ref !in ls.callbacks;
    assert ls.callbacks[ref := cb] - {ref} == ls.callbacks;
    assert MapDelete(MapSet(ls, ref, cb), ref) == ls;
    var m := Mounted(reg, k, ref, cb);
    assert m[k.name].(listeners := Some(ls)) == reg[k.name];
    assert m[k.name := reg[k.name]] == reg;
  }

  /** Mounting the same reference again adds no listener: the order is
      unchanged and the reference holds the later callback. */
  lemma MountTwiceKeepsOneEntry(reg: Registry, k: Kore, ref: Ref, cb1: Callback, cb2: Callback)
    requires RegistryOk(reg)
    ensures var once := Mounted(reg, k, ref, cb1);
      var twice := Mounted(once, k, ref, cb2);
      twice[k.name].listeners.value.order == once[k.name].listeners.value.order
      && twice[k.name].listeners.value.callbacks[ref] == cb2
  {
  }

  /** A run of mounts, cleanups and destroys on one instance. */
  datatype Op = MountOp(ref: Ref, cb: Callback) | UnmountOp(ref: Ref) | DestroyOp(force: bool)

  /** The registry after one operation. */
  function ApplyOp(reg: Registry, k: Kore, installed: bool, op: Op): (r: Registry)
    requires RegistryOk(reg)
    ensures RegistryOk(r)
  {
    match op
    case MountOp(ref, cb) => Mounted(reg, k, ref, cb)
    case UnmountOp(ref) => Unmounted(reg, k, ref, installed).reg
    case DestroyOp(force) => Destroyed(reg, k.name, force)
  }

  /** How many mounts in `ops` are first mounts, i.e. call `instanceCreated`. */
  function FirstMounts(reg: Registry, k: Kore, installed: bool, ops: seq<Op>): nat
    requires RegistryOk(reg)
    decreases |ops|
  {
    if ops == [] then 0
    else
      (if ops[0].MountOp? && FirstMount(reg, k.name) then 1 else 0)
      + FirstMounts(ApplyOp(reg, k, installed, ops[0]), k, installed, ops[1..])
  }

  /** Whether an operation drops the entry of the class: an unforced or
      forced destroy that takes effect, or a cleanup that destroys. */
  predicate Drops(reg: Registry, k: Kore, installed: bool, op: Op)
    requires RegistryOk(reg)
  {
    k.name in reg && k.name !in ApplyOp(reg, k, installed, op)
  }

  /** How many operations in `ops` actually drop the entry of the class. */
  function Removals(reg: Registry, k: Kore, installed: bool, ops: seq<Op>): nat
    requires RegistryOk(reg)
    decreases |ops|
  {
    if ops == [] then 0
    else
      (if Drops(reg, k, installed, ops[0]) then 1 else 0)
      + Removals(ApplyOp(reg, k, installed, ops[0]), k, installed, ops[1..])
  }

  /** An operation that does not drop the entry leaves a mounted class
      mounted. */
  lemma StaysMounted(reg: Registry, k: Kore, installed: bool, op: Op)
    requires RegistryOk(reg) && !FirstMount(reg, k.name) && !Drops(reg, k, installed, op)
    ensures !FirstMount(ApplyOp(reg, k, installed, op), k.name)
  {
    match op
    case MountOp(ref, cb) =>
    case UnmountOp(ref) =>
      var u := Unmounted(reg, k, ref, installed);
      if ListenerCount(reg, k.name) > 0 && !u.destroyed {
        assert u.reg[k.name].listeners.Some?;
      }
    case DestroyOp(force) =>
  }

  /** `instanceCreated` runs at most once per life of the entry: across any
      run of operations on any class, the first mounts number at most one
      (if the run starts with no listener map) plus the operations that
      actually dropped the entry. */
  lemma {:induction false} FirstMountsBounded(reg: Registry, k: Kore, installed: bool, ops: seq<Op>)
    requires RegistryOk(reg)
    ensures FirstMounts(reg, k, installed, ops)
            <= (if FirstMount(reg, k.name) then 1 else 0) + Removals(reg, k, installed, ops)
    decreases |ops|
  {
    if ops != [] {
      var next := ApplyOp(reg, k, installed, ops[0]);
      FirstMountsBounded(next, k, installed, ops[1..]);
      if !FirstMount(reg, k.name) && !Drops(reg, k, installed, ops[0]) {
        StaysMounted(reg, k, installed, ops[0]);
      }
    }
  }

  /** Once some component has mounted, `instanceCreated` is not called again
      by a run in which the entry is never dropped, whatever the class's
      `destroyOnUnmount` and whatever destroys that do not take effect: all
      listeners may unmount and remount. */
  lemma NoSecondCreationWithoutDestroy(reg: Registry, k: Kore, installed: bool, ops: seq<Op>)
    requires RegistryOk(reg) && !FirstMount(reg, k.name) && Removals(reg, k, installed, ops) == 0
    ensures FirstMounts(reg, k, installed, ops) == 0
  {
    FirstMountsBounded(reg, k, installed, ops);
  }

  /** A class destroyed on unmount, with listeners `a` and `b`: `a` leaves,
      an unforced destroy is refused, and `a` mounts again. The entry is never
      dropped, so the remount does not call `instanceCreated`. */
  lemma RemountWhileOthersListen(reg: Registry, k: Kore, a: Ref, b: Ref, cba: Callback, cbb: Callback)
    requires RegistryOk(reg) && k.name in reg && reg[k.name].listeners == Some(Listeners([a, b], map[a := cba, b := cbb]))
    requires k.destroyOnUnmount && a != b
    ensures var ops := [UnmountOp(a), DestroyOp(false), MountOp(a, cba)];
      Removals(reg, k, true, ops) == 0 && FirstMounts(reg, k, true, ops) == 0
  {
    var ops := [UnmountOp(a), DestroyOp(false), MountOp(a, cba)];
    assert Removed([a, b], a) == [b] by {
      assert [a, b][1..] == [b];
      assert Removed([b], a) == [b] by {
        assert [b][1..] == [];
      }
    }
    var r1 := ApplyOp(reg, k, true, ops[0]);
    assert r1[k.name].listeners.value.order == [b];
    var r2 := ApplyOp(r1, k, true, ops[1]);
    assert r2 == r1;
    var r3 := ApplyOp(r2, k, true, ops[2]);
    assert ops[1..] == [DestroyOp(false), MountOp(a, cba)];
    assert ops[1..][1..] == [MountOp(a, cba)];
    assert ops[1..][1..][1..] == [];
    assert !Drops(reg, k, true, ops[0]) && !Drops(r1, k, true, ops[1]) && !Drops(r2, k, true, ops[2]);
    assert Removals(r3, k, true, []) == 0;
    assert Removals(r2, k, true, ops[1..][1..]) == 0;
    assert Removals(r1, k, true, ops[1..]) == 0;
    NoSecondCreationWithoutDestroy(reg, k, true, ops);
  }

  /** With `destroyOnUnmount`, a cleanup destroys the instance exactly when
      it removed the last listener: the destroy is not forced. */
  lemma DestroyOnlyWhenLastLeaves(reg: Registry, k: Kore, a: Ref, b: Ref, cba: Callback, cbb: Callback)
    requires RegistryOk(reg) && FirstMount(reg, k.name) && k.destroyOnUnmount && a != b
    ensures var two := Mounted(Mounted(reg, k, a, cba), k, b, cbb);
      var u1 := Unmounted(two, k, a, true);
      && !u1.destroyed && k.name in u1.reg
      && Unmounted(u1.reg, k, b, true).destroyed
  {
    var one := Mounted(reg, k, a, cba);
    var two := Mounted(one, k, b, cbb);
    assert two[k.name].listeners.value.order == [a, b];
    var u1 := Unmounted(two, k, a, true);
    assert Removed([a, b], a) == [b] by {
      assert [a, b][1..] == [b];
      assert Removed([b], a) == [b] by {
        assert [b][1..] == [];
      }
    }
    assert u1.reg[k.name].listeners.value.order == [b];
  }
}
