/** The subscriber `Set` a state-holder keeps under its hidden `listeners`
    symbol: insertion-ordered, duplicate-free, and every broadcast calls each
    member once with `(next, prev)`. */
module ListenerSets {
  import opened Values

  /** A listener, identified by reference: a React `setState`, or a selector
      dispatcher closure made for one mount. */
  type Ref = nat

  /** One call `l(next, prev)` made by a broadcast. */
  datatype Call = Call(listener: Ref, next: Val, prev: Val)

  predicate NoDup(s: seq<Ref>) {
    forall i, j :: 0 <= i < j < |s| ==> s[i] != s[j]
  }

  /** `Set.prototype.add`: a reference already present keeps its place; a new
      one goes last. */
  function Added(s: seq<Ref>, r: Ref): (t: seq<Ref>)
    ensures NoDup(s) ==> NoDup(t)
    ensures forall x :: x in t <==> x in s || x == r
    ensures |t| == if r in s then |s| else |s| + 1
    ensures t[..|s|] == s
  {
    if r in s then s else s + [r]
  }

  /** `Set.prototype.delete`: every other member stays, in its order. */
  function Removed(s: seq<Ref>, r: Ref): (t: seq<Ref>)
    ensures NoDup(s) ==> NoDup(t)
    ensures forall x :: x in t <==> x in s && x != r
    ensures NoDup(s) ==> |t| == if r in s then |s| - 1 else |s|
  {
    if s == [] then []
    else if s[0] == r then Removed(s[1..], r)
    else
      var rest := Removed(s[1..], r);
      assert NoDup(s) ==> s[0] !in s[1..] && NoDup(s[1..]);
      [s[0]] + rest
  }

  /** A reference that was not a member leaves no trace once it is deleted
      again: mounting and then cleaning up restores the set. */
  lemma {:induction false} RemovedUndoesAdded(s: seq<Ref>, r: Ref)
    requires r !in s
    ensures Removed(Added(s, r), r) == s
  {
    RemovedAbsent(s, r);
    RemovedAppend(s, r);
  }

  lemma {:induction false} RemovedAbsent(s: seq<Ref>, r: Ref)
    requires r !in s
    ensures Removed(s, r) == s
  {
    if s != [] {
      RemovedAbsent(s[1..], r);
    }
  }

  lemma {:induction false} RemovedAppend(s: seq<Ref>, r: Ref)
    ensures Removed(s + [r], r) == Removed(s, r)
  {
    if s == [] {
      assert [r][1..] == [];
    } else {
      assert (s + [r])[1..] == s[1..] + [r];
      RemovedAppend(s[1..], r);
    }
  }

  /** The calls one broadcast of `(next, prev)` makes, in set order. */
  function Fanout(members: seq<Ref>, next: Val, prev: Val): (calls: seq<Call>)
    ensures |calls| == |members|
    ensures forall i :: 0 <= i < |members| ==> calls[i] == Call(members[i], next, prev)
  {
    seq(|members|, i requires 0 <= i < |members| => Call(members[i], next, prev))
  }

  /** Fan-out: every member, and only members, is called, once, with the same
      pair. */
  lemma FanoutReachesEveryMemberOnce(members: seq<Ref>, next: Val, prev: Val, r: Ref)
    requires NoDup(members)
    ensures r in members <==> Call(r, next, prev) in Fanout(members, next, prev)
    ensures forall c :: c in Fanout(members, next, prev) ==> c.next == next && c.prev == prev
    ensures forall i, j :: 0 <= i < j < |members| ==>
              Fanout(members, next, prev)[i].listener != Fanout(members, next, prev)[j].listener
  {
    var calls := Fanout(members, next, prev);
    if r in members {
      var i :| 0 <= i < |members| && members[i] == r;
      assert calls[i] == Call(r, next, prev);
    }
  }

  /** Unsubscribe isolation: after one member is deleted, a broadcast reaches
      exactly the others. */
  lemma UnsubscribeIsolation(members: seq<Ref>, gone: Ref, next: Val, prev: Val)
    requires NoDup(members)
    ensures forall r :: Call(r, next, prev) in Fanout(Removed(members, gone), next, prev)
              <==> r in members && r != gone
  {
    forall r ensures Call(r, next, prev) in Fanout(Removed(members, gone), next, prev)
                     <==> r in members && r != gone
    {
      FanoutReachesEveryMemberOnce(Removed(members, gone), next, prev, r);
    }
  }

  /** The listener `Set` object itself, with the calls its `forEach` makes. */
  class ListenerSet {
    var members: seq<Ref>
    var calls: seq<Call>

    ghost predicate Valid()
      reads this
    {
      NoDup(members)
    }

    /** `new Set()` */
    constructor ()
      ensures Valid() && members == [] && calls == []
    {
      members := [];
      calls := [];
    }

    method Add(r: Ref)
      requires Valid()
      modifies this`members
      ensures Valid() && members == Added(old(members), r)
    {
      members := Added(members, r);
    }

    method Delete(r: Ref)
      requires Valid()
      modifies this`members
      ensures Valid() && members == Removed(old(members), r)
    {
      members := Removed(members, r);
    }

    /** `dispatch(next, prev, set)`: `set.forEach(l => l(next, prev))`. */
    method Dispatch(next: Val, prev: Val)
      modifies this`calls
      ensures calls == old(calls) + Fanout(members, next, prev)
    {
      var i := 0;
      while i < |members|
        invariant 0 <= i <= |members|
        invariant calls == old(calls) + Fanout(members[..i], next, prev)
      {
        calls := calls + [Call(members[i], next, prev)];
        i := i + 1;
      }
      assert members[..i] == members;
    }
  }
}
