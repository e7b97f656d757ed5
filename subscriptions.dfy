/** The global subscription lists of src/subscriptions.ts: per kore class
    name, an ordered array of callbacks, each called with the instance after
    it is created, re-initialised or updated. */
module Subscriptions {
  import opened KoreModel

  /** A subscription callback, identified by reference. */
  type SubRef = nat

  /** One call `l(kore)` made by `callSubscriptors`, with the instance it
      was handed. */
  datatype SubCall = SubCall(sub: SubRef, kore: Kore)

  /** How many times `x` occurs in `s`. */
  function Count(s: seq<SubRef>, x: SubRef): nat {
    if s == [] then 0 else (if s[0] == x then 1 else 0) + Count(s[1..], x)
  }

  lemma {:induction false} CountAppend(s: seq<SubRef>, t: seq<SubRef>, x: SubRef)
    ensures Count(s + t, x) == Count(s, x) + Count(t, x)
    decreases |s|
  {
    if s == [] {
      assert s + t == t;
    } else {
      assert (s + t)[1..] == s[1..] + t;
      CountAppend(s[1..], t, x);
    }
  }

  /** `array.indexOf(x)`: the first position holding `x`, or -1. */
  method IndexOf(s: seq<SubRef>, x: SubRef) returns (i: int)
    ensures i == -1 <==> x !in s
    ensures i != -1 ==> 0 <= i < |s| && s[i] == x && x !in s[..i]
  {
    i := 0;
    while i < |s|
      invariant 0 <= i <= |s|
      invariant x !in s[..i]
    {
      if s[i] == x {
        return i;
      }
      i := i + 1;
    }
    assert s[..i] == s;
    return -1;
  }

  /** `s` with its first occurrence of `x` removed (`splice(indexOf(x), 1)`),
      or `s` itself when `x` does not occur. */
  function RemoveFirst(s: seq<SubRef>, x: SubRef): (t: seq<SubRef>)
    ensures x !in s ==> t == s
    ensures x in s ==> |t| == |s| - 1 && Count(t, x) == Count(s, x) - 1
    ensures forall y :: y != x ==> Count(t, y) == Count(s, y)
    decreases |s|
  {
    if s == [] then []
    else if s[0] == x then s[1..]
    else [s[0]] + RemoveFirst(s[1..], x)
  }

  /** `RemoveFirst` cuts at the first occurrence: everything before it and
      everything after it stays, in order. */
  lemma {:induction false} RemoveFirstSplits(s: seq<SubRef>, x: SubRef, i: nat)
    requires i < |s| && s[i] == x && x !in s[..i]
    ensures RemoveFirst(s, x) == s[..i] + s[i + 1..]
    decreases |s|
  {
    if i > 0 {
      assert s[0] in s[..i];
      assert s[1..][..i - 1] == s[1..i];
      RemoveFirstSplits(s[1..], x, i - 1);
      assert [s[0]] + s[1..i] == s[..i];
    }
  }

  /** The list of `name`, empty when it has none. */
  function ListOf(lists: map<string, seq<SubRef>>, name: string): seq<SubRef> {
    if name in lists then lists[name] else []
  }

  /** The map after `pushSubscription(name, sub)`: the name's list (created
      when absent) gains `sub` at its end; every other name keeps its list. */
  function Pushed(lists: map<string, seq<SubRef>>, name: string, sub: SubRef): (r: map<string, seq<SubRef>>)
    ensures r.Keys == lists.Keys + {name}
    ensures r[name] == ListOf(lists, name) + [sub]
    ensures forall n :: n in lists && n != name ==> r[n] == lists[n]
  {
    lists[name := ListOf(lists, name) + [sub]]
  }

  /** Pushing the same callback twice lists it twice more, after everything
      the list held before. */
  lemma PushTwiceListsTwice(lists: map<string, seq<SubRef>>, name: string, f: SubRef)
    ensures var twice := Pushed(Pushed(lists, name, f), name, f);
      Count(twice[name], f) == Count(ListOf(lists, name), f) + 2
      && twice[name][..|ListOf(lists, name)|] == ListOf(lists, name)
  {
    var s := ListOf(lists, name);
    assert Pushed(Pushed(lists, name, f), name, f)[name] == s + [f] + [f];
    CountAppend(s + [f], [f], f);
    CountAppend(s, [f], f);
    assert [f][1..] == [];
    assert (s + [f] + [f])[..|s|] == s;
  }

  /** The `subscriptions` map and the calls made through it. */
  class SubscriptionTable {
    var lists: map<string, seq<SubRef>>
    var calls: seq<SubCall>

    constructor ()
      ensures lists == map[] && calls == []
    {
      lists := map[];
      calls := [];
    }

    /** `pushSubscription(name, sub)`: append to the name's list, creating it
        when absent; every other name keeps its list. */
    method Push(name: string, sub: SubRef)
      modifies this`lists
      ensures lists == Pushed(old(lists), name, sub)
    {
      var current := if name in lists then lists[name] else [];
      lists := lists[name := current + [sub]];
    }

    /** `unsubscribe(sub, name)`: remove the first occurrence of `sub` from the
        name's list; an unknown name or an absent callback changes nothing. */
    method Unsubscribe(sub: SubRef, name: string)
      modifies this`lists
      ensures name !in old(lists) ==> lists == old(lists)
      ensures name in old(lists) ==> lists == old(lists)[name := RemoveFirst(old(lists)[name], sub)]
    {
      if name in lists {
        var list := lists[name];
        var index := IndexOf(list, sub);
        if index != -1 {
          RemoveFirstSplits(list, sub, index);
          lists := lists[name := list[..index] + list[index + 1..]];
        } else {
          lists := lists[name := list];
        }
      }
    }

    /** `callSubscriptors(kore)`: call every subscription of the instance's
        class name, in list order, once each, with that instance. */
    method CallSubscriptors(kore: Kore)
      modifies this`calls
      ensures calls == old(calls) + SubCalls(ListOf(lists, kore.name), kore)
    {
      var list := if kore.name in lists then lists[kore.name] else [];
      var i := 0;
      while i < |list|
        invariant 0 <= i <= |list|
        invariant calls == old(calls) + SubCalls(list[..i], kore)
      {
        calls := calls + [SubCall(list[i], kore)];
        i := i + 1;
      }
      assert list[..i] == list;
    }
  }

  /** The calls `forEach` makes over `list`, each handed `kore`. */
  function SubCalls(list: seq<SubRef>, kore: Kore): (r: seq<SubCall>)
    ensures |r| == |list| && forall i :: 0 <= i < |list| ==> r[i] == SubCall(list[i], kore)
  {
    seq(|list|, i requires 0 <= i < |list| => SubCall(list[i], kore))
  }
}
