/** The shallow comparison `change(a, b)` of src/main.ts (identical in
    lib/main.esm.js): next-keys-driven, `Object.is` per key. */
module Equality {
  import opened Values

  /** `change(a, b)` throws a TypeError: `b` is an object with at least one
      key, so the loop reads `a[key]`, and `a` is undefined or null. */
  predicate ChangeThrows(a: Val, b: Val) {
    b.Obj? && b.fields.Keys != {} && IsNullish(a)
  }

  /** What `change(a, b)` returns when it does not throw: for an object `b`,
      some key of `b` holds a value in `a` that is not `Object.is` to the one
      in `b`; otherwise `b` itself is not `Object.is` to `a`. */
  predicate Changed(a: Val, b: Val)
    requires !ChangeThrows(a, b)
  {
    if b.Obj? then
      exists k :: k in b.fields && !SameValue(Get(a, k), b.fields[k])
    else
      !SameValue(b, a)
  }

  /** The loop of `change` as written: visit the keys of `b`, stop at the first
      whose value differs; `None` stands for the TypeError. */
  method ComputeChange(a: Val, b: Val) returns (r: Option<bool>)
    ensures r.None? <==> ChangeThrows(a, b)
    ensures r.Some? ==> r.value == Changed(a, b)
  {
    if b.Obj? {
      var unvisited := b.fields.Keys;
      while unvisited != {}
        invariant unvisited <= b.fields.Keys
        invariant unvisited != b.fields.Keys ==> !IsNullish(a)
        invariant forall k :: k in b.fields && k !in unvisited ==>
                    !IsNullish(a) && SameValue(Get(a, k), b.fields[k])
        decreases unvisited
      {
        var k :| k in unvisited;
        if IsNullish(a) {
          return None;
        }
        if !SameValue(Get(a, k), b.fields[k]) {
          return Some(true);
        }
        unvisited := unvisited - {k};
      }
      return Some(false);
    } else {
      return Some(!SameValue(b, a));
    }
  }

  /** A snapshot never differs from itself: `change(x, x)` neither throws nor
      reports a change. */
  lemma NoChangeAgainstItself(x: Val)
    ensures !ChangeThrows(x, x) && !Changed(x, x)
  {
    if x.Obj? {
      forall k | k in x.fields
        ensures SameValue(Get(x, k), x.fields[k])
      {
        SameValueReflexive(x.fields[k]);
      }
    } else {
      SameValueReflexive(x);
    }
  }

  /** Keys present only in the previous snapshot never matter: two previous
      snapshots that agree on the keys of `b` give the same answer. */
  lemma PrevOnlyKeysIgnored(a1: Val, a2: Val, b: Val)
    requires b.Obj? && !IsNullish(a1) && !IsNullish(a2)
    requires forall k :: k in b.fields ==> SameValue(Get(a1, k), Get(a2, k))
    ensures Changed(a1, b) == Changed(a2, b)
  {
    if Changed(a1, b) {
      var k :| k in b.fields && !SameValue(Get(a1, k), b.fields[k]);
      SameValueSymmetric(Get(a1, k), Get(a2, k));
      SameValueTransitive(Get(a2, k), Get(a1, k), b.fields[k]);
    }
    if Changed(a2, b) {
      var k :| k in b.fields && !SameValue(Get(a2, k), b.fields[k]);
      SameValueTransitive(Get(a1, k), Get(a2, k), b.fields[k]);
    }
  }

  lemma SameValueTransitive(x: Val, y: Val, z: Val)
    requires SameValue(x, y)
    ensures SameValue(y, z) == SameValue(x, z)
  {
  }

  /** Shallow-equality idempotence: a next snapshot every key of which holds,
      by `Object.is`, what the previous snapshot holds reports no change, even
      when it is a different object. */
  lemma FieldwiseEqualIsNoChange(prev: Val, next: Val)
    requires next.Obj? && prev.Obj?
    requires forall k :: k in next.fields ==> k in prev.fields && SameValue(prev.fields[k], next.fields[k])
    ensures !ChangeThrows(prev, next) && !Changed(prev, next)
  {
  }
}
