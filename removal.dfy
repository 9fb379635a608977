/**
 * Removal by identity: `list.filter((x) => key(x) !== id)`, the operation
 * behind `removeToast` and every resource store's delete.
 */
module Removal {

  /** The elements of `s` whose key differs from `id`, in their original order. */
  function Without<T, K(==)>(s: seq<T>, key: T -> K, id: K): (r: seq<T>)
    ensures |r| <= |s|
    ensures forall i :: 0 <= i < |r| ==> key(r[i]) != id
    ensures forall x :: x in r ==> x in s
  {
    if s == [] then []
    else (if key(s[0]) == id then [] else [s[0]]) + Without(s[1..], key, id)
  }

  /** The keys of `s`, in order. */
  function Keys<T, K>(s: seq<T>, key: T -> K): (ks: seq<K>)
    ensures |ks| == |s|
    ensures forall i :: 0 <= i < |s| ==> ks[i] == key(s[i])
  {
    if s == [] then [] else [key(s[0])] + Keys(s[1..], key)
  }

  predicate HasKey<T, K(==)>(s: seq<T>, key: T -> K, id: K) {
    exists i :: 0 <= i < |s| && key(s[i]) == id
  }

  /** Removing from a concatenation removes from each part and keeps the parts in order. */
  lemma {:induction false} WithoutAppend<T, K>(a: seq<T>, b: seq<T>, key: T -> K, id: K)
    ensures Without(a + b, key, id) == Without(a, key, id) + Without(b, key, id)
  {
    if a == [] {
      assert a + b == b;
    } else {
      assert (a + b)[1..] == a[1..] + b;
      WithoutAppend(a[1..], b, key, id);
    }
  }

  /**
   * Every element whose key differs from `id` survives exactly as often as it
   * occurred, and no element with key `id` survives.
   */
  lemma {:induction false} WithoutCounts<T, K>(s: seq<T>, key: T -> K, id: K, x: T)
    ensures multiset(Without(s, key, id))[x] == if key(x) == id then 0 else multiset(s)[x]
  {
    if s != [] {
      WithoutCounts(s[1..], key, id, x);
      var head := if key(s[0]) == id then [] else [s[0]];
      assert Without(s, key, id) == head + Without(s[1..], key, id);
      assert multiset(Without(s, key, id)) == multiset(head) + multiset(Without(s[1..], key, id));
      assert s == [s[0]] + s[1..];
      assert multiset(s) == multiset([s[0]]) + multiset(s[1..]);
    }
  }

  /** Nothing is removed exactly when no element carries the key. */
  lemma {:induction false} WithoutUnchangedIff<T, K>(s: seq<T>, key: T -> K, id: K)
    ensures Without(s, key, id) == s <==> !HasKey(s, key, id)
  {
    if s == [] {
    } else {
      WithoutUnchangedIff(s[1..], key, id);
      if key(s[0]) == id {
        assert |Without(s, key, id)| < |s| by {
          assert Without(s, key, id) == Without(s[1..], key, id);
        }
      } else {
        assert Without(s, key, id) == [s[0]] + Without(s[1..], key, id);
        if HasKey(s[1..], key, id) {
          var i :| 0 <= i < |s[1..]| && key(s[1..][i]) == id;
          assert key(s[i + 1]) == id;
        }
        if HasKey(s, key, id) {
          var i :| 0 <= i < |s| && key(s[i]) == id;
          assert key(s[1..][i - 1]) == id;
        }
      }
    }
  }

  /** Removing twice is removing once. */
  lemma WithoutIdempotent<T, K>(s: seq<T>, key: T -> K, id: K)
    ensures Without(Without(s, key, id), key, id) == Without(s, key, id)
  {
    WithoutUnchangedIff(Without(s, key, id), key, id);
  }

  /** Removing an element that was just appended under a key nobody else carries restores the list. */
  lemma RemoveAppendedFresh<T, K>(s: seq<T>, x: T, key: T -> K)
    requires !HasKey(s, key, key(x))
    ensures Without(s + [x], key, key(x)) == s
  {
    WithoutAppend(s, [x], key, key(x));
    WithoutUnchangedIff(s, key, key(x));
    assert Without([x], key, key(x)) == [];
  }
}
