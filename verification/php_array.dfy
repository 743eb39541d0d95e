/** PHP arrays with string keys, as the plugin's vocabulary tables and option
    lists use them: an ordered list of key => value entries, indexed by key. */
module PhpArray {

  datatype Option<+T> = None | Some(value: T)

  /** One `key => value` pair of a PHP array. */
  datatype Entry = Entry(key: string, value: string)

  /** A PHP array whose keys and values are strings, in insertion order. */
  type OrderedMap = seq<Entry>

  /** PHP truthiness of a value that is either null (None) or a string:
      null, '' and '0' are falsy, every other string is truthy. */
  predicate Truthy(v: Option<string>)
  {
    v.Some? && v.value != "" && v.value != "0"
  }

  /** PHP's `empty()` on a string. */
  predicate IsEmpty(s: string)
  {
    s == "" || s == "0"
  }

  predicate HasKey(m: OrderedMap, k: string)
  {
    exists i :: 0 <= i < |m| && m[i].key == k
  }

  /** A PHP array never holds the same key twice. */
  predicate DistinctKeys(m: OrderedMap)
  {
    forall i, j :: 0 <= i < j < |m| ==> m[i].key != m[j].key
  }

  /** `$m[$k]`: the value stored under `k`, or None (PHP's null for an
      undefined index). */
  function Lookup(m: OrderedMap, k: string): (r: Option<string>)
    ensures r.Some? <==> HasKey(m, k)
    ensures r.Some? ==> exists i :: 0 <= i < |m| && m[i] == Entry(k, r.value)
  {
    if m == [] then None
    else if m[0].key == k then Some(m[0].value)
    else
      var r := Lookup(m[1..], k);
      assert forall i :: 0 <= i < |m| - 1 ==> m[1..][i] == m[i + 1];
      assert m[0].key != k;
      r
  }

  /** In an array with distinct keys, looking up the key of an entry yields
      that entry's value. */
  lemma {:induction false} LookupAt(m: OrderedMap, i: int)
    requires DistinctKeys(m) && 0 <= i < |m|
    ensures Lookup(m, m[i].key) == Some(m[i].value)
  {
    if i > 0 {
      assert m[0].key != m[i].key;
      assert m[1..][i - 1] == m[i];
      LookupAt(m[1..], i - 1);
    }
  }

  /** The entries of `b` whose key is not a key of `a`, in `b`'s order. */
  function Without(b: OrderedMap, a: OrderedMap): (r: OrderedMap)
    ensures |r| <= |b|
    ensures forall e :: e in r ==> e in b && !HasKey(a, e.key)
  {
    if b == [] then []
    else (if HasKey(a, b[0].key) then [] else [b[0]]) + Without(b[1..], a)
  }

  /** PHP's array union `a + b`: every entry of `a`, then the entries of `b`
      whose key `a` does not already hold. */
  function Union(a: OrderedMap, b: OrderedMap): (r: OrderedMap)
    ensures |a| <= |r| <= |a| + |b| && r[..|a|] == a
    ensures forall e :: e in r[|a|..] ==> e in b && !HasKey(a, e.key)
  {
    var rest := Without(b, a);
    assert (a + rest)[..|a|] == a && (a + rest)[|a|..] == rest;
    a + rest
  }

  lemma {:induction false} LookupAppend(a: OrderedMap, c: OrderedMap, k: string)
    ensures Lookup(a + c, k) == if HasKey(a, k) then Lookup(a, k) else Lookup(c, k)
  {
    if a != [] {
      assert (a + c)[0] == a[0];
      assert (a + c)[1..] == a[1..] + c;
      if a[0].key == k {
        assert HasKey(a, k) by { assert a[0].key == k; }
      } else {
        LookupAppend(a[1..], c, k);
        assert HasKey(a, k) <==> HasKey(a[1..], k) by {
          if HasKey(a, k) {
            var i :| 0 <= i < |a| && a[i].key == k;
            assert a[1..][i - 1] == a[i];
          }
          if HasKey(a[1..], k) {
            var i :| 0 <= i < |a| - 1 && a[1..][i].key == k;
            assert a[i + 1].key == k;
          }
        }
      }
    } else {
      assert a + c == c;
    }
  }

  lemma {:induction false} LookupWithout(b: OrderedMap, a: OrderedMap, k: string)
    requires !HasKey(a, k)
    ensures Lookup(Without(b, a), k) == Lookup(b, k)
  {
    if b != [] {
      var head := if HasKey(a, b[0].key) then [] else [b[0]];
      LookupWithout(b[1..], a, k);
      LookupAppend(head, Without(b[1..], a), k);
      if head == [] {
        assert b[0].key != k;
      }
    }
  }

  /** Looking a key up in `a + b` finds it in `a` first and only then in `b`. */
  lemma UnionLookup(a: OrderedMap, b: OrderedMap, k: string)
    ensures Lookup(Union(a, b), k) == if HasKey(a, k) then Lookup(a, k) else Lookup(b, k)
  {
    LookupAppend(a, Without(b, a), k);
    if !HasKey(a, k) {
      LookupWithout(b, a, k);
    }
  }

  lemma {:induction false} WithoutDisjoint(b: OrderedMap, a: OrderedMap)
    requires forall i :: 0 <= i < |b| ==> !HasKey(a, b[i].key)
    ensures Without(b, a) == b
  {
    if b != [] {
      assert b[0].key == b[0].key && !HasKey(a, b[0].key);
      assert forall i :: 0 <= i < |b| - 1 ==> b[1..][i] == b[i + 1];
      WithoutDisjoint(b[1..], a);
    }
  }

  /** When no key of `b` is a key of `a`, the union drops nothing: it is `a`
      followed by `b`, entry for entry. */
  lemma UnionDisjoint(a: OrderedMap, b: OrderedMap)
    requires forall i :: 0 <= i < |b| ==> !HasKey(a, b[i].key)
    ensures Union(a, b) == a + b
  {
    WithoutDisjoint(b, a);
  }
}
