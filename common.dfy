/** Small shared vocabulary: optional numeric fields, record keys and
    the key-based filter that every deletion in the component performs. */
module Common {

  datatype Option<T> = None | Some(value: T)

  /** A numeric field read with `field || 0`: a missing field counts as zero. */
  function OrZero(a: Option<real>): (v: real)
    ensures a.None? ==> v == 0.0
    ensures a.Some? ==> v == a.value
  {
    if a.Some? then a.value else 0.0
  }

  function Max(a: real, b: real): (m: real)
    ensures m >= a && m >= b && (m == a || m == b)
  {
    if a >= b then a else b
  }

  function Min(a: real, b: real): (m: real)
    ensures m <= a && m <= b && (m == a || m == b)
  {
    if a <= b then a else b
  }

  /** An identifier as the component compares it with `!==`: ledger entries
      carry numeric ids, invoices carry string ids, and a number is never
      strictly equal to a string. */
  datatype Key = NumKey(n: int) | TextKey(s: string)

  /** The elements of `s` whose key differs from `k`, in their original
      order: `s.filter(r => key(r) !== k)`. */
  function RemoveKey<T, K(==)>(s: seq<T>, key: T -> K, k: K): (r: seq<T>)
    ensures |r| <= |s|
    ensures forall x :: x in r ==> x in s && key(x) != k
    ensures forall x :: x in s && key(x) != k ==> x in r
  {
    if s == [] then []
    else (if key(s[0]) != k then [s[0]] else []) + RemoveKey(s[1..], key, k)
  }

  /** Number of elements of `s` whose key is `k`. */
  function CountKey<T, K(==)>(s: seq<T>, key: T -> K, k: K): nat
  {
    if s == [] then 0
    else (if key(s[0]) == k then 1 else 0) + CountKey(s[1..], key, k)
  }

  /** Filtering distributes over concatenation, so the kept elements stay
      in the order they had. */
  lemma {:induction false} RemoveKeyAppend<T, K>(a: seq<T>, b: seq<T>, key: T -> K, k: K)
    ensures RemoveKey(a + b, key, k) == RemoveKey(a, key, k) + RemoveKey(b, key, k)
  {
    if a == [] {
      assert a + b == b;
    } else {
      var head := if key(a[0]) != k then [a[0]] else [];
      assert (a + b)[0] == a[0];
      assert (a + b)[1..] == a[1..] + b;
      RemoveKeyAppend(a[1..], b, key, k);
      calc {
        RemoveKey(a + b, key, k);
        head + RemoveKey(a[1..] + b, key, k);
        head + (RemoveKey(a[1..], key, k) + RemoveKey(b, key, k));
        (head + RemoveKey(a[1..], key, k)) + RemoveKey(b, key, k);
        RemoveKey(a, key, k) + RemoveKey(b, key, k);
      }
    }
  }

  /** Exactly the elements carrying key `k` disappear. */
  lemma {:induction false} RemoveKeyCount<T, K>(s: seq<T>, key: T -> K, k: K)
    ensures |RemoveKey(s, key, k)| == |s| - CountKey(s, key, k)
  {
    if s != [] {
      RemoveKeyCount(s[1..], key, k);
    }
  }

  /** Filtering by a key that no element carries changes nothing. */
  lemma {:induction false} RemoveKeyAbsent<T, K>(s: seq<T>, key: T -> K, k: K)
    requires forall i :: 0 <= i < |s| ==> key(s[i]) != k
    ensures RemoveKey(s, key, k) == s
  {
    if s != [] {
      RemoveKeyAbsent(s[1..], key, k);
      assert [s[0]] + s[1..] == s;
    }
  }

  /** Filtering twice by the same key is filtering once. */
  lemma RemoveKeyIdempotent<T, K>(s: seq<T>, key: T -> K, k: K)
    ensures RemoveKey(RemoveKey(s, key, k), key, k) == RemoveKey(s, key, k)
  {
    var r := RemoveKey(s, key, k);
    forall i | 0 <= i < |r| ensures key(r[i]) != k {
      assert r[i] in r;
    }
    RemoveKeyAbsent(r, key, k);
  }

  /** True when no two elements of `s` share a key. */
  predicate UniqueKeys<T, K(==)>(s: seq<T>, key: T -> K)
  {
    forall i, j :: 0 <= i < j < |s| ==> key(s[i]) != key(s[j])
  }

  /** Filtering keeps keys unique. */
  lemma {:induction false} RemoveKeyUnique<T, K>(s: seq<T>, key: T -> K, k: K)
    requires UniqueKeys(s, key)
    ensures UniqueKeys(RemoveKey(s, key, k), key)
  {
    if s != [] {
      RemoveKeyUnique(s[1..], key, k);
      var rest := RemoveKey(s[1..], key, k);
      forall x | x in rest ensures key(x) != key(s[0]) {
        assert x in s[1..];
        var j :| 0 <= j < |s[1..]| && s[1..][j] == x;
        assert s[j + 1] == x;
      }
      var r := RemoveKey(s, key, k);
      forall i, j | 0 <= i < j < |r| ensures key(r[i]) != key(r[j]) {
        if key(s[0]) != k {
          if i == 0 {
            assert r[j] == rest[j - 1] && rest[j - 1] in rest;
          } else {
            assert r[i] == rest[i - 1] && r[j] == rest[j - 1];
          }
        } else {
          assert r == rest;
        }
      }
    }
  }
}
