/** Shared vocabulary of the storefront model: optional values, the abstract
    outcome of a server round trip, and the "filter by key" list update that
    several screens apply to their state lists. */
module Common {

  datatype Option<+T> = None | Some(value: T)

  /** What a `fetch`/`axios` call resolved to, as far as a handler can tell:
      a reply whose `success` flag is true (with its payload), a reply whose
      flag is false (with the server's optional message), or an exception
      (network failure, unparsable body). */
  datatype Reply<+T> = Success(data: T) | Failure(message: Option<string>) | Thrown

  /** JavaScript truthiness of an optional string: `null`, `undefined`
      and `""` are falsy. */
  predicate Truthy(s: Option<string>)
  {
    s.Some? && s.value != ""
  }

  /** JavaScript truthiness of an optional number: `undefined` and `0` are falsy. */
  predicate TruthyInt(n: Option<int>)
  {
    n.Some? && n.value != 0
  }

  /** `a || b` on optional numbers. */
  function OrInt(a: Option<int>, b: int): (r: int)
    ensures TruthyInt(a) ==> r == a.value
    ensures !TruthyInt(a) ==> r == b
  {
    if TruthyInt(a) then a.value else b
  }

  /** `s.filter(x => key(x) !== k)`: every element whose key differs from
      `k`, in their original order. */
  function RemoveWhere<T(!new), K(==)>(s: seq<T>, key: T -> K, k: K): (r: seq<T>)
    ensures |r| <= |s|
    ensures forall i :: 0 <= i < |r| ==> key(r[i]) != k
    ensures forall x :: x in r <==> x in s && key(x) != k
    ensures (forall i :: 0 <= i < |s| ==> key(s[i]) != k) ==> r == s
  {
    if s == [] then []
    else if key(s[0]) == k then RemoveWhere(s[1..], key, k)
    else [s[0]] + RemoveWhere(s[1..], key, k)
  }

  /** Filtering distributes over concatenation, so the survivors keep their
      relative order. */
  lemma {:induction false} RemoveWhereAppend<T(!new), K>(a: seq<T>, b: seq<T>, key: T -> K, k: K)
    ensures RemoveWhere(a + b, key, k) == RemoveWhere(a, key, k) + RemoveWhere(b, key, k)
  {
    if a == [] {
      assert a + b == b;
    } else {
      assert (a + b)[1..] == a[1..] + b;
      RemoveWhereAppend(a[1..], b, key, k);
    }
  }

  /** Removing the same key twice removes nothing more. */
  lemma RemoveWhereIdempotent<T(!new), K>(s: seq<T>, key: T -> K, k: K)
    ensures RemoveWhere(RemoveWhere(s, key, k), key, k) == RemoveWhere(s, key, k)
  {
  }

  /** Two removals with different keys commute. */
  lemma {:induction false} RemoveWhereCommutes<T(!new), K>(s: seq<T>, key: T -> K, k1: K, k2: K)
    ensures RemoveWhere(RemoveWhere(s, key, k1), key, k2) == RemoveWhere(RemoveWhere(s, key, k2), key, k1)
  {
    if s != [] {
      RemoveWhereCommutes(s[1..], key, k1, k2);
    }
  }
}
