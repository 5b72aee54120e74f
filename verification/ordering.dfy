/** ORDER BY ... LIMIT: the first rows of a query's answer, by a time and then by the id's text. */
module Ordering {
  // What a row is ordered by. Ids are unique, so no two rows tie.
  type Key = (int, nat)

  predicate Before(a: Key, b: Key) {
    a.0 < b.0 || (a.0 == b.0 && a.1 < b.1)
  }

  ghost predicate Injective<T(!new)>(keys: map<T, Key>) {
    forall x, y | x in keys && y in keys && x != y :: keys[x] != keys[y]
  }

  // `rows` are the first rows of `keys`: in order, up to the limit, and nothing earlier left out.
  ghost predicate TopOf<T(!new)>(keys: map<T, Key>, limit: nat, rows: seq<T>) {
    && |rows| <= limit
    && (forall x | x in rows :: x in keys)
    && (forall i, j | 0 <= i < j < |rows| :: Before(keys[rows[i]], keys[rows[j]]))
    && (forall x | x in keys && x !in rows :: |rows| == limit && forall r | r in rows :: Before(keys[r], keys[x]))
  }

  // The query always has an answer.
  method Take<T(==, !new)>(keys: map<T, Key>, limit: nat) returns (rows: seq<T>)
    requires Injective(keys)
    ensures TopOf(keys, limit, rows)
  {
    rows := [];
    var rest := keys.Keys;
    while |rows| < limit && rest != {}
      invariant |rows| <= limit && rest <= keys.Keys
      invariant forall x :: x in rows <==> x in keys && x !in rest
      invariant forall i, j | 0 <= i < j < |rows| :: Before(keys[rows[i]], keys[rows[j]])
      invariant forall r, x | r in rows && x in rest :: Before(keys[r], keys[x])
      decreases rest
    {
      var next := Least(keys, rest);
      rows := rows + [next];
      rest := rest - {next};
    }
  }

  method Least<T(==, !new)>(keys: map<T, Key>, ids: set<T>) returns (first: T)
    requires ids != {} && ids <= keys.Keys && Injective(keys)
    ensures first in ids && forall x | x in ids && x != first :: Before(keys[first], keys[x])
  {
    first :| first in ids;
    var rest := ids - {first};
    while rest != {}
      invariant first in ids && rest < ids
      invariant forall x | x in ids && x !in rest && x != first :: Before(keys[first], keys[x])
      decreases rest
    {
      var x :| x in rest;
      if Before(keys[x], keys[first]) {
        first := x;
      }
      rest := rest - {x};
    }
  }

  // And only one.
  lemma TopIsUnique<T(!new)>(keys: map<T, Key>, limit: nat, a: seq<T>, b: seq<T>)
    requires TopOf(keys, limit, a) && TopOf(keys, limit, b)
    ensures a == b
  {
    SamePrefix(keys, limit, a, b, |a|);
    SamePrefix(keys, limit, b, a, |b|);
  }

  // No answer can deviate from another one at any position.
  lemma {:induction false} SamePrefix<T(!new)>(keys: map<T, Key>, limit: nat, a: seq<T>, b: seq<T>, n: nat)
    requires TopOf(keys, limit, a) && TopOf(keys, limit, b) && n <= |a|
    ensures n <= |b| && a[..n] == b[..n]
    decreases n
  {
    if n == 0 {
      assert a[..n] == b[..n];
    } else {
      SamePrefix(keys, limit, a, b, n - 1);
      SameNext(keys, limit, a, b, n - 1);
      assert a[..n] == a[..n - 1] + [a[n - 1]];
      assert b[..n] == b[..n - 1] + [b[n - 1]];
    }
  }

  // Each row is the earliest of those not selected before it.
  lemma NextIsEarliest<T(!new)>(keys: map<T, Key>, limit: nat, a: seq<T>, n: nat)
    requires TopOf(keys, limit, a) && n < |a|
    ensures a[n] in keys && a[n] !in a[..n]
    ensures forall x | x in keys && x !in a[..n] && x != a[n] :: Before(keys[a[n]], keys[x])
  {
    assert a[n] in a;
    forall x | x in keys && x !in a[..n] && x != a[n] ensures Before(keys[a[n]], keys[x]) {
      if x in a {
        var prefix := a[..n];
        var i :| 0 <= i < |a| && a[i] == x;
        assert forall k | 0 <= k < n :: a[k] in prefix;
      }
    }
  }

  // After a common prefix the next rows agree.
  lemma SameNext<T(!new)>(keys: map<T, Key>, limit: nat, a: seq<T>, b: seq<T>, n: nat)
    requires TopOf(keys, limit, a) && TopOf(keys, limit, b)
    requires n < |a| && n <= |b| && a[..n] == b[..n]
    ensures n < |b| && b[n] == a[n]
  {
    NextIsEarliest(keys, limit, a, n);
    assert b[..|b|] == b;
    if n < |b| {
      NextIsEarliest(keys, limit, b, n);
    }
  }

  lemma TopIsDistinct<T(!new)>(keys: map<T, Key>, limit: nat, rows: seq<T>)
    requires TopOf(keys, limit, rows)
    ensures forall i, j | 0 <= i < j < |rows| :: rows[i] != rows[j]
  {}
}
