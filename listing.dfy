/**
 * The database queries the handlers issue: `findUnique` and
 * `findMany({ where, orderBy: { createdAt: "desc" } })` over one table,
 * a table being a map from identifier to record.  How the database scans
 * is not shown; `FindMany` scans the keys one at a time and inserts each
 * selected record into a list kept newest first.
 */
module Listing {
  import opened Wrappers

  /** `s` is ordered newest first by the timestamp `at`. */
  ghost predicate NewestFirst<T>(s: seq<T>, at: T -> int) {
    forall i, j :: 0 <= i < j < |s| ==> at(s[i]) >= at(s[j])
  }

  /** No record appears twice in `s`. */
  ghost predicate Distinct<T>(s: seq<T>) {
    forall i, j :: 0 <= i < j < |s| ==> s[i] != s[j]
  }

  /** Different keys hold different records (each record carries its own key). */
  ghost predicate Injective<K, V>(m: map<K, V>) {
    forall a, b :: a in m && b in m && a != b ==> m[a] != m[b]
  }

  /** The records stored under the keys `ks`. */
  ghost function Image<K, V>(m: map<K, V>, ks: set<K>): set<V> {
    set k | k in ks && k in m :: m[k]
  }

  /** Puts `x` in front of the first record that is not newer. */
  function InsertNewest<T>(x: T, s: seq<T>, at: T -> int): (r: seq<T>)
    ensures multiset(r) == multiset(s) + multiset{x}
  {
    if s == [] || at(x) >= at(s[0]) then [x] + s
    else
      assert s == [s[0]] + s[1..];
      [s[0]] + InsertNewest(x, s[1..], at)
  }

  /** No inserted or kept record is newer than a common bound. */
  lemma {:induction false} InsertBounded<T>(x: T, s: seq<T>, at: T -> int, b: int)
    requires at(x) <= b
    requires forall i :: 0 <= i < |s| ==> at(s[i]) <= b
    ensures forall i :: 0 <= i < |InsertNewest(x, s, at)| ==> at(InsertNewest(x, s, at)[i]) <= b
  {
    if s != [] && at(x) < at(s[0]) {
      InsertBounded(x, s[1..], at, b);
    }
  }

  /** Inserting into a list ordered newest first keeps it ordered. */
  lemma {:induction false} InsertKeepsOrder<T>(x: T, s: seq<T>, at: T -> int)
    requires NewestFirst(s, at)
    ensures NewestFirst(InsertNewest(x, s, at), at)
  {
    var r := InsertNewest(x, s, at);
    if s == [] || at(x) >= at(s[0]) {
      assert r == [x] + s;
    } else {
      var tail := InsertNewest(x, s[1..], at);
      assert r == [s[0]] + tail;
      InsertKeepsOrder(x, s[1..], at);
      InsertBounded(x, s[1..], at, at(s[0]));
      forall i, j | 0 <= i < j < |r| ensures at(r[i]) >= at(r[j]) {
        if i > 0 { assert r[i] == tail[i - 1]; }
        assert r[j] == tail[j - 1];
      }
    }
  }

  /** A record not yet listed is inserted without creating a duplicate. */
  lemma {:induction false} InsertKeepsDistinct<T>(x: T, s: seq<T>, at: T -> int)
    requires Distinct(s) && x !in s
    ensures Distinct(InsertNewest(x, s, at))
  {
    var r := InsertNewest(x, s, at);
    if s == [] || at(x) >= at(s[0]) {
      assert r == [x] + s;
      forall i, j | 0 <= i < j < |r| ensures r[i] != r[j] {
        if i == 0 { assert r[j] == s[j - 1]; }
        else { assert r[i] == s[i - 1] && r[j] == s[j - 1]; }
      }
    } else {
      var tail := InsertNewest(x, s[1..], at);
      assert r == [s[0]] + tail;
      assert s == [s[0]] + s[1..];
      assert Distinct(s[1..]) by {
        forall i, j | 0 <= i < j < |s[1..]| ensures s[1..][i] != s[1..][j] {
          assert s[1..][i] == s[i + 1] && s[1..][j] == s[j + 1];
        }
      }
      assert x !in s[1..];
      InsertKeepsDistinct(x, s[1..], at);
      forall m | 0 <= m < |s[1..]| ensures s[1..][m] != s[0] {
        assert s[1..][m] == s[m + 1];
      }
      assert s[0] !in multiset(tail);
      forall i, j | 0 <= i < j < |r| ensures r[i] != r[j] {
        if i == 0 { assert r[j] == tail[j - 1]; assert tail[j - 1] in multiset(tail); }
        else { assert r[i] == tail[i - 1] && r[j] == tail[j - 1]; }
      }
    }
  }

  /**
   * The records of `m` that satisfy `keep`, each once, newest first;
   * records with equal timestamps come in no particular order.
   */
  method FindMany<K, T(==)>(m: map<K, T>, keep: T -> bool, at: T -> int) returns (r: seq<T>)
    requires Injective(m)
    ensures forall x :: x in r <==> x in m.Values && keep(x)
    ensures Distinct(r)
    ensures NewestFirst(r, at)
  {
    var todo := m.Keys;
    ghost var done: set<K> := {};
    r := [];
    while todo != {}
      invariant todo + done == m.Keys && todo !! done
      invariant forall x :: x in r <==> x in Image(m, done) && keep(x)
      invariant Distinct(r)
      invariant NewestFirst(r, at)
      decreases todo
    {
      var k :| k in todo;
      if keep(m[k]) {
        forall y | y in r ensures y != m[k] {
          var k' :| k' in done && k' in m && m[k'] == y;
          assert k' != k;
        }
        InsertKeepsDistinct(m[k], r, at);
        InsertKeepsOrder(m[k], r, at);
        ghost var before := r;
        r := InsertNewest(m[k], r, at);
        forall x ensures x in r <==> x in before || x == m[k] {
          assert x in r <==> x in multiset(r);
          assert x in before <==> x in multiset(before);
        }
      }
      todo := todo - {k};
      done := done + {k};
    }
    assert Image(m, done) == m.Values;
  }

  /** Some record of `m` that satisfies `p`, or none when no record does. */
  method FindFirst<K, T(==)>(m: map<K, T>, p: T -> bool) returns (r: Option<T>)
    ensures r.Some? ==> r.value in m.Values && p(r.value)
    ensures r.None? <==> forall k :: k in m ==> !p(m[k])
  {
    if exists k | k in m :: p(m[k]) {
      var k :| k in m && p(m[k]);
      r := Some(m[k]);
    } else {
      r := None;
    }
  }
}
