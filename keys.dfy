/**
 * Keys of the key-value store and their order.  A key is a sequence of string parts, e.g.
 * ["users", id, "timeEntries", entryId].  The store keeps keys ordered part by part; two string
 * parts compare by code point (the order of their UTF-8 encodings), and a key that is a proper
 * prefix of another sorts first.
 */
module Keys {

  type Key = seq<string>

  /** Code-point order on strings; a proper prefix comes first. */
  predicate StrLess(a: string, b: string)
    decreases |a|
  {
    if |a| == 0 then |b| > 0
    else if |b| == 0 then false
    else if a[0] != b[0] then a[0] < b[0]
    else StrLess(a[1..], b[1..])
  }

  /** Part-by-part order on keys; a proper prefix comes first. */
  predicate KeyLess(a: Key, b: Key)
    decreases |a|
  {
    if |a| == 0 then |b| > 0
    else if |b| == 0 then false
    else if a[0] != b[0] then StrLess(a[0], b[0])
    else KeyLess(a[1..], b[1..])
  }

  /** Keys that share all parts but the last are ordered as their last parts are. */
  lemma {:induction false} KeyLessSamePrefix(p: Key, a: string, b: string)
    requires KeyLess(p + [a], p + [b])
    ensures StrLess(a, b)
    decreases |p|
  {
    if |p| == 0 {
      assert p + [a] == [a] && p + [b] == [b];
    } else {
      assert (p + [a])[1..] == p[1..] + [a];
      assert (p + [b])[1..] == p[1..] + [b];
      KeyLessSamePrefix(p[1..], a, b);
    }
  }

  lemma {:induction false} StrLessAsymmetric(a: string, b: string)
    ensures StrLess(a, b) ==> !StrLess(b, a)
    decreases |a|
  {
    if |a| > 0 && |b| > 0 && a[0] == b[0] {
      StrLessAsymmetric(a[1..], b[1..]);
    }
  }

  lemma {:induction false} StrLessTransitive(a: string, b: string, c: string)
    requires StrLess(a, b) && StrLess(b, c)
    ensures StrLess(a, c)
    decreases |a|
  {
    if |a| > 0 && a[0] == b[0] && b[0] == c[0] {
      StrLessTransitive(a[1..], b[1..], c[1..]);
    }
  }

  lemma {:induction false} StrLessTotal(a: string, b: string)
    requires a != b
    ensures StrLess(a, b) || StrLess(b, a)
    decreases |a|
  {
    if |a| > 0 && |b| > 0 && a[0] == b[0] {
      assert a == [a[0]] + a[1..] && b == [b[0]] + b[1..];
      StrLessTotal(a[1..], b[1..]);
    }
  }

  lemma {:induction false} KeyLessAsymmetric(a: Key, b: Key)
    ensures KeyLess(a, b) ==> !KeyLess(b, a)
    decreases |a|
  {
    if |a| > 0 && |b| > 0 {
      if a[0] == b[0] {
        KeyLessAsymmetric(a[1..], b[1..]);
      } else {
        StrLessAsymmetric(a[0], b[0]);
      }
    }
  }

  lemma {:induction false} KeyLessTransitive(a: Key, b: Key, c: Key)
    requires KeyLess(a, b) && KeyLess(b, c)
    ensures KeyLess(a, c)
    decreases |a|
  {
    if |a| > 0 {
      if a[0] == b[0] && b[0] == c[0] {
        KeyLessTransitive(a[1..], b[1..], c[1..]);
      } else if a[0] != b[0] && b[0] != c[0] {
        StrLessTransitive(a[0], b[0], c[0]);
        StrLessAsymmetric(a[0], b[0]);
      }
    }
  }

  lemma {:induction false} KeyLessTotal(a: Key, b: Key)
    requires a != b
    ensures KeyLess(a, b) || KeyLess(b, a)
    decreases |a|
  {
    if |a| > 0 && |b| > 0 {
      if a[0] == b[0] {
        assert a == [a[0]] + a[1..] && b == [b[0]] + b[1..];
        KeyLessTotal(a[1..], b[1..]);
      } else {
        StrLessTotal(a[0], b[0]);
      }
    }
  }

  /** `k` starts with `p` and is longer: the keys a prefix selector returns (the prefix itself is excluded). */
  predicate StrictPrefix(p: Key, k: Key) {
    |p| < |k| && k[..|p|] == p
  }

  /** `k` starts with `p` (possibly equal to it). */
  predicate HasPrefix(p: Key, k: Key) {
    |p| <= |k| && k[..|p|] == p
  }

  predicate StrictlySorted(ks: seq<Key>) {
    forall i, j :: 0 <= i < j < |ks| ==> KeyLess(ks[i], ks[j])
  }

  /** `m` is the least member of `s`. */
  predicate IsLeast(m: Key, s: set<Key>) {
    m in s && forall k :: k in s && k != m ==> KeyLess(m, k)
  }

  /** Every non-empty finite set of keys has a least member. */
  lemma {:induction false} LeastExists(s: set<Key>)
    requires s != {}
    ensures exists m :: IsLeast(m, s)
    decreases |s|
  {
    var x :| x in s;
    if s != {x} {
      var rest := s - {x};
      LeastExists(rest);
      var m :| IsLeast(m, rest);
      KeyLessTotal(x, m);
      if KeyLess(x, m) {
        forall k | k in s && k != x ensures KeyLess(x, k) {
          if k != m { KeyLessTransitive(x, m, k); }
        }
        assert IsLeast(x, s);
      } else {
        assert IsLeast(m, s);
      }
    } else {
      assert IsLeast(x, s);
    }
  }

  /** The least member is unique. */
  lemma LeastUnique(m1: Key, m2: Key, s: set<Key>)
    requires IsLeast(m1, s) && IsLeast(m2, s)
    ensures m1 == m2
  {
    if m1 != m2 {
      KeyLessAsymmetric(m1, m2);
    }
  }

  /** The members of a finite set of keys in ascending order. */
  ghost function SortedKeys(s: set<Key>): (r: seq<Key>)
    ensures |r| == |s|
    ensures forall k :: k in r <==> k in s
    ensures StrictlySorted(r)
    decreases |s|
  {
    if s == {} then []
    else
      LeastExists(s);
      var m :| IsLeast(m, s);
      var rest := SortedKeys(s - {m});
      assert forall j :: 0 <= j < |rest| ==> rest[j] in rest;
      assert forall j :: 0 <= j < |rest| ==> KeyLess(m, rest[j]);
      [m] + rest
  }

  /** Peeling off the least member of a set peels off the head of its sorted listing. */
  lemma SortedKeysLeast(s: set<Key>, m: Key)
    requires IsLeast(m, s)
    ensures SortedKeys(s) == [m] + SortedKeys(s - {m})
  {
    var r := SortedKeys(s);
    assert r[0] in s;
    forall k | k in s && k != r[0] ensures KeyLess(r[0], k) {
      var j :| 0 <= j < |r| && r[j] == k;
    }
    LeastUnique(r[0], m, s);
    SortedUnique(r[1..], SortedKeys(s - {m}));
    assert r == [r[0]] + r[1..];
  }

  /** Two strictly sorted key sequences with the same members are equal. */
  lemma {:induction false} SortedUnique(a: seq<Key>, b: seq<Key>)
    requires StrictlySorted(a) && StrictlySorted(b)
    requires forall k :: k in a <==> k in b
    ensures a == b
    decreases |a|
  {
    assert |a| > 0 ==> a[0] in a;
    assert |b| > 0 ==> b[0] in b;
    if |a| > 0 && |b| > 0 {
      assert a[0] == b[0] by {
        assert forall i :: 0 < i < |a| ==> KeyLess(a[0], a[i]);
        assert forall i :: 0 < i < |b| ==> KeyLess(b[0], b[i]);
        KeyLessAsymmetric(a[0], b[0]);
      }
      forall k ensures k in a[1..] <==> k in b[1..] {
        TailMembers(a, b, k);
        TailMembers(b, a, k);
      }
      SortedUnique(a[1..], b[1..]);
      assert a == [a[0]] + a[1..] && b == [b[0]] + b[1..];
    }
  }

  /** A member of the tail of one sorted sequence is in the tail of any other with the same members and head. */
  lemma TailMembers(a: seq<Key>, b: seq<Key>, k: Key)
    requires StrictlySorted(a) && |a| > 0 && |b| > 0 && a[0] == b[0]
    requires forall x :: x in a <==> x in b
    ensures k in a[1..] ==> k in b[1..]
  {
    if k in a[1..] {
      var i :| 1 <= i < |a| && a[i] == k;
      assert KeyLess(a[0], k);
      KeyLessAsymmetric(a[0], k);
      assert k in a;
      var j :| 0 <= j < |b| && b[j] == k;
      assert j != 0;
      assert b[1..][j - 1] == k;
    }
  }
}
