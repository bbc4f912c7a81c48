/**
 * The key-value store the application runs on (Deno KV), as the application uses it:
 * `get`, `set` (with an optional `expireIn`), `delete`, prefix `list`, and an atomic batch
 * of sets and deletes guarded by "this key is absent" checks (`check({key, versionstamp: null})`).
 * The TTL given to `set` is kept with the entry as metadata; expiry itself is not modelled.
 */
module Store {
  import opened Common
  import opened Keys

  /** A stored value and the `expireIn` (milliseconds) it was written with. */
  datatype Entry<V> = Entry(value: V, expireIn: Option<nat>)

  type Data<V> = map<Key, Entry<V>>

  /** One write of an atomic batch: `.set(key, value, {expireIn})` or `.delete(key)`. */
  datatype Mutation<V> = Put(key: Key, value: V, expireIn: Option<nat>) | Remove(key: Key)

  /** `kv.atomic().check(...)...set(...)...delete(...)`: keys that must be absent, then the writes in order. */
  datatype AtomicOp<V> = AtomicOp(absent: seq<Key>, mutations: seq<Mutation<V>>)

  /** The value a `get` of `k` sees (`None` for a null value). */
  function Lookup<V>(data: Data<V>, k: Key): Option<V> {
    if k in data then Some(data[k].value) else None
  }

  function Apply<V>(data: Data<V>, m: Mutation<V>): Data<V> {
    match m
    case Put(k, v, ttl) => data[k := Entry(v, ttl)]
    case Remove(k) => data - {k}
  }

  /** The store after the writes of `ms`, applied in order. */
  function ApplyAll<V>(data: Data<V>, ms: seq<Mutation<V>>): Data<V>
    decreases |ms|
  {
    if ms == [] then data else Apply(ApplyAll(data, ms[..|ms| - 1]), ms[|ms| - 1])
  }

  lemma ApplyAllOne<V>(data: Data<V>, m: Mutation<V>)
    ensures ApplyAll(data, [m]) == Apply(data, m)
  {
    assert [m][..0] == [];
  }

  lemma ApplyAllTwo<V>(data: Data<V>, m1: Mutation<V>, m2: Mutation<V>)
    ensures ApplyAll(data, [m1, m2]) == Apply(Apply(data, m1), m2)
  {
    assert [m1, m2][..1] == [m1];
    ApplyAllOne(data, m1);
  }

  /** Every `check({key, versionstamp: null})` of the batch passes: none of its keys is present. */
  predicate ChecksPass<V>(data: Data<V>, absent: seq<Key>) {
    forall i :: 0 <= i < |absent| ==> absent[i] !in data
  }

  /** The keys a `list({prefix})` selects: those that extend `prefix` (the prefix key itself excluded). */
  function PrefixKeys<V>(data: Data<V>, prefix: Key): set<Key> {
    set k | k in data.Keys && StrictPrefix(prefix, k)
  }

  function Pairs<V>(data: Data<V>, ks: seq<Key>): seq<(Key, V)>
    requires forall k :: k in ks ==> k in data
  {
    seq(|ks|, i requires 0 <= i < |ks| => (ks[i], data[ks[i]].value))
  }

  lemma PairsSnoc<V>(data: Data<V>, ks: seq<Key>, k: Key)
    requires forall x :: x in ks ==> x in data
    requires k in data
    ensures Pairs(data, ks + [k]) == Pairs(data, ks) + [(k, data[k].value)]
  {
  }

  /** What `list({prefix})` yields: the selected entries in ascending key order. */
  ghost function Listing<V>(data: Data<V>, prefix: Key): seq<(Key, V)> {
    Pairs(data, SortedKeys(PrefixKeys(data, prefix)))
  }

  /** A listing holds every entry under the prefix exactly once, with its stored value, in ascending key order. */
  lemma ListingShape<V>(data: Data<V>, prefix: Key)
    ensures var l := Listing(data, prefix);
      && (forall i :: 0 <= i < |l| ==>
            l[i].0 in data && StrictPrefix(prefix, l[i].0) && l[i].1 == data[l[i].0].value)
      && (forall k :: k in data && StrictPrefix(prefix, k) ==> exists i :: 0 <= i < |l| && l[i].0 == k)
      && (forall i, j :: 0 <= i < j < |l| ==> KeyLess(l[i].0, l[j].0))
  {
    var ks := SortedKeys(PrefixKeys(data, prefix));
    var l := Listing(data, prefix);
    assert forall i :: 0 <= i < |l| ==> ks[i] in ks;
    forall k | k in data && StrictPrefix(prefix, k) ensures exists i :: 0 <= i < |l| && l[i].0 == k {
      assert k in PrefixKeys(data, prefix);
      var i :| 0 <= i < |ks| && ks[i] == k;
      assert l[i].0 == k;
    }
  }

  /** One step of draining a listing: the least remaining key moves to the output. */
  lemma ListStep(all: set<Key>, done: seq<Key>, rem: set<Key>, m: Key)
    requires IsLeast(m, rem)
    requires done + SortedKeys(rem) == SortedKeys(all)
    ensures (done + [m]) + SortedKeys(rem - {m}) == SortedKeys(all)
  {
    SortedKeysLeast(rem, m);
    ConcatAssoc(done, [m], SortedKeys(rem - {m}));
  }

  lemma ConcatAssoc<T>(a: seq<T>, b: seq<T>, c: seq<T>)
    ensures a + (b + c) == (a + b) + c
  {
  }

  class Kv<V> {
    var data: Data<V>

    /** `Deno.openKv()` on a fresh database. */
    constructor ()
      ensures data == map[]
    {
      data := map[];
    }

    /** `kv.get(key)`: the stored value, or null. */
    method Get(key: Key) returns (r: Option<V>)
      ensures r.Some? <==> key in data
      ensures r.Some? ==> r.value == data[key].value
    {
      if key in data {
        r := Some(data[key].value);
      } else {
        r := None;
      }
    }

    /** `kv.set(key, value, {expireIn})`: overwrites whatever the key held. */
    method Set(key: Key, value: V, expireIn: Option<nat>)
      modifies this
      ensures data == old(data)[key := Entry(value, expireIn)]
    {
      data := data[key := Entry(value, expireIn)];
    }

    /** `kv.delete(key)`: removes the key; deleting an absent key is not an error. */
    method Delete(key: Key)
      modifies this
      ensures data == old(data) - {key}
    {
      data := data - {key};
    }

    /** `kv.list({prefix})`, drained: every entry strictly under `prefix`, in ascending key order. */
    method List(prefix: Key) returns (r: seq<(Key, V)>)
      ensures r == Listing(data, prefix)
    {
      var rem := set k | k in data.Keys && StrictPrefix(prefix, k);
      ghost var all := rem;
      ghost var done: seq<Key> := [];
      r := [];
      while rem != {}
        invariant rem <= all == PrefixKeys(data, prefix)
        invariant forall k :: k in done ==> k in data
        invariant done + SortedKeys(rem) == SortedKeys(all)
        invariant r == Pairs(data, done)
        decreases |rem|
      {
        LeastExists(rem);
        var m :| IsLeast(m, rem);
        ListStep(all, done, rem, m);
        PairsSnoc(data, done, m);
        r := r + [(m, data[m].value)];
        done := done + [m];
        rem := rem - {m};
      }
      assert done == SortedKeys(all);
    }

    /**
     * `commit()` of an atomic batch: when every check passes, all writes take effect in order and
     * the result is ok; otherwise nothing changes.
     */
    method Commit(op: AtomicOp<V>) returns (ok: bool)
      modifies this
      ensures ok == ChecksPass(old(data), op.absent)
      ensures data == if ok then ApplyAll(old(data), op.mutations) else old(data)
    {
      ok := forall i | 0 <= i < |op.absent| :: op.absent[i] !in data;
      if ok {
        var n := 0;
        while n < |op.mutations|
          invariant 0 <= n <= |op.mutations|
          invariant data == ApplyAll(old(data), op.mutations[..n])
        {
          assert op.mutations[..n + 1][..n] == op.mutations[..n];
          match op.mutations[n] {
            case Put(k, v, ttl) => data := data[k := Entry(v, ttl)];
            case Remove(k) => data := data - {k};
          }
          n := n + 1;
        }
        assert op.mutations[..n] == op.mutations;
      }
    }
  }
}
