/** JavaScript plain objects (`Record<string, V>`): own properties in insertion order, each key once.
    `o[k] = v` and `{ ...o, [k]: v }` both replace the value of an existing key in place and append a
    new key at the end; this is `Put`. `Object.keys`, `Object.values` and `Object.entries` all follow
    the insertion order. */
module JsObject {
  import opened Wrappers

  predicate DistinctKeys<V>(r: seq<(string, V)>) {
    forall i, j :: 0 <= i < j < |r| ==> r[i].0 != r[j].0
  }

  /** The entries of a JavaScript object, in `Object.entries` order. */
  type Obj<V> = r: seq<(string, V)> | DistinctKeys(r) witness []

  /** `Object.keys(o)`. */
  function Keys<V>(o: Obj<V>): (ks: seq<string>)
    ensures |ks| == |o| && forall i :: 0 <= i < |o| ==> ks[i] == o[i].0
  {
    seq(|o|, i requires 0 <= i < |o| => o[i].0)
  }

  function KeySet<V>(o: seq<(string, V)>): set<string> {
    set i | 0 <= i < |o| :: o[i].0
  }

  /** The position of key `k` in `o`, or -1 when `o` has no such key. */
  function IndexOf<V>(o: Obj<V>, k: string): (i: int)
    ensures -1 <= i < |o|
    ensures i >= 0 ==> o[i].0 == k
    ensures i < 0 ==> k !in KeySet(o)
  {
    IndexFrom(o, k, 0)
  }

  function IndexFrom<V>(o: Obj<V>, k: string, from: nat): (i: int)
    requires from <= |o|
    ensures -1 <= i < |o|
    ensures i >= 0 ==> from <= i && o[i].0 == k
    ensures i < 0 ==> forall j :: from <= j < |o| ==> o[j].0 != k
    decreases |o| - from
  {
    if from == |o| then -1 else if o[from].0 == k then from else IndexFrom(o, k, from + 1)
  }

  /** `o[k]`: the value stored under `k`, `None` for `undefined`. */
  function Lookup<V>(o: Obj<V>, k: string): (r: Option<V>)
    ensures r.Some? <==> k in KeySet(o)
  {
    var i := IndexOf(o, k);
    if i < 0 then None else Some(o[i].1)
  }

  /** In an object the key at position `i` looks up the value at position `i`. */
  lemma LookupAt<V>(o: Obj<V>, i: nat)
    requires i < |o|
    ensures Lookup(o, o[i].0) == Some(o[i].1)
  {
    var j := IndexOf(o, o[i].0);
    assert j == i;
  }

  /** `o[k] = v`: replaces the value of an existing key where it stands, or appends a new entry. */
  function Put<V>(o: Obj<V>, k: string, v: V): (r: Obj<V>)
    ensures KeySet(r) == KeySet(o) + {k}
    ensures |r| == if k in KeySet(o) then |o| else |o| + 1
    ensures forall i :: 0 <= i < |o| ==> r[i].0 == o[i].0
  {
    var i := IndexOf(o, k);
    if i < 0 then
      var r := o + [(k, v)];
      assert KeySet(r) == KeySet(o) + {k} by {
        forall x | x in KeySet(r) ensures x in KeySet(o) + {k} {
          var j :| 0 <= j < |r| && r[j].0 == x;
          if j < |o| { assert o[j].0 == x; }
        }
        forall x | x in KeySet(o) + {k} ensures x in KeySet(r) {
          if x == k { assert r[|o|].0 == k; } else { var j :| 0 <= j < |o| && o[j].0 == x; assert r[j].0 == x; }
        }
      }
      r
    else
      var r := o[i := (k, v)];
      assert KeySet(r) == KeySet(o) by {
        forall x | x in KeySet(r) ensures x in KeySet(o) {
          var j :| 0 <= j < |r| && r[j].0 == x;
          assert o[j].0 == x;
        }
        forall x | x in KeySet(o) ensures x in KeySet(r) {
          var j :| 0 <= j < |o| && o[j].0 == x;
          assert r[j].0 == x;
        }
      }
      r
  }

  /** Writing key `k` changes what `k` looks up, and nothing else. */
  lemma LookupPut<V>(o: Obj<V>, k: string, v: V, key: string)
    ensures Lookup(Put(o, k, v), key) == if key == k then Some(v) else Lookup(o, key)
  {
    var r := Put(o, k, v);
    var i := IndexOf(o, k);
    if key == k {
      if i < 0 { LookupAt(r, |o|); } else { LookupAt(r, i); }
    } else if key in KeySet(o) {
      var j := IndexOf(o, key);
      LookupAt(o, j);
      assert r[j] == o[j];
      LookupAt(r, j);
    }
  }

  /** Writing a key the object does not have appends it at the end. */
  lemma PutFresh<V>(o: Obj<V>, k: string, v: V)
    requires k !in KeySet(o)
    ensures Put(o, k, v) == o + [(k, v)]
  {
  }

  /** `Object.entries(o).map(([k, v]) => [k, f(v)])`: the same keys, in the same order. */
  function MapValues<V, W>(o: Obj<V>, f: V -> W): (r: Obj<W>)
    ensures |r| == |o| && forall i :: 0 <= i < |o| ==> r[i] == (o[i].0, f(o[i].1))
  {
    var r := seq(|o|, i requires 0 <= i < |o| => (o[i].0, f(o[i].1)));
    assert forall i, j :: 0 <= i < j < |r| ==> r[i].0 == o[i].0 && r[j].0 == o[j].0;
    r
  }

  lemma MapValuesKeys<V, W>(o: Obj<V>, f: V -> W)
    ensures Keys(MapValues(o, f)) == Keys(o) && KeySet(MapValues(o, f)) == KeySet(o)
  {
    var r := MapValues(o, f);
    assert KeySet(r) == KeySet(o) by {
      forall x | x in KeySet(r) ensures x in KeySet(o) {
        var j :| 0 <= j < |r| && r[j].0 == x;
        assert o[j].0 == x;
      }
      forall x | x in KeySet(o) ensures x in KeySet(r) {
        var j :| 0 <= j < |o| && o[j].0 == x;
        assert r[j].0 == x;
      }
    }
  }

  /** Mapping the values commutes with looking a key up. */
  lemma LookupMapValues<V, W>(o: Obj<V>, f: V -> W, k: string)
    ensures Lookup(MapValues(o, f), k) == if k in KeySet(o) then Some(f(Lookup(o, k).value)) else None
  {
    MapValuesKeys(o, f);
    if k in KeySet(o) {
      var i := IndexOf(o, k);
      LookupAt(o, i);
      LookupAt(MapValues(o, f), i);
    }
  }

  /** A prefix of an object is an object. */
  function Prefix<V>(o: Obj<V>, n: nat): (r: Obj<V>)
    requires n <= |o|
    ensures r == o[..n]
  {
    o[..n]
  }

  /** Mapping one more entry of `o` is writing its mapped value under its (fresh) key. */
  lemma MapValuesSnoc<V, W>(o: Obj<V>, i: nat, f: V -> W)
    requires i < |o|
    ensures MapValues(Prefix(o, i + 1), f) == Put(MapValues(Prefix(o, i), f), o[i].0, f(o[i].1))
  {
    var front := MapValues(Prefix(o, i), f);
    MapValuesKeys(Prefix(o, i), f);
    forall j | 0 <= j < i ensures o[j].0 != o[i].0 {
    }
    assert o[i].0 !in KeySet(front);
    PutFresh(front, o[i].0, f(o[i].1));
  }

  /** A `forEach` over `entries` doing `o[k] = v` for each entry, in order. */
  function PutAll<V>(o: Obj<V>, entries: seq<(string, V)>): (r: Obj<V>)
    ensures |r| >= |o|
    ensures entries != [] ==> |r| > 0
    decreases |entries|
  {
    if entries == [] then o
    else
      var last := entries[|entries| - 1];
      Put(PutAll(o, entries[..|entries| - 1]), last.0, last.1)
  }

  /** One more write at the end of the run. */
  lemma PutAllSnoc<V>(o: Obj<V>, entries: seq<(string, V)>, e: (string, V))
    ensures PutAll(o, entries + [e]) == Put(PutAll(o, entries), e.0, e.1)
  {
    assert (entries + [e])[..|entries|] == entries;
  }

  /** The value of the last entry of `entries` with key `k`. */
  function LastFor<V>(entries: seq<(string, V)>, k: string): Option<V>
    decreases |entries|
  {
    if entries == [] then None
    else if entries[|entries| - 1].0 == k then Some(entries[|entries| - 1].1)
    else LastFor(entries[..|entries| - 1], k)
  }

  /** `LastFor` finds the last entry with the key, and finds one exactly when there is one. */
  lemma {:induction false} LastForIsLast<V>(entries: seq<(string, V)>, k: string)
    ensures LastFor(entries, k).Some? <==> exists i :: 0 <= i < |entries| && entries[i].0 == k
    ensures LastFor(entries, k).Some? ==>
      exists i :: 0 <= i < |entries| && entries[i] == (k, LastFor(entries, k).value) && forall j :: i < j < |entries| ==> entries[j].0 != k
    decreases |entries|
  {
    if entries != [] {
      var n := |entries| - 1;
      var front := entries[..n];
      LastForIsLast(front, k);
      if entries[n].0 != k {
        assert forall i :: 0 <= i < n ==> front[i] == entries[i];
        if LastFor(entries, k).Some? {
          var i :| 0 <= i < |front| && front[i] == (k, LastFor(front, k).value)
            && forall j :: i < j < |front| ==> front[j].0 != k;
          assert entries[i] == (k, LastFor(entries, k).value);
          assert forall j :: i < j < |entries| ==> entries[j].0 != k;
        }
        if exists i :: 0 <= i < |entries| && entries[i].0 == k {
          var i :| 0 <= i < |entries| && entries[i].0 == k;
          assert front[i].0 == k;
        }
      }
    }
  }

  /** After a run of writes, a key holds the last value written to it, or its old value if it
      was not written at all. */
  lemma {:induction false} LookupPutAll<V>(o: Obj<V>, entries: seq<(string, V)>, k: string)
    ensures Lookup(PutAll(o, entries), k) == if LastFor(entries, k).Some? then LastFor(entries, k) else Lookup(o, k)
    decreases |entries|
  {
    if entries != [] {
      var front := entries[..|entries| - 1];
      var last := entries[|entries| - 1];
      LookupPutAll(o, front, k);
      LookupPut(PutAll(o, front), last.0, last.1, k);
    }
  }

  /** Writing into an empty object the entries of an object rebuilds that object. */
  lemma {:induction false} PutAllCopies<V>(o: Obj<V>)
    ensures PutAll([], o) == o
    decreases |o|
  {
    if o != [] {
      var n := |o| - 1;
      var front := Prefix(o, n);
      PutAllCopies(front);
      forall j | 0 <= j < |front| ensures front[j].0 != o[n].0 {
        assert o[j].0 != o[n].0;
      }
      PutFresh(front, o[n].0, o[n].1);
      assert front + [o[n]] == o;
    }
  }
}
