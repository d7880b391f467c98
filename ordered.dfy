/** Insertion-ordered maps keyed by strings, as the source's LinkedHashMap and
    JSON objects behave: `Put` on an existing key replaces the value in place and
    keeps the key's position; `Put` on a new key appends it. */
module Ordered {
  import opened Wrappers

  type Entries<V> = seq<(string, V)>

  /** The keys present, as a set. */
  ghost function Keys<V>(m: Entries<V>): set<string>
  {
    set i | 0 <= i < |m| :: m[i].0
  }

  /** The key sequence, in insertion order. */
  function KeySeq<V>(m: Entries<V>): (ks: seq<string>)
    ensures |ks| == |m|
    ensures forall i | 0 <= i < |m| :: ks[i] == m[i].0
  {
    if m == [] then [] else KeySeq(m[..|m| - 1]) + [m[|m| - 1].0]
  }

  /** The values present, as a set. */
  ghost function Values<V>(m: Entries<V>): set<V>
  {
    set i | 0 <= i < |m| :: m[i].1
  }

  /** The values in insertion order (`toList()` of the values, or `forEach`). */
  function ValueSeq<V>(m: Entries<V>): (vs: seq<V>)
    ensures |vs| == |m|
    ensures forall i | 0 <= i < |m| :: vs[i] == m[i].1
  {
    seq(|m|, i requires 0 <= i < |m| => m[i].1)
  }

  /** No key occurs twice. */
  ghost predicate NoDup<V>(m: Entries<V>)
  {
    forall i, j | 0 <= i < j < |m| :: m[i].0 != m[j].0
  }

  /** The index of key `k`, or `|m|` when it is absent. */
  function IndexOf<V>(m: Entries<V>, k: string): (i: nat)
    ensures i <= |m|
    ensures i < |m| ==> m[i].0 == k
    ensures forall j | 0 <= j < i :: m[j].0 != k
  {
    if m == [] then 0
    else if m[0].0 == k then 0
    else 1 + IndexOf(m[1..], k)
  }

  /** `get(k)`: the value stored under `k`, if any. */
  function Get<V>(m: Entries<V>, k: string): (r: Option<V>)
    ensures r.Some? <==> k in Keys(m)
    ensures r.Some? ==> r.value in Values(m)
  {
    var i := IndexOf(m, k);
    if i < |m| then Some(m[i].1) else None
  }

  /** The first-occurrence index is the only index with the `IndexOf` properties. */
  lemma IndexOfUnique<V>(m: Entries<V>, k: string, i: nat)
    requires i <= |m|
    requires i < |m| ==> m[i].0 == k
    requires forall j | 0 <= j < i :: m[j].0 != k
    ensures IndexOf(m, k) == i
  {
  }

  /** `put(k, v)`: replaces in place when `k` is present, appends otherwise.
      What this means for the keys, values and lookups is `PutFacts`; keeping the
      contract in a lemma keeps the many `Put` terms of a long builder pass cheap. */
  function Put<V>(m: Entries<V>, k: string, v: V): (r: Entries<V>)
  {
    var i := IndexOf(m, k);
    if i < |m| then m[i := (k, v)] else m + [(k, v)]
  }

  /** A put makes `k` map to `v`, leaves every other key's value alone, keeps the
      position of a present key and appends a new one. */
  lemma PutFacts<V>(m: Entries<V>, k: string, v: V)
    ensures var r := Put(m, k, v);
      && Keys(r) == Keys(m) + {k}
      && Get(r, k) == Some(v)
      && (forall k' | k' != k :: Get(r, k') == Get(m, k'))
      && (k in Keys(m) ==> |r| == |m| && KeySeq(r) == KeySeq(m))
      && (k !in Keys(m) ==> r == m + [(k, v)])
      && Values(r) <= Values(m) + {v}
      && (NoDup(m) ==> NoDup(r))
  {
    var i := IndexOf(m, k);
    if i < |m| {
      PutReplaces(m, k, v, i);
    } else {
      PutAppends(m, k, v);
    }
  }

  lemma PutReplaces<V>(m: Entries<V>, k: string, v: V, i: nat)
    requires i == IndexOf(m, k) < |m|
    ensures var r := m[i := (k, v)];
      && Keys(r) == Keys(m) && Get(r, k) == Some(v)
      && (forall k' | k' != k :: Get(r, k') == Get(m, k'))
      && KeySeq(r) == KeySeq(m)
      && Values(r) <= Values(m) + {v}
      && (NoDup(m) ==> NoDup(r))
  {
    var r := m[i := (k, v)];
    IndexOfUnique(r, k, i);
    forall k' | k' != k ensures Get(r, k') == Get(m, k') {
      IndexOfUnique(r, k', IndexOf(m, k'));
    }
    forall x | x in Keys(m) ensures x in Keys(r) {
      var j :| 0 <= j < |m| && m[j].0 == x;
      assert r[j].0 == x;
    }
    assert forall x | x in Keys(r) :: x in Keys(m);
  }

  lemma PutAppends<V>(m: Entries<V>, k: string, v: V)
    requires IndexOf(m, k) == |m|
    ensures var r := m + [(k, v)];
      && Keys(r) == Keys(m) + {k} && Get(r, k) == Some(v)
      && (forall k' | k' != k :: Get(r, k') == Get(m, k'))
      && k !in Keys(m)
      && Values(r) <= Values(m) + {v}
      && (NoDup(m) ==> NoDup(r))
  {
    AppendKeys(m, k, v);
    AppendGets(m, k, v);
    AppendValues(m, k, v);
  }

  lemma AppendKeys<V>(m: Entries<V>, k: string, v: V)
    requires IndexOf(m, k) == |m|
    ensures Keys(m + [(k, v)]) == Keys(m) + {k} && k !in Keys(m)
    ensures NoDup(m) ==> NoDup(m + [(k, v)])
  {
    var r := m + [(k, v)];
    assert r[|m|].0 == k;
    forall x | x in Keys(m) ensures x in Keys(r) {
      var j :| 0 <= j < |m| && m[j].0 == x;
      assert r[j].0 == x;
    }
  }

  lemma AppendGets<V>(m: Entries<V>, k: string, v: V)
    requires IndexOf(m, k) == |m|
    ensures Get(m + [(k, v)], k) == Some(v)
    ensures forall k' | k' != k :: Get(m + [(k, v)], k') == Get(m, k')
  {
    var r := m + [(k, v)];
    IndexOfUnique(r, k, |m|);
    forall k' | k' != k ensures Get(r, k') == Get(m, k') {
      var j := IndexOf(m, k');
      IndexOfUnique(r, k', if j < |m| then j else |r|);
    }
  }

  lemma AppendValues<V>(m: Entries<V>, k: string, v: V)
    ensures Values(m + [(k, v)]) <= Values(m) + {v}
  {
    var r := m + [(k, v)];
    forall x | x in Values(r) ensures x in Values(m) + {v} {
      var j :| 0 <= j < |r| && r[j].1 == x;
      if j < |m| { assert m[j].1 == x; }
    }
  }

  lemma ValuesOne<V>(k: string, v: V)
    ensures Values([(k, v)]) == {v}
  {
    assert [(k, v)][0].1 == v;
  }

  lemma ValuesTwo<V>(k: string, v: V, k': string, v': V)
    ensures Values([(k, v), (k', v')]) == {v, v'}
  {
    var m := [(k, v), (k', v')];
    assert m[0].1 == v && m[1].1 == v';
  }

  /** A put of a key no entry has appends it. */
  lemma PutFresh<V>(m: Entries<V>, k: string, v: V)
    requires forall i | 0 <= i < |m| :: m[i].0 != k
    ensures Put(m, k, v) == m + [(k, v)]
  {
    IndexOfUnique(m, k, |m|);
  }

  lemma PutEmpty<V>(k: string, v: V)
    ensures Put([], k, v) == [(k, v)]
  {
    assert Keys<V>([]) == {};
  }
  // ---- Building an object from entries, skipping nulls ----

  /** Puts each present value of `es` into `m`, first to last, and skips the absent
      ones: a `buildJsonObject` whose `forEach` returns early on null. */
  function PutAll<V>(m: Entries<V>, es: Entries<Option<V>>): Entries<V>
    decreases |es|
  {
    if es == [] then m
    else PutAll(if es[0].1.Some? then Put(m, es[0].0, es[0].1.value) else m, es[1..])
  }

  /** The keys of `es` that carry a value. */
  ghost function PresentKeys<V>(es: Entries<Option<V>>): set<string>
  {
    set i | 0 <= i < |es| && es[i].1.Some? :: es[i].0
  }

  lemma PresentKeysSplit<V>(es: Entries<Option<V>>)
    requires es != []
    ensures PresentKeys(es) == (if es[0].1.Some? then {es[0].0} else {}) + PresentKeys(es[1..])
  {
    var t := es[1..];
    forall k | k in PresentKeys(es)
      ensures k in (if es[0].1.Some? then {es[0].0} else {}) + PresentKeys(t)
    {
      var i :| 0 <= i < |es| && es[i].1.Some? && es[i].0 == k;
      if i > 0 {
        assert t[i - 1] == es[i];
      }
    }
    forall k | k in PresentKeys(t) ensures k in PresentKeys(es) {
      var i :| 0 <= i < |t| && t[i].1.Some? && t[i].0 == k;
      assert es[i + 1] == t[i];
    }
  }

  /** The result holds the keys of `m` and every key of `es` with a value. */
  lemma {:induction false} PutAllKeys<V>(m: Entries<V>, es: Entries<Option<V>>)
    ensures Keys(PutAll(m, es)) == Keys(m) + PresentKeys(es)
    decreases |es|
  {
    if es != [] {
      var m' := if es[0].1.Some? then Put(m, es[0].0, es[0].1.value) else m;
      if es[0].1.Some? {
        PutFacts(m, es[0].0, es[0].1.value);
      }
      PutAllKeys(m', es[1..]);
      PresentKeysSplit(es);
    }
  }

  /** A key that `es` gives no value keeps its value from `m`. */
  lemma {:induction false} PutAllOthers<V>(m: Entries<V>, es: Entries<Option<V>>, k: string)
    requires k !in PresentKeys(es)
    ensures Get(PutAll(m, es), k) == Get(m, k)
    decreases |es|
  {
    if es != [] {
      var m' := if es[0].1.Some? then Put(m, es[0].0, es[0].1.value) else m;
      PresentKeysSplit(es);
      if es[0].1.Some? {
        PutFacts(m, es[0].0, es[0].1.value);
      }
      PutAllOthers(m', es[1..], k);
    }
  }

  /** With distinct keys, every value `es` gives is the one the result holds. */
  lemma {:induction false} PutAllGet<V>(m: Entries<V>, es: Entries<Option<V>>, i: nat)
    requires NoDup(es) && i < |es| && es[i].1.Some?
    ensures Get(PutAll(m, es), es[i].0) == es[i].1
    decreases |es|
  {
    var m' := if es[0].1.Some? then Put(m, es[0].0, es[0].1.value) else m;
    var t := es[1..];
    assert PutAll(m, es) == PutAll(m', t);
    NoDupTail(es);
    if i == 0 {
      PutFacts(m, es[0].0, es[0].1.value);
      PutAllOthers(m', t, es[0].0);
    } else {
      assert t[i - 1] == es[i];
      PutAllGet(m', t, i - 1);
    }
  }

  /** The entries after the first still have distinct keys, none of them the first's. */
  lemma NoDupTail<V>(es: Entries<V>)
    requires NoDup(es) && es != []
    ensures NoDup(es[1..]) && forall j | 0 <= j < |es| - 1 :: es[1..][j].0 != es[0].0
  {
    var t := es[1..];
    forall a, b | 0 <= a < b < |t| ensures t[a].0 != t[b].0 {
      assert t[a] == es[a + 1] && t[b] == es[b + 1];
    }
    forall j | 0 <= j < |t| ensures t[j].0 != es[0].0 {
      assert t[j] == es[j + 1];
    }
  }

  /** Looking a key up after `PutAll`: the value `es` gives it, if any, else the
      value it had before. */
  lemma PutAllLookup<V>(m: Entries<V>, es: Entries<Option<V>>, k: string)
    requires NoDup(es)
    ensures Get(PutAll(m, es), k) == (if Get(es, k).Some? && Get(es, k).value.Some? then Get(es, k).value else Get(m, k))
  {
    var i := IndexOf(es, k);
    if i < |es| && es[i].1.Some? {
      PutAllGet(m, es, i);
    } else {
      forall j | 0 <= j < |es| && es[j].1.Some? ensures es[j].0 != k {
      }
      PutAllOthers(m, es, k);
    }
  }

  /** Two entry lists with the same keys at the same positions find a key at the same
      index, and one has no duplicate keys exactly when the other has none. */
  lemma SameKeys<V, W>(m: Entries<V>, es: Entries<W>, k: string)
    requires |m| == |es| && forall i | 0 <= i < |m| :: m[i].0 == es[i].0
    ensures IndexOf(m, k) == IndexOf(es, k)
    ensures NoDup(m) <==> NoDup(es)
  {
    IndexOfUnique(es, k, IndexOf(m, k));
  }
}
