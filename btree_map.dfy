/**
  `BTreeMap<EntryHash, V>` as the sequence of its entries in key order: iterating the map
  walks this sequence from the front, and `insert` puts a new key in its place or replaces
  the value of a key already present.
*/
module BTreeMap {
  import opened Wrappers
  import opened HoloHash

  type Entries<V> = seq<(EntryHash, V)>

  /** Keys strictly increase from front to back (so no key appears twice). */
  ghost predicate Ordered<V>(m: Entries<V>)
  {
    forall i, j :: 0 <= i < j < |m| ==> Less(m[i].0, m[j].0)
  }

  function Keys<V>(m: Entries<V>): set<EntryHash>
  {
    set i | 0 <= i < |m| :: m[i].0
  }

  /** `BTreeMap::get`. */
  function Get<V>(m: Entries<V>, k: EntryHash): (r: Option<V>)
    ensures r.Some? <==> k in Keys(m)
    ensures r.Some? ==> exists i :: 0 <= i < |m| && m[i] == (k, r.value)
    decreases |m|
  {
    if |m| == 0 then None
    else if m[0].0 == k then Some(m[0].1)
    else
      var r := Get(m[1..], k);
      assert Keys(m) == {m[0].0} + Keys(m[1..]) by {
        forall x | x in Keys(m) ensures x in {m[0].0} + Keys(m[1..]) {
          var i :| 0 <= i < |m| && m[i].0 == x;
          if i > 0 { assert m[1..][i - 1].0 == x; }
        }
      }
      r
  }

  /** `BTreeMap::insert`: the key is in its place in the order, with the new value. */
  function Insert<V>(m: Entries<V>, k: EntryHash, v: V): (r: Entries<V>)
    requires Ordered(m)
    ensures Ordered(r)
    ensures Keys(r) == Keys(m) + {k}
    ensures Get(r, k) == Some(v)
    ensures forall x :: x != k ==> Get(r, x) == Get(m, x)
    ensures forall e :: e in r ==> e == (k, v) || (e in m && e.0 != k)
    ensures |r| == if k in Keys(m) then |m| else |m| + 1
    decreases |m|
  {
    if |m| == 0 then
      KeysCons((k, v), m);
      assert [(k, v)] + m == [(k, v)];
      [(k, v)]
    else
      OrderedTail(m);
      KeysCons(m[0], m[1..]);
      assert [m[0]] + m[1..] == m;
      if m[0].0 == k then
        KeysCons((k, v), m[1..]);
        OrderedCons((k, v), m[1..]);
        LessIsStrictTotalOrder();
        assert forall e :: e in m[1..] ==> e.0 in Keys(m[1..]);
        [(k, v)] + m[1..]
      else if Less(k, m[0].0) then
        KeysCons((k, v), m);
        LessIsStrictTotalOrder();
        OrderedCons((k, v), m);
        assert forall e :: e in m ==> e.0 in Keys(m);
        [(k, v)] + m
      else
        var rest := Insert(m[1..], k, v);
        KeysCons(m[0], rest);
        LessIsStrictTotalOrder();
        OrderedCons(m[0], rest);
        [m[0]] + rest
  }

  lemma KeysCons<V>(e: (EntryHash, V), m: Entries<V>)
    ensures Keys([e] + m) == {e.0} + Keys(m)
  {
    var r := [e] + m;
    forall x | x in Keys(m) ensures x in Keys(r) {
      var i :| 0 <= i < |m| && m[i].0 == x;
      assert r[i + 1] == m[i];
    }
    forall x | x in Keys(r) ensures x in {e.0} + Keys(m) {
      var i :| 0 <= i < |r| && r[i].0 == x;
      if i > 0 { assert r[i] == m[i - 1]; }
    }
    assert r[0].0 == e.0;
  }

  lemma OrderedTail<V>(m: Entries<V>)
    requires Ordered(m) && |m| > 0
    ensures Ordered(m[1..])
    ensures forall x :: x in Keys(m[1..]) ==> Less(m[0].0, x)
  {
    var tail := m[1..];
    forall i, j | 0 <= i < j < |tail| ensures Less(tail[i].0, tail[j].0) {
      assert tail[i] == m[i + 1] && tail[j] == m[j + 1];
    }
    forall x | x in Keys(tail) ensures Less(m[0].0, x) {
      var i :| 0 <= i < |tail| && tail[i].0 == x;
      assert tail[i] == m[i + 1];
    }
  }

  lemma OrderedCons<V>(e: (EntryHash, V), m: Entries<V>)
    requires Ordered(m)
    requires forall x :: x in Keys(m) ==> Less(e.0, x)
    ensures Ordered([e] + m)
  {
    var r := [e] + m;
    forall i, j | 0 <= i < j < |r| ensures Less(r[i].0, r[j].0) {
      assert r[j] == m[j - 1];
      if i == 0 {
        assert m[j - 1].0 in Keys(m);
      } else {
        assert r[i] == m[i - 1];
      }
    }
  }

  /** In an ordered map every entry has its own key, so there are as many keys as entries. */
  lemma {:induction false} OrderedKeyCount<V>(m: Entries<V>)
    requires Ordered(m)
    ensures |Keys(m)| == |m|
    decreases |m|
  {
    if |m| > 0 {
      OrderedTail(m);
      OrderedKeyCount(m[1..]);
      KeysCons(m[0], m[1..]);
      assert [m[0]] + m[1..] == m;
      LessIsStrictTotalOrder();
      assert m[0].0 !in Keys(m[1..]);
    }
  }
}
