/**
 * `Dictionary<K, V>` as the core uses it: entries in insertion order with
 * distinct keys. `Add` throws on a key that is already present, `Remove`
 * drops an entry, and enumeration visits the entries in the order they
 * were added.
 */
module Dicts {
  import opened Outcomes

  predicate DistinctKeys<K(==), V>(d: seq<(K, V)>) {
    forall i, j :: 0 <= i < j < |d| ==> d[i].0 != d[j].0
  }

  type Dict<K(==), V> = d: seq<(K, V)> | DistinctKeys(d) witness []

  function Keys<K(==), V>(d: seq<(K, V)>): (r: seq<K>)
    ensures |r| == |d| && forall i :: 0 <= i < |d| ==> r[i] == d[i].0
  {
    seq(|d|, i requires 0 <= i < |d| => d[i].0)
  }

  /** `TryGetValue`: the value stored under `k`, if any. */
  function Get<K(==,!new), V(!new)>(d: seq<(K, V)>, k: K): (r: Option<V>)
    ensures r.None? <==> k !in Keys(d)
    ensures r.Some? ==> (k, r.value) in d
    ensures DistinctKeys(d) ==> forall v :: (k, v) in d ==> r == Some(v)
  {
    if |d| == 0 then None
    else if d[0].0 == k then Some(d[0].1)
    else
      assert forall p :: p in d[1..] ==> p in d;
      var r := Get(d[1..], k);
      assert Keys(d) == [d[0].0] + Keys(d[1..]);
      assert forall v :: (k, v) in d ==> (k, v) in d[1..] by {
        forall v | (k, v) in d ensures (k, v) in d[1..] {
          var i :| 0 <= i < |d| && d[i] == (k, v);
          assert i != 0;
          assert d[1..][i - 1] == (k, v);
        }
      }
      if DistinctKeys(d) then
        DistinctKeysTail(d);
        r
      else
        r
  }

  /** `Dictionary.Add`: `None` stands for the `ArgumentException` a present key raises. */
  function Add<K(==), V>(d: Dict<K, V>, k: K, v: V): (r: Option<Dict<K, V>>)
    ensures r.None? <==> k in Keys(d)
    ensures r.Some? ==> r.value == d + [(k, v)]
  {
    if k in Keys(d) then None
    else
      var d' := d + [(k, v)];
      assert forall i :: 0 <= i < |d| ==> d'[i].0 == Keys(d)[i];
      Some(d')
  }

  /** Adds `entries` one by one, as a `foreach` over `Add` does, stopping at the
    * first key that is already present. The flag tells whether every add succeeded;
    * the adds made before a failing one are kept. */
  function AddAll<K(==), V>(d: Dict<K, V>, entries: seq<(K, V)>): (r: (Dict<K, V>, bool))
    ensures |d| <= |r.0| <= |d| + |entries|
    ensures r.0 == d + entries[..|r.0| - |d|]
    ensures r.1 <==> |r.0| == |d| + |entries|
    ensures !r.1 ==> entries[|r.0| - |d|].0 in Keys(r.0)
    decreases |entries|
  {
    if |entries| == 0 then (d, true)
    else
      match Add(d, entries[0].0, entries[0].1)
      case None => (d, false)
      case Some(d') =>
        var r := AddAll(d', entries[1..]);
        assert entries[..|r.0| - |d|] == [entries[0]] + entries[1..][..|r.0| - |d'|];
        r
  }

  /** One step of `AddAll`: the add of the first entry decides whether it goes on. */
  lemma AddAllHead<K, V>(d: Dict<K, V>, entries: seq<(K, V)>)
    requires |entries| > 0
    ensures Add(d, entries[0].0, entries[0].1).None? ==> AddAll(d, entries) == (d, false)
    ensures Add(d, entries[0].0, entries[0].1).Some? ==>
              AddAll(d, entries) == AddAll(Add(d, entries[0].0, entries[0].1).value, entries[1..])
  {
  }

  /** A `foreach` over `Add`: adds the entries one by one and stops at the
    * first key that is already present. */
  method AddEach<K, V>(d: Dict<K, V>, entries: seq<(K, V)>) returns (r: Dict<K, V>, ok: bool)
    ensures (r, ok) == AddAll(d, entries)
  {
    r := d;
    var i := 0;
    while i < |entries|
      invariant 0 <= i <= |entries|
      invariant AddAll(d, entries) == AddAll(r, entries[i..])
    {
      var step := Add(r, entries[i].0, entries[i].1);
      AddAllHead(r, entries[i..]);
      assert entries[i..][0] == entries[i] && entries[i..][1..] == entries[i + 1..];
      if step.None? {
        return r, false;
      }
      r := step.value;
      i := i + 1;
    }
    assert entries[i..] == [];
    return r, true;
  }

  /** The adds all succeed exactly when the resulting entry list has distinct keys. */
  lemma {:induction false} AddAllSucceedsIff<K, V>(d: Dict<K, V>, entries: seq<(K, V)>)
    ensures AddAll(d, entries).1 <==> DistinctKeys(d + entries)
    decreases |entries|
  {
    if |entries| > 0 {
      var k := entries[0].0;
      if k in Keys(d) {
        var i :| 0 <= i < |d| && Keys(d)[i] == k;
        assert (d + entries)[i].0 == (d + entries)[|d|].0;
      } else {
        var d' := d + [entries[0]];
        AddAllSucceedsIff(d', entries[1..]);
        assert d' + entries[1..] == d + entries;
      }
    }
  }

  /** Adds that all succeed append every entry. */
  lemma AddAllCompletePrefix<K, V>(d: Dict<K, V>, entries: seq<(K, V)>)
    requires AddAll(d, entries).1
    ensures AddAll(d, entries).0 == d + entries[..|entries|]
  {
  }

  /** Adds of distinct keys none of which is present all succeed and append every entry. */
  lemma {:induction false} AddAllFresh<K, V>(d: Dict<K, V>, entries: seq<(K, V)>)
    requires DistinctKeys(entries)
    requires forall i :: 0 <= i < |entries| ==> entries[i].0 !in Keys(d)
    ensures AddAll(d, entries) == (d + entries, true)
    decreases |entries|
  {
    if |entries| > 0 {
      var d' := d + [entries[0]];
      assert Add(d, entries[0].0, entries[0].1) == Some(d');
      DistinctKeysTail(entries);
      forall i | 0 <= i < |entries[1..]| ensures entries[1..][i].0 !in Keys(d') {
        assert entries[1..][i] == entries[i + 1];
        assert Keys(d') == Keys(d) + [entries[0].0];
      }
      AddAllFresh(d', entries[1..]);
      assert d' + entries[1..] == d + entries;
    }
  }

  /** Drops every entry whose key is in `ks`, keeping the order of the rest. */
  function RemoveKeys<K(==,!new), V(!new)>(d: seq<(K, V)>, ks: set<K>): (r: seq<(K, V)>)
    ensures |r| <= |d|
  {
    if |d| == 0 then []
    else (if d[0].0 in ks then [] else [d[0]]) + RemoveKeys(d[1..], ks)
  }

  /** The entries kept are those of `d` whose key is not in `ks`. */
  lemma {:induction false} RemoveKeysMembers<K(!new), V(!new)>(d: seq<(K, V)>, ks: set<K>)
    ensures forall p :: p in RemoveKeys(d, ks) <==> p in d && p.0 !in ks
  {
    if |d| > 0 {
      RemoveKeysMembers(d[1..], ks);
      assert forall p :: p in d <==> p == d[0] || p in d[1..];
    }
  }

  /** Dropping the first entry keeps the keys distinct. */
  lemma DistinctKeysTail<K, V>(d: seq<(K, V)>)
    requires |d| > 0 && DistinctKeys(d)
    ensures DistinctKeys(d[1..])
  {
    forall i, j | 0 <= i < j < |d[1..]| ensures d[1..][i].0 != d[1..][j].0 {
      assert d[1..][i] == d[i + 1] && d[1..][j] == d[j + 1];
    }
  }

  /** An entry whose key no later entry has can go in front. */
  lemma DistinctKeysCons<K, V>(x: (K, V), rest: seq<(K, V)>)
    requires DistinctKeys(rest)
    requires forall p :: p in rest ==> p.0 != x.0
    ensures DistinctKeys([x] + rest)
  {
    var r := [x] + rest;
    forall i, j | 0 <= i < j < |r| ensures r[i].0 != r[j].0 {
      assert r[j] == rest[j - 1];
      if i == 0 {
        assert r[j] in rest;
      } else {
        assert r[i] == rest[i - 1];
      }
    }
  }

  /** Removing entries keeps the keys distinct. */
  lemma {:induction false} RemoveKeysDistinct<K(!new), V(!new)>(d: seq<(K, V)>, ks: set<K>)
    requires DistinctKeys(d)
    ensures DistinctKeys(RemoveKeys(d, ks))
  {
    if |d| > 0 {
      var rest := RemoveKeys(d[1..], ks);
      DistinctKeysTail(d);
      RemoveKeysDistinct(d[1..], ks);
      if d[0].0 !in ks {
        RemoveKeysMembers(d[1..], ks);
        forall p | p in rest ensures p.0 != d[0].0 {
          var i :| 0 <= i < |d[1..]| && d[1..][i] == p;
          assert d[i + 1] == p;
        }
        DistinctKeysCons(d[0], rest);
      }
    }
  }

  /** The set of keys of an entry list. */
  function KeySet<K(==,!new), V>(d: seq<(K, V)>): (s: set<K>)
    ensures forall k :: k in s <==> k in Keys(d)
  {
    set i | 0 <= i < |d| :: d[i].0
  }
}
