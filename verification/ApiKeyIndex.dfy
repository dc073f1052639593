/**
 The secret index of src/control.rs (`rebuild_api_key_hash_index`): rebuilt before every
 save by walking the keys in id order, so that of two keys with one secret the later wins.
 */
module ApiKeyIndex {
  import opened Common
  import opened Ordered
  import opened ApiKeys

  function IndexOf(keys: Keys, ids: seq<nat>): map<nat, nat>
    requires forall i :: i in ids ==> i in keys
  {
    if ids == [] then map[]
    else
      var last := ids[|ids| - 1];
      var index := IndexOf(keys, ids[..|ids| - 1]);
      if keys[last].hash.Some? then index[keys[last].hash.value := last] else index
  }

  function Index(keys: Keys): map<nat, nat> {
    IndexOf(keys, Sorted(keys.Keys))
  }

  predicate Holds(keys: Keys, k: nat, h: nat) {
    k in keys && keys[k].hash == Some(h)
  }

  lemma InLast<T>(rest: seq<T>, last: T, x: T)
    ensures x in rest + [last] <==> x in rest || x == last
  {
  }

  /** What the last id does to the index. */
  lemma IndexOfLast(keys: Keys, rest: seq<nat>, last: nat, h: nat)
    requires (forall i :: i in rest ==> i in keys) && last in keys
    ensures h in IndexOf(keys, rest + [last]) <==> h in IndexOf(keys, rest) || Holds(keys, last, h)
    ensures h in IndexOf(keys, rest + [last]) ==>
              IndexOf(keys, rest + [last])[h] == if Holds(keys, last, h) then last else IndexOf(keys, rest)[h]
  {
    assert (rest + [last])[..|rest|] == rest;
  }

  lemma LastIsGreatest(rest: seq<nat>, last: nat)
    requires Ascending(rest + [last])
    ensures Ascending(rest) && forall k :: k in rest ==> k <= last
  {
    var ids := rest + [last];
    assert forall i :: 0 <= i < |rest| ==> ids[i] == rest[i];
    assert ids[|rest|] == last;
  }

  lemma {:induction false} IndexOfAnswers(keys: Keys, ids: seq<nat>, h: nat)
    requires (forall i :: i in ids ==> i in keys) && Ascending(ids)
    ensures h in IndexOf(keys, ids) <==> exists k :: k in ids && Holds(keys, k, h)
    ensures h in IndexOf(keys, ids) ==>
              Holds(keys, IndexOf(keys, ids)[h], h)
              && forall k :: k in ids && Holds(keys, k, h) ==> k <= IndexOf(keys, ids)[h]
    decreases |ids|
  {
    if ids != [] {
      hide IndexOf, Holds, Ascending;
      var rest, last := ids[..|ids| - 1], ids[|ids| - 1];
      assert ids == rest + [last];
      LastIsGreatest(rest, last);
      IndexOfAnswers(keys, rest, h);
      IndexOfLast(keys, rest, last, h);
      forall k ensures k in ids <==> k in rest || k == last {
        InLast(rest, last, k);
      }
      if h in IndexOf(keys, rest) {
        var k :| k in rest && Holds(keys, k, h);
        assert k in ids;
      }
    }
  }

  /** A secret is found exactly if some key holds it, and then the greatest such key. */
  lemma IndexAnswers(keys: Keys, h: nat)
    ensures h in Index(keys) <==> exists k :: Holds(keys, k, h)
    ensures h in Index(keys) ==>
              Holds(keys, Index(keys)[h], h) && forall k :: Holds(keys, k, h) ==> k <= Index(keys)[h]
  {
    IndexOfAnswers(keys, Sorted(keys.Keys), h);
  }

  /** The first key in id order that holds the secret. */
  function Scan(keys: Keys, ids: seq<nat>, h: nat): (r: Option<nat>)
    requires forall i :: i in ids ==> i in keys
    ensures r.Some? ==> r.value in ids && Holds(keys, r.value, h)
    ensures r.None? ==> forall k :: k in ids ==> !Holds(keys, k, h)
  {
    if ids == [] then None
    else if keys[ids[0]].hash == Some(h) then Some(ids[0])
    else Scan(keys, ids[1..], h)
  }

  function Lookup(keys: Keys, h: nat): Option<nat> {
    if h in Index(keys) then Some(Index(keys)[h]) else None
  }

  ghost predicate OneHolder(keys: Keys, h: nat) {
    forall a, b :: Holds(keys, a, h) && Holds(keys, b, h) ==> a == b
  }

  predicate Agree(keys: Keys, h: nat) {
    Lookup(keys, h) == Scan(keys, Sorted(keys.Keys), h)
  }

  lemma {:induction false} ScanFindsFirst(keys: Keys, ids: seq<nat>, h: nat, k: nat)
    requires (forall i :: i in ids ==> i in keys) && Ascending(ids) && k in ids && Holds(keys, k, h)
    ensures Scan(keys, ids, h).Some? && Scan(keys, ids, h).value <= k
    decreases |ids|
  {
    if keys[ids[0]].hash != Some(h) {
      assert k in ids[1..];
      ScanFindsFirst(keys, ids[1..], h, k);
    } else {
      assert k == ids[0] || k in ids[1..];
    }
  }

  /** Scan and index agree on a secret exactly if at most one record holds it. */
  lemma AgreeOnSecret(keys: Keys, h: nat)
    ensures Agree(keys, h) <==> OneHolder(keys, h)
  {
    hide Index, Scan, Sorted;
    var ids := Sorted(keys.Keys);
    IndexAnswers(keys, h);
    forall a | Holds(keys, a, h) ensures Scan(keys, ids, h).Some? && Scan(keys, ids, h).value <= a {
      assert a in ids;
      ScanFindsFirst(keys, ids, h, a);
    }
  }

  /** The index answers every secret as a scan of the records would, exactly if no two
      records hold the same secret. */
  lemma IndexIsScanIffDistinct(keys: Keys)
    ensures (forall h :: Agree(keys, h)) <==> forall h :: OneHolder(keys, h)
  {
    hide Agree, OneHolder;
    forall h ensures Agree(keys, h) <==> OneHolder(keys, h) {
      AgreeOnSecret(keys, h);
    }
  }

  /** The rebuild as the source's pass over the map. */
  method RebuildIndex(keys: Keys) returns (index: map<nat, nat>)
    ensures index == Index(keys)
  {
    hide Sorted;
    var ids := Sorted(keys.Keys);
    index := map[];
    for i := 0 to |ids|
      invariant index == IndexOf(keys, ids[..i])
    {
      assert ids[..i + 1][..i] == ids[..i];
      if keys[ids[i]].hash.Some? {
        index := index[keys[ids[i]].hash.value := ids[i]];
      }
    }
    assert ids[..|ids|] == ids;
  }
}
