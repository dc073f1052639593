/**
 Saving the keys as a list in id order and loading them again, with the repair in between.
 A reachable key map comes back with the same links, secrets and quota names.
 */
module ApiKeyReload {
  import opened Ordered
  import opened ApiKeys
  import opened ApiKeyLineage
  import opened ApiKeyRepair
  import opened ApiKeyRepairTheorems

  /** The records in id order, as they are saved. */
  function Listed(keys: Keys): (rs: seq<Key>)
    ensures |rs| == |keys.Keys| && forall i :: 0 <= i < |rs| ==> rs[i] == keys[Sorted(keys.Keys)[i]]
  {
    var ids := Sorted(keys.Keys);
    assert forall i :: 0 <= i < |ids| ==> ids[i] in ids;
    seq(|ids|, i requires 0 <= i < |ids| => keys[ids[i]])
  }

  /** The map a loaded list becomes; of two records with one id the later counts. */
  function Collect(rs: seq<Key>): Keys {
    if rs == [] then map[] else Collect(rs[..|rs| - 1])[rs[|rs| - 1].id := rs[|rs| - 1]]
  }

  function Reload(keys: Keys): Keys {
    Collect(Repair(Listed(keys)))
  }

  lemma {:induction false} CollectHas(rs: seq<Key>, k: nat)
    ensures k in Collect(rs) <==> exists i :: 0 <= i < |rs| && rs[i].id == k
    decreases |rs|
  {
    if rs != [] {
      var before := rs[..|rs| - 1];
      CollectHas(before, k);
      assert rs[|rs| - 1].id == k || forall i :: 0 <= i < |rs| && rs[i].id == k ==> before[i].id == k;
    }
  }

  lemma {:induction false} CollectAt(rs: seq<Key>, i: nat)
    requires DistinctIds(rs) && i < |rs|
    ensures rs[i].id in Collect(rs) && Collect(rs)[rs[i].id] == rs[i]
    decreases |rs|
  {
    if i < |rs| - 1 {
      CollectAt(rs[..|rs| - 1], i);
    }
  }

  lemma SoundId(keys: Keys, k: nat)
    requires AllSound(keys) && k in keys
    ensures keys[k].id == k
  {
    assert Sound(keys[k], k);
  }

  lemma ListedLists(keys: Keys)
    requires AllSound(keys)
    ensures Lists(Listed(keys), keys)
  {
    hide Sorted, Sound, Listed;
    var ids := Sorted(keys.Keys);
    forall i | 0 <= i < |ids| ensures ids[i] in keys && keys[ids[i]].id == ids[i] {
      assert ids[i] in ids;
      SoundId(keys, ids[i]);
    }
  }

  lemma PlaceOf(keys: Keys, k: nat) returns (i: nat)
    requires k in keys
    ensures i < |Listed(keys)| && Listed(keys)[i] == keys[k]
  {
    hide Sorted, Listed;
    assert k in Sorted(keys.Keys);
    i :| 0 <= i < |Sorted(keys.Keys)| && Sorted(keys.Keys)[i] == k;
  }

  /** What a record keeps through a reload: everything but the spelling of its aliases, and
      a superseded deleted record comes back revoked. */
  predicate Reloaded(r: Key, q: Key) {
    && q.id == r.id && q.owner == r.owner && q.principal == r.principal && q.hash == r.hash
    && q.rotationFrom == r.rotationFrom && q.supersededBy == r.supersededBy && q.limits == r.limits && q.subject.Some?
    && q.Subject() == r.Subject() && q.Aliases() == r.Aliases()
    && (q.status == Active <==> r.status == Active) && (q.status == Pending <==> r.status == Pending)
    && (q.status == Deleted ==> r.status == Deleted)
    && (r.status == Deleted && q.status != Deleted ==> r.supersededBy.Some?)
  }

  lemma MarkKeepsOwner(rs: seq<Key>, ps: Parents, r: Key)
    ensures var q := Mark(rs, Fix(ps, r)); q.owner == r.owner && q.principal == r.principal && q.subject.Some?
  {
    hide Successor, Climb;
  }

  lemma RepairedIsReloaded(births: map<nat, nat>, drawn: set<nat>, keys: Keys, rs: seq<Key>, i: nat)
    requires Inv(births, drawn, keys) && Lists(rs, keys) && i < |rs|
    ensures |Repair(rs)| == |rs| && Reloaded(rs[i], Repair(rs)[i])
  {
    RepairKeepsReachable(births, drawn, keys, rs, i);
    RepairKeepsRecords(rs);
    RepairOf(rs, i);
    MarkKeepsOwner(rs, ParentsOf(rs), rs[i]);
    hide Repair, Winner, Successor, Inv, Mark, Fix, Key.Aliases, ParentsOf;
    if Successor(rs, rs[i]).Some? {
      OnlyTombstonesAreMarked(births, drawn, keys, rs, i);
    }
  }

  /** A reachable map comes back with the same keys, each one reloaded. */
  lemma ReloadIs(births: map<nat, nat>, drawn: set<nat>, keys: Keys, k: nat)
    requires Inv(births, drawn, keys)
    ensures k in Reload(keys) <==> k in keys
    ensures k in keys ==> Reloaded(keys[k], Reload(keys)[k])
  {
    hide AllLinked, OneChild, Secrets, Sound, Repair, Collect, Reloaded, Listed, Sorted;
    var rs := Listed(keys);
    ListedLists(keys);
    ListsDistinct(rs, keys);
    RepairIsDistinct(rs);
    var after := Repair(rs);
    CollectHas(after, k);
    if k in keys {
      var i := PlaceOf(keys, k);
      RepairedIsReloaded(births, drawn, keys, rs, i);
      RepairOf(rs, i);
      SoundId(keys, k);
      CollectAt(after, i);
    }
    if i :| 0 <= i < |after| && after[i].id == k {
      RepairOf(rs, i);
    }
  }

  /** Every record of the next map is a reloaded record of the one before, and none is lost. */
  ghost predicate ReloadStep(keys: Keys, next: Keys) {
    next.Keys == keys.Keys && forall k :: k in keys ==> Reloaded(keys[k], next[k])
  }

  lemma ReloadIsStep(births: map<nat, nat>, drawn: set<nat>, keys: Keys)
    requires Inv(births, drawn, keys)
    ensures ReloadStep(keys, Reload(keys))
  {
    hide Inv, Reload, Reloaded;
    forall k: nat ensures (k in Reload(keys) <==> k in keys) && (k in keys ==> Reloaded(keys[k], Reload(keys)[k])) {
      ReloadIs(births, drawn, keys, k);
    }
  }

  lemma ReloadedLink(births: map<nat, nat>, p: Key, r: Key, p': Key, r': Key)
    requires LinkOk(births, p, r) && Reloaded(p, p') && Reloaded(r, r')
    ensures LinkOk(births, p', r')
  {
    hide Key.Aliases, Key.Subject;
  }

  lemma SameSource(r: Key, q: Key)
    requires Reloaded(r, q)
    ensures q.rotationFrom == r.rotationFrom && q.hash == r.hash && q.id == r.id
  {
  }

  lemma ReloadKeepsLinks(births: map<nat, nat>, keys: Keys, next: Keys)
    requires AllLinked(births, keys) && ReloadStep(keys, next)
    ensures AllLinked(births, next)
  {
    hide LinkOk, Reloaded;
    forall k | k in next ensures Linked(births, next, k) {
      LinkAt(births, keys, k);
      SameSource(keys[k], next[k]);
      if keys[k].rotationFrom.Some? {
        var p := keys[k].rotationFrom.value;
        ReloadedLink(births, keys[p], keys[k], next[p], next[k]);
      }
    }
  }

  lemma ReloadedSound(r: Key, q: Key, k: nat)
    requires Sound(r, k) && Reloaded(r, q)
    ensures Sound(q, k)
  {
    hide Key.Aliases, Key.Subject;
  }

  lemma ReloadKeepsRest(drawn: set<nat>, keys: Keys, next: Keys)
    requires AllSound(keys) && OneChild(keys) && Secrets(drawn, keys) && ReloadStep(keys, next)
    ensures AllSound(next) && OneChild(next) && Secrets(drawn, next)
  {
    hide Sound, Reloaded;
    forall k | k in keys
      ensures Sound(next[k], k) && next[k].rotationFrom == keys[k].rotationFrom && next[k].hash == keys[k].hash
    {
      ReloadedSound(keys[k], next[k], k);
      SameSource(keys[k], next[k]);
    }
  }

  /** Restarting the program keeps the lineage invariant. */
  lemma ReloadKeepsInv(births: map<nat, nat>, drawn: set<nat>, keys: Keys)
    requires Inv(births, drawn, keys)
    ensures Inv(births, drawn, Reload(keys))
  {
    ReloadIsStep(births, drawn, keys);
    hide Reload, AllLinked, AllSound, OneChild, Secrets, ReloadStep;
    ReloadKeepsLinks(births, keys, Reload(keys));
    ReloadKeepsRest(drawn, keys, Reload(keys));
  }
}
