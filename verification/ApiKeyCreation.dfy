/**
 Creating API keys (src/control.rs:2539-2648). Self-service creation moves every user key
 of the owner, and the new one, onto one quota subject with common aliases and limits.
 */
module ApiKeyCreation {
  import opened Common
  import opened Ordered
  import opened ApiKeys
  import opened ApiKeyLimits

  predicate Mine(k: Key, owner: string) {
    k.owner == owner && k.principal == UserPrincipal
  }

  function MineIds(keys: Keys, owner: string): set<nat> {
    set k | k in keys && Mine(keys[k], owner)
  }

  predicate Older(keys: Keys, a: nat, b: nat)
    requires a in keys && b in keys
  {
    keys[a].createdAt < keys[b].createdAt || (keys[a].createdAt == keys[b].createdAt && a <= b)
  }

  /** The oldest of some keys, by creation time and then by id. */
  function Oldest(keys: Keys, ids: set<nat>): (m: nat)
    requires ids <= keys.Keys && ids != {}
    ensures m in ids && forall x :: x in ids ==> Older(keys, m, x)
  {
    var first := Minimum(ids);
    var rest := ids - {first};
    if rest == {} then
      assert ids == {first};
      first
    else
      var m := Oldest(keys, rest);
      assert forall x :: x in ids ==> x == first || x in rest;
      if Older(keys, first, m) then first else m
  }

  /** The subject the owner's keys move to: the oldest key's, or the owner's own. */
  function SharedSubject(keys: Keys, owner: string): Name {
    var ids := MineIds(keys, owner);
    if ids == {} then Pseudonym(OwnerSeed(owner)) else keys[Oldest(keys, ids)].Subject()
  }

  function SharedAliases(keys: Keys, record: Key): set<Name> {
    record.Aliases()
    + (set k, n | k in keys && Mine(keys[k], record.owner) && n in keys[k].Aliases() :: n)
    + {SharedSubject(keys, record.owner)}
  }

  function LimitsOf(keys: Keys, ids: seq<nat>): seq<Limits>
    requires forall i :: i in ids ==> i in keys
  {
    if ids == [] then [] else [keys[ids[0]].limits] + LimitsOf(keys, ids[1..])
  }

  function SharedLimits(keys: Keys, record: Key): Limits {
    Fold(record.limits, LimitsOf(keys, Sorted(MineIds(keys, record.owner))))
  }

  function Merged(keys: Keys, record: Key, k: Key): Key {
    k.(subject := Some(SharedSubject(keys, record.owner)), aliases := SharedAliases(keys, record),
       limits := SharedLimits(keys, record))
  }

  function CreateSelfService(keys: Keys, record: Key): Keys {
    (map k | k in keys :: if Mine(keys[k], record.owner) then Merged(keys, record, keys[k]) else keys[k])
    [record.id := Merged(keys, record, record)]
  }
}
