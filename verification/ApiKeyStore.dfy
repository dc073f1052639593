/**
 The API-key part of `ControlStore` as the source runs it: the key map and the secret index
 are updated in place, and restored when the save fails. Each method is tied to the function
 of module ApiKeys that describes it; what those functions keep is proved over runs.
 Whether a save succeeds is the parameter `saved`.
 */
module ApiKeyStore {
  import opened Common
  import opened Ordered
  import opened ApiKeys
  import opened ApiKeyLimits
  import opened ApiKeyCreation
  import opened ApiKeyIndex

  function MergedInto(r: Key, owner: string, subject: Name, aliases: set<Name>, limits: Limits): Key {
    if Mine(r, owner) then r.(subject := Some(subject), aliases := aliases, limits := limits) else r
  }

  function AliasesOf(keys: Keys, ids: set<nat>): set<Name>
    requires ids <= keys.Keys
  {
    set k, n | k in ids && n in keys[k].Aliases() :: n
  }

  lemma NoAliases(keys: Keys)
    ensures AliasesOf(keys, {}) == {}
  {
  }

  lemma AliasStep(keys: Keys, mine: set<nat>, todo: set<nat>, k: nat)
    requires k in todo && todo <= mine <= keys.Keys
    ensures AliasesOf(keys, mine - (todo - {k})) == AliasesOf(keys, mine - todo) + keys[k].Aliases()
  {
  }

  lemma AllAliases(keys: Keys, record: Key, done: set<nat>)
    requires done == MineIds(keys, record.owner)
    ensures SharedAliases(keys, record)
            == record.Aliases() + AliasesOf(keys, done) + {SharedSubject(keys, record.owner)}
  {
  }

  lemma FoldStep(keys: Keys, todo: set<nat>, limits: Limits)
    requires todo <= keys.Keys && todo != {}
    ensures var k := Minimum(todo);
            Fold(limits, LimitsOf(keys, Sorted(todo)))
            == Fold(StricterLimits(limits, keys[k].limits), LimitsOf(keys, Sorted(todo - {k})))
  {
  }

  lemma FoldOfNone(keys: Keys, limits: Limits)
    ensures Fold(limits, LimitsOf(keys, Sorted({}))) == limits
  {
  }

  lemma EmptyPatch(keys: Keys, subject: Name, patch: LimitPatch)
    requires patch.Empty()
    ensures PatchSubject(keys, subject, patch) == keys
  {
  }

  class KeyStore {
    var keys: Keys
    var index: map<nat, nat>

    constructor ()
      ensures keys == map[] && index == map[]
    {
      keys, index := map[], map[];
    }

    /** Rebuild the index and save; on failure put the previous state back. */
    method SaveOrRestore(previousKeys: Keys, previousIndex: map<nat, nat>, saved: bool) returns (r: Result<(), Error>)
      modifies this
      ensures r == if saved then Ok(()) else Err(SaveFailed)
      ensures keys == if saved then old(keys) else previousKeys
      ensures index == if saved then Index(keys) else previousIndex
    {
      index := RebuildIndex(keys);
      if !saved {
        keys, index := previousKeys, previousIndex;
        return Err(SaveFailed);
      }
      return Ok(());
    }

    /** `retain` without the replacements prepared for `source`. */
    method DropPending(source: nat)
      modifies this`keys
      ensures keys == DropPendingOf(old(keys), source)
    {
      var before, todo := keys, keys.Keys;
      while todo != {}
        invariant todo <= before.Keys
        invariant forall k :: k in keys <==> k in before && (k in todo || !before[k].PendingOf(source))
        invariant forall k :: k in keys ==> keys[k] == before[k]
      {
        var k := Minimum(todo);
        if keys[k].PendingOf(source) {
          keys := keys - {k};
        }
        todo := todo - {k};
      }
    }

    method CreateApiKey(record: Key, saved: bool) returns (r: Result<(), Error>)
      requires index == Index(keys)
      modifies this
      ensures r == if saved then Ok(()) else Err(SaveFailed)
      ensures keys == if saved then Create(old(keys), record) else old(keys)
      ensures index == Index(keys)
    {
      var before, beforeIndex := keys, index;
      keys := keys[record.id := record];
      r := SaveOrRestore(before, beforeIndex, saved);
    }

    /** The oldest of the owner's user keys, by a pass that keeps the best so far. */
    method OldestOf(owner: string) returns (best: Option<nat>)
      ensures var mine := MineIds(keys, owner);
              if mine == {} then best == None else best == Some(Oldest(keys, mine))
    {
      hide Oldest;
      var todo := keys.Keys;
      best := None;
      while todo != {}
        invariant todo <= keys.Keys
        invariant best.None? ==> forall k :: k in keys && Mine(keys[k], owner) ==> k in todo
        invariant best.Some? ==> best.value in keys && Mine(keys[best.value], owner)
        invariant best.Some? ==> forall k :: k in keys - todo && Mine(keys[k], owner) ==> Older(keys, best.value, k)
      {
        var k := Minimum(todo);
        if Mine(keys[k], owner) && (best.None? || !Older(keys, best.value, k)) {
          best := Some(k);
        }
        todo := todo - {k};
      }
      if best.Some? {
        assert best.value in MineIds(keys, owner);
        var o := Oldest(keys, MineIds(keys, owner));
        assert Older(keys, o, best.value) && Older(keys, best.value, o);
      }
    }

    /** `for … values_mut()`: merge the owner's user keys one by one. */
    method MergeOwn(owner: string, subject: Name, aliases: set<Name>, limits: Limits)
      modifies this`keys
      ensures keys == map k | k in old(keys) :: MergedInto(old(keys)[k], owner, subject, aliases, limits)
    {
      var before, todo := keys, keys.Keys;
      while todo != {}
        invariant todo <= before.Keys == keys.Keys
        invariant forall k :: k in before ==>
                    keys[k] == if k in todo then before[k] else MergedInto(before[k], owner, subject, aliases, limits)
      {
        var k := Minimum(todo);
        keys := keys[k := MergedInto(keys[k], owner, subject, aliases, limits)];
        todo := todo - {k};
      }
    }

    /** The strictest limits and all aliases of the owner's user keys and a new record. */
    method Shared(record: Key, subject: Name) returns (limits: Limits, aliases: set<Name>)
      requires subject == SharedSubject(keys, record.owner)
      ensures limits == SharedLimits(keys, record) && aliases == SharedAliases(keys, record)
    {
      hide SharedSubject, Fold, LimitsOf, Sorted, StricterLimits, AliasesOf;
      var mine := MineIds(keys, record.owner);
      var todo := mine;
      limits, aliases := record.limits, record.Aliases();
      assert AliasesOf(keys, mine - todo) == {} by { assert mine - todo == {}; NoAliases(keys); }
      while todo != {}
        invariant todo <= mine
        invariant Fold(limits, LimitsOf(keys, Sorted(todo))) == SharedLimits(keys, record)
        invariant aliases == record.Aliases() + AliasesOf(keys, mine - todo)
      {
        var k := Minimum(todo);
        FoldStep(keys, todo, limits);
        AliasStep(keys, mine, todo, k);
        limits := StricterLimits(limits, keys[k].limits);
        aliases := aliases + keys[k].Aliases();
        todo := todo - {k};
      }
      FoldOfNone(keys, limits);
      AllAliases(keys, record, mine - todo);
      aliases := aliases + {subject};
    }

    /** Creation under an active-key limit: the owner's user keys move to one quota subject. */
    method CreateOwnApiKey(record: Key, saved: bool) returns (r: Result<(), Error>)
      requires index == Index(keys)
      modifies this
      ensures r == if saved then Ok(()) else Err(SaveFailed)
      ensures keys == if saved then CreateSelfService(old(keys), record) else old(keys)
      ensures index == Index(keys)
    {
      hide SharedLimits, SharedAliases, Oldest, Index;
      var before, beforeIndex := keys, index;
      var oldest := OldestOf(record.owner);
      var subject := if oldest.Some? then keys[oldest.value].Subject() else Pseudonym(OwnerSeed(record.owner));
      var limits, aliases := Shared(record, subject);
      MergeOwn(record.owner, subject, aliases, limits);
      keys := keys[record.id := record.(subject := Some(subject), aliases := aliases, limits := limits)];
      assert keys == CreateSelfService(before, record);
      r := SaveOrRestore(before, beforeIndex, saved);
    }

    method RevokeApiKey(id: nat, saved: bool) returns (r: Result<(), Error>)
      requires index == Index(keys)
      modifies this
      ensures var e := Revoke(old(keys), id);
              && keys == (if e.Ok? && saved then e.value else old(keys)) && index == Index(keys)
              && (e.Err? ==> r == Err(e.error))
              && (e.Ok? ==> r == if saved || old(keys)[id].status == Deleted then Ok(()) else Err(SaveFailed))
    {
      hide Index;
      if id !in keys { return Err(NotFound); }
      if keys[id].status == Pending { return Err(PendingMutation); }
      if keys[id].status == Deleted { return Ok(()); }
      var before, beforeIndex := keys, index;
      keys := keys[id := keys[id].(status := Revoked)];
      DropPending(id);
      r := SaveOrRestore(before, beforeIndex, saved);
    }

    method RotateApiKey(id: nat, newId: nat, newHash: nat, now: nat, saved: bool) returns (r: Result<(), Error>)
      requires index == Index(keys)
      modifies this
      ensures var e := Rotate(old(keys), id, newId, newHash, now);
              && keys == (if e.Ok? && saved then e.value else old(keys)) && index == Index(keys)
              && r == if e.Err? then Err(e.error) else if saved then Ok(()) else Err(SaveFailed)
    {
      hide Index, Replacement;
      if id !in keys { return Err(NotFound); }
      var current := keys[id];
      if current.status != Active { return Err(NotActive); }
      if current.Expired(now) { return Err(ExpiredKey); }
      var before, beforeIndex := keys, index;
      DropPending(id);
      keys := keys[newId := Replacement(current, newId, newHash, now)];
      r := SaveOrRestore(before, beforeIndex, saved);
    }

    method ConfirmApiKeyRotation(id: nat, replacement: nat, now: nat, saved: bool) returns (r: Result<(), Error>)
      requires index == Index(keys)
      modifies this
      ensures var e := Confirm(old(keys), id, replacement, now);
              && keys == (if e.Ok? && saved then e.value else old(keys)) && index == Index(keys)
              && r == if e.Err? then Err(e.error) else if saved then Ok(()) else Err(SaveFailed)
    {
      hide Index, Reconfirmed, Confirmed;
      if id !in keys { return Err(NotFound); }
      if replacement !in keys { return Err(NoPreparedRotation); }
      var current, next := keys[id], keys[replacement];
      var before, beforeIndex := keys, index;
      if next.status == Active && next.rotationFrom == Some(id) {
        keys := keys[id := keys[id].(status := Revoked, supersededBy := Some(next.id), hash := None)];
        keys := keys[replacement := Reconfirmed(current, next)];
      } else {
        if current.status != Active || current.Expired(now) { return Err(NotActive); }
        if next.status != Pending || next.rotationFrom != Some(id) { return Err(NoPreparedRotation); }
        keys := keys[id := keys[id].(status := Revoked, supersededBy := Some(next.id), hash := None)];
        keys := keys[next.id := Confirmed(current, next)];
      }
      r := SaveOrRestore(before, beforeIndex, saved);
    }

    method CancelApiKeyRotation(id: nat, replacement: nat, saved: bool) returns (r: Result<(), Error>)
      requires index == Index(keys)
      modifies this
      ensures var e := Cancel(old(keys), id, replacement);
              && keys == (if e.Ok? && saved then e.value else old(keys)) && index == Index(keys)
              && (e.Err? ==> r == Err(e.error))
              && (e.Ok? ==> r == if saved || replacement !in old(keys) then Ok(()) else Err(SaveFailed))
    {
      hide Index;
      var sourceIsActive := id in keys && keys[id].status == Active;
      var pendingMatches := replacement in keys && keys[replacement].PendingOf(id);
      if sourceIsActive && replacement !in keys { return Ok(()); }
      if !pendingMatches { return Err(NoPreparedRotation); }
      var before, beforeIndex := keys, index;
      keys := keys - {replacement};
      r := SaveOrRestore(before, beforeIndex, saved);
    }

    /** Write an update's limits to every key of the subject, one by one. */
    method WriteSubjectLimits(subject: Name, patch: LimitPatch)
      modifies this`keys
      ensures keys == PatchSubject(old(keys), subject, patch)
    {
      hide LimitPatch.Apply;
      var before, todo := keys, keys.Keys;
      while todo != {}
        invariant todo <= before.Keys == keys.Keys
        invariant forall k :: k in before ==>
                    keys[k] == if k in todo || before[k].Subject() != subject then before[k]
                               else before[k].(limits := patch.Apply(before[k].limits))
      {
        var k := Minimum(todo);
        if keys[k].Subject() == subject {
          keys := keys[k := keys[k].(limits := patch.Apply(keys[k].limits))];
        }
        todo := todo - {k};
      }
    }

    method UpdateApiKey(id: nat, input: UpdateInput, now: nat, saved: bool) returns (r: Result<(), Error>)
      requires index == Index(keys)
      modifies this
      ensures var e := Update(old(keys), id, input, now);
              && keys == (if e.Ok? && saved then e.value else old(keys)) && index == Index(keys)
              && r == if e.Err? then Err(e.error) else if saved then Ok(()) else Err(SaveFailed)
    {
      hide Index, LimitPatch.Apply, LimitPatch.Valid;
      if id !in keys { return Err(NotFound); }
      if keys[id].status == Pending { return Err(PendingMutation); }
      if keys[id].status == Deleted { return Err(DeletedKey); }
      if keys[id].supersededBy.Some? { return Err(SupersededKey); }
      if !input.limits.Valid() { return Err(InvalidLimit); }
      var updated := UpdatedKey(keys[id], input);
      if updated.status == Active && updated.Expired(now) { return Err(ExpiredKey); }
      var before, beforeIndex := keys, index;
      keys := keys[id := updated];
      if !input.limits.Empty() {
        WriteSubjectLimits(updated.Subject(), input.limits);
      } else {
        EmptyPatch(keys, updated.Subject(), input.limits);
      }
      if updated.status == Revoked {
        DropPending(id);
      }
      r := SaveOrRestore(before, beforeIndex, saved);
    }

    method BindApiKeyScope(id: nat, scope: string, saved: bool) returns (r: Result<(), Error>)
      requires index == Index(keys)
      modifies this
      ensures var e := Bind(old(keys), id, scope);
              && keys == (if e.Ok? && saved then e.value else old(keys)) && index == Index(keys)
              && r == if e.Err? then Err(e.error) else if saved then Ok(()) else Err(SaveFailed)
    {
      hide Index;
      if id !in keys { return Err(NotFound); }
      var updated := keys[id];
      if updated.status == Pending { return Err(PendingMutation); }
      if updated.status == Deleted { return Err(DeletedKey); }
      if updated.supersededBy.Some? { return Err(SupersededKey); }
      var before, beforeIndex := keys, index;
      keys := keys[id := updated.(scope := scope)];
      r := SaveOrRestore(before, beforeIndex, saved);
    }

    method DeleteApiKey(id: nat, saved: bool) returns (r: Result<(), Error>)
      requires index == Index(keys)
      modifies this
      ensures var e := Delete(old(keys), id);
              && keys == (if e.Ok? && saved then e.value else old(keys)) && index == Index(keys)
              && (e.Err? ==> r == Err(e.error))
              && (e.Ok? ==> r == if saved || old(keys)[id].status == Deleted then Ok(()) else Err(SaveFailed))
    {
      hide Index;
      if id !in keys { return Err(NotFound); }
      if keys[id].status == Pending { return Err(PendingMutation); }
      if keys[id].status == Deleted { return Ok(()); }
      var before, beforeIndex := keys, index;
      keys := keys[id := keys[id].(status := Deleted, hash := None)];
      DropPending(id);
      r := SaveOrRestore(before, beforeIndex, saved);
    }

    /** Drop the user's prepared keys, then revoke the rest, in two passes. */
    method DeleteUserResources(owner: string, saved: bool) returns (r: Result<(), Error>)
      requires index == Index(keys)
      modifies this
      ensures keys == if saved then DeleteUser(old(keys), owner) else old(keys)
      ensures index == Index(keys)
      ensures r == if saved then Ok(()) else Err(SaveFailed)
    {
      hide Index;
      var before, beforeIndex := keys, index;
      DropPendingOwned(owner);
      RevokeOwned(owner);
      assert keys == DeleteUser(before, owner);
      r := SaveOrRestore(before, beforeIndex, saved);
    }

    method DropPendingOwned(owner: string)
      modifies this`keys
      ensures keys == map k | k in old(keys) && !(old(keys)[k].owner == owner && old(keys)[k].status == Pending) :: old(keys)[k]
    {
      var before, todo := keys, keys.Keys;
      while todo != {}
        invariant todo <= before.Keys
        invariant forall k :: k in keys <==>
                    k in before && (k in todo || !(before[k].owner == owner && before[k].status == Pending))
        invariant forall k :: k in keys ==> keys[k] == before[k]
      {
        var k := Minimum(todo);
        if keys[k].owner == owner && keys[k].status == Pending {
          keys := keys - {k};
        }
        todo := todo - {k};
      }
    }

    method RevokeOwned(owner: string)
      modifies this`keys
      ensures keys == map k | k in old(keys) ::
                        if old(keys)[k].owner == owner && old(keys)[k].status != Deleted
                        then old(keys)[k].(status := Revoked) else old(keys)[k]
    {
      var before, todo := keys, keys.Keys;
      while todo != {}
        invariant todo <= before.Keys == keys.Keys
        invariant forall k :: k in before ==>
                    keys[k] == if k !in todo && before[k].owner == owner && before[k].status != Deleted
                               then before[k].(status := Revoked) else before[k]
      {
        var k := Minimum(todo);
        if keys[k].owner == owner && keys[k].status != Deleted {
          keys := keys[k := keys[k].(status := Revoked)];
        }
        todo := todo - {k};
      }
    }

    /** Look a secret up; an expired key is revoked on the way. */
    method AuthenticateSecret(hash: nat, now: nat, saved: bool) returns (r: Result<Option<nat>, Error>)
      requires index == Index(keys)
      modifies this
      ensures r == Ok(None) <==> Lookup(old(keys), hash).None?
      ensures forall k :: r == Ok(Some(k)) <==>
                Lookup(old(keys), hash) == Some(k) && k in old(keys)
                && old(keys)[k].status == Active && !old(keys)[k].Expired(now)
      ensures keys == match Lookup(old(keys), hash)
                      case Some(k) =>
                        if saved && k in old(keys) && old(keys)[k].status == Active && old(keys)[k].Expired(now)
                        then Expire(old(keys), k) else old(keys)
                      case None => old(keys)
      ensures index == Index(keys)
    {
      IndexAnswers(keys, hash);
      hide Index;
      if hash !in index { return Ok(None); }
      var id := index[hash];
      if id !in keys { return Ok(None); }
      if keys[id].status != Active { return Err(Unauthorized); }
      if keys[id].Expired(now) {
        var before, beforeIndex := keys, index;
        keys := keys[id := keys[id].(status := Revoked)];
        var s := SaveOrRestore(before, beforeIndex, saved);
        return Err(if s.Err? then s.error else Unauthorized);
      }
      return Ok(Some(id));
    }
  }
}
