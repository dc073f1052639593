/**
 What every operation on API keys keeps. `births` records in which order ids were drawn;
 it is history, not part of the store, and witnesses that rotation links never form a cycle.
 */
module ApiKeyLineage {
  import opened Common
  import opened ApiKeys
  import opened ApiKeyCreation

  /** What a key keeps about itself. */
  predicate Sound(r: Key, k: nat) {
    && r.id == k && r.subject.Some?
    && (r.status == Pending ==> r.rotationFrom.Some? && r.supersededBy.None?)
    && (r.status == Deleted ==> r.hash.None?)
    && (r.supersededBy.Some? ==> r.status != Active && r.hash.None?)
    && (r.hash.None? ==> r.status == Deleted || r.supersededBy.Some?)
  }

  /** What a key keeps about the key it replaces. */
  predicate LinkOk(births: map<nat, nat>, p: Key, r: Key) {
    && p.id in births && r.id in births && births[p.id] < births[r.id]
    && p.status != Pending && p.owner == r.owner && p.principal == r.principal
    && p.Subject() == r.Subject() && p.Aliases() <= r.Aliases()
    && (r.status != Pending ==> p.supersededBy == Some(r.id))
  }

  ghost predicate AllSound(keys: Keys) {
    forall k :: k in keys ==> Sound(keys[k], k)
  }

  predicate Linked(births: map<nat, nat>, keys: Keys, k: nat)
    requires k in keys
  {
    && k in births
    && (keys[k].rotationFrom.Some? ==>
          keys[k].rotationFrom.value in keys && LinkOk(births, keys[keys[k].rotationFrom.value], keys[k]))
  }

  ghost predicate AllLinked(births: map<nat, nat>, keys: Keys) {
    forall k :: k in keys ==> Linked(births, keys, k)
  }

  /** The key that `keys[k]` replaces. */
  lemma LinkAt(births: map<nat, nat>, keys: Keys, k: nat)
    requires AllLinked(births, keys) && k in keys
    ensures k in births
    ensures keys[k].rotationFrom.Some? ==>
              keys[k].rotationFrom.value in keys && LinkOk(births, keys[keys[k].rotationFrom.value], keys[k])
  {
  }

  /** A source key has at most one child, be it prepared or confirmed. */
  ghost predicate OneChild(keys: Keys) {
    forall a, b ::
      (a in keys && b in keys && keys[a].rotationFrom.Some? && keys[a].rotationFrom == keys[b].rotationFrom)
      ==> a == b
  }

  /** No two keys share a secret, and every secret was drawn at some point. */
  ghost predicate Secrets(drawn: set<nat>, keys: Keys) {
    && (forall k :: k in keys && keys[k].hash.Some? ==> keys[k].hash.value in drawn)
    && (forall a, b :: a in keys && b in keys && keys[a].hash.Some? && keys[a].hash == keys[b].hash ==> a == b)
  }

  ghost predicate Inv(births: map<nat, nat>, drawn: set<nat>, keys: Keys) {
    AllSound(keys) && AllLinked(births, keys) && OneChild(keys) && Secrets(drawn, keys)
  }

  // ---- Operations that change keys only in tame ways ------------------------------------------

  /** The new record has the old one's identity and lineage, is prepared exactly if the old
      one was, and can only be active with a secret the old one had. */
  predicate Tame(r: Key, q: Key) {
    && q.id == r.id && q.owner == r.owner && q.principal == r.principal && q.rotationFrom == r.rotationFrom
    && q.supersededBy == r.supersededBy && q.subject == r.subject && q.aliases == r.aliases
    && (q.status == Pending <==> r.status == Pending)
    && (q.status == Deleted || q.hash == r.hash)
    && (q.status == Deleted ==> q.hash.None?)
    && (r.status == Deleted ==> q.status == Deleted)
    && (r.supersededBy.Some? ==> q.status != Active)
  }

  ghost predicate TameStep(keys: Keys, next: Keys) {
    && (forall k :: k in next ==> k in keys && Tame(keys[k], next[k]))
    && (forall k :: k in keys && k !in next ==> keys[k].status == Pending)
  }

  lemma TameKeepsLinks(births: map<nat, nat>, keys: Keys, next: Keys)
    requires AllLinked(births, keys) && TameStep(keys, next)
    ensures AllLinked(births, next)
  {
  }

  lemma TameKeepsSecrets(drawn: set<nat>, keys: Keys, next: Keys)
    requires Secrets(drawn, keys) && TameStep(keys, next)
    ensures Secrets(drawn, next)
  {
  }

  lemma TameKeepsInv(births: map<nat, nat>, drawn: set<nat>, keys: Keys, next: Keys)
    requires Inv(births, drawn, keys) && TameStep(keys, next)
    ensures Inv(births, drawn, next)
  {
    hide AllLinked;
    TameKeepsLinks(births, keys, next);
    forall k | k in next ensures Sound(next[k], k) && next[k].rotationFrom == keys[k].rotationFrom {
      assert Sound(keys[k], k) && Tame(keys[k], next[k]);
    }
    TameKeepsSecrets(drawn, keys, next);
  }

  lemma TameTransitive(a: Keys, b: Keys, c: Keys)
    requires TameStep(a, b) && TameStep(b, c)
    ensures TameStep(a, c)
  {
  }

  lemma DropIsTame(keys: Keys, id: nat)
    requires AllSound(keys)
    ensures TameStep(keys, DropPendingOf(keys, id)) && AllSound(DropPendingOf(keys, id))
  {
  }

  lemma PatchIsTame(keys: Keys, subject: Name, patch: LimitPatch)
    requires AllSound(keys)
    ensures TameStep(keys, PatchSubject(keys, subject, patch)) && AllSound(PatchSubject(keys, subject, patch))
  {
    hide LimitPatch.Apply;
    forall k | k in keys ensures Tame(keys[k], PatchSubject(keys, subject, patch)[k]) {
      assert Sound(keys[k], k);
    }
    assert forall k :: k in keys ==> Sound(keys[k], k);
  }

  lemma ReplaceIsTame(keys: Keys, id: nat, q: Key)
    requires AllSound(keys) && id in keys && Tame(keys[id], q) && Sound(q, id)
    ensures TameStep(keys, keys[id := q]) && AllSound(keys[id := q])
  {
  }

  lemma SoundAt(keys: Keys, id: nat)
    requires AllSound(keys) && id in keys
    ensures Sound(keys[id], id)
  {
  }

  lemma RevokeIsTame(keys: Keys, id: nat)
    requires AllSound(keys) && Revoke(keys, id).Ok?
    ensures TameStep(keys, Revoke(keys, id).value)
  {
    hide DropPendingOf, AllSound, TameStep;
    SoundAt(keys, id);
    ReplaceIsTame(keys, id, keys[id]);
    if keys[id].status != Deleted {
      var q := keys[id].(status := Revoked);
      ReplaceIsTame(keys, id, q);
      DropIsTame(keys[id := q], id);
      TameTransitive(keys, keys[id := q], DropPendingOf(keys[id := q], id));
    } else {
      assert keys[id := keys[id]] == keys;
    }
  }

  lemma CancelIsTame(keys: Keys, id: nat, replacement: nat)
    requires AllSound(keys) && Cancel(keys, id, replacement).Ok?
    ensures TameStep(keys, Cancel(keys, id, replacement).value)
  {
  }

  lemma UpdateIsTame(keys: Keys, id: nat, input: UpdateInput, now: nat)
    requires AllSound(keys) && Update(keys, id, input, now).Ok?
    ensures TameStep(keys, Update(keys, id, input, now).value)
  {
    hide LimitPatch.Apply, LimitPatch.Valid, PatchSubject, DropPendingOf, AllSound, TameStep;
    SoundAt(keys, id);
    var q := UpdatedKey(keys[id], input);
    var a := keys[id := q];
    var b := PatchSubject(a, q.Subject(), input.limits);
    ReplaceIsTame(keys, id, q);
    PatchIsTame(a, q.Subject(), input.limits);
    TameTransitive(keys, a, b);
    if q.status == Revoked {
      DropIsTame(b, id);
      TameTransitive(keys, b, DropPendingOf(b, id));
    }
  }

  lemma BindIsTame(keys: Keys, id: nat, scope: string)
    requires AllSound(keys) && Bind(keys, id, scope).Ok?
    ensures TameStep(keys, Bind(keys, id, scope).value)
  {
    SoundAt(keys, id);
    ReplaceIsTame(keys, id, keys[id].(scope := scope));
  }

  lemma DeleteIsTame(keys: Keys, id: nat)
    requires AllSound(keys) && Delete(keys, id).Ok?
    ensures TameStep(keys, Delete(keys, id).value)
  {
    hide DropPendingOf, AllSound, TameStep;
    SoundAt(keys, id);
    if keys[id].status != Deleted {
      var q := keys[id].(status := Deleted, hash := None);
      ReplaceIsTame(keys, id, q);
      DropIsTame(keys[id := q], id);
      TameTransitive(keys, keys[id := q], DropPendingOf(keys[id := q], id));
    } else {
      ReplaceIsTame(keys, id, keys[id]);
      assert keys[id := keys[id]] == keys;
    }
  }

  lemma DeleteUserIsTame(keys: Keys, owner: string)
    requires AllSound(keys)
    ensures TameStep(keys, DeleteUser(keys, owner))
  {
  }

  lemma ExpireIsTame(keys: Keys, id: nat)
    requires AllSound(keys) && id in keys && keys[id].status == Active
    ensures TameStep(keys, Expire(keys, id))
  {
  }

  // ---- Creation -----------------------------------------------------------------------------------

  /** A number drawn later than every number drawn so far. */
  ghost predicate Later(births: map<nat, nat>, id: nat, birth: nat) {
    id !in births && forall x :: x in births ==> births[x] < birth
  }

  lemma NewbornKeepsLinks(births: map<nat, nat>, keys: Keys, r: Key, birth: nat)
    requires AllLinked(births, keys) && Later(births, r.id, birth)
    requires r.rotationFrom.Some? ==>
               r.rotationFrom.value in keys && LinkOk(births[r.id := birth], keys[r.rotationFrom.value], r)
    ensures AllLinked(births[r.id := birth], keys[r.id := r])
  {
  }

  /** A new key with a fresh id and secret, that replaces nothing or a key without child. */
  lemma NewbornKeepsInv(births: map<nat, nat>, drawn: set<nat>, keys: Keys, r: Key, birth: nat)
    requires Inv(births, drawn, keys) && Later(births, r.id, birth)
    requires r.hash.Some? && r.hash.value !in drawn && Sound(r, r.id)
    requires r.rotationFrom.Some? ==>
               r.rotationFrom.value in keys && LinkOk(births[r.id := birth], keys[r.rotationFrom.value], r)
    requires forall k :: k in keys ==> r.rotationFrom.None? || keys[k].rotationFrom != r.rotationFrom
    ensures Inv(births[r.id := birth], drawn + {r.hash.value}, keys[r.id := r])
  {
    NewbornKeepsLinks(births, keys, r, birth);
    hide AllLinked, Sound;
  }

  // ---- Rotation -----------------------------------------------------------------------------------

  /** An active key has no confirmed child. */
  lemma ActiveHasNoConfirmedChild(births: map<nat, nat>, keys: Keys, id: nat, k: nat)
    requires AllSound(keys) && AllLinked(births, keys) && id in keys && keys[id].status == Active
    requires k in keys && keys[k].rotationFrom == Some(id)
    ensures keys[k].status == Pending
  {
  }

  lemma ReplacementOk(births: map<nat, nat>, current: Key, r: Key, hash: nat, now: nat, birth: nat)
    requires Sound(current, current.id) && current.id in births && Later(births, r.id, birth)
    requires current.status == Active && r == Replacement(current, r.id, hash, now)
    ensures Sound(r, r.id) && LinkOk(births[r.id := birth], current, r)
  {
  }

  lemma RotateKeepsInv(births: map<nat, nat>, drawn: set<nat>, keys: Keys, id: nat, newId: nat, hash: nat, now: nat, birth: nat)
    requires Inv(births, drawn, keys) && Later(births, newId, birth) && hash !in drawn
    requires Rotate(keys, id, newId, hash, now).Ok?
    ensures Inv(births[newId := birth], drawn + {hash}, Rotate(keys, id, newId, hash, now).value)
  {
    hide AllLinked, LinkOk;
    var dropped := DropPendingOf(keys, id);
    SoundAt(keys, id);
    LinkAt(births, keys, id);
    DropIsTame(keys, id);
    TameKeepsInv(births, drawn, keys, dropped);
    forall k | k in dropped ensures dropped[k].rotationFrom != Some(id) {
      if keys[k].rotationFrom == Some(id) {
        ActiveHasNoConfirmedChild(births, keys, id, k);
      }
    }
    var r := Replacement(keys[id], newId, hash, now);
    ReplacementOk(births, keys[id], r, hash, now, birth);
    NewbornKeepsInv(births, drawn, dropped, r, birth);
  }

  // ---- Confirmation ---------------------------------------------------------------------------------

  lemma HandoverKeepsLinks(births: map<nat, nat>, keys: Keys, id: nat, next: nat, p: Key, r: Key)
    requires AllSound(keys) && AllLinked(births, keys) && OneChild(keys)
    requires id in keys && next in keys && keys[next].rotationFrom == Some(id)
    requires LinkOk(births, p, r)
    requires p.rotationFrom == keys[id].rotationFrom && r.rotationFrom == keys[next].rotationFrom
    requires forall x :: LinkOk(births, x, keys[id]) ==> LinkOk(births, x, p)
    requires forall x :: LinkOk(births, keys[next], x) ==> LinkOk(births, r, x)
    ensures AllLinked(births, keys[id := p][next := r])
  {
  }

  lemma LinkIsLater(births: map<nat, nat>, keys: Keys, k: nat)
    requires AllSound(keys) && AllLinked(births, keys) && k in keys
    ensures keys[k].rotationFrom.Some? ==>
              keys[k].rotationFrom.value in births && k in births && births[keys[k].rotationFrom.value] < births[k]
  {
  }

  /** Replacing a source and its only child keeps the links when the pair itself is in order
      and looks the same from outside: to the source's own parent and to the child's children. */
  lemma HandoverKeepsRest(drawn: set<nat>, keys: Keys, id: nat, next: nat, p: Key, r: Key)
    requires AllSound(keys) && OneChild(keys) && Secrets(drawn, keys) && id in keys && next in keys && id != next
    requires Sound(p, id) && Sound(r, next)
    requires p.rotationFrom == keys[id].rotationFrom && r.rotationFrom == keys[next].rotationFrom
    requires p.hash.None? && r.hash == keys[next].hash
    ensures AllSound(keys[id := p][next := r]) && OneChild(keys[id := p][next := r])
    ensures Secrets(drawn, keys[id := p][next := r])
  {
    hide Sound;
  }

  lemma HandoverKeepsInv(births: map<nat, nat>, drawn: set<nat>, keys: Keys, id: nat, next: nat, p: Key, r: Key)
    requires Inv(births, drawn, keys) && id in keys && next in keys && keys[next].rotationFrom == Some(id)
    requires Sound(p, id) && Sound(r, next) && LinkOk(births, p, r)
    requires p.rotationFrom == keys[id].rotationFrom && r.rotationFrom == keys[next].rotationFrom
    requires p.hash.None? && r.hash == keys[next].hash
    requires forall x :: LinkOk(births, x, keys[id]) ==> LinkOk(births, x, p)
    requires forall x :: LinkOk(births, keys[next], x) ==> LinkOk(births, r, x)
    ensures Inv(births, drawn, keys[id := p][next := r])
  {
    hide AllSound, AllLinked, OneChild, Secrets, Sound, LinkOk;
    HandoverKeepsLinks(births, keys, id, next, p, r);
    LinkIsLater(births, keys, next);
    HandoverKeepsRest(drawn, keys, id, next, p, r);
  }

  /** A repeated confirmation finds the source retired already; writing the aliases again
      only drops names that the source no longer vouches for. */
  lemma RetryIsInOrder(births: map<nat, nat>, current: Key, next: Key)
    requires Sound(current, current.id) && Sound(next, next.id) && LinkOk(births, current, next)
    requires next.status == Active
    ensures var p, r := Retired(current, next.id), Reconfirmed(current, next);
            && Sound(p, current.id) && Sound(r, next.id) && LinkOk(births, p, r)
            && (forall x :: LinkOk(births, x, current) ==> LinkOk(births, x, p))
            && (forall x :: LinkOk(births, next, x) ==> LinkOk(births, r, x))
  {
  }

  /** The first confirmation: the prepared key has no children yet. */
  lemma HandoverIsInOrder(births: map<nat, nat>, current: Key, next: Key)
    requires Sound(current, current.id) && Sound(next, next.id) && LinkOk(births, current, next)
    requires current.status == Active && next.status == Pending
    ensures var p, r := Retired(current, next.id), Confirmed(current, next);
            && Sound(p, current.id) && Sound(r, next.id) && LinkOk(births, p, r)
            && (forall x :: LinkOk(births, x, current) ==> LinkOk(births, x, p))
            && (forall x :: LinkOk(births, next, x) ==> LinkOk(births, r, x))
  {
  }

  lemma ConfirmKeepsInv(births: map<nat, nat>, drawn: set<nat>, keys: Keys, id: nat, replacement: nat, now: nat)
    requires Inv(births, drawn, keys) && Confirm(keys, id, replacement, now).Ok?
    ensures Inv(births, drawn, Confirm(keys, id, replacement, now).value)
  {
    hide AllLinked, LinkOk, Key.Aliases;
    var current, next := keys[id], keys[replacement];
    SoundAt(keys, id);
    SoundAt(keys, replacement);
    LinkAt(births, keys, replacement);
    if IsRetry(keys, id, replacement) {
      RetryIsInOrder(births, current, next);
      HandoverKeepsInv(births, drawn, keys, id, replacement, Retired(current, replacement), Reconfirmed(current, next));
    } else {
      HandoverIsInOrder(births, current, next);
      HandoverKeepsInv(births, drawn, keys, id, replacement, Retired(current, replacement), Confirmed(current, next));
    }
  }

  // ---- Self-service creation ---------------------------------------------------------------------------

  /** What self-service creation does to the keys already there. */
  function MergeAll(keys: Keys, record: Key): Keys {
    map k | k in keys :: if Mine(keys[k], record.owner) then Merged(keys, record, keys[k]) else keys[k]
  }

  lemma MergeKeepsLinks(births: map<nat, nat>, keys: Keys, record: Key)
    requires AllLinked(births, keys)
    ensures AllLinked(births, MergeAll(keys, record))
  {
  }

  lemma MergeKeepsRest(drawn: set<nat>, keys: Keys, record: Key)
    requires AllSound(keys) && OneChild(keys) && Secrets(drawn, keys)
    ensures var next := MergeAll(keys, record); AllSound(next) && OneChild(next) && Secrets(drawn, next)
  {
    hide SharedSubject, SharedAliases, SharedLimits;
    var next := MergeAll(keys, record);
    forall k | k in next ensures Sound(next[k], k) {
      SoundAt(keys, k);
    }
    assert forall k :: k in next ==> next[k].rotationFrom == keys[k].rotationFrom && next[k].hash == keys[k].hash;
  }

  lemma SelfServiceKeepsInv(births: map<nat, nat>, drawn: set<nat>, keys: Keys, key: Key, birth: nat)
    requires Inv(births, drawn, keys) && Later(births, key.id, birth)
    requires key.rotationFrom.None? && key.hash.Some? && key.hash.value !in drawn && Sound(key, key.id)
    ensures Inv(births[key.id := birth], drawn + {key.hash.value}, CreateSelfService(keys, key))
  {
    hide AllLinked, AllSound, OneChild, Secrets, SharedSubject, SharedAliases, SharedLimits;
    MergeKeepsLinks(births, keys, key);
    MergeKeepsRest(drawn, keys, key);
    assert CreateSelfService(keys, key) == MergeAll(keys, key)[key.id := Merged(keys, key, key)];
    NewbornKeepsInv(births, drawn, MergeAll(keys, key), Merged(keys, key, key), birth);
  }
}
