/**
 API keys of src/control.rs: creation, two-phase rotation, update, revocation, deletion
 and authentication, as functions from one key map to the next. A failed save restores
 the previous map, so an operation either takes its whole effect or none.

 Key ids and secret hashes are numbers: only their equality and, for ids, their order
 matter. Sorted alias lists without duplicates are sets. Names that the source builds
 with a hash are injective by construction.
 */
module ApiKeys {
  import opened Common

  datatype Status = Active | Revoked | Deleted | Pending

  datatype Principal = UserPrincipal | ServiceAccount

  /** What `quota_subject_for_seed` hashes: a key id, or an owner's self-service seed. */
  datatype Seed = KeySeed(id: nat) | OwnerSeed(owner: string)

  /** A quota subject or alias: a plain key id, a pseudonym, or some other stored text. */
  datatype Name = IdName(id: nat) | Pseudonym(seed: Seed) | Other(text: string)

  /** Spend limits in USD, zero meaning unlimited, and the process-rate flag. */
  datatype Limits = Limits(spend: real, fiveHour: real, daily: real, weekly: real, monthly: real, rateLimited: bool)

  const NO_LIMITS: Limits := Limits(0.0, 0.0, 0.0, 0.0, 0.0, false)

  /** `hash` is None once cleared; `subject` is None on records that predate quota
      subjects; `profile` and `scope` stand for the fields no operation here inspects. */
  datatype Key = Key(id: nat, owner: string, principal: Principal, hash: Option<nat>, createdAt: nat,
                     expiresAt: Option<nat>, status: Status, rotationFrom: Option<nat>,
                     supersededBy: Option<nat>, subject: Option<Name>, aliases: set<Name>,
                     limits: Limits, profile: string, scope: string)
  {
    function Subject(): Name {
      if subject.Some? then subject.value else IdName(id)
    }

    function Aliases(): set<Name> {
      aliases + {IdName(id), Pseudonym(KeySeed(id)), Subject()}
    }

    predicate Expired(now: nat) {
      expiresAt.Some? && expiresAt.value <= now
    }

    predicate PendingOf(source: nat) {
      status == Pending && rotationFrom == Some(source)
    }
  }

  type Keys = map<nat, Key>

  datatype Error = NotFound | PendingMutation | DeletedKey | SupersededKey | NotActive | ExpiredKey
                 | NoPreparedRotation | InvalidLimit | Unauthorized | SaveFailed

  // ---- Helpers ---------------------------------------------------------------------------

  function OwnNames(id: nat): set<Name> {
    {IdName(id), Pseudonym(KeySeed(id))}
  }

  /** Remove every unpublished replacement prepared for `source`. */
  function DropPendingOf(keys: Keys, source: nat): Keys {
    map k | k in keys && !keys[k].PendingOf(source) :: keys[k]
  }

  // ---- Operations --------------------------------------------------------------------------

  function NewKey(id: nat, hash: nat, owner: string, principal: Principal, expiresAt: Option<nat>,
                  profile: string, scope: string, now: nat): Key
  {
    Key(id, owner, principal, Some(hash), now, expiresAt, Active, None, None,
        Some(Pseudonym(KeySeed(id))), {IdName(id)}, NO_LIMITS, profile, scope)
  }

  function Create(keys: Keys, key: Key): Keys {
    keys[key.id := key]
  }

  function Revoke(keys: Keys, id: nat): Result<Keys, Error> {
    if id !in keys then Err(NotFound)
    else if keys[id].status == Pending then Err(PendingMutation)
    else if keys[id].status == Deleted then Ok(keys)
    else Ok(DropPendingOf(keys[id := keys[id].(status := Revoked)], id))
  }

  function Replacement(current: Key, id: nat, hash: nat, now: nat): Key {
    current.(id := id, hash := Some(hash), createdAt := now, status := Pending,
             rotationFrom := Some(current.id), supersededBy := None,
             subject := Some(current.Subject()), aliases := current.Aliases() + OwnNames(id))
  }

  /** Prepare a replacement without touching the key it is to replace. */
  function Rotate(keys: Keys, id: nat, newId: nat, newHash: nat, now: nat): Result<Keys, Error> {
    if id !in keys then Err(NotFound)
    else if keys[id].status != Active then Err(NotActive)
    else if keys[id].Expired(now) then Err(ExpiredKey)
    else Ok(DropPendingOf(keys, id)[newId := Replacement(keys[id], newId, newHash, now)])
  }

  function Retired(source: Key, replacement: nat): Key {
    source.(status := Revoked, supersededBy := Some(replacement), hash := None)
  }

  function Confirmed(current: Key, replacement: Key): Key {
    current.(id := replacement.id, hash := replacement.hash, createdAt := replacement.createdAt,
             status := Active, rotationFrom := Some(current.id), supersededBy := None,
             aliases := current.Aliases() + OwnNames(replacement.id))
  }

  function Reconfirmed(current: Key, replacement: Key): Key {
    replacement.(subject := Some(current.Subject()), aliases := current.Aliases() + OwnNames(replacement.id))
  }

  predicate IsRetry(keys: Keys, id: nat, replacement: nat) {
    && id in keys && replacement in keys
    && keys[replacement].status == Active && keys[replacement].rotationFrom == Some(id)
  }

  /** Hand over to the prepared replacement; a retry after a lost answer is accepted. */
  function Confirm(keys: Keys, id: nat, replacement: nat, now: nat): Result<Keys, Error> {
    if id !in keys then Err(NotFound)
    else if replacement !in keys then Err(NoPreparedRotation)
    else
      var current, next := keys[id], keys[replacement];
      if IsRetry(keys, id, replacement) then
        Ok(keys[id := Retired(current, next.id)][replacement := Reconfirmed(current, next)])
      else if current.status != Active || current.Expired(now) then Err(NotActive)
      else if !next.PendingOf(id) then Err(NoPreparedRotation)
      else Ok(keys[id := Retired(current, next.id)][next.id := Confirmed(current, next)])
  }

  function Cancel(keys: Keys, id: nat, replacement: nat): Result<Keys, Error> {
    if id in keys && keys[id].status == Active && replacement !in keys then Ok(keys)
    else if replacement !in keys || !keys[replacement].PendingOf(id) then Err(NoPreparedRotation)
    else Ok(keys - {replacement})
  }

  /** The limit fields an update supplies. */
  datatype LimitPatch = LimitPatch(spend: Option<real>, fiveHour: Option<real>, daily: Option<real>,
                                   weekly: Option<real>, monthly: Option<real>, rateLimited: Option<bool>)
  {
    predicate Empty() {
      spend.None? && fiveHour.None? && daily.None? && weekly.None? && monthly.None? && rateLimited.None?
    }

    predicate Valid() {
      && (spend.Some? ==> spend.value >= 0.0) && (fiveHour.Some? ==> fiveHour.value >= 0.0)
      && (daily.Some? ==> daily.value >= 0.0) && (weekly.Some? ==> weekly.value >= 0.0)
      && (monthly.Some? ==> monthly.value >= 0.0)
    }

    function Apply(l: Limits): Limits {
      Limits(if spend.Some? then spend.value else l.spend,
             if fiveHour.Some? then fiveHour.value else l.fiveHour,
             if daily.Some? then daily.value else l.daily,
             if weekly.Some? then weekly.value else l.weekly,
             if monthly.Some? then monthly.value else l.monthly,
             if rateLimited.Some? then rateLimited.value else l.rateLimited)
    }
  }

  datatype UpdateInput = UpdateInput(profile: Option<string>, expiresAt: Option<Option<nat>>,
                                     activate: Option<bool>, limits: LimitPatch)

  function UpdatedKey(key: Key, input: UpdateInput): Key {
    key.(profile := if input.profile.Some? then input.profile.value else key.profile,
         expiresAt := if input.expiresAt.Some? then input.expiresAt.value else key.expiresAt,
         status := if input.activate.None? then key.status else if input.activate.value then Active else Revoked,
         limits := input.limits.Apply(key.limits))
  }

  /** Limits belong to the quota subject: write them to every record that shares it. */
  function PatchSubject(keys: Keys, subject: Name, patch: LimitPatch): Keys {
    map k | k in keys ::
      if keys[k].Subject() == subject then keys[k].(limits := patch.Apply(keys[k].limits)) else keys[k]
  }

  function Update(keys: Keys, id: nat, input: UpdateInput, now: nat): Result<Keys, Error> {
    if id !in keys then Err(NotFound)
    else if keys[id].status == Pending then Err(PendingMutation)
    else if keys[id].status == Deleted then Err(DeletedKey)
    else if keys[id].supersededBy.Some? then Err(SupersededKey)
    else if !input.limits.Valid() then Err(InvalidLimit)
    else
      var updated := UpdatedKey(keys[id], input);
      if updated.status == Active && updated.Expired(now) then Err(ExpiredKey)
      else
        var written := PatchSubject(keys[id := updated], updated.Subject(), input.limits);
        Ok(if updated.status == Revoked then DropPendingOf(written, id) else written)
  }

  function Bind(keys: Keys, id: nat, scope: string): Result<Keys, Error> {
    if id !in keys then Err(NotFound)
    else if keys[id].status == Pending then Err(PendingMutation)
    else if keys[id].status == Deleted then Err(DeletedKey)
    else if keys[id].supersededBy.Some? then Err(SupersededKey)
    else Ok(keys[id := keys[id].(scope := scope)])
  }

  function Delete(keys: Keys, id: nat): Result<Keys, Error> {
    if id !in keys then Err(NotFound)
    else if keys[id].status == Pending then Err(PendingMutation)
    else if keys[id].status == Deleted then Ok(keys)
    else Ok(DropPendingOf(keys[id := keys[id].(status := Deleted, hash := None)], id))
  }

  function DeleteUser(keys: Keys, owner: string): Keys {
    map k | k in keys && !(keys[k].owner == owner && keys[k].status == Pending) ::
      if keys[k].owner == owner && keys[k].status != Deleted then keys[k].(status := Revoked) else keys[k]
  }

  /** Authentication with an expired key revokes it; a prepared replacement stays. */
  function Expire(keys: Keys, id: nat): Keys
    requires id in keys
  {
    keys[id := keys[id].(status := Revoked)]
  }

  /** A key accepts its secret: what authentication requires of the record it finds. */
  predicate Accepts(keys: Keys, id: nat) {
    id in keys && keys[id].status == Active && keys[id].hash.Some?
  }
}
