/**
 Limits belong to quota subjects: as long as self-service creation is used for user
 principals, as its route does, all keys of one subject carry the same limits in every run,
 and the policy computed over the whole subject is the key's own.
 */
module ApiKeyQuota {
  import opened ApiKeys
  import opened ApiKeyLimits
  import opened ApiKeyCreation
  import opened ApiKeyIndex
  import opened ApiKeyLineage
  import opened ApiKeyReload
  import opened ApiKeyRuns

  /** Where a subject comes from: a key drawn before, or the owner's own user keys. */
  predicate SubjectOk(births: map<nat, nat>, r: Key) {
    && r.Subject().Pseudonym?
    && match r.Subject().seed
       case KeySeed(x) => x in births
       case OwnerSeed(u) => Mine(r, u)
  }

  predicate Alike(r: Key, q: Key) {
    r.Subject() == q.Subject() ==> r.owner == q.owner && r.principal == q.principal && r.limits == q.limits
  }

  ghost predicate AllSubjectsOk(births: map<nat, nat>, keys: Keys) {
    forall k :: k in keys ==> SubjectOk(births, keys[k])
  }

  ghost predicate AllAlike(keys: Keys) {
    forall a, b :: a in keys && b in keys ==> Alike(keys[a], keys[b])
  }

  ghost predicate QuotaInv(births: map<nat, nat>, keys: Keys) {
    AllSubjectsOk(births, keys) && AllAlike(keys)
  }

  // ---- Operations that add no new subject --------------------------------------------------------

  /** Equal in everything a quota depends on. */
  predicate Same(q: Key, r: Key) {
    q.Subject() == r.Subject() && q.owner == r.owner && q.principal == r.principal && q.limits == r.limits
  }

  /** Every record afterwards has the quota of some record before. */
  ghost predicate Copies(keys: Keys, next: Keys) {
    forall k :: k in next ==> exists j :: j in keys && Same(next[k], keys[j])
  }

  lemma CopiesKeepQuota(births: map<nat, nat>, keys: Keys, next: Keys)
    requires QuotaInv(births, keys) && Copies(keys, next)
    ensures QuotaInv(births, next)
  {
  }

  lemma RevokeCopies(keys: Keys, id: nat)
    requires Revoke(keys, id).Ok?
    ensures Copies(keys, Revoke(keys, id).value)
  {
  }

  lemma DeleteCopies(keys: Keys, id: nat)
    requires Delete(keys, id).Ok?
    ensures Copies(keys, Delete(keys, id).value)
  {
  }

  lemma DeleteUserCopies(keys: Keys, owner: string)
    ensures Copies(keys, DeleteUser(keys, owner))
  {
  }

  lemma CancelCopies(keys: Keys, id: nat, replacement: nat)
    requires Cancel(keys, id, replacement).Ok?
    ensures Copies(keys, Cancel(keys, id, replacement).value)
  {
  }

  lemma ReplaceCopies(keys: Keys, k: nat, q: Key, j: nat)
    requires j in keys && Same(q, keys[j])
    ensures Copies(keys, keys[k := q])
  {
  }

  lemma DropCopies(keys: Keys, id: nat)
    ensures Copies(keys, DropPendingOf(keys, id))
  {
  }

  lemma CopiesTransitive(a: Keys, b: Keys, c: Keys)
    requires Copies(a, b) && Copies(b, c)
    ensures Copies(a, c)
  {
  }

  lemma RotateCopies(keys: Keys, id: nat, newId: nat, hash: nat, now: nat)
    requires Rotate(keys, id, newId, hash, now).Ok?
    ensures Copies(keys, Rotate(keys, id, newId, hash, now).value)
  {
  }

  lemma ConfirmCopies(births: map<nat, nat>, drawn: set<nat>, keys: Keys, id: nat, replacement: nat, now: nat)
    requires Inv(births, drawn, keys) && Confirm(keys, id, replacement, now).Ok?
    ensures Copies(keys, Confirm(keys, id, replacement, now).value)
  {
    hide Copies, Linked, AllLinked, OneChild, Secrets, Key.Aliases;
    var current, next := keys[id], keys[replacement];
    SoundAt(keys, id);
    SoundAt(keys, replacement);
    LinkAt(births, keys, replacement);
    var retired := keys[id := Retired(current, replacement)];
    ReplaceCopies(keys, id, Retired(current, replacement), id);
    if IsRetry(keys, id, replacement) {
      ReplaceCopies(retired, replacement, Reconfirmed(current, next), replacement);
    } else {
      ReplaceCopies(retired, replacement, Confirmed(current, next), id);
    }
    CopiesTransitive(keys, retired, Confirm(keys, id, replacement, now).value);
  }

  lemma ReloadCopies(births: map<nat, nat>, drawn: set<nat>, keys: Keys)
    requires Inv(births, drawn, keys)
    ensures Copies(keys, Reload(keys))
  {
    hide Inv, Reload, Key.Aliases, Key.Subject;
    ReloadIsStep(births, drawn, keys);
    forall k | k in keys ensures Same(Reload(keys)[k], keys[k]) {
      assert Reloaded(keys[k], Reload(keys)[k]);
    }
  }

  // ---- Updates write limits to the whole subject -----------------------------------------------------

  /** The record a key becomes when limits are written to a subject. */
  function Rewritten(r: Key, subject: Name, patch: LimitPatch): Key {
    if r.Subject() == subject then r.(limits := patch.Apply(r.limits)) else r
  }

  lemma RewrittenAlike(r: Key, q: Key, subject: Name, patch: LimitPatch)
    requires Alike(r, q)
    ensures Alike(Rewritten(r, subject, patch), Rewritten(q, subject, patch))
  {
  }

  /** Writing the patch to one key and then to its subject is writing it to the subject. */
  lemma UpdateWritesSubject(keys: Keys, id: nat, input: UpdateInput, k: nat)
    requires id in keys && k in keys
    ensures var q := UpdatedKey(keys[id], input);
            Same(PatchSubject(keys[id := q], q.Subject(), input.limits)[k],
                 Rewritten(keys[k], keys[id].Subject(), input.limits))
  {
  }

  lemma PatchKeys(keys: Keys, subject: Name, patch: LimitPatch)
    ensures PatchSubject(keys, subject, patch).Keys == keys.Keys
  {
  }

  lemma SameAlike(r: Key, q: Key, r': Key, q': Key)
    requires Same(r, r') && Same(q, q') && Alike(r', q')
    ensures Alike(r, q)
  {
  }

  lemma RewrittenSubject(births: map<nat, nat>, r: Key, subject: Name, patch: LimitPatch, q: Key)
    requires SubjectOk(births, r) && Same(q, Rewritten(r, subject, patch))
    ensures SubjectOk(births, q)
  {
  }

  lemma UpdateKeepsQuota(births: map<nat, nat>, keys: Keys, id: nat, input: UpdateInput, now: nat)
    requires QuotaInv(births, keys) && Update(keys, id, input, now).Ok?
    ensures QuotaInv(births, Update(keys, id, input, now).value)
  {
    hide LimitPatch.Apply, LimitPatch.Valid, PatchSubject, DropPendingOf, UpdatedKey, Same, Rewritten, Alike, SubjectOk, Copies;
    var q := UpdatedKey(keys[id], input);
    var written := PatchSubject(keys[id := q], q.Subject(), input.limits);
    PatchKeys(keys[id := q], q.Subject(), input.limits);
    forall a, b | a in written && b in written ensures Alike(written[a], written[b]) && SubjectOk(births, written[a]) {
      UpdateWritesSubject(keys, id, input, a);
      UpdateWritesSubject(keys, id, input, b);
      RewrittenAlike(keys[a], keys[b], keys[id].Subject(), input.limits);
      SameAlike(written[a], written[b], Rewritten(keys[a], keys[id].Subject(), input.limits),
                Rewritten(keys[b], keys[id].Subject(), input.limits));
      RewrittenSubject(births, keys[a], keys[id].Subject(), input.limits, written[a]);
    }
    DropCopies(written, id);
    CopiesKeepQuota(births, written, DropPendingOf(written, id));
  }

  // ---- Creation ------------------------------------------------------------------------------------------

  lemma MoreBirths(births: map<nat, nat>, keys: Keys, id: nat, birth: nat)
    requires QuotaInv(births, keys)
    ensures QuotaInv(births[id := birth], keys)
  {
  }

  lemma CreateKeepsQuota(births: map<nat, nat>, keys: Keys, r: Key, birth: nat)
    requires QuotaInv(births, keys) && IsNew(r) && r.id !in births
    ensures QuotaInv(births[r.id := birth], Create(keys, r))
  {
  }

  /** A key that self-service leaves alone never has the subject that the others move to. */
  lemma OthersKeepApart(births: map<nat, nat>, keys: Keys, owner: string, k: nat)
    requires QuotaInv(births, keys) && k in keys && !Mine(keys[k], owner)
    ensures keys[k].Subject() != SharedSubject(keys, owner)
  {
  }

  lemma SharedSubjectOk(births: map<nat, nat>, keys: Keys, r: Key)
    requires QuotaInv(births, keys) && Mine(r, r.owner) && r.Subject() == SharedSubject(keys, r.owner)
    ensures SubjectOk(births, r)
  {
  }

  /** A record after self-service creation: merged, or left alone. */
  lemma OwnRecord(births: map<nat, nat>, keys: Keys, r: Key, birth: nat, k: nat)
    requires QuotaInv(births, keys) && IsNew(r) && r.principal == UserPrincipal && r.id !in births && r.id !in keys
    requires k in keys || k == r.id
    ensures var q := CreateSelfService(keys, r)[k];
            if Mine(q, r.owner) then
              q.Subject() == SharedSubject(keys, r.owner) && q.limits == SharedLimits(keys, r) && SubjectOk(births, q)
            else
              k in keys && q == keys[k] && q.Subject() != SharedSubject(keys, r.owner)
  {
    hide SharedSubject, SharedLimits, SharedAliases, SubjectOk;
    var q := CreateSelfService(keys, r)[k];
    if Mine(q, r.owner) {
      SharedSubjectOk(births, keys, q);
    } else {
      OthersKeepApart(births, keys, r.owner, k);
    }
  }

  lemma SelfServiceKeepsQuota(births: map<nat, nat>, keys: Keys, r: Key, birth: nat)
    requires QuotaInv(births, keys) && IsNew(r) && r.principal == UserPrincipal && r.id !in births && r.id !in keys
    ensures QuotaInv(births[r.id := birth], CreateSelfService(keys, r))
  {
    hide SharedSubject, SharedLimits, SharedAliases;
    var next := CreateSelfService(keys, r);
    forall a, b | a in next && b in next
      ensures Alike(next[a], next[b]) && SubjectOk(births, next[a])
    {
      assert (a in keys || a == r.id) && (b in keys || b == r.id);
      hide CreateSelfService, SubjectOk;
      OwnRecord(births, keys, r, birth, a);
      OwnRecord(births, keys, r, birth, b);
    }
    hide CreateSelfService;
    MoreBirths(births, next, r.id, birth);
  }

  // ---- Over runs --------------------------------------------------------------------------------------------

  /** Self-service creation is used for user principals. */
  predicate OwnKeysAreUserKeys(a: Action) {
    a.CreateOwnKey? ==> a.record.principal == UserPrincipal
  }

  lemma CopyingAction(w: World, a: Action, now: nat)
    requires Good(w) && Effect(w, a, now).Ok? && !a.CreateKey? && !a.CreateOwnKey? && !a.UpdateKey?
    ensures Copies(Base(w, a), Effect(w, a, now).value)
  {
    hide Copies, Inv, Bound, Index, Revoke, Delete, DeleteUser, Confirm, Cancel, Rotate, Reload;
    match a
    case RotateKey(id, newId, newHash) => RotateCopies(w.keys, id, newId, newHash, now);
    case ConfirmKey(id, replacement) =>
      ConfirmCopies(w.births, w.bound.Keys, w.keys, id, replacement, now);
    case CancelKey(id, replacement) => CancelCopies(w.keys, id, replacement);
    case BindKey(id, scope) => ReplaceCopies(w.keys, id, w.keys[id].(scope := scope), id);
    case RevokeKey(id) => RevokeCopies(w.keys, id);
    case DeleteKey(id) => DeleteCopies(w.keys, id);
    case DeleteUserKeys(owner) => DeleteUserCopies(w.keys, owner);
    case Authenticate(h) =>
      var k := w.index[h];
      ReplaceCopies(w.keys, k, w.keys[k], k);
      ReplaceCopies(w.keys, k, w.keys[k].(status := Revoked), k);
      assert w.keys[k := w.keys[k]] == w.keys;
    case Restart => ReloadCopies(w.births, w.bound.Keys, w.stored);
    case _ =>
  }

  lemma EffectKeepsQuota(w: World, a: Action, now: nat)
    requires Good(w) && QuotaInv(w.births, Base(w, a)) && Possible(w, a) && OwnKeysAreUserKeys(a)
    requires Effect(w, a, now).Ok?
    ensures QuotaInv(Births(w, a), Effect(w, a, now).value)
  {
    hide QuotaInv, Inv, Bound, Index, Create, CreateSelfService, Update, Copies, BirthsOk;
    if a.CreateKey? {
      CreateKeepsQuota(w.births, w.keys, a.record, Latest(w.births));
    } else if a.CreateOwnKey? {
      KeysAreBorn(w);
      SelfServiceKeepsQuota(w.births, w.keys, a.record, Latest(w.births));
    } else if a.UpdateKey? {
      UpdateKeepsQuota(w.births, w.keys, a.id, a.input, now);
    } else {
      hide Effect;
      CopyingAction(w, a, now);
      CopiesKeepQuota(w.births, Base(w, a), Effect(w, a, now).value);
      if Drawn(a).Some? {
        MoreBirths(w.births, Effect(w, a, now).value, Drawn(a).value.0, Latest(w.births));
      }
    }
  }

  ghost predicate Agrees(w: World) {
    QuotaInv(w.births, w.keys) && QuotaInv(w.births, w.stored)
  }

  lemma StepKeepsQuota(w: World, c: Call)
    requires Good(w) && Agrees(w) && Possible(w, c.action) && OwnKeysAreUserKeys(c.action)
    ensures Agrees(Step(w, c))
  {
    hide Good, QuotaInv, Effect, Index, Possible, OwnKeysAreUserKeys, Saves;
    if Drawn(c.action).Some? {
      MoreBirths(w.births, w.keys, Drawn(c.action).value.0, Latest(w.births));
      MoreBirths(w.births, w.stored, Drawn(c.action).value.0, Latest(w.births));
    }
    if Effect(w, c.action, c.now).Ok? {
      EffectKeepsQuota(w, c.action, c.now);
    }
  }

  ghost predicate UserRun(cs: seq<Call>) {
    forall i :: 0 <= i < |cs| ==> OwnKeysAreUserKeys(cs[i].action)
  }

  lemma {:induction false} RunsAgreeOnLimits(ws: seq<World>, cs: seq<Call>, i: nat)
    requires IsRun(ws, cs) && UserRun(cs) && i < |ws|
    ensures Agrees(ws[i])
  {
    hide Good, Possible, Step, Alike, SubjectOk;
    if i > 0 {
      RunsAgreeOnLimits(ws, cs, i - 1);
      RunsAreGood(ws, cs, i - 1);
      hide Agrees;
      StepKeepsQuota(ws[i - 1], cs[i - 1]);
    } else {
      assert ws[0] == EMPTY;
    }
  }

  lemma AlikeAt(births: map<nat, nat>, keys: Keys, j: nat, k: nat)
    requires QuotaInv(births, keys) && j in keys && k in keys && keys[j].Subject() == keys[k].Subject()
    ensures keys[j].limits == keys[k].limits
  {
  }

  /** Folding the limits of the whole subject gives every key the limits it has anyway,
      in whatever order the records come. */
  lemma SubjectPolicyIsOwn(ws: seq<World>, cs: seq<Call>, i: nat, k: nat, records: seq<Key>)
    requires IsRun(ws, cs) && UserRun(cs) && i < |ws| && k in ws[i].keys
    requires forall r :: r in records ==> exists j :: j in ws[i].keys && ws[i].keys[j] == r
    ensures PolicyLimits(ws[i].keys[k], records) == ws[i].keys[k].limits
  {
    hide IsRun, UserRun;
    RunsAgreeOnLimits(ws, cs, i);
    var keys := ws[i].keys;
    var mine := SubjectLimits(keys[k].Subject(), records);
    forall l | l in mine ensures l == keys[k].limits {
      hide SubjectLimits, QuotaInv;
      SubjectLimitsAre(keys[k].Subject(), records, l);
      var x :| 0 <= x < |records| && records[x].Subject() == keys[k].Subject() && records[x].limits == l;
      assert records[x] in records;
      var j :| j in keys && keys[j] == records[x];
      AlikeAt(ws[i].births, keys, j, k);
    }
    FoldOfEqual(keys[k].limits, mine);
  }
}
