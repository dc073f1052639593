/** What holds of API keys in every run: lineages, secrets and quota names. */
module ApiKeyTheorems {
  import opened Common
  import opened ApiKeys
  import opened ApiKeyIndex
  import opened ApiKeyLineage
  import opened ApiKeyReload
  import opened ApiKeyRuns

  /** The key that `k` descends from in `n` rotations. */
  function Up(keys: Keys, k: nat, n: nat): Option<nat>
    decreases n
  {
    if k !in keys then None
    else if n == 0 then Some(k)
    else if keys[k].rotationFrom.None? then None
    else Up(keys, keys[k].rotationFrom.value, n - 1)
  }

  // ---- The shape of a lineage ---------------------------------------------------------------------

  lemma {:induction false} AncestorIsOlder(births: map<nat, nat>, keys: Keys, k: nat, n: nat, a: nat)
    requires AllSound(keys) && AllLinked(births, keys) && Up(keys, k, n) == Some(a)
    ensures a in keys && a in births && k in births && births[a] <= births[k] && (n > 0 ==> births[a] < births[k])
    decreases n
  {
    hide Linked, LinkOk, Sound;
    LinkAt(births, keys, k);
    if n > 0 {
      LinkIsLater(births, keys, k);
      AncestorIsOlder(births, keys, keys[k].rotationFrom.value, n - 1, a);
    }
  }

  /** A rotation chain keeps one quota subject, and every key answers to the names of all
      keys it descends from. */
  lemma {:induction false} AncestorNames(births: map<nat, nat>, keys: Keys, k: nat, n: nat, a: nat)
    requires AllSound(keys) && AllLinked(births, keys) && Up(keys, k, n) == Some(a)
    ensures a in keys && k in keys
    ensures keys[k].Subject() == keys[a].Subject() && keys[a].Aliases() <= keys[k].Aliases()
    ensures IdName(a) in keys[k].Aliases() && Pseudonym(KeySeed(a)) in keys[k].Aliases()
    decreases n
  {
    hide Linked, AllLinked;
    LinkAt(births, keys, k);
    SoundAt(keys, k);
    if n > 0 {
      AncestorNames(births, keys, keys[k].rotationFrom.value, n - 1, a);
    }
  }

  lemma {:induction false} AncestorIsSuperseded(births: map<nat, nat>, keys: Keys, k: nat, n: nat, a: nat)
    requires AllSound(keys) && AllLinked(births, keys) && Up(keys, k, n) == Some(a)
    requires n > 0 && k in keys && keys[k].status != Pending
    ensures a in keys && keys[a].supersededBy.Some?
    decreases n
  {
    hide Linked, AllLinked;
    LinkAt(births, keys, k);
    if n > 1 {
      AncestorIsSuperseded(births, keys, keys[k].rotationFrom.value, n - 1, a);
    }
  }

  lemma {:induction false} LastLink(keys: Keys, k: nat, n: nat, a: nat) returns (c: nat)
    requires n > 0 && Up(keys, k, n) == Some(a)
    ensures Up(keys, k, n - 1) == Some(c) && c in keys && keys[c].rotationFrom == Some(a)
    decreases n
  {
    if n == 1 {
      c := k;
    } else {
      c := LastLink(keys, keys[k].rotationFrom.value, n - 1, a);
    }
  }

  lemma SupersededIsUnusable(births: map<nat, nat>, keys: Keys, k: nat, n: nat, a: nat)
    requires AllSound(keys) && AllLinked(births, keys) && Up(keys, k, n) == Some(a) && n > 0
    requires k in keys && keys[k].status != Pending
    ensures !Accepts(keys, a)
  {
    hide AllLinked;
    AncestorIsSuperseded(births, keys, k, n, a);
    SoundAt(keys, a);
  }

  /** Two usable keys that descend from a common key are one key. */
  lemma {:induction false} OneUsable(births: map<nat, nat>, drawn: set<nat>, keys: Keys,
                                     a: nat, n: nat, b: nat, m: nat, root: nat)
    requires Inv(births, drawn, keys) && Up(keys, a, n) == Some(root) && Up(keys, b, m) == Some(root)
    requires Accepts(keys, a) && Accepts(keys, b)
    ensures a == b
    decreases n
  {
    hide AllLinked, Sound;
    if n == 0 || m == 0 {
      if n > 0 { SupersededIsUnusable(births, keys, a, n, root); }
      if m > 0 { SupersededIsUnusable(births, keys, b, m, root); }
    } else {
      var c := LastLink(keys, a, n, root);
      var d := LastLink(keys, b, m, root);
      OneUsable(births, drawn, keys, a, n - 1, b, m - 1, c);
    }
  }

  // ---- Over runs ------------------------------------------------------------------------------------

  lemma GoodKeepsInv(w: World)
    requires Good(w)
    ensures Inv(w.births, w.bound.Keys, w.keys) && Inv(w.births, w.bound.Keys, w.stored)
    ensures w.current ==> w.stored == w.keys
  {
  }

  /** Rotation links never form a cycle, a key has at most one child, and what is usable in
      a lineage is at most one key. */
  lemma LineagesAreSafe(ws: seq<World>, cs: seq<Call>, i: nat)
    requires IsRun(ws, cs) && i < |ws|
    ensures forall k: nat, n: nat :: n > 0 ==> Up(ws[i].keys, k, n) != Some(k)
    ensures OneChild(ws[i].keys)
    ensures forall a: nat, n: nat, b: nat, m: nat, root: nat ::
              (Up(ws[i].keys, a, n) == Some(root) && Up(ws[i].keys, b, m) == Some(root)
               && Accepts(ws[i].keys, a) && Accepts(ws[i].keys, b)) ==> a == b
  {
    hide IsRun, AllSound, AllLinked, OneChild, Secrets, Bound, Index, Up, Accepts;
    RunsAreGood(ws, cs, i);
    GoodKeepsInv(ws[i]);
    var w := ws[i];
    forall k: nat, n: nat | n > 0 ensures Up(w.keys, k, n) != Some(k) {
      if Up(w.keys, k, n) == Some(k) {
        AncestorIsOlder(w.births, w.keys, k, n, k);
      }
    }
    forall a: nat, n: nat, b: nat, m: nat, root: nat |
      Up(w.keys, a, n) == Some(root) && Up(w.keys, b, m) == Some(root) && Accepts(w.keys, a) && Accepts(w.keys, b)
      ensures a == b
    {
      OneUsable(w.births, w.bound.Keys, w.keys, a, n, b, m, root);
    }
  }

  lemma LineagesShareQuota(ws: seq<World>, cs: seq<Call>, i: nat)
    requires IsRun(ws, cs) && i < |ws|
    ensures forall k: nat, n: nat, a: nat :: Up(ws[i].keys, k, n) == Some(a) ==>
              && k in ws[i].keys && a in ws[i].keys
              && ws[i].keys[k].Subject() == ws[i].keys[a].Subject()
              && {IdName(a), Pseudonym(KeySeed(a))} <= ws[i].keys[k].Aliases()
  {
    hide IsRun, AllSound, AllLinked, OneChild, Secrets, Bound, Index, Up, Key.Aliases, Key.Subject;
    RunsAreGood(ws, cs, i);
    var w := ws[i];
    forall k: nat, n: nat, a: nat | Up(w.keys, k, n) == Some(a)
      ensures k in w.keys && a in w.keys && w.keys[k].Subject() == w.keys[a].Subject()
      ensures {IdName(a), Pseudonym(KeySeed(a))} <= w.keys[k].Aliases()
    {
      AncestorNames(w.births, w.keys, k, n, a);
    }
  }

  /** A usable key, named by its secret. */
  predicate Usable(keys: Keys, k: nat, h: nat) {
    Holds(keys, k, h) && keys[k].status == Active
  }

  /** What the index answers is what the records say. */
  lemma AuthenticatesIff(w: World, h: nat)
    requires Good(w)
    ensures Authenticates(w, h) <==> exists k :: Usable(w.keys, k, h)
  {
    hide Inv, Index;
    IndexAnswers(w.keys, h);
    if Authenticates(w, h) {
      assert Usable(w.keys, w.index[h], h);
    }
    if k :| Usable(w.keys, k, h) {
      assert Holds(w.keys, w.index[h], h);
      assert w.bound[h] == k == w.index[h];
    }
  }

  predicate Bare(keys: Keys, k: nat) {
    k in keys ==> keys[k].hash.None?
  }

  /** The key was drawn at some time and has no secret, in memory or in the store. */
  predicate Spent(w: World, k: nat) {
    k in w.births && Bare(w.keys, k) && Bare(w.stored, k)
  }

  lemma StaysBare(keys: Keys, next: Keys, drawn: Option<(nat, nat)>, k: nat)
    requires Heirs(keys, next, drawn) && Bare(keys, k) && (drawn.Some? ==> drawn.value.0 != k)
    ensures Bare(next, k)
  {
    assert k in next && next[k].hash.Some? ==> Holds(next, k, next[k].hash.value);
  }

  lemma StaysSpent(w: World, c: Call, k: nat)
    requires Good(w) && Possible(w, c.action) && Spent(w, k)
    ensures Spent(Step(w, c), k)
  {
    hide Good, Index, Effect, Bare, Heirs, Saves;
    if Commits(w, c) {
      EffectHeirs(w, c.action, c.now);
      StaysBare(Base(w, c.action), Effect(w, c.action, c.now).value, Drawn(c.action), k);
    }
  }

  lemma BoundGrows(w: World, c: Call, h: nat)
    requires Possible(w, c.action) && h in w.bound
    ensures h in Step(w, c).bound && Step(w, c).bound[h] == w.bound[h]
  {
    hide Commits, Effect, Index, IsNew, Births;
  }

  lemma SpentIsRefused(w: World, h: nat)
    requires Good(w) && h in w.bound && Spent(w, w.bound[h])
    ensures !Authenticates(w, h)
  {
    hide Inv, Index;
    AuthenticatesIff(w, h);
  }

  /** Once memory and store have dropped the secret of a key, it is refused for ever, whatever
      saves fail or lose their report and however often the program restarts. */
  lemma {:induction false} SpentSecretIsRefused(ws: seq<World>, cs: seq<Call>, i: nat, j: nat, h: nat)
    requires IsRun(ws, cs) && i <= j < |ws| && h in ws[i].bound && Spent(ws[i], ws[i].bound[h])
    ensures h in ws[j].bound && ws[j].bound[h] == ws[i].bound[h] && Spent(ws[j], ws[i].bound[h])
    ensures !Authenticates(ws[j], h)
  {
    hide Good, Step, Possible, Authenticates;
    RunsAreGood(ws, cs, j);
    if i < j {
      SpentSecretIsRefused(ws, cs, i, j - 1, h);
      RunsAreGood(ws, cs, j - 1);
      StaysSpent(ws[j - 1], cs[j - 1], ws[i].bound[h]);
      BoundGrows(ws[j - 1], cs[j - 1], h);
    }
    SpentIsRefused(ws[j], h);
  }

  /** Superseded and deleted keys are spent: the store does not have their secrets either. */
  lemma TombstonesAreSpent(w: World, k: nat)
    requires Good(w) && k in w.keys && (w.keys[k].status == Deleted || w.keys[k].supersededBy.Some?)
    ensures Spent(w, k)
  {
    assert k in w.stored && w.stored[k].hash.Some? ==> Holds(w.stored, k, w.stored[k].hash.value);
  }

  // ---- The two phases of a rotation ---------------------------------------------------------------------

  /** Preparing or cancelling a replacement changes nothing about which secrets are usable. */
  lemma PreparingIsInvisible(keys: Keys, id: nat, newId: nat, hash: nat, now: nat, k: nat, h: nat)
    requires newId !in keys && Rotate(keys, id, newId, hash, now).Ok?
    ensures Usable(Rotate(keys, id, newId, hash, now).value, k, h) <==> Usable(keys, k, h)
  {
  }

  lemma CancellingIsInvisible(keys: Keys, id: nat, replacement: nat, k: nat, h: nat)
    requires Cancel(keys, id, replacement).Ok?
    ensures Usable(Cancel(keys, id, replacement).value, k, h) <==> Usable(keys, k, h)
  {
  }

  /** Cancelling a rotation undoes it: what remains is the map without pending replacements. */
  lemma CancelUndoesRotate(keys: Keys, id: nat, newId: nat, hash: nat, now: nat)
    requires newId !in keys && id in keys && keys[id].id == id
    requires Rotate(keys, id, newId, hash, now).Ok?
    ensures Cancel(Rotate(keys, id, newId, hash, now).value, id, newId) == Ok(DropPendingOf(keys, id))
  {
    var prepared := Rotate(keys, id, newId, hash, now).value;
    assert newId in prepared && prepared - {newId} == DropPendingOf(keys, id);
  }

  /** Confirming swaps the two secrets in one step, and nothing else. */
  lemma ConfirmHandsOver(births: map<nat, nat>, drawn: set<nat>, keys: Keys, id: nat, replacement: nat, now: nat,
                         k: nat, h: nat)
    requires Inv(births, drawn, keys) && Confirm(keys, id, replacement, now).Ok?
    ensures Usable(Confirm(keys, id, replacement, now).value, k, h)
            <==> (k != id && Usable(keys, k, h)) || (k == replacement && Holds(keys, k, h))
  {
    hide Key.Aliases, Linked, LinkOk;
    SoundAt(keys, id);
    SoundAt(keys, replacement);
    LinkIsLater(births, keys, replacement);
  }

  /** A repeated confirmation, however late, changes nothing. */
  lemma ConfirmIsIdempotent(births: map<nat, nat>, drawn: set<nat>, keys: Keys, id: nat, replacement: nat,
                            now: nat, later: nat)
    requires Inv(births, drawn, keys) && Confirm(keys, id, replacement, now).Ok?
    ensures var once := Confirm(keys, id, replacement, now).value;
            Confirm(once, id, replacement, later) == Ok(once)
  {
    hide Linked, LinkOk;
    SoundAt(keys, id);
    SoundAt(keys, replacement);
    LinkIsLater(births, keys, replacement);
    var once := Confirm(keys, id, replacement, now).value;
    var current := keys[id];
    assert Retired(current, replacement).Aliases() == current.Aliases();
    assert once[replacement].aliases == current.Aliases() + OwnNames(replacement);
    assert Confirm(once, id, replacement, later).value[id] == once[id];
    assert Confirm(once, id, replacement, later).value[replacement] == once[replacement];
    assert Confirm(once, id, replacement, later).value == once;
  }

  // ---- Restarts ---------------------------------------------------------------------------------------

  lemma ReloadUsable(keys: Keys, next: Keys, k: nat, h: nat)
    requires ReloadStep(keys, next)
    ensures Usable(next, k, h) <==> Usable(keys, k, h)
  {
    hide Key.Aliases, Key.Subject;
    assert k in keys ==> Reloaded(keys[k], next[k]);
  }

  /** After a restart exactly the secrets of the active stored keys authenticate: the same as
      before, unless a save lost its report. */
  lemma RestartIsInvisible(w: World, now: nat, h: nat)
    requires Good(w)
    ensures var next := Step(w, Call(Restart, now, Reports));
            && next.current && (Authenticates(next, h) <==> exists k :: Usable(w.stored, k, h))
            && (w.current ==> (Authenticates(next, h) <==> Authenticates(w, h)))
  {
    hide Good, Inv, Reload, ReloadStep, Authenticates, Usable;
    var next := Step(w, Call(Restart, now, Reports));
    StepKeepsGood(w, Call(Restart, now, Reports));
    GoodKeepsInv(w);
    ReloadIsStep(w.births, w.bound.Keys, w.stored);
    AuthenticatesIff(w, h);
    AuthenticatesIff(next, h);
    forall k: nat ensures Usable(Reload(w.stored), k, h) <==> Usable(w.stored, k, h) {
      ReloadUsable(w.stored, Reload(w.stored), k, h);
    }
  }
}
