/**
 Runs of the API-key operations and of restarts in any order. A save is a compare-and-swap
 that may fail, with or without effect: a save whose report is lost leaves the memory behind
 the store, and then no save succeeds until the next restart. A world is the memory (keys
 and secret index) and the stored keys, together with history that no operation reads: the
 order in which ids were drawn, and for which id each secret was drawn.
 */
module ApiKeyRuns {
  import opened Common
  import opened ApiKeys
  import opened ApiKeyCreation
  import opened ApiKeyIndex
  import opened ApiKeyLineage
  import opened ApiKeyReload

  /** `current` says that the memory knows the revision of what is stored. */
  datatype World = World(keys: Keys, index: map<nat, nat>, births: map<nat, nat>, bound: map<nat, nat>,
                         stored: Keys, current: bool)

  datatype Action =
    | CreateKey(record: Key)
    | CreateOwnKey(record: Key)
    | RotateKey(id: nat, newId: nat, newHash: nat)
    | ConfirmKey(id: nat, replacement: nat)
    | CancelKey(id: nat, replacement: nat)
    | UpdateKey(id: nat, input: UpdateInput)
    | BindKey(id: nat, scope: string)
    | RevokeKey(id: nat)
    | DeleteKey(id: nat)
    | DeleteUserKeys(owner: string)
    | Authenticate(hash: nat)
    | Restart

  /** One call: what is asked, at what time, and what becomes of its save. */
  datatype Call = Call(action: Action, now: nat, fate: Fate)

  /** A record as creation makes it, before self-service merges it. */
  predicate IsNew(r: Key) {
    && r.hash.Some?
    && r == NewKey(r.id, r.hash.value, r.owner, r.principal, r.expiresAt, r.profile, r.scope, r.createdAt)
  }

  /** The id and the secret that a call draws, if it draws any. */
  function Drawn(a: Action): Option<(nat, nat)> {
    match a
    case CreateKey(r) => if r.hash.Some? then Some((r.id, r.hash.value)) else None
    case CreateOwnKey(r) => if r.hash.Some? then Some((r.id, r.hash.value)) else None
    case RotateKey(_, newId, newHash) => Some((newId, newHash))
    case _ => None
  }

  /** Ids and secrets are random: a call never draws one that was drawn before. */
  predicate Possible(w: World, a: Action) {
    && (Drawn(a).Some? ==> Drawn(a).value.0 !in w.births && Drawn(a).value.1 !in w.bound)
    && (a.CreateKey? ==> IsNew(a.record))
    && (a.CreateOwnKey? ==> IsNew(a.record))
  }

  /** A secret authenticates: the index leads to an active key. */
  predicate Authenticates(w: World, h: nat) {
    h in w.index && w.index[h] in w.keys && w.keys[w.index[h]].status == Active
  }

  /** The map a call tries to save; an error saves nothing. */
  function Effect(w: World, a: Action, now: nat): Result<Keys, Error> {
    match a
    case CreateKey(r) => Ok(Create(w.keys, r))
    case CreateOwnKey(r) => Ok(CreateSelfService(w.keys, r))
    case RotateKey(id, newId, newHash) => Rotate(w.keys, id, newId, newHash, now)
    case ConfirmKey(id, replacement) => Confirm(w.keys, id, replacement, now)
    case CancelKey(id, replacement) => Cancel(w.keys, id, replacement)
    case UpdateKey(id, input) => Update(w.keys, id, input, now)
    case BindKey(id, scope) => Bind(w.keys, id, scope)
    case RevokeKey(id) => Revoke(w.keys, id)
    case DeleteKey(id) => Delete(w.keys, id)
    case DeleteUserKeys(owner) => Ok(DeleteUser(w.keys, owner))
    case Authenticate(h) =>
      if !Authenticates(w, h) then Err(Unauthorized)
      else if w.keys[w.index[h]].Expired(now) then Ok(Expire(w.keys, w.index[h]))
      else Ok(w.keys)
    case Restart => Ok(Reload(w.stored))
  }

  /** Authentication saves only to mark a key as expired. */
  predicate Saves(w: World, a: Action, now: nat) {
    a.Authenticate? ==> Authenticates(w, a.hash) && w.keys[w.index[a.hash]].Expired(now)
  }

  /** A time later than every recorded birth. */
  function Latest(births: map<nat, nat>): nat {
    |births|
  }

  function Births(w: World, a: Action): map<nat, nat> {
    if Drawn(a).Some? then w.births[Drawn(a).value.0 := Latest(w.births)] else w.births
  }

  function BoundBy(w: World, a: Action): map<nat, nat> {
    if Drawn(a).Some? then w.bound[Drawn(a).value.1 := Drawn(a).value.0] else w.bound
  }

  /** A call whose save is carried out. */
  predicate Commits(w: World, c: Call) {
    && Effect(w, c.action, c.now).Ok? && Saves(w, c.action, c.now)
    && c.fate != Refuses && (w.current || c.action.Restart?)
  }

  function Step(w: World, c: Call): World {
    var births, bound := Births(w, c.action), BoundBy(w, c.action);
    if !Commits(w, c) then w.(births := births, bound := bound)
    else
      var next := Effect(w, c.action, c.now).value;
      if c.fate == LosesReport then w.(births := births, bound := bound, stored := next, current := false)
      else World(next, Index(next), births, bound, next, true)
  }

  const EMPTY: World := World(map[], map[], map[], map[], map[], true)

  ghost predicate IsRun(ws: seq<World>, cs: seq<Call>) {
    && |ws| == |cs| + 1 && ws[0] == EMPTY
    && forall i :: 0 <= i < |cs| ==> Possible(ws[i], cs[i].action) && ws[i + 1] == Step(ws[i], cs[i])
  }

  // ---- The invariant of runs ------------------------------------------------------------------

  ghost predicate Bound(bound: map<nat, nat>, keys: Keys) {
    forall k: nat, h: nat :: Holds(keys, k, h) ==> h in bound && bound[h] == k
  }

  ghost predicate BirthsOk(births: map<nat, nat>) {
    forall x :: x in births ==> births[x] < |births|
  }

  ghost predicate MapOk(births: map<nat, nat>, bound: map<nat, nat>, keys: Keys) {
    Inv(births, bound.Keys, keys) && Bound(bound, keys)
  }

  /** The store may be ahead, but a key that the memory has did not get a secret since. */
  ghost predicate Ahead(keys: Keys, stored: Keys) {
    forall k: nat, h: nat :: k in keys && Holds(stored, k, h) ==> Holds(keys, k, h)
  }

  ghost predicate Good(w: World) {
    && MapOk(w.births, w.bound, w.keys) && MapOk(w.births, w.bound, w.stored)
    && w.index == Index(w.keys) && BirthsOk(w.births)
    && Ahead(w.keys, w.stored) && (w.current ==> w.stored == w.keys)
  }

  lemma DrawIsLater(births: map<nat, nat>, id: nat)
    requires BirthsOk(births) && id !in births
    ensures Later(births, id, Latest(births)) && BirthsOk(births[id := Latest(births)])
  {
  }

  /** History grows without a save: the invariant survives a draw whose save fails. */
  lemma DrawKeepsInv(births: map<nat, nat>, drawn: set<nat>, keys: Keys, id: nat, birth: nat, h: nat)
    requires Inv(births, drawn, keys) && id !in births
    ensures Inv(births[id := birth], drawn + {h}, keys)
  {
  }

  predicate Draws(a: Action) {
    a.CreateKey? || a.CreateOwnKey? || a.RotateKey?
  }

  predicate TameAction(a: Action) {
    !Draws(a) && !a.ConfirmKey? && !a.Restart?
  }

  lemma StayIsTame(keys: Keys)
    requires AllSound(keys)
    ensures TameStep(keys, keys)
  {
  }

  lemma EffectIsTame(w: World, a: Action, now: nat)
    requires Good(w) && TameAction(a) && Effect(w, a, now).Ok?
    ensures TameStep(w.keys, Effect(w, a, now).value)
  {
    hide TameStep, AllSound, AllLinked, OneChild, Secrets, Bound, Revoke, Delete, DeleteUser, Update, Bind, Cancel;
    match a
    case CancelKey(id, replacement) => CancelIsTame(w.keys, id, replacement);
    case UpdateKey(id, input) => UpdateIsTame(w.keys, id, input, now);
    case BindKey(id, scope) => BindIsTame(w.keys, id, scope);
    case RevokeKey(id) => RevokeIsTame(w.keys, id);
    case DeleteKey(id) => DeleteIsTame(w.keys, id);
    case DeleteUserKeys(owner) => DeleteUserIsTame(w.keys, owner);
    case Authenticate(h) =>
      if w.keys[w.index[h]].Expired(now) {
        ExpireIsTame(w.keys, w.index[h]);
      } else {
        StayIsTame(w.keys);
      }
    case _ =>
  }

  // ---- Secrets stay with the key they were drawn for --------------------------------------------

  ghost predicate Heirs(keys: Keys, next: Keys, drawn: Option<(nat, nat)>) {
    forall k: nat, h: nat :: Holds(next, k, h) ==> Holds(keys, k, h) || drawn == Some((k, h))
  }

  lemma TameHeirs(keys: Keys, next: Keys)
    requires TameStep(keys, next)
    ensures Heirs(keys, next, None)
  {
  }

  lemma RotateHeirs(keys: Keys, id: nat, newId: nat, hash: nat, now: nat)
    requires Rotate(keys, id, newId, hash, now).Ok?
    ensures Heirs(keys, Rotate(keys, id, newId, hash, now).value, Some((newId, hash)))
  {
  }

  lemma ConfirmHeirs(keys: Keys, id: nat, replacement: nat, now: nat)
    requires AllSound(keys) && Confirm(keys, id, replacement, now).Ok?
    ensures Heirs(keys, Confirm(keys, id, replacement, now).value, None)
  {
  }

  lemma OwnHeirs(keys: Keys, r: Key)
    requires IsNew(r)
    ensures Heirs(keys, CreateSelfService(keys, r), Some((r.id, r.hash.value)))
  {
  }

  /** What a call works on: the memory, and a restart on what is stored. */
  function Base(w: World, a: Action): Keys {
    if a.Restart? then w.stored else w.keys
  }

  lemma CreateHeirs(keys: Keys, r: Key)
    requires IsNew(r)
    ensures Heirs(keys, Create(keys, r), Some((r.id, r.hash.value)))
  {
  }

  lemma InvIsSound(births: map<nat, nat>, drawn: set<nat>, keys: Keys)
    requires Inv(births, drawn, keys)
    ensures AllSound(keys)
  {
  }

  lemma ReloadHeirs(births: map<nat, nat>, drawn: set<nat>, keys: Keys)
    requires Inv(births, drawn, keys)
    ensures Heirs(keys, Reload(keys), None)
  {
    hide Inv, Reload, Key.Aliases, Key.Subject;
    ReloadIsStep(births, drawn, keys);
  }

  lemma EffectHeirs(w: World, a: Action, now: nat)
    requires Good(w) && Possible(w, a) && Effect(w, a, now).Ok?
    ensures Heirs(Base(w, a), Effect(w, a, now).value, Drawn(a))
  {
    hide Inv, Index, Bound, BirthsOk, Heirs, CreateSelfService, Rotate, Confirm, TameStep, Reload;
    match a
    case CreateKey(r) => CreateHeirs(w.keys, r);
    case CreateOwnKey(r) => OwnHeirs(w.keys, r);
    case RotateKey(id, newId, newHash) => RotateHeirs(w.keys, id, newId, newHash, now);
    case ConfirmKey(id, replacement) =>
      InvIsSound(w.births, w.bound.Keys, w.keys);
      ConfirmHeirs(w.keys, id, replacement, now);
    case Restart => ReloadHeirs(w.births, w.bound.Keys, w.stored);
    case _ =>
      EffectIsTame(w, a, now);
      TameHeirs(w.keys, Effect(w, a, now).value);
  }

  lemma HeirsKeepBound(bound: map<nat, nat>, keys: Keys, next: Keys, drawn: Option<(nat, nat)>)
    requires Bound(bound, keys) && Heirs(keys, next, drawn)
    requires drawn.Some? ==> drawn.value.1 !in bound
    ensures Bound(if drawn.Some? then bound[drawn.value.1 := drawn.value.0] else bound, next)
  {
  }

  // ---- Every step keeps the invariant ---------------------------------------------------------------

  lemma EffectKeepsInv(w: World, a: Action, now: nat)
    requires Good(w) && Possible(w, a) && !Draws(a) && Effect(w, a, now).Ok?
    ensures Inv(w.births, w.bound.Keys, Effect(w, a, now).value)
  {
    hide Inv, Index, Bound, BirthsOk, Confirm, TameStep, Reload;
    if a.ConfirmKey? {
      ConfirmKeepsInv(w.births, w.bound.Keys, w.keys, a.id, a.replacement, now);
    } else if a.Restart? {
      ReloadKeepsInv(w.births, w.bound.Keys, w.stored);
    } else {
      EffectIsTame(w, a, now);
      TameKeepsInv(w.births, w.bound.Keys, w.keys, Effect(w, a, now).value);
    }
  }

  lemma GoodHas(w: World)
    requires Good(w)
    ensures Inv(w.births, w.bound.Keys, w.keys) && BirthsOk(w.births)
  {
  }

  lemma DrawEffectKeepsInv(w: World, a: Action, now: nat)
    requires Good(w) && Possible(w, a) && Draws(a) && Effect(w, a, now).Ok?
    ensures Drawn(a).Some?
    ensures Inv(w.births[Drawn(a).value.0 := Latest(w.births)], w.bound.Keys + {Drawn(a).value.1},
                Effect(w, a, now).value)
  {
    var birth, drawn := Latest(w.births), w.bound.Keys;
    hide Good, Inv, BirthsOk, Later, Latest, CreateSelfService, Rotate;
    GoodHas(w);
    DrawIsLater(w.births, Drawn(a).value.0);
    match a
    case CreateKey(r) => NewbornKeepsInv(w.births, drawn, w.keys, r, birth);
    case CreateOwnKey(r) => SelfServiceKeepsInv(w.births, drawn, w.keys, r, birth);
    case RotateKey(id, newId, newHash) =>
      RotateKeepsInv(w.births, drawn, w.keys, id, newId, newHash, now, birth);
  }

  lemma StayHeirs(keys: Keys, drawn: Option<(nat, nat)>)
    ensures Heirs(keys, keys, drawn)
  {
  }

  lemma DrawnMapOk(births: map<nat, nat>, bound: map<nat, nat>, keys: Keys, id: nat, h: nat)
    requires MapOk(births, bound, keys) && BirthsOk(births) && id !in births && h !in bound
    ensures MapOk(births[id := Latest(births)], bound[h := id], keys) && BirthsOk(births[id := Latest(births)])
  {
    hide Inv, Bound, BirthsOk, Heirs, Later, Latest;
    DrawIsLater(births, id);
    DrawKeepsInv(births, bound.Keys, keys, id, Latest(births), h);
    assert bound[h := id].Keys == bound.Keys + {h};
    StayHeirs(keys, Some((id, h)));
    HeirsKeepBound(bound, keys, keys, Some((id, h)));
  }

  /** Drawing an id and a secret leaves every map in order. */
  lemma DrawKeepsMap(w: World, a: Action, keys: Keys)
    requires Good(w) && Possible(w, a) && MapOk(w.births, w.bound, keys)
    ensures MapOk(Births(w, a), BoundBy(w, a), keys) && BirthsOk(Births(w, a))
  {
    hide MapOk, Index, BirthsOk, Ahead, Latest, IsNew;
    if Drawn(a).Some? {
      DrawnMapOk(w.births, w.bound, keys, Drawn(a).value.0, Drawn(a).value.1);
    }
  }

  lemma EffectKeepsMap(w: World, a: Action, now: nat)
    requires Good(w) && Possible(w, a) && Effect(w, a, now).Ok?
    ensures MapOk(Births(w, a), BoundBy(w, a), Effect(w, a, now).value)
  {
    hide Inv, Index, Bound, BirthsOk, Effect, Heirs, Later, Latest, IsNew;
    EffectHeirs(w, a, now);
    HeirsKeepBound(w.bound, Base(w, a), Effect(w, a, now).value, Drawn(a));
    if Draws(a) {
      DrawEffectKeepsInv(w, a, now);
      assert BoundBy(w, a).Keys == w.bound.Keys + {Drawn(a).value.1};
    } else {
      EffectKeepsInv(w, a, now);
    }
  }

  /** What the memory does not draw anew it must have had. */
  lemma HeirsAreAhead(keys: Keys, base: Keys, next: Keys, pair: Option<(nat, nat)>)
    requires Ahead(keys, base) && Heirs(base, next, pair) && (pair.Some? ==> pair.value.0 !in keys)
    ensures Ahead(keys, next)
  {
  }

  lemma KeysAreBorn(w: World)
    requires Good(w)
    ensures forall k :: k in w.keys ==> k in w.births
  {
  }

  lemma CommitsMeans(w: World, c: Call)
    requires Commits(w, c)
    ensures Effect(w, c.action, c.now).Ok? && (w.current || c.action.Restart?)
  {
  }

  lemma AheadOfItself(keys: Keys)
    ensures Ahead(keys, keys)
  {
  }

  lemma StepKeepsGood(w: World, c: Call)
    requires Good(w) && Possible(w, c.action)
    ensures Good(Step(w, c))
  {
    hide Inv, Index, Bound, BirthsOk, Effect, Heirs, Latest, Births, BoundBy, Commits, Ahead, MapOk, Saves, IsNew;
    var a := c.action;
    DrawKeepsMap(w, a, w.keys);
    DrawKeepsMap(w, a, w.stored);
    if Commits(w, c) {
      CommitsMeans(w, c);
      var next := Effect(w, a, c.now).value;
      EffectKeepsMap(w, a, c.now);
      EffectHeirs(w, a, c.now);
      KeysAreBorn(w);
      AheadOfItself(w.keys);
      HeirsAreAhead(w.keys, Base(w, a), next, Drawn(a));
      AheadOfItself(next);
    }
  }

  lemma EmptyIsGood()
    ensures Good(EMPTY)
  {
  }

  lemma {:induction false} RunsAreGood(ws: seq<World>, cs: seq<Call>, i: nat)
    requires IsRun(ws, cs) && i < |ws|
    ensures Good(ws[i])
  {
    hide Good, Possible, Step;
    if i == 0 {
      EmptyIsGood();
    } else {
      RunsAreGood(ws, cs, i - 1);
      StepKeepsGood(ws[i - 1], cs[i - 1]);
    }
  }
}
