/**
 The credential pool of one provider (src/control.rs): which credential is active, which one
 a request gets, and when the pool rotates. Credential ids are numbers in their order; `env`
 is the set of environment variables that hold a non-blank key.
 */
module CredentialPool {
  import opened Common
  import opened Ordered

  datatype Mode = Manual | Failover | RoundRobin

  datatype Credential = Credential(id: nat, env: string, enabled: bool, createdAt: nat, updatedAt: nat)

  /** Failures in a row that can start a cooldown, and when the cooldown ends. */
  datatype Health = Health(failures: nat, cooldown: Option<nat>)

  datatype Pool = Pool(credentials: map<nat, Credential>, active: Option<nat>, mode: Mode, health: map<nat, Health>)

  const EMPTY_POOL: Pool := Pool(map[], None, Failover, map[])

  datatype Error = NoSuchCredential | DisabledCredential | SaveFailed

  function Enabled(credentials: map<nat, Credential>): set<nat> {
    set k | k in credentials && credentials[k].enabled
  }

  predicate CooledDown(health: map<nat, Health>, k: nat, now: nat) {
    k in health && health[k].cooldown.Some? ==> health[k].cooldown.value <= now
  }

  function Usable(p: Pool, env: set<string>, now: nat): set<nat> {
    set k | k in p.credentials && p.credentials[k].enabled && p.credentials[k].env in env && CooledDown(p.health, k, now)
  }

  // ---- Operations ---------------------------------------------------------------------------------

  function Upsert(p: Pool, c: Credential, now: nat): Pool {
    var created := if c.id in p.credentials then p.credentials[c.id].createdAt else now;
    var q := p.(credentials := p.credentials[c.id := c.(createdAt := created, updatedAt := now)]);
    if !c.enabled && p.active == Some(c.id) then q.(active := First(Enabled(q.credentials) - {c.id}))
    else if p.active.None? || p.active.value !in q.credentials then q.(active := First(Enabled(q.credentials)))
    else q
  }

  function SetActive(p: Pool, id: nat): Result<Pool, Error> {
    if id !in p.credentials then Err(NoSuchCredential)
    else if !p.credentials[id].enabled then Err(DisabledCredential)
    else Ok(p.(active := Some(id)))
  }

  function Remove(p: Pool, id: nat): Result<Pool, Error> {
    if id !in p.credentials then Err(NoSuchCredential)
    else
      var q := p.(credentials := p.credentials - {id}, health := p.health - {id});
      var r := if p.active == Some(id) then q.(active := First(Enabled(q.credentials))) else q;
      Ok(if r.credentials == map[] then r.(mode := Failover) else r)
  }

  // ---- Selection ------------------------------------------------------------------------------------

  /** `skip_while(id != current).skip(1)`. */
  function After(candidates: seq<nat>, current: nat): seq<nat> {
    if candidates == [] then []
    else if candidates[0] == current then candidates[1..]
    else After(candidates[1..], current)
  }

  /** `find(id != current)`. */
  function FirstOther(candidates: seq<nat>, current: nat): Option<nat> {
    if candidates == [] then None
    else if candidates[0] != current then Some(candidates[0])
    else FirstOther(candidates[1..], current)
  }

  function RoundRobinPick(candidates: seq<nat>, current: Option<nat>): Option<nat> {
    if candidates == [] then None
    else if current.None? then Some(candidates[0])
    else
      var other := FirstOther(After(candidates, current.value) + candidates, current.value);
      if other.Some? then other else Some(candidates[0])
  }

  function Fallback(p: Pool): Option<nat> {
    if p.active.Some? && p.active.value in Enabled(p.credentials) then p.active else First(Enabled(p.credentials))
  }

  function Pick(p: Pool, env: set<string>, now: nat): Option<nat> {
    match p.mode
    case Manual => Fallback(p)
    case RoundRobin => RoundRobinPick(Sorted(Usable(p, env, now)), p.active)
    case Failover =>
      if p.active.Some? && p.active.value in Usable(p, env, now) then p.active else First(Usable(p, env, now))
  }

  function Select(p: Pool, env: set<string>, now: nat): Pool {
    var pick := Pick(p, env, now);
    if pick.Some? then p.(active := pick) else p
  }

  /** The credential to move to after a failure, if there is another usable one. */
  function RotationTarget(p: Pool, env: set<string>, now: nat): Option<nat> {
    var candidates := Sorted(Usable(p, env, now));
    if candidates == [] then None
    else if p.active.None? then Some(candidates[0])
    else FirstOther(After(candidates, p.active.value) + candidates, p.active.value)
  }

  function Rotate(p: Pool, env: set<string>, now: nat): Pool {
    var target := RotationTarget(p, env, now);
    if target.Some? then p.(active := target) else p
  }

  datatype FailureKind = Account | RateLimit | ConfigIssue | Unavailable | OtherFailure
  {
    predicate Rotates() { Account? || RateLimit? || ConfigIssue? }

    predicate Triggers() { Rotates() || Unavailable? }
  }

  datatype Outcome = Success | Failure(kind: FailureKind)

  /** Failures are counted in 32 bits. */
  const MAX_FAILURES: nat := 0xFFFF_FFFF

  function CooldownSeconds(kind: FailureKind, failures: nat): nat {
    var base := if failures <= 1 then 30 else if failures <= 3 then 60 else if failures <= 5 then 180 else 300;
    if kind == Account && base < 1800 then 1800 else base
  }

  /** What an outcome does to a credential's health: a failure that starts no cooldown leaves
      one that is running. */
  function Recorded(h: Health, o: Outcome, now: nat): Health {
    match o
    case Success => Health(0, None)
    case Failure(kind) =>
      var failures := if !kind.Triggers() then 0 else if h.failures < MAX_FAILURES then h.failures + 1 else h.failures;
      Health(failures,
             if kind.Triggers() && (kind.Rotates() || failures >= 3)
             then Some(SaturatingAdd(now, CooldownSeconds(kind, failures) * 1000)) else h.cooldown)
  }

  function HealthOf(p: Pool, id: nat): Health {
    if id in p.health then p.health[id] else Health(0, None)
  }

  /** Record the outcome of a request, which may not have used a credential. A failure may
      rotate the pool. */
  function RecordOutcome(p: Pool, id: Option<nat>, o: Outcome, env: set<string>, now: nat): Pool {
    var q := if id.Some? then p.(health := p.health[id.value := Recorded(HealthOf(p, id.value), o, now)]) else p;
    if o.Failure? && p.mode != Manual && o.kind.Rotates() then Rotate(q, env, now) else q
  }

  /** `provider_credential_route_available`: None without a pool. */
  function RouteAvailable(p: Pool, env: set<string>, now: nat): Option<bool> {
    if p.credentials == map[] then None
    else if p.mode != Manual then Some(Usable(p, env, now) != {})
    else
      var selected := Fallback(p);
      Some(selected.Some? && selected.value in p.credentials && p.credentials[selected.value].env in env)
  }

  // ---- The active pointer ---------------------------------------------------------------------------

  /** An active credential exists exactly if an enabled one does, and it is enabled. */
  ghost predicate ActiveOk(p: Pool) {
    && (p.active.Some? <==> Enabled(p.credentials) != {})
    && (p.active.Some? ==> p.active.value in Enabled(p.credentials))
  }

  ghost predicate Valid(p: Pool) {
    ActiveOk(p) && forall k :: k in p.credentials ==> p.credentials[k].id == k
  }

  lemma {:induction false} AfterIsIn(candidates: seq<nat>, current: nat)
    ensures forall c :: c in After(candidates, current) ==> c in candidates
  {
    if candidates != [] {
      AfterIsIn(candidates[1..], current);
    }
  }

  lemma {:induction false} FirstOtherIsIn(candidates: seq<nat>, current: nat)
    ensures FirstOther(candidates, current).Some? ==>
              FirstOther(candidates, current).value in candidates && FirstOther(candidates, current).value != current
    ensures FirstOther(candidates, current).None? ==> forall c :: c in candidates ==> c == current
  {
    if candidates != [] {
      assert candidates == [candidates[0]] + candidates[1..];
      FirstOtherIsIn(candidates[1..], current);
    }
  }

  lemma PickIsCandidate(candidates: seq<nat>, current: Option<nat>)
    ensures RoundRobinPick(candidates, current).Some? <==> candidates != []
    ensures candidates != [] ==> RoundRobinPick(candidates, current).value in candidates
  {
    if current.Some? {
      AfterIsIn(candidates, current.value);
      FirstOtherIsIn(After(candidates, current.value) + candidates, current.value);
    }
  }

  lemma PickIsEnabled(p: Pool, env: set<string>, now: nat)
    ensures Pick(p, env, now).Some? ==> Pick(p, env, now).value in Enabled(p.credentials)
    ensures p.mode != Manual && Pick(p, env, now).Some? ==> Pick(p, env, now).value in Usable(p, env, now)
    ensures p.mode != Manual ==> (Pick(p, env, now).Some? <==> Usable(p, env, now) != {})
  {
    hide Sorted, RoundRobinPick;
    var candidates := Sorted(Usable(p, env, now));
    PickIsCandidate(candidates, p.active);
    assert candidates == [] <==> Usable(p, env, now) == {};
  }

  lemma TargetIsUsable(p: Pool, env: set<string>, now: nat)
    ensures var t := RotationTarget(p, env, now);
            && (t.Some? ==> t.value in Usable(p, env, now) && t != p.active)
            && (t.Some? <==> exists k :: k in Usable(p, env, now) && p.active != Some(k))
  {
    hide Sorted, FirstOther, After;
    var candidates := Sorted(Usable(p, env, now));
    if candidates != [] {
      assert candidates[0] in candidates;
    }
    if p.active.Some? {
      AfterIsIn(candidates, p.active.value);
      var list := After(candidates, p.active.value) + candidates;
      FirstOtherIsIn(list, p.active.value);
      assert forall k :: k in Usable(p, env, now) ==> k in list;
    }
  }

  lemma UpsertKeepsValid(p: Pool, c: Credential, now: nat)
    requires Valid(p)
    ensures Valid(Upsert(p, c, now))
  {
    var q := Upsert(p, c, now);
    assert Enabled(q.credentials) == if c.enabled then Enabled(p.credentials) + {c.id} else Enabled(p.credentials) - {c.id};
    assert q.active.Some? ==> q.active.value in Enabled(q.credentials);
  }

  lemma RemoveKeepsValid(p: Pool, id: nat)
    requires Valid(p) && Remove(p, id).Ok?
    ensures Valid(Remove(p, id).value)
  {
  }

  lemma SelectKeepsValid(p: Pool, env: set<string>, now: nat)
    requires Valid(p)
    ensures Valid(Select(p, env, now))
  {
    hide Pick;
    PickIsEnabled(p, env, now);
  }

  lemma RotateKeepsValid(p: Pool, env: set<string>, now: nat)
    requires Valid(p)
    ensures Valid(Rotate(p, env, now))
  {
    hide RotationTarget;
    TargetIsUsable(p, env, now);
    var t := RotationTarget(p, env, now);
    assert t.Some? ==> t.value in Enabled(p.credentials);
  }

  lemma OutcomeKeepsValid(p: Pool, id: Option<nat>, o: Outcome, env: set<string>, now: nat)
    requires Valid(p)
    ensures Valid(RecordOutcome(p, id, o, env, now))
  {
    hide Rotate, Recorded;
    var q := if id.Some? then p.(health := p.health[id.value := Recorded(HealthOf(p, id.value), o, now)]) else p;
    RotateKeepsValid(q, env, now);
  }

  // ---- Cooldowns --------------------------------------------------------------------------------------

  /** The outcomes of one credential, oldest first, with their times. */
  function HealthAfter(h: Health, outcomes: seq<(Outcome, nat)>): Health {
    if outcomes == [] then h
    else
      var last := outcomes[|outcomes| - 1];
      Recorded(HealthAfter(h, outcomes[..|outcomes| - 1]), last.0, last.1)
  }

  predicate Starts(kind: FailureKind, failures: nat) {
    kind.Rotates() || (kind == Unavailable && failures >= 2)
  }

  /** The failures in a row, just before outcome `i`, that can start a cooldown. */
  function InARow(outcomes: seq<(Outcome, nat)>, i: nat): nat
    requires i <= |outcomes|
  {
    if i == 0 || !outcomes[i - 1].0.Failure? || !outcomes[i - 1].0.kind.Triggers() then 0
    else InARow(outcomes, i - 1) + 1
  }

  /** Outcome `i` starts a cooldown, and nothing since has ended it. */
  ghost predicate RestsSince(outcomes: seq<(Outcome, nat)>, i: nat) {
    && i < |outcomes| && outcomes[i].0.Failure? && Starts(outcomes[i].0.kind, InARow(outcomes, i))
    && (forall j :: i < j < |outcomes| ==> outcomes[j].0 != Success)
  }

  lemma {:induction false} InARowPrefix(outcomes: seq<(Outcome, nat)>, last: (Outcome, nat), i: nat)
    requires i <= |outcomes|
    ensures InARow(outcomes + [last], i) == InARow(outcomes, i)
  {
    if i > 0 {
      InARowPrefix(outcomes, last, i - 1);
    }
  }

  lemma {:induction false} FailuresCount(outcomes: seq<(Outcome, nat)>)
    ensures var n := InARow(outcomes, |outcomes|);
            HealthAfter(Health(0, None), outcomes).failures == if n < MAX_FAILURES then n else MAX_FAILURES
  {
    if outcomes != [] {
      FailuresCount(outcomes[..|outcomes| - 1]);
      InARowPrefix(outcomes[..|outcomes| - 1], outcomes[|outcomes| - 1], |outcomes| - 1);
      assert outcomes == outcomes[..|outcomes| - 1] + [outcomes[|outcomes| - 1]];
    }
  }

  lemma LastOutcome(before: seq<(Outcome, nat)>, last: (Outcome, nat))
    ensures var h, h' := HealthAfter(Health(0, None), before), HealthAfter(Health(0, None), before + [last]);
            h'.cooldown.Some? <==>
              last.0.Failure? && (h.cooldown.Some? || Starts(last.0.kind, h.failures))
  {
    assert (before + [last])[..|before|] == before;
  }

  lemma RestsOn(before: seq<(Outcome, nat)>, last: (Outcome, nat), i: nat)
    requires RestsSince(before, i) && last.0 != Success
    ensures RestsSince(before + [last], i)
  {
    InARowPrefix(before, last, i);
  }

  lemma RestsAnew(before: seq<(Outcome, nat)>, last: (Outcome, nat))
    ensures RestsSince(before + [last], |before|) <==>
              last.0.Failure? && Starts(last.0.kind, InARow(before, |before|))
  {
    InARowPrefix(before, last, |before|);
  }

  lemma RestedBefore(before: seq<(Outcome, nat)>, last: (Outcome, nat), i: nat)
    requires RestsSince(before + [last], i) && i < |before|
    ensures RestsSince(before, i) && last.0 != Success
  {
    InARowPrefix(before, last, i);
    assert (before + [last])[|before|] == last;
    assert forall j :: i < j < |before| ==> (before + [last])[j] == before[j];
  }

  lemma RestsInside(outcomes: seq<(Outcome, nat)>)
    ensures forall i: nat :: RestsSince(outcomes, i) ==> i < |outcomes|
  {
  }

  /** A credential has a cooldown exactly if, since its last success, it failed in a way that
      rotates, or for the third time in a row: other failures do not end it. */
  lemma {:induction false} CooldownIff(outcomes: seq<(Outcome, nat)>)
    ensures HealthAfter(Health(0, None), outcomes).cooldown.Some? <==> exists i: nat :: RestsSince(outcomes, i)
  {
    if outcomes != [] {
      hide Recorded, HealthAfter, InARow, RestsSince;
      var before, last := outcomes[..|outcomes| - 1], outcomes[|outcomes| - 1];
      assert outcomes == before + [last];
      CooldownIff(before);
      FailuresCount(before);
      LastOutcome(before, last);
      if HealthAfter(Health(0, None), before).cooldown.Some? && last.0 != Success {
        var i: nat :| RestsSince(before, i);
        RestsOn(before, last, i);
      }
      RestsAnew(before, last);
      forall i: nat | RestsSince(outcomes, i) && i < |before| ensures RestsSince(before, i) && last.0 != Success {
        RestedBefore(before, last, i);
      }
      RestsInside(outcomes);
    }
  }

  // ---- Over runs ---------------------------------------------------------------------------------------

  datatype Action =
    | UpsertAction(c: Credential, now: nat)
    | SetActiveAction(id: nat)
    | RemoveAction(id: nat)
    | SetModeAction(mode: Mode)
    | RemoveProviderAction
    | SelectAction(env: set<string>, now: nat)
    | OutcomeAction(used: Option<nat>, outcome: Outcome, env: set<string>, now: nat)

  /** A failed call or a failed save leaves the pool as it was. */
  function Next(p: Pool, a: Action, saved: bool): Pool {
    if !saved then p
    else
      match a
      case UpsertAction(c, now) => Upsert(p, c, now)
      case SetActiveAction(id) => if SetActive(p, id).Ok? then SetActive(p, id).value else p
      case RemoveAction(id) => if Remove(p, id).Ok? then Remove(p, id).value else p
      case SetModeAction(mode) => p.(mode := mode)
      case RemoveProviderAction => EMPTY_POOL
      case SelectAction(env, now) => Select(p, env, now)
      case OutcomeAction(id, o, env, now) => RecordOutcome(p, id, o, env, now)
  }

  lemma StepKeepsValid(p: Pool, a: Action, saved: bool)
    requires Valid(p)
    ensures Valid(Next(p, a, saved))
  {
    hide Upsert, Remove, Select, RecordOutcome;
    if saved {
      match a
      case UpsertAction(c, now) => UpsertKeepsValid(p, c, now);
      case SetActiveAction(id) => assert SetActive(p, id).Ok? ==> id in Enabled(p.credentials);
      case RemoveAction(id) => if Remove(p, id).Ok? { RemoveKeepsValid(p, id); }
      case SetModeAction(mode) =>
      case RemoveProviderAction =>
      case SelectAction(env, now) => SelectKeepsValid(p, env, now);
      case OutcomeAction(id, o, env, now) => OutcomeKeepsValid(p, id, o, env, now);
    }
  }

  ghost predicate IsRun(ps: seq<Pool>, actions: seq<(Action, bool)>) {
    && |ps| == |actions| + 1 && ps[0] == EMPTY_POOL
    && forall i :: 0 <= i < |actions| ==> ps[i + 1] == Next(ps[i], actions[i].0, actions[i].1)
  }

  /** In every run the active pointer exists exactly if an enabled credential does, and
      names one. */
  lemma {:induction false} RunsAreValid(ps: seq<Pool>, actions: seq<(Action, bool)>, i: nat)
    requires IsRun(ps, actions) && i < |ps|
    ensures Valid(ps[i])
  {
    hide Next;
    if i > 0 {
      RunsAreValid(ps, actions, i - 1);
      StepKeepsValid(ps[i - 1], actions[i - 1].0, actions[i - 1].1);
    }
  }

  // ---- Availability ----------------------------------------------------------------------------------------

  /** A pool that is not manual is available exactly if selection finds a usable credential;
      a manual pool, exactly if the one selected has its key set. */
  lemma AvailableIffSelectable(p: Pool, env: set<string>, now: nat)
    requires p.credentials != map[]
    ensures RouteAvailable(p, env, now).Some?
    ensures p.mode != Manual ==>
              (RouteAvailable(p, env, now) == Some(true)
               <==> Pick(p, env, now).Some? && Pick(p, env, now).value in Usable(p, env, now))
    ensures p.mode != Manual ==> (RouteAvailable(p, env, now) == Some(false) <==> Pick(p, env, now).None?)
    ensures p.mode == Manual ==>
              (RouteAvailable(p, env, now) == Some(true)
               <==> Pick(p, env, now).Some? && p.credentials[Pick(p, env, now).value].env in env)
  {
    hide RoundRobinPick, Sorted;
    PickIsEnabled(p, env, now);
  }

  // ---- Round robin --------------------------------------------------------------------------------------------

  predicate Distinct(c: seq<nat>) {
    forall i, j :: 0 <= i < j < |c| ==> c[i] != c[j]
  }

  lemma {:induction false} AfterIndex(c: seq<nat>, i: nat)
    requires Distinct(c) && i < |c|
    ensures After(c, c[i]) == c[i + 1..]
  {
    if i > 0 {
      assert c[0] != c[i];
      assert c[1..][i - 1] == c[i];
      AfterIndex(c[1..], i - 1);
      assert c[1..][i..] == c[i + 1..];
    }
  }

  lemma {:induction false} AfterMissing(c: seq<nat>, current: nat)
    requires current !in c
    ensures After(c, current) == []
  {
    if c != [] {
      AfterMissing(c[1..], current);
    }
  }

  /** Where the pick after position `i` is. */
  function Following(n: nat, i: nat): nat
    requires i < n
  {
    if i + 1 < n then i + 1 else 0
  }

  /** Round robin moves to the next candidate, and from the last to the first. */
  lemma PickFollows(c: seq<nat>, i: nat)
    requires Distinct(c) && i < |c|
    ensures RoundRobinPick(c, Some(c[i])) == Some(c[Following(|c|, i)])
  {
    AfterIndex(c, i);
    var list := c[i + 1..] + c;
    if i + 1 < |c| {
      assert list[0] == c[i + 1] && c[i] != c[i + 1];
    } else {
      assert list == c;
      FirstOtherIsIn(c, c[i]);
      if |c| > 1 {
        assert c[0] != c[i];
      } else {
        assert c == [c[0]];
      }
    }
  }

  lemma PickStarts(c: seq<nat>, current: Option<nat>)
    requires c != [] && (current.Some? ==> current.value !in c)
    ensures RoundRobinPick(c, current) == Some(c[0])
  {
    if current.Some? {
      AfterMissing(c, current.value);
      assert [] + c == c;
    }
  }

  /** The picks of consecutive selections. */
  function Picks(c: seq<nat>, current: Option<nat>, n: nat): seq<nat>
    requires c != []
    decreases n
  {
    if n == 0 then []
    else
      var pick := RoundRobinPick(c, current);
      if pick.None? then [] else [pick.value] + Picks(c, pick, n - 1)
  }

  /** The position reached after `k` moves from position `s`. */
  function At(n: nat, s: nat, k: nat): nat
    requires s < n && k < n
  {
    if s + k < n then s + k else s + k - n
  }

  lemma {:induction false} PicksGoRound(c: seq<nat>, s: nat, current: Option<nat>, n: nat)
    requires Distinct(c) && s < |c| && n <= |c| && RoundRobinPick(c, current) == Some(c[s])
    ensures |Picks(c, current, n)| == n
    ensures forall k :: 0 <= k < n ==> Picks(c, current, n)[k] == c[At(|c|, s, k)]
    decreases n
  {
    hide RoundRobinPick;
    if n > 0 {
      var next := Following(|c|, s);
      PickFollows(c, s);
      PicksGoRound(c, next, Some(c[s]), n - 1);
      forall k | 0 <= k < n ensures Picks(c, current, n)[k] == c[At(|c|, s, k)] {
        if k > 0 {
          assert At(|c|, s, k) == At(|c|, next, k - 1);
        }
      }
    }
  }

  lemma PickHasPosition(c: seq<nat>, current: Option<nat>) returns (s: nat)
    requires Distinct(c) && c != []
    ensures s < |c| && RoundRobinPick(c, current) == Some(c[s])
  {
    if current.Some? && current.value in c {
      var i :| 0 <= i < |c| && c[i] == current.value;
      PickFollows(c, i);
      s := Following(|c|, i);
    } else {
      PickStarts(c, current);
      s := 0;
    }
  }

  /** The pools of consecutive selections at the given times. */
  function Selections(p: Pool, env: set<string>, times: seq<nat>): seq<nat>
    decreases |times|
  {
    if times == [] then []
    else
      var pick := Pick(p, env, times[0]);
      if pick.None? then [] else [pick.value] + Selections(Select(p, env, times[0]), env, times[1..])
  }

  lemma {:induction false} SelectionsArePicks(p: Pool, env: set<string>, times: seq<nat>, usable: set<nat>)
    requires p.mode == RoundRobin && usable != {}
    requires forall t :: t in times ==> Usable(p, env, t) == usable
    ensures Sorted(usable) != [] && Selections(p, env, times) == Picks(Sorted(usable), p.active, |times|)
    decreases |times|
  {
    hide Sorted, RoundRobinPick;
    var c := Sorted(usable);
    assert |c| == |usable| > 0;
    if times != [] {
      assert times[0] in times;
      PickIsCandidate(c, p.active);
      var q := Select(p, env, times[0]);
      forall t | t in times[1..] ensures Usable(q, env, t) == usable {
        assert t in times && Usable(q, env, t) == Usable(p, env, t);
      }
      SelectionsArePicks(q, env, times[1..], usable);
    }
  }

  /** While the same n credentials are usable, any n consecutive selections pick each of them
      exactly once, from whatever credential was active before. */
  lemma RoundRobinIsFair(p: Pool, env: set<string>, times: seq<nat>, usable: set<nat>, u: nat)
    requires p.mode == RoundRobin && u in usable && |times| == |usable|
    requires forall t :: t in times ==> Usable(p, env, t) == usable
    ensures |Selections(p, env, times)| == |usable|
    ensures exists k :: 0 <= k < |usable| && Selections(p, env, times)[k] == u
    ensures forall j, k :: 0 <= j < k < |usable| ==> Selections(p, env, times)[j] != Selections(p, env, times)[k]
  {
    hide Sorted, RoundRobinPick, Selections, Picks;
    var c := Sorted(usable);
    var n := |c|;
    assert n == |usable|;
    SelectionsArePicks(p, env, times, usable);
    var s := PickHasPosition(c, p.active);
    PicksGoRound(c, s, p.active, n);
    assert u in c;
    var i :| 0 <= i < n && c[i] == u;
    var k := if i >= s then i - s else i + n - s;
    assert At(n, s, k) == i;
    assert Selections(p, env, times)[k] == u;
    forall j, k | 0 <= j < k < n ensures Selections(p, env, times)[j] != Selections(p, env, times)[k] {
      assert At(n, s, j) != At(n, s, k);
    }
  }
}
