/** The pool operations as the source runs them: the provider's entries are updated in place
    and put back when the save fails. */
module CredentialStore {
  import opened Common
  import opened Ordered
  import opened CredentialPool

  lemma SortedUnfold(s: set<nat>)
    requires s != {}
    ensures Sorted(s) == [Minimum(s)] + Sorted(s - {Minimum(s)})
  {
  }

  lemma MinimumOfPart(all: set<nat>, todo: set<nat>)
    requires todo != {} && Minimum(todo) in all
    ensures all * todo != {} && Minimum(all * todo) == Minimum(todo)
    ensures all * todo - {Minimum(todo)} == all * (todo - {Minimum(todo)})
  {
    assert Minimum(todo) in all * todo;
  }

  lemma Associate(a: seq<nat>, b: seq<nat>, c: seq<nat>)
    ensures a + (b + c) == a + b + c
  {
  }

  /** The next id of a pass is taken if it is wanted. */
  lemma PassTakes(all: set<nat>, todo: set<nat>, taken: seq<nat>)
    requires todo != {} && Minimum(todo) in all && Sorted(all) == taken + Sorted(all * todo)
    ensures Sorted(all) == taken + [Minimum(todo)] + Sorted(all * (todo - {Minimum(todo)}))
  {
    hide Sorted;
    MinimumOfPart(all, todo);
    SortedUnfold(all * todo);
    Associate(taken, [Minimum(todo)], Sorted(all * (todo - {Minimum(todo)})));
  }

  lemma PassSkips(all: set<nat>, todo: set<nat>)
    requires todo != {} && Minimum(todo) !in all
    ensures all * (todo - {Minimum(todo)}) == all * todo
  {
  }

  lemma PassEnds(all: set<nat>, taken: seq<nat>)
    requires Sorted(all) == taken + Sorted(all * {})
    ensures Sorted(all) == taken
  {
  }

  /** Collecting the usable credentials in id order. */
  method UsableInOrder(p: Pool, env: set<string>, now: nat) returns (available: seq<nat>)
    ensures available == Sorted(Usable(p, env, now))
  {
    hide Sorted;
    var todo := p.credentials.Keys;
    available := [];
    ghost var all := Usable(p, env, now);
    assert all * todo == all;
    assert available + Sorted(all) == Sorted(all);
    while todo != {}
      invariant todo <= p.credentials.Keys
      invariant Sorted(all) == available + Sorted(all * todo)
    {
      var k := Minimum(todo);
      var c := p.credentials[k];
      if c.enabled && c.env in env && CooledDown(p.health, k, now) {
        PassTakes(all, todo, available);
        available := available + [k];
      } else {
        PassSkips(all, todo);
      }
      todo := todo - {k};
    }
    PassEnds(all, available);
  }

  /** The first enabled credential in id order, apart from an excluded one. */
  method FirstEnabled(p: Pool, exclude: Option<nat>) returns (r: Option<nat>)
    ensures r == First(if exclude.Some? then Enabled(p.credentials) - {exclude.value} else Enabled(p.credentials))
  {
    var todo := p.credentials.Keys;
    ghost var wanted := if exclude.Some? then Enabled(p.credentials) - {exclude.value} else Enabled(p.credentials);
    while todo != {}
      invariant wanted <= todo <= p.credentials.Keys
    {
      var k := Minimum(todo);
      if p.credentials[k].enabled && exclude != Some(k) {
        assert k in wanted && Minimum(wanted) == k;
        return Some(k);
      }
      todo := todo - {k};
    }
    return None;
  }

  method NextOther(candidates: seq<nat>, current: nat) returns (r: Option<nat>)
    ensures r == FirstOther(candidates, current)
  {
    var i := 0;
    assert candidates[0..] == candidates;
    while i < |candidates| && candidates[i] == current
      invariant i <= |candidates|
      invariant FirstOther(candidates[i..], current) == FirstOther(candidates, current)
    {
      assert candidates[i..][1..] == candidates[i + 1..];
      i := i + 1;
    }
    return if i < |candidates| then Some(candidates[i]) else None;
  }

  method SkipPast(candidates: seq<nat>, current: nat) returns (rest: seq<nat>)
    ensures rest == After(candidates, current)
  {
    var i := 0;
    assert candidates[0..] == candidates;
    while i < |candidates| && candidates[i] != current
      invariant i <= |candidates|
      invariant After(candidates[i..], current) == After(candidates, current)
    {
      assert candidates[i..][1..] == candidates[i + 1..];
      i := i + 1;
    }
    if i < |candidates| {
      assert candidates[i..][1..] == candidates[i + 1..];
      return candidates[i + 1..];
    }
    return [];
  }

  lemma FirstIsHead(s: set<nat>)
    ensures First(s) == if Sorted(s) == [] then None else Some(Sorted(s)[0])
  {
  }

  class ProviderPool {
    var pool: Pool

    constructor ()
      ensures pool == EMPTY_POOL
    {
      pool := EMPTY_POOL;
    }

    method SaveOrRestore(previous: Pool, saved: bool) returns (r: Result<(), Error>)
      modifies this
      ensures r == if saved then Ok(()) else Err(SaveFailed)
      ensures pool == if saved then old(pool) else previous
    {
      if !saved {
        pool := previous;
        return Err(SaveFailed);
      }
      return Ok(());
    }

    method UpsertCredential(c: Credential, now: nat, saved: bool) returns (r: Result<(), Error>)
      modifies this
      ensures pool == Next(old(pool), UpsertAction(c, now), saved)
      ensures r == if saved then Ok(()) else Err(SaveFailed)
    {
      var previous := pool;
      var created := if c.id in pool.credentials then pool.credentials[c.id].createdAt else now;
      pool := pool.(credentials := pool.credentials[c.id := c.(createdAt := created, updatedAt := now)]);
      if !c.enabled && previous.active == Some(c.id) {
        var next := FirstEnabled(pool, Some(c.id));
        pool := pool.(active := next);
      } else if previous.active.None? || previous.active.value !in pool.credentials {
        var next := FirstEnabled(pool, None);
        pool := pool.(active := next);
      }
      r := SaveOrRestore(previous, saved);
    }

    method SetActiveCredential(id: nat, saved: bool) returns (r: Result<(), Error>)
      modifies this
      ensures pool == Next(old(pool), SetActiveAction(id), saved)
      ensures r == if SetActive(old(pool), id).Err? then Err(SetActive(old(pool), id).error)
                   else if saved then Ok(()) else Err(SaveFailed)
    {
      if id !in pool.credentials { return Err(NoSuchCredential); }
      if !pool.credentials[id].enabled { return Err(DisabledCredential); }
      var previous := pool;
      pool := pool.(active := Some(id));
      r := SaveOrRestore(previous, saved);
    }

    method DeleteCredential(id: nat, saved: bool) returns (r: Result<(), Error>)
      modifies this
      ensures pool == Next(old(pool), RemoveAction(id), saved)
      ensures r == if id !in old(pool).credentials then Err(NoSuchCredential)
                   else if saved then Ok(()) else Err(SaveFailed)
    {
      if id !in pool.credentials { return Err(NoSuchCredential); }
      var previous := pool;
      var wasActive := pool.active == Some(id);
      pool := pool.(credentials := pool.credentials - {id});
      if wasActive {
        var next := FirstEnabled(pool, None);
        pool := pool.(active := next);
      }
      if pool.credentials == map[] {
        pool := pool.(mode := Failover);
      }
      pool := pool.(health := pool.health - {id});
      r := SaveOrRestore(previous, saved);
    }

    /** Pick a credential for a request and remember it as the active one. */
    method SelectCredential(env: set<string>, now: nat) returns (selected: Option<nat>)
      modifies this
      ensures selected == Pick(old(pool), env, now)
      ensures pool == Select(old(pool), env, now)
    {
      hide Sorted;
      var available := UsableInOrder(pool, env, now);
      match pool.mode {
        case Manual =>
          if pool.active.Some? && pool.active.value in pool.credentials && pool.credentials[pool.active.value].enabled {
            selected := pool.active;
          } else {
            selected := FirstEnabled(pool, None);
          }
        case RoundRobin =>
          if available == [] {
            selected := None;
          } else if pool.active.None? {
            selected := Some(available[0]);
          } else {
            var rest := SkipPast(available, pool.active.value);
            selected := NextOther(rest + available, pool.active.value);
            if selected.None? {
              selected := Some(available[0]);
            }
          }
        case Failover =>
          FirstIsHead(Usable(pool, env, now));
          if pool.active.Some? && pool.active.value in available {
            selected := pool.active;
          } else {
            selected := if available == [] then None else Some(available[0]);
          }
      }
      if selected.Some? {
        pool := pool.(active := selected);
      }
    }

    method RecordHealth(id: nat, o: Outcome, now: nat)
      modifies this
      ensures pool == old(pool).(health := old(pool).health[id := Recorded(HealthOf(old(pool), id), o, now)])
    {
      var health := if id in pool.health then pool.health[id] else Health(0, None);
      if o.Success? {
        health := health.(failures := 0, cooldown := None);
      } else {
        if !o.kind.Triggers() {
          health := health.(failures := 0);
        } else if health.failures < MAX_FAILURES {
          health := health.(failures := health.failures + 1);
        }
        if o.kind.Triggers() && (o.kind.Rotates() || health.failures >= 3) {
          var until := SaturatingAdd(now, CooldownSeconds(o.kind, health.failures) * 1000);
          health := health.(cooldown := Some(until));
        }
      }
      pool := pool.(health := pool.health[id := health]);
    }

    /** Record an outcome, and after a failure that rotates move on to another credential. */
    method RecordProviderOutcome(id: Option<nat>, o: Outcome, env: set<string>, now: nat) returns (moved: Option<nat>)
      modifies this
      ensures pool == RecordOutcome(old(pool), id, o, env, now)
      ensures moved.Some? ==> moved == pool.active && moved != old(pool).active && moved.value in Usable(pool, env, now)
    {
      if id.Some? {
        RecordHealth(id.value, o, now);
      }
      moved := None;
      if o.Failure? && pool.mode != Manual && o.kind.Rotates() {
        hide Sorted;
        TargetIsUsable(pool, env, now);
        var candidates := UsableInOrder(pool, env, now);
        if candidates != [] {
          if pool.active.None? {
            moved := Some(candidates[0]);
          } else {
            var rest := SkipPast(candidates, pool.active.value);
            moved := NextOther(rest + candidates, pool.active.value);
          }
        }
        if moved.Some? {
          pool := pool.(active := moved);
        }
      }
    }
  }
}
