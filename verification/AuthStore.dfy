/** The auth store as the source runs it: users and sessions are updated in place with passes
    over the maps, and a saved copy is put back when the save fails. */
module AuthStore {
  import opened Common
  import opened Ordered
  import opened Auth

  /** `find`: the first user in id order with the name. */
  method FindNamed(users: Users, name: string) returns (r: Option<nat>)
    ensures r == First(Named(users, name))
  {
    hide SameText;
    var todo := users.Keys;
    while todo != {}
      invariant Named(users, name) <= todo <= users.Keys
    {
      var k := Minimum(todo);
      if SameText(users[k].username, name) {
        assert k in Named(users, name) && Minimum(Named(users, name)) == k;
        return Some(k);
      }
      todo := todo - {k};
    }
    return None;
  }

  /** `filter(…).count()`. */
  method CountActiveAdmins(users: Users) returns (n: nat)
    ensures n == |ActiveAdmins(users)|
  {
    var todo := users.Keys;
    n := 0;
    ghost var counted: set<nat> := {};
    while todo != {}
      invariant todo <= users.Keys && n == |counted|
      invariant forall k :: k in counted <==> k in users.Keys - todo && users[k].role == Admin && users[k].status == Active
    {
      var k := Minimum(todo);
      if users[k].role == Admin && users[k].status == Active {
        n, counted := n + 1, counted + {k};
      }
      todo := todo - {k};
    }
    assert counted == ActiveAdmins(users);
  }

  /** The users with an email address, in id order. */
  method FindMailed(users: Users, email: string) returns (ids: seq<nat>)
    ensures |ids| == |Mailed(users, email)| && (ids != [] ==> ids[0] == Minimum(Mailed(users, email)))
  {
    hide SameText;
    var todo := users.Keys;
    ids := [];
    ghost var found: set<nat> := {};
    while todo != {}
      invariant todo <= users.Keys && |ids| == |found|
      invariant forall k :: k in found <==> k in users.Keys - todo && SameText(users[k].email, email)
      invariant ids == [] ==> found == {}
      invariant ids != [] ==> ids[0] in found && (forall k :: k in found ==> ids[0] <= k) && forall k :: k in todo ==> ids[0] < k
    {
      var k := Minimum(todo);
      if SameText(users[k].email, email) {
        ids, found := ids + [k], found + {k};
      }
      todo := todo - {k};
    }
    assert found == Mailed(users, email);
  }

  /** Look for a second match after the first. */
  method BoundUserId(users: Users, identity: Identity) returns (r: Result<Option<nat>, Error>)
    ensures r == Bound(users, identity)
  {
    var todo := users.Keys;
    var first: Option<nat> := None;
    ghost var bound := BoundTo(users, identity);
    while todo != {}
      invariant todo <= users.Keys
      invariant first.None? ==> bound <= todo
      invariant first.Some? ==> first.value in bound && first.value !in todo && bound <= todo + {first.value}
      invariant first.Some? ==> forall k :: k in todo ==> first.value < k
    {
      var k := Minimum(todo);
      if identity in users[k].identities {
        if first.Some? {
          assert {first.value, k} <= bound;
          SubsetSize({first.value, k}, bound);
          return Err(DuplicateBinding);
        }
        first := Some(k);
      }
      todo := todo - {k};
    }
    if first.Some? {
      assert bound == {first.value};
    } else {
      assert bound == {};
    }
    return Ok(first);
  }

  method IsTaken(users: Users, username: string, email: string) returns (taken: bool)
    ensures taken == Taken(users, username, email)
  {
    hide SameText;
    var todo := users.Keys;
    while todo != {}
      invariant todo <= users.Keys
      invariant forall k :: k in users.Keys - todo ==>
                  !SameText(users[k].username, username) && !SameText(users[k].email, email)
    {
      var k := Minimum(todo);
      if SameText(users[k].username, username) || SameText(users[k].email, email) {
        return true;
      }
      todo := todo - {k};
    }
    return false;
  }

  class Store {
    var state: State

    constructor (users: Users)
      ensures state == State(users, map[])
    {
      state := State(users, map[]);
    }

    method SaveOrRestore(previous: State, saved: bool) returns (r: Result<(), Error>)
      modifies this
      ensures r == if saved then Ok(()) else Err(SaveFailed)
      ensures state == if saved then old(state) else previous
    {
      if !saved {
        state := previous;
        return Err(SaveFailed);
      }
      return Ok(());
    }

    /** `retain` sessions that have not expired. */
    method PruneExpired(now: nat)
      modifies this
      ensures state == Prune(old(state), now)
    {
      var before, sessions, todo := state.sessions, state.sessions, state.sessions.Keys;
      while todo != {}
        invariant todo <= before.Keys
        invariant forall t :: t in sessions <==> t in before && (t in todo || before[t].expiresAt > now)
        invariant forall t :: t in sessions ==> sessions[t] == before[t]
      {
        var t := Minimum(todo);
        if sessions[t].expiresAt <= now {
          sessions := sessions - {t};
        }
        todo := todo - {t};
      }
      state := state.(sessions := sessions);
    }

    /** `retain` the sessions of other users. */
    method DropSessions(id: nat)
      modifies this
      ensures state == old(state).(sessions := ClearSessions(old(state).sessions, id))
    {
      var before, sessions, todo := state.sessions, state.sessions, state.sessions.Keys;
      while todo != {}
        invariant todo <= before.Keys
        invariant forall t :: t in sessions <==> t in before && (t in todo || before[t].user != id)
        invariant forall t :: t in sessions ==> sessions[t] == before[t]
      {
        var t := Minimum(todo);
        if sessions[t].user == id {
          sessions := sessions - {t};
        }
        todo := todo - {t};
      }
      state := state.(sessions := sessions);
    }

    /** The first lock section of a login: prune, and take a snapshot of the user. */
    method BeginLogin(name: string, now: nat) returns (candidate: Option<Snapshot>)
      modifies this
      ensures state == Prune(old(state), now)
      ensures candidate == Candidate(state.users, name)
    {
      PruneExpired(now);
      var id := FindNamed(state.users, name);
      candidate := if id.Some? then Some(Snapshot(id.value, state.users[id.value])) else None;
    }

    /** The second lock section: check the snapshot again and issue a session. */
    method EndLogin(candidate: Option<Snapshot>, name: string, verified: bool, locked: bool, token: nat, now: nat,
                    ttlSeconds: nat, saved: bool) returns (r: Result<(), Error>)
      modifies this
      ensures var e := FinishLogin(Prune(old(state), now), candidate, name, verified, locked, token, now, ttlSeconds);
              && state == (if e.Ok? && saved then e.value else Prune(old(state), now))
              && r == if e.Err? then Err(e.error) else if saved then Ok(()) else Err(SaveFailed)
    {
      hide SameText, Expiry;
      PruneExpired(now);
      if candidate.None? { return Err(Unauthorized); }
      if !verified || !IsCurrent(state.users, candidate.value, name) { return Err(Unauthorized); }
      if locked { return Err(Unauthorized); }
      var previous, id := state, candidate.value.id;
      state := state.(users := state.users[id := state.users[id].(lastLoginAt := Some(now), updatedAt := now)]);
      state := state.(sessions := state.sessions[token := Session(id, Expiry(now, ttlSeconds))]);
      r := SaveOrRestore(previous, saved);
    }

    method CreateUser(user: User, saved: bool) returns (r: Result<(), Error>)
      modifies this
      ensures var e := Create(old(state), user);
              && state == (if e.Ok? && saved then e.value else old(state))
              && r == if e.Err? then Err(e.error) else if saved then Ok(()) else Err(SaveFailed)
    {
      hide SameText;
      var namesake := FindNamed(state.users, user.username);
      if namesake.Some? { return Err(NameTaken); }
      var previous := state;
      state := state.(users := state.users[user.id := user]);
      r := SaveOrRestore(previous, saved);
    }

    method UpdateUser(id: nat, current: nat, input: UpdateInput, now: nat, saved: bool) returns (r: Result<(), Error>)
      modifies this
      ensures var e := Update(old(state), id, current, input, now);
              && state == (if e.Ok? && saved then e.value else old(state))
              && r == if e.Err? then Err(e.error) else if saved then Ok(()) else Err(SaveFailed)
    {
      hide ActiveAdmins, ClearSessions;
      if id !in state.users { return Err(NotFound); }
      var existing := state.users[id];
      if id == current && ((input.role.Some? && input.role.value != Admin) || (input.status.Some? && input.status.value != Active)) {
        return Err(Forbidden);
      }
      var next := Updated(existing, input, now);
      var admins := CountActiveAdmins(state.users[id := next]);
      if admins == 0 { return Err(Forbidden); }
      var previous := state;
      state := state.(users := state.users[id := next]);
      if input.hash.Some? || next.status != Active || next.role != existing.role {
        DropSessions(id);
      }
      r := SaveOrRestore(previous, saved);
    }

    method DeleteUser(id: nat, current: nat, saved: bool) returns (r: Result<(), Error>)
      modifies this
      ensures var e := Delete(old(state), id, current);
              && state == (if e.Ok? && saved then e.value else old(state))
              && (e.Err? ==> r == Err(e.error))
              && (e.Ok? ==> r == if saved || id !in old(state).users then Ok(()) else Err(SaveFailed))
    {
      hide ActiveAdmins, ClearSessions;
      if id == current { return Err(Forbidden); }
      if id !in state.users { return Ok(()); }
      if state.users[id].role == Admin {
        var admins := CountActiveAdmins(state.users);
        if admins <= 1 { return Err(Forbidden); }
      }
      var previous := state;
      state := state.(users := state.users - {id});
      DropSessions(id);
      r := SaveOrRestore(previous, saved);
    }

    method FinishFederatedLogin(previous: State, id: nat, token: nat, now: nat, ttlSeconds: nat, saved: bool)
      returns (r: Result<(), Error>)
      modifies this
      ensures var e := FinishFederated(old(state), id, token, now, ttlSeconds);
              && state == (if e.Err? then old(state) else if saved then e.value else previous)
              && r == if e.Err? then Err(e.error) else if saved then Ok(()) else Err(SaveFailed)
    {
      hide Expiry;
      if id !in state.users { return Err(UserMissing); }
      if state.users[id].status != Active { return Err(Unauthorized); }
      state := state.(users := state.users[id := state.users[id].(lastLoginAt := Some(now), updatedAt := now)]);
      state := state.(sessions := state.sessions[token := Session(id, Expiry(now, ttlSeconds))]);
      r := SaveOrRestore(previous, saved);
    }

    /** The second lock section of a federated login that creates its user. */
    method EndFederatedLogin(p: Provision, id: nat, hash: nat, token: nat, now: nat, ttlSeconds: nat, saved: bool)
      returns (r: Result<(), Error>)
      modifies this
      ensures var e := EndFederated(Prune(old(state), now), p, id, hash, token, now, ttlSeconds);
              && state == (if e.Ok? && saved then e.value else Prune(old(state), now))
              && r == if e.Err? then Err(e.error) else if saved then Ok(()) else Err(SaveFailed)
    {
      hide Expiry, Taken, Prune;
      PruneExpired(now);
      var bound := BoundUserId(state.users, p.identity);
      if bound.Err? { return Err(bound.error); }
      var previous := state;
      if bound.value.Some? {
        r := FinishFederatedLogin(previous, bound.value.value, token, now, ttlSeconds, saved);
        return;
      }
      var taken := IsTaken(state.users, p.username, p.email);
      if taken { return Err(Unauthorized); }
      state := state.(users := state.users[id := Provisioned(p, id, hash, now)]);
      r := FinishFederatedLogin(previous, id, token, now, ttlSeconds, saved);
    }

    /** The first lock section of a federated login: a bound user logs in, a verified email
        binds a plain user, and otherwise a user may have to be created. */
    method BeginFederatedLogin(input: FederatedInput, token: nat, now: nat, ttlSeconds: nat, saved: bool)
      returns (r: Result<Option<Provision>, Error>)
      modifies this
      ensures var b := BeginFederated(Prune(old(state), now), input, token, now, ttlSeconds);
              && state == (if b.LoggedIn? && saved then b.state else Prune(old(state), now))
              && (b.Refused? ==> r == Err(b.error))
              && (b.MustProvision? ==> r == Ok(Some(b.provision)))
              && (b.LoggedIn? ==> r == if saved then Ok(None) else Err(SaveFailed))
    {
      hide Expiry, Taken, Prune, Mailed;
      PruneExpired(now);
      var bound := BoundUserId(state.users, input.identity);
      if bound.Err? { return Err(bound.error); }
      var previous := state;
      if bound.value.Some? {
        var f := FinishFederatedLogin(previous, bound.value.value, token, now, ttlSeconds, saved);
        return if f.Ok? then Ok(None) else Err(f.error);
      }
      if !input.emailVerified || input.email.None? { return Err(Unauthorized); }
      var mailed := FindMailed(state.users, input.email.value);
      if |mailed| > 1 { return Err(Unauthorized); }
      if mailed != [] {
        MailedAreUsers(state.users, input.email.value);
        var id := mailed[0];
        if state.users[id].role == Admin || state.users[id].status != Active || state.users[id].identities != [] {
          return Err(Unauthorized);
        }
        state := Bind(state, id, input.identity);
        var f := FinishFederatedLogin(previous, id, token, now, ttlSeconds, saved);
        return if f.Ok? then Ok(None) else Err(f.error);
      }
      if !input.autoProvision || input.username.None? { return Err(Unauthorized); }
      var taken := IsTaken(state.users, input.username.value, input.email.value);
      if taken { return Err(Unauthorized); }
      return Ok(Some(Provision(input.identity, input.username.value, input.email.value)));
    }
  }
}
