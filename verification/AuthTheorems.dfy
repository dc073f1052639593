/** What holds of users and sessions over every run. */
module AuthTheorems {
  import opened Common
  import opened Auth
  import opened AuthRuns

  // ---- An active admin stays --------------------------------------------------------------------

  /** Role and status of every user are as before. */
  ghost predicate SamePowers(users: Users, next: Users) {
    forall k :: k in users ==> k in next && next[k].role == users[k].role && next[k].status == users[k].status
  }

  lemma PowersKeepAdmins(users: Users, next: Users)
    requires SamePowers(users, next) && ActiveAdmins(users) != {}
    ensures ActiveAdmins(next) != {}
  {
  }

  lemma FederatedKeepsPowers(s: State, input: FederatedInput, token: nat, now: nat, ttl: nat)
    requires BeginFederated(s, input, token, now, ttl).LoggedIn?
    ensures SamePowers(s.users, BeginFederated(s, input, token, now, ttl).state.users)
  {
  }

  lemma EndFederatedKeepsPowers(s: State, p: Provision, id: nat, hash: nat, token: nat, now: nat, ttl: nat)
    requires id !in s.users && EndFederated(s, p, id, hash, token, now, ttl).Ok?
    ensures SamePowers(s.users, EndFederated(s, p, id, hash, token, now, ttl).value.users)
  {
  }

  lemma DeleteKeepsAdmins(s: State, id: nat, current: nat)
    requires ActiveAdmins(s.users) != {} && Delete(s, id, current).Ok?
    ensures ActiveAdmins(Delete(s, id, current).value.users) != {}
  {
    hide ClearSessions;
    if id in s.users {
      var admins := ActiveAdmins(s.users);
      assert ActiveAdmins(s.users - {id}) == admins - {id};
      if id in admins {
        assert |admins - {id}| == |admins| - 1;
      } else {
        assert admins - {id} == admins;
      }
    }
  }

  lemma EffectKeepsAdmins(w: World, a: Action)
    requires Possible(w, a) && Effect(w, a).Ok? && ActiveAdmins(w.state.users) != {} && ActiveAdmins(w.stored) != {}
    ensures ActiveAdmins(Effect(w, a).value.users) != {}
  {
    hide ActiveAdmins, BeginFederated, EndFederated, Delete, SameText, Expiry, ClearSessions, Candidate, Named;
    var users, next := w.state.users, Effect(w, a).value.users;
    match a
    case FinishLoginAction(_, _, _, _, _, _) =>
      assert SamePowers(users, next);
      PowersKeepAdmins(users, next);
    case BeginFederatedAction(op, input, token, now, ttl) =>
      if BeginFederated(Ready(w, a), input, token, now, ttl).LoggedIn? {
        FederatedKeepsPowers(Ready(w, a), input, token, now, ttl);
        PowersKeepAdmins(users, next);
      }
    case EndFederatedAction(op, id, hash, token, now, ttl) =>
      EndFederatedKeepsPowers(Ready(w, a), w.provisions[op], id, hash, token, now, ttl);
      PowersKeepAdmins(users, next);
    case CreateAction(user) =>
      assert SamePowers(users, next);
      PowersKeepAdmins(users, next);
    case DeleteAction(id, current) => DeleteKeepsAdmins(w.state, id, current);
    case _ =>
  }

  /** Once there is an active admin in memory and in the store, there always is. */
  lemma {:induction false} AdminsPersist(ws: seq<World>, actions: seq<(Action, Fate)>, i: nat, j: nat)
    requires IsRun(ws, actions) && i <= j < |ws|
    requires ActiveAdmins(ws[i].state.users) != {} && ActiveAdmins(ws[i].stored) != {}
    ensures ActiveAdmins(ws[j].state.users) != {} && ActiveAdmins(ws[j].stored) != {}
  {
    hide ActiveAdmins, Effect, Possible, Note, UsersOk, Logins, Provisions, Saves;
    if i < j {
      AdminsPersist(ws, actions, i, j - 1);
      var w, a := ws[j - 1], actions[j - 1].0;
      assert Ready(w, a).users == w.state.users;
      if Effect(w, a).Ok? {
        EffectKeepsAdmins(w, a);
      }
    }
  }

  // ---- Sessions and identities -------------------------------------------------------------------------

  /** A password login issues a session only if the password verifies against the hash the
      user has now, and the user is active now under the name given. */
  lemma LoginNeedsCurrentPassword(w: World, a: Action)
    requires a.FinishLoginAction? && a.op in w.logins && Effect(w, a).Ok?
    ensures var p := w.logins[a.op];
            && p.candidate.Some? && p.candidate.value.id in w.state.users && !a.locked
            && var u := w.state.users[p.candidate.value.id];
               u.status == Active && SameText(u.username, p.name) && (p.password, u.hash) in a.good
  {
  }

  /** In every run, the error for a doubly bound identity is unreachable. */
  lemma DuplicateBindingIsUnreachable(ws: seq<World>, actions: seq<(Action, Fate)>, i: nat, identity: Identity)
    requires IsRun(ws, actions) && i < |ws|
    ensures Bound(ws[i].state.users, identity).Ok?
  {
    hide IsRun, SessionsOk, UsersOk, Bound;
    RunsKeepInv(ws, actions, i);
    BindingIsUnique(ws[i].state.users, identity);
  }

  /** A stored session that has not expired is accepted, for the user, role and password it
      was issued for. */
  lemma SessionsAreAccepted(ws: seq<World>, actions: seq<(Action, Fate)>, i: nat, t: nat, now: nat)
    requires IsRun(ws, actions) && i < |ws| && t in ws[i].state.sessions && ws[i].state.sessions[t].expiresAt > now
    ensures var r := RequireSession(ws[i].state, t, now);
            && r.Ok? && r.value.status == Active && t in ws[i].issued
            && ws[i].issued[t].user in ws[i].state.users && r.value == ws[i].state.users[ws[i].issued[t].user]
            && r.value.role == ws[i].issued[t].role && r.value.hash == ws[i].issued[t].hash
  {
    hide IsRun, UsersOk;
    RunsKeepInv(ws, actions, i);
    assert SessionOk(ws[i].state.users, ws[i].issued, t, ws[i].state.sessions[t]);
  }

  /** What a token was issued for never changes, so a session ends when its user's role,
      password or activity does. */
  lemma {:induction false} IssuedIsFinal(ws: seq<World>, actions: seq<(Action, Fate)>, i: nat, j: nat, t: nat)
    requires IsRun(ws, actions) && i <= j < |ws| && t in ws[i].issued
    ensures t in ws[j].issued && ws[j].issued[t] == ws[i].issued[t]
  {
    hide After, Logins, Provisions, Commits, UsersOk;
    if i < j {
      IssuedIsFinal(ws, actions, i, j - 1, t);
    }
  }

  /** After a change of role or password, or a deactivation, no session of the user remains;
      other users keep theirs. */
  lemma UpdateEndsSessions(s: State, id: nat, current: nat, input: UpdateInput, now: nat, t: nat)
    requires Update(s, id, current, input, now).Ok? && t in s.sessions
    ensures var next := Update(s, id, current, input, now).value;
            t in next.sessions <==>
              s.sessions[t].user != id
              || (input.hash.None? && next.users[id].status == Active && next.users[id].role == s.users[id].role)
  {
  }
}
