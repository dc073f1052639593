/**
 Every interleaving of logins, federated logins, updates, deletions and restarts. A login
 reads the user in one lock section and finishes in another; a federated login that creates
 a user has the same gap. A save is a compare-and-swap that may fail, with or without
 effect: a save whose report is lost leaves the memory behind the store, and then no save
 succeeds until the next restart. `issued` is history: for whom, with which role and
 password hash, each session token was issued.
 */
module AuthRuns {
  import opened Common
  import opened Ordered
  import opened Auth

  datatype Issued = Issued(user: nat, role: Role, hash: nat)

  datatype PendingLogin = PendingLogin(name: string, password: string, candidate: Option<Snapshot>)

  /** `stored` are the users in the store; `current` says that the memory knows their revision. */
  datatype World = World(state: State, issued: map<nat, Issued>, logins: map<nat, PendingLogin>,
                         provisions: map<nat, Provision>, stored: Users, current: bool)

  /** `good` holds the pairs of password and hash that verify. */
  datatype Action =
    | BeginLoginAction(op: nat, name: string, password: string, now: nat)
    | FinishLoginAction(op: nat, good: set<(string, nat)>, locked: bool, token: nat, now: nat, ttlSeconds: nat)
    | BeginFederatedAction(op: nat, input: FederatedInput, token: nat, now: nat, ttlSeconds: nat)
    | EndFederatedAction(op: nat, id: nat, hash: nat, token: nat, now: nat, ttlSeconds: nat)
    | CreateAction(user: User)
    | UpdateAction(id: nat, current: nat, update: UpdateInput, now: nat)
    | DeleteAction(id: nat, current: nat)
    | LogoutAction(token: nat)
    | LookupAction(now: nat)
    | RestartAction

  /** Whether a login's password verifies against the snapshot it began with. */
  predicate Verified(p: PendingLogin, good: set<(string, nat)>) {
    p.candidate.Some? && p.candidate.value.user.status == Active && (p.password, p.candidate.value.user.hash) in good
  }

  /** The state in which a step works: expired sessions are pruned by logins and lookups. */
  function Ready(w: World, a: Action): State {
    match a
    case BeginLoginAction(_, _, _, now) => Prune(w.state, now)
    case FinishLoginAction(_, _, _, _, now, _) => Prune(w.state, now)
    case BeginFederatedAction(_, _, _, now, _) => Prune(w.state, now)
    case EndFederatedAction(_, _, _, _, now, _) => Prune(w.state, now)
    case LookupAction(now) => Prune(w.state, now)
    case _ => w.state
  }

  /** The state a step tries to save; an error or a failed save leaves the ready state. */
  function Effect(w: World, a: Action): Result<State, Error> {
    var s := Ready(w, a);
    match a
    case BeginLoginAction(_, _, _, _) => Ok(s)
    case FinishLoginAction(op, good, locked, token, now, ttl) =>
      if op !in w.logins then Err(Unauthorized)
      else FinishLogin(s, w.logins[op].candidate, w.logins[op].name, Verified(w.logins[op], good), locked, token, now, ttl)
    case BeginFederatedAction(op, input, token, now, ttl) =>
      var begun := BeginFederated(s, input, token, now, ttl);
      if begun.LoggedIn? then Ok(begun.state) else if begun.MustProvision? then Ok(s) else Err(begun.error)
    case EndFederatedAction(op, id, hash, token, now, ttl) =>
      if op !in w.provisions then Err(Unauthorized) else EndFederated(s, w.provisions[op], id, hash, token, now, ttl)
    case CreateAction(user) => Create(s, user)
    case UpdateAction(id, current, input, now) => Update(s, id, current, input, now)
    case DeleteAction(id, current) => Delete(s, id, current)
    case LogoutAction(token) => Ok(s.(sessions := s.sessions - {token}))
    case LookupAction(_) => Ok(s)
    case RestartAction => Ok(State(w.stored, map[]))
  }

  function TokenOf(a: Action): Option<nat> {
    match a
    case FinishLoginAction(_, _, _, token, _, _) => Some(token)
    case BeginFederatedAction(_, _, token, _, _) => Some(token)
    case EndFederatedAction(_, _, _, token, _, _) => Some(token)
    case _ => None
  }

  /** Note for whom a new session was issued. */
  function Note(issued: map<nat, Issued>, s: State, token: Option<nat>): map<nat, Issued> {
    if token.Some? && token.value in s.sessions && s.sessions[token.value].user in s.users then
      var u := s.sessions[token.value].user;
      issued[token.value := Issued(u, s.users[u].role, s.users[u].hash)]
    else issued
  }

  /** Sessions are not stored: logging out, looking up and the first half of a login save
      nothing, nor does a restart. */
  predicate Saves(w: World, a: Action) {
    match a
    case BeginLoginAction(_, _, _, _) => false
    case BeginFederatedAction(_, input, token, now, ttl) =>
      BeginFederated(Ready(w, a), input, token, now, ttl).LoggedIn?
    case LogoutAction(_) => false
    case LookupAction(_) => false
    case RestartAction => false
    case _ => true
  }

  predicate Commits(w: World, a: Action, fate: Fate) {
    Effect(w, a).Ok? && Saves(w, a) && fate != Refuses && w.current
  }

  /** The memory after a step: a failed save restores it, also if the store was changed. */
  function After(w: World, a: Action, fate: Fate): State {
    var e := Effect(w, a);
    if e.Ok? && (!Saves(w, a) || (Commits(w, a, fate) && fate == Reports)) then e.value else Ready(w, a)
  }

  function Logins(w: World, a: Action): map<nat, PendingLogin> {
    if a.BeginLoginAction?
    then w.logins[a.op := PendingLogin(a.name, a.password, Candidate(Ready(w, a).users, a.name))]
    else if a.RestartAction? then map[] else w.logins
  }

  function Provisions(w: World, a: Action): map<nat, Provision> {
    if a.BeginFederatedAction? && BeginFederated(Ready(w, a), a.input, a.token, a.now, a.ttlSeconds).MustProvision?
    then w.provisions[a.op := BeginFederated(Ready(w, a), a.input, a.token, a.now, a.ttlSeconds).provision]
    else if a.RestartAction? then map[] else w.provisions
  }

  function Step(w: World, a: Action, fate: Fate): World {
    var next := After(w, a, fate);
    World(next, Note(w.issued, next, TokenOf(a)), Logins(w, a), Provisions(w, a),
          if Commits(w, a, fate) then Effect(w, a).value.users else w.stored,
          if a.RestartAction? then true else if Commits(w, a, fate) && fate == LosesReport then false else w.current)
  }

  /** Tokens and user ids are drawn fresh, and new users have no federated identities. */
  predicate Possible(w: World, a: Action) {
    && (TokenOf(a).Some? ==> TokenOf(a).value !in w.issued)
    && (a.EndFederatedAction? ==> a.id !in w.state.users)
    && (a.CreateAction? ==> a.user.id !in w.state.users && a.user.identities == [])
  }

  // ---- What every step keeps -----------------------------------------------------------------------------

  /** A session's user exists, is active, and has the role and password it was issued for. */
  predicate SessionOk(users: Users, issued: map<nat, Issued>, t: nat, session: Session) {
    && t in issued && session.user in users && users[session.user].status == Active
    && issued[t] == Issued(session.user, users[session.user].role, users[session.user].hash)
  }

  ghost predicate SessionsOk(s: State, issued: map<nat, Issued>) {
    forall t :: t in s.sessions ==> SessionOk(s.users, issued, t, s.sessions[t])
  }

  ghost predicate NamesOk(users: Users) {
    forall a, b :: a in users && b in users && SameText(users[a].username, users[b].username) ==> a == b
  }

  ghost predicate BindingsOk(users: Users) {
    forall a, b, i :: a in users && b in users && i in users[a].identities && i in users[b].identities ==> a == b
  }

  ghost predicate UsersOk(users: Users) {
    NamesOk(users) && BindingsOk(users)
  }

  ghost predicate Inv(w: World) {
    && SessionsOk(w.state, w.issued) && UsersOk(w.state.users) && UsersOk(w.stored)
    && (w.current ==> w.stored == w.state.users)
  }

  // ---- Sessions --------------------------------------------------------------------------------------------

  lemma FewerSessions(s: State, issued: map<nat, Issued>, sessions: map<nat, Session>)
    requires SessionsOk(s, issued) && forall t :: t in sessions ==> t in s.sessions && sessions[t] == s.sessions[t]
    ensures SessionsOk(s.(sessions := sessions), issued)
  {
  }

  lemma IssueKeepsSessions(s: State, issued: map<nat, Issued>, id: nat, token: nat, now: nat, ttl: nat)
    requires SessionsOk(s, issued) && id in s.users && s.users[id].status == Active && token !in issued
    ensures SessionsOk(Issue(s, id, token, now, ttl), Note(issued, Issue(s, id, token, now, ttl), Some(token)))
  {
  }

  /** Adding a user, or an identity to a user, touches no session. */
  lemma MoreUsers(s: State, issued: map<nat, Issued>, users: Users)
    requires SessionsOk(s, issued)
    requires forall k :: k in s.users ==> k in users && users[k].status == s.users[k].status
                                          && users[k].role == s.users[k].role && users[k].hash == s.users[k].hash
    ensures SessionsOk(s.(users := users), issued)
  {
  }

  lemma NoNewSession(s: State, issued: map<nat, Issued>, token: Option<nat>)
    requires SessionsOk(s, issued) && (token.Some? ==> token.value !in issued)
    ensures Note(issued, s, token) == issued
  {
  }

  lemma UpdateKeepsSessions(s: State, issued: map<nat, Issued>, id: nat, current: nat, input: UpdateInput, now: nat)
    requires SessionsOk(s, issued) && Update(s, id, current, input, now).Ok?
    ensures SessionsOk(Update(s, id, current, input, now).value, issued)
  {
  }

  lemma DeleteKeepsSessions(s: State, issued: map<nat, Issued>, id: nat, current: nat)
    requires SessionsOk(s, issued) && Delete(s, id, current).Ok?
    ensures SessionsOk(Delete(s, id, current).value, issued)
  {
  }

  // ---- Names and bindings ---------------------------------------------------------------------------------------

  /** The users look the same by name and identities. */
  ghost predicate SameFaces(users: Users, next: Users) {
    forall k :: k in next ==> k in users && next[k].username == users[k].username && next[k].identities == users[k].identities
  }

  lemma FacesKeepUsers(users: Users, next: Users)
    requires UsersOk(users) && SameFaces(users, next)
    ensures UsersOk(next)
  {
  }

  lemma NoNamesake(users: Users, name: string)
    requires Named(users, name) == {}
    ensures forall k :: k in users ==> !SameText(users[k].username, name) && !SameText(name, users[k].username)
  {
    forall k | k in users ensures !SameText(users[k].username, name) {
      assert k !in Named(users, name);
    }
  }

  lemma AddUser(users: Users, user: User)
    requires UsersOk(users) && user.id !in users && Named(users, user.username) == {}
    requires forall i :: i in user.identities ==> BoundTo(users, i) == {}
    ensures UsersOk(users[user.id := user])
  {
    hide SameText;
    NoNamesake(users, user.username);
    forall k, i | k in users && i in user.identities ensures i !in users[k].identities {
      assert k !in BoundTo(users, i);
    }
  }

  lemma BindKeepsUsers(s: State, id: nat, identity: Identity)
    requires UsersOk(s.users) && id in s.users && BoundTo(s.users, identity) == {}
    ensures UsersOk(Bind(s, id, identity).users)
  {
    hide SameText;
    forall k | k in s.users ensures identity !in s.users[k].identities {
      assert k !in BoundTo(s.users, identity);
    }
  }

  /** The error for a doubly bound identity never occurs. */
  lemma BindingIsUnique(users: Users, identity: Identity)
    requires UsersOk(users)
    ensures Bound(users, identity).Ok?
    ensures Bound(users, identity).value.None? <==> BoundTo(users, identity) == {}
    ensures Bound(users, identity).value.Some? ==> BoundTo(users, identity) == {Bound(users, identity).value.value}
  {
    hide SameText;
    var bound := BoundTo(users, identity);
    if bound != {} {
      var k := Minimum(bound);
      assert bound == {k};
    }
  }

  // ---- Steps ---------------------------------------------------------------------------------------------------

  /** What a step must establish about the state it saves. */
  ghost predicate Keeps(s: State, issued: map<nat, Issued>, token: Option<nat>) {
    SessionsOk(s, Note(issued, s, token)) && UsersOk(s.users)
  }

  lemma FinishFederatedKeeps(s: State, issued: map<nat, Issued>, id: nat, token: nat, now: nat, ttl: nat)
    requires SessionsOk(s, issued) && UsersOk(s.users) && token !in issued
    requires FinishFederated(s, id, token, now, ttl).Ok?
    ensures Keeps(FinishFederated(s, id, token, now, ttl).value, issued, Some(token))
  {
    hide Expiry, SessionsOk, UsersOk, Note;
    IssueKeepsSessions(s, issued, id, token, now, ttl);
    FacesKeepUsers(s.users, Issue(s, id, token, now, ttl).users);
  }

  lemma BeginFederatedKeeps(s: State, issued: map<nat, Issued>, input: FederatedInput, token: nat, now: nat, ttl: nat)
    requires SessionsOk(s, issued) && UsersOk(s.users) && token !in issued
    requires BeginFederated(s, input, token, now, ttl).LoggedIn?
    ensures Keeps(BeginFederated(s, input, token, now, ttl).state, issued, Some(token))
  {
    hide SessionsOk, UsersOk, Bound, BoundTo, FinishFederated, Keeps, Taken, Mailed;
    BindingIsUnique(s.users, input.identity);
    var bound := Bound(s.users, input.identity).value;
    if bound.Some? {
      FinishFederatedKeeps(s, issued, bound.value, token, now, ttl);
    } else {
      var id := Minimum(Mailed(s.users, input.email.value));
      MailedAreUsers(s.users, input.email.value);
      var b := Bind(s, id, input.identity);
      MoreUsers(s, issued, b.users);
      BindKeepsUsers(s, id, input.identity);
      FinishFederatedKeeps(b, issued, id, token, now, ttl);
    }
  }

  lemma NotTaken(users: Users, username: string, email: string)
    requires !Taken(users, username, email)
    ensures Named(users, username) == {}
  {
  }

  lemma EndFederatedKeeps(s: State, issued: map<nat, Issued>, p: Provision, id: nat, hash: nat, token: nat, now: nat, ttl: nat)
    requires SessionsOk(s, issued) && UsersOk(s.users) && token !in issued && id !in s.users
    requires EndFederated(s, p, id, hash, token, now, ttl).Ok?
    ensures Keeps(EndFederated(s, p, id, hash, token, now, ttl).value, issued, Some(token))
  {
    hide SessionsOk, UsersOk, Bound, FinishFederated, Keeps;
    BindingIsUnique(s.users, p.identity);
    var bound := Bound(s.users, p.identity).value;
    if bound.Some? {
      FinishFederatedKeeps(s, issued, bound.value, token, now, ttl);
    } else {
      var user := Provisioned(p, id, hash, now);
      var next := s.(users := s.users[id := user]);
      NotTaken(s.users, p.username, p.email);
      MoreUsers(s, issued, next.users);
      AddUser(s.users, user);
      FinishFederatedKeeps(next, issued, id, token, now, ttl);
    }
  }

  lemma FinishLoginKeeps(s: State, issued: map<nat, Issued>, c: Option<Snapshot>, name: string, verified: bool, locked: bool,
                         token: nat, now: nat, ttl: nat)
    requires SessionsOk(s, issued) && UsersOk(s.users) && token !in issued
    requires FinishLogin(s, c, name, verified, locked, token, now, ttl).Ok?
    ensures Keeps(FinishLogin(s, c, name, verified, locked, token, now, ttl).value, issued, Some(token))
  {
    hide Expiry, SessionsOk, UsersOk, Note;
    IssueKeepsSessions(s, issued, c.value.id, token, now, ttl);
    FacesKeepUsers(s.users, Issue(s, c.value.id, token, now, ttl).users);
  }

  lemma AdministrationKeeps(s: State, issued: map<nat, Issued>, w: World, a: Action)
    requires SessionsOk(s, issued) && UsersOk(s.users) && Possible(w, a) && s == w.state && Ready(w, a) == s
    requires a.CreateAction? || a.UpdateAction? || a.DeleteAction? || a.LogoutAction?
    requires Effect(w, a).Ok?
    ensures Keeps(Effect(w, a).value, issued, None)
  {
    hide SessionsOk, UsersOk, SameText, ActiveAdmins, ClearSessions;
    var next := Effect(w, a).value;
    match a
    case CreateAction(user) =>
      MoreUsers(s, issued, next.users);
      AddUser(s.users, user);
    case UpdateAction(id, current, update, now) =>
      UpdateKeepsSessions(s, issued, id, current, update, now);
      FacesKeepUsers(s.users, next.users);
    case DeleteAction(id, current) =>
      DeleteKeepsSessions(s, issued, id, current);
      FacesKeepUsers(s.users, next.users);
    case LogoutAction(token) =>
      FewerSessions(s, issued, next.sessions);
  }

  lemma ReadyIsOk(w: World, a: Action)
    requires Inv(w)
    ensures SessionsOk(Ready(w, a), w.issued) && Ready(w, a).users == w.state.users
  {
  }

  lemma StayKeeps(s: State, issued: map<nat, Issued>, token: Option<nat>)
    requires SessionsOk(s, issued) && UsersOk(s.users) && Note(issued, s, token) == issued
    ensures Keeps(s, issued, token)
  {
  }

  lemma RestartKeeps(users: Users, issued: map<nat, Issued>)
    requires UsersOk(users)
    ensures Keeps(State(users, map[]), issued, None)
  {
  }

  lemma ReadyStays(w: World, a: Action)
    requires a.CreateAction? || a.UpdateAction? || a.DeleteAction? || a.LogoutAction?
    ensures Ready(w, a) == w.state
  {
  }

  lemma EffectKeeps(w: World, a: Action)
    requires Inv(w) && Possible(w, a) && Effect(w, a).Ok?
    ensures Keeps(Effect(w, a).value, w.issued, TokenOf(a))
  {
    ReadyIsOk(w, a);
    NoNewSession(Ready(w, a), w.issued, TokenOf(a));
    hide SessionsOk, UsersOk, Keeps, Ready, FinishLogin, BeginFederated, EndFederated, Verified, Create, Update, Delete;
    var s := Ready(w, a);
    match a
    case FinishLoginAction(op, good, locked, token, now, ttl) =>
      FinishLoginKeeps(s, w.issued, w.logins[op].candidate, w.logins[op].name, Verified(w.logins[op], good), locked, token, now, ttl);
    case BeginFederatedAction(op, input, token, now, ttl) =>
      if BeginFederated(s, input, token, now, ttl).LoggedIn? {
        BeginFederatedKeeps(s, w.issued, input, token, now, ttl);
      } else {
        StayKeeps(s, w.issued, TokenOf(a));
      }
    case EndFederatedAction(op, id, hash, token, now, ttl) =>
      EndFederatedKeeps(s, w.issued, w.provisions[op], id, hash, token, now, ttl);
    case BeginLoginAction(_, _, _, _) => StayKeeps(s, w.issued, None);
    case LookupAction(_) => StayKeeps(s, w.issued, None);
    case RestartAction => RestartKeeps(w.stored, w.issued);
    case _ =>
      ReadyStays(w, a);
      AdministrationKeeps(s, w.issued, w, a);
  }

  /** What saves nothing changes no user, except for a restart. */
  lemma UnsavedKeepsUsers(w: World, a: Action)
    requires Effect(w, a).Ok? && !Saves(w, a)
    ensures Effect(w, a).value.users == if a.RestartAction? then w.stored else w.state.users
  {
    hide BeginFederated;
  }

  lemma RestartSavesNothing(w: World, a: Action)
    ensures a.RestartAction? ==> !Saves(w, a) && Effect(w, a) == Ok(State(w.stored, map[]))
  {
  }

  lemma StepKeepsInv(w: World, a: Action, fate: Fate)
    requires Inv(w) && Possible(w, a)
    ensures Inv(Step(w, a, fate))
  {
    hide SessionsOk, UsersOk, Effect, Ready, Note, Logins, Provisions, Saves;
    ReadyIsOk(w, a);
    NoNewSession(Ready(w, a), w.issued, TokenOf(a));
    if Effect(w, a).Ok? {
      EffectKeeps(w, a);
      if !Saves(w, a) {
        UnsavedKeepsUsers(w, a);
      }
    }
    RestartSavesNothing(w, a);
  }

  ghost predicate IsRun(ws: seq<World>, actions: seq<(Action, Fate)>) {
    && |ws| == |actions| + 1 && UsersOk(ws[0].state.users) && ws[0].state.sessions == map[]
    && ws[0].logins == map[] && ws[0].provisions == map[] && ws[0].current && ws[0].stored == ws[0].state.users
    && forall i :: 0 <= i < |actions| ==> Possible(ws[i], actions[i].0) && ws[i + 1] == Step(ws[i], actions[i].0, actions[i].1)
  }

  /** In every interleaving each session names an existing active user whose role and password
      hash are those it was issued for. In memory and in the store, usernames stay distinct
      without regard to case, and no identity is bound to two users. */
  lemma {:induction false} RunsKeepInv(ws: seq<World>, actions: seq<(Action, Fate)>, i: nat)
    requires IsRun(ws, actions) && i < |ws|
    ensures Inv(ws[i])
  {
    hide Step, Possible, UsersOk;
    if i > 0 {
      RunsKeepInv(ws, actions, i - 1);
      StepKeepsInv(ws[i - 1], actions[i - 1].0, actions[i - 1].1);
    }
  }
}
