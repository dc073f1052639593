/**
 Users, sessions and federated identities of src/auth.rs, as functions from one state to
 the next. User ids, session tokens and password hashes are numbers drawn fresh; inputs are
 taken after their syntactic validation, so an invalid email or username is None.
 */
module Auth {
  import opened Common
  import opened Ordered
  import opened Text

  datatype Role = Admin | Member | Viewer

  datatype Status = Active | Disabled | Suspended

  datatype Identity = Identity(issuer: string, subject: string)

  datatype User = User(id: nat, username: string, email: string, role: Role, status: Status, hash: nat,
                       createdAt: nat, updatedAt: nat, lastLoginAt: Option<nat>, identities: seq<Identity>)

  datatype Session = Session(user: nat, expiresAt: nat)

  type Users = map<nat, User>

  datatype State = State(users: Users, sessions: map<nat, Session>)

  datatype Error = Unauthorized | NotFound | Forbidden | NameTaken | DuplicateBinding | UserMissing | SaveFailed

  // ---- Text without regard to ASCII case ---------------------------------------------------------

  predicate SameText(a: string, b: string) {
    Lower(a) == Lower(b)
  }

  // ---- Sessions ----------------------------------------------------------------------------------

  function Prune(s: State, now: nat): State {
    s.(sessions := map t | t in s.sessions && s.sessions[t].expiresAt > now :: s.sessions[t])
  }

  function Expiry(now: nat, ttlSeconds: nat): nat {
    var ttl := if ttlSeconds * 1000 > U64_MAX then U64_MAX else ttlSeconds * 1000;
    if now + ttl > U64_MAX then U64_MAX else now + ttl
  }

  /** Log a user in: stamp the record and store a session. */
  function Issue(s: State, id: nat, token: nat, now: nat, ttlSeconds: nat): State
    requires id in s.users
  {
    State(s.users[id := s.users[id].(lastLoginAt := Some(now), updatedAt := now)],
          s.sessions[token := Session(id, Expiry(now, ttlSeconds))])
  }

  function ClearSessions(sessions: map<nat, Session>, id: nat): map<nat, Session> {
    map t | t in sessions && sessions[t].user != id :: sessions[t]
  }

  /** `require_session`. */
  function RequireSession(s: State, token: nat, now: nat): Result<User, Error> {
    if token !in s.sessions || s.sessions[token].expiresAt <= now then Err(Unauthorized)
    else if s.sessions[token].user !in s.users then Err(Unauthorized)
    else if s.users[s.sessions[token].user].status != Active then Err(Unauthorized)
    else Ok(s.users[s.sessions[token].user])
  }

  // ---- Password login -----------------------------------------------------------------------------

  function Named(users: Users, name: string): set<nat> {
    set k | k in users && SameText(users[k].username, name)
  }

  /** The record a login is checked against, as it was when the login began. */
  datatype Snapshot = Snapshot(id: nat, user: User)

  function Candidate(users: Users, name: string): Option<Snapshot> {
    var id := First(Named(users, name));
    if id.Some? then Some(Snapshot(id.value, users[id.value])) else None
  }

  /** The candidate is still the user that logs in. */
  predicate IsCurrent(users: Users, c: Snapshot, name: string) {
    && c.id in users && users[c.id].status == Active && SameText(users[c.id].username, name)
    && users[c.id].hash == c.user.hash
  }

  function FinishLogin(s: State, c: Option<Snapshot>, name: string, verified: bool, locked: bool, token: nat, now: nat,
                       ttlSeconds: nat): Result<State, Error>
  {
    if c.None? || !verified || !IsCurrent(s.users, c.value, name) || locked then Err(Unauthorized)
    else Ok(Issue(s, c.value.id, token, now, ttlSeconds))
  }

  // ---- Federated login --------------------------------------------------------------------------------

  function BoundTo(users: Users, identity: Identity): set<nat> {
    set k | k in users && identity in users[k].identities
  }

  /** `bound_user_id`. */
  function Bound(users: Users, identity: Identity): Result<Option<nat>, Error> {
    if |BoundTo(users, identity)| > 1 then Err(DuplicateBinding) else Ok(First(BoundTo(users, identity)))
  }

  function Mailed(users: Users, email: string): set<nat> {
    set k | k in users && SameText(users[k].email, email)
  }

  lemma MailedAreUsers(users: Users, email: string)
    ensures Mailed(users, email) <= users.Keys
  {
  }

  datatype FederatedInput = FederatedInput(identity: Identity, username: Option<string>, email: Option<string>,
                                           emailVerified: bool, autoProvision: bool)

  /** A user to be created in the second half of a federated login. */
  datatype Provision = Provision(identity: Identity, username: string, email: string)

  datatype Begun = LoggedIn(state: State) | Refused(error: Error) | MustProvision(provision: Provision)

  function FinishFederated(s: State, id: nat, token: nat, now: nat, ttlSeconds: nat): Result<State, Error> {
    if id !in s.users then Err(UserMissing)
    else if s.users[id].status != Active then Err(Unauthorized)
    else Ok(Issue(s, id, token, now, ttlSeconds))
  }

  function AsBegun(r: Result<State, Error>): Begun {
    if r.Ok? then LoggedIn(r.value) else Refused(r.error)
  }

  function Bind(s: State, id: nat, identity: Identity): State
    requires id in s.users
  {
    s.(users := s.users[id := s.users[id].(identities := s.users[id].identities + [identity])])
  }

  predicate Taken(users: Users, username: string, email: string) {
    exists k :: k in users && (SameText(users[k].username, username) || SameText(users[k].email, email))
  }

  /** The first lock section of `login_federated`. */
  function BeginFederated(s: State, input: FederatedInput, token: nat, now: nat, ttlSeconds: nat): Begun {
    var bound := Bound(s.users, input.identity);
    if bound.Err? then Refused(bound.error)
    else if bound.value.Some? then AsBegun(FinishFederated(s, bound.value.value, token, now, ttlSeconds))
    else if !input.emailVerified || input.email.None? then Refused(Unauthorized)
    else
      var mailed := Mailed(s.users, input.email.value);
      if |mailed| > 1 then Refused(Unauthorized)
      else if mailed != {} then
        var id := Minimum(mailed);
        if s.users[id].role == Admin || s.users[id].status != Active || s.users[id].identities != [] then
          Refused(Unauthorized)
        else AsBegun(FinishFederated(Bind(s, id, input.identity), id, token, now, ttlSeconds))
      else if !input.autoProvision || input.username.None? then Refused(Unauthorized)
      else if Taken(s.users, input.username.value, input.email.value) then Refused(Unauthorized)
      else MustProvision(Provision(input.identity, input.username.value, input.email.value))
  }

  function Provisioned(p: Provision, id: nat, hash: nat, now: nat): User {
    User(id, p.username, p.email, Member, Active, hash, now, now, None, [p.identity])
  }

  /** The second lock section, after the password was hashed without the lock. */
  function EndFederated(s: State, p: Provision, id: nat, hash: nat, token: nat, now: nat, ttlSeconds: nat): Result<State, Error> {
    var bound := Bound(s.users, p.identity);
    if bound.Err? then Err(bound.error)
    else if bound.value.Some? then FinishFederated(s, bound.value.value, token, now, ttlSeconds)
    else if Taken(s.users, p.username, p.email) then Err(Unauthorized)
    else FinishFederated(s.(users := s.users[id := Provisioned(p, id, hash, now)]), id, token, now, ttlSeconds)
  }

  // ---- Administration ---------------------------------------------------------------------------------------

  function Create(s: State, user: User): Result<State, Error> {
    if Named(s.users, user.username) != {} then Err(NameTaken)
    else Ok(s.(users := s.users[user.id := user]))
  }

  datatype UpdateInput = UpdateInput(email: Option<string>, hash: Option<nat>, role: Option<Role>, status: Option<Status>)

  function ActiveAdmins(users: Users): set<nat> {
    set k | k in users && users[k].role == Admin && users[k].status == Active
  }

  function Updated(u: User, input: UpdateInput, now: nat): User {
    u.(email := if input.email.Some? then input.email.value else u.email,
       role := if input.role.Some? then input.role.value else u.role,
       status := if input.status.Some? then input.status.value else u.status,
       hash := if input.hash.Some? then input.hash.value else u.hash,
       updatedAt := now)
  }

  function Update(s: State, id: nat, current: nat, input: UpdateInput, now: nat): Result<State, Error> {
    if id !in s.users then Err(NotFound)
    else
      var u, next := s.users[id], Updated(s.users[id], input, now);
      if id == current && ((input.role.Some? && input.role.value != Admin) || (input.status.Some? && input.status.value != Active))
      then Err(Forbidden)
      else if ActiveAdmins(s.users[id := next]) == {} then Err(Forbidden)
      else
        var clear := input.hash.Some? || next.status != Active || next.role != u.role;
        Ok(State(s.users[id := next], if clear then ClearSessions(s.sessions, id) else s.sessions))
  }

  function Delete(s: State, id: nat, current: nat): Result<State, Error> {
    if id == current then Err(Forbidden)
    else if id !in s.users then Ok(s)
    else if s.users[id].role == Admin && |ActiveAdmins(s.users)| <= 1 then Err(Forbidden)
    else Ok(State(s.users - {id}, ClearSessions(s.sessions, id)))
  }
}
