/** Project policies of src/governance.rs: how far a request may leave the machine, which
    providers it may try and in which order. */
module GovernancePolicy {
  import opened Common
  import opened Text
  import opened SchedulerCore

  datatype Classification = UnknownData | SensitiveData | InternalData | PublicData {
    predicate ForcesLocal() {
      this == UnknownData || this == SensitiveData
    }
  }

  datatype Error = NotFound | Conflict | SameApprover | Forbidden | InvalidRequest | SaveFailed

  function EgressRank(mode: HybridMode): nat {
    match mode
    case LocalStrict => 0
    case LocalFirst => 1
    case Balanced => 2
    case CloudFirst => 3
  }

  function RestrictTo(mode: HybridMode, maximum: HybridMode): Result<HybridMode, Error> {
    if EgressRank(mode) <= EgressRank(maximum) then Ok(mode) else Err(Forbidden)
  }

  predicate IdentifierChar(c: char) {
    'a' <= c <= 'z' || 'A' <= c <= 'Z' || '0' <= c <= '9' || c == '.' || c == '_' || c == ':' || c == '-'
  }

  predicate ValidIdentifier(s: string) {
    0 < |s| <= 128 && forall c :: c in s ==> IdentifierChar(c)
  }

  datatype Tenant = Tenant(organization: string, project: string, environment: string) {
    function Key(): string {
      organization + "/" + project + "/" + environment
    }

    predicate Valid() {
      ValidIdentifier(organization) && ValidIdentifier(project) && ValidIdentifier(environment)
    }
  }

  datatype Policy = Policy(tenant: Tenant, maximumMode: HybridMode, defaultClassification: Classification,
                           providers: seq<string>, models: seq<string>, regions: seq<string>,
                           apiVersions: seq<string>, cloudEnabled: bool, updatedBy: string, updatedAt: nat)

  predicate ValidList(list: seq<string>) {
    |list| <= 256 && forall i :: 0 <= i < |list| ==> !IsBlank(list[i]) && |list[i]| <= 160
  }

  /** `validate_project_policy`. */
  predicate ValidPolicy(p: Policy) {
    && p.tenant.Valid() && (!p.cloudEnabled ==> p.maximumMode == LocalStrict)
    && ValidList(p.providers) && ValidList(p.models) && ValidList(p.regions) && ValidList(p.apiVersions)
  }

  function FailClosed(tenant: Tenant): Policy {
    Policy(tenant, LocalStrict, UnknownData, [], [], ["local"], [], false, "builtin-fail-closed", 0)
  }

  /** `effective_mode`. */
  function EffectiveMode(p: Policy, requested: Option<HybridMode>, data: Classification): Result<HybridMode, Error> {
    if data.ForcesLocal() then Ok(LocalStrict)
    else RestrictTo(if requested.Some? then requested.value else p.maximumMode, p.maximumMode)
  }

  /** A mode is granted exactly if the data forces local routing or the request stays within
      the maximum, and what is granted never exceeds the maximum. */
  lemma EffectiveModeIsBounded(p: Policy, requested: Option<HybridMode>, data: Classification)
    ensures var m := EffectiveMode(p, requested, data);
            && (m.Ok? <==> data.ForcesLocal() || requested.None?
                           || EgressRank(requested.value) <= EgressRank(p.maximumMode))
            && (m.Ok? ==> EgressRank(m.value) <= EgressRank(p.maximumMode))
            && (m.Ok? && requested.Some? && !data.ForcesLocal() ==> m.value == requested.value)
  {
  }

  /** Unknown or sensitive data, or a project without cloud, is routed local-strict. */
  lemma StaysLocalStrict(p: Policy, requested: Option<HybridMode>, data: Classification)
    requires (!p.cloudEnabled ==> p.maximumMode == LocalStrict) && (data.ForcesLocal() || !p.cloudEnabled)
    ensures EffectiveMode(p, requested, data).Ok? ==> EffectiveMode(p, requested, data).value == LocalStrict
  {
  }

  // ---- Policies belong to their tenant --------------------------------------------------------------

  lemma FirstSlash(a: string, x: string, b: string, y: string)
    requires a + "/" + x == b + "/" + y && '/' !in a && '/' !in b
    ensures a == b && x == y
  {
    var s, t := a + "/" + x, b + "/" + y;
    assert s[|a|] == '/' && t[|b|] == '/';
    assert s[..|a|] == a && t[..|b|] == b;
    assert s[|a| + 1..] == x && t[|b| + 1..] == y;
  }

  lemma NoSlash(s: string)
    requires ValidIdentifier(s)
    ensures '/' !in s
  {
  }

  /** Two tenants with valid identifiers never share a policy key. */
  lemma TenantKeysAreDistinct(t: Tenant, u: Tenant)
    requires t.Valid() && u.Valid() && t.Key() == u.Key()
    ensures t == u
  {
    hide ValidIdentifier;
    NoSlash(t.organization);
    NoSlash(u.organization);
    NoSlash(t.project);
    NoSlash(u.project);
    var x, y := t.project + "/" + t.environment, u.project + "/" + u.environment;
    assert t.Key() == t.organization + "/" + x && u.Key() == u.organization + "/" + y;
    FirstSlash(t.organization, x, u.organization, y);
    FirstSlash(t.project, t.environment, u.project, u.environment);
  }

  // ---- Attempts -------------------------------------------------------------------------------------

  /** The address a host stands for, if it is one. */
  datatype Address = NoAddress | V4(a: nat, b: nat, c: nat, d: nat) | V6(segments: seq<nat>)

  /** `is_local_address`: loopback, private, link-local or unspecified. */
  predicate LocalAddress(ip: Address) {
    match ip
    case NoAddress => false
    case V4(a, b, c, d) =>
      a == 127 || a == 10 || (a == 172 && 16 <= b <= 31) || (a == 192 && b == 168) || (a == 169 && b == 254)
      || (a == 0 && b == 0 && c == 0 && d == 0)
    case V6(s) =>
      |s| == 8 && (s == [0, 0, 0, 0, 0, 0, 0, 1] || 0xFC00 <= s[0] <= 0xFDFF || 0xFE80 <= s[0] <= 0xFEBF)
  }

  predicate EndsWith(s: string, suffix: string) {
    |suffix| <= |s| && s[|s| - |suffix|..] == suffix
  }

  predicate Contains(s: string, part: string) {
    exists i :: 0 <= i <= |s| && part <= s[i..]
  }

  /** A resolved provider. Its URL is parsed by a library: `host` is empty when there is
      none, and `address` is what the host reads as. */
  datatype Attempt = Attempt(provider: string, model: string, host: string, address: Address, anthropic: bool) {
    predicate Local() {
      StartsWith(provider, "local_") || StartsWith(provider, "cpa_") || provider == "ollama"
      || Lower(host) == "localhost" || LocalAddress(address)
    }

    /** `provider_governance_metadata`. */
    function Region(): string {
      if Local() then "local"
      else if EndsWith(host, ".cn") || Contains(host, "cn-") then "cn"
      else if Contains(host, "eu-") || EndsWith(host, ".eu") then "eu"
      else if Contains(host, "us-") || EndsWith(host, ".us") then "us"
      else "global"
    }

    function ApiVersion(): string {
      if !Local() && anthropic then "anthropic-v1" else "openai-compatible-v1"
    }
  }

  /** The attempts on one side, in their order. */
  function Side(attempts: seq<Attempt>, local: bool): seq<Attempt> {
    if attempts == [] then []
    else
      var last := attempts[|attempts| - 1];
      Side(attempts[..|attempts| - 1], local) + if last.Local() == local then [last] else []
  }

  lemma SideOfNone(local: bool)
    ensures Side([], local) == []
  {
  }

  lemma SideUnfold(rest: seq<Attempt>, last: Attempt, local: bool)
    ensures Side(rest + [last], local) == if last.Local() == local then Side(rest, local) + [last] else Side(rest, local)
  {
    hide Attempt.Local;
    assert (rest + [last])[..|rest|] == rest;
    assert Side(rest, local) + [] == Side(rest, local);
  }

  lemma Chain(a: seq<Attempt>, b: seq<Attempt>, last: Attempt)
    ensures a + (b + [last]) == (a + b) + [last]
  {
  }

  lemma SplitLast(attempts: seq<Attempt>)
    requires attempts != []
    ensures attempts == attempts[..|attempts| - 1] + [attempts[|attempts| - 1]]
  {
  }

  lemma {:induction false} SideOfSum(a: seq<Attempt>, b: seq<Attempt>, local: bool)
    ensures Side(a + b, local) == Side(a, local) + Side(b, local)
    decreases |b|
  {
    hide Attempt.Local, Side;
    SideOfNone(local);
    if b == [] {
      assert a + b == a && Side(a, local) + [] == Side(a, local);
    } else {
      var rest, last := b[..|b| - 1], b[|b| - 1];
      SplitLast(b);
      SideOfSum(a, rest, local);
      Chain(a, rest, last);
      SideUnfold(a + rest, last, local);
      SideUnfold(rest, last, local);
      Chain(Side(a, local), Side(rest, local), last);
    }
  }

  predicate OnSide(attempts: seq<Attempt>, local: bool) {
    forall i :: 0 <= i < |attempts| ==> attempts[i].Local() == local
  }

  lemma OnSideLast(rest: seq<Attempt>, last: Attempt, local: bool)
    ensures OnSide(rest + [last], local) <==> OnSide(rest, local) && last.Local() == local
  {
    hide Attempt.Local;
    var all := rest + [last];
    assert all[|rest|] == last && forall i :: 0 <= i < |rest| ==> all[i] == rest[i];
  }

  lemma {:induction false} SideIsOnSide(attempts: seq<Attempt>, local: bool)
    ensures OnSide(Side(attempts, local), local)
    decreases |attempts|
  {
    hide Attempt.Local, Side;
    SideOfNone(local);
    if attempts != [] {
      var rest, last := attempts[..|attempts| - 1], attempts[|attempts| - 1];
      SplitLast(attempts);
      SideIsOnSide(rest, local);
      SideUnfold(rest, last, local);
      OnSideLast(Side(rest, local), last, local);
    }
  }

  lemma {:induction false} SideOfPure(attempts: seq<Attempt>, local: bool)
    requires OnSide(attempts, local)
    ensures Side(attempts, local) == attempts && Side(attempts, !local) == []
    decreases |attempts|
  {
    hide Attempt.Local, Side, OnSide;
    SideOfNone(local);
    SideOfNone(!local);
    if attempts != [] {
      var rest, last := attempts[..|attempts| - 1], attempts[|attempts| - 1];
      SplitLast(attempts);
      OnSideLast(rest, last, local);
      SideOfPure(rest, local);
      SideUnfold(rest, last, local);
      SideUnfold(rest, last, !local);
    }
  }

  lemma SideIsPure(attempts: seq<Attempt>, local: bool)
    ensures forall i :: 0 <= i < |Side(attempts, local)| ==> Side(attempts, local)[i].Local() == local
    ensures Side(Side(attempts, local), local) == Side(attempts, local)
    ensures Side(Side(attempts, local), !local) == []
  {
    hide Attempt.Local, Side;
    SideIsOnSide(attempts, local);
    SideOfPure(Side(attempts, local), local);
  }

  lemma SideStep(attempts: seq<Attempt>, local: bool)
    requires attempts != []
    ensures var rest, last := attempts[..|attempts| - 1], attempts[|attempts| - 1];
            multiset(Side(attempts, local))
            == if last.Local() == local then multiset(Side(rest, local)) + multiset{last} else multiset(Side(rest, local))
  {
    hide Attempt.Local, Side;
    SplitLast(attempts);
    SideUnfold(attempts[..|attempts| - 1], attempts[|attempts| - 1], local);
  }

  lemma LastOf(attempts: seq<Attempt>)
    requires attempts != []
    ensures multiset(attempts) == multiset(attempts[..|attempts| - 1]) + multiset{attempts[|attempts| - 1]}
  {
    SplitLast(attempts);
  }

  lemma Regroup(a: multiset<Attempt>, b: multiset<Attempt>, c: multiset<Attempt>)
    ensures (a + b) + c == (a + c) + b && (a + b) + c == a + (b + c)
  {
  }

  lemma {:induction false} SidesAreAll(attempts: seq<Attempt>)
    ensures multiset(attempts) == multiset(Side(attempts, true)) + multiset(Side(attempts, false))
    decreases |attempts|
  {
    hide Attempt.Local, Side;
    SideOfNone(true);
    SideOfNone(false);
    if attempts != [] {
      var rest, last := attempts[..|attempts| - 1], attempts[|attempts| - 1];
      SidesAreAll(rest);
      SideStep(attempts, true);
      SideStep(attempts, false);
      LastOf(attempts);
      Regroup(multiset(Side(rest, true)), multiset(Side(rest, false)), multiset{last});
    }
  }

  function Order(attempts: seq<Attempt>, mode: HybridMode): seq<Attempt> {
    match mode
    case LocalStrict => Side(attempts, true)
    case CloudFirst => Side(attempts, false) + Side(attempts, true)
    case _ => Side(attempts, true) + Side(attempts, false)
  }

  /** Local-strict keeps exactly the local attempts in their order. */
  lemma StrictOrderIsLocal(attempts: seq<Attempt>)
    ensures forall i :: 0 <= i < |Order(attempts, LocalStrict)| ==> Order(attempts, LocalStrict)[i].Local()
    ensures Order(attempts, LocalStrict) == Side(attempts, true)
  {
    SideIsPure(attempts, true);
  }

  /** Every other mode permutes the attempts and keeps the order within each side. */
  lemma OtherOrdersPermute(attempts: seq<Attempt>, mode: HybridMode, local: bool)
    requires mode != LocalStrict
    ensures multiset(Order(attempts, mode)) == multiset(attempts)
    ensures Side(Order(attempts, mode), local) == Side(attempts, local)
  {
    hide Side, Attempt.Local;
    var here, there := Side(attempts, true), Side(attempts, false);
    SidesAreAll(attempts);
    SideIsPure(attempts, true);
    SideIsPure(attempts, false);
    if mode == CloudFirst {
      SideOfSum(there, here, local);
      assert multiset(there + here) == multiset(attempts);
    } else {
      SideOfSum(here, there, local);
      assert multiset(here + there) == multiset(attempts);
    }
  }

  /** `order_attempts`: one pass splits the attempts, then the mode decides their order. */
  method OrderAttempts(attempts: seq<Attempt>, mode: HybridMode) returns (ordered: seq<Attempt>)
    ensures ordered == Order(attempts, mode)
  {
    hide Attempt.Local;
    var local: seq<Attempt>, cloud: seq<Attempt> := [], [];
    for i := 0 to |attempts|
      invariant local == Side(attempts[..i], true) && cloud == Side(attempts[..i], false)
    {
      assert attempts[..i + 1][..i] == attempts[..i];
      assert local + [] == local && cloud + [] == cloud;
      if attempts[i].Local() {
        local := local + [attempts[i]];
      } else {
        cloud := cloud + [attempts[i]];
      }
    }
    assert attempts[..|attempts|] == attempts;
    match mode
    case LocalStrict => ordered := local;
    case LocalFirst => ordered := local + cloud;
    case Balanced => ordered := local + cloud;
    case CloudFirst => ordered := cloud + local;
  }

  // ---- Allowlists ---------------------------------------------------------------------------------------

  predicate RuleMatches(rule: string, value: string) {
    rule == "*" || rule == value || (rule != "" && rule[|rule| - 1] == '*' && rule[..|rule| - 1] <= value)
  }

  predicate MatchesPolicy(rules: seq<string>, value: string) {
    exists i :: 0 <= i < |rules| && RuleMatches(rules[i], value)
  }

  predicate Allows(rules: seq<string>, value: string) {
    rules == [] || MatchesPolicy(rules, value)
  }

  /** `enforce_attempt`. */
  function EnforceAttempt(p: Policy, a: Attempt): Result<(), Error> {
    if !a.Local() && !p.cloudEnabled then Err(Forbidden)
    else if !Allows(p.providers, a.provider) || !Allows(p.models, a.model) then Err(Forbidden)
    else if !Allows(p.regions, a.Region()) || !Allows(p.apiVersions, a.ApiVersion()) then Err(Forbidden)
    else Ok(())
  }

  lemma FailClosedIsLocal(tenant: Tenant, a: Attempt)
    ensures EnforceAttempt(FailClosed(tenant), a).Ok? <==> a.Local()
  {
    hide Attempt.Local;
    assert RuleMatches(["local"][0], "local");
  }

  /** The attempts a request may make: those the policy lets through, in their order. */
  function Authorized(p: Policy, attempts: seq<Attempt>): seq<Attempt> {
    if attempts == [] then []
    else
      var last := attempts[|attempts| - 1];
      Authorized(p, attempts[..|attempts| - 1]) + if EnforceAttempt(p, last).Ok? then [last] else []
  }

  lemma {:induction false} AuthorizedSum(p: Policy, a: seq<Attempt>, b: seq<Attempt>)
    ensures Authorized(p, a + b) == Authorized(p, a) + Authorized(p, b)
    decreases |b|
  {
    hide EnforceAttempt;
    if b == [] {
      assert a + b == a;
    } else {
      AuthorizedSum(p, a, b[..|b| - 1]);
      assert (a + b)[..|a + b| - 1] == a + b[..|b| - 1];
    }
  }

  lemma {:induction false} AuthorizedIn(p: Policy, attempts: seq<Attempt>)
    ensures forall i :: 0 <= i < |Authorized(p, attempts)| ==>
              Authorized(p, attempts)[i] in attempts && EnforceAttempt(p, Authorized(p, attempts)[i]).Ok?
    decreases |attempts|
  {
    hide EnforceAttempt;
    if attempts != [] {
      AuthorizedIn(p, attempts[..|attempts| - 1]);
    }
  }

  lemma CloudRefused(p: Policy, a: Attempt)
    requires !p.cloudEnabled && !a.Local()
    ensures EnforceAttempt(p, a).Err?
  {
    hide Attempt.Local, Allows;
  }

  lemma {:induction false} AuthorizedNone(p: Policy, attempts: seq<Attempt>)
    requires !p.cloudEnabled && forall i :: 0 <= i < |attempts| ==> !attempts[i].Local()
    ensures Authorized(p, attempts) == []
    decreases |attempts|
  {
    hide EnforceAttempt, Attempt.Local;
    if attempts != [] {
      AuthorizedNone(p, attempts[..|attempts| - 1]);
      CloudRefused(p, attempts[|attempts| - 1]);
    }
  }

  /** Without cloud a policy lets no cloud attempt through, whatever its other fields say. */
  lemma NoCloudAuthorized(p: Policy, attempts: seq<Attempt>)
    requires !p.cloudEnabled
    ensures Authorized(p, Side(attempts, false)) == []
  {
    hide Attempt.Local, Side, Authorized;
    SideIsPure(attempts, false);
    AuthorizedNone(p, Side(attempts, false));
  }

  /** What a request tries: the mode orders the attempts, then the policy filters them. */
  function Tried(p: Policy, mode: HybridMode, attempts: seq<Attempt>): seq<Attempt> {
    Authorized(p, Order(attempts, mode))
  }

  /** Under local-strict, or without cloud, exactly the local attempts the policy allows are
      tried, in their order. No other field of the policy needs to be in order for that. */
  lemma TriesOnlyLocal(p: Policy, mode: HybridMode, attempts: seq<Attempt>)
    requires mode == LocalStrict || !p.cloudEnabled
    ensures Tried(p, mode, attempts) == Authorized(p, Side(attempts, true))
    ensures forall i :: 0 <= i < |Tried(p, mode, attempts)| ==> Tried(p, mode, attempts)[i].Local()
  {
    hide Attempt.Local, Side, Authorized, EnforceAttempt;
    var here, there := Side(attempts, true), Side(attempts, false);
    if mode != LocalStrict {
      NoCloudAuthorized(p, attempts);
      AuthorizedSum(p, here, there);
      AuthorizedSum(p, there, here);
    }
    SideIsPure(attempts, true);
    AuthorizedIn(p, here);
    forall i | 0 <= i < |Authorized(p, here)| ensures Authorized(p, here)[i].Local() {
      assert Authorized(p, here)[i] in here;
    }
  }
}
