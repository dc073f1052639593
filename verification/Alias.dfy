/**
 Model-name resolution of src/config.rs: aliases are followed to other names up to a
 fixed depth, and every other name is answered directly. `Follow` and `Answer` give the
 unbounded meaning, following aliases to the end without a depth counter.
 */
module Alias {
  import opened Common
  import opened Text

  datatype Provider = Provider(displayName: string, baseUrl: string, defaultModel: string,
                               models: seq<string>, modelPrefixes: seq<string>, passthrough: bool)

  datatype Config = Config(providers: map<string, Provider>, providerOrder: seq<string>,
                           aliases: map<string, string>, defaultProvider: string)

  datatype Resolved = Resolved(providerId: string, provider: Provider, model: string)

  datatype Error = TooDeep | ProviderNotFound(id: string)

  const MAX_DEPTH: nat := 8

  /** Position of the first colon, or the length when there is none. */
  function Colon(s: string): (i: nat)
    ensures i <= |s|
    ensures i < |s| ==> s[i] == ':'
    ensures forall j :: 0 <= j < i ==> s[j] != ':'
  {
    if s == [] || s[0] == ':' then 0 else 1 + Colon(s[1..])
  }

  predicate HasColon(s: string) {
    Colon(s) < |s|
  }

  // ---- The source's functions ------------------------------------------------------------

  function ResolveForProvider(c: Config, id: string, model: Option<string>): Result<Resolved, Error> {
    if id !in c.providers then Err(ProviderNotFound(id))
    else
      var p := c.providers[id];
      Ok(Resolved(id, p, if model.Some? && !IsBlank(model.value) then model.value else p.defaultModel))
  }

  predicate NamesProvider(c: Config, name: string) {
    HasColon(name) && name[..Colon(name)] in c.providers
  }

  datatype Test = ByModel | ByPrefix

  predicate HasPrefix(prefixes: seq<string>, name: string) {
    exists i :: 0 <= i < |prefixes| && prefixes[i] <= name
  }

  predicate Serves(c: Config, id: string, name: string, test: Test) {
    && id in c.providers
    && (if test == ByModel then name in c.providers[id].models else HasPrefix(c.providers[id].modelPrefixes, name))
  }

  /** The first configured provider of the order that serves the name. */
  function FindProvider(c: Config, order: seq<string>, name: string, test: Test): (r: Option<string>)
    ensures r.Some? ==> exists i :: 0 <= i < |order| && order[i] == r.value && Serves(c, r.value, name, test)
                                    && forall j :: 0 <= j < i ==> !Serves(c, order[j], name, test)
    ensures r.None? ==> forall j :: 0 <= j < |order| ==> !Serves(c, order[j], name, test)
  {
    if order == [] then None
    else if Serves(c, order[0], name, test) then Some(order[0])
    else
      var r := FindProvider(c, order[1..], name, test);
      assert forall i :: 0 < i < |order| ==> order[i] == order[1..][i - 1];
      r
  }

  /** A name that is no alias: a configured model, a configured prefix, or the default. */
  function ResolvePlain(c: Config, name: string): Result<Resolved, Error> {
    var exact := FindProvider(c, c.providerOrder, name, ByModel);
    if exact.Some? then Ok(Resolved(exact.value, c.providers[exact.value], name))
    else
      var prefix := FindProvider(c, c.providerOrder, name, ByPrefix);
      if prefix.Some? then Ok(Resolved(prefix.value, c.providers[prefix.value], name))
      else if c.defaultProvider !in c.providers then Err(ProviderNotFound(c.defaultProvider))
      else
        var p := c.providers[c.defaultProvider];
        Ok(Resolved(c.defaultProvider, p, if p.passthrough then name else p.defaultModel))
  }

  function ResolveInner(c: Config, name: string, depth: nat): Result<Resolved, Error>
    decreases if depth > MAX_DEPTH then 0 else MAX_DEPTH + 1 - depth, 1
  {
    if depth > MAX_DEPTH then Err(TooDeep)
    else if name == "" then ResolveForProvider(c, c.defaultProvider, None)
    else if NamesProvider(c, name) then
      ResolveForProvider(c, name[..Colon(name)], Some(Trim(name[Colon(name) + 1..])))
    else if name in c.aliases then ResolveAliasTarget(c, name, c.aliases[name], depth + 1)
    else ResolvePlain(c, name)
  }

  function Resolve(c: Config, requested: string): Result<Resolved, Error> {
    ResolveInner(c, Trim(requested), 0)
  }

  function ResolveAliasTarget(c: Config, alias: string, target: string, depth: nat): Result<Resolved, Error>
    requires 0 < depth <= MAX_DEPTH + 1
    decreases MAX_DEPTH + 2 - depth, 0
  {
    if HasColon(target) then
      var id := target[..Colon(target)];
      if id !in c.providers then Err(ProviderNotFound(id))
      else ResolveForProvider(c, id, Some(target[Colon(target) + 1..]))
    else if target in c.providers then
      var p := c.providers[target];
      Ok(Resolved(target, p, if alias in p.models then alias else p.defaultModel))
    else ResolveInner(c, target, depth)
  }

  // ---- The unbounded meaning ----------------------------------------------------------------

  /** The next name of the chain, when `name` is an alias for another name. */
  function Hop(c: Config, name: string): Option<string> {
    if name != "" && !NamesProvider(c, name) && name in c.aliases
       && !HasColon(c.aliases[name]) && c.aliases[name] !in c.providers
    then Some(c.aliases[name]) else None
  }

  /** What a name that is not an alias for another name stands for. */
  function Answer(c: Config, name: string): Result<Resolved, Error>
    requires Hop(c, name).None?
  {
    if name == "" then ResolveForProvider(c, c.defaultProvider, None)
    else if NamesProvider(c, name) then
      ResolveForProvider(c, name[..Colon(name)], Some(Trim(name[Colon(name) + 1..])))
    else if name !in c.aliases then ResolvePlain(c, name)
    else
      var target := c.aliases[name];
      if HasColon(target) then
        ResolveForProvider(c, target[..Colon(target)], Some(target[Colon(target) + 1..]))
      else
        var p := c.providers[target];
        Ok(Resolved(target, p, if name in p.models then name else p.defaultModel))
  }

  /** The name reached after `n` hops, if the chain is that long. */
  function Follow(c: Config, name: string, n: nat): Option<string>
    decreases n
  {
    if n == 0 then Some(name)
    else if Hop(c, name).None? then None
    else Follow(c, Hop(c, name).value, n - 1)
  }

  ghost predicate EndsAfter(c: Config, name: string, n: nat) {
    Follow(c, name, n).Some? && Hop(c, Follow(c, name, n).value).None?
  }

  /** Following aliases to the end, however long that takes, gives `r`. */
  ghost predicate Means(c: Config, name: string, r: Result<Resolved, Error>) {
    exists n: nat :: EndsAfter(c, name, n) && r == Answer(c, Follow(c, name, n).value)
  }

  // ---- Refinement ------------------------------------------------------------------------------

  lemma AnswerIsNeverTooDeep(c: Config, name: string)
    requires Hop(c, name).None?
    ensures Answer(c, name) != Err(TooDeep)
  {
  }

  /** One level of the source's recursion is one hop. */
  lemma OneLevel(c: Config, name: string, depth: nat)
    requires depth <= MAX_DEPTH
    ensures ResolveInner(c, name, depth) ==
              if Hop(c, name).Some? then ResolveInner(c, Hop(c, name).value, depth + 1) else Answer(c, name)
  {
  }

  lemma {:induction false} ResolvesChain(c: Config, name: string, depth: nat, n: nat)
    requires EndsAfter(c, name, n)
    ensures ResolveInner(c, name, depth) ==
              if depth + n <= MAX_DEPTH then Answer(c, Follow(c, name, n).value) else Err(TooDeep)
    decreases n
  {
    hide Colon, Hop, Answer, ResolveAliasTarget;
    if depth <= MAX_DEPTH {
      OneLevel(c, name, depth);
      if n > 0 {
        ResolvesChain(c, Hop(c, name).value, depth + 1, n - 1);
      }
    }
  }

  lemma {:induction false} LongChainIsTooDeep(c: Config, name: string, depth: nat)
    requires depth <= MAX_DEPTH + 1 && Follow(c, name, MAX_DEPTH + 1 - depth).Some?
    ensures ResolveInner(c, name, depth) == Err(TooDeep)
    decreases MAX_DEPTH + 1 - depth
  {
    hide Colon, Hop, Answer, ResolveAliasTarget;
    if depth <= MAX_DEPTH {
      OneLevel(c, name, depth);
      LongChainIsTooDeep(c, Hop(c, name).value, depth + 1);
    }
  }

  /** A chain either goes on for `n` hops or ends before that. */
  lemma {:induction false} GoesOnOrEnds(c: Config, name: string, n: nat)
    ensures Follow(c, name, n).Some? || exists k: nat :: k < n && EndsAfter(c, name, k)
    decreases n
  {
    hide Hop;
    if n > 0 {
      if Hop(c, name).None? {
        assert EndsAfter(c, name, 0);
      } else {
        var next := Hop(c, name).value;
        GoesOnOrEnds(c, next, n - 1);
        if Follow(c, next, n - 1).None? {
          var k: nat :| k < n - 1 && EndsAfter(c, next, k);
          assert Follow(c, name, k + 1) == Follow(c, next, k);
          assert EndsAfter(c, name, k + 1);
        }
      }
    }
  }

  lemma {:induction false} EndIsUnique(c: Config, name: string, j: nat, k: nat)
    requires EndsAfter(c, name, j) && EndsAfter(c, name, k)
    ensures j == k
    decreases j
  {
    hide Hop;
    if j > 0 && k > 0 {
      EndIsUnique(c, Hop(c, name).value, j - 1, k - 1);
    }
  }

  /** The main result. Resolution returns what following the aliases to the end gives when
      at most eight hops are needed, and the too-deep error in exactly the other cases. */
  lemma ResolveRefinesFollowing(c: Config, requested: string)
    ensures Resolve(c, requested) == Err(TooDeep) <==> Follow(c, Trim(requested), MAX_DEPTH + 1).Some?
    ensures Resolve(c, requested) != Err(TooDeep) ==> Means(c, Trim(requested), Resolve(c, requested))
  {
    hide Colon, Hop, Answer, ResolveAliasTarget, ResolveInner, Follow;
    var name := Trim(requested);
    GoesOnOrEnds(c, name, MAX_DEPTH + 1);
    if Follow(c, name, MAX_DEPTH + 1).Some? {
      LongChainIsTooDeep(c, name, 0);
    } else {
      var k: nat :| k < MAX_DEPTH + 1 && EndsAfter(c, name, k);
      ResolvesChain(c, name, 0, k);
      AnswerIsNeverTooDeep(c, Follow(c, name, k).value);
    }
  }

  /** A name has at most one unbounded meaning, so the refinement is exact. */
  lemma MeaningIsUnique(c: Config, name: string, r: Result<Resolved, Error>, q: Result<Resolved, Error>)
    requires Means(c, name, r) && Means(c, name, q)
    ensures r == q
  {
    hide Hop, Answer;
    var j: nat :| EndsAfter(c, name, j) && r == Answer(c, Follow(c, name, j).value);
    var k: nat :| EndsAfter(c, name, k) && q == Answer(c, Follow(c, name, k).value);
    EndIsUnique(c, name, j, k);
  }

  // ---- Cycles -------------------------------------------------------------------------------------

  lemma {:induction false} FollowSum(c: Config, name: string, i: nat, j: nat)
    requires Follow(c, name, i).Some?
    ensures Follow(c, name, i + j) == Follow(c, Follow(c, name, i).value, j)
    decreases i
  {
    hide Hop;
    if i > 0 {
      FollowSum(c, Hop(c, name).value, i - 1, j);
    }
  }

  lemma {:induction false} ShorterChain(c: Config, name: string, i: nat, n: nat)
    requires i <= n && Follow(c, name, n).Some?
    ensures Follow(c, name, i).Some?
    decreases i
  {
    hide Hop;
    if i > 0 {
      ShorterChain(c, Hop(c, name).value, i - 1, n - 1);
    }
  }

  /** A name that comes back after `p` hops can be followed for ever. */
  lemma {:induction false} CycleGoesOn(c: Config, name: string, p: nat, n: nat)
    requires p > 0 && Follow(c, name, p) == Some(name)
    ensures Follow(c, name, n).Some?
  {
    if n <= p {
      ShorterChain(c, name, n, p);
    } else {
      CycleGoesOn(c, name, p, n - p);
      FollowSum(c, name, p, n - p);
    }
  }

  /** Every chain that runs into a cycle is reported as too deep. */
  lemma CyclesAreTooDeep(c: Config, requested: string, i: nat, p: nat)
    requires p > 0 && Follow(c, Trim(requested), i).Some?
    requires Follow(c, Trim(requested), i + p) == Follow(c, Trim(requested), i)
    ensures Resolve(c, requested) == Err(TooDeep)
  {
    hide Follow, ResolveInner, Trim;
    var name := Trim(requested);
    var x := Follow(c, name, i).value;
    FollowSum(c, name, i, p);
    CycleGoesOn(c, x, p, MAX_DEPTH + 1);
    FollowSum(c, name, i, MAX_DEPTH + 1);
    ShorterChain(c, name, MAX_DEPTH + 1, i + MAX_DEPTH + 1);
    LongChainIsTooDeep(c, name, 0);
  }

  /** The chain comes back to a name it has already visited. */
  ghost predicate Repeats(c: Config, name: string, i: nat, j: nat) {
    i < j && Follow(c, name, i).Some? && Follow(c, name, i) == Follow(c, name, j)
  }

  ghost function Visited(c: Config, name: string, n: nat): set<string> {
    if n == 0 then {}
    else
      var rest := Visited(c, name, n - 1);
      if Follow(c, name, n - 1).Some? then rest + {Follow(c, name, n - 1).value} else rest
  }

  lemma {:induction false} VisitedIs(c: Config, name: string, n: nat, x: string)
    requires x in Visited(c, name, n)
    ensures exists i: nat :: i < n && Follow(c, name, i) == Some(x)
  {
    hide Follow;
    if x in Visited(c, name, n - 1) {
      VisitedIs(c, name, n - 1, x);
    }
  }

  lemma LastIsAlias(c: Config, name: string, n: nat)
    requires n > 0 && Follow(c, name, n).Some? && Follow(c, name, n - 1).Some?
    ensures Follow(c, name, n - 1).value in c.aliases
  {
    FollowSum(c, name, n - 1, 1);
    assert Follow(c, Follow(c, name, n - 1).value, 1).Some?;
  }

  /** A chain of `n` hops either repeats a name or visits `n` different aliases. */
  lemma {:induction false} RepeatsOrVisits(c: Config, name: string, n: nat)
    requires Follow(c, name, n).Some?
    ensures (exists i: nat, j: nat :: j < n && Repeats(c, name, i, j)) ||
            (|Visited(c, name, n)| == n && Visited(c, name, n) <= c.aliases.Keys)
  {
    hide Follow, Hop;
    if n > 0 {
      ShorterChain(c, name, n - 1, n);
      RepeatsOrVisits(c, name, n - 1);
      var x := Follow(c, name, n - 1).value;
      if x in Visited(c, name, n - 1) {
        VisitedIs(c, name, n - 1, x);
        var i: nat :| i < n - 1 && Follow(c, name, i) == Some(x);
        assert Repeats(c, name, i, n - 1);
      }
      LastIsAlias(c, name, n);
    }
  }

  /** With at most eight aliases the too-deep error means exactly that the chain is a cycle:
      the depth bound then rejects nothing that could have been resolved. */
  lemma FewAliasesTooDeepIffCycle(c: Config, requested: string)
    requires |c.aliases| <= MAX_DEPTH
    ensures Resolve(c, requested) == Err(TooDeep) <==>
              exists i: nat, j: nat :: Repeats(c, Trim(requested), i, j)
  {
    hide Follow, ResolveInner, Trim, Visited;
    var name := Trim(requested);
    ResolveRefinesFollowing(c, requested);
    if Follow(c, name, MAX_DEPTH + 1).Some? {
      RepeatsOrVisits(c, name, MAX_DEPTH + 1);
      if Visited(c, name, MAX_DEPTH + 1) <= c.aliases.Keys {
        SubsetSize(Visited(c, name, MAX_DEPTH + 1), c.aliases.Keys);
      }
    }
    if i: nat, j: nat :| Repeats(c, name, i, j) {
      CyclesAreTooDeep(c, requested, i, j - i);
    }
  }

  // ---- Results -------------------------------------------------------------------------------------

  /** Every success names a configured provider and carries that provider's own record. */
  lemma SuccessIsConfigured(c: Config, requested: string)
    ensures var r := Resolve(c, requested);
            r.Ok? ==> r.value.providerId in c.providers && r.value.provider == c.providers[r.value.providerId]
  {
    hide Colon, Trim, IsBlank, ResolveInner, Follow;
    ResolveRefinesFollowing(c, requested);
  }
}
