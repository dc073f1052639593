/** When repair is stable, what it does to legacy chains, and what it does to reachable states. */
module ApiKeyRepairTheorems {
  import opened Common
  import opened ApiKeys
  import opened ApiKeyLineage
  import opened ApiKeyRepair

  // ---- Repairing twice ---------------------------------------------------------------------------------

  /** A prepared record that repair turns into a tombstone. */
  predicate Touched(rs: seq<Key>, r: Key) {
    r.status == Pending && Successor(rs, r).Some?
  }

  /** Every prepared record that becomes a tombstone is no later than a confirmed sibling. */
  ghost predicate Settled(rs: seq<Key>) {
    forall i :: 0 <= i < |rs| && Touched(rs, rs[i]) && rs[i].rotationFrom.Some? ==>
      var w := Winner(rs, rs[i].rotationFrom.value);
      w.Some? && AtMost(StampOf(rs[i]), w.value)
  }

  lemma MarkLinks(rs: seq<Key>, ps: Parents, r: Key)
    ensures var q := Mark(rs, Fix(ps, r));
            && q.id == r.id && q.rotationFrom == r.rotationFrom && q.createdAt == r.createdAt
            && q.status == (if Successor(rs, r).Some? then Revoked else r.status)
            && q.hash == (if Successor(rs, r).Some? then None else r.hash)
            && q.supersededBy == (if Successor(rs, r).Some? then Successor(rs, r) else r.supersededBy)
  {
  }

  lemma FixIsStable(rs: seq<Key>, ps: Parents, r: Key, ps': Parents)
    ensures var q := Mark(rs, Fix(ps, r)); Fix(ps', q) == q
  {
  }

  lemma RepairOf(rs: seq<Key>, i: nat)
    requires DistinctIds(rs) && i < |rs|
    ensures |Repair(rs)| == |rs|
    ensures var q := Repair(rs)[i];
            && q.id == rs[i].id && q.rotationFrom == rs[i].rotationFrom && q.createdAt == rs[i].createdAt
            && q.status == (if Successor(rs, rs[i]).Some? then Revoked else rs[i].status)
            && q.hash == (if Successor(rs, rs[i]).Some? then None else rs[i].hash)
            && q.supersededBy == (if Successor(rs, rs[i]).Some? then Successor(rs, rs[i]) else rs[i].supersededBy)
  {
    hide Repair, Mark, Fix, Successor;
    RepairKeepsRecords(rs);
    MarkLinks(rs, ParentsOf(rs), rs[i]);
  }

  lemma RepairIsDistinct(rs: seq<Key>)
    requires DistinctIds(rs)
    ensures |Repair(rs)| == |rs| && DistinctIds(Repair(rs))
  {
    hide Repair, Successor;
    RepairKeepsRecords(rs);
    forall i | 0 <= i < |rs| ensures Repair(rs)[i].id == rs[i].id {
      RepairOf(rs, i);
    }
  }

  /** The second repair changes exactly what the winners among the repaired records demand. */
  lemma SecondRepair(rs: seq<Key>, i: nat)
    requires DistinctIds(rs) && i < |rs|
    ensures |Repair(rs)| == |rs| && |Repair(Repair(rs))| == |rs|
    ensures Repair(Repair(rs))[i] == Mark(Repair(rs), Repair(rs)[i])
  {
    hide Repair, Mark, Fix;
    var once := Repair(rs);
    RepairKeepsRecords(rs);
    RepairIsDistinct(rs);
    RepairKeepsRecords(once);
    FixIsStable(rs, ParentsOf(rs), rs[i], ParentsOf(once));
  }

  lemma SettledWinners(rs: seq<Key>, s: nat)
    requires DistinctIds(rs) && Settled(rs)
    ensures Winner(Repair(rs), s) == Winner(rs, s)
  {
    hide Repair, Winner, Successor;
    var once := Repair(rs);
    RepairKeepsRecords(rs);
    forall i | 0 <= i < |rs| && ChildOf(once[i], s)
      ensures Winner(rs, s).Some? && AtMost(StampOf(once[i]), Winner(rs, s).value)
    {
      RepairOf(rs, i);
      assert ChildOf(rs[i], s) || Touched(rs, rs[i]);
    }
    if Winner(rs, s).Some? {
      var w := Winner(rs, s).value;
      var j :| 0 <= j < |rs| && ChildOf(rs[j], s) && StampOf(rs[j]) == w;
      RepairOf(rs, j);
      assert ChildOf(once[j], s) && StampOf(once[j]) == w;
      WinnerIs(once, s, w);
    }
  }

  /** Repair is idempotent on settled files. */
  lemma SettledIsStable(rs: seq<Key>)
    requires DistinctIds(rs) && Settled(rs)
    ensures Repair(Repair(rs)) == Repair(rs)
  {
    hide Repair, Winner, Settled;
    var once := Repair(rs);
    RepairIsDistinct(rs);
    RepairKeepsRecords(once);
    forall i | 0 <= i < |rs| ensures Repair(once)[i] == once[i] {
      SecondRepair(rs, i);
      RepairOf(rs, i);
      SettledWinners(rs, rs[i].id);
      if rs[i].rotationFrom.Some? {
        SettledWinners(rs, rs[i].rotationFrom.value);
      }
    }
  }

  /** In particular when no prepared record has a confirmed child or a confirmed sibling. */
  lemma UntouchedIsStable(rs: seq<Key>)
    requires DistinctIds(rs)
    requires forall i :: 0 <= i < |rs| && rs[i].status == Pending ==>
               && Winner(rs, rs[i].id).None?
               && (rs[i].rotationFrom.Some? ==> Winner(rs, rs[i].rotationFrom.value).None?)
    ensures Repair(Repair(rs)) == Repair(rs)
  {
    hide Winner, Repair;
    SettledIsStable(rs);
  }

  // ---- Exactly when --------------------------------------------------------------------------------------

  /** The file with the prepared records that repair retires counted as confirmed. */
  function Retired(rs: seq<Key>): (q: seq<Key>)
    ensures |q| == |rs|
    ensures forall i :: 0 <= i < |rs| ==> q[i] == if Touched(rs, rs[i]) then rs[i].(status := Revoked) else rs[i]
  {
    seq(|rs|, i requires 0 <= i < |rs| => if Touched(rs, rs[i]) then rs[i].(status := Revoked) else rs[i])
  }

  /** Counting the retired records too gives the record no other successor than it has. */
  predicate KeepsSuccessor(rs: seq<Key>, r: Key) {
    var next := Successor(Retired(rs), r);
    || next.None? || next == Successor(rs, r)
    || (Successor(rs, r).None? && r.status == Revoked && r.hash.None? && r.supersededBy == next)
  }

  /** Winners depend only on who is whose child, and when it was created. */
  lemma SameChildren(a: seq<Key>, b: seq<Key>, s: nat)
    requires |a| == |b|
    requires forall i :: 0 <= i < |a| ==> StampOf(a[i]) == StampOf(b[i]) && (ChildOf(a[i], s) <==> ChildOf(b[i], s))
    ensures Winner(a, s) == Winner(b, s)
  {
    hide Winner, StampOf, ChildOf, AtMost;
    if Winner(a, s).Some? {
      var w := Winner(a, s).value;
      var i :| 0 <= i < |a| && ChildOf(a[i], s) && StampOf(a[i]) == w;
      assert ChildOf(b[i], s) && StampOf(b[i]) == w;
      WinnerIs(b, s, w);
    }
  }

  lemma RetiredWinners(rs: seq<Key>, s: nat)
    requires DistinctIds(rs)
    ensures Winner(Repair(rs), s) == Winner(Retired(rs), s)
  {
    hide Repair, Winner, Successor, Retired;
    RepairIsDistinct(rs);
    forall i | 0 <= i < |rs|
      ensures StampOf(Repair(rs)[i]) == StampOf(Retired(rs)[i])
      ensures ChildOf(Repair(rs)[i], s) <==> ChildOf(Retired(rs)[i], s)
    {
      RepairOf(rs, i);
    }
    SameChildren(Repair(rs), Retired(rs), s);
  }

  lemma SecondSuccessor(rs: seq<Key>, i: nat)
    requires DistinctIds(rs) && i < |rs|
    ensures |Repair(rs)| == |rs| && Successor(Repair(rs), Repair(rs)[i]) == Successor(Retired(rs), rs[i])
  {
    hide Repair, Winner, Retired;
    RepairOf(rs, i);
    RetiredWinners(rs, rs[i].id);
    if rs[i].rotationFrom.Some? {
      RetiredWinners(rs, rs[i].rotationFrom.value);
    }
  }

  lemma RecordIsStableIff(rs: seq<Key>, i: nat)
    requires DistinctIds(rs) && i < |rs|
    ensures |Repair(rs)| == |rs| && |Repair(Repair(rs))| == |rs|
    ensures Repair(Repair(rs))[i] == Repair(rs)[i] <==> KeepsSuccessor(rs, rs[i])
  {
    hide Repair, Successor, Retired;
    SecondRepair(rs, i);
    RepairOf(rs, i);
    SecondSuccessor(rs, i);
  }

  /** Repair is idempotent on a file exactly if it gives no record another successor when the
      prepared records it retires are counted as confirmed. */
  lemma StableIff(rs: seq<Key>)
    requires DistinctIds(rs)
    ensures Repair(Repair(rs)) == Repair(rs) <==> forall i :: 0 <= i < |rs| ==> KeepsSuccessor(rs, rs[i])
  {
    hide Repair, KeepsSuccessor;
    RepairIsDistinct(rs);
    RepairIsDistinct(Repair(rs));
    forall i | 0 <= i < |rs|
      ensures |Repair(rs)| == |rs| && |Repair(Repair(rs))| == |rs|
      ensures Repair(Repair(rs))[i] == Repair(rs)[i] <==> KeepsSuccessor(rs, rs[i])
    {
      RecordIsStableIff(rs, i);
    }
  }

  /** Sources are in the file, and only a source with a confirmed child is superseded. */
  ghost predicate WellLinked(rs: seq<Key>) {
    && (forall i :: 0 <= i < |rs| && rs[i].rotationFrom.Some? ==>
          exists j :: 0 <= j < |rs| && rs[j].id == rs[i].rotationFrom.value)
    && (forall i :: 0 <= i < |rs| && rs[i].supersededBy.Some? ==> Winner(rs, rs[i].id).Some?)
  }

  /** A winner among the repaired records is some record of the source. */
  lemma WinnerOfRepaired(rs: seq<Key>, s: nat, x: Stamp)
    requires DistinctIds(rs) && Winner(Repair(rs), s) == Some(x)
    ensures exists k :: 0 <= k < |rs| && rs[k].rotationFrom == Some(s) && StampOf(rs[k]) == x
  {
    hide Repair, Winner, Successor;
    var once := Repair(rs);
    RepairIsDistinct(rs);
    var k :| 0 <= k < |once| && ChildOf(once[k], s) && StampOf(once[k]) == x;
    RepairOf(rs, k);
    assert rs[k].rotationFrom == Some(s) && StampOf(rs[k]) == x;
  }

  lemma SourceChangesHands(rs: seq<Key>, i: nat, j: nat, x: Stamp)
    requires DistinctIds(rs) && WellLinked(rs) && i < |rs| && j < |rs| && rs[i].rotationFrom == Some(rs[j].id)
    requires var w := Winner(rs, rs[j].id); w.None? || !AtMost(StampOf(rs[i]), w.value)
    requires AtMost(StampOf(rs[i]), x)
    requires exists k :: 0 <= k < |rs| && rs[k].rotationFrom == Some(rs[j].id) && StampOf(rs[k]) == x
    ensures (if Successor(rs, rs[j]).Some? then Successor(rs, rs[j]) else rs[j].supersededBy) != Some(x.1)
  {
  }

  lemma ChildSucceeds(rs: seq<Key>, r: Key)
    requires Winner(rs, r.id).Some?
    ensures Mark(rs, r).supersededBy == Some(Winner(rs, r.id).value.1)
  {
  }

  /** A prepared record that beats its confirmed siblings becomes the winner of its source
      in the second repair, and the source changes hands. */
  lemma UnsettledChanges(rs: seq<Key>, i: nat)
    requires DistinctIds(rs) && WellLinked(rs) && i < |rs| && Touched(rs, rs[i]) && rs[i].rotationFrom.Some?
    requires var w := Winner(rs, rs[i].rotationFrom.value); w.None? || !AtMost(StampOf(rs[i]), w.value)
    ensures Repair(Repair(rs)) != Repair(rs)
  {
    hide Repair, Winner, Successor;
    var s := rs[i].rotationFrom.value;
    var once := Repair(rs);
    RepairIsDistinct(rs);
    RepairOf(rs, i);
    assert ChildOf(once[i], s) && StampOf(once[i]) == StampOf(rs[i]);
    var x := Winner(once, s).value;
    var j :| 0 <= j < |rs| && rs[j].id == s;
    RepairOf(rs, j);
    SecondRepair(rs, j);
    WinnerOfRepaired(rs, s, x);
    SourceChangesHands(rs, i, j, x);
    ChildSucceeds(once, once[j]);
  }

  /** On well-linked files, repair is idempotent exactly on the settled ones. */
  lemma StableIffSettled(rs: seq<Key>)
    requires DistinctIds(rs) && WellLinked(rs)
    ensures Repair(Repair(rs)) == Repair(rs) <==> Settled(rs)
  {
    hide Repair, WellLinked, Touched, Winner;
    if Settled(rs) {
      SettledIsStable(rs);
    } else {
      var i :| 0 <= i < |rs| && Touched(rs, rs[i]) && rs[i].rotationFrom.Some?
               && !(var w := Winner(rs, rs[i].rotationFrom.value); w.Some? && AtMost(StampOf(rs[i]), w.value));
      UnsettledChanges(rs, i);
    }
  }

  /** A file whose first repair keeps the confirmed replacement 1 alive, and whose second
      repair hands over to the later prepared key 2, which has no secret any more. */
  lemma SecondRepairCanKill()
    ensures exists rs :: DistinctIds(rs) && WellLinked(rs) && !Settled(rs)
                         && |Repair(rs)| == 3 && Repair(rs)[1].status == Active && Repair(rs)[1].hash == Some(7)
                         && |Repair(Repair(rs))| == 3 && Repair(Repair(rs))[1].hash == None
  {
    hide Repair, Winner, Fix;
    var k0 := Key(0, "u", UserPrincipal, None, 0, None, Revoked, None, Some(1), Some(Pseudonym(KeySeed(0))), {}, NO_LIMITS, "", "");
    var k1 := k0.(id := 1, hash := Some(7), createdAt := 1, status := Active, rotationFrom := Some(0), supersededBy := None);
    var k2 := k1.(id := 2, hash := Some(8), createdAt := 2, status := Pending);
    var rs := [k0, k1, k2];
    assert IsWinner(rs, 0, (1, 1)) by { assert ChildOf(rs[1], 0) && StampOf(rs[1]) == (1, 1); }
    WinnerIs(rs, 0, (1, 1));
    assert Winner(rs, 1).None? && Winner(rs, 2).None? by {
      if Winner(rs, 1).Some? { assert false; }
      if Winner(rs, 2).Some? { assert false; }
    }
    assert Touched(rs, rs[2]);
    RepairOf(rs, 0);
    RepairOf(rs, 1);
    RepairOf(rs, 2);
    var once := Repair(rs);
    assert once == [once[0], once[1], once[2]];
    assert IsWinner(once, 0, (2, 2)) by { assert ChildOf(once[2], 0) && StampOf(once[2]) == (2, 2); }
    WinnerIs(once, 0, (2, 2));
    RepairIsDistinct(rs);
    RepairOf(once, 1);
    assert WellLinked(rs) by { assert rs[0].id == 0; }
  }

  // ---- Legacy chains -----------------------------------------------------------------------------------

  /** A rank that falls along every link: the parent map has no cycle. */
  ghost predicate Ranked(ps: Parents, rank: map<nat, nat>) {
    forall k :: k in ps && ps[k].Some? && ps[k].value in ps ==>
      k in rank && ps[k].value in rank && rank[ps[k].value] < rank[k]
  }

  /** Where the links of an acyclic map lead. */
  ghost function Root(ps: Parents, rank: map<nat, nat>, k: nat): nat
    requires Ranked(ps, rank)
    decreases if k in rank then rank[k] else 0
  {
    if k in ps && ps[k].Some? && ps[k].value in ps then Root(ps, rank, ps[k].value) else k
  }

  /** Climbing an acyclic map ends at the root, whatever was met before. */
  lemma {:induction false} ClimbFindsRoot(ps: Parents, rank: map<nat, nat>, k: nat, chain: set<nat>)
    requires Ranked(ps, rank) && k in chain && k in ps
    requires forall x :: x in chain && x in rank && k in rank ==> rank[k] <= rank[x]
    requires forall x :: x in chain && x != k ==> x in rank
    ensures Climb(ps, k, chain).0 == Root(ps, rank, k)
    ensures chain <= Climb(ps, k, chain).1
    ensures ps[k].Some? ==> ps[k].value in Climb(ps, k, chain).1
    decreases ps.Keys - chain
  {
    if ps[k].Some? && ps[k].value in ps {
      var p := ps[k].value;
      assert p !in chain;
      assert p in ps.Keys - chain && p !in ps.Keys - (chain + {p});
      ClimbFindsRoot(ps, rank, p, chain + {p});
    }
  }

  lemma {:induction false} ParentAt(rs: seq<Key>, i: nat)
    requires DistinctIds(rs) && i < |rs|
    ensures rs[i].id in ParentsOf(rs) && ParentsOf(rs)[rs[i].id] == rs[i].rotationFrom
    decreases |rs|
  {
    if i < |rs| - 1 {
      ParentAt(rs[..|rs| - 1], i);
    }
  }

  lemma LegacySubject(rs: seq<Key>, rank: map<nat, nat>, i: nat)
    requires DistinctIds(rs) && Ranked(ParentsOf(rs), rank) && i < |rs| && rs[i].subject.None?
    ensures Mark(rs, Fix(ParentsOf(rs), rs[i])).Subject() == Pseudonym(KeySeed(Root(ParentsOf(rs), rank, rs[i].id)))
  {
    hide Winner, Climb, Root, Ranked, NamesOf;
    ParentAt(rs, i);
    ClimbFindsRoot(ParentsOf(rs), rank, rs[i].id, {rs[i].id});
  }

  lemma RootOfChild(ps: Parents, rank: map<nat, nat>, k: nat)
    requires Ranked(ps, rank) && k in ps && ps[k].Some? && ps[k].value in ps
    ensures Root(ps, rank, k) == Root(ps, rank, ps[k].value)
  {
  }

  /** On an acyclic file without subjects, every record gets the pseudonym of the root of its
      chain. Two records share a subject exactly if they share the root, and a key shares it
      with the key it replaces. */
  lemma LegacyChainsShareSubject(rs: seq<Key>, rank: map<nat, nat>, i: nat, j: nat)
    requires DistinctIds(rs) && Ranked(ParentsOf(rs), rank)
    requires forall k :: 0 <= k < |rs| ==> rs[k].subject.None?
    requires i < |rs| && j < |rs|
    ensures |Repair(rs)| == |rs|
    ensures Repair(rs)[i].Subject() == Pseudonym(KeySeed(Root(ParentsOf(rs), rank, rs[i].id)))
    ensures Repair(rs)[i].Subject() == Repair(rs)[j].Subject() <==>
              Root(ParentsOf(rs), rank, rs[i].id) == Root(ParentsOf(rs), rank, rs[j].id)
    ensures rs[i].rotationFrom == Some(rs[j].id) ==> Repair(rs)[i].Subject() == Repair(rs)[j].Subject()
  {
    hide Repair, Climb, Root, Ranked;
    RepairKeepsRecords(rs);
    LegacySubject(rs, rank, i);
    LegacySubject(rs, rank, j);
    ParentAt(rs, i);
    ParentAt(rs, j);
    if rs[i].rotationFrom == Some(rs[j].id) {
      RootOfChild(ParentsOf(rs), rank, rs[i].id);
    }
  }

  // ---- Reachable states ----------------------------------------------------------------------------------

  /** The records of a key map, in some order. */
  ghost predicate Lists(rs: seq<Key>, keys: Keys) {
    && (forall i :: 0 <= i < |rs| ==> rs[i].id in keys && keys[rs[i].id] == rs[i])
    && DistinctIds(rs)
  }

  /** A record of a reachable state is marked only if it is a tombstone already. */
  lemma OnlyTombstonesAreMarked(births: map<nat, nat>, drawn: set<nat>, keys: Keys, rs: seq<Key>, i: nat)
    requires Inv(births, drawn, keys) && Lists(rs, keys) && i < |rs| && Successor(rs, rs[i]).Some?
    ensures rs[i].supersededBy == Successor(rs, rs[i]) && rs[i].status != Active && rs[i].status != Pending
    ensures rs[i].hash.None?
  {
  }

  lemma FixedQuota(rs: seq<Key>, ps: Parents, r: Key)
    requires r.subject.Some?
    ensures var q := Mark(rs, Fix(ps, r));
            q.Subject() == r.Subject() && q.Aliases() == r.Aliases() && q.limits == r.limits
  {
  }

  /** Repair of a reachable state: every secret, successor, subject and alias set stays, and
      exactly the active keys are active. */
  lemma RepairKeepsReachable(births: map<nat, nat>, drawn: set<nat>, keys: Keys, rs: seq<Key>, i: nat)
    requires Inv(births, drawn, keys) && Lists(rs, keys) && i < |rs|
    ensures |Repair(rs)| == |rs|
    ensures var q := Repair(rs)[i];
            && q.id == rs[i].id && q.hash == rs[i].hash && (q.status == Active <==> rs[i].status == Active)
            && (q.status == Pending <==> rs[i].status == Pending) && q.supersededBy == rs[i].supersededBy
            && q.Subject() == rs[i].Subject() && q.Aliases() == rs[i].Aliases() && q.limits == rs[i].limits
  {
    hide Repair, Successor, AllLinked, OneChild, Secrets;
    RepairKeepsRecords(rs);
    RepairOf(rs, i);
    SoundAt(keys, rs[i].id);
    FixedQuota(rs, ParentsOf(rs), rs[i]);
    if Successor(rs, rs[i]).Some? {
      OnlyTombstonesAreMarked(births, drawn, keys, rs, i);
    }
  }

  lemma ListsDistinct(rs: seq<Key>, keys: Keys)
    requires Lists(rs, keys)
    ensures DistinctIds(rs)
  {
  }

  lemma SameUsable(a: seq<Key>, b: seq<Key>, h: nat)
    requires |a| == |b|
    requires forall i :: 0 <= i < |a| ==> a[i].hash == b[i].hash && (a[i].status == Active <==> b[i].status == Active)
    ensures (exists r :: r in a && r.status == Active && r.hash == Some(h)) ==>
              exists r :: r in b && r.status == Active && r.hash == Some(h)
  {
  }

  /** So the usable secrets are the same before and after loading a reachable state. */
  lemma RepairKeepsSecrets(births: map<nat, nat>, drawn: set<nat>, keys: Keys, rs: seq<Key>, h: nat)
    requires Inv(births, drawn, keys) && Lists(rs, keys)
    ensures (exists r :: r in Repair(rs) && r.status == Active && r.hash == Some(h))
            <==> exists r :: r in rs && r.status == Active && r.hash == Some(h)
  {
    hide Repair, Inv, Lists, Key.Aliases;
    forall i | 0 <= i < |rs|
      ensures |Repair(rs)| == |rs| && Repair(rs)[i].hash == rs[i].hash
              && (Repair(rs)[i].status == Active <==> rs[i].status == Active)
    {
      RepairKeepsReachable(births, drawn, keys, rs, i);
    }
    ListsDistinct(rs, keys);
    RepairKeepsRecords(rs);
    SameUsable(rs, Repair(rs), h);
    SameUsable(Repair(rs), rs, h);
  }

  /** And a second load changes nothing more. */
  lemma ReachableIsSettled(births: map<nat, nat>, drawn: set<nat>, keys: Keys, rs: seq<Key>)
    requires Inv(births, drawn, keys) && Lists(rs, keys)
    ensures Repair(Repair(rs)) == Repair(rs)
  {
    hide Repair, Inv, Lists, Winner, Successor;
    forall i | 0 <= i < |rs| ensures !Touched(rs, rs[i]) {
      if Touched(rs, rs[i]) {
        OnlyTombstonesAreMarked(births, drawn, keys, rs, i);
      }
    }
    ListsDistinct(rs, keys);
    SettledIsStable(rs);
  }
}
