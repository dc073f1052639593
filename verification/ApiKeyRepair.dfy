/**
 Repair of loaded API keys (src/control.rs, `repair_api_key_rotation_invariants`): legacy
 records get the quota subject of the key their rotation chain starts from, and every key
 with a confirmed replacement, or with a confirmed sibling, becomes a tombstone.
 */
module ApiKeyRepair {
  import opened Common
  import opened ApiKeys

  type Parents = map<nat, Option<nat>>

  /** The source of each record; of two records with one id the later counts. */
  function ParentsOf(rs: seq<Key>): (ps: Parents)
    ensures forall k :: k in ps <==> exists i :: 0 <= i < |rs| && rs[i].id == k
  {
    if rs == [] then map[] else ParentsOf(rs[..|rs| - 1])[rs[|rs| - 1].id := rs[|rs| - 1].rotationFrom]
  }

  /** Follow sources from `cursor`, noting every id met, until a record has none, an id comes
      up again or an id is missing. */
  function Climb(ps: Parents, cursor: nat, chain: set<nat>): (nat, set<nat>)
    decreases ps.Keys - chain
  {
    if cursor in ps && ps[cursor].Some? then
      var p := ps[cursor].value;
      if p in chain then (cursor, chain)
      else if p !in ps then (cursor, chain + {p})
      else
        assert p in ps.Keys - chain && p !in ps.Keys - (chain + {p});
        Climb(ps, p, chain + {p})
    else (cursor, chain)
  }

  function NamesOf(ids: set<nat>): set<Name> {
    (set k | k in ids :: IdName(k)) + (set k | k in ids :: Pseudonym(KeySeed(k)))
  }

  /** Give a record its subject and aliases. */
  function Fix(ps: Parents, r: Key): Key {
    var q := if r.subject.Some? then r
             else
               var c := Climb(ps, r.id, {r.id});
               r.(subject := Some(Pseudonym(KeySeed(c.0))), aliases := r.aliases + NamesOf(c.1));
    q.(aliases := q.Aliases())
  }

  function Fixed(rs: seq<Key>): (q: seq<Key>)
    ensures |q| == |rs| && forall i :: 0 <= i < |rs| ==> q[i] == Fix(ParentsOf(rs), rs[i])
  {
    seq(|rs|, i requires 0 <= i < |rs| => Fix(ParentsOf(rs), rs[i]))
  }

  // ---- Confirmed children ----------------------------------------------------------------------------

  /** Creation time and id, by which children are compared. */
  type Stamp = (nat, nat)

  function StampOf(r: Key): Stamp {
    (r.createdAt, r.id)
  }

  predicate AtMost(a: Stamp, b: Stamp) {
    a.0 < b.0 || (a.0 == b.0 && a.1 <= b.1)
  }

  predicate ChildOf(r: Key, s: nat) {
    r.status != Pending && r.rotationFrom == Some(s)
  }

  ghost predicate IsWinner(rs: seq<Key>, s: nat, w: Stamp) {
    && (exists i :: 0 <= i < |rs| && ChildOf(rs[i], s) && StampOf(rs[i]) == w)
    && (forall i :: 0 <= i < |rs| && ChildOf(rs[i], s) ==> AtMost(StampOf(rs[i]), w))
  }

  /** The latest confirmed child of a source. */
  function Winner(rs: seq<Key>, s: nat): (w: Option<Stamp>)
    ensures w.None? ==> forall i :: 0 <= i < |rs| ==> !ChildOf(rs[i], s)
    ensures w.Some? ==> IsWinner(rs, s, w.value)
  {
    if rs == [] then None
    else
      var r, before := rs[|rs| - 1], Winner(rs[..|rs| - 1], s);
      assert forall i :: 0 <= i < |rs| - 1 ==> rs[i] == rs[..|rs| - 1][i];
      if ChildOf(r, s) && (before.None? || AtMost(before.value, StampOf(r))) then Some(StampOf(r)) else before
  }

  lemma WinnerIs(rs: seq<Key>, s: nat, w: Stamp)
    requires IsWinner(rs, s, w)
    ensures Winner(rs, s) == Some(w)
  {
  }

  /** The key that takes over from a record: its own confirmed child, or a confirmed sibling. */
  function Successor(rs: seq<Key>, r: Key): Option<nat> {
    if Winner(rs, r.id).Some? then Some(Winner(rs, r.id).value.1)
    else if r.rotationFrom.Some? && Winner(rs, r.rotationFrom.value).Some?
            && Winner(rs, r.rotationFrom.value).value.1 != r.id
    then Some(Winner(rs, r.rotationFrom.value).value.1)
    else None
  }

  function Mark(rs: seq<Key>, r: Key): Key {
    if Successor(rs, r).None? then r
    else r.(status := Revoked, supersededBy := Successor(rs, r), hash := None)
  }

  function Marked(rs: seq<Key>): (q: seq<Key>)
    ensures |q| == |rs| && forall i :: 0 <= i < |rs| ==> q[i] == Mark(rs, rs[i])
  {
    seq(|rs|, i requires 0 <= i < |rs| => Mark(rs, rs[i]))
  }

  /** A prepared record beside a confirmed child of its source. */
  predicate Stale(rs: seq<Key>, r: Key) {
    r.status == Pending && r.rotationFrom.Some? && Winner(rs, r.rotationFrom.value).Some?
  }

  function Retain(rs: seq<Key>, marked: seq<Key>): seq<Key> {
    if marked == [] then []
    else
      var kept := Retain(rs, marked[..|marked| - 1]);
      if Stale(rs, marked[|marked| - 1]) then kept else kept + [marked[|marked| - 1]]
  }

  function Repair(rs: seq<Key>): seq<Key> {
    Retain(Fixed(rs), Marked(Fixed(rs)))
  }

  // ---- What each pass leaves alone ---------------------------------------------------------------------

  ghost predicate DistinctIds(rs: seq<Key>) {
    forall i, j :: 0 <= i < |rs| && 0 <= j < |rs| && rs[i].id == rs[j].id ==> i == j
  }

  /** Equal in everything that decides winners. */
  predicate SameLinks(r: Key, q: Key) {
    r.id == q.id && r.status == q.status && r.rotationFrom == q.rotationFrom && r.createdAt == q.createdAt
  }

  lemma FixLinks(ps: Parents, r: Key)
    ensures var q := Fix(ps, r);
            SameLinks(r, q) && q.hash == r.hash && q.supersededBy == r.supersededBy && q.subject.Some?
            && (r.subject.Some? ==> q == r.(aliases := r.Aliases()))
  {
  }

  lemma SameWinners(rs: seq<Key>, qs: seq<Key>, s: nat)
    requires |qs| == |rs| && forall i :: 0 <= i < |rs| ==> SameLinks(rs[i], qs[i])
    ensures Winner(qs, s) == Winner(rs, s)
  {
    hide Winner;
    assert forall i :: 0 <= i < |rs| ==> (ChildOf(rs[i], s) <==> ChildOf(qs[i], s)) && StampOf(rs[i]) == StampOf(qs[i]);
    if Winner(rs, s).Some? {
      var w := Winner(rs, s).value;
      var i :| 0 <= i < |rs| && ChildOf(rs[i], s) && StampOf(rs[i]) == w;
      assert ChildOf(qs[i], s) && StampOf(qs[i]) == w;
      WinnerIs(qs, s, w);
    }
  }

  lemma FixedWinners(rs: seq<Key>, s: nat)
    ensures Winner(Fixed(rs), s) == Winner(rs, s)
  {
    hide Winner, Fix;
    forall i | 0 <= i < |rs| ensures SameLinks(rs[i], Fixed(rs)[i]) {
      FixLinks(ParentsOf(rs), rs[i]);
    }
    SameWinners(rs, Fixed(rs), s);
  }

  /** With distinct ids the final pass removes nothing: a stale record was marked before. */
  lemma {:induction false} RetainIsIdle(rs: seq<Key>, marked: seq<Key>)
    requires forall i :: 0 <= i < |marked| ==> !Stale(rs, marked[i])
    ensures Retain(rs, marked) == marked
    decreases |marked|
  {
    hide Stale;
    if marked != [] {
      var before := marked[..|marked| - 1];
      RetainIsIdle(rs, before);
      assert marked == before + [marked[|marked| - 1]];
    }
  }

  lemma MarkedAreNotStale(rs: seq<Key>, i: nat)
    requires DistinctIds(rs) && i < |rs|
    ensures !Stale(rs, Mark(rs, rs[i]))
  {
  }

  lemma MarkDependsOnWinners(rs: seq<Key>, r: Key)
    ensures Mark(Fixed(rs), r) == Mark(rs, r)
  {
    hide Winner, Fixed;
    FixedWinners(rs, r.id);
    if r.rotationFrom.Some? {
      FixedWinners(rs, r.rotationFrom.value);
    }
  }

  /** With distinct ids, repair fixes and marks every record and drops none. */
  lemma RepairKeepsRecords(rs: seq<Key>)
    requires DistinctIds(rs)
    ensures |Repair(rs)| == |rs|
    ensures forall i :: 0 <= i < |rs| ==> Repair(rs)[i] == Mark(rs, Fix(ParentsOf(rs), rs[i]))
  {
    hide Winner, Fix, Stale, Mark;
    var fixed := Fixed(rs);
    forall i | 0 <= i < |rs| ensures fixed[i].id == rs[i].id {
      FixLinks(ParentsOf(rs), rs[i]);
    }
    assert DistinctIds(fixed);
    forall i | 0 <= i < |rs| ensures !Stale(fixed, Marked(fixed)[i]) {
      MarkedAreNotStale(fixed, i);
    }
    RetainIsIdle(fixed, Marked(fixed));
    forall i | 0 <= i < |rs| ensures Mark(fixed, fixed[i]) == Mark(rs, fixed[i]) {
      MarkDependsOnWinners(rs, fixed[i]);
    }
  }

  // ---- The passes as the source runs them ----------------------------------------------------------------

  method ChainOf(ps: Parents, id: nat) returns (cursor: nat, chain: set<nat>)
    ensures (cursor, chain) == Climb(ps, id, {id})
  {
    cursor, chain := id, {id};
    while cursor in ps && ps[cursor].Some?
      invariant Climb(ps, cursor, chain) == Climb(ps, id, {id})
      decreases ps.Keys - chain
    {
      var parent := ps[cursor].value;
      if parent in chain { break; }
      ghost var before := chain;
      chain := chain + {parent};
      if parent !in ps { break; }
      assert parent in ps.Keys - before && parent !in ps.Keys - chain;
      cursor := parent;
    }
  }

  method ParentsIn(rs: seq<Key>) returns (ps: Parents)
    ensures ps == ParentsOf(rs)
  {
    ps := map[];
    for i := 0 to |rs|
      invariant ps == ParentsOf(rs[..i])
    {
      assert rs[..i + 1][..i] == rs[..i];
      ps := ps[rs[i].id := rs[i].rotationFrom];
    }
    assert rs[..|rs|] == rs;
  }

  method FixRecord(ps: Parents, record: Key) returns (r: Key, changed: bool)
    ensures r == Fix(ps, record)
    ensures changed <==> r != record
  {
    hide Climb, NamesOf;
    r, changed := record, false;
    if r.subject.None? {
      var cursor, chain := ChainOf(ps, r.id);
      r := r.(subject := Some(Pseudonym(KeySeed(cursor))), aliases := r.aliases + NamesOf(chain));
      changed := true;
    }
    var previous := r.aliases;
    r := r.(aliases := r.Aliases());
    changed := changed || r.aliases != previous;
  }

  lemma WinnerStep(rs: seq<Key>, i: nat)
    requires i < |rs|
    ensures forall s :: Winner(rs[..i + 1], s) ==
              var before := Winner(rs[..i], s);
              if ChildOf(rs[i], s) && (before.None? || AtMost(before.value, StampOf(rs[i])))
              then Some(StampOf(rs[i])) else before
  {
    assert rs[..i + 1][..i] == rs[..i];
  }

  /** The latest confirmed child of every source that has one. */
  method WinnersIn(rs: seq<Key>) returns (winners: map<nat, Stamp>)
    ensures forall s :: s in winners <==> Winner(rs, s).Some?
    ensures forall s :: s in winners ==> Winner(rs, s) == Some(winners[s])
  {
    winners := map[];
    for i := 0 to |rs|
      invariant forall s :: s in winners <==> Winner(rs[..i], s).Some?
      invariant forall s :: s in winners ==> Winner(rs[..i], s) == Some(winners[s])
    {
      WinnerStep(rs, i);
      hide Winner;
      var r := rs[i];
      if r.status != Pending && r.rotationFrom.Some? {
        var s := r.rotationFrom.value;
        if s !in winners || AtMost(winners[s], StampOf(r)) {
          winners := winners[s := StampOf(r)];
        }
      }
    }
    assert rs[..|rs|] == rs;
  }

  method MarkRecord(ghost rs: seq<Key>, winners: map<nat, Stamp>, record: Key) returns (r: Key, changed: bool)
    requires forall s :: s in winners <==> Winner(rs, s).Some?
    requires forall s :: s in winners ==> Winner(rs, s) == Some(winners[s])
    ensures r == Mark(rs, record)
    ensures changed <==> r != record
  {
    hide Winner;
    r, changed := record, false;
    var replacement: Option<nat> := None;
    if r.id in winners {
      replacement := Some(winners[r.id].1);
    } else if r.rotationFrom.Some? && r.rotationFrom.value in winners && winners[r.rotationFrom.value].1 != r.id {
      replacement := Some(winners[r.rotationFrom.value].1);
    }
    if replacement.None? { return; }
    if r.status != Revoked {
      r := r.(status := Revoked);
      changed := true;
    }
    if r.supersededBy != replacement {
      r := r.(supersededBy := replacement);
      changed := true;
    }
    if r.hash.Some? {
      r := r.(hash := None);
      changed := true;
    }
  }

  method FixAll(file: seq<Key>) returns (records: seq<Key>, changed: bool)
    ensures records == Fixed(file)
    ensures changed <==> records != file
  {
    hide Fix, ParentsOf;
    var ps := ParentsIn(file);
    records, changed := file, false;
    for i := 0 to |file|
      invariant |records| == |file| && forall j :: i <= j < |file| ==> records[j] == file[j]
      invariant forall j :: 0 <= j < i ==> records[j] == Fix(ps, file[j])
      invariant changed <==> records != file
    {
      var r, c := FixRecord(ps, records[i]);
      records, changed := records[i := r], changed || c;
    }
  }

  method MarkAll(file: seq<Key>, winners: map<nat, Stamp>) returns (records: seq<Key>, changed: bool)
    requires forall s :: s in winners <==> Winner(file, s).Some?
    requires forall s :: s in winners ==> Winner(file, s) == Some(winners[s])
    ensures records == Marked(file)
    ensures changed <==> records != file
  {
    hide Mark, Winner;
    records, changed := file, false;
    for i := 0 to |file|
      invariant |records| == |file| && forall j :: i <= j < |file| ==> records[j] == file[j]
      invariant forall j :: 0 <= j < i ==> records[j] == Mark(file, file[j])
      invariant changed <==> records != file
    {
      var r, c := MarkRecord(file, winners, records[i]);
      records, changed := records[i := r], changed || c;
    }
  }

  method RetainAll(ghost rs: seq<Key>, marked: seq<Key>, winners: map<nat, Stamp>) returns (kept: seq<Key>)
    requires forall s :: s in winners <==> Winner(rs, s).Some?
    ensures kept == Retain(rs, marked)
  {
    hide Winner;
    kept := [];
    for i := 0 to |marked|
      invariant kept == Retain(rs, marked[..i])
    {
      assert marked[..i + 1][..i] == marked[..i];
      var r := marked[i];
      if !(r.status == Pending && r.rotationFrom.Some? && r.rotationFrom.value in winners) {
        kept := kept + [r];
      }
    }
    assert marked[..|marked|] == marked;
  }

  lemma {:induction false} RetainShrinks(rs: seq<Key>, marked: seq<Key>)
    ensures |Retain(rs, marked)| <= |marked|
    ensures |Retain(rs, marked)| == |marked| ==> Retain(rs, marked) == marked
    decreases |marked|
  {
    hide Stale;
    if marked != [] {
      RetainShrinks(rs, marked[..|marked| - 1]);
      assert marked == marked[..|marked| - 1] + [marked[|marked| - 1]];
    }
  }

  /** Marking never undoes what fixing changed. */
  lemma MarkedEqualsFile(file: seq<Key>)
    requires Marked(Fixed(file)) == file
    ensures Fixed(file) == file
  {
  }

  /** The whole repair, record by record; `changed` tells whether the file is to be saved. */
  method RepairRotations(file: seq<Key>) returns (records: seq<Key>, changed: bool)
    ensures records == Repair(file)
    ensures changed <==> records != file
  {
    hide Fixed, Marked, Retain, Winner;
    var fixed, c0 := FixAll(file);
    var winners := WinnersIn(fixed);
    var marked, c1 := MarkAll(fixed, winners);
    records := RetainAll(fixed, marked, winners);
    changed := c0 || c1 || |records| != |marked|;
    RetainShrinks(fixed, marked);
    if marked == file {
      MarkedEqualsFile(file);
    }
  }
}
