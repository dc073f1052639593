/**
 Saving and loading nested maps (src/control.rs): provider models, credentials and
 credential health are saved as flat lists and regrouped by the two names each record
 carries. Names are numbers in their order; `body` is the rest of a record.
 */
module Persist {
  import opened Ordered

  datatype Row<T> = Row(outer: nat, inner: nat, body: T)

  type Nested<T> = map<nat, map<nat, Row<T>>>

  // ---- Flattening -------------------------------------------------------------------------------

  function Values<T>(m: map<nat, Row<T>>, ids: seq<nat>): (r: seq<Row<T>>)
    requires forall k :: k in ids ==> k in m
    ensures |r| == |ids| && forall i :: 0 <= i < |r| ==> r[i] == m[ids[i]]
  {
    if ids == [] then [] else Values(m, ids[..|ids| - 1]) + [m[ids[|ids| - 1]]]
  }

  function FlattenOf<T>(m: Nested<T>, ids: seq<nat>): seq<Row<T>>
    requires forall k :: k in ids ==> k in m
  {
    if ids == [] then []
    else
      var last := ids[|ids| - 1];
      FlattenOf(m, ids[..|ids| - 1]) + Values(m[last], Sorted(m[last].Keys))
  }

  function Flatten<T>(m: Nested<T>): seq<Row<T>> {
    FlattenOf(m, Sorted(m.Keys))
  }

  predicate At<T(==)>(m: Nested<T>, o: nat, i: nat, row: Row<T>) {
    o in m && i in m[o] && m[o][i] == row
  }

  lemma ValuesHold<T>(m: map<nat, Row<T>>, row: Row<T>)
    ensures row in Values(m, Sorted(m.Keys)) <==> exists i :: i in m && m[i] == row
  {
    hide Sorted, Values;
    var ids := Sorted(m.Keys);
    var vs := Values(m, ids);
    if row in vs {
      var n :| 0 <= n < |vs| && vs[n] == row;
      assert ids[n] in ids;
    }
    if i :| i in m && m[i] == row {
      assert i in ids;
      var n :| 0 <= n < |ids| && ids[n] == i;
      assert vs[n] == row;
    }
  }

  lemma {:induction false} FlattenOfHolds<T>(m: Nested<T>, ids: seq<nat>, row: Row<T>)
    requires forall k :: k in ids ==> k in m
    ensures row in FlattenOf(m, ids) <==> exists o, i :: o in ids && At(m, o, i, row)
    decreases |ids|
  {
    hide Sorted, Values;
    if ids != [] {
      var before, last := ids[..|ids| - 1], ids[|ids| - 1];
      FlattenOfHolds(m, before, row);
      ValuesHold(m[last], row);
      assert forall k :: k in ids <==> k in before || k == last;
      if i :| i in m[last] && m[last][i] == row {
        assert At(m, last, i, row);
      }
    }
  }

  /** The flat list holds exactly the records of the nested map. */
  lemma FlattenHolds<T>(m: Nested<T>, row: Row<T>)
    ensures row in Flatten(m) <==> exists o, i :: At(m, o, i, row)
  {
    hide FlattenOf, Sorted;
    FlattenOfHolds(m, Sorted(m.Keys), row);
    if o, i :| At(m, o, i, row) {
      assert o in Sorted(m.Keys);
    }
  }

  // ---- Regrouping ---------------------------------------------------------------------------------

  /** `entry(outer).or_default().insert(inner, record)`. */
  function Insert<T>(m: Nested<T>, row: Row<T>): Nested<T> {
    m[row.outer := (if row.outer in m then m[row.outer] else map[])[row.inner := row]]
  }

  function Regroup<T>(rows: seq<Row<T>>): Nested<T> {
    if rows == [] then map[] else Insert(Regroup(rows[..|rows| - 1]), rows[|rows| - 1])
  }

  /** Inner maps are not empty, and every record is where its names say. */
  ghost predicate Tidy<T(!new)>(m: Nested<T>) {
    && (forall o :: o in m ==> m[o] != map[])
    && (forall o, i, row :: At(m, o, i, row) ==> row.outer == o && row.inner == i)
  }

  lemma InsertKeepsTidy<T(!new)>(m: Nested<T>, row: Row<T>)
    requires Tidy(m)
    ensures Tidy(Insert(m, row))
  {
    var next := Insert(m, row);
    forall o, i, r | At(next, o, i, r) ensures r.outer == o && r.inner == i {
      if !(o == row.outer && i == row.inner) {
        assert At(m, o, i, r);
      }
    }
    forall o | o in next ensures next[o] != map[] {
      if o == row.outer {
        assert row.inner in next[o];
      }
    }
  }

  lemma EmptyIsTidy<T(!new)>()
    ensures Tidy<T>(map[])
  {
  }

  lemma {:induction false} RegroupIsTidy<T(!new)>(rows: seq<Row<T>>)
    ensures Tidy(Regroup(rows))
  {
    hide Insert, Tidy;
    if rows != [] {
      RegroupIsTidy(rows[..|rows| - 1]);
      InsertKeepsTidy(Regroup(rows[..|rows| - 1]), rows[|rows| - 1]);
    } else {
      EmptyIsTidy<T>();
    }
  }

  /** Regrouping finds a place for every record, and only records of the list. */
  lemma {:induction false} RegroupHolds<T>(rows: seq<Row<T>>, o: nat, i: nat)
    ensures (o in Regroup(rows) && i in Regroup(rows)[o]) <==> exists n :: 0 <= n < |rows| && rows[n].outer == o && rows[n].inner == i
    ensures o in Regroup(rows) && i in Regroup(rows)[o] ==> Regroup(rows)[o][i] in rows
    decreases |rows|
  {
    if rows != [] {
      var before, last := rows[..|rows| - 1], rows[|rows| - 1];
      RegroupHolds(before, o, i);
      assert rows == before + [last];
      if last.outer == o && last.inner == i {
        assert rows[|rows| - 1] == last;
      }
    }
  }

  /** What is regrouped from the flat list of a tidy map, place by place. */
  lemma PlacesComeBack<T(!new)>(m: Nested<T>, o: nat, i: nat)
    requires Tidy(m)
    ensures var r := Regroup(Flatten(m));
            && ((o in r && i in r[o]) <==> (o in m && i in m[o]))
            && (o in m && i in m[o] ==> o in r && i in r[o] && r[o][i] == m[o][i])
  {
    hide Flatten, Regroup;
    var rows := Flatten(m);
    var r := Regroup(rows);
    RegroupHolds(rows, o, i);
    RegroupIsTidy(rows);
    if o in m && i in m[o] {
      FlattenHolds(m, m[o][i]);
      assert At(m, o, i, m[o][i]);
      var n :| 0 <= n < |rows| && rows[n] == m[o][i];
    }
    if o in r && i in r[o] {
      FlattenHolds(m, r[o][i]);
      assert At(r, o, i, r[o][i]);
      var o', i' :| At(m, o', i', r[o][i]);
    }
  }

  lemma OuterComesBack<T(!new)>(m: Nested<T>, o: nat)
    requires Tidy(m)
    ensures o in Regroup(Flatten(m)) <==> o in m
    ensures o in m ==> o in Regroup(Flatten(m)) && Regroup(Flatten(m))[o] == m[o]
  {
    hide Flatten, Regroup;
    var r := Regroup(Flatten(m));
    RegroupIsTidy(Flatten(m));
    forall i: nat ensures ((o in r && i in r[o]) <==> (o in m && i in m[o]))
                          && (o in m && i in m[o] ==> o in r && i in r[o] && r[o][i] == m[o][i])
    {
      PlacesComeBack(m, o, i);
    }
    if o in m { var i :| i in m[o]; }
    if o in r { var i :| i in r[o]; }
  }

  /** Saving and loading restores the map exactly if it is tidy. */
  lemma LoadRestoresIffTidy<T(!new)>(m: Nested<T>)
    ensures Regroup(Flatten(m)) == m <==> Tidy(m)
  {
    hide Flatten, Regroup, Tidy;
    RegroupIsTidy(Flatten(m));
    if Tidy(m) {
      forall o: nat ensures (o in Regroup(Flatten(m)) <==> o in m)
                            && (o in m ==> o in Regroup(Flatten(m)) && Regroup(Flatten(m))[o] == m[o])
      {
        OuterComesBack(m, o);
      }
    }
  }

  // ---- Reachable maps are tidy -------------------------------------------------------------------------

  /** Removing a record, and its group when that becomes empty. */
  function Remove<T>(m: Nested<T>, o: nat, i: nat): Nested<T> {
    if o !in m then m
    else if m[o] - {i} == map[] then m - {o}
    else m[o := m[o] - {i}]
  }

  datatype Edit<T> = InsertEdit(row: Row<T>) | RemoveEdit(o: nat, i: nat) | RemoveGroup(o: nat)

  function Apply<T>(m: Nested<T>, e: Edit<T>): Nested<T> {
    match e
    case InsertEdit(row) => Insert(m, row)
    case RemoveEdit(o, i) => Remove(m, o, i)
    case RemoveGroup(o) => m - {o}
  }

  lemma EditKeepsTidy<T(!new)>(m: Nested<T>, e: Edit<T>)
    requires Tidy(m)
    ensures Tidy(Apply(m, e))
  {
    match e
    case InsertEdit(row) => InsertKeepsTidy(m, row);
    case RemoveEdit(o, i) =>
      forall o', i', r | At(Remove(m, o, i), o', i', r) ensures r.outer == o' && r.inner == i' {
        assert At(m, o', i', r);
      }
    case RemoveGroup(o) =>
      forall o', i', r | At(m - {o}, o', i', r) ensures r.outer == o' && r.inner == i' {
        assert At(m, o', i', r);
      }
  }

  function Edited<T>(edits: seq<Edit<T>>): Nested<T> {
    if edits == [] then map[] else Apply(Edited(edits[..|edits| - 1]), edits[|edits| - 1])
  }

  /** Whatever was inserted and removed, saving and loading restores it. */
  lemma {:induction false} EditedIsTidy<T(!new)>(edits: seq<Edit<T>>)
    ensures Tidy(Edited(edits))
  {
    hide Apply, Tidy;
    if edits != [] {
      EditedIsTidy(edits[..|edits| - 1]);
      EditKeepsTidy(Edited(edits[..|edits| - 1]), edits[|edits| - 1]);
    } else {
      EmptyIsTidy<T>();
    }
  }

  lemma SaveThenLoadIsIdentity<T(!new)>(edits: seq<Edit<T>>)
    ensures Regroup(Flatten(Edited(edits))) == Edited(edits)
  {
    hide Edited, Flatten, Regroup, Tidy;
    EditedIsTidy(edits);
    LoadRestoresIffTidy(Edited(edits));
  }

  // ---- The passes as the source runs them --------------------------------------------------------------

  method GroupValues<T>(group: map<nat, Row<T>>) returns (part: seq<Row<T>>)
    ensures part == Values(group, Sorted(group.Keys))
  {
    hide Sorted;
    part := [];
    var inner := Sorted(group.Keys);
    for k := 0 to |inner|
      invariant part == Values(group, inner[..k])
    {
      assert inner[..k + 1][..k] == inner[..k];
      part := part + [group[inner[k]]];
    }
    assert inner[..|inner|] == inner;
  }

  lemma FlattenNone<T>(m: Nested<T>)
    ensures FlattenOf(m, []) == []
  {
  }

  lemma FlattenStep<T>(m: Nested<T>, ids: seq<nat>, n: nat)
    requires n < |ids| && forall k :: k in ids ==> k in m
    ensures FlattenOf(m, ids[..n + 1]) == FlattenOf(m, ids[..n]) + Values(m[ids[n]], Sorted(m[ids[n]].Keys))
  {
    hide Sorted, Values;
    assert ids[..n + 1][..n] == ids[..n];
  }

  method FlattenAll<T>(m: Nested<T>) returns (rows: seq<Row<T>>)
    ensures rows == Flatten(m)
  {
    hide Sorted, Values, FlattenOf;
    rows := [];
    var outer := Sorted(m.Keys);
    FlattenNone(m);
    for n := 0 to |outer|
      invariant rows == FlattenOf(m, outer[..n])
    {
      FlattenStep(m, outer, n);
      var part := GroupValues(m[outer[n]]);
      rows := rows + part;
    }
    assert outer[..|outer|] == outer;
  }

  method RegroupAll<T>(rows: seq<Row<T>>) returns (m: Nested<T>)
    ensures m == Regroup(rows)
  {
    m := map[];
    for n := 0 to |rows|
      invariant m == Regroup(rows[..n])
    {
      assert rows[..n + 1][..n] == rows[..n];
      var row := rows[n];
      var group := if row.outer in m then m[row.outer] else map[];
      m := m[row.outer := group[row.inner := row]];
    }
    assert rows[..|rows|] == rows;
  }
}
