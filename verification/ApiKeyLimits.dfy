/**
 Combining spend limits (src/control.rs:3899-3951): zero means unlimited, and of two
 positive limits the smaller one counts. The combined limit of any records is the least
 positive one among them, so it does not depend on the order in which they are visited.
 */
module ApiKeyLimits {
  import opened ApiKeys

  function Stricter(current: real, candidate: real): real {
    if !(current > 0.0) && candidate > 0.0 then candidate
    else if current > 0.0 && candidate > 0.0 then (if candidate < current then candidate else current)
    else current
  }

  function StricterLimits(a: Limits, b: Limits): Limits {
    Limits(Stricter(a.spend, b.spend), Stricter(a.fiveHour, b.fiveHour), Stricter(a.daily, b.daily),
           Stricter(a.weekly, b.weekly), Stricter(a.monthly, b.monthly), a.rateLimited || b.rateLimited)
  }

  function Fold(start: Limits, rest: seq<Limits>): Limits
    decreases |rest|
  {
    if rest == [] then start else Fold(StricterLimits(start, rest[0]), rest[1..])
  }

  // ---- One limit -------------------------------------------------------------------------

  function FoldReal(start: real, rest: seq<real>): real
    decreases |rest|
  {
    if rest == [] then start else FoldReal(Stricter(start, rest[0]), rest[1..])
  }

  /** The least positive value of a list, or zero when it has none. */
  ghost predicate LeastPositive(r: real, xs: seq<real>) {
    if exists x :: x in xs && x > 0.0
    then r in xs && r > 0.0 && forall x :: x in xs && x > 0.0 ==> r <= x
    else r == 0.0
  }

  lemma LeastPositiveUnique(r: real, q: real, xs: seq<real>, ys: seq<real>)
    requires LeastPositive(r, xs) && LeastPositive(q, ys) && forall x :: x in xs <==> x in ys
    ensures r == q
  {
  }

  lemma AbsorbFirst(start: real, rest: seq<real>, r: real)
    requires rest != [] && start >= 0.0 && rest[0] >= 0.0
    requires LeastPositive(r, [Stricter(start, rest[0])] + rest[1..])
    ensures LeastPositive(r, [start] + rest)
  {
    var short, long := [Stricter(start, rest[0])] + rest[1..], [start] + rest;
    assert rest == [rest[0]] + rest[1..];
    assert forall x :: x in short <==> x == Stricter(start, rest[0]) || x in rest[1..];
    assert forall x :: x in long <==> x == start || x == rest[0] || x in rest[1..];
    assert Stricter(start, rest[0]) in long && start in long && rest[0] in long;
    assert Stricter(start, rest[0]) in short;
    assert (start > 0.0 || rest[0] > 0.0) <==> Stricter(start, rest[0]) > 0.0;
    assert (exists x :: x in short && x > 0.0) <==> (exists x :: x in long && x > 0.0);
  }

  lemma {:induction false} FoldIsLeastPositive(start: real, rest: seq<real>)
    requires start >= 0.0 && forall x :: x in rest ==> x >= 0.0
    ensures LeastPositive(FoldReal(start, rest), [start] + rest)
    decreases |rest|
  {
    if rest != [] {
      var next := Stricter(start, rest[0]);
      assert rest[0] in rest && forall x :: x in rest[1..] ==> x in rest;
      FoldIsLeastPositive(next, rest[1..]);
      AbsorbFirst(start, rest, FoldReal(start, rest));
    } else {
      assert forall x :: x in [start] + rest <==> x == start;
    }
  }

  // ---- All limits ---------------------------------------------------------------------------

  function Spend(ls: seq<Limits>): seq<real> { seq(|ls|, i requires 0 <= i < |ls| => ls[i].spend) }
  function FiveHour(ls: seq<Limits>): seq<real> { seq(|ls|, i requires 0 <= i < |ls| => ls[i].fiveHour) }
  function Daily(ls: seq<Limits>): seq<real> { seq(|ls|, i requires 0 <= i < |ls| => ls[i].daily) }
  function Weekly(ls: seq<Limits>): seq<real> { seq(|ls|, i requires 0 <= i < |ls| => ls[i].weekly) }
  function Monthly(ls: seq<Limits>): seq<real> { seq(|ls|, i requires 0 <= i < |ls| => ls[i].monthly) }

  predicate NonNegative(l: Limits) {
    l.spend >= 0.0 && l.fiveHour >= 0.0 && l.daily >= 0.0 && l.weekly >= 0.0 && l.monthly >= 0.0
  }

  lemma {:induction false} FoldByField(start: Limits, rest: seq<Limits>)
    ensures var f := Fold(start, rest);
            && f.spend == FoldReal(start.spend, Spend(rest))
            && f.fiveHour == FoldReal(start.fiveHour, FiveHour(rest))
            && f.daily == FoldReal(start.daily, Daily(rest))
            && f.weekly == FoldReal(start.weekly, Weekly(rest))
            && f.monthly == FoldReal(start.monthly, Monthly(rest))
            && (f.rateLimited <==> start.rateLimited || exists l :: l in rest && l.rateLimited)
    decreases |rest|
  {
    if rest != [] {
      FoldByField(StricterLimits(start, rest[0]), rest[1..]);
      assert Spend(rest)[1..] == Spend(rest[1..]) && FiveHour(rest)[1..] == FiveHour(rest[1..]);
      assert Daily(rest)[1..] == Daily(rest[1..]) && Weekly(rest)[1..] == Weekly(rest[1..]);
      assert Monthly(rest)[1..] == Monthly(rest[1..]);
      assert forall l :: l in rest <==> l == rest[0] || l in rest[1..];
    }
  }

  lemma FieldsNonNegative(ls: seq<Limits>)
    requires forall l :: l in ls ==> NonNegative(l)
    ensures forall x :: x in Spend(ls) ==> x >= 0.0
    ensures forall x :: x in FiveHour(ls) ==> x >= 0.0
    ensures forall x :: x in Daily(ls) ==> x >= 0.0
    ensures forall x :: x in Weekly(ls) ==> x >= 0.0
    ensures forall x :: x in Monthly(ls) ==> x >= 0.0
  {
    assert forall i :: 0 <= i < |ls| ==> ls[i] in ls;
  }

  lemma StartNonNegative(l: Limits)
    requires NonNegative(l)
    ensures l.spend >= 0.0 && l.fiveHour >= 0.0 && l.daily >= 0.0 && l.weekly >= 0.0 && l.monthly >= 0.0
  {
  }

  lemma FieldsOfCons(start: Limits, rest: seq<Limits>)
    ensures Spend([start] + rest) == [start.spend] + Spend(rest)
    ensures FiveHour([start] + rest) == [start.fiveHour] + FiveHour(rest)
    ensures Daily([start] + rest) == [start.daily] + Daily(rest)
    ensures Weekly([start] + rest) == [start.weekly] + Weekly(rest)
    ensures Monthly([start] + rest) == [start.monthly] + Monthly(rest)
  {
  }

  /** The fold over any records gives, field by field, the least positive limit or zero. */
  lemma FoldGivesLeastPositive(start: Limits, rest: seq<Limits>)
    requires NonNegative(start) && forall l :: l in rest ==> NonNegative(l)
    ensures var f, all := Fold(start, rest), [start] + rest;
            && LeastPositive(f.spend, Spend(all)) && LeastPositive(f.fiveHour, FiveHour(all))
            && LeastPositive(f.daily, Daily(all)) && LeastPositive(f.weekly, Weekly(all))
            && LeastPositive(f.monthly, Monthly(all))
            && (f.rateLimited <==> exists l :: l in all && l.rateLimited)
  {
    hide LeastPositive, Fold, FoldReal, Spend, FiveHour, Daily, Weekly, Monthly, NonNegative;
    FoldByField(start, rest);
    FieldsNonNegative(rest);
    StartNonNegative(start);
    FieldsOfCons(start, rest);
    FoldIsLeastPositive(start.spend, Spend(rest));
    FoldIsLeastPositive(start.fiveHour, FiveHour(rest));
    FoldIsLeastPositive(start.daily, Daily(rest));
    FoldIsLeastPositive(start.weekly, Weekly(rest));
    FoldIsLeastPositive(start.monthly, Monthly(rest));
    assert forall l :: l in [start] + rest <==> l == start || l in rest;
  }

  /** Limits that already agree are not changed by combining them. */
  lemma {:induction false} FoldOfEqual(l: Limits, rest: seq<Limits>)
    requires forall x :: x in rest ==> x == l
    ensures Fold(l, rest) == l
    decreases |rest|
  {
    if rest != [] {
      assert rest[0] in rest && forall x :: x in rest[1..] ==> x in rest;
      FoldOfEqual(l, rest[1..]);
    }
  }

  // ---- The subject-wide policy ------------------------------------------------------------------

  function SubjectLimits(subject: Name, records: seq<Key>): seq<Limits> {
    if records == [] then []
    else if records[0].Subject() == subject then [records[0].limits] + SubjectLimits(subject, records[1..])
    else SubjectLimits(subject, records[1..])
  }

  /** The limits enforced for a key: its own, tightened by every record of its subject. */
  function PolicyLimits(key: Key, records: seq<Key>): Limits {
    Fold(key.limits, SubjectLimits(key.Subject(), records))
  }

  lemma {:induction false} SubjectLimitsAre(subject: Name, records: seq<Key>, l: Limits)
    ensures l in SubjectLimits(subject, records) <==>
              exists i :: 0 <= i < |records| && records[i].Subject() == subject && records[i].limits == l
    decreases |records|
  {
    if records != [] {
      SubjectLimitsAre(subject, records[1..], l);
      assert forall i :: 0 < i < |records| ==> records[i] == records[1..][i - 1];
      if l in SubjectLimits(subject, records[1..]) {
        var i :| 0 <= i < |records[1..]| && records[1..][i].Subject() == subject && records[1..][i].limits == l;
        assert records[i + 1].limits == l;
      }
    }
  }

  lemma SameSubjectLimits(subject: Name, records: seq<Key>, other: seq<Key>, l: Limits)
    requires forall r :: r in records ==> r in other
    ensures l in SubjectLimits(subject, records) ==> l in SubjectLimits(subject, other)
  {
    hide SubjectLimits;
    SubjectLimitsAre(subject, records, l);
    SubjectLimitsAre(subject, other, l);
    if i :| 0 <= i < |records| && records[i].Subject() == subject && records[i].limits == l {
      assert records[i] in other;
      var j :| 0 <= j < |other| && other[j] == records[i];
    }
  }

  lemma SameFields(x: seq<Limits>, y: seq<Limits>)
    requires forall l :: l in x ==> l in y
    ensures forall v :: v in Spend(x) ==> v in Spend(y)
    ensures forall v :: v in FiveHour(x) ==> v in FiveHour(y)
    ensures forall v :: v in Daily(x) ==> v in Daily(y)
    ensures forall v :: v in Weekly(x) ==> v in Weekly(y)
    ensures forall v :: v in Monthly(x) ==> v in Monthly(y)
  {
    forall i | 0 <= i < |x|
      ensures x[i].spend in Spend(y) && x[i].fiveHour in FiveHour(y) && x[i].daily in Daily(y)
              && x[i].weekly in Weekly(y) && x[i].monthly in Monthly(y)
    {
      assert x[i] in y;
      var j :| 0 <= j < |y| && y[j] == x[i];
      assert Spend(y)[j] == x[i].spend && FiveHour(y)[j] == x[i].fiveHour && Daily(y)[j] == x[i].daily;
      assert Weekly(y)[j] == x[i].weekly && Monthly(y)[j] == x[i].monthly;
    }
  }

  lemma FoldsAgree(start: Limits, a: seq<Limits>, b: seq<Limits>)
    requires NonNegative(start) && (forall l :: l in a ==> NonNegative(l)) && forall l :: l in a <==> l in b
    ensures Fold(start, a) == Fold(start, b)
  {
    hide Fold, LeastPositive;
    FoldGivesLeastPositive(start, a);
    FoldGivesLeastPositive(start, b);
    var x, y := [start] + a, [start] + b;
    assert forall l :: l in x <==> l in y;
    SameFields(x, y);
    SameFields(y, x);
    LeastPositiveUnique(Fold(start, a).spend, Fold(start, b).spend, Spend(x), Spend(y));
    LeastPositiveUnique(Fold(start, a).fiveHour, Fold(start, b).fiveHour, FiveHour(x), FiveHour(y));
    LeastPositiveUnique(Fold(start, a).daily, Fold(start, b).daily, Daily(x), Daily(y));
    LeastPositiveUnique(Fold(start, a).weekly, Fold(start, b).weekly, Weekly(x), Weekly(y));
    LeastPositiveUnique(Fold(start, a).monthly, Fold(start, b).monthly, Monthly(x), Monthly(y));
  }

  /** For arbitrary records the order of iteration does not matter. */
  lemma PolicyIsOrderIndependent(key: Key, records: seq<Key>, other: seq<Key>)
    requires NonNegative(key.limits)
    requires forall r :: r in records ==> NonNegative(r.limits)
    requires forall r :: r in records <==> r in other
    ensures PolicyLimits(key, records) == PolicyLimits(key, other)
  {
    hide Fold, LeastPositive, SubjectLimits;
    var a, b := SubjectLimits(key.Subject(), records), SubjectLimits(key.Subject(), other);
    forall l ensures l in a <==> l in b {
      SameSubjectLimits(key.Subject(), records, other, l);
      SameSubjectLimits(key.Subject(), other, records, l);
    }
    forall l | l in a ensures NonNegative(l) {
      SubjectLimitsAre(key.Subject(), records, l);
      var i :| 0 <= i < |records| && records[i].Subject() == key.Subject() && records[i].limits == l;
      assert records[i] in records;
    }
    FoldsAgree(key.limits, a, b);
  }

  /** The policy as the source's loop over the records. */
  method ApiKeyPolicyWithSubject(key: Key, records: seq<Key>) returns (limits: Limits)
    ensures limits == PolicyLimits(key, records)
  {
    limits := key.limits;
    assert records[0..] == records;
    for i := 0 to |records|
      invariant Fold(limits, SubjectLimits(key.Subject(), records[i..])) == PolicyLimits(key, records)
    {
      assert records[i..][1..] == records[i + 1..];
      if records[i].Subject() == key.Subject() {
        assert SubjectLimits(key.Subject(), records[i..])
            == [records[i].limits] + SubjectLimits(key.Subject(), records[i + 1..]);
        limits := StricterLimits(limits, records[i].limits);
      }
    }
  }
}
