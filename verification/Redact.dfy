/**
 The secret redactor of src/http.rs: three passes, each replacing the token characters
 after a marker by a placeholder when there are eight or more of them.
 */
module Redact {
  import opened Text

  const PLACEHOLDER: string := "[redacted]"

  predicate IsToken(c: char) {
    ('a' <= c <= 'z') || ('A' <= c <= 'Z') || IsDigit(c) || c == '-' || c == '_' || c == '.'
  }

  function TokenRun(s: string): (n: nat)
    ensures n <= |s|
    ensures forall k :: 0 <= k < n ==> IsToken(s[k])
    ensures n < |s| ==> !IsToken(s[n])
  {
    if s == [] || !IsToken(s[0]) then 0 else 1 + TokenRun(s[1..])
  }

  /** The marker stands at position `i` of the text. */
  predicate At(s: string, m: string, i: nat) {
    i + |m| <= |s| && s[i..i + |m|] == m
  }

  function FindFrom(s: string, m: string, from: nat): (i: nat)
    requires m != [] && from <= |s|
    ensures from <= i <= |s|
    ensures i < |s| ==> At(s, m, i)
    ensures forall j :: from <= j < i ==> !At(s, m, j)
    decreases |s| - from
  {
    if from == |s| || At(s, m, from) then from else FindFrom(s, m, from + 1)
  }

  /** Where the marker first occurs, or the length of the text when it does not. */
  function Find(s: string, m: string): (i: nat)
    requires m != []
    ensures i <= |s|
    ensures i < |s| ==> At(s, m, i) && i + |m| <= |s|
    ensures forall j :: 0 <= j < i ==> !At(s, m, j)
  {
    FindFrom(s, m, 0)
  }

  /** How many characters after a marker are a secret: the token run, if long enough. */
  function SecretLength(after: string): (n: nat)
    ensures n <= |after|
  {
    if TokenRun(after) >= 8 then TokenRun(after) else 0
  }

  function Shown(secretLength: nat): string {
    if secretLength == 0 then "" else PLACEHOLDER
  }

  /** One pass, as a function. */
  function Pass(v: string, m: string): string
    requires m != []
    decreases |v|
  {
    if Find(v, m) == |v| then v
    else
      var kept := Find(v, m) + |m|;
      var n := SecretLength(v[kept..]);
      v[..kept] + (Shown(n) + Pass(v[kept + n..], m))
  }

  lemma PassUnfold(v: string, m: string)
    requires m != [] && Find(v, m) < |v|
    ensures var k := Find(v, m) + |m|;
            var n := SecretLength(v[k..]);
            Pass(v, m) == v[..k] + (Shown(n) + Pass(v[k + n..], m))
  {
  }

  lemma MarkerPrefix(s: string, m: string)
    requires m != [] && Find(s, m) < |s|
    ensures s[..Find(s, m)] + m == s[..Find(s, m) + |m|]
  {
  }

  lemma Assoc(a: string, b: string, c: string, d: string)
    ensures a + b + c + d == a + (b + (c + d))
    ensures c == "" ==> a + b + d == a + (b + (c + d))
    ensures d == "" ==> a + b + c == a + (b + c)
  {
  }

  lemma DropDrop(v: string, k: nat, n: nat)
    requires k + n <= |v|
    ensures v[k..][n..] == v[k + n..]
  {
  }

  /** One iteration of the loop moves text from the rest to the output. */
  lemma PassStep(output: string, v: string, m: string)
    requires m != [] && Find(v, m) < |v|
    ensures var i := Find(v, m);
            var after := v[i + |m|..];
            var n := TokenRun(after);
            output + Pass(v, m) ==
              if n >= 8 then output + v[..i] + m + PLACEHOLDER + Pass(after[n..], m)
              else output + v[..i] + m + Pass(after, m)
  {
    hide Find, TokenRun, At, Pass;
    var i := Find(v, m);
    var k := i + |m|;
    var n := TokenRun(v[k..]);
    PassUnfold(v, m);
    MarkerPrefix(v, m);
    Assoc(output, v[..i], m, "");
    if n >= 8 {
      DropDrop(v, k, n);
      Assoc(output, v[..k], PLACEHOLDER, Pass(v[k + n..], m));
    } else {
      Assoc(output, v[..k], "", Pass(v[k..], m));
    }
  }

  lemma PassDone(v: string, m: string)
    requires m != [] && Find(v, m) == |v|
    ensures Pass(v, m) == v
  {
  }

  /** One pass, as the source's loop over the rest of the text. */
  method RedactAfterMarker(value: string, marker: string) returns (output: string)
    requires marker != []
    ensures output == Pass(value, marker)
  {
    hide Find, TokenRun, At, IsToken, Pass;
    output := "";
    var rest := value;
    while Find(rest, marker) < |rest|
      invariant output + Pass(rest, marker) == Pass(value, marker)
      decreases |rest|
    {
      var index := Find(rest, marker);
      PassStep(output, rest, marker);
      output := output + rest[..index];
      output := output + marker;
      var afterMarker := rest[index + |marker|..];
      var secretLength := TokenRun(afterMarker);
      if secretLength >= 8 {
        output := output + PLACEHOLDER;
        rest := afterMarker[secretLength..];
      } else {
        rest := afterMarker;
      }
    }
    PassDone(rest, marker);
    output := output + rest;
  }

  function Redacted(v: string): string {
    Pass(Pass(Pass(v, "Bearer "), "sk-"), "sk_m")
  }

  method RedactSecretFragments(value: string) returns (output: string)
    ensures output == Redacted(value)
  {
    output := RedactAfterMarker(value, "Bearer ");
    output := RedactAfterMarker(output, "sk-");
    output := RedactAfterMarker(output, "sk_m");
  }

  // ---- What "redacted" means ----------------------------------------------------------------

  /** Position `i` shows the marker followed by eight token characters. */
  predicate Exposed(s: string, m: string, i: nat) {
    At(s, m, i) && TokenRun(s[i + |m|..]) >= 8
  }

  ghost predicate Clean(s: string, m: string) {
    forall i :: !Exposed(s, m, i)
  }

  predicate NoBracket(q: string) {
    forall k :: 0 <= k < |q| ==> q[k] != '['
  }

  predicate OutsidePlaceholder(c: char) {
    forall k :: 0 <= k < |PLACEHOLDER| ==> PLACEHOLDER[k] != c
  }

  /** What the proofs need of a marker; all three of the source's satisfy it. */
  predicate MarkerOk(m: string) {
    && m != [] && NoBracket(m) && OutsidePlaceholder(m[0])
    && forall k :: 0 < k < |m| ==> m[k] != m[0]
  }

  lemma MarkersOk()
    ensures MarkerOk("Bearer ") && MarkerOk("sk-") && MarkerOk("sk_m")
  {
  }

  // ---- Occurrences in a concatenation ---------------------------------------------------------

  lemma AtLeft(a: string, b: string, q: string, i: nat)
    requires i + |q| <= |a|
    ensures At(a + b, q, i) <==> At(a, q, i)
  {
  }

  lemma AtRight(a: string, b: string, q: string, i: nat)
    requires i >= |a|
    ensures At(a + b, q, i) <==> At(b, q, i - |a|)
  {
  }

  lemma AtAcross(a: string, b: string, q: string, i: nat)
    requires i <= |a| < i + |q|
    ensures At(a + b, q, i) <==> At(a, q[..|a| - i], i) && At(b, q[|a| - i..], 0)
  {
  }

  lemma FirstChar(x: string, q: string, i: nat)
    requires At(x, q, i) && q != []
    ensures i < |x| && x[i] == q[0]
  {
  }

  /** Text in the output that starts outside a placeholder and holds no bracket was in
      the input; at the start of the output, at the start of the input. */
  lemma {:induction false} PrefixAgrees(v: string, m: string, q: string)
    requires m != [] && At(Pass(v, m), q, 0) && NoBracket(q)
    ensures At(v, q, 0)
    decreases |v|
  {
    hide Find, SecretLength, At, Pass;
    if Find(v, m) < |v| {
      PassUnfold(v, m);
      var k := Find(v, m) + |m|;
      var n := SecretLength(v[k..]);
      var x := Shown(n) + Pass(v[k + n..], m);
      assert v == v[..k] + v[k..];
      if |q| <= k {
        AtLeft(v[..k], x, q, 0);
        AtLeft(v[..k], v[k..], q, 0);
      } else {
        AtAcross(v[..k], x, q, 0);
        AtAcross(v[..k], v[k..], q, 0);
        if n == 0 {
          assert x == Pass(v[k..], m);
          PrefixAgrees(v[k..], m, q[k..]);
        } else {
          FirstChar(x, q[k..], 0);
        }
      }
    } else {
      PassDone(v, m);
    }
  }

  /** A bracket-free piece never starts on a placeholder. */
  lemma NothingShown(n: nat, tail: string, q: string)
    requires q != [] && NoBracket(q) && At(Shown(n) + tail, q, 0)
    ensures n == 0 && Shown(n) + tail == tail
  {
    FirstChar(Shown(n) + tail, q, 0);
  }

  /** A piece that reaches past the first marker found no secret there. */
  lemma LiftAcross(head: string, rest: string, n: nat, m: string, q: string, i: nat)
    requires m != [] && n == SecretLength(rest) && NoBracket(q)
    requires i < |head| < i + |q| && At(head + (Shown(n) + Pass(rest[n..], m)), q, i)
    ensures n == 0 && At(head + rest, q, i)
  {
    hide SecretLength, At, Pass, Shown;
    var tail := Pass(rest[n..], m);
    AtAcross(head, Shown(n) + tail, q, i);
    NothingShown(n, tail, q[|head| - i..]);
    assert rest[0..] == rest;
    PrefixAgrees(rest, m, q[|head| - i..]);
    AtAcross(head, rest, q, i);
  }

  /** A bracket-free piece that starts before the first secret stands at the same place. */
  lemma LiftStart(v: string, m: string, q: string, i: nat)
    requires m != [] && q != [] && At(Pass(v, m), q, i) && NoBracket(q)
    requires Find(v, m) < |v| && i < Find(v, m) + |m|
    ensures At(v, q, i)
    ensures i + |q| <= Find(v, m) + |m| || SecretLength(v[Find(v, m) + |m|..]) == 0
  {
    hide Find, SecretLength, At, Pass, Shown, NoBracket;
    PassUnfold(v, m);
    var k := Find(v, m) + |m|;
    var n := SecretLength(v[k..]);
    assert v == v[..k] + v[k..];
    DropDrop(v, k, n);
    if i + |q| <= k {
      AtLeft(v[..k], Shown(n) + Pass(v[k + n..], m), q, i);
      AtLeft(v[..k], v[k..], q, i);
    } else {
      LiftAcross(v[..k], v[k..], n, m, q, i);
    }
  }

  /** Where in the input a bracket-free piece of the output came from. */
  lemma {:induction false} Lift(v: string, m: string, q: string, i: nat) returns (j: nat)
    requires m != [] && q != [] && At(Pass(v, m), q, i) && NoBracket(q) && OutsidePlaceholder(q[0])
    ensures At(v, q, j)
    decreases |v|
  {
    hide Find, SecretLength, At, Pass;
    if Find(v, m) == |v| {
      PassDone(v, m);
      return i;
    }
    PassUnfold(v, m);
    var k := Find(v, m) + |m|;
    var n := SecretLength(v[k..]);
    var tail := Pass(v[k + n..], m);
    var x := Shown(n) + tail;
    assert v == v[..k] + v[k..] == v[..k + n] + v[k + n..];
    if i < k {
      j := i;
      LiftStart(v, m, q, i);
    } else {
      AtRight(v[..k], x, q, i);
      assert n > 0 && i < k + |Shown(n)| ==> x[i - k] == PLACEHOLDER[i - k];
      FirstChar(x, q, i - k);
      AtRight(Shown(n), tail, q, i - k);
      j := Lift(v[k + n..], m, q, i - k - |Shown(n)|);
      AtRight(v[..k + n], v[k + n..], q, k + n + j);
      j := k + n + j;
    }
  }

  // ---- Passes are complete, and later ones never undo earlier ones ---------------------------------

  /** An exposed secret's marker and first eight characters, as one piece. */
  predicate IsPiece(q: string, m: string) {
    && |q| == |m| + 8 && q[..|m|] == m
    && forall k :: |m| <= k < |q| ==> IsToken(q[k])
  }

  lemma PieceFacts(q: string, m: string)
    requires MarkerOk(m) && IsPiece(q, m)
    ensures NoBracket(q) && OutsidePlaceholder(q[0])
  {
  }

  lemma ExposedIffPiece(s: string, m: string, i: nat)
    requires i + |m| + 8 <= |s| || Exposed(s, m, i)
    ensures i + |m| + 8 <= |s|
    ensures Exposed(s, m, i) <==> IsPiece(s[i..i + |m| + 8], m)
  {
  }

  lemma LiftExposed(v: string, m: string, other: string, i: nat)
    requires MarkerOk(m) && other != [] && Exposed(Pass(v, other), m, i)
    ensures exists j :: Exposed(v, m, j)
  {
    hide Pass, Exposed;
    var s := Pass(v, other);
    ExposedIffPiece(s, m, i);
    var q := s[i..i + |m| + 8];
    PieceFacts(q, m);
    var j := Lift(v, other, q, i);
    ExposedIffPiece(v, m, j);
  }

  /** A marker that was clean stays clean under a pass for any other marker. */
  lemma KeepsClean(v: string, m: string, other: string)
    requires MarkerOk(m) && other != [] && Clean(v, m)
    ensures Clean(Pass(v, other), m)
  {
    var s := Pass(v, other);
    forall i ensures !Exposed(s, m, i) {
      if Exposed(s, m, i) {
        LiftExposed(v, m, other, i);
      }
    }
  }

  lemma NoMarkerNotExposed(v: string, m: string, i: nat)
    requires m != [] && Find(v, m) == |v|
    ensures !Exposed(v, m, i)
  {
  }

  lemma NoOverlap(v: string, m: string, i: nat, j: nat)
    requires MarkerOk(m) && At(v, m, i) && At(v, m, j) && i <= j
    ensures i == j || i + |m| <= j
  {
    FirstChar(v, m, j);
    assert j < i + |m| ==> v[j] == v[i..i + |m|][j - i] == m[j - i];
  }

  lemma PieceNotAtFirst(v: string, m: string, q: string, i: nat)
    requires MarkerOk(m) && IsPiece(q, m) && Find(v, m) < |v| && i < Find(v, m) + |m|
    requires At(v, q, i)
    ensures i + |q| > Find(v, m) + |m| && SecretLength(v[Find(v, m) + |m|..]) != 0
  {
    hide Find;
    var f := Find(v, m);
    ExposedIffPiece(v, m, i);
    assert At(v, m, i);
    NoOverlap(v, m, if i < f then i else f, if i < f then f else i);
    assert i == f;
  }

  /** Up to the end of the first marker nothing is exposed: an earlier marker would have
      been found first, and the first one's secret is gone or too short. */
  lemma StartNotExposed(v: string, m: string, i: nat)
    requires MarkerOk(m) && Find(v, m) < |v| && i < Find(v, m) + |m|
    ensures !Exposed(Pass(v, m), m, i)
  {
    hide Pass, Exposed, SecretLength;
    var s := Pass(v, m);
    var f := Find(v, m);
    if Exposed(s, m, i) {
      ExposedIffPiece(s, m, i);
      var q := s[i..i + |m| + 8];
      PieceFacts(q, m);
      LiftStart(v, m, q, i);
      PieceNotAtFirst(v, m, q, i);
    }
  }

  lemma ExposedRight(a: string, b: string, m: string, i: nat)
    requires i >= |a|
    ensures Exposed(a + b, m, i) <==> Exposed(b, m, i - |a|)
  {
    AtRight(a, b, m, i);
    if At(b, m, i - |a|) {
      assert (a + b)[i + |m|..] == b[i - |a| + |m|..];
    }
  }

  lemma PlaceholderNotExposed(n: nat, tail: string, m: string, i: nat)
    requires MarkerOk(m) && i < |Shown(n)|
    ensures !Exposed(Shown(n) + tail, m, i)
  {
  }

  /** After its own pass a marker is clean. */
  lemma {:induction false} CleanAfterPass(v: string, m: string, i: nat)
    requires MarkerOk(m)
    ensures !Exposed(Pass(v, m), m, i)
    decreases |v|
  {
    hide Find, SecretLength, Exposed;
    if Find(v, m) == |v| {
      NoMarkerNotExposed(v, m, i);
    } else {
      var k := Find(v, m) + |m|;
      var n := SecretLength(v[k..]);
      var a, b := v[..k], Shown(n) + Pass(v[k + n..], m);
      if i < k {
        StartNotExposed(v, m, i);
      } else {
        ExposedRight(a, b, m, i);
        if i - k < |Shown(n)| {
          PlaceholderNotExposed(n, Pass(v[k + n..], m), m, i - k);
        } else {
          ExposedRight(Shown(n), Pass(v[k + n..], m), m, i - k);
          CleanAfterPass(v[k + n..], m, i - k - |Shown(n)|);
        }
      }
    }
  }

  // ---- A clean text is left alone ------------------------------------------------------------------

  lemma FirstMarkerClean(v: string, m: string)
    requires m != [] && Clean(v, m) && Find(v, m) < |v|
    ensures SecretLength(v[Find(v, m) + |m|..]) == 0
  {
    assert !Exposed(v, m, Find(v, m));
  }

  lemma RestIsClean(v: string, m: string, k: nat)
    requires Clean(v, m) && k <= |v|
    ensures Clean(v[k..], m)
  {
    hide Exposed;
    assert v == v[..k] + v[k..];
    forall i: nat ensures !Exposed(v[k..], m, i) {
      ExposedRight(v[..k], v[k..], m, k + i);
    }
  }

  lemma {:induction false} CleanIsFixed(v: string, m: string)
    requires MarkerOk(m) && Clean(v, m)
    ensures Pass(v, m) == v
    decreases |v|
  {
    hide Find, Clean, SecretLength, Pass;
    if Find(v, m) == |v| {
      PassDone(v, m);
    } else {
      var k := Find(v, m) + |m|;
      FirstMarkerClean(v, m);
      PassUnfold(v, m);
      RestIsClean(v, m, k);
      CleanIsFixed(v[k..], m);
      assert v[k + 0..] == v[k..];
      assert v == v[..k] + ("" + v[k..]);
    }
  }

  /** A pass changes a text exactly when the text exposes something. */
  lemma PassFixesExactlyClean(v: string, m: string)
    requires MarkerOk(m)
    ensures Pass(v, m) == v <==> Clean(v, m)
  {
    hide Pass, Exposed;
    if Clean(v, m) {
      CleanIsFixed(v, m);
    } else if Pass(v, m) == v {
      forall i ensures !Exposed(v, m, i) {
        CleanAfterPass(v, m, i);
      }
    }
  }

  ghost predicate AllClean(s: string) {
    Clean(s, "Bearer ") && Clean(s, "sk-") && Clean(s, "sk_m")
  }

  lemma PassCleans(v: string, m: string)
    requires MarkerOk(m)
    ensures Clean(Pass(v, m), m)
  {
    forall i ensures !Exposed(Pass(v, m), m, i) {
      CleanAfterPass(v, m, i);
    }
  }

  /** Completeness: after the three passes no marker is followed by eight or more token
      characters, whatever the text. */
  lemma RedactionIsComplete(v: string)
    ensures AllClean(Redacted(v))
  {
    hide Pass, Exposed;
    MarkersOk();
    var a := Pass(v, "Bearer ");
    var b := Pass(a, "sk-");
    var c := Pass(b, "sk_m");
    PassCleans(v, "Bearer ");
    PassCleans(a, "sk-");
    PassCleans(b, "sk_m");
    KeepsClean(a, "Bearer ", "sk-");
    KeepsClean(b, "Bearer ", "sk_m");
    KeepsClean(b, "sk-", "sk_m");
  }

  lemma FixedWhenClean(s: string)
    requires AllClean(s)
    ensures Redacted(s) == s
  {
    hide Pass, Clean;
    MarkersOk();
    CleanIsFixed(s, "Bearer ");
    CleanIsFixed(s, "sk-");
    CleanIsFixed(s, "sk_m");
  }

  /** Redacting again changes nothing, and a text is unchanged exactly when nothing in
      it was exposed. */
  lemma RedactionIsStable(v: string)
    ensures Redacted(Redacted(v)) == Redacted(v)
    ensures Redacted(v) == v <==> AllClean(v)
  {
    hide Pass, Exposed, Clean;
    RedactionIsComplete(v);
    FixedWhenClean(Redacted(v));
    if AllClean(v) {
      FixedWhenClean(v);
    }
  }

  // ---- Nothing but secrets is removed ----------------------------------------------------------------

  /** A piece of the text: what is kept, and the secret behind it. */
  datatype Cut = Cut(kept: string, secret: string)

  function Original(cuts: seq<Cut>, tail: string): string {
    if cuts == [] then tail else cuts[0].kept + (cuts[0].secret + Original(cuts[1..], tail))
  }

  function Masked(cuts: seq<Cut>, tail: string): string {
    if cuts == [] then tail else cuts[0].kept + (Shown(|cuts[0].secret|) + Masked(cuts[1..], tail))
  }

  /** Each piece keeps text up to and including a marker; its secret is empty or at least
      eight token characters. */
  predicate CutOk(c: Cut, m: string) {
    && |m| <= |c.kept| && c.kept[|c.kept| - |m|..] == m
    && (c.secret == [] || |c.secret| >= 8)
    && forall k :: 0 <= k < |c.secret| ==> IsToken(c.secret[k])
  }

  lemma NoCuts(tail: string)
    ensures Original([], tail) == tail && Masked([], tail) == tail
  {
  }

  lemma MarkerEnds(v: string, m: string)
    requires m != [] && Find(v, m) < |v|
    ensures var k := Find(v, m) + |m|; v[..k][k - |m|..] == m
  {
    hide Find;
    var k := Find(v, m) + |m|;
    assert v[..k][k - |m|..] == v[k - |m|..k];
  }

  lemma SecretIsToken(rest: string)
    ensures var n := SecretLength(rest);
            (n == 0 || n >= 8) && forall j :: 0 <= j < n ==> IsToken(rest[j])
  {
    hide IsToken;
  }

  lemma FirstCutOk(v: string, m: string)
    requires m != [] && Find(v, m) < |v|
    ensures var k := Find(v, m) + |m|;
            var n := SecretLength(v[k..]);
            CutOk(Cut(v[..k], v[k..k + n]), m)
  {
    hide Find, SecretLength, IsToken, At;
    MarkerEnds(v, m);
    SecretIsToken(v[Find(v, m) + |m|..]);
  }

  lemma FirstCut(c: Cut, rest: seq<Cut>, tail: string)
    ensures Original([c] + rest, tail) == c.kept + (c.secret + Original(rest, tail))
    ensures Masked([c] + rest, tail) == c.kept + (Shown(|c.secret|) + Masked(rest, tail))
  {
  }

  lemma ThreeParts(v: string, i: nat, j: nat)
    requires i <= j <= |v|
    ensures v == v[..i] + (v[i..j] + v[j..])
  {
  }

  /** A pass only ever replaces whole secrets behind markers: the input and the output are
      the same pieces, with and without their secrets. */
  lemma {:induction false} PassRemovesOnlySecrets(v: string, m: string) returns (cuts: seq<Cut>, tail: string)
    requires m != []
    ensures v == Original(cuts, tail) && Pass(v, m) == Masked(cuts, tail)
    ensures forall i :: 0 <= i < |cuts| ==> CutOk(cuts[i], m)
    decreases |v|
  {
    hide Find, SecretLength, CutOk, Pass, Original, Masked;
    if Find(v, m) == |v| {
      PassDone(v, m);
      NoCuts(v);
      return [], v;
    }
    PassUnfold(v, m);
    var k := Find(v, m) + |m|;
    var n := SecretLength(v[k..]);
    var rest;
    rest, tail := PassRemovesOnlySecrets(v[k + n..], m);
    var c := Cut(v[..k], v[k..k + n]);
    FirstCutOk(v, m);
    cuts := [c] + rest;
    FirstCut(c, rest, tail);
    ThreeParts(v, k, k + n);
  }
}
