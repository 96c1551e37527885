/**
 * The role-name suggestion (src/assimilate-cmd.ts): the two-row edit distance
 * loop, shown to be the least number of single-character edits over all edit
 * sequences, and the choice of a suggestion.
 */
module EditDistance {
  import opened Common

  type Text = seq<char>

  function Min(a: nat, b: nat): nat { if a <= b then a else b }

  function Min3(a: nat, b: nat, c: nat): nat { Min(a, Min(b, c)) }

  function Init(s: Text): Text
    requires s != []
  {
    s[..|s| - 1]
  }

  function Last(s: Text): char
    requires s != []
  {
    s[|s| - 1]
  }

  /** The recurrence over last characters that the table is built from. */
  function Distance(a: Text, b: Text): nat
    decreases |a| + |b|
  {
    if a == [] then |b|
    else if b == [] then |a|
    else Min3(
      Distance(a, Init(b)) + 1,
      Distance(Init(a), b) + 1,
      Distance(Init(a), Init(b)) + if Last(a) == Last(b) then 0 else 1)
  }

  // ---- Edit sequences ----

  datatype Edit =
    | Insert(at: nat, c: char)
    | Delete(at: nat)
    | Substitute(at: nat, c: char)

  predicate Applies(e: Edit, s: Text) { if e.Insert? then e.at <= |s| else e.at < |s| }

  function Apply(e: Edit, s: Text): Text
    requires Applies(e, s)
  {
    match e
    case Insert(at, c) => s[..at] + [c] + s[at..]
    case Delete(at) => s[..at] + s[at + 1..]
    case Substitute(at, c) => s[at := c]
  }

  /** The edits, one after another, turn `a` into `b`. */
  predicate Turns(edits: seq<Edit>, a: Text, b: Text)
    decreases |edits|
  {
    if edits == [] then a == b
    else Applies(edits[0], a) && Turns(edits[1..], Apply(edits[0], a), b)
  }

  // ---- No edit sequence is shorter ----

  lemma Snoc(a: Text, x: char)
    ensures Init(a + [x]) == a && Last(a + [x]) == x
  {
  }

  /** Dropping or adding the last character changes a distance by at most one. */
  lemma {:induction false} LastCostsOne(a: Text, x: char, b: Text)
    ensures Distance(a, b) <= Distance(a + [x], b) + 1
    ensures Distance(a + [x], b) <= Distance(a, b) + 1
    decreases |b|
  {
    Snoc(a, x);
    if b != [] {
      LastCostsOne(a, x, Init(b));
      if a != [] {
        assert Distance(a, b) <= Distance(a, Init(b)) + 1;
      }
    }
  }

  /** Another last character changes a distance by at most one. */
  lemma {:induction false} SubstituteLast(a: Text, x: char, y: char, b: Text)
    ensures Distance(a + [x], b) <= Distance(a + [y], b) + 1
    decreases |b|
  {
    Snoc(a, x);
    Snoc(a, y);
    if b != [] {
      SubstituteLast(a, x, y, Init(b));
    }
  }

  /** A one-edit bound carries over to texts with the same last character. */
  lemma {:induction false} SameLast(u: Text, v: Text, x: char, b: Text)
    requires forall t: Text :: Distance(u, t) <= Distance(v, t) + 1
    ensures Distance(u + [x], b) <= Distance(v + [x], b) + 1
    decreases |b|
  {
    Snoc(u, x);
    Snoc(v, x);
    if b == [] {
      assert Distance(u, []) <= Distance(v, []) + 1;
      assert Distance(u, []) == |u| && Distance(v, []) == |v|;
    } else {
      SameLast(u, v, x, Init(b));
      assert Distance(u, b) <= Distance(v, b) + 1;
      assert Distance(u, Init(b)) <= Distance(v, Init(b)) + 1;
    }
  }

  /** One edit changes the distance to any target by at most one. */
  lemma {:induction false} EditCostsOne(e: Edit, s: Text, b: Text)
    requires Applies(e, s)
    ensures Distance(s, b) <= Distance(Apply(e, s), b) + 1
    decreases |s|
  {
    var t := Apply(e, s);
    if e.Insert? && e.at == |s| {
      assert t == s + [e.c];
      LastCostsOne(s, e.c, b);
    } else if e.Delete? && e.at == |s| - 1 {
      assert s == t + [Last(s)];
      LastCostsOne(t, Last(s), b);
    } else if e.Substitute? && e.at == |s| - 1 {
      assert s == Init(s) + [Last(s)] && t == Init(s) + [e.c];
      SubstituteLast(Init(s), Last(s), e.c, b);
    } else {
      var u := Init(s);
      assert s == u + [Last(s)] && t == Apply(e, u) + [Last(s)];
      forall d: Text
        ensures Distance(u, d) <= Distance(Apply(e, u), d) + 1
      {
        EditCostsOne(e, u, d);
      }
      SameLast(u, Apply(e, u), Last(s), b);
    }
  }

  lemma {:induction false} DistanceToSelf(a: Text)
    ensures Distance(a, a) == 0
  {
    if a != [] { DistanceToSelf(Init(a)); }
  }

  lemma {:induction false} NoShorterEdits(edits: seq<Edit>, a: Text, b: Text)
    requires Turns(edits, a, b)
    ensures Distance(a, b) <= |edits|
    decreases |edits|
  {
    if edits == [] {
      DistanceToSelf(a);
    } else {
      NoShorterEdits(edits[1..], Apply(edits[0], a), b);
      EditCostsOne(edits[0], a, b);
    }
  }

  // ---- Some edit sequence is that short ----

  lemma {:induction false} TurnsThenOne(edits: seq<Edit>, a: Text, b: Text, e: Edit)
    requires Turns(edits, a, b) && Applies(e, b)
    ensures Turns(edits + [e], a, Apply(e, b))
    decreases |edits|
  {
    if edits == [] {
      assert edits + [e] == [e];
    } else {
      TurnsThenOne(edits[1..], Apply(edits[0], a), b, e);
      assert (edits + [e])[1..] == edits[1..] + [e];
    }
  }

  /** The same edits work with a character left alone at the end. */
  lemma {:induction false} TurnsWithTail(edits: seq<Edit>, a: Text, b: Text, x: char)
    requires Turns(edits, a, b)
    ensures Turns(edits, a + [x], b + [x])
    decreases |edits|
  {
    if edits != [] {
      var e := edits[0];
      assert Apply(e, a + [x]) == Apply(e, a) + [x];
      TurnsWithTail(edits[1..], Apply(e, a), b, x);
    }
  }

  lemma InsertLast(edits: seq<Edit>, a: Text, b: Text) returns (longer: seq<Edit>)
    requires b != [] && Turns(edits, a, Init(b))
    ensures Turns(longer, a, b) && |longer| == |edits| + 1
  {
    var e := Insert(|b| - 1, Last(b));
    TurnsThenOne(edits, a, Init(b), e);
    assert Apply(e, Init(b)) == b;
    longer := edits + [e];
  }

  lemma DeleteLast(edits: seq<Edit>, a: Text, b: Text) returns (longer: seq<Edit>)
    requires a != [] && Turns(edits, Init(a), b)
    ensures Turns(longer, a, b) && |longer| == |edits| + 1
  {
    var x := Last(a);
    TurnsWithTail(edits, Init(a), b, x);
    assert Init(a) + [x] == a;
    var e := Delete(|b|);
    TurnsThenOne(edits, a, b + [x], e);
    assert Apply(e, b + [x]) == b;
    longer := edits + [e];
  }

  lemma SubstituteAtEnd(edits: seq<Edit>, a: Text, front: Text, x: char, y: char)
    requires Turns(edits, a, front + [x])
    ensures Turns(edits + [Substitute(|front|, y)], a, front + [y])
  {
    var e := Substitute(|front|, y);
    TurnsThenOne(edits, a, front + [x], e);
    assert Apply(e, front + [x]) == front + [y];
  }

  lemma KeepOrSubstituteLast(edits: seq<Edit>, a: Text, b: Text) returns (longer: seq<Edit>)
    requires a != [] && b != [] && Turns(edits, Init(a), Init(b))
    ensures Turns(longer, a, b) && |longer| == |edits| + if Last(a) == Last(b) then 0 else 1
  {
    var x, y := Last(a), Last(b);
    TurnsWithTail(edits, Init(a), Init(b), x);
    assert Init(a) + [x] == a && Init(b) + [y] == b;
    if x == y {
      longer := edits;
    } else {
      SubstituteAtEnd(edits, a, Init(b), x, y);
      longer := edits + [Substitute(|b| - 1, y)];
    }
  }

  lemma {:induction false} ShortestEdits(a: Text, b: Text) returns (edits: seq<Edit>)
    ensures Turns(edits, a, b) && |edits| == Distance(a, b)
    decreases |a| + |b|
  {
    if a == [] && b == [] {
      edits := [];
    } else if b != [] && Distance(a, b) == Distance(a, Init(b)) + 1 {
      var shorter := ShortestEdits(a, Init(b));
      edits := InsertLast(shorter, a, b);
    } else if a != [] && Distance(a, b) == Distance(Init(a), b) + 1 {
      var shorter := ShortestEdits(Init(a), b);
      edits := DeleteLast(shorter, a, b);
    } else {
      var shorter := ShortestEdits(Init(a), Init(b));
      edits := KeepOrSubstituteLast(shorter, a, b);
    }
  }

  /** The distance is the least length of an edit sequence from `a` to `b`. */
  lemma DistanceIsOptimal(a: Text, b: Text)
    ensures exists edits :: Turns(edits, a, b) && |edits| == Distance(a, b)
    ensures forall edits :: Turns(edits, a, b) ==> Distance(a, b) <= |edits|
  {
    var edits := ShortestEdits(a, b);
    forall edits | Turns(edits, a, b)
      ensures Distance(a, b) <= |edits|
    {
      NoShorterEdits(edits, a, b);
    }
  }

  // ---- The two-row loop ----

  lemma Cell(a: Text, b: Text, i: nat, j: nat)
    requires 0 < i <= |a| && 0 < j <= |b|
    ensures Distance(a[..i], b[..j]) == Min3(
      Distance(a[..i], b[..j - 1]) + 1,
      Distance(a[..i - 1], b[..j]) + 1,
      Distance(a[..i - 1], b[..j - 1]) + if a[i - 1] == b[j - 1] then 0 else 1)
  {
    assert Init(a[..i]) == a[..i - 1] && Init(b[..j]) == b[..j - 1];
  }

  /** `row` holds the distances from the first `i` characters of `a`, up to column `n`. */
  ghost predicate Row(row: seq<nat>, a: Text, b: Text, i: nat, n: nat)
    requires i <= |a|
  {
    n <= |row| == |b| + 1 && forall k :: 0 <= k < n ==> row[k] == Distance(a[..i], b[..k])
  }

  lemma FirstRowGrows(row: seq<nat>, a: Text, b: Text, j: nat)
    requires Row(row, a, b, 0, j) && j <= |b|
    ensures Row(row[j := j], a, b, 0, j + 1)
  {
    assert a[..0] == [] && |b[..j]| == j;
  }

  lemma RowStarts(row: seq<nat>, a: Text, b: Text, i: nat)
    requires i <= |a| && |row| == |b| + 1
    ensures Row(row[0 := i], a, b, i, 1)
  {
    assert b[..0] == [] && |a[..i]| == i;
  }

  lemma RowSet(row: seq<nat>, a: Text, b: Text, i: nat, j: nat)
    requires i <= |a| && j <= |b| && Row(row, a, b, i, j)
    ensures Row(row[j := Distance(a[..i], b[..j])], a, b, i, j + 1)
  {
  }

  lemma RowGrows(prev: seq<nat>, curr: seq<nat>, a: Text, b: Text, i: nat, j: nat, d: nat)
    requires 0 < i <= |a| && 0 < j <= |b|
    requires Row(prev, a, b, i - 1, |b| + 1) && Row(curr, a, b, i, j)
    requires d == Min3(
      curr[j - 1] + 1, prev[j] + 1, prev[j - 1] + if a[i - 1] == b[j - 1] then 0 else 1)
    ensures Row(curr[j := d], a, b, i, j + 1)
  {
    assert prev[j] == Distance(a[..i - 1], b[..j]) && prev[j - 1] == Distance(a[..i - 1], b[..j - 1]);
    assert curr[j - 1] == Distance(a[..i], b[..j - 1]);
    Cell(a, b, i, j);
    RowSet(curr, a, b, i, j);
  }

  /** One round of the outer loop, up to the copy of `curr` over `prev`. */
  method FillRow(a: Text, b: Text, i: nat, prev: array<nat>, curr: array<nat>)
    requires 0 < i <= |a| && prev != curr && curr.Length == |b| + 1
    requires Row(prev[..], a, b, i - 1, |b| + 1)
    modifies curr
    ensures Row(curr[..], a, b, i, |b| + 1)
  {
    RowStarts(curr[..], a, b, i);
    curr[0] := i;
    for j := 1 to |b| + 1
      invariant prev[..] == old(prev[..])
      invariant Row(curr[..], a, b, i, j)
    {
      var cost := if a[i - 1] == b[j - 1] then 0 else 1;
      var d := Min3(curr[j - 1] + 1, prev[j] + 1, prev[j - 1] + cost);
      RowGrows(prev[..], curr[..], a, b, i, j, d);
      curr[j] := d;
    }
  }

  method Levenshtein(a: Text, b: Text) returns (d: nat)
    ensures d == Distance(a, b)
  {
    if a == b {
      DistanceToSelf(a);
      return 0;
    }
    if |a| == 0 { return |b|; }
    if |b| == 0 { return |a|; }
    var prev := new nat[|b| + 1];
    var curr := new nat[|b| + 1];
    for j := 0 to |b| + 1
      invariant Row(prev[..], a, b, 0, j)
    {
      FirstRowGrows(prev[..], a, b, j);
      prev[j] := j;
    }
    for i := 1 to |a| + 1
      invariant Row(prev[..], a, b, i - 1, |b| + 1)
    {
      FillRow(a, b, i, prev, curr);
      ghost var row := curr[..];
      for j := 0 to |b| + 1
        invariant curr[..] == row
        invariant prev[..j] == curr[..j]
      {
        prev[j] := curr[j];
      }
      assert prev[..] == row;
    }
    assert a[..|a|] == a && b[..|b|] == b;
    return prev[|b|];
  }

  // ---- The suggestion ----

  const MAX_DISTANCE: nat := 2

  function Score(lower: Text -> Text, input: Text, candidate: Text): nat {
    Distance(lower(input), lower(candidate))
  }

  /** Candidate `i` is the earliest of least distance, and close enough. */
  predicate IsSuggestion(lower: Text -> Text, input: Text, candidates: seq<Text>, i: nat) {
    && i < |candidates|
    && Score(lower, input, candidates[i]) <= MAX_DISTANCE
    && (forall k :: 0 <= k < i ==> Score(lower, input, candidates[i]) < Score(lower, input, candidates[k]))
    && (forall k :: 0 <= k < |candidates| ==> Score(lower, input, candidates[i]) <= Score(lower, input, candidates[k]))
  }

  /** `lower` stands for the case folding of the host language. */
  method SuggestRoleName(lower: Text -> Text, input: Text, candidates: seq<Text>) returns (name: Option<Text>)
    ensures name.Some? ==> exists i: nat :: IsSuggestion(lower, input, candidates, i) && candidates[i] == name.value
    ensures name.None? ==> forall k :: 0 <= k < |candidates| ==> Score(lower, input, candidates[k]) > MAX_DISTANCE
  {
    name := None;
    var distance := 0;
    ghost var best: nat := 0;
    for k := 0 to |candidates|
      invariant name.None? ==> forall j :: 0 <= j < k ==> Score(lower, input, candidates[j]) > MAX_DISTANCE
      invariant name.Some? ==>
        && IsSuggestion(lower, input, candidates[..k], best)
        && candidates[best] == name.value && distance == Score(lower, input, candidates[best])
    {
      var d := Levenshtein(lower(input), lower(candidates[k]));
      if d <= MAX_DISTANCE && (name.None? || d < distance) {
        name := Some(candidates[k]);
        distance := d;
        best := k;
      }
    }
    assert candidates[..|candidates|] == candidates;
  }
}
