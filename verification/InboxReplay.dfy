/**
 * The arm-replay planner of the inbox monitor (src/inbox-monitor.ts).
 *
 * An inbox is a sequence of physical lines.  A line that matches the entry
 * pattern is an `Entry`; its timestamp is `None` when the matched text is not
 * a date.  SHA-256 is taken to be injective, so a cursor holds the line itself.
 */
module InboxReplay {
  import opened Common

  datatype Line =
    | Entry(text: string, ts: Option<int>)
    | Continuation(text: string)

  /** The stored cursor: the last handled entry line and a lower time bound. */
  datatype Cursor = Cursor(line: Option<Line>, sinceMs: int)

  datatype Plan = Plan(
    history: set<Line>,
    replay: seq<Line>,
    omitted: nat,
    cursorAtArm: Option<Cursor>,
    replaySinceMs: int)

  const ARM_REPLAY_CAP: nat := 20
  const RECENT_EMITTED_LINE_CAP: nat := 1024
  const SKEW_MS: nat := 5000

  predicate TsAtLeast(line: Line, bound: int) {
    line.Entry? && line.ts.Some? && line.ts.value >= bound
  }

  function CursorForLine(line: Line, sinceMs: int): (c: Option<Cursor>)
    ensures c.Some? <==> line.Entry?
  {
    if line.Entry? then Some(Cursor(Some(line), sinceMs)) else None
  }

  /** What the strict decoder accepts back from a stored cursor. */
  predicate Usable(c: Cursor) {
    c.sinceMs >= 0 && (c.line.Some? ==> c.line.value.Entry? && c.line.value.ts.Some?)
  }

  function Decode(stored: Option<Cursor>): (c: Option<Cursor>)
    ensures c.Some? ==> c == stored && Usable(c.value)
  {
    if stored.Some? && Usable(stored.value) then stored else None
  }

  function EntriesOf(lines: seq<Line>): seq<Line> {
    if lines == [] then []
    else
      var es := EntriesOf(lines[..|lines| - 1]);
      var last := lines[|lines| - 1];
      if last.Entry? then es + [last] else es
  }

  lemma {:induction false} EntriesOfConcat(a: seq<Line>, b: seq<Line>)
    ensures EntriesOf(a + b) == EntriesOf(a) + EntriesOf(b)
  {
    if b == [] {
      assert a + b == a;
    } else {
      var b' := b[..|b| - 1];
      assert (a + b)[..|a + b| - 1] == a + b';
      EntriesOfConcat(a, b');
    }
  }

  lemma {:induction false} EntriesOfMember(lines: seq<Line>, x: Line)
    ensures x in EntriesOf(lines) <==> x in lines && x.Entry?
  {
    if lines != [] {
      var n := |lines| - 1;
      EntriesOfMember(lines[..n], x);
      assert lines == lines[..n] + [lines[n]];
    }
  }

  /** Position of the first copy of `line`, if there is one. */
  function FirstIndex(entries: seq<Line>, line: Line): (i: Option<nat>)
    ensures i.Some? ==> i.value < |entries| && entries[i.value] == line && line !in entries[..i.value]
    ensures i.None? ==> line !in entries
  {
    if entries == [] then None
    else
      var i := FirstIndex(entries[..|entries| - 1], line);
      if i.Some? then i
      else if entries[|entries| - 1] == line then Some(|entries| - 1)
      else
        assert entries == entries[..|entries| - 1] + [entries[|entries| - 1]];
        None
  }

  function OlderThan(entries: seq<Line>, floor: int): seq<Line> {
    if entries == [] then []
    else
      var r := OlderThan(entries[..|entries| - 1], floor);
      var last := entries[|entries| - 1];
      if TsAtLeast(last, floor) then r else r + [last]
  }

  function AtOrAfter(entries: seq<Line>, floor: int): seq<Line> {
    if entries == [] then []
    else
      var r := AtOrAfter(entries[..|entries| - 1], floor);
      var last := entries[|entries| - 1];
      if TsAtLeast(last, floor) then r + [last] else r
  }

  lemma {:induction false} FloorMembers(entries: seq<Line>, floor: int, x: Line)
    ensures x in OlderThan(entries, floor) <==> x in entries && !TsAtLeast(x, floor)
    ensures x in AtOrAfter(entries, floor) <==> x in entries && TsAtLeast(x, floor)
  {
    if entries != [] {
      var n := |entries| - 1;
      FloorMembers(entries[..n], floor, x);
      assert entries == entries[..n] + [entries[n]];
    }
  }

  /** The entries a cursor has already passed, and those it has not. */
  function BeforeCursor(entries: seq<Line>, c: Cursor): seq<Line>
    requires Usable(c)
  {
    if c.line.None? then []
    else
      var i := FirstIndex(entries, c.line.value);
      if i.Some? then entries[..i.value + 1] else OlderThan(entries, c.line.value.ts.value)
  }

  function AfterCursor(entries: seq<Line>, c: Cursor): seq<Line>
    requires Usable(c)
  {
    if c.line.None? then entries
    else
      var i := FirstIndex(entries, c.line.value);
      if i.Some? then entries[i.value + 1..] else AtOrAfter(entries, c.line.value.ts.value)
  }

  /** Lines of `after` at or past `since`, not in `before`, first copies only, in order. */
  function Candidates(after: seq<Line>, before: seq<Line>, since: int): seq<Line> {
    if after == [] then []
    else
      var r := Candidates(after[..|after| - 1], before, since);
      var last := after[|after| - 1];
      if TsAtLeast(last, since) && last !in before && last !in r then r + [last] else r
  }

  lemma {:induction false} CandidatesMember(after: seq<Line>, before: seq<Line>, since: int, x: Line)
    ensures x in Candidates(after, before, since) <==> x in after && TsAtLeast(x, since) && x !in before
  {
    if after != [] {
      var n := |after| - 1;
      CandidatesMember(after[..n], before, since, x);
      assert after == after[..n] + [after[n]];
    }
  }

  lemma {:induction false} CandidatesDistinct(after: seq<Line>, before: seq<Line>, since: int, i: nat, j: nat)
    requires i < j < |Candidates(after, before, since)|
    ensures Candidates(after, before, since)[i] != Candidates(after, before, since)[j]
  {
    var r := Candidates(after[..|after| - 1], before, since);
    if j < |r| {
      CandidatesDistinct(after[..|after| - 1], before, since, i, j);
    } else {
      assert r[i] in r;
    }
  }

  function SetOf(s: seq<Line>): set<Line> { set x | x in s }

  /** Every entry the next arm will replay or count, given the file and the stored cursor. */
  function Ahead(lines: seq<Line>, c: Cursor): seq<Line>
    requires Usable(c)
  {
    var es := EntriesOf(lines);
    Candidates(AfterCursor(es, c), BeforeCursor(es, c), c.sinceMs)
  }

  lemma AheadMember(lines: seq<Line>, c: Cursor, x: Line)
    requires Usable(c)
    ensures x in Ahead(lines, c) <==>
      && x in AfterCursor(EntriesOf(lines), c)
      && x !in BeforeCursor(EntriesOf(lines), c)
      && TsAtLeast(x, c.sinceMs)
  {
    CandidatesMember(AfterCursor(EntriesOf(lines), c), BeforeCursor(EntriesOf(lines), c), c.sinceMs, x);
  }

  function Without(lines: seq<Line>, replay: seq<Line>): set<Line> { set x | x in lines && x !in replay }

  function Excess(n: nat, cap: nat): nat { if n > cap then n - cap else 0 }

  function PlanFor(lines: seq<Line>, cursor: Option<Cursor>, armSinceMs: int, cap: nat): Plan
    requires cap >= 1
    requires cursor.Some? ==> Usable(cursor.value)
  {
    if cursor.None? then
      var es := EntriesOf(lines);
      var at := if es == [] then Cursor(None, armSinceMs) else Cursor(Some(es[|es| - 1]), armSinceMs);
      Plan(SetOf(lines), [], 0, Some(at), armSinceMs)
    else
      var ahead := Ahead(lines, cursor.value);
      var omitted := Excess(|ahead|, cap);
      var replay := ahead[omitted..];
      Plan(Without(lines, replay), replay, omitted, None, cursor.value.sinceMs)
  }

  // ---- What a plan is, without its functions ----

  /** First copies stay in file order. */
  lemma {:induction false} CandidatesInOrder(after: seq<Line>, before: seq<Line>, since: int, i: nat, j: nat)
    requires i < j < |Candidates(after, before, since)|
    ensures
      var r := Candidates(after, before, since);
      && FirstIndex(after, r[i]).Some? && FirstIndex(after, r[j]).Some?
      && FirstIndex(after, r[i]).value < FirstIndex(after, r[j]).value
  {
    var n := |after| - 1;
    var front := after[..n];
    var r := Candidates(front, before, since);
    CandidatesMember(front, before, since, Candidates(after, before, since)[i]);
    assert r[i] in r;
    CandidatesMember(front, before, since, r[i]);
    if j < |r| {
      CandidatesInOrder(front, before, since, i, j);
    } else {
      CandidatesMember(front, before, since, after[n]);
    }
  }

  /** After the cursor and not before it: the first copy of `e` comes later than that of `l`. */
  lemma PositionIff(es: seq<Line>, l: Line, e: Line)
    requires l in es && e in es
    ensures
      var i := FirstIndex(es, l).value;
      e in es[i + 1..] && e !in es[..i + 1] <==> i < FirstIndex(es, e).value
  {
    var i, j := FirstIndex(es, l).value, FirstIndex(es, e).value;
    if i < j {
      assert es[i + 1..][j - (i + 1)] == e;
      forall k | 0 <= k < i + 1
        ensures es[k] != e
      {
        assert es[..j][k] == es[k];
      }
    } else {
      assert es[..i + 1][j] == e;
    }
  }

  /** Is `x` an entry that the cursor has not passed, by position or, its line being gone, by time? */
  predicate NotPassed(es: seq<Line>, c: Cursor, x: Line)
    requires Usable(c)
  {
    && x in es
    && (c.line.None? ||
        if c.line.value in es then FirstIndex(es, c.line.value).value < FirstIndex(es, x).value
        else TsAtLeast(x, c.line.value.ts.value))
  }

  lemma AheadIsNotPassed(lines: seq<Line>, c: Cursor, x: Line)
    requires Usable(c)
    ensures x in Ahead(lines, c) <==> NotPassed(EntriesOf(lines), c, x) && TsAtLeast(x, c.sinceMs)
  {
    var es := EntriesOf(lines);
    AheadMember(lines, c, x);
    if c.line.Some? {
      if c.line.value in es {
        if x in es { PositionIff(es, c.line.value, x); }
      } else {
        FloorMembers(es, c.line.value.ts.value, x);
      }
    }
  }

  /**
   * The plan of an arm with a cursor: of the entries the cursor has not passed
   * and that are within its bound, in file order and once each, the newest `cap`
   * are replayed and all others counted; what is not replayed is history, and
   * the stored cursor stays until an entry is handled.
   */
  lemma PlanReplaysNewest(lines: seq<Line>, c: Cursor, armSinceMs: int, cap: nat)
    requires cap >= 1 && Usable(c)
    ensures
      var plan, ahead := PlanFor(lines, Some(c), armSinceMs, cap), Ahead(lines, c);
      && |plan.replay| == (if |ahead| <= cap then |ahead| else cap)
      && plan.omitted + |plan.replay| == |ahead|
      && plan.replay == ahead[|ahead| - |plan.replay|..]
      && plan.cursorAtArm.None? && plan.replaySinceMs == c.sinceMs
      && (forall x :: x in lines ==> (x in plan.history <==> x !in plan.replay))
      && (forall x :: x in plan.history ==> x in lines)
  {
  }

  /** The plan of a fresh arm: nothing is replayed, all is history, and the cursor marks the last entry. */
  lemma FreshPlanMarksLast(lines: seq<Line>, armSinceMs: int, cap: nat)
    requires cap >= 1
    ensures
      var plan := PlanFor(lines, None, armSinceMs, cap);
      && plan.replay == [] && plan.omitted == 0 && (forall x :: x in plan.history <==> x in lines)
      && plan.cursorAtArm.Some? && plan.cursorAtArm.value.sinceMs == armSinceMs
      && var line := plan.cursorAtArm.value.line;
      && (line.None? ==> forall i :: 0 <= i < |lines| ==> lines[i].Continuation?)
      && (line.Some? ==> exists i :: 0 <= i < |lines| && lines[i] == line.value && IsLastEntry(lines, i))
  {
    LastEntryIs(lines);
  }

  predicate IsLastEntry(lines: seq<Line>, i: int)
    requires 0 <= i < |lines|
  {
    lines[i].Entry? && forall j :: i < j < |lines| ==> lines[j].Continuation?
  }

  lemma {:induction false} LastEntryIs(lines: seq<Line>)
    ensures EntriesOf(lines) == [] ==> forall i :: 0 <= i < |lines| ==> lines[i].Continuation?
    ensures EntriesOf(lines) != [] ==>
      exists i :: 0 <= i < |lines| && lines[i] == EntriesOf(lines)[|EntriesOf(lines)| - 1] && IsLastEntry(lines, i)
  {
    if lines != [] {
      var n := |lines| - 1;
      LastEntryIs(lines[..n]);
      if lines[n].Entry? {
        assert IsLastEntry(lines, n);
      } else if EntriesOf(lines) != [] {
        var es := EntriesOf(lines[..n]);
        var i :| 0 <= i < n && lines[..n][i] == es[|es| - 1] && IsLastEntry(lines[..n], i);
        assert lines[i] == es[|es| - 1] && forall j :: i < j < n ==> lines[j] == lines[..n][j];
        assert IsLastEntry(lines, i);
      }
    }
  }

  method FindCursorLine(entries: seq<Line>, line: Line) returns (index: int)
    ensures index == var i := FirstIndex(entries, line); if i.Some? then i.value as int else -1
  {
    index := 0;
    while index < |entries|
      invariant 0 <= index <= |entries|
      invariant line !in entries[..index]
    {
      if entries[index] == line { return; }
      index := index + 1;
    }
    assert entries[..index] == entries;
    return -1;
  }

  /** The loop that keeps the first copy of every eligible line. */
  method SelectCandidates(after: seq<Line>, before: seq<Line>, since: int) returns (candidates: seq<Line>)
    ensures candidates == Candidates(after, before, since)
  {
    var seenBefore := SetOf(before);
    candidates := [];
    var unique: set<Line> := {};
    var i := 0;
    while i < |after|
      invariant 0 <= i <= |after|
      invariant candidates == Candidates(after[..i], before, since)
      invariant unique == SetOf(candidates)
    {
      var line := after[i];
      assert after[..i + 1][..i] == after[..i];
      i := i + 1;
      if !TsAtLeast(line, since) { continue; }
      if line in seenBefore || line in unique { continue; }
      unique := unique + {line};
      candidates := candidates + [line];
    }
    assert after[..i] == after;
  }

  method SplitAtCursor(entries: seq<Line>, c: Cursor) returns (before: seq<Line>, after: seq<Line>)
    requires Usable(c)
    ensures before == BeforeCursor(entries, c) && after == AfterCursor(entries, c)
  {
    if c.line.None? {
      return [], entries;
    }
    var index := FindCursorLine(entries, c.line.value);
    if index >= 0 {
      return entries[..index + 1], entries[index + 1..];
    }
    return OlderThan(entries, c.line.value.ts.value), AtOrAfter(entries, c.line.value.ts.value);
  }

  /** The planner itself, shown to compute `PlanFor`. */
  method PlanArmReplay(lines: seq<Line>, cursor: Option<Cursor>, armSinceMs: int, cap: nat) returns (plan: Plan)
    requires cap >= 1
    requires cursor.Some? ==> Usable(cursor.value)
    ensures plan == PlanFor(lines, cursor, armSinceMs, cap)
  {
    var entries := EntriesOf(lines);
    if cursor.None? {
      var at := Cursor(None, armSinceMs);
      if |entries| > 0 {
        EntriesOfMember(lines, entries[|entries| - 1]);
        at := CursorForLine(entries[|entries| - 1], armSinceMs).value;
      }
      return Plan(SetOf(lines), [], 0, Some(at), armSinceMs);
    }
    var c := cursor.value;
    var before, after := SplitAtCursor(entries, c);
    var candidates := SelectCandidates(after, before, c.sinceMs);
    var omitted := Excess(|candidates|, cap);
    var replay := candidates[omitted..];
    plan := Plan(Without(lines, replay), replay, omitted, None, c.sinceMs);
  }

  // ---- An interrupted replay resumes exactly ----

  /** The cursor stored after handling `line` in an arm that still owes `pendingAfter` replay entries. */
  function StoredAfter(plan: Plan, armSinceMs: int, line: Line, pendingAfter: set<Line>): Cursor {
    Cursor(Some(line), if pendingAfter != {} then plan.replaySinceMs else armSinceMs)
  }

  lemma CandidatesSnoc(s: seq<Line>, x: Line, before: seq<Line>, since: int)
    ensures
      var r := Candidates(s, before, since);
      Candidates(s + [x], before, since)
        == if TsAtLeast(x, since) && x !in before && x !in r then r + [x] else r
  {
    assert (s + [x])[..|s|] == s;
  }

  /** Selection over a concatenation: what the first part passed is history for the second. */
  lemma {:induction false} CandidatesSplit(before: seq<Line>, a: seq<Line>, b: seq<Line>, since: int)
    ensures Candidates(a + b, before, since)
         == Candidates(a, before, since) + Candidates(b, before + a, since)
  {
    if b == [] {
      assert a + b == a;
    } else {
      var b', x := b[..|b| - 1], b[|b| - 1];
      assert b == b' + [x];
      assert a + b == a + b' + [x];
      CandidatesSplit(before, a, b', since);
      CandidatesSnocSplit(before, a, b', x, since);
    }
  }

  lemma CandidatesSnocSplit(before: seq<Line>, a: seq<Line>, b: seq<Line>, x: Line, since: int)
    requires Candidates(a + b, before, since) == Candidates(a, before, since) + Candidates(b, before + a, since)
    ensures Candidates(a + b + [x], before, since)
         == Candidates(a, before, since) + Candidates(b + [x], before + a, since)
  {
    CandidatesSnoc(a + b, x, before, since);
    CandidatesSnoc(b, x, before + a, since);
    CandidatesMember(a, before, since, x);
    assert x in before + a <==> x in before || x in a;
  }

  /** A positional cursor: none yet, or one whose line is still in the file. */
  predicate Positional(lines: seq<Line>, c: Cursor)
    requires Usable(c)
  {
    c.line.None? || FirstIndex(EntriesOf(lines), c.line.value).Some?
  }

  /** The selection up to the first copy of candidate number `k` is the first `k + 1` candidates. */
  lemma {:induction false} CandidatesUpToMember(after: seq<Line>, before: seq<Line>, since: int, k: nat, q: nat)
    requires k < |Candidates(after, before, since)|
    requires q < |after| && after[q] == Candidates(after, before, since)[k] && after[q] !in after[..q]
    ensures Candidates(after[..q + 1], before, since) == Candidates(after, before, since)[..k + 1]
  {
    var n := |after| - 1;
    var r := Candidates(after[..n], before, since);
    CandidatesMember(after[..n], before, since, after[q]);
    if q == n {
      assert after[..q + 1] == after;
      assert after[q] !in r;
    } else {
      assert after[..n][q] == after[q];
      assert after[q] in r;
      assert after[..n][..q] == after[..q];
      CandidatesUpToMember(after[..n], before, since, k, q);
      assert after[..n][..q + 1] == after[..q + 1];
    }
  }

  /** Selecting again just past candidate number `k` gives exactly the later candidates. */
  lemma ReselectFrom(before: seq<Line>, after: seq<Line>, since: int, k: nat, q: nat)
    requires k < |Candidates(after, before, since)|
    requires q < |after| && after[q] == Candidates(after, before, since)[k] && after[q] !in after[..q]
    ensures Candidates(after[q + 1..], before + after[..q + 1], since) == Candidates(after, before, since)[k + 1..]
  {
    assert after == after[..q + 1] + after[q + 1..];
    CandidatesSplit(before, after[..q + 1], after[q + 1..], since);
    CandidatesUpToMember(after, before, since, k, q);
  }

  /** The part of the entries a positional cursor has passed, and the rest. */
  lemma PositionalSplit(es: seq<Line>, c: Cursor)
    requires Usable(c) && (c.line.None? || FirstIndex(es, c.line.value).Some?)
    ensures BeforeCursor(es, c) + AfterCursor(es, c) == es
  {
  }

  /** With the cursor's line in the file, a re-plan continues with exactly the later entries. */
  lemma ResumesExactly(lines: seq<Line>, c: Cursor, k: nat, x: Line)
    requires Usable(c) && Positional(lines, c)
    requires k < |Ahead(lines, c)| && x == Ahead(lines, c)[k]
    ensures Usable(Cursor(Some(x), c.sinceMs))
    ensures Ahead(lines, Cursor(Some(x), c.sinceMs)) == Ahead(lines, c)[k + 1..]
  {
    AheadMember(lines, c, x);
    ResumesIn(EntriesOf(lines), c, k, x);
  }

  lemma ResumesIn(es: seq<Line>, c: Cursor, k: nat, x: Line)
    requires Usable(c) && (c.line.None? || FirstIndex(es, c.line.value).Some?)
    requires Usable(Cursor(Some(x), c.sinceMs))
    requires k < |Candidates(AfterCursor(es, c), BeforeCursor(es, c), c.sinceMs)|
    requires x == Candidates(AfterCursor(es, c), BeforeCursor(es, c), c.sinceMs)[k]
    ensures
      var c' := Cursor(Some(x), c.sinceMs);
      Candidates(AfterCursor(es, c'), BeforeCursor(es, c'), c.sinceMs)
        == Candidates(AfterCursor(es, c), BeforeCursor(es, c), c.sinceMs)[k + 1..]
  {
    PositionalSplit(es, c);
    ReselectAcross(es, BeforeCursor(es, c), AfterCursor(es, c), c.sinceMs, k, x);
  }

  lemma FirstAcross(es: seq<Line>, before: seq<Line>, after: seq<Line>, q: nat, x: Line)
    requires es == before + after
    requires x !in before && q < |after| && after[q] == x && x !in after[..q]
    ensures FirstIndex(es, x) == Some(|before| + q)
  {
    SliceAcross(es, before, after, q);
    FirstIndexIs(es, x, |before| + q);
  }

  lemma ReselectAcross(es: seq<Line>, before: seq<Line>, after: seq<Line>, since: int, k: nat, x: Line)
    requires es == before + after
    requires k < |Candidates(after, before, since)| && x == Candidates(after, before, since)[k]
    ensures FirstIndex(es, x).Some?
    ensures
      var i := FirstIndex(es, x).value;
      Candidates(es[i + 1..], es[..i + 1], since) == Candidates(after, before, since)[k + 1..]
  {
    var q := FirstOf(after, before, since, x);
    FirstAcross(es, before, after, q, x);
    ReselectFrom(before, after, since, k, q);
    SliceAcross(es, before, after, q);
  }

  lemma FirstOf(after: seq<Line>, before: seq<Line>, since: int, x: Line) returns (q: nat)
    requires x in Candidates(after, before, since)
    ensures x !in before && q < |after| && after[q] == x && x !in after[..q]
  {
    CandidatesMember(after, before, since, x);
    q := FirstIndex(after, x).value;
  }

  lemma SliceAcross(es: seq<Line>, before: seq<Line>, after: seq<Line>, q: nat)
    requires es == before + after && q < |after|
    ensures es[|before| + q] == after[q]
    ensures es[..|before| + q] == before + after[..q]
    ensures es[..|before| + q + 1] == before + after[..q + 1]
    ensures es[|before| + q + 1..] == after[q + 1..]
  {
  }

  lemma {:induction false} FirstIndexIs(s: seq<Line>, x: Line, k: nat)
    requires k < |s| && s[k] == x && x !in s[..k]
    ensures FirstIndex(s, x) == Some(k)
  {
    var n := |s| - 1;
    if k == n {
      assert FirstIndex(s[..n], x).None?;
    } else {
      assert s[..n][..k] == s[..k];
      FirstIndexIs(s[..n], x, k);
    }
  }

  // ---- The cursor line was trimmed away ----

  predicate DatedBelow(y: Line, floor: int) { y.Entry? && y.ts.Some? && y.ts.value < floor }

  /** An entry whose first copy follows that of `x`, at or above the bound but older than the trimmed cursor line. */
  predicate OlderFollows(es: seq<Line>, x: Line, floor: int, since: int) {
    var i := FirstIndex(es, x);
    i.Some? && exists j :: i.value < j < |es| && es[j] !in es[..i.value + 1] && TsAtLeast(es[j], since) && DatedBelow(es[j], floor)
  }

  /** Nothing of the kind follows, or the cursor's line is still in the file. */
  predicate Resumable(lines: seq<Line>, c: Cursor, x: Line, since: int)
    requires Usable(c)
  {
    Positional(lines, c) || !OlderFollows(EntriesOf(lines), x, c.line.value.ts.value, since)
  }

  function Later(a: int, b: int): int { if a >= b then a else b }

  /** Selecting from the entries at or after the floor is selecting from all of them with the later bound. */
  lemma {:induction false} SelectFromFloor(es: seq<Line>, before: seq<Line>, floor: int, since: int)
    requires forall x :: x in before ==> !TsAtLeast(x, floor)
    ensures Candidates(AtOrAfter(es, floor), before, since) == Candidates(es, [], Later(since, floor))
  {
    if es != [] {
      var front, x := es[..|es| - 1], es[|es| - 1];
      SelectFromFloor(front, before, floor, since);
      if TsAtLeast(x, floor) { CandidatesSnoc(AtOrAfter(front, floor), x, before, since); }
    }
  }

  /** Two bounds that agree on the eligible lines select the same. */
  lemma {:induction false} SameBound(after: seq<Line>, before: seq<Line>, a: int, b: int)
    requires forall y :: y in after && y !in before ==> (TsAtLeast(y, a) <==> TsAtLeast(y, b))
    ensures Candidates(after, before, a) == Candidates(after, before, b)
  {
    if after != [] { SameBound(after[..|after| - 1], before, a, b); }
  }

  lemma AheadOfTrimmed(lines: seq<Line>, c: Cursor)
    requires Usable(c) && !Positional(lines, c)
    ensures Ahead(lines, c) == Candidates(EntriesOf(lines), [], Later(c.sinceMs, c.line.value.ts.value))
  {
    var es, floor := EntriesOf(lines), c.line.value.ts.value;
    forall x | x in OlderThan(es, floor)
      ensures !TsAtLeast(x, floor)
    {
      FloorMembers(es, floor, x);
    }
    SelectFromFloor(es, OlderThan(es, floor), floor, c.sinceMs);
  }

  /** What a re-plan from a line of the file finds. */
  lemma AheadOfFound(lines: seq<Line>, x: Line, since: int)
    requires Usable(Cursor(Some(x), since)) && FirstIndex(EntriesOf(lines), x).Some?
    ensures
      var es := EntriesOf(lines);
      var i := FirstIndex(es, x).value;
      Ahead(lines, Cursor(Some(x), since)) == Candidates(es[i + 1..], es[..i + 1], since)
  {
  }

  lemma FoundInFile(lines: seq<Line>, c: Cursor, x: Line)
    requires Usable(c) && x in Ahead(lines, c)
    ensures Usable(Cursor(Some(x), c.sinceMs)) && FirstIndex(EntriesOf(lines), x).Some?
    ensures !Positional(lines, c) ==> TsAtLeast(x, Later(c.sinceMs, c.line.value.ts.value))
  {
    var es := EntriesOf(lines);
    AheadMember(lines, c, x);
    if !Positional(lines, c) { FloorMembers(es, c.line.value.ts.value, x); }
    assert x in es;
  }

  lemma TrimmedResumesIff(lines: seq<Line>, c: Cursor, k: nat, x: Line)
    requires Usable(c) && !Positional(lines, c)
    requires k < |Ahead(lines, c)| && x == Ahead(lines, c)[k]
    ensures Usable(Cursor(Some(x), c.sinceMs))
    ensures Ahead(lines, Cursor(Some(x), c.sinceMs)) == Ahead(lines, c)[k + 1..]
       <==> !OlderFollows(EntriesOf(lines), x, c.line.value.ts.value, c.sinceMs)
  {
    var es, floor := EntriesOf(lines), c.line.value.ts.value;
    FoundInFile(lines, c, x);
    AheadOfTrimmed(lines, c);
    AheadOfFound(lines, x, c.sinceMs);
    TrimmedSelectionIff(es, floor, c.sinceMs, k, x);
  }

  lemma TrimmedSelectionIff(es: seq<Line>, floor: int, since: int, k: nat, x: Line)
    requires FirstIndex(es, x).Some?
    requires k < |Candidates(es, [], Later(since, floor))| && x == Candidates(es, [], Later(since, floor))[k]
    ensures
      var i := FirstIndex(es, x).value;
      !OlderFollows(es, x, floor, since) <==>
        Candidates(es[i + 1..], es[..i + 1], since) == Candidates(es, [], Later(since, floor))[k + 1..]
  {
    var i, bound := FirstIndex(es, x).value, Later(since, floor);
    var after, before := es[i + 1..], es[..i + 1];
    ReselectFrom([], es, bound, k, i);
    assert [] + before == before;
    if OlderFollows(es, x, floor, since) {
      var j :| i < j < |es| && es[j] !in before && TsAtLeast(es[j], since) && DatedBelow(es[j], floor);
      assert after[j - (i + 1)] == es[j];
      CandidatesMember(after, before, since, es[j]);
      CandidatesMember(after, before, bound, es[j]);
    } else {
      forall y | y in after && y !in before
        ensures TsAtLeast(y, since) <==> TsAtLeast(y, bound)
      {
        var n :| 0 <= n < |after| && after[n] == y;
        assert es[i + 1 + n] == y;
      }
      SameBound(after, before, since, bound);
    }
  }

  /**
   * Re-planning the same file from a cursor stored after replay entry number
   * `k` (bound `since`) continues with exactly the entries after it, if and only
   * if the old cursor's line is still in the file or no eligible entry after
   * this one is older than that line.
   */
  lemma ResumesExactlyIff(lines: seq<Line>, c: Cursor, k: nat, x: Line)
    requires Usable(c)
    requires k < |Ahead(lines, c)| && x == Ahead(lines, c)[k]
    ensures Usable(Cursor(Some(x), c.sinceMs))
    ensures Ahead(lines, Cursor(Some(x), c.sinceMs)) == Ahead(lines, c)[k + 1..] <==> Resumable(lines, c, x, c.sinceMs)
  {
    if Positional(lines, c) { ResumesExactly(lines, c, k, x); } else { TrimmedResumesIff(lines, c, k, x); }
  }

  /** Dated entries stand in the order of their timestamps. */
  predicate InOrder(es: seq<Line>) {
    forall i, j :: 0 <= i < j < |es| && es[i].Entry? && es[j].Entry? && es[i].ts.Some? && es[j].ts.Some? ==>
      es[i].ts.value <= es[j].ts.value
  }

  /** A file in timestamp order always resumes exactly, whatever became of the cursor's line. */
  lemma OrderedResumesExactly(lines: seq<Line>, c: Cursor, k: nat, x: Line)
    requires Usable(c) && InOrder(EntriesOf(lines))
    requires k < |Ahead(lines, c)| && x == Ahead(lines, c)[k]
    ensures Usable(Cursor(Some(x), c.sinceMs))
    ensures Ahead(lines, Cursor(Some(x), c.sinceMs)) == Ahead(lines, c)[k + 1..]
  {
    ResumesExactlyIff(lines, c, k, x);
    FoundInFile(lines, c, x);
  }

  /**
   * The interrupted arm: it handled `k` of its replay entries and stopped
   * with others still pending.  The next arm over the same file, whatever its
   * own boundary, replays exactly the others and omits nothing, if and only if
   * the file is resumable at the last entry handled.
   */
  lemma InterruptedReplayResumesIff(lines: seq<Line>, c: Cursor, armSinceMs: int, nextArmSinceMs: int, cap: nat, k: nat)
    requires cap >= 1 && Usable(c)
    requires 0 < k < |PlanFor(lines, Some(c), armSinceMs, cap).replay|
    ensures
      var plan := PlanFor(lines, Some(c), armSinceMs, cap);
      var stored := StoredAfter(plan, armSinceMs, plan.replay[k - 1], SetOf(plan.replay[k..]));
      && Usable(stored)
      && var next := PlanFor(lines, Some(stored), nextArmSinceMs, cap);
      (next.replay == plan.replay[k..] && next.omitted == 0 <==> Resumable(lines, c, plan.replay[k - 1], c.sinceMs))
  {
    var plan := PlanFor(lines, Some(c), armSinceMs, cap);
    var n := plan.omitted + k - 1;
    var x := plan.replay[k - 1];
    ReplayIsTail(lines, c, armSinceMs, cap, k);
    assert plan.replay[k..][0] in SetOf(plan.replay[k..]);
    ResumesExactlyIff(lines, c, n, x);
    ReplansIff(lines, Cursor(Some(x), c.sinceMs), nextArmSinceMs, cap, plan.replay[k..]);
  }

  lemma ReplayIsTail(lines: seq<Line>, c: Cursor, armSinceMs: int, cap: nat, k: nat)
    requires cap >= 1 && Usable(c)
    requires 0 < k <= |PlanFor(lines, Some(c), armSinceMs, cap).replay|
    ensures
      var plan, ahead := PlanFor(lines, Some(c), armSinceMs, cap), Ahead(lines, c);
      && plan.omitted + k - 1 < |ahead| && plan.replay[k - 1] == ahead[plan.omitted + k - 1]
      && plan.replay[k..] == ahead[plan.omitted + k..]
      && |plan.replay| <= cap
  {
  }

  lemma ReplansIff(lines: seq<Line>, c: Cursor, armSinceMs: int, cap: nat, rest: seq<Line>)
    requires cap >= 1 && Usable(c) && |rest| <= cap
    ensures
      var next := PlanFor(lines, Some(c), armSinceMs, cap);
      next.replay == rest && next.omitted == 0 <==> Ahead(lines, c) == rest
  {
    var again := Ahead(lines, c);
    assert again[0..] == again;
  }

  /**
   * After the last replay entry the cursor takes the arm's own bound.  A
   * re-plan then replays nothing, if and only if the old cursor's line is still
   * in the file or no entry within that bound after the last one is older than it.
   */
  lemma FinishedReplayIsDoneIff(lines: seq<Line>, c: Cursor, armSinceMs: int, nextArmSinceMs: int, cap: nat)
    requires cap >= 1 && Usable(c)
    requires armSinceMs >= c.sinceMs
    requires |PlanFor(lines, Some(c), armSinceMs, cap).replay| > 0
    ensures
      var plan := PlanFor(lines, Some(c), armSinceMs, cap);
      var last := plan.replay[|plan.replay| - 1];
      var stored := StoredAfter(plan, armSinceMs, last, {});
      && Usable(stored)
      && var next := PlanFor(lines, Some(stored), nextArmSinceMs, cap);
      (next.replay == [] && next.omitted == 0 <==> Resumable(lines, c, last, armSinceMs))
  {
    var ahead := Ahead(lines, c);
    var x := ahead[|ahead| - 1];
    FoundInFile(lines, c, x);
    LastIsDoneIff(lines, c, armSinceMs, x);
  }

  lemma LastIsDoneIff(lines: seq<Line>, c: Cursor, bound: int, x: Line)
    requires Usable(c) && bound >= c.sinceMs
    requires Ahead(lines, c) != [] && x == Ahead(lines, c)[|Ahead(lines, c)| - 1]
    requires Usable(Cursor(Some(x), bound)) && FirstIndex(EntriesOf(lines), x).Some?
    ensures Ahead(lines, Cursor(Some(x), bound)) == [] <==> Resumable(lines, c, x, bound)
  {
    var es := EntriesOf(lines);
    var i := FirstIndex(es, x).value;
    AheadOfFound(lines, x, bound);
    var left := Candidates(es[i + 1..], es[..i + 1], bound);
    if left != [] {
      CandidatesMember(es[i + 1..], es[..i + 1], bound, left[0]);
      NothingAfterLast(lines, c, x, left[0]);
      OlderFound(es, x, c.line.value.ts.value, bound, left[0]);
    } else if !Resumable(lines, c, x, bound) {
      SomeOlderIsLeft(es, x, c.line.value.ts.value, bound);
    }
  }

  lemma OlderFound(es: seq<Line>, x: Line, floor: int, since: int, y: Line)
    requires FirstIndex(es, x).Some? && TsAtLeast(y, since) && DatedBelow(y, floor)
    requires y in es[FirstIndex(es, x).value + 1..] && y !in es[..FirstIndex(es, x).value + 1]
    ensures OlderFollows(es, x, floor, since)
  {
    var i := FirstIndex(es, x).value;
    var n :| 0 <= n < |es[i + 1..]| && es[i + 1..][n] == y;
    assert es[i + 1 + n] == y;
  }

  lemma SomeOlderIsLeft(es: seq<Line>, x: Line, floor: int, since: int)
    requires OlderFollows(es, x, floor, since)
    ensures Candidates(es[FirstIndex(es, x).value + 1..], es[..FirstIndex(es, x).value + 1], since) != []
  {
    var i := FirstIndex(es, x).value;
    var j :| i < j < |es| && es[j] !in es[..i + 1] && TsAtLeast(es[j], since) && DatedBelow(es[j], floor);
    assert es[i + 1..][j - (i + 1)] == es[j];
    CandidatesMember(es[i + 1..], es[..i + 1], since, es[j]);
  }

  /** An eligible line after the last candidate can only be one that the floor kept out. */
  lemma NothingAfterLast(lines: seq<Line>, c: Cursor, x: Line, y: Line)
    requires Usable(c) && Ahead(lines, c) != [] && x == Ahead(lines, c)[|Ahead(lines, c)| - 1]
    requires FirstIndex(EntriesOf(lines), x).Some? && TsAtLeast(y, c.sinceMs)
    requires
      var i := FirstIndex(EntriesOf(lines), x).value;
      y in EntriesOf(lines)[i + 1..] && y !in EntriesOf(lines)[..i + 1]
    ensures !Positional(lines, c) && DatedBelow(y, c.line.value.ts.value)
  {
    var k := |Ahead(lines, c)| - 1;
    var es, i := EntriesOf(lines), FirstIndex(EntriesOf(lines), x).value;
    FoundInFile(lines, c, x);
    if Positional(lines, c) {
      ResumesExactly(lines, c, k, x);
      AheadOfFound(lines, x, c.sinceMs);
      CandidatesMember(es[i + 1..], es[..i + 1], c.sinceMs, y);
    } else {
      AheadOfTrimmed(lines, c);
      var bound := Later(c.sinceMs, c.line.value.ts.value);
      ReselectFrom([], es, bound, k, i);
      assert [] + es[..i + 1] == es[..i + 1];
      CandidatesMember(es[i + 1..], es[..i + 1], bound, y);
    }
  }

  /**
   * The condition is needed: with a trimmed cursor line and timestamps out of
   * order, an interrupted replay re-plans an extra, older entry.
   */
  lemma TrimmedUnorderedReplayGrows(a: Line, b: Line, late: Line, gone: Line)
    requires a == Entry("a", Some(10)) && b == Entry("b", Some(11))
    requires late == Entry("late", Some(5)) && gone == Entry("gone", Some(9))
    ensures late !in Ahead([a, late, b], Cursor(Some(gone), 0)) && a in Ahead([a, late, b], Cursor(Some(gone), 0))
    ensures late in Ahead([a, late, b], Cursor(Some(a), 0))
  {
    var lines := [a, late, b];
    ThreeEntries(a, late, b);
    AheadMember(lines, Cursor(Some(gone), 0), late);
    AheadMember(lines, Cursor(Some(gone), 0), a);
    FloorMembers(lines, 9, late);
    FloorMembers(lines, 9, a);
    AheadMember(lines, Cursor(Some(a), 0), late);
    FirstIndexIs(lines, a, 0);
    assert lines[1..][0] == late;
  }

  lemma ThreeEntries(a: Line, b: Line, c: Line)
    requires a.Entry? && b.Entry? && c.Entry?
    ensures EntriesOf([a, b, c]) == [a, b, c]
  {
    EntriesOfConcat([a], [b, c]);
    EntriesOfConcat([b], [c]);
    assert [a] + [b, c] == [a, b, c] && [b] + [c] == [b, c];
    assert EntriesOf([a]) == [a] && EntriesOf([b]) == [b] && EntriesOf([c]) == [c];
  }

  // ---- The two stateful helpers of one arm ----

  /** The bounded set of recently emitted lines: the newest `RECENT_EMITTED_LINE_CAP` of them. */
  function Remember(order: seq<Line>, line: Line, cap: nat): (r: seq<Line>)
    requires cap >= 1
    ensures line in r
    ensures |order| <= cap ==> |r| <= cap
  {
    if line in order then order
    else if |order| + 1 > cap then order[|order| + 1 - cap..] + [line]
    else order + [line]
  }

  lemma RememberMember(order: seq<Line>, line: Line, cap: nat, x: Line)
    requires cap >= 1
    ensures x in Remember(order, line, cap) ==> x in order || x == line
  {
  }

  /** A line with empty text is falsy and is never removed from `seen`; entry lines are never empty. */
  predicate Window(order: seq<Line>, seen: set<Line>) {
    && (forall i, j :: 0 <= i < j < |order| ==> order[i] != order[j])
    && (forall x :: x in order ==> x in seen)
    && (forall x :: x in seen && x !in order ==> x.text == "")
  }

  lemma WindowGrows(order: seq<Line>, seen: set<Line>, line: Line)
    requires Window(order, seen) && line !in seen
    ensures Window(order + [line], seen + {line})
  {
  }

  lemma WindowSlides(order: seq<Line>, seen: set<Line>)
    requires Window(order, seen) && order != []
    ensures Window(order[1..], if order[0].text != "" then seen - {order[0]} else seen)
  {
    assert order == [order[0]] + order[1..];
  }

  /** What is left of the grown order once the loop has brought it back to the cap. */
  lemma EvictedIsRemembered(was: seq<Line>, line: Line, cap: nat, now: seq<Line>)
    requires cap >= 1 && |was| <= cap && line !in was
    requires |now| <= |was| + 1 && now == (was + [line])[|was| + 1 - |now|..]
    requires |now| == if |was| + 1 > cap then cap else |was| + 1
    ensures now == Remember(was, line, cap)
  {
  }

  class RecentLineDeduper {
    const cap: nat
    var seen: set<Line>
    var order: seq<Line>

    ghost predicate Valid()
      reads this
    {
      1 <= cap && |order| <= cap && Window(order, seen)
    }

    constructor (cap: nat)
      requires cap >= 1
      ensures Valid() && order == [] && seen == {} && this.cap == cap
    {
      this.cap := cap;
      seen, order := {}, [];
    }

    method Has(line: Line) returns (b: bool)
      requires Valid()
      ensures line.text != "" ==> (b <==> line in order)
      ensures b <==> line in seen
    {
      b := line in seen;
    }

    method RememberLine(line: Line) returns (added: bool)
      requires Valid()
      modifies this
      ensures Valid()
      ensures added <==> line !in old(seen)
      ensures !added ==> order == old(order) && seen == old(seen)
      ensures added ==> order == Remember(old(order), line, cap)
      ensures line.text != "" ==> order == Remember(old(order), line, cap) && line in seen
    {
      if line in seen { return false; }
      WindowGrows(order, seen, line);
      seen := seen + {line};
      order := order + [line];
      ghost var was, grown := old(order), order;
      while |order| > cap
        invariant Window(order, seen) && |order| <= |grown|
        invariant order == grown[|grown| - |order|..]
        invariant |order| == |grown| || |order| == cap
        decreases |order|
      {
        WindowSlides(order, seen);
        var oldLine := order[0];
        order := order[1..];
        if oldLine.text != "" { seen := seen - {oldLine}; }
      }
      EvictedIsRemembered(was, line, cap, order);
      return true;
    }
  }

  class ArmReplayProgress {
    const plan: Plan
    const armSinceMs: int
    var pending: set<Line>

    constructor (plan: Plan, armSinceMs: int)
      ensures this.plan == plan && this.armSinceMs == armSinceMs && pending == SetOf(plan.replay)
    {
      this.plan, this.armSinceMs := plan, armSinceMs;
      pending := SetOf(plan.replay);
    }

    method Handled(line: Line) returns (c: Option<Cursor>)
      modifies this
      ensures pending == old(pending) - {line}
      ensures line.Continuation? ==> c == None
      ensures line.Entry? ==> c == Some(StoredAfter(plan, armSinceMs, line, pending))
    {
      pending := pending - {line};
      c := CursorForLine(line, if |pending| > 0 then plan.replaySinceMs else armSinceMs);
    }
  }
}
