/**
 * What becomes of every entry (src/inbox-monitor.ts): at-least-once delivery
 * over whole runs, and the exact condition under which an entry that has not
 * been told can still be told by some later run.
 */
module InboxFate {
  import opened Common
  import opened InboxReplay
  import opened InboxDelivery
  import TailStall

  /** Owed and not told yet. */
  predicate Waiting(s: State, p: nat) { Owed(s, p) && !Told(s, s.log[p]) }

  // ---- What is true of every waiting entry ----

  /** The stored cursor's line is another line, and its bound allows the entry unless it has passed it. */
  ghost predicate CursorOk(s: State, p: nat)
    requires p < |s.log|
  {
    && s.cursor.Some?
    && s.cursor.value.line != Some(s.log[p])
    && (s.cursor.value.line.None? || s.cursor.value.line.value in s.log[..p] ==> TsAtLeast(s.log[p], s.cursor.value.sinceMs))
  }

  /** The monitor has not handled the entry: once printed it is told, unless it is history to this monitor. */
  predicate Unhandled(m: Monitor, e: Line) {
    e !in m.dedup && m.inHand != Some(e) && (e in m.plan.history || e in m.pending || TsAtLeast(e, m.armSince))
  }

  predicate Ignored(m: Monitor, x: Line) { x in m.plan.history && x !in m.pending }

  /** An entry that is history to the monitor was passed by the cursor, and so is everything before it. */
  ghost predicate Behind(s: State, m: Monitor, p: nat)
    requires p < |s.log|
  {
    var upTo := s.log[..p + 1];
    && s.cursor.Some? && s.cursor.value.line.Some? && s.cursor.value.line.value !in upTo
    && (m.inHand.Some? ==> m.inHand.value !in upTo)
    && (forall x :: x in m.queue && x.Entry? && x in upTo ==> Ignored(m, x))
    && (forall k :: s.start <= k <= p && s.log[k].Entry? ==> Ignored(m, s.log[k]))
  }

  /** An entry the tail has passed without printing it lies before the offset of a self-heal. */
  predicate Passed(s: State, m: Monitor, p: nat)
    requires p < |s.log|
  {
    s.log[p] !in m.plan.history && s.log[p] !in m.queue && m.rd > p ==> s.start + m.anchor > p
  }

  ghost predicate Tracked(s: State, p: nat)
    requires p < |s.log|
  {
    && (s.mon.Some? && s.start <= p ==> Passed(s, s.mon.value, p))
    && (s.start <= p ==> CursorOk(s, p))
    && (s.mon.Some? && (s.start <= p || s.log[p] in s.mon.value.queue) ==> Unhandled(s.mon.value, s.log[p]))
    && (s.mon.Some? && s.start <= p && s.log[p] in s.mon.value.plan.history ==> Behind(s, s.mon.value, p))
  }

  predicate Disjoint(s: State) {
    s.mon.Some? ==> forall x :: x in s.mon.value.pending ==> x !in s.mon.value.plan.history
  }

  ghost predicate FullInv(s: State) {
    Inv(s) && Disjoint(s) && forall p: nat :: Waiting(s, p) ==> Tracked(s, p)
  }

  /** An owed entry stands once in the log. */
  lemma OwedOnce(s: State, p: nat, q: nat)
    requires Inv(s) && Owed(s, p) && q < |s.log| && s.log[q] == s.log[p]
    ensures p == q
  {
  }

  // ---- Each step keeps it ----

  lemma AppendTracks(s: State, line: Line, p: nat)
    requires FullInv(s) && Orderly(s, Append(line)) && Waiting(Do(s, Append(line)), p)
    ensures Tracked(Do(s, Append(line)), p)
  {
    var t := Do(s, Append(line));
    if p < |s.log| {
      assert Waiting(s, p) && t.log[..p] == s.log[..p] && t.log[..p + 1] == s.log[..p + 1];
      assert Tracked(s, p);
    } else {
      assert t.log[..p] == s.log;
    }
  }

  lemma TrimTracks(s: State, upTo: nat, p: nat)
    requires FullInv(s) && Enabled(s, Trim(upTo)) && Waiting(Do(s, Trim(upTo)), p)
    ensures Tracked(Do(s, Trim(upTo)), p)
  {
    assert Waiting(s, p) && Tracked(s, p);
  }

  lemma TailReadTracks(s: State, p: nat)
    requires FullInv(s) && Enabled(s, TailRead) && Waiting(Do(s, TailRead), p)
    ensures Tracked(Do(s, TailRead), p)
  {
    assert Waiting(s, p) && Tracked(s, p);
    var m := s.mon.value;
    var x := s.log[m.rd];
    if x == s.log[p] { OwedOnce(s, p, m.rd); }
  }

  lemma DeliverTracks(s: State, p: nat)
    requires FullInv(s) && Enabled(s, Deliver) && Waiting(Do(s, Deliver), p)
    ensures Waiting(s, p) && Tracked(Do(s, Deliver), p)
  {
    assert Waiting(s, p) && Tracked(s, p);
    var m, t := s.mon.value, Do(s, Deliver);
    var line := m.queue[0];
    DeliverFrame(s);
    assert line in m.queue;
    assert m.queue == [line] + m.queue[1..];
    RememberMember(m.dedup, line, RECENT_EMITTED_LINE_CAP, s.log[p]);
    HeadOutcome(s, p);
  }

  /** A delivered waiting entry stays waiting only as history; a handled line is not ignored. */
  lemma HeadOutcome(s: State, p: nat)
    requires FullInv(s) && Enabled(s, Deliver) && Waiting(s, p) && Waiting(Do(s, Deliver), p)
    ensures
      var m, m' := s.mon.value, Do(s, Deliver).mon.value;
      && (s.log[p] == m.queue[0] ==> m'.dedup == m.dedup && m'.inHand == m.inHand)
      && (m'.inHand != m.inHand ==> m'.inHand == Some(m.queue[0]) && !Ignored(m, m.queue[0]))
  {
    assert Tracked(s, p);
    var m := s.mon.value;
    assert m.queue[0] in m.queue;
  }

  lemma StoreTracks(s: State, p: nat)
    requires FullInv(s) && Enabled(s, StoreCursor) && Waiting(Do(s, StoreCursor), p)
    ensures Tracked(Do(s, StoreCursor), p)
  {
    assert Waiting(s, p) && Tracked(s, p);
    var m := s.mon.value;
    var e, x := s.log[p], m.inHand.value;
    if s.start <= p {
      assert x in s.log[..p] ==> x in s.log[..p + 1];
      assert e in m.pending ==> e in m.pending - {x};
    }
  }

  lemma OtherTracks(s: State, step: Step, p: nat)
    requires FullInv(s) && Enabled(s, step) && Waiting(Do(s, step), p)
    requires step.Tick? || step.ArmSample? || step.Reanchor? || step.Respawn? || step.Stop? || step.Crash?
    ensures Tracked(Do(s, step), p)
  {
    assert Waiting(s, p) && Tracked(s, p);
  }

  // ---- Ahead of the cursor ----

  /** The entries of a file whose cursor line stands after position `p` are all passed up to there. */
  lemma PassedAreBefore(s: State, l: Line, p: nat, x: Line)
    requires s.start <= p < |s.log| && l.Entry? && l in s.log && l !in s.log[..p + 1]
    requires x.Entry? && x in s.log[s.start..p + 1]
    ensures FirstIndex(EntriesOf(File(s)), l).Some?
    ensures x in EntriesOf(File(s))[..FirstIndex(EntriesOf(File(s)), l).value + 1]
  {
    var a, b := s.log[s.start..p + 1], s.log[p + 1..];
    assert File(s) == a + b;
    EntriesOfConcat(a, b);
    EntriesOfMember(a, l);
    EntriesOfMember(a, x);
    EntriesOfMember(b, l);
    assert l !in a;
    assert s.log == s.log[..p + 1] + b;
    assert l in b;
    var es := EntriesOf(a) + EntriesOf(b);
    assert l in es;
    FirstIsPast(EntriesOf(a), EntriesOf(b), l);
  }

  lemma FirstIsPast(a: seq<Line>, b: seq<Line>, l: Line)
    requires l !in a && l in b
    ensures FirstIndex(a + b, l).Some? && FirstIndex(a + b, l).value >= |a|
    ensures (a + b)[..|a|] == a
  {
    assert l in a + b;
    assert forall i :: 0 <= i < |a| ==> (a + b)[i] == a[i] && a[i] in a;
  }

  /** A waiting entry in the file is ahead of the stored cursor exactly as long as the cursor's line stands before it. */
  lemma AheadIff(s: State, p: nat)
    requires FullInv(s) && Waiting(s, p) && s.start <= p
    ensures s.cursor.Some? && Usable(s.cursor.value)
    ensures s.log[p] in Ahead(File(s), s.cursor.value) <==>
      s.cursor.value.line.None? || s.cursor.value.line.value in s.log[..p]
  {
    assert Tracked(s, p);
    var c, e := s.cursor.value, s.log[p];
    if c.line.None? || c.line.value in s.log[..p] {
      PastCursorIsAhead(s, p);
    } else {
      assert s.log[..p + 1] == s.log[..p] + [e];
      PassedAreBefore(s, c.line.value, p, e);
      AheadMember(File(s), c, e);
    }
  }

  /** What is in the file and history to a new arm stands before the cursor, and so does all before it. */
  lemma ArmIgnores(s: State, p: nat, k: nat)
    requires FullInv(s) && Waiting(s, p) && s.start <= k <= p && s.log[k].Entry?
    requires s.log[p] !in Ahead(File(s), s.cursor.value)
    ensures s.log[k] in File(s) && s.log[k] !in Ahead(File(s), s.cursor.value)
    ensures s.cursor.value.line.Some? && s.cursor.value.line.value !in s.log[..p + 1]
  {
    AheadIff(s, p);
    assert Tracked(s, p);
    var c := s.cursor.value;
    assert s.log[..p + 1] == s.log[..p] + [s.log[p]];
    assert File(s)[k - s.start] == s.log[k];
    assert s.log[s.start..p + 1][k - s.start] == s.log[k];
    PassedAreBefore(s, c.line.value, p, s.log[k]);
    AheadMember(File(s), c, s.log[k]);
  }

  /** What the arm does with a line of the file. */
  lemma ArmSorts(s: State, x: Line)
    requires Inv(s) && Enabled(s, ArmPlan) && s.base.Some? && x in File(s)
    ensures
      var t := Do(s, ArmPlan);
      var m := t.mon.value;
      && t.cursor == s.cursor && t.log == s.log && t.start == s.start && t.base == s.base
      && m.queue == [] && m.dedup == [] && m.inHand.None? && m.rd == s.start && m.armSince == s.arming.value
      && (x in Ahead(File(s), s.cursor.value) ==> x in t.noticed || (x in m.pending && x !in m.plan.history))
      && (x !in Ahead(File(s), s.cursor.value) ==> Ignored(m, x))
  {
    var ahead := Ahead(File(s), s.cursor.value);
    var m := Do(s, ArmPlan).mon.value;
    assert ahead == ahead[..m.plan.omitted] + m.plan.replay;
  }

  lemma ArmTracks(s: State, p: nat)
    requires FullInv(s) && Enabled(s, ArmPlan) && s.base.Some? && Waiting(Do(s, ArmPlan), p)
    ensures Waiting(s, p) && Tracked(Do(s, ArmPlan), p)
  {
    assert Waiting(s, p) && Tracked(s, p);
    var t := Do(s, ArmPlan);
    if s.start <= p {
      assert File(s)[p - s.start] == s.log[p];
      ArmSorts(s, s.log[p]);
      if s.log[p] in t.mon.value.plan.history {
        forall k | s.start <= k <= p && s.log[k].Entry?
          ensures Ignored(t.mon.value, s.log[k])
        {
          ArmIgnores(s, p, k);
          ArmSorts(s, s.log[k]);
        }
        ArmIgnores(s, p, p);
      }
    }
  }

  lemma StepTracks(s: State, step: Step, p: nat)
    requires FullInv(s) && Enabled(s, step) && Orderly(s, step) && Waiting(Do(s, step), p)
    ensures Tracked(Do(s, step), p)
  {
    match step
    case Append(line) => AppendTracks(s, line, p);
    case Trim(upTo) => TrimTracks(s, upTo, p);
    case ArmPlan => if s.base.Some? { ArmTracks(s, p); }
    case TailRead => TailReadTracks(s, p);
    case Deliver => DeliverTracks(s, p);
    case StoreCursor => StoreTracks(s, p);
    case _ => OtherTracks(s, step, p);
  }

  lemma StepKeepsFullInv(s: State, step: Step)
    requires FullInv(s) && Enabled(s, step) && Orderly(s, step)
    ensures FullInv(Do(s, step))
  {
    StepKeepsInv(s, step);
    forall p: nat | Waiting(Do(s, step), p)
      ensures Tracked(Do(s, step), p)
    {
      StepTracks(s, step, p);
    }
  }

  lemma {:induction false} RunKeepsFullInv(s: State, steps: seq<Step>)
    requires FullInv(s) && Legal(s, steps)
    ensures FullInv(Run(s, steps))
    decreases |steps|
  {
    if steps != [] {
      StepKeepsFullInv(s, steps[0]);
      RunKeepsFullInv(Do(s, steps[0]), steps[1..]);
    }
  }

  // ---- At-least-once delivery ----

  lemma InitialFullInv(s: State)
    requires Initial(s)
    ensures FullInv(s)
  {
  }

  /**
   * At-least-once delivery: over every legal run, every entry first written
   * after the first arm has been emitted, counted in an omitted notice, or is
   * ahead of the stored cursor, so that the next arm replays or counts it.  The
   * exceptions are two: it left the file untold, or a self-heal seek skipped it
   * and a cursor whose line stands after it has been stored since.
   */
  lemma AtLeastOnce(s0: State, steps: seq<Step>, p: nat)
    requires Initial(s0) && Legal(s0, steps)
    requires Owed(Run(s0, steps), p)
    ensures
      var s := Run(s0, steps);
      var e := s.log[p];
      || e in s.emitted
      || e in s.noticed
      || (s.cursor.Some? && Usable(s.cursor.value) && e in Ahead(File(s), s.cursor.value))
      || p < s.start
      || (e in s.skipped && s.cursor.Some? && s.cursor.value.line.Some? && s.cursor.value.line.value !in s.log[..p + 1])
  {
    InitialFullInv(s0);
    RunKeepsFullInv(s0, steps);
    var s := Run(s0, steps);
    if Waiting(s, p) && s.start <= p {
      assert Tracked(s, p);
      AheadIff(s, p);
      if s.log[p] in s.skipped {
        assert s.log[..p + 1] == s.log[..p] + [s.log[p]];
      } else {
        UnresolvedIsAhead(s, p);
      }
    }
  }

  /** An armed monitor that has worked through the whole file owes nothing that stayed in it and was not skipped. */
  lemma CaughtUpOwesNothing(s0: State, steps: seq<Step>, p: nat)
    requires Initial(s0) && Legal(s0, steps)
    requires
      var s := Run(s0, steps);
      && s.mon.Some? && s.mon.value.queue == [] && s.mon.value.rd == |s.log|
      && Owed(s, p) && s.start <= p
    ensures
      var s := Run(s0, steps);
      Told(s, s.log[p]) || s.log[p] in s.skipped
  {
    InitialFullInv(s0);
    RunKeepsFullInv(s0, steps);
    var s := Run(s0, steps);
    assert Unresolved(s, p) ==> OkAt(s, p);
  }

  // ---- What is told, and nothing else ----

  /** An entry is emitted only when it is printed to a monitor for which it is neither history nor a recent copy. */
  lemma EmittedIff(s: State, step: Step, e: Line)
    requires s.start <= |s.log| && Enabled(s, step)
    ensures e in Do(s, step).emitted <==> e in s.emitted || (step.Deliver? && Emits(s.mon.value, e))
  {
  }

  /** The line at the head of the printed ones is an entry to emit. */
  predicate Emits(m: Monitor, e: Line) {
    && m.queue != [] && m.queue[0] == e && e.Entry? && e !in m.dedup
    && (e in m.pending || (e !in m.plan.history && TsAtLeast(e, m.armSince)))
  }

  /** A later arm replays the newest entries ahead of the cursor, up to the cap, and its notice counts exactly the others. */
  lemma ArmReplaysNewest(s: State)
    requires FullInv(s) && Enabled(s, ArmPlan) && s.base.Some?
    ensures
      var t, ahead := Do(s, ArmPlan), Ahead(File(s), s.cursor.value);
      var k := if |ahead| <= ARM_REPLAY_CAP then |ahead| else ARM_REPLAY_CAP;
      && t.noticed == s.noticed + SetOf(ahead[..|ahead| - k]) && t.emitted == s.emitted
      && t.mon.Some? && t.mon.value.pending == SetOf(ahead[|ahead| - k..]) && |t.mon.value.pending| == k
  {
    var ahead := Ahead(File(s), s.cursor.value);
    PlanReplaysNewest(File(s), s.cursor.value, s.arming.value, ARM_REPLAY_CAP);
    var k := if |ahead| <= ARM_REPLAY_CAP then |ahead| else ARM_REPLAY_CAP;
    AheadCount(File(s), s.cursor.value, |ahead| - k);
  }

  /** No line is ahead twice, so the last ones are as many as their set. */
  lemma AheadCount(lines: seq<Line>, c: Cursor, off: nat)
    requires Usable(c) && off <= |Ahead(lines, c)|
    ensures |SetOf(Ahead(lines, c)[off..])| == |Ahead(lines, c)| - off
  {
    var es, ahead := EntriesOf(lines), Ahead(lines, c);
    forall i: nat, j: nat | off <= i < j < |ahead|
      ensures ahead[i] != ahead[j]
    {
      CandidatesDistinct(AfterCursor(es, c), BeforeCursor(es, c), c.sinceMs, i, j);
    }
    DistinctCount(ahead[off..]);
  }

  lemma {:induction false} DistinctCount(s: seq<Line>)
    requires forall i, j :: 0 <= i < j < |s| ==> s[i] != s[j]
    ensures |SetOf(s)| == |s|
  {
    if s != [] {
      var n := |s| - 1;
      DistinctCount(s[..n]);
      assert SetOf(s) == SetOf(s[..n]) + {s[n]};
      assert s[n] !in SetOf(s[..n]);
    }
  }

  // ---- What can still be told ----

  /** Does draining the printed lines hand over one of `earlier`, so that the cursor comes back to it? */
  predicate Returns(earlier: seq<Line>, history: set<Line>, queue: seq<Line>, inHand: Option<Line>, pending: set<Line>, dedup: seq<Line>)
    decreases |queue|, inHand.Some?
  {
    if inHand.Some? then
      inHand.value in earlier || Returns(earlier, history, queue, None, pending - {inHand.value}, dedup)
    else if queue == [] then false
    else
      var line, rest := queue[0], queue[1..];
      if line.Continuation? || (line !in pending && (line in history || line in dedup))
      then Returns(earlier, history, rest, None, pending, dedup)
      else Returns(earlier, history, rest, Some(line), pending, Remember(dedup, line, RECENT_EMITTED_LINE_CAP))
  }

  predicate ReturnsTo(m: Monitor, earlier: seq<Line>) {
    Returns(earlier, m.plan.history, m.queue, m.inHand, m.pending, m.dedup)
  }

  /** A monitor is live to which the entry is no history. */
  predicate Live(s: State, p: nat)
    requires p < |s.log|
  {
    s.mon.Some? && s.log[p] !in s.mon.value.plan.history
  }

  predicate Printed(s: State, p: nat)
    requires p < |s.log|
  {
    Live(s, p) && s.log[p] in s.mon.value.queue
  }

  predicate ToRead(s: State, p: nat)
    requires p < |s.log|
  {
    Live(s, p) && s.mon.value.rd <= p
  }

  /** The next trim that can happen still keeps the entry, and lets the tail read it again. */
  predicate Reopens(s: State, p: nat)
    requires p < |s.log|
  {
    Live(s, p) && s.start <= p && |s.log| <= p + s.caps.keep && s.start + s.caps.threshold < p + s.caps.keep
  }

  /** A line printed before the entry was skipped will take the cursor back before it. */
  predicate ComesBack(s: State, p: nat)
    requires p < |s.log|
  {
    Live(s, p) && s.start <= p && !s.mon.value.stopping && ReturnsTo(s.mon.value, s.log[..p])
  }

  /** A new arm tells the entry: it is in the file, ahead of the stored cursor. */
  predicate HeldByFile(s: State, p: nat)
    requires p < |s.log| && s.start <= |s.log|
  {
    s.start <= p && s.cursor.Some? && Usable(s.cursor.value) && s.log[p] in Ahead(File(s), s.cursor.value)
  }

  predicate CanBeTold(s: State, p: nat)
    requires p < |s.log| && s.start <= |s.log|
  {
    Printed(s, p) || ToRead(s, p) || Reopens(s, p) || ComesBack(s, p) || HeldByFile(s, p)
  }

  /** The step does not take the entry's last chance. */
  predicate SafeFor(s: State, step: Step, p: nat)
    requires p < |s.log| && s.start <= |s.log| && Enabled(s, step)
  {
    match step
    case Append(_) => Printed(s, p) || ToRead(s, p) || ComesBack(s, p) || HeldByFile(s, p) || |s.log| < p + s.caps.keep
    case Trim(upTo) => upTo <= p || Printed(s, p)
    case StoreCursor => s.mon.value.stopping || Printed(s, p) || ToRead(s, p) || Reopens(s, p) || ComesBack(s, p)
    case Respawn =>
      || Printed(s, p) || Reopens(s, p) || ComesBack(s, p) || HeldByFile(s, p)
      || (Live(s, p) && s.start + s.mon.value.anchor <= p)
    case Stop => Printed(s, p) || ToRead(s, p) || Reopens(s, p) || HeldByFile(s, p)
    case Crash => HeldByFile(s, p)
    case _ => true
  }

  predicate LineBefore(s: State, p: nat)
    requires p < |s.log|
  {
    s.start <= p && s.cursor.Some? && (s.cursor.value.line.None? || s.cursor.value.line.value in s.log[..p])
  }

  lemma HeldByFileIff(s: State, p: nat)
    requires FullInv(s) && Waiting(s, p)
    ensures HeldByFile(s, p) <==> LineBefore(s, p)
  {
    if s.start <= p { AheadIff(s, p); }
  }

  /** What no step changes about an owed entry, and what a step keeps of the cursor's place. */
  lemma LineBeforeStep(s: State, step: Step, p: nat)
    requires FullInv(s) && Enabled(s, step) && Orderly(s, step) && Waiting(s, p)
    ensures
      var t := Do(s, step);
      && Owed(t, p) && t.log[p] == s.log[p]
      && (LineBefore(t, p) <==>
          && (step.Trim? ==> step.upTo <= p)
          && if step.StoreCursor? && !s.mon.value.stopping
             then s.start <= p && s.mon.value.inHand.value in s.log[..p]
             else LineBefore(s, p))
  {
    var t := Do(s, step);
    assert t.log[..p] == s.log[..p];
  }

  lemma InFileAfterStart(s: State, p: nat)
    requires Inv(s) && Owed(s, p) && s.cursor.Some? && s.log[p] in AfterCursor(EntriesOf(File(s)), s.cursor.value)
    ensures s.start <= p
  {
    var c, e, es := s.cursor.value, s.log[p], EntriesOf(File(s));
    if c.line.Some? && FirstIndex(es, c.line.value).None? { FloorMembers(es, c.line.value.ts.value, e); }
    assert e in es;
    EntriesOfMember(File(s), e);
    var q :| 0 <= q < |File(s)| && File(s)[q] == e;
    OwedOnce(s, p, s.start + q);
  }

  /** What one step makes of the chances of a waiting entry. */
  ghost predicate ChancesGo(s: State, step: Step, p: nat)
    requires s.start <= |s.log| && Enabled(s, step) && p < |s.log| && p < |Do(s, step).log|
  {
    Told(Do(s, step), s.log[p]) || CanBeTold(Do(s, step), p) <==> CanBeTold(s, p) && SafeFor(s, step, p)
  }

  /** The step, the invariant after it and the cursor's place, once for all steps. */
  lemma FileChance(s: State, step: Step, p: nat)
    requires FullInv(s) && Enabled(s, step) && Orderly(s, step) && Waiting(s, p)
    ensures
      var t := Do(s, step);
      && Owed(t, p) && t.log[p] == s.log[p] && t.log[..p] == s.log[..p]
      && (HeldByFile(s, p) <==> LineBefore(s, p))
      && (Waiting(t, p) ==>
          (HeldByFile(t, p) <==>
            && (step.Trim? ==> step.upTo <= p)
            && if step.StoreCursor? && !s.mon.value.stopping
               then s.start <= p && s.mon.value.inHand.value in s.log[..p]
               else HeldByFile(s, p)))
  {
    LineBeforeStep(s, step, p);
    HeldByFileIff(s, p);
    StepKeepsFullInv(s, step);
    if Waiting(Do(s, step), p) { HeldByFileIff(Do(s, step), p); }
    assert Do(s, step).log[..p] == s.log[..p];
  }

  lemma AppendChances(s: State, line: Line, p: nat)
    requires FullInv(s) && Orderly(s, Append(line)) && Waiting(s, p)
    ensures ChancesGo(s, Append(line), p)
  {
    FileChance(s, Append(line), p);
  }

  lemma TrimChances(s: State, upTo: nat, p: nat)
    requires FullInv(s) && Enabled(s, Trim(upTo)) && Waiting(s, p)
    ensures ChancesGo(s, Trim(upTo), p)
  {
    FileChance(s, Trim(upTo), p);
  }

  lemma ArmChances(s: State, p: nat)
    requires FullInv(s) && Enabled(s, ArmPlan) && Waiting(s, p)
    ensures ChancesGo(s, ArmPlan, p)
  {
    FileChance(s, ArmPlan, p);
    var ahead := Ahead(File(s), s.cursor.value);
    var m := Do(s, ArmPlan).mon.value;
    if s.start <= p {
      assert File(s)[p - s.start] == s.log[p];
      ArmSorts(s, s.log[p]);
      assert s.log[p] !in ahead ==> s.log[p] !in ahead[..m.plan.omitted];
    } else if s.log[p] in ahead {
      AheadMember(File(s), s.cursor.value, s.log[p]);
      InFileAfterStart(s, p);
    }
  }

  /** A line printed later that is not an earlier entry changes nothing about where the cursor comes back to. */
  lemma {:induction false} ReturnsWithMore(earlier: seq<Line>, history: set<Line>, queue: seq<Line>, x: Line, inHand: Option<Line>, pending: set<Line>, dedup: seq<Line>)
    requires x.Continuation? || x !in earlier
    ensures Returns(earlier, history, queue + [x], inHand, pending, dedup) <==> Returns(earlier, history, queue, inHand, pending, dedup)
    decreases |queue|, inHand.Some?
  {
    if inHand.Some? {
      ReturnsWithMore(earlier, history, queue, x, None, pending - {inHand.value}, dedup);
    } else if queue == [] {
      var later := Remember(dedup, x, RECENT_EMITTED_LINE_CAP);
      assert queue + [x] == [x] && [x][1..] == [];
      assert !Returns(earlier, history, [], None, pending, dedup) && !Returns(earlier, history, [], None, pending - {x}, later);
      assert x.Entry? ==> !Returns(earlier, history, [], Some(x), pending, later);
    } else {
      var line, rest := queue[0], queue[1..];
      assert (queue + [x])[1..] == rest + [x];
      ReturnsWithMore(earlier, history, rest, x, None, pending, dedup);
      ReturnsWithMore(earlier, history, rest, x, Some(line), pending, Remember(dedup, line, RECENT_EMITTED_LINE_CAP));
    }
  }

  lemma ReadChances(s: State, p: nat)
    requires FullInv(s) && Enabled(s, TailRead) && Waiting(s, p)
    ensures ChancesGo(s, TailRead, p)
  {
    FileChance(s, TailRead, p);
    var m := s.mon.value;
    var x := s.log[m.rd];
    if x == s.log[p] { OwedOnce(s, p, m.rd); }
    if m.rd > p {
      assert x.Entry? ==> x !in s.log[..p];
      ReturnsWithMore(s.log[..p], m.plan.history, m.queue, x, m.inHand, m.pending, m.dedup);
    }
  }

  lemma HeadReturns(s: State, earlier: seq<Line>)
    requires s.start <= |s.log| && Enabled(s, Deliver)
    ensures Do(s, Deliver).mon.Some? && (ReturnsTo(Do(s, Deliver).mon.value, earlier) <==> ReturnsTo(s.mon.value, earlier))
  {
  }

  /** A delivery tells the entry exactly when it is at the head and no history. */
  lemma HeadTold(s: State, p: nat)
    requires FullInv(s) && Enabled(s, Deliver) && Waiting(s, p)
    ensures Told(Do(s, Deliver), s.log[p]) <==> s.mon.value.queue[0] == s.log[p] && Live(s, p)
  {
    assert Tracked(s, p);
    assert s.mon.value.queue[0] in s.mon.value.queue;
  }

  lemma DeliverChances(s: State, p: nat)
    requires FullInv(s) && Enabled(s, Deliver) && Waiting(s, p)
    ensures ChancesGo(s, Deliver, p)
  {
    FileChance(s, Deliver, p);
    HeadTold(s, p);
    HeadReturns(s, s.log[..p]);
    DeliverFrame(s);
    var m := s.mon.value;
    assert m.queue == [m.queue[0]] + m.queue[1..];
  }

  /** To a monitor that ignores the entry, no line that stands before it is handed over. */
  lemma BehindStores(s: State, p: nat)
    requires FullInv(s) && Enabled(s, StoreCursor) && Waiting(s, p) && s.start <= p && !Live(s, p)
    ensures s.mon.value.inHand.value !in s.log[..p] && !HeldByFile(s, p)
  {
    assert Tracked(s, p) && Behind(s, s.mon.value, p);
    assert s.log[..p + 1] == s.log[..p] + [s.log[p]];
    HeldByFileIff(s, p);
  }

  lemma StoreChances(s: State, p: nat)
    requires FullInv(s) && Enabled(s, StoreCursor) && Waiting(s, p)
    ensures ChancesGo(s, StoreCursor, p)
  {
    FileChance(s, StoreCursor, p);
    if s.start <= p && !Live(s, p) { BehindStores(s, p); }
  }

  lemma RespawnChances(s: State, p: nat)
    requires FullInv(s) && Enabled(s, Respawn) && Waiting(s, p)
    ensures ChancesGo(s, Respawn, p)
  {
    FileChance(s, Respawn, p);
    assert Tracked(s, p);
  }

  lemma OtherChances(s: State, step: Step, p: nat)
    requires FullInv(s) && Enabled(s, step) && Waiting(s, p)
    requires step.Tick? || step.ArmSample? || step.Reanchor? || step.Stop? || step.Crash?
    ensures ChancesGo(s, step, p)
  {
    FileChance(s, step, p);
  }

  /** An entry is told or can still be told after a step exactly when it could be before and the step is safe for it. */
  lemma StepChances(s: State, step: Step, p: nat)
    requires FullInv(s) && Enabled(s, step) && Orderly(s, step) && Waiting(s, p)
    ensures Owed(Do(s, step), p) && Do(s, step).log[p] == s.log[p]
    ensures Told(Do(s, step), s.log[p]) || CanBeTold(Do(s, step), p) <==> CanBeTold(s, p) && SafeFor(s, step, p)
  {
    FileChance(s, step, p);
    match step
    case Append(line) => AppendChances(s, line, p);
    case Trim(upTo) => TrimChances(s, upTo, p);
    case ArmPlan => ArmChances(s, p);
    case TailRead => ReadChances(s, p);
    case Deliver => DeliverChances(s, p);
    case StoreCursor => StoreChances(s, p);
    case Respawn => RespawnChances(s, p);
    case _ => OtherChances(s, step, p);
  }

  // ---- A run that tells it ----

  lemma RunCons(s: State, step: Step, rest: seq<Step>)
    requires s.start <= |s.log| && Enabled(s, step) && Orderly(s, step) && Legal(Do(s, step), rest)
    ensures Legal(s, [step] + rest) && Run(s, [step] + rest) == Run(Do(s, step), rest)
  {
    assert ([step] + rest)[1..] == rest;
  }

  /** The monitor emits the entry once it is printed. */
  predicate Takes(m: Monitor, e: Line) { e.Entry? && e !in m.plan.history && Unhandled(m, e) }

  lemma {:induction false} TellQueued(s: State, e: Line) returns (steps: seq<Step>)
    requires s.start <= |s.log| && s.mon.Some? && Takes(s.mon.value, e) && e in s.mon.value.queue
    ensures Legal(s, steps) && e in Run(s, steps).emitted
    decreases |s.mon.value.queue|, s.mon.value.inHand.Some?
  {
    var m := s.mon.value;
    if m.inHand.Some? {
      var rest := TellQueued(Do(s, StoreCursor), e);
      RunCons(s, StoreCursor, rest);
      steps := [StoreCursor] + rest;
    } else if m.queue[0] == e {
      assert Legal(Do(s, Deliver), []);
      RunCons(s, Deliver, []);
      steps := [Deliver] + [];
    } else {
      var t := Do(s, Deliver);
      DeliverFrame(s);
      RememberMember(m.dedup, m.queue[0], RECENT_EMITTED_LINE_CAP, e);
      assert m.queue == [m.queue[0]] + m.queue[1..];
      assert Takes(t.mon.value, e);
      var rest := TellQueued(t, e);
      RunCons(s, Deliver, rest);
      steps := [Deliver] + rest;
    }
  }

  lemma {:induction false} TellReadable(s: State, p: nat) returns (steps: seq<Step>)
    requires s.mon.Some? && s.start <= s.mon.value.rd <= p < |s.log| && Takes(s.mon.value, s.log[p])
    ensures Legal(s, steps) && s.log[p] in Run(s, steps).emitted
    decreases p - s.mon.value.rd
  {
    var t := Do(s, TailRead);
    var rest;
    if s.mon.value.rd == p {
      rest := TellQueued(t, s.log[p]);
    } else {
      rest := TellReadable(t, p);
    }
    RunCons(s, TailRead, rest);
    steps := [TailRead] + rest;
  }

  lemma {:induction false} RunConcat(s: State, a: seq<Step>, b: seq<Step>)
    requires s.start <= |s.log| && Legal(s, a) && Legal(Run(s, a), b)
    ensures Legal(s, a + b) && Run(s, a + b) == Run(Run(s, a), b)
    decreases |a|
  {
    if a == [] {
      assert a + b == b;
    } else {
      RunConcat(Do(s, a[0]), a[1..], b);
      assert (a + b)[1..] == a[1..] + b;
    }
  }

  predicate AllDated(log: seq<Line>) { forall p :: 0 <= p < |log| && log[p].Entry? ==> log[p].ts.Some? }

  /** A time later than that of any entry, and not before `floor`. */
  function LaterThan(log: seq<Line>, floor: int): (ts: int)
    ensures ts >= floor
    ensures forall p :: 0 <= p < |log| && log[p].Entry? && log[p].ts.Some? ==> log[p].ts.value < ts
  {
    if log == [] then floor
    else
      var n := |log| - 1;
      var ts := LaterThan(log[..n], floor);
      if log[n].Entry? && log[n].ts.Some? && log[n].ts.value >= ts then log[n].ts.value + 1 else ts
  }

  /** The owner can write any number of further entries. */
  lemma {:induction false} AppendMany(s: State, n: nat) returns (steps: seq<Step>, more: seq<Line>)
    requires s.start <= |s.log| && AllDated(s.log)
    ensures |more| == n && AllDated(s.log + more)
    ensures Legal(s, steps) && Run(s, steps) == s.(log := s.log + more)
    decreases n
  {
    if n == 0 {
      steps, more := [], [];
      assert s.log + more == s.log;
    } else {
      var line := Entry("entry", Some(LaterThan(s.log, s.now)));
      var t := Do(s, Append(line));
      assert Orderly(s, Append(line));
      var rest, later := AppendMany(t, n - 1);
      RunCons(s, Append(line), rest);
      steps, more := [Append(line)] + rest, [line] + later;
      assert s.log + more == t.log + later;
    }
  }

  /** Entries are written until the owner trims; the tail reopens the file before the entry. */
  lemma TellReopened(s: State, p: nat) returns (steps: seq<Step>)
    requires FullInv(s) && Waiting(s, p) && Reopens(s, p)
    ensures Legal(s, steps) && s.log[p] in Run(s, steps).emitted
  {
    assert Tracked(s, p);
    var n: nat := if |File(s)| > s.caps.threshold then 0 else s.caps.threshold + 1 - |File(s)|;
    var writes, more := AppendMany(s, n);
    var a := Run(s, writes);
    assert a.log[p] == s.log[p];
    var upTo: nat := |a.log| - s.caps.keep;
    var rest := TellReadable(Do(a, Trim(upTo)), p);
    RunCons(a, Trim(upTo), rest);
    RunConcat(s, writes, [Trim(upTo)] + rest);
    steps := writes + ([Trim(upTo)] + rest);
  }

  lemma TellAhead(s: State, p: nat) returns (steps: seq<Step>)
    requires FullInv(s) && Waiting(s, p) && HeldByFile(s, p)
    ensures Legal(s, steps) && Told(Run(s, steps), s.log[p])
  {
    var a := Do(s, Crash);
    var b := Do(a, ArmSample);
    var t := Do(b, ArmPlan);
    StepKeepsFullInv(s, Crash);
    StepKeepsFullInv(a, ArmSample);
    StepKeepsFullInv(b, ArmPlan);
    assert File(b)[p - s.start] == s.log[p];
    ArmSorts(b, s.log[p]);
    var rest := [];
    if !Told(t, s.log[p]) {
      assert Waiting(t, p) && Tracked(t, p);
      rest := TellReadable(t, p);
    }
    RunCons(b, ArmPlan, rest);
    RunCons(a, ArmSample, [ArmPlan] + rest);
    RunCons(s, Crash, [ArmSample] + ([ArmPlan] + rest));
    steps := [Crash] + ([ArmSample] + ([ArmPlan] + rest));
  }

  /** The printed lines are handled until the cursor stands before the entry, and a new arm replays it. */
  lemma {:induction false} TellReturned(s: State, p: nat) returns (steps: seq<Step>)
    requires FullInv(s) && Waiting(s, p) && ComesBack(s, p)
    ensures Legal(s, steps) && Told(Run(s, steps), s.log[p])
    decreases |s.mon.value.queue|, s.mon.value.inHand.Some?
  {
    var m := s.mon.value;
    var step := if m.inHand.Some? then StoreCursor else Deliver;
    var t := Do(s, step);
    StepKeepsFullInv(s, step);
    FileChance(s, step, p);
    var rest := [];
    if m.inHand.Some? {
      if m.inHand.value in s.log[..p] { rest := TellAhead(t, p); } else { rest := TellReturned(t, p); }
    } else {
      HeadReturns(s, s.log[..p]);
      DeliverFrame(s);
      if Waiting(t, p) { rest := TellReturned(t, p); }
    }
    RunCons(s, step, rest);
    steps := [step] + rest;
  }

  lemma Tell(s: State, p: nat) returns (steps: seq<Step>)
    requires FullInv(s) && Waiting(s, p) && CanBeTold(s, p)
    ensures Legal(s, steps) && Told(Run(s, steps), s.log[p])
  {
    assert Tracked(s, p);
    if Printed(s, p) { steps := TellQueued(s, s.log[p]); }
    else if ToRead(s, p) { steps := TellReadable(s, p); }
    else if HeldByFile(s, p) { steps := TellAhead(s, p); }
    else if Reopens(s, p) { steps := TellReopened(s, p); }
    else { steps := TellReturned(s, p); }
  }

  lemma {:induction false} LostForever(s: State, steps: seq<Step>, p: nat)
    requires FullInv(s) && Legal(s, steps) && Waiting(s, p) && !CanBeTold(s, p)
    ensures Waiting(Run(s, steps), p) && !CanBeTold(Run(s, steps), p) && Run(s, steps).log[p] == s.log[p]
    decreases |steps|
  {
    if steps != [] {
      StepChances(s, steps[0], p);
      StepKeepsFullInv(s, steps[0]);
      LostForever(Do(s, steps[0]), steps[1..], p);
    }
  }

  /** Some legal continuation tells the entry. */
  ghost predicate Tellable(s: State, p: nat)
    requires p < |s.log| && s.start <= |s.log|
  {
    exists steps :: Legal(s, steps) && Told(Run(s, steps), s.log[p])
  }

  /**
   * The exact condition for a waiting entry, at any point of any run: some
   * continuation tells it if and only if a live monitor to which it is no
   * history has printed it, will read it, will read it again after the next trim
   * that can happen, or will take the cursor back before it; or the entry is in
   * the file ahead of the stored cursor.
   */
  lemma TellableIff(s: State, p: nat)
    requires FullInv(s) && Waiting(s, p)
    ensures Tellable(s, p) <==> CanBeTold(s, p)
  {
    if CanBeTold(s, p) {
      var steps := Tell(s, p);
      assert Told(Run(s, steps), s.log[p]);
    } else {
      forall steps | Legal(s, steps)
        ensures !Told(Run(s, steps), s.log[p])
      {
        LostForever(s, steps, p);
      }
    }
  }

  /** A step takes an entry's last chance exactly when it is not safe for it. */
  lemma StepLosesIff(s: State, step: Step, p: nat)
    requires FullInv(s) && Enabled(s, step) && Orderly(s, step) && Waiting(s, p) && Tellable(s, p)
    ensures
      var t := Do(s, step);
      && Owed(t, p) && t.log[p] == s.log[p]
      && (Waiting(t, p) && !Tellable(t, p) <==> !SafeFor(s, step, p))
  {
    TellableIff(s, p);
    StepChances(s, step, p);
    StepKeepsFullInv(s, step);
    if Waiting(Do(s, step), p) { TellableIff(Do(s, step), p); }
  }

  /**
   * A trim takes an entry's last chance exactly when the entry leaves the file
   * before the live monitor, to which it is no history, has printed it.
   */
  lemma TrimLosesIff(s: State, upTo: nat, p: nat)
    requires FullInv(s) && Enabled(s, Trim(upTo)) && Waiting(s, p) && Tellable(s, p)
    ensures !Tellable(Do(s, Trim(upTo)), p) <==>
      p < upTo && !(s.mon.Some? && s.log[p] !in s.mon.value.plan.history && s.log[p] in s.mon.value.queue)
  {
    StepLosesIff(s, Trim(upTo), p);
  }

  /**
   * Storing a cursor takes an entry's last chance exactly when only a new arm
   * would have told it: the tail has passed it, no trim that can still happen
   * keeps it, and no line that stands before it is among those printed.
   */
  lemma StoreLosesIff(s: State, p: nat)
    requires FullInv(s) && Enabled(s, StoreCursor) && Waiting(s, p) && Tellable(s, p)
    ensures !Tellable(Do(s, StoreCursor), p) <==>
      && HeldByFile(s, p) && !s.mon.value.stopping
      && !Printed(s, p) && !ToRead(s, p) && !Reopens(s, p) && !ComesBack(s, p)
  {
    TellableIff(s, p);
    StepLosesIff(s, StoreCursor, p);
  }

  /**
   * A self-heal takes an entry's last chance exactly when the entry was only
   * still to be read and the heal seeks past it; it never changes whether an
   * entry is ahead of the cursor, so one that was never skipped is not lost.
   */
  lemma RespawnLosesIff(s: State, p: nat)
    requires FullInv(s) && Enabled(s, Respawn) && Waiting(s, p) && Tellable(s, p)
    ensures !Tellable(Do(s, Respawn), p) <==>
      && ToRead(s, p) && p < s.start + s.mon.value.anchor
      && !Printed(s, p) && !Reopens(s, p) && !ComesBack(s, p) && !HeldByFile(s, p)
    ensures HeldByFile(Do(s, Respawn), p) <==> HeldByFile(s, p)
    ensures Unresolved(s, p) ==> HeldByFile(s, p)
  {
    TellableIff(s, p);
    StepLosesIff(s, Respawn, p);
    FileChance(s, Respawn, p);
    assert Tracked(s, p);
    if Unresolved(s, p) { UnresolvedIsAhead(s, p); }
  }

  lemma AheadEndsIff(s: State, step: Step, p: nat)
    requires FullInv(s) && Enabled(s, step) && Orderly(s, step)
    requires Waiting(s, p) && Waiting(Do(s, step), p) && HeldByFile(s, p)
    ensures !HeldByFile(Do(s, step), p) <==>
      || (step.Trim? && p < step.upTo)
      || (step.StoreCursor? && !s.mon.value.stopping && s.mon.value.inHand.value !in s.log[..p])
  {
    StepKeepsFullInv(s, step);
    HeldByFileIff(s, p);
    HeldByFileIff(Do(s, step), p);
    LineBeforeStep(s, step, p);
  }

  // ---- Runs that lose nothing ----

  /** No step takes a waiting entry's last chance. */
  ghost predicate Careful(s: State, step: Step)
    requires s.start <= |s.log| && Enabled(s, step)
  {
    forall p: nat :: Waiting(s, p) ==> SafeFor(s, step, p)
  }

  ghost predicate CarefulRun(s: State, steps: seq<Step>)
    requires s.start <= |s.log| && Legal(s, steps)
    decreases |steps|
  {
    steps != [] ==> Careful(s, steps[0]) && CarefulRun(Do(s, steps[0]), steps[1..])
  }

  ghost predicate NothingLost(s: State)
    requires s.start <= |s.log|
  {
    forall p: nat :: Waiting(s, p) ==> CanBeTold(s, p)
  }

  lemma StepLosesNothingIff(s: State, step: Step)
    requires FullInv(s) && NothingLost(s) && Enabled(s, step) && Orderly(s, step)
    ensures NothingLost(Do(s, step)) <==> Careful(s, step)
  {
    var t := Do(s, step);
    forall p: nat | Waiting(s, p)
      ensures Owed(t, p) && t.log[p] == s.log[p]
      ensures Told(t, s.log[p]) || CanBeTold(t, p) <==> SafeFor(s, step, p)
    {
      StepChances(s, step, p);
    }
    forall p: nat | Waiting(t, p) && !Waiting(s, p)
      ensures CanBeTold(t, p)
    {
      NewEntryIsAhead(s, step, p);
    }
  }

  /** An entry begins to wait when it is written, and is then ahead of the cursor. */
  lemma NewEntryIsAhead(s: State, step: Step, p: nat)
    requires FullInv(s) && Enabled(s, step) && Orderly(s, step) && Waiting(Do(s, step), p) && !Waiting(s, p)
    ensures CanBeTold(Do(s, step), p)
  {
    var t := Do(s, step);
    StepKeepsFullInv(s, step);
    HeldByFileIff(t, p);
    if step.Append? { assert t.log[..p] == s.log; }
  }

  lemma {:induction false} LostSomewhere(s: State, steps: seq<Step>)
    requires FullInv(s) && Legal(s, steps) && !NothingLost(s)
    ensures !NothingLost(Run(s, steps))
    decreases |steps|
  {
    var p: nat :| Waiting(s, p) && !CanBeTold(s, p);
    LostForever(s, steps, p);
  }

  lemma {:induction false} CarefulIff(s: State, steps: seq<Step>)
    requires FullInv(s) && NothingLost(s) && Legal(s, steps)
    ensures NothingLost(Run(s, steps)) <==> CarefulRun(s, steps)
    decreases |steps|
  {
    if steps != [] {
      var t := Do(s, steps[0]);
      StepLosesNothingIff(s, steps[0]);
      StepKeepsFullInv(s, steps[0]);
      if NothingLost(t) { CarefulIff(t, steps[1..]); } else { LostSomewhere(t, steps[1..]); }
    }
  }

  /**
   * No entry is lost over a run if and only if every step is safe for every
   * entry that waits: trims cut only what is printed, heals and cursors pass, and
   * monitors end over, only what has another chance.
   */
  lemma NothingLostIffCareful(s0: State, steps: seq<Step>)
    requires Initial(s0) && Legal(s0, steps)
    ensures
      var s := Run(s0, steps);
      (forall p: nat :: Waiting(s, p) ==> Tellable(s, p)) <==> CarefulRun(s0, steps)
  {
    InitialFullInv(s0);
    RunKeepsFullInv(s0, steps);
    CarefulIff(s0, steps);
    forall p: nat | Waiting(Run(s0, steps), p)
      ensures Tellable(Run(s0, steps), p) <==> CanBeTold(Run(s0, steps), p)
    {
      TellableIff(Run(s0, steps), p);
    }
  }

  // ---- Runs that lose an entry ----

  const STALL_MS: nat := TailStall.STALL_THRESHOLD_MS

  lemma {:induction false} RunSnoc(s: State, steps: seq<Step>, step: Step)
    requires s.start <= |s.log| && Legal(s, steps)
    requires Enabled(Run(s, steps), step) && Orderly(Run(s, steps), step)
    ensures Legal(s, steps + [step]) && Run(s, steps + [step]) == Do(Run(s, steps), step)
    decreases |steps|
  {
    if steps == [] {
      assert steps + [step] == [step];
      assert Legal(Do(s, step), []) && [step][1..] == [];
    } else {
      RunSnoc(Do(s, steps[0]), steps[1..], step);
      assert (steps + [step])[1..] == steps[1..] + [step];
    }
  }

  function Start(caps: FileCaps): State { State([], 0, SKEW_MS, None, None, None, None, {}, {}, {}, caps) }

  const START: State := Start(INBOX_CAPS)

  /** An empty inbox is armed, `a` is printed, then `b` is written. */
  lemma PrintedBeforeAppend(a: Line, b: Line, plan: Plan) returns (steps: seq<Step>)
    requires a == Entry("a", Some(1)) && b == Entry("b", Some(2))
    requires plan == Plan({}, [], 0, Some(Cursor(None, 0)), 0)
    ensures Legal(START, steps)
    ensures Run(START, steps) == START.(
      log := [a, b], cursor := Some(Cursor(None, 0)), base := Some(0),
      mon := Some(Monitor(0, plan, {}, [], [a], 1, None, 0, false)))
  {
    steps := [];
    RunSnoc(START, steps, ArmSample); steps := steps + [ArmSample];
    var s := Run(START, steps);
    assert SetOf([]) == {} && EntriesOf([]) == [] && File(s) == [];
    assert PlanFor(File(s), None, 0, ARM_REPLAY_CAP) == plan;
    RunSnoc(START, steps, ArmPlan); steps := steps + [ArmPlan];
    RunSnoc(START, steps, Append(a)); steps := steps + [Append(a)];
    assert Run(START, steps).log == [a];
    RunSnoc(START, steps, TailRead); steps := steps + [TailRead];
    assert Run(START, steps).mon.value.queue == [a];
    RunSnoc(START, steps, Append(b)); steps := steps + [Append(b)];
    assert Run(START, steps).log == [a, b];
  }

  /** `a` is delivered, so the offset moves past both lines; `c` is written and the stall threshold passes. */
  lemma DeliveredThenGrown(a: Line, b: Line, c: Line, plan: Plan) returns (steps: seq<Step>)
    requires a == Entry("a", Some(1)) && b == Entry("b", Some(2)) && c == Entry("c", Some(3))
    requires plan == Plan({}, [], 0, Some(Cursor(None, 0)), 0)
    ensures Legal(START, steps)
    ensures Run(START, steps) == START.(
      log := [a, b, c], now := SKEW_MS + STALL_MS, cursor := Some(Cursor(Some(a), 0)), base := Some(0), emitted := {a},
      mon := Some(Monitor(0, plan, {}, [a], [], 1, None, 2, false)))
  {
    steps := PrintedBeforeAppend(a, b, plan);
    assert File(Run(START, steps)) == [a, b] && [a][1..] == [];
    assert Remember([], a, RECENT_EMITTED_LINE_CAP) == [a];
    RunSnoc(START, steps, Deliver); steps := steps + [Deliver];
    RunSnoc(START, steps, StoreCursor); steps := steps + [StoreCursor];
    RunSnoc(START, steps, Append(c)); steps := steps + [Append(c)];
    assert Run(START, steps).log == [a, b, c];
    RunSnoc(START, steps, Tick(STALL_MS)); steps := steps + [Tick(STALL_MS)];
  }

  /** The heal seeks past `b`. */
  lemma DeliveredThenHealed(a: Line, b: Line, c: Line, plan: Plan) returns (steps: seq<Step>)
    requires a == Entry("a", Some(1)) && b == Entry("b", Some(2)) && c == Entry("c", Some(3))
    requires plan == Plan({}, [], 0, Some(Cursor(None, 0)), 0)
    ensures Legal(START, steps)
    ensures Run(START, steps) == START.(
      log := [a, b, c], now := SKEW_MS + STALL_MS, cursor := Some(Cursor(Some(a), 0)), base := Some(0), emitted := {a}, skipped := {b},
      mon := Some(Monitor(0, plan, {}, [a], [], 2, None, 2, false)))
  {
    steps := DeliveredThenGrown(a, b, c, plan);
    var s := Run(START, steps);
    assert File(s) == [a, b, c];
    assert Unresolved(s, 1) && !Unresolved(s, 0);
    UntoldMember(s, 0, 2, [], 1);
    assert Untold(s, 0, 2, []) == {b};
    RunSnoc(START, steps, Respawn); steps := steps + [Respawn];
  }

  /** The new tail prints `c`. */
  lemma ReadPastTheSkipped(a: Line, b: Line, c: Line, plan: Plan) returns (steps: seq<Step>)
    requires a == Entry("a", Some(1)) && b == Entry("b", Some(2)) && c == Entry("c", Some(3))
    requires plan == Plan({}, [], 0, Some(Cursor(None, 0)), 0)
    ensures Legal(START, steps)
    ensures Run(START, steps) == START.(
      log := [a, b, c], now := SKEW_MS + STALL_MS, cursor := Some(Cursor(Some(a), 0)), base := Some(0), emitted := {a}, skipped := {b},
      mon := Some(Monitor(0, plan, {}, [a], [c], 3, None, 2, false)))
  {
    steps := DeliveredThenHealed(a, b, c, plan);
    RunSnoc(START, steps, TailRead); steps := steps + [TailRead];
    assert Run(START, steps).mon.value.queue == [c];
  }

  /** `c` is delivered, and the cursor moves on to it. */
  lemma HealedThenPassed(a: Line, b: Line, c: Line, plan: Plan) returns (steps: seq<Step>)
    requires a == Entry("a", Some(1)) && b == Entry("b", Some(2)) && c == Entry("c", Some(3))
    requires plan == Plan({}, [], 0, Some(Cursor(None, 0)), 0)
    ensures Legal(START, steps)
    ensures Run(START, steps) == START.(
      log := [a, b, c], now := SKEW_MS + STALL_MS, cursor := Some(Cursor(Some(c), 0)), base := Some(0), emitted := {a, c}, skipped := {b},
      mon := Some(Monitor(0, plan, {}, [a, c], [], 3, None, 3, false)))
  {
    steps := ReadPastTheSkipped(a, b, c, plan);
    var s := Run(START, steps);
    assert [c][1..] == [] && Remember([a], c, RECENT_EMITTED_LINE_CAP) == [a, c];
    RunSnoc(START, steps, Deliver); steps := steps + [Deliver];
    assert Run(START, steps) == s.(emitted := {a, c}, mon := Some(Monitor(0, plan, {}, [a, c], [], 3, Some(c), 3, false)));
    RunSnoc(START, steps, StoreCursor); steps := steps + [StoreCursor];
  }

  /**
   * The self-heal offset is the file size at the last delivery, which can be
   * past lines not printed yet: here `b` is written before `a` is delivered,
   * the heal seeks past it, and the cursor moves on to `c`.  The monitor is live
   * and `b` is still in the file, but no continuation ever tells it.
   */
  lemma RespawnCanLoseAnEntry(a: Line, b: Line, c: Line) returns (steps: seq<Step>)
    requires a == Entry("a", Some(1)) && b == Entry("b", Some(2)) && c == Entry("c", Some(3))
    ensures Initial(START) && Legal(START, steps)
    ensures
      var s := Run(START, steps);
      && Waiting(s, 1) && s.log[1] == b && b in File(s) && s.mon.Some?
      && s.cursor == Some(Cursor(Some(c), 0)) && Usable(s.cursor.value) && b !in Ahead(File(s), s.cursor.value)
      && !Tellable(s, 1)
  {
    steps := HealedThenPassed(a, b, c, Plan({}, [], 0, Some(Cursor(None, 0)), 0));
    InitialFullInv(START);
    RunKeepsFullInv(START, steps);
    var s := Run(START, steps);
    assert File(s)[1] == b && s.log[..1] == [a];
    AheadIff(s, 1);
    TellableIff(s, 1);
  }

  /** An empty inbox is armed, and more entries than the threshold are written before the tail reads any. */
  lemma ArmedThenFilled(caps: FileCaps) returns (steps: seq<Step>, more: seq<Line>)
    ensures Legal(Start(caps), steps)
    ensures |more| == caps.threshold + 1 && more[0].Entry?
    ensures
      var s := Run(Start(caps), steps);
      && s.log == more && s.start == 0 && s.caps == caps && s.base == Some(0) && s.emitted == {} && s.noticed == {}
      && s.mon.Some? && s.mon.value.queue == [] && s.mon.value.plan.history == {}
  {
    var s0 := Start(caps);
    steps := [];
    RunSnoc(s0, steps, ArmSample); steps := steps + [ArmSample];
    assert SetOf([]) == {} && EntriesOf([]) == [] && File(Run(s0, steps)) == [];
    RunSnoc(s0, steps, ArmPlan); steps := steps + [ArmPlan];
    var s := Run(s0, steps);
    var first := Entry("entry", Some(s.now));
    RunSnoc(s0, steps, Append(first)); steps := steps + [Append(first)];
    var writes, later := AppendMany(Run(s0, steps), caps.threshold);
    RunConcat(s0, steps, writes);
    steps, more := steps + writes, [first] + later;
    assert s.log + [first] == [first];
  }

  /** Whatever the caps: an entry that is trimmed out of the file before it is printed is never told. */
  lemma TrimCanLoseAnEntry(caps: FileCaps) returns (steps: seq<Step>)
    ensures Initial(Start(caps)) && Legal(Start(caps), steps)
    ensures
      var s := Run(Start(caps), steps);
      Waiting(s, 0) && s.mon.Some? && !Tellable(s, 0)
  {
    var more;
    steps, more := ArmedThenFilled(caps);
    var upTo: nat := |more| - caps.keep;
    RunSnoc(Start(caps), steps, Trim(upTo)); steps := steps + [Trim(upTo)];
    InitialFullInv(Start(caps));
    RunKeepsFullInv(Start(caps), steps);
    TellableIff(Run(Start(caps), steps), 0);
  }
}
