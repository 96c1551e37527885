/**
 * At-least-once delivery of the inbox monitor (src/inbox-monitor.ts, the
 * state-root part of main) as a state machine over whole runs: the stream
 * owner appends and trims, monitors arm, deliver, store cursors, self-heal,
 * stop and crash, interleaved at every step.
 *
 * The file is `log[start..]`, where `log` is everything ever written: a trim
 * keeps a suffix.  File sizes are counted in lines.  `tail` has printed the
 * lines in `queue` and will next read `log[rd]`.
 */
module InboxDelivery {
  import opened Common
  import opened InboxReplay

  datatype Monitor = Monitor(
    armSince: int,
    plan: Plan,
    pending: set<Line>,
    dedup: seq<Line>,
    queue: seq<Line>,
    rd: nat,
    inHand: Option<Line>,
    anchor: nat,
    stopping: bool)

  /** A file of more than `threshold` lines is trimmed to its last `keep`. */
  datatype Caps = Caps(keep: nat, threshold: nat)

  type FileCaps = c: Caps | 1 <= c.keep <= c.threshold witness Caps(512, 1024)

  const INBOX_CAPS: FileCaps := Caps(512, 1024)

  /**
   * `base` is the log position of the first arm; `emitted` and `noticed` are
   * what the drone was told; `skipped` collects the entries a self-heal seek
   * jumped over before they were printed.  The owner's `caps` never change.
   */
  datatype State = State(
    log: seq<Line>,
    start: nat,
    now: int,
    cursor: Option<Cursor>,
    arming: Option<int>,
    mon: Option<Monitor>,
    base: Option<nat>,
    emitted: set<Line>,
    noticed: set<Line>,
    skipped: set<Line>,
    caps: FileCaps)

  datatype Step =
    | Tick(ms: nat)
    | Append(line: Line)
    | Trim(upTo: nat)
    | ArmSample
    | ArmPlan
    | TailRead
    | Deliver
    | StoreCursor
    | Reanchor
    | Respawn
    | Stop
    | Crash

  function File(s: State): seq<Line>
    requires s.start <= |s.log|
  {
    s.log[s.start..]
  }

  predicate Told(s: State, e: Line) { e in s.emitted || e in s.noticed }

  /** Entries first written after the first arm. */
  predicate Owed(s: State, p: nat) {
    s.base.Some? && s.base.value <= p < |s.log| && s.log[p].Entry?
  }

  /** Owed, in the file, not told and never skipped. */
  predicate Unresolved(s: State, p: nat) {
    Owed(s, p) && !Told(s, s.log[p]) && s.start <= p && s.log[p] !in s.skipped
  }

  predicate Enabled(s: State, step: Step)
    requires s.start <= |s.log|
  {
    match step
    case Tick(_) => true
    case Append(_) => true
    case Trim(upTo) => |File(s)| > s.caps.threshold && upTo == |s.log| - s.caps.keep
    case ArmSample => s.mon.None? && s.arming.None?
    case ArmPlan => s.mon.None? && s.arming.Some?
    case TailRead => s.mon.Some? && s.start <= s.mon.value.rd < |s.log|
    case Deliver => s.mon.Some? && s.mon.value.inHand.None? && s.mon.value.queue != []
    case StoreCursor => s.mon.Some? && s.mon.value.inHand.Some?
    case Reanchor => s.mon.Some? && |File(s)| < s.mon.value.anchor
    case Respawn => s.mon.Some? && |File(s)| > s.mon.value.anchor && !s.mon.value.stopping
    case Stop => s.mon.Some?
    case Crash => true
  }

  /** Entries of `log[lo..hi]` the drone has not been told about and that are not printed yet. */
  function Untold(s: State, lo: nat, hi: nat, printed: seq<Line>): set<Line>
    requires hi <= |s.log|
  {
    set p | lo <= p < hi && Unresolved(s, p) && s.log[p] !in printed :: s.log[p]
  }

  function Do(s: State, step: Step): (s': State)
    requires s.start <= |s.log| && Enabled(s, step)
    ensures s'.start <= |s'.log|
  {
    match step
    case Tick(ms) => s.(now := s.now + ms)
    case Append(line) => s.(log := s.log + [line])
    case Trim(upTo) => DoTrim(s, upTo)
    case ArmSample => s.(arming := Some(s.now - SKEW_MS))
    case ArmPlan => DoArm(s)
    case TailRead =>
      var m := s.mon.value;
      s.(mon := Some(m.(queue := m.queue + [s.log[m.rd]], rd := m.rd + 1)))
    case Deliver => DoDeliver(s)
    case StoreCursor => DoStore(s)
    case Reanchor => s.(mon := Some(s.mon.value.(anchor := |File(s)|)))
    case Respawn =>
      var m := s.mon.value;
      var to := s.start + m.anchor;
      s.(skipped := s.skipped + Untold(s, s.start, to, m.queue), mon := Some(m.(rd := to)))
    case Stop => s.(mon := Some(s.mon.value.(stopping := true)))
    case Crash => s.(mon := None, arming := None)
  }

  /** The owner renames the last lines over the file; tail reopens it from its first line. */
  function DoTrim(s: State, upTo: nat): State
    requires s.start <= upTo <= |s.log|
  {
    s.(start := upTo, mon := if s.mon.Some? then Some(s.mon.value.(rd := upTo)) else None)
  }

  /** Read the file and the stored cursor, plan, store the arm's cursor, print the notice. */
  function DoArm(s: State): State
    requires s.start <= |s.log| && s.arming.Some?
  {
    var since := s.arming.value;
    var usable := Decode(s.cursor);
    var plan := PlanFor(File(s), usable, since, ARM_REPLAY_CAP);
    s.(arming := None,
       base := if s.base.None? then Some(|s.log|) else s.base,
       cursor := if plan.cursorAtArm.Some? then plan.cursorAtArm else s.cursor,
       noticed := s.noticed + (if usable.Some? then SetOf(Ahead(File(s), usable.value)[..plan.omitted]) else {}),
       mon := Some(Monitor(since, plan, SetOf(plan.replay), [], [], s.start, None, |File(s)|, false)))
  }

  /** One printed line, up to but not including its cursor write. */
  function DoDeliver(s: State): State
    requires s.start <= |s.log| && Enabled(s, Deliver)
  {
    var line := s.mon.value.queue[0];
    var rest := s.mon.value.(queue := s.mon.value.queue[1..]);
    if line.Continuation? then s.(mon := Some(rest))
    else
      var m := rest.(anchor := |File(s)|);
      if line in m.pending then
        s.(mon := Some(m.(dedup := Remember(m.dedup, line, RECENT_EMITTED_LINE_CAP), inHand := Some(line))),
           emitted := if line in m.dedup then s.emitted else s.emitted + {line})
      else if line in m.plan.history || line in m.dedup then s.(mon := Some(m))
      else
        s.(mon := Some(m.(dedup := Remember(m.dedup, line, RECENT_EMITTED_LINE_CAP), inHand := Some(line))),
           emitted := if TsAtLeast(line, m.armSince) then s.emitted + {line} else s.emitted)
  }

  function DoStore(s: State): State
    requires s.mon.Some? && s.mon.value.inHand.Some?
  {
    var m := s.mon.value;
    var line := m.inHand.value;
    var pending := m.pending - {line};
    s.(mon := Some(m.(pending := pending, inHand := None)),
       cursor := if m.stopping then s.cursor else Some(StoredAfter(m.plan, m.armSince, line, pending)))
  }

  // ---- Runs ----

  /** What the environment promises about a step. */
  predicate Orderly(s: State, step: Step) {
    step.Append? && step.line.Entry? ==>
      && step.line.ts.Some?
      && step.line.ts.value >= s.now - SKEW_MS
      && step.line !in s.log
      && forall p :: 0 <= p < |s.log| && s.log[p].Entry? ==> TsAtMost(s.log[p], step.line.ts.value)
  }

  predicate TsAtMost(line: Line, bound: int) {
    line.Entry? && line.ts.Some? && line.ts.value <= bound
  }

  /** Before the first arm: any file whose entry timestamps are dates in file order. */
  ghost predicate Initial(s: State) {
    && s.start <= |s.log| && s.now >= SKEW_MS
    && s.cursor.None? && s.arming.None? && s.mon.None? && s.base.None?
    && s.emitted == {} && s.noticed == {} && s.skipped == {}
    && Sorted(s.log)
  }

  ghost predicate Sorted(log: seq<Line>) {
    && (forall p :: 0 <= p < |log| && log[p].Entry? ==> log[p].ts.Some?)
    && (forall p, q :: 0 <= p <= q < |log| && log[p].Entry? && log[q].Entry? ==> TsAtMost(log[p], log[q].ts.value))
  }

  /** Every step is possible and the environment keeps its promises. */
  predicate Legal(s: State, steps: seq<Step>)
    requires s.start <= |s.log|
    decreases |steps|
  {
    steps != [] ==> Enabled(s, steps[0]) && Orderly(s, steps[0]) && Legal(Do(s, steps[0]), steps[1..])
  }

  function Run(s: State, steps: seq<Step>): (s': State)
    requires s.start <= |s.log| && Legal(s, steps)
    ensures s'.start <= |s'.log|
    decreases |steps|
  {
    if steps == [] then s else Run(Do(s, steps[0]), steps[1..])
  }

  // ---- The invariant ----

  /** An unresolved entry lies past the stored cursor, and is allowed by its bound. */
  ghost predicate PastCursor(s: State, c: Cursor, p: nat)
    requires p < |s.log|
  {
    && s.start <= p
    && TsAtLeast(s.log[p], c.sinceMs)
    && (c.line.Some? ==> c.line.value in s.log[..p])
  }

  /** An unresolved entry will still reach the armed monitor, after everything before it. */
  ghost predicate Coming(s: State, m: Monitor, p: nat)
    requires p < |s.log|
  {
    var e := s.log[p];
    && e !in m.plan.history && e !in m.dedup
    && (m.rd <= p || e in m.queue)
    && (e in m.pending || TsAtLeast(e, m.armSince))
    && (forall k :: 0 <= k < |m.queue| && m.queue[k].Entry? && e !in m.queue[..k + 1] ==> m.queue[k] in s.log[..p])
    && (m.inHand.Some? ==> m.inHand.value in s.log[..p])
  }

  ghost predicate OkAt(s: State, p: nat)
    requires p < |s.log|
  {
    && (s.cursor.Some? ==> PastCursor(s, s.cursor.value, p))
    && (s.mon.Some? ==> Coming(s, s.mon.value, p))
  }

  /** Entries written after the first arm are new: no copy precedes them. */
  ghost predicate Fresh(log: seq<Line>, base: nat) {
    forall p, q :: 0 <= p < q < |log| && base <= q && log[q].Entry? ==> log[p] != log[q]
  }

  ghost predicate MonitorSane(s: State, m: Monitor)
    requires s.start <= |s.log|
  {
    && s.start <= m.rd <= |s.log|
    && 0 <= m.plan.replaySinceMs <= m.armSince <= s.now - SKEW_MS
    && (forall x :: x in m.plan.history ==> x in s.log)
    && (forall x :: x in m.dedup ==> x in s.log)
    && (forall x :: x in m.queue ==> x in s.log)
    && (forall x :: x in m.pending ==> TsAtLeast(x, m.plan.replaySinceMs))
    && (m.inHand.Some? ==> m.inHand.value in s.log && m.inHand.value.Entry?)
  }

  ghost predicate Sane(s: State) {
    && s.start <= |s.log| && s.now >= SKEW_MS && Sorted(s.log)
    && (s.base.None? ==> s.cursor.None? && s.mon.None?)
    && (s.base.Some? ==> s.cursor.Some? && Fresh(s.log, s.base.value) && s.base.value <= |s.log|)
    && (s.cursor.Some? ==>
      && Usable(s.cursor.value)
      && s.cursor.value.sinceMs <= s.now - SKEW_MS
      && (s.cursor.value.line.Some? ==> s.cursor.value.line.value in s.log))
    && (s.arming.Some? ==>
      && 0 <= s.arming.value <= s.now - SKEW_MS
      && (s.cursor.Some? ==> s.cursor.value.sinceMs <= s.arming.value))
    && (s.mon.Some? ==> s.arming.None? && MonitorSane(s, s.mon.value))
  }

  ghost predicate Inv(s: State) {
    && Sane(s)
    && forall p: nat :: Unresolved(s, p) ==> OkAt(s, p)
  }

  // ---- Each step keeps it ----

  lemma AppendKeepsInv(s: State, line: Line)
    requires Inv(s) && Orderly(s, Append(line))
    ensures Inv(Do(s, Append(line)))
  {
    var s' := Do(s, Append(line));
    assert Sorted(s'.log);
    forall p: nat | Unresolved(s', p)
      ensures OkAt(s', p)
    {
      if p < |s.log| {
        assert Unresolved(s, p) && s'.log[..p] == s.log[..p];
      } else {
        assert s'.log[..p] == s.log && p == |s.log|;
      }
    }
  }

  lemma UntoldMember(s: State, lo: nat, hi: nat, printed: seq<Line>, p: nat)
    requires hi <= |s.log|
    ensures lo <= p < hi && Unresolved(s, p) && s.log[p] !in printed ==> s.log[p] in Untold(s, lo, hi, printed)
  {
  }

  lemma TrimKeepsInv(s: State, upTo: nat)
    requires Inv(s) && Enabled(s, Trim(upTo))
    ensures Inv(Do(s, Trim(upTo)))
  {
    var s' := Do(s, Trim(upTo));
    forall p: nat | Unresolved(s', p)
      ensures OkAt(s', p)
    {
      assert Unresolved(s, p);
      assert OkAt(s, p);
    }
  }

  lemma TailReadKeepsInv(s: State)
    requires Inv(s) && Enabled(s, TailRead)
    ensures Inv(Do(s, TailRead))
  {
    var s' := Do(s, TailRead);
    var m, m' := s.mon.value, s'.mon.value;
    forall p: nat | Unresolved(s', p)
      ensures OkAt(s', p)
    {
      assert Unresolved(s, p);
      assert OkAt(s, p);
      forall k | 0 <= k < |m'.queue| && m'.queue[k].Entry? && s.log[p] !in m'.queue[..k + 1]
        ensures m'.queue[k] in s.log[..p]
      {
        if k < |m.queue| {
          assert m'.queue[..k + 1] == m.queue[..k + 1];
        } else {
          assert m'.queue[..k + 1] == m'.queue && m'.queue[k] == s.log[m.rd];
          assert s.log[p] !in m.queue && s.log[p] != s.log[m.rd];
          assert s.log[..p][m.rd] == s.log[m.rd];
        }
      }
    }
  }

  /** An unresolved entry at the head of the queue is told. */
  lemma HeadIsTold(s: State, p: nat)
    requires s.start <= |s.log| && Enabled(s, Deliver) && p < |s.log| && s.log[p].Entry?
    requires Coming(s, s.mon.value, p) && s.log[p] == s.mon.value.queue[0]
    ensures s.log[p] in Do(s, Deliver).emitted
  {
  }

  /** What is unresolved after a delivery was so before, and is not what was delivered. */
  lemma DeliverAt(s: State, p: nat)
    requires Inv(s) && Enabled(s, Deliver) && Unresolved(Do(s, Deliver), p)
    ensures Unresolved(s, p) && s.log[p] != s.mon.value.queue[0]
  {
    DeliverFrame(s);
    assert Unresolved(s, p) && OkAt(s, p);
    if s.log[p] == s.mon.value.queue[0] { HeadIsTold(s, p); }
  }

  lemma DeliverKeepsSane(s: State)
    requires Inv(s) && Enabled(s, Deliver)
    ensures Sane(Do(s, Deliver))
  {
    var m, m' := s.mon.value, Do(s, Deliver).mon.value;
    var line := m.queue[0];
    assert line in m.queue;
    forall x | x in m'.dedup
      ensures x in s.log
    {
      RememberMember(m.dedup, line, RECENT_EMITTED_LINE_CAP, x);
    }
  }

  /** Shifting the queue by its head keeps the order of the rest. */
  lemma QueueShift(s: State, m: Monitor, p: nat)
    requires p < |s.log| && Coming(s, m, p) && m.queue != [] && s.log[p] != m.queue[0]
    ensures forall k :: 0 <= k < |m.queue[1..]| && m.queue[1..][k].Entry? && s.log[p] !in m.queue[1..][..k + 1] ==>
      m.queue[1..][k] in s.log[..p]
    ensures m.queue[0].Entry? ==> m.queue[0] in s.log[..p]
    ensures s.log[p] in m.queue ==> s.log[p] in m.queue[1..]
  {
    assert m.queue[..1] == [m.queue[0]];
    assert m.queue == [m.queue[0]] + m.queue[1..];
    forall k | 0 <= k < |m.queue[1..]| && m.queue[1..][k].Entry? && s.log[p] !in m.queue[1..][..k + 1]
      ensures m.queue[1..][k] in s.log[..p]
    {
      assert m.queue[..k + 2] == [m.queue[0]] + m.queue[1..][..k + 1];
      assert m.queue[k + 1] == m.queue[1..][k];
    }
  }

  lemma ComingAfterHead(s: State, m: Monitor, m': Monitor, p: nat)
    requires p < |s.log| && Coming(s, m, p) && m.queue != [] && s.log[p] != m.queue[0]
    requires m'.queue == m.queue[1..] && m'.rd == m.rd && m'.plan == m.plan && m'.pending == m.pending
    requires m'.armSince == m.armSince && s.log[p] !in m'.dedup
    requires m'.inHand == m.inHand || (m.queue[0].Entry? && m'.inHand == Some(m.queue[0]))
    ensures Coming(s, m', p)
  {
    QueueShift(s, m, p);
  }

  /** What one delivery changes, besides what has been told. */
  lemma DeliverFrame(s: State)
    requires s.start <= |s.log| && Enabled(s, Deliver)
    ensures
      var m, s' := s.mon.value, Do(s, Deliver);
      && s'.log == s.log && s'.start == s.start && s'.cursor == s.cursor && s'.mon.Some?
      && s'.base == s.base && s.emitted <= s'.emitted && s'.noticed == s.noticed && s'.skipped == s.skipped
      && var m' := s'.mon.value;
      && m'.queue == m.queue[1..] && m'.rd == m.rd && m'.plan == m.plan && m'.pending == m.pending
      && m'.armSince == m.armSince
      && (m'.dedup == m.dedup || m'.dedup == Remember(m.dedup, m.queue[0], RECENT_EMITTED_LINE_CAP))
      && (m'.inHand == m.inHand || (m.queue[0].Entry? && m'.inHand == Some(m.queue[0])))
  {
  }

  lemma DeliverOkAt(s: State, p: nat)
    requires Inv(s) && Enabled(s, Deliver) && Unresolved(Do(s, Deliver), p)
    ensures OkAt(Do(s, Deliver), p)
  {
    DeliverAt(s, p);
    var m := s.mon.value;
    var s' := Do(s, Deliver);
    DeliverFrame(s);
    assert OkAt(s, p);
    RememberMember(m.dedup, m.queue[0], RECENT_EMITTED_LINE_CAP, s.log[p]);
    ComingAfterHead(s, m, s'.mon.value, p);
    assert Coming(s', s'.mon.value, p);
  }

  lemma DeliverKeepsInv(s: State)
    requires Inv(s) && Enabled(s, Deliver)
    ensures Inv(Do(s, Deliver))
  {
    DeliverKeepsSane(s);
    forall p: nat | Unresolved(Do(s, Deliver), p)
      ensures OkAt(Do(s, Deliver), p)
    {
      DeliverOkAt(s, p);
    }
  }

  lemma StoreKeepsInv(s: State)
    requires Inv(s) && Enabled(s, StoreCursor)
    ensures Inv(Do(s, StoreCursor))
  {
    var s' := Do(s, StoreCursor);
    var m := s.mon.value;
    forall p: nat | Unresolved(s', p)
      ensures OkAt(s', p)
    {
      assert Unresolved(s, p);
      assert OkAt(s, p);
      assert s.log[p] != m.inHand.value;
      assert s.log[p] in m.pending ==> s.log[p] in m.pending - {m.inHand.value};
    }
  }

  lemma RespawnKeepsInv(s: State)
    requires Inv(s) && Enabled(s, Respawn)
    ensures Inv(Do(s, Respawn))
  {
    var s' := Do(s, Respawn);
    var m := s.mon.value;
    forall p: nat | Unresolved(s', p)
      ensures OkAt(s', p)
    {
      assert Unresolved(s, p);
      assert OkAt(s, p);
      UntoldMember(s, s.start, s.start + m.anchor, m.queue, p);
    }
  }

  lemma FirstIndexPrefix(a: seq<Line>, b: seq<Line>, x: Line)
    requires x in a
    ensures FirstIndex(a, x).Some? && FirstIndex(a + b, x) == FirstIndex(a, x)
  {
    var i := FirstIndex(a, x).value;
    assert (a + b)[..i] == a[..i];
    FirstIndexIs(a + b, x, i);
  }

  /** The file around an unresolved entry, entries only. */
  lemma EntriesAround(s: State, p: nat)
    requires s.start <= p < |s.log| && s.log[p].Entry?
    ensures EntriesOf(File(s)) == EntriesOf(s.log[s.start..p]) + ([s.log[p]] + EntriesOf(s.log[p + 1..]))
  {
    var a, e, b := s.log[s.start..p], s.log[p], s.log[p + 1..];
    assert File(s) == a + ([e] + b);
    EntriesOfConcat(a, [e] + b);
    EntriesOfConcat([e], b);
    assert EntriesOf([e]) == [e];
  }

  /** The heart of it: an entry past the cursor is what the next arm replays or counts. */
  lemma PastCursorIsAhead(s: State, p: nat)
    requires Inv(s) && Owed(s, p) && s.cursor.Some? && PastCursor(s, s.cursor.value, p)
    ensures s.log[p] in Ahead(File(s), s.cursor.value)
  {
    var c, e := s.cursor.value, s.log[p];
    var es, a, rest := EntriesOf(File(s)), EntriesOf(s.log[s.start..p]), [e] + EntriesOf(s.log[p + 1..]);
    EntriesAround(s, p);
    EntriesOfMember(s.log[s.start..p], e);
    assert e !in a;
    assert es[|a|] == e;
    AheadMember(File(s), c, e);
    if c.line.Some? {
      var l := c.line.value;
      if l in es {
        CursorLineIsEarlier(s, p, l);
        AfterItsLine(a, rest, l);
      } else {
        FloorMembers(es, l.ts.value, e);
        assert TsAtLeast(e, l.ts.value);
      }
    }
  }

  lemma UnresolvedIsAhead(s: State, p: nat)
    requires Inv(s) && Unresolved(s, p)
    ensures s.log[p] in Ahead(File(s), s.cursor.value)
  {
    assert OkAt(s, p);
    PastCursorIsAhead(s, p);
  }

  /** What follows a line's entries stands after the first copy of that line, and not before. */
  lemma AfterItsLine(a: seq<Line>, rest: seq<Line>, l: Line)
    requires l in a && rest != [] && rest[0] !in a
    ensures
      var es := a + rest;
      FirstIndex(es, l).Some?
      && var i := FirstIndex(es, l).value;
      rest[0] in es[i + 1..] && rest[0] !in es[..i + 1]
  {
    FirstIndexPrefix(a, rest, l);
    var es, i := a + rest, FirstIndex(a, l).value;
    assert es[..i + 1] == a[..i + 1];
    assert es[i + 1..][|a| - (i + 1)] == rest[0];
  }

  lemma CursorLineIsEarlier(s: State, p: nat, l: Line)
    requires Inv(s) && Owed(s, p) && s.start <= p && l in s.log[..p] && l.Entry?
    requires l in EntriesOf(File(s))
    ensures l in EntriesOf(s.log[s.start..p])
  {
    EntriesOfMember(File(s), l);
    var q :| 0 <= q < |File(s)| && File(s)[q] == l;
    var j :| 0 <= j < p && s.log[j] == l;
    assert s.log[s.start + q] == l;
    assert s.start + q < p;
    assert s.log[s.start..p][q] == l;
    EntriesOfMember(s.log[s.start..p], l);
  }

  lemma FirstArmKeepsInv(s: State)
    requires Inv(s) && Enabled(s, ArmPlan) && s.base.None?
    ensures Inv(Do(s, ArmPlan))
  {
    var es := EntriesOf(File(s));
    if es != [] {
      EntriesOfMember(File(s), es[|es| - 1]);
    }
  }

  lemma LaterArmKeepsInv(s: State)
    requires Inv(s) && Enabled(s, ArmPlan) && s.base.Some?
    ensures Inv(Do(s, ArmPlan))
  {
    var s' := Do(s, ArmPlan);
    var c := s.cursor.value;
    var ahead := Ahead(File(s), c);
    var m := s'.mon.value;
    assert ahead == ahead[..m.plan.omitted] + m.plan.replay;
    forall x | x in m.pending
      ensures TsAtLeast(x, m.plan.replaySinceMs)
    {
      assert x in ahead;
      AheadMember(File(s), c, x);
    }
    forall p: nat | Unresolved(s', p)
      ensures OkAt(s', p)
    {
      assert Unresolved(s, p);
      assert OkAt(s, p);
      UnresolvedIsAhead(s, p);
    }
  }

  lemma StepKeepsInv(s: State, step: Step)
    requires Inv(s) && Enabled(s, step) && Orderly(s, step)
    ensures Inv(Do(s, step))
  {
    match step
    case Append(line) => AppendKeepsInv(s, line);
    case Trim(upTo) => TrimKeepsInv(s, upTo);
    case ArmPlan => if s.base.None? { FirstArmKeepsInv(s); } else { LaterArmKeepsInv(s); }
    case TailRead => TailReadKeepsInv(s);
    case Deliver => DeliverKeepsInv(s);
    case StoreCursor => StoreKeepsInv(s);
    case Respawn => RespawnKeepsInv(s);
    case _ =>
      var s' := Do(s, step);
      forall p: nat | Unresolved(s', p)
        ensures OkAt(s', p)
      {
        assert Unresolved(s, p);
        assert OkAt(s, p);
      }
  }

  lemma {:induction false} RunKeepsInv(s: State, steps: seq<Step>)
    requires Inv(s) && Legal(s, steps)
    ensures Inv(Run(s, steps))
    decreases |steps|
  {
    if steps != [] {
      StepKeepsInv(s, steps[0]);
      RunKeepsInv(Do(s, steps[0]), steps[1..]);
    }
  }

  // ---- What the environment's promises are for ----

  predicate Dated(line: Line) { line.Entry? && line.ts.Some? }

  /**
   * The cursor a fresh arm stores can be read back exactly when its last entry
   * has a date for a timestamp; otherwise the next arm is a fresh arm again
   * and everything written in between becomes history.
   */
  lemma FreshArmCursorUsableIff(lines: seq<Line>, armSince: int)
    requires armSince >= 0
    ensures
      var stored := PlanFor(lines, None, armSince, ARM_REPLAY_CAP).cursorAtArm;
      var es := EntriesOf(lines);
      Decode(stored) == stored <==> es == [] || Dated(es[|es| - 1])
    ensures
      var stored := PlanFor(lines, None, armSince, ARM_REPLAY_CAP).cursorAtArm;
      forall later: seq<Line>, since: int :: Decode(stored).None? ==>
        PlanFor(later, Decode(stored), since, ARM_REPLAY_CAP).replay == []
        && PlanFor(later, Decode(stored), since, ARM_REPLAY_CAP).history == SetOf(later)
  {
    var es := EntriesOf(lines);
    if es != [] {
      EntriesOfMember(lines, es[|es| - 1]);
    }
  }

  /** Filtering keeps the order of first copies. */
  lemma {:induction false} FirstIndexFilter(s: seq<Line>, x: Line, y: Line)
    requires x.Entry? && y.Entry? && x in s && y in s
    ensures x in EntriesOf(s) && y in EntriesOf(s)
    ensures FirstIndex(s, x).value < FirstIndex(s, y).value
       <==> FirstIndex(EntriesOf(s), x).value < FirstIndex(EntriesOf(s), y).value
  {
    EntriesOfMember(s, x);
    EntriesOfMember(s, y);
    var n := |s| - 1;
    EntriesOfMember(s[..n], x);
    EntriesOfMember(s[..n], y);
    assert s == s[..n] + [s[n]];
    FirstIndexSnoc(s[..n], s[n], x);
    FirstIndexSnoc(s[..n], s[n], y);
    if s[n].Entry? {
      assert EntriesOf(s) == EntriesOf(s[..n]) + [s[n]];
      FirstIndexSnoc(EntriesOf(s[..n]), s[n], x);
      FirstIndexSnoc(EntriesOf(s[..n]), s[n], y);
    }
    if x in s[..n] && y in s[..n] {
      FirstIndexFilter(s[..n], x, y);
    }
  }

  lemma FirstIndexSnoc(s: seq<Line>, last: Line, x: Line)
    ensures x in s ==> FirstIndex(s, x).Some? && FirstIndex(s + [last], x) == FirstIndex(s, x)
    ensures x !in s && x == last ==> FirstIndex(s + [last], x) == Some(|s|)
  {
    if x in s {
      FirstIndexPrefix(s, [last], x);
    } else if x == last {
      assert (s + [last])[..|s|] == s;
      FirstIndexIs(s + [last], x, |s|);
    }
  }

  /**
   * After a trim that keeps an owed entry `e`, the next arm still finds it
   * exactly when the first surviving copy of the cursor's line is before `e`,
   * or no copy survives and `e` is not older than that line.  A repeated line
   * (cursor line, `e`, the same line again) breaks the first condition, a
   * timestamp out of order the second.
   */
  lemma TrimKeepsAheadIff(lines: seq<Line>, d: nat, c: Cursor, e: Line)
    requires Usable(c) && c.line.Some? && d <= |lines|
    requires e in Ahead(lines, c) && e in lines[d..]
    ensures e in Ahead(lines[d..], c) <==>
      var kept, l := lines[d..], c.line.value;
      if l in kept then FirstIndex(kept, l).value < FirstIndex(kept, e).value
      else TsAtLeast(e, l.ts.value)
  {
    var kept, l := lines[d..], c.line.value;
    AheadMember(lines, c, e);
    AheadMember(kept, c, e);
    EntriesOfMember(kept, e);
    EntriesOfMember(kept, l);
    var es := EntriesOf(kept);
    if l in kept {
      FirstIndexFilter(kept, l, e);
      PositionIff(es, l, e);
    } else {
      FloorMembers(es, l.ts.value, e);
    }
  }
}
