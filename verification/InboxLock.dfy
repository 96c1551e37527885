/**
 * The single-holder lock of the inbox monitor (src/inbox-monitor.ts): startup,
 * reaping, heartbeat and release of any number of monitors, interleaved at
 * every file primitive.  "Remove if content" is two steps, compare and unlink,
 * and reading the heartbeat is two, stat and read, as in the source.
 *
 * A monitor is identified by its random nonce.  A crashed monitor stops in
 * place and leaves its files; its pid may be used again.
 */
module InboxLock {
  import opened Common

  type Nonce = nat

  /** File content of a pidfile or mutation lock. */
  datatype Content =
    | Blank
    | Junk
    | Bare(pid: nat)
    | Tagged(pid: nat, nonce: Nonce)

  datatype Beat = Beat(mtime: int, nonce: Nonce)

  datatype Legacy = Absent | Live | Blocked

  /** Why a contender decided to remove the pidfile it read. */
  datatype Why = Unparseable | DeadPid | Wedged(mtime: int)

  /** The primitive a monitor performs next; `i` counts claim attempts. */
  datatype Pc =
    | Start
    | LegacyBefore
    | TryClaim(i: nat)
    | ReadPidfile(i: nat)
    | ProbePid(i: nat, seen: Content)
    | StatBeat(i: nat, seen: Content)
    | ReadBeat(i: nat, seen: Content, mtime: int)
    | CompareStale(i: nat, seen: Content, why: Why)
    | UnlinkStale(i: nat, seen: Content, why: Why)
    | LegacyAfter
    | CompareOwnAbort
    | UnlinkOwnAbort
    | CompareMutation(hold: bool)
    | UnlinkMutation(hold: bool)
    | FirstBeat
    | Holding
    | ClaimForBeat
    | CompareBeat
    | UnlinkBeat
    | CompareMutationBeat
    | UnlinkMutationBeat
    | ClaimForRelease
    | CompareOwn
    | UnlinkOwn
    | CompareMutationEnd
    | UnlinkMutationEnd
    | Released
    | Gone

  /** `gave`: a release of this monitor found or left the pidfile not its own. */
  datatype Monitor = Monitor(pid: nat, pc: Pc, gave: bool)

  datatype State = State(
    monitors: map<Nonce, Monitor>,
    used: set<Nonce>,
    pidfile: Option<Content>,
    mutation: Option<Content>,
    heartbeat: Option<Beat>,
    otherPids: set<nat>,
    legacy: Legacy,
    now: int,
    reaped: set<Nonce>)

  const STALE_MS: int := 5 * 30_000
  const MAX_ATTEMPTS: nat := 3

  predicate Running(s: State, n: Nonce) { n in s.monitors && s.monitors[n].pc != Gone }

  predicate Alive(s: State, pid: nat) {
    pid in s.otherPids || exists n :: n in s.monitors && s.monitors[n].pc != Gone && s.monitors[n].pid == pid
  }

  function Own(s: State, n: Nonce): Content
    requires n in s.monitors
  {
    Tagged(s.monitors[n].pid, n)
  }

  function Go(s: State, n: Nonce, pc: Pc): State
    requires n in s.monitors
  {
    s.(monitors := s.monitors[n := s.monitors[n].(pc := pc)])
  }

  function GiveUp(s: State, n: Nonce, pc: Pc): State
    requires n in s.monitors
  {
    s.(monitors := s.monitors[n := s.monitors[n].(pc := pc, gave := true)])
  }

  function Retry(i: nat): Pc {
    if i + 1 < MAX_ATTEMPTS then TryClaim(i + 1) else CompareMutation(false)
  }

  /** A running monitor whose pidfile another monitor takes away. */
  function ReapedBy(s: State, n: Nonce, c: Option<Content>): set<Nonce> {
    if c.Some? && c.value.Tagged? && c.value.nonce != n && Running(s, c.value.nonce) then {c.value.nonce} else {}
  }

  /** Take the mutation lock if it is free. */
  function Lock(s: State, n: Nonce, got: Pc, busy: Pc): State
    requires n in s.monitors
  {
    if s.mutation.None? then Go(s, n, got).(mutation := Some(Own(s, n))) else Go(s, n, busy)
  }

  /** The next primitive of monitor `n`; one that has released its files does so again when its tail exits. */
  function Advance(s: State, n: Nonce): State
    requires Running(s, n)
  {
    match s.monitors[n].pc
    case Start => Lock(s, n, LegacyBefore, Gone)
    case LegacyBefore => Go(s, n, if s.legacy == Absent then TryClaim(0) else CompareMutation(false))
    case TryClaim(i) =>
      if s.pidfile.None? then Go(s, n, LegacyAfter).(pidfile := Some(Own(s, n))) else Go(s, n, ReadPidfile(i))
    case ReadPidfile(i) =>
      Go(s, n,
        if s.pidfile.None? then Retry(i)
        else if s.pidfile.value.Blank? || s.pidfile.value.Junk? then CompareStale(i, s.pidfile.value, Unparseable)
        else ProbePid(i, s.pidfile.value))
    case ProbePid(i, seen) =>
      Go(s, n,
        if seen.Blank? || seen.Junk? then CompareStale(i, seen, Unparseable)
        else if !Alive(s, seen.pid) then CompareStale(i, seen, DeadPid)
        else if seen.Tagged? then StatBeat(i, seen)
        else CompareMutation(false))
    case StatBeat(i, seen) =>
      Go(s, n, if s.heartbeat.None? then CompareMutation(false) else ReadBeat(i, seen, s.heartbeat.value.mtime))
    case ReadBeat(i, seen, mtime) =>
      Go(s, n,
        if s.heartbeat.Some? && s.now - mtime >= STALE_MS && seen.Tagged? && s.heartbeat.value.nonce == seen.nonce
        then CompareStale(i, seen, Wedged(mtime))
        else CompareMutation(false))
    case CompareStale(i, seen, why) =>
      Go(s, n, if s.pidfile == Some(seen) then UnlinkStale(i, seen, why) else Retry(i))
    case UnlinkStale(i, _, _) =>
      Go(s, n, Retry(i)).(pidfile := None, reaped := s.reaped + ReapedBy(s, n, s.pidfile))
    case LegacyAfter => Go(s, n, if s.legacy == Absent then CompareMutation(true) else CompareOwnAbort)
    case CompareOwnAbort =>
      Go(s, n, if s.pidfile == Some(Own(s, n)) then UnlinkOwnAbort else CompareMutation(false))
    case UnlinkOwnAbort =>
      Go(s, n, CompareMutation(false)).(pidfile := None, reaped := s.reaped + ReapedBy(s, n, s.pidfile))
    case CompareMutation(hold) =>
      Go(s, n, if s.mutation == Some(Own(s, n)) then UnlinkMutation(hold) else if hold then FirstBeat else Gone)
    case UnlinkMutation(hold) => Go(s, n, if hold then FirstBeat else Gone).(mutation := None)
    case FirstBeat => Go(s, n, Holding).(heartbeat := Some(Beat(s.now, n)))
    case Holding => s.(heartbeat := Some(Beat(s.now, n)))
    case ClaimForBeat => Lock(s, n, CompareBeat, ClaimForRelease)
    case CompareBeat =>
      Go(s, n, if s.heartbeat.Some? && s.heartbeat.value.nonce == n then UnlinkBeat else CompareMutationBeat)
    case UnlinkBeat => Go(s, n, CompareMutationBeat).(heartbeat := None)
    case CompareMutationBeat =>
      Go(s, n, if s.mutation == Some(Own(s, n)) then UnlinkMutationBeat else ClaimForRelease)
    case UnlinkMutationBeat => Go(s, n, ClaimForRelease).(mutation := None)
    case ClaimForRelease => Lock(s, n, CompareOwn, Released)
    case CompareOwn => if s.pidfile == Some(Own(s, n)) then Go(s, n, UnlinkOwn) else GiveUp(s, n, CompareMutationEnd)
    case UnlinkOwn =>
      GiveUp(s, n, CompareMutationEnd).(pidfile := None, reaped := s.reaped + ReapedBy(s, n, s.pidfile))
    case CompareMutationEnd =>
      Go(s, n, if s.mutation == Some(Own(s, n)) then UnlinkMutationEnd else Released)
    case UnlinkMutationEnd => Go(s, n, Released).(mutation := None)
    case Released => Go(s, n, ClaimForBeat)
  }

  datatype Step =
    | Spawn(n: Nonce, pid: nat)
    | Run(n: Nonce)
    | Shutdown(n: Nonce)
    | BeatFails(n: Nonce)
    | Crash(n: Nonce)
    | LegacyChanges(legacy: Legacy)
    | OthersChange(pids: set<nat>)
    | Clock(ms: nat)

  predicate Enabled(s: State, step: Step) {
    match step
    case Spawn(n, pid) => n !in s.used && !Alive(s, pid)
    case Run(n) => Running(s, n)
    case Shutdown(n) => Running(s, n) && s.monitors[n].pc == Holding
    case BeatFails(n) => Running(s, n) && s.monitors[n].pc == FirstBeat
    case Crash(n) => Running(s, n)
    case LegacyChanges(_) => true
    case OthersChange(_) => true
    case Clock(_) => true
  }

  function Do(s: State, step: Step): State
    requires Enabled(s, step)
  {
    match step
    case Spawn(n, pid) => s.(monitors := s.monitors[n := Monitor(pid, Start, false)], used := s.used + {n})
    case Run(n) => Advance(s, n)
    case Shutdown(n) => Go(s, n, ClaimForBeat)
    case BeatFails(n) => Go(s, n, ClaimForRelease)
    case Crash(n) => Go(s, n, Gone)
    case LegacyChanges(legacy) => s.(legacy := legacy)
    case OthersChange(pids) => s.(otherPids := pids)
    case Clock(ms) => s.(now := s.now + ms)
  }

  // ---- The invariant ----

  /** Between taking the mutation lock and giving it back. */
  predicate InMutation(pc: Pc) {
    match pc
    case Start | FirstBeat | Holding | ClaimForBeat | ClaimForRelease | Released | Gone => false
    case _ => true
  }

  predicate OwnerPc(pc: Pc) {
    match pc
    case LegacyAfter | CompareOwnAbort | UnlinkOwnAbort | FirstBeat | Holding | ClaimForBeat | CompareBeat
      | UnlinkBeat | CompareMutationBeat | UnlinkMutationBeat | ClaimForRelease | CompareOwn | UnlinkOwn
      | CompareMutationEnd | UnlinkMutationEnd | Released => true
    case CompareMutation(hold) => hold
    case UnlinkMutation(hold) => hold
    case _ => false
  }

  /** From its claim of the pidfile until it gives it up; it may try to release it more than once. */
  predicate Owner(m: Monitor) { OwnerPc(m.pc) && !m.gave }

  /** A content's author, when it is one of the monitors, wrote its own pid and is known. */
  predicate Authored(s: State, c: Content) {
    c.Tagged? ==> c.nonce in s.used && (c.nonce in s.monitors ==> c.pid == s.monitors[c.nonce].pid)
  }

  /** The reason a contender holds for removing `seen`. */
  predicate Justified(s: State, seen: Content, why: Why) {
    match why
    case Unparseable => seen.Blank? || seen.Junk?
    case DeadPid => seen.Tagged? ==> !Running(s, seen.nonce)
    case Wedged(mtime) => seen.Tagged? && s.now - mtime >= STALE_MS
  }

  predicate LockOk(s: State, n: Nonce)
    requires n in s.monitors
  {
    InMutation(s.monitors[n].pc) ==> s.mutation == Some(Own(s, n))
  }

  predicate OwnerOk(s: State, n: Nonce)
    requires n in s.monitors
  {
    Owner(s.monitors[n]) && n !in s.reaped ==> s.pidfile == Some(Own(s, n))
  }

  /** A pending unlink removes the content that was compared. */
  predicate UnlinkOk(s: State, n: Nonce)
    requires n in s.monitors
  {
    var pc := s.monitors[n].pc;
    && (pc.UnlinkOwn? || pc.UnlinkOwnAbort? ==> s.pidfile == Some(Own(s, n)))
    && (pc.UnlinkStale? ==> s.pidfile == Some(pc.seen))
  }

  predicate SeenOk(s: State, n: Nonce)
    requires n in s.monitors
  {
    var pc := s.monitors[n].pc;
    && (pc.ProbePid? || pc.StatBeat? || pc.ReadBeat? || pc.CompareStale? || pc.UnlinkStale? ==> Authored(s, pc.seen))
    && (pc.CompareStale? || pc.UnlinkStale? ==> Justified(s, pc.seen, pc.why))
  }

  predicate MonitorOk(s: State, n: Nonce)
    requires n in s.monitors
  {
    LockOk(s, n) && OwnerOk(s, n) && UnlinkOk(s, n) && SeenOk(s, n)
  }

  ghost predicate Inv(s: State) {
    && (forall n :: n in s.monitors ==> n in s.used)
    && (s.pidfile.Some? ==> Authored(s, s.pidfile.value))
    && (s.mutation.Some? ==> Authored(s, s.mutation.value))
    && (s.heartbeat.Some? ==> s.heartbeat.value.nonce in s.used)
    && (forall n :: Running(s, n) ==> MonitorOk(s, n))
  }

  /** Any leftover files, no monitor yet; the nonces in those files are taken. */
  ghost predicate Initial(s: State) {
    && s.monitors == map[] && s.reaped == {}
    && (s.pidfile.Some? && s.pidfile.value.Tagged? ==> s.pidfile.value.nonce in s.used)
    && (s.mutation.Some? && s.mutation.value.Tagged? ==> s.mutation.value.nonce in s.used)
    && (s.heartbeat.Some? ==> s.heartbeat.value.nonce in s.used)
  }

  lemma MoverLocks(s: State, n: Nonce)
    requires Running(s, n) && MonitorOk(s, n)
    ensures LockOk(Advance(s, n), n)
  {
  }

  lemma MoverOwns(s: State, n: Nonce)
    requires Running(s, n) && MonitorOk(s, n)
    ensures OwnerOk(Advance(s, n), n) && UnlinkOk(Advance(s, n), n)
  {
  }

  lemma AuthorsKept(s: State, n: Nonce, c: Content)
    requires Running(s, n) && Authored(s, c)
    ensures Authored(Advance(s, n), c)
  {
  }

  lemma DeadStaysDead(s: State, n: Nonce, c: Content)
    requires Running(s, n) && Authored(s, c) && c.Tagged?
    ensures !Alive(s, c.pid) ==> !Running(s, c.nonce)
    ensures !Running(s, c.nonce) ==> !Running(Advance(s, n), c.nonce)
  {
  }

  predicate Sees(pc: Pc) { pc.ProbePid? || pc.StatBeat? || pc.ReadBeat? || pc.CompareStale? || pc.UnlinkStale? }

  /** What a monitor has seen after its step it had seen before, or has just read. */
  lemma SeenFromStep(s: State, n: Nonce)
    requires Running(s, n)
    ensures
      var pc, pc' := s.monitors[n].pc, Advance(s, n).monitors[n].pc;
      Sees(pc') ==> (Sees(pc) && pc'.seen == pc.seen) || s.pidfile == Some(pc'.seen)
  {
  }

  /** A decision to remove the pidfile is justified when it is made, and stays so. */
  lemma JustifiedFromStep(s: State, n: Nonce)
    requires Running(s, n) && SeenOk(s, n)
    ensures
      var pc' := Advance(s, n).monitors[n].pc;
      pc'.CompareStale? || pc'.UnlinkStale? ==> Justified(s, pc'.seen, pc'.why)
  {
    var pc := s.monitors[n].pc;
    if pc.ProbePid? && pc.seen.Tagged? { DeadStaysDead(s, n, pc.seen); }
  }

  lemma JustifiedKept(s: State, n: Nonce, seen: Content, why: Why)
    requires Running(s, n) && Authored(s, seen) && Justified(s, seen, why)
    ensures Justified(Advance(s, n), seen, why)
  {
    if seen.Tagged? { DeadStaysDead(s, n, seen); }
  }

  lemma MoverSees(s: State, n: Nonce)
    requires Inv(s) && Running(s, n)
    ensures SeenOk(Advance(s, n), n)
  {
    assert MonitorOk(s, n);
    SeenFromStep(s, n);
    JustifiedFromStep(s, n);
    var pc := Advance(s, n).monitors[n].pc;
    if Sees(pc) {
      assert Authored(s, pc.seen);
      AuthorsKept(s, n, pc.seen);
      if pc.CompareStale? || pc.UnlinkStale? { JustifiedKept(s, n, pc.seen, pc.why); }
    }
  }

  /** The claim files a step leaves are those before it or its own. */
  lemma FilesFromStep(s: State, n: Nonce)
    requires Running(s, n)
    ensures
      var s' := Advance(s, n);
      && s'.used == s.used && s'.monitors.Keys == s.monitors.Keys
      && (s'.pidfile.Some? ==> s'.pidfile == s.pidfile || s'.pidfile == Some(Own(s, n)))
      && (s'.mutation.Some? ==> s'.mutation == s.mutation || s'.mutation == Some(Own(s, n)))
      && (s'.heartbeat.Some? ==> s'.heartbeat == s.heartbeat || s'.heartbeat.value.nonce == n)
  {
  }

  lemma FilesStayAuthored(s: State, n: Nonce)
    requires Inv(s) && Running(s, n)
    ensures
      var s' := Advance(s, n);
      && s'.used == s.used && s'.monitors.Keys == s.monitors.Keys
      && (s'.pidfile.Some? ==> Authored(s', s'.pidfile.value))
      && (s'.mutation.Some? ==> Authored(s', s'.mutation.value))
      && (s'.heartbeat.Some? ==> s'.heartbeat.value.nonce in s'.used)
  {
    FilesFromStep(s, n);
    PidsStay(s, n);
    assert n in s.used;
  }

  lemma PidsStay(s: State, n: Nonce)
    requires Running(s, n)
    ensures forall q :: q in s.monitors ==> q in Advance(s, n).monitors && Advance(s, n).monitors[q].pid == s.monitors[q].pid
  {
  }

  /** A step of one monitor leaves every other one consistent. */
  lemma OthersStayOk(s: State, n: Nonce, q: Nonce)
    requires Inv(s) && Running(s, n) && Running(s, q) && n != q
    ensures var s' := Advance(s, n); Running(s', q) && MonitorOk(s', q)
  {
    assert MonitorOk(s, n);
    assert MonitorOk(s, q);
  }

  lemma AdvanceKeepsInv(s: State, n: Nonce)
    requires Inv(s) && Running(s, n)
    ensures Inv(Advance(s, n))
  {
    FilesStayAuthored(s, n);
    forall q | Running(Advance(s, n), q)
      ensures MonitorOk(Advance(s, n), q)
    {
      if q == n {
        MoverLocks(s, n);
        MoverOwns(s, n);
        MoverSees(s, n);
      } else {
        OnlyMoverMoves(s, n, q);
        OthersStayOk(s, n, q);
      }
    }
  }

  lemma OnlyMoverMoves(s: State, n: Nonce, q: Nonce)
    requires Running(s, n) && q != n
    ensures Running(Advance(s, n), q) <==> Running(s, q)
  {
  }

  lemma StepKeepsInv(s: State, step: Step)
    requires Inv(s) && Enabled(s, step)
    ensures Inv(Do(s, step))
  {
    if step.Run? {
      AdvanceKeepsInv(s, step.n);
    } else {
      var s' := Do(s, step);
      forall q | Running(s', q)
        ensures MonitorOk(s', q)
      {
        assert Running(s, q) ==> MonitorOk(s, q);
      }
    }
  }

  // ---- Runs ----

  predicate Legal(s: State, steps: seq<Step>)
    decreases |steps|
  {
    steps != [] ==> Enabled(s, steps[0]) && Legal(Do(s, steps[0]), steps[1..])
  }

  function Exec(s: State, steps: seq<Step>): State
    requires Legal(s, steps)
    decreases |steps|
  {
    if steps == [] then s else Exec(Do(s, steps[0]), steps[1..])
  }

  lemma {:induction false} ReachableInv(s: State, steps: seq<Step>)
    requires Inv(s) && Legal(s, steps)
    ensures Inv(Exec(s, steps))
    decreases |steps|
  {
    if steps != [] {
      StepKeepsInv(s, steps[0]);
      ReachableInv(Do(s, steps[0]), steps[1..]);
    }
  }

  // ---- A monitor on its own ----

  /** `k` primitives of one monitor, undisturbed. */
  function Solo(s: State, n: Nonce, k: nat): State
    decreases k
  {
    if k == 0 || !Running(s, n) then s else Solo(Advance(s, n), n, k - 1)
  }

  /** Undisturbed, the monitor comes from `s` to `t`. */
  ghost predicate Reaches(s: State, n: Nonce, t: State) { exists k: nat :: Solo(s, n, k) == t }

  lemma {:induction false} SoloPlus(s: State, n: Nonce, j: nat, k: nat)
    ensures Solo(s, n, j + k) == Solo(Solo(s, n, j), n, k)
    decreases j
  {
    if j > 0 && Running(s, n) { SoloPlus(Advance(s, n), n, j - 1, k); }
  }

  lemma ReachesNext(s: State, n: Nonce)
    requires Running(s, n)
    ensures Reaches(s, n, Advance(s, n))
  {
    assert Solo(Advance(s, n), n, 0) == Advance(s, n);
    assert Solo(s, n, 1) == Advance(s, n);
  }

  lemma ReachesTrans(s: State, n: Nonce, t: State, u: State)
    requires Reaches(s, n, t) && Reaches(t, n, u)
    ensures Reaches(s, n, u)
  {
    var j: nat :| Solo(s, n, j) == t;
    var k: nat :| Solo(t, n, k) == u;
    SoloPlus(s, n, j, k);
  }

  /** A holder in good order: its pidfile, its fresh heartbeat, and no mutation lock left. */
  predicate Holds(t: State, s: State, n: Nonce)
    requires n in s.monitors
  {
    t == Go(s, n, Holding).(pidfile := Some(Own(s, n)), heartbeat := Some(Beat(s.now, n)), mutation := None, reaped := t.reaped)
  }

  ghost predicate ComesToHold(s: State, n: Nonce)
    requires n in s.monitors
  {
    exists t :: Reaches(s, n, t) && Holds(t, s, n)
  }

  lemma HoldsFrom(s: State, n: Nonce, t: State)
    requires Running(s, n) && n in t.monitors && Reaches(s, n, t) && ComesToHold(t, n)
    requires t.monitors[n].pid == s.monitors[n].pid && t.monitors[n].gave == s.monitors[n].gave
    requires t == s.(monitors := t.monitors, pidfile := t.pidfile, mutation := t.mutation, heartbeat := t.heartbeat, reaped := t.reaped)
    requires t.monitors == s.monitors[n := t.monitors[n]]
    ensures ComesToHold(s, n)
  {
    var u :| Reaches(t, n, u) && Holds(u, t, n);
    ReachesTrans(s, n, t, u);
    assert u.monitors == s.monitors[n := s.monitors[n].(pc := Holding)];
    assert Holds(u, s, n);
  }

  // ---- Claiming a free pidfile ----

  lemma ClaimedHolds(s: State, n: Nonce)
    requires Running(s, n) && s.monitors[n].pc == LegacyAfter && s.legacy == Absent
    requires s.mutation == Some(Own(s, n)) && s.pidfile == Some(Own(s, n))
    ensures ComesToHold(s, n)
  {
    var b := Go(s, n, CompareMutation(true));
    assert Advance(s, n) == b;
    ReachesNext(s, n);
    UnlockedHolds(b, n);
    HoldsFrom(s, n, b);
  }

  lemma UnlockedHolds(s: State, n: Nonce)
    requires Running(s, n) && s.monitors[n].pc == CompareMutation(true)
    requires s.mutation == Some(Own(s, n)) && s.pidfile == Some(Own(s, n))
    ensures ComesToHold(s, n)
  {
    var c := Go(s, n, UnlinkMutation(true));
    assert Advance(s, n) == c;
    var d := Go(s, n, FirstBeat).(mutation := None);
    assert Advance(c, n) == d;
    var e := Go(s, n, Holding).(mutation := None, heartbeat := Some(Beat(s.now, n)));
    assert Advance(d, n) == e;
    ReachesNext(s, n);
    ReachesNext(c, n);
    ReachesNext(d, n);
    ReachesTrans(s, n, c, d);
    ReachesTrans(s, n, d, e);
    assert Holds(e, s, n);
  }

  /** A free pidfile is claimed, and the claimant ends up holding the inbox. */
  lemma ClaimOfFreeHolds(s: State, n: Nonce, i: nat)
    requires Running(s, n) && s.monitors[n].pc == TryClaim(i) && s.mutation == Some(Own(s, n))
    requires s.pidfile.None? && s.legacy == Absent
    ensures ComesToHold(s, n)
  {
    var a := Go(s, n, LegacyAfter).(pidfile := Some(Own(s, n)));
    assert Advance(s, n) == a;
    ReachesNext(s, n);
    ClaimedHolds(a, n);
    HoldsFrom(s, n, a);
  }

  // ---- Taking a pidfile over ----

  /** May a contender take this pidfile over: unreadable, its process dead, or its holder hung? */
  predicate Removable(s: State, seen: Content) {
    || seen.Blank? || seen.Junk? || !Alive(s, seen.pid)
    || (seen.Tagged? && s.heartbeat.Some? && s.now - s.heartbeat.value.mtime >= STALE_MS && s.heartbeat.value.nonce == seen.nonce)
  }

  lemma SameAlive(s: State, n: Nonce, t: State, pid: nat)
    requires Running(s, n) && t.otherPids == s.otherPids && t.monitors.Keys == s.monitors.Keys
    requires forall q :: q in s.monitors ==> t.monitors[q].pid == s.monitors[q].pid && (t.monitors[q].pc == Gone <==> s.monitors[q].pc == Gone)
    ensures Alive(t, pid) <==> Alive(s, pid)
  {
    forall q | q in s.monitors ensures q in t.monitors { assert q in s.monitors.Keys; }
    forall q | q in t.monitors ensures q in s.monitors { assert q in t.monitors.Keys; }
  }

  lemma GoKeepsRemovable(s: State, n: Nonce, pc: Pc, seen: Content)
    requires Running(s, n) && pc != Gone
    ensures Removable(Go(s, n, pc), seen) == Removable(s, seen)
    ensures !seen.Blank? && !seen.Junk? ==> Alive(Go(s, n, pc), seen.pid) == Alive(s, seen.pid)
  {
    if !seen.Blank? && !seen.Junk? { SameAlive(s, n, Go(s, n, pc), seen.pid); }
  }

  /** What an undisturbed look at a pidfile comes to. */
  ghost predicate Decided(s: State, n: Nonce, i: nat, seen: Content)
    requires n in s.monitors
  {
    if Removable(s, seen) then exists why :: Reaches(s, n, Go(s, n, CompareStale(i, seen, why)))
    else Reaches(s, n, Go(s, n, CompareMutation(false)))
  }

  lemma DecidedFrom(s: State, n: Nonce, i: nat, seen: Content, pc: Pc)
    requires Running(s, n) && pc != Gone && Advance(s, n) == Go(s, n, pc) && Decided(Go(s, n, pc), n, i, seen)
    ensures Decided(s, n, i, seen)
  {
    var t := Go(s, n, pc);
    GoKeepsRemovable(s, n, pc, seen);
    ReachesNext(s, n);
    forall pc' ensures Go(t, n, pc') == Go(s, n, pc') { assert Go(t, n, pc').monitors == Go(s, n, pc').monitors; }
    if Removable(s, seen) {
      var why :| Reaches(t, n, Go(t, n, CompareStale(i, seen, why)));
      ReachesTrans(s, n, t, Go(s, n, CompareStale(i, seen, why)));
    } else {
      ReachesTrans(s, n, t, Go(s, n, CompareMutation(false)));
    }
  }

  lemma BeatDecides(s: State, n: Nonce, i: nat, seen: Content)
    requires Running(s, n) && s.heartbeat.Some? && s.monitors[n].pc == ReadBeat(i, seen, s.heartbeat.value.mtime)
    requires seen.Tagged? && Alive(s, seen.pid)
    ensures Decided(s, n, i, seen)
  {
    ReachesNext(s, n);
    if Removable(s, seen) { assert Advance(s, n) == Go(s, n, CompareStale(i, seen, Wedged(s.heartbeat.value.mtime))); }
  }

  lemma StatDecides(s: State, n: Nonce, i: nat, seen: Content)
    requires Running(s, n) && s.monitors[n].pc == StatBeat(i, seen) && seen.Tagged? && Alive(s, seen.pid)
    ensures Decided(s, n, i, seen)
  {
    if s.heartbeat.None? {
      ReachesNext(s, n);
    } else {
      var pc := ReadBeat(i, seen, s.heartbeat.value.mtime);
      GoKeepsRemovable(s, n, pc, seen);
      BeatDecides(Go(s, n, pc), n, i, seen);
      DecidedFrom(s, n, i, seen, pc);
    }
  }

  lemma ProbeDecides(s: State, n: Nonce, i: nat, seen: Content)
    requires Running(s, n) && s.monitors[n].pc == ProbePid(i, seen)
    ensures Decided(s, n, i, seen)
  {
    if seen.Blank? || seen.Junk? {
      ReachesNext(s, n);
      assert Advance(s, n) == Go(s, n, CompareStale(i, seen, Unparseable));
    } else if !Alive(s, seen.pid) {
      ReachesNext(s, n);
      assert Advance(s, n) == Go(s, n, CompareStale(i, seen, DeadPid));
    } else if seen.Tagged? {
      GoKeepsRemovable(s, n, StatBeat(i, seen), seen);
      StatDecides(Go(s, n, StatBeat(i, seen)), n, i, seen);
      DecidedFrom(s, n, i, seen, StatBeat(i, seen));
    } else {
      ReachesNext(s, n);
    }
  }

  /** The look at a pidfile that is there decides by these three grounds and nothing else. */
  lemma LookDecides(s: State, n: Nonce, i: nat)
    requires Running(s, n) && s.monitors[n].pc == ReadPidfile(i) && s.pidfile.Some?
    ensures Decided(s, n, i, s.pidfile.value)
  {
    var seen := s.pidfile.value;
    if seen.Blank? || seen.Junk? {
      ReachesNext(s, n);
      assert Advance(s, n) == Go(s, n, CompareStale(i, seen, Unparseable));
    } else {
      ProbeDecides(Go(s, n, ProbePid(i, seen)), n, i, seen);
      DecidedFrom(s, n, i, seen, ProbePid(i, seen));
    }
  }

  /** An undisturbed removal takes the pidfile away and goes back to the claim, while attempts are left. */
  lemma RemovalFrees(s: State, n: Nonce, i: nat, seen: Content, why: Why) returns (t: State)
    requires Running(s, n) && s.monitors[n].pc == CompareStale(i, seen, why) && s.pidfile == Some(seen)
    ensures Reaches(s, n, t) && t == Go(s, n, Retry(i)).(pidfile := None, reaped := s.reaped + ReapedBy(s, n, Some(seen)))
  {
    var a := Go(s, n, UnlinkStale(i, seen, why));
    assert Advance(s, n) == a;
    t := Advance(a, n);
    ReachesNext(s, n);
    ReachesNext(a, n);
    ReachesTrans(s, n, a, t);
    assert ReapedBy(a, n, Some(seen)) == ReapedBy(s, n, Some(seen));
  }

  /** A contender that gives up gives the mutation lock back and touches nothing else. */
  lemma GiveUpLeavesAll(s: State, n: Nonce)
    requires Running(s, n) && s.monitors[n].pc == CompareMutation(false) && s.mutation == Some(Own(s, n))
    ensures Reaches(s, n, Go(s, n, Gone).(mutation := None))
  {
    var a := Go(s, n, UnlinkMutation(false));
    assert Advance(s, n) == a;
    assert Advance(a, n) == Go(s, n, Gone).(mutation := None);
    ReachesNext(s, n);
    ReachesNext(a, n);
    ReachesTrans(s, n, a, Advance(a, n));
  }

  /** The claim of a pidfile that may be taken over. */
  lemma TakeoverHolds(s: State, n: Nonce, i: nat)
    requires Running(s, n) && s.monitors[n].pc == ReadPidfile(i) && i + 1 < MAX_ATTEMPTS
    requires s.mutation == Some(Own(s, n)) && s.legacy == Absent && s.pidfile.Some? && Removable(s, s.pidfile.value)
    ensures ComesToHold(s, n)
  {
    var seen := s.pidfile.value;
    LookDecides(s, n, i);
    var why :| Reaches(s, n, Go(s, n, CompareStale(i, seen, why)));
    var b := Go(s, n, CompareStale(i, seen, why));
    var c := RemovalFrees(b, n, i, seen, why);
    ReachesTrans(s, n, b, c);
    assert c.monitors == s.monitors[n := s.monitors[n].(pc := TryClaim(i + 1))];
    ClaimOfFreeHolds(c, n, i + 1);
    HoldsFrom(s, n, c);
  }

  /** A contender for a pidfile that may not be taken over goes, and leaves everything. */
  lemma RefusedGoes(s: State, n: Nonce, i: nat)
    requires Running(s, n) && s.monitors[n].pc == ReadPidfile(i)
    requires s.mutation == Some(Own(s, n)) && s.pidfile.Some? && !Removable(s, s.pidfile.value)
    ensures Reaches(s, n, Go(s, n, Gone).(mutation := None))
  {
    LookDecides(s, n, i);
    var b := Go(s, n, CompareMutation(false));
    GiveUpLeavesAll(b, n);
    assert Go(b, n, Gone).monitors == Go(s, n, Gone).monitors;
    ReachesTrans(s, n, b, Go(s, n, Gone).(mutation := None));
  }

  /** The holder of a pidfile died: a contender that has just looked at it comes to hold the inbox. */
  lemma DeadHolderIsReplaced(s: State, n: Nonce, i: nat)
    requires Running(s, n) && s.monitors[n].pc.ProbePid? && s.monitors[n].pc.i == i && i + 1 < MAX_ATTEMPTS
    requires s.pidfile == Some(s.monitors[n].pc.seen) && Removable(s, s.monitors[n].pc.seen)
    requires s.mutation == Some(Own(s, n)) && s.legacy == Absent
    ensures ComesToHold(s, n)
  {
    var seen := s.monitors[n].pc.seen;
    ProbeDecides(s, n, i, seen);
    var why :| Reaches(s, n, Go(s, n, CompareStale(i, seen, why)));
    var b := Go(s, n, CompareStale(i, seen, why));
    var c := RemovalFrees(b, n, i, seen, why);
    ReachesTrans(s, n, b, c);
    assert c.monitors == s.monitors[n := s.monitors[n].(pc := TryClaim(i + 1))];
    ClaimOfFreeHolds(c, n, i + 1);
    HoldsFrom(s, n, c);
  }

  // ---- A whole start ----

  /** The pidfile is free, or may be taken over. */
  predicate Obtainable(s: State) { s.pidfile.None? || Removable(s, s.pidfile.value) }

  /** With the mutation lock held and no legacy artifact. */
  lemma SoloClaim(s: State, n: Nonce)
    requires Running(s, n) && s.monitors[n].pc == TryClaim(0) && s.mutation == Some(Own(s, n)) && s.legacy == Absent
    ensures Obtainable(s) ==> ComesToHold(s, n)
    ensures !Obtainable(s) ==> Reaches(s, n, Go(s, n, Gone).(mutation := None))
  {
    if s.pidfile.None? {
      ClaimOfFreeHolds(s, n, 0);
    } else {
      var a := Go(s, n, ReadPidfile(0));
      assert Advance(s, n) == a;
      ReachesNext(s, n);
      GoKeepsRemovable(s, n, ReadPidfile(0), s.pidfile.value);
      if Obtainable(s) {
        TakeoverHolds(a, n, 0);
        HoldsFrom(s, n, a);
      } else {
        RefusedGoes(a, n, 0);
        assert Go(a, n, Gone).monitors == Go(s, n, Gone).monitors;
        ReachesTrans(s, n, a, Go(s, n, Gone).(mutation := None));
      }
    }
  }

  lemma LockedSame(s: State, n: Nonce, pc: Pc)
    requires Running(s, n) && pc != Gone
    ensures Obtainable(Go(s, n, pc).(mutation := Some(Own(s, n)))) == Obtainable(s)
  {
    if s.pidfile.Some? && !s.pidfile.value.Blank? && !s.pidfile.value.Junk? {
      SameAlive(s, n, Go(s, n, pc).(mutation := Some(Own(s, n))), s.pidfile.value.pid);
    }
  }

  /**
   * Who gets the lock: a monitor that starts undisturbed comes to hold the inbox
   * if nobody is changing the lock, no legacy artifact is there, and the pidfile
   * is free, unreadable, of a dead process or of a hung holder.  Otherwise it
   * goes, and every file is as it was.
   */
  lemma StartHoldsIff(s: State, n: Nonce)
    requires Running(s, n) && s.monitors[n].pc == Start
    ensures
      if s.mutation.None? && s.legacy == Absent && Obtainable(s) then ComesToHold(s, n)
      else Reaches(s, n, Go(s, n, Gone))
  {
    ReachesNext(s, n);
    if s.mutation.None? {
      var a := Go(s, n, LegacyBefore).(mutation := Some(Own(s, n)));
      assert Advance(s, n) == a;
      LegacyLooked(s, a, n);
    }
  }

  lemma LegacyLooked(s: State, a: State, n: Nonce)
    requires Running(s, n) && s.mutation.None? && a == Go(s, n, LegacyBefore).(mutation := Some(Own(s, n))) && Reaches(s, n, a)
    ensures
      if s.legacy == Absent && Obtainable(s) then ComesToHold(s, n)
      else Reaches(s, n, Go(s, n, Gone))
  {
    ReachesNext(a, n);
    var pc := if s.legacy == Absent then TryClaim(0) else CompareMutation(false);
    var b := Go(s, n, pc).(mutation := Some(Own(s, n)));
    assert Advance(a, n) == b;
    ReachesTrans(s, n, a, b);
    assert Go(b, n, Gone).(mutation := None) == Go(s, n, Gone);
    if s.legacy != Absent {
      GiveUpLeavesAll(b, n);
      ReachesTrans(s, n, b, Go(s, n, Gone));
    } else {
      SoloClaim(b, n);
      LockedSame(s, n, pc);
      if Obtainable(s) { HoldsFrom(s, n, b); } else { ReachesTrans(s, n, b, Go(s, n, Gone)); }
    }
  }

  /** A legacy artifact that appears after the claim makes the claimant hand its pidfile back. */
  lemma LegacyHandsBack(s: State, n: Nonce)
    requires Running(s, n) && s.monitors[n].pc == LegacyAfter && s.legacy != Absent
    requires s.mutation == Some(Own(s, n)) && s.pidfile == Some(Own(s, n))
    ensures Reaches(s, n, Go(s, n, Gone).(pidfile := None, mutation := None))
  {
    var a := Go(s, n, CompareOwnAbort);
    assert Advance(s, n) == a;
    var b := Go(s, n, UnlinkOwnAbort);
    assert Advance(a, n) == b;
    var c := Go(s, n, CompareMutation(false)).(pidfile := None);
    assert Advance(b, n) == c;
    ReachesNext(s, n);
    ReachesNext(a, n);
    ReachesNext(b, n);
    ReachesTrans(s, n, a, b);
    ReachesTrans(s, n, b, c);
    GiveUpLeavesAll(c, n);
    assert Go(c, n, Gone).monitors == Go(s, n, Gone).monitors;
    ReachesTrans(s, n, c, Go(s, n, Gone).(pidfile := None, mutation := None));
  }

  // ---- A whole release ----

  function WithoutOwn(c: Option<Content>, own: Content): Option<Content> { if c == Some(own) then None else c }

  function WithoutOwnBeat(b: Option<Beat>, n: Nonce): Option<Beat> { if b.Some? && b.value.nonce == n then None else b }

  lemma BeatGivenUp(s: State, n: Nonce)
    requires Running(s, n) && s.monitors[n].pc == ClaimForBeat && s.mutation.None?
    ensures Reaches(s, n, Go(s, n, ClaimForRelease).(heartbeat := WithoutOwnBeat(s.heartbeat, n)))
  {
    var a := Go(s, n, CompareBeat).(mutation := Some(Own(s, n)));
    assert Advance(s, n) == a;
    ReachesNext(s, n);
    ReachesNext(a, n);
    var c := Go(s, n, CompareMutationBeat).(mutation := Some(Own(s, n)), heartbeat := WithoutOwnBeat(s.heartbeat, n));
    if s.heartbeat.Some? && s.heartbeat.value.nonce == n {
      var b := Go(s, n, UnlinkBeat).(mutation := Some(Own(s, n)));
      assert Advance(a, n) == b;
      assert Advance(b, n) == c;
      ReachesNext(b, n);
      ReachesTrans(a, n, b, c);
    } else {
      assert Advance(a, n) == c;
    }
    ReachesTrans(s, n, a, c);
    BeatUnlocks(c, n);
    var e := Go(s, n, ClaimForRelease).(heartbeat := WithoutOwnBeat(s.heartbeat, n));
    assert Go(c, n, ClaimForRelease).(mutation := None) == e;
    ReachesTrans(s, n, c, e);
  }

  lemma BeatUnlocks(s: State, n: Nonce)
    requires Running(s, n) && s.monitors[n].pc == CompareMutationBeat && s.mutation == Some(Own(s, n))
    ensures Reaches(s, n, Go(s, n, ClaimForRelease).(mutation := None))
  {
    var d := Go(s, n, UnlinkMutationBeat);
    assert Advance(s, n) == d;
    assert Advance(d, n) == Go(s, n, ClaimForRelease).(mutation := None);
    ReachesNext(s, n);
    ReachesNext(d, n);
    ReachesTrans(s, n, d, Advance(d, n));
  }

  lemma PidfileGivenUp(s: State, n: Nonce)
    requires Running(s, n) && s.monitors[n].pc == ClaimForRelease && s.mutation.None?
    ensures Reaches(s, n, GiveUp(s, n, Released).(pidfile := WithoutOwn(s.pidfile, Own(s, n))))
  {
    var a := Go(s, n, CompareOwn).(mutation := Some(Own(s, n)));
    assert Advance(s, n) == a;
    ReachesNext(s, n);
    ReachesNext(a, n);
    var c := GiveUp(s, n, CompareMutationEnd).(mutation := Some(Own(s, n)), pidfile := WithoutOwn(s.pidfile, Own(s, n)));
    if s.pidfile == Some(Own(s, n)) {
      var b := Go(s, n, UnlinkOwn).(mutation := Some(Own(s, n)));
      assert Advance(a, n) == b;
      assert Advance(b, n) == c;
      ReachesNext(b, n);
      ReachesTrans(a, n, b, c);
    } else {
      assert Advance(a, n) == c;
    }
    ReachesTrans(s, n, a, c);
    PidfileUnlocks(c, n);
    var e := GiveUp(s, n, Released).(pidfile := WithoutOwn(s.pidfile, Own(s, n)));
    assert Go(c, n, Released).(mutation := None) == e;
    ReachesTrans(s, n, c, e);
  }

  lemma PidfileUnlocks(s: State, n: Nonce)
    requires Running(s, n) && s.monitors[n].pc == CompareMutationEnd && s.mutation == Some(Own(s, n))
    ensures Reaches(s, n, Go(s, n, Released).(mutation := None))
  {
    var d := Go(s, n, UnlinkMutationEnd);
    assert Advance(s, n) == d;
    assert Advance(d, n) == Go(s, n, Released).(mutation := None);
    ReachesNext(s, n);
    ReachesNext(d, n);
    ReachesTrans(s, n, d, Advance(d, n));
  }

  /** An undisturbed shutdown removes the monitor's own heartbeat and pidfile, and nothing of anyone else's. */
  lemma ReleaseGivesUpOwn(s: State, n: Nonce)
    requires Running(s, n) && s.monitors[n].pc == ClaimForBeat && s.mutation.None?
    ensures Reaches(s, n, GiveUp(s, n, Released).(
      pidfile := WithoutOwn(s.pidfile, Own(s, n)), heartbeat := WithoutOwnBeat(s.heartbeat, n)))
  {
    BeatGivenUp(s, n);
    var t := Go(s, n, ClaimForRelease).(heartbeat := WithoutOwnBeat(s.heartbeat, n));
    PidfileGivenUp(t, n);
    var u := GiveUp(s, n, Released).(pidfile := WithoutOwn(s.pidfile, Own(s, n)), heartbeat := WithoutOwnBeat(s.heartbeat, n));
    assert GiveUp(t, n, Released).(pidfile := WithoutOwn(t.pidfile, Own(t, n))) == u;
    ReachesTrans(s, n, t, u);
  }

  /** The pidfile is the live monitor `q`'s, and the next primitive of another monitor takes it away. */
  predicate TakesFrom(s: State, n: Nonce, q: Nonce) {
    && Running(s, n) && Running(s, q) && n != q
    && s.pidfile == Some(Own(s, q))
    && Advance(s, n).pidfile != s.pidfile
  }

  predicate StaleAndMatching(s: State, q: Nonce) {
    s.heartbeat.Some? && s.heartbeat.value.nonce == q && s.now - s.heartbeat.value.mtime >= STALE_MS
  }

  /**
   * In every run, the only primitive that takes a live monitor's pidfile away
   * from it is a reap decided on a heartbeat seen stale at its stat and
   * carrying that monitor's nonce at its read; a release never does it.
   */
  lemma OnlyAWedgeReapTakes(s0: State, steps: seq<Step>, n: Nonce, q: Nonce)
    requires Initial(s0) && Legal(s0, steps) && TakesFrom(Exec(s0, steps), n, q)
    ensures
      var s := Exec(s0, steps);
      var pc := s.monitors[n].pc;
      && pc.UnlinkStale? && pc.seen == Own(s, q) && pc.why.Wedged?
      && s.now - pc.why.mtime >= STALE_MS
  {
    ReachableInv(s0, steps);
    var s := Exec(s0, steps);
    assert MonitorOk(s, n) && MonitorOk(s, q);
  }

  /** A release, and the hand-back after a legacy artifact appeared, remove only the monitor's own pidfile. */
  lemma ReleaseRemovesOnlyOwn(s0: State, steps: seq<Step>, n: Nonce)
    requires Initial(s0) && Legal(s0, steps)
    requires
      var s := Exec(s0, steps);
      Running(s, n) && !s.monitors[n].pc.UnlinkStale? && Advance(s, n).pidfile.None? && s.pidfile.Some?
    ensures var s := Exec(s0, steps); s.pidfile == Some(Own(s, n))
  {
    ReachableInv(s0, steps);
    assert MonitorOk(Exec(s0, steps), n);
  }

  /** At most one live monitor that was not reaped owns the inbox, and the pidfile names it. */
  lemma SingleHolder(s0: State, steps: seq<Step>, p: Nonce, q: Nonce)
    requires Initial(s0) && Legal(s0, steps)
    requires
      var s := Exec(s0, steps);
      && Running(s, p) && Owner(s.monitors[p]) && p !in s.reaped
      && Running(s, q) && Owner(s.monitors[q]) && q !in s.reaped
    ensures p == q && Exec(s0, steps).pidfile == Some(Own(Exec(s0, steps), p))
  {
    ReachableInv(s0, steps);
    var s := Exec(s0, steps);
    assert MonitorOk(s, p) && MonitorOk(s, q);
  }

  /** A live monitor enters `reaped` only at such a reap. */
  lemma ReapedOnlyByTaking(s: State, n: Nonce, q: Nonce)
    requires Inv(s) && Running(s, n) && q in Advance(s, n).reaped && q !in s.reaped
    ensures TakesFrom(s, n, q)
  {
    assert MonitorOk(s, n);
  }

  // ---- Heartbeats written while a reaper decides ----

  /** Monitor `n` is between the stat of a heartbeat and the unlink it may lead to, and `q` is the live monitor it is about. */
  predicate DecidesOn(s: State, n: Nonce, q: Nonce) {
    && Running(s, n) && Running(s, q) && n != q
    && var pc := s.monitors[n].pc;
    && (pc.ReadBeat? || ((pc.CompareStale? || pc.UnlinkStale?) && pc.why.Wedged?))
    && pc.seen == Own(s, q)
  }

  /** The time of the heartbeat a reaper went by. */
  function StattedAt(pc: Pc): int {
    match pc
    case ReadBeat(_, _, mtime) => mtime
    case CompareStale(_, _, Wedged(mtime)) => mtime
    case UnlinkStale(_, _, Wedged(mtime)) => mtime
    case _ => 0
  }

  /** The heartbeat, if it is still the one a reaper would act on, is no newer than the reaper believes. */
  predicate BelievesRightly(s: State, n: Nonce, q: Nonce)
    requires n in s.monitors
  {
    var pc := s.monitors[n].pc;
    if pc.ReadBeat? then s.heartbeat.Some? && s.heartbeat.value.nonce == q ==> s.heartbeat.value.mtime <= StattedAt(pc)
    else s.heartbeat.Some? && s.heartbeat.value.nonce == q && s.heartbeat.value.mtime <= StattedAt(pc)
  }

  predicate RightOn(s: State, n: Nonce, q: Nonce) { DecidesOn(s, n, q) ==> BelievesRightly(s, n, q) }

  predicate WritesBeat(s: State, step: Step)
    requires Enabled(s, step)
  {
    step.Run? && (s.monitors[step.n].pc == FirstBeat || s.monitors[step.n].pc == Holding)
  }

  /**
   * A heartbeat is written that a reaper's decision on `q` no longer fits: `q`'s
   * own, at a later time than the reaper saw, or over `q`'s after the reaper read it.
   */
  predicate Disturbs(s: State, step: Step, n: Nonce, q: Nonce)
    requires Enabled(s, step)
  {
    && WritesBeat(s, step) && DecidesOn(s, n, q)
    && if step.n == q then s.now > StattedAt(s.monitors[n].pc) else !s.monitors[n].pc.ReadBeat?
  }

  /** How a monitor comes to decide on `q`: it has just taken the time, or decided on `q` before. */
  lemma DecisionFromStep(s: State, n: Nonce, q: Nonce)
    requires Running(s, n) && DecidesOn(Advance(s, n), n, q)
    ensures
      var pc, pc' := s.monitors[n].pc, Advance(s, n).monitors[n].pc;
      || (pc.StatBeat? && pc'.ReadBeat? && s.heartbeat.Some? && StattedAt(pc') == s.heartbeat.value.mtime)
      || (DecidesOn(s, n, q) && StattedAt(pc') == StattedAt(pc) && !pc'.ReadBeat?
          && (pc.ReadBeat? ==> s.heartbeat.Some? && s.heartbeat.value.nonce == q))
    ensures Advance(s, n).heartbeat == s.heartbeat
  {
  }

  /** The mover's own next decision rests on the heartbeat as it is. */
  lemma MoverBelieves(s: State, n: Nonce, q: Nonce)
    requires RightOn(s, n, q) && Running(s, n) && DecidesOn(Advance(s, n), n, q)
    ensures BelievesRightly(Advance(s, n), n, q)
  {
    DecisionFromStep(s, n, q);
  }

  /** Another monitor's step changes the heartbeat under a reaper only by writing it. */
  lemma OtherBelieves(s: State, m: Nonce, n: Nonce, q: Nonce)
    requires Inv(s) && RightOn(s, n, q) && Running(s, m) && m != n && DecidesOn(Advance(s, m), n, q)
    ensures DecidesOn(s, n, q)
    ensures BelievesRightly(Advance(s, m), n, q) <==> !Disturbs(s, Run(m), n, q)
  {
    assert Running(Advance(s, m), n) && Running(Advance(s, m), q);
    OnlyMoverMoves(s, m, n);
    StillRan(s, m, q);
    PidsStay(s, m);
    assert DecidesOn(s, n, q);
    assert MonitorOk(s, n) && MonitorOk(s, m);
    BeatUnderReaper(s, m, n);
  }

  lemma StillRan(s: State, m: Nonce, q: Nonce)
    requires Running(s, m) && Running(Advance(s, m), q)
    ensures Running(s, q)
  {
  }

  /** The reaper holds the mutation lock, so nobody else removes a heartbeat. */
  lemma BeatUnderReaper(s: State, m: Nonce, n: Nonce)
    requires Running(s, m) && Running(s, n) && m != n && LockOk(s, m) && LockOk(s, n) && InMutation(s.monitors[n].pc)
    ensures Advance(s, m).heartbeat == if WritesBeat(s, Run(m)) then Some(Beat(s.now, m)) else s.heartbeat
    ensures Advance(s, m).now == s.now
  {
  }

  /** A step keeps a reaper's belief about `q` right exactly when it does not disturb it. */
  lemma StepBelievesIff(s: State, step: Step, n: Nonce, q: Nonce)
    requires Inv(s) && RightOn(s, n, q) && Enabled(s, step)
    ensures RightOn(Do(s, step), n, q) <==> !Disturbs(s, step, n, q)
  {
    var t := Do(s, step);
    if step.Run? && step.n == n {
      if DecidesOn(t, n, q) { MoverBelieves(s, n, q); }
      MoverNeverDisturbsItself(s, n, q);
    } else if step.Run? {
      if Disturbs(s, step, n, q) { WritersKeepDecisions(s, step.n, n, q); }
      if DecidesOn(t, n, q) { OtherBelieves(s, step.n, n, q); }
    } else if DecidesOn(t, n, q) {
      OthersKeepBeliefs(s, step, n, q);
    }
  }

  lemma MoverNeverDisturbsItself(s: State, n: Nonce, q: Nonce)
    requires Running(s, n)
    ensures !Disturbs(s, Run(n), n, q)
  {
  }

  lemma WritersKeepDecisions(s: State, m: Nonce, n: Nonce, q: Nonce)
    requires Running(s, m) && Disturbs(s, Run(m), n, q)
    ensures DecidesOn(Advance(s, m), n, q)
  {
  }

  lemma OthersKeepBeliefs(s: State, step: Step, n: Nonce, q: Nonce)
    requires Inv(s) && RightOn(s, n, q) && Enabled(s, step) && !step.Run? && DecidesOn(Do(s, step), n, q)
    ensures BelievesRightly(Do(s, step), n, q)
  {
    assert MonitorOk(s, n);
    assert DecidesOn(s, n, q);
  }

  /** No step of the run disturbs what `n` believes about `q`. */
  predicate UndisturbedOn(s: State, steps: seq<Step>, n: Nonce, q: Nonce)
    requires Legal(s, steps)
    decreases |steps|
  {
    steps != [] ==> !Disturbs(s, steps[0], n, q) && UndisturbedOn(Do(s, steps[0]), steps[1..], n, q)
  }

  predicate AlwaysRightOn(s: State, steps: seq<Step>, n: Nonce, q: Nonce)
    requires Legal(s, steps)
    decreases |steps|
  {
    RightOn(s, n, q) && (steps != [] ==> AlwaysRightOn(Do(s, steps[0]), steps[1..], n, q))
  }

  lemma {:induction false} RunBelievesIff(s: State, steps: seq<Step>, n: Nonce, q: Nonce)
    requires Inv(s) && RightOn(s, n, q) && Legal(s, steps)
    ensures AlwaysRightOn(s, steps, n, q) <==> UndisturbedOn(s, steps, n, q)
    ensures UndisturbedOn(s, steps, n, q) ==> RightOn(Exec(s, steps), n, q)
    decreases |steps|
  {
    if steps != [] {
      StepBelievesIff(s, steps[0], n, q);
      StepKeepsInv(s, steps[0]);
      if RightOn(Do(s, steps[0]), n, q) { RunBelievesIff(Do(s, steps[0]), steps[1..], n, q); }
    }
  }

  /** A reaper that believes rightly takes a live monitor's pidfile only over a stale heartbeat of that monitor. */
  lemma TakesRightly(s: State, n: Nonce, q: Nonce)
    requires Inv(s) && TakesFrom(s, n, q) && RightOn(s, n, q)
    requires var pc := s.monitors[n].pc; pc.UnlinkStale? && pc.seen == Own(s, q) && pc.why.Wedged?
    ensures StaleAndMatching(s, q)
  {
    assert MonitorOk(s, n);
  }

  /**
   * A live monitor loses its pidfile to a contender only while its heartbeat is
   * stale and carries its own nonce, if since the contender began to decide on
   * that monitor no heartbeat was written that this very decision no longer
   * fits; whatever other monitors and other decisions go through.
   */
  lemma HealthyHolderIsSafe(s0: State, before: seq<Step>, during: seq<Step>, n: Nonce, q: Nonce)
    requires Initial(s0) && Legal(s0, before) && !DecidesOn(Exec(s0, before), n, q)
    requires Legal(Exec(s0, before), during) && UndisturbedOn(Exec(s0, before), during, n, q)
    requires TakesFrom(Exec(Exec(s0, before), during), n, q)
    ensures StaleAndMatching(Exec(Exec(s0, before), during), q)
  {
    ExecConcat(s0, before, during);
    OnlyAWedgeReapTakes(s0, before + during, n, q);
    ReachableInv(s0, before);
    ReachableInv(s0, before + during);
    RunBelievesIff(Exec(s0, before), during, n, q);
    TakesRightly(Exec(Exec(s0, before), during), n, q);
  }

  lemma {:induction false} ExecConcat(s: State, a: seq<Step>, b: seq<Step>)
    requires Legal(s, a) && Legal(Exec(s, a), b)
    ensures Legal(s, a + b) && Exec(s, a + b) == Exec(Exec(s, a), b)
    decreases |a|
  {
    if a == [] {
      assert a + b == b;
    } else {
      ExecConcat(Do(s, a[0]), a[1..], b);
      assert (a + b)[1..] == a[1..] + b;
    }
  }

  // ---- When a take is wrong ----

  /** From a stat on, `n` goes on deciding on `q`. */
  predicate StaysDeciding(s: State, steps: seq<Step>, n: Nonce, q: Nonce)
    requires Legal(s, steps)
    decreases |steps|
  {
    DecidesOn(s, n, q) && (steps != [] ==> StaysDeciding(Do(s, steps[0]), steps[1..], n, q))
  }

  /** The last heartbeat that any monitor writes in a run. */
  function LastBeat(s: State, steps: seq<Step>): Option<Beat>
    requires Legal(s, steps)
    decreases |steps|
  {
    if steps == [] then None
    else
      var later := LastBeat(Do(s, steps[0]), steps[1..]);
      if later.Some? then later
      else if WritesBeat(s, steps[0]) then Some(Beat(s.now, steps[0].n))
      else None
  }

  lemma StepBeat(s: State, step: Step, n: Nonce, q: Nonce)
    requires Inv(s) && Enabled(s, step) && DecidesOn(s, n, q) && DecidesOn(Do(s, step), n, q)
    ensures Do(s, step).heartbeat == if WritesBeat(s, step) then Some(Beat(s.now, step.n)) else s.heartbeat
  {
    if step.Run? && step.n == n {
      DecisionFromStep(s, n, q);
    } else if step.Run? {
      assert MonitorOk(s, n) && MonitorOk(s, step.n);
      BeatUnderReaper(s, step.n, n);
    }
  }

  /** While a reaper decides, the heartbeat is the last one written, or the one it took the time of. */
  lemma {:induction false} BeatsWhileDeciding(s: State, steps: seq<Step>, n: Nonce, q: Nonce)
    requires Inv(s) && Legal(s, steps) && StaysDeciding(s, steps, n, q)
    ensures Exec(s, steps).heartbeat == if LastBeat(s, steps).Some? then LastBeat(s, steps) else s.heartbeat
    ensures LastBeat(s, steps).None? ==> UndisturbedOn(s, steps, n, q)
    decreases |steps|
  {
    if steps != [] {
      StepBeat(s, steps[0], n, q);
      StepKeepsInv(s, steps[0]);
      BeatsWhileDeciding(Do(s, steps[0]), steps[1..], n, q);
    }
  }

  /**
   * When a take is right: from the stat of the reaper's decision to the unlink
   * no heartbeat was written at all, or the last one written is the monitor's own
   * and has itself become stale since.
   */
  lemma TakeIsRightIff(s0: State, before: seq<Step>, during: seq<Step>, n: Nonce, q: Nonce)
    requires Initial(s0) && Legal(s0, before)
    requires Running(Exec(s0, before), n) && Exec(s0, before).monitors[n].pc.StatBeat?
    requires Legal(Advance(Exec(s0, before), n), during) && StaysDeciding(Advance(Exec(s0, before), n), during, n, q)
    requires TakesFrom(Exec(Advance(Exec(s0, before), n), during), n, q)
    ensures
      var stat := Advance(Exec(s0, before), n);
      var s := Exec(stat, during);
      var last := LastBeat(stat, during);
      StaleAndMatching(s, q) <==> last.None? || (last.value.nonce == q && s.now - last.value.mtime >= STALE_MS)
  {
    var s1 := Exec(s0, before);
    var stat := Advance(s1, n);
    assert stat == Do(s1, Run(n));
    ExecSnoc(s0, before, Run(n));
    ReachableInv(s0, before + [Run(n)]);
    BeatsWhileDeciding(stat, during, n, q);
    if LastBeat(stat, during).None? {
      ExecConcat(s0, before + [Run(n)], during);
      OnlyAWedgeReapTakes(s0, before + [Run(n)] + during, n, q);
      ReachableInv(s0, before + [Run(n)] + during);
      DecisionFromStep(s1, n, q);
      RunBelievesIff(stat, during, n, q);
      TakesRightly(Exec(stat, during), n, q);
    }
  }

  lemma {:induction false} ExecSnoc(s: State, steps: seq<Step>, step: Step)
    requires Legal(s, steps) && Enabled(Exec(s, steps), step)
    ensures Legal(s, steps + [step]) && Exec(s, steps + [step]) == Do(Exec(s, steps), step)
    decreases |steps|
  {
    if steps == [] {
      assert steps + [step] == [step] && [step][1..] == [];
      assert Legal(Do(s, step), []);
    } else {
      ExecSnoc(Do(s, steps[0]), steps[1..], step);
      assert (steps + [step])[1..] == steps[1..] + [step];
    }
  }

  /** Only a dead monitor's stale heartbeat is left over. */
  const LEFTOVER: State := State(map[], {9}, None, None, Some(Beat(0, 9)), {}, Absent, STALE_MS, {})

  /** Monitor 1 has claimed the pidfile and is about to write its first heartbeat. */
  lemma ClaimedNoBeatYet() returns (steps: seq<Step>)
    ensures Legal(LEFTOVER, steps)
    ensures Exec(LEFTOVER, steps) == LEFTOVER.(
      monitors := map[1 := Monitor(11, FirstBeat, false)], used := {9, 1}, pidfile := Some(Tagged(11, 1)))
  {
    steps := [];
    ExecSnoc(LEFTOVER, steps, Spawn(1, 11)); steps := steps + [Spawn(1, 11)];
    var k := 0;
    while k < 6
      invariant 0 <= k <= 6 && Legal(LEFTOVER, steps)
      invariant Exec(LEFTOVER, steps) == LEFTOVER.(
        monitors := map[1 := Monitor(11, [Start, LegacyBefore, TryClaim(0), LegacyAfter, CompareMutation(true), UnlinkMutation(true), FirstBeat][k], false)],
        used := {9, 1},
        pidfile := if k <= 2 then None else Some(Tagged(11, 1)),
        mutation := if 1 <= k <= 5 then Some(Tagged(11, 1)) else None)
    {
      ExecSnoc(LEFTOVER, steps, Run(1)); steps := steps + [Run(1)];
      k := k + 1;
    }
  }

  /** Monitor 2 has read that pidfile and taken the mtime of the left-over heartbeat. */
  lemma StattedLeftover() returns (steps: seq<Step>)
    ensures Legal(LEFTOVER, steps)
    ensures Exec(LEFTOVER, steps) == LEFTOVER.(
      monitors := map[1 := Monitor(11, FirstBeat, false), 2 := Monitor(12, ReadBeat(0, Tagged(11, 1), 0), false)],
      used := {9, 1, 2}, pidfile := Some(Tagged(11, 1)), mutation := Some(Tagged(12, 2)))
  {
    steps := ClaimedNoBeatYet();
    ExecSnoc(LEFTOVER, steps, Spawn(2, 12)); steps := steps + [Spawn(2, 12)];
    var seen := Tagged(11, 1);
    var k := 0;
    while k < 6
      invariant 0 <= k <= 6 && Legal(LEFTOVER, steps)
      invariant Exec(LEFTOVER, steps) == LEFTOVER.(
        monitors := map[1 := Monitor(11, FirstBeat, false),
          2 := Monitor(12, [Start, LegacyBefore, TryClaim(0), ReadPidfile(0), ProbePid(0, seen), StatBeat(0, seen), ReadBeat(0, seen, 0)][k], false)],
        used := {9, 1, 2},
        pidfile := Some(seen),
        mutation := if k == 0 then None else Some(Tagged(12, 2)))
    {
      var s := Exec(LEFTOVER, steps);
      assert s.monitors[1].pid == 11 && s.monitors[1].pc != Gone;
      ExecSnoc(LEFTOVER, steps, Run(2)); steps := steps + [Run(2)];
      k := k + 1;
    }
  }

  /**
   * The condition is needed.  The heartbeat's age and its nonce are read
   * in two primitives: the age of a left-over file, then, after monitor 1
   * wrote its first heartbeat in between, monitor 1's nonce.  Its brand-new
   * heartbeat is taken for a stale one and its pidfile is removed.
   */
  lemma TornHeartbeatReadReapsAFreshHolder() returns (steps: seq<Step>)
    ensures Initial(LEFTOVER) && Legal(LEFTOVER, steps)
    ensures
      var s := Exec(LEFTOVER, steps);
      TakesFrom(s, 2, 1) && s.monitors[1].pc == Holding && s.heartbeat == Some(Beat(s.now, 1)) && !StaleAndMatching(s, 1)
  {
    steps := StattedLeftover();
    ExecSnoc(LEFTOVER, steps, Run(1)); steps := steps + [Run(1)];
    ExecSnoc(LEFTOVER, steps, Run(2)); steps := steps + [Run(2)];
    ExecSnoc(LEFTOVER, steps, Run(2)); steps := steps + [Run(2)];
  }
}
