/**
 * The Codex wake path (src/codex-app-wake.ts, helpers in
 * src/codex-wake-resolve.ts): the per-entry wake queue, the retry-drain loop
 * and the heartbeat, interleaved at every `await`.  Each step is the code from
 * one `await` to the next; its outcome says how the awaited call ended.
 */
module CodexWake {
  import opened Common

  type EntryId = nat
  type Thread = nat

  /** One wake request; `identity` stands for the delivery identity or the reason text. */
  datatype Request = Request(identity: nat, entry: Option<EntryId>)

  datatype WakeKey = WakeKey(thread: Thread, identity: nat)

  datatype WakePc =
    | WIdle
    | WActive(req: Request)
    | WPending(req: Request)
    | WResolve(req: Request)
    | WConnect(req: Request, thread: Thread)
    | WRead(req: Request, thread: Thread)
    | WPendingAgain(req: Request, thread: Thread)
    | WStartTurn(req: Request, thread: Thread)
    | WBetween
    | WFinally

  datatype RetryPc =
    | RIdle
    | RSleeping
    | RActive
    | RPrune(asked: EntryId, visited: set<EntryId>)
    | RResolve
    | RConnect
    | RRead
    | RPruneAgain(asked: EntryId, visited: set<EntryId>)
    | RStartTurn
    | RFinally

  datatype HeartbeatPc =
    | HIdle
    | HActive
    | HQuery
    | HQueried(pending: bool)
    | HResolve
    | HConnect
    | HRead
    | HStartTurn

  /** The per-entry queue, its in-flight flag and its drain loop. */
  datatype PerEntry = PerEntry(queue: seq<Request>, flag: bool, pc: WakePc)

  /** The retry-drain loop, its in-flight flag and what it still has to deliver. */
  datatype Drain = Drain(flag: bool, pc: RetryPc, attempts: nat, startedAt: int, ids: set<EntryId>, unscoped: bool)

  datatype Heartbeat = Heartbeat(flag: bool, pc: HeartbeatPc)

  /**
   * `arrived` and `unread` are the server's truth.  `owed` collects the scoped
   * entries whose wake was deferred or failed since the last completed turn,
   * whatever the code did about it.
   */
  datatype State = State(
    inject: bool,
    per: PerEntry,
    drain: Drain,
    beat: Heartbeat,
    deferred: bool, lastDeliveredAt: Option<int>, delivered: seq<WakeKey>,
    now: int, arrived: set<EntryId>, unread: set<EntryId>, owed: set<EntryId>)

  const INIT: State := State(
    false, PerEntry([], false, WIdle), Drain(false, RIdle, 0, 0, {}, false), Heartbeat(false, HIdle),
    false, None, [], 0, {}, {}, {})

  const MAX_AGE_MS: int := 45 * 60_000
  const MAX_ATTEMPTS: nat := 1000
  const DELIVERED_WAKE_KEY_CAP: nat := 100
  const HEARTBEAT_CADENCE_MS: int := 20 * 60_000

  // ---- The pure helpers ----

  /** Wake-path health: `None` is degraded or unknown. */
  function Healthy(armed: Option<bool>, s: State): Option<bool> {
    if armed == Some(false) then Some(false)
    else if armed.None? then None
    else if s.drain.flag || s.drain.ids != {} || s.drain.unscoped || s.deferred then None
    else Some(true)
  }

  predicate RetryExpired(startedAt: int, now: int) { now - startedAt >= MAX_AGE_MS }

  predicate ShouldFireHeartbeat(lastDeliveredAt: Option<int>, now: int) {
    lastDeliveredAt.None? || now - lastDeliveredAt.value >= HEARTBEAT_CADENCE_MS
  }

  function RememberDelivered(order: seq<WakeKey>, key: WakeKey): (r: seq<WakeKey>)
    ensures key in r
    ensures |order| <= DELIVERED_WAKE_KEY_CAP ==> |r| <= DELIVERED_WAKE_KEY_CAP
  {
    if key in order then order
    else if |order| + 1 > DELIVERED_WAKE_KEY_CAP then order[1..] + [key]
    else order + [key]
  }

  // ---- Synchronous pieces ----

  function WakeAt(s: State, pc: WakePc): State { s.(per := s.per.(pc := pc)) }

  function RetryAt(s: State, pc: RetryPc): State { s.(drain := s.drain.(pc := pc)) }

  function BeatAt(s: State, pc: HeartbeatPc): State { s.(beat := s.beat.(pc := pc)) }

  function Release(s: State): State { s.(inject := false) }

  function MarkDelivered(s: State): State {
    s.(lastDeliveredAt := Some(s.now), deferred := false)
  }

  /** Hand a wake to the retry drain, starting the loop unless one is running. */
  function Schedule(s: State, entry: Option<EntryId>): State {
    var t := match entry
      case Some(e) => s.(drain := s.drain.(ids := s.drain.ids + {e}))
      case None => s.(drain := s.drain.(unscoped := true));
    if t.drain.flag then t
    else t.(drain := t.drain.(flag := true, pc := RSleeping, attempts := 0, startedAt := t.now))
  }

  // ---- Per-entry wakes ----

  /** Take one request off the queue: lock and ask for the cube, or defer. */
  function BeginRequest(s: State, req: Request): State {
    if s.inject then WakeAt(Schedule(s, req.entry), WBetween)
    else s.(inject := true, per := s.per.(pc := WActive(req)))
  }

  function Push(s: State, req: Request): State {
    if s.per.flag then s.(per := s.per.(queue := s.per.queue + [req]))
    else
      var all := s.per.queue + [req];
      BeginRequest(s.(per := s.per.(queue := all[1..], flag := true)), all[0])
  }

  datatype Outcome =
    | Throws
    | Nothing
    | Something(thread: Thread)
    | Answer(yes: bool)
    | ThreadBusy
    | ThreadIdle
    | Done

  /** The outcomes the awaited call of a wake can have; a "no longer unread" answer is true when it arrives. */
  predicate WakeOutcome(s: State, o: Outcome) {
    o.Throws? || match s.per.pc
      case WActive(_) => o.Nothing? || o.Something?
      case WPending(req) => o.Answer? && req.entry.Some? && (!o.yes ==> req.entry.value !in s.unread)
      case WResolve(_) => o.Nothing? || o.Something?
      case WConnect(_, _) => o.Done?
      case WRead(_, _) => o.ThreadBusy? || o.ThreadIdle?
      case WPendingAgain(req, _) => o.Answer? && req.entry.Some? && (!o.yes ==> req.entry.value !in s.unread)
      case WStartTurn(_, _) => o.Done?
      case _ => false
  }

  predicate WakeAwaiting(pc: WakePc) { !pc.WIdle? && !pc.WBetween? && !pc.WFinally? }

  /** Leave the critical section of one request. */
  function EndRequest(s: State): State { WakeAt(Release(s), WBetween) }

  function WakeResumes(s: State, o: Outcome): State
    requires WakeAwaiting(s.per.pc) && WakeOutcome(s, o)
  {
    var req := s.per.pc.req;
    if o.Throws? then EndRequest(Schedule(s, req.entry))
    else
      match s.per.pc
      case WActive(_) =>
        if o.Nothing? then EndRequest(s)
        else if req.entry.Some? then WakeAt(s, WPending(req))
        else WakeAt(s, WResolve(req))
      case WPending(_) => if o.yes then WakeAt(s, WResolve(req)) else EndRequest(s)
      case WResolve(_) =>
        if o.Nothing? then
          EndRequest(Schedule(if req.entry.Some? then s.(deferred := true) else s, req.entry))
        else if WakeKey(o.thread, req.identity) in s.delivered then EndRequest(s)
        else WakeAt(s, WConnect(req, o.thread))
      case WConnect(_, thread) => WakeAt(s, WRead(req, thread))
      case WRead(_, thread) =>
        if o.ThreadBusy? then EndRequest(Schedule(s, req.entry))
        else if req.entry.Some? then WakeAt(s, WPendingAgain(req, thread))
        else WakeAt(s, WStartTurn(req, thread))
      case WPendingAgain(_, thread) => if o.yes then WakeAt(s, WStartTurn(req, thread)) else EndRequest(s)
      case WStartTurn(_, thread) =>
        EndRequest(MarkDelivered(s.(delivered := RememberDelivered(s.delivered, WakeKey(thread, req.identity)))))
  }

  /** The drain loop looks for the next request. */
  function WakeLoops(s: State): State {
    if s.per.queue == [] then WakeAt(s, WFinally)
    else BeginRequest(s.(per := s.per.(queue := s.per.queue[1..])), s.per.queue[0])
  }

  // ---- The retry-drain loop ----

  function AgeOut(s: State): State {
    if s.drain.ids != {} || s.drain.unscoped then s.(drain := s.drain.(ids := {}, unscoped := false, pc := RFinally), deferred := true)
    else RetryAt(s, RFinally)
  }

  predicate LoopGuard(s: State) { !RetryExpired(s.drain.startedAt, s.now) && s.drain.attempts < MAX_ATTEMPTS }

  /** Back to the loop head. */
  function RetryLoops(s: State): State {
    if LoopGuard(s) then RetryAt(s, RSleeping) else AgeOut(s)
  }

  predicate RetryOutcome(s: State, o: Outcome) {
    match s.drain.pc
    case RSleeping => o.Done?
    case RActive => o.Throws? || o.Nothing? || o.Something?
    case RPrune(e, _) => o.Throws? || (o.Answer? && (!o.yes ==> e !in s.unread))
    case RResolve => o.Throws? || o.Nothing? || o.Something?
    case RConnect => o.Throws? || o.Done?
    case RRead => o.Throws? || o.ThreadBusy? || o.ThreadIdle?
    case RPruneAgain(e, _) => o.Throws? || (o.Answer? && (!o.yes ==> e !in s.unread))
    case RStartTurn => o.Throws? || o.Done?
    case _ => false
  }

  /** The next id the pruning loop asks about, if any is left. */
  predicate NextToAsk(ids: set<EntryId>, visited: set<EntryId>, next: Option<EntryId>) {
    if next.Some? then next.value in ids && next.value !in visited else ids <= visited
  }

  function RetryDone(s: State): State { RetryAt(Release(s), RFinally) }

  /** The first pruning pass is over: nothing left to do, or resolve a target. */
  function Prune(s: State, visited: set<EntryId>, next: Option<EntryId>): State {
    if next.Some? then RetryAt(s, RPrune(next.value, visited))
    else if !s.drain.unscoped && s.drain.ids == {} then RetryDone(s)
    else RetryAt(s, RResolve)
  }

  function PruneAgain(s: State, visited: set<EntryId>, next: Option<EntryId>): State {
    if next.Some? then RetryAt(s, RPruneAgain(next.value, visited))
    else if !s.drain.unscoped && s.drain.ids == {} then RetryDone(s)
    else RetryAt(s, RStartTurn)
  }

  function Settled(s: State, e: EntryId, o: Outcome): set<EntryId> {
    if o == Answer(false) then s.drain.ids - {e} else s.drain.ids
  }

  /** An id found read leaves the set, and is asked about again if it is added again. */
  function Visited(e: EntryId, o: Outcome, visited: set<EntryId>): set<EntryId> {
    if o == Answer(false) then visited - {e} else visited + {e}
  }

  /** The ids a pruning pass may still ask about after this step, and those it has visited. */
  function AskFrom(s: State, o: Outcome): (set<EntryId>, set<EntryId>) {
    match s.drain.pc
    case RPrune(e, visited) => (Settled(s, e, o), Visited(e, o, visited))
    case RPruneAgain(e, visited) => (Settled(s, e, o), Visited(e, o, visited))
    case _ => (s.drain.ids, {})
  }

  function RetryResumes(s: State, o: Outcome, next: Option<EntryId>): State
    requires RetryOutcome(s, o)
  {
    match s.drain.pc
    case RSleeping =>
      var t := s.(drain := s.drain.(attempts := s.drain.attempts + 1));
      if t.inject then RetryLoops(t) else t.(inject := true, drain := t.drain.(pc := RActive))
    case RActive => if o.Something? then Prune(s, {}, next) else RetryLoops(Release(s))
    case RPrune(e, visited) => Prune(s.(drain := s.drain.(ids := Settled(s, e, o))), Visited(e, o, visited), next)
    case RResolve => if o.Something? then RetryAt(s, RConnect) else RetryLoops(Release(s))
    case RConnect => if o.Done? then RetryAt(s, RRead) else RetryLoops(Release(s))
    case RRead => if o.ThreadIdle? then PruneAgain(s, {}, next) else RetryLoops(Release(s))
    case RPruneAgain(e, visited) =>
      if o.Throws? then RetryLoops(Release(s))
      else PruneAgain(s.(drain := s.drain.(ids := Settled(s, e, o))), Visited(e, o, visited), next)
    case RStartTurn =>
      if o.Throws? then RetryLoops(Release(s))
      else RetryDone(MarkDelivered(s.(drain := s.drain.(ids := {}, unscoped := false))))
  }

  // ---- The heartbeat ----

  /** One timer tick up to its first await. */
  function HeartbeatTicks(s: State, streamOwner: bool): State {
    if s.beat.flag || !ShouldFireHeartbeat(s.lastDeliveredAt, s.now) || !streamOwner || s.inject then s
    else s.(inject := true, beat := s.beat.(flag := true, pc := HActive))
  }

  predicate HeartbeatOutcome(s: State, o: Outcome) {
    match s.beat.pc
    case HActive => o.Throws? || o.Nothing? || o.Something?
    case HQuery => o.Throws? || o.Done?
    case HQueried(_) => o.Done?
    case HResolve => o.Throws? || o.Nothing? || o.Something?
    case HConnect => o.Throws? || o.Done?
    case HRead => o.Throws? || o.ThreadBusy? || o.ThreadIdle?
    case HStartTurn => o.Throws? || o.Done?
    case HIdle => false
  }

  function HeartbeatEnds(s: State): State { Release(s).(beat := Release(s).beat.(flag := false, pc := HIdle)) }

  /** `HQuery` to `HQueried` is the server reading its unread state; the answer arrives one step later. */
  function HeartbeatResumes(s: State, o: Outcome): State
    requires HeartbeatOutcome(s, o)
  {
    if o.Throws? then HeartbeatEnds(s.(deferred := true))
    else
      match s.beat.pc
      case HActive => if o.Something? then BeatAt(s, HQuery) else HeartbeatEnds(s)
      case HQuery => BeatAt(s, HQueried(s.unread != {}))
      case HQueried(pending) =>
        if pending then BeatAt(s, HResolve) else HeartbeatEnds(s.(deferred := false))
      case HResolve =>
        if o.Something? then BeatAt(s, HConnect) else HeartbeatEnds(s.(deferred := true))
      case HConnect => BeatAt(s, HRead)
      case HRead =>
        if o.ThreadIdle? then BeatAt(s, HStartTurn) else HeartbeatEnds(s.(deferred := true))
      case HStartTurn => HeartbeatEnds(MarkDelivered(s))
  }

  // ---- Runs ----

  datatype Step =
    | Arrive(e: EntryId)
    | MarkRead(e: EntryId)
    | Clock(ms: nat)
    | PushWake(req: Request)
    | WakeStep(o: Outcome)
    | WakeLoop
    | WakeSettle
    | RetryStep(o: Outcome, next: Option<EntryId>)
    | RetrySettle
    | HeartbeatTick(streamOwner: bool)
    | HeartbeatStep(o: Outcome)

  predicate Enabled(s: State, step: Step) {
    match step
    case Arrive(e) => e !in s.arrived
    case MarkRead(e) => true
    case Clock(_) => true
    case PushWake(req) => req.entry.Some? ==> req.entry.value in s.arrived
    case WakeStep(o) => WakeAwaiting(s.per.pc) && WakeOutcome(s, o)
    case WakeLoop => s.per.pc.WBetween?
    case WakeSettle => s.per.pc.WFinally?
    case RetryStep(o, next) =>
      RetryOutcome(s, o) && var (ids, visited) := AskFrom(s, o); NextToAsk(ids, visited, next)
    case RetrySettle => s.drain.pc.RFinally?
    case HeartbeatTick(_) => true
    case HeartbeatStep(o) => HeartbeatOutcome(s, o)
  }

  /** What the code does in one step. */
  function Effect(s: State, step: Step): State
    requires Enabled(s, step)
  {
    match step
    case Arrive(e) => s.(arrived := s.arrived + {e}, unread := s.unread + {e})
    case MarkRead(e) => s.(unread := s.unread - {e})
    case Clock(ms) => s.(now := s.now + ms)
    case PushWake(req) => Push(s, req)
    case WakeStep(o) => WakeResumes(s, o)
    case WakeLoop => WakeLoops(s)
    case WakeSettle => s.(per := s.per.(flag := false, pc := WIdle))
    case RetryStep(o, next) => RetryResumes(s, o, next)
    case RetrySettle => s.(drain := s.drain.(flag := false, pc := RIdle))
    case HeartbeatTick(owner) => HeartbeatTicks(s, owner)
    case HeartbeatStep(o) => HeartbeatResumes(s, o)
  }

  function ScopeOf(req: Request): set<EntryId> { if req.entry.Some? then {req.entry.value} else {} }

  /** The outcomes by which a wake fails, or has to wait: an error, no thread to wake, a thread at work. */
  predicate FailsAt(pc: WakePc, o: Outcome) { o.Throws? || (pc.WResolve? && o.Nothing?) || (pc.WRead? && o.ThreadBusy?) }

  /** The scoped entry whose wake this step defers or fails. */
  function Debts(s: State, step: Step): set<EntryId> {
    match step
    case PushWake(req) => if !s.per.flag && s.inject then ScopeOf((s.per.queue + [req])[0]) else {}
    case WakeLoop => if s.per.queue != [] && s.inject then ScopeOf(s.per.queue[0]) else {}
    case WakeStep(o) => if WakeAwaiting(s.per.pc) && FailsAt(s.per.pc, o) then ScopeOf(s.per.pc.req) else {}
    case _ => {}
  }

  /** A turn completes: the server's read cursor takes all that was unread along. */
  predicate CompletesTurn(s: State, step: Step) {
    match step
    case WakeStep(o) => s.per.pc.WStartTurn? && o.Done?
    case RetryStep(o, _) => s.drain.pc.RStartTurn? && o.Done?
    case HeartbeatStep(o) => s.beat.pc.HStartTurn? && o.Done?
    case _ => false
  }

  function Do(s: State, step: Step): State
    requires Enabled(s, step)
  {
    var t := Effect(s, step);
    t.(owed := (if CompletesTurn(s, step) then {} else s.owed) + Debts(s, step))
  }

  /** The retry loop gives up an owed, unread entry while an empty heartbeat answer is on its way. */
  predicate AgesOutUnderStaleAnswer(s: State, step: Step)
    requires Enabled(s, step)
  {
    && s.beat.pc == HQueried(false) && s.drain.ids * s.owed * s.unread != {}
    && step.RetryStep? && s.drain.pc.RSleeping? && Do(s, step).drain.pc.RFinally?
  }

  /** An empty heartbeat answer arrives while an owed entry is unread and nobody retries it. */
  predicate StaleAnswerClears(s: State, step: Step) {
    step == HeartbeatStep(Done) && s.beat.pc == HQueried(false) && s.owed * s.unread - s.drain.ids != {}
  }

  predicate Legal(s: State, steps: seq<Step>)
    decreases |steps|
  {
    steps != [] ==> Enabled(s, steps[0]) && Legal(Do(s, steps[0]), steps[1..])
  }

  function Exec(s: State, steps: seq<Step>): State
    requires Legal(s, steps)
    decreases |steps|
  {
    if steps == [] then s else Exec(Do(s, steps[0]), steps[1..])
  }

  /** The heartbeat's unread query and its resumption are not separated by a give-up. */
  predicate Timely(s: State, steps: seq<Step>)
    requires Legal(s, steps)
    decreases |steps|
  {
    steps != [] ==> !AgesOutUnderStaleAnswer(s, steps[0]) && Timely(Do(s, steps[0]), steps[1..])
  }

  // ---- The invariant ----

  predicate WakeHolds(s: State) { WakeAwaiting(s.per.pc) }

  predicate RetryHolds(s: State) { !s.drain.pc.RIdle? && !s.drain.pc.RSleeping? && !s.drain.pc.RFinally? }

  predicate HeartbeatHolds(s: State) { !s.beat.pc.HIdle? }

  /** The lock flag says exactly that one path is inside, and no two are. */
  predicate LockInv(s: State) {
    && (s.inject <==> WakeHolds(s) || RetryHolds(s) || HeartbeatHolds(s))
    && !(WakeHolds(s) && RetryHolds(s))
    && !(WakeHolds(s) && HeartbeatHolds(s))
    && !(RetryHolds(s) && HeartbeatHolds(s))
    && (s.per.flag <==> !s.per.pc.WIdle?)
    && (s.drain.flag <==> !s.drain.pc.RIdle?)
    && (s.beat.flag <==> HeartbeatHolds(s))
  }

  ghost predicate Known(s: State) {
    && s.unread <= s.arrived && s.owed <= s.arrived
    && (WakeAwaiting(s.per.pc) && s.per.pc.req.entry.Some? ==> s.per.pc.req.entry.value in s.arrived)
    && (forall r :: r in s.per.queue && r.entry.Some? ==> r.entry.value in s.arrived)
    && (s.per.pc.WPending? || s.per.pc.WPendingAgain? ==> s.per.pc.req.entry.Some?)
  }

  /** Every owed unread entry still shows in a live signal. */
  ghost predicate Shows(s: State) { forall e :: e in s.owed && e in s.unread ==> e in s.drain.ids || s.deferred }

  /** While an empty answer is on its way, every owed unread entry is retried. */
  ghost predicate Retried(s: State) {
    s.beat.pc == HQueried(false) ==> forall e :: e in s.owed && e in s.unread ==> e in s.drain.ids
  }

  ghost predicate HonestInv(s: State) { Shows(s) && Retried(s) }

  ghost predicate Good(s: State) { LockInv(s) && Known(s) }

  ghost predicate Honest(s: State) { Good(s) && HonestInv(s) }

  lemma ScheduleKeeps(s: State, entry: Option<EntryId>)
    requires Known(s) && (entry.Some? ==> entry.value in s.arrived)
    ensures
      var t := Schedule(s, entry);
      && Known(t) && t.drain.flag && t.inject == s.inject && t.per.pc == s.per.pc && t.beat.pc == s.beat.pc
      && t.per.flag == s.per.flag && t.beat.flag == s.beat.flag
      && t.drain.pc == (if s.drain.flag then s.drain.pc else RSleeping)
    ensures HonestInv(s) ==> HonestInv(Schedule(s, entry))
    ensures Shows(s) ==> Shows(Schedule(s, entry))
  {
  }

  lemma BeginKeeps(s: State, req: Request)
    requires LockInv(s.(per := s.per.(pc := WBetween, flag := true))) && Known(s) && !WakeHolds(s)
    requires s.per.flag && (req.entry.Some? ==> req.entry.value in s.arrived)
    ensures Good(BeginRequest(s, req))
    ensures HonestInv(s) ==> HonestInv(BeginRequest(s, req))
    ensures Shows(s) ==> Shows(BeginRequest(s, req))
  {
    ScheduleKeeps(s, req.entry);
  }

  lemma PushKeeps(s: State, req: Request)
    requires Good(s) && (req.entry.Some? ==> req.entry.value in s.arrived)
    ensures Good(Push(s, req))
    ensures HonestInv(s) ==> HonestInv(Push(s, req))
    ensures Shows(s) ==> Shows(Push(s, req))
  {
    if !s.per.flag {
      var all := s.per.queue + [req];
      BeginKeeps(s.(per := s.per.(queue := all[1..], flag := true)), all[0]);
    }
  }

  lemma WakeLoopKeeps(s: State)
    requires Good(s) && s.per.pc.WBetween?
    ensures Good(WakeLoops(s))
    ensures HonestInv(s) ==> HonestInv(WakeLoops(s))
    ensures Shows(s) ==> Shows(WakeLoops(s))
  {
    if s.per.queue != [] {
      BeginKeeps(s.(per := s.per.(queue := s.per.queue[1..])), s.per.queue[0]);
    }
  }

  lemma EndRequestKeepsLock(s: State)
    requires LockInv(s) && WakeAwaiting(s.per.pc)
    ensures LockInv(EndRequest(s))
  {
  }

  lemma DeferKeepsLock(s: State, entry: Option<EntryId>)
    requires LockInv(s) && WakeAwaiting(s.per.pc)
    ensures LockInv(EndRequest(Schedule(s, entry)))
    ensures LockInv(EndRequest(Schedule(s.(deferred := true), entry)))
  {
  }

  lemma WakeKeepsLock(s: State, o: Outcome)
    requires LockInv(s) && WakeAwaiting(s.per.pc) && WakeOutcome(s, o)
    ensures LockInv(WakeResumes(s, o))
  {
    DeferKeepsLock(s, s.per.pc.req.entry);
    EndRequestKeepsLock(s);
    match s.per.pc
    case WActive(_) =>
    case WPending(_) =>
    case WResolve(_) =>
    case _ =>
  }

  /** A wake that ends defers its entry, completes a turn, or changes nothing the health looks at. */
  lemma WakeKeeps(s: State, o: Outcome)
    requires Good(s) && WakeAwaiting(s.per.pc) && WakeOutcome(s, o)
    ensures Good(WakeResumes(s, o))
    ensures HonestInv(s) && !CompletesTurn(s, WakeStep(o)) ==> HonestInv(WakeResumes(s, o))
    ensures Shows(s) && !CompletesTurn(s, WakeStep(o)) ==> Shows(WakeResumes(s, o))
  {
    var req := s.per.pc.req;
    WakeKeepsLock(s, o);
    if o.Throws? || (s.per.pc.WRead? && o.ThreadBusy?) {
      ScheduleKeeps(s, req.entry);
    } else if s.per.pc.WResolve? && o.Nothing? {
      var t := if req.entry.Some? then s.(deferred := true) else s;
      assert Known(t) && (HonestInv(s) ==> HonestInv(t)) && (Shows(s) ==> Shows(t));
      ScheduleKeeps(t, req.entry);
    }
  }

  lemma RetryLoopKeeps(s: State)
    requires Known(s) && !WakeAwaiting(s.per.pc) && !HeartbeatHolds(s) && !s.inject
    requires s.drain.flag && (s.per.flag <==> !s.per.pc.WIdle?) && !s.beat.flag
    ensures Good(RetryLoops(s))
    ensures HonestInv(s) ==> HonestInv(RetryLoops(s))
    ensures Shows(s) ==> Shows(RetryLoops(s))
  {
  }

  lemma RetryWakesKeeps(s: State, next: Option<EntryId>)
    requires Good(s) && s.drain.pc.RSleeping? && Enabled(s, RetryStep(Done, next))
    ensures Good(RetryResumes(s, Done, next))
    ensures HonestInv(s) ==> (HonestInv(RetryResumes(s, Done, next)) <==> !AgesOutUnderStaleAnswer(s, RetryStep(Done, next)))
    ensures Shows(s) ==> Shows(RetryResumes(s, Done, next))
  {
  }

  lemma PruneKeeps(s: State, e: EntryId, o: Outcome)
    requires Known(s) && (o == Answer(false) ==> e !in s.unread)
    ensures Known(s.(drain := s.drain.(ids := Settled(s, e, o))))
    ensures HonestInv(s) ==> HonestInv(s.(drain := s.drain.(ids := Settled(s, e, o))))
    ensures Shows(s) ==> Shows(s.(drain := s.drain.(ids := Settled(s, e, o))))
  {
  }

  lemma AfterPruneKeeps(s: State, visited: set<EntryId>, next: Option<EntryId>)
    requires Good(s) && RetryHolds(s)
    ensures Good(Prune(s, visited, next)) && Good(PruneAgain(s, visited, next))
    ensures HonestInv(s) ==> HonestInv(Prune(s, visited, next)) && HonestInv(PruneAgain(s, visited, next))
    ensures Shows(s) ==> Shows(Prune(s, visited, next)) && Shows(PruneAgain(s, visited, next))
  {
  }

  lemma TurnKeeps(s: State)
    requires Good(s) && s.drain.pc.RStartTurn?
    ensures Good(RetryDone(MarkDelivered(s.(drain := s.drain.(ids := {}, unscoped := false)))))
  {
  }

  lemma RetryKeeps(s: State, o: Outcome, next: Option<EntryId>)
    requires Good(s) && RetryOutcome(s, o) && !s.drain.pc.RSleeping?
    ensures Good(RetryResumes(s, o, next))
    ensures HonestInv(s) && !CompletesTurn(s, RetryStep(o, next)) ==> HonestInv(RetryResumes(s, o, next))
    ensures Shows(s) && !CompletesTurn(s, RetryStep(o, next)) ==> Shows(RetryResumes(s, o, next))
  {
    match s.drain.pc
    case RActive => if o.Something? { AfterPruneKeeps(s, {}, next); } else { RetryLoopKeeps(Release(s)); }
    case RPrune(e, visited) =>
      PruneKeeps(s, e, o);
      AfterPruneKeeps(s.(drain := s.drain.(ids := Settled(s, e, o))), Visited(e, o, visited), next);
    case RRead => if o.ThreadIdle? { AfterPruneKeeps(s, {}, next); } else { RetryLoopKeeps(Release(s)); }
    case RPruneAgain(e, visited) =>
      if o.Throws? {
        RetryLoopKeeps(Release(s));
      } else {
        PruneKeeps(s, e, o);
        AfterPruneKeeps(s.(drain := s.drain.(ids := Settled(s, e, o))), Visited(e, o, visited), next);
      }
    case RStartTurn => if o.Throws? { RetryLoopKeeps(Release(s)); } else { TurnKeeps(s); }
    case _ => RetryLoopKeeps(Release(s));
  }

  lemma HeartbeatKeepsLock(s: State, o: Outcome)
    requires LockInv(s) && HeartbeatOutcome(s, o)
    ensures LockInv(HeartbeatResumes(s, o))
  {
  }

  lemma HeartbeatShowsIff(s: State, o: Outcome)
    requires Good(s) && HeartbeatOutcome(s, o) && Shows(s) && !CompletesTurn(s, HeartbeatStep(o))
    ensures Shows(HeartbeatResumes(s, o)) <==> !StaleAnswerClears(s, HeartbeatStep(o))
  {
    if s.beat.pc == HQueried(false) {
      var left := s.owed * s.unread - s.drain.ids;
      assert forall e :: e in left <==> e in s.owed && e in s.unread && e !in s.drain.ids;
      if left != {} {
        var e :| e in left;
        assert e in s.owed && e in s.unread && e !in s.drain.ids;
      }
    }
  }

  lemma HeartbeatKeeps(s: State, o: Outcome)
    requires Good(s) && HeartbeatOutcome(s, o)
    ensures Good(HeartbeatResumes(s, o))
    ensures HonestInv(s) && !CompletesTurn(s, HeartbeatStep(o)) ==> HonestInv(HeartbeatResumes(s, o))
    ensures Shows(s) && !CompletesTurn(s, HeartbeatStep(o)) ==>
      (Shows(HeartbeatResumes(s, o)) <==> !StaleAnswerClears(s, HeartbeatStep(o)))
  {
    HeartbeatKeepsLock(s, o);
    if Shows(s) && !CompletesTurn(s, HeartbeatStep(o)) { HeartbeatShowsIff(s, o); }
    if s.beat.pc.HQuery? && o.Done? {
      assert HonestInv(s) ==> HonestInv(BeatAt(s, HQueried(s.unread != {})));
    }
  }

  /** The code of one step: what it keeps, with the debts still as they were. */
  ghost predicate CodeKeeps(s: State, step: Step)
    requires Enabled(s, step)
  {
    && Good(Effect(s, step)) && Effect(s, step).owed == s.owed
    && (HonestInv(s) && !CompletesTurn(s, step) ==> (HonestInv(Effect(s, step)) <==> !AgesOutUnderStaleAnswer(s, step)))
    && (Shows(s) && !CompletesTurn(s, step) ==> (Shows(Effect(s, step)) <==> !StaleAnswerClears(s, step)))
  }

  lemma EffectKeeps(s: State, step: Step)
    requires Good(s) && Enabled(s, step)
    ensures CodeKeeps(s, step)
  {
    if step.PushWake? || step.WakeStep? || step.WakeLoop? { WakesKeep(s, step); }
    else if step.RetryStep? { RetriesKeep(s, step); }
    else if step.HeartbeatStep? { HeartbeatKeeps(s, step.o); }
    else { OutsideKeeps(s, step); }
  }

  lemma WakesKeep(s: State, step: Step)
    requires Good(s) && Enabled(s, step) && (step.PushWake? || step.WakeStep? || step.WakeLoop?)
    ensures CodeKeeps(s, step)
  {
    match step
    case PushWake(req) => PushKeeps(s, req);
    case WakeStep(o) => WakeKeeps(s, o);
    case WakeLoop => WakeLoopKeeps(s);
  }

  lemma RetriesKeep(s: State, step: Step)
    requires Good(s) && Enabled(s, step) && step.RetryStep?
    ensures CodeKeeps(s, step)
  {
    if s.drain.pc.RSleeping? { RetryWakesKeeps(s, step.next); } else { RetryKeeps(s, step.o, step.next); }
  }

  /** What happens outside the three paths, or only begins or settles one. */
  lemma OutsideKeeps(s: State, step: Step)
    requires Good(s) && Enabled(s, step)
    requires !step.PushWake? && !step.WakeStep? && !step.WakeLoop? && !step.RetryStep? && !step.HeartbeatStep?
    ensures CodeKeeps(s, step)
  {
  }

  /** A deferred or failed wake is handed to the retry drain, whose loop then runs. */
  lemma DebtsAreHandedOn(s: State, step: Step)
    requires Good(s) && Enabled(s, step)
    ensures Debts(s, step) <= Do(s, step).drain.ids && Debts(s, step) <= s.arrived
    ensures Debts(s, step) != {} ==> Do(s, step).drain.flag
  {
    match step
    case PushWake(req) =>
    case WakeLoop =>
    case WakeStep(o) => if FailsAt(s.per.pc, o) { FailureIsScheduled(s, o); }
    case _ =>
  }

  lemma FailureIsScheduled(s: State, o: Outcome)
    requires Good(s) && WakeAwaiting(s.per.pc) && WakeOutcome(s, o) && FailsAt(s.per.pc, o)
    ensures
      var t := WakeResumes(s, o);
      && ScopeOf(s.per.pc.req) <= t.drain.ids && t.drain.flag && (s.per.pc.req.entry.None? ==> t.drain.unscoped)
      && t.per.pc.WBetween? && !t.inject
      && (s.per.pc.WResolve? && o.Nothing? && s.per.pc.req.entry.Some? ==> t.deferred)
  {
  }

  /** A step leaves an owed unread entry unretried under an empty answer exactly when it ages one out. */
  lemma StepKeeps(s: State, step: Step)
    requires Good(s) && Enabled(s, step)
    ensures Good(Do(s, step))
    ensures HonestInv(s) ==> (HonestInv(Do(s, step)) <==> !AgesOutUnderStaleAnswer(s, step))
    ensures Shows(s) ==> (Shows(Do(s, step)) <==> !StaleAnswerClears(s, step))
  {
    EffectKeeps(s, step);
    DebtsAreHandedOn(s, step);
  }

  lemma {:induction false} RunKeepsGood(s: State, steps: seq<Step>)
    requires Good(s) && Legal(s, steps)
    ensures Good(Exec(s, steps))
    decreases |steps|
  {
    if steps != [] {
      StepKeeps(s, steps[0]);
      RunKeepsGood(Do(s, steps[0]), steps[1..]);
    }
  }

  ghost predicate AlwaysHonest(s: State, steps: seq<Step>)
    requires Legal(s, steps)
    decreases |steps|
  {
    HonestInv(s) && (steps != [] ==> AlwaysHonest(Do(s, steps[0]), steps[1..]))
  }

  lemma {:induction false} RunHonestIff(s: State, steps: seq<Step>)
    requires Honest(s) && Legal(s, steps)
    ensures AlwaysHonest(s, steps) <==> Timely(s, steps)
    decreases |steps|
  {
    if steps != [] {
      StepKeeps(s, steps[0]);
      if HonestInv(Do(s, steps[0])) { RunHonestIff(Do(s, steps[0]), steps[1..]); }
    }
  }

  ghost predicate AlwaysShows(s: State, steps: seq<Step>)
    requires Legal(s, steps)
    decreases |steps|
  {
    Shows(s) && (steps != [] ==> AlwaysShows(Do(s, steps[0]), steps[1..]))
  }

  predicate NeverCleared(s: State, steps: seq<Step>)
    requires Legal(s, steps)
    decreases |steps|
  {
    steps != [] ==> !StaleAnswerClears(s, steps[0]) && NeverCleared(Do(s, steps[0]), steps[1..])
  }

  lemma {:induction false} RunShowsIff(s: State, steps: seq<Step>)
    requires Good(s) && Shows(s) && Legal(s, steps)
    ensures AlwaysShows(s, steps) <==> NeverCleared(s, steps)
    ensures NeverCleared(s, steps) ==> Shows(Exec(s, steps))
    decreases |steps|
  {
    if steps != [] {
      StepKeeps(s, steps[0]);
      if Shows(Do(s, steps[0])) { RunShowsIff(Do(s, steps[0]), steps[1..]); }
    }
  }

  /** Where the retry loop never ages out an owed unread entry under an empty answer, no such answer clears anything. */
  lemma {:induction false} TimelyNeverClears(s: State, steps: seq<Step>)
    requires Honest(s) && Legal(s, steps) && Timely(s, steps)
    ensures NeverCleared(s, steps)
    decreases |steps|
  {
    if steps != [] {
      StepKeeps(s, steps[0]);
      TimelyNeverClears(Do(s, steps[0]), steps[1..]);
    }
  }

  // ---- Results ----

  predicate StartsTurn(s: State) { s.per.pc.WStartTurn? || s.drain.pc.RStartTurn? || s.beat.pc.HStartTurn? }

  /** In every interleaving at most one path is inside the critical section, and every turn starts inside it. */
  lemma OneInjectorAtATime(steps: seq<Step>)
    requires Legal(INIT, steps)
    ensures
      var s := Exec(INIT, steps);
      && !(WakeHolds(s) && RetryHolds(s)) && !(WakeHolds(s) && HeartbeatHolds(s)) && !(RetryHolds(s) && HeartbeatHolds(s))
      && (StartsTurn(s) ==> s.inject)
      && (s.inject <==> WakeHolds(s) || RetryHolds(s) || HeartbeatHolds(s))
  {
    RunKeepsGood(INIT, steps);
  }

  // ---- What becomes of a wake ----

  /**
   * A scoped wake that was found unread never just ends: its turn completed, it
   * was read meanwhile, its key was delivered before, or its entry is with a
   * running retry drain.
   */
  lemma EndedWakeIsHandedOn(s: State, o: Outcome)
    requires Good(s) && Enabled(s, WakeStep(o)) && s.per.pc.req.entry.Some?
    requires !s.per.pc.WActive? && !s.per.pc.WPending? && Do(s, WakeStep(o)).per.pc.WBetween?
    ensures
      var e, t := s.per.pc.req.entry.value, Do(s, WakeStep(o));
      || CompletesTurn(s, WakeStep(o))
      || (s.per.pc.WPendingAgain? && e !in s.unread)
      || (s.per.pc.WResolve? && o.Something? && WakeKey(o.thread, s.per.pc.req.identity) in s.delivered)
      || (e in t.drain.ids && t.drain.flag)
  {
    DebtsAreHandedOn(s, WakeStep(o));
  }

  /** Before that, a wake ends without a trace only if no cube is active or its entry is read. */
  lemma UnstartedWakeEndsIff(s: State, o: Outcome)
    requires Good(s) && Enabled(s, WakeStep(o)) && (s.per.pc.WActive? || s.per.pc.WPending?) && !o.Throws?
    ensures Do(s, WakeStep(o)).per.pc.WBetween? <==> (s.per.pc.WActive? && o.Nothing?) || (s.per.pc.WPending? && !o.yes)
    ensures s.per.pc.WPending? && !o.yes ==> s.per.pc.req.entry.Some? && s.per.pc.req.entry.value !in s.unread
  {
  }

  /** A turn is started only over a thread that was read as idle in the same critical section. */
  lemma TurnsStartOnIdleThreads(s: State, step: Step)
    requires Good(s) && Enabled(s, step)
    ensures
      var t := Do(s, step);
      && (t.per.pc.WPendingAgain? && !s.per.pc.WPendingAgain? ==> s.per.pc.WRead? && step == WakeStep(ThreadIdle))
      && (t.per.pc.WStartTurn? && !s.per.pc.WStartTurn? ==>
          (s.per.pc.WRead? && step == WakeStep(ThreadIdle)) || (s.per.pc.WPendingAgain? && step == WakeStep(Answer(true))))
      && (t.drain.pc.RPruneAgain? && !s.drain.pc.RPruneAgain? ==>
          s.drain.pc.RRead? && step.RetryStep? && step.o == ThreadIdle)
      && (t.drain.pc.RStartTurn? && !s.drain.pc.RStartTurn? ==>
          step.RetryStep? && ((s.drain.pc.RRead? && step.o == ThreadIdle) || s.drain.pc.RPruneAgain?))
      && (t.beat.pc.HStartTurn? && !s.beat.pc.HStartTurn? ==> s.beat.pc.HRead? && step == HeartbeatStep(ThreadIdle))
  {
    match step
    case PushWake(req) => PushFrame(s, req);
    case WakeStep(o) => WakeFrame(s, o);
    case WakeLoop => WakeLoopFrame(s);
    case RetryStep(o, next) => RetryFrame(s, o, next);
    case HeartbeatStep(o) => HeartbeatFrame(s, o);
    case _ =>
  }

  /** What a completed turn leaves: the delivery time, no deferral, no debt, the lock free, and the obligations it covers gone. */
  lemma CompletedTurnSettles(s: State, step: Step)
    requires Good(s) && Enabled(s, step) && CompletesTurn(s, step)
    ensures
      var t := Do(s, step);
      && t.lastDeliveredAt == Some(s.now) && !t.deferred && t.owed == {} && !t.inject
      && (step.WakeStep? ==> WakeKey(s.per.pc.thread, s.per.pc.req.identity) in t.delivered)
      && (step.RetryStep? ==> t.drain.ids == {} && !t.drain.unscoped && t.drain.pc.RFinally?)
      && (step.HeartbeatStep? ==> t.beat == Heartbeat(false, HIdle))
  {
  }

  /** An id leaves the retry drain only when it is found read, a drain turn completes, or the loop ages out and marks the deferral. */
  lemma IdsLeaveOnlyWhen(s: State, step: Step, e: EntryId)
    requires Good(s) && Enabled(s, step) && e in s.drain.ids && e !in Do(s, step).drain.ids
    ensures step.RetryStep?
    ensures
      || ((s.drain.pc.RPrune? || s.drain.pc.RPruneAgain?) && s.drain.pc.asked == e && step.o == Answer(false) && e !in s.unread)
      || (s.drain.pc.RStartTurn? && step.o.Done?)
      || (Do(s, step).deferred && GivesUp(s))
  {
    match step
    case PushWake(req) => PushKeepsIds(s, req);
    case WakeStep(o) => WakeKeepsIds(s, o);
    case WakeLoop => LoopKeepsIds(s);
    case RetryStep(o, next) => RetryDropsIds(s, o, next, e);
    case HeartbeatStep(o) =>
    case _ =>
  }

  /** The retry loop is too old, or has tried often enough; a sleeper counts the attempt it wakes up to. */
  predicate GivesUp(s: State) {
    RetryExpired(s.drain.startedAt, s.now) || s.drain.attempts + (if s.drain.pc.RSleeping? then 1 else 0) >= MAX_ATTEMPTS
  }

  lemma PushKeepsIds(s: State, req: Request)
    ensures s.drain.ids <= Push(s, req).drain.ids
  {
  }

  lemma LoopKeepsIds(s: State)
    ensures s.drain.ids <= WakeLoops(s).drain.ids
  {
  }

  lemma WakeKeepsIds(s: State, o: Outcome)
    requires WakeAwaiting(s.per.pc) && WakeOutcome(s, o)
    ensures s.drain.ids <= WakeResumes(s, o).drain.ids
  {
  }

  lemma RetryDropsIds(s: State, o: Outcome, next: Option<EntryId>, e: EntryId)
    requires RetryOutcome(s, o) && e in s.drain.ids && e !in RetryResumes(s, o, next).drain.ids
    ensures
      || ((s.drain.pc.RPrune? || s.drain.pc.RPruneAgain?) && s.drain.pc.asked == e && o == Answer(false))
      || (s.drain.pc.RStartTurn? && o.Done?)
      || (RetryResumes(s, o, next).deferred && GivesUp(s))
  {
  }

  /** The retry loop ends only with nothing left to do, a completed turn, or when it gives up; otherwise it goes on. */
  lemma RetryEndsOnlyWhen(s: State, o: Outcome, next: Option<EntryId>)
    requires Good(s) && Enabled(s, RetryStep(o, next)) && Do(s, RetryStep(o, next)).drain.pc.RFinally?
    ensures
      var t := Do(s, RetryStep(o, next));
      || (t.drain.ids == {} && !t.drain.unscoped && (CompletesTurn(s, RetryStep(o, next)) || !s.drain.unscoped))
      || (GivesUp(s) && t.drain.ids == {} && !t.drain.unscoped && t.deferred)
  {
    if s.drain.pc.RStartTurn? && o.Done? { assert CompletesTurn(s, RetryStep(o, next)); } else { LoopEndsOnlyWhen(s, o, next); }
  }

  /** Without a completed turn. */
  lemma LoopEndsOnlyWhen(s: State, o: Outcome, next: Option<EntryId>)
    requires Good(s) && Enabled(s, RetryStep(o, next)) && !(s.drain.pc.RStartTurn? && o.Done?)
    requires RetryResumes(s, o, next).drain.pc.RFinally?
    ensures
      var t := RetryResumes(s, o, next);
      && t.drain.ids == {} && !t.drain.unscoped
      && (!s.drain.unscoped || (GivesUp(s) && t.deferred))
  {
  }

  /** A heartbeat that found unread work and delivers none leaves the deferral marked. */
  lemma UndeliveredHeartbeatDefers(s: State, o: Outcome)
    requires Good(s) && Enabled(s, HeartbeatStep(o)) && !s.beat.pc.HActive? && !s.beat.pc.HQuery? && s.beat.pc != HQueried(false)
    requires Do(s, HeartbeatStep(o)).beat.pc.HIdle? && !CompletesTurn(s, HeartbeatStep(o))
    ensures Do(s, HeartbeatStep(o)).deferred
  {
  }

  /** A heartbeat begins exactly when none runs, the last delivery is old enough, this process owns the stream and nobody injects. */
  lemma HeartbeatBeginsIff(s: State, owner: bool)
    requires Good(s) && s.beat.pc.HIdle?
    ensures Do(s, HeartbeatTick(owner)).beat.pc.HActive? <==>
      && owner && !s.inject
      && (s.lastDeliveredAt.None? || s.now - s.lastDeliveredAt.value >= 20 * 60_000)
  {
  }

  /** The way of a wake that nothing stops. */
  predicate Onward(req: Request, thread: Thread, from: WakePc, o: Outcome, to: WakePc) {
    match from
    case WActive(_) => o == Something(0) && to == if req.entry.Some? then WPending(req) else WResolve(req)
    case WPending(_) => o == Answer(true) && req.entry.Some? && to == WResolve(req)
    case WResolve(_) => o == Something(thread) && to == WConnect(req, thread)
    case WConnect(_, _) => o == Done && to == WRead(req, thread)
    case WRead(_, _) => o == ThreadIdle && to == if req.entry.Some? then WPendingAgain(req, thread) else WStartTurn(req, thread)
    case WPendingAgain(_, _) => o == Answer(true) && req.entry.Some? && to == WStartTurn(req, thread)
    case _ => false
  }

  predicate Carries(pc: WakePc, req: Request, thread: Thread) {
    WakeAwaiting(pc) && pc.req == req && (pc.WConnect? || pc.WRead? || pc.WPendingAgain? || pc.WStartTurn? ==> pc.thread == thread)
  }

  lemma OnwardEffect(at: State, req: Request, thread: Thread, o: Outcome, to: WakePc)
    requires Carries(at.per.pc, req, thread) && Onward(req, thread, at.per.pc, o, to)
    requires WakeKey(thread, req.identity) !in at.delivered
    ensures Enabled(at, WakeStep(o)) && Do(at, WakeStep(o)) == WakeAt(at, to) && Carries(to, req, thread)
  {
    assert at.owed + {} == at.owed;
  }

  /** From any point on that way the turn completes. */
  lemma {:induction false} OnwardDelivers(at: State, req: Request, thread: Thread) returns (steps: seq<Step>)
    requires Carries(at.per.pc, req, thread) && WakeKey(thread, req.identity) !in at.delivered
    requires at.per.pc.WPending? || at.per.pc.WPendingAgain? ==> req.entry.Some?
    ensures Legal(at, steps)
    ensures
      var t := Exec(at, steps);
      && t.lastDeliveredAt == Some(at.now) && WakeKey(thread, req.identity) in t.delivered
      && !t.inject && !t.deferred && t.owed == {} && t.drain == at.drain
    decreases Left(at.per.pc)
  {
    if at.per.pc.WStartTurn? {
      steps := [WakeStep(Done)];
      var t := Do(at, WakeStep(Done));
      assert Legal(t, []) && steps[1..] == [];
      assert Legal(at, steps) && Exec(at, steps) == t;
    } else {
      var o := match at.per.pc
        case WActive(_) => Something(0)
        case WResolve(_) => Something(thread)
        case WConnect(_, _) => Done
        case WRead(_, _) => ThreadIdle
        case _ => Answer(true);
      var to := match at.per.pc
        case WActive(_) => if req.entry.Some? then WPending(req) else WResolve(req)
        case WPending(_) => WResolve(req)
        case WResolve(_) => WConnect(req, thread)
        case WConnect(_, _) => WRead(req, thread)
        case WRead(_, _) => if req.entry.Some? then WPendingAgain(req, thread) else WStartTurn(req, thread)
        case _ => WStartTurn(req, thread);
      OnwardEffect(at, req, thread, o, to);
      var rest := OnwardDelivers(WakeAt(at, to), req, thread);
      steps := [WakeStep(o)] + rest;
      assert steps[1..] == rest;
    }
  }

  /** Awaits that are left before the turn. */
  function Left(pc: WakePc): nat {
    match pc
    case WActive(_) => 6
    case WPending(_) => 5
    case WResolve(_) => 4
    case WConnect(_, _) => 3
    case WRead(_, _) => 2
    case WPendingAgain(_, _) => 1
    case _ => 0
  }

  /** Undisturbed, a wake of an unread entry over an idle thread ends in a delivered turn. */
  lemma WakeDelivers(s: State, req: Request, thread: Thread) returns (steps: seq<Step>)
    requires Good(s) && !s.per.flag && s.per.queue == [] && !s.inject && Enabled(s, PushWake(req))
    requires WakeKey(thread, req.identity) !in s.delivered
    ensures Legal(s, steps)
    ensures
      var t := Exec(s, steps);
      && t.lastDeliveredAt == Some(s.now) && WakeKey(thread, req.identity) in t.delivered
      && !t.inject && !t.deferred && t.owed == {} && t.drain == s.drain
  {
    var t := Do(s, PushWake(req));
    assert (s.per.queue + [req])[0] == req;
    var rest := OnwardDelivers(t, req, thread);
    steps := [PushWake(req)] + rest;
    assert steps[1..] == rest;
  }

  lemma ExecCons(s: State, step: Step, rest: seq<Step>)
    requires Enabled(s, step) && Legal(Do(s, step), rest)
    ensures Legal(s, [step] + rest) && Exec(s, [step] + rest) == Exec(Do(s, step), rest)
  {
    assert ([step] + rest)[1..] == rest;
  }

  /** Phases of the retry loop inside the lock that are left before its turn. */
  function RetryLeft(pc: RetryPc): nat {
    match pc
    case RSleeping => 8
    case RActive => 7
    case RPrune(_, _) => 6
    case RResolve => 5
    case RConnect => 4
    case RRead => 3
    case RPruneAgain(_, _) => 2
    case _ => 1
  }

  function Unasked(s: State): set<EntryId> {
    match s.drain.pc
    case RPrune(_, visited) => s.drain.ids - visited
    case RPruneAgain(_, visited) => s.drain.ids - visited
    case _ => {}
  }

  predicate Asks(s: State) {
    match s.drain.pc
    case RPrune(e, visited) => e in s.drain.ids && e !in visited
    case RPruneAgain(e, visited) => e in s.drain.ids && e !in visited
    case _ => true
  }

  lemma PickNext(ids: set<EntryId>, visited: set<EntryId>) returns (next: Option<EntryId>)
    ensures NextToAsk(ids, visited, next)
  {
    if e :| e in ids && e !in visited { next := Some(e); } else { next := None; }
  }

  /** Undisturbed, a retry loop with work left delivers it over an idle thread. */
  lemma {:induction false} RetryDelivers(s: State) returns (steps: seq<Step>)
    requires Good(s) && (s.drain.pc.RSleeping? || RetryHolds(s)) && (s.drain.pc.RSleeping? ==> !s.inject)
    requires (s.drain.ids != {} || s.drain.unscoped) && Asks(s)
    ensures Legal(s, steps)
    ensures
      var t := Exec(s, steps);
      && t.lastDeliveredAt == Some(s.now) && !t.inject && !t.deferred && t.owed == {}
      && t.drain.ids == {} && !t.drain.unscoped && t.drain.pc.RFinally?
    decreases RetryLeft(s.drain.pc), |Unasked(s)|
  {
    var o := match s.drain.pc
      case RSleeping => Done
      case RConnect => Done
      case RStartTurn => Done
      case RRead => ThreadIdle
      case RActive => Something(0)
      case RResolve => Something(0)
      case _ => Answer(true);
    var asked := AskFrom(s, o);
    var next := PickNext(asked.0, asked.1);
    var step := RetryStep(o, next);
    var t := Do(s, step);
    StepKeeps(s, step);
    var rest := [];
    if !s.drain.pc.RStartTurn? {
      RetryMovesOn(s, o, next);
      rest := RetryDelivers(t);
    }
    ExecCons(s, step, rest);
    steps := [step] + rest;
  }

  lemma RetryMovesOn(s: State, o: Outcome, next: Option<EntryId>)
    requires Good(s) && Enabled(s, RetryStep(o, next)) && Asks(s) && !s.drain.pc.RStartTurn?
    requires (s.drain.ids != {} || s.drain.unscoped) && (s.drain.pc.RSleeping? ==> !s.inject)
    requires !o.Throws? && !o.Nothing? && !o.ThreadBusy? && o != Answer(false)
    ensures
      var t := Do(s, RetryStep(o, next));
      && t.drain.ids == s.drain.ids && t.drain.unscoped == s.drain.unscoped && t.now == s.now && RetryHolds(t) && Asks(t)
      && (RetryLeft(t.drain.pc) < RetryLeft(s.drain.pc) ||
          (RetryLeft(t.drain.pc) == RetryLeft(s.drain.pc) && |Unasked(t)| < |Unasked(s)|))
  {
    var t := Do(s, RetryStep(o, next));
    if RetryLeft(t.drain.pc) == RetryLeft(s.drain.pc) {
      assert Unasked(t) == Unasked(s) - {s.drain.pc.asked};
    }
  }

  /** Undisturbed, a heartbeat over unread work and an idle thread delivers it, and one over none clears the marker. */
  lemma {:induction false} HeartbeatDelivers(s: State) returns (steps: seq<Step>)
    requires Good(s) && HeartbeatHolds(s)
    ensures Legal(s, steps)
    ensures
      var t := Exec(s, steps);
      var works := if s.beat.pc.HActive? || s.beat.pc.HQuery? then s.unread != {} else s.beat.pc != HQueried(false);
      && t.beat.pc.HIdle? && !t.inject && !t.deferred
      && t.lastDeliveredAt == (if works then Some(s.now) else s.lastDeliveredAt)
    decreases HeartbeatLeft(s.beat.pc)
  {
    var o := match s.beat.pc
      case HActive => Something(0)
      case HResolve => Something(0)
      case HRead => ThreadIdle
      case _ => Done;
    var step := HeartbeatStep(o);
    var t := Do(s, step);
    StepKeeps(s, step);
    var rest := [];
    if HeartbeatHolds(t) { rest := HeartbeatDelivers(t); }
    ExecCons(s, step, rest);
    steps := [step] + rest;
  }

  function HeartbeatLeft(pc: HeartbeatPc): nat {
    match pc
    case HActive => 7
    case HQuery => 6
    case HQueried(_) => 5
    case HResolve => 4
    case HConnect => 3
    case HRead => 2
    case HStartTurn => 1
    case HIdle => 0
  }

  predicate RetrySameOrStarted(s: State, t: State) {
    t.drain.pc == s.drain.pc || (s.drain.pc.RIdle? && t.drain.pc.RSleeping?)
  }

  lemma ScheduleFrame(s: State, entry: Option<EntryId>)
    requires s.drain.flag <==> !s.drain.pc.RIdle?
    ensures
      var t := Schedule(s, entry);
      && RetrySameOrStarted(s, t) && t.per.pc == s.per.pc && t.beat.pc == s.beat.pc
      && t.per.queue == s.per.queue && t.per.flag == s.per.flag
  {
  }

  lemma PushFrame(s: State, req: Request)
    requires LockInv(s)
    ensures
      var t := Push(s, req);
      && RetrySameOrStarted(s, t) && t.beat.pc == s.beat.pc && t.per.flag
      && (t.per.pc != s.per.pc ==> s.per.pc.WIdle? && |t.per.queue| == |s.per.queue|)
      && !t.per.pc.WIdle? && (t.per.pc.WFinally? ==> s.per.pc.WFinally?)
  {
    if !s.per.flag {
      var all := s.per.queue + [req];
      ScheduleFrame(s.(per := s.per.(queue := all[1..], flag := true)), all[0].entry);
    }
  }

  lemma WakeFrame(s: State, o: Outcome)
    requires LockInv(s) && WakeAwaiting(s.per.pc) && WakeOutcome(s, o)
    ensures
      var t := WakeResumes(s, o);
      && RetrySameOrStarted(s, t) && t.beat.pc == s.beat.pc
      && t.per.queue == s.per.queue && t.per.flag == s.per.flag && !t.per.pc.WIdle? && !t.per.pc.WFinally?
  {
    ScheduleFrame(s, s.per.pc.req.entry);
    ScheduleFrame(s.(deferred := true), s.per.pc.req.entry);
    match s.per.pc
    case WResolve(_) =>
    case WRead(_, _) =>
    case _ =>
  }

  lemma WakeLoopFrame(s: State)
    requires LockInv(s) && s.per.pc.WBetween?
    ensures
      var t := WakeLoops(s);
      && RetrySameOrStarted(s, t) && t.beat.pc == s.beat.pc && t.per.flag
      && !t.per.pc.WIdle? && (t.per.pc.WFinally? ==> t.per.queue == [])
  {
    if s.per.queue != [] {
      ScheduleFrame(s.(per := s.per.(queue := s.per.queue[1..])), s.per.queue[0].entry);
    }
  }

  /** The retry loop never touches the per-entry queue nor the heartbeat. */
  lemma RetryFrame(s: State, o: Outcome, next: Option<EntryId>)
    requires RetryOutcome(s, o)
    ensures var t := RetryResumes(s, o, next); t.per == s.per && t.beat == s.beat
  {
  }

  /** The heartbeat never touches the per-entry queue nor the retry loop. */
  lemma HeartbeatFrame(s: State, o: Outcome)
    requires HeartbeatOutcome(s, o)
    ensures var t := HeartbeatResumes(s, o); t.per == s.per && t.drain == s.drain
  {
  }

  lemma StepFrame(s: State, step: Step)
    requires LockInv(s) && Enabled(s, step)
    ensures
      var t := Do(s, step);
      && (!step.RetryStep? && !step.RetrySettle? ==> RetrySameOrStarted(s, t))
      && (!step.WakeStep? && !step.WakeLoop? && !step.WakeSettle? && t.per.pc != s.per.pc ==> s.per.pc.WIdle?)
      && (!step.HeartbeatStep? && t.beat.pc != s.beat.pc ==> s.beat.pc.HIdle?)
  {
    match step
    case PushWake(req) => PushFrame(s, req);
    case WakeStep(o) => WakeFrame(s, o);
    case WakeLoop => WakeLoopFrame(s);
    case RetryStep(o, next) => RetryFrame(s, o, next);
    case HeartbeatStep(o) => HeartbeatFrame(s, o);
    case _ =>
  }

  /** A loop is never started over a live one: other paths touch the loop and the queue drain only when idle. */
  lemma OneLoopAtATime(steps: seq<Step>, step: Step)
    requires Legal(INIT, steps) && Enabled(Exec(INIT, steps), step)
    ensures
      var s := Exec(INIT, steps);
      var t := Do(s, step);
      && (!step.RetryStep? && !step.RetrySettle? ==> RetrySameOrStarted(s, t))
      && (!step.WakeStep? && !step.WakeLoop? && !step.WakeSettle? && t.per.pc != s.per.pc ==> s.per.pc.WIdle?)
      && (!step.HeartbeatStep? && t.beat.pc != s.beat.pc ==> s.beat.pc.HIdle?)
  {
    RunKeepsGood(INIT, steps);
    StepFrame(Exec(INIT, steps), step);
  }

  /**
   * Every scoped entry handed to the retry drain since the last completed turn
   * shows in a live signal while it is unread, at every point of a run, if and
   * only if no empty heartbeat answer arrives while such an entry is retried by
   * nobody.
   */
  lemma DeferralsShowIff(steps: seq<Step>)
    requires Legal(INIT, steps)
    ensures AlwaysShows(INIT, steps) <==> NeverCleared(INIT, steps)
  {
    RunShowsIff(INIT, steps);
  }

  /**
   * Honest health: in such a run, health is true only when no scoped entry
   * whose wake was deferred or failed since the last completed turn is unread.
   */
  lemma HealthIsHonest(steps: seq<Step>, armed: Option<bool>)
    requires Legal(INIT, steps) && NeverCleared(INIT, steps)
    ensures
      var s := Exec(INIT, steps);
      Healthy(armed, s) == Some(true) ==> s.owed * s.unread == {}
  {
    RunShowsIff(INIT, steps);
  }

  lemma {:induction false} ExecSnoc(s: State, steps: seq<Step>, step: Step)
    requires Legal(s, steps) && Enabled(Exec(s, steps), step)
    ensures Legal(s, steps + [step]) && Exec(s, steps + [step]) == Do(Exec(s, steps), step)
    decreases |steps|
  {
    if steps == [] {
      assert steps + [step] == [step] && [step][1..] == [];
      assert Legal(Do(s, step), []);
    } else {
      ExecSnoc(Do(s, steps[0]), steps[1..], step);
      assert (steps + [step])[1..] == steps[1..] + [step];
    }
  }

  /** An unscoped wake failed; its retry loop sleeps past the maximal age. */
  lemma UnscopedRetrySleeps() returns (steps: seq<Step>)
    ensures Legal(INIT, steps)
    ensures Exec(INIT, steps) == INIT.(drain := INIT.drain.(flag := true, pc := RSleeping, unscoped := true), now := MAX_AGE_MS)
  {
    steps := [];
    ExecSnoc(INIT, steps, PushWake(Request(7, None))); steps := steps + [PushWake(Request(7, None))];
    assert [Request(7, None)][1..] == [];
    assert Exec(INIT, steps) == INIT.(inject := true, per := INIT.per.(flag := true, pc := WActive(Request(7, None))));
    ExecSnoc(INIT, steps, WakeStep(Throws)); steps := steps + [WakeStep(Throws)];
    assert Exec(INIT, steps) == INIT.(per := INIT.per.(flag := true, pc := WBetween), drain := INIT.drain.(flag := true, pc := RSleeping, unscoped := true));
    ExecSnoc(INIT, steps, WakeLoop); steps := steps + [WakeLoop];
    ExecSnoc(INIT, steps, WakeSettle); steps := steps + [WakeSettle];
    ExecSnoc(INIT, steps, Clock(MAX_AGE_MS)); steps := steps + [Clock(MAX_AGE_MS)];
  }

  /** A heartbeat then reads an empty unread state. */
  lemma EmptyAnswerOnItsWay() returns (steps: seq<Step>)
    ensures Legal(INIT, steps)
    ensures Exec(INIT, steps) == INIT.(inject := true, drain := INIT.drain.(flag := true, pc := RSleeping, unscoped := true), beat := INIT.beat.(flag := true, pc := HQueried(false)), now := MAX_AGE_MS)
  {
    steps := UnscopedRetrySleeps();
    ExecSnoc(INIT, steps, HeartbeatTick(true)); steps := steps + [HeartbeatTick(true)];
    ExecSnoc(INIT, steps, HeartbeatStep(Something(0))); steps := steps + [HeartbeatStep(Something(0))];
    ExecSnoc(INIT, steps, HeartbeatStep(Done)); steps := steps + [HeartbeatStep(Done)];
  }

  /**
   * The condition is needed.  An entry deferred after the heartbeat's
   * empty query, whose loop then gives up before the answer arrives, is
   * forgotten: the stale answer clears the only marker it had left.
   */
  lemma StaleAnswerHidesAnEntry() returns (steps: seq<Step>)
    ensures Legal(INIT, steps)
    ensures
      var s := Exec(INIT, steps);
      Healthy(Some(true), s) == Some(true) && 1 in s.owed && 1 in s.unread
  {
    steps := EmptyAnswerOnItsWay();
    ExecSnoc(INIT, steps, Arrive(1)); steps := steps + [Arrive(1)];
    ExecSnoc(INIT, steps, PushWake(Request(8, Some(1)))); steps := steps + [PushWake(Request(8, Some(1)))];
    assert Exec(INIT, steps).drain.ids == {1};
    ExecSnoc(INIT, steps, RetryStep(Done, Some(1))); steps := steps + [RetryStep(Done, Some(1))];
    ExecSnoc(INIT, steps, RetrySettle); steps := steps + [RetrySettle];
    ExecSnoc(INIT, steps, HeartbeatStep(Done)); steps := steps + [HeartbeatStep(Done)];
  }

  // ---- The gap between a finished loop and its `finally` ----

  /** A wake pushed after the queue drain saw an empty queue and before its flag is cleared. */
  predicate PushInGap(s: State, step: Step) { s.per.pc.WFinally? && step.PushWake? }

  predicate NoPushInGap(s: State, steps: seq<Step>)
    requires Legal(s, steps)
    decreases |steps|
  {
    steps != [] ==> !PushInGap(s, steps[0]) && NoPushInGap(Do(s, steps[0]), steps[1..])
  }

  /** A queued request has a drainer. */
  predicate Drained(s: State) { s.per.queue != [] ==> s.per.flag && !s.per.pc.WFinally? && !s.per.pc.WIdle? }

  ghost predicate AlwaysDrained(s: State, steps: seq<Step>)
    requires Legal(s, steps)
    decreases |steps|
  {
    Drained(s) && (steps != [] ==> AlwaysDrained(Do(s, steps[0]), steps[1..]))
  }

  /** A queued wake has a running drainer at every point of a run, if and only if none is pushed in the gap. */
  lemma {:induction false} QueueKeepsItsDrainerIff(s: State, steps: seq<Step>)
    requires Good(s) && Drained(s) && Legal(s, steps)
    ensures AlwaysDrained(s, steps) <==> NoPushInGap(s, steps)
    decreases |steps|
  {
    if steps != [] {
      StepKeeps(s, steps[0]);
      StepDrainedIff(s, steps[0]);
      if Drained(Do(s, steps[0])) { QueueKeepsItsDrainerIff(Do(s, steps[0]), steps[1..]); }
    }
  }

  lemma StepDrainedIff(s: State, step: Step)
    requires LockInv(s) && Drained(s) && Enabled(s, step)
    ensures Drained(Do(s, step)) <==> !PushInGap(s, step)
  {
    match step
    case PushWake(req) => PushFrame(s, req);
    case WakeStep(o) => WakeFrame(s, o);
    case WakeLoop => WakeLoopFrame(s);
    case RetryStep(o, next) => RetryFrame(s, o, next);
    case HeartbeatStep(o) => HeartbeatFrame(s, o);
    case _ =>
  }

  /** In the gap a wake is lost to the drainer: it stays queued, nobody runs, and health is true. */
  lemma WakePushedInGapStrands() returns (steps: seq<Step>)
    ensures Legal(INIT, steps)
    ensures
      var s := Exec(INIT, steps);
      s.per.queue == [Request(2, Some(1))] && s.per.pc.WIdle? && !s.per.flag && 1 in s.unread && Healthy(Some(true), s) == Some(true)
  {
    steps := [];
    ExecSnoc(INIT, steps, Arrive(1)); steps := steps + [Arrive(1)];
    ExecSnoc(INIT, steps, PushWake(Request(1, None))); steps := steps + [PushWake(Request(1, None))];
    assert [Request(1, None)][1..] == [];
    ExecSnoc(INIT, steps, WakeStep(Nothing)); steps := steps + [WakeStep(Nothing)];
    ExecSnoc(INIT, steps, WakeLoop); steps := steps + [WakeLoop];
    ExecSnoc(INIT, steps, PushWake(Request(2, Some(1)))); steps := steps + [PushWake(Request(2, Some(1)))];
    assert Exec(INIT, steps).per.queue == [Request(2, Some(1))];
    ExecSnoc(INIT, steps, WakeSettle); steps := steps + [WakeSettle];
  }

  /** The loop of an unscoped wake has aged out, and is about to clear its flag. */
  lemma RetryIsFinishing() returns (steps: seq<Step>)
    ensures Legal(INIT, steps)
    ensures Exec(INIT, steps) == INIT.(
      drain := Drain(true, RFinally, 1, 0, {}, false), deferred := true, now := MAX_AGE_MS, arrived := {1}, unread := {1})
  {
    steps := UnscopedRetrySleeps();
    ExecSnoc(INIT, steps, Arrive(1)); steps := steps + [Arrive(1)];
    ExecSnoc(INIT, steps, RetryStep(Done, None)); steps := steps + [RetryStep(Done, None)];
    ExecSnoc(INIT, steps, RetryStep(Nothing, None)); steps := steps + [RetryStep(Nothing, None)];
  }

  /** A wake that fails in that gap leaves its id to a loop that is over. */
  lemma OrphanedIdsAreReachable() returns (steps: seq<Step>)
    ensures Legal(INIT, steps)
    ensures
      var s := Exec(INIT, steps);
      s.drain.ids == {1} && s.drain.pc.RIdle? && !s.drain.flag && s.per.pc.WIdle? && s.per.queue == []
  {
    steps := RetryIsFinishing();
    var s := Exec(INIT, steps);
    ExecSnoc(INIT, steps, PushWake(Request(8, Some(1)))); steps := steps + [PushWake(Request(8, Some(1)))];
    assert [Request(8, Some(1))][1..] == [];
    assert Exec(INIT, steps) == s.(inject := true, per := PerEntry([], true, WActive(Request(8, Some(1)))));
    ExecSnoc(INIT, steps, WakeStep(Throws)); steps := steps + [WakeStep(Throws)];
    assert Exec(INIT, steps).drain.ids == {1};
    ExecSnoc(INIT, steps, WakeLoop); steps := steps + [WakeLoop];
    ExecSnoc(INIT, steps, WakeSettle); steps := steps + [WakeSettle];
    ExecSnoc(INIT, steps, RetrySettle); steps := steps + [RetrySettle];
  }

  /**
   * The same gap of the retry loop leaves ids that no loop owns.  From such a
   * state, and until another wake is pushed, nothing ever clears them: health
   * stays degraded even after every entry is read or a turn is delivered.
   */
  lemma {:induction false} OrphanedIdsStayDegraded(s: State, steps: seq<Step>)
    requires s.drain.ids != {} && s.drain.pc.RIdle? && !s.drain.flag && s.per.pc.WIdle? && s.per.queue == []
    requires Legal(s, steps) && forall step :: step in steps ==> !step.PushWake?
    ensures Exec(s, steps).drain.ids == s.drain.ids
    ensures Healthy(Some(true), Exec(s, steps)) == None
    decreases |steps|
  {
    if steps != [] {
      assert !steps[0].PushWake?;
      if steps[0].HeartbeatStep? {
        HeartbeatFrame(s, steps[0].o);
      }
      OrphanedIdsStayDegraded(Do(s, steps[0]), steps[1..]);
    }
  }
}
