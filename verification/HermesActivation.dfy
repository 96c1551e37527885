/**
 * Activation generations of the Hermes plugin (src/hermes-plugin-install.ts):
 * install, update and uninstall runs, interleaved at every read, write and
 * Hermes command, against a gateway that others may start, stop or restart.
 * Every step takes one tick of the clock.
 */
module HermesActivation {
  import opened Common

  type Id = nat
  type Pid = nat
  type RunId = nat

  /** One write of Borg's managed state; `digest` is `None` for an uninstall. */
  datatype Generation = Generation(id: Id, digest: Option<nat>, gatewayPid: Option<Pid>)

  datatype Record = Record(desired: Generation, activated: Option<Id>, desktopReload: bool)

  predicate Pending(r: Option<Record>) { r.None? || r.value.activated != Some(r.value.desired.id) }

  datatype Gateway =
    | Stopped
    | Manual(pid: Option<Pid>, startedAt: nat)
    | Service(pid: Option<Pid>, startedAt: nat)
    | Multiplexed
    | Unreadable

  /** What made a host step complete. */
  datatype Evidence =
    | NotRunning(at: nat)
    | RestartedByHand(startedAt: nat)
    | RestartedByBorg(startedAt: nat)

  /**
   * The content is still to be written, or was in place at `at`, written by this
   * run or found so when it read; `content` and `gateway` are what was there then.
   */
  datatype Place = ToApply | InPlace(at: nat, applied: bool, content: Option<nat>, gateway: Gateway)

  /** A host step that ended complete at `at`, in a run that knew the content to be in place. */
  datatype Confirmation = Confirmation(evidence: Evidence, at: nat, place: Place)

  /** What a run found it has to do. */
  datatype Todo = Settled(digest: Option<nat>) | Change(digest: Option<nat>, reload: bool)

  datatype Phase =
    | Reading
    | Sampling(previous: Option<Record>, digest: Option<nat>, reload: bool, place: Place)
    | Writing(record: Record, previous: Option<Record>, place: Place)
    | Applying(record: Record, previous: Option<Record>)
    | Undoing(previous: Option<Record>)
    | Clearing(record: Record)
    | Checking(record: Record, place: Place)
    | Restarting(record: Record, place: Place, before: Option<Pid>, seenAt: nat)
    | Rechecking(record: Record, place: Place, before: Option<Pid>, seenAt: nat)
    | Confirming(record: Record)

  /** What has happened to each generation. */
  datatype Log = Log(
    used: set<Id>, sampledAt: map<Id, nat>, recordedAt: map<Id, nat>, appliedAt: map<Id, nat>, confirmed: map<Id, Confirmation>)

  /** `content` is the digest of what is in place, if it is Borg's. */
  datatype World = World(clock: nat, stored: Option<Record>, gateway: Gateway, content: Option<nat>, log: Log)

  datatype State = State(world: World, runs: map<RunId, Phase>)

  /** How one step of a run ends; the choices are the outcomes of reads and commands. */
  datatype Choice =
    | ReadRecord(todo: Todo)
    | Sample(id: Id, statusOk: bool)
    | WriteRecord
    | ApplyEnds(ok: bool, allReversed: bool)
    | WriteBack
    | NoRestart
    | Check(statusOk: bool)
    | RestartReturns(ok: bool)
    | Recheck(statusOk: bool)
    | Confirm
    | Crash

  function GatewayPid(g: Gateway): Option<Pid> {
    if g.Manual? || g.Service? then g.pid else None
  }

  function Observed(w: World, statusOk: bool): Gateway { if statusOk then w.gateway else Unreadable }

  predicate Possible(w: World, p: Phase, c: Choice) {
    match c
    case ReadRecord(todo) => p.Reading? && (todo.Settled? ==> todo.digest == w.content)
    case Sample(id, _) => p.Sampling? && id !in w.log.used
    case WriteRecord => p.Writing?
    case ApplyEnds(_, _) => p.Applying?
    case WriteBack => p.Undoing? || p.Clearing?
    case NoRestart => p.Checking?
    case Check(_) => p.Checking?
    case RestartReturns(_) => p.Restarting?
    case Recheck(_) => p.Rechecking?
    case Confirm => p.Confirming?
    case Crash => true
  }

  /** The run's next phase (`None`: it ended), what it stored, and what it added to the log. */
  datatype Effect = Effect(next: Option<Phase>, stored: Option<Record>, content: Option<nat>, log: Log)

  function Just(w: World, next: Option<Phase>): Effect { Effect(next, w.stored, w.content, w.log) }

  /** Content that a run finds in place, or has just put there. */
  function Found(w: World, applied: bool, content: Option<nat>): Place { InPlace(w.clock, applied, content, w.gateway) }

  /** After reading the record: nothing to do, retry the same write, or start a generation. */
  function AfterRead(w: World, todo: Todo): Option<Phase> {
    var previous := w.stored;
    match todo
    case Change(digest, reload) => Some(Sampling(previous, digest, reload, ToApply))
    case Settled(digest) =>
      var same := previous.Some? && previous.value.desired.digest == digest;
      if digest.None? && previous.None? then None
      else if digest.Some? && same && !Pending(previous) then
        if previous.value.desktopReload then Some(Clearing(previous.value.(desktopReload := false))) else None
      else if same then
        Some(Writing(if digest.Some? then previous.value.(desktopReload := false) else previous.value, previous, Found(w, false, digest)))
      else Some(Sampling(previous, digest, false, Found(w, false, digest)))
  }

  /** A fresh id and the gateway identity sampled now; the earlier confirmation is carried along. */
  function AfterSample(w: World, p: Phase, id: Id, statusOk: bool): Effect
    requires p.Sampling?
  {
    var activated := if p.previous.Some? then p.previous.value.activated else None;
    var record := Record(Generation(id, p.digest, GatewayPid(Observed(w, statusOk))), activated, p.reload);
    Effect(Some(Writing(record, p.previous, p.place)), w.stored, w.content,
      w.log.(used := w.log.used + {id}, sampledAt := w.log.sampledAt[id := w.clock]))
  }

  function AfterWrite(w: World, p: Phase): Effect
    requires p.Writing?
  {
    var id := p.record.desired.id;
    Effect(Some(if p.place.ToApply? then Applying(p.record, p.previous) else Checking(p.record, p.place)), Some(p.record), w.content,
      if id in w.log.recordedAt then w.log else w.log.(recordedAt := w.log.recordedAt[id := w.clock]))
  }

  function AfterApply(w: World, p: Phase, ok: bool, allReversed: bool): Effect
    requires p.Applying?
  {
    if ok then
      Effect(Some(Checking(p.record, Found(w, true, p.record.desired.digest))), w.stored, p.record.desired.digest, w.log.(appliedAt := w.log.appliedAt[p.record.desired.id := w.clock]))
    else Just(w, if allReversed then Some(Undoing(p.previous)) else None)
  }

  function Complete(w: World, record: Record, place: Place, e: Evidence): Effect {
    Effect(Some(Confirming(record)), w.stored, w.content,
      w.log.(confirmed := w.log.confirmed[record.desired.id := Confirmation(e, w.clock, place)]))
  }

  /** The host step: which gateway states count as loaded, and which are restarted. */
  function AfterCheck(w: World, record: Record, place: Place, g: Gateway): Effect {
    match g
    case Stopped => Complete(w, record, place, NotRunning(w.clock))
    case Manual(pid, startedAt) =>
      if record.desired.gatewayPid.Some? && pid.Some? && pid != record.desired.gatewayPid
      then Complete(w, record, place, RestartedByHand(startedAt))
      else Just(w, None)
    case Service(pid, _) => Just(w, Some(Restarting(record, place, pid, w.clock)))
    case Multiplexed => Just(w, None)
    case Unreadable => Just(w, None)
  }

  function AfterRecheck(w: World, p: Phase, g: Gateway): Effect
    requires p.Rechecking?
  {
    if g.Service? && p.before.Some? && g.pid.Some? && g.pid != p.before
    then Complete(w, p.record, p.place, RestartedByBorg(g.startedAt))
    else Just(w, None)
  }

  /** A confirmed uninstall clears the record; any other confirmation names its own generation. */
  function AfterConfirm(w: World, record: Record): Effect {
    Effect(None, if record.desired.digest.None? then None else Some(record.(activated := Some(record.desired.id))), w.content, w.log)
  }

  function React(w: World, p: Phase, c: Choice): Effect
    requires Possible(w, p, c)
  {
    match c
    case ReadRecord(todo) => Just(w, AfterRead(w, todo))
    case Sample(id, statusOk) => AfterSample(w, p, id, statusOk)
    case WriteRecord => AfterWrite(w, p)
    case ApplyEnds(ok, allReversed) => AfterApply(w, p, ok, allReversed)
    case WriteBack => Effect(None, if p.Undoing? then p.previous else Some(p.record), w.content, w.log)
    case NoRestart => Just(w, None)
    case Check(statusOk) => AfterCheck(w, p.record, p.place, Observed(w, statusOk))
    case RestartReturns(ok) => Just(w, if ok then Some(Rechecking(p.record, p.place, p.before, p.seenAt)) else None)
    case Recheck(statusOk) => AfterRecheck(w, p, Observed(w, statusOk))
    case Confirm => AfterConfirm(w, p.record)
    case Crash => Just(w, None)
  }

  datatype Step =
    | Launch(n: RunId)
    | Move(n: RunId, c: Choice)
    | GatewayChanges(g: Gateway)
    | ContentChanges(content: Option<nat>)

  predicate Enabled(s: State, step: Step) {
    match step
    case Launch(n) => n !in s.runs
    case Move(n, c) => n in s.runs && Possible(s.world, s.runs[n], c)
    case GatewayChanges(g) => g.Manual? || g.Service? ==> g.startedAt == s.world.clock + 1
    case ContentChanges(_) => true
  }

  function Do(s: State, step: Step): State
    requires Enabled(s, step)
  {
    var w := s.world.(clock := s.world.clock + 1);
    match step
    case Launch(n) => State(w, s.runs[n := Reading])
    case Move(n, c) =>
      var e := React(s.world, s.runs[n], c);
      State(w.(stored := e.stored, content := e.content, log := e.log), if e.next.Some? then s.runs[n := e.next.value] else s.runs - {n})
    case GatewayChanges(g) => State(w.(gateway := g), s.runs)
    case ContentChanges(content) => State(w.(content := content), s.runs)
  }

  // ---- The invariant ----

  /** A gateway that was already running at `at` is the one seen then, with the pid seen then. */
  predicate SeenThen(g: Gateway, at: nat, pid: Option<Pid>) {
    pid.Some? && (g.Manual? || g.Service?) && g.startedAt <= at ==> g.pid == pid
  }

  /** A record never claims more than was confirmed for that very generation. */
  predicate Good(w: World, r: Record) {
    && r.desired.id in w.log.used && (r.activated.Some? ==> r.activated.value in w.log.used)
    && (!Pending(Some(r)) ==> r.desired.id in w.log.confirmed)
    && r.desired.id in w.log.sampledAt
    && SeenThen(w.gateway, w.log.sampledAt[r.desired.id], r.desired.gatewayPid)
  }

  predicate Written(w: World, r: Record) { Good(w, r) && r.desired.id in w.log.recordedAt }

  predicate StoredOk(w: World, r: Option<Record>) { r.Some? ==> Written(w, r.value) }

  predicate Process(g: Gateway) { g.Manual? || g.Service? }

  /** The gateway process that runs is the one that ran at `at`, or was started since. */
  predicate SinceThen(g: Gateway, at: nat, seen: Gateway) {
    && (Process(seen) ==> seen.startedAt <= at)
    && (Process(g) ==> g.startedAt > at || g == seen)
  }

  /** What a run knows about its generation's content. */
  predicate PlaceOk(w: World, desired: Generation, place: Place) {
    place.InPlace? ==>
      && place.at <= w.clock && place.content == desired.digest
      && SinceThen(w.gateway, place.at, place.gateway)
      && (place.applied ==>
        && desired.id in w.log.appliedAt && w.log.appliedAt[desired.id] == place.at
        && desired.id in w.log.recordedAt && w.log.recordedAt[desired.id] <= place.at)
  }

  predicate HostOk(w: World, record: Record, place: Place) {
    Written(w, record) && place.InPlace? && PlaceOk(w, record.desired, place)
  }

  predicate RestartOk(w: World, record: Record, place: Place, before: Option<Pid>, seenAt: nat) {
    && HostOk(w, record, place)
    && SeenThen(w.gateway, seenAt, before)
    && w.log.recordedAt[record.desired.id] <= seenAt <= w.clock
    && place.at <= seenAt
  }

  predicate PhaseOk(w: World, p: Phase) {
    match p
    case Reading => true
    case Sampling(previous, digest, _, place) => StoredOk(w, previous) && FoundOk(w, digest, place)
    case Writing(record, previous, place) => Good(w, record) && StoredOk(w, previous) && FoundOk(w, record.desired.digest, place)
    case Applying(record, previous) => Written(w, record) && StoredOk(w, previous)
    case Undoing(previous) => StoredOk(w, previous)
    case Clearing(record) => Written(w, record)
    case Checking(record, place) => HostOk(w, record, place)
    case Restarting(record, place, before, seenAt) => RestartOk(w, record, place, before, seenAt)
    case Rechecking(record, place, before, seenAt) => RestartOk(w, record, place, before, seenAt)
    case Confirming(record) => Written(w, record) && record.desired.id in w.log.confirmed
  }

  /** Before a run has written anything, content can only have been found in place. */
  predicate FoundOk(w: World, digest: Option<nat>, place: Place) {
    place.InPlace? ==> !place.applied && place.at <= w.clock && place.content == digest && SinceThen(w.gateway, place.at, place.gateway)
  }

  /** Any gateway process that runs after this evidence was started at this time or later. */
  function LoadedSince(e: Evidence): nat {
    match e
    case NotRunning(at) => at + 1
    case RestartedByHand(startedAt) => startedAt
    case RestartedByBorg(startedAt) => startedAt
  }

  /** Only a hand restart can be older than the record, or than the moment the content was known to be in place. */
  predicate EvidenceOk(w: World, id: Id)
    requires id in w.log.confirmed
  {
    var c := w.log.confirmed[id];
    && id in w.log.sampledAt && id in w.log.recordedAt
    && w.log.sampledAt[id] < w.log.recordedAt[id] <= c.at <= w.clock
    && w.log.sampledAt[id] < LoadedSince(c.evidence)
    && c.place.InPlace? && c.place.at <= c.at
    && (c.place.applied ==>
      id in w.log.appliedAt && w.log.appliedAt[id] == c.place.at && w.log.recordedAt[id] <= c.place.at)
    && (Process(c.place.gateway) ==> c.place.gateway.startedAt <= c.place.at)
    && (c.evidence.RestartedByHand? && c.evidence.startedAt <= c.place.at ==>
      Process(c.place.gateway) && c.place.gateway.startedAt == c.evidence.startedAt)
    && (!c.evidence.RestartedByHand? ==>
      w.log.recordedAt[id] < LoadedSince(c.evidence) && c.place.at < LoadedSince(c.evidence))
    && (w.gateway.Manual? || w.gateway.Service? ==> LoadedSince(c.evidence) <= w.gateway.startedAt)
    && LoadedSince(c.evidence) <= w.clock
  }

  predicate LogOk(w: World) {
    && (forall id :: id in w.log.confirmed ==> id in w.log.used && EvidenceOk(w, id))
    && (forall id :: id in w.log.sampledAt ==> id in w.log.used && w.log.sampledAt[id] < w.clock)
    && (forall id :: id in w.log.recordedAt ==>
      id in w.log.sampledAt && w.log.sampledAt[id] < w.log.recordedAt[id] < w.clock)
    && (forall id :: id in w.log.appliedAt ==> id in w.log.recordedAt)
  }

  predicate StartedBefore(g: Gateway, clock: nat) { g.Manual? || g.Service? ==> g.startedAt <= clock }

  predicate WorldOk(w: World) {
    StoredOk(w, w.stored) && LogOk(w) && StartedBefore(w.gateway, w.clock)
  }

  /** The run that will write the generation's content; every other run of it found the content in place. */
  predicate Applier(p: Phase, id: Id) {
    ((p.Writing? && p.place.ToApply?) || p.Applying?) && p.record.desired.id == id
  }

  predicate NotApplied(w: World, p: Phase) { forall id :: Applier(p, id) ==> id !in w.log.appliedAt }

  ghost predicate AppliersOk(s: State) {
    && (forall n :: n in s.runs ==> NotApplied(s.world, s.runs[n]))
    && (forall m, n, id :: m in s.runs && n in s.runs && Applier(s.runs[m], id) && Applier(s.runs[n], id) ==> m == n)
  }

  ghost predicate Inv(s: State) {
    WorldOk(s.world) && (forall n :: n in s.runs ==> PhaseOk(s.world, s.runs[n])) && AppliersOk(s)
  }

  predicate SameAt(a: map<Id, nat>, b: map<Id, nat>) { forall id :: id in a ==> id in b && b[id] == a[id] }

  /** What no step takes away. */
  predicate Grows(v: World, w: World) {
    && v.log.used <= w.log.used
    && v.log.confirmed.Keys <= w.log.confirmed.Keys
    && SameAt(v.log.sampledAt, w.log.sampledAt)
    && SameAt(v.log.recordedAt, w.log.recordedAt)
    && SameAt(v.log.appliedAt, w.log.appliedAt)
    && v.clock <= w.clock
    && (w.gateway == v.gateway || (w.gateway.Manual? || w.gateway.Service? ==> w.gateway.startedAt > v.clock))
  }

  /** The world after a run's step. */
  function Next(w: World, e: Effect): World { w.(clock := w.clock + 1, stored := e.stored, content := e.content, log := e.log) }

  lemma GoodKept(v: World, w: World, r: Record)
    requires WorldOk(v) && Grows(v, w) && Good(v, r)
    ensures Good(w, r)
    ensures Written(v, r) ==> Written(w, r)
  {
  }

  lemma PhaseKept(v: World, w: World, p: Phase)
    requires WorldOk(v) && Grows(v, w) && PhaseOk(v, p)
    ensures PhaseOk(w, p)
  {
    if (p.Sampling? || p.Writing? || p.Applying? || p.Undoing?) && p.previous.Some? { GoodKept(v, w, p.previous.value); }
    if !p.Reading? && !p.Sampling? && !p.Undoing? { GoodKept(v, w, p.record); }
  }

  lemma EvidenceKept(v: World, w: World, id: Id)
    requires WorldOk(v) && Grows(v, w) && id in v.log.confirmed && EvidenceOk(v, id)
    requires id in w.log.confirmed && w.log.confirmed[id] == v.log.confirmed[id]
    ensures EvidenceOk(w, id)
  {
  }

  lemma ReactGrows(w: World, p: Phase, c: Choice)
    requires WorldOk(w) && PhaseOk(w, p) && NotApplied(w, p) && Possible(w, p, c)
    ensures Grows(w, Next(w, React(w, p, c)))
  {
    if p.Applying? { assert Applier(p, p.record.desired.id); }
  }

  /** The host step's three ways to complete. */
  predicate Completes(w: World, p: Phase, c: Choice)
    requires Possible(w, p, c)
  {
    match c
    case Check(statusOk) =>
      var g := Observed(w, statusOk);
      || g.Stopped?
      || (g.Manual? && p.record.desired.gatewayPid.Some? && g.pid.Some? && g.pid != p.record.desired.gatewayPid)
    case Recheck(statusOk) =>
      var g := Observed(w, statusOk);
      g.Service? && p.before.Some? && g.pid.Some? && g.pid != p.before
    case _ => false
  }

  lemma CompletionIsEvidence(w: World, p: Phase, c: Choice)
    requires WorldOk(w) && PhaseOk(w, p) && NotApplied(w, p) && Possible(w, p, c) && Completes(w, p, c)
    ensures
      var t := Next(w, React(w, p, c));
      var id := p.record.desired.id;
      && id in t.log.confirmed && id in t.log.used && EvidenceOk(t, id)
      && forall k :: k in t.log.confirmed && k != id ==> k in w.log.confirmed && t.log.confirmed[k] == w.log.confirmed[k]
  {
  }

  lemma NoCompletionNoEvidence(w: World, p: Phase, c: Choice)
    requires Possible(w, p, c) && !Completes(w, p, c)
    ensures React(w, p, c).log.confirmed == w.log.confirmed
  {
  }

  lemma ReactKeepsTimes(w: World, p: Phase, c: Choice)
    requires WorldOk(w) && PhaseOk(w, p) && Possible(w, p, c)
    ensures
      var t := Next(w, React(w, p, c));
      && (forall id :: id in t.log.sampledAt ==> id in t.log.used && t.log.sampledAt[id] < t.clock)
      && (forall id :: id in t.log.recordedAt ==>
        id in t.log.sampledAt && t.log.sampledAt[id] < t.log.recordedAt[id] < t.clock)
      && (forall id :: id in t.log.appliedAt ==> id in t.log.recordedAt)
  {
  }

  lemma ReactKeepsLog(w: World, p: Phase, c: Choice)
    requires WorldOk(w) && PhaseOk(w, p) && NotApplied(w, p) && Possible(w, p, c)
    ensures LogOk(Next(w, React(w, p, c)))
  {
    var t := Next(w, React(w, p, c));
    ReactGrows(w, p, c);
    ReactKeepsTimes(w, p, c);
    if Completes(w, p, c) { CompletionIsEvidence(w, p, c); } else { NoCompletionNoEvidence(w, p, c); }
    forall id | id in t.log.confirmed
      ensures id in t.log.used && EvidenceOk(t, id)
    {
      if id in w.log.confirmed && t.log.confirmed[id] == w.log.confirmed[id] { EvidenceKept(w, t, id); }
    }
  }

  /** The stored record only claims what the log already knows. */
  lemma ReactKeepsStored(w: World, p: Phase, c: Choice)
    requires WorldOk(w) && PhaseOk(w, p) && NotApplied(w, p) && Possible(w, p, c)
    ensures var e := React(w, p, c); StoredOk(Next(w, e), e.stored)
  {
    var t := Next(w, React(w, p, c));
    ReactGrows(w, p, c);
    PhaseKept(w, t, p);
    if w.stored.Some? { GoodKept(w, t, w.stored.value); }
  }

  /** The host step only uses what the log already knows. */
  lemma ReactKeepsHostPhase(w: World, p: Phase, c: Choice)
    requires WorldOk(w) && PhaseOk(w, p) && NotApplied(w, p) && Possible(w, p, c)
    requires c.Check? || c.RestartReturns? || c.Recheck?
    ensures var e := React(w, p, c); e.next.Some? ==> PhaseOk(Next(w, e), e.next.value)
  {
    var t := Next(w, React(w, p, c));
    ReactGrows(w, p, c);
    PhaseKept(w, t, p);
  }

  /** The next phase only uses what the log already knows. */
  lemma ReactKeepsPhase(w: World, p: Phase, c: Choice)
    requires WorldOk(w) && PhaseOk(w, p) && NotApplied(w, p) && Possible(w, p, c)
    ensures var e := React(w, p, c); e.next.Some? ==> PhaseOk(Next(w, e), e.next.value)
  {
    if c.Check? || c.RestartReturns? || c.Recheck? {
      ReactKeepsHostPhase(w, p, c);
    } else {
      var t := Next(w, React(w, p, c));
      ReactGrows(w, p, c);
      PhaseKept(w, t, p);
      if w.stored.Some? { GoodKept(w, t, w.stored.value); }
    }
  }

  /** A step makes a run the applier only of an id it has just drawn. */
  lemma NewApplierIsFresh(w: World, p: Phase, c: Choice, id: Id)
    requires Possible(w, p, c)
    ensures
      var e := React(w, p, c);
      e.next.Some? && Applier(e.next.value, id) ==> Applier(p, id) || (c.Sample? && id == c.id)
    ensures
      id in React(w, p, c).log.appliedAt && id !in w.log.appliedAt ==> Applier(p, id) && c.ApplyEnds?
  {
  }

  lemma AppliersAreUsed(w: World, p: Phase, id: Id)
    requires PhaseOk(w, p) && Applier(p, id)
    ensures id in w.log.used
  {
  }

  lemma MoveKeepsAppliers(s: State, n: RunId, c: Choice)
    requires Inv(s) && Enabled(s, Move(n, c))
    ensures AppliersOk(Do(s, Move(n, c)))
  {
    var t := Do(s, Move(n, c));
    var p := s.runs[n];
    forall m, id | m in t.runs && Applier(t.runs[m], id)
      ensures id !in t.world.log.appliedAt
      ensures forall k :: k in t.runs && Applier(t.runs[k], id) ==> k == m
    {
      NewApplierIsFresh(s.world, p, c, id);
      forall k | k in s.runs && Applier(s.runs[k], id)
        ensures id in s.world.log.used && id !in s.world.log.appliedAt
      {
        AppliersAreUsed(s.world, s.runs[k], id);
        assert NotApplied(s.world, s.runs[k]);
      }
      assert c.Sample? && id == c.id ==> id !in s.world.log.used;
      assert id in s.world.log.appliedAt ==> id in s.world.log.used;
    }
  }

  lemma StepKeepsInv(s: State, step: Step)
    requires Inv(s) && Enabled(s, step)
    ensures Inv(Do(s, step))
  {
    var t := Do(s, step);
    if step.Move? {
      var p := s.runs[step.n];
      ReactGrows(s.world, p, step.c);
      ReactKeepsLog(s.world, p, step.c);
      ReactKeepsStored(s.world, p, step.c);
      ReactKeepsPhase(s.world, p, step.c);
      MoveKeepsAppliers(s, step.n, step.c);
      assert t.world == Next(s.world, React(s.world, p, step.c));
    } else {
      EnvironmentKeepsWorld(s, step);
    }
    assert Grows(s.world, t.world);
    if s.world.stored.Some? { GoodKept(s.world, t.world, s.world.stored.value); }
    forall n | n in s.runs
      ensures PhaseOk(t.world, s.runs[n])
    {
      PhaseKept(s.world, t.world, s.runs[n]);
    }
  }

  lemma EnvironmentKeepsWorld(s: State, step: Step)
    requires Inv(s) && Enabled(s, step) && !step.Move?
    ensures Grows(s.world, Do(s, step).world) && WorldOk(Do(s, step).world) && AppliersOk(Do(s, step))
  {
    var w, t := s.world, Do(s, step).world;
    forall id | id in w.log.confirmed ensures EvidenceOk(t, id) { EvidenceKept(w, t, id); }
    if w.stored.Some? { GoodKept(w, t, w.stored.value); }
    forall n | n in Do(s, step).runs
      ensures NotApplied(t, Do(s, step).runs[n])
    {
      assert n in s.runs && Do(s, step).runs[n] == s.runs[n] ==> NotApplied(w, s.runs[n]);
    }
  }

  predicate Legal(s: State, steps: seq<Step>)
    decreases |steps|
  {
    steps != [] ==> Enabled(s, steps[0]) && Legal(Do(s, steps[0]), steps[1..])
  }

  function Exec(s: State, steps: seq<Step>): State
    requires Legal(s, steps)
    decreases |steps|
  {
    if steps == [] then s else Exec(Do(s, steps[0]), steps[1..])
  }

  lemma {:induction false} RunKeepsInv(s: State, steps: seq<Step>)
    requires Inv(s) && Legal(s, steps)
    ensures Inv(Exec(s, steps))
    decreases |steps|
  {
    if steps != [] {
      StepKeepsInv(s, steps[0]);
      RunKeepsInv(Do(s, steps[0]), steps[1..]);
    }
  }

  /** A home without a record, with any gateway and content. */
  function Fresh(gateway: Gateway, clock: nat, content: Option<nat>): State {
    State(World(clock, None, gateway, content, Log({}, map[], map[], map[], map[])), map[])
  }

  /**
   * Activation evidence: over every interleaving of installs, updates,
   * uninstalls, failures and crashes, a stored record that is not pending was
   * confirmed for its own generation by a host step that ended after that
   * generation was recorded and its content was known to be in place; and
   * whatever gateway process runs was started no earlier than the evidence says.
   */
  lemma ActiveHasOwnEvidence(gateway: Gateway, clock: nat, content: Option<nat>, steps: seq<Step>)
    requires StartedBefore(gateway, clock) && Legal(Fresh(gateway, clock, content), steps)
    ensures
      var w := Exec(Fresh(gateway, clock, content), steps).world;
      !Pending(w.stored) ==>
        var id := w.stored.value.desired.id;
        && id in w.log.confirmed && id in w.log.recordedAt
        && var c := w.log.confirmed[id];
        && w.log.recordedAt[id] <= c.at && c.place.InPlace? && c.place.at <= c.at
        && (w.gateway.Manual? || w.gateway.Service? ==> LoadedSince(c.evidence) <= w.gateway.startedAt)
  {
    RunKeepsInv(Fresh(gateway, clock, content), steps);
  }

  /** The gateway process that the evidence is about already ran when the content was known to be in place. */
  predicate AlreadyRan(c: Confirmation) {
    && c.evidence.RestartedByHand? && c.place.InPlace?
    && Process(c.place.gateway) && c.place.gateway.startedAt == c.evidence.startedAt
  }

  /**
   * The evidence of a stopped or a Borg-restarted gateway is always newer than
   * the record and than the moment the content was known to be in place, which a
   * retry or another run knows from finding it so.  The evidence of a hand
   * restart is newer than that moment if and only if the gateway process that
   * ran then is not the one that confirms.
   */
  lemma EvidenceNewerIff(gateway: Gateway, clock: nat, content: Option<nat>, steps: seq<Step>, id: Id)
    requires StartedBefore(gateway, clock) && Legal(Fresh(gateway, clock, content), steps)
    requires id in Exec(Fresh(gateway, clock, content), steps).world.log.confirmed
    ensures
      var log := Exec(Fresh(gateway, clock, content), steps).world.log;
      var c := log.confirmed[id];
      && id in log.recordedAt && c.place.InPlace?
      && (!c.evidence.RestartedByHand? ==> log.recordedAt[id] < LoadedSince(c.evidence))
      && (c.place.at < LoadedSince(c.evidence) <==> !AlreadyRan(c))
  {
    RunKeepsInv(Fresh(gateway, clock, content), steps);
  }

  /** Confirmed by the run that wrote the content: the same for the time of that write. */
  lemma AppliedEvidenceNewerIff(gateway: Gateway, clock: nat, content: Option<nat>, steps: seq<Step>, id: Id)
    requires StartedBefore(gateway, clock) && Legal(Fresh(gateway, clock, content), steps)
    requires
      var log := Exec(Fresh(gateway, clock, content), steps).world.log;
      id in log.confirmed && log.confirmed[id].place.InPlace? && log.confirmed[id].place.applied
    ensures
      var log := Exec(Fresh(gateway, clock, content), steps).world.log;
      var c := log.confirmed[id];
      && id in log.appliedAt && id in log.recordedAt && log.recordedAt[id] <= log.appliedAt[id] <= c.at
      && (log.appliedAt[id] < LoadedSince(c.evidence) <==> !AlreadyRan(c))
  {
    RunKeepsInv(Fresh(gateway, clock, content), steps);
    EvidenceNewerIff(gateway, clock, content, steps, id);
  }

  /**
   * Writing A, then B, then A again: every newly written generation is
   * pending, whatever was confirmed for equal content before, and its id was
   * never confirmed.
   */
  lemma NewGenerationIsPending(gateway: Gateway, clock: nat, content: Option<nat>, steps: seq<Step>, n: RunId, id: Id, statusOk: bool)
    requires StartedBefore(gateway, clock) && Legal(Fresh(gateway, clock, content), steps)
    requires Enabled(Exec(Fresh(gateway, clock, content), steps), Move(n, Sample(id, statusOk)))
    ensures
      var s := Exec(Fresh(gateway, clock, content), steps);
      var t := Do(Do(s, Move(n, Sample(id, statusOk))), Move(n, WriteRecord)).world;
      t.stored.Some? && t.stored.value.desired.id == id && Pending(t.stored) && id !in t.log.confirmed
  {
    RunKeepsInv(Fresh(gateway, clock, content), steps);
    assert PhaseOk(Exec(Fresh(gateway, clock, content), steps).world, Exec(Fresh(gateway, clock, content), steps).runs[n]);
  }

  lemma {:induction false} ExecSnoc(s: State, steps: seq<Step>, step: Step)
    requires Legal(s, steps) && Enabled(Exec(s, steps), step)
    ensures Legal(s, steps + [step]) && Exec(s, steps + [step]) == Do(Exec(s, steps), step)
    decreases |steps|
  {
    if steps == [] {
      assert steps + [step] == [step] && [step][1..] == [];
      assert Legal(Do(s, step), []);
    } else {
      ExecSnoc(Do(s, steps[0]), steps[1..], step);
      assert (steps + [step])[1..] == steps[1..] + [step];
    }
  }

  /** One install records generation 5 with gateway pid 10, and is writing the configuration. */
  lemma InstallIsApplying(record: Record) returns (steps: seq<Step>)
    requires record == Record(Generation(5, Some(7), Some(10)), None, false)
    ensures Legal(Fresh(Manual(Some(10), 0), 0, None), steps)
    ensures Exec(Fresh(Manual(Some(10), 0), 0, None), steps) == State(
      World(4, Some(record), Manual(Some(10), 0), None, Log({5}, map[5 := 2], map[5 := 3], map[], map[])),
      map[1 := Applying(record, None)])
  {
    var s0 := Fresh(Manual(Some(10), 0), 0, None);
    steps := [];
    ExecSnoc(s0, steps, Launch(1)); steps := steps + [Launch(1)];
    ExecSnoc(s0, steps, Move(1, ReadRecord(Change(Some(7), false)))); steps := steps + [Move(1, ReadRecord(Change(Some(7), false)))];
    assert Exec(s0, steps).runs == map[1 := Sampling(None, Some(7), false, ToApply)];
    ExecSnoc(s0, steps, Move(1, Sample(5, true))); steps := steps + [Move(1, Sample(5, true))];
    assert Exec(s0, steps).runs == map[1 := Writing(record, None, ToApply)];
    ExecSnoc(s0, steps, Move(1, WriteRecord)); steps := steps + [Move(1, WriteRecord)];
  }

  /**
   * A hand-started gateway is compared with the pid sampled before the
   * configuration is written.  One restarted in between has loaded the old
   * configuration, and still completes the host step: the generation reads as
   * active although the gateway started before its content was in place.
   */
  lemma HandRestartMayPredateTheWrite() returns (steps: seq<Step>)
    ensures Legal(Fresh(Manual(Some(10), 0), 0, None), steps)
    ensures
      var w := Exec(Fresh(Manual(Some(10), 0), 0, None), steps).world;
      && !Pending(w.stored)
      && var id := w.stored.value.desired.id;
      && id in w.log.appliedAt && id in w.log.confirmed && w.log.confirmed[id].place.InPlace? && w.log.confirmed[id].place.applied && AlreadyRan(w.log.confirmed[id])
      && w.gateway.Manual? && w.gateway.startedAt < w.log.appliedAt[id]
  {
    var s0 := Fresh(Manual(Some(10), 0), 0, None);
    var record := Record(Generation(5, Some(7), Some(10)), None, false);
    steps := InstallIsApplying(record);
    ExecSnoc(s0, steps, GatewayChanges(Manual(Some(11), 5))); steps := steps + [GatewayChanges(Manual(Some(11), 5))];
    ExecSnoc(s0, steps, Launch(2)); steps := steps + [Launch(2)];
    ExecSnoc(s0, steps, Move(1, ApplyEnds(true, false))); steps := steps + [Move(1, ApplyEnds(true, false))];
    assert Exec(s0, steps).runs == map[1 := Checking(record, InPlace(6, true, Some(7), Manual(Some(11), 5))), 2 := Reading];
    ExecSnoc(s0, steps, Move(1, Check(true))); steps := steps + [Move(1, Check(true))];
    ExecSnoc(s0, steps, Move(1, Confirm)); steps := steps + [Move(1, Confirm)];
  }

  // ---- What a run stores ----

  /** Run `n` takes these steps and nothing else happens. */
  function Alone(n: RunId, choices: seq<Choice>): (steps: seq<Step>)
    ensures |steps| == |choices|
  {
    seq(|choices|, i requires 0 <= i < |choices| => Move(n, choices[i]))
  }

  predicate Goes(s: State, n: RunId, choices: seq<Choice>) { Legal(s, Alone(n, choices)) }

  /** One step of run `n`, then the rest. */
  lemma GoesOn(s: State, n: RunId, c: Choice, rest: seq<Choice>)
    requires Enabled(s, Move(n, c)) && Goes(Do(s, Move(n, c)), n, rest)
    ensures Goes(s, n, [c] + rest)
    ensures Exec(s, Alone(n, [c] + rest)) == Exec(Do(s, Move(n, c)), Alone(n, rest))
  {
    var all := Alone(n, [c] + rest);
    assert all[0] == Move(n, c);
    assert all[1..] == Alone(n, rest);
  }

  lemma GoesNowhere(s: State, n: RunId)
    ensures Goes(s, n, []) && Exec(s, Alone(n, [])) == s
  {
  }

  /** The generation a run starts: a new id, its digest and the gateway as sampled; the old confirmation stays noted. */
  predicate Starts(r: Record, previous: Option<Record>, id: Id, digest: Option<nat>, reload: bool) {
    && r.desired.id == id && r.desired.digest == digest && r.desktopReload == reload
    && r.activated == (if previous.Some? then previous.value.activated else None)
  }

  /** Up to its Hermes commands, a run that has something to change records its new generation. */
  lemma ChangeIsRecorded(s: State, n: RunId, digest: Option<nat>, reload: bool, id: Id, statusOk: bool) returns (t: State)
    requires n in s.runs && s.runs[n].Reading? && id !in s.world.log.used
    ensures n in t.runs && t.runs - {n} == s.runs - {n} && t.runs[n].Applying? && t.runs[n].previous == s.world.stored
    ensures Starts(t.runs[n].record, s.world.stored, id, digest, reload)
    ensures t.world.stored == Some(t.runs[n].record) && t.world.content == s.world.content
    ensures forall rest :: Goes(t, n, rest) ==>
      var all := [ReadRecord(Change(digest, reload)), Sample(id, statusOk), WriteRecord] + rest;
      Goes(s, n, all) && Exec(s, Alone(n, all)) == Exec(t, Alone(n, rest))
  {
    var a := Do(s, Move(n, ReadRecord(Change(digest, reload))));
    var b := Do(a, Move(n, Sample(id, statusOk)));
    t := Do(b, Move(n, WriteRecord));
    forall rest | Goes(t, n, rest)
      ensures
        var all := [ReadRecord(Change(digest, reload)), Sample(id, statusOk), WriteRecord] + rest;
        Goes(s, n, all) && Exec(s, Alone(n, all)) == Exec(t, Alone(n, rest))
    {
      GoesOn(b, n, WriteRecord, rest);
      GoesOn(a, n, Sample(id, statusOk), [WriteRecord] + rest);
      GoesOn(s, n, ReadRecord(Change(digest, reload)), [Sample(id, statusOk)] + ([WriteRecord] + rest));
      assert [ReadRecord(Change(digest, reload)), Sample(id, statusOk), WriteRecord] + rest
        == [ReadRecord(Change(digest, reload))] + ([Sample(id, statusOk)] + ([WriteRecord] + rest));
    }
  }

  /**
   * A change that fails and is fully reversed leaves the record and the content
   * as the run found them; one that could not be fully reversed leaves its own
   * generation on record, pending.
   */
  lemma FailedChange(s: State, n: RunId, digest: Option<nat>, reload: bool, id: Id, statusOk: bool)
    requires n in s.runs && s.runs[n].Reading? && id !in s.world.log.used
    requires s.world.stored.Some? && s.world.stored.value.activated.Some? ==> s.world.stored.value.activated.value in s.world.log.used
    ensures
      var start := [ReadRecord(Change(digest, reload)), Sample(id, statusOk), WriteRecord];
      var reversed, left := start + [ApplyEnds(false, true), WriteBack], start + [ApplyEnds(false, false)];
      && Goes(s, n, reversed) && Goes(s, n, left)
      && var t, u := Exec(s, Alone(n, reversed)), Exec(s, Alone(n, left));
      && t.world.stored == s.world.stored && t.world.content == s.world.content && t.runs == s.runs - {n}
      && u.world.stored.Some? && Starts(u.world.stored.value, s.world.stored, id, digest, reload)
      && Pending(u.world.stored) && u.world.content == s.world.content && u.runs == s.runs - {n}
  {
    var t := ChangeIsRecorded(s, n, digest, reload, id, statusOk);
    var undoing := Do(t, Move(n, ApplyEnds(false, true)));
    GoesNowhere(Do(undoing, Move(n, WriteBack)), n);
    GoesOn(undoing, n, WriteBack, []);
    GoesOn(t, n, ApplyEnds(false, true), [WriteBack] + []);
    assert [ApplyEnds(false, true)] + ([WriteBack] + []) == [ApplyEnds(false, true), WriteBack];
    GoesNowhere(Do(t, Move(n, ApplyEnds(false, false))), n);
    GoesOn(t, n, ApplyEnds(false, false), []);
    assert [ApplyEnds(false, false)] + [] == [ApplyEnds(false, false)];
  }

  /** The record is for this content. */
  predicate RecordFor(r: Option<Record>, digest: Option<nat>) { r.Some? && r.value.desired.digest == digest }

  /**
   * A run that finds its content in place does nothing exactly when there was
   * nothing to uninstall, or its record is confirmed and asks for no reload; it
   * draws a new generation exactly when the record is for other content; and
   * otherwise it writes the same generation again, with only the reload noted
   * by an installation taken back.
   */
  lemma SettledReadIff(s: State, n: RunId)
    requires n in s.runs && s.runs[n].Reading?
    ensures
      var r, digest := s.world.stored, s.world.content;
      var t := Do(s, Move(n, ReadRecord(Settled(digest))));
      && t.world.stored == r && t.world.content == digest
      && (n !in t.runs <==>
        ((digest.None? && r.None?) || (digest.Some? && RecordFor(r, digest) && !Pending(r) && !r.value.desktopReload)))
      && (n in t.runs && t.runs[n].Sampling? <==> !RecordFor(r, digest) && !(digest.None? && r.None?))
      && (n in t.runs && !t.runs[n].Sampling? ==>
        && (t.runs[n].Writing? || t.runs[n].Clearing?)
        && t.runs[n].record == (if digest.Some? then r.value.(desktopReload := false) else r.value))
      && (n in t.runs && t.runs[n].Clearing? <==> digest.Some? && RecordFor(r, digest) && !Pending(r) && r.value.desktopReload)
  {
  }

  /**
   * Retrying over content in place with the gateway stopped confirms the very
   * generation on record; a confirmed uninstall leaves no record at all.
   */
  lemma RetryConfirmsSameGeneration(s: State, n: RunId, statusOk: bool)
    requires n in s.runs && s.runs[n].Reading? && s.world.gateway.Stopped? && statusOk
    requires RecordFor(s.world.stored, s.world.content) && (Pending(s.world.stored) || s.world.content.None?)
    ensures
      var retry := [ReadRecord(Settled(s.world.content)), WriteRecord, Check(statusOk), Confirm];
      && Goes(s, n, retry)
      && var t := Exec(s, Alone(n, retry));
      && t.runs == s.runs - {n} && t.world.content == s.world.content
      && t.world.stored == if s.world.content.None? then None else
        Some(Record(s.world.stored.value.desired, Some(s.world.stored.value.desired.id), false))
  {
    var a := Do(s, Move(n, ReadRecord(Settled(s.world.content))));
    var b := Do(a, Move(n, WriteRecord));
    var c := Do(b, Move(n, Check(statusOk)));
    GoesNowhere(Do(c, Move(n, Confirm)), n);
    GoesOn(c, n, Confirm, []);
    GoesOn(b, n, Check(statusOk), [Confirm] + []);
    GoesOn(a, n, WriteRecord, [Check(statusOk)] + ([Confirm] + []));
    GoesOn(s, n, ReadRecord(Settled(s.world.content)), [WriteRecord] + ([Check(statusOk)] + ([Confirm] + [])));
    assert [ReadRecord(Settled(s.world.content))] + ([WriteRecord] + ([Check(statusOk)] + ([Confirm] + [])))
      == [ReadRecord(Settled(s.world.content)), WriteRecord, Check(statusOk), Confirm];
  }
}
