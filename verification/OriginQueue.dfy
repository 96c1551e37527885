/**
 * The per-origin queue lock (src/enrollment-lock.ts) as a state machine:
 * calls, the moment an awaited predecessor lets a call run, and returns, in
 * any interleaving.  A call's `tail` promise resolves once its predecessor's
 * tail has resolved and the call itself has been released; returning and
 * throwing both release.
 */
module OriginQueue {
  import opened Common

  type Origin = nat
  type CallId = nat

  datatype Phase = Waiting | Running | Inline | Done

  /**
   * `caller` is the call whose asynchronous context this one was made in, which
   * outlives that call; `prior` is the tail found at the call; `held` are the
   * origins its context holds while the operation runs.
   */
  datatype Call = Call(origin: Origin, caller: Option<CallId>, prior: Option<CallId>, held: set<Origin>, phase: Phase)

  /** `tails` is the process map; `queues` lists the unfinished queued calls, in call order. */
  datatype State = State(tails: map<Origin, CallId>, calls: map<CallId, Call>, queues: map<Origin, seq<CallId>>, next: CallId)

  const IDLE: State := State(map[], map[], map[], 0)

  datatype Step =
    | Enter(origin: Origin, caller: Option<CallId>)
    | Begin(id: CallId)
    | Leave(id: CallId, threw: bool)

  function Queue(s: State, o: Origin): seq<CallId> { if o in s.queues then s.queues[o] else [] }

  /** Has this call's tail promise resolved? */
  predicate Resolved(s: State, id: CallId)
    decreases id
  {
    && id in s.calls && s.calls[id].phase == Done
    && (s.calls[id].prior.Some? ==> s.calls[id].prior.value < id && Resolved(s, s.calls[id].prior.value))
  }

  predicate Active(s: State, id: CallId) {
    id in s.calls && (s.calls[id].phase == Running || s.calls[id].phase == Inline)
  }

  function HeldBy(s: State, caller: Option<CallId>): set<Origin> {
    if caller.Some? && caller.value in s.calls then s.calls[caller.value].held else {}
  }

  predicate Enabled(s: State, step: Step) {
    match step
    case Enter(_, caller) => caller.Some? ==> caller.value in s.calls && s.calls[caller.value].phase != Waiting
    case Begin(id) =>
      && id in s.calls && s.calls[id].phase == Waiting
      && (s.calls[id].prior.Some? ==> Resolved(s, s.calls[id].prior.value))
    case Leave(id, _) => Active(s, id)
  }

  function SetPhase(s: State, id: CallId, phase: Phase): State
    requires id in s.calls
  {
    s.(calls := s.calls[id := s.calls[id].(phase := phase)])
  }

  /** A call on a held origin runs inside its caller; any other call becomes the origin's tail. */
  function DoEnter(s: State, o: Origin, caller: Option<CallId>): State {
    var id, held := s.next, HeldBy(s, caller);
    if o in held then
      s.(calls := s.calls[id := Call(o, caller, None, held, Inline)], next := id + 1)
    else
      State(s.tails[o := id],
        s.calls[id := Call(o, caller, if o in s.tails then Some(s.tails[o]) else None, held + {o}, Waiting)],
        s.queues[o := Queue(s, o) + [id]],
        id + 1)
  }

  /** Release, then drop the map entry if it is still this call's tail. */
  function DoLeave(s: State, id: CallId): State
    requires id in s.calls
  {
    var o := s.calls[id].origin;
    var t := SetPhase(s, id, Done);
    if s.calls[id].phase == Inline then t
    else
      t.(tails := if o in t.tails && t.tails[o] == id then t.tails - {o} else t.tails,
         queues := t.queues[o := if Queue(t, o) == [] then [] else Queue(t, o)[1..]])
  }

  function Do(s: State, step: Step): State
    requires Enabled(s, step)
  {
    match step
    case Enter(o, caller) => DoEnter(s, o, caller)
    case Begin(id) => SetPhase(s, id, Running)
    case Leave(id, _) => DoLeave(s, id)
  }

  // ---- The invariant ----

  /** The calls queued on an origin are unfinished, and only the first may run. */
  ghost predicate QueueCalls(s: State, o: Origin) {
    var q := Queue(s, o);
    && (forall i :: 0 <= i < |q| ==> q[i] in s.calls && s.calls[q[i]].origin == o)
    && (forall i :: 0 <= i < |q| ==> s.calls[q[i]].phase == Waiting || (i == 0 && s.calls[q[i]].phase == Running))
  }

  /** Each waits for the one before it; the first has nothing left to wait for. */
  ghost predicate QueueChain(s: State, o: Origin) {
    var q := Queue(s, o);
    && (forall i :: 0 < i < |q| ==> q[i] in s.calls && s.calls[q[i]].prior == Some(q[i - 1]))
    && (q != [] && q[0] in s.calls && s.calls[q[0]].prior.Some? ==> Resolved(s, s.calls[q[0]].prior.value))
  }

  ghost predicate QueueTail(s: State, o: Origin) {
    var q := Queue(s, o);
    && (forall i, j :: 0 <= i < j < |q| ==> q[i] < q[j])
    && (o in s.tails <==> q != [])
    && (o in s.tails ==> s.tails[o] == q[|q| - 1])
  }

  ghost predicate QueueOk(s: State, o: Origin) { QueueCalls(s, o) && QueueChain(s, o) && QueueTail(s, o) }

  ghost predicate PriorsOk(s: State) {
    && (forall id :: id in s.calls ==> id < s.next && (s.calls[id].phase == Inline ==> s.calls[id].prior == None))
    && (forall id :: id in s.calls && s.calls[id].prior.Some? ==> s.calls[id].prior.value < id)
    && (forall id :: id in s.calls && s.calls[id].phase == Done && s.calls[id].prior.Some? ==>
      Resolved(s, s.calls[id].prior.value))
  }

  ghost predicate AllQueued(s: State) {
    forall id :: id in s.calls && (s.calls[id].phase == Waiting || s.calls[id].phase == Running) ==>
      id in Queue(s, s.calls[id].origin)
  }

  ghost predicate Inv(s: State) { PriorsOk(s) && AllQueued(s) && forall o :: QueueOk(s, o) }

  lemma {:induction false} ResolvedKept(s: State, t: State, id: CallId)
    requires Resolved(s, id)
    requires forall k :: k in s.calls && s.calls[k].phase == Done ==> k in t.calls && t.calls[k] == s.calls[k]
    ensures Resolved(t, id)
    decreases id
  {
    if s.calls[id].prior.Some? { ResolvedKept(s, t, s.calls[id].prior.value); }
  }

  lemma AllResolvedKept(s: State, t: State)
    requires forall k :: k in s.calls && s.calls[k].phase == Done ==> k in t.calls && t.calls[k] == s.calls[k]
    ensures forall id :: Resolved(s, id) ==> Resolved(t, id)
  {
    forall id | Resolved(s, id)
      ensures Resolved(t, id)
    {
      ResolvedKept(s, t, id);
    }
  }

  /** A queue whose calls and tail are untouched stays consistent. */
  lemma QueueKept(s: State, t: State, p: Origin)
    requires QueueOk(s, p) && Queue(t, p) == Queue(s, p)
    requires (p in t.tails <==> p in s.tails) && (p in s.tails ==> t.tails[p] == s.tails[p])
    requires forall k :: k in Queue(s, p) ==> k in t.calls && t.calls[k] == s.calls[k]
    requires forall k :: Resolved(s, k) ==> Resolved(t, k)
    ensures QueueOk(t, p)
  {
    var q := Queue(s, p);
    assert forall i :: 0 <= i < |q| ==> q[i] in q;
  }

  lemma TailAdded(s: State, t: State, o: Origin, id: CallId, caller: Option<CallId>, held: set<Origin>)
    requires QueueOk(s, o) && id !in s.calls && (forall k :: k in s.calls ==> k < id)
    requires Queue(t, o) == Queue(s, o) + [id] && o in t.tails && t.tails[o] == id
    requires t.calls == s.calls[id := Call(o, caller, if o in s.tails then Some(s.tails[o]) else None, held, Waiting)]
    requires forall k :: Resolved(s, k) ==> Resolved(t, k)
    ensures QueueOk(t, o)
  {
    var q, r := Queue(s, o), Queue(t, o);
    assert forall i :: 0 <= i < |q| ==> r[i] == q[i] && t.calls[r[i]] == s.calls[q[i]];
  }

  lemma EnteredQueueOk(s: State, o: Origin, caller: Option<CallId>, p: Origin)
    requires Inv(s) && (forall k :: Resolved(s, k) ==> Resolved(DoEnter(s, o, caller), k))
    ensures QueueOk(DoEnter(s, o, caller), p)
  {
    assert QueueOk(s, p);
    var t := DoEnter(s, o, caller);
    if o in HeldBy(s, caller) || p != o { QueueKept(s, t, p); } else { TailAdded(s, t, o, s.next, caller, HeldBy(s, caller) + {o}); }
  }

  lemma EnterKeepsCalls(s: State, o: Origin, caller: Option<CallId>)
    requires Inv(s) && (forall k :: Resolved(s, k) ==> Resolved(DoEnter(s, o, caller), k))
    ensures PriorsOk(DoEnter(s, o, caller)) && AllQueued(DoEnter(s, o, caller))
  {
    assert QueueOk(s, o);
    if o in s.tails { assert Queue(s, o)[|Queue(s, o)| - 1] in s.calls; }
  }

  lemma EnterKeepsInv(s: State, o: Origin, caller: Option<CallId>)
    requires Inv(s)
    ensures Inv(DoEnter(s, o, caller))
  {
    AllResolvedKept(s, DoEnter(s, o, caller));
    EnterKeepsCalls(s, o, caller);
    forall p
      ensures QueueOk(DoEnter(s, o, caller), p)
    {
      EnteredQueueOk(s, o, caller, p);
    }
  }

  lemma BegunIsHead(s: State, id: CallId)
    requires Inv(s) && Enabled(s, Begin(id))
    ensures Queue(s, s.calls[id].origin) != [] && Queue(s, s.calls[id].origin)[0] == id
    ensures s.calls[id].prior.Some? ==> Resolved(s, s.calls[id].prior.value)
  {
    BeginIffHead(s, id);
  }

  lemma BegunQueueOk(s: State, id: CallId, p: Origin)
    requires Inv(s) && Enabled(s, Begin(id)) && (forall k :: Resolved(s, k) ==> Resolved(SetPhase(s, id, Running), k))
    ensures QueueOk(SetPhase(s, id, Running), p)
  {
    assert QueueOk(s, p);
    if p == s.calls[id].origin {
      BegunIsHead(s, id);
      HeadRuns(s, SetPhase(s, id, Running), id);
    } else {
      QueueKept(s, SetPhase(s, id, Running), p);
    }
  }

  lemma BeginKeepsInv(s: State, id: CallId)
    requires Inv(s) && Enabled(s, Begin(id))
    ensures Inv(SetPhase(s, id, Running))
  {
    AllResolvedKept(s, SetPhase(s, id, Running));
    forall p
      ensures QueueOk(SetPhase(s, id, Running), p)
    {
      BegunQueueOk(s, id, p);
    }
  }

  lemma HeadRuns(s: State, t: State, id: CallId)
    requires id in s.calls && t == SetPhase(s, id, Running) && QueueOk(s, s.calls[id].origin)
    requires Queue(s, s.calls[id].origin) != [] && Queue(s, s.calls[id].origin)[0] == id
    requires s.calls[id].prior.Some? ==> Resolved(t, s.calls[id].prior.value)
    ensures QueueOk(t, s.calls[id].origin)
  {
  }

  lemma LeaverWasHead(s: State, id: CallId)
    requires Inv(s) && Active(s, id) && s.calls[id].phase == Running
    ensures
      var q := Queue(s, s.calls[id].origin);
      && q != [] && q[0] == id && id !in q[1..]
      && (s.calls[id].prior.Some? ==> Resolved(s, s.calls[id].prior.value))
  {
    var q := Queue(s, s.calls[id].origin);
    assert QueueOk(s, s.calls[id].origin);
    var i :| 0 <= i < |q| && q[i] == id;
  }

  lemma LeftQueueOk(s: State, id: CallId, p: Origin)
    requires Inv(s) && Active(s, id) && (forall k :: Resolved(s, k) ==> Resolved(DoLeave(s, id), k))
    ensures QueueOk(DoLeave(s, id), p)
  {
    assert QueueOk(s, p);
    if p == s.calls[id].origin && s.calls[id].phase == Running {
      HeadLeaves(s, DoLeave(s, id), id);
    } else {
      QueueKept(s, DoLeave(s, id), p);
    }
  }

  lemma LeaveKeepsCalls(s: State, id: CallId)
    requires Inv(s) && Active(s, id) && (forall k :: Resolved(s, k) ==> Resolved(DoLeave(s, id), k))
    ensures PriorsOk(DoLeave(s, id)) && AllQueued(DoLeave(s, id))
  {
    if s.calls[id].phase == Running { LeaverWasHead(s, id); }
  }

  lemma LeaveKeepsInv(s: State, id: CallId)
    requires Inv(s) && Active(s, id)
    ensures Inv(DoLeave(s, id))
  {
    AllResolvedKept(s, DoLeave(s, id));
    LeaveKeepsCalls(s, id);
    forall p
      ensures QueueOk(DoLeave(s, id), p)
    {
      LeftQueueOk(s, id, p);
    }
  }

  lemma HeadLeaves(s: State, t: State, id: CallId)
    requires Inv(s) && Active(s, id) && s.calls[id].phase == Running && t == DoLeave(s, id)
    requires forall k :: Resolved(s, k) ==> Resolved(t, k)
    ensures QueueOk(t, s.calls[id].origin)
  {
    LeaverWasHead(s, id);
    var o := s.calls[id].origin;
    assert QueueOk(s, o);
    assert Resolved(t, id);
    QueueShrinks(s, t, o);
  }

  /** The head has left: what was true of the queue is true of the rest. */
  lemma QueueShrinks(s: State, t: State, o: Origin)
    requires QueueOk(s, o) && Queue(s, o) != [] && Queue(t, o) == Queue(s, o)[1..]
    requires forall k :: k in Queue(s, o)[1..] ==> k in t.calls && t.calls[k] == s.calls[k]
    requires Resolved(t, Queue(s, o)[0])
    requires t.tails == if s.tails[o] == Queue(s, o)[0] then s.tails - {o} else s.tails
    ensures QueueOk(t, o)
  {
    var q, r := Queue(s, o), Queue(t, o);
    assert forall i :: 0 <= i < |r| ==> r[i] == q[i + 1] && r[i] in q[1..];
    assert QueueCalls(t, o);
    assert QueueChain(t, o);
    assert QueueTail(t, o);
  }

  lemma StepKeepsInv(s: State, step: Step)
    requires Inv(s) && Enabled(s, step)
    ensures Inv(Do(s, step))
  {
    match step
    case Enter(o, caller) => EnterKeepsInv(s, o, caller);
    case Begin(id) => BeginKeepsInv(s, id);
    case Leave(id, _) => LeaveKeepsInv(s, id);
  }

  predicate Legal(s: State, steps: seq<Step>)
    decreases |steps|
  {
    steps != [] ==> Enabled(s, steps[0]) && Legal(Do(s, steps[0]), steps[1..])
  }

  function Exec(s: State, steps: seq<Step>): State
    requires Legal(s, steps)
    decreases |steps|
  {
    if steps == [] then s else Exec(Do(s, steps[0]), steps[1..])
  }

  lemma {:induction false} RunKeepsInv(s: State, steps: seq<Step>)
    requires Inv(s) && Legal(s, steps)
    ensures Inv(Exec(s, steps))
    decreases |steps|
  {
    if steps != [] {
      StepKeepsInv(s, steps[0]);
      RunKeepsInv(Do(s, steps[0]), steps[1..]);
    }
  }

  // ---- Results ----

  /** A call that went through the origin's queue. */
  predicate Queued(s: State, o: Origin, id: CallId) {
    id in s.calls && s.calls[id].origin == o && s.calls[id].phase != Inline
  }

  predicate Runs(s: State, o: Origin, id: CallId) { Queued(s, o, id) && s.calls[id].phase == Running }

  predicate Unfinished(s: State, o: Origin, id: CallId) {
    Queued(s, o, id) && (s.calls[id].phase == Waiting || s.calls[id].phase == Running)
  }

  /** A waiting call may start exactly when it is first in its own origin's queue; no other origin matters. */
  lemma BeginIffHead(s: State, id: CallId)
    requires Inv(s) && id in s.calls && s.calls[id].phase == Waiting
    ensures Enabled(s, Begin(id)) <==> Queue(s, s.calls[id].origin)[0..1] == [id]
  {
    var q := Queue(s, s.calls[id].origin);
    assert QueueOk(s, s.calls[id].origin);
    var i :| 0 <= i < |q| && q[i] == id;
    if i > 0 {
      assert s.calls[q[i - 1]].phase != Done;
    }
  }

  lemma FirstInFirstOut(steps: seq<Step>, a: CallId, b: CallId)
    requires Legal(IDLE, steps)
    requires
      var s := Exec(IDLE, steps);
      && a in s.calls && b in s.calls && a < b && s.calls[a].origin == s.calls[b].origin
      && s.calls[a].phase != Inline && s.calls[b].phase == Running
    ensures Exec(IDLE, steps).calls[a].phase == Done
  {
    RunKeepsInv(IDLE, steps);
    var s := Exec(IDLE, steps);
    var q := Queue(s, s.calls[b].origin);
    assert QueueOk(s, s.calls[b].origin);
  }

  /**
   * In every run: queued operations of one origin never overlap, a waiting one
   * may start as soon as, and only when, every earlier one on its origin has
   * returned or thrown, and the tail map holds exactly the origins with
   * something queued or running.
   */
  lemma PerOriginQueue(steps: seq<Step>, o: Origin)
    requires Legal(IDLE, steps)
    ensures
      var s := Exec(IDLE, steps);
      && (forall a, b | Runs(s, o, a) && Runs(s, o, b) :: a == b)
      && (o in s.tails <==> exists id :: Unfinished(s, o, id))
      && (forall id | Queued(s, o, id) && s.calls[id].phase == Waiting ::
        Enabled(s, Begin(id)) <==> forall a: CallId :: Queued(s, o, a) && a < id ==> s.calls[a].phase == Done)
  {
    RunKeepsInv(IDLE, steps);
    var s := Exec(IDLE, steps);
    OneRuns(s, o);
    TailIffUnfinished(s, o);
    forall id | Queued(s, o, id) && s.calls[id].phase == Waiting
      ensures Enabled(s, Begin(id)) <==> forall a: CallId :: Queued(s, o, a) && a < id ==> s.calls[a].phase == Done
    {
      BeginIffEarlierDone(s, o, id);
    }
  }

  lemma OneRuns(s: State, o: Origin)
    requires Inv(s)
    ensures forall a, b | Runs(s, o, a) && Runs(s, o, b) :: a == b
  {
    assert QueueOk(s, o);
    forall a | Runs(s, o, a)
      ensures Queue(s, o) != [] && a == Queue(s, o)[0]
    {
      assert a in Queue(s, o);
    }
  }

  lemma TailIffUnfinished(s: State, o: Origin)
    requires Inv(s)
    ensures o in s.tails <==> exists id :: Unfinished(s, o, id)
  {
    assert QueueOk(s, o);
    if o in s.tails { assert Unfinished(s, o, Queue(s, o)[0]); }
    if id :| Unfinished(s, o, id) { assert id in Queue(s, o); }
  }

  lemma BeginIffEarlierDone(s: State, o: Origin, id: CallId)
    requires Inv(s) && Queued(s, o, id) && s.calls[id].phase == Waiting
    ensures Enabled(s, Begin(id)) <==> forall a: CallId :: Queued(s, o, a) && a < id ==> s.calls[a].phase == Done
  {
    var q := Queue(s, o);
    assert QueueOk(s, o);
    BeginIffHead(s, id);
    assert id in q;
    if q[0] != id { assert Queued(s, o, q[0]) && q[0] < id; }
  }

  // ---- Nested calls ----

  /** `id` is `above`, or was made in the context of a call that is. */
  predicate Under(s: State, id: CallId, above: CallId)
    decreases id
  {
    || id == above
    || (id in s.calls && s.calls[id].caller.Some? && s.calls[id].caller.value < id && Under(s, s.calls[id].caller.value, above))
  }

  /** The origin was already held where the call was made. */
  predicate Nested(s: State, id: CallId)
    requires id in s.calls
  {
    s.calls[id].origin in HeldBy(s, s.calls[id].caller)
  }

  /** A call's context holds what its caller's holds, and its own origin; nested calls run inline, all others queue. */
  ghost predicate ContextsOk(s: State) {
    forall id :: id in s.calls ==>
      && id < s.next
      && (s.calls[id].caller.Some? ==> s.calls[id].caller.value < id && s.calls[id].caller.value in s.calls)
      && (s.calls[id].phase == Inline ==> Nested(s, id))
      && (s.calls[id].phase == Waiting || s.calls[id].phase == Running ==> !Nested(s, id))
      && s.calls[id].held == HeldBy(s, s.calls[id].caller) + {s.calls[id].origin}
  }

  ghost predicate FullInv(s: State) { Inv(s) && ContextsOk(s) }

  /** What a call was made with never changes. */
  predicate Remembers(s: State, t: State) {
    && s.next <= t.next
    && forall id :: id in s.calls ==>
      id in t.calls && t.calls[id] == s.calls[id].(phase := t.calls[id].phase)
  }

  lemma StepRemembers(s: State, step: Step)
    requires FullInv(s) && Enabled(s, step)
    ensures Remembers(s, Do(s, step))
  {
  }

  lemma {:induction false} UnderKept(s: State, t: State, id: CallId, above: CallId)
    requires Remembers(s, t) && ContextsOk(s) && id in s.calls
    ensures Under(t, id, above) <==> Under(s, id, above)
    decreases id
  {
    if s.calls[id].caller.Some? { UnderKept(s, t, s.calls[id].caller.value, above); }
  }

  lemma HeldKept(s: State, t: State, caller: Option<CallId>)
    requires Remembers(s, t) && (caller.Some? ==> caller.value in s.calls)
    ensures HeldBy(t, caller) == HeldBy(s, caller)
  {
  }

  lemma StepKeepsContexts(s: State, step: Step)
    requires FullInv(s) && Enabled(s, step)
    ensures ContextsOk(Do(s, step))
  {
    var t := Do(s, step);
    StepRemembers(s, step);
    forall id | id in s.calls
      ensures HeldBy(t, s.calls[id].caller) == HeldBy(s, s.calls[id].caller)
    {
      HeldKept(s, t, s.calls[id].caller);
    }
    if step.Enter? { HeldKept(s, t, step.caller); }
  }

  lemma StepKeepsFullInv(s: State, step: Step)
    requires FullInv(s) && Enabled(s, step)
    ensures FullInv(Do(s, step))
  {
    StepKeepsInv(s, step);
    StepKeepsContexts(s, step);
  }

  /** A context holds all that the contexts above it hold. */
  lemma {:induction false} HeldFromAbove(s: State, id: CallId, above: CallId)
    requires ContextsOk(s) && id in s.calls && Under(s, id, above)
    ensures above in s.calls && s.calls[above].held <= s.calls[id].held
    decreases id
  {
    if id != above { HeldFromAbove(s, s.calls[id].caller.value, above); }
  }

  /** No call waits in a queue behind a call it is nested under: a nested call cannot block itself. */
  lemma NeverBehindItsHolder(s: State, id: CallId, other: CallId)
    requires FullInv(s) && id in s.calls && s.calls[id].phase == Waiting
    requires other in Queue(s, s.calls[id].origin) && other != id
    ensures !Under(s, id, other)
  {
    assert QueueOk(s, s.calls[id].origin);
    if Under(s, id, other) { HeldFromAbove(s, s.calls[id].caller.value, other); }
  }

  // ---- When operations of one origin overlap ----

  /** The first call of a queue, if its operation runs. */
  predicate HeadRunning(s: State, o: Origin) {
    Queue(s, o) != [] && Queue(s, o)[0] in s.calls && s.calls[Queue(s, o)[0]].phase == Running
  }

  /** An operation on an origin is the one at the head of its queue, or nested under it. */
  ghost predicate Exclusive(s: State) {
    forall a :: Active(s, a) ==> HeadRunning(s, s.calls[a].origin) && Under(s, a, Queue(s, s.calls[a].origin)[0])
  }

  /** No call leaves its queue over a nested one on the same origin; a nested call is made while its origin's holder runs. */
  ghost predicate Awaited(s: State, step: Step)
    requires Enabled(s, step)
  {
    match step
    case Enter(o, caller) =>
      o in HeldBy(s, caller) ==> HeadRunning(s, o) && Under(s, caller.value, Queue(s, o)[0])
    case Begin(_) => true
    case Leave(id, _) =>
      s.calls[id].phase == Running ==> forall a :: Active(s, a) && s.calls[a].origin == s.calls[id].origin ==> a == id
  }

  lemma EnterKeepsOthers(s: State, o: Origin, caller: Option<CallId>, a: CallId)
    requires FullInv(s) && Exclusive(s) && Enabled(s, Enter(o, caller)) && Active(s, a)
    ensures
      var t := DoEnter(s, o, caller);
      Active(t, a) && HeadRunning(t, s.calls[a].origin) && Under(t, a, Queue(t, s.calls[a].origin)[0])
  {
    StepRemembers(s, Enter(o, caller));
    UnderKept(s, DoEnter(s, o, caller), a, Queue(s, s.calls[a].origin)[0]);
  }

  lemma NestedEntryIff(s: State, o: Origin, caller: Option<CallId>)
    requires FullInv(s) && Enabled(s, Enter(o, caller)) && o in HeldBy(s, caller)
    ensures
      var t := DoEnter(s, o, caller);
      Active(t, s.next) &&
      (Awaited(s, Enter(o, caller)) <==> HeadRunning(t, o) && Under(t, s.next, Queue(t, o)[0]))
  {
    StepRemembers(s, Enter(o, caller));
    assert QueueOk(s, o);
    if HeadRunning(s, o) { UnderKept(s, DoEnter(s, o, caller), caller.value, Queue(s, o)[0]); }
  }

  lemma EnterExclusiveIff(s: State, o: Origin, caller: Option<CallId>)
    requires FullInv(s) && Exclusive(s) && Enabled(s, Enter(o, caller))
    ensures Exclusive(Do(s, Enter(o, caller))) <==> Awaited(s, Enter(o, caller))
  {
    forall a | Active(s, a)
      ensures
        var t := DoEnter(s, o, caller);
        Active(t, a) && HeadRunning(t, s.calls[a].origin) && Under(t, a, Queue(t, s.calls[a].origin)[0])
    {
      EnterKeepsOthers(s, o, caller, a);
    }
    if o in HeldBy(s, caller) { NestedEntryIff(s, o, caller); }
  }

  lemma BeginStaysExclusive(s: State, id: CallId)
    requires FullInv(s) && Exclusive(s) && Enabled(s, Begin(id))
    ensures Exclusive(Do(s, Begin(id)))
  {
    var t := Do(s, Begin(id));
    StepRemembers(s, Begin(id));
    BeginIffHead(s, id);
    forall a | Active(t, a)
      ensures HeadRunning(t, t.calls[a].origin) && Under(t, a, Queue(t, t.calls[a].origin)[0])
    {
      if a != id { UnderKept(s, t, a, Queue(s, s.calls[a].origin)[0]); }
    }
  }

  /** A call elsewhere, or anywhere when a nested call returns, keeps its running head. */
  lemma LeaveKeepsOthers(s: State, id: CallId, a: CallId)
    requires FullInv(s) && Exclusive(s) && Active(s, id) && Active(s, a) && a != id
    requires s.calls[id].phase == Inline || s.calls[a].origin != s.calls[id].origin
    ensures
      var t := DoLeave(s, id);
      Active(t, a) && HeadRunning(t, s.calls[a].origin) && Under(t, a, Queue(t, s.calls[a].origin)[0])
  {
    StepRemembers(s, Leave(id, false));
    assert QueueOk(s, s.calls[a].origin);
    UnderKept(s, DoLeave(s, id), a, Queue(s, s.calls[a].origin)[0]);
  }

  lemma NextHeadWaits(s: State, id: CallId)
    requires FullInv(s) && Active(s, id) && s.calls[id].phase == Running
    ensures !HeadRunning(DoLeave(s, id), s.calls[id].origin)
  {
    LeaverWasHead(s, id);
    assert QueueOk(s, s.calls[id].origin);
  }

  lemma AwaitedLeaveStaysExclusive(s: State, id: CallId, threw: bool)
    requires FullInv(s) && Exclusive(s) && Enabled(s, Leave(id, threw)) && Awaited(s, Leave(id, threw))
    ensures Exclusive(DoLeave(s, id))
  {
    var t := DoLeave(s, id);
    forall a | Active(t, a)
      ensures HeadRunning(t, t.calls[a].origin) && Under(t, a, Queue(t, t.calls[a].origin)[0])
    {
      LeaveKeepsOthers(s, id, a);
    }
  }

  lemma UnawaitedLeaveOverlaps(s: State, id: CallId, threw: bool)
    requires FullInv(s) && Enabled(s, Leave(id, threw)) && !Awaited(s, Leave(id, threw))
    ensures !Exclusive(DoLeave(s, id))
  {
    var a :| Active(s, a) && s.calls[a].origin == s.calls[id].origin && a != id;
    NextHeadWaits(s, id);
    assert Active(DoLeave(s, id), a);
  }

  lemma LeaveExclusiveIff(s: State, id: CallId, threw: bool)
    requires FullInv(s) && Exclusive(s) && Enabled(s, Leave(id, threw))
    ensures Exclusive(Do(s, Leave(id, threw))) <==> Awaited(s, Leave(id, threw))
  {
    if Awaited(s, Leave(id, threw)) { AwaitedLeaveStaysExclusive(s, id, threw); } else { UnawaitedLeaveOverlaps(s, id, threw); }
  }

  lemma StepExclusiveIff(s: State, step: Step)
    requires FullInv(s) && Exclusive(s) && Enabled(s, step)
    ensures Exclusive(Do(s, step)) <==> Awaited(s, step)
  {
    match step
    case Enter(o, caller) => EnterExclusiveIff(s, o, caller);
    case Begin(id) => BeginStaysExclusive(s, id);
    case Leave(id, threw) => LeaveExclusiveIff(s, id, threw);
  }

  ghost predicate AwaitedRun(s: State, steps: seq<Step>)
    requires Legal(s, steps)
    decreases |steps|
  {
    steps != [] ==> Awaited(s, steps[0]) && AwaitedRun(Do(s, steps[0]), steps[1..])
  }

  ghost predicate AlwaysExclusive(s: State, steps: seq<Step>)
    requires Legal(s, steps)
    decreases |steps|
  {
    Exclusive(s) && (steps != [] ==> AlwaysExclusive(Do(s, steps[0]), steps[1..]))
  }

  lemma {:induction false} RunExclusiveIff(s: State, steps: seq<Step>)
    requires FullInv(s) && Exclusive(s) && Legal(s, steps)
    ensures AlwaysExclusive(s, steps) <==> AwaitedRun(s, steps)
    decreases |steps|
  {
    if steps != [] {
      StepExclusiveIff(s, steps[0]);
      StepKeepsFullInv(s, steps[0]);
      if Exclusive(Do(s, steps[0])) { RunExclusiveIff(Do(s, steps[0]), steps[1..]); }
    }
  }

  /**
   * Operations of one origin, nested ones included, never overlap except under
   * the one at the head of the queue, if and only if no call leaves its queue
   * while an operation nested under it on that origin runs, and every nested
   * call is made while the call that holds its origin runs.
   */
  lemma NonOverlapIff(steps: seq<Step>)
    requires Legal(IDLE, steps)
    ensures AlwaysExclusive(IDLE, steps) <==> AwaitedRun(IDLE, steps)
  {
    RunExclusiveIff(IDLE, steps);
  }

  // ---- Structured runs ----

  /** Calls are made by operations that run, and every operation awaits the calls it made. */
  ghost predicate Structured(s: State, step: Step)
    requires Enabled(s, step)
  {
    match step
    case Enter(_, caller) => caller.Some? ==> Active(s, caller.value)
    case Begin(_) => true
    case Leave(id, _) => forall k :: k in s.calls && s.calls[k].caller == Some(id) ==> s.calls[k].phase == Done
  }

  ghost predicate StructuredRun(s: State, steps: seq<Step>)
    requires Legal(s, steps)
    decreases |steps|
  {
    steps != [] ==> Structured(s, steps[0]) && StructuredRun(Do(s, steps[0]), steps[1..])
  }

  ghost predicate CallersRun(s: State) {
    forall k :: k in s.calls && s.calls[k].phase != Done && s.calls[k].caller.Some? ==> Active(s, s.calls[k].caller.value)
  }

  /** Whatever a context holds, a call above it that queued for it still runs, at the head. */
  lemma {:induction false} HolderRuns(s: State, id: CallId, o: Origin)
    requires FullInv(s) && CallersRun(s) && Active(s, id) && o in s.calls[id].held
    ensures HeadRunning(s, o) && Under(s, id, Queue(s, o)[0])
    decreases id
  {
    if s.calls[id].origin == o && !Nested(s, id) {
      assert QueueOk(s, o);
      assert id in Queue(s, o);
    } else {
      HolderRuns(s, s.calls[id].caller.value, o);
    }
  }

  /** A call with an unfinished call somewhere under it has one that it made itself. */
  lemma {:induction false} UnfinishedBelow(s: State, id: CallId, above: CallId)
    requires ContextsOk(s) && CallersRun(s) && id in s.calls && s.calls[id].phase != Done
    requires Under(s, id, above) && id != above
    ensures exists k :: k in s.calls && s.calls[k].caller == Some(above) && s.calls[k].phase != Done
    decreases id
  {
    var caller := s.calls[id].caller.value;
    if caller != above { UnfinishedBelow(s, caller, above); }
  }

  lemma StructuredLeave(s: State, id: CallId, threw: bool)
    requires FullInv(s) && CallersRun(s) && Enabled(s, Leave(id, threw)) && Structured(s, Leave(id, threw))
    requires Exclusive(s)
    ensures Awaited(s, Leave(id, threw))
  {
    if s.calls[id].phase == Running {
      LeaverWasHead(s, id);
      forall a | Active(s, a) && s.calls[a].origin == s.calls[id].origin
        ensures a == id
      {
        if a != id { UnfinishedBelow(s, a, id); }
      }
    }
  }

  lemma StructuredKeepsCallers(s: State, step: Step)
    requires FullInv(s) && CallersRun(s) && Enabled(s, step) && Structured(s, step)
    ensures CallersRun(Do(s, step))
  {
    var t := Do(s, step);
    StepRemembers(s, step);
    forall k | k in t.calls && t.calls[k].phase != Done && t.calls[k].caller.Some?
      ensures Active(t, t.calls[k].caller.value)
    {
      assert k in s.calls ==> s.calls[k].phase != Done && Active(s, s.calls[k].caller.value);
    }
  }

  lemma StructuredIsAwaited(s: State, step: Step)
    requires FullInv(s) && CallersRun(s) && Exclusive(s) && Enabled(s, step) && Structured(s, step)
    ensures Awaited(s, step) && CallersRun(Do(s, step))
  {
    StructuredKeepsCallers(s, step);
    match step
    case Enter(o, caller) => if o in HeldBy(s, caller) { HolderRuns(s, caller.value, o); }
    case Begin(_) =>
    case Leave(id, threw) => StructuredLeave(s, id, threw);
  }

  lemma {:induction false} StructuredRunIsAwaited(s: State, steps: seq<Step>)
    requires FullInv(s) && CallersRun(s) && Exclusive(s) && Legal(s, steps) && StructuredRun(s, steps)
    ensures AlwaysExclusive(s, steps) && Exclusive(Exec(s, steps)) && CallersRun(Exec(s, steps)) && FullInv(Exec(s, steps))
    decreases |steps|
  {
    if steps != [] {
      StructuredIsAwaited(s, steps[0]);
      StepExclusiveIff(s, steps[0]);
      StepKeepsFullInv(s, steps[0]);
      StructuredRunIsAwaited(Do(s, steps[0]), steps[1..]);
    }
  }

  /**
   * Where every operation awaits the calls it makes, no two operations on an
   * origin overlap unless both are nested under the head of its queue.
   */
  lemma StructuredRunsNeverOverlap(steps: seq<Step>, a: CallId, b: CallId)
    requires Legal(IDLE, steps) && StructuredRun(IDLE, steps)
    requires Active(Exec(IDLE, steps), a) && Active(Exec(IDLE, steps), b)
    requires Exec(IDLE, steps).calls[a].origin == Exec(IDLE, steps).calls[b].origin
    ensures
      var s := Exec(IDLE, steps);
      var q := Queue(s, s.calls[a].origin);
      q != [] && Under(s, a, q[0]) && Under(s, b, q[0])
  {
    StructuredRunIsAwaited(IDLE, steps);
  }

  /** There, a call on an origin its caller holds runs at once, under the call that holds it. */
  lemma NestedRunsUnderItsHolder(steps: seq<Step>, o: Origin, caller: CallId)
    requires Legal(IDLE, steps) && StructuredRun(IDLE, steps)
    requires Active(Exec(IDLE, steps), caller) && o in Exec(IDLE, steps).calls[caller].held
    ensures
      var s := Exec(IDLE, steps);
      var t := Do(s, Enter(o, Some(caller)));
      Active(t, s.next) && HeadRunning(t, o) && Under(t, s.next, Queue(t, o)[0])
  {
    StructuredRunIsAwaited(IDLE, steps);
    var s := Exec(IDLE, steps);
    StructuredIsAwaited(s, Enter(o, Some(caller)));
    EnterExclusiveIff(s, o, Some(caller));
    assert Active(Do(s, Enter(o, Some(caller))), s.next);
  }

  lemma {:induction false} ExecSnoc(s: State, steps: seq<Step>, step: Step)
    requires Legal(s, steps) && Enabled(Exec(s, steps), step)
    ensures Legal(s, steps + [step]) && Exec(s, steps + [step]) == Do(Exec(s, steps), step)
    decreases |steps|
  {
    if steps == [] {
      assert steps + [step] == [step] && [step][1..] == [];
      assert Legal(Do(s, step), []);
    } else {
      ExecSnoc(Do(s, steps[0]), steps[1..], step);
      assert (steps + [step])[1..] == steps[1..] + [step];
    }
  }

  /** Call 0 made a nested call 1 on its origin and returned without awaiting it. */
  lemma NestedOutlivesItsHolder() returns (steps: seq<Step>)
    ensures Legal(IDLE, steps)
    ensures Exec(IDLE, steps) == State(map[],
      map[0 := Call(0, None, None, {0}, Done), 1 := Call(0, Some(0), None, {0}, Inline)], map[0 := []], 2)
  {
    steps := [];
    ExecSnoc(IDLE, steps, Enter(0, None)); steps := steps + [Enter(0, None)];
    assert Queue(Exec(IDLE, steps), 0) == [0] && {} + {0} == {0};
    assert Exec(IDLE, steps) == State(map[0 := 0], map[0 := Call(0, None, None, {0}, Waiting)], map[0 := [0]], 1);
    ExecSnoc(IDLE, steps, Begin(0)); steps := steps + [Begin(0)];
    ExecSnoc(IDLE, steps, Enter(0, Some(0))); steps := steps + [Enter(0, Some(0))];
    assert [0][1..] == [];
    ExecSnoc(IDLE, steps, Leave(0, false)); steps := steps + [Leave(0, false)];
  }

  /**
   * The condition is needed: a nested operation that its holder does not await
   * overlaps the next operation on the same origin.
   */
  lemma UnawaitedCallOverlaps() returns (steps: seq<Step>)
    ensures Legal(IDLE, steps)
    ensures
      var s := Exec(IDLE, steps);
      && Active(s, 1) && Active(s, 2) && s.calls[1].origin == s.calls[2].origin
      && !Under(s, 1, 2) && !Under(s, 2, 1) && !Exclusive(s)
  {
    steps := NestedOutlivesItsHolder();
    ExecSnoc(IDLE, steps, Enter(0, None)); steps := steps + [Enter(0, None)];
    assert [] + [2] == [2];
    assert Queue(Exec(IDLE, steps), 0) == [2];
    ExecSnoc(IDLE, steps, Begin(2)); steps := steps + [Begin(2)];
    var s := Exec(IDLE, steps);
    assert Active(s, 1) && Queue(s, 0) == [2] && !Under(s, 0, 2);
  }
}
