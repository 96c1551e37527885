/**
 * The hung-tail detector of the inbox monitor (src/inbox-monitor.ts): the pure
 * evaluator, the holder that feeds it, and what a respawn verdict means for a
 * whole trace of ticks and deliveries.
 */
module TailStall {
  import opened Common

  datatype StallState = StallState(lastEmittedOffset: nat, grewSince: Option<int>)

  datatype Kind = Quiet | Rotation | RespawnNow

  datatype Verdict = Verdict(kind: Kind, state: StallState)

  const STALL_THRESHOLD_MS: int := 5 * 30_000

  function Evaluate(inboxSize: nat, state: StallState, nowMs: int, thresholdMs: int): Verdict {
    if inboxSize < state.lastEmittedOffset then Verdict(Rotation, StallState(inboxSize, None))
    else if inboxSize == state.lastEmittedOffset then Verdict(Quiet, StallState(state.lastEmittedOffset, None))
    else
      var since := if state.grewSince.Some? then state.grewSince.value else nowMs;
      var next := StallState(state.lastEmittedOffset, Some(since));
      if nowMs - since >= thresholdMs then Verdict(RespawnNow, next) else Verdict(Quiet, next)
  }

  /** What the holder sees: a periodic tick, or a delivered line (the file has `size` bytes then). */
  datatype Event = Tick(size: nat, nowMs: int) | Delivered(size: nat)

  /** The holder's stall state after one event; a respawn restarts the streak. */
  function Next(state: StallState, e: Event, thresholdMs: int): StallState {
    match e
    case Delivered(size) => StallState(size, None)
    case Tick(size, nowMs) =>
      var v := Evaluate(size, state, nowMs, thresholdMs);
      if v.kind == RespawnNow then StallState(v.state.lastEmittedOffset, None) else v.state
  }

  class Holder {
    var stall: StallState

    constructor (sizeAtArm: nat)
      ensures stall == StallState(sizeAtArm, None)
    {
      stall := StallState(sizeAtArm, None);
    }

    method MarkDelivered(size: nat)
      modifies this
      ensures stall == Next(old(stall), Delivered(size), STALL_THRESHOLD_MS)
    {
      stall := StallState(size, None);
    }

    /** One timer tick; a respawn returns the offset the new tail reads from. */
    method OnTick(size: nat, nowMs: int, shuttingDown: bool) returns (respawnFrom: Option<nat>)
      modifies this
      ensures respawnFrom.Some? <==>
        !shuttingDown && Evaluate(size, old(stall), nowMs, STALL_THRESHOLD_MS).kind == RespawnNow
      ensures respawnFrom.Some? ==> respawnFrom.value == old(stall).lastEmittedOffset < size
      ensures shuttingDown ==> stall == Evaluate(size, old(stall), nowMs, STALL_THRESHOLD_MS).state
      ensures !shuttingDown ==> stall == Next(old(stall), Tick(size, nowMs), STALL_THRESHOLD_MS)
    {
      var verdict := Evaluate(size, stall, nowMs, STALL_THRESHOLD_MS);
      stall := verdict.state;
      respawnFrom := None;
      if verdict.kind == RespawnNow && !shuttingDown {
        respawnFrom := Some(stall.lastEmittedOffset);
        stall := StallState(stall.lastEmittedOffset, None);
      }
    }
  }

  // ---- Traces ----

  function After(init: StallState, trace: seq<Event>, thresholdMs: int): StallState {
    if trace == [] then init
    else Next(After(init, trace[..|trace| - 1], thresholdMs), trace[|trace| - 1], thresholdMs)
  }

  /** Event `k` of the trace is a tick that decides to respawn. */
  predicate RespawnsAt(init: StallState, trace: seq<Event>, thresholdMs: int, k: nat)
    requires k < |trace|
  {
    && trace[k].Tick?
    && Evaluate(trace[k].size, After(init, trace[..k], thresholdMs), trace[k].nowMs, thresholdMs).kind == RespawnNow
  }

  /** The offset the file size was last anchored to: the previous delivery or shrink, or the arm. */
  function AnchorAt(init: StallState, trace: seq<Event>): nat {
    if trace == [] then init.lastEmittedOffset
    else
      var before := AnchorAt(init, trace[..|trace| - 1]);
      match trace[|trace| - 1]
      case Delivered(size) => size
      case Tick(size, _) => if size < before then size else before
  }

  /** Event `i` is a tick that sees bytes past the anchor. */
  predicate GrowthAt(init: StallState, trace: seq<Event>, i: nat)
    requires i < |trace|
  {
    trace[i].Tick? && trace[i].size > AnchorAt(init, trace[..i])
  }

  /**
   * An independent account of a stall window `j..k`: every event in it is a
   * tick that saw un-emitted growth over one unchanged anchor, none before the
   * last respawned, and it is at least the threshold long.
   */
  ghost predicate StalledWindow(init: StallState, trace: seq<Event>, thresholdMs: int, j: nat, k: nat)
    requires k < |trace|
  {
    && j <= k && trace[j].Tick? && trace[k].Tick?
    && (forall i :: j <= i <= k ==> GrowthAt(init, trace, i) && AnchorAt(init, trace[..i]) == AnchorAt(init, trace[..k]))
    && (forall i :: j <= i < k ==> !RespawnsAt(init, trace, thresholdMs, i))
    && trace[k].nowMs - trace[j].nowMs >= thresholdMs
  }

  /** Tick times never go back. */
  ghost predicate Monotone(trace: seq<Event>) {
    forall i, j :: 0 <= i <= j < |trace| && trace[i].Tick? && trace[j].Tick? ==> trace[i].nowMs <= trace[j].nowMs
  }

  lemma {:induction false} AnchorIsOffset(init: StallState, trace: seq<Event>, thresholdMs: int)
    ensures After(init, trace, thresholdMs).lastEmittedOffset == AnchorAt(init, trace)
  {
    if trace != [] {
      AnchorIsOffset(init, trace[..|trace| - 1], thresholdMs);
    }
  }

  /**
   * A running streak began at some tick `j`, and every event since was a tick
   * that saw growth over the same anchor and did not respawn.
   */
  lemma {:induction false} StreakBegan(init: StallState, trace: seq<Event>, thresholdMs: int) returns (j: nat)
    requires init.grewSince.None?
    requires After(init, trace, thresholdMs).grewSince.Some?
    ensures j < |trace| && trace[j].Tick? && trace[j].nowMs == After(init, trace, thresholdMs).grewSince.value
    ensures forall i :: j <= i < |trace| ==>
      && GrowthAt(init, trace, i)
      && AnchorAt(init, trace[..i]) == AnchorAt(init, trace)
      && !RespawnsAt(init, trace, thresholdMs, i)
  {
    var n := |trace| - 1;
    var prior := After(init, trace[..n], thresholdMs);
    AnchorIsOffset(init, trace[..n], thresholdMs);
    if prior.grewSince.None? {
      j := n;
    } else {
      j := StreakBegan(init, trace[..n], thresholdMs);
      forall i | j <= i < n
        ensures GrowthAt(init, trace, i) && !RespawnsAt(init, trace, thresholdMs, i)
        ensures AnchorAt(init, trace[..i]) == AnchorAt(init, trace)
      {
        assert trace[..n][..i] == trace[..i];
        assert GrowthAt(init, trace[..n], i);
      }
    }
  }

  /** Inside a window of growth over one anchor without a respawn, the streak is at least as old as the window. */
  lemma {:induction false} StreakCovers(init: StallState, trace: seq<Event>, thresholdMs: int, j: nat, n: nat)
    requires j < n <= |trace| && Monotone(trace)
    requires init.grewSince.None? && trace[j].Tick?
    requires forall i :: j <= i < n ==> GrowthAt(init, trace, i) && !RespawnsAt(init, trace, thresholdMs, i)
    ensures After(init, trace[..n], thresholdMs).grewSince.Some?
    ensures After(init, trace[..n], thresholdMs).grewSince.value <= trace[j].nowMs
  {
    assert trace[..n][..n - 1] == trace[..n - 1];
    AnchorIsOffset(init, trace[..n - 1], thresholdMs);
    assert GrowthAt(init, trace, n - 1) && !RespawnsAt(init, trace, thresholdMs, n - 1);
    if j < n - 1 {
      StreakCovers(init, trace, thresholdMs, j, n - 1);
    } else if After(init, trace[..j], thresholdMs).grewSince.Some? {
      var b := StreakBegan(init, trace[..j], thresholdMs);
      assert trace[..j][b] == trace[b];
    }
  }

  /**
   * No false respawn, and no missed one: with clocks that do not go back, a
   * tick respawns exactly when it ends a stalled window.
   */
  lemma RespawnIffStalledWindow(init: StallState, trace: seq<Event>, thresholdMs: int, k: nat)
    requires init.grewSince.None? && k < |trace| && Monotone(trace)
    ensures RespawnsAt(init, trace, thresholdMs, k) <==>
      exists j: nat :: StalledWindow(init, trace, thresholdMs, j, k)
  {
    var prior := After(init, trace[..k], thresholdMs);
    AnchorIsOffset(init, trace[..k], thresholdMs);
    if RespawnsAt(init, trace, thresholdMs, k) {
      var j := RespawnHasWindow(init, trace, thresholdMs, k);
    }
    forall j: nat | StalledWindow(init, trace, thresholdMs, j, k)
      ensures RespawnsAt(init, trace, thresholdMs, k)
    {
      assert GrowthAt(init, trace, k);
      if j < k {
        StreakCovers(init, trace, thresholdMs, j, k);
      } else if prior.grewSince.Some? {
        var b := StreakBegan(init, trace[..k], thresholdMs);
        assert trace[..k][b] == trace[b];
      }
    }
  }

  /** The safety half needs no promise about clocks. */
  lemma RespawnHasWindow(init: StallState, trace: seq<Event>, thresholdMs: int, k: nat) returns (j: nat)
    requires init.grewSince.None? && k < |trace|
    requires RespawnsAt(init, trace, thresholdMs, k)
    ensures StalledWindow(init, trace, thresholdMs, j, k)
  {
    AnchorIsOffset(init, trace[..k], thresholdMs);
    if After(init, trace[..k], thresholdMs).grewSince.None? {
      j := k;
    } else {
      j := StreakBegan(init, trace[..k], thresholdMs);
      forall i | j <= i < k
        ensures GrowthAt(init, trace, i) && AnchorAt(init, trace[..i]) == AnchorAt(init, trace[..k])
        ensures !RespawnsAt(init, trace, thresholdMs, i)
      {
        assert trace[..k][..i] == trace[..i];
        assert GrowthAt(init, trace[..k], i) && !RespawnsAt(init, trace[..k], thresholdMs, i);
      }
    }
  }

  /** A tick over a caught-up or shrunken inbox, and every delivery, ends the streak. */
  lemma CaughtUpClearsStreak(init: StallState, trace: seq<Event>, thresholdMs: int)
    requires trace != []
    requires
      var last := trace[|trace| - 1];
      last.Tick? ==> last.size <= AnchorAt(init, trace[..|trace| - 1])
    ensures After(init, trace, thresholdMs).grewSince.None?
    ensures !RespawnsAt(init, trace, thresholdMs, |trace| - 1)
  {
    AnchorIsOffset(init, trace[..|trace| - 1], thresholdMs);
  }
}
