/**
 * Hook migration (src/config-utils.ts): the pass that rewrites Borg's hook
 * commands to one canonical form and removes duplicates, and the refresh and
 * inspection of a whole hook file built on that pass.
 */
module HookMigration {
  import opened Common
  import opened HookOwnership

  /** Any classification of commands whose canonical forms are their own canonical form. */
  type Owner = f: string -> Option<string> |
    (forall c: string :: f(c).Some? ==> f(f(c).value) == f(c))
    witness ((c: string) => None)

  function OwnerFor(p: Install): Owner {
    CanonicalFixpoints(p);
    (c: string) => OwnedCanonical(p, c)
  }

  // ---- The pass over a list of entries ----

  /** `meta` stands for the other fields of the object. */
  datatype Hook = Command(text: string, meta: nat) | OtherHook(n: nat)

  /** An entry without a list of hooks is left alone. */
  datatype Entry = Group(hooks: seq<Hook>, meta: nat) | OtherEntry(n: nat)

  function CanonicalOf(owner: Owner, h: Hook): Option<string> {
    if h.Command? then owner(h.text) else None
  }

  function MigrateHook(owner: Owner, h: Hook): Hook {
    var c := CanonicalOf(owner, h);
    if c.Some? then h.(text := c.value) else h
  }

  function MigrateHooks(owner: Owner, hooks: seq<Hook>): seq<Hook> {
    seq(|hooks|, i requires 0 <= i < |hooks| => MigrateHook(owner, hooks[i]))
  }

  function MigrateEntry(owner: Owner, e: Entry): Entry {
    if e.Group? then e.(hooks := MigrateHooks(owner, e.hooks)) else e
  }

  function MigrateEntries(owner: Owner, entries: seq<Entry>): seq<Entry> {
    seq(|entries|, i requires 0 <= i < |entries| => MigrateEntry(owner, entries[i]))
  }

  predicate Repeats(owner: Owner, h: Hook, seen: set<string>) {
    CanonicalOf(owner, h).Some? && CanonicalOf(owner, h).value in seen
  }

  function Note(owner: Owner, h: Hook, seen: set<string>): set<string> {
    if CanonicalOf(owner, h).Some? && !Repeats(owner, h, seen) then seen + {CanonicalOf(owner, h).value} else seen
  }

  function DedupHooks(owner: Owner, hooks: seq<Hook>, seen: set<string>): seq<Hook> {
    if hooks == [] then []
    else if Repeats(owner, hooks[0], seen) then DedupHooks(owner, hooks[1..], Note(owner, hooks[0], seen))
    else [hooks[0]] + DedupHooks(owner, hooks[1..], Note(owner, hooks[0], seen))
  }

  function SeenAfter(owner: Owner, hooks: seq<Hook>, seen: set<string>): set<string> {
    if hooks == [] then seen else SeenAfter(owner, hooks[1..], Note(owner, hooks[0], seen))
  }

  function HooksOf(e: Entry): seq<Hook> { if e.Group? then e.hooks else [] }

  function DedupEntry(owner: Owner, e: Entry, seen: set<string>): Entry {
    if e.Group? then e.(hooks := DedupHooks(owner, e.hooks, seen)) else e
  }

  function DedupEntries(owner: Owner, entries: seq<Entry>, seen: set<string>): (r: seq<Entry>)
    ensures |r| == |entries|
  {
    if entries == [] then []
    else
      [DedupEntry(owner, entries[0], seen)]
      + DedupEntries(owner, entries[1..], SeenAfter(owner, HooksOf(entries[0]), seen))
  }

  predicate Emptied(before: Entry, after: Entry) {
    HooksOf(before) != [] && HooksOf(after) == []
  }

  function Surviving(before: seq<Entry>, after: seq<Entry>): seq<Entry>
    requires |before| == |after|
  {
    if before == [] then []
    else if Emptied(before[0], after[0]) then Surviving(before[1..], after[1..])
    else [after[0]] + Surviving(before[1..], after[1..])
  }

  function Migrated(owner: Owner, entries: seq<Entry>): seq<Entry> {
    var m := MigrateEntries(owner, entries);
    Surviving(m, DedupEntries(owner, m, {}))
  }

  // ---- The pass on the hooks of all entries in a row ----

  function Flat(entries: seq<Entry>): seq<Hook> {
    if entries == [] then [] else HooksOf(entries[0]) + Flat(entries[1..])
  }

  lemma {:induction false} DedupConcat(owner: Owner, a: seq<Hook>, b: seq<Hook>, seen: set<string>)
    ensures DedupHooks(owner, a + b, seen) == DedupHooks(owner, a, seen) + DedupHooks(owner, b, SeenAfter(owner, a, seen))
    ensures SeenAfter(owner, a + b, seen) == SeenAfter(owner, b, SeenAfter(owner, a, seen))
    decreases |a|
  {
    if a == [] {
      assert a + b == b;
    } else {
      DedupConcat(owner, a[1..], b, Note(owner, a[0], seen));
      assert (a + b)[1..] == a[1..] + b;
    }
  }

  lemma {:induction false} FlatDedup(owner: Owner, entries: seq<Entry>, seen: set<string>)
    ensures Flat(DedupEntries(owner, entries, seen)) == DedupHooks(owner, Flat(entries), seen)
    decreases |entries|
  {
    if entries != [] {
      var e := entries[0];
      var next := SeenAfter(owner, HooksOf(e), seen);
      FlatDedup(owner, entries[1..], next);
      DedupConcat(owner, HooksOf(e), Flat(entries[1..]), seen);
      var d := DedupEntries(owner, entries, seen);
      assert d[1..] == DedupEntries(owner, entries[1..], next);
      assert HooksOf(d[0]) == DedupHooks(owner, HooksOf(e), seen);
    }
  }

  lemma {:induction false} FlatMigrate(owner: Owner, entries: seq<Entry>)
    ensures Flat(MigrateEntries(owner, entries)) == MigrateHooks(owner, Flat(entries))
    decreases |entries|
  {
    if entries != [] {
      FlatMigrate(owner, entries[1..]);
      assert MigrateEntries(owner, entries)[1..] == MigrateEntries(owner, entries[1..]);
    }
  }

  lemma FlatCons(e: Entry, rest: seq<Entry>)
    ensures Flat([e] + rest) == HooksOf(e) + Flat(rest)
  {
    assert ([e] + rest)[1..] == rest;
  }

  lemma {:induction false} FlatSurviving(before: seq<Entry>, after: seq<Entry>)
    requires |before| == |after|
    ensures Flat(Surviving(before, after)) == Flat(after)
    decreases |before|
  {
    if before != [] {
      FlatSurviving(before[1..], after[1..]);
      FlatCons(after[0], Surviving(before[1..], after[1..]));
    }
  }

  /** Entry borders do not matter to what becomes of the hooks. */
  lemma FlatMigrated(owner: Owner, entries: seq<Entry>)
    ensures Flat(Migrated(owner, entries)) == DedupHooks(owner, MigrateHooks(owner, Flat(entries)), {})
  {
    var m := MigrateEntries(owner, entries);
    FlatSurviving(m, DedupEntries(owner, m, {}));
    FlatDedup(owner, m, {});
    FlatMigrate(owner, entries);
  }

  // ---- Owned hooks: one each.  Unowned hooks: all ----

  function Unowned(owner: Owner, hooks: seq<Hook>): seq<Hook> {
    if hooks == [] then []
    else if CanonicalOf(owner, hooks[0]).None? then [hooks[0]] + Unowned(owner, hooks[1..])
    else Unowned(owner, hooks[1..])
  }

  /** The hooks that are forms of the owned command `c`, in order. */
  function FormsOf(owner: Owner, hooks: seq<Hook>, c: string): seq<Hook> {
    if hooks == [] then []
    else if CanonicalOf(owner, hooks[0]) == Some(c) then [hooks[0]] + FormsOf(owner, hooks[1..], c)
    else FormsOf(owner, hooks[1..], c)
  }

  lemma MigrateKeepsOwner(owner: Owner, h: Hook)
    ensures CanonicalOf(owner, MigrateHook(owner, h)) == CanonicalOf(owner, h)
    ensures MigrateHook(owner, MigrateHook(owner, h)) == MigrateHook(owner, h)
  {
  }

  lemma MigrateCons(owner: Owner, hooks: seq<Hook>)
    requires hooks != []
    ensures MigrateHooks(owner, hooks) == [MigrateHook(owner, hooks[0])] + MigrateHooks(owner, hooks[1..])
  {
  }

  lemma DedupCons(owner: Owner, h: Hook, rest: seq<Hook>, seen: set<string>)
    ensures DedupHooks(owner, [h] + rest, seen) ==
      if Repeats(owner, h, seen) then DedupHooks(owner, rest, seen)
      else [h] + DedupHooks(owner, rest, Note(owner, h, seen))
  {
    assert ([h] + rest)[1..] == rest;
  }

  lemma UnownedCons(owner: Owner, h: Hook, rest: seq<Hook>)
    ensures Unowned(owner, [h] + rest) ==
      if CanonicalOf(owner, h).None? then [h] + Unowned(owner, rest) else Unowned(owner, rest)
  {
    assert ([h] + rest)[1..] == rest;
  }

  lemma FormsCons(owner: Owner, h: Hook, rest: seq<Hook>, c: string)
    ensures FormsOf(owner, [h] + rest, c) ==
      if CanonicalOf(owner, h) == Some(c) then [h] + FormsOf(owner, rest, c) else FormsOf(owner, rest, c)
  {
    assert ([h] + rest)[1..] == rest;
  }

  lemma {:induction false} UnownedKept(owner: Owner, hooks: seq<Hook>, seen: set<string>)
    ensures Unowned(owner, DedupHooks(owner, MigrateHooks(owner, hooks), seen)) == Unowned(owner, hooks)
    decreases |hooks|
  {
    if hooks != [] {
      var h := MigrateHook(owner, hooks[0]);
      var rest := MigrateHooks(owner, hooks[1..]);
      var next := Note(owner, h, seen);
      MigrateCons(owner, hooks);
      MigrateKeepsOwner(owner, hooks[0]);
      DedupCons(owner, h, rest, seen);
      UnownedCons(owner, h, DedupHooks(owner, rest, next));
      UnownedKept(owner, hooks[1..], next);
    }
  }

  lemma {:induction false} OneFormLeft(owner: Owner, hooks: seq<Hook>, seen: set<string>, c: string)
    ensures FormsOf(owner, DedupHooks(owner, MigrateHooks(owner, hooks), seen), c) ==
      if c in seen || FormsOf(owner, hooks, c) == [] then []
      else [MigrateHook(owner, FormsOf(owner, hooks, c)[0])]
    decreases |hooks|
  {
    if hooks != [] {
      var h := MigrateHook(owner, hooks[0]);
      var rest := MigrateHooks(owner, hooks[1..]);
      var next := Note(owner, h, seen);
      MigrateCons(owner, hooks);
      MigrateKeepsOwner(owner, hooks[0]);
      DedupCons(owner, h, rest, seen);
      FormsCons(owner, h, DedupHooks(owner, rest, next), c);
      OneFormLeft(owner, hooks[1..], next, c);
    }
  }

  lemma {:induction false} FormsAreForms(owner: Owner, hooks: seq<Hook>, c: string)
    ensures forall h :: h in FormsOf(owner, hooks, c) ==> CanonicalOf(owner, h) == Some(c)
    decreases |hooks|
  {
    if hooks != [] { FormsAreForms(owner, hooks[1..], c); }
  }

  /**
   * After the pass each owned command that was present is there exactly once,
   * as the first of its forms rewritten to the canonical text; no other owned
   * hook is there, and the hooks that are not Borg's are all there in order.
   */
  lemma OneCanonicalHookEach(owner: Owner, entries: seq<Entry>, c: string)
    ensures var forms := FormsOf(owner, Flat(entries), c);
            var left := FormsOf(owner, Flat(Migrated(owner, entries)), c);
            if forms == [] then left == []
            else forms[0].Command? && left == [Command(c, forms[0].meta)]
    ensures Unowned(owner, Flat(Migrated(owner, entries))) == Unowned(owner, Flat(entries))
  {
    FlatMigrated(owner, entries);
    OneFormLeft(owner, Flat(entries), {}, c);
    UnownedKept(owner, Flat(entries), {});
    FormsAreForms(owner, Flat(entries), c);
  }

  // ---- Which entries go ----

  /** The same entry apart from owned hooks. */
  predicate SameEntry(owner: Owner, before: Entry, after: Entry) {
    if before.Group? then
      && after.Group? && after.meta == before.meta
      && |after.hooks| <= |before.hooks|
      && Unowned(owner, after.hooks) == Unowned(owner, before.hooks)
    else after == before
  }

  lemma {:induction false} DedupShortens(owner: Owner, hooks: seq<Hook>, seen: set<string>)
    ensures |DedupHooks(owner, hooks, seen)| <= |hooks|
    decreases |hooks|
  {
    if hooks != [] { DedupShortens(owner, hooks[1..], Note(owner, hooks[0], seen)); }
  }

  lemma {:induction false} EntriesStaySame(owner: Owner, entries: seq<Entry>, seen: set<string>, i: nat)
    requires i < |entries|
    ensures SameEntry(owner, entries[i], DedupEntries(owner, MigrateEntries(owner, entries), seen)[i])
    decreases i
  {
    var m := MigrateEntries(owner, entries);
    if i == 0 {
      var hooks := HooksOf(entries[0]);
      UnownedKept(owner, hooks, seen);
      DedupShortens(owner, MigrateHooks(owner, hooks), seen);
    } else {
      assert m[1..] == MigrateEntries(owner, entries[1..]);
      EntriesStaySame(owner, entries[1..], SeenAfter(owner, HooksOf(m[0]), seen), i - 1);
    }
  }

  predicate Increasing(kept: seq<nat>) { forall i, j :: 0 <= i < j < |kept| ==> kept[i] < kept[j] }

  /** Positions, counted from `off`, of the entries left. */
  predicate KeptIn(kept: seq<nat>, before: seq<Entry>, after: seq<Entry>, left: seq<Entry>, off: nat)
    requires |before| == |after|
  {
    && |kept| == |left| && Increasing(kept)
    && (forall j :: 0 <= j < |kept| ==> off <= kept[j] < off + |after| && left[j] == after[kept[j] - off])
    && (forall i :: off <= i < off + |before| && i !in kept ==> Emptied(before[i - off], after[i - off]))
  }

  lemma KeptSkip(kept: seq<nat>, before: seq<Entry>, after: seq<Entry>, left: seq<Entry>, off: nat)
    requires |before| == |after| && before != []
    requires KeptIn(kept, before[1..], after[1..], left, off + 1)
    requires Emptied(before[0], after[0])
    ensures KeptIn(kept, before, after, left, off)
  {
  }

  lemma KeptTake(kept: seq<nat>, before: seq<Entry>, after: seq<Entry>, left: seq<Entry>, off: nat)
    requires |before| == |after| && before != []
    requires KeptIn(kept, before[1..], after[1..], left, off + 1)
    ensures KeptIn([off] + kept, before, after, [after[0]] + left, off)
  {
    forall i | off <= i < off + |before| && i !in [off] + kept
      ensures Emptied(before[i - off], after[i - off])
    {
      assert ([off] + kept)[0] == off;
      assert i !in kept;
      assert before[1..][i - off - 1] == before[i - off] && after[1..][i - off - 1] == after[i - off];
    }
  }

  lemma {:induction false} KeptIndices(before: seq<Entry>, after: seq<Entry>, off: nat) returns (kept: seq<nat>)
    requires |before| == |after|
    ensures KeptIn(kept, before, after, Surviving(before, after), off)
    decreases |before|
  {
    if before == [] {
      kept := [];
    } else {
      var left := Surviving(before[1..], after[1..]);
      kept := KeptIndices(before[1..], after[1..], off + 1);
      if Emptied(before[0], after[0]) {
        KeptSkip(kept, before, after, left, off);
      } else {
        KeptTake(kept, before, after, left, off);
        kept := [off] + kept;
      }
    }
  }

  /** An entry goes only if it had hooks and all of them were owned; the others stay, in order. */
  lemma OnlyEmptiedEntriesGo(owner: Owner, entries: seq<Entry>) returns (kept: seq<nat>)
    ensures var left := Migrated(owner, entries);
      && |kept| == |left| && Increasing(kept)
      && (forall j :: 0 <= j < |kept| ==> kept[j] < |entries| && SameEntry(owner, entries[kept[j]], left[j]))
      && (forall i :: 0 <= i < |entries| && i !in kept ==>
            HooksOf(entries[i]) != [] && Unowned(owner, HooksOf(entries[i])) == [])
  {
    var m := MigrateEntries(owner, entries);
    var d := DedupEntries(owner, m, {});
    kept := KeptIndices(m, d, 0);
    forall i | 0 <= i < |entries|
      ensures SameEntry(owner, entries[i], d[i])
    {
      EntriesStaySame(owner, entries, {}, i);
    }
  }

  // ---- A second pass changes nothing ----

  /** Neither rewriting nor removing has anything to do. */
  predicate Settled(owner: Owner, entries: seq<Entry>, seen: set<string>) {
    MigrateEntries(owner, entries) == entries && DedupEntries(owner, entries, seen) == entries
  }

  lemma {:induction false} DedupTwice(owner: Owner, hooks: seq<Hook>, seen: set<string>)
    ensures var d := DedupHooks(owner, hooks, seen);
            && DedupHooks(owner, d, seen) == d
            && SeenAfter(owner, d, seen) == SeenAfter(owner, hooks, seen)
    decreases |hooks|
  {
    if hooks != [] {
      var next := Note(owner, hooks[0], seen);
      DedupTwice(owner, hooks[1..], next);
      var rest := DedupHooks(owner, hooks[1..], next);
      if Repeats(owner, hooks[0], seen) {
        assert next == seen;
      } else {
        assert ([hooks[0]] + rest)[1..] == rest;
      }
    }
  }

  lemma {:induction false} DedupKeepsMigrated(owner: Owner, hooks: seq<Hook>, seen: set<string>)
    requires forall h :: h in hooks ==> MigrateHook(owner, h) == h
    ensures forall h :: h in DedupHooks(owner, hooks, seen) ==> MigrateHook(owner, h) == h
    decreases |hooks|
  {
    if hooks != [] { DedupKeepsMigrated(owner, hooks[1..], Note(owner, hooks[0], seen)); }
  }

  lemma EntrySettles(owner: Owner, e: Entry, seen: set<string>)
    ensures var d := DedupEntry(owner, MigrateEntry(owner, e), seen);
            && MigrateEntry(owner, d) == d && DedupEntry(owner, d, seen) == d
            && SeenAfter(owner, HooksOf(d), seen) == SeenAfter(owner, HooksOf(MigrateEntry(owner, e)), seen)
  {
    if e.Group? {
      var m := MigrateHooks(owner, e.hooks);
      forall i | 0 <= i < |m|
        ensures MigrateHook(owner, m[i]) == m[i]
      {
        MigrateKeepsOwner(owner, e.hooks[i]);
      }
      DedupTwice(owner, m, seen);
      DedupKeepsMigrated(owner, m, seen);
      var d := DedupHooks(owner, m, seen);
      assert MigrateHooks(owner, d) == d;
    }
  }

  lemma SettledCons(owner: Owner, e: Entry, rest: seq<Entry>, seen: set<string>)
    requires MigrateEntry(owner, e) == e && DedupEntry(owner, e, seen) == e
    requires Settled(owner, rest, SeenAfter(owner, HooksOf(e), seen))
    ensures Settled(owner, [e] + rest, seen)
  {
    var all := [e] + rest;
    assert all[1..] == rest;
    forall i | 0 <= i < |all|
      ensures MigrateEntry(owner, all[i]) == all[i]
    {
      if i > 0 { assert MigrateEntries(owner, rest)[i - 1] == rest[i - 1]; }
    }
  }

  lemma {:induction false} PassSettles(owner: Owner, entries: seq<Entry>, seen: set<string>)
    ensures var m := MigrateEntries(owner, entries);
            Settled(owner, Surviving(m, DedupEntries(owner, m, seen)), seen)
    decreases |entries|
  {
    if entries != [] {
      var m := MigrateEntries(owner, entries);
      var next := SeenAfter(owner, HooksOf(m[0]), seen);
      assert m[1..] == MigrateEntries(owner, entries[1..]);
      PassSettles(owner, entries[1..], next);
      EntrySettles(owner, entries[0], seen);
      var d := DedupEntry(owner, m[0], seen);
      var rest := Surviving(m[1..], DedupEntries(owner, m[1..], next));
      assert DedupEntries(owner, m, seen)[1..] == DedupEntries(owner, m[1..], next);
      if Emptied(m[0], d) {
        assert next == seen;
      } else {
        SettledCons(owner, d, rest, seen);
      }
    }
  }

  lemma {:induction false} NothingEmptied(entries: seq<Entry>)
    ensures Surviving(entries, entries) == entries
    decreases |entries|
  {
    if entries != [] { NothingEmptied(entries[1..]); }
  }

  lemma SettledIffUnchanged(owner: Owner, entries: seq<Entry>)
    ensures Settled(owner, entries, {}) <==> Migrated(owner, entries) == entries
  {
    PassSettles(owner, entries, {});
    NothingEmptied(entries);
  }

  lemma SecondPassIsIdle(owner: Owner, entries: seq<Entry>)
    ensures Migrated(owner, Migrated(owner, entries)) == Migrated(owner, entries)
  {
    PassSettles(owner, entries, {});
    SettledIffUnchanged(owner, Migrated(owner, entries));
  }

  // ---- The loops ----

  /** The entries of one hook event, rewritten in place. */
  class HookEntries {
    const owner: Owner
    var entries: seq<Entry>

    constructor (owner: Owner, entries: seq<Entry>)
      ensures this.owner == owner && this.entries == entries
    {
      this.owner, this.entries := owner, entries;
    }

    method Canonicalise(hooks: seq<Hook>) returns (r: seq<Hook>, changed: bool)
      ensures r == MigrateHooks(owner, hooks) && (changed <==> r != hooks)
    {
      r, changed := hooks, false;
      for j := 0 to |hooks|
        invariant |r| == |hooks| && (changed <==> r != hooks)
        invariant forall k :: 0 <= k < |r| ==> r[k] == if k < j then MigrateHook(owner, hooks[k]) else hooks[k]
      {
        if r[j].Command? {
          var canonical := owner(r[j].text);
          if canonical.Some? && r[j].text != canonical.value {
            r := r[j := r[j].(text := canonical.value)];
            assert r[j] != hooks[j];
            changed := true;
          }
        }
      }
    }

    method Filter(hooks: seq<Hook>, seen: set<string>) returns (r: seq<Hook>, seen': set<string>, changed: bool)
      ensures r == DedupHooks(owner, hooks, seen) && seen' == SeenAfter(owner, hooks, seen)
      ensures changed <==> r != hooks
    {
      r, seen', changed := [], seen, false;
      for j := 0 to |hooks|
        invariant Filtering(owner, hooks, seen, j, r, seen')
        invariant changed <==> |r| < j
      {
        FilteringStep(owner, hooks, seen, j, r, seen');
        var canonical := CanonicalOf(owner, hooks[j]);
        if canonical.Some? && canonical.value in seen' {
          changed := true;
        } else {
          r := r + [hooks[j]];
          if canonical.Some? { seen' := seen' + {canonical.value}; }
        }
      }
      assert hooks[..|hooks|] == hooks;
    }

    method RewritePhase() returns (changed: bool)
      modifies this
      ensures entries == MigrateEntries(owner, old(entries))
      ensures changed <==> entries != old(entries)
    {
      changed := false;
      for i := 0 to |entries|
        invariant |entries| == |old(entries)| && (changed <==> entries != old(entries))
        invariant forall k :: 0 <= k < |entries| ==>
          entries[k] == if k < i then MigrateEntry(owner, old(entries)[k]) else old(entries)[k]
      {
        if entries[i].Group? {
          var hooks, did := Canonicalise(entries[i].hooks);
          ghost var was := entries;
          entries := entries[i := entries[i].(hooks := hooks)];
          if did {
            assert entries[i] != old(entries)[i];
            changed := true;
          } else {
            assert entries == was;
          }
        }
      }
    }

    method FilterPhase() returns (emptied: set<nat>, changed: bool)
      modifies this
      ensures entries == DedupEntries(owner, old(entries), {})
      ensures emptied == set i: nat | i < |entries| && Emptied(old(entries)[i], entries[i])
      ensures changed <==> entries != old(entries)
    {
      var seen: set<string> := {};
      emptied, changed := {}, false;
      ghost var was := entries;
      ghost var goal := DedupEntries(owner, was, {});
      for i := 0 to |entries|
        invariant |entries| == |was| && DedupEntries(owner, was[i..], seen) == goal[i..]
        invariant forall k :: 0 <= k < |was| ==> entries[k] == if k < i then goal[k] else was[k]
        invariant emptied == set k: nat | k < i && Emptied(was[k], goal[k])
        invariant changed <==> entries != was
      {
        FilterStep(owner, was, goal, i, seen);
        assert entries[i] == was[i];
        if entries[i].Group? {
          var hooks, seen', did := Filter(entries[i].hooks, seen);
          if entries[i].hooks != [] && hooks == [] { emptied := emptied + {i}; }
          ghost var prior := entries;
          entries := entries[i := entries[i].(hooks := hooks)];
          seen := seen';
          if did {
            assert entries[i] != was[i];
            changed := true;
          } else {
            assert entries == prior;
          }
        }
      }
    }

    method RemovePhase(emptied: set<nat>, ghost before: seq<Entry>) returns (changed: bool)
      requires |before| == |entries|
      requires emptied == set i: nat | i < |entries| && Emptied(before[i], entries[i])
      modifies this
      ensures entries == Surviving(before, old(entries))
      ensures changed ==> before != old(entries)
    {
      changed := false;
      ghost var after := entries;
      var i := |entries|;
      while i > 0
        invariant 0 <= i <= |after|
        invariant entries == after[..i] + Surviving(before[i..], after[i..])
        invariant changed ==> before != after
      {
        i := i - 1;
        SurvivingStep(before, after, i);
        if i in emptied {
          assert before[i] != after[i];
          RemoveAt(after, i, Surviving(before[i + 1..], after[i + 1..]));
          entries := entries[..i] + entries[i + 1..];
          changed := true;
        }
      }
      assert before[0..] == before && after[0..] == after;
    }

    method MigrateAndDedup() returns (changed: bool)
      modifies this
      ensures entries == Migrated(owner, old(entries))
      ensures changed <==> entries != old(entries)
    {
      ghost var was := entries;
      var rewrote := RewritePhase();
      ghost var before := entries;
      var emptied, filtered := FilterPhase();
      var removed := RemovePhase(emptied, before);
      SettledIffUnchanged(owner, was);
      changed := rewrote || filtered || removed;
    }

    /** Is there a hook whose command is some form of the owned command? */
    method HasCommandHook(command: string) returns (has: bool)
      ensures has <==> FormsOf(owner, Flat(entries), command) != []
    {
      for i := 0 to |entries|
        invariant FormsOf(owner, Flat(entries), command) == FormsOf(owner, Flat(entries[i..]), command)
      {
        assert entries[i..] == [entries[i]] + entries[i + 1..];
        FlatCons(entries[i], entries[i + 1..]);
        FormsConcat(owner, HooksOf(entries[i]), Flat(entries[i + 1..]), command);
        if entries[i].Group? {
          var hooks := entries[i].hooks;
          for j := 0 to |hooks|
            invariant FormsOf(owner, hooks, command) == FormsOf(owner, hooks[j..], command)
          {
            assert hooks[j..][1..] == hooks[j + 1..];
            if CanonicalOf(owner, hooks[j]) == Some(command) { return true; }
          }
        }
      }
      return false;
    }

    /** How an installer makes sure of its hook: the pass, then one new entry if the hook is missing. */
    method EnsureHook(command: string, meta: nat) returns (changed: bool)
      requires owner(command) == Some(command)
      modifies this
      ensures entries == Ensured(owner, old(entries), command, meta)
      ensures changed <==> entries != old(entries)
    {
      changed := MigrateAndDedup();
      var has := HasCommandHook(command);
      if !has {
        entries := entries + [Group([Command(command, meta)], meta)];
        EnsuredDiffers(owner, old(entries), command, meta);
        changed := true;
      }
    }
  }

  /** The filter has dealt with the first `j` hooks. */
  ghost predicate Filtering(owner: Owner, hooks: seq<Hook>, seen: set<string>, j: nat, r: seq<Hook>, seen': set<string>)
    requires j <= |hooks|
  {
    && r + DedupHooks(owner, hooks[j..], seen') == DedupHooks(owner, hooks, seen)
    && SeenAfter(owner, hooks[j..], seen') == SeenAfter(owner, hooks, seen)
    && |r| <= j && (|r| == j ==> r == hooks[..j])
  }

  lemma FilteringStep(owner: Owner, hooks: seq<Hook>, seen: set<string>, j: nat, r: seq<Hook>, seen': set<string>)
    requires j < |hooks| && Filtering(owner, hooks, seen, j, r, seen')
    ensures
      var h := hooks[j];
      Filtering(owner, hooks, seen, j + 1, if Repeats(owner, h, seen') then r else r + [h], Note(owner, h, seen'))
  {
    assert hooks[j..][1..] == hooks[j + 1..];
    assert hooks[..j + 1] == hooks[..j] + [hooks[j]];
    var later := DedupHooks(owner, hooks[j + 1..], Note(owner, hooks[j], seen'));
    assert r + ([hooks[j]] + later) == r + [hooks[j]] + later;
  }

  lemma SurvivingStep(before: seq<Entry>, after: seq<Entry>, i: nat)
    requires i < |before| == |after|
    ensures Surviving(before[i..], after[i..]) ==
      (if Emptied(before[i], after[i]) then [] else [after[i]])
      + Surviving(before[i + 1..], after[i + 1..])
    ensures after[..i + 1] == after[..i] + [after[i]]
  {
    assert before[i..][1..] == before[i + 1..] && after[i..][1..] == after[i + 1..];
  }

  lemma RemoveAt(a: seq<Entry>, i: nat, rest: seq<Entry>)
    requires i < |a|
    ensures var all := a[..i + 1] + rest; all[..i] + all[i + 1..] == a[..i] + rest
  {
  }

  lemma FilterStep(owner: Owner, was: seq<Entry>, goal: seq<Entry>, i: nat, seen: set<string>)
    requires i < |was| == |goal| && DedupEntries(owner, was[i..], seen) == goal[i..]
    ensures goal[i] == DedupEntry(owner, was[i], seen)
    ensures DedupEntries(owner, was[i + 1..], SeenAfter(owner, HooksOf(was[i]), seen)) == goal[i + 1..]
  {
    assert was[i..][1..] == was[i + 1..] && goal[i..][1..] == goal[i + 1..];
  }

  lemma {:induction false} FormsConcat(owner: Owner, a: seq<Hook>, b: seq<Hook>, c: string)
    ensures FormsOf(owner, a + b, c) == FormsOf(owner, a, c) + FormsOf(owner, b, c)
    decreases |a|
  {
    if a == [] {
      assert a + b == b;
    } else {
      FormsConcat(owner, a[1..], b, c);
      assert (a + b)[1..] == a[1..] + b;
    }
  }

  // ---- Installing a hook ----

  function Ensured(owner: Owner, entries: seq<Entry>, command: string, meta: nat): seq<Entry> {
    var m := Migrated(owner, entries);
    if FormsOf(owner, Flat(m), command) != [] then m
    else m + [Group([Command(command, meta)], meta)]
  }

  lemma {:induction false} FlatConcat(a: seq<Entry>, b: seq<Entry>)
    ensures Flat(a + b) == Flat(a) + Flat(b)
    decreases |a|
  {
    if a == [] {
      assert a + b == b;
    } else {
      var first, rest := a[0], a[1..];
      FlatConcat(rest, b);
      FlatCons(first, rest + b);
      assert a + b == [first] + (rest + b);
      Regroup(HooksOf(first), Flat(rest), Flat(b));
    }
  }

  lemma Regroup(a: seq<Hook>, b: seq<Hook>, c: seq<Hook>)
    ensures a + (b + c) == a + b + c
  {
  }

  lemma EnsuredOnce(owner: Owner, entries: seq<Entry>, command: string, meta: nat)
    requires owner(command) == Some(command)
    ensures |FormsOf(owner, Flat(Ensured(owner, entries, command, meta)), command)| == 1
  {
    var m := Migrated(owner, entries);
    OneCanonicalHookEach(owner, entries, command);
    var e := Group([Command(command, meta)], meta);
    FlatConcat(m, [e]);
    assert Flat([e]) == e.hooks;
    FormsConcat(owner, Flat(m), e.hooks, command);
    assert FormsOf(owner, e.hooks[1..], command) == [];
  }

  lemma EnsuredDiffers(owner: Owner, entries: seq<Entry>, command: string, meta: nat)
    requires owner(command) == Some(command)
    requires FormsOf(owner, Flat(Migrated(owner, entries)), command) == []
    ensures Ensured(owner, entries, command, meta) != entries
  {
    EnsuredOnce(owner, entries, command, meta);
    OneCanonicalHookEach(owner, entries, command);
  }

  // ---- A whole hook file ----

  /** The value stored under one event name. */
  datatype Event = Listed(entries: seq<Entry>) | OtherValue(n: nat)

  datatype Content =
    | Absent
    | Malformed
    | NoHooks
    | HooksNotAnObject
    | Hooks(events: seq<Event>)

  datatype Status = NoFile | Current | Stale | Invalid

  datatype Refusal = NotAnObject | HooksInvalid

  function MigratedEvent(owner: Owner, e: Event): Event {
    if e.Listed? then Listed(Migrated(owner, e.entries)) else e
  }

  function MigratedEvents(owner: Owner, events: seq<Event>): seq<Event> {
    seq(|events|, i requires 0 <= i < |events| => MigratedEvent(owner, events[i]))
  }

  function Refreshed(owner: Owner, c: Content): Content {
    if c.Hooks? then Hooks(MigratedEvents(owner, c.events)) else c
  }

  function Inspected(owner: Owner, c: Content): Status {
    match c
    case Absent => NoFile
    case Malformed => Invalid
    case NoHooks => Current
    case HooksNotAnObject => Invalid
    case Hooks(events) => if MigratedEvents(owner, events) == events then Current else Stale
  }

  method MigrateEvents(owner: Owner, events: seq<Event>) returns (r: seq<Event>, changed: bool)
    ensures r == MigratedEvents(owner, events) && (changed <==> r != events)
  {
    r, changed := events, false;
    for i := 0 to |events|
      invariant |r| == |events| && (changed <==> r != events)
      invariant forall k :: 0 <= k < |r| ==> r[k] == if k < i then MigratedEvent(owner, events[k]) else events[k]
    {
      if r[i].Listed? {
        var list := new HookEntries(owner, r[i].entries);
        var did := list.MigrateAndDedup();
        ghost var was := r;
        r := r[i := Listed(list.entries)];
        if did {
          assert r[i] != events[i];
          changed := true;
        } else {
          assert r == was;
        }
      }
    }
  }

  class HookFile {
    const owner: Owner
    var content: Content

    constructor (install: Install, content: Content)
      ensures owner == OwnerFor(install) && this.content == content
    {
      owner, this.content := OwnerFor(install), content;
    }

    /** Writes only when something changed; a malformed file is refused and left alone. */
    method Refresh() returns (r: Result<bool, Refusal>)
      modifies this
      ensures content == Refreshed(owner, old(content))
      ensures r.Err? <==> Inspected(owner, old(content)) == Invalid
      ensures r.Ok? ==> (r.value <==> Inspected(owner, old(content)) == Stale)
      ensures r == Ok(false) ==> content == old(content)
    {
      match content
      case Absent => return Ok(false);
      case Malformed => return Err(NotAnObject);
      case NoHooks => return Ok(false);
      case HooksNotAnObject => return Err(HooksInvalid);
      case Hooks(events) =>
        var events', changed := MigrateEvents(owner, events);
        if changed { content := Hooks(events'); }
        return Ok(changed);
    }

    method Inspect() returns (status: Status)
      ensures status == Inspected(owner, content)
    {
      match content
      case Absent => return NoFile;
      case Malformed => return Invalid;
      case NoHooks => return Current;
      case HooksNotAnObject => return Invalid;
      case Hooks(events) =>
        var _, stale := MigrateEvents(owner, events);
        return if stale then Stale else Current;
    }
  }

  /** A refreshed file is never reported stale, and refreshing it again changes nothing. */
  lemma RefreshedIsNeverStale(owner: Owner, c: Content)
    ensures Inspected(owner, Refreshed(owner, c)) != Stale
    ensures Refreshed(owner, Refreshed(owner, c)) == Refreshed(owner, c)
  {
    if c.Hooks? {
      var once := MigratedEvents(owner, c.events);
      forall i | 0 <= i < |once|
        ensures MigratedEvent(owner, once[i]) == once[i]
      {
        if c.events[i].Listed? { SecondPassIsIdle(owner, c.events[i].entries); }
      }
      assert MigratedEvents(owner, once) == once;
    }
  }
}
