/**
 * Borg's transaction over the Hermes configuration
 * (src/hermes-plugin-install.ts): an undo log of per-key writes, reversed
 * newest first.  Any command may fail, before or after it wrote.
 */
module HermesConfig {
  import opened Common

  datatype Name = Plugins | Enabled | Disabled | Entries | BorgPlugin | Other(n: nat)

  type Path = seq<Name>

  /** A configuration value; lists are the plugin lists. */
  datatype Config =
    | Scalar(n: nat)
    | Names(items: seq<Name>)
    | Mapping(fields: map<Name, Config>)

  const ENABLED: Path := [Plugins, Enabled]
  const DISABLED: Path := [Plugins, Disabled]
  const ENTRY: Path := [Plugins, Entries, BorgPlugin]

  function Get(c: Config, p: Path): Option<Config> {
    if p == [] then Some(c)
    else if c.Mapping? && p[0] in c.fields then Get(c.fields[p[0]], p[1..])
    else None
  }

  /** Writes a value, creating the mappings on the way. */
  function Set(c: Config, p: Path, v: Config): Config
    decreases |p|
  {
    if p == [] then v
    else
      var fields := if c.Mapping? then c.fields else map[];
      var inner := if p[0] in fields then fields[p[0]] else Mapping(map[]);
      Mapping(fields[p[0] := Set(inner, p[1..], v)])
  }

  /** Removes a key; mappings it empties stay. */
  function Unset(c: Config, p: Path): Config
    decreases |p|
  {
    if p == [] || !c.Mapping? || p[0] !in c.fields then c
    else if |p| == 1 then Mapping(c.fields - {p[0]})
    else Mapping(c.fields[p[0] := Unset(c.fields[p[0]], p[1..])])
  }

  /** Neither path is inside the other. */
  predicate Apart(p: Path, q: Path) { !(p <= q) && !(q <= p) }

  lemma ListsApart()
    ensures Apart(ENABLED, DISABLED) && Apart(DISABLED, ENABLED)
    ensures Apart(ENTRY, ENABLED) && Apart(ENTRY, DISABLED)
  {
    assert ENABLED[1] == Enabled && DISABLED[1] == Disabled && ENTRY[1] == Entries;
  }

  lemma {:induction false} GetAfterSet(c: Config, p: Path, v: Config)
    ensures Get(Set(c, p, v), p) == Some(v)
    decreases |p|
  {
    if p != [] {
      var fields := if c.Mapping? then c.fields else map[];
      var inner := if p[0] in fields then fields[p[0]] else Mapping(map[]);
      GetAfterSet(inner, p[1..], v);
    }
  }

  lemma {:induction false} GetAfterUnset(c: Config, p: Path)
    requires p != []
    ensures Get(Unset(c, p), p) == None
    decreases |p|
  {
    if c.Mapping? && p[0] in c.fields && |p| > 1 {
      GetAfterUnset(c.fields[p[0]], p[1..]);
    }
  }

  lemma ApartTails(p: Path, q: Path)
    requires p != [] && q != [] && p[0] == q[0]
    ensures Apart(p, q) <==> Apart(p[1..], q[1..])
  {
    assert p == [p[0]] + p[1..] && q == [q[0]] + q[1..];
  }

  lemma {:induction false} SetFrame(c: Config, p: Path, v: Config, q: Path)
    requires Apart(p, q)
    ensures Get(Set(c, p, v), q) == Get(c, q)
    decreases |p|
  {
    if p[0] == q[0] {
      ApartTails(p, q);
      var fields := if c.Mapping? then c.fields else map[];
      var inner := if p[0] in fields then fields[p[0]] else Mapping(map[]);
      SetFrame(inner, p[1..], v, q[1..]);
    }
  }

  lemma {:induction false} UnsetFrame(c: Config, p: Path, q: Path)
    requires Apart(p, q)
    ensures Get(Unset(c, p), q) == Get(c, q)
    decreases |p|
  {
    if p[0] == q[0] && c.Mapping? && p[0] in c.fields {
      ApartTails(p, q);
      if |p| > 1 { UnsetFrame(c.fields[p[0]], p[1..], q[1..]); }
    }
  }

  /** Nothing but nested empty mappings: what unsetting leaves leaves behind. */
  predicate OnlyEmptyMappings(c: Config) {
    c.Mapping? && forall k :: k in c.fields ==> OnlyEmptyMappings(c.fields[k])
  }

  lemma {:induction false} InsideEmptyMappings(c: Config, p: Path)
    requires OnlyEmptyMappings(c)
    ensures Get(c, p).Some? ==> OnlyEmptyMappings(Get(c, p).value)
    decreases |p|
  {
    if p != [] && p[0] in c.fields { InsideEmptyMappings(c.fields[p[0]], p[1..]); }
  }

  lemma {:induction false} GetSplit(c: Config, p: Path, q: Path)
    ensures Get(c, p + q) == if Get(c, p).Some? then Get(Get(c, p).value, q) else None
    decreases |p|
  {
    if p == [] {
      assert p + q == q;
    } else if c.Mapping? && p[0] in c.fields {
      assert (p + q)[1..] == p[1..] + q;
      GetSplit(c.fields[p[0]], p[1..], q);
    }
  }

  predicate Lists(c: Config, p: Path) {
    Get(c, p).Some? && Get(c, p).value.Names? && BorgPlugin in Get(c, p).value.items
  }

  function ItemsAt(c: Config, p: Path): seq<Name> {
    if Get(c, p).Some? && Get(c, p).value.Names? then Get(c, p).value.items else []
  }

  function Without(items: seq<Name>): (r: seq<Name>)
    ensures BorgPlugin !in r
  {
    if items == [] then []
    else if items[0] == BorgPlugin then Without(items[1..])
    else [items[0]] + Without(items[1..])
  }

  /** Only the keys `touched` (and what is inside or around them) may differ. */
  ghost predicate SameExcept(a: Config, b: Config, touched: set<Path>) {
    forall q: Path :: (forall p :: p in touched ==> Apart(p, q)) ==> Get(a, q) == Get(b, q)
  }

  /**
   * The host: the Hermes command line and the backup directory.  Every read and
   * every command may fail, a command having written or not; `failures` counts
   * those that did.
   */
  class Cli {
    var tree: Config
    ghost var failures: nat

    constructor (tree: Config)
      ensures this.tree == tree && failures == 0
    {
      this.tree := tree;
      failures := 0;
    }

    /** A read, or a step on the backup files: it leaves the configuration alone. */
    method Attempt() returns (ok: bool)
      modifies this`failures
      ensures failures == if ok then old(failures) else old(failures) + 1
    {
      ok := *;
      if !ok { failures := failures + 1; }
    }

    method SetVerified(p: Path, v: Config) returns (ok: bool)
      modifies this
      ensures failures == if ok then old(failures) else old(failures) + 1
      ensures tree == Set(old(tree), p, v) || (!ok && tree == old(tree))
      ensures SameExcept(old(tree), tree, {p})
    {
      forall q: Path | Apart(p, q) { SetFrame(tree, p, v, q); }
      if * {
        tree := Set(tree, p, v);
        if * { return true; }
      }
      failures := failures + 1;
      return false;
    }

    method UnsetVerified(p: Path) returns (ok: bool)
      modifies this
      ensures failures == if ok then old(failures) else old(failures) + 1
      ensures tree == Unset(old(tree), p) || (!ok && tree == old(tree))
      ensures SameExcept(old(tree), tree, {p})
    {
      forall q: Path | Apart(p, q) { UnsetFrame(tree, p, q); }
      if * {
        tree := Unset(tree, p);
        if * { return true; }
      }
      failures := failures + 1;
      return false;
    }

    /** Adds the plugin to the enabled list and takes it off the disabled one, perhaps only partly. */
    method EnableCommand() returns (ok: bool)
      modifies this
      ensures failures == if ok then old(failures) else old(failures) + 1
      ensures SameExcept(old(tree), tree, {ENABLED, DISABLED})
      ensures Lists(old(tree), ENABLED) ==> Lists(tree, ENABLED)
      ensures !Lists(old(tree), DISABLED) ==> !Lists(tree, DISABLED)
    {
      if * {
        var enabled := Names(ItemsAt(tree, ENABLED) + [BorgPlugin]);
        GetAfterSet(tree, ENABLED, enabled);
        forall q: Path | Apart(ENABLED, q) { SetFrame(tree, ENABLED, enabled, q); }
        tree := Set(tree, ENABLED, enabled);
        ListsApart();
      }
      var unblock := *;
      if unblock && Lists(tree, DISABLED) {
        var disabled := Names(Without(ItemsAt(tree, DISABLED)));
        GetAfterSet(tree, DISABLED, disabled);
        forall q: Path | Apart(DISABLED, q) { SetFrame(tree, DISABLED, disabled, q); }
        tree := Set(tree, DISABLED, disabled);
        ListsApart();
      }
      ok := Attempt();
    }
  }

  // ---- The undo log ----

  datatype Undo =
    | Key(key: Path, before: Option<Config>, wrote: Option<Config>)
    | Enable(added: bool, removed: bool)

  /** Recorded keys do not contain one another, nor the plugin lists, nor Borg's entry. */
  predicate Independent(undo: seq<Undo>) {
    && (forall i :: 0 <= i < |undo| && undo[i].Key? ==>
      && undo[i].key != []
      && (Apart(undo[i].key, ENTRY) || ENTRY <= undo[i].key)
      && ((exists j :: 0 <= j < |undo| && undo[j].Enable?) ==> Apart(undo[i].key, ENABLED) && Apart(undo[i].key, DISABLED)))
    && (forall i, j :: 0 <= i < |undo| && 0 <= j < |undo| && undo[i].Key? && undo[j].Key? ==>
      undo[i].key == undo[j].key || Apart(undo[i].key, undo[j].key))
  }

  /** Record `j` is the first record of its key from `i` on. */
  predicate FirstFrom(undo: seq<Undo>, i: nat, j: nat)
  {
    i <= j < |undo| && undo[j].Key? && forall k :: i <= k < j && undo[k].Key? ==> undo[k].key != undo[j].key
  }

  predicate FirstEnableFrom(undo: seq<Undo>, i: nat, j: nat) {
    i <= j < |undo| && undo[j].Enable? && forall k :: i <= k < j ==> !undo[k].Enable?
  }

  /** What the records from `i` on promise once they are all reversed. */
  ghost predicate Reversed(c: Config, undo: seq<Undo>, i: nat) {
    && (forall j: nat :: FirstFrom(undo, i, j) ==> Get(c, undo[j].key) == undo[j].before)
    && (forall j: nat :: FirstEnableFrom(undo, i, j) ==>
      && (undo[j].added ==> !Lists(c, ENABLED))
      && (undo[j].removed ==> Lists(c, DISABLED)))
  }

  /** The plugin lists that reversing this record may write. */
  function ListsTouched(step: Undo): set<Path>
    requires step.Enable?
  {
    (if step.added then {ENABLED} else {}) + (if step.removed then {DISABLED} else {})
  }

  /** The keys that a rollback may write. */
  function Touched(undo: seq<Undo>): set<Path> {
    if undo == [] then {}
    else
      Touched(undo[..|undo| - 1])
      + (var last := undo[|undo| - 1]; if last.Key? then {last.key} else ListsTouched(last))
  }

  lemma SameExceptTrans(a: Config, b: Config, c: Config, s: set<Path>, t: set<Path>)
    requires SameExcept(a, b, s) && SameExcept(b, c, t)
    ensures SameExcept(a, c, s + t)
  {
    forall q: Path | forall p :: p in s + t ==> Apart(p, q)
      ensures Get(a, q) == Get(c, q)
    {
      assert forall p :: p in s ==> p in s + t;
      assert forall p :: p in t ==> p in s + t;
    }
  }

  lemma ReversedKeyStep(a: Config, b: Config, undo: seq<Undo>, i: nat)
    requires i < |undo| && undo[i].Key? && Independent(undo)
    requires Reversed(a, undo, i + 1) && SameExcept(a, b, {undo[i].key})
    requires Get(b, undo[i].key) == undo[i].before
    ensures Reversed(b, undo, i)
  {
    forall j: nat | FirstFrom(undo, i, j)
      ensures Get(b, undo[j].key) == undo[j].before
    {
      if j != i { assert FirstFrom(undo, i + 1, j); }
    }
    forall j: nat | FirstEnableFrom(undo, i, j)
      ensures (undo[j].added ==> !Lists(b, ENABLED)) && (undo[j].removed ==> Lists(b, DISABLED))
    {
      assert FirstEnableFrom(undo, i + 1, j);
    }
  }

  lemma ReversedEnableStep(a: Config, b: Config, undo: seq<Undo>, i: nat)
    requires i < |undo| && undo[i].Enable? && Independent(undo)
    requires Reversed(a, undo, i + 1) && SameExcept(a, b, ListsTouched(undo[i]))
    requires undo[i].added ==> !Lists(b, ENABLED)
    requires undo[i].removed ==> Lists(b, DISABLED)
    ensures Reversed(b, undo, i)
  {
    forall j: nat | FirstFrom(undo, i, j)
      ensures Get(b, undo[j].key) == undo[j].before
    {
      assert FirstFrom(undo, i + 1, j);
    }
    forall j: nat | FirstEnableFrom(undo, i, j)
      ensures j == i
    {
    }
  }

  /** Removing an entry that holds only empty mappings changes no recorded key that held anything else. */
  lemma CleanupKeeps(c: Config, key: Path)
    requires Get(c, ENTRY).Some? && OnlyEmptyMappings(Get(c, ENTRY).value)
    requires Apart(key, ENTRY) || ENTRY <= key
    requires Get(c, key).Some? && ENTRY <= key ==> !OnlyEmptyMappings(Get(c, key).value)
    ensures Get(Unset(c, ENTRY), key) == Get(c, key)
  {
    if Apart(ENTRY, key) {
      UnsetFrame(c, ENTRY, key);
    } else {
      var rest := key[|ENTRY|..];
      assert key == ENTRY + rest;
      GetSplit(c, ENTRY, rest);
      InsideEmptyMappings(Get(c, ENTRY).value, rest);
      GetAfterUnset(c, ENTRY);
      GetSplit(Unset(c, ENTRY), ENTRY, rest);
    }
  }

  lemma {:induction false} TouchedHas(undo: seq<Undo>, i: nat)
    requires i < |undo|
    ensures undo[i].Key? ==> undo[i].key in Touched(undo)
    ensures undo[i].Enable? ==> ListsTouched(undo[i]) <= Touched(undo)
  {
    if i < |undo| - 1 { TouchedHas(undo[..|undo| - 1], i); }
  }

  // ---- What a rollback amounts to ----

  /** The key holds neither what Borg wrote nor what was there before. */
  predicate Changed(c: Config, step: Undo)
    requires step.Key?
  {
    Get(c, step.key) != step.wrote && Get(c, step.key) != step.before
  }

  /** The plugin is on the disabled list that it is to be put back on. */
  predicate Blocked(c: Config, step: Undo)
    requires step.Enable?
  {
    step.removed && Lists(c, DISABLED)
  }

  function WithKeyBack(c: Config, step: Undo): Config
    requires step.Key?
  {
    if Get(c, step.key) != step.wrote then c
    else if step.before.None? then Unset(c, step.key)
    else Set(c, step.key, step.before.value)
  }

  function WithListsBack(c: Config, step: Undo): Config
    requires step.Enable?
  {
    var off := if step.added && Lists(c, ENABLED) then Set(c, ENABLED, Names(Without(ItemsAt(c, ENABLED)))) else c;
    if step.removed && !Lists(off, DISABLED) then Set(off, DISABLED, Names(ItemsAt(off, DISABLED) + [BorgPlugin])) else off
  }

  function WithBack(c: Config, step: Undo): Config { if step.Key? then WithKeyBack(c, step) else WithListsBack(c, step) }

  predicate Stays(c: Config, step: Undo) { if step.Key? then Changed(c, step) else Blocked(c, step) }

  /** Something is left although nothing fails, when the records are reversed newest first. */
  predicate LeavesSome(c: Config, undo: seq<Undo>)
    decreases |undo|
  {
    undo != [] &&
      var last := undo[|undo| - 1];
      Stays(c, last) || LeavesSome(WithBack(c, last), undo[..|undo| - 1])
  }

  datatype Reversal = Restored | AsBefore | Left

  class Transaction {
    const config: Cli
    var undo: seq<Undo>
    var begun: bool
    var entryBefore: Option<Config>

    constructor (config: Cli)
      ensures this.config == config && undo == [] && !begun
    {
      this.config := config;
      undo, begun, entryBefore := [], false, None;
    }

    /** Reading the configuration and copying it may fail too. */
    method Begin() returns (ok: bool)
      modifies this, config`failures
      ensures config.failures == if ok then old(config.failures) else old(config.failures) + 1
      ensures undo == old(undo) && (ok ==> begun)
      ensures (begun == old(begun) && entryBefore == old(entryBefore)) || (!old(begun) && begun && entryBefore == Get(config.tree, ENTRY))
    {
      if begun { return true; }
      ok := config.Attempt();
      if !ok { return; }
      ok := config.Attempt();
      if !ok { return; }
      begun := true;
      entryBefore := Get(config.tree, ENTRY);
      ok := config.Attempt();
    }

    /** What an aborted read leaves: no record and no write. */
    twostate predicate Unrecorded()
      reads this, config
    {
      undo == old(undo) && config.tree == old(config.tree)
    }

    twostate predicate EntryNoted()
      reads this, config
    {
      (begun == old(begun) && entryBefore == old(entryBefore)) || (!old(begun) && begun && entryBefore == Get(old(config.tree), ENTRY))
    }

    /** The undo entry is recorded before the command: a failed command may still have written. */
    method SetKey(key: Path, value: Config) returns (ok: bool)
      modifies this, config
      ensures EntryNoted()
      ensures (!ok && Unrecorded()) || (begun && undo == old(undo) + [Key(key, Get(old(config.tree), key), Some(value))])
      ensures SameExcept(old(config.tree), config.tree, {key})
      ensures config.failures == if ok then old(config.failures) else old(config.failures) + 1
      ensures Get(config.tree, key) == Some(value) || (!ok && config.tree == old(config.tree))
    {
      ok := Begin();
      if !ok { return; }
      ok := config.Attempt();
      if !ok { return; }
      undo := undo + [Key(key, Get(config.tree, key), Some(value))];
      GetAfterSet(config.tree, key, value);
      ok := config.SetVerified(key, value);
    }

    method UnsetKey(key: Path) returns (ok: bool)
      requires key != []
      modifies this, config
      ensures EntryNoted()
      ensures (!ok && Unrecorded()) || (begun && undo == old(undo) + [Key(key, Get(old(config.tree), key), None)])
      ensures SameExcept(old(config.tree), config.tree, {key})
      ensures config.failures == if ok then old(config.failures) else old(config.failures) + 1
      ensures Get(config.tree, key) == None || (!ok && config.tree == old(config.tree))
    {
      ok := Begin();
      if !ok { return; }
      ok := config.Attempt();
      if !ok { return; }
      undo := undo + [Key(key, Get(config.tree, key), None)];
      GetAfterUnset(config.tree, key);
      ok := config.UnsetVerified(key);
    }

    method EnablePlugin() returns (ok: bool)
      modifies this, config
      ensures EntryNoted()
      ensures (!ok && Unrecorded() && config.failures == old(config.failures) + 1) ||
        (begun && undo == old(undo) + [Enable(!Lists(old(config.tree), ENABLED), Lists(old(config.tree), DISABLED))])
      ensures SameExcept(old(config.tree), config.tree, {ENABLED, DISABLED})
      ensures Lists(old(config.tree), ENABLED) ==> Lists(config.tree, ENABLED)
      ensures !Lists(old(config.tree), DISABLED) ==> !Lists(config.tree, DISABLED)
      ensures config.failures == old(config.failures) || (!ok && config.failures == old(config.failures) + 1)
      ensures ok <==> config.failures == old(config.failures) && Lists(config.tree, ENABLED)
    {
      ok := Begin();
      if !ok { return; }
      ok := config.Attempt();
      if !ok { return; }
      undo := undo + [Enable(!Lists(config.tree, ENABLED), Lists(config.tree, DISABLED))];
      ok := config.EnableCommand();
      if !ok { return; }
      ok := config.Attempt();
      ok := ok && Lists(config.tree, ENABLED);
    }

    /** Reverse one key write; a key that does not hold Borg's value is never written. */
    method ReverseKey(step: Undo) returns (r: Reversal)
      requires step.Key? && step.key != []
      modifies config
      ensures config.failures >= old(config.failures)
      ensures config.failures == old(config.failures) ==> config.tree == WithKeyBack(old(config.tree), step)
      ensures r == Left <==> config.failures > old(config.failures) || Changed(old(config.tree), step)
      ensures r == Restored <==> config.failures == old(config.failures) && Get(old(config.tree), step.key) == step.wrote
      ensures r != Left ==> Get(config.tree, step.key) == step.before
      ensures Get(old(config.tree), step.key) != step.wrote ==> config.tree == old(config.tree)
      ensures SameExcept(old(config.tree), config.tree, {step.key})
    {
      var ok := config.Attempt();
      if !ok { return Left; }
      var current := Get(config.tree, step.key);
      if current != step.wrote {
        return if current == step.before then AsBefore else Left;
      }
      if step.before.None? {
        GetAfterUnset(config.tree, step.key);
        ok := config.UnsetVerified(step.key);
      } else {
        GetAfterSet(config.tree, step.key, step.before.value);
        ok := config.SetVerified(step.key, step.before.value);
      }
      return if ok then Restored else Left;
    }

    /**
     * Reverse an enable.  It is left exactly when a read or command failed, or
     * the plugin is still (or again) disabled; otherwise it is off the enabled
     * list if Borg put it there and back on the disabled one if Borg took it off.
     */
    method ReverseEnable(step: Undo) returns (left: bool)
      requires step.Enable?
      modifies config
      ensures config.failures >= old(config.failures)
      ensures config.failures == old(config.failures) ==> config.tree == WithListsBack(old(config.tree), step)
      ensures left <==> config.failures > old(config.failures) || Blocked(old(config.tree), step)
      ensures !left ==> (
        Get(config.tree, ENABLED) ==
          if step.added && Lists(old(config.tree), ENABLED) then Some(Names(Without(ItemsAt(old(config.tree), ENABLED))))
          else Get(old(config.tree), ENABLED))
      ensures !left ==> (
        Get(config.tree, DISABLED) ==
          if step.removed then Some(Names(ItemsAt(old(config.tree), DISABLED) + [BorgPlugin]))
          else Get(old(config.tree), DISABLED))
      ensures !left && step.added ==> !Lists(config.tree, ENABLED)
      ensures !left && step.removed ==> Lists(config.tree, DISABLED)
      ensures SameExcept(old(config.tree), config.tree, ListsTouched(step))
    {
      ListsApart();
      var ok;
      if step.added {
        ok := config.Attempt();
        if !ok { return true; }
        if Lists(config.tree, ENABLED) {
          var remaining := Names(Without(ItemsAt(config.tree, ENABLED)));
          GetAfterSet(config.tree, ENABLED, remaining);
          ok := config.SetVerified(ENABLED, remaining);
          if !ok { return true; }
        }
      }
      label halfway:
      assert SameExcept(old(config.tree), config.tree, if step.added then {ENABLED} else {});
      assert Get(config.tree, DISABLED) == Get(old(config.tree), DISABLED);
      if step.removed {
        ok := config.Attempt();
        if !ok { return true; }
        if Lists(config.tree, DISABLED) { return true; }
        var restored := Names(ItemsAt(config.tree, DISABLED) + [BorgPlugin]);
        GetAfterSet(config.tree, DISABLED, restored);
        ok := config.SetVerified(DISABLED, restored);
        SameExceptTrans(old(config.tree), old@halfway(config.tree), config.tree, if step.added then {ENABLED} else {}, {DISABLED});
        return !ok;
      }
      return false;
    }

    /** Reverse everything, newest first; `left` counts what could not be put back. */
    method Rollback() returns (left: nat)
      requires Independent(undo)
      modifies config
      ensures left == 0 <==> config.failures == old(config.failures) && !LeavesSome(old(config.tree), undo)
      ensures left == 0 ==> forall j: nat :: FirstFrom(undo, 0, j) ==>
        || Get(config.tree, undo[j].key) == undo[j].before
        || (entryBefore.None? && ENTRY <= undo[j].key && undo[j].before.Some? && OnlyEmptyMappings(undo[j].before.value))
      ensures left == 0 ==> forall j: nat :: FirstEnableFrom(undo, 0, j) ==>
        (undo[j].added ==> !Lists(config.tree, ENABLED)) && (undo[j].removed ==> Lists(config.tree, DISABLED))
      ensures left == 0 && undo != [] && entryBefore.None? ==>
        Get(config.tree, ENTRY).None? || !OnlyEmptyMappings(Get(config.tree, ENTRY).value)
      ensures SameExcept(old(config.tree), config.tree, Touched(undo) + {ENTRY})
      ensures entryBefore.Some? ==> SameExcept(old(config.tree), config.tree, Touched(undo))
      ensures undo == [] ==> config.tree == old(config.tree)
      ensures forall q: Path | ENTRY <= q && forall p :: p in Touched(undo) ==> Apart(p, q) ::
        Get(config.tree, q) == Get(old(config.tree), q) || Get(config.tree, q) == None
    {
      left := 0;
      var i := |undo|;
      assert undo[..i] == undo;
      while i > 0
        invariant 0 <= i <= |undo|
        invariant config.failures >= old(config.failures)
        invariant config.failures > old(config.failures) ==> left > 0
        invariant config.failures == old(config.failures) ==>
          (LeavesSome(old(config.tree), undo) <==> left > 0 || LeavesSome(config.tree, undo[..i]))
        invariant left == 0 ==> Reversed(config.tree, undo, i)
        invariant SameExcept(old(config.tree), config.tree, Touched(undo))
        invariant i == |undo| ==> config.tree == old(config.tree)
      {
        label step:
        i := i - 1;
        assert undo[..i + 1][..i] == undo[..i];
        if undo[i].Enable? {
          var stays := ReverseEnable(undo[i]);
          if stays { left := left + 1; }
          else if left == 0 { ReversedEnableStep(old@step(config.tree), config.tree, undo, i); }
          TouchedHas(undo, i);
          SameExceptTrans(old(config.tree), old@step(config.tree), config.tree, Touched(undo), ListsTouched(undo[i]));
          assert Touched(undo) + ListsTouched(undo[i]) == Touched(undo);
        } else {
          var r := ReverseKey(undo[i]);
          if r == Left { left := left + 1; }
          else if left == 0 { ReversedKeyStep(old@step(config.tree), config.tree, undo, i); }
          TouchedHas(undo, i);
          SameExceptTrans(old(config.tree), old@step(config.tree), config.tree, Touched(undo), {undo[i].key});
          assert Touched(undo) + {undo[i].key} == Touched(undo);
        }
      }
      label reversed:
      if |undo| > 0 && entryBefore.None? && left == 0 {
        var entry := Get(config.tree, ENTRY);
        var ok := config.Attempt();
        if !ok {
          left := 1;
        } else if entry.Some? && OnlyEmptyMappings(entry.value) {
          CleanupInside(config.tree);
          ok := config.UnsetVerified(ENTRY);
          if !ok { left := 1; }
          else { AfterCleanup(old@reversed(config.tree), undo); }
        }
      }
      SameExceptTrans(old(config.tree), old@reversed(config.tree), config.tree, Touched(undo), {ENTRY});
    }
  }

  /** Unsetting the entry takes everything inside it. */
  lemma CleanupInside(c: Config)
    ensures forall q: Path | ENTRY <= q :: Get(Unset(c, ENTRY), q) == None
  {
    GetAfterUnset(c, ENTRY);
    forall q: Path | ENTRY <= q
      ensures Get(Unset(c, ENTRY), q) == None
    {
      InsideAbsent(Unset(c, ENTRY), q);
    }
  }

  lemma AfterCleanup(c: Config, undo: seq<Undo>)
    requires Independent(undo) && Reversed(c, undo, 0)
    requires Get(c, ENTRY).Some? && OnlyEmptyMappings(Get(c, ENTRY).value)
    ensures forall j: nat :: FirstFrom(undo, 0, j) ==>
      || Get(Unset(c, ENTRY), undo[j].key) == undo[j].before
      || (ENTRY <= undo[j].key && undo[j].before.Some? && OnlyEmptyMappings(undo[j].before.value))
    ensures forall j: nat :: FirstEnableFrom(undo, 0, j) ==>
      && (undo[j].added ==> !Lists(Unset(c, ENTRY), ENABLED))
      && (undo[j].removed ==> Lists(Unset(c, ENTRY), DISABLED))
  {
    forall j: nat | FirstFrom(undo, 0, j) && !(ENTRY <= undo[j].key && undo[j].before.Some? && OnlyEmptyMappings(undo[j].before.value))
      ensures Get(Unset(c, ENTRY), undo[j].key) == undo[j].before
    {
      CleanupKeeps(c, undo[j].key);
    }
    ListsApart();
    UnsetFrame(c, ENTRY, ENABLED);
    UnsetFrame(c, ENTRY, DISABLED);
  }

  // ---- When something is left although nothing fails ----

  /** Record `j` is the last record of its key. */
  predicate LastOf(undo: seq<Undo>, j: nat) {
    j < |undo| && undo[j].Key? && forall k :: j < k < |undo| && undo[k].Key? ==> undo[k].key != undo[j].key
  }

  /** Record `k` is the next record of the key of record `j`. */
  predicate NextOf(undo: seq<Undo>, j: nat, k: nat) {
    && j < k < |undo| && undo[j].Key? && undo[k].Key? && undo[k].key == undo[j].key
    && forall i :: j < i < k && undo[i].Key? ==> undo[i].key != undo[j].key
  }

  /** Every write found what the one before it on the same key had written. */
  ghost predicate Linked(undo: seq<Undo>) {
    forall j: nat, k: nat :: NextOf(undo, j, k) ==> undo[k].before == undo[j].wrote
  }

  /** No key holds anything but what its last write put there. */
  ghost predicate AsWritten(c: Config, undo: seq<Undo>) {
    forall j: nat :: LastOf(undo, j) ==> Get(c, undo[j].key) == undo[j].wrote
  }

  /** The same, but that the last write of a key may have failed without writing. */
  ghost predicate Undisturbed(c: Config, undo: seq<Undo>) {
    Linked(undo) && forall j: nat :: LastOf(undo, j) ==> !Changed(c, undo[j])
  }

  /** The plugin was taken off the disabled list at most once, and is not on it. */
  predicate Unblocked(c: Config, undo: seq<Undo>) {
    && (forall j: nat :: j < |undo| && undo[j].Enable? ==> !Blocked(c, undo[j]))
    && (forall j: nat, k: nat ::
      j < |undo| && k < |undo| && undo[j].Enable? && undo[k].Enable? && undo[j].removed && undo[k].removed ==> j == k)
  }

  lemma WithBackFrame(c: Config, step: Undo)
    requires step.Key? ==> step.key != []
    ensures SameExcept(c, WithBack(c, step), if step.Key? then {step.key} else ListsTouched(step))
    ensures step.Key? && !Changed(c, step) ==> Get(WithBack(c, step), step.key) == step.before
    ensures step.Enable? ==> Lists(WithBack(c, step), DISABLED) == (Lists(c, DISABLED) || step.removed)
  {
    ListsApart();
    if step.Key? {
      forall q: Path | Apart(step.key, q)
        ensures Get(WithBack(c, step), q) == Get(c, q)
      {
        UnsetFrame(c, step.key, q);
        if step.before.Some? { SetFrame(c, step.key, step.before.value, q); }
      }
      GetAfterUnset(c, step.key);
      if step.before.Some? { GetAfterSet(c, step.key, step.before.value); }
    } else {
      EnableFrame(c, step);
    }
  }

  lemma EnableFrame(c: Config, step: Undo)
    requires step.Enable?
    ensures SameExcept(c, WithListsBack(c, step), ListsTouched(step))
    ensures Lists(WithListsBack(c, step), DISABLED) == (Lists(c, DISABLED) || step.removed)
  {
    ListsApart();
    var on := Names(Without(ItemsAt(c, ENABLED)));
    var off := if step.added && Lists(c, ENABLED) then Set(c, ENABLED, on) else c;
    forall q: Path | Apart(ENABLED, q) ensures Get(Set(c, ENABLED, on), q) == Get(c, q) { SetFrame(c, ENABLED, on, q); }
    assert SameExcept(c, off, if step.added then {ENABLED} else {});
    assert Get(off, DISABLED) == Get(c, DISABLED);
    var back := Names(ItemsAt(off, DISABLED) + [BorgPlugin]);
    GetAfterSet(off, DISABLED, back);
    forall q: Path | Apart(DISABLED, q) ensures Get(Set(off, DISABLED, back), q) == Get(off, q) { SetFrame(off, DISABLED, back, q); }
    assert SameExcept(off, WithListsBack(c, step), if step.removed then {DISABLED} else {});
    SameExceptTrans(c, off, WithListsBack(c, step), if step.added then {ENABLED} else {}, if step.removed then {DISABLED} else {});
  }

  lemma IndependentPrefix(undo: seq<Undo>)
    requires undo != [] && Independent(undo)
    ensures Independent(undo[..|undo| - 1])
  {
    var rest := undo[..|undo| - 1];
    assert forall i :: 0 <= i < |rest| ==> rest[i] == undo[i];
  }

  /** Reversing the newest record leaves the older ones undisturbed. */
  lemma UndisturbedBack(c: Config, undo: seq<Undo>)
    requires undo != [] && Independent(undo) && Undisturbed(c, undo)
    ensures Undisturbed(WithBack(c, undo[|undo| - 1]), undo[..|undo| - 1])
  {
    var n := |undo| - 1;
    var last, rest := undo[n], undo[..n];
    assert forall i :: 0 <= i < n ==> rest[i] == undo[i];
    forall j: nat, k: nat | NextOf(rest, j, k) ensures rest[k].before == rest[j].wrote { assert NextOf(undo, j, k); }
    WithBackFrame(c, last);
    forall j: nat | LastOf(rest, j)
      ensures !Changed(WithBack(c, last), rest[j])
    {
      if last.Key? && last.key == rest[j].key {
        assert NextOf(undo, j, n) && LastOf(undo, n);
      } else {
        assert LastOf(undo, j);
        ListsApart();
      }
    }
  }

  lemma DisabledBack(c: Config, undo: seq<Undo>)
    requires undo != [] && Independent(undo) && exists j :: 0 <= j < |undo| && undo[j].Enable?
    ensures
      var last := undo[|undo| - 1];
      Lists(WithBack(c, last), DISABLED) == (Lists(c, DISABLED) || (last.Enable? && last.removed))
  {
    WithBackFrame(c, undo[|undo| - 1]);
  }

  lemma UnblockedBack(c: Config, undo: seq<Undo>)
    requires undo != [] && Independent(undo)
    ensures
      var last := undo[|undo| - 1];
      Unblocked(c, undo) <==>
        (last.Enable? ==> !Blocked(c, last)) && Unblocked(WithBack(c, last), undo[..|undo| - 1])
  {
    var n := |undo| - 1;
    var last, rest := undo[n], undo[..n];
    assert forall i :: 0 <= i < n ==> rest[i] == undo[i];
    if exists j :: 0 <= j < |undo| && undo[j].Enable? { DisabledBack(c, undo); }
    if Unblocked(c, undo) {
      forall j: nat | j < n && rest[j].Enable?
        ensures !Blocked(WithBack(c, last), rest[j])
      {
        assert undo[j].Enable?;
        assert last.Enable? && last.removed && undo[j].removed ==> j == n;
      }
    }
    if (last.Enable? ==> !Blocked(c, last)) && Unblocked(WithBack(c, last), rest) {
      forall j: nat | j < |undo| && undo[j].Enable?
        ensures !Blocked(c, undo[j])
        ensures j < n && last.Enable? && last.removed ==> !undo[j].removed
      {
        if j < n { assert rest[j].Enable? && !Blocked(WithBack(c, last), rest[j]); }
      }
    }
  }

  /**
   * Over keys that nobody else has written, a rollback in which nothing fails
   * leaves something exactly when the plugin is on the disabled list, or two
   * records would both put it back there.
   */
  lemma {:induction false} LeavesSomeIff(c: Config, undo: seq<Undo>)
    requires Independent(undo) && Undisturbed(c, undo)
    ensures LeavesSome(c, undo) <==> !Unblocked(c, undo)
    decreases |undo|
  {
    if undo != [] {
      var last := undo[|undo| - 1];
      UndisturbedBack(c, undo);
      UnblockedBack(c, undo);
      IndependentPrefix(undo);
      LeavesSomeIff(WithBack(c, last), undo[..|undo| - 1]);
      assert last.Key? ==> LastOf(undo, |undo| - 1);
    }
  }

  // ---- A whole run ----

  datatype Write = SetTo(key: Path, value: Config) | Clear(key: Path) | EnableIt

  /** The kind of record a write leaves, without its values. */
  function Shape(w: Write): Undo {
    match w
    case SetTo(key, _) => Key(key, None, None)
    case Clear(key) => Key(key, None, None)
    case EnableIt => Enable(false, false)
  }

  function Shapes(writes: seq<Write>): seq<Undo> { seq(|writes|, i requires 0 <= i < |writes| => Shape(writes[i])) }

  predicate SameShape(u: Undo, w: Write) {
    if w.EnableIt? then u.Enable?
    else u.Key? && u.key == w.key && u.wrote == if w.SetTo? then Some(w.value) else None
  }

  /** The records of the first writes, in order. */
  predicate Records(undo: seq<Undo>, writes: seq<Write>) {
    |undo| <= |writes| && forall i :: 0 <= i < |undo| ==> SameShape(undo[i], writes[i])
  }

  lemma RecordsIndependent(undo: seq<Undo>, writes: seq<Write>)
    requires Records(undo, writes) && Independent(Shapes(writes))
    ensures Independent(undo)
  {
    var shapes := Shapes(writes);
    assert forall i :: 0 <= i < |undo| && undo[i].Key? ==> shapes[i].Key? && shapes[i].key == undo[i].key;
    assert forall i :: 0 <= i < |undo| && undo[i].Enable? ==> shapes[i].Enable?;
  }

  predicate HasEnable(writes: seq<Write>) { exists i :: 0 <= i < |writes| && writes[i].EnableIt? }

  /** Keys out of reach of every record still hold what they held. */
  ghost predicate RestSame(c0: Config, c: Config, undo: seq<Undo>) {
    forall q: Path :: (forall i :: 0 <= i < |undo| ==> OutOfReach(undo[i], q)) ==> Get(c, q) == Get(c0, q)
  }

  /** First records remember the values and memberships before the run. */
  ghost predicate Remembers(c0: Config, undo: seq<Undo>) {
    && (forall j: nat :: FirstFrom(undo, 0, j) ==> undo[j].before == Get(c0, undo[j].key))
    && (forall j: nat :: FirstEnableFrom(undo, 0, j) ==>
      undo[j].added == !Lists(c0, ENABLED) && undo[j].removed == Lists(c0, DISABLED))
    && (forall j: nat :: j < |undo| && undo[j].Enable? ==>
      (Lists(c0, ENABLED) ==> !undo[j].added) && (!Lists(c0, DISABLED) ==> !undo[j].removed))
  }

  /** Enabling never takes the plugin off the enabled list, nor puts it on the disabled one. */
  predicate ListsMonotone(c0: Config, c: Config) {
    (Lists(c0, ENABLED) ==> Lists(c, ENABLED)) && (!Lists(c0, DISABLED) ==> !Lists(c, DISABLED))
  }

  /** Where the run has been so far, compared with the configuration `c0` it started from. */
  ghost predicate Recorded(c0: Config, c: Config, undo: seq<Undo>, writes: seq<Write>) {
    && Records(undo, writes)
    && RestSame(c0, c, undo)
    && Remembers(c0, undo)
    && (HasEnable(writes) ==> ListsMonotone(c0, c))
  }

  /** A write of this record cannot reach `q`. */
  predicate OutOfReach(u: Undo, q: Path) {
    if u.Key? then Apart(u.key, q) else Apart(ENABLED, q) && Apart(DISABLED, q)
  }

  lemma RestSameStep(c0: Config, c: Config, c': Config, undo: seq<Undo>, u: Undo)
    requires RestSame(c0, c, undo)
    requires SameExcept(c, c', if u.Key? then {u.key} else {ENABLED, DISABLED})
    ensures RestSame(c0, c', undo + [u])
  {
    var undo', n := undo + [u], |undo|;
    forall q: Path | forall i :: 0 <= i < |undo'| ==> OutOfReach(undo'[i], q)
      ensures Get(c', q) == Get(c0, q)
    {
      assert OutOfReach(undo'[n], q);
      forall i | 0 <= i < n ensures OutOfReach(undo[i], q) { assert OutOfReach(undo'[i], q); }
      assert Get(c, q) == Get(c0, q);
    }
  }

  lemma FirstsOfPrefix(undo: seq<Undo>, u: Undo, j: nat)
    requires j < |undo|
    ensures FirstFrom(undo + [u], 0, j) ==> FirstFrom(undo, 0, j)
    ensures FirstEnableFrom(undo + [u], 0, j) ==> FirstEnableFrom(undo, 0, j)
  {
    assert forall k :: 0 <= k < |undo| ==> (undo + [u])[k] == undo[k];
  }

  /** The new record of a key remembers the value before the run when it is that key's first. */
  lemma RemembersKeyStep(c0: Config, c: Config, undo: seq<Undo>, u: Undo)
    requires RestSame(c0, c, undo) && Remembers(c0, undo)
    requires u.Key? && u.before == Get(c, u.key) && Independent(undo + [u])
    ensures Remembers(c0, undo + [u])
  {
    var undo', n := undo + [u], |undo|;
    forall j: nat | FirstFrom(undo', 0, j)
      ensures undo'[j].before == Get(c0, undo'[j].key)
    {
      if j < n {
        FirstsOfPrefix(undo, u, j);
      } else {
        forall i | 0 <= i < n ensures OutOfReach(undo[i], u.key) { assert undo'[i] == undo[i] && undo'[n] == u; }
      }
    }
    forall j: nat | FirstEnableFrom(undo', 0, j)
      ensures j < n && FirstEnableFrom(undo, 0, j) && undo'[j] == undo[j]
    {
      FirstsOfPrefix(undo, u, j);
    }
  }

  lemma RemembersEnableStep(c0: Config, c: Config, undo: seq<Undo>, u: Undo)
    requires RestSame(c0, c, undo) && Remembers(c0, undo) && ListsMonotone(c0, c)
    requires u == Enable(!Lists(c, ENABLED), Lists(c, DISABLED)) && Independent(undo + [u])
    ensures Remembers(c0, undo + [u])
  {
    var undo', n := undo + [u], |undo|;
    forall j: nat | FirstFrom(undo', 0, j)
      ensures j < n && FirstFrom(undo, 0, j) && undo'[j] == undo[j]
    {
      FirstsOfPrefix(undo, u, j);
    }
    forall j: nat | FirstEnableFrom(undo', 0, j)
      ensures undo'[j].added == !Lists(c0, ENABLED) && undo'[j].removed == Lists(c0, DISABLED)
    {
      if j < n {
        FirstsOfPrefix(undo, u, j);
      } else {
        forall i | 0 <= i < n
          ensures OutOfReach(undo[i], ENABLED) && OutOfReach(undo[i], DISABLED)
        {
          assert undo'[i] == undo[i] && undo'[n].Enable?;
        }
      }
    }
  }

  lemma RecordsSnoc(undo: seq<Undo>, writes: seq<Write>, u: Undo)
    requires Records(undo, writes) && Independent(Shapes(writes)) && |undo| < |writes| && SameShape(u, writes[|undo|])
    ensures Records(undo + [u], writes) && Independent(undo + [u])
  {
    RecordsIndependent(undo + [u], writes);
  }

  lemma RecordedKeyStep(c0: Config, c: Config, c': Config, undo: seq<Undo>, writes: seq<Write>, u: Undo)
    requires Recorded(c0, c, undo, writes) && Independent(Shapes(writes))
    requires |undo| < |writes| && SameShape(u, writes[|undo|]) && u.Key? && u.before == Get(c, u.key)
    requires SameExcept(c, c', {u.key})
    ensures Recorded(c0, c', undo + [u], writes)
  {
    RecordsSnoc(undo, writes, u);
    RestSameStep(c0, c, c', undo, u);
    RemembersKeyStep(c0, c, undo, u);
    ListsApartFromKey(c, c', undo, writes, u);
  }

  /** A key written beside an enable step is no part of the plugin lists. */
  lemma ListsApartFromKey(c: Config, c': Config, undo: seq<Undo>, writes: seq<Write>, u: Undo)
    requires u.Key? && Independent(Shapes(writes)) && SameExcept(c, c', {u.key})
    requires |undo| < |writes| && SameShape(u, writes[|undo|])
    ensures HasEnable(writes) ==> ListsMonotone(c, c')
  {
    if HasEnable(writes) {
      var i :| 0 <= i < |writes| && writes[i].EnableIt?;
      assert Shapes(writes)[i].Enable? && Shapes(writes)[|undo|].key == u.key;
    }
  }

  lemma RecordedEnableStep(c0: Config, c: Config, c': Config, undo: seq<Undo>, writes: seq<Write>)
    requires Recorded(c0, c, undo, writes) && Independent(Shapes(writes))
    requires |undo| < |writes| && writes[|undo|].EnableIt?
    requires SameExcept(c, c', {ENABLED, DISABLED}) && ListsMonotone(c, c')
    ensures Recorded(c0, c', undo + [Enable(!Lists(c, ENABLED), Lists(c, DISABLED))], writes)
  {
    var u := Enable(!Lists(c, ENABLED), Lists(c, DISABLED));
    RecordsSnoc(undo, writes, u);
    RestSameStep(c0, c, c', undo, u);
    RemembersEnableStep(c0, c, undo, u);
  }

  /** A write that found what the last one left keeps the records linked. */
  lemma WrittenKeyStep(c: Config, c': Config, undo: seq<Undo>, u: Undo)
    requires AsWritten(c, undo) && Linked(undo) && Independent(undo + [u])
    requires u.Key? && u.before == Get(c, u.key) && SameExcept(c, c', {u.key}) && !Changed(c', u)
    ensures Undisturbed(c', undo + [u])
    ensures Get(c', u.key) == u.wrote ==> AsWritten(c', undo + [u])
  {
    var undo', n := undo + [u], |undo|;
    assert forall i :: 0 <= i < n ==> undo'[i] == undo[i];
    forall j: nat, k: nat | NextOf(undo', j, k)
      ensures undo'[k].before == undo'[j].wrote
    {
      if k < n { assert NextOf(undo, j, k); } else { assert LastOf(undo, j); }
    }
    forall j: nat | LastOf(undo', j)
      ensures j < n ==> Get(c', undo'[j].key) == undo'[j].wrote
      ensures j < n || undo'[j] == u
    {
      if j < n { assert LastOf(undo, j) && undo'[n].key != undo'[j].key; }
    }
  }

  lemma WrittenEnableStep(c: Config, c': Config, undo: seq<Undo>, u: Undo)
    requires AsWritten(c, undo) && Linked(undo) && Independent(undo + [u])
    requires u.Enable? && SameExcept(c, c', {ENABLED, DISABLED})
    ensures AsWritten(c', undo + [u]) && Linked(undo + [u])
  {
    var undo', n := undo + [u], |undo|;
    assert forall i :: 0 <= i < n ==> undo'[i] == undo[i];
    assert undo'[n].Enable?;
    forall j: nat, k: nat | NextOf(undo', j, k) ensures undo'[k].before == undo'[j].wrote { assert NextOf(undo, j, k); }
    forall j: nat | LastOf(undo', j) ensures Get(c', undo'[j].key) == undo'[j].wrote { assert LastOf(undo, j); }
  }

  lemma AsWrittenIsUndisturbed(c: Config, undo: seq<Undo>)
    requires AsWritten(c, undo) && Linked(undo)
    ensures Undisturbed(c, undo)
  {
  }

  /** Once enabled, the plugin stays enabled through writes of other keys. */
  predicate EnabledSo(c: Config, undo: seq<Undo>) {
    (exists j :: 0 <= j < |undo| && undo[j].Enable?) ==> Lists(c, ENABLED)
  }

  lemma EnabledKeyStep(c: Config, c': Config, undo: seq<Undo>, u: Undo)
    requires EnabledSo(c, undo) && Independent(undo + [u]) && u.Key? && SameExcept(c, c', {u.key})
    ensures EnabledSo(c', undo + [u])
  {
    var undo' := undo + [u];
    if j :| 0 <= j < |undo'| && undo'[j].Enable? {
      assert undo[j].Enable? && undo'[|undo|] == u;
    }
  }

  /** The removal of an entry that Borg created does not reach this key, except to make it absent again. */
  predicate NotAroundEntry(before: Config, q: Path) {
    Apart(ENTRY, q) || ENTRY <= q || Get(before, ENTRY).Some?
  }

  /** A key inside an absent entry is absent. */
  lemma InsideAbsent(c: Config, key: Path)
    requires ENTRY <= key && Get(c, ENTRY).None?
    ensures Get(c, key).None?
  {
    assert key == ENTRY + key[|ENTRY|..];
    GetSplit(c, ENTRY, key[|ENTRY|..]);
  }

  /** A list no record touches is apart from everything a rollback writes. */
  lemma {:induction false} UntouchedList(undo: seq<Undo>, p: Path)
    requires p == ENABLED || p == DISABLED
    requires forall j :: 0 <= j < |undo| && undo[j].Key? ==> Apart(undo[j].key, p)
    requires forall j :: 0 <= j < |undo| && undo[j].Enable? ==> if p == ENABLED then !undo[j].added else !undo[j].removed
    ensures forall t :: t in Touched(undo) ==> Apart(t, p)
  {
    ListsApart();
    if undo != [] {
      UntouchedList(undo[..|undo| - 1], p);
      assert undo[|undo| - 1].Key? || undo[|undo| - 1].Enable?;
    }
  }

  lemma {:induction false} OutOfReachOfRollback(undo: seq<Undo>, q: Path)
    requires forall i :: 0 <= i < |undo| ==> OutOfReach(undo[i], q)
    ensures forall t :: t in Touched(undo) ==> Apart(t, q)
  {
    if undo != [] {
      OutOfReachOfRollback(undo[..|undo| - 1], q);
      assert OutOfReach(undo[|undo| - 1], q);
    }
  }

  /** Membership of the plugin after a rollback that left nothing. */
  lemma MembershipBack(c0: Config, c: Config, r: Config, undo: seq<Undo>, writes: seq<Write>)
    requires Recorded(c0, c, undo, writes) && Independent(undo) && HasEnable(writes)
    requires exists j :: 0 <= j < |undo| && undo[j].Enable?
    requires forall j: nat :: FirstEnableFrom(undo, 0, j) ==>
      (undo[j].added ==> !Lists(r, ENABLED)) && (undo[j].removed ==> Lists(r, DISABLED))
    requires SameExcept(c, r, Touched(undo) + {ENTRY})
    ensures Lists(r, ENABLED) == Lists(c0, ENABLED) && Lists(r, DISABLED) == Lists(c0, DISABLED)
  {
    var j := FirstEnable(undo);
    ListsApart();
    if Lists(c0, ENABLED) {
      UntouchedList(undo, ENABLED);
    }
    if !Lists(c0, DISABLED) {
      UntouchedList(undo, DISABLED);
    }
  }

  lemma {:induction false} FirstEnable(undo: seq<Undo>) returns (j: nat)
    requires exists j :: 0 <= j < |undo| && undo[j].Enable?
    ensures FirstEnableFrom(undo, 0, j)
  {
    j := 0;
    while !undo[j].Enable?
      invariant j < |undo| && forall k :: 0 <= k < j ==> !undo[k].Enable?
      decreases |undo| - j
    {
      j := j + 1;
    }
  }

  /** Where a run of writes stands: all done as written, or stopped at the first failure. */
  ghost predicate Stands(c0: Config, c: Config, undo: seq<Undo>, writes: seq<Write>, failed: bool, fails: nat) {
    && Recorded(c0, c, undo, writes) && Undisturbed(c, undo)
    && (!failed ==> AsWritten(c, undo) && Linked(undo) && EnabledSo(c, undo) && fails == 0)
    && (failed ==> fails == 1 || (fails == 0 && undo != [] && !Lists(c, ENABLED)))
  }

  method RunWrites(config: Cli, writes: seq<Write>) returns (failed: bool, tx: Transaction)
    requires Independent(Shapes(writes))
    modifies config
    ensures fresh(tx) && tx.config == config
    ensures config.failures >= old(config.failures)
    ensures Stands(old(config.tree), config.tree, tx.undo, writes, failed, config.failures - old(config.failures))
    ensures !failed ==> |tx.undo| == |writes|
    ensures if tx.undo == [] then config.tree == old(config.tree) else tx.entryBefore == Get(old(config.tree), ENTRY)
  {
    tx := new Transaction(config);
    ghost var c0, f0 := config.tree, config.failures;
    failed := false;
    var n := 0;
    while n < |writes| && !failed
      invariant 0 <= n <= |writes| && |tx.undo| <= n && (!failed ==> |tx.undo| == n)
      invariant fresh(tx) && tx.config == config && config.failures >= f0
      invariant Stands(c0, config.tree, tx.undo, writes, failed, config.failures - f0)
      invariant tx.begun ==> tx.entryBefore == Get(c0, ENTRY)
      invariant if tx.undo == [] then config.tree == c0 else tx.begun
      decreases |writes| - n, !failed
    {
      ghost var c, u := config.tree, tx.undo;
      var ok;
      match writes[n] {
        case SetTo(key, value) => ok := tx.SetKey(key, value);
        case Clear(key) =>
          assert Shapes(writes)[n].key == key;
          ok := tx.UnsetKey(key);
        case EnableIt => ok := tx.EnablePlugin();
      }
      if |tx.undo| > n { RecordedStep(c0, c, config.tree, u, writes, tx.undo[n], ok); }
      failed := !ok;
      n := n + 1;
    }
  }

  /**
   * A run of writes.  One in which nothing fails leaves every key as its last
   * write put it, and the plugin enabled if that was asked for.  One that fails
   * at any point, in a read or in a command that wrote or did not, is rolled
   * back.  The rollback leaves nothing exactly when nothing fails in it too and
   * the plugin is not disabled once more; then every recorded key and the
   * plugin's membership in both lists are what they were before the run.  No
   * other key changes, but that the mappings around an entry that Borg created
   * may go with it.  `mid` and `spent` are the configuration and the failures
   * when the writing ended.
   */
  method RunOrRollBack(config: Cli, writes: seq<Write>)
    returns (failed: bool, left: nat, tx: Transaction, ghost mid: Config, ghost spent: nat)
    requires Independent(Shapes(writes))
    modifies config
    ensures spent >= old(config.failures)
    ensures Stands(old(config.tree), mid, tx.undo, writes, failed, spent - old(config.failures))
    ensures !failed ==> |tx.undo| == |writes| && config.tree == mid && config.failures == spent
    ensures failed ==> (left == 0 <==> config.failures == spent && Unblocked(mid, tx.undo))
    ensures failed && left == 0 ==> forall j :: 0 <= j < |tx.undo| && tx.undo[j].Key? ==>
      Get(config.tree, tx.undo[j].key) == Get(old(config.tree), tx.undo[j].key)
    ensures failed && left == 0 && (exists j :: 0 <= j < |tx.undo| && tx.undo[j].Enable?) ==>
      && Lists(config.tree, ENABLED) == Lists(old(config.tree), ENABLED)
      && Lists(config.tree, DISABLED) == Lists(old(config.tree), DISABLED)
    ensures forall q: Path | (forall i :: 0 <= i < |tx.undo| ==> OutOfReach(tx.undo[i], q)) && NotAroundEntry(old(config.tree), q) ::
      Get(config.tree, q) == Get(old(config.tree), q)
  {
    ghost var c0 := config.tree;
    failed, tx := RunWrites(config, writes);
    left, mid, spent := 0, config.tree, config.failures;
    if failed {
      RecordsIndependent(tx.undo, writes);
      left := tx.Rollback();
      LeavesSomeIff(mid, tx.undo);
      forall q: Path | (forall i :: 0 <= i < |tx.undo| ==> OutOfReach(tx.undo[i], q)) && NotAroundEntry(c0, q)
        ensures Get(config.tree, q) == Get(c0, q)
      {
        OutOfReachOfRollback(tx.undo, q);
        if Get(c0, ENTRY).None? && ENTRY <= q { InsideAbsent(c0, q); }
      }
      if left == 0 {
        KeysBack(c0, config.tree, tx.undo, tx.entryBefore);
        if exists j :: 0 <= j < |tx.undo| && tx.undo[j].Enable? {
          EnableRecorded(tx.undo, writes);
          MembershipBack(c0, mid, config.tree, tx.undo, writes);
        }
      }
    }
  }

  /** One recorded write, whether or not it succeeded. */
  lemma RecordedStep(c0: Config, c: Config, c': Config, undo: seq<Undo>, writes: seq<Write>, u: Undo, ok: bool)
    requires Recorded(c0, c, undo, writes) && Independent(Shapes(writes)) && |undo| < |writes| && SameShape(u, writes[|undo|])
    requires AsWritten(c, undo) && Linked(undo) && EnabledSo(c, undo)
    requires u.Key? ==> u.before == Get(c, u.key) && SameExcept(c, c', {u.key}) && (Get(c', u.key) == u.wrote || (!ok && c' == c))
    requires u.Enable? ==> u == Enable(!Lists(c, ENABLED), Lists(c, DISABLED))
    requires u.Enable? ==> SameExcept(c, c', {ENABLED, DISABLED}) && ListsMonotone(c, c') && (ok ==> Lists(c', ENABLED))
    ensures Recorded(c0, c', undo + [u], writes)
    ensures Undisturbed(c', undo + [u])
    ensures ok ==> AsWritten(c', undo + [u]) && EnabledSo(c', undo + [u])
  {
    if u.Key? {
      RecordedKeyStep(c0, c, c', undo, writes, u);
      RecordsSnoc(undo, writes, u);
      WrittenKeyStep(c, c', undo, u);
      EnabledKeyStep(c, c', undo, u);
    } else {
      RecordedEnableStep(c0, c, c', undo, writes);
      RecordsSnoc(undo, writes, u);
      WrittenEnableStep(c, c', undo, u);
      AsWrittenIsUndisturbed(c', undo + [u]);
    }
  }

  /** What a rollback with nothing left means for the keys of a run: they are as before it. */
  lemma KeysBack(c0: Config, r: Config, undo: seq<Undo>, entryBefore: Option<Config>)
    requires Remembers(c0, undo)
    requires undo != [] ==> entryBefore == Get(c0, ENTRY)
    requires forall j: nat :: FirstFrom(undo, 0, j) ==>
      || Get(r, undo[j].key) == undo[j].before
      || (entryBefore.None? && ENTRY <= undo[j].key && undo[j].before.Some? && OnlyEmptyMappings(undo[j].before.value))
    ensures forall j :: 0 <= j < |undo| && undo[j].Key? ==> Get(r, undo[j].key) == Get(c0, undo[j].key)
  {
    forall j: nat | FirstFrom(undo, 0, j)
      ensures Get(r, undo[j].key) == Get(c0, undo[j].key)
    {
      if entryBefore.None? && ENTRY <= undo[j].key { InsideAbsent(c0, undo[j].key); }
    }
    forall j | 0 <= j < |undo| && undo[j].Key?
      ensures Get(r, undo[j].key) == Get(c0, undo[j].key)
    {
      var first := FirstOfKey(undo, j);
    }
  }

  lemma EnableRecorded(undo: seq<Undo>, writes: seq<Write>)
    requires Records(undo, writes) && exists j :: 0 <= j < |undo| && undo[j].Enable?
    ensures HasEnable(writes)
  {
    var j :| 0 <= j < |undo| && undo[j].Enable?;
    assert SameShape(undo[j], writes[j]);
  }

  lemma {:induction false} FirstOfKey(undo: seq<Undo>, j: nat) returns (first: nat)
    requires j < |undo| && undo[j].Key?
    ensures FirstFrom(undo, 0, first) && undo[first].key == undo[j].key
  {
    first := 0;
    while !(undo[first].Key? && undo[first].key == undo[j].key)
      invariant first <= j && forall k :: 0 <= k < first && undo[k].Key? ==> undo[k].key != undo[j].key
      decreases j - first
    {
      first := first + 1;
    }
  }
}
