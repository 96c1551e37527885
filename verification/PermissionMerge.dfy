/**
 * OpenCode permissions (src/cli-tool-approval.ts): the last rule whose glob
 * matches decides, and Borg appends exact allows for its own tools.
 */
module PermissionMerge {
  import opened Common

  // ---- Globs ----

  predicate LineBreak(c: char) { c == '\n' || c == '\r' || c == '\U{2028}' || c == '\U{2029}' }

  predicate OneLine(s: string) { forall c :: c in s ==> !LineBreak(c) }

  predicate Matches(pattern: string, value: string)
    decreases |pattern|, |value|
  {
    if pattern == [] then value == []
    else if pattern[0] == '*' then
      || Matches(pattern[1..], value)
      || (value != [] && !LineBreak(value[0]) && Matches(pattern, value[1..]))
    else
      && value != []
      && (if pattern[0] == '?' then !LineBreak(value[0]) else value[0] == pattern[0])
      && Matches(pattern[1..], value[1..])
  }

  /** What one pattern character may stand for. */
  predicate Fits(c: char, piece: string) {
    if c == '*' then OneLine(piece)
    else if c == '?' then |piece| == 1 && OneLine(piece)
    else piece == [c]
  }

  function Concat(pieces: seq<string>): string {
    if pieces == [] then [] else pieces[0] + Concat(pieces[1..])
  }

  predicate Reads(pattern: string, pieces: seq<string>) {
    |pieces| == |pattern| && forall k :: 0 <= k < |pattern| ==> Fits(pattern[k], pieces[k])
  }

  lemma {:induction false} PiecesMatch(pattern: string, pieces: seq<string>)
    requires Reads(pattern, pieces)
    ensures Matches(pattern, Concat(pieces))
    decreases |pattern|, if pieces == [] then 0 else |pieces[0]|
  {
    if pattern != [] {
      assert Fits(pattern[0], pieces[0]);
      if pattern[0] == '*' && pieces[0] != [] {
        var shorter := pieces[0 := pieces[0][1..]];
        assert shorter[1..] == pieces[1..];
        PiecesMatch(pattern, shorter);
        assert Concat(pieces)[1..] == Concat(shorter);
      } else {
        PiecesMatch(pattern[1..], pieces[1..]);
        assert pattern[0] != '*' ==> Concat(pieces)[1..] == Concat(pieces[1..]);
        assert pattern[0] == '*' ==> Concat(pieces) == Concat(pieces[1..]);
      }
    }
  }

  lemma ReadsCons(pattern: string, first: string, rest: seq<string>)
    requires pattern != [] && Fits(pattern[0], first) && Reads(pattern[1..], rest)
    ensures Reads(pattern, [first] + rest) && Concat([first] + rest) == first + Concat(rest)
  {
    assert ([first] + rest)[1..] == rest;
    forall k | 0 <= k < |pattern|
      ensures Fits(pattern[k], ([first] + rest)[k])
    {
      if k > 0 { assert Fits(pattern[1..][k - 1], rest[k - 1]); }
    }
  }

  lemma ReadsGrow(pattern: string, c: char, pieces: seq<string>)
    requires pattern != [] && pattern[0] == '*' && !LineBreak(c) && Reads(pattern, pieces)
    ensures Reads(pattern, pieces[0 := [c] + pieces[0]])
    ensures Concat(pieces[0 := [c] + pieces[0]]) == [c] + Concat(pieces)
  {
    assert Fits(pattern[0], pieces[0]);
    var longer := pieces[0 := [c] + pieces[0]];
    assert longer[1..] == pieces[1..];
  }

  lemma {:induction false} MatchPieces(pattern: string, value: string) returns (pieces: seq<string>)
    requires Matches(pattern, value)
    ensures Reads(pattern, pieces) && Concat(pieces) == value
    decreases |pattern|, |value|
  {
    if pattern == [] {
      pieces := [];
    } else if pattern[0] == '*' && Matches(pattern[1..], value) {
      var rest := MatchPieces(pattern[1..], value);
      ReadsCons(pattern, [], rest);
      pieces := [[]] + rest;
    } else if pattern[0] == '*' {
      var shorter := MatchPieces(pattern, value[1..]);
      ReadsGrow(pattern, value[0], shorter);
      pieces := shorter[0 := [value[0]] + shorter[0]];
    } else {
      var rest := MatchPieces(pattern[1..], value[1..]);
      ReadsCons(pattern, [value[0]], rest);
      pieces := [[value[0]]] + rest;
    }
  }

  /** A glob matches exactly the values that fall into one fitting piece per pattern character. */
  lemma MatchesIffPieces(pattern: string, value: string)
    ensures Matches(pattern, value) <==> exists pieces :: Reads(pattern, pieces) && Concat(pieces) == value
  {
    if Matches(pattern, value) {
      var pieces := MatchPieces(pattern, value);
    }
    forall pieces | Reads(pattern, pieces) && Concat(pieces) == value
      ensures Matches(pattern, value)
    {
      PiecesMatch(pattern, pieces);
    }
  }

  predicate GlobFree(s: string) { '*' !in s && '?' !in s }

  lemma {:induction false} GlobFreeMatchesItself(pattern: string, value: string)
    requires GlobFree(pattern)
    ensures Matches(pattern, value) <==> pattern == value
    decreases |pattern|
  {
    if pattern != [] {
      assert pattern[0] in pattern;
      if value != [] {
        GlobFreeMatchesItself(pattern[1..], value[1..]);
        assert pattern == [pattern[0]] + pattern[1..] && value == [value[0]] + value[1..];
      }
    }
  }

  lemma {:induction false} MatchesItself(s: string)
    ensures Matches(s, s)
    decreases |s|
  {
    if s != [] {
      MatchesItself(s[1..]);
      if s[0] == '*' { assert Matches(s[1..], s[1..]) && Matches(s, s[1..]); }
    }
  }

  lemma {:induction false} StarMatches(value: string)
    ensures Matches("*", value) <==> OneLine(value)
    decreases |value|
  {
    if value != [] {
      StarMatches(value[1..]);
      assert value == [value[0]] + value[1..];
    }
  }

  // ---- The rule that decides ----

  datatype Action = Allow | Ask | Deny

  /** `action` is None for a value that is no permission action. */
  datatype Rule = Rule(pattern: string, action: Option<Action>)

  /** Rules stand in the order in which the host enumerates them. */
  datatype Permission = Scalar(action: Action) | Rules(rules: seq<Rule>) | Other

  predicate Decides(r: Rule, tool: string) { r.action.Some? && Matches(r.pattern, tool) }

  function LastMatch(rules: seq<Rule>, tool: string): Option<Action> {
    if rules == [] then None
    else if Decides(rules[|rules| - 1], tool) then rules[|rules| - 1].action
    else LastMatch(rules[..|rules| - 1], tool)
  }

  function EffectiveAction(p: Permission, tool: string): Option<Action> {
    match p
    case Scalar(a) => Some(a)
    case Rules(rules) => LastMatch(rules, tool)
    case Other => None
  }

  predicate IsLast(rules: seq<Rule>, tool: string, k: int) {
    0 <= k < |rules| && Decides(rules[k], tool) && forall j :: k < j < |rules| ==> !Decides(rules[j], tool)
  }

  lemma {:induction false} LastMatchIff(rules: seq<Rule>, tool: string, a: Action)
    ensures LastMatch(rules, tool) == Some(a) <==> exists k :: IsLast(rules, tool, k) && rules[k].action == Some(a)
    decreases |rules|
  {
    if rules != [] {
      var n := |rules| - 1;
      var front := rules[..n];
      LastMatchIff(front, tool, a);
      if Decides(rules[n], tool) {
        assert IsLast(rules, tool, n);
      } else {
        forall k
          ensures IsLast(rules, tool, k) <==> IsLast(front, tool, k)
        {
          if IsLast(front, tool, k) {
            assert forall j :: k < j < |front| ==> front[j] == rules[j];
          }
          if IsLast(rules, tool, k) {
            assert forall j :: k < j < |front| ==> front[j] == rules[j];
          }
        }
      }
    }
  }

  method Effective(p: Permission, tool: string) returns (r: Option<Action>)
    ensures r == EffectiveAction(p, tool)
  {
    if p.Scalar? { return Some(p.action); }
    if p.Other? { return None; }
    r := None;
    for i := 0 to |p.rules|
      invariant r == LastMatch(p.rules[..i], tool)
    {
      assert p.rules[..i + 1][..i] == p.rules[..i];
      if Matches(p.rules[i].pattern, tool) && p.rules[i].action.Some? {
        r := p.rules[i].action;
      }
    }
    assert p.rules[..|p.rules|] == p.rules;
  }

  // ---- The spellings of a tool ----

  datatype Alias = Alias(legacy: string, canonical: string)

  /** A tool's own name, and its legacy spelling when it has one. */
  function Spellings(aliases: seq<Alias>, name: string): (r: seq<string>)
    ensures name in r
  {
    if aliases == [] then [name]
    else if name == "borg_" + aliases[0].canonical then [name, "borg_" + aliases[0].legacy]
    else if name == aliases[0].canonical then [name, aliases[0].legacy]
    else Spellings(aliases[1..], name)
  }

  /** The name is one of the alias's two new spellings; `other` is the legacy one in the same form. */
  predicate Renames(a: Alias, name: string, other: string) {
    || (name == "borg_" + a.canonical && other == "borg_" + a.legacy)
    || (name == a.canonical && other == a.legacy && name != "borg_" + a.canonical)
  }

  predicate Renamed(a: Alias, name: string) { name == "borg_" + a.canonical || name == a.canonical }

  /** The first alias whose new name this is gives `other`, prefixed exactly when the name is. */
  ghost predicate FirstAlias(aliases: seq<Alias>, name: string, other: string) {
    exists i :: 0 <= i < |aliases| && Renames(aliases[i], name, other) && forall j :: 0 <= j < i ==> !Renamed(aliases[j], name)
  }

  lemma FirstAliasCons(aliases: seq<Alias>, name: string, other: string)
    requires aliases != []
    ensures FirstAlias(aliases, name, other) <==>
      (Renames(aliases[0], name, other) || (!Renamed(aliases[0], name) && FirstAlias(aliases[1..], name, other)))
  {
    var rest := aliases[1..];
    if i :| 0 <= i < |aliases| && Renames(aliases[i], name, other) && forall j :: 0 <= j < i ==> !Renamed(aliases[j], name) {
      if i > 0 {
        assert Renames(rest[i - 1], name, other);
        assert forall j :: 0 <= j < i - 1 ==> rest[j] == aliases[j + 1];
      }
    }
    if i :| 0 <= i < |rest| && Renames(rest[i], name, other) && forall j :: 0 <= j < i ==> !Renamed(rest[j], name) {
      assert Renames(aliases[i + 1], name, other);
      assert forall j :: 1 <= j < i + 1 ==> aliases[j] == rest[j - 1];
    }
  }

  /** A tool is spelled by its own name first, and then in the legacy way of the first alias that renamed it. */
  lemma {:induction false} SpellingsIff(aliases: seq<Alias>, name: string, other: string)
    ensures Spellings(aliases, name) == [name, other] <==> FirstAlias(aliases, name, other)
    decreases |aliases|
  {
    if aliases != [] {
      FirstAliasCons(aliases, name, other);
      SpellingsIff(aliases[1..], name, other);
    }
  }

  lemma {:induction false} SpeltAloneIff(aliases: seq<Alias>, name: string)
    ensures Spellings(aliases, name) == [name] <==> forall i :: 0 <= i < |aliases| ==> !Renamed(aliases[i], name)
    decreases |aliases|
  {
    if aliases != [] {
      var rest := aliases[1..];
      SpeltAloneIff(rest, name);
      assert forall i :: 1 <= i < |aliases| ==> aliases[i] == rest[i - 1];
      assert Renamed(aliases[0], name) ==> |Spellings(aliases, name)| == 2;
    }
  }

  function AllSpellings(aliases: seq<Alias>, tools: seq<string>): seq<string> {
    if tools == [] then [] else Spellings(aliases, tools[0]) + AllSpellings(aliases, tools[1..])
  }

  lemma {:induction false} SpelledIff(aliases: seq<Alias>, tools: seq<string>, name: string)
    ensures name in AllSpellings(aliases, tools) <==> exists t :: t in tools && name in Spellings(aliases, t)
    decreases |tools|
  {
    if tools != [] {
      SpelledIff(aliases, tools[1..], name);
      var first, rest := Spellings(aliases, tools[0]), AllSpellings(aliases, tools[1..]);
      assert name in first + rest <==> name in first || name in rest;
      if t :| t in tools && name in Spellings(aliases, t) {
        assert t == tools[0] || t in tools[1..];
      }
    }
  }

  // ---- The merge ----

  /** Repeated keys of an object literal keep one entry. */
  function AllowRules(names: seq<string>, taken: set<string>): seq<Rule> {
    if names == [] then []
    else if names[0] in taken then AllowRules(names[1..], taken)
    else [Rule(names[0], Some(Allow))] + AllowRules(names[1..], taken + {names[0]})
  }

  function Existing(p: Permission): seq<Rule> {
    match p
    case Scalar(a) => [Rule("*", Some(a))]
    case Rules(rules) => rules
    case Other => []
  }

  function Without(rules: seq<Rule>, names: seq<string>): seq<Rule> {
    if rules == [] then []
    else if rules[0].pattern in names then Without(rules[1..], names)
    else [rules[0]] + Without(rules[1..], names)
  }

  function Merge(aliases: seq<Alias>, p: Permission, tools: seq<string>): seq<Rule> {
    var names := AllSpellings(aliases, tools);
    Without(Existing(p), names) + AllowRules(names, {})
  }

  lemma {:induction false} LastMatchConcat(a: seq<Rule>, b: seq<Rule>, tool: string)
    ensures LastMatch(a + b, tool) == if LastMatch(b, tool).Some? then LastMatch(b, tool) else LastMatch(a, tool)
    decreases |b|
  {
    if b == [] {
      assert a + b == a;
    } else {
      var n := |b| - 1;
      LastMatchConcat(a, b[..n], tool);
      assert (a + b)[..|a + b| - 1] == a + b[..n];
    }
  }

  lemma {:induction false} AllowRulesAre(names: seq<string>, taken: set<string>, r: Rule)
    ensures r in AllowRules(names, taken) <==> r.pattern in names && r.pattern !in taken && r.action == Some(Allow)
    decreases |names|
  {
    if names != [] {
      var rest := AllowRules(names[1..], taken + {names[0]});
      AllowRulesAre(names[1..], taken, r);
      AllowRulesAre(names[1..], taken + {names[0]}, r);
    }
  }

  /** The appended rules decide exactly the names one of their spellings matches, as allowed. */
  lemma AllowRulesDecide(names: seq<string>, tool: string)
    ensures LastMatch(AllowRules(names, {}), tool) ==
      if exists n :: n in names && Matches(n, tool) then Some(Allow) else None
  {
    var rules := AllowRules(names, {});
    forall r: Rule
      ensures r in rules <==> r.pattern in names && r.action == Some(Allow)
    {
      AllowRulesAre(names, {}, r);
    }
    if n :| n in names && Matches(n, tool) {
      assert Rule(n, Some(Allow)) in rules;
      SomeDecides(rules, tool, Rule(n, Some(Allow)));
    } else {
      NoneDecides(rules, tool);
    }
  }

  lemma {:induction false} SomeDecides(rules: seq<Rule>, tool: string, r: Rule)
    requires r in rules && Decides(r, tool) && forall q :: q in rules ==> q.action == Some(Allow)
    ensures LastMatch(rules, tool) == Some(Allow)
    decreases |rules|
  {
    var n := |rules| - 1;
    if !Decides(rules[n], tool) { SomeDecides(rules[..n], tool, r); }
  }

  lemma {:induction false} NoneDecides(rules: seq<Rule>, tool: string)
    requires forall q :: q in rules ==> !Decides(q, tool)
    ensures LastMatch(rules, tool) == None
    decreases |rules|
  {
    if rules != [] { NoneDecides(rules[..|rules| - 1], tool); }
  }

  /** Taking out rules that do not match a name leaves that name's decision. */
  lemma {:induction false} WithoutKeeps(rules: seq<Rule>, names: seq<string>, tool: string)
    requires forall n :: n in names ==> !Matches(n, tool)
    ensures LastMatch(Without(rules, names), tool) == LastMatch(rules, tool)
    decreases |rules|
  {
    if rules != [] {
      WithoutKeeps(rules[1..], names, tool);
      LastMatchConcat([rules[0]], rules[1..], tool);
      assert [rules[0]] + rules[1..] == rules;
      LastMatchConcat([rules[0]], Without(rules[1..], names), tool);
    }
  }

  lemma ExistingDecides(p: Permission, tool: string)
    ensures LastMatch(Existing(p), tool) ==
      if p.Scalar? && !OneLine(tool) then None else EffectiveAction(p, tool)
  {
    if p.Scalar? { StarMatches(tool); }
  }

  /**
   * The merge decides every name, whatever the permission was: names matched by
   * an added spelling are allowed, and all others keep their decision.  A scalar
   * permission is turned into the glob `*`, which a name with a line break escapes.
   */
  lemma MergeDecides(aliases: seq<Alias>, p: Permission, tools: seq<string>, name: string)
    ensures LastMatch(Merge(aliases, p, tools), name) ==
      if exists n :: n in AllSpellings(aliases, tools) && Matches(n, name) then Some(Allow)
      else if p.Scalar? && !OneLine(name) then None
      else EffectiveAction(p, name)
  {
    var names := AllSpellings(aliases, tools);
    LastMatchConcat(Without(Existing(p), names), AllowRules(names, {}), name);
    AllowRulesDecide(names, name);
    if !exists n :: n in names && Matches(n, name) {
      WithoutKeeps(Existing(p), names, name);
      ExistingDecides(p, name);
    }
  }

  /** Every requested tool is allowed under each of its spellings. */
  lemma MergeAllowsRequested(aliases: seq<Alias>, p: Permission, tools: seq<string>, t: string, name: string)
    requires t in tools && name in Spellings(aliases, t)
    ensures LastMatch(Merge(aliases, p, tools), name) == Some(Allow)
  {
    SpelledIff(aliases, tools, name);
    MatchesItself(name);
    MergeDecides(aliases, p, tools, name);
  }

  /** With glob-free spellings any other name keeps its decision, unless `*` misses it. */
  lemma MergeLeavesOthersIff(aliases: seq<Alias>, p: Permission, tools: seq<string>, name: string)
    requires forall n :: n in AllSpellings(aliases, tools) ==> GlobFree(n)
    requires name !in AllSpellings(aliases, tools)
    ensures LastMatch(Merge(aliases, p, tools), name) == EffectiveAction(p, name) <==> (p.Scalar? ==> OneLine(name))
  {
    forall n | n in AllSpellings(aliases, tools)
      ensures !Matches(n, name)
    {
      GlobFreeMatchesItself(n, name);
    }
    MergeDecides(aliases, p, tools, name);
  }

  // ---- Inspection and repair ----

  predicate Restricts(p: Permission, tool: string) {
    EffectiveAction(p, tool) == Some(Ask) || EffectiveAction(p, tool) == Some(Deny)
  }

  function Restrictive(p: Permission, tools: seq<string>): seq<string> {
    if tools == [] then []
    else if Restricts(p, tools[0]) then [tools[0]] + Restrictive(p, tools[1..])
    else Restrictive(p, tools[1..])
  }

  /** The permission the inspection proposes. */
  function Repaired(aliases: seq<Alias>, p: Permission, tools: seq<string>): Permission {
    var restrictive := Restrictive(p, tools);
    Rules(Merge(aliases, p, if restrictive != [] then restrictive else tools))
  }

  lemma {:induction false} RestrictiveAre(p: Permission, tools: seq<string>, t: string)
    ensures t in Restrictive(p, tools) <==> t in tools && Restricts(p, t)
    decreases |tools|
  {
    if tools != [] { RestrictiveAre(p, tools[1..], t); }
  }

  lemma {:induction false} NoneRestrictive(p: Permission, tools: seq<string>)
    requires forall t :: t in tools ==> !Restricts(p, t)
    ensures Restrictive(p, tools) == []
    decreases |tools|
  {
    if tools != [] { NoneRestrictive(p, tools[1..]); }
  }

  /**
   * Adopting the proposal leaves nothing to report, whatever the permission and
   * the tools: those reported before are allowed, and the merge makes no other
   * tool restricted.
   */
  lemma RepairedIsUnrestricted(aliases: seq<Alias>, p: Permission, tools: seq<string>)
    ensures Restrictive(Repaired(aliases, p, tools), tools) == []
  {
    var restrictive := Restrictive(p, tools);
    var target := if restrictive != [] then restrictive else tools;
    forall t | t in tools
      ensures !Restricts(Repaired(aliases, p, tools), t)
    {
      RestrictiveAre(p, tools, t);
      MergeDecides(aliases, p, target, t);
      if t in target { MergeAllowsRequested(aliases, p, target, t, t); }
    }
    NoneRestrictive(Repaired(aliases, p, tools), tools);
  }

  lemma {:induction false} WithoutAdded(names: seq<string>, all: seq<string>, taken: set<string>)
    requires forall n :: n in names ==> n in all
    ensures Without(AllowRules(names, taken), all) == []
    decreases |names|
  {
    if names != [] {
      WithoutAdded(names[1..], all, taken);
      WithoutAdded(names[1..], all, taken + {names[0]});
      var rest := AllowRules(names[1..], taken + {names[0]});
      assert ([Rule(names[0], Some(Allow))] + rest)[1..] == rest;
    }
  }

  lemma {:induction false} WithoutConcat(a: seq<Rule>, b: seq<Rule>, names: seq<string>)
    ensures Without(a + b, names) == Without(a, names) + Without(b, names)
    decreases |a|
  {
    if a == [] {
      assert a + b == b;
    } else {
      WithoutConcat(a[1..], b, names);
      assert (a + b)[1..] == a[1..] + b;
    }
  }

  lemma {:induction false} WithoutTwice(rules: seq<Rule>, names: seq<string>)
    ensures Without(Without(rules, names), names) == Without(rules, names)
    decreases |rules|
  {
    if rules != [] {
      WithoutTwice(rules[1..], names);
      var rest := Without(rules[1..], names);
      assert ([rules[0]] + rest)[1..] == rest;
    }
  }

  /** Merging the same tools again gives the same rules in the same order. */
  lemma MergeIsIdempotent(aliases: seq<Alias>, p: Permission, tools: seq<string>)
    ensures Merge(aliases, Rules(Merge(aliases, p, tools)), tools) == Merge(aliases, p, tools)
  {
    var names := AllSpellings(aliases, tools);
    WithoutConcat(Without(Existing(p), names), AllowRules(names, {}), names);
    WithoutTwice(Existing(p), names);
    WithoutAdded(names, names, {});
  }
}
