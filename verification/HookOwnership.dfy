/** Which hook commands are Borg's, and their canonical form (src/config-utils.ts). */
module HookOwnership {
  import opened Common

  // ---- Which commands are owned ----

  const REGEN := "borg-regen"
  const CLEAR_REWAKE := "borg-clear-rewake"
  const LOG_AUDIT := "borg-log-audit"
  const REMINDER := "borg-foreign-path-reminder"

  /** Where this installation keeps its four scripts. */
  datatype Install = Install(regen: string, clearRewake: string, logAudit: string, reminder: string)

  /** Drops one leading and one trailing quote. */
  function Unquoted(s: string): string {
    var t := if s != [] && s[0] == '\'' then s[1..] else s;
    if t != [] && t[|t| - 1] == '\'' then t[..|t| - 1] else t
  }

  /** One more character in front of a path already split. */
  function Push(c: char, parts: seq<string>): (r: seq<string>)
    requires parts != []
    ensures r != []
  {
    if c == '/' then [[]] + parts else [[c] + parts[0]] + parts[1..]
  }

  function Split(s: string): (r: seq<string>)
    ensures r != []
  {
    if s == [] then [[]] else Push(s[0], Split(s[1..]))
  }

  function ByScript(name: string): Option<string> {
    if name == "regen.js" then Some(REGEN)
    else if name == "clear-rewake.js" then Some(CLEAR_REWAKE)
    else if name == "log-audit.js" then Some(LOG_AUDIT)
    else if name == "foreign-path-reminder.js" then Some(REMINDER)
    else None
  }

  /** A script of some other installation: the last three path segments decide. */
  function ForeignCanonical(s: string): Option<string> {
    var segments := Split(s);
    var at := |segments| - 3;
    if s != [] && s[0] == '/' && at >= 0
      && (segments[at] == "borgmcp" || segments[at] == "borg-mcp") && segments[at + 1] == "dist"
    then ByScript(segments[at + 2])
    else None
  }

  function OwnedCanonical(p: Install, command: string): Option<string> {
    var s := Unquoted(command);
    if s == REGEN then Some(REGEN)
    else if s == CLEAR_REWAKE then Some(CLEAR_REWAKE)
    else if s == LOG_AUDIT then Some(LOG_AUDIT)
    else if s == REMINDER then Some(REMINDER)
    else if command == REGEN || s == p.regen then Some(REGEN)
    else if command == CLEAR_REWAKE || s == p.clearRewake then Some(CLEAR_REWAKE)
    else if command == LOG_AUDIT || s == p.logAudit then Some(LOG_AUDIT)
    else if command == REMINDER || s == p.reminder then Some(REMINDER)
    else ForeignCanonical(s)
  }

  predicate Bare(s: string) { s == REGEN || s == CLEAR_REWAKE || s == LOG_AUDIT || s == REMINDER }

  lemma BareHasNoQuotes(s: string)
    requires Bare(s)
    ensures Unquoted(s) == s
  {
    assert REGEN[0] == CLEAR_REWAKE[0] == LOG_AUDIT[0] == REMINDER[0] == 'b';
    assert REGEN[|REGEN| - 1] == 'n' && CLEAR_REWAKE[|CLEAR_REWAKE| - 1] == 'e';
    assert LOG_AUDIT[|LOG_AUDIT| - 1] == 't' && REMINDER[|REMINDER| - 1] == 'r';
  }

  lemma BareIsOwnCanonical(p: Install, s: string)
    requires Bare(s)
    ensures OwnedCanonical(p, s) == Some(s)
  {
    BareHasNoQuotes(s);
  }

  lemma CanonicalIsBare(p: Install, command: string)
    ensures OwnedCanonical(p, command).Some? ==> Bare(OwnedCanonical(p, command).value)
  {
  }

  /** Rewriting an owned command once is enough, whatever the installation. */
  lemma CanonicalIsFixpoint(p: Install, command: string)
    ensures var c := OwnedCanonical(p, command);
            c.Some? ==> OwnedCanonical(p, c.value) == c
  {
    CanonicalIsBare(p, command);
    var c := OwnedCanonical(p, command);
    if c.Some? { BareIsOwnCanonical(p, c.value); }
  }

  lemma CanonicalFixpoints(p: Install)
    ensures forall command: string :: OwnedCanonical(p, command).Some? ==>
      OwnedCanonical(p, OwnedCanonical(p, command).value) == OwnedCanonical(p, command)
  {
    forall command: string
      ensures OwnedCanonical(p, command).Some? ==>
        OwnedCanonical(p, OwnedCanonical(p, command).value) == OwnedCanonical(p, command)
    {
      CanonicalIsFixpoint(p, command);
    }
  }

  // ---- What the path heuristic accepts ----

  function Join(parts: seq<string>): string
    requires parts != []
  {
    if |parts| == 1 then parts[0] else parts[0] + "/" + Join(parts[1..])
  }

  lemma {:induction false} JoinSplit(s: string)
    ensures Join(Split(s)) == s
  {
    if s != [] {
      JoinSplit(s[1..]);
      var rest := Split(s[1..]);
      if s[0] == '/' {
        assert ([[]] + rest)[1..] == rest;
      } else {
        var first := [s[0]] + rest[0];
        assert ([first] + rest[1..])[1..] == rest[1..];
      }
    }
  }

  lemma SplitCons(c: char, s: string)
    ensures Split([c] + s) == Push(c, Split(s))
  {
    assert ([c] + s)[1..] == s;
  }

  lemma PushConcat(c: char, a: seq<string>, b: seq<string>)
    requires a != []
    ensures Push(c, a + b) == Push(c, a) + b
  {
    assert (a + b)[1..] == a[1..] + b;
  }

  lemma {:induction false} SplitPlain(s: string)
    requires '/' !in s
    ensures Split(s) == [s]
  {
    if s != [] {
      SplitPlain(s[1..]);
      assert [s[0]] + s[1..] == s;
    }
  }

  lemma {:induction false} SplitAtSlash(a: string, b: string)
    ensures Split(a + "/" + b) == Split(a) + Split(b)
    decreases |a|
  {
    if a == [] {
      SplitCons('/', b);
      assert a + "/" + b == ['/'] + b;
    } else {
      var c, rest := a[0], a[1..];
      SplitAtSlash(rest, b);
      assert a + "/" + b == [c] + (rest + "/" + b);
      SplitCons(c, rest + "/" + b);
      PushConcat(c, Split(rest), Split(b));
    }
  }

  lemma {:induction false} JoinAppend(front: seq<string>, last: string)
    requires front != []
    ensures Join(front + [last]) == Join(front) + "/" + last
  {
    var all := front + [last];
    if |front| == 1 {
      assert all[1..] == [last];
    } else {
      JoinAppend(front[1..], last);
      assert all[1..] == front[1..] + [last];
    }
  }

  lemma SplitThree(s: string, prefix: string, x: string, y: string, z: string)
    requires '/' !in x && '/' !in y && '/' !in z
    requires s == prefix + "/" + x + "/" + y + "/" + z
    ensures Split(s) == Split(prefix) + [x, y, z]
  {
    SplitAtSlash(prefix + "/" + x + "/" + y, z);
    SplitAtSlash(prefix + "/" + x, y);
    SplitAtSlash(prefix, x);
    SplitPlain(x);
    SplitPlain(y);
    SplitPlain(z);
  }

  lemma JoinThree(s: string, n: nat)
    requires |Split(s)| == n + 3 && n > 0
    ensures var t := Split(s);
            s == Join(t[..n]) + "/" + t[n] + "/" + t[n + 1] + "/" + t[n + 2]
  {
    JoinSplit(s);
    var t := Split(s);
    assert t[..n + 1] == t[..n] + [t[n]];
    assert t[..n + 2] == t[..n + 1] + [t[n + 1]];
    assert t == t[..n + 2] + [t[n + 2]];
    JoinAppend(t[..n], t[n]);
    JoinAppend(t[..n + 1], t[n + 1]);
    JoinAppend(t[..n + 2], t[n + 2]);
  }

  /** The four commands, each with the script it runs. */
  predicate Runs(c: string, script: string) {
    || (c == "borg-regen" && script == "regen.js")
    || (c == "borg-clear-rewake" && script == "clear-rewake.js")
    || (c == "borg-log-audit" && script == "log-audit.js")
    || (c == "borg-foreign-path-reminder" && script == "foreign-path-reminder.js")
  }

  lemma ScriptsOf(script: string)
    ensures forall c :: ByScript(script) == Some(c) <==> Runs(c, script)
  {
  }

  /** `s` is an absolute path: `prefix`, then a package directory, `dist` and a script. */
  predicate InPackage(s: string, prefix: string, package: string, script: string) {
    && s != [] && s[0] == '/'
    && (package == "borgmcp" || package == "borg-mcp")
    && s == prefix + "/" + package + "/" + "dist" + "/" + script
  }

  ghost predicate ForeignScript(s: string, c: string) {
    exists prefix, package, script :: InPackage(s, prefix, package, script) && Runs(c, script)
  }

  /**
   * Another installation's command is owned exactly when it is an absolute path
   * with an exact package directory right above `dist`, and it stands for the
   * command of its script: a directory name that only contains the package
   * name, or a deeper script, is not.
   */
  lemma ForeignOwnedIff(s: string, c: string)
    ensures ForeignCanonical(s) == Some(c) <==> ForeignScript(s, c)
  {
    if ForeignCanonical(s) == Some(c) { ForeignIsInPackage(s, c); }
    forall prefix, package, script | InPackage(s, prefix, package, script) && Runs(c, script)
      ensures ForeignCanonical(s) == Some(c)
    {
      SplitThree(s, prefix, package, "dist", script);
      ScriptsOf(script);
    }
  }

  lemma ForeignIsInPackage(s: string, c: string)
    requires ForeignCanonical(s) == Some(c)
    ensures ForeignScript(s, c)
  {
    var t := Split(s);
    var n := |t| - 3;
    assert t[0] == [];
    assert n > 0;
    JoinThree(s, n);
    ScriptsOf(t[n + 2]);
    assert InPackage(s, Join(t[..n]), t[n], t[n + 2]);
  }

  // ---- Every owned command, by its own text ----

  /** `command` is `s`, apart from one quote on either side. */
  predicate Strips(command: string, s: string) {
    var starts := s != [] && s[0] == '\'';
    var ends := s != [] && s[|s| - 1] == '\'';
    || (command == s && !starts && !ends)
    || (command == "'" + s && !ends)
    || (command == s + "'" && !starts)
    || command == "'" + s + "'"
  }

  lemma StripsIff(command: string, s: string)
    ensures Strips(command, s) <==> Unquoted(command) == s
  {
    var t := Unquoted(command);
    assert command == t || command == "'" + t || command == t + "'" || command == "'" + t + "'";
  }

  predicate Named(s: string) {
    s == "borg-regen" || s == "borg-clear-rewake" || s == "borg-log-audit" || s == "borg-foreign-path-reminder"
  }

  predicate Installed(p: Install, s: string) { s == p.regen || s == p.clearRewake || s == p.logAudit || s == p.reminder }

  /** This installation keeps the script of `c` at `s`; were two scripts at one path, the first would decide. */
  predicate InstalledAt(p: Install, s: string, c: string) {
    || (c == "borg-regen" && s == p.regen)
    || (c == "borg-clear-rewake" && s == p.clearRewake && s != p.regen)
    || (c == "borg-log-audit" && s == p.logAudit && s != p.regen && s != p.clearRewake)
    || (c == "borg-foreign-path-reminder" && s == p.reminder && s != p.regen && s != p.clearRewake && s != p.logAudit)
  }

  /**
   * A command is one of ours exactly when, apart from quotes, it is a bare name,
   * this installation's path of a script, or a package path of one; each of the
   * four scripts stands for its own command.
   */
  lemma OwnedIff(p: Install, command: string, s: string, c: string)
    requires Strips(command, s)
    ensures Named(s) ==> (OwnedCanonical(p, command) == Some(c) <==> c == s)
    ensures !Named(s) && Installed(p, s) ==> (OwnedCanonical(p, command) == Some(c) <==> InstalledAt(p, s, c))
    ensures !Named(s) && !Installed(p, s) ==> (OwnedCanonical(p, command) == Some(c) <==> ForeignScript(s, c))
  {
    StripsIff(command, s);
    if Bare(command) { BareHasNoQuotes(command); }
    if !Named(s) && !Installed(p, s) { ForeignOwnedIff(s, c); }
  }
}
