/**
 * The JSONC scanner (src/config-utils.ts): two flag-driven character loops,
 * shown to compute a function of the text's tokens.  The JSON decoding of the
 * result is not part of this model.
 */
module Jsonc {
  import opened Common

  type Text = seq<char>

  // ---- Tokens ----

  datatype Token =
    | Str(text: Text)
    | LineComment(text: Text)
    | BlockComment(text: Text)
    | Plain(c: char)

  predicate LineBreak(c: char) { c == '\n' || c == '\r' }

  function TokenText(t: Token): Text { if t.Plain? then [t.c] else t.text }

  function TextOf(ts: seq<Token>): Text {
    if ts == [] then [] else TokenText(ts[0]) + TextOf(ts[1..])
  }

  /** Between the quotes: no bare quote, and every backslash takes the next character along. */
  predicate StringBody(b: Text)
    decreases |b|
  {
    if b == [] then true
    else if b[0] == '\\' then |b| >= 2 && StringBody(b[2..])
    else b[0] != '"' && StringBody(b[1..])
  }

  predicate OneLine(s: Text) { forall i :: 0 <= i < |s| ==> !LineBreak(s[i]) }

  /** `*` and `/` stand at `i`. */
  predicate EndsAt(s: Text, i: int) { 0 <= i < |s| - 1 && s[i] == '*' && s[i + 1] == '/' }

  predicate ValidToken(t: Token) {
    match t
    case Str(s) => |s| >= 2 && s[0] == '"' && s[|s| - 1] == '"' && StringBody(s[1..|s| - 1])
    case LineComment(s) => |s| >= 2 && s[0] == '/' && s[1] == '/' && OneLine(s[2..])
    case BlockComment(s) =>
      && |s| >= 4 && s[0] == '/' && s[1] == '*' && EndsAt(s[2..], |s| - 4)
      && forall i :: 0 <= i < |s| - 4 ==> !EndsAt(s[2..], i)
    case Plain(c) => c != '"'
  }

  /** A line comment runs to the end of its line; a lone slash opens no comment. */
  predicate MayPrecede(t: Token, rest: Text) {
    && (t.LineComment? ==> rest == [] || LineBreak(rest[0]))
    && (t == Plain('/') ==> rest == [] || (rest[0] != '/' && rest[0] != '*'))
  }

  predicate Valid(ts: seq<Token>) {
    ts == [] || (ValidToken(ts[0]) && MayPrecede(ts[0], TextOf(ts[1..])) && Valid(ts[1..]))
  }

  // ---- Cutting a text into tokens ----

  /** Characters up to and including the closing quote. */
  function StringLength(s: Text): (n: Option<nat>)
    ensures n.Some? ==> 0 < n.value <= |s|
    decreases |s|
  {
    if s == [] then None
    else if s[0] == '"' then Some(1)
    else if s[0] == '\\' then
      if |s| == 1 then None
      else (match StringLength(s[2..]) case None => None case Some(k) => Some(k + 2))
    else (match StringLength(s[1..]) case None => None case Some(k) => Some(k + 1))
  }

  function LineLength(s: Text): (n: nat)
    ensures n <= |s|
  {
    if s == [] || LineBreak(s[0]) then 0 else 1 + LineLength(s[1..])
  }

  /** Characters up to and including the end of a block comment. */
  function BlockLength(s: Text): (n: Option<nat>)
    ensures n.Some? ==> 2 <= n.value <= |s|
  {
    if |s| < 2 then None
    else if s[0] == '*' && s[1] == '/' then Some(2)
    else match BlockLength(s[1..]) case None => None case Some(k) => Some(k + 1)
  }

  /** The first token, unless it has no end. */
  function FirstToken(s: Text): (t: Option<Token>)
    requires s != []
    ensures t.Some? ==> 0 < |TokenText(t.value)| <= |s| && TokenText(t.value) == s[..|TokenText(t.value)|]
  {
    if s[0] == '"' then
      match StringLength(s[1..])
      case None => None
      case Some(n) => Some(Str(s[..n + 1]))
    else if s[0] == '/' && |s| > 1 && s[1] == '/' then Some(LineComment(s[..2 + LineLength(s[2..])]))
    else if s[0] == '/' && |s| > 1 && s[1] == '*' then
      match BlockLength(s[2..])
      case None => None
      case Some(n) => Some(BlockComment(s[..n + 2]))
    else Some(Plain(s[0]))
  }

  function Lex(s: Text): Option<seq<Token>>
    decreases |s|
  {
    if s == [] then Some([])
    else
      match FirstToken(s)
      case None => None
      case Some(t) =>
        match Lex(s[|TokenText(t)|..])
        case None => None
        case Some(ts) => Some([t] + ts)
  }

  // ---- The tokens of a text are unique ----

  lemma {:induction false} StringLengthIff(s: Text, n: nat)
    ensures StringLength(s) == Some(n) <==> 0 < n <= |s| && s[n - 1] == '"' && StringBody(s[..n - 1])
    decreases |s|
  {
    if s != [] && s[0] == '\\' {
      if n >= 2 && |s| > 1 {
        StringLengthIff(s[2..], n - 2);
        if 2 < n <= |s| { assert s[..n - 1][2..] == s[2..][..n - 3]; }
      }
    } else if s != [] && s[0] != '"' && n >= 1 {
      StringLengthIff(s[1..], n - 1);
      if 1 < n <= |s| { assert s[..n - 1][1..] == s[1..][..n - 2]; }
    } else if s != [] && s[0] == '"' && 1 < n <= |s| {
      assert s[..n - 1][0] == '"';
    }
  }

  lemma OneLineCons(s: Text, n: nat)
    requires 0 < n <= |s|
    ensures OneLine(s[..n]) <==> !LineBreak(s[0]) && OneLine(s[1..][..n - 1])
  {
    assert s[..n] == [s[0]] + s[1..][..n - 1];
  }

  lemma {:induction false} LineLengthIff(s: Text, n: nat)
    ensures LineLength(s) == n <==> n <= |s| && OneLine(s[..n]) && (n == |s| || LineBreak(s[n]))
    decreases |s|
  {
    if 0 < n <= |s| {
      OneLineCons(s, n);
      LineLengthIff(s[1..], n - 1);
    }
  }

  lemma {:induction false} BlockLengthIff(s: Text, n: nat)
    ensures BlockLength(s) == Some(n) <==> EndsAt(s, n - 2) && forall i :: i < n - 2 ==> !EndsAt(s, i)
    decreases |s|
  {
    if |s| >= 2 {
      if s[0] == '*' && s[1] == '/' {
        assert EndsAt(s, 0);
      } else if n > 0 {
        BlockLengthIff(s[1..], n - 1);
        assert forall i :: i > 0 ==> EndsAt(s, i) == EndsAt(s[1..], i - 1);
        assert forall i :: EndsAt(s[1..], i) == (i >= 0 && EndsAt(s, i + 1));
        assert !EndsAt(s, 0);
      }
    }
  }

  lemma FirstTokenSound(s: Text)
    requires s != [] && FirstToken(s).Some?
    ensures var t := FirstToken(s).value;
            ValidToken(t) && MayPrecede(t, s[|TokenText(t)|..])
  {
    var t := FirstToken(s).value;
    var n := |TokenText(t)|;
    match t
    case Str(x) =>
      StringLengthIff(s[1..], n - 1);
      assert x[1..n - 1] == s[1..][..n - 2];
    case LineComment(x) =>
      LineLengthIff(s[2..], n - 2);
      assert x[2..] == s[2..][..n - 2];
    case BlockComment(x) =>
      BlockLengthIff(s[2..], n - 2);
      assert x[2..] == s[2..][..n - 2];
      EndsInPrefix(s[2..], n - 2);
    case Plain(_) =>
  }

  lemma EndsInPrefix(s: Text, n: nat)
    requires n <= |s|
    ensures forall i :: i <= n - 2 ==> EndsAt(s[..n], i) == EndsAt(s, i)
  {
  }

  lemma {:induction false} LexSound(s: Text)
    ensures Lex(s).Some? ==> TextOf(Lex(s).value) == s && Valid(Lex(s).value)
    decreases |s|
  {
    if s != [] && FirstToken(s).Some? {
      var t := FirstToken(s).value;
      LexSound(s[|TokenText(t)|..]);
      if Lex(s).Some? {
        FirstTokenSound(s);
        assert Lex(s).value[1..] == Lex(s[|TokenText(t)|..]).value;
      }
    }
  }

  lemma FirstTokenComplete(t: Token, rest: Text)
    requires ValidToken(t) && MayPrecede(t, rest)
    ensures FirstToken(TokenText(t) + rest) == Some(t)
  {
    var s := TokenText(t) + rest;
    var n := |TokenText(t)|;
    assert s[..n] == TokenText(t);
    match t
    case Str(x) =>
      assert s[1..][..n - 2] == x[1..n - 1];
      StringLengthIff(s[1..], n - 1);
    case LineComment(x) =>
      assert s[2..][..n - 2] == x[2..];
      LineLengthIff(s[2..], n - 2);
    case BlockComment(x) =>
      assert s[2..][..n - 2] == x[2..];
      EndsInPrefix(s[2..], n - 2);
      BlockLengthIff(s[2..], n - 2);
    case Plain(_) =>
  }

  lemma {:induction false} LexComplete(ts: seq<Token>)
    requires Valid(ts)
    ensures Lex(TextOf(ts)) == Some(ts)
    decreases |ts|
  {
    if ts != [] {
      var t, rest := ts[0], TextOf(ts[1..]);
      LexComplete(ts[1..]);
      FirstTokenComplete(t, rest);
      assert TextOf(ts) == TokenText(t) + rest && TokenText(t) != [];
      assert TextOf(ts)[|TokenText(t)|..] == rest;
      assert [t] + ts[1..] == ts;
    }
  }

  /** A text has at most one division into valid tokens, and `Lex` finds it if there is one. */
  lemma LexIff(s: Text, ts: seq<Token>)
    ensures Lex(s) == Some(ts) <==> TextOf(ts) == s && Valid(ts)
  {
    LexSound(s);
    if Valid(ts) { LexComplete(ts); }
  }

  // ---- What the scanner computes ----

  function Blank(s: Text): Text {
    seq(|s|, i requires 0 <= i < |s| => if LineBreak(s[i]) then s[i] else ' ')
  }

  predicate Comment(t: Token) { t.LineComment? || t.BlockComment? }

  function Erase(t: Token): Text { if Comment(t) then Blank(t.text) else TokenText(t) }

  function Erased(ts: seq<Token>): Text {
    if ts == [] then [] else Erase(ts[0]) + Erased(ts[1..])
  }

  /** White space of the host language. */
  predicate Space(c: char) {
    || c == '\t' || c == '\n' || c == '\U{0B}' || c == '\U{0C}' || c == '\r' || c == ' '
    || c == '\U{A0}' || c == '\U{1680}' || '\U{2000}' <= c <= '\U{200A}' || c == '\U{2028}' || c == '\U{2029}'
    || c == '\U{202F}' || c == '\U{205F}' || c == '\U{3000}' || c == '\U{FEFF}'
  }

  predicate Skipped(t: Token) { Comment(t) || (t.Plain? && Space(t.c)) }

  predicate Closing(t: Token) { t == Plain('}') || t == Plain(']') }

  /** Is a closing bracket next, comments and white space aside? */
  predicate ClosesNext(ts: seq<Token>) {
    ts != [] && (Closing(ts[0]) || (Skipped(ts[0]) && ClosesNext(ts[1..])))
  }

  function DropCommas(ts: seq<Token>): seq<Token> {
    if ts == [] then []
    else if ts[0] == Plain(',') && ClosesNext(ts[1..]) then DropCommas(ts[1..])
    else [ts[0]] + DropCommas(ts[1..])
  }

  predicate ClosesAt(ts: seq<Token>, m: int) {
    0 <= m < |ts| && Closing(ts[m]) && forall j :: 0 <= j < m ==> Skipped(ts[j])
  }

  lemma {:induction false} ClosesNextIff(ts: seq<Token>)
    ensures ClosesNext(ts) <==> exists m :: ClosesAt(ts, m)
    decreases |ts|
  {
    if ts != [] {
      var rest := ts[1..];
      ClosesNextIff(rest);
      assert forall m :: ClosesAt(ts, m) ==> m == 0 || Skipped(ts[0]);
      if Closing(ts[0]) {
        assert ClosesAt(ts, 0);
      } else if Skipped(ts[0]) {
        forall m
          ensures ClosesAt(ts, m + 1) <==> ClosesAt(rest, m)
        {
          assert forall j :: 0 <= j < |rest| ==> rest[j] == ts[j + 1];
        }
        if m :| ClosesAt(ts, m) { assert ClosesAt(rest, m - 1); }
      }
    }
  }

  // ---- Layout ----

  lemma TokensCons(t: Token, ts: seq<Token>)
    ensures TextOf([t] + ts) == TokenText(t) + TextOf(ts)
    ensures Erased([t] + ts) == Erase(t) + Erased(ts)
  {
    assert ([t] + ts)[1..] == ts;
  }

  lemma Associate(a: Text, b: Text, c: Text)
    ensures a + (b + c) == a + b + c
  {
  }

  lemma {:induction false} ErasedConcat(a: seq<Token>, b: seq<Token>)
    ensures Erased(a + b) == Erased(a) + Erased(b)
    ensures TextOf(a + b) == TextOf(a) + TextOf(b)
    decreases |a|
  {
    if a == [] {
      assert a + b == b;
    } else {
      var t, rest := a[0], a[1..];
      ErasedConcat(rest, b);
      assert a + b == [t] + (rest + b);
      TokensCons(t, rest + b);
      Associate(TokenText(t), TextOf(rest), TextOf(b));
      Associate(Erase(t), Erased(rest), Erased(b));
    }
  }

  lemma {:induction false} ErasedLayout(ts: seq<Token>)
    ensures |Erased(ts)| == |TextOf(ts)|
    ensures forall i :: 0 <= i < |Erased(ts)| ==>
      Erased(ts)[i] == TextOf(ts)[i] || (Erased(ts)[i] == ' ' && !LineBreak(TextOf(ts)[i]))
    decreases |ts|
  {
    if ts != [] {
      ErasedLayout(ts[1..]);
      assert |Erase(ts[0])| == |TokenText(ts[0])|;
    }
  }

  predicate SameLayout(s: Text, r: Text) {
    |r| == |s| && forall i :: 0 <= i < |s| ==> (LineBreak(s[i]) || LineBreak(r[i]) ==> r[i] == s[i])
  }

  /** Length and line breaks stay: positions in the result are positions in the text. */
  lemma CommentPassKeepsLayout(s: Text, ts: seq<Token>)
    requires Lex(s) == Some(ts)
    ensures SameLayout(s, Erased(ts))
  {
    LexSound(s);
    ErasedLayout(ts);
  }

  lemma Middle(a: Text, b: Text, c: Text)
    ensures (a + b + c)[|a|..|a| + |b|] == b
  {
  }

  lemma SplitTokens(ts: seq<Token>, k: nat)
    requires k < |ts|
    ensures TextOf(ts) == TextOf(ts[..k]) + TokenText(ts[k]) + TextOf(ts[k + 1..])
    ensures Erased(ts) == Erased(ts[..k]) + Erase(ts[k]) + Erased(ts[k + 1..])
  {
    CutAt(ts, k);
    MiddleToken(ts[..k], ts[k], ts[k + 1..]);
  }

  lemma CutAt(ts: seq<Token>, k: nat)
    requires k < |ts|
    ensures ts == ts[..k] + ([ts[k]] + ts[k + 1..])
  {
  }

  lemma MiddleToken(a: seq<Token>, t: Token, b: seq<Token>)
    ensures TextOf(a + ([t] + b)) == TextOf(a) + TokenText(t) + TextOf(b)
    ensures Erased(a + ([t] + b)) == Erased(a) + Erase(t) + Erased(b)
  {
    ErasedConcat(a, [t] + b);
    TokensCons(t, b);
    Associate(TextOf(a), TokenText(t), TextOf(b));
    Associate(Erased(a), Erase(t), Erased(b));
  }

  lemma BlankedPlaces(s: Text, r: Text, from: nat, to: nat)
    requires from <= to <= |s| == |r| && r[from..to] == Blank(s[from..to])
    ensures forall i :: from <= i < to ==> r[i] == if s[i] == '\n' || s[i] == '\r' then s[i] else ' '
  {
    forall i | from <= i < to
      ensures r[i] == if s[i] == '\n' || s[i] == '\r' then s[i] else ' '
    {
      assert r[i] == r[from..to][i - from] && s[i] == s[from..to][i - from];
    }
  }

  /** Each token keeps its place; one that is no comment, such as a string with slashes in it, is unchanged. */
  lemma CommentPassKeepsPlaces(s: Text, ts: seq<Token>, k: nat, from: nat, to: nat)
    requires Lex(s) == Some(ts) && k < |ts|
    requires from == |TextOf(ts[..k])| && to == from + |TokenText(ts[k])|
    ensures to <= |s| == |Erased(ts)| && s[from..to] == TokenText(ts[k])
    ensures Erased(ts)[from..to] == if Comment(ts[k]) then Blank(s[from..to]) else s[from..to]
    ensures Comment(ts[k]) ==> forall i :: from <= i < to ==>
      Erased(ts)[i] == if s[i] == '\n' || s[i] == '\r' then s[i] else ' '
  {
    LexSound(s);
    SplitTokens(ts, k);
    ErasedLayout(ts);
    ErasedLayout(ts[..k]);
    Middle(TextOf(ts[..k]), TokenText(ts[k]), TextOf(ts[k + 1..]));
    Middle(Erased(ts[..k]), Erase(ts[k]), Erased(ts[k + 1..]));
    if Comment(ts[k]) { BlankedPlaces(s, Erased(ts), from, to); }
  }

  // ---- The comment pass is idempotent ----

  function Plains(s: Text): seq<Token> { seq(|s|, i requires 0 <= i < |s| => Plain(s[i])) }

  /** The tokens of the erased text. */
  function BlankTokens(ts: seq<Token>): seq<Token> {
    if ts == [] then []
    else (if Comment(ts[0]) then Plains(Blank(ts[0].text)) else [ts[0]]) + BlankTokens(ts[1..])
  }

  predicate NoComments(ts: seq<Token>) { forall i :: 0 <= i < |ts| ==> !Comment(ts[i]) }

  lemma PlainsCons(s: Text, ts: seq<Token>)
    requires s != []
    ensures Plains(s) + ts == [Plain(s[0])] + (Plains(s[1..]) + ts)
    ensures (Plains(s) + ts)[1..] == Plains(s[1..]) + ts
  {
  }

  lemma PlainsNone(ts: seq<Token>)
    ensures Plains([]) + ts == ts
  {
  }

  lemma {:induction false} PlainsText(s: Text, ts: seq<Token>)
    ensures TextOf(Plains(s) + ts) == s + TextOf(ts)
    decreases |s|
  {
    PlainsNone(ts);
    if s != [] {
      PlainsText(s[1..], ts);
      PlainsCons(s, ts);
      assert s + TextOf(ts) == [s[0]] + (s[1..] + TextOf(ts));
    }
  }

  predicate AllSpace(s: Text) { forall i :: 0 <= i < |s| ==> Space(s[i]) }

  lemma {:induction false} BlanksValid(s: Text, ts: seq<Token>)
    requires Valid(ts) && NoComments(ts) && AllSpace(s)
    ensures Valid(Plains(s) + ts) && NoComments(Plains(s) + ts)
    decreases |s|
  {
    PlainsNone(ts);
    if s != [] {
      BlanksValid(s[1..], ts);
      PlainsCons(s, ts);
      var rest := Plains(s[1..]) + ts;
      assert forall i :: 0 < i < |Plains(s) + ts| ==> (Plains(s) + ts)[i] == rest[i - 1];
    }
  }

  lemma {:induction false} BlanksAndCommas(s: Text, ts: seq<Token>)
    requires AllSpace(s)
    ensures ClosesNext(Plains(s) + ts) == ClosesNext(ts)
    ensures DropCommas(Plains(s) + ts) == Plains(s) + DropCommas(ts)
    decreases |s|
  {
    PlainsNone(ts);
    PlainsNone(DropCommas(ts));
    if s != [] {
      BlanksAndCommas(s[1..], ts);
      PlainsCons(s, ts);
      PlainsCons(s, DropCommas(ts));
    }
  }

  lemma {:induction false} NoCommentsText(ts: seq<Token>)
    requires NoComments(ts)
    ensures Erased(ts) == TextOf(ts)
    decreases |ts|
  {
    if ts != [] { NoCommentsText(ts[1..]); }
  }

  lemma {:induction false} BlankTokensValid(ts: seq<Token>)
    requires Valid(ts)
    ensures Valid(BlankTokens(ts)) && NoComments(BlankTokens(ts))
    ensures TextOf(BlankTokens(ts)) == Erased(ts)
    decreases |ts|
  {
    if ts != [] {
      var rest := BlankTokens(ts[1..]);
      BlankTokensValid(ts[1..]);
      if Comment(ts[0]) {
        BlanksValid(Blank(ts[0].text), rest);
        PlainsText(Blank(ts[0].text), rest);
      } else {
        ErasedLayout(ts[1..]);
        assert ([ts[0]] + rest)[1..] == rest;
      }
    }
  }

  /** Erasing comments leaves a text with no comments, which the pass leaves alone. */
  lemma CommentPassIsIdempotent(s: Text, ts: seq<Token>)
    requires Lex(s) == Some(ts)
    ensures Lex(Erased(ts)) == Some(BlankTokens(ts)) && NoComments(BlankTokens(ts))
    ensures Erased(BlankTokens(ts)) == Erased(ts)
  {
    LexSound(s);
    BlankTokensValid(ts);
    LexComplete(BlankTokens(ts));
    NoCommentsText(BlankTokens(ts));
  }

  /** Looking past blanked comments is looking past the comments. */
  lemma {:induction false} CommasThroughBlanks(ts: seq<Token>)
    requires Valid(ts)
    ensures ClosesNext(BlankTokens(ts)) == ClosesNext(ts)
    ensures TextOf(DropCommas(BlankTokens(ts))) == Erased(DropCommas(ts))
    decreases |ts|
  {
    if ts != [] {
      var rest := BlankTokens(ts[1..]);
      CommasThroughBlanks(ts[1..]);
      BlankTokensValid(ts[1..]);
      if Comment(ts[0]) {
        var blank := Blank(ts[0].text);
        BlanksAndCommas(blank, rest);
        PlainsText(blank, DropCommas(rest));
      } else {
        assert ([ts[0]] + rest)[1..] == rest;
      }
      KeepFirst(ts);
      KeepFirst(BlankTokens(ts));
    }
  }

  lemma KeepFirst(ts: seq<Token>)
    requires ts != []
    ensures ts[0] != Plain(',') || !ClosesNext(ts[1..]) ==>
      && Erased(DropCommas(ts)) == Erase(ts[0]) + Erased(DropCommas(ts[1..]))
      && TextOf(DropCommas(ts)) == TokenText(ts[0]) + TextOf(DropCommas(ts[1..]))
  {
    assert ([ts[0]] + DropCommas(ts[1..]))[1..] == DropCommas(ts[1..]);
  }

  // ---- The comment loop ----

  datatype Mode = Outside | InString | InEscape | InLine | InBlock

  function Before(s: Text, rest: Option<Text>): Option<Text> {
    if rest.Some? then Some(s + rest.value) else None
  }

  function ErasedText(s: Text): Option<Text> {
    match Lex(s) case None => None case Some(ts) => Some(Erased(ts))
  }

  /** What a loop still writes from inside a token, where `pass` tells what it writes from between tokens. */
  function Remaining(pass: Text -> Option<Text>, m: Mode, s: Text): Option<Text> {
    match m
    case Outside => pass(s)
    case InString => (
      match StringLength(s)
      case None => None
      case Some(n) => Before(s[..n], pass(s[n..])))
    case InEscape => (
      if s == [] then None
      else match StringLength(s[1..])
        case None => None
        case Some(n) => Before(s[..n + 1], pass(s[n + 1..])))
    case InLine => var n := LineLength(s); Before(Blank(s[..n]), pass(s[n..]))
    case InBlock => (
      match BlockLength(s)
      case None => None
      case Some(n) => Before(Blank(s[..n]), pass(s[n..])))
  }

  lemma ErasedFirst(s: Text)
    requires s != []
    ensures ErasedText(s) ==
      if FirstToken(s).None? then None
      else var t := FirstToken(s).value; Before(Erase(t), ErasedText(s[|TokenText(t)|..]))
  {
    if FirstToken(s).Some? {
      var t := FirstToken(s).value;
      var rest := Lex(s[|TokenText(t)|..]);
      if rest.Some? { assert ([t] + rest.value)[1..] == rest.value; }
    }
  }

  lemma BeforeTwice(a: Text, b: Text, rest: Option<Text>)
    ensures Before(a, Before(b, rest)) == Before(a + b, rest)
  {
    if rest.Some? { assert a + (b + rest.value) == (a + b) + rest.value; }
  }

  lemma BeforeNothing(rest: Option<Text>)
    ensures Before([], rest) == rest
  {
    if rest.Some? { assert [] + rest.value == rest.value; }
  }

  lemma OpenString(pass: Text -> Option<Text>, s: Text)
    requires s != []
    requires var n := StringLength(s[1..]);
             pass(s) == if n.None? then None else Before(s[..n.value + 1], pass(s[n.value + 1..]))
    ensures pass(s) == Before([s[0]], Remaining(pass, InString, s[1..]))
  {
    var n := StringLength(s[1..]);
    if n.Some? {
      assert s[..n.value + 1] == [s[0]] + s[1..][..n.value];
      assert s[n.value + 1..] == s[1..][n.value..];
      BeforeTwice([s[0]], s[1..][..n.value], pass(s[n.value + 1..]));
    }
  }

  lemma StringStep(pass: Text -> Option<Text>, s: Text)
    requires s != []
    ensures Remaining(pass, InString, s) == Before([s[0]],
      Remaining(pass, if s[0] == '\\' then InEscape else if s[0] == '"' then Outside else InString, s[1..]))
    ensures Remaining(pass, InEscape, s) == Before([s[0]], Remaining(pass, InString, s[1..]))
  {
    var n := StringLength(s[1..]);
    if n.Some? {
      assert s[..n.value + 1] == [s[0]] + s[1..][..n.value];
      assert s[n.value + 1..] == s[1..][n.value..];
      BeforeTwice([s[0]], s[1..][..n.value], pass(s[n.value + 1..]));
    }
    if s[0] == '"' {
      assert s[..1] == [s[0]];
    } else if s[0] == '\\' && |s| > 1 {
      EscapeStep(pass, s);
    }
  }

  lemma EscapeStep(pass: Text -> Option<Text>, s: Text)
    requires |s| > 1 && s[0] == '\\'
    ensures Remaining(pass, InString, s) == Before([s[0]], Remaining(pass, InEscape, s[1..]))
  {
    assert s[1..][1..] == s[2..];
    var n := StringLength(s[2..]);
    if n.Some? {
      assert s[..n.value + 2] == [s[0]] + s[1..][..n.value + 1];
      assert s[n.value + 2..] == s[1..][n.value + 1..];
      BeforeTwice([s[0]], s[1..][..n.value + 1], pass(s[n.value + 2..]));
    }
  }

  lemma OpenLineComment(s: Text)
    requires |s| > 1 && s[0] == '/' && s[1] == '/'
    ensures Remaining(ErasedText, Outside, s) == Before("  ", Remaining(ErasedText, InLine, s[2..]))
  {
    ErasedFirst(s);
    BlankAcross(s, LineLength(s[2..]));
  }

  lemma OpenBlockComment(s: Text)
    requires |s| > 1 && s[0] == '/' && s[1] == '*'
    ensures Remaining(ErasedText, Outside, s) == Before("  ", Remaining(ErasedText, InBlock, s[2..]))
  {
    ErasedFirst(s);
    var n := BlockLength(s[2..]);
    if n.Some? { BlankAcross(s, n.value); }
  }

  lemma BlankAcross(s: Text, n: nat)
    requires n + 2 <= |s| && !LineBreak(s[0]) && !LineBreak(s[1])
    ensures Before(Blank(s[..n + 2]), ErasedText(s[n + 2..])) ==
      Before("  ", Before(Blank(s[2..][..n]), ErasedText(s[2..][n..])))
  {
    assert Blank(s[..n + 2]) == "  " + Blank(s[2..][..n]);
    assert s[n + 2..] == s[2..][n..];
    BeforeTwice("  ", Blank(s[2..][..n]), ErasedText(s[n + 2..]));
  }

  lemma LineStep(s: Text)
    requires s != []
    ensures Remaining(ErasedText, InLine, s) ==
      if LineBreak(s[0]) then Before([s[0]], Remaining(ErasedText, Outside, s[1..]))
      else Before(" ", Remaining(ErasedText, InLine, s[1..]))
  {
    if LineBreak(s[0]) {
      ErasedFirst(s);
      assert Blank(s[..0]) == [] && s[0..] == s;
      BeforeNothing(ErasedText(s));
    } else {
      var n := LineLength(s[1..]);
      assert Blank(s[..n + 1]) == " " + Blank(s[1..][..n]);
      assert s[n + 1..] == s[1..][n..];
      BeforeTwice(" ", Blank(s[1..][..n]), ErasedText(s[n + 1..]));
    }
  }

  lemma BlockStep(s: Text)
    requires s != []
    ensures Remaining(ErasedText, InBlock, s) ==
      if EndsAt(s, 0) then Before("  ", Remaining(ErasedText, Outside, s[2..]))
      else Before(Blank([s[0]]), Remaining(ErasedText, InBlock, s[1..]))
  {
    if EndsAt(s, 0) {
      assert Blank(s[..2]) == "  ";
    } else {
      var n := BlockLength(s[1..]);
      if n.Some? {
        assert Blank(s[..n.value + 1]) == Blank([s[0]]) + Blank(s[1..][..n.value]);
        assert s[n.value + 1..] == s[1..][n.value..];
        BeforeTwice(Blank([s[0]]), Blank(s[1..][..n.value]), ErasedText(s[n.value + 1..]));
      }
    }
  }

  lemma PlainStep(s: Text)
    requires s != [] && s[0] != '"' && (|s| > 1 && s[0] == '/' ==> s[1] != '/' && s[1] != '*')
    ensures Remaining(ErasedText, Outside, s) == Before([s[0]], Remaining(ErasedText, Outside, s[1..]))
  {
    ErasedFirst(s);
  }

  function ModeOf(inString: bool, escaped: bool, lineComment: bool, blockComment: bool): Mode {
    if lineComment then InLine else if blockComment then InBlock
    else if inString then (if escaped then InEscape else InString) else Outside
  }

  predicate OpensComment(s: Text, i: nat) {
    i + 1 < |s| && s[i] == '/' && (s[i + 1] == '/' || s[i + 1] == '*')
  }

  /** One round of the comment loop: the next mode, what is written and how far it goes. */
  function StripMode(m: Mode, s: Text, i: nat): Mode
    requires i < |s|
  {
    match m
    case InLine => if LineBreak(s[i]) then Outside else InLine
    case InBlock => if EndsAt(s, i) then Outside else InBlock
    case Outside =>
      if OpensComment(s, i) then (if s[i + 1] == '/' then InLine else InBlock) else StringMode(m, s[i])
    case _ => StringMode(m, s[i])
  }

  function StringMode(m: Mode, c: char): Mode {
    if m == InEscape then InString
    else if m == InString then (if c == '\\' then InEscape else if c == '"' then Outside else InString)
    else if c == '"' then InString else m
  }

  function StripLength(m: Mode, s: Text, i: nat): (n: nat)
    requires i < |s|
    ensures 0 < n <= |s| - i
  {
    if (m == InBlock && EndsAt(s, i)) || (m == Outside && OpensComment(s, i)) then 2 else 1
  }

  function StripWritten(m: Mode, s: Text, i: nat): Text
    requires i < |s|
  {
    if StripLength(m, s, i) == 2 then "  "
    else if (m == InLine || m == InBlock) && !LineBreak(s[i]) then " "
    else [s[i]]
  }

  /** One round of the comment loop does what the tokens say. */
  predicate StripRound(m: Mode, s: Text)
    requires s != []
  {
    Remaining(ErasedText, m, s) ==
      Before(StripWritten(m, s, 0), Remaining(ErasedText, StripMode(m, s, 0), s[StripLength(m, s, 0)..]))
  }

  lemma StripInBlock(s: Text)
    requires s != []
    ensures StripRound(InBlock, s)
  {
    BlockStep(s);
    assert Blank([s[0]]) == if LineBreak(s[0]) then [s[0]] else " ";
  }

  lemma StripOutside(s: Text)
    requires s != []
    ensures StripRound(Outside, s)
  {
    if OpensComment(s, 0) {
      if s[1] == '/' { OpenLineComment(s); } else { OpenBlockComment(s); }
    } else if s[0] == '"' {
      ErasedFirst(s);
      OpenString(ErasedText, s);
    } else {
      PlainStep(s);
    }
  }

  lemma StripFirst(m: Mode, s: Text)
    requires s != []
    ensures StripRound(m, s)
  {
    match m
    case InLine => LineStep(s);
    case InBlock => StripInBlock(s);
    case Outside => StripOutside(s);
    case _ => StringStep(ErasedText, s);
  }

  /** The rounds from position `i` on. */
  function StripFrom(m: Mode, s: Text, i: nat): Option<Text>
    requires i <= |s|
    decreases |s| - i
  {
    if i == |s| then (if m == Outside || m == InLine then Some([]) else None)
    else Before(StripWritten(m, s, i), StripFrom(StripMode(m, s, i), s, i + StripLength(m, s, i)))
  }

  /** The rounds together do what the tokens say. */
  lemma {:induction false} StripFromIs(m: Mode, s: Text, i: nat)
    requires i <= |s|
    ensures StripFrom(m, s, i) == Remaining(ErasedText, m, s[i..])
    decreases |s| - i
  {
    if i == |s| {
      assert s[i..] == [];
      NothingRemains(ErasedText, m);
    } else {
      StripFirst(m, s[i..]);
      StripSame(s, i, m);
      StripFromIs(StripMode(m, s, i), s, i + StripLength(m, s, i));
    }
  }

  lemma StripSame(text: Text, i: nat, m: Mode)
    requires i < |text|
    ensures StripMode(m, text, i) == StripMode(m, text[i..], 0)
    ensures StripLength(m, text, i) == StripLength(m, text[i..], 0)
    ensures StripWritten(m, text, i) == StripWritten(m, text[i..], 0)
    ensures text[i..][StripLength(m, text, i)..] == text[i + StripLength(m, text, i)..]
  {
    assert OpensComment(text, i) == OpensComment(text[i..], 0) && EndsAt(text, i) == EndsAt(text[i..], 0);
  }

  /** Refuses a text with an unterminated string or block comment. */
  method StripComments(text: Text) returns (r: Option<Text>)
    ensures r == ErasedText(text)
  {
    var stripped: Text := [];
    var inString, escaped, lineComment, blockComment := false, false, false, false;
    var index := 0;
    ghost var m, whole := Outside, StripFrom(Outside, text, 0);
    BeforeNothing(whole);
    while index < |text|
      invariant 0 <= index <= |text|
      invariant m == ModeOf(inString, escaped, lineComment, blockComment)
      invariant !(lineComment && blockComment) && ((lineComment || blockComment) ==> !inString) && (escaped ==> inString)
      invariant Before(stripped, StripFrom(m, text, index)) == whole
    {
      BeforeTwice(stripped, StripWritten(m, text, index),
        StripFrom(StripMode(m, text, index), text, index + StripLength(m, text, index)));
      m := StripMode(m, text, index);
      var c := text[index];
      if lineComment {
        if LineBreak(c) {
          lineComment := false;
          stripped := stripped + [c];
        } else {
          stripped := stripped + " ";
        }
      } else if blockComment {
        if c == '*' && index + 1 < |text| && text[index + 1] == '/' {
          stripped := stripped + "  ";
          index := index + 1;
          blockComment := false;
        } else {
          stripped := stripped + if LineBreak(c) then [c] else " ";
        }
      } else if inString {
        stripped := stripped + [c];
        if escaped { escaped := false; }
        else if c == '\\' { escaped := true; }
        else if c == '"' { inString := false; }
      } else if c == '"' {
        inString := true;
        stripped := stripped + [c];
      } else if c == '/' && index + 1 < |text| && text[index + 1] == '/' {
        stripped := stripped + "  ";
        index := index + 1;
        lineComment := true;
      } else if c == '/' && index + 1 < |text| && text[index + 1] == '*' {
        stripped := stripped + "  ";
        index := index + 1;
        blockComment := true;
      } else {
        stripped := stripped + [c];
      }
      index := index + 1;
    }
    assert stripped + [] == stripped;
    r := if inString || blockComment then None else Some(stripped);
    assert r == whole;
    StripFromIs(Outside, text, 0);
    assert text[0..] == text;
  }

  lemma NothingRemains(pass: Text -> Option<Text>, m: Mode)
    requires pass([]) == Some([])
    ensures Remaining(pass, m, []) == if m == Outside || m == InLine then Some([]) else None
  {
    assert Blank([]) == [];
    var nothing: Text := [];
    assert nothing[..0] == nothing && nothing[0..] == nothing;
    BeforeNothing(pass([]));
  }

  // ---- The comma loop ----

  /** A text with all its tokens ended and no comments: what the comment loop leaves. */
  predicate Clean(s: Text) { Lex(s).Some? && NoComments(Lex(s).value) }

  function CommaText(s: Text): Option<Text> {
    if Clean(s) then Some(TextOf(DropCommas(Lex(s).value))) else None
  }

  predicate ClosesText(s: Text) {
    s != [] && (if Space(s[0]) then ClosesText(s[1..]) else s[0] == '}' || s[0] == ']')
  }

  lemma CleanFirst(s: Text)
    requires s != [] && Clean(s)
    ensures FirstToken(s).Some? && !Comment(FirstToken(s).value)
    ensures var t := FirstToken(s).value;
            var rest := s[|TokenText(t)|..];
            Clean(rest) && Lex(s).value[0] == t && Lex(s).value[1..] == Lex(rest).value
  {
    var t := FirstToken(s).value;
    var rest := s[|TokenText(t)|..];
    var ts := Lex(s).value;
    assert ts == [t] + Lex(rest).value;
    assert !Comment(ts[0]);
    assert forall i :: 0 <= i < |Lex(rest).value| ==> Lex(rest).value[i] == ts[i + 1];
  }

  lemma {:induction false} ClosesTextIff(s: Text)
    requires Clean(s)
    ensures ClosesText(s) <==> ClosesNext(Lex(s).value)
    decreases |s|
  {
    if s != [] {
      CleanFirst(s);
      if FirstToken(s) == Some(Plain(s[0])) { ClosesTextIff(s[1..]); }
    }
  }

  lemma CommaFirst(s: Text)
    requires s != [] && Clean(s)
    ensures FirstToken(s).Some? && !Comment(FirstToken(s).value)
    ensures var t := FirstToken(s).value;
            var rest := s[|TokenText(t)|..];
            && Clean(rest)
            && CommaText(s) ==
               if t == Plain(',') && ClosesText(s[1..]) then CommaText(rest) else Before(TokenText(t), CommaText(rest))
  {
    CleanFirst(s);
    var t := FirstToken(s).value;
    var rest := s[|TokenText(t)|..];
    ClosesTextIff(rest);
    TokensCons(t, DropCommas(Lex(rest).value));
  }

  lemma CommaOpenString(s: Text)
    requires s != [] && s[0] == '"' && Clean(s)
    ensures CommaText(s) == Before([s[0]], Remaining(CommaText, InString, s[1..]))
  {
    CommaFirst(s);
    OpenString(CommaText, s);
  }

  lemma CommaPlain(s: Text)
    requires s != [] && s[0] != '"' && Clean(s)
    ensures CommaText(s) == Before(if s[0] == ',' && ClosesText(s[1..]) then [] else [s[0]], CommaText(s[1..]))
  {
    CommaFirst(s);
    BeforeNothing(CommaText(s[1..]));
  }

  function CommaWritten(m: Mode, text: Text, i: nat): Text
    requires i < |text|
  {
    if m == Outside && text[i] == ',' && ClosesText(text[i + 1..]) then [] else [text[i]]
  }

  function CommasFrom(m: Mode, s: Text, i: nat): Option<Text>
    requires i <= |s|
    decreases |s| - i
  {
    if i == |s| then (if m == Outside then Some([]) else None)
    else Before(CommaWritten(m, s, i), CommasFrom(StringMode(m, s[i]), s, i + 1))
  }

  lemma CommaFirstChar(m: Mode, s: Text)
    requires s != [] && m != InLine && m != InBlock && Remaining(CommaText, m, s).Some?
    ensures Remaining(CommaText, m, s) ==
      Before(CommaWritten(m, s, 0), Remaining(CommaText, StringMode(m, s[0]), s[1..]))
  {
    if m == Outside {
      assert Clean(s);
      if s[0] == '"' { CommaOpenString(s); } else { CommaPlain(s); }
    } else {
      StringStep(CommaText, s);
    }
  }

  lemma {:induction false} CommasFromIs(m: Mode, s: Text, i: nat)
    requires i <= |s| && m != InLine && m != InBlock && Remaining(CommaText, m, s[i..]).Some?
    ensures CommasFrom(m, s, i) == Remaining(CommaText, m, s[i..])
    decreases |s| - i
  {
    if i == |s| {
      assert s[i..] == [];
      NothingRemains(CommaText, m);
    } else {
      CommaFirstChar(m, s[i..]);
      assert s[i..][1..] == s[i + 1..];
      CommasFromIs(StringMode(m, s[i]), s, i + 1);
    }
  }

  method RemoveTrailingCommas(text: Text) returns (r: Text)
    requires Clean(text)
    ensures Some(r) == CommaText(text)
  {
    r := [];
    var inString, escaped := false, false;
    ghost var m, whole := Outside, CommasFrom(Outside, text, 0);
    BeforeNothing(whole);
    for index := 0 to |text|
      invariant m == ModeOf(inString, escaped, false, false) && (escaped ==> inString)
      invariant Before(r, CommasFrom(m, text, index)) == whole
    {
      var c := text[index];
      BeforeTwice(r, CommaWritten(m, text, index), CommasFrom(StringMode(m, c), text, index + 1));
      if inString {
        r := r + [c];
        if escaped { escaped := false; }
        else if c == '\\' { escaped := true; }
        else if c == '"' { inString := false; }
      } else if c == '"' {
        inString := true;
        r := r + [c];
      } else {
        var closes := false;
        if c == ',' { closes := LooksAhead(text, index + 1); }
        if !closes { r := r + [c]; } else { assert r + [] == r; }
      }
      m := StringMode(m, c);
    }
    assert r + [] == r;
    assert m == Outside ==> Some(r) == whole;
    CommasFromIs(Outside, text, 0);
    assert text[0..] == text;
  }

  method LooksAhead(text: Text, from: nat) returns (closes: bool)
    requires from <= |text|
    ensures closes <==> ClosesText(text[from..])
  {
    var lookahead := from;
    while lookahead < |text| && Space(text[lookahead])
      invariant from <= lookahead <= |text|
      invariant ClosesText(text[lookahead..]) == ClosesText(text[from..])
    {
      assert text[lookahead..][1..] == text[lookahead + 1..];
      lookahead := lookahead + 1;
    }
    return lookahead < |text| && (text[lookahead] == '}' || text[lookahead] == ']');
  }

  // ---- Both passes ----

  function WithoutMark(s: Text): Text {
    if s != [] && s[0] == '\U{FEFF}' then s[1..] else s
  }

  function Prepared(text: Text): Option<Text> {
    match Lex(text)
    case None => None
    case Some(ts) => Some(WithoutMark(Erased(DropCommas(ts))))
  }

  /** The byte order mark. */
  predicate Mark(c: char) { c as int == 0xFEFF }

  /**
   * A text is refused exactly when it does not divide into valid tokens; of any
   * other text the decoder gets the tokens without comments and trailing commas,
   * and without one byte order mark in front.
   */
  lemma PreparedIff(text: Text, ts: seq<Token>)
    ensures TextOf(ts) == text && Valid(ts) ==>
      var left := Erased(DropCommas(ts));
      && Prepared(text).Some?
      && (if left != [] && Mark(left[0]) then left == [left[0]] + Prepared(text).value else left == Prepared(text).value)
    ensures Prepared(text).Some? ==> exists us :: TextOf(us) == text && Valid(us)
  {
    LexIff(text, ts);
    LexSound(text);
  }

  method PrepareJson(text: Text) returns (r: Option<Text>)
    ensures r == Prepared(text)
  {
    var stripped := StripComments(text);
    if stripped.None? { return None; }
    ghost var ts := Lex(text).value;
    LexSound(text);
    CommentPassIsIdempotent(text, ts);
    CommasThroughBlanks(ts);
    var without := RemoveTrailingCommas(stripped.value);
    return Some(WithoutMark(without));
  }

  // ---- Which commas go ----

  predicate Trailing(ts: seq<Token>, i: int) {
    0 <= i < |ts| && ts[i] == Plain(',') && ClosesNext(ts[i + 1..])
  }

  predicate Increasing(kept: seq<nat>) { forall i, j :: 0 <= i < j < |kept| ==> kept[i] < kept[j] }

  /** Positions, counted from `off`, of the tokens left. */
  predicate KeptIn(kept: seq<nat>, ts: seq<Token>, left: seq<Token>, off: nat) {
    && |kept| == |left| && Increasing(kept)
    && (forall j :: 0 <= j < |kept| ==> off <= kept[j] < off + |ts| && left[j] == ts[kept[j] - off])
    && (forall j :: 0 <= j < |kept| ==> !Trailing(ts, kept[j] - off))
    && (forall i :: off <= i < off + |ts| && i !in kept ==> Trailing(ts, i - off))
  }

  lemma TrailingTail(ts: seq<Token>)
    requires ts != []
    ensures forall i :: 0 < i < |ts| ==> Trailing(ts, i) == Trailing(ts[1..], i - 1)
  {
    forall i | 0 < i < |ts|
      ensures Trailing(ts, i) == Trailing(ts[1..], i - 1)
    {
      assert ts[1..][i..] == ts[i + 1..];
    }
  }

  lemma KeptSkip(kept: seq<nat>, ts: seq<Token>, left: seq<Token>, off: nat)
    requires ts != [] && Trailing(ts, 0) && KeptIn(kept, ts[1..], left, off + 1)
    ensures KeptIn(kept, ts, left, off)
  {
    TrailingTail(ts);
  }

  lemma KeptTake(kept: seq<nat>, ts: seq<Token>, left: seq<Token>, off: nat)
    requires ts != [] && !Trailing(ts, 0) && KeptIn(kept, ts[1..], left, off + 1)
    ensures KeptIn([off] + kept, ts, [ts[0]] + left, off)
  {
    TrailingTail(ts);
    forall i | off <= i < off + |ts| && i !in [off] + kept
      ensures Trailing(ts, i - off)
    {
      assert ([off] + kept)[0] == off;
      assert i !in kept;
    }
  }

  lemma {:induction false} KeptTokens(ts: seq<Token>, off: nat) returns (kept: seq<nat>)
    ensures KeptIn(kept, ts, DropCommas(ts), off)
    decreases |ts|
  {
    if ts == [] {
      kept := [];
    } else {
      kept := KeptTokens(ts[1..], off + 1);
      if Trailing(ts, 0) {
        KeptSkip(kept, ts, DropCommas(ts[1..]), off);
      } else {
        KeptTake(kept, ts, DropCommas(ts[1..]), off);
        kept := [off] + kept;
      }
    }
  }

  /** The white space of the host language, by code point. */
  predicate SpaceCode(n: int) {
    9 <= n <= 13 || n == 32 || n == 0xA0 || n == 0x1680 || 0x2000 <= n <= 0x200A
    || n in {0x2028, 0x2029, 0x202F, 0x205F, 0x3000, 0xFEFF}
  }

  lemma SpaceIff(c: char)
    ensures Space(c) <==> SpaceCode(c as int)
  {
  }

  predicate Gap(t: Token) { Comment(t) || (t.Plain? && SpaceCode(t.c as int)) }

  /** After position `i` come comments and white space up to a closing bracket at `m`. */
  predicate ClosedAt(ts: seq<Token>, i: int, m: int) {
    0 <= i < m < |ts| && (ts[m] == Plain('}') || ts[m] == Plain(']')) && forall j :: i < j < m ==> Gap(ts[j])
  }

  lemma GapIff(t: Token)
    ensures Gap(t) <==> Skipped(t)
  {
    if t.Plain? { SpaceIff(t.c); }
  }

  lemma ClosedIff(ts: seq<Token>, i: nat)
    requires i < |ts|
    ensures ClosesNext(ts[i + 1..]) <==> exists m :: ClosedAt(ts, i, m)
  {
    var rest := ts[i + 1..];
    ClosesNextIff(rest);
    forall t | t in ts ensures Gap(t) <==> Skipped(t) { GapIff(t); }
    if k :| ClosesAt(rest, k) {
      forall j | i < j < i + 1 + k
        ensures Skipped(ts[j])
      {
        assert rest[j - i - 1] == ts[j];
      }
      assert ClosedAt(ts, i, i + 1 + k);
    }
    if m :| ClosedAt(ts, i, m) { assert ClosesAt(rest, m - i - 1); }
  }

  /** Exactly the trailing commas go: a bracket closes after nothing but comments and white space. */
  lemma OnlyTrailingCommasGo(ts: seq<Token>) returns (kept: seq<nat>)
    ensures |kept| == |DropCommas(ts)| && Increasing(kept)
    ensures forall j :: 0 <= j < |kept| ==> kept[j] < |ts| && DropCommas(ts)[j] == ts[kept[j]]
    ensures forall i :: 0 <= i < |ts| ==> (i !in kept <==> ts[i] == Plain(',') && exists m :: ClosedAt(ts, i, m))
  {
    kept := KeptTokens(ts, 0);
    forall i | 0 <= i < |ts|
      ensures Trailing(ts, i) <==> ts[i] == Plain(',') && exists m :: ClosedAt(ts, i, m)
    {
      ClosedIff(ts, i);
    }
  }
}
