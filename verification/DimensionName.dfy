/** Dimension names: the agent prints them from a format and a placeholder table, the optimizer service
    parses them back with a regular expression made from the same format. */
module DimensionName {
  import opened Keys
  import opened Text
  import opened Wrappers

  // ---------------------------------------------------------------------------------------------
  // Formats
  // ---------------------------------------------------------------------------------------------

  /** A format string in parsed form. */
  datatype Token = Lit(text: string) | Hole(name: string)

  function Placeholder(name: string): (s: string)
    ensures |s| == |name| + 3
  {
    "${" + name + "}"
  }

  function FormatString(tokens: seq<Token>): string {
    if tokens == [] then ""
    else (match tokens[0] case Lit(t) => t case Hole(n) => Placeholder(n)) + FormatString(tokens[1..])
  }

  /** The meaning of a format: every known placeholder replaced by its value, all at once. */
  function Fill(tokens: seq<Token>, values: map<string, string>): string {
    if tokens == [] then ""
    else
      (match tokens[0]
       case Lit(t) => t
       case Hole(n) => if n in values then values[n] else Placeholder(n))
      + Fill(tokens[1..], values)
  }

  predicate WellFormedToken(t: Token) {
    match t
    case Lit(text) => '$' !in text
    case Hole(n) => '$' !in n && '}' !in n
  }

  ghost predicate WellFormed(tokens: seq<Token>) {
    forall t :: t in tokens ==> WellFormedToken(t)
  }

  // ---------------------------------------------------------------------------------------------
  // Printing
  // ---------------------------------------------------------------------------------------------

  function RenderFrom(result: string, order: seq<string>, values: map<string, string>): string
    requires forall n :: n in order ==> n in values
    decreases |order|
  {
    if order == [] then result
    else RenderFrom(ReplaceAll(result, Placeholder(order[0]), values[order[0]]), order[1..], values)
  }

  lemma {:induction false} RenderAppend(result: string, order: seq<string>, n: string, values: map<string, string>)
    requires forall k :: k in order + [n] ==> k in values
    ensures n in values
    ensures RenderFrom(result, order + [n], values)
            == ReplaceAll(RenderFrom(result, order, values), Placeholder(n), values[n])
    decreases |order|
  {
    assert (order + [n])[|order|] == n;
    if order == [] {
      assert order + [n] == [n] && [n][1..] == [];
    } else {
      assert (order + [n])[1..] == order[1..] + [n];
      RenderAppend(ReplaceAll(result, Placeholder(order[0]), values[order[0]]), order[1..], n, values);
    }
  }

  /** The agent's loop over the placeholder table, whose iteration order is arbitrary. */
  method RenderDimensionName(format: string, values: map<string, string>, order: seq<string>) returns (result: string)
    requires forall n :: n in order <==> n in values
    ensures result == RenderFrom(format, order, values)
  {
    result := format;
    for i := 0 to |order|
      invariant result == RenderFrom(format, order[..i], values)
    {
      assert order[..i + 1] == order[..i] + [order[i]];
      RenderAppend(format, order[..i], order[i], values);
      result := ReplaceAll(result, Placeholder(order[i]), values[order[i]]);
    }
    assert order[..|order|] == order;
  }

  /** The format after one placeholder has been replaced. */
  function Subst(tokens: seq<Token>, n: string, v: string): seq<Token> {
    if tokens == [] then []
    else [if tokens[0] == Hole(n) then Lit(v) else tokens[0]] + Subst(tokens[1..], n, v)
  }

  lemma PlaceholderPrefix(n: string, k: string, rest: string)
    requires Starts(Placeholder(k) + rest, Placeholder(n))
    ensures n == k || (|n| < |k| && k[|n|] == '}') || (|k| < |n| && n[|k|] == '}')
  {
    var p, s := Placeholder(n), Placeholder(k) + rest;
    assert forall i :: 0 <= i < |p| ==> s[i] == p[i];
    assert forall i :: 0 <= i < |n| ==> p[2 + i] == n[i];
    assert forall i :: 0 <= i < |k| ==> s[2 + i] == k[i];
    assert p[2 + |n|] == '}' && s[2 + |k|] == '}';
  }

  lemma HoleIsItsOwnPrefix(n: string, k: string, rest: string)
    requires '}' !in n && '}' !in k
    ensures Starts(Placeholder(k) + rest, Placeholder(n)) <==> n == k
  {
    if Starts(Placeholder(k) + rest, Placeholder(n)) {
      PlaceholderPrefix(n, k, rest);
    }
    if n == k {
      assert (Placeholder(k) + rest)[..|Placeholder(n)|] == Placeholder(n);
    }
  }

  lemma ReplaceHole(n: string, k: string, v: string, rest: string)
    requires '$' !in n && '}' !in n && '$' !in k && '}' !in k
    ensures ReplaceAll(Placeholder(k) + rest, Placeholder(n), v)
            == (if n == k then v else Placeholder(k)) + ReplaceAll(rest, Placeholder(n), v)
  {
    var s, p := Placeholder(k) + rest, Placeholder(n);
    HoleIsItsOwnPrefix(n, k, rest);
    if n == k {
      assert s[|p|..] == rest;
    } else {
      var inner := "{" + k + "}";
      assert s[1..] == inner + rest && s == ['$'] + s[1..];
      ReplaceSkips(inner, rest, p, v);
      if |s| < |p| {
        assert ReplaceAll(s, p, v) == s;
        assert ReplaceAll(s[1..], p, v) == s[1..];
      } else {
        assert ReplaceAll(s, p, v) == [s[0]] + ReplaceAll(s[1..], p, v);
      }
      assert ['$'] + (inner + ReplaceAll(rest, p, v)) == Placeholder(k) + ReplaceAll(rest, p, v);
    }
  }

  /** One ReplaceAll over the text is one substitution in the format. */
  lemma {:induction false} ReplaceIsSubst(tokens: seq<Token>, n: string, v: string)
    requires WellFormed(tokens) && '$' !in n && '}' !in n
    ensures ReplaceAll(FormatString(tokens), Placeholder(n), v) == FormatString(Subst(tokens, n, v))
  {
    if tokens != [] {
      var rest := FormatString(tokens[1..]);
      ReplaceIsSubst(tokens[1..], n, v);
      assert tokens[0] in tokens;
      match tokens[0]
      case Lit(t) =>
        ReplaceSkips(t, rest, Placeholder(n), v);
      case Hole(k) =>
        ReplaceHole(n, k, v, rest);
    }
  }

  lemma {:induction false} SubstWellFormed(tokens: seq<Token>, n: string, v: string)
    requires WellFormed(tokens) && '$' !in v
    ensures WellFormed(Subst(tokens, n, v))
    ensures Hole(n) !in Subst(tokens, n, v)
    ensures forall k :: Hole(k) in Subst(tokens, n, v) ==> Hole(k) in tokens
  {
    if tokens != [] {
      assert tokens[0] in tokens;
      SubstWellFormed(tokens[1..], n, v);
    }
  }

  lemma {:induction false} FillSubst(tokens: seq<Token>, n: string, values: map<string, string>)
    requires n in values
    ensures Fill(Subst(tokens, n, values[n]), values) == Fill(tokens, values)
  {
    if tokens != [] {
      FillSubst(tokens[1..], n, values);
    }
  }

  lemma {:induction false} FillNothing(tokens: seq<Token>, values: map<string, string>)
    requires forall n :: Hole(n) in tokens ==> n !in values
    ensures Fill(tokens, values) == FormatString(tokens)
  {
    if tokens != [] {
      assert tokens[0] in tokens;
      FillNothing(tokens[1..], values);
    }
  }

  /** Whatever the iteration order, printing is simultaneous substitution. */
  lemma {:induction false} RenderIsFill(tokens: seq<Token>, order: seq<string>, values: map<string, string>)
    requires WellFormed(tokens)
    requires forall n :: n in order ==> n in values
    requires forall n :: n in values && Hole(n) in tokens ==> n in order
    requires forall n :: n in values ==> '$' !in values[n] && '$' !in n && '}' !in n
    ensures RenderFrom(FormatString(tokens), order, values) == Fill(tokens, values)
    decreases |order|
  {
    if order == [] {
      FillNothing(tokens, values);
    } else {
      var n := order[0];
      ReplaceIsSubst(tokens, n, values[n]);
      SubstWellFormed(tokens, n, values[n]);
      FillSubst(tokens, n, values);
      forall k | k in values && Hole(k) in Subst(tokens, n, values[n]) ensures k in order[1..] {
        assert k in order && k != n;
      }
      RenderIsFill(Subst(tokens, n, values[n]), order[1..], values);
    }
  }

  // ---------------------------------------------------------------------------------------------
  // Parsing
  // ---------------------------------------------------------------------------------------------

  predicate IsWord(c: char) {
    'a' <= c <= 'z' || 'A' <= c <= 'Z' || '0' <= c <= '9' || c == '_'
  }

  predicate IsMeta(c: char) {
    c in {'.', '^', '$', '*', '+', '?', '{', '}', '[', ']', '\\', '|', '(', ')'}
  }

  /** Length of the longest prefix of word characters. */
  function WordRun(s: string): (n: nat)
    ensures n <= |s|
  {
    if s == "" || !IsWord(s[0]) then 0 else 1 + WordRun(s[1..])
  }

  /** One element of the compiled pattern: a character, or a named lazy group of one or more characters. */
  datatype Elem = Chr(c: char) | Group(name: string)

  /** The placeholder at the front of a format, if there is one. */
  function HoleAt(s: string): (r: Option<string>)
    ensures r.Some? ==> |r.value| + 3 <= |s|
  {
    if Starts(s, "${") then
      var k := WordRun(s[2..]);
      if k > 0 && 2 + k < |s| && s[2 + k] == '}' then Some(s[2..2 + k]) else None
    else None
  }

  function Compile(format: string): seq<Elem>
    decreases |format|
  {
    if format == "" then []
    else
      match HoleAt(format)
      case Some(n) => [Group(n)] + Compile(format[|n| + 3..])
      case None => [Chr(format[0])] + Compile(format[1..])
  }

  /** Backtracking match of the whole string. A trailing newline may be left over. */
  function Match(es: seq<Elem>, s: string): Option<seq<string>>
    decreases |es|, |s| + 1
  {
    if es == [] then (if s == "" || s == "\n" then Some([]) else None)
    else if es[0].Chr? then (if s != "" && s[0] == es[0].c then Match(es[1..], s[1..]) else None)
    else MatchLazy(es, s, 1)
  }

  /** The group at the front of `es` tries lengths `k`, `k + 1`, ... and never crosses a newline. */
  function MatchLazy(es: seq<Elem>, s: string, k: nat): Option<seq<string>>
    requires es != [] && k >= 1
    decreases |es|, if k <= |s| then |s| - k else 0
  {
    if k > |s| || s[k - 1] == '\n' then None
    else
      match Match(es[1..], s[k..])
      case Some(caps) => Some([s[..k]] + caps)
      case None => if k == |s| then None else MatchLazy(es, s, k + 1)
  }

  function GroupNames(es: seq<Elem>): seq<string> {
    if es == [] then []
    else (match es[0] case Chr(_) => [] case Group(n) => [n]) + GroupNames(es[1..])
  }

  predicate HasRepeat(s: seq<string>) {
    exists i, j :: 0 <= i < j < |s| && s[i] == s[j]
  }

  predicate BadName(n: string) {
    n == "" || '0' <= n[0] <= '9'
  }

  function Zip(names: seq<string>, caps: seq<string>): map<string, string>
    requires |names| == |caps|
  {
    if names == [] then map[] else Zip(names[1..], caps[1..])[names[0] := caps[0]]
  }

  /** The pattern is rejected when a group name repeats or starts with a digit. */
  datatype PatternError = PatternError

  ghost predicate PlainPattern(es: seq<Elem>) {
    forall e :: e in es && e.Chr? ==> !IsMeta(e.c)
  }

  lemma {:induction false} MatchCount(es: seq<Elem>, s: string)
    ensures Match(es, s).Some? ==> |Match(es, s).value| == |GroupNames(es)|
    decreases |es|, |s| + 1
  {
    if es != [] {
      if es[0].Chr? {
        if s != "" {
          MatchCount(es[1..], s[1..]);
        }
      } else {
        LazyCount(es, s, 1);
      }
    }
  }

  lemma {:induction false} LazyCount(es: seq<Elem>, s: string, k: nat)
    requires es != [] && es[0].Group? && k >= 1
    ensures MatchLazy(es, s, k).Some? ==> |MatchLazy(es, s, k).value| == |GroupNames(es)|
    decreases |es|, if k <= |s| then |s| - k else 0
  {
    if k <= |s| && s[k - 1] != '\n' {
      MatchCount(es[1..], s[k..]);
      if k < |s| {
        LazyCount(es, s, k + 1);
      }
    }
  }

  /** `parse_with_format`: the captured values by name, or None when the string does not match. */
  function ParseWithFormat(format: string, s: string): Result<Option<map<string, string>>, PatternError>
    requires PlainPattern(Compile(format))
  {
    var es := Compile(format);
    var names := GroupNames(es);
    if HasRepeat(names) || exists i :: 0 <= i < |names| && BadName(names[i]) then Failure(PatternError)
    else
      match Match(es, s)
      case None => Success(None)
      case Some(caps) => MatchCount(es, s); Success(Some(Zip(names, caps)))
  }

  /** Compiling raises exactly when the format names a placeholder twice, or one with a digit first, or without a
      name. */
  lemma ParseRaisesIff(format: string, s: string)
    requires PlainPattern(Compile(format))
    ensures var names := GroupNames(Compile(format));
            ParseWithFormat(format, s).Failure? <==>
              || !NoDup(names)
              || exists i :: 0 <= i < |names| && (names[i] == "" || names[i][0] in "0123456789")
  {
    var names := GroupNames(Compile(format));
    forall i | 0 <= i < |names|
      ensures BadName(names[i]) <==> names[i] == "" || names[i][0] in "0123456789"
    {
      if names[i] != "" {
        Digits(names[i][0]);
      }
    }
  }

  /** A placeholder name is made of ASCII letters, digits and underscores. */
  lemma WordCharacters(c: char)
    ensures IsWord(c) <==> || c in "abcdefghijklmnopqrstuvwxyz" || c in "ABCDEFGHIJKLMNOPQRSTUVWXYZ"
                           || c in "0123456789" || c == '_'
  {
    LowerLetters(c);
    UpperLetters(c);
    Digits(c);
  }

  /** The characters with a meaning of their own in a pattern. */
  lemma MetaCharacters(c: char)
    ensures IsMeta(c) <==> c in ".^$*+?{}[]\\|()"
  {
  }

  // ---------------------------------------------------------------------------------------------
  // The compiled pattern of a format
  // ---------------------------------------------------------------------------------------------

  function Chrs(t: string): seq<Elem> {
    seq(|t|, i requires 0 <= i < |t| => Chr(t[i]))
  }

  function TokenElems(t: Token): seq<Elem> {
    match t case Lit(text) => Chrs(text) case Hole(n) => [Group(n)]
  }

  function Elems(tokens: seq<Token>): seq<Elem> {
    if tokens == [] then [] else TokenElems(tokens[0]) + Elems(tokens[1..])
  }

  function Names(tokens: seq<Token>): seq<string> {
    if tokens == [] then []
    else (match tokens[0] case Lit(_) => [] case Hole(n) => [n]) + Names(tokens[1..])
  }

  predicate GoodToken(t: Token) {
    match t
    case Lit(text) => text != "" && forall c :: c in text ==> !IsMeta(c) && c != '\n'
    case Hole(n) => n != "" && !BadName(n) && forall c :: c in n ==> IsWord(c)
  }

  /** Literals and placeholders alternate; literals have no regex metacharacter; placeholders do not repeat. */
  ghost predicate GoodFormat(tokens: seq<Token>) {
    && (forall i :: 0 <= i < |tokens| ==> GoodToken(tokens[i]))
    && (forall i :: 0 <= i < |tokens| - 1 ==> (tokens[i].Lit? <==> tokens[i + 1].Hole?))
    && NoDup(Names(tokens))
  }

  ghost predicate GoodValue(v: string) {
    v != "" && '\n' !in v
  }

  ghost predicate GoodValues(tokens: seq<Token>, values: map<string, string>) {
    forall n :: n in Names(tokens) ==> n in values && GoodValue(values[n])
  }

  function Captured(tokens: seq<Token>, values: map<string, string>): seq<string>
    requires forall n :: n in Names(tokens) ==> n in values
  {
    if tokens == [] then []
    else
      (match tokens[0] case Lit(_) => [] case Hole(n) => assert n in Names(tokens); [values[n]])
      + (assert forall n :: n in Names(tokens[1..]) ==> n in Names(tokens); Captured(tokens[1..], values))
  }

  lemma GoodTail(tokens: seq<Token>)
    requires tokens != [] && GoodFormat(tokens)
    ensures GoodFormat(tokens[1..])
    ensures forall n :: n in Names(tokens[1..]) ==> n in Names(tokens)
  {
    var names := Names(tokens);
    match tokens[0]
    case Lit(_) =>
      assert names == Names(tokens[1..]);
    case Hole(n) =>
      assert names[1..] == Names(tokens[1..]);
      assert forall i :: 0 <= i < |names[1..]| ==> names[1..][i] == names[i + 1];
  }

  lemma CompileChar(c: char, rest: string)
    requires c != '$'
    ensures Compile([c] + rest) == [Chr(c)] + Compile(rest)
  {
    var s := [c] + rest;
    assert s[1..] == rest && s[0] == c;
    if Starts(s, "${") {
      StartsFirst(s, "${");
    }
  }

  lemma {:induction false} CompileLit(t: string, rest: string)
    requires '$' !in t
    ensures Compile(t + rest) == Chrs(t) + Compile(rest)
  {
    if t == "" {
      assert t + rest == rest;
    } else {
      calc {
        Compile(t + rest);
        { assert t + rest == [t[0]] + (t[1..] + rest); }
        Compile([t[0]] + (t[1..] + rest));
        { CompileChar(t[0], t[1..] + rest); }
        [Chr(t[0])] + Compile(t[1..] + rest);
        { CompileLit(t[1..], rest); }
        [Chr(t[0])] + (Chrs(t[1..]) + Compile(rest));
        { assert Chrs(t) == [Chr(t[0])] + Chrs(t[1..]); }
        Chrs(t) + Compile(rest);
      }
    }
  }

  lemma {:induction false} WordRunOf(n: string, rest: string)
    requires forall c :: c in n ==> IsWord(c)
    requires rest == "" || !IsWord(rest[0])
    ensures WordRun(n + rest) == |n|
  {
    if n == "" {
      assert n + rest == rest;
    } else {
      WordRunOf(n[1..], rest);
      assert (n + rest)[1..] == n[1..] + rest;
    }
  }

  lemma CompileHole(n: string, rest: string)
    requires n != "" && forall c :: c in n ==> IsWord(c)
    ensures Compile(Placeholder(n) + rest) == [Group(n)] + Compile(rest)
  {
    var s := Placeholder(n) + rest;
    assert s[..2] == "${";
    assert s[2..] == n + ("}" + rest);
    WordRunOf(n, "}" + rest);
    assert s[2..2 + |n|] == n;
    assert s[|n| + 3..] == rest;
  }

  /** Compiling the printed format gives the pattern of the format. */
  lemma {:induction false} CompileFormat(tokens: seq<Token>)
    requires forall i :: 0 <= i < |tokens| ==> GoodToken(tokens[i])
    ensures Compile(FormatString(tokens)) == Elems(tokens)
    ensures GroupNames(Elems(tokens)) == Names(tokens)
    ensures PlainPattern(Elems(tokens))
  {
    if tokens != [] {
      CompileFormat(tokens[1..]);
      match tokens[0]
      case Lit(t) =>
        CompileLit(t, FormatString(tokens[1..]));
        NoGroups(t, Elems(tokens[1..]));
      case Hole(n) =>
        CompileHole(n, FormatString(tokens[1..]));
        assert ([Group(n)] + Elems(tokens[1..]))[1..] == Elems(tokens[1..]);
    }
  }

  lemma {:induction false} NoGroups(t: string, es: seq<Elem>)
    ensures GroupNames(Chrs(t) + es) == GroupNames(es)
  {
    if t == "" {
      assert Chrs(t) + es == es;
    } else {
      NoGroups(t[1..], es);
      assert (Chrs(t) + es)[1..] == Chrs(t[1..]) + es;
    }
  }

  // ---------------------------------------------------------------------------------------------
  // What lazy matching finds
  // ---------------------------------------------------------------------------------------------

  lemma {:induction false} MatchLit(t: string, es: seq<Elem>, s: string)
    ensures Match(Chrs(t) + es, s) == if Starts(s, t) then Match(es, s[|t|..]) else None
  {
    if t == "" {
      assert Chrs(t) + es == es && s[0..] == s;
    } else {
      var all := Chrs(t) + es;
      assert all[1..] == Chrs(t[1..]) + es && all[0] == Chr(t[0]);
      if s != "" && s[0] == t[0] {
        MatchLit(t[1..], es, s[1..]);
        StartsTail(s, t);
        if Starts(s, t) {
          assert s[1..][|t| - 1..] == s[|t|..];
        }
      } else if Starts(s, t) {
        StartsFirst(s, t);
      }
    }
  }

  lemma StartsTail(s: string, t: string)
    requires s != "" && t != "" && s[0] == t[0]
    ensures Starts(s, t) <==> Starts(s[1..], t[1..])
  {
    if Starts(s, t) {
      assert s[1..][..|t| - 1] == s[..|t|][1..];
    }
    if Starts(s[1..], t[1..]) {
      assert s[..|t|] == [s[0]] + s[1..][..|t| - 1];
    }
  }

  /** If no length below `target` works, the search arrives at `target`. */
  lemma {:induction false} LazySkips(es: seq<Elem>, s: string, k: nat, target: nat)
    requires es != [] && 1 <= k <= target <= |s|
    requires '\n' !in s[..target]
    requires forall j :: k <= j < target ==> Match(es[1..], s[j..]) == None
    ensures MatchLazy(es, s, k) == MatchLazy(es, s, target)
    decreases target - k
  {
    if k < target {
      assert s[k - 1] == s[..target][k - 1];
      LazySkips(es, s, k + 1, target);
    }
  }

  /** If a length `k` works, the captured value is at most that long. */
  lemma {:induction false} LazyFindsShort(es: seq<Elem>, s: string, from: nat, k: nat)
    requires es != [] && 1 <= from <= k <= |s|
    requires '\n' !in s[..k]
    requires Match(es[1..], s[k..]).Some?
    ensures MatchLazy(es, s, from).Some?
    ensures MatchLazy(es, s, from).value != [] && |MatchLazy(es, s, from).value[0]| <= k
    decreases k - from
  {
    assert s[from - 1] == s[..k][from - 1];
    if from < k && Match(es[1..], s[from..]) == None {
      LazyFindsShort(es, s, from + 1, k);
    }
  }

  lemma FillLit(tokens: seq<Token>, values: map<string, string>)
    requires tokens != [] && tokens[0].Lit?
    ensures Fill(tokens, values) == tokens[0].text + Fill(tokens[1..], values)
  {
  }

  /** The text of a good format has no newline, so the end anchor is the real end. */
  lemma {:induction false} FillNoNewline(tokens: seq<Token>, values: map<string, string>)
    requires GoodFormat(tokens) && GoodValues(tokens, values)
    ensures '\n' !in Fill(tokens, values)
    ensures tokens != [] ==> Fill(tokens, values) != ""
  {
    if tokens != [] {
      GoodTail(tokens);
      FillNoNewline(tokens[1..], values);
      if tokens[0].Hole? {
        assert tokens[0].name in Names(tokens);
      }
    }
  }

  /** Completeness: the text of any good values matches, here with a value `v` of choice in front. */
  lemma {:induction false} MatchesFill(tokens: seq<Token>, values: map<string, string>)
    requires GoodFormat(tokens) && GoodValues(tokens, values)
    ensures Match(Elems(tokens), Fill(tokens, values)).Some?
  {
    if tokens != [] {
      GoodTail(tokens);
      MatchesFill(tokens[1..], values);
      var rest := Fill(tokens[1..], values);
      match tokens[0]
      case Lit(t) =>
        MatchLit(t, Elems(tokens[1..]), t + rest);
        assert (t + rest)[..|t|] == t && (t + rest)[|t|..] == rest;
      case Hole(n) =>
        assert n in Names(tokens);
        MatchesAfter(tokens, values[n], rest);
    }
  }

  lemma MatchesAfter(tokens: seq<Token>, v: string, rest: string)
    requires tokens != [] && tokens[0].Hole? && GoodValue(v)
    requires Match(Elems(tokens[1..]), rest).Some?
    ensures Match(Elems(tokens), v + rest).Some?
    ensures Match(Elems(tokens), v + rest).value != [] && |Match(Elems(tokens), v + rest).value[0]| <= |v|
  {
    var es := Elems(tokens);
    assert es[1..] == Elems(tokens[1..]);
    assert (v + rest)[|v|..] == rest;
    LazyFindsShort(es, v + rest, 1, |v|);
  }

  // ---------------------------------------------------------------------------------------------
  // The round trip
  // ---------------------------------------------------------------------------------------------

  /** In `v` followed by `lit`, the literal does not occur before the end of `v`, index 0 excepted. */
  ghost predicate EndsAtLiteral(v: string, lit: string) {
    forall k :: 1 <= k < |v| ==> !Starts((v + lit)[k..], lit)
  }

  /** Every placeholder that is followed by a literal and another placeholder ends at its literal. */
  ghost predicate Unambiguous(tokens: seq<Token>, values: map<string, string>)
    requires forall n :: n in Names(tokens) ==> n in values
  {
    if |tokens| < 3 then true
    else
      && (tokens[0].Hole? && tokens[1].Lit? ==>
            assert tokens[0].name in Names(tokens); EndsAtLiteral(values[tokens[0].name], tokens[1].text))
      && (assert forall n :: n in Names(tokens[1..]) ==> n in Names(tokens); Unambiguous(tokens[1..], values))
  }

  lemma StartsWindow(s: string, t: string, k: nat, lit: string)
    requires k <= |s| && |lit| <= |s| - k
    ensures Starts((s + t)[k..], lit) <==> Starts(s[k..], lit)
  {
    assert (s + t)[k..][..|lit|] == s[k..][..|lit|];
  }

  lemma LiteralOnlyAtEnd(lit: string, s: string)
    requires '\n' !in s && |s| > |lit|
    ensures Match(Chrs(lit), s) == None
  {
    MatchLit(lit, [], s);
    assert Chrs(lit) + [] == Chrs(lit);
    if Starts(s, lit) {
      assert s[|lit|] == s[|lit|..][0];
    }
  }

  /** A placeholder that ends the format, or is followed by one last literal, is always recovered. */
  lemma LastHoleIsRecovered(es: seq<Elem>, v: string, lit: string)
    requires es != [] && es[0].Group? && es[1..] == Chrs(lit)
    requires GoodValue(v) && '\n' !in lit
    ensures Match(es, v + lit) == Some([v])
  {
    var s := v + lit;
    forall j | 1 <= j < |v| ensures Match(es[1..], s[j..]) == None {
      LiteralOnlyAtEnd(lit, s[j..]);
    }
    assert s[|v|..] == lit && s[..|v|] == v;
    LazySkips(es, s, 1, |v|);
    MatchLit(lit, [], lit);
    assert Chrs(lit) + [] == Chrs(lit) && lit[|lit|..] == "";
    assert Match(es[1..], s[|v|..]) == Some([]);
    assert [v] + [] == [v];
  }

  /** With an unambiguous value, lazy matching captures it and goes on with the rest. */
  lemma InnerHoleIsRecovered(tokens: seq<Token>, v: string, rest: string)
    requires GoodFormat(tokens) && |tokens| >= 3 && tokens[0].Hole? && tokens[1].Lit? && GoodValue(v)
    requires Starts(rest, tokens[1].text) && EndsAtLiteral(v, tokens[1].text)
    requires Match(Elems(tokens[1..]), rest).Some?
    ensures Match(Elems(tokens), v + rest) == Some([v] + Match(Elems(tokens[1..]), rest).value)
  {
    var es, s, lit := Elems(tokens), v + rest, tokens[1].text;
    assert es[1..] == Elems(tokens[1..]);
    forall j | 1 <= j < |v| ensures Match(es[1..], s[j..]) == None {
      MatchLit(lit, Elems(tokens[2..]), s[j..]);
      assert tokens[1..][1..] == tokens[2..];
      assert s == (v + lit) + rest[|lit|..];
      StartsWindow(v + lit, rest[|lit|..], j, lit);
    }
    assert s[|v|..] == rest && s[..|v|] == v;
    LazySkips(es, s, 1, |v|);
  }

  /** With an ambiguous value, lazy matching stops earlier. */
  lemma AmbiguousHoleIsCutShort(tokens: seq<Token>, values: map<string, string>)
    requires GoodFormat(tokens) && GoodValues(tokens, values)
    requires |tokens| >= 3 && tokens[0].Hole? && tokens[1].Lit?
    requires tokens[0].name in values && !EndsAtLiteral(values[tokens[0].name], tokens[1].text)
    ensures Match(Elems(tokens), Fill(tokens, values)).Some?
    ensures Match(Elems(tokens), Fill(tokens, values)).value != []
    ensures Match(Elems(tokens), Fill(tokens, values)).value[0] != values[tokens[0].name]
  {
    var v, lit := values[tokens[0].name], tokens[1].text;
    GoodTail(tokens);
    GoodTail(tokens[1..]);
    assert tokens[1..][1..] == tokens[2..];
    var k :| 1 <= k < |v| && Starts((v + lit)[k..], lit);
    var tail := Fill(tokens[2..], values);
    var more := (v + lit)[k + |lit|..];
    FillLit(tokens[1..], values);
    assert Fill(tokens, values) == v + (lit + tail);
    CutParts(v, lit, tail, k);
    assert tokens[2].Hole? && GoodToken(tokens[1]) && tokens[0].name in Names(tokens);
    HoleTakesMore(tokens[2..], values, more);
    LiteralThen(lit, Elems(tokens[2..]), more + tail);
    assert Elems(tokens[1..]) == Chrs(lit) + Elems(tokens[2..]);
    MatchesAfter(tokens, v[..k], lit + (more + tail));
  }

  lemma LiteralThen(lit: string, es: seq<Elem>, rest: string)
    ensures Match(Chrs(lit) + es, lit + rest) == Match(es, rest)
  {
    MatchLit(lit, es, lit + rest);
    assert (lit + rest)[|lit|..] == rest && (lit + rest)[..|lit|] == lit;
  }

  /** A placeholder at the front can absorb extra text before its value. */
  lemma HoleTakesMore(tokens: seq<Token>, values: map<string, string>, more: string)
    requires GoodFormat(tokens) && GoodValues(tokens, values)
    requires tokens != [] && tokens[0].Hole? && '\n' !in more
    ensures Match(Elems(tokens), more + Fill(tokens, values)).Some?
  {
    var n := tokens[0].name;
    assert n in Names(tokens);
    GoodTail(tokens);
    MatchesFill(tokens[1..], values);
    var rest := Fill(tokens[1..], values);
    assert more + Fill(tokens, values) == (more + values[n]) + rest;
    MatchesAfter(tokens, more + values[n], rest);
  }

  lemma CutParts(v: string, lit: string, tail: string, k: nat)
    requires 1 <= k < |v| && Starts((v + lit)[k..], lit)
    ensures k + |lit| <= |v + lit|
    ensures v + (lit + tail) == v[..k] + (lit + ((v + lit)[k + |lit|..] + tail))
    ensures (v + lit)[k + |lit|..] != ""
    ensures forall c :: c in (v + lit)[k + |lit|..] ==> c in v || c in lit
  {
    var w := v + lit;
    assert w == w[..k] + w[k..] && w[..k] == v[..k];
    assert w[k..] == lit + w[k..][|lit|..];
    assert w[k..][|lit|..] == w[k + |lit|..];
    assert v + (lit + tail) == w + tail;
  }

  /** No hole follows: the end of the text bounds the value. */
  lemma CaptureLastHole(tokens: seq<Token>, values: map<string, string>)
    requires GoodFormat(tokens) && GoodValues(tokens, values) && 1 <= |tokens| <= 2 && tokens[0].Hole?
    ensures Match(Elems(tokens), Fill(tokens, values)) == Some(Captured(tokens, values))
            <==> Unambiguous(tokens, values)
  {
    GoodTail(tokens);
    MatchesFill(tokens[1..], values);
    var rest := Fill(tokens[1..], values);
    assert tokens[0].name in Names(tokens);
    var v := values[tokens[0].name];
    if |tokens| == 2 {
      assert tokens[1..][1..] == [] && GoodToken(tokens[1]);
      assert Elems(tokens[1..]) == Chrs(tokens[1].text) + [] && rest == tokens[1].text + "";
    } else {
      assert Elems(tokens[1..]) == Chrs("");
    }
    assert Elems(tokens)[1..] == Elems(tokens[1..]) == Chrs(rest);
    LastHoleIsRecovered(Elems(tokens), v, rest);
    assert Captured(tokens[1..], values) == [];
    assert Captured(tokens, values) == [v];
  }

  /** Another hole follows: the literal in between must first end where the value does. */
  lemma CaptureInnerHole(tokens: seq<Token>, values: map<string, string>)
    requires GoodFormat(tokens) && GoodValues(tokens, values) && |tokens| > 2 && tokens[0].Hole?
    requires GoodFormat(tokens[1..]) && GoodValues(tokens[1..], values)
    requires Match(Elems(tokens[1..]), Fill(tokens[1..], values)) == Some(Captured(tokens[1..], values))
             <==> Unambiguous(tokens[1..], values)
    ensures Match(Elems(tokens), Fill(tokens, values)) == Some(Captured(tokens, values))
            <==> Unambiguous(tokens, values)
  {
    MatchesFill(tokens[1..], values);
    var rest := Fill(tokens[1..], values);
    assert tokens[0].name in Names(tokens);
    var v := values[tokens[0].name];
    assert tokens[0].Lit? <==> tokens[1].Hole?;
    FillLit(tokens[1..], values);
    if EndsAtLiteral(v, tokens[1].text) {
      InnerHoleIsRecovered(tokens, v, rest);
      var back := Match(Elems(tokens[1..]), rest).value;
      assert [v] + back == [v] + Captured(tokens[1..], values) <==> back == Captured(tokens[1..], values) by {
        assert ([v] + back)[1..] == back;
        assert ([v] + Captured(tokens[1..], values))[1..] == Captured(tokens[1..], values);
      }
    } else {
      AmbiguousHoleIsCutShort(tokens, values);
      assert Captured(tokens, values)[0] == v;
    }
  }

  /** Capturing the printed values back succeeds exactly when the text is unambiguous. */
  lemma {:induction false} CaptureIff(tokens: seq<Token>, values: map<string, string>)
    requires GoodFormat(tokens) && GoodValues(tokens, values)
    ensures Match(Elems(tokens), Fill(tokens, values)) == Some(Captured(tokens, values))
            <==> Unambiguous(tokens, values)
  {
    if tokens == [] {
      return;
    }
    GoodTail(tokens);
    CaptureIff(tokens[1..], values);
    MatchesFill(tokens[1..], values);
    var rest := Fill(tokens[1..], values);
    match tokens[0]
    case Lit(t) =>
      MatchLit(t, Elems(tokens[1..]), t + rest);
      assert (t + rest)[..|t|] == t && (t + rest)[|t|..] == rest;
      assert Captured(tokens, values) == Captured(tokens[1..], values);
      assert Unambiguous(tokens, values) == Unambiguous(tokens[1..], values);
    case Hole(n) =>
      if |tokens| <= 2 {
        CaptureLastHole(tokens, values);
      } else {
        CaptureInnerHole(tokens, values);
      }
  }

  lemma {:induction false} CapturedCount(tokens: seq<Token>, values: map<string, string>)
    requires forall n :: n in Names(tokens) ==> n in values
    ensures |Captured(tokens, values)| == |Names(tokens)|
    ensures forall i :: 0 <= i < |Names(tokens)| ==> Captured(tokens, values)[i] == values[Names(tokens)[i]]
  {
    if tokens != [] {
      assert forall n :: n in Names(tokens[1..]) ==> n in Names(tokens);
      CapturedCount(tokens[1..], values);
    }
  }

  lemma {:induction false} ZipLookup(names: seq<string>, caps: seq<string>)
    requires |names| == |caps| && NoDup(names)
    ensures forall n :: n in Zip(names, caps) <==> n in names
    ensures forall i :: 0 <= i < |names| ==> names[i] in Zip(names, caps) && Zip(names, caps)[names[i]] == caps[i]
  {
    if names != [] {
      ZipLookup(names[1..], caps[1..]);
    }
  }

  lemma {:induction false} GoodNames(tokens: seq<Token>)
    requires forall i :: 0 <= i < |tokens| ==> GoodToken(tokens[i])
    ensures forall n :: n in Names(tokens) ==> !BadName(n) && Hole(n) in tokens
  {
    if tokens != [] {
      GoodNames(tokens[1..]);
    }
  }

  /** The values of the format's own placeholders. */
  function Restricted(tokens: seq<Token>, values: map<string, string>): map<string, string>
  {
    map n | n in Names(tokens) && n in values :: values[n]
  }

  /** What the agent prints, in any iteration order, parses back to exactly the printed values
      if and only if the printed text is unambiguous. */
  lemma RoundTripIff(tokens: seq<Token>, values: map<string, string>, order: seq<string>)
    requires GoodFormat(tokens) && GoodValues(tokens, values)
    requires forall n :: n in order <==> n in values
    requires forall n :: n in values ==> '$' !in values[n] && '$' !in n && '}' !in n
    ensures PlainPattern(Compile(FormatString(tokens)))
    ensures ParseWithFormat(FormatString(tokens), RenderFrom(FormatString(tokens), order, values))
            == Success(Some(Restricted(tokens, values)))
            <==> Unambiguous(tokens, values)
  {
    assert RenderFrom(FormatString(tokens), order, values) == Fill(tokens, values) by {
      GoodIsWellFormed(tokens);
      RenderIsFill(tokens, order, values);
    }
    ParseIsCapture(tokens, values);
    CaptureIff(tokens, values);
  }

  lemma GoodIsWellFormed(tokens: seq<Token>)
    requires GoodFormat(tokens)
    ensures WellFormed(tokens)
  {
    forall t | t in tokens ensures WellFormedToken(t) {
      assert GoodToken(t);
    }
  }

  lemma ZipOfCaptured(tokens: seq<Token>, values: map<string, string>)
    requires NoDup(Names(tokens))
    requires forall n :: n in Names(tokens) ==> n in values
    ensures |Captured(tokens, values)| == |Names(tokens)|
    ensures Zip(Names(tokens), Captured(tokens, values)) == Restricted(tokens, values)
  {
    var names := Names(tokens);
    CapturedCount(tokens, values);
    ZipLookup(names, Captured(tokens, values));
    var z := Zip(names, Captured(tokens, values));
    forall n | n in names ensures z[n] == values[n] {
      var i :| 0 <= i < |names| && names[i] == n;
    }
  }

  lemma ZipInjective(names: seq<string>, caps: seq<string>, more: seq<string>)
    requires NoDup(names) && |caps| == |names| == |more| && Zip(names, caps) == Zip(names, more)
    ensures caps == more
  {
    ZipLookup(names, caps);
    ZipLookup(names, more);
    forall i | 0 <= i < |names| ensures caps[i] == more[i] {
      assert names[i] in Zip(names, caps);
    }
  }

  lemma ZipIsRestricted(tokens: seq<Token>, values: map<string, string>, caps: seq<string>)
    requires NoDup(Names(tokens)) && |caps| == |Names(tokens)|
    requires forall n :: n in Names(tokens) ==> n in values
    ensures Zip(Names(tokens), caps) == Restricted(tokens, values) <==> caps == Captured(tokens, values)
  {
    ZipOfCaptured(tokens, values);
    if Zip(Names(tokens), caps) == Restricted(tokens, values) {
      ZipInjective(Names(tokens), caps, Captured(tokens, values));
    }
  }

  lemma ParseIsCapture(tokens: seq<Token>, values: map<string, string>)
    requires GoodFormat(tokens) && GoodValues(tokens, values)
    ensures PlainPattern(Compile(FormatString(tokens)))
    ensures ParseWithFormat(FormatString(tokens), Fill(tokens, values)) == Success(Some(Restricted(tokens, values)))
            <==> Match(Elems(tokens), Fill(tokens, values)) == Some(Captured(tokens, values))
  {
    CompileFormat(tokens);
    GoodNames(tokens);
    MatchesFill(tokens, values);
    MatchCount(Elems(tokens), Fill(tokens, values));
    ZipIsRestricted(tokens, values, Match(Elems(tokens), Fill(tokens, values)).value);
  }

  // ---------------------------------------------------------------------------------------------
  // The other way round
  // ---------------------------------------------------------------------------------------------

  /** The text a pattern spells with the given captures. */
  function Spell(es: seq<Elem>, caps: seq<string>): string
    requires |caps| == |GroupNames(es)|
  {
    if es == [] then ""
    else
      match es[0]
      case Chr(c) => [c] + Spell(es[1..], caps)
      case Group(_) => caps[0] + Spell(es[1..], caps[1..])
  }

  /** Whatever parses was printed by its captures, up to one trailing newline. */
  lemma {:induction false} ParsedTextIsSpelled(es: seq<Elem>, s: string)
    requires Match(es, s).Some?
    ensures |Match(es, s).value| == |GroupNames(es)|
    ensures forall v :: v in Match(es, s).value ==> GoodValue(v)
    ensures s == Spell(es, Match(es, s).value) || s == Spell(es, Match(es, s).value) + "\n"
    decreases |es|, |s| + 1
  {
    MatchCount(es, s);
    if es != [] {
      if es[0].Chr? {
        ParsedTextIsSpelled(es[1..], s[1..]);
        assert s == [s[0]] + s[1..];
      } else {
        LazyTextIsSpelled(es, s, 1);
      }
    }
  }

  /** A captured group followed by spelled text is spelled text. */
  lemma GroupIsSpelled(es: seq<Elem>, s: string, k: nat, caps: seq<string>)
    requires es != [] && es[0].Group? && 1 <= k <= |s| && '\n' !in s[..k]
    requires |caps| == |GroupNames(es[1..])|
    requires s[k..] == Spell(es[1..], caps) || s[k..] == Spell(es[1..], caps) + "\n"
    ensures GoodValue(s[..k]) && |[s[..k]] + caps| == |GroupNames(es)|
    ensures s == Spell(es, [s[..k]] + caps) || s == Spell(es, [s[..k]] + caps) + "\n"
  {
    assert ([s[..k]] + caps)[1..] == caps;
    assert s == s[..k] + s[k..];
  }

  lemma {:induction false} LazyTextIsSpelled(es: seq<Elem>, s: string, k: nat)
    requires es != [] && es[0].Group? && k >= 1
    requires k - 1 <= |s| && '\n' !in s[..k - 1]
    requires MatchLazy(es, s, k).Some?
    ensures |MatchLazy(es, s, k).value| == |GroupNames(es)|
    ensures forall v :: v in MatchLazy(es, s, k).value ==> GoodValue(v)
    ensures s == Spell(es, MatchLazy(es, s, k).value) || s == Spell(es, MatchLazy(es, s, k).value) + "\n"
    decreases |es|, if k <= |s| then |s| - k else 0
  {
    LazyCount(es, s, k);
    var r := Match(es[1..], s[k..]);
    if r.Some? {
      ParsedTextIsSpelled(es[1..], s[k..]);
      assert s[..k] == s[..k - 1] + [s[k - 1]];
      GroupIsSpelled(es, s, k, r.value);
    } else {
      assert s[..k] == s[..k - 1] + [s[k - 1]];
      LazyTextIsSpelled(es, s, k + 1);
    }
  }
}
