/** When the name an agent prints depends on the order in which Go iterates over its placeholder table. */
module RenderOrder {
  import opened DimensionName
  import opened Keys
  import ScoringAgent
  import opened Text

  // ---------------------------------------------------------------------------------------------
  // Text that a replacement leaves alone
  // ---------------------------------------------------------------------------------------------

  /** A non-empty end of `t` begins the pattern `p`, so that text after `t` can complete it. */
  ghost predicate EndsInto(t: string, p: string) {
    exists i :: 0 <= i < |t| && t[i..] <= p
  }

  /** No occurrence of `p` lies in `t` or begins in it, whatever follows. */
  ghost predicate Inert(t: string, p: string) {
    !Occurs(t, p) && !EndsInto(t, p)
  }

  lemma EndsIntoTail(t: string, p: string)
    requires t != "" && EndsInto(t[1..], p)
    ensures EndsInto(t, p)
  {
    var i :| 0 <= i < |t[1..]| && t[1..][i..] <= p;
    assert t[i + 1..] == t[1..][i..];
  }

  lemma InertTail(t: string, p: string)
    requires t != "" && Inert(t, p)
    ensures Inert(t[1..], p)
  {
    if Occurs(t[1..], p) {
      OccursTail(t, p);
    }
    if EndsInto(t[1..], p) {
      EndsIntoTail(t, p);
    }
  }

  /** What starts with a pattern holds the pattern, or begins it, in each of its own beginnings. */
  lemma StartMeets(t: string, rest: string, p: string)
    requires t != "" && Starts(t + rest, p)
    ensures Occurs(t, p) || EndsInto(t, p)
  {
    assert t[0..] == t;
    if |p| <= |t| {
      assert t[..|p|] == (t + rest)[..|p|];
    } else {
      assert p[..|t|] == (t + rest)[..|t|];
    }
  }

  lemma ReplaceStep(s: string, p: string, v: string)
    requires p != "" && s != "" && !Starts(s, p)
    ensures ReplaceAll(s, p, v) == [s[0]] + ReplaceAll(s[1..], p, v)
  {
    if |s| < |p| {
      assert s == [s[0]] + s[1..];
    }
  }

  lemma {:induction false} SkipsInert(t: string, rest: string, p: string, v: string)
    requires p != "" && Inert(t, p)
    ensures ReplaceAll(t + rest, p, v) == t + ReplaceAll(rest, p, v)
  {
    if t == "" {
      assert t + rest == rest;
    } else {
      if Starts(t + rest, p) {
        StartMeets(t, rest, p);
      }
      calc {
        ReplaceAll(t + rest, p, v);
        { ReplaceStep(t + rest, p, v); assert (t + rest)[1..] == t[1..] + rest; }
        [t[0]] + ReplaceAll(t[1..] + rest, p, v);
        { InertTail(t, p); SkipsInert(t[1..], rest, p, v); }
        [t[0]] + (t[1..] + ReplaceAll(rest, p, v));
        { assert t == [t[0]] + t[1..]; }
        t + ReplaceAll(rest, p, v);
      }
    }
  }

  lemma MeetingHasFirst(t: string, p: string)
    requires p != "" && (Occurs(t, p) || EndsInto(t, p))
    ensures p[0] in t
  {
    if Occurs(t, p) {
      var i :| 0 <= i <= |t| && Starts(t[i..], p);
      StartsFirst(t[i..], p);
      assert t[i] == t[i..][0];
    } else {
      var i :| 0 <= i < |t| && t[i..] <= p;
      assert t[i] == t[i..][0] == p[0];
    }
  }

  /** Text without a dollar sign is inert for every placeholder. */
  lemma DollarFreeIsInert(t: string, n: string)
    requires '$' !in t
    ensures Inert(t, Placeholder(n))
  {
    if Occurs(t, Placeholder(n)) || EndsInto(t, Placeholder(n)) {
      MeetingHasFirst(t, Placeholder(n));
    }
  }

  lemma {:induction false} ReplaceSelf(s: string, p: string)
    requires p != ""
    ensures ReplaceAll(s, p, p) == s
    decreases |s|
  {
    if |s| >= |p| {
      if Starts(s, p) {
        ReplaceSelf(s[|p|..], p);
        assert s == s[..|p|] + s[|p|..];
      } else {
        ReplaceSelf(s[1..], p);
      }
    }
  }

  lemma {:induction false} ReplaceGrows(s: string, p: string, v: string)
    requires p != ""
    ensures |v| >= |p| ==> |ReplaceAll(s, p, v)| >= |s|
    ensures |v| <= |p| ==> |ReplaceAll(s, p, v)| <= |s|
    decreases |s|
  {
    if |s| >= |p| {
      ReplaceGrows(if Starts(s, p) then s[|p|..] else s[1..], p, v);
    }
  }

  /** Replacing an occurrence by something else changes the text. */
  lemma {:induction false} ReplaceChanges(s: string, p: string, v: string)
    requires p != "" && v != p && Occurs(s, p)
    ensures ReplaceAll(s, p, v) != s
    ensures |v| > |p| ==> |ReplaceAll(s, p, v)| > |s|
    ensures |v| < |p| ==> |ReplaceAll(s, p, v)| < |s|
    decreases |s|
  {
    var i :| 0 <= i <= |s| && Starts(s[i..], p);
    assert |s| >= |p|;
    if Starts(s, p) {
      var rest := s[|p|..];
      ReplaceGrows(rest, p, v);
      assert s == p + rest;
      if |v| == |p| {
        assert (v + ReplaceAll(rest, p, v))[..|p|] == v && s[..|p|] == p;
      }
    } else {
      assert i > 0 && s[1..][i - 1..] == s[i..];
      ReplaceChanges(s[1..], p, v);
      assert ReplaceAll(s, p, v)[1..] == ReplaceAll(s[1..], p, v);
    }
  }

  // ---------------------------------------------------------------------------------------------
  // Independent tables
  // ---------------------------------------------------------------------------------------------

  predicate NamesOk(values: map<string, string>) {
    forall n :: n in values ==> '$' !in n && '}' !in n
  }

  /** The value of no placeholder can hold or begin another one that has a value of its own. */
  ghost predicate Independent(values: map<string, string>) {
    forall n, k :: n in values && k in values && n != k ==>
      values[k] == Placeholder(k) || Inert(values[n], Placeholder(k))
  }

  /** An order in which Go can iterate over the table. */
  ghost predicate Listing(order: seq<string>, values: map<string, string>) {
    NoDup(order) && forall n :: n in order <==> n in values
  }

  /** Every order of every well-formed format prints the same. */
  ghost predicate OrderFree(values: map<string, string>) {
    forall tokens, order, other :: PrintSame(values, tokens, order, other)
  }

  ghost predicate PrintSame(values: map<string, string>, tokens: seq<Token>, order: seq<string>, other: seq<string>) {
    WellFormed(tokens) && Listing(order, values) && Listing(other, values) ==>
      RenderFrom(FormatString(tokens), order, values) == RenderFrom(FormatString(tokens), other, values)
  }

  // ---------------------------------------------------------------------------------------------
  // Independent tables print the same in every order
  // ---------------------------------------------------------------------------------------------

  /** Placeholder `k` occurs in the text of the tokens exactly where its holes are. */
  ghost predicate Ready(tokens: seq<Token>, k: string) {
    forall t :: t in tokens ==> TokenReady(t, k)
  }

  ghost predicate TokenReady(t: Token, k: string) {
    match t
    case Lit(text) => Inert(text, Placeholder(k))
    case Hole(n) => '$' !in n && '}' !in n
  }

  lemma {:induction false} ReplaceIsSubstWhenReady(tokens: seq<Token>, k: string, v: string)
    requires Ready(tokens, k) && '$' !in k && '}' !in k
    ensures ReplaceAll(FormatString(tokens), Placeholder(k), v) == FormatString(Subst(tokens, k, v))
  {
    if tokens != [] {
      ReplaceIsSubstWhenReady(tokens[1..], k, v);
      assert tokens[0] in tokens;
      match tokens[0]
      case Lit(t) => SkipsInert(t, FormatString(tokens[1..]), Placeholder(k), v);
      case Hole(n) => ReplaceHole(k, n, v, FormatString(tokens[1..]));
    }
  }

  lemma {:induction false} SubstMembers(tokens: seq<Token>, k: string, v: string)
    ensures Hole(k) !in Subst(tokens, k, v)
    ensures forall t :: t in Subst(tokens, k, v) ==> t == Lit(v) || t in tokens
  {
    if tokens != [] {
      SubstMembers(tokens[1..], k, v);
    }
  }

  lemma {:induction false} SubstSelf(tokens: seq<Token>, k: string)
    ensures FormatString(Subst(tokens, k, Placeholder(k))) == FormatString(tokens)
  {
    if tokens != [] {
      SubstSelf(tokens[1..], k);
    }
  }

  lemma ReadyAfterSubst(tokens: seq<Token>, n: string, v: string, k: string)
    requires Ready(tokens, k) && Inert(v, Placeholder(k))
    ensures Ready(Subst(tokens, n, v), k)
  {
    SubstMembers(tokens, n, v);
    forall t | t in Subst(tokens, n, v)
      ensures TokenReady(t, k)
    {
      assert t == Lit(v) || t in tokens;
    }
  }

  /** For an independent table printing is simultaneous substitution, in every order. */
  lemma {:induction false} IndependentIsFill(tokens: seq<Token>, order: seq<string>, values: map<string, string>)
    requires NamesOk(values) && Independent(values) && NoDup(order)
    requires forall n :: n in order ==> n in values
    requires forall k :: k in order ==> values[k] == Placeholder(k) || Ready(tokens, k)
    requires forall n :: n in values && Hole(n) in tokens ==> n in order
    ensures RenderFrom(FormatString(tokens), order, values) == Fill(tokens, values)
    decreases |order|
  {
    if order == [] {
      FillNothing(tokens, values);
    } else {
      var n := order[0];
      var next := Subst(tokens, n, values[n]);
      assert n in order;
      if values[n] == Placeholder(n) {
        ReplaceSelf(FormatString(tokens), Placeholder(n));
        SubstSelf(tokens, n);
      } else {
        ReplaceIsSubstWhenReady(tokens, n, values[n]);
      }
      SubstMembers(tokens, n, values[n]);
      FillSubst(tokens, n, values);
      NoDupTail(order);
      forall k | k in order[1..]
        ensures values[k] == Placeholder(k) || Ready(next, k)
      {
        assert k in order && k != n;
        if values[k] != Placeholder(k) {
          ReadyAfterSubst(tokens, n, values[n], k);
        }
      }
      forall k | k in values && Hole(k) in next
        ensures k in order[1..]
      {
        assert k in order && k != n;
      }
      IndependentIsFill(next, order[1..], values);
    }
  }

  lemma WellFormedIsReady(tokens: seq<Token>, k: string)
    requires WellFormed(tokens)
    ensures Ready(tokens, k)
  {
    forall t | t in tokens
      ensures TokenReady(t, k)
    {
      assert WellFormedToken(t);
      if t.Lit? {
        DollarFreeIsInert(t.text, k);
      }
    }
  }

  // ---------------------------------------------------------------------------------------------
  // Others do not
  // ---------------------------------------------------------------------------------------------

  /** Placeholders that the text does not hold change nothing. */
  lemma {:induction false} IdlePrefix(tokens: seq<Token>, idle: seq<string>, order: seq<string>, values: map<string,
                                      string>)
    requires WellFormed(tokens) && NamesOk(values)
    requires forall n :: n in idle + order ==> n in values
    requires forall n :: n in idle ==> Hole(n) !in tokens
    ensures forall n :: n in order ==> n in values
    ensures RenderFrom(FormatString(tokens), idle + order, values) == RenderFrom(FormatString(tokens), order, values)
    decreases |idle|
  {
    assert forall n :: n in order ==> n in idle + order;
    if idle == [] {
      assert idle + order == order;
    } else {
      var n := idle[0];
      assert (idle + order)[0] == n && (idle + order)[1..] == idle[1..] + order;
      assert n in idle + order;
      ReplaceIsSubst(tokens, n, values[n]);
      SubstNothing(tokens, n, values[n]);
      IdlePrefix(tokens, idle[1..], order, values);
    }
  }

  lemma {:induction false} SubstNothing(tokens: seq<Token>, n: string, v: string)
    requires Hole(n) !in tokens
    ensures Subst(tokens, n, v) == tokens
  {
    if tokens != [] {
      SubstNothing(tokens[1..], n, v);
    }
  }

  /** The rest of the pattern after an end of `v` that begins it; nothing if there is none. */
  ghost function Completion(v: string, p: string): string {
    if Occurs(v, p) || !EndsInto(v, p) then ""
    else
      var i :| 0 <= i < |v| && v[i..] <= p;
      p[|v| - i..]
  }

  lemma CompletionCompletes(v: string, p: string)
    requires !Inert(v, p)
    ensures Occurs(v + Completion(v, p), p)
  {
    if Occurs(v, p) {
      assert v + "" == v;
    } else {
      var w := Completion(v, p);
      var i :| 0 <= i < |v| && v[i..] <= p && w == p[|v| - i..];
      CompletedAt(v, w, p, i);
    }
  }

  lemma CompletedAt(v: string, w: string, p: string, i: nat)
    requires i < |v| && v[i..] <= p && w == p[|v| - i..]
    ensures Occurs(v + w, p)
  {
    assert v[i..] == p[..|v| - i];
    assert (v + w)[i..] == v[i..] + w == p;
    assert p[..|p|] == p;
    assert Starts((v + w)[i..], p);
  }

  lemma CompletionHasNoDollar(v: string, k: string)
    requires '$' !in k
    ensures '$' !in Completion(v, Placeholder(k))
  {
    var p := Placeholder(k);
    if !Occurs(v, p) && EndsInto(v, p) {
      var w := Completion(v, p);
      var i :| 0 <= i < |v| && v[i..] <= p && w == p[|v| - i..];
      forall j | 1 <= j < |p|
        ensures p[j] != '$'
      {
        assert 2 <= j < 2 + |k| ==> p[j] == k[j - 2];
      }
    }
  }

  /** A format on which replacing `k` before or after `n` makes a difference. */
  ghost function Revealing(values: map<string, string>, n: string, k: string): seq<Token>
    requires n in values
  {
    [Hole(n), Lit(Completion(values[n], Placeholder(k)))]
  }

  lemma TwoTokens(n: string, w: string)
    ensures FormatString([Hole(n), Lit(w)]) == Placeholder(n) + w
  {
    assert [Hole(n), Lit(w)][1..] == [Lit(w)] && [Lit(w)][1..] == [];
    assert FormatString([Lit(w)]) == w + "" == w;
  }

  /** If the value of `n` can hold or begin `k`, swapping the two at the end of an order changes what is printed. */
  lemma SwapMatters(values: map<string, string>, others: seq<string>, n: string, k: string)
    requires NamesOk(values) && n in values && k in values && n != k
    requires forall m :: m in others ==> m in values && m != n && m != k
    requires values[k] != Placeholder(k) && !Inert(values[n], Placeholder(k))
    ensures WellFormed(Revealing(values, n, k))
    ensures RenderFrom(FormatString(Revealing(values, n, k)), others + [k, n], values)
            != RenderFrom(FormatString(Revealing(values, n, k)), others + [n, k], values)
  {
    var tokens := Revealing(values, n, k);
    var w := Completion(values[n], Placeholder(k));
    CompletionHasNoDollar(values[n], k);
    CompletionCompletes(values[n], Placeholder(k));
    TwoTokens(n, w);
    IdlePrefix(tokens, others, [k, n], values);
    IdlePrefix(tokens, others, [n, k], values);
    var format := FormatString(tokens);
    var filled := values[n] + w;
    assert ReplaceAll(format, Placeholder(n), values[n]) == filled by {
      ReplaceHole(n, n, values[n], w);
      ReplaceSkips(w, "", Placeholder(n), values[n]);
      assert w + "" == w;
    }
    assert ReplaceAll(format, Placeholder(k), values[k]) == format by {
      ReplaceIsSubst(tokens, k, values[k]);
      SubstNothing(tokens, k, values[k]);
    }
    assert [k, n][1..] == [n] && [n, k][1..] == [k] && [n][1..] == [] && [k][1..] == [];
    assert RenderFrom(format, [k, n], values) == RenderFrom(format, [n], values) == filled;
    assert RenderFrom(format, [n, k], values) == RenderFrom(filled, [k], values);
    assert RenderFrom(filled, [k], values) == ReplaceAll(filled, Placeholder(k), values[k]);
    ReplaceChanges(filled, Placeholder(k), values[k]);
  }

  lemma {:induction false} ListingOfSet(s: set<string>) returns (order: seq<string>)
    ensures NoDup(order) && forall n :: n in order <==> n in s
  {
    if s == {} {
      order := [];
    } else {
      var n :| n in s;
      var rest := ListingOfSet(s - {n});
      order := rest + [n];
    }
  }

  lemma IndependentIsOrderFree(values: map<string, string>)
    requires NamesOk(values) && Independent(values)
    ensures OrderFree(values)
  {
    forall tokens, order, other
      ensures PrintSame(values, tokens, order, other)
    {
      if WellFormed(tokens) && Listing(order, values) && Listing(other, values) {
        forall k ensures Ready(tokens, k) {
          WellFormedIsReady(tokens, k);
        }
        IndependentIsFill(tokens, order, values);
        IndependentIsFill(tokens, other, values);
      }
    }
  }

  lemma DependentIsNotOrderFree(values: map<string, string>, n: string, k: string)
    requires NamesOk(values) && n in values && k in values && n != k
    requires values[k] != Placeholder(k) && !Inert(values[n], Placeholder(k))
    ensures !OrderFree(values)
  {
    var others := ListingOfSet(values.Keys - {n, k});
    SwapMatters(values, others, n, k);
    TwoLast(values, others, k, n);
    TwoLast(values, others, n, k);
    assert !PrintSame(values, Revealing(values, n, k), others + [k, n], others + [n, k]);
  }

  lemma TwoLast(values: map<string, string>, others: seq<string>, n: string, k: string)
    requires n in values && k in values && n != k
    requires NoDup(others) && forall m :: m in others <==> m in values && m != n && m != k
    ensures Listing(others + [n, k], values)
  {
    var order := others + [n, k];
    assert forall i :: 0 <= i < |others| ==> order[i] == others[i] && others[i] in others;
    assert order[|others|] == n && order[|others| + 1] == k;
  }

  /** The agent prints the same name in every iteration order, for every well-formed format, exactly when no value can
      hold or begin the placeholder of another one that has a value of its own. */
  lemma OrderFreeIff(values: map<string, string>)
    requires NamesOk(values)
    ensures OrderFree(values) <==> Independent(values)
  {
    if Independent(values) {
      IndependentIsOrderFree(values);
    } else {
      var n, k :| n in values && k in values && n != k
                  && values[k] != Placeholder(k) && !Inert(values[n], Placeholder(k));
      DependentIsNotOrderFree(values, n, k);
    }
  }

  // ---------------------------------------------------------------------------------------------
  // The agent's tables
  // ---------------------------------------------------------------------------------------------

  predicate PlainName(n: string) { '$' !in n && '}' !in n }

  lemma AgentNamesArePlain()
    ensures PlainName("cluster") && PlainName("node") && PlainName("device") && PlainName("namespace")
    ensures PlainName("app") && PlainName("pod") && PlainName("container") && PlainName("meta")
    ensures PlainName("scoreName")
  {
  }

  lemma NamesOfTable(cluster: string, r: ScoringAgent.ScoringResult, name: string)
    ensures NamesOk(ScoringAgent.Placeholders(cluster, r, name))
  {
    AgentNamesArePlain();
    forall n | n in ScoringAgent.Placeholders(cluster, r, name)
      ensures PlainName(n)
    {
    }
  }

  /** A response with a dollar sign in a label makes the printed names depend on the iteration order. */
  lemma DollarBreaksOrderIndependence(cluster: string, score: real, name: string)
    ensures var r := ScoringAgent.ScoringResult(map["app" := "${pod}", "pod" := "p"], score);
            !OrderFree(ScoringAgent.Placeholders(cluster, r, name))
  {
    var r := ScoringAgent.ScoringResult(map["app" := "${pod}", "pod" := "p"], score);
    var table := ScoringAgent.Placeholders(cluster, r, name);
    NamesOfTable(cluster, r, name);
    assert "app"[0] != "pod"[0];
    assert table["app"] == "${pod}" == Placeholder("pod") && table["pod"] == "p";
    assert Starts("${pod}"[0..], Placeholder("pod"));
    DependentIsNotOrderFree(table, "app", "pod");
  }

  /** A response without a dollar sign in a label prints the same in every order. */
  lemma DollarFreeIsOrderFree(values: map<string, string>)
    requires NamesOk(values) && forall n :: n in values ==> '$' !in values[n]
    ensures OrderFree(values)
  {
    forall n, k | n in values
      ensures Inert(values[n], Placeholder(k))
    {
      DollarFreeIsInert(values[n], k);
    }
    IndependentIsOrderFree(values);
  }
}
