/** The keys that results are kept under: which results share one, and which results therefore get their preference. */
module AggregateKeys {
  import DimensionName
  import opened PreferenceScores
  import opened ScoringAgent
  import opened Text

  // ---------------------------------------------------------------------------------------------
  // Splitting at semicolons
  // ---------------------------------------------------------------------------------------------

  predicate Plain(s: string) { ';' !in s }

  function Grown(c: char, parts: seq<string>): seq<string>
    requires parts != []
  {
    if c == ';' then [""] + parts else [[c] + parts[0]] + parts[1..]
  }

  lemma SplitStep(c: char, s: string)
    ensures Split([c] + s, SEMICOLON) == Grown(c, Split(s, SEMICOLON))
  {
    assert ([c] + s)[1..] == s;
  }

  lemma GrownConcat(c: char, a: seq<string>, b: seq<string>)
    requires a != []
    ensures Grown(c, a + b) == Grown(c, a) + b
  {
    assert (a + b)[1..] == a[1..] + b;
  }

  lemma {:induction false} SplitOfConcat(a: string, b: string)
    ensures Split(a + SEMICOLON + b, SEMICOLON) == Split(a, SEMICOLON) + Split(b, SEMICOLON)
    decreases |a|
  {
    if a == "" {
      assert a + SEMICOLON + b == [';'] + b;
      SplitStep(';', b);
    } else {
      var c, t := a[0], a[1..];
      assert a == [c] + t && a + SEMICOLON + b == [c] + (t + SEMICOLON + b);
      SplitOfConcat(t, b);
      SplitStep(c, t);
      SplitStep(c, t + SEMICOLON + b);
      GrownConcat(c, Split(t, SEMICOLON), Split(b, SEMICOLON));
    }
  }

  lemma {:induction false} SplitOfPlain(s: string)
    requires Plain(s)
    ensures Split(s, SEMICOLON) == [s]
    decreases |s|
  {
    if s != "" {
      assert s[0] in s && forall c :: c in s[1..] ==> c in s;
      SplitOfPlain(s[1..]);
      assert s == [s[0]] + s[1..];
    }
  }

  lemma {:induction false} JoinOfSplit(s: string)
    ensures Join(Split(s, SEMICOLON), SEMICOLON) == s
    decreases |s|
  {
    if s != "" {
      JoinOfSplit(s[1..]);
      var rest := Split(s[1..], SEMICOLON);
      if s[0] == ';' {
        assert ([""] + rest)[1..] == rest;
        assert s == "" + SEMICOLON + s[1..];
      } else {
        var parts := [[s[0]] + rest[0]] + rest[1..];
        assert parts[1..] == rest[1..];
        assert s == [s[0]] + s[1..];
        if |rest| > 1 {
          assert ([s[0]] + rest[0]) + SEMICOLON + Join(rest[1..], SEMICOLON)
              == [s[0]] + (rest[0] + SEMICOLON + Join(rest[1..], SEMICOLON));
        }
      }
    }
  }

  /** The pieces of all parts between semicolons, in order. */
  function Pieces(parts: seq<string>): seq<string> {
    if parts == [] then [] else Split(parts[0], SEMICOLON) + Pieces(parts[1..])
  }

  lemma {:induction false} SplitOfJoin(parts: seq<string>)
    requires parts != []
    ensures Split(Join(parts, SEMICOLON), SEMICOLON) == Pieces(parts)
  {
    if |parts| == 1 {
      assert parts[1..] == [];
    } else {
      SplitOfJoin(parts[1..]);
      SplitOfConcat(parts[0], Join(parts[1..], SEMICOLON));
    }
  }

  lemma {:induction false} PiecesOfPlain(parts: seq<string>)
    requires forall p :: p in parts ==> Plain(p)
    ensures Pieces(parts) == parts
  {
    if parts != [] {
      assert parts[0] in parts && forall p :: p in parts[1..] ==> p in parts;
      SplitOfPlain(parts[0]);
      PiecesOfPlain(parts[1..]);
      assert parts == [parts[0]] + parts[1..];
    }
  }

  // ---------------------------------------------------------------------------------------------
  // Which labels share a key
  // ---------------------------------------------------------------------------------------------

  /** `kept` are the non-empty labels in their order: `at` are their positions. */
  ghost predicate Keeps(labels: seq<string>, kept: seq<string>, at: seq<int>) {
    && |at| == |kept|
    && (forall i :: 0 <= i < |at| ==> 0 <= at[i] < |labels| && kept[i] == labels[at[i]] != "")
    && (forall i, j :: 0 <= i < j < |at| ==> at[i] < at[j])
    && forall k :: 0 <= k < |labels| && labels[k] != "" ==> k in at
  }

  lemma {:induction false} NonEmptyKeeps(labels: seq<string>) returns (at: seq<int>)
    ensures Keeps(labels, NonEmpty(labels), at)
  {
    if labels == [] {
      at := [];
    } else {
      var init, last := labels[..|labels| - 1], labels[|labels| - 1];
      at := NonEmptyKeeps(init);
      if last != "" {
        var before := at;
        at := before + [|init|];
        forall k | 0 <= k < |labels| && labels[k] != ""
          ensures k in at
        {
          assert k < |init| ==> init[k] != "" && k in before;
          assert k == |init| ==> at[|before|] == k;
        }
      }
    }
  }

  lemma KeyOfNothing(labels: seq<string>)
    ensures AggregateLabels(labels) == "" <==> NonEmpty(labels) == []
  {
    var at := NonEmptyKeeps(labels);
    var kept := NonEmpty(labels);
    if kept != [] {
      assert kept[0] != "";
    }
  }

  /** Two lists of labels have the same key exactly when their non-empty labels have the same pieces between
      semicolons; without semicolons in them, exactly when they have the same non-empty labels. */
  lemma SameKeyIff(a: seq<string>, b: seq<string>)
    ensures AggregateLabels(a) == AggregateLabels(b) <==> Pieces(NonEmpty(a)) == Pieces(NonEmpty(b))
    ensures (forall l :: l in a || l in b ==> Plain(l)) ==>
              (AggregateLabels(a) == AggregateLabels(b) <==> NonEmpty(a) == NonEmpty(b))
  {
    KeyOfNothing(a);
    KeyOfNothing(b);
    KeyTellsPieces(a);
    KeyTellsPieces(b);
    if forall l :: l in a || l in b ==> Plain(l) {
      NonEmptyMembers(a);
      NonEmptyMembers(b);
      PiecesOfPlain(NonEmpty(a));
      PiecesOfPlain(NonEmpty(b));
    }
  }

  lemma NonEmptyMembers(labels: seq<string>)
    ensures forall l :: l in NonEmpty(labels) ==> l in labels
  {
    var at := NonEmptyKeeps(labels);
  }

  lemma KeyTellsPieces(labels: seq<string>)
    ensures NonEmpty(labels) != [] ==> Split(AggregateLabels(labels), SEMICOLON) == Pieces(NonEmpty(labels))
    ensures AggregateLabels(labels) == Join(Pieces(NonEmpty(labels)), SEMICOLON)
    ensures Pieces(NonEmpty(labels)) == [] <==> NonEmpty(labels) == []
  {
    if NonEmpty(labels) != [] {
      SplitOfJoin(NonEmpty(labels));
      JoinOfSplit(AggregateLabels(labels));
    }
  }

  // ---------------------------------------------------------------------------------------------
  // Which results survive
  // ---------------------------------------------------------------------------------------------

  function LabelsOf(cluster: string, name: string, r: ScoringResult): seq<string> {
    NonEmpty(LabelVector(cluster, r, name))
  }

  ghost predicate PlainLabels(cluster: string, name: string, results: seq<ScoringResult>) {
    forall i, l :: 0 <= i < |results| && l in LabelVector(cluster, results[i], name) ==> Plain(l)
  }

  /** No later result of the response has the same non-empty labels. */
  predicate LastOfLabels(cluster: string, name: string, results: seq<ScoringResult>, i: nat) {
    && i < |results|
    && forall j :: i < j < |results| ==> LabelsOf(cluster, name, results[j]) != LabelsOf(cluster, name, results[i])
  }

  /** Without semicolons in the labels a result survives exactly when no later one has the same non-empty labels. */
  lemma SurvivesIff(cluster: string, name: string, results: seq<ScoringResult>, i: nat)
    requires PlainLabels(cluster, name, results)
    ensures Survives(RawsOf(cluster, name, results), i) <==> LastOfLabels(cluster, name, results, i)
  {
    var raws := RawsOf(cluster, name, results);
    if i < |results| {
      forall j | i < j < |results|
        ensures raws[j].key == raws[i].key
                <==> LabelsOf(cluster, name, results[j]) == LabelsOf(cluster, name, results[i])
      {
        SameKeyIff(LabelVector(cluster, results[j], name), LabelVector(cluster, results[i], name));
      }
    }
  }

  /** From the response to the preferences: an app and device have a preference exactly when some result is for them
      that no later one with the same non-empty labels overwrites. */
  lemma PreferenceIffLastOfLabels(tokens: seq<DimensionName.Token>, results: seq<ScoringResult>, name: string,
                                  labels: seq<Labelled>, dims: map<string, int>, items: seq<Item>, prefs: Preferences,
                                  cluster: string, a: string, d: string)
    requires Exchanged(tokens, labels, dims, items, prefs, cluster)
    requires FromResults(labels, RawsOf(cluster, name, results)) && PlainLabels(cluster, name, results)
    ensures (a, cluster, d) in prefs
            <==> exists i: nat :: LastOfLabels(cluster, name, results, i) && ResultFor(results[i], a, d)
  {
    var raws := RawsOf(cluster, name, results);
    PreferenceIffSurvives(tokens, raws, labels, dims, items, prefs, cluster, a, d);
    forall i: nat | i < |results|
      ensures Survives(raws, i) <==> LastOfLabels(cluster, name, results, i)
      ensures RawFor(raws[i], a, d) <==> ResultFor(results[i], a, d)
    {
      SurvivesIff(cluster, name, results, i);
      RawForResult(cluster, name, results[i], a, d);
    }
  }

  /** One round of agent and optimizer: when the results differ in their non-empty labels, none is lost. */
  method ExchangeDistinct(tokens: seq<DimensionName.Token>, cluster: string, name: string, results: seq<ScoringResult>,
                          overflow: real -> Int32)
    returns (prefs: Preferences, items: seq<Item>)
    requires DimensionName.GoodFormat(tokens)
    requires "app" in DimensionName.Names(tokens) && "device" in DimensionName.Names(tokens)
    requires DimensionName.PlainPattern(DimensionName.Compile(DimensionName.FormatString(tokens)))
    requires AllReadable(tokens, RawsOf(cluster, name, results)) && PlainLabels(cluster, name, results)
    requires forall i: nat :: i < |results| ==> LastOfLabels(cluster, name, results, i)
    ensures forall i, a, d :: 0 <= i < |results| && ResultFor(results[i], a, d) ==> (a, cluster, d) in prefs
    ensures forall a, d :: (a, cluster, d) in prefs ==> exists i :: 0 <= i < |results| && ResultFor(results[i], a, d)
  {
    ghost var labels, dims;
    prefs, items, labels, dims := ExchangeScores(tokens, cluster, name, results, overflow);
    forall a, d
      ensures (a, cluster, d) in prefs
              <==> exists i: nat :: LastOfLabels(cluster, name, results, i) && ResultFor(results[i], a, d)
    {
      PreferenceIffLastOfLabels(tokens, results, name, labels, dims, items, prefs, cluster, a, d);
    }
  }
}
