/** The score items that cross from the agent to the optimizer: kept under aggregated labels, written under rendered
    dimension names, and read back into the table of preferences by (app, cluster, device). */
module PreferenceScores {
  import Agent = ScoringAgent
  import opened DimensionName
  import opened Keys
  import opened Wrappers

  datatype Item = Item(name: string, value: int)

  /** Conversion of a score to an integer: truncation towards zero. */
  function Truncate(score: real): (n: int)
    ensures score >= 0.0 ==> n as real <= score < n as real + 1.0
    ensures score < 0.0 ==> n as real - 1.0 < score <= n as real
  {
    if score >= 0.0 then score.Floor else -((-score).Floor)
  }

  predicate FitsInt32(n: int) { -0x8000_0000 <= n <= 0x7fff_ffff }

  type Int32 = n: int | FitsInt32(n)

  /** One entry of the agent's score map: its placeholder table, the table's iteration order, its score, and what the
      conversion of a score that does not fit 32 bits gives, which the language leaves to the implementation. */
  datatype Labelled = Labelled(values: map<string, string>, order: seq<string>, score: real, overflow: Int32)

  /** The value written for an entry. */
  function Value(l: Labelled): (v: int)
    ensures FitsInt32(v) && (FitsInt32(Truncate(l.score)) ==> v == Truncate(l.score))
  {
    if FitsInt32(Truncate(l.score)) then Truncate(l.score) else l.overflow
  }

  predicate Enumerates(l: Labelled) {
    (forall n :: n in l.order ==> n in l.values) && (forall n :: n in l.values ==> n in l.order)
  }

  predicate AllEnumerate(labels: seq<Labelled>) {
    forall l :: l in labels ==> Enumerates(l)
  }

  function Rendered(format: string, l: Labelled): string
    requires Enumerates(l)
  {
    RenderFrom(format, l.order, l.values)
  }

  // ---------------------------------------------------------------------------------------------
  // The agent collects
  // ---------------------------------------------------------------------------------------------

  /** What the loop over the results keeps of one: its aggregated labels, its placeholder table, its score. */
  datatype Raw = Raw(key: string, values: map<string, string>, score: real)

  function RawOf(cluster: string, name: string, r: Agent.ScoringResult): Raw {
    Raw(Agent.AggregateOf(cluster, r, name), Agent.Placeholders(cluster, r, name), r.score)
  }

  function RawsOf(cluster: string, name: string, results: seq<Agent.ScoringResult>): seq<Raw> {
    seq(|results|, i requires 0 <= i < |results| => RawOf(cluster, name, results[i]))
  }

  /** No later result of the response has the aggregated labels of result `i`. */
  predicate Survives(raws: seq<Raw>, i: nat) {
    i < |raws| && forall j :: i < j < |raws| ==> raws[j].key != raws[i].key
  }

  predicate IsEntry(r: Raw, mapping: map<string, map<string, string>>, scores: map<string, real>) {
    r.key in mapping && r.key in scores && mapping[r.key] == r.values && scores[r.key] == r.score
  }

  ghost predicate HasSurvivor(raws: seq<Raw>, key: string) {
    exists i: nat :: Survives(raws, i) && raws[i].key == key
  }

  /** The two maps hold, for each aggregated label, the last result that has it. */
  ghost predicate Collected(raws: seq<Raw>, mapping: map<string, map<string, string>>, scores: map<string, real>) {
    && mapping.Keys == scores.Keys
    && (forall key :: key in mapping ==> HasSurvivor(raws, key))
    && (forall i: nat :: Survives(raws, i) ==> IsEntry(raws[i], mapping, scores))
  }

  lemma SurvivesAppend(raws: seq<Raw>, r: Raw, i: nat)
    ensures Survives(raws + [r], i) <==> i == |raws| || (Survives(raws, i) && raws[i].key != r.key)
  {
    var all := raws + [r];
    assert all[|raws|] == r;
    assert forall j :: 0 <= j < |raws| ==> all[j] == raws[j];
    if i < |raws| && raws[i].key != r.key && Survives(raws, i) {
      forall j | i < j < |all|
        ensures all[j].key != all[i].key
      {
        assert j < |raws| ==> all[j] == raws[j];
      }
    }
  }

  lemma CollectStep(raws: seq<Raw>, r: Raw, mapping: map<string, map<string, string>>, scores: map<string, real>)
    requires Collected(raws, mapping, scores)
    ensures Collected(raws + [r], mapping[r.key := r.values], scores[r.key := r.score])
  {
    var all := raws + [r];
    assert all[|raws|] == r;
    SurvivesAppend(raws, r, |raws|);
    var mapping1 := mapping[r.key := r.values];
    forall key | key in mapping1
      ensures HasSurvivor(all, key)
    {
      if key != r.key {
        assert HasSurvivor(raws, key);
        var i: nat :| Survives(raws, i) && raws[i].key == key;
        SurvivesAppend(raws, r, i);
        assert all[i] == raws[i];
      }
    }
    forall i: nat | Survives(all, i)
      ensures IsEntry(all[i], mapping1, scores[r.key := r.score])
    {
      SurvivesAppend(raws, r, i);
      if i < |raws| {
        assert all[i] == raws[i];
      }
    }
  }

  /** The part of the loop over the results that fills the placeholder and score maps. */
  method CollectScores(raws: seq<Raw>)
    returns (mapping: map<string, map<string, string>>, scores: map<string, real>)
    ensures Collected(raws, mapping, scores)
  {
    mapping, scores := map[], map[];
    for i := 0 to |raws|
      invariant Collected(raws[..i], mapping, scores)
    {
      assert raws[..i + 1] == raws[..i] + [raws[i]];
      CollectStep(raws[..i], raws[i], mapping, scores);
      mapping := mapping[raws[i].key := raws[i].values];
      scores := scores[raws[i].key := raws[i].score];
    }
    assert raws[..|raws|] == raws;
  }

  /** The agent's items for one response: collect, render, and keep one item per name. */
  method ScoreItems(cluster: string, name: string, results: seq<Agent.ScoringResult>, format: string,
                    overflow: real -> Int32)
    returns (items: seq<Item>, ghost labels: seq<Labelled>, ghost dims: map<string, int>)
    ensures FromResults(labels, RawsOf(cluster, name, results)) && AllEnumerate(labels)
    ensures DimensionsAgree(dims, labels, format)
    ensures forall n, v :: Item(n, v) in items <==> n in dims && dims[n] == v
  {
    var mapping, scores := CollectScores(RawsOf(cluster, name, results));
    var entries := ListEntries(RawsOf(cluster, name, results), mapping, scores, overflow);
    items, dims := BuildItems(entries, format);
    labels := entries;
  }

  predicate Labels(l: Labelled, r: Raw) {
    Enumerates(l) && l.values == r.values && l.score == r.score
  }

  ghost predicate LabelsSurvivor(l: Labelled, raws: seq<Raw>) {
    exists i: nat :: Survives(raws, i) && Labels(l, raws[i])
  }

  ghost predicate HasLabels(labels: seq<Labelled>, r: Raw) {
    exists k :: 0 <= k < |labels| && Labels(labels[k], r)
  }

  /** The entries are those of the surviving results, in any order. */
  ghost predicate FromResults(labels: seq<Labelled>, raws: seq<Raw>) {
    && (forall k :: 0 <= k < |labels| ==> LabelsSurvivor(labels[k], raws))
    && (forall i: nat :: Survives(raws, i) ==> HasLabels(labels, raws[i]))
  }

  method ListNames(names: set<string>) returns (order: seq<string>)
    ensures forall n :: n in order <==> n in names
  {
    order := [];
    var left := names;
    while left != {}
      invariant left <= names
      invariant forall n :: n in order <==> n in names && n !in left
      decreases left
    {
      var n :| n in left;
      order, left := order + [n], left - {n};
    }
  }

  predicate EntryOf(l: Labelled, key: string, mapping: map<string, map<string, string>>, scores: map<string, real>) {
    key in mapping && key in scores && Labels(l, Raw(key, mapping[key], scores[key]))
  }

  /** One iteration over the score map, and for each entry over its placeholder table. */
  method ListEntries(ghost raws: seq<Raw>, mapping: map<string, map<string, string>>, scores: map<string, real>,
                     overflow: real -> Int32)
    returns (labels: seq<Labelled>)
    requires Collected(raws, mapping, scores)
    ensures FromResults(labels, raws) && AllEnumerate(labels)
  {
    var keys := ListNames(scores.Keys);
    labels := [];
    for k := 0 to |keys|
      invariant |labels| == k
      invariant forall j :: 0 <= j < k ==> EntryOf(labels[j], keys[j], mapping, scores)
    {
      assert keys[k] in keys;
      var order := ListNames(mapping[keys[k]].Keys);
      labels := labels + [Labelled(mapping[keys[k]], order, scores[keys[k]], overflow(scores[keys[k]]))];
    }
    forall k | 0 <= k < |labels|
      ensures LabelsSurvivor(labels[k], raws)
    {
      EntryIsSurvivor(raws, mapping, scores, keys[k], labels[k]);
    }
    forall i: nat | Survives(raws, i)
      ensures HasLabels(labels, raws[i])
    {
      SurvivorIsListed(raws, mapping, scores, keys, labels, i);
    }
  }

  lemma EntryIsSurvivor(raws: seq<Raw>, mapping: map<string, map<string, string>>, scores: map<string, real>,
                        key: string, l: Labelled)
    requires Collected(raws, mapping, scores) && EntryOf(l, key, mapping, scores)
    ensures LabelsSurvivor(l, raws)
  {
    assert HasSurvivor(raws, key);
    var i: nat :| Survives(raws, i) && raws[i].key == key;
    assert IsEntry(raws[i], mapping, scores);
  }

  lemma SurvivorIsListed(raws: seq<Raw>, mapping: map<string, map<string, string>>, scores: map<string, real>,
                         keys: seq<string>, labels: seq<Labelled>, i: nat)
    requires Collected(raws, mapping, scores) && |keys| == |labels| && Survives(raws, i)
    requires forall n :: n in scores ==> n in keys
    requires forall j :: 0 <= j < |keys| ==> EntryOf(labels[j], keys[j], mapping, scores)
    ensures HasLabels(labels, raws[i])
  {
    assert IsEntry(raws[i], mapping, scores);
    var j :| 0 <= j < |keys| && keys[j] == raws[i].key;
    assert EntryOf(labels[j], keys[j], mapping, scores);
  }

  // ---------------------------------------------------------------------------------------------
  // The agent writes
  // ---------------------------------------------------------------------------------------------

  /** The last label vector rendered to a name decides the name's value; empty names are dropped. */
  ghost predicate LastRendered(labels: seq<Labelled>, format: string, name: string, i: int)
    requires AllEnumerate(labels)
  {
    && 0 <= i < |labels|
    && Rendered(format, labels[i]) == name
    && forall j :: i < j < |labels| ==> Rendered(format, labels[j]) != name
  }

  ghost predicate DimensionsAgree(dims: map<string, int>, labels: seq<Labelled>, format: string)
    requires AllEnumerate(labels)
  {
    && "" !in dims
    && (forall name :: name in dims ==>
          exists i :: LastRendered(labels, format, name, i) && dims[name] == Value(labels[i]))
    && (forall k :: 0 <= k < |labels| && Rendered(format, labels[k]) != "" ==>
          Rendered(format, labels[k]) in dims)
  }

  lemma DimensionStep(dims: map<string, int>, labels: seq<Labelled>, l: Labelled, format: string)
    requires AllEnumerate(labels)
    requires DimensionsAgree(dims, labels, format) && Enumerates(l)
    ensures var name := Rendered(format, l);
      DimensionsAgree(if name == "" then dims else dims[name := Value(l)], labels + [l], format)
  {
    var name := Rendered(format, l);
    var after := if name == "" then dims else dims[name := Value(l)];
    var all := labels + [l];
    forall n | n in after ensures exists i :: LastRendered(all, format, n, i) && after[n] == Value(all[i]) {
      if n == name {
        assert LastRendered(all, format, n, |labels|);
      } else {
        var i :| LastRendered(labels, format, n, i) && dims[n] == Value(labels[i]);
        assert LastRendered(all, format, n, i) && all[i] == labels[i];
      }
    }
    forall k | 0 <= k < |all| && Rendered(format, all[k]) != ""
      ensures Rendered(format, all[k]) in after
    {
      if k < |labels| {
        assert all[k] == labels[k];
      }
    }
  }

  /** The items of a score resource: one per rendered name. */
  method BuildItems(labels: seq<Labelled>, format: string) returns (items: seq<Item>, ghost dims: map<string, int>)
    requires AllEnumerate(labels)
    ensures DimensionsAgree(dims, labels, format)
    ensures forall name, v :: Item(name, v) in items <==> name in dims && dims[name] == v
    ensures forall i, j :: 0 <= i < j < |items| ==> items[i].name != items[j].name
  {
    var byName: map<string, int> := map[];
    for k := 0 to |labels|
      invariant DimensionsAgree(byName, labels[..k], format)
    {
      assert labels[k] in labels;
      var name := RenderDimensionName(format, labels[k].values, labels[k].order);
      assert labels[..k + 1] == labels[..k] + [labels[k]];
      DimensionStep(byName, labels[..k], labels[k], format);
      if name != "" {
        byName := byName[name := Value(labels[k])];
      }
    }
    assert labels[..|labels|] == labels;
    dims := byName;
    items := [];
    var left := byName.Keys;
    while left != {}
      invariant left <= byName.Keys
      invariant forall name, v :: Item(name, v) in items <==> name in byName && name !in left && byName[name] == v
      invariant forall i, j :: 0 <= i < j < |items| ==> items[i].name != items[j].name
      decreases left
    {
      var name :| name in left;
      forall i | 0 <= i < |items| ensures items[i].name != name {
        assert Item(items[i].name, items[i].value) in items;
      }
      items := items + [Item(name, byName[name])];
      left := left - {name};
    }
  }

  // ---------------------------------------------------------------------------------------------
  // The optimizer reads
  // ---------------------------------------------------------------------------------------------

  /** What an item name says: nothing, an app and a device, or a name the reader cannot use. */
  datatype Dimension = NoDimension | Dimension(app: string, device: string) | BadDimension

  function ReadName(format: string, name: string): Dimension
    requires PlainPattern(Compile(format))
  {
    match ParseWithFormat(format, name)
    case Failure(_) => BadDimension
    case Success(None) => NoDimension
    case Success(Some(m)) =>
      if m == map[] then NoDimension
      else if "app" in m && "device" in m then Dimension(m["app"], m["device"])
      else BadDimension
  }

  /** A name that does not parse, or parses without any placeholder, is skipped; one that parses without app or device
      is unusable; any other is read as both. */
  lemma ReadNameIs(format: string, name: string)
    requires PlainPattern(Compile(format))
    ensures var parsed := ParseWithFormat(format, name);
            && (ReadName(format, name).NoDimension? <==> parsed == Success(None) || parsed == Success(Some(map[])))
            && (forall a, d :: ReadName(format, name) == Dimension(a, d) <==>
                  && parsed.Success? && parsed.value.Some?
                  && "app" in parsed.value.value && parsed.value.value["app"] == a
                  && "device" in parsed.value.value && parsed.value.value["device"] == d)
  {
  }

  datatype ReadError = MissingScore(cluster: string) | UnusableName(name: string)

  type Preferences = map<(string, string, string), int>

  /** The last item of the cluster that reads as (app, device) decides the preference. */
  ghost predicate LastRead(items: seq<Item>, format: string, app: string, device: string, i: int)
    requires PlainPattern(Compile(format))
  {
    && 0 <= i < |items|
    && ReadName(format, items[i].name) == Dimension(app, device)
    && forall j :: i < j < |items| ==> ReadName(format, items[j].name) != Dimension(app, device)
  }

  /** The preferences of one cluster follow its items. */
  ghost predicate ClusterAgrees(prefs: Preferences, cluster: string, items: seq<Item>, format: string)
    requires PlainPattern(Compile(format))
  {
    && (forall a, d :: (a, cluster, d) in prefs ==>
          exists i :: LastRead(items, format, a, d, i) && prefs[(a, cluster, d)] == items[i].value)
    && (forall k :: 0 <= k < |items| ==>
          var r := ReadName(format, items[k].name);
          r != BadDimension && (r.Dimension? ==> (r.app, cluster, r.device) in prefs))
  }

  lemma ReadStep(prefs: Preferences, cluster: string, items: seq<Item>, item: Item, format: string)
    requires PlainPattern(Compile(format))
    requires ClusterAgrees(prefs, cluster, items, format)
    requires ReadName(format, item.name) != BadDimension
    ensures var r := ReadName(format, item.name);
      ClusterAgrees(if r.Dimension? then prefs[(r.app, cluster, r.device) := item.value] else prefs,
                    cluster, items + [item], format)
  {
    var r := ReadName(format, item.name);
    var after := if r.Dimension? then prefs[(r.app, cluster, r.device) := item.value] else prefs;
    var all := items + [item];
    forall a, d | (a, cluster, d) in after
      ensures exists i :: LastRead(all, format, a, d, i) && after[(a, cluster, d)] == all[i].value
    {
      if r == Dimension(a, d) {
        assert LastRead(all, format, a, d, |items|);
      } else {
        var i :| LastRead(items, format, a, d, i) && prefs[(a, cluster, d)] == items[i].value;
        assert LastRead(all, format, a, d, i) && all[i] == items[i];
      }
    }
    forall k | 0 <= k < |all|
      ensures var q := ReadName(format, all[k].name);
        q != BadDimension && (q.Dimension? ==> (q.app, cluster, q.device) in after)
    {
      if k < |items| {
        assert all[k] == items[k];
      }
    }
  }

  /** The entries of the other clusters are the same. */
  ghost predicate OthersKept(start: Preferences, prefs: Preferences, cluster: string) {
    forall key: (string, string, string) :: key.1 != cluster ==>
      (key in prefs <==> key in start) && (key in start ==> prefs[key] == start[key])
  }

  method ReadItems(start: Preferences, cluster: string, items: seq<Item>, format: string)
    returns (r: Result<Preferences, ReadError>)
    requires PlainPattern(Compile(format))
    requires forall a, d :: (a, cluster, d) !in start
    ensures r.Success? <==> forall k :: 0 <= k < |items| ==> ReadName(format, items[k].name) != BadDimension
    ensures r.Success? ==> ClusterAgrees(r.value, cluster, items, format)
    ensures r.Success? ==> OthersKept(start, r.value, cluster)
  {
    var prefs := start;
    for k := 0 to |items|
      invariant ClusterAgrees(prefs, cluster, items[..k], format)
      invariant forall j :: 0 <= j < k ==> ReadName(format, items[j].name) != BadDimension
      invariant OthersKept(start, prefs, cluster)
    {
      assert items[..k + 1] == items[..k] + [items[k]];
      r := ReadItem(start, prefs, cluster, items[..k], items[k], format);
      if r.Failure? {
        return;
      }
      prefs := r.value;
    }
    assert items[..|items|] == items;
    r := Success(prefs);
  }

  /** The body of the loop over the items of a cluster. */
  method ReadItem(start: Preferences, prefs: Preferences, cluster: string, seen: seq<Item>, item: Item, format: string)
    returns (r: Result<Preferences, ReadError>)
    requires PlainPattern(Compile(format))
    requires ClusterAgrees(prefs, cluster, seen, format) && OthersKept(start, prefs, cluster)
    ensures r.Success? <==> ReadName(format, item.name) != BadDimension
    ensures r.Success? ==> ClusterAgrees(r.value, cluster, seen + [item], format) && OthersKept(start, r.value, cluster)
  {
    var name := ReadName(format, item.name);
    if name.BadDimension? {
      return Failure(UnusableName(item.name));
    }
    ReadStep(prefs, cluster, seen, item, format);
    r := Success(if name.Dimension? then prefs[(name.app, cluster, name.device) := item.value] else prefs);
  }

  /** The optimizer's loop over its clusters. */
  method LoadPreferences(clusters: seq<string>, scores: map<string, seq<Item>>, format: string)
    returns (r: Result<Preferences, ReadError>)
    requires PlainPattern(Compile(format))
    requires NoDup(clusters)
    ensures r.Success? <==>
            forall c :: c in clusters ==>
              c in scores && forall k :: 0 <= k < |scores[c]| ==> ReadName(format, scores[c][k].name) != BadDimension
    ensures r.Success? ==> forall c :: c in clusters ==> ClusterAgrees(r.value, c, scores[c], format)
    ensures r.Success? ==> forall key :: key in r.value ==> key.1 in clusters
  {
    var prefs: Preferences := map[];
    for i := 0 to |clusters|
      invariant forall c :: c in clusters[..i] ==>
                  && c in scores
                  && ClusterAgrees(prefs, c, scores[c], format)
                  && forall k :: 0 <= k < |scores[c]| ==> ReadName(format, scores[c][k].name) != BadDimension
      invariant forall key :: key in prefs ==> key.1 in clusters[..i]
    {
      var c := clusters[i];
      assert c in clusters;
      if c !in scores {
        return Failure(MissingScore(c));
      }
      assert c !in clusters[..i];
      var next := ReadItems(prefs, c, scores[c], format);
      if next.Failure? {
        return next;
      }
      assert clusters[..i + 1] == clusters[..i] + [c];
      forall e | e in clusters[..i] ensures ClusterAgrees(next.value, e, scores[e], format) {
        KeepCluster(prefs, next.value, c, e, scores[e], format);
      }
      prefs := next.value;
    }
    assert clusters[..|clusters|] == clusters;
    r := Success(prefs);
  }

  lemma KeepCluster(before: Preferences, after: Preferences, changed: string, c: string, items: seq<Item>,
                    format: string)
    requires PlainPattern(Compile(format))
    requires ClusterAgrees(before, c, items, format) && c != changed
    requires forall key: (string, string, string) :: key.1 != changed ==>
               (key in after <==> key in before) && (key in before ==> after[key] == before[key])
    ensures ClusterAgrees(after, c, items, format)
  {
    forall a, d | (a, c, d) in after
      ensures exists i :: LastRead(items, format, a, d, i) && after[(a, c, d)] == items[i].value
    {
      var key := (a, c, d);
      assert key.1 != changed;
      var i :| LastRead(items, format, a, d, i) && before[(a, c, d)] == items[i].value;
    }
    forall k | 0 <= k < |items|
      ensures var r := ReadName(format, items[k].name);
        r != BadDimension && (r.Dimension? ==> (r.app, c, r.device) in after)
    {
      var r := ReadName(format, items[k].name);
      if r.Dimension? {
        var key := (r.app, c, r.device);
        assert key.1 != changed;
      }
    }
  }

  // ---------------------------------------------------------------------------------------------
  // End to end
  // ---------------------------------------------------------------------------------------------

  /** What a response must look like for its names to be readable again. */
  ghost predicate Readable(tokens: seq<Token>, l: Labelled) {
    && Enumerates(l)
    && GoodValues(tokens, l.values)
    && (forall n :: n in l.values ==> '$' !in l.values[n] && '$' !in n && '}' !in n)
    && Unambiguous(tokens, l.values)
  }

  /** A name the agent renders reads back as the app and the device it was rendered from. */
  lemma RenderedNameReadsBack(tokens: seq<Token>, l: Labelled)
    requires GoodFormat(tokens) && Readable(tokens, l)
    requires "app" in Names(tokens) && "device" in Names(tokens)
    ensures PlainPattern(Compile(FormatString(tokens)))
    ensures "app" in l.values && "device" in l.values
    ensures ReadName(FormatString(tokens), Rendered(FormatString(tokens), l))
            == Dimension(l.values["app"], l.values["device"])
  {
    RoundTripIff(tokens, l.values, l.order);
    assert "app" in Restricted(tokens, l.values);
  }

  predicate IsFor(l: Labelled, app: string, device: string) {
    && "app" in l.values && l.values["app"] == app
    && "device" in l.values && l.values["device"] == device
  }

  /** What the two sides establish about one cluster's items. */
  ghost predicate Exchanged(tokens: seq<Token>, labels: seq<Labelled>, dims: map<string, int>, items: seq<Item>,
                            prefs: Preferences, cluster: string)
  {
    && GoodFormat(tokens) && "app" in Names(tokens) && "device" in Names(tokens)
    && (forall l :: l in labels ==> Readable(tokens, l))
    && AllEnumerate(labels)
    && DimensionsAgree(dims, labels, FormatString(tokens))
    && (forall name, v :: Item(name, v) in items <==> name in dims && dims[name] == v)
    && PlainPattern(Compile(FormatString(tokens)))
    && ClusterAgrees(prefs, cluster, items, FormatString(tokens))
  }

  /** Each preference of a cluster is the score of a label vector with that app and device. */
  lemma PreferenceIsAScore(tokens: seq<Token>, labels: seq<Labelled>, dims: map<string, int>, items: seq<Item>,
                           prefs: Preferences, cluster: string, a: string, d: string)
    requires Exchanged(tokens, labels, dims, items, prefs, cluster)
    requires (a, cluster, d) in prefs
    ensures exists k :: 0 <= k < |labels| && IsFor(labels[k], a, d) && prefs[(a, cluster, d)] == Value(labels[k])
  {
    var format := FormatString(tokens);
    var i :| LastRead(items, format, a, d, i) && prefs[(a, cluster, d)] == items[i].value;
    assert Item(items[i].name, items[i].value) in items;
    var k :| LastRendered(labels, format, items[i].name, k) && dims[items[i].name] == Value(labels[k]);
    assert labels[k] in labels;
    RenderedNameReadsBack(tokens, labels[k]);
    assert IsFor(labels[k], a, d);
  }

  /** Each label vector's app and device has a preference. */
  lemma ScoreHasPreference(tokens: seq<Token>, labels: seq<Labelled>, dims: map<string, int>, items: seq<Item>,
                           prefs: Preferences, cluster: string, k: nat)
    requires Exchanged(tokens, labels, dims, items, prefs, cluster)
    requires k < |labels|
    ensures exists a, d :: IsFor(labels[k], a, d) && (a, cluster, d) in prefs
  {
    var l := labels[k];
    assert l in labels;
    RenderedNameReadsBack(tokens, l);
    RenderedIsNotEmpty(tokens, l);
    var name := Rendered(FormatString(tokens), l);
    assert Rendered(FormatString(tokens), labels[k]) in dims;
    assert Item(name, dims[name]) in items;
    var i :| 0 <= i < |items| && items[i] == Item(name, dims[name]);
    assert IsFor(l, l.values["app"], l.values["device"]);
  }

  predicate RawFor(r: Raw, app: string, device: string) {
    && "app" in r.values && r.values["app"] == app
    && "device" in r.values && r.values["device"] == device
  }

  lemma LabelsFor(l: Labelled, r: Raw, app: string, device: string)
    requires Labels(l, r)
    ensures IsFor(l, app, device) <==> RawFor(r, app, device)
  {
  }

  /** From the raw response to the optimizer: an app and device of the cluster have a preference exactly when the last
      result of some aggregated label is for them. Results that a later one overwrites are lost. */
  lemma PreferenceIffSurvives(tokens: seq<Token>, raws: seq<Raw>, labels: seq<Labelled>, dims: map<string, int>,
                              items: seq<Item>, prefs: Preferences, cluster: string, a: string, d: string)
    requires Exchanged(tokens, labels, dims, items, prefs, cluster) && FromResults(labels, raws)
    ensures (a, cluster, d) in prefs <==> exists i: nat :: Survives(raws, i) && RawFor(raws[i], a, d)
  {
    if (a, cluster, d) in prefs {
      PreferenceIsAScore(tokens, labels, dims, items, prefs, cluster, a, d);
      var k :| 0 <= k < |labels| && IsFor(labels[k], a, d);
      assert LabelsSurvivor(labels[k], raws);
      var i: nat :| Survives(raws, i) && Labels(labels[k], raws[i]);
      LabelsFor(labels[k], raws[i], a, d);
    }
    forall i: nat | Survives(raws, i) && RawFor(raws[i], a, d)
      ensures (a, cluster, d) in prefs
    {
      SurvivorHasPreference(tokens, raws, labels, dims, items, prefs, cluster, a, d, i);
    }
  }

  lemma SurvivorHasPreference(tokens: seq<Token>, raws: seq<Raw>, labels: seq<Labelled>, dims: map<string, int>,
                              items: seq<Item>, prefs: Preferences, cluster: string, a: string, d: string, i: nat)
    requires Exchanged(tokens, labels, dims, items, prefs, cluster) && FromResults(labels, raws)
    requires Survives(raws, i) && RawFor(raws[i], a, d)
    ensures (a, cluster, d) in prefs
  {
    assert HasLabels(labels, raws[i]);
    var k :| 0 <= k < |labels| && Labels(labels[k], raws[i]);
    LabelsFor(labels[k], raws[i], a, d);
    ScoreHasPreference(tokens, labels, dims, items, prefs, cluster, k);
  }

  /** The app and device of a result. */
  predicate ResultFor(r: Agent.ScoringResult, app: string, device: string) {
    Agent.GetValidString(r.metric, "app", false) == app && Agent.GetValidString(r.metric, "device", false) == device
  }

  lemma RawForResult(cluster: string, name: string, r: Agent.ScoringResult, app: string, device: string)
    ensures RawFor(RawOf(cluster, name, r), app, device) <==> ResultFor(r, app, device)
  {
    var table := Agent.Placeholders(cluster, r, name);
    NamesDiffer();
    assert table["app"] == Agent.GetValidString(r.metric, "app", false);
    assert table["device"] == Agent.GetValidString(r.metric, "device", false);
  }

  /** The names that a lookup of an app or a device must not be confused with. */
  lemma NamesDiffer()
    ensures forall n :: n in ["node", "namespace", "container", "meta", "pod"] ==> n != "app" && n != "device"
    ensures "scoreName" != "app" && "scoreName" != "device" && "cluster" != "app" && "cluster" != "device"
    ensures "app" != "device" && "node" != "namespace"
  {
    assert "pod"[0] != "app"[0];
  }

  /** Node x with device y, and device x in namespace y. */
  const ON_NODE := Agent.ScoringResult(map["node" := "x", "device" := "y", "app" := "z"], 1.0)
  const IN_NAMESPACE := Agent.ScoringResult(map["device" := "x", "namespace" := "y", "app" := "z"], 1.0)

  lemma {:induction false} EmptyLabelDropped(before: seq<string>, after: seq<string>)
    ensures Agent.NonEmpty(before + [""] + after) == Agent.NonEmpty(before + after)
    decreases |after|
  {
    if after == [] {
      assert before + [""] + after == before + [""] && before + after == before;
      assert (before + [""])[..|before|] == before;
    } else {
      var rest, last := after[..|after| - 1], after[|after| - 1];
      assert (before + [""] + after)[..|before| + |after|] == before + [""] + rest;
      assert (before + after)[..|before| + |after| - 1] == before + rest;
      EmptyLabelDropped(before, rest);
    }
  }

  lemma VectorOnNode(cluster: string, name: string)
    ensures Agent.LabelVector(cluster, ON_NODE, name) == [cluster, "x", "y", "", "z", "", "", "", name]
  {
    NamesDiffer();
    assert "meta"[0] != "node"[0];
  }

  lemma VectorInNamespace(cluster: string, name: string)
    ensures Agent.LabelVector(cluster, IN_NAMESPACE, name) == [cluster, "", "x", "y", "z", "", "", "", name]
  {
    NamesDiffer();
    assert "container"[0] != "namespace"[0];
  }

  lemma SameAggregate(cluster: string, name: string)
    ensures Agent.AggregateOf(cluster, ON_NODE, name) == Agent.AggregateOf(cluster, IN_NAMESPACE, name)
  {
    var rest := ["z", "", "", "", name];
    VectorOnNode(cluster, name);
    VectorInNamespace(cluster, name);
    EmptyLabelDropped([cluster, "x", "y"], rest);
    EmptyLabelDropped([cluster], ["x", "y"] + rest);
    assert [cluster, "x", "y"] + [""] + rest == [cluster, "x", "y", "", "z", "", "", "", name];
    assert [cluster] + [""] + (["x", "y"] + rest) == [cluster, "", "x", "y", "z", "", "", "", name];
    assert [cluster, "x", "y"] + rest == [cluster] + (["x", "y"] + rest);
  }

  lemma OverwrittenIsLost(tokens: seq<Token>, first: Raw, second: Raw, labels: seq<Labelled>, dims: map<string, int>,
                          items: seq<Item>, prefs: Preferences, cluster: string, a: string, d: string)
    requires Exchanged(tokens, labels, dims, items, prefs, cluster) && FromResults(labels, [first, second])
    requires first.key == second.key
    ensures (a, cluster, d) in prefs <==> RawFor(second, a, d)
  {
    var raws := [first, second];
    assert raws[0] == first && raws[1] == second && Survives(raws, 1);
    assert forall i: nat :: Survives(raws, i) ==> i == 1;
    PreferenceIffSurvives(tokens, raws, labels, dims, items, prefs, cluster, a, d);
  }

  lemma WitnessesAreFor()
    ensures ResultFor(ON_NODE, "z", "y") && ResultFor(IN_NAMESPACE, "z", "x") && !ResultFor(IN_NAMESPACE, "z", "y")
  {
    NamesDiffer();
    assert "x"[0] != "y"[0];
  }

  /** So of these two results the first one's app and device get no preference, in any format. */
  lemma CollapsedResultIsLost(tokens: seq<Token>, name: string, labels: seq<Labelled>, dims: map<string, int>,
                              items: seq<Item>, prefs: Preferences, cluster: string)
    requires Exchanged(tokens, labels, dims, items, prefs, cluster)
    requires FromResults(labels, RawsOf(cluster, name, [ON_NODE, IN_NAMESPACE]))
    ensures ResultFor(ON_NODE, "z", "y") && ("z", cluster, "y") !in prefs && ("z", cluster, "x") in prefs
  {
    var first, second := RawOf(cluster, name, ON_NODE), RawOf(cluster, name, IN_NAMESPACE);
    assert RawsOf(cluster, name, [ON_NODE, IN_NAMESPACE]) == [first, second];
    SameAggregate(cluster, name);
    WitnessesAreFor();
    RawForResult(cluster, name, IN_NAMESPACE, "z", "y");
    RawForResult(cluster, name, IN_NAMESPACE, "z", "x");
    OverwrittenIsLost(tokens, first, second, labels, dims, items, prefs, cluster, "z", "y");
    OverwrittenIsLost(tokens, first, second, labels, dims, items, prefs, cluster, "z", "x");
  }

  const APP_AND_DEVICE := [Hole("app"), Lit(";"), Hole("device")]

  lemma AppAndDeviceIsGood()
    ensures GoodFormat(APP_AND_DEVICE) && Names(APP_AND_DEVICE) == ["app", "device"]
    ensures PlainPattern(Compile(FormatString(APP_AND_DEVICE)))
  {
    NamesDiffer();
    var tail := APP_AND_DEVICE[1..];
    assert tail == [Lit(";"), Hole("device")] && tail[1..] == [Hole("device")] && tail[1..][1..] == [];
    assert Names(tail[1..]) == ["device"];
    assert Names(tail) == ["device"];
    CompileFormat(APP_AND_DEVICE);
  }

  /** A result without dollar signs, whose app and device are one character each. */
  ghost predicate Simple(r: Agent.ScoringResult) {
    && (forall k :: k in r.metric ==> '$' !in r.metric[k])
    && exists a, d :: ResultFor(r, a, d) && |a| == |d| == 1 && '\n' !in a && '\n' !in d
  }

  lemma WitnessesAreSimple()
    ensures Simple(ON_NODE) && Simple(IN_NAMESPACE)
  {
    WitnessesAreFor();
    assert ResultFor(ON_NODE, "z", "y") && ResultFor(IN_NAMESPACE, "z", "x");
  }

  lemma PlaceholderNamesArePlain()
    ensures forall n ::
              n in ["cluster", "node", "device", "namespace", "app", "pod", "container", "meta", "scoreName"] ==>
                '$' !in n && '}' !in n
  {
  }

  lemma TableIsPlain(cluster: string, name: string, r: Agent.ScoringResult)
    requires '$' !in cluster && '$' !in name && Simple(r)
    ensures var values := Agent.Placeholders(cluster, r, name);
            forall n :: n in values ==> '$' !in values[n] && '$' !in n && '}' !in n
  {
    var values := Agent.Placeholders(cluster, r, name);
    PlaceholderNamesArePlain();
    forall n | n in values
      ensures '$' !in values[n] && '$' !in n && '}' !in n
    {
      assert n in ["cluster", "node", "device", "namespace", "app", "pod", "container", "meta", "scoreName"];
      assert n !in ["cluster", "scoreName"] ==> values[n] == Agent.GetValidString(r.metric, n, false);
    }
  }

  lemma TableIsReadable(cluster: string, name: string, r: Agent.ScoringResult, l: Labelled)
    requires '$' !in cluster && '$' !in name && Simple(r) && Labels(l, RawOf(cluster, name, r))
    ensures Readable(APP_AND_DEVICE, l)
  {
    AppAndDeviceIsGood();
    var a, d :| ResultFor(r, a, d) && |a| == |d| == 1 && '\n' !in a && '\n' !in d;
    RawForResult(cluster, name, r, a, d);
    TableIsPlain(cluster, name, r);
    assert Unambiguous(APP_AND_DEVICE[1..], l.values);
    assert EndsAtLiteral(l.values["app"], ";");
  }

  /** Whatever the iteration order, the table of each result reads back. */
  ghost predicate AllReadable(tokens: seq<Token>, raws: seq<Raw>) {
    forall i, l :: 0 <= i < |raws| && Labels(l, raws[i]) ==> Readable(tokens, l)
  }

  lemma SimpleIsReadable(cluster: string, name: string, results: seq<Agent.ScoringResult>)
    requires '$' !in cluster && '$' !in name && forall i :: 0 <= i < |results| ==> Simple(results[i])
    ensures AllReadable(APP_AND_DEVICE, RawsOf(cluster, name, results))
  {
    var raws := RawsOf(cluster, name, results);
    forall i, l | 0 <= i < |raws| && Labels(l, raws[i])
      ensures Readable(APP_AND_DEVICE, l)
    {
      TableIsReadable(cluster, name, results[i], l);
    }
  }

  lemma LabelsAreReadable(tokens: seq<Token>, raws: seq<Raw>, labels: seq<Labelled>)
    requires AllReadable(tokens, raws) && FromResults(labels, raws)
    ensures forall l :: l in labels ==> Readable(tokens, l)
  {
    forall k | 0 <= k < |labels|
      ensures Readable(tokens, labels[k])
    {
      assert LabelsSurvivor(labels[k], raws);
    }
  }

  lemma ItemsReadBack(tokens: seq<Token>, labels: seq<Labelled>, dims: map<string, int>, items: seq<Item>)
    requires GoodFormat(tokens) && "app" in Names(tokens) && "device" in Names(tokens)
    requires AllEnumerate(labels) && forall l :: l in labels ==> Readable(tokens, l)
    requires DimensionsAgree(dims, labels, FormatString(tokens)) && PlainPattern(Compile(FormatString(tokens)))
    requires forall n, v :: Item(n, v) in items <==> n in dims && dims[n] == v
    ensures forall k :: 0 <= k < |items| ==> ReadName(FormatString(tokens), items[k].name) != BadDimension
  {
    forall k | 0 <= k < |items|
      ensures ReadName(FormatString(tokens), items[k].name) != BadDimension
    {
      assert Item(items[k].name, items[k].value) in items;
      var i :| LastRendered(labels, FormatString(tokens), items[k].name, i);
      assert labels[i] in labels;
      RenderedNameReadsBack(tokens, labels[i]);
    }
  }

  lemma RoundIsExchanged(tokens: seq<Token>, labels: seq<Labelled>, dims: map<string, int>, items: seq<Item>,
                         prefs: Preferences, cluster: string, raws: seq<Raw>)
    requires GoodFormat(tokens) && "app" in Names(tokens) && "device" in Names(tokens)
    requires PlainPattern(Compile(FormatString(tokens))) && AllReadable(tokens, raws)
    requires FromResults(labels, raws) && AllEnumerate(labels) && DimensionsAgree(dims, labels, FormatString(tokens))
    requires forall n, v :: Item(n, v) in items <==> n in dims && dims[n] == v
    ensures forall k :: 0 <= k < |items| ==> ReadName(FormatString(tokens), items[k].name) != BadDimension
    ensures ClusterAgrees(prefs, cluster, items, FormatString(tokens)) ==>
              Exchanged(tokens, labels, dims, items, prefs, cluster)
  {
    LabelsAreReadable(tokens, raws, labels);
    ItemsReadBack(tokens, labels, dims, items);
  }

  method ReadCluster(cluster: string, items: seq<Item>, format: string) returns (prefs: Preferences)
    requires PlainPattern(Compile(format))
    requires forall k :: 0 <= k < |items| ==> ReadName(format, items[k].name) != BadDimension
    ensures ClusterAgrees(prefs, cluster, items, format)
  {
    var scores := map[cluster := items];
    var r := LoadPreferences([cluster], scores, format);
    prefs := r.value;
    assert cluster in [cluster] && scores[cluster] == items;
  }

  /** One round of agent and optimizer for a cluster, from the response to the preferences. */
  method ExchangeScores(tokens: seq<Token>, cluster: string, name: string, results: seq<Agent.ScoringResult>,
                        overflow: real -> Int32)
    returns (prefs: Preferences, items: seq<Item>, ghost labels: seq<Labelled>, ghost dims: map<string, int>)
    requires GoodFormat(tokens) && "app" in Names(tokens) && "device" in Names(tokens)
    requires PlainPattern(Compile(FormatString(tokens))) && AllReadable(tokens, RawsOf(cluster, name, results))
    ensures Exchanged(tokens, labels, dims, items, prefs, cluster)
    ensures FromResults(labels, RawsOf(cluster, name, results))
  {
    var format := FormatString(tokens);
    items, labels, dims := ScoreItems(cluster, name, results, format, overflow);
    RoundIsExchanged(tokens, labels, dims, items, map[], cluster, RawsOf(cluster, name, results));
    prefs := ReadCluster(cluster, items, format);
    RoundIsExchanged(tokens, labels, dims, items, prefs, cluster, RawsOf(cluster, name, results));
  }

  /** From the response to the preferences: app z on device y is lost. */
  method CollapseLosesPreference(cluster: string, name: string, overflow: real -> Int32) returns (prefs: Preferences)
    requires '$' !in cluster && '$' !in name
    ensures ResultFor(ON_NODE, "z", "y") && ("z", cluster, "y") !in prefs && ("z", cluster, "x") in prefs
  {
    AppAndDeviceIsGood();
    WitnessesAreSimple();
    SimpleIsReadable(cluster, name, [ON_NODE, IN_NAMESPACE]);
    var items;
    ghost var labels, dims;
    prefs, items, labels, dims := ExchangeScores(APP_AND_DEVICE, cluster, name, [ON_NODE, IN_NAMESPACE], overflow);
    CollapsedResultIsLost(APP_AND_DEVICE, name, labels, dims, items, prefs, cluster);
  }

  lemma RenderedIsNotEmpty(tokens: seq<Token>, l: Labelled)
    requires GoodFormat(tokens) && tokens != [] && Readable(tokens, l)
    ensures Rendered(FormatString(tokens), l) != ""
  {
    assert WellFormed(tokens) by {
      forall t | t in tokens ensures WellFormedToken(t) {
        assert GoodToken(t);
      }
    }
    RenderIsFill(tokens, l.order, l.values);
    FillNoNewline(tokens, l.values);
  }
}
