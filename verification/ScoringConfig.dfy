/** The hub controller that turns scorers and masks into one list of scorer summaries per managed cluster, and keeps
    that list in one ManifestWork per cluster. JSON is an identity; the URL library is known on plain URLs. */
module ScoringConfig {
  import opened Keys
  import opened ScoringUrls
  import opened Wrappers

  // ---------------------------------------------------------------------------------------------
  // Scorers
  // ---------------------------------------------------------------------------------------------

  datatype SourceParams = SourceParams(query: string, range: int, step: int)

  datatype ScoringParams = ScoringParams(name: string, interval: int)

  datatype SecretRef = SecretRef(name: string, key: string)

  /** The configuration last fetched from the scorer; an empty string is an unset field. */
  datatype SyncedSource = SyncedSource(kind: string, host: string, path: string, params: SourceParams)
  datatype SyncedScoring = SyncedScoring(host: string, path: string, params: ScoringParams)
  datatype Synced = Synced(source: SyncedSource, scoring: SyncedScoring)

  datatype SourceSpec =
    SourceSpec(kind: string, host: string, path: string, params: Option<SourceParams>, auth: Option<SecretRef>)

  datatype ScoringSpec = ScoringSpec(host: string, path: string, params: Option<ScoringParams>, auth: Option<SecretRef>)

  datatype Scorer = Scorer(
    name: string,
    configURL: string,
    fullSync: bool,
    location: string,
    source: SourceSpec,
    scoring: ScoringSpec,
    scoreDestination: string,
    scoreDimensionFormat: string,
    isActive: bool,
    lastSynced: Option<Synced>)

  datatype Summary = Summary(
    name: string,
    scoreName: string,
    sourceType: string,
    sourceEndpoint: string,
    sourceAuth: SecretRef,
    sourceQuery: string,
    sourceRange: int,
    sourceStep: int,
    scoringEndpoint: string,
    scoringAuth: SecretRef,
    scoringInterval: int,
    location: string,
    scoreDestination: string,
    scoreDimensionFormat: string)

  const SOURCE_TYPE_NONE := "None"

  datatype Url = Url(scheme: string, host: string)

  /** Parsing of a URL and of a request URI, and joining a host with a path ("" when that fails). */
  datatype UrlLib = UrlLib(
    parse: string -> Option<Url>,
    parseRequest: string -> Option<Url>,
    join: (string, string) -> string)

  predicate IsValidURL(lib: UrlLib, s: string) {
    var u := lib.parseRequest(s);
    u.Some? && u.value.scheme != "" && u.value.host != ""
  }

  function Place(u: Parts): Option<Url> { Some(Url(u.scheme, u.authority)) }

  /** The library reads plain URLs as they are and joins them with plain paths as `ScoringUrls.JoinPath` does. */
  ghost predicate ActsAsGo(lib: UrlLib) {
    && (forall s :: PlainUrl(s) ==> lib.parse(s) == Place(PartsOf(s)) && lib.parseRequest(s) == Place(PartsOf(s)))
    && (forall h, p :: PlainUrl(h) && PlainPath(p) ==> lib.join(h, p) == JoinPath(PartsOf(h), p))
    && (forall p :: PlainPath(p) ==> !IsValidURL(lib, lib.join("", p)))
  }

  function ReadPlain(s: string): Option<Url> { if PlainUrl(s) then Place(PartsOf(s)) else None }

  /** Such a library that knows nothing but plain URLs. */
  const PLAIN_URLS := UrlLib(ReadPlain, ReadPlain, (h: string, p: string) =>
    if PlainUrl(h) then JoinPath(PartsOf(h), p) else RelativePath("", p))

  lemma PlainUrlsActAsGo()
    ensures ActsAsGo(PLAIN_URLS)
  {
    assert IndexOf("", ':') == 0;
    forall p | PlainPath(p)
      ensures !IsValidURL(PLAIN_URLS, PLAIN_URLS.join("", p))
    {
      NoHostNoUrl(p);
    }
  }

  // ---------------------------------------------------------------------------------------------
  // Valid fields: the synced value first, then the specified one
  // ---------------------------------------------------------------------------------------------

  function NonEmpty(s: string): (r: Option<string>)
    ensures r == None <==> s == ""
  {
    if s != "" then Some(s) else None
  }

  function Positive(n: int): Option<int> { if n > 0 then Some(n) else None }

  function OrElse<T>(a: Option<T>, b: Option<T>): Option<T> { if a.Some? then a else b }

  function ValidScoreName(s: Scorer): (r: Option<string>)
    ensures r.Some? ==> r.value != ""
    ensures s.lastSynced.Some? && s.lastSynced.value.scoring.params.name != "" ==>
              r == Some(s.lastSynced.value.scoring.params.name)
    ensures !(s.lastSynced.Some? && s.lastSynced.value.scoring.params.name != "") ==>
              r == if s.scoring.params.Some? && s.scoring.params.value.name != "" then Some(s.scoring.params.value.name)
                   else None
  {
    OrElse(if s.lastSynced.Some? then NonEmpty(s.lastSynced.value.scoring.params.name) else None,
           if s.scoring.params.Some? then NonEmpty(s.scoring.params.value.name) else None)
  }

  function ValidSourceType(s: Scorer): (r: Option<string>)
    ensures r.Some? ==> r.value != ""
    ensures s.lastSynced.Some? && s.lastSynced.value.source.kind != "" ==> r == Some(s.lastSynced.value.source.kind)
    ensures !(s.lastSynced.Some? && s.lastSynced.value.source.kind != "") ==>
              r == if s.source.kind != "" then Some(s.source.kind) else None
  {
    OrElse(if s.lastSynced.Some? then NonEmpty(s.lastSynced.value.source.kind) else None, NonEmpty(s.source.kind))
  }

  /** The host of the config URL is the last resort. */
  function FullEndpoint(lib: UrlLib, s: Scorer, syncedHost: Option<string>, specHost: string,
                        syncedPath: string, specPath: string): (r: Option<string>)
    ensures r.Some? ==> IsValidURL(lib, r.value)
  {
    var config := lib.parse(s.configURL);
    if config.None? then None
    else
      var host := if syncedHost.Some? then syncedHost.value
                  else if specHost != "" then specHost
                  else config.value.scheme + "://" + config.value.host;
      var full := lib.join(host, if syncedPath != "" then syncedPath else specPath);
      if IsValidURL(lib, full) then Some(full) else None
  }

  /** `r` is the endpoint at this host and path, if they make a valid URL. */
  predicate IsEndpointAt(lib: UrlLib, s: Scorer, host: string, path: string, r: Option<string>) {
    && (r.Some? ==> r.value == lib.join(host, path))
    && (r.Some? <==> lib.parse(s.configURL).Some? && IsValidURL(lib, lib.join(host, path)))
  }

  function SourcePath(s: Scorer): string {
    if s.lastSynced.Some? && s.lastSynced.value.source.path != "" then s.lastSynced.value.source.path else s.source.path
  }

  function ScoringPath(s: Scorer): string {
    if s.lastSynced.Some? && s.lastSynced.value.scoring.path != "" then s.lastSynced.value.scoring.path
    else s.scoring.path
  }

  function ValidSourceEndpoint(lib: UrlLib, s: Scorer): (r: Option<string>)
    ensures r.Some? ==> lib.parse(s.configURL).Some? && IsValidURL(lib, r.value)
    ensures s.lastSynced.Some? && s.lastSynced.value.source.host != "" ==>
              IsEndpointAt(lib, s, s.lastSynced.value.source.host, SourcePath(s), r)
    ensures (s.lastSynced.Some? ==> s.lastSynced.value.source.host == "") && s.source.host != "" ==>
              IsEndpointAt(lib, s, s.source.host, SourcePath(s), r)
    ensures (s.lastSynced.Some? ==> s.lastSynced.value.source.host == "") && s.source.host == ""
            && lib.parse(s.configURL).Some? ==>
              var u := lib.parse(s.configURL).value;
              IsEndpointAt(lib, s, u.scheme + "://" + u.host, SourcePath(s), r)
  {
    match s.lastSynced
    case None => FullEndpoint(lib, s, None, s.source.host, "", s.source.path)
    case Some(c) => FullEndpoint(lib, s, NonEmpty(c.source.host), s.source.host, c.source.path, s.source.path)
  }

  /** When the synced configuration has a scoring host, the host used is that of its source. */
  function ValidScoringEndpoint(lib: UrlLib, s: Scorer): (r: Option<string>)
    ensures r.Some? ==> lib.parse(s.configURL).Some? && IsValidURL(lib, r.value)
    ensures s.lastSynced.Some? && s.lastSynced.value.scoring.host != "" ==>
              IsEndpointAt(lib, s, s.lastSynced.value.source.host, ScoringPath(s), r)
    ensures (s.lastSynced.Some? ==> s.lastSynced.value.scoring.host == "") && s.scoring.host != "" ==>
              IsEndpointAt(lib, s, s.scoring.host, ScoringPath(s), r)
    ensures (s.lastSynced.Some? ==> s.lastSynced.value.scoring.host == "") && s.scoring.host == ""
            && lib.parse(s.configURL).Some? ==>
              var u := lib.parse(s.configURL).value;
              IsEndpointAt(lib, s, u.scheme + "://" + u.host, ScoringPath(s), r)
  {
    match s.lastSynced
    case None => FullEndpoint(lib, s, None, s.scoring.host, "", s.scoring.path)
    case Some(c) =>
      FullEndpoint(lib, s, if c.scoring.host != "" then Some(c.source.host) else None, s.scoring.host,
                   c.scoring.path, s.scoring.path)
  }

  /** No reference at all is fine; one with an empty name or key is not. */
  function ValidAuth(auth: Option<SecretRef>): (r: Option<SecretRef>)
    ensures r.None? <==> auth.Some? && (auth.value.name == "" || auth.value.key == "")
    ensures r.Some? ==> ((r.value.name == "" <==> r.value.key == "") && (auth.Some? ==> r == auth))
  {
    if auth.None? then Some(SecretRef("", ""))
    else if auth.value.name == "" || auth.value.key == "" then None
    else auth
  }

  function ValidSourceQuery(s: Scorer): (r: Option<string>)
    ensures r.Some? ==> r.value != ""
    ensures s.lastSynced.Some? && s.lastSynced.value.source.params.query != "" ==>
              r == Some(s.lastSynced.value.source.params.query)
    ensures !(s.lastSynced.Some? && s.lastSynced.value.source.params.query != "") ==>
              r == if s.source.params.Some? && s.source.params.value.query != "" then Some(s.source.params.value.query)
                   else None
  {
    OrElse(if s.lastSynced.Some? then NonEmpty(s.lastSynced.value.source.params.query) else None,
           if s.source.params.Some? then NonEmpty(s.source.params.value.query) else None)
  }

  function ValidSourceRange(s: Scorer): (r: Option<int>)
    ensures r.Some? ==> r.value > 0
    ensures s.lastSynced.Some? && s.lastSynced.value.source.params.range > 0 ==>
              r == Some(s.lastSynced.value.source.params.range)
    ensures !(s.lastSynced.Some? && s.lastSynced.value.source.params.range > 0) ==>
              r == if s.source.params.Some? && s.source.params.value.range > 0 then Some(s.source.params.value.range)
                   else None
  {
    OrElse(if s.lastSynced.Some? then Positive(s.lastSynced.value.source.params.range) else None,
           if s.source.params.Some? then Positive(s.source.params.value.range) else None)
  }

  function ValidSourceStep(s: Scorer): (r: Option<int>)
    ensures r.Some? ==> r.value > 0
    ensures s.lastSynced.Some? && s.lastSynced.value.source.params.step > 0 ==>
              r == Some(s.lastSynced.value.source.params.step)
    ensures !(s.lastSynced.Some? && s.lastSynced.value.source.params.step > 0) ==>
              r == if s.source.params.Some? && s.source.params.value.step > 0 then Some(s.source.params.value.step)
                   else None
  {
    OrElse(if s.lastSynced.Some? then Positive(s.lastSynced.value.source.params.step) else None,
           if s.source.params.Some? then Positive(s.source.params.value.step) else None)
  }

  function ValidScoringInterval(s: Scorer): (r: Option<int>)
    ensures r.Some? ==> r.value > 0
    ensures s.lastSynced.Some? && s.lastSynced.value.scoring.params.interval > 0 ==>
              r == Some(s.lastSynced.value.scoring.params.interval)
    ensures !(s.lastSynced.Some? && s.lastSynced.value.scoring.params.interval > 0) ==>
              r == if s.scoring.params.Some? && s.scoring.params.value.interval > 0
                   then Some(s.scoring.params.value.interval) else None
  {
    OrElse(if s.lastSynced.Some? then Positive(s.lastSynced.value.scoring.params.interval) else None,
           if s.scoring.params.Some? then Positive(s.scoring.params.value.interval) else None)
  }

  function ValidDimensionFormat(s: Scorer): (r: string)
    ensures r != "" && (s.scoreDimensionFormat != "" ==> r == s.scoreDimensionFormat)
    ensures s.scoreDimensionFormat == "" ==> r == "${scoreName}"
  {
    if s.scoreDimensionFormat != "" then s.scoreDimensionFormat else "${scoreName}"
  }

  function ValueOr<T>(o: Option<T>, default: T): T { if o.Some? then o.value else default }

  // ---------------------------------------------------------------------------------------------
  // Summaries
  // ---------------------------------------------------------------------------------------------

  /** What a source other than None needs. */
  predicate SourceUsable(lib: UrlLib, s: Scorer) {
    && ValidSourceEndpoint(lib, s).Some? && ValidAuth(s.source.auth).Some? && ValidSourceQuery(s).Some?
    && ValidSourceRange(s).Some? && ValidSourceStep(s).Some?
  }

  predicate Listed(lib: UrlLib, s: Scorer) {
    && ValidScoreName(s).Some? && s.isActive && (s.lastSynced.None? ==> !s.fullSync)
    && ValidSourceType(s).Some?
    && (ValidSourceType(s).value != SOURCE_TYPE_NONE ==> SourceUsable(lib, s))
    && ValidScoringEndpoint(lib, s).Some? && ValidAuth(s.scoring.auth).Some? && ValidScoringInterval(s).Some?
    && s.location != "" && s.scoreDestination != ""
  }

  function SummaryOf(lib: UrlLib, s: Scorer): Summary
    requires Listed(lib, s)
  {
    Summary(
      s.name,
      ValidScoreName(s).value,
      ValidSourceType(s).value,
      ValueOr(ValidSourceEndpoint(lib, s), ""),
      ValueOr(ValidAuth(s.source.auth), SecretRef("", "")),
      ValueOr(ValidSourceQuery(s), ""),
      ValueOr(ValidSourceRange(s), 0),
      ValueOr(ValidSourceStep(s), 0),
      ValidScoringEndpoint(lib, s).value,
      ValidAuth(s.scoring.auth).value,
      ValidScoringInterval(s).value,
      s.location,
      s.scoreDestination,
      ValidDimensionFormat(s))
  }

  /** Every summary, of any cluster. */
  function Summaries(lib: UrlLib, scorers: seq<Scorer>): seq<Summary> {
    if scorers == [] then []
    else
      var s := scorers[|scorers| - 1];
      Summaries(lib, scorers[..|scorers| - 1]) + if Listed(lib, s) then [SummaryOf(lib, s)] else []
  }

  datatype Mask = Mask(cluster: string, score: string)

  function MaskKey(cluster: string, score: string): string { SlashKey(cluster, score) }

  /** Some mask has the key of this cluster and score. */
  predicate MaskedBy(masks: seq<Mask>, cluster: string, score: string) {
    exists m :: m in masks && MaskKey(m.cluster, m.score) == MaskKey(cluster, score)
  }

  /** The summaries of a cluster: those that some mask hits are removed. */
  function Unmasked(list: seq<Summary>, cluster: string, masks: seq<Mask>): seq<Summary> {
    if list == [] then []
    else
      var s := list[|list| - 1];
      Unmasked(list[..|list| - 1], cluster, masks) + if MaskedBy(masks, cluster, s.scoreName) then [] else [s]
  }

  /** Cluster names have no slash, so a key stands for one pair. */
  lemma MaskKeyInjective(c: string, s: string, c1: string, s1: string)
    requires Slashless(c) && Slashless(c1)
    ensures MaskKey(c, s) == MaskKey(c1, s1) <==> c == c1 && s == s1
  {
    SlashKeyInjective(c, s, c1, s1);
  }

  method BuildMaskMap(masks: seq<Mask>) returns (keys: set<string>)
    ensures keys == set m | m in masks :: MaskKey(m.cluster, m.score)
  {
    keys := {};
    for i := 0 to |masks|
      invariant keys == set m | m in masks[..i] :: MaskKey(m.cluster, m.score)
    {
      assert masks[..i + 1] == masks[..i] + [masks[i]];
      keys := keys + {MaskKey(masks[i].cluster, masks[i].score)};
    }
    assert masks[..|masks|] == masks;
  }

  predicate IsMasked(keys: set<string>, cluster: string, score: string) { MaskKey(cluster, score) in keys }

  function SlashAt(s: string): (i: nat)
    requires '/' in s
    ensures i < |s| && s[i] == '/' && Slashless(s[..i])
  {
    if s[0] == '/' then 0 else 1 + SlashAt(s[1..])
  }

  /** A mask as it is read: the cluster name ends at the first slash of the key. */
  function AsRead(m: Mask): Mask {
    var key := MaskKey(m.cluster, m.score);
    assert key[|m.cluster|] == '/';
    Mask(key[..SlashAt(key)], key[SlashAt(key) + 1..])
  }

  lemma AsReadHasSameKey(m: Mask)
    ensures Slashless(AsRead(m).cluster)
    ensures MaskKey(AsRead(m).cluster, AsRead(m).score) == MaskKey(m.cluster, m.score)
    ensures Slashless(m.cluster) ==> AsRead(m) == m
  {
    var key := MaskKey(m.cluster, m.score);
    assert key[|m.cluster|] == '/';
    var i := SlashAt(key);
    assert key == key[..i] + ['/'] + key[i + 1..];
    assert MaskKey(key[..i], key[i + 1..]) == key;
    if Slashless(m.cluster) {
      MaskKeyInjective(m.cluster, m.score, key[..i], key[i + 1..]);
    }
  }

  /** For a cluster name without a slash, as all are: a mask hits exactly the pair it is read as, so a listed pair is
      hit, and nothing else is unless a mask with a slash in its cluster name is listed. */
  lemma MaskedByIff(masks: seq<Mask>, cluster: string, score: string)
    requires Slashless(cluster)
    ensures MaskedBy(masks, cluster, score) <==> exists m :: m in masks && AsRead(m) == Mask(cluster, score)
    ensures Mask(cluster, score) in masks ==> MaskedBy(masks, cluster, score)
    ensures (forall m :: m in masks ==> Slashless(m.cluster)) ==>
              (MaskedBy(masks, cluster, score) <==> Mask(cluster, score) in masks)
  {
    forall m | m in masks
      ensures MaskKey(m.cluster, m.score) == MaskKey(cluster, score) <==> AsRead(m) == Mask(cluster, score)
    {
      AsReadHasSameKey(m);
      MaskKeyInjective(AsRead(m).cluster, AsRead(m).score, cluster, score);
    }
    forall m | m in masks && Slashless(m.cluster)
      ensures AsRead(m) == m
    {
      AsReadHasSameKey(m);
    }
    if Mask(cluster, score) in masks {
      assert MaskKey(Mask(cluster, score).cluster, Mask(cluster, score).score) == MaskKey(cluster, score);
    }
  }

  /** The summary of one scorer for one cluster, with the checks in the controller's order. */
  method Summarize(lib: UrlLib, cluster: string, s: Scorer, keys: set<string>) returns (r: Option<Summary>)
    ensures r == if Listed(lib, s) && !IsMasked(keys, cluster, ValidScoreName(s).value) then Some(SummaryOf(lib, s))
                 else None
  {
    var scoreName := ValidScoreName(s);
    if scoreName.None? {
      return None;
    }
    if IsMasked(keys, cluster, scoreName.value) {
      return None;
    }
    if !s.isActive {
      return None;
    }
    if s.lastSynced.None? && s.fullSync {
      return None;
    }
    var sourceType := ValidSourceType(s);
    if sourceType.None? {
      return None;
    }
    var optional := sourceType.value == SOURCE_TYPE_NONE;
    var sourceEndpoint := ValidSourceEndpoint(lib, s);
    if sourceEndpoint.None? && !optional {
      return None;
    }
    var sourceAuth := ValidAuth(s.source.auth);
    if sourceAuth.None? && !optional {
      return None;
    }
    var scoringEndpoint := ValidScoringEndpoint(lib, s);
    if scoringEndpoint.None? {
      return None;
    }
    var scoringAuth := ValidAuth(s.scoring.auth);
    if scoringAuth.None? {
      return None;
    }
    var query := ValidSourceQuery(s);
    if query.None? && !optional {
      return None;
    }
    var range := ValidSourceRange(s);
    if range.None? && !optional {
      return None;
    }
    var step := ValidSourceStep(s);
    if step.None? && !optional {
      return None;
    }
    var interval := ValidScoringInterval(s);
    if interval.None? || s.location == "" || s.scoreDestination == "" {
      return None;
    }
    r := Some(Summary(
      s.name, scoreName.value, sourceType.value, ValueOr(sourceEndpoint, ""), ValueOr(sourceAuth, SecretRef("", "")),
      ValueOr(query, ""), ValueOr(range, 0), ValueOr(step, 0), scoringEndpoint.value, scoringAuth.value, interval.value,
      s.location, s.scoreDestination, ValidDimensionFormat(s)));
  }

  /** Masking is a filter of one list, the same for every cluster. */
  method BuildClusterToSummaries(lib: UrlLib, clusters: seq<string>, scorers: seq<Scorer>, masks: seq<Mask>)
    returns (lists: map<string, seq<Summary>>)
    ensures lists.Keys == set c | c in clusters
    ensures forall c :: c in clusters ==> lists[c] == Unmasked(Summaries(lib, scorers), c, masks)
  {
    var keys := BuildMaskMap(masks);
    lists := map[];
    for i := 0 to |clusters|
      invariant lists.Keys == set c | c in clusters[..i]
      invariant forall c :: c in clusters[..i] ==> lists[c] == Unmasked(Summaries(lib, scorers), c, masks)
    {
      assert clusters[..i + 1] == clusters[..i] + [clusters[i]];
      var list := SummariesOfCluster(lib, clusters[i], scorers, masks, keys);
      lists := lists[clusters[i] := list];
    }
    assert clusters[..|clusters|] == clusters;
  }

  method SummariesOfCluster(lib: UrlLib, cluster: string, scorers: seq<Scorer>, masks: seq<Mask>, keys: set<string>)
    returns (list: seq<Summary>)
    requires keys == set m | m in masks :: MaskKey(m.cluster, m.score)
    ensures list == Unmasked(Summaries(lib, scorers), cluster, masks)
  {
    list := [];
    for i := 0 to |scorers|
      invariant list == Unmasked(Summaries(lib, scorers[..i]), cluster, masks)
    {
      assert scorers[..i + 1][..i] == scorers[..i];
      var r := Summarize(lib, cluster, scorers[i], keys);
      assert Summaries(lib, scorers[..i]) + [] == Summaries(lib, scorers[..i]);
      if Listed(lib, scorers[i]) {
        assert IsMasked(keys, cluster, ValidScoreName(scorers[i]).value)
               <==> MaskedBy(masks, cluster, ValidScoreName(scorers[i]).value);
        UnmaskedAppend(Summaries(lib, scorers[..i]), SummaryOf(lib, scorers[i]), cluster, masks);
      }
      if r.Some? {
        list := list + [r.value];
      }
    }
    assert scorers[..|scorers|] == scorers;
  }

  lemma UnmaskedAppend(list: seq<Summary>, s: Summary, cluster: string, masks: seq<Mask>)
    ensures Unmasked(list + [s], cluster, masks)
            == Unmasked(list, cluster, masks) + if MaskedBy(masks, cluster, s.scoreName) then [] else [s]
  {
    assert (list + [s])[..|list|] == list;
  }

  /** The filter removes exactly the masked summaries and keeps how often each other one occurs. */
  lemma {:induction false} UnmaskedCounts(list: seq<Summary>, cluster: string, masks: seq<Mask>, s: Summary)
    ensures multiset(Unmasked(list, cluster, masks))[s]
            == if MaskedBy(masks, cluster, s.scoreName) then 0 else multiset(list)[s]
  {
    if list != [] {
      var rest, last := list[..|list| - 1], list[|list| - 1];
      UnmaskedCounts(rest, cluster, masks, s);
      assert multiset(list) == multiset(rest) + multiset{last} by {
        assert list == rest + [last];
      }
      if !MaskedBy(masks, cluster, last.scoreName) {
        assert multiset(Unmasked(rest, cluster, masks) + [last])
               == multiset(Unmasked(rest, cluster, masks)) + multiset{last};
      } else {
        assert Unmasked(list, cluster, masks) == Unmasked(rest, cluster, masks);
      }
    }
  }

  /** For cluster names without slashes, in masks too, these are exactly the listed (cluster, score) pairs. */
  lemma MaskingIsByPairs(list: seq<Summary>, cluster: string, masks: seq<Mask>, s: Summary)
    requires Slashless(cluster) && forall m :: m in masks ==> Slashless(m.cluster)
    ensures multiset(Unmasked(list, cluster, masks))[s]
            == if Mask(cluster, s.scoreName) in masks then 0 else multiset(list)[s]
  {
    UnmaskedCounts(list, cluster, masks, s);
    MaskedByIff(masks, cluster, s.scoreName);
  }

  /** A mask with a slash in its cluster name, say edge/cpu and load, hits another pair, edge and cpu/load. */
  lemma SlashedMaskHitsAnother(cluster: string, rest: string, score: string)
    requires Slashless(cluster)
    ensures var m := Mask(cluster + "/" + rest, score);
            AsRead(m) == Mask(cluster, rest + "/" + score) && MaskedBy([m], cluster, rest + "/" + score)
  {
    var m := Mask(cluster + "/" + rest, score);
    assert MaskKey(m.cluster, m.score) == MaskKey(cluster, rest + "/" + score);
    AsReadHasSameKey(m);
    MaskKeyInjective(AsRead(m).cluster, AsRead(m).score, cluster, rest + "/" + score);
    assert m in [m];
  }

  /** Every summary has a positive interval; unless its source is None it has a query, and a positive range and step. */
  predicate UsableSummary(lib: UrlLib, s: Summary) {
    && s.scoreName != "" && s.scoringInterval > 0 && IsValidURL(lib, s.scoringEndpoint)
    && s.location != "" && s.scoreDestination != "" && s.scoreDimensionFormat != ""
    && (s.sourceType != SOURCE_TYPE_NONE ==>
          s.sourceQuery != "" && s.sourceRange > 0 && s.sourceStep > 0 && IsValidURL(lib, s.sourceEndpoint))
  }

  lemma {:induction false} SummariesAreUsable(lib: UrlLib, scorers: seq<Scorer>, cluster: string, masks: seq<Mask>)
    ensures forall s :: s in Summaries(lib, scorers) ==> UsableSummary(lib, s)
    ensures forall s :: s in Unmasked(Summaries(lib, scorers), cluster, masks) ==> UsableSummary(lib, s)
  {
    if scorers != [] {
      SummariesAreUsable(lib, scorers[..|scorers| - 1], cluster, masks);
    }
    forall s | s in Unmasked(Summaries(lib, scorers), cluster, masks)
      ensures UsableSummary(lib, s)
    {
      UnmaskedCounts(Summaries(lib, scorers), cluster, masks, s);
      assert s in multiset(Unmasked(Summaries(lib, scorers), cluster, masks));
      assert s in multiset(Summaries(lib, scorers));
    }
  }

  /** The synced text if it is set, or else the specified one; likewise for numbers, which are set when positive. */
  function First(synced: string, specified: string): string { if synced != "" then synced else specified }

  function FirstPositive(synced: int, specified: int): int {
    if synced > 0 then synced else if specified > 0 then specified else 0
  }

  const NOTHING_SYNCED :=
    Synced(SyncedSource("", "", "", SourceParams("", 0, 0)), SyncedScoring("", "", ScoringParams("", 0)))

  /** The fields that can be synced, each on its own; a missing part of the scorer has nothing set. */
  predicate TakesFields(r: Summary, s: Scorer) {
    var c := if s.lastSynced.Some? then s.lastSynced.value else NOTHING_SYNCED;
    var source := if s.source.params.Some? then s.source.params.value else NOTHING_SYNCED.source.params;
    var scoring := if s.scoring.params.Some? then s.scoring.params.value else NOTHING_SYNCED.scoring.params;
    && r.scoreName == First(c.scoring.params.name, scoring.name) != ""
    && r.scoringInterval == FirstPositive(c.scoring.params.interval, scoring.interval) > 0
    && r.sourceType == First(c.source.kind, s.source.kind) != ""
    && r.sourceQuery == First(c.source.params.query, source.query)
    && r.sourceRange == FirstPositive(c.source.params.range, source.range)
    && r.sourceStep == FirstPositive(c.source.params.step, source.step)
  }

  predicate IsAuth(r: SecretRef, auth: Option<SecretRef>) {
    if auth.None? then r == SecretRef("", "") else r == auth.value && r.name != "" && r.key != ""
  }

  /** The scorer a summary was made from: active, and with a synced configuration if it is to be synced. The source is
      complete unless its type is None. */
  predicate MadeFrom(lib: UrlLib, r: Summary, s: Scorer) {
    && s.isActive && (s.fullSync ==> s.lastSynced.Some?) && TakesFields(r, s)
    && r.name == s.name && r.location == s.location != "" && r.scoreDestination == s.scoreDestination != ""
    && r.scoreDimensionFormat == First(s.scoreDimensionFormat, "${scoreName}")
    && Some(r.scoringEndpoint) == ValidScoringEndpoint(lib, s) && IsAuth(r.scoringAuth, s.scoring.auth)
    && r.sourceEndpoint == (if ValidSourceEndpoint(lib, s).Some? then ValidSourceEndpoint(lib, s).value else "")
    && (r.sourceType != "None" ==>
          && Some(r.sourceEndpoint) == ValidSourceEndpoint(lib, s) && IsAuth(r.sourceAuth, s.source.auth)
          && r.sourceQuery != "" && r.sourceRange > 0 && r.sourceStep > 0)
    && (r.sourceType == "None" ==>
          IsAuth(r.sourceAuth, s.source.auth) || r.sourceAuth == SecretRef("", ""))
  }

  lemma ListedIsMade(lib: UrlLib, s: Scorer)
    requires Listed(lib, s)
    ensures MadeFrom(lib, SummaryOf(lib, s), s)
  {
    assert TakesFields(SummaryOf(lib, s), s);
  }

  lemma MadeIsListed(lib: UrlLib, r: Summary, s: Scorer)
    requires MadeFrom(lib, r, s)
    ensures Listed(lib, s)
  {
  }

  /** A scorer is listed exactly when some summary can be made from it, and its own is. */
  lemma ListedIff(lib: UrlLib, s: Scorer)
    ensures Listed(lib, s) <==> exists r :: MadeFrom(lib, r, s)
    ensures Listed(lib, s) ==> MadeFrom(lib, SummaryOf(lib, s), s)
  {
    if Listed(lib, s) {
      ListedIsMade(lib, s);
    }
    forall r | MadeFrom(lib, r, s)
      ensures Listed(lib, s)
    {
      MadeIsListed(lib, r, s);
    }
  }

  /** Apart from the credentials of a None source there is only one summary to be made. */
  lemma MadeFromUnique(lib: UrlLib, a: Summary, b: Summary, s: Scorer)
    requires MadeFrom(lib, a, s) && MadeFrom(lib, b, s)
    ensures a == b.(sourceAuth := a.sourceAuth) && (a.sourceType != SOURCE_TYPE_NONE ==> a == b)
  {
  }

  /** Every summary has an active scorer behind it, and says what that does. */
  lemma {:induction false} SummariesComeFromActiveScorers(lib: UrlLib, scorers: seq<Scorer>, s: Summary)
    requires s in Summaries(lib, scorers)
    ensures exists scorer :: scorer in scorers && MadeFrom(lib, s, scorer)
  {
    var last := scorers[|scorers| - 1];
    if s in Summaries(lib, scorers[..|scorers| - 1]) {
      SummariesComeFromActiveScorers(lib, scorers[..|scorers| - 1], s);
    } else {
      ListedIff(lib, last);
      assert last in scorers;
    }
  }

  /** And every scorer a summary can be made from has one. */
  lemma {:induction false} ActiveScorersAreSummarized(lib: UrlLib, scorers: seq<Scorer>, scorer: Scorer, r: Summary)
    requires scorer in scorers && MadeFrom(lib, r, scorer)
    ensures exists s :: s in Summaries(lib, scorers) && MadeFrom(lib, s, scorer)
  {
    var init, last := scorers[..|scorers| - 1], scorers[|scorers| - 1];
    if scorer in init {
      ActiveScorersAreSummarized(lib, init, scorer, r);
      var s :| s in Summaries(lib, init) && MadeFrom(lib, s, scorer);
      assert s in Summaries(lib, scorers);
    } else {
      ListedIff(lib, scorer);
      assert SummaryOf(lib, last) == Summaries(lib, scorers)[|Summaries(lib, init)|];
    }
  }

  /** Two summaries that score alike: they differ at most in what they say of the source beyond its type. */
  predicate ScoreAlike(a: Summary, b: Summary) {
    a == b.(sourceEndpoint := a.sourceEndpoint, sourceAuth := a.sourceAuth, sourceQuery := a.sourceQuery,
            sourceRange := a.sourceRange, sourceStep := a.sourceStep)
  }

  predicate AllScoreAlike(a: seq<Summary>, b: seq<Summary>) {
    |a| == |b| && forall i :: 0 <= i < |a| ==> ScoreAlike(a[i], b[i])
  }

  lemma AlikeAppend(a: seq<Summary>, b: seq<Summary>, x: seq<Summary>, y: seq<Summary>)
    requires AllScoreAlike(a, b) && AllScoreAlike(x, y)
    ensures AllScoreAlike(a + x, b + y)
  {
  }

  lemma {:induction false} UnmaskedAlike(a: seq<Summary>, b: seq<Summary>, cluster: string, masks: seq<Mask>)
    requires AllScoreAlike(a, b)
    ensures AllScoreAlike(Unmasked(a, cluster, masks), Unmasked(b, cluster, masks))
  {
    if a != [] {
      var x, y := a[|a| - 1], b[|b| - 1];
      assert ScoreAlike(x, y) && x.scoreName == y.scoreName;
      UnmaskedAlike(a[..|a| - 1], b[..|b| - 1], cluster, masks);
      var masked := MaskedBy(masks, cluster, x.scoreName);
      AlikeAppend(Unmasked(a[..|a| - 1], cluster, masks), Unmasked(b[..|b| - 1], cluster, masks),
                  if masked then [] else [x], if masked then [] else [y]);
    }
  }

  lemma NoneSourceOfOne(lib: UrlLib, s: Scorer, s1: Scorer)
    requires s1 == s || (ValidSourceType(s) == Some(SOURCE_TYPE_NONE) && s1 == s.(source := s1.source)
                         && s1.source.kind == s.source.kind)
    ensures Listed(lib, s) <==> Listed(lib, s1)
    ensures Listed(lib, s) ==> ScoreAlike(SummaryOf(lib, s), SummaryOf(lib, s1))
  {
    assert ValidSourceType(s1) == ValidSourceType(s) && ValidScoringEndpoint(lib, s1) == ValidScoringEndpoint(lib, s);
  }

  lemma {:induction false} NoneSourceSummaries(lib: UrlLib, scorers: seq<Scorer>, i: nat, other: SourceSpec)
    requires i < |scorers| && ValidSourceType(scorers[i]) == Some(SOURCE_TYPE_NONE)
    requires other.kind == scorers[i].source.kind
    ensures AllScoreAlike(Summaries(lib, scorers), Summaries(lib, scorers[i := scorers[i].(source := other)]))
  {
    var scorers1 := scorers[i := scorers[i].(source := other)];
    var init, init1, last, last1 := scorers[..|scorers| - 1], scorers1[..|scorers| - 1], scorers[|scorers| - 1],
                                    scorers1[|scorers| - 1];
    if i < |init| {
      assert init1 == init[i := init[i].(source := other)];
      NoneSourceSummaries(lib, init, i, other);
    } else {
      assert init1 == init;
    }
    NoneSourceOfOne(lib, last, last1);
    AlikeAppend(Summaries(lib, init), Summaries(lib, init1), if Listed(lib, last) then [SummaryOf(lib, last)] else [],
                if Listed(lib, last1) then [SummaryOf(lib, last1)] else []);
  }

  /** With source type None no other field of the specified source decides which scorers are listed, for any cluster, or
      how they are scored. */
  lemma NoneSourceNeverExcludes(lib: UrlLib, scorers: seq<Scorer>, i: nat, other: SourceSpec, cluster: string,
                                masks: seq<Mask>)
    requires i < |scorers| && ValidSourceType(scorers[i]) == Some(SOURCE_TYPE_NONE)
    requires other.kind == scorers[i].source.kind
    ensures AllScoreAlike(Unmasked(Summaries(lib, scorers), cluster, masks),
                          Unmasked(Summaries(lib, scorers[i := scorers[i].(source := other)]), cluster, masks))
  {
    NoneSourceSummaries(lib, scorers, i, other);
    UnmaskedAlike(Summaries(lib, scorers), Summaries(lib, scorers[i := scorers[i].(source := other)]), cluster, masks);
  }

  // ---------------------------------------------------------------------------------------------
  // The scoring host of a synced configuration
  // ---------------------------------------------------------------------------------------------

  /** What the endpoint would be at the scoring host of the synced configuration. */
  function SyncedScoringEndpoint(lib: UrlLib, s: Scorer): Option<string>
    requires s.lastSynced.Some? && s.lastSynced.value.scoring.host != ""
  {
    var c := s.lastSynced.value.scoring;
    FullEndpoint(lib, s, Some(c.host), s.scoring.host, c.path, s.scoring.path)
  }

  lemma PlainEndpoint(lib: UrlLib, host: string, path: string)
    requires ActsAsGo(lib) && PlainUrl(host) && PlainPath(path)
    ensures lib.join(host, path) == JoinPath(PartsOf(host), path) && IsValidURL(lib, lib.join(host, path))
  {
    JoinIsPlain(PartsOf(host), path);
  }

  /** A synced scoring host is used exactly when the synced source host is set and stands for the same place under the
      scoring path, or when there is no endpoint anyway because the config URL cannot be parsed. */
  lemma SyncedScoringHostUsedIff(lib: UrlLib, s: Scorer)
    requires ActsAsGo(lib) && s.lastSynced.Some? && PlainPath(ScoringPath(s))
    requires PlainUrl(s.lastSynced.value.scoring.host)
    requires s.lastSynced.value.source.host == "" || PlainUrl(s.lastSynced.value.source.host)
    ensures s.lastSynced.value.scoring.host != ""
    ensures var c := s.lastSynced.value;
            ValidScoringEndpoint(lib, s) == SyncedScoringEndpoint(lib, s)
            <==> || lib.parse(s.configURL).None?
                 || (c.source.host != "" && SamePlace(PartsOf(c.source.host), PartsOf(c.scoring.host), ScoringPath(s)))
  {
    var c := s.lastSynced.value;
    assert IndexOf("", ':') == 0;
    PlainEndpoint(lib, c.scoring.host, ScoringPath(s));
    if c.source.host != "" {
      PlainEndpoint(lib, c.source.host, ScoringPath(s));
      SameJoinIff(PartsOf(c.source.host), PartsOf(c.scoring.host), ScoringPath(s));
    }
  }

  lemma HttpEndpoint(lib: UrlLib, authority: string, segment: string)
    requires ActsAsGo(lib) && Word(authority) && Word(segment)
    ensures lib.join(Http(authority), "/" + segment) == At(authority, segment)
    ensures IsValidURL(lib, At(authority, segment))
    ensures lib.parse(Http(authority)).Some?
  {
    HttpJoins(authority, segment);
    PlainEndpoint(lib, Http(authority), "/" + segment);
  }

  /** A scorer that is listed with the wrong host: it reads from Prometheus and is to be scored elsewhere. */
  lemma SyncedScoringHostLost(lib: UrlLib)
    requires ActsAsGo(lib)
    ensures var synced := Synced(
              SyncedSource("Prometheus", Http("prometheus"), "/" + "query", SourceParams("up", 60, 5)),
              SyncedScoring(Http("scorer"), "/" + "score", ScoringParams("load", 30)));
            var s := Scorer("s", Http("scorer"), true, "External", SourceSpec("", "", "", None, None),
                            ScoringSpec("", "", None, None), "None", "", true, Some(synced));
            && Listed(lib, s)
            && SummaryOf(lib, s).scoringEndpoint == At("prometheus", "score")
            && SyncedScoringEndpoint(lib, s) == Some(At("scorer", "score"))
            && At("prometheus", "score") != At("scorer", "score")
  {
    assert Word("prometheus") && Word("scorer") && Word("query") && Word("score");
    HttpEndpoint(lib, "prometheus", "query");
    HttpEndpoint(lib, "prometheus", "score");
    HttpEndpoint(lib, "scorer", "score");
    assert |At("prometheus", "score")| != |At("scorer", "score")|;
  }

  // ---------------------------------------------------------------------------------------------
  // ManifestWorks
  // ---------------------------------------------------------------------------------------------

  /** A manifest of a work: the config map with its list, one whose list cannot be decoded, or something else. */
  datatype Manifest = ConfigMap(list: seq<Summary>) | UnreadableConfigMap | OtherManifest

  /** The configuration object; it is gone when it is deleted and has no finalizer of anyone left. */
  datatype Config = Config(finalizer: bool, otherFinalizers: bool, deleting: bool, masks: seq<Mask>)

  /** `writes` counts the creations, updates and deletions so far. */
  datatype State = State(config: Option<Config>, works: map<string, seq<Manifest>>, writes: nat)

  /** Failing calls, per cluster where they are about a ManifestWork. */
  datatype Faults = Faults(
    getConfig: bool,
    addFinalizer: bool,
    removeFinalizer: bool,
    listScorers: bool,
    listClusters: bool,
    getWork: set<string>,
    writeWork: set<string>,
    deleteWork: set<string>)

  const NO_FAULTS := Faults(false, false, false, false, false, {}, {}, {})

  /** What a scan of the manifests for the current list says. */
  datatype Scan = Same | Different | Unreadable

  function ScanFor(manifests: seq<Manifest>, list: seq<Summary>): Scan {
    if manifests == [] then Different
    else if manifests[0] == ConfigMap(list) then Same
    else if manifests[0].UnreadableConfigMap? then Unreadable
    else ScanFor(manifests[1..], list)
  }

  /** The first config map with the list, or that cannot be decoded, decides; without one the list is not there. */
  ghost predicate IsScan(manifests: seq<Manifest>, list: seq<Summary>, scan: Scan) {
    if scan.Different? then forall m :: m in manifests ==> m != ConfigMap(list) && !m.UnreadableConfigMap?
    else
      exists i :: && 0 <= i < |manifests|
                  && (if scan.Same? then manifests[i] == ConfigMap(list) else manifests[i].UnreadableConfigMap?)
                  && forall k :: 0 <= k < i ==> manifests[k] != ConfigMap(list) && !manifests[k].UnreadableConfigMap?
  }

  lemma {:induction false} ScanIs(manifests: seq<Manifest>, list: seq<Summary>)
    ensures IsScan(manifests, list, ScanFor(manifests, list))
  {
    if manifests != [] {
      var rest := manifests[1..];
      ScanIs(rest, list);
      assert forall m :: m in manifests <==> m == manifests[0] || m in rest;
      if manifests[0] != ConfigMap(list) && !manifests[0].UnreadableConfigMap? && !ScanFor(rest, list).Different? {
        var scan := ScanFor(rest, list);
        var i :| && 0 <= i < |rest|
                 && (if scan.Same? then rest[i] == ConfigMap(list) else rest[i].UnreadableConfigMap?)
                 && forall k :: 0 <= k < i ==> rest[k] != ConfigMap(list) && !rest[k].UnreadableConfigMap?;
        assert manifests[i + 1] == rest[i];
        assert forall k :: 0 < k < i + 1 ==> manifests[k] == rest[k - 1];
      }
    }
  }

  /** The work of the cluster, as the controller reads it, holds the list. */
  predicate Holds(works: map<string, seq<Manifest>>, c: string, list: seq<Summary>) {
    c in works && ScanFor(works[c], list).Same?
  }

  /** One cluster: the state after it and whether it failed. An error of Get other than NotFound is only logged. */
  function UpdateWork(st: State, c: string, list: seq<Summary>, f: Faults): (State, bool) {
    var write := st.(works := st.works[c := [ConfigMap(list)]], writes := st.writes + 1);
    if c in f.getWork then (st, false)
    else if c !in st.works then (if c in f.writeWork then (st, true) else (write, false))
    else
      match ScanFor(st.works[c], list)
      case Same => (st, false)
      case Unreadable => (st, true)
      case Different => if c in f.writeWork then (st, true) else (write, false)
  }

  /** The clusters in order, up to the first that fails. */
  function UpdateWorks(st: State, clusters: seq<string>, list: string -> seq<Summary>, f: Faults): (State, bool)
    decreases |clusters|
  {
    if clusters == [] then (st, false)
    else
      var (st1, failed) := UpdateWork(st, clusters[0], list(clusters[0]), f);
      if failed then (st1, true) else UpdateWorks(st1, clusters[1..], list, f)
  }

  function DeleteWork(st: State, c: string, f: Faults): State {
    if c in f.getWork || c !in st.works || c in f.deleteWork then st
    else st.(works := st.works - {c}, writes := st.writes + 1)
  }

  function DeleteWorks(st: State, clusters: seq<string>, f: Faults): State
    decreases |clusters|
  {
    if clusters == [] then st else DeleteWorks(DeleteWork(st, clusters[0], f), clusters[1..], f)
  }

  function PutConfig(st: State, c: Config): State {
    st.(config := if c.deleting && !c.finalizer && !c.otherFinalizers then None else Some(c), writes := st.writes + 1)
  }

  datatype Inputs = Inputs(lib: UrlLib, clusters: seq<string>, scorers: seq<Scorer>)

  function ListOf(i: Inputs, masks: seq<Mask>): string -> seq<Summary> {
    c => Unmasked(Summaries(i.lib, i.scorers), c, masks)
  }

  function WithFinalizer(st: State): State
    requires st.config.Some?
  {
    if st.config.value.finalizer then st else PutConfig(st, st.config.value.(finalizer := true))
  }

  /** One reconcile of the singleton configuration; the flag says that it returned an error. */
  function Reconcile(st: State, i: Inputs, f: Faults): (State, bool) {
    if f.getConfig then (st, true)
    else if st.config.None? then (st, false)
    else if !st.config.value.finalizer && f.addFinalizer then (st, true)
    else
      var st1 := WithFinalizer(st);
      if st1.config.value.deleting then
        if f.listClusters then (st1, true)
        else
          var st2 := DeleteWorks(st1, i.clusters, f);
          if f.removeFinalizer then (st2, true)
          else (PutConfig(st2, st1.config.value.(finalizer := false)), false)
      else if f.listScorers || f.listClusters then (st1, true)
      else UpdateWorks(st1, i.clusters, ListOf(i, st1.config.value.masks), f)
  }

  class Reconciler {
    var config: Option<Config>
    var works: map<string, seq<Manifest>>
    var writes: nat

    function View(): State
      reads this
    {
      State(config, works, writes)
    }

    constructor (st: State)
      ensures View() == st
    {
      config, works, writes := st.config, st.works, st.writes;
    }

    method Scans(manifests: seq<Manifest>, list: seq<Summary>) returns (scan: Scan)
      ensures scan == ScanFor(manifests, list)
    {
      for i := 0 to |manifests|
        invariant ScanFor(manifests, list) == ScanFor(manifests[i..], list)
      {
        assert manifests[i..][1..] == manifests[i + 1..];
        if manifests[i].ConfigMap? && manifests[i].list == list {
          return Same;
        }
        if manifests[i].UnreadableConfigMap? {
          return Unreadable;
        }
      }
      scan := Different;
    }

    method UpdateConfigManifestWork(c: string, list: seq<Summary>, f: Faults) returns (failed: bool)
      modifies this`works, this`writes
      ensures (View(), failed) == UpdateWork(old(View()), c, list, f)
    {
      if c in f.getWork {
        return false;
      }
      if c in works {
        var scan := Scans(works[c], list);
        if scan.Unreadable? {
          return true;
        }
        if scan.Same? {
          return false;
        }
      }
      if c in f.writeWork {
        return true;
      }
      works := works[c := [ConfigMap(list)]];
      writes := writes + 1;
      failed := false;
    }

    method DeleteConfigManifestWork(c: string, f: Faults)
      modifies this`works, this`writes
      ensures View() == DeleteWork(old(View()), c, f)
    {
      if c in f.getWork || c !in works || c in f.deleteWork {
        return;
      }
      works := works - {c};
      writes := writes + 1;
    }

    method DeleteAll(clusters: seq<string>, f: Faults)
      modifies this`works, this`writes
      ensures View() == DeleteWorks(old(View()), clusters, f)
    {
      for i := 0 to |clusters|
        invariant DeleteWorks(View(), clusters[i..], f) == DeleteWorks(old(View()), clusters, f)
        invariant config == old(config)
      {
        assert clusters[i..][1..] == clusters[i + 1..];
        DeleteConfigManifestWork(clusters[i], f);
      }
    }

    method UpdateAll(clusters: seq<string>, lists: map<string, seq<Summary>>, ghost list: string -> seq<Summary>,
                     f: Faults)
      returns (failed: bool)
      requires forall c :: c in clusters ==> c in lists && lists[c] == list(c)
      modifies this`works, this`writes
      ensures (View(), failed) == UpdateWorks(old(View()), clusters, list, f)
    {
      for i := 0 to |clusters|
        invariant UpdateWorks(View(), clusters[i..], list, f) == UpdateWorks(old(View()), clusters, list, f)
        invariant config == old(config)
      {
        assert clusters[i..][1..] == clusters[i + 1..];
        assert clusters[i] in clusters;
        failed := UpdateConfigManifestWork(clusters[i], lists[clusters[i]], f);
        if failed {
          return;
        }
      }
      failed := false;
    }

    method ReconcileOnce(i: Inputs, f: Faults) returns (failed: bool)
      modifies this
      ensures (View(), failed) == Reconcile(old(View()), i, f)
    {
      if f.getConfig {
        return true;
      }
      if config.None? {
        return false;
      }
      var c := config.value;
      if !c.finalizer {
        if f.addFinalizer {
          return true;
        }
        c := c.(finalizer := true);
        config, writes := Some(c), writes + 1;
      }
      if c.deleting {
        if f.listClusters {
          return true;
        }
        DeleteAll(i.clusters, f);
        if f.removeFinalizer {
          return true;
        }
        c := c.(finalizer := false);
        config, writes := if c.otherFinalizers then Some(c) else None, writes + 1;
        return false;
      }
      if f.listScorers || f.listClusters {
        return true;
      }
      var lists := BuildClusterToSummaries(i.lib, i.clusters, i.scorers, c.masks);
      failed := UpdateAll(i.clusters, lists, ListOf(i, c.masks), f);
    }
  }

  // ---------------------------------------------------------------------------------------------
  // What a reconcile achieves
  // ---------------------------------------------------------------------------------------------

  lemma HeldByFreshWork(list: seq<Summary>)
    ensures ScanFor([ConfigMap(list)], list).Same?
  {
  }

  /** Clusters the loop is not given keep their work. */
  lemma {:induction false} OtherWorksKept(st: State, clusters: seq<string>, list: string -> seq<Summary>, f: Faults,
                                          c: string)
    requires c !in clusters
    ensures var st1 := UpdateWorks(st, clusters, list, f).0;
            (c in st1.works <==> c in st.works) && (c in st.works ==> st1.works[c] == st.works[c])
    decreases |clusters|
  {
    if clusters != [] {
      OtherWorksKept(UpdateWork(st, clusters[0], list(clusters[0]), f).0, clusters[1..], list, f, c);
    }
  }

  /** No cluster's work is unreadable before the current list is found in it. */
  predicate AllReadable(st: State, clusters: seq<string>, list: string -> seq<Summary>, f: Faults) {
    forall c :: c in clusters ==> Readable(st.works, c, list(c), f)
  }

  predicate Readable(works: map<string, seq<Manifest>>, c: string, list: seq<Summary>, f: Faults) {
    c !in f.getWork && c in works ==> !ScanFor(works[c], list).Unreadable?
  }

  /** When no write fails, the loop fails exactly when a work it can read is unreadable. */
  lemma {:induction false} LoopFailsIff(st: State, clusters: seq<string>, list: string -> seq<Summary>, f: Faults)
    requires f.writeWork == {}
    requires forall i, j :: 0 <= i < j < |clusters| ==> clusters[i] != clusters[j]
    ensures UpdateWorks(st, clusters, list, f).1 <==> !AllReadable(st, clusters, list, f)
    decreases |clusters|
  {
    if clusters != [] {
      var c, rest := clusters[0], clusters[1..];
      var (st1, failed) := UpdateWork(st, c, list(c), f);
      assert clusters == [c] + rest;
      assert failed <==> !Readable(st.works, c, list(c), f);
      forall d | d in rest
        ensures Readable(st1.works, d, list(d), f) <==> Readable(st.works, d, list(d), f)
      {
        assert d != c;
      }
      LoopFailsIff(st1, rest, list, f);
    }
  }

  /** When the loop succeeds, a work holds its list exactly when it could be read or held the list before. */
  lemma {:induction false} LoopHoldsIff(st: State, clusters: seq<string>, list: string -> seq<Summary>, f: Faults,
                                        c: string)
    requires forall i, j :: 0 <= i < j < |clusters| ==> clusters[i] != clusters[j]
    requires !UpdateWorks(st, clusters, list, f).1 && c in clusters
    ensures Holds(UpdateWorks(st, clusters, list, f).0.works, c, list(c))
            <==> c !in f.getWork || Holds(st.works, c, list(c))
    decreases |clusters|
  {
    var st1 := UpdateWork(st, clusters[0], list(clusters[0]), f).0;
    assert clusters == [clusters[0]] + clusters[1..];
    if c == clusters[0] {
      HeldByFreshWork(list(c));
      OtherWorksKept(st1, clusters[1..], list, f, c);
    } else {
      LoopHoldsIff(st1, clusters[1..], list, f, c);
    }
  }

  /** A cluster whose work cannot be read keeps its old list, and the loop reports success. */
  lemma UnreadableClusterIsSkipped(c: string, wanted: seq<Summary>, stored: seq<Summary>)
    requires wanted != stored
    ensures var st := State(None, map[c := [ConfigMap(stored)]], 0);
            var (st1, failed) := UpdateWorks(st, [c], (x: string) => wanted, NO_FAULTS.(getWork := {c}));
            !failed && st1 == st && !Holds(st1.works, c, wanted)
  {
    var st := State(None, map[c := [ConfigMap(stored)]], 0);
    assert [c][1..] == [] && [ConfigMap(stored)][1..] == [];
    assert ScanFor([ConfigMap(stored)], wanted) == ScanFor([], wanted);
    assert UpdateWork(st, c, wanted, NO_FAULTS.(getWork := {c})) == (st, false);
  }

  /** A loop over works that all hold their list writes nothing. */
  lemma {:induction false} LoopIdle(st: State, clusters: seq<string>, list: string -> seq<Summary>)
    requires forall c :: c in clusters ==> Holds(st.works, c, list(c))
    ensures UpdateWorks(st, clusters, list, NO_FAULTS) == (st, false)
    decreases |clusters|
  {
    if clusters != [] {
      assert clusters[0] in clusters && UpdateWork(st, clusters[0], list(clusters[0]), NO_FAULTS) == (st, false);
      LoopIdle(st, clusters[1..], list);
    }
  }

  /** A fault-free reconcile of a live configuration succeeds exactly when every existing work is readable; then every
      cluster's work holds its list, and a second reconcile writes nothing. */
  lemma ReconcileSettles(st: State, i: Inputs)
    requires st.config.Some? && !st.config.value.deleting
    requires forall j, k :: 0 <= j < k < |i.clusters| ==> i.clusters[j] != i.clusters[k]
    ensures var list := ListOf(i, st.config.value.masks);
            var (st1, failed) := Reconcile(st, i, NO_FAULTS);
            && (failed <==> !AllReadable(st, i.clusters, list, NO_FAULTS))
            && (!failed ==>
                  && (forall c :: c in i.clusters ==> Holds(st1.works, c, list(c)))
                  && Reconcile(st1, i, NO_FAULTS) == (st1, false))
  {
    var list := ListOf(i, st.config.value.masks);
    var st0 := WithFinalizer(st);
    var (st1, failed) := Reconcile(st, i, NO_FAULTS);
    LoopFailsIff(st0, i.clusters, list, NO_FAULTS);
    ConfigKept(st0, i.clusters, list, NO_FAULTS);
    if !failed {
      forall c | c in i.clusters ensures Holds(st1.works, c, list(c)) {
        LoopHoldsIff(st0, i.clusters, list, NO_FAULTS, c);
      }
      LoopIdle(st1, i.clusters, list);
    }
  }

  lemma {:induction false} ConfigKept(st: State, clusters: seq<string>, list: string -> seq<Summary>, f: Faults)
    ensures UpdateWorks(st, clusters, list, f).0.config == st.config
    decreases |clusters|
  {
    if clusters != [] {
      ConfigKept(UpdateWork(st, clusters[0], list(clusters[0]), f).0, clusters[1..], list, f);
    }
  }

  /** After the deletion loop exactly the works that could not be read or deleted are left. */
  lemma {:induction false} DeleteLoopOutcome(st: State, clusters: seq<string>, f: Faults, c: string)
    ensures c in DeleteWorks(st, clusters, f).works <==>
              c in st.works && (c in clusters ==> c in f.getWork || c in f.deleteWork)
    ensures DeleteWorks(st, clusters, f).config == st.config
    decreases |clusters|
  {
    if clusters != [] {
      DeleteLoopOutcome(DeleteWork(st, clusters[0], f), clusters[1..], f, c);
    }
  }

  /** A deleted configuration loses its finalizer even when works stay behind. */
  lemma DeletionOutcome(st: State, i: Inputs, f: Faults, c: string)
    requires st.config.Some? && st.config.value.deleting && !f.getConfig && !f.listClusters && !f.removeFinalizer
    requires st.config.value.finalizer || !f.addFinalizer
    requires c in i.clusters
    ensures var (st1, failed) := Reconcile(st, i, f);
            && !failed && (st1.config.Some? ==> !st1.config.value.finalizer)
            && (c in st1.works <==> c in st.works && (c in f.getWork || c in f.deleteWork))
  {
    DeleteLoopOutcome(WithFinalizer(st), i.clusters, f, c);
  }

  // ---------------------------------------------------------------------------------------------
  // What one reconcile leaves, call by call
  // ---------------------------------------------------------------------------------------------

  /** One cluster's work: created if it is missing, replaced by the list alone if that is not there, and left alone when
      it is, or the work cannot be read or decoded; a write that fails changes nothing. */
  lemma UpdateWorkLeaves(st: State, c: string, list: seq<Summary>, f: Faults)
    ensures var (st1, failed) := UpdateWork(st, c, list, f);
            var readable := c !in f.getWork;
            var due := readable && (c in st.works ==> ScanFor(st.works[c], list).Different?);
            && (failed <==> || (due && c in f.writeWork)
                            || (readable && c in st.works && ScanFor(st.works[c], list).Unreadable?))
            && st1 == if due && c !in f.writeWork
                      then State(st.config, st.works[c := [ConfigMap(list)]], st.writes + 1) else st
  {
  }

  /** The singleton's finalizer: a live configuration has it afterwards, unless the write fails, which fails the
      reconcile and changes nothing; a deleted one loses it after the works, and goes with its last finalizer. */
  lemma FinalizerLeaves(st: State, i: Inputs, f: Faults)
    requires st.config.Some? && !f.getConfig
    ensures var config := st.config.value;
            var (st1, failed) := Reconcile(st, i, f);
            if !config.finalizer && f.addFinalizer then failed && st1 == st
            else if !config.deleting then st1.config == Some(config.(finalizer := true))
            else if f.listClusters || f.removeFinalizer then failed && st1.config == Some(config.(finalizer := true))
            else !failed && st1.config == if config.otherFinalizers then Some(config.(finalizer := false)) else None
  {
    ConfigKept(WithFinalizer(st), i.clusters, ListOf(i, st.config.value.masks), f);
    if st.config.value.deleting {
      DeleteLoopOutcome(WithFinalizer(st), i.clusters, f, "");
    }
  }

  /** A reconcile that cannot read what it needs fails before any work is touched; one that finds no configuration does
      nothing. */
  lemma ReconcileNeedsInputs(st: State, i: Inputs, f: Faults)
    ensures var (st1, failed) := Reconcile(st, i, f);
            && (f.getConfig ==> failed && st1 == st)
            && (!f.getConfig && st.config.None? ==> !failed && st1 == st)
            && (!f.getConfig && st.config.Some? && (f.listClusters || (f.listScorers && !st.config.value.deleting)) ==>
                  failed && st1.works == st.works)
  {
  }
}
