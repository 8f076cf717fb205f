/** The spoke agent: one scoring loop per configured score name, and the gauge series those loops export.
    Every event (one configuration update, one label-and-gauge section of a scoring) is atomic.
    A character of a string is one byte of the agent's strings. */
module ScoringAgent {
  import opened Text

  // ---------------------------------------------------------------------------------------------
  // Configuration
  // ---------------------------------------------------------------------------------------------

  datatype AuthRef = AuthRef(secret: string, key: string)

  /** The parts of a scorer summary the agent looks at; `endpoint` stands for what a scoring loop calls. */
  datatype Summary = Summary(scoreName: string, sourceAuth: AuthRef, scoringAuth: AuthRef, endpoint: string)

  type Secrets = map<string, map<string, string>>

  datatype Fetch = NotConfigured | Token(token: string) | FetchFailed

  function FetchAuth(secrets: Secrets, ref: AuthRef): Fetch {
    if ref.secret == "" || ref.key == "" then NotConfigured
    else if ref.secret in secrets && ref.key in secrets[ref.secret] then Token(secrets[ref.secret][ref.key])
    else FetchFailed
  }

  /** A reference without a name or key needs no secret; any other needs that key of that secret, and gives its
      value. */
  lemma FetchIs(secrets: Secrets, ref: AuthRef)
    ensures var f := FetchAuth(secrets, ref);
            var configured := ref.secret != "" && ref.key != "";
            && (f.NotConfigured? <==> !configured)
            && (f.FetchFailed? <==> configured && (ref.secret in secrets ==> ref.key !in secrets[ref.secret]))
            && (forall t :: f == Token(t) ==>
                  && configured && ref.secret in secrets && ref.key in secrets[ref.secret]
                  && secrets[ref.secret][ref.key] == t)
  {
  }

  predicate AuthOk(s: Summary, secrets: Secrets) {
    !FetchAuth(secrets, s.sourceAuth).FetchFailed? && !FetchAuth(secrets, s.scoringAuth).FetchFailed?
  }

  function Remember(auth: map<string, string>, name: string, f: Fetch): map<string, string> {
    if f.Token? then auth[name := f.token] else auth
  }

  /** A summary together with the secrets its fetches see. */
  datatype Entry = Entry(summary: Summary, secrets: Secrets)

  datatype ConfigData = NoSummaries | InvalidJson | Summaries(entries: seq<Entry>)

  // ---------------------------------------------------------------------------------------------
  // State
  // ---------------------------------------------------------------------------------------------

  datatype Worker = Worker(context: nat, summary: Summary)

  /** `live` holds the uncancelled scoring contexts with the summary their loop was started with. */
  datatype State = State(
    workers: map<string, Worker>,
    live: map<nat, Summary>,
    nextContext: nat,
    sourceAuth: map<string, string>,
    scoringAuth: map<string, string>,
    previous: map<string, set<string>>,
    gauge: map<seq<string>, real>)

  const INITIAL: State := State(map[], map[], 0, map[], map[], map[], map[])

  const LABELS: nat := 9
  const SCORE_NAME: nat := 8
  const LABEL_MAX_LENGTH: nat := 256

  predicate IsSeriesOf(v: seq<string>, name: string) {
    |v| == LABELS && v[SCORE_NAME] == name
  }

  /** The exported series of one score name. */
  function SeriesOf(st: State, name: string): map<seq<string>, real> {
    map v | v in st.gauge && IsSeriesOf(v, name) :: st.gauge[v]
  }

  // ---------------------------------------------------------------------------------------------
  // A configuration update
  // ---------------------------------------------------------------------------------------------

  function StartOrRefresh(st: State, s: Summary): State {
    if s.scoreName in st.workers then
      st.(workers := st.workers[s.scoreName := st.workers[s.scoreName].(summary := s)])
    else
      st.(workers := st.workers[s.scoreName := Worker(st.nextContext, s)],
          live := st.live[st.nextContext := s],
          nextContext := st.nextContext + 1)
  }

  function Admit(st: State, active: set<string>, e: Entry): (State, set<string>) {
    var s := e.summary;
    var source := FetchAuth(e.secrets, s.sourceAuth);
    if source.FetchFailed? then (st, active - {s.scoreName})
    else
      var st1 := st.(sourceAuth := Remember(st.sourceAuth, s.scoreName, source));
      var scoring := FetchAuth(e.secrets, s.scoringAuth);
      if scoring.FetchFailed? then (st1, active - {s.scoreName})
      else
        (StartOrRefresh(st1.(scoringAuth := Remember(st1.scoringAuth, s.scoreName, scoring)), s),
         active + {s.scoreName})
  }

  function AdmitAll(st: State, active: set<string>, entries: seq<Entry>): (State, set<string>) {
    if entries == [] then (st, active)
    else
      var (st1, active1) := AdmitAll(st, active, entries[..|entries| - 1]);
      Admit(st1, active1, entries[|entries| - 1])
  }

  function Contexts(workers: map<string, Worker>, names: set<string>): set<nat> {
    set n | n in names && n in workers :: workers[n].context
  }

  function DropSeries(gauge: map<seq<string>, real>, names: set<string>): map<seq<string>, real> {
    map v | v in gauge && !(|v| == LABELS && v[SCORE_NAME] in names) :: gauge[v]
  }

  /** Cancels the contexts of the named workers and drops the workers and every series of their names. */
  function Stop(st: State, names: set<string>): State {
    st.(workers := st.workers - names,
        live := st.live - Contexts(st.workers, names),
        gauge := DropSeries(st.gauge, names))
  }

  function Update(st: State, data: ConfigData): State {
    if !data.Summaries? then st
    else
      var (st1, active) := AdmitAll(st, {}, data.entries);
      Stop(st1, st1.workers.Keys - active)
  }

  // ---------------------------------------------------------------------------------------------
  // A scoring
  // ---------------------------------------------------------------------------------------------

  datatype ScoringResult = ScoringResult(metric: map<string, string>, score: real)

  function GetValidString(m: map<string, string>, key: string, truncate: bool): (val: string)
    ensures key in m ==> val <= m[key] && |val| == if truncate && |m[key]| > LABEL_MAX_LENGTH then LABEL_MAX_LENGTH
                                                   else |m[key]|
    ensures key !in m ==> val == ""
  {
    if key in m then
      if truncate && |m[key]| > LABEL_MAX_LENGTH then m[key][..LABEL_MAX_LENGTH] else m[key]
    else ""
  }

  function LabelVector(cluster: string, r: ScoringResult, name: string): seq<string> {
    [cluster,
     GetValidString(r.metric, "node", true),
     GetValidString(r.metric, "device", true),
     GetValidString(r.metric, "namespace", true),
     GetValidString(r.metric, "app", true),
     GetValidString(r.metric, "pod", true),
     GetValidString(r.metric, "container", true),
     GetValidString(r.metric, "meta", true),
     name]
  }

  /** The placeholder table of a result; its values are not cut. */
  function Placeholders(cluster: string, r: ScoringResult, name: string): map<string, string> {
    map["cluster" := cluster,
        "node" := GetValidString(r.metric, "node", false),
        "device" := GetValidString(r.metric, "device", false),
        "namespace" := GetValidString(r.metric, "namespace", false),
        "app" := GetValidString(r.metric, "app", false),
        "pod" := GetValidString(r.metric, "pod", false),
        "container" := GetValidString(r.metric, "container", false),
        "meta" := GetValidString(r.metric, "meta", false),
        "scoreName" := name]
  }

  /** The labels of the gauge, in the order it is declared with; `scoreName` is exported as score_name. */
  const LABEL_NAMES := ["cluster", "node", "device", "namespace", "app", "pod", "container", "meta", "scoreName"]

  /** What a result says of a label: the cluster and the score name are those of the loop, any other is its metric's. */
  function LabelOf(cluster: string, r: ScoringResult, name: string, key: string): string {
    if key == "cluster" then cluster
    else if key == "scoreName" then name
    else if key in r.metric then r.metric[key]
    else ""
  }

  lemma LabelNamesDiffer()
    ensures forall i, j :: 0 <= i < j < |LABEL_NAMES| ==> LABEL_NAMES[i] != LABEL_NAMES[j]
  {
    assert forall i :: 0 <= i < |LABEL_NAMES| ==>
             LABEL_NAMES[i][0] == ['c', 'n', 'd', 'n', 'a', 'p', 'c', 'm', 's'][i];
    assert "cluster"[1] != "container"[1] && "node"[1] != "namespace"[1];
  }

  /** The vector holds each label at its place in the gauge, cut to 256 bytes if it comes from the metric. */
  lemma LabelsInPlace(cluster: string, r: ScoringResult, name: string)
    ensures |LabelVector(cluster, r, name)| == |LABEL_NAMES| == LABELS && LABEL_NAMES[SCORE_NAME] == "scoreName"
    ensures forall i :: 0 <= i < LABELS ==>
              var l := LabelOf(cluster, r, name, LABEL_NAMES[i]);
              LabelVector(cluster, r, name)[i]
              == if 0 < i < SCORE_NAME && |l| > 256 then l[..256] else l
  {
    LabelNamesDiffer();
    var v := LabelVector(cluster, r, name);
    assert forall i :: 0 < i < SCORE_NAME ==>
             LABEL_NAMES[i] != LABEL_NAMES[0] && LABEL_NAMES[i] != LABEL_NAMES[SCORE_NAME];
    assert forall i :: 0 < i < SCORE_NAME ==> v[i] == GetValidString(r.metric, LABEL_NAMES[i], true);
  }

  lemma TableAt(cluster: string, r: ScoringResult, name: string, i: int)
    requires 0 <= i < LABELS
    ensures LABEL_NAMES[i] in Placeholders(cluster, r, name)
    ensures Placeholders(cluster, r, name)[LABEL_NAMES[i]]
            == if i == 0 then cluster else if i == SCORE_NAME then name
               else GetValidString(r.metric, LABEL_NAMES[i], false)
  {
    LabelNamesDiffer();
    assert forall j :: i < j < LABELS ==> LABEL_NAMES[i] != LABEL_NAMES[j];
  }

  /** The table holds each label under its own name, and not cut. */
  lemma LabelsInTable(cluster: string, r: ScoringResult, name: string)
    ensures Placeholders(cluster, r, name).Keys == set n | n in LABEL_NAMES
    ensures forall n :: n in LABEL_NAMES ==> Placeholders(cluster, r, name)[n] == LabelOf(cluster, r, name, n)
  {
    forall n | n in LABEL_NAMES
      ensures n in Placeholders(cluster, r, name)
      ensures Placeholders(cluster, r, name)[n] == LabelOf(cluster, r, name, n)
    {
      var i :| 0 <= i < LABELS && LABEL_NAMES[i] == n;
      TableAt(cluster, r, name, i);
      LabelNamesDiffer();
    }
  }

  const SEMICOLON := ";"

  function NonEmpty(labels: seq<string>): seq<string> {
    if labels == [] then []
    else NonEmpty(labels[..|labels| - 1]) + if labels[|labels| - 1] == "" then [] else [labels[|labels| - 1]]
  }

  /** The key that a result's placeholders and score are kept under. */
  function AggregateLabels(labels: seq<string>): string { Join(NonEmpty(labels), SEMICOLON) }

  function AggregateOf(cluster: string, r: ScoringResult, name: string): string {
    AggregateLabels(LabelVector(cluster, r, name))
  }

  function SetSeries(gauge: map<seq<string>, real>, cluster: string, rs: seq<ScoringResult>, name: string)
    : map<seq<string>, real>
  {
    if rs == [] then gauge
    else
      var last := rs[|rs| - 1];
      SetSeries(gauge, cluster, rs[..|rs| - 1], name)[LabelVector(cluster, last, name) := last.score]
  }

  function Vectors(cluster: string, rs: seq<ScoringResult>, name: string): set<seq<string>> {
    set r | r in rs :: LabelVector(cluster, r, name)
  }

  function LabelKeys(cluster: string, rs: seq<ScoringResult>, name: string): set<string> {
    set v | v in Vectors(cluster, rs, name) :: Join(v, BARS)
  }

  function Previous(st: State, name: string): set<string> {
    if name in st.previous then st.previous[name] else {}
  }

  function Decoded(keys: set<string>): set<seq<string>> {
    set k | k in keys :: Split(k, BARS)
  }

  function Score(st: State, cluster: string, name: string, rs: seq<ScoringResult>): State {
    var current := LabelKeys(cluster, rs, name);
    st.(gauge := SetSeries(st.gauge, cluster, rs, name) - Decoded(Previous(st, name) - current),
        previous := st.previous[name := current])
  }

  // ---------------------------------------------------------------------------------------------
  // The controller object
  // ---------------------------------------------------------------------------------------------

  class AgentController {
    const clusterName: string
    var scoringWorkers: map<string, Worker>
    var live: map<nat, Summary>
    var nextContext: nat
    var sourceAuth: map<string, string>
    var scoringAuth: map<string, string>
    var previousLabelSets: map<string, set<string>>
    var gauge: map<seq<string>, real>

    function View(): State
      reads this
    {
      State(scoringWorkers, live, nextContext, sourceAuth, scoringAuth, previousLabelSets, gauge)
    }

    constructor (clusterName: string)
      ensures this.clusterName == clusterName && View() == INITIAL
    {
      this.clusterName := clusterName;
      scoringWorkers, live, nextContext := map[], map[], 0;
      sourceAuth, scoringAuth := map[], map[];
      previousLabelSets, gauge := map[], map[];
    }

    method HandleConfigMapUpdate(data: ConfigData)
      modifies this
      ensures View() == Update(old(View()), data)
    {
      if !data.Summaries? {
        return;
      }
      var active: set<string> := {};
      ghost var start := View();
      for i := 0 to |data.entries|
        invariant (View(), active) == AdmitAll(start, {}, data.entries[..i])
      {
        assert data.entries[..i + 1][..i] == data.entries[..i];
        active := AdmitOne(data.entries[i], active);
      }
      assert data.entries[..|data.entries|] == data.entries;
      StopInactive(active);
    }

    /** The body of the loop over the summaries. */
    method AdmitOne(e: Entry, wasActive: set<string>) returns (active: set<string>)
      modifies this`scoringWorkers, this`live, this`nextContext, this`sourceAuth, this`scoringAuth
      ensures (View(), active) == Admit(old(View()), wasActive, e)
    {
      var s := e.summary;
      active := wasActive + {s.scoreName};
      assert active - {s.scoreName} == wasActive - {s.scoreName};
      var source := FetchAuth(e.secrets, s.sourceAuth);
      if source.FetchFailed? {
        return active - {s.scoreName};
      }
      sourceAuth := Remember(sourceAuth, s.scoreName, source);
      var scoring := FetchAuth(e.secrets, s.scoringAuth);
      if scoring.FetchFailed? {
        return active - {s.scoreName};
      }
      scoringAuth := Remember(scoringAuth, s.scoreName, scoring);
      if s.scoreName !in scoringWorkers {
        scoringWorkers := scoringWorkers[s.scoreName := Worker(nextContext, s)];
        live := live[nextContext := s];
        nextContext := nextContext + 1;
      } else {
        scoringWorkers := scoringWorkers[s.scoreName := scoringWorkers[s.scoreName].(summary := s)];
      }
    }

    method StopInactive(active: set<string>)
      modifies this`scoringWorkers, this`live, this`gauge
      ensures View() == Stop(old(View()), old(scoringWorkers).Keys - active)
    {
      var workersToStop: set<string> := {};
      var left := scoringWorkers.Keys;
      ghost var workers, contexts := scoringWorkers, live;
      while left != {}
        invariant left <= workers.Keys
        invariant workersToStop == workers.Keys - left - active
        invariant scoringWorkers == workers - workersToStop
        invariant live == contexts - Contexts(workers, workersToStop)
        invariant gauge == old(gauge)
        decreases left
      {
        var name :| name in left;
        if name !in active {
          assert Contexts(workers, workersToStop + {name})
                 == Contexts(workers, workersToStop) + {workers[name].context};
          live := live - {scoringWorkers[name].context};
          workersToStop := workersToStop + {name};
          scoringWorkers := scoringWorkers - {name};
        }
        left := left - {name};
      }
      DeleteMetrics(workersToStop);
      assert workersToStop == workers.Keys - active;
    }

    method DeleteMetrics(names: set<string>)
      modifies this`gauge
      ensures gauge == DropSeries(old(gauge), names)
    {
      var left := names;
      while left != {}
        invariant left <= names
        invariant gauge == DropSeries(old(gauge), names - left)
        decreases left
      {
        var name :| name in left;
        gauge := DropSeries(gauge, {name});
        left := left - {name};
      }
      assert names - {} == names;
    }

    /** The label and gauge section of a scoring. */
    method PerformScoring(name: string, results: seq<ScoringResult>)
      modifies this`gauge, this`previousLabelSets
      ensures View() == Score(old(View()), clusterName, name, results)
    {
      var currentLabels := RecordResults(name, results);
      if name in previousLabelSets {
        RemoveSeries(previousLabelSets[name] - currentLabels);
      }
      previousLabelSets := previousLabelSets[name := currentLabels];
    }

    /** The loop over the results. */
    method RecordResults(name: string, results: seq<ScoringResult>) returns (currentLabels: set<string>)
      modifies this`gauge
      ensures gauge == SetSeries(old(gauge), clusterName, results, name)
      ensures currentLabels == LabelKeys(clusterName, results, name)
    {
      currentLabels := {};
      for i := 0 to |results|
        invariant gauge == SetSeries(old(gauge), clusterName, results[..i], name)
        invariant currentLabels == LabelKeys(clusterName, results[..i], name)
      {
        var labels := LabelVector(clusterName, results[i], name);
        assert results[..i + 1][..i] == results[..i];
        LabelKeysAppend(clusterName, results[..i], results[i], name);
        assert results[..i + 1] == results[..i] + [results[i]];
        gauge := gauge[labels := results[i].score];
        currentLabels := currentLabels + {Join(labels, BARS)};
      }
      assert results[..|results|] == results;
    }

    method RemoveSeries(stale: set<string>)
      modifies this`gauge
      ensures gauge == old(gauge) - Decoded(stale)
    {
      var left := stale;
      while left != {}
        invariant left <= stale
        invariant gauge == old(gauge) - Decoded(stale - left)
        decreases left
      {
        var labelStr :| labelStr in left;
        assert Decoded(stale - (left - {labelStr})) == Decoded(stale - left) + {Split(labelStr, BARS)};
        gauge := gauge - {Split(labelStr, BARS)};
        left := left - {labelStr};
      }
      assert stale - {} == stale;
    }
  }

  lemma LabelKeysAppend(cluster: string, rs: seq<ScoringResult>, r: ScoringResult, name: string)
    ensures LabelKeys(cluster, rs + [r], name)
            == LabelKeys(cluster, rs, name) + {Join(LabelVector(cluster, r, name), BARS)}
  {
    assert Vectors(cluster, rs + [r], name) == Vectors(cluster, rs, name) + {LabelVector(cluster, r, name)};
  }

  // ---------------------------------------------------------------------------------------------
  // Worker lifecycle
  // ---------------------------------------------------------------------------------------------

  /** Uncancelled contexts and workers are in bijection, by score name one way and by context the other. */
  ghost predicate Lifecycle(st: State) {
    && (forall n :: n in st.workers ==> Runs(st, st.workers[n].context, n))
    && (forall k :: k in st.live ==> Runs(st, k, st.live[k].scoreName))
  }

  /** Context `k` is the uncancelled context of the worker for score `n`. */
  ghost predicate Runs(st: State, k: nat, n: string) {
    && k < st.nextContext
    && n in st.workers && st.workers[n].context == k
    && k in st.live && st.live[k].scoreName == n
  }

  ghost predicate LastOk(entries: seq<Entry>, name: string) {
    exists i :: && 0 <= i < |entries| && entries[i].summary.scoreName == name
                && AuthOk(entries[i].summary, entries[i].secrets)
                && forall j :: i < j < |entries| ==> entries[j].summary.scoreName != name
  }

  lemma LastOkAppend(entries: seq<Entry>, e: Entry, name: string)
    ensures LastOk(entries + [e], name)
            <==> if e.summary.scoreName == name then AuthOk(e.summary, e.secrets) else LastOk(entries, name)
  {
    var all := entries + [e];
    assert all[|entries|] == e;
    if e.summary.scoreName != name && LastOk(entries, name) {
      var i :| && 0 <= i < |entries| && entries[i].summary.scoreName == name
               && AuthOk(entries[i].summary, entries[i].secrets)
               && forall j :: i < j < |entries| ==> entries[j].summary.scoreName != name;
      assert all[i] == entries[i];
    }
    if LastOk(all, name) {
      var i :| && 0 <= i < |all| && all[i].summary.scoreName == name
               && AuthOk(all[i].summary, all[i].secrets)
               && forall j :: i < j < |all| ==> all[j].summary.scoreName != name;
      if i < |entries| {
        assert forall j :: i < j < |entries| ==> all[j] == entries[j];
      }
    }
  }

  /** What starting loops keeps, from `st` to `st1`. */
  ghost predicate Grown(st: State, st1: State) {
    && st.workers.Keys <= st1.workers.Keys
    && (forall k :: k in st.live ==> k in st1.live && st1.live[k] == st.live[k])
    && (forall n :: n in st.workers ==> st1.workers[n].context == st.workers[n].context)
    && st1.gauge == st.gauge && st1.previous == st.previous
  }

  lemma RefreshFacts(st: State, s: Summary)
    requires Lifecycle(st) && s.scoreName in st.workers
    ensures Lifecycle(StartOrRefresh(st, s)) && Grown(st, StartOrRefresh(st, s))
  {
    var next := StartOrRefresh(st, s);
    assert next.live == st.live && next.nextContext == st.nextContext;
    forall k, n | Runs(st, k, n) ensures Runs(next, k, n) {
    }
    forall n | n in next.workers ensures Runs(next, next.workers[n].context, n) {
      assert Runs(st, st.workers[n].context, n);
    }
  }

  lemma FreshFacts(st: State, s: Summary)
    requires Lifecycle(st) && s.scoreName !in st.workers
    ensures Lifecycle(StartOrRefresh(st, s)) && Grown(st, StartOrRefresh(st, s))
  {
    var next := StartOrRefresh(st, s);
    forall k | k in st.live ensures k != st.nextContext {
      assert Runs(st, k, st.live[k].scoreName);
    }
    assert Runs(next, st.nextContext, s.scoreName);
    forall k, n | Runs(st, k, n) ensures Runs(next, k, n) {
    }
    forall n | n in next.workers ensures Runs(next, next.workers[n].context, n) {
      if n != s.scoreName {
        assert Runs(st, st.workers[n].context, n);
      }
    }
    forall k | k in next.live ensures Runs(next, k, next.live[k].scoreName) {
      if k != st.nextContext {
        assert Runs(st, k, st.live[k].scoreName);
      }
    }
  }

  lemma StartFacts(st: State, s: Summary)
    requires Lifecycle(st)
    ensures Lifecycle(StartOrRefresh(st, s)) && Grown(st, StartOrRefresh(st, s))
    ensures s.scoreName in StartOrRefresh(st, s).workers
  {
    if s.scoreName in st.workers {
      RefreshFacts(st, s);
    } else {
      FreshFacts(st, s);
    }
  }

  lemma AdmitFacts(st: State, active: set<string>, e: Entry)
    requires Lifecycle(st) && active <= st.workers.Keys
    ensures var (st1, active1) := Admit(st, active, e);
      && Lifecycle(st1) && Grown(st, st1) && active1 <= st1.workers.Keys
      && active1
         == if AuthOk(e.summary, e.secrets) then active + {e.summary.scoreName} else active - {e.summary.scoreName}
  {
    var s := e.summary;
    var source, scoring := FetchAuth(e.secrets, s.sourceAuth), FetchAuth(e.secrets, s.scoringAuth);
    if source.FetchFailed? {
      assert Admit(st, active, e) == (st, active - {s.scoreName});
    } else {
      var st1 := st.(sourceAuth := Remember(st.sourceAuth, s.scoreName, source));
      if scoring.FetchFailed? {
        assert Admit(st, active, e) == (st1, active - {s.scoreName});
      } else {
        var st2 := st1.(scoringAuth := Remember(st1.scoringAuth, s.scoreName, scoring));
        StartFacts(st2, s);
        assert Admit(st, active, e) == (StartOrRefresh(st2, s), active + {s.scoreName});
      }
    }
  }

  /** What the loop over the summaries establishes. */
  lemma {:induction false} AdmitAllFacts(st: State, entries: seq<Entry>)
    requires Lifecycle(st)
    ensures var (st1, active) := AdmitAll(st, {}, entries);
      && Lifecycle(st1) && Grown(st, st1) && active <= st1.workers.Keys
      && forall n :: n in active <==> LastOk(entries, n)
    decreases |entries|
  {
    if entries != [] {
      var init, e := entries[..|entries| - 1], entries[|entries| - 1];
      AdmitAllFacts(st, init);
      var (st1, active1) := AdmitAll(st, {}, init);
      AdmitFacts(st1, active1, e);
      assert entries == init + [e];
      forall n
        ensures LastOk(entries, n)
                <==> if e.summary.scoreName == n then AuthOk(e.summary, e.secrets) else LastOk(init, n)
      {
        LastOkAppend(init, e, n);
      }
    }
  }

  lemma ContextListed(workers: map<string, Worker>, names: set<string>, n: string)
    requires n in names && n in workers
    ensures workers[n].context in Contexts(workers, names)
  {
  }

  /** After an update with valid data the workers are exactly the names whose last summary could be authenticated,
      contexts and workers are again in bijection, and every loop that survives still runs what it was started with. */
  lemma UpdateLifecycle(st: State, data: ConfigData)
    requires Lifecycle(st)
    ensures Lifecycle(Update(st, data))
    ensures data.Summaries? ==> forall n :: n in Update(st, data).workers <==> LastOk(data.entries, n)
    ensures forall k :: k in st.live && k in Update(st, data).live ==> Update(st, data).live[k] == st.live[k]
    ensures forall n :: n in st.workers && n in Update(st, data).workers ==>
              Update(st, data).workers[n].context == st.workers[n].context
              && st.workers[n].context in Update(st, data).live
  {
    if data.Summaries? {
      AdmitAllFacts(st, data.entries);
      var (st1, active) := AdmitAll(st, {}, data.entries);
      StopFacts(st1, active);
    }
  }

  lemma StopFacts(st: State, active: set<string>)
    requires Lifecycle(st) && active <= st.workers.Keys
    ensures var next := Stop(st, st.workers.Keys - active);
      && Lifecycle(next)
      && next.workers.Keys == active
      && (forall n :: n in active ==> next.workers[n] == st.workers[n] && st.workers[n].context in next.live)
      && (forall k :: k in next.live ==> k in st.live && next.live[k] == st.live[k])
  {
    var stopped := st.workers.Keys - active;
    var next := Stop(st, stopped);
    forall n | n in active ensures Runs(next, next.workers[n].context, n) {
      assert Runs(st, st.workers[n].context, n);
      forall m | m in stopped ensures st.workers[m].context != st.workers[n].context {
        assert Runs(st, st.workers[m].context, m);
      }
    }
    forall k | k in next.live ensures Runs(next, k, next.live[k].scoreName) {
      var n := st.live[k].scoreName;
      assert Runs(st, k, n);
      if n in stopped {
        ContextListed(st.workers, stopped, n);
      }
    }
  }

  /** Entry `i` is the last one of its score name. */
  predicate IsLast(entries: seq<Entry>, i: nat)
    requires i < |entries|
  {
    forall j :: i < j < |entries| ==> entries[j].summary.scoreName != entries[i].summary.scoreName
  }

  /** The stored tokens of the entry's score are those it fetched. */
  predicate HasTokens(st: State, e: Entry) {
    var source, scoring := FetchAuth(e.secrets, e.summary.sourceAuth), FetchAuth(e.secrets, e.summary.scoringAuth);
    var n := e.summary.scoreName;
    && (source.Token? ==> n in st.sourceAuth && st.sourceAuth[n] == source.token)
    && (!source.FetchFailed? && scoring.Token? ==> n in st.scoringAuth && st.scoringAuth[n] == scoring.token)
  }

  /** What admitting an entry does to the stored tokens. */
  lemma AdmitTokens(st: State, active: set<string>, e: Entry)
    ensures var st1 := Admit(st, active, e).0;
            var source := FetchAuth(e.secrets, e.summary.sourceAuth);
            var scoring := FetchAuth(e.secrets, e.summary.scoringAuth);
            && st1.sourceAuth == Remember(st.sourceAuth, e.summary.scoreName, source)
            && st1.scoringAuth == if source.FetchFailed? then st.scoringAuth
                                  else Remember(st.scoringAuth, e.summary.scoreName, scoring)
  {
  }

  lemma AdmitStoresTokens(st: State, active: set<string>, e: Entry)
    ensures HasTokens(Admit(st, active, e).0, e)
  {
    AdmitTokens(st, active, e);
  }

  lemma AdmitKeepsTokens(st: State, active: set<string>, e: Entry, other: Entry)
    requires other.summary.scoreName != e.summary.scoreName && HasTokens(st, other)
    ensures HasTokens(Admit(st, active, e).0, other)
  {
    AdmitTokens(st, active, e);
  }

  lemma {:induction false} AdmitAllAuth(st: State, entries: seq<Entry>, i: nat)
    requires i < |entries| && IsLast(entries, i)
    ensures HasTokens(AdmitAll(st, {}, entries).0, entries[i])
  {
    var rest := entries[..|entries| - 1];
    var (st1, active) := AdmitAll(st, {}, rest);
    if i < |rest| {
      assert entries[|entries| - 1].summary.scoreName != entries[i].summary.scoreName;
      assert IsLast(rest, i);
      AdmitAllAuth(st, rest, i);
      AdmitKeepsTokens(st1, active, entries[|entries| - 1], entries[i]);
    } else {
      AdmitStoresTokens(st1, active, entries[i]);
    }
  }

  /** After an update with valid data a scorer whose last summary fetched tokens uses exactly those tokens. */
  lemma UpdateAuth(st: State, entries: seq<Entry>, i: nat)
    requires i < |entries| && IsLast(entries, i) && AuthOk(entries[i].summary, entries[i].secrets)
    ensures var e := entries[i];
            var st1 := Update(st, Summaries(entries));
            var n := e.summary.scoreName;
            n in st1.workers && st1.workers[n].summary == e.summary && HasTokens(st1, e)
  {
    AdmitAllAuth(st, entries, i);
    AdmitAllWorker(st, entries, i);
  }

  lemma {:induction false} AdmitAllWorker(st: State, entries: seq<Entry>, i: nat)
    requires i < |entries| && IsLast(entries, i) && AuthOk(entries[i].summary, entries[i].secrets)
    ensures HasWorker(AdmitAll(st, {}, entries), entries[i].summary)
  {
    var rest := entries[..|entries| - 1];
    var (st1, active) := AdmitAll(st, {}, rest);
    if i < |rest| {
      assert entries[|entries| - 1].summary.scoreName != entries[i].summary.scoreName;
      assert IsLast(rest, i);
      AdmitAllWorker(st, rest, i);
      AdmitKeepsWorker(st1, active, entries[|entries| - 1], entries[i].summary);
    }
  }

  predicate HasWorker(admitted: (State, set<string>), s: Summary) {
    && s.scoreName in admitted.1 && s.scoreName in admitted.0.workers
    && admitted.0.workers[s.scoreName].summary == s
  }

  lemma AdmitKeepsWorker(st: State, active: set<string>, e: Entry, s: Summary)
    requires s.scoreName != e.summary.scoreName && HasWorker((st, active), s)
    ensures HasWorker(Admit(st, active, e), s)
  {
  }

  /** A name that loses its worker loses all its series; a name that keeps or gains one keeps its series. */
  lemma UpdateSeries(st: State, entries: seq<Entry>, name: string)
    requires Lifecycle(st)
    ensures name in st.workers && name !in Update(st, Summaries(entries)).workers ==>
              SeriesOf(Update(st, Summaries(entries)), name) == map[]
    ensures name in Update(st, Summaries(entries)).workers ==>
              SeriesOf(Update(st, Summaries(entries)), name) == SeriesOf(st, name)
    ensures Update(st, Summaries(entries)).previous == st.previous
  {
    AdmitAllFacts(st, entries);
  }

  // ---------------------------------------------------------------------------------------------
  // The gauge
  // ---------------------------------------------------------------------------------------------

  /** The score of the last result with a given label vector. */
  ghost predicate LastScore(cluster: string, rs: seq<ScoringResult>, name: string, v: seq<string>, score: real) {
    exists i :: && 0 <= i < |rs| && LabelVector(cluster, rs[i], name) == v && rs[i].score == score
                && forall j :: i < j < |rs| ==> LabelVector(cluster, rs[j], name) != v
  }

  lemma LastScoreAppend(cluster: string, rs: seq<ScoringResult>, r: ScoringResult, name: string, v: seq<string>,
                        score: real)
    requires if LabelVector(cluster, r, name) == v then r.score == score else LastScore(cluster, rs, name, v, score)
    ensures LastScore(cluster, rs + [r], name, v, score)
  {
    var all := rs + [r];
    if LabelVector(cluster, r, name) == v {
      assert all[|rs|] == r;
    } else {
      var i :| && 0 <= i < |rs| && LabelVector(cluster, rs[i], name) == v && rs[i].score == score
               && forall j :: i < j < |rs| ==> LabelVector(cluster, rs[j], name) != v;
      assert all[i] == rs[i];
    }
  }

  lemma VectorsAppend(cluster: string, rs: seq<ScoringResult>, r: ScoringResult, name: string)
    ensures Vectors(cluster, rs + [r], name) == Vectors(cluster, rs, name) + {LabelVector(cluster, r, name)}
  {
    forall v | v in Vectors(cluster, rs, name) + {LabelVector(cluster, r, name)}
      ensures v in Vectors(cluster, rs + [r], name)
    {
      if v in Vectors(cluster, rs, name) {
        var q :| q in rs && LabelVector(cluster, q, name) == v;
        assert q in rs + [r];
      } else {
        assert r in rs + [r];
      }
    }
  }

  /** One label vector after setting the series. */
  lemma {:induction false} SetSeriesAt(gauge: map<seq<string>, real>, cluster: string, rs: seq<ScoringResult>,
                                       name: string, v: seq<string>)
    ensures var g := SetSeries(gauge, cluster, rs, name);
      && (v in g <==> v in gauge || v in Vectors(cluster, rs, name))
      && (v in Vectors(cluster, rs, name) ==> LastScore(cluster, rs, name, v, g[v]))
      && (v in gauge && v !in Vectors(cluster, rs, name) ==> g[v] == gauge[v])
    decreases |rs|
  {
    if rs != [] {
      var init, r := rs[..|rs| - 1], rs[|rs| - 1];
      assert rs == init + [r];
      SetSeriesAt(gauge, cluster, init, name, v);
      VectorsAppend(cluster, init, r, name);
      if v in Vectors(cluster, rs, name) {
        LastScoreAppend(cluster, init, r, name, v, SetSeries(gauge, cluster, rs, name)[v]);
      }
    }
  }

  /** Setting the series: the step's vectors get their last score, all others are untouched. */
  lemma SetSeriesFacts(gauge: map<seq<string>, real>, cluster: string, rs: seq<ScoringResult>, name: string)
    ensures var g := SetSeries(gauge, cluster, rs, name);
      && g.Keys == gauge.Keys + Vectors(cluster, rs, name)
      && (forall v :: v in Vectors(cluster, rs, name) ==> LastScore(cluster, rs, name, v, g[v]))
      && (forall v :: v in gauge && v !in Vectors(cluster, rs, name) ==> g[v] == gauge[v])
  {
    forall v {
      SetSeriesAt(gauge, cluster, rs, name, v);
    }
  }

  /** Whatever the label values are, a scoring never deletes a series it has just set. */
  lemma CurrentSeriesSurvive(st: State, cluster: string, name: string, rs: seq<ScoringResult>, v: seq<string>)
    requires v in Vectors(cluster, rs, name)
    ensures v in Score(st, cluster, name, rs).gauge
    ensures LastScore(cluster, rs, name, v, Score(st, cluster, name, rs).gauge[v])
  {
    SetSeriesFacts(st.gauge, cluster, rs, name);
    var stale := Previous(st, name) - LabelKeys(cluster, rs, name);
    assert Join(v, BARS) in LabelKeys(cluster, rs, name);
    forall k | k in stale ensures Split(k, BARS) != v {
      JoinSplit(k);
    }
  }

  /** Every exported series is recorded, and every record decodes to a label vector of its score name. */
  ghost predicate GaugeRecorded(st: State) {
    && (forall v :: v in st.gauge ==> |v| == LABELS && Clean(v) && Join(v, BARS) in Previous(st, v[SCORE_NAME]))
    && (forall n, k :: n in st.previous && k in st.previous[n] ==>
          exists v :: IsSeriesOf(v, n) && Clean(v) && k == Join(v, BARS))
  }

  /** In particular the series of a name are contained in its decoded previous label set. */
  lemma SeriesAreDecoded(st: State, name: string)
    requires GaugeRecorded(st)
    ensures SeriesOf(st, name).Keys <= Decoded(Previous(st, name))
  {
    forall v | v in SeriesOf(st, name) ensures v in Decoded(Previous(st, name)) {
      SplitJoinIffClean(v);
    }
  }

  ghost predicate CleanResults(cluster: string, name: string, rs: seq<ScoringResult>) {
    forall v :: v in Vectors(cluster, rs, name) ==> Clean(v)
  }

  lemma RecordDecodes(st: State, name: string, k: string)
    requires GaugeRecorded(st) && k in Previous(st, name)
    ensures IsSeriesOf(Split(k, BARS), name) && Clean(Split(k, BARS)) && Join(Split(k, BARS), BARS) == k
  {
    var w :| IsSeriesOf(w, name) && Clean(w) && k == Join(w, BARS);
    SplitJoinIffClean(w);
  }

  /** Decoding the stale keys gives exactly the stale label vectors. */
  lemma StaleDecodes(st: State, name: string, stale: set<string>, v: seq<string>)
    requires GaugeRecorded(st) && stale <= Previous(st, name)
    ensures v in Decoded(stale) <==> IsSeriesOf(v, name) && Clean(v) && Join(v, BARS) in stale
  {
    forall k | k in stale && Split(k, BARS) == v ensures IsSeriesOf(v, name) && Clean(v) && Join(v, BARS) == k {
      RecordDecodes(st, name, k);
    }
    if v != [] {
      SplitJoinIffClean(v);
    }
  }

  lemma ScoreGauge(st: State, cluster: string, name: string, rs: seq<ScoringResult>, v: seq<string>)
    requires GaugeRecorded(st) && CleanResults(cluster, name, rs)
    ensures v in Score(st, cluster, name, rs).gauge <==>
              v in Vectors(cluster, rs, name) || (v in st.gauge && v[SCORE_NAME] != name)
  {
    var current := LabelKeys(cluster, rs, name);
    var stale := Previous(st, name) - current;
    SetSeriesFacts(st.gauge, cluster, rs, name);
    StaleDecodes(st, name, stale, v);
    if v in Vectors(cluster, rs, name) {
      assert Join(v, BARS) in current;
    } else if v in st.gauge && v[SCORE_NAME] == name && Join(v, BARS) in current {
      var w :| w in Vectors(cluster, rs, name) && Join(w, BARS) == Join(v, BARS);
      SplitJoinIffClean(v);
      SplitJoinIffClean(w);
    }
  }

  lemma VectorsAreSeries(cluster: string, rs: seq<ScoringResult>, name: string, v: seq<string>)
    requires v in Vectors(cluster, rs, name)
    ensures IsSeriesOf(v, name) && Join(v, BARS) in LabelKeys(cluster, rs, name)
  {
  }

  lemma ScoreKeepsRecord(st: State, cluster: string, name: string, rs: seq<ScoringResult>)
    requires GaugeRecorded(st) && CleanResults(cluster, name, rs)
    ensures GaugeRecorded(Score(st, cluster, name, rs))
  {
    var next := Score(st, cluster, name, rs);
    forall v | v in next.gauge ensures |v| == LABELS && Clean(v) && Join(v, BARS) in Previous(next, v[SCORE_NAME]) {
      ScoreGauge(st, cluster, name, rs, v);
      if v in Vectors(cluster, rs, name) {
        VectorsAreSeries(cluster, rs, name, v);
      }
    }
    forall n, k | n in next.previous && k in next.previous[n]
      ensures exists v :: IsSeriesOf(v, n) && Clean(v) && k == Join(v, BARS)
    {
      if n == name {
        var v :| v in Vectors(cluster, rs, name) && k == Join(v, BARS);
        VectorsAreSeries(cluster, rs, name, v);
      } else {
        assert n in st.previous && k in st.previous[n];
      }
    }
  }

  predicate SameAt(st: State, next: State, v: seq<string>) {
    (v in next.gauge <==> v in st.gauge) && (v in st.gauge ==> next.gauge[v] == st.gauge[v])
  }

  lemma SameSeries(st: State, next: State, name: string)
    requires forall v :: IsSeriesOf(v, name) ==> SameAt(st, next, v)
    ensures SeriesOf(next, name) == SeriesOf(st, name)
  {
  }

  lemma OtherSeriesUntouched(st: State, cluster: string, name: string, rs: seq<ScoringResult>, other: string,
                             v: seq<string>)
    requires GaugeRecorded(st) && CleanResults(cluster, name, rs) && other != name && IsSeriesOf(v, other)
    ensures SameAt(st, Score(st, cluster, name, rs), v)
  {
    SetSeriesFacts(st.gauge, cluster, rs, name);
    ScoreGauge(st, cluster, name, rs, v);
    if v in Vectors(cluster, rs, name) {
      VectorsAreSeries(cluster, rs, name, v);
    }
  }

  lemma OtherNamesUntouched(st: State, cluster: string, name: string, rs: seq<ScoringResult>, other: string)
    requires GaugeRecorded(st) && CleanResults(cluster, name, rs) && other != name
    ensures SeriesOf(Score(st, cluster, name, rs), other) == SeriesOf(st, other)
  {
    var next := Score(st, cluster, name, rs);
    forall v | IsSeriesOf(v, other)
      ensures SameAt(st, next, v)
    {
      OtherSeriesUntouched(st, cluster, name, rs, other, v);
    }
    SameSeries(st, next, other);
  }

  lemma ScoreVectors(st: State, cluster: string, name: string, rs: seq<ScoringResult>)
    requires GaugeRecorded(st) && CleanResults(cluster, name, rs)
    ensures SeriesOf(Score(st, cluster, name, rs), name).Keys == Vectors(cluster, rs, name)
  {
    var next := Score(st, cluster, name, rs);
    forall v ensures v in SeriesOf(next, name) <==> v in Vectors(cluster, rs, name) {
      ScoreGauge(st, cluster, name, rs, v);
      if v in Vectors(cluster, rs, name) {
        VectorsAreSeries(cluster, rs, name, v);
      }
    }
  }

  /** After a scoring with clean label values the series of its name are exactly the step's label vectors with their
      last scores, and the series of every other name are untouched. */
  lemma ScoreIsExact(st: State, cluster: string, name: string, rs: seq<ScoringResult>)
    requires GaugeRecorded(st) && CleanResults(cluster, name, rs)
    ensures GaugeRecorded(Score(st, cluster, name, rs))
    ensures SeriesOf(Score(st, cluster, name, rs), name).Keys == Vectors(cluster, rs, name)
    ensures forall v :: v in Vectors(cluster, rs, name) ==>
              LastScore(cluster, rs, name, v, SeriesOf(Score(st, cluster, name, rs), name)[v])
    ensures forall other :: other != name ==> SeriesOf(Score(st, cluster, name, rs), other) == SeriesOf(st, other)
  {
    ScoreKeepsRecord(st, cluster, name, rs);
    ScoreVectors(st, cluster, name, rs);
    var next := Score(st, cluster, name, rs);
    forall v | v in Vectors(cluster, rs, name) ensures LastScore(cluster, rs, name, v, SeriesOf(next, name)[v]) {
      CurrentSeriesSurvive(st, cluster, name, rs, v);
    }
    forall other | other != name ensures SeriesOf(next, other) == SeriesOf(st, other) {
      OtherNamesUntouched(st, cluster, name, rs, other);
    }
  }

  lemma UpdateKeepsRecord(st: State, data: ConfigData)
    requires GaugeRecorded(st) && Lifecycle(st)
    ensures GaugeRecorded(Update(st, data))
  {
    if data.Summaries? {
      AdmitAllFacts(st, data.entries);
    }
  }

  // ---------------------------------------------------------------------------------------------
  // Whole runs
  // ---------------------------------------------------------------------------------------------

  datatype Event = Updated(data: ConfigData) | Scored(name: string, results: seq<ScoringResult>)

  function Step(st: State, cluster: string, e: Event): State {
    match e
    case Updated(data) => Update(st, data)
    case Scored(name, rs) => Score(st, cluster, name, rs)
  }

  function Run(cluster: string, events: seq<Event>): State {
    if events == [] then INITIAL
    else Step(Run(cluster, events[..|events| - 1]), cluster, events[|events| - 1])
  }

  /** On every run contexts and workers are in bijection; with clean label values the gauge is always recorded. */
  lemma {:induction false} RunInvariant(cluster: string, events: seq<Event>)
    ensures Lifecycle(Run(cluster, events))
    ensures (forall i :: 0 <= i < |events| && events[i].Scored? ==>
               CleanResults(cluster, events[i].name, events[i].results)) ==>
              GaugeRecorded(Run(cluster, events))
    decreases |events|
  {
    if events != [] {
      var init, e := events[..|events| - 1], events[|events| - 1];
      RunInvariant(cluster, init);
      var st := Run(cluster, init);
      match e
      case Updated(data) =>
        UpdateLifecycle(st, data);
        if GaugeRecorded(st) {
          UpdateKeepsRecord(st, data);
        }
      case Scored(name, rs) =>
        if GaugeRecorded(st) && CleanResults(cluster, name, rs) {
          ScoreIsExact(st, cluster, name, rs);
        }
    }
  }

  /** The clean-label condition is exact: a series that is scored once and then not again disappears
      if and only if its label vector is clean. */
  lemma StaleSeriesRemovedIffClean(cluster: string, name: string, r: ScoringResult)
    ensures SeriesOf(Run(cluster, [Scored(name, [r]), Scored(name, [])]), name) == map[]
            <==> Clean(LabelVector(cluster, r, name))
  {
    var v := LabelVector(cluster, r, name);
    var events := [Scored(name, [r]), Scored(name, [])];
    assert events[..1] == [Scored(name, [r])];
    FirstScoring(cluster, name, r);
    var st, last := Run(cluster, events[..1]), Run(cluster, events);
    assert last == Score(st, cluster, name, []);
    assert LabelKeys(cluster, [], name) == {};
    assert Decoded({Join(v, BARS)} - {}) == {Split(Join(v, BARS), BARS)};
    assert last.gauge == map[v := r.score] - {Split(Join(v, BARS), BARS)};
    SplitJoinIffClean(v);
    if !Clean(v) {
      assert v in SeriesOf(last, name);
    }
  }

  lemma FirstScoring(cluster: string, name: string, r: ScoringResult)
    ensures var st, v := Run(cluster, [Scored(name, [r])]), LabelVector(cluster, r, name);
            st.gauge == map[v := r.score] && Previous(st, name) == {Join(v, BARS)}
  {
    var v := LabelVector(cluster, r, name);
    assert [r][..0] == [];
    assert Run(cluster, [Scored(name, [r])][..0]) == INITIAL;
    assert SetSeries(map[], cluster, [r], name) == map[v := r.score];
    assert Vectors(cluster, [r], name) == {v};
    assert LabelKeys(cluster, [r], name) == {Join(v, BARS)};
    assert Previous(INITIAL, name) == {} && Decoded({} - LabelKeys(cluster, [r], name)) == {};
  }

  /** An application called a||b: its series stays after the response that no longer has it. */
  lemma SeparatorInLabelKeepsSeries(cluster: string, name: string)
    ensures var r := ScoringResult(map["app" := "a||b"], 1.0);
            SeriesOf(Run(cluster, [Scored(name, [r]), Scored(name, [])]), name) != map[]
  {
    var r := ScoringResult(map["app" := "a||b"], 1.0);
    var v := LabelVector(cluster, r, name);
    assert v[4] == "a||b";
    assert Starts("a||b"[1..], BARS);
    StaleSeriesRemovedIffClean(cluster, name, r);
  }
}
