/** The optimization request as a whole: from its parameters and the loaded resources to placements and bindings, or to
    the exception it raises. The solver may return any feasible point. */
module PlacementService {
  import opened DimensionName
  import opened Keys
  import opened LinearProgram
  import opened PlacementOptimizer
  import opened PlacementTables
  import opened PreferenceScores
  import opened Wrappers

  datatype Inputs = Inputs(
    params: seq<ClusterParam>,
    policies: map<string, PolicyInfo>,
    workloads: seq<string>,
    workloadInfo: map<string, WorkloadInfo>,
    scores: map<string, seq<Item>>,
    format: string)

  datatype Exception = MissingKey(error: KeyError) | BadScore(read: ReadError)

  // ---------------------------------------------------------------------------------------------
  // What the inputs must hold
  // ---------------------------------------------------------------------------------------------

  ghost predicate PoliciesKnown(x: Inputs) {
    forall k, n :: k in x.params && n in k.policies ==> n in x.policies
  }

  ghost predicate WorkloadsKnown(x: Inputs) {
    forall n :: n in x.workloads ==> n in x.workloadInfo
  }

  ghost predicate IsCluster(x: Inputs, c: string) { exists k :: k in x.params && k.name == c }

  ghost predicate IsDevice(x: Inputs, d: string) {
    exists k, n :: k in x.params && n in k.policies && n in x.policies && x.policies[n].device == d
  }

  ghost predicate IsApp(x: Inputs, a: string) {
    exists n :: n in x.workloads && n in x.workloadInfo && x.workloadInfo[n].app == a
  }

  /** Every cluster has a score resource whose item names the reader can use. */
  ghost predicate ScoresReadable(x: Inputs)
    requires PlainPattern(Compile(x.format))
  {
    forall c :: IsCluster(x, c) ==>
      && c in x.scores
      && forall k :: 0 <= k < |x.scores[c]| ==> ReadName(x.format, x.scores[c][k].name) != BadDimension
  }

  ghost predicate HasScore(x: Inputs, a: string, c: string, d: string)
    requires PlainPattern(Compile(x.format))
  {
    c in x.scores && exists k :: 0 <= k < |x.scores[c]| && ReadName(x.format, x.scores[c][k].name) == Dimension(a, d)
  }

  /** Every app has a score on every cluster for every device. */
  ghost predicate ScoresCover(x: Inputs)
    requires PlainPattern(Compile(x.format))
  {
    forall a, c, d :: IsApp(x, a) && IsCluster(x, c) && IsDevice(x, d) ==> HasScore(x, a, c, d)
  }

  /** The request gets as far as a solved program. */
  ghost predicate Solvable(x: Inputs)
    requires PlainPattern(Compile(x.format))
  {
    PoliciesKnown(x) && WorkloadsKnown(x) && ScoresReadable(x) && ScoresCover(x)
  }

  /** The tables of a request: the problem, and the policies and placements to emit. */
  datatype Tables = Tables(problem: Problem, policyOf: map<(string, string), string>, placementOf: map<string, string>)

  ghost function SupplyOf(t: Tables): Supply {
    Supply(PlacementTables.Elems(t.problem.clusters), PlacementTables.Elems(t.problem.devices), t.problem.capacity,
           t.policyOf)
  }

  ghost function DemandOf(t: Tables): Demand {
    Demand(PlacementTables.Elems(t.problem.apps), t.problem.request, t.placementOf)
  }

  /** The lists of the problem are those of the inputs, and the policy tables hold the last offers. */
  ghost predicate FollowsOffers(t: Tables, x: Inputs) {
    && PlacementOptimizer.WellFormed(t.problem)
    && (forall c :: c in t.problem.clusters <==> IsCluster(x, c))
    && (forall d :: d in t.problem.devices <==> IsDevice(x, d))
    && (forall a :: a in t.problem.apps <==> IsApp(x, a))
    && SupplyAgrees(SupplyOf(t), x.params, x.policies)
  }

  /** So do requests and placements with the last listed workloads, and preferences with the last read scores. */
  ghost predicate Follows(t: Tables, x: Inputs)
    requires PlainPattern(Compile(x.format))
  {
    && FollowsOffers(t, x)
    && DemandAgrees(DemandOf(t), x.workloads, x.workloadInfo)
    && forall c :: c in t.problem.clusters ==>
         c in x.scores && ClusterAgrees(t.problem.preference, c, x.scores[c], x.format)
  }

  /** What is emitted at a point. */
  ghost predicate EmittedAt(t: Tables, point: set<Var>, namespace: string, hash: string, out: Output) {
    && FollowsChoices(ChosenPairs(t.problem.clusters, t.problem.devices, point), t.policyOf, namespace, hash,
                      out.policyPlacements, out.bindings)
    && FollowsPlacements(PlacedPairs(t.problem.apps, t.problem.clusters, point), t.placementOf, namespace,
                         out.workloads)
  }

  // ---------------------------------------------------------------------------------------------
  // The request
  // ---------------------------------------------------------------------------------------------

  method ListSet(s: set<string>) returns (order: seq<string>)
    ensures NoDup(order) && forall n :: n in order <==> n in s
  {
    order := [];
    var left := s;
    while left != {}
      invariant left <= s && NoDup(order)
      invariant forall n :: n in order <==> n in s && n !in left
      decreases left
    {
      var n :| n in left;
      order, left := order + [n], left - {n};
    }
  }

  lemma CoverIff(x: Inputs, p: Problem)
    requires PlainPattern(Compile(x.format)) && ScoresReadable(x)
    requires forall c :: c in p.clusters <==> IsCluster(x, c)
    requires forall d :: d in p.devices <==> IsDevice(x, d)
    requires forall a :: a in p.apps <==> IsApp(x, a)
    requires forall c :: c in p.clusters ==> ClusterAgrees(p.preference, c, x.scores[c], x.format)
    ensures ScoresComplete(p) <==> ScoresCover(x)
  {
    forall a, c, d | c in p.clusters
      ensures (a, c, d) in p.preference <==> HasScore(x, a, c, d)
    {
      PreferenceIffScore(x, p, a, c, d);
    }
  }

  lemma PreferenceIffScore(x: Inputs, p: Problem, a: string, c: string, d: string)
    requires PlainPattern(Compile(x.format)) && c in x.scores
    requires ClusterAgrees(p.preference, c, x.scores[c], x.format)
    ensures (a, c, d) in p.preference <==> HasScore(x, a, c, d)
  {
    if (a, c, d) in p.preference {
      var i :| LastRead(x.scores[c], x.format, a, d, i) && p.preference[(a, c, d)] == x.scores[c][i].value;
    }
  }

  lemma SameTables(s: Supply, s1: Supply, x: Inputs)
    requires s.capacity == s1.capacity && s.policyOf == s1.policyOf && SupplyAgrees(s1, x.params, x.policies)
    ensures SupplyAgrees(s, x.params, x.policies)
  {
    forall key | key in s.policyOf
      ensures exists i :: HoldsLastOffer(s, x.params, x.policies, key, i)
    {
      var i :| HoldsLastOffer(s1, x.params, x.policies, key, i);
      assert HoldsLast(s, x.params[i].policies, x.policies, key);
      assert HoldsLastOffer(s, x.params, x.policies, key, i);
    }
  }

  lemma AppsOfInputs(x: Inputs, d: Demand)
    requires DemandAgrees(d, x.workloads, x.workloadInfo)
    ensures forall a :: a in d.apps <==> IsApp(x, a)
  {
    forall a | a in d.apps
      ensures IsApp(x, a)
    {
      var i :| LastListed(x.workloads, x.workloadInfo, WorkloadInfo(a, d.request[a], d.placementOf[a]), i);
      assert x.workloads[i] in x.workloads;
    }
  }

  lemma LoadedTablesFollow(x: Inputs, t: Tables, supply: Supply, demand: Demand)
    requires PlainPattern(Compile(x.format)) && ScoresReadable(x)
    requires SupplyAgrees(supply, x.params, x.policies) && DemandAgrees(demand, x.workloads, x.workloadInfo)
    requires NoDup(t.problem.apps) && NoDup(t.problem.clusters) && NoDup(t.problem.devices)
    requires forall c :: c in t.problem.clusters <==> IsCluster(x, c)
    requires forall d :: d in t.problem.devices <==> IsDevice(x, d)
    requires forall a :: a in t.problem.apps <==> a in demand.apps
    requires t.problem.capacity == supply.capacity && t.policyOf == supply.policyOf
    requires t.problem.request == demand.request && t.placementOf == demand.placementOf
    requires forall c :: c in t.problem.clusters ==> ClusterAgrees(t.problem.preference, c, x.scores[c], x.format)
    ensures ScoresComplete(t.problem) <==> ScoresCover(x)
    ensures ScoresComplete(t.problem) ==> Follows(t, x)
    ensures forall a :: a in t.problem.apps ==> a in t.placementOf
  {
    AppsOfInputs(x, demand);
    CoverIff(x, t.problem);
    SameTables(SupplyOf(t), supply, x);
    assert DemandOf(t).apps == demand.apps;
  }

  /** One request. It raises exactly when the inputs are not solvable, or the point the solver returns chooses a device
      that no policy listed for the cluster supplies. */
  method PerformOptimization(x: Inputs, solver: Problem -> set<Var>, namespace: string, hash: string)
    returns (r: Result<Output, Exception>, ghost t: Tables)
    requires PlainPattern(Compile(x.format))
    requires forall q :: PlacementOptimizer.WellFormed(q) ==> solver(q) <= Vars(q) && Feasible(Rows(q), solver(q))
    ensures Solvable(x) ==> Follows(t, x)
    ensures r.Success? <==> Solvable(x) && Emits(t.problem, solver(t.problem), t.policyOf)
    ensures r.Success? ==> EmittedAt(t, solver(t.problem), namespace, hash, r.value)
  {
    t := Tables(Problem([], [], [], map[], map[], map[]), map[], map[]);
    var supply := LoadClusters(x.params, x.policies);
    if supply.Failure? {
      return Failure(MissingKey(supply.error)), t;
    }
    var demand := LoadWorkloads(x.workloads, x.workloadInfo);
    if demand.Failure? {
      return Failure(MissingKey(demand.error)), t;
    }
    var clusters := ListSet(supply.value.clusters);
    var devices := ListSet(supply.value.devices);
    var apps := ListSet(demand.value.apps);
    var prefs := LoadPreferences(clusters, x.scores, x.format);
    if prefs.Failure? {
      return Failure(BadScore(prefs.error)), t;
    }
    var q := Problem(apps, clusters, devices, demand.value.request, supply.value.capacity, prefs.value);
    t := Tables(q, supply.value.policyOf, demand.value.placementOf);
    LoadedTablesFollow(x, t, supply.value, demand.value);
    var program := BuildProgram(q);
    if program.Failure? {
      return Failure(MissingKey(program.error)), t;
    }
    var out := Emit(q, solver(q), supply.value.policyOf, demand.value.placementOf, namespace, hash);
    if out.Failure? {
      return Failure(MissingKey(out.error)), t;
    }
    r := Success(out.value);
  }

  /** Every cluster has a policy for every device that any cluster has one for. */
  ghost predicate AllOffered(x: Inputs) {
    forall c, d :: IsCluster(x, c) && IsDevice(x, d) ==> Offers(x.params, x.policies, (c, d))
  }

  /** From the inputs alone: no solver makes a solvable request raise exactly when everything is offered. */
  lemma NeverRaisesIff(x: Inputs, t: Tables)
    requires FollowsOffers(t, x)
    ensures (forall point :: point <= Vars(t.problem) && Feasible(Rows(t.problem), point) ==>
               Emits(t.problem, point, t.policyOf))
            <==> AllOffered(x)
  {
    var p := t.problem;
    EveryPointEmitsIff(p, t.policyOf);
    assert forall c, d :: (c, d) in t.policyOf <==> Offers(x.params, x.policies, (c, d));
    assert (forall c, d :: c in p.clusters && d in p.devices ==> (c, d) in t.policyOf) <==> AllOffered(x);
  }

  // ---------------------------------------------------------------------------------------------
  // What a request promises
  // ---------------------------------------------------------------------------------------------

  /** The workload entry that decides the request and the placement of an app. */
  ghost predicate Requests(x: Inputs, a: string, amount: int, placement: string) {
    exists i :: LastListed(x.workloads, x.workloadInfo, WorkloadInfo(a, amount, placement), i)
  }

  /** Binding `k` is the only one on the placement of the cluster. */
  ghost predicate OnlyBinding(out: Output, c: string, hash: string, k: int) {
    && 0 <= k < |out.bindings|
    && forall j :: 0 <= j < |out.bindings| ==> (out.bindings[j].placement == PlacementName(c, hash) <==> j == k)
  }

  /** And its policy is listed for the cluster and supplies at least the load. */
  ghost predicate Supplied(x: Inputs, out: Output, c: string, hash: string, load: int, k: int) {
    && OnlyBinding(out, c, hash, k)
    && out.bindings[k].policy in x.policies && PlacementTables.Listed(x.params, c, out.bindings[k].policy)
    && load <= x.policies[out.bindings[k].policy].amount
  }

  lemma RequestOf(x: Inputs, t: Tables, a: string)
    requires PlainPattern(Compile(x.format)) && Follows(t, x) && a in t.problem.apps
    ensures a in t.placementOf && Requests(x, a, t.problem.request[a], t.placementOf[a])
  {
    assert a in DemandOf(t).apps;
  }

  lemma RequestsArePositive(x: Inputs, t: Tables)
    requires PlainPattern(Compile(x.format)) && Follows(t, x)
    requires forall n :: n in x.workloads ==> n in x.workloadInfo && x.workloadInfo[n].amount > 0
    ensures forall a :: a in t.problem.apps ==> t.problem.request[a] > 0
  {
    forall a | a in t.problem.apps
      ensures t.problem.request[a] > 0
    {
      RequestOf(x, t, a);
      var i :| LastListed(x.workloads, x.workloadInfo, WorkloadInfo(a, t.problem.request[a], t.placementOf[a]), i);
      assert x.workloads[i] in x.workloads;
    }
  }

  lemma PlacedAt(p: Problem, point: set<Var>, w: nat)
    requires PlacementOptimizer.WellFormed(p) && point <= Vars(p) && Feasible(Rows(p), point)
    requires w < |PlacedPairs(p.apps, p.clusters, point)|
    ensures var pair, s := PlacedPairs(p.apps, p.clusters, point)[w], Decode(p, point);
            && ValidAssignment(p, s) && pair.0 in p.apps && X(pair.0, pair.1) in point
            && pair.0 in s.host && s.host[pair.0] == pair.1
  {
    var placed := PlacedPairs(p.apps, p.clusters, point);
    PlacedMembers(p.apps, p.clusters, point);
    assert (placed[w].0, placed[w].1) in placed;
    DecodeIsValid(p, point);
    FeasibleMeansAdmissible(p, point);
    DecodeMembers(p, point);
  }

  lemma ChosenAt(p: Problem, point: set<Var>, k: nat)
    requires PlacementOptimizer.WellFormed(p) && point <= Vars(p) && Feasible(Rows(p), point)
    requires k < |ChosenPairs(p.clusters, p.devices, point)|
    ensures var pair, s := ChosenPairs(p.clusters, p.devices, point)[k], Decode(p, point);
            pair.0 in s.device && s.device[pair.0] == pair.1
  {
    var chosen := ChosenPairs(p.clusters, p.devices, point);
    ChosenMembers(p.clusters, p.devices, point);
    assert (chosen[k].0, chosen[k].1) in chosen;
    FeasibleMeansAdmissible(p, point);
    DecodeMembers(p, point);
  }

  lemma SuppliedAt(x: Inputs, t: Tables, point: set<Var>, namespace: string, hash: string, out: Output, a: string,
                   c: string, k: nat)
    requires FollowsOffers(t, x) && forall e :: e in t.problem.apps ==> t.problem.request[e] > 0
    requires point <= Vars(t.problem) && Feasible(Rows(t.problem), point)
    requires EmittedAt(t, point, namespace, hash, out)
    requires ValidAssignment(t.problem, Decode(t.problem, point))
    requires a in Decode(t.problem, point).host && Decode(t.problem, point).host[a] == c
    requires k < |out.bindings| && out.policyPlacements[k].cluster == c
    ensures out.bindings[k].policy in x.policies && PlacementTables.Listed(x.params, c, out.bindings[k].policy)
    ensures Load(t.problem, Decode(t.problem, point), t.problem.apps, c) <= x.policies[out.bindings[k].policy].amount
  {
    ChosenAt(t.problem, point, k);
    HostingClusterIsSupplied(t.problem, Decode(t.problem, point), SupplyOf(t), x.params, x.policies, a);
  }

  /** An emitted workload placement is the last listed one of an app that the point places on its cluster. */
  lemma OutputIsRequested(x: Inputs, t: Tables, point: set<Var>, namespace: string, hash: string, out: Output, w: nat)
    requires PlainPattern(Compile(x.format)) && Follows(t, x)
    requires point <= Vars(t.problem) && Feasible(Rows(t.problem), point)
    requires EmittedAt(t, point, namespace, hash, out) && w < |out.workloads|
    ensures exists a :: && a in t.problem.apps && X(a, out.workloads[w].cluster) in point
                        && Requests(x, a, t.problem.request[a], out.workloads[w].name)
  {
    var a := PlacedPairs(t.problem.apps, t.problem.clusters, point)[w].0;
    PlacedAt(t.problem, point, w);
    RequestOf(x, t, a);
  }

  lemma BindingOf(t: Tables, point: set<Var>, namespace: string, hash: string, out: Output, w: nat) returns (k: nat)
    requires PlacementOptimizer.WellFormed(t.problem)
    requires point <= Vars(t.problem) && Feasible(Rows(t.problem), point)
    requires EmittedAt(t, point, namespace, hash, out) && w < |out.workloads|
    ensures OnlyBinding(out, out.workloads[w].cluster, hash, k) && |out.policyPlacements| == |out.bindings|
    ensures out.policyPlacements[k].cluster == out.workloads[w].cluster
  {
    EachWorkloadHasOneBinding(t.problem, point, t.policyOf, t.placementOf, namespace, hash, out, w);
    k :| && 0 <= k < |out.bindings| && out.policyPlacements[k].cluster == out.workloads[w].cluster
         && forall j :: 0 <= j < |out.bindings| ==>
              (out.bindings[j].placement == PlacementName(out.workloads[w].cluster, hash) <==> j == k);
  }

  /** The names of what is emitted are distinct, and each binding names the placement emitted with it. */
  lemma OutputNamesDiffer(t: Tables, point: set<Var>, namespace: string, hash: string, out: Output)
    requires PlacementOptimizer.WellFormed(t.problem)
    requires point <= Vars(t.problem) && Feasible(Rows(t.problem), point)
    requires EmittedAt(t, point, namespace, hash, out)
    ensures |out.policyPlacements| == |out.bindings|
    ensures forall i, j :: 0 <= i < j < |out.bindings| ==>
              && out.bindings[i].name != out.bindings[j].name
              && out.policyPlacements[i].name != out.policyPlacements[j].name
    ensures forall i :: 0 <= i < |out.bindings| ==> out.bindings[i].placement == out.policyPlacements[i].name
  {
    EmittedNamesDiffer(t.problem, point, t.policyOf, namespace, hash, out.policyPlacements, out.bindings);
  }

  /** With positive requests, the only binding on its cluster's placement is of a policy listed for the cluster that
      supplies all that is placed there. */
  lemma OutputIsSupplied(x: Inputs, t: Tables, point: set<Var>, namespace: string, hash: string, out: Output, w: nat)
    requires PlainPattern(Compile(x.format)) && Follows(t, x)
    requires point <= Vars(t.problem) && Feasible(Rows(t.problem), point)
    requires EmittedAt(t, point, namespace, hash, out) && w < |out.workloads|
    requires forall n :: n in x.workloads ==> n in x.workloadInfo && x.workloadInfo[n].amount > 0
    ensures var p, c := t.problem, out.workloads[w].cluster;
            exists k :: Supplied(x, out, c, hash, Load(p, Decode(p, point), p.apps, c), k)
  {
    var p := t.problem;
    var a, c := PlacedPairs(p.apps, p.clusters, point)[w].0, PlacedPairs(p.apps, p.clusters, point)[w].1;
    PlacedAt(p, point, w);
    RequestsArePositive(x, t);
    var k := BindingOf(t, point, namespace, hash, out, w);
    SuppliedAt(x, t, point, namespace, hash, out, a, c, k);
    assert Supplied(x, out, c, hash, Load(p, Decode(p, point), p.apps, c), k);
  }
}
