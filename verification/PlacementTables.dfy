/** The imperative ends of the optimizer: filling the tables, adding the rows in loops, and emitting
    placements and policy bindings from a solved point. */
module PlacementTables {
  import opened Keys
  import opened LinearProgram
  import opened PlacementOptimizer
  import opened Wrappers

  /** A lookup of a missing dictionary key, or of a policy or workload that was not loaded. */
  datatype KeyError = KeyError(key: string)

  // ---------------------------------------------------------------------------------------------
  // Input tables
  // ---------------------------------------------------------------------------------------------

  datatype PolicyInfo = PolicyInfo(device: string, amount: int)

  datatype ClusterParam = ClusterParam(name: string, policies: seq<string>)

  datatype Supply = Supply(
    clusters: set<string>,
    devices: set<string>,
    capacity: map<(string, string), int>,
    policyOf: map<(string, string), string>)

  /** Some listed policy supplies the device. */
  ghost predicate Supplies(ps: seq<string>, known: map<string, PolicyInfo>, d: string) {
    exists n :: n in ps && n in known && known[n].device == d
  }

  /** `j` is the last listed policy that supplies the device. */
  ghost predicate LastSupplier(ps: seq<string>, known: map<string, PolicyInfo>, d: string, j: int) {
    && 0 <= j < |ps| && ps[j] in known && known[ps[j]].device == d
    && forall k :: j < k < |ps| && ps[k] in known ==> known[ps[k]].device != d
  }

  /** The tables hold the last listed policy that supplies the device, and its amount. */
  ghost predicate HoldsLast(s: Supply, ps: seq<string>, known: map<string, PolicyInfo>, key: (string, string)) {
    && key in s.policyOf && key in s.capacity
    && exists j :: && LastSupplier(ps, known, key.1, j)
                   && s.policyOf[key] == ps[j] && s.capacity[key] == known[ps[j]].amount
  }

  ghost predicate SameAt(s: Supply, s0: Supply, key: (string, string)) {
    && (key in s.policyOf <==> key in s0.policyOf)
    && (key in s.policyOf && key in s.capacity && key in s0.capacity ==>
          s.policyOf[key] == s0.policyOf[key] && s.capacity[key] == s0.capacity[key])
  }

  /** `s` is `s0` with the policies of one cluster entered, the last one of each device winning. */
  ghost predicate Entered(s: Supply, s0: Supply, name: string, ps: seq<string>, known: map<string, PolicyInfo>) {
    && s.clusters == s0.clusters
    && s.devices == s0.devices + (set n | n in ps && n in known :: known[n].device)
    && s.capacity.Keys == s.policyOf.Keys
    && forall key: (string, string) ::
         if key.0 == name && Supplies(ps, known, key.1) then HoldsLast(s, ps, known, key) else SameAt(s, s0, key)
  }

  lemma EnterStep(s: Supply, s0: Supply, name: string, ps: seq<string>, n: string, known: map<string, PolicyInfo>)
    requires Entered(s, s0, name, ps, known) && n in known && s0.capacity.Keys == s0.policyOf.Keys
    ensures var key := (name, known[n].device);
            Entered(Supply(s.clusters, s.devices + {known[n].device},
                           s.capacity[key := known[n].amount], s.policyOf[key := n]),
                    s0, name, ps + [n], known)
  {
    var last := (name, known[n].device);
    var s1 := Supply(s.clusters, s.devices + {last.1}, s.capacity[last := known[n].amount], s.policyOf[last := n]);
    var all := ps + [n];
    assert forall m :: m in all <==> m in ps || m == n;
    forall key: (string, string)
      ensures if key.0 == name && Supplies(all, known, key.1) then HoldsLast(s1, all, known, key)
              else SameAt(s1, s0, key)
    {
      if key == last {
        assert n in all && LastSupplier(all, known, key.1, |ps|);
      } else if key.0 == name && Supplies(all, known, key.1) {
        assert Supplies(ps, known, key.1) && HoldsLast(s, ps, known, key);
        var j :| && LastSupplier(ps, known, key.1, j)
                 && s.policyOf[key] == ps[j] && s.capacity[key] == known[ps[j]].amount;
        assert all[j] == ps[j] && LastSupplier(all, known, key.1, j);
      } else {
        assert !(key.0 == name && Supplies(ps, known, key.1));
      }
    }
  }

  method LoadPolicies(start: Supply, name: string, ps: seq<string>, known: map<string, PolicyInfo>)
    returns (r: Result<Supply, KeyError>)
    requires start.capacity.Keys == start.policyOf.Keys
    ensures r.Success? <==> forall n :: n in ps ==> n in known
    ensures r.Success? ==> Entered(r.value, start, name, ps, known)
  {
    var s := start;
    for j := 0 to |ps|
      invariant Entered(s, start, name, ps[..j], known)
      invariant forall n :: n in ps[..j] ==> n in known
    {
      var n := ps[j];
      if n !in known {
        return Failure(KeyError(n));
      }
      assert ps[..j + 1] == ps[..j] + [n];
      EnterStep(s, start, name, ps[..j], n, known);
      var key := (name, known[n].device);
      s := Supply(s.clusters, s.devices + {known[n].device},
                  s.capacity[key := known[n].amount], s.policyOf[key := n]);
    }
    assert ps[..|ps|] == ps;
    r := Success(s);
  }

  /** A parameter entry of the cluster lists a policy that supplies the device. */
  ghost predicate Offers(params: seq<ClusterParam>, known: map<string, PolicyInfo>, key: (string, string)) {
    exists i :: 0 <= i < |params| && params[i].name == key.0 && Supplies(params[i].policies, known, key.1)
  }

  /** Entry `i` is the last one that offers the device for the cluster, and the tables hold what it offers. */
  ghost predicate HoldsLastOffer(s: Supply, params: seq<ClusterParam>, known: map<string, PolicyInfo>,
                                 key: (string, string), i: int)
  {
    && 0 <= i < |params| && params[i].name == key.0 && HoldsLast(s, params[i].policies, known, key)
    && forall k :: i < k < |params| && params[k].name == key.0 ==> !Supplies(params[k].policies, known, key.1)
  }

  /** The tables have an entry for exactly the (cluster, device) pairs on offer: the last offer of each. */
  ghost predicate SupplyAgrees(s: Supply, params: seq<ClusterParam>, known: map<string, PolicyInfo>) {
    && s.capacity.Keys == s.policyOf.Keys
    && forall key: (string, string) ::
         && (key in s.policyOf <==> Offers(params, known, key))
         && (key in s.policyOf ==> exists i :: HoldsLastOffer(s, params, known, key, i))
  }

  lemma AgreeStep(s: Supply, s1: Supply, params: seq<ClusterParam>, k: ClusterParam, known: map<string, PolicyInfo>)
    requires SupplyAgrees(s, params, known) && Entered(s1, s.(clusters := s1.clusters), k.name, k.policies, known)
    ensures SupplyAgrees(s1, params + [k], known)
  {
    var all := params + [k];
    assert all[|params|] == k && forall i :: 0 <= i < |params| ==> all[i] == params[i];
    forall key: (string, string)
      ensures key in s1.policyOf <==> Offers(all, known, key)
      ensures key in s1.policyOf ==> exists i :: HoldsLastOffer(s1, all, known, key, i)
    {
      if key.0 == k.name && Supplies(k.policies, known, key.1) {
        assert all[|params|].name == key.0;
        assert HoldsLastOffer(s1, all, known, key, |params|);
      } else {
        assert SameAt(s1, s.(clusters := s1.clusters), key);
        if key in s.policyOf {
          var i :| HoldsLastOffer(s, params, known, key, i);
          KeptOffer(s, s1, params, k, known, key, i);
        }
        if Offers(all, known, key) {
          var i :| 0 <= i < |all| && all[i].name == key.0 && Supplies(all[i].policies, known, key.1);
          assert i < |params| && params[i].name == key.0;
        }
      }
    }
  }

  lemma KeptOffer(s: Supply, s1: Supply, params: seq<ClusterParam>, k: ClusterParam, known: map<string, PolicyInfo>,
                  key: (string, string), i: int)
    requires HoldsLastOffer(s, params, known, key, i) && s1.capacity.Keys == s1.policyOf.Keys
    requires SameAt(s1, s.(clusters := s1.clusters), key)
    requires !(key.0 == k.name && Supplies(k.policies, known, key.1))
    ensures HoldsLastOffer(s1, params + [k], known, key, i)
    ensures 0 <= i < |params + [k]| && (params + [k])[i].name == key.0
            && Supplies((params + [k])[i].policies, known, key.1)
  {
    var all := params + [k];
    assert all[|params|] == k && all[i] == params[i];
    var ps := params[i].policies;
    var j :| LastSupplier(ps, known, key.1, j) && s.policyOf[key] == ps[j] && s.capacity[key] == known[ps[j]].amount;
    assert ps[j] in ps;
    assert HoldsLast(s1, ps, known, key);
  }

  /** The tables, or a KeyError exactly when some listed policy is unknown. */
  method LoadClusters(params: seq<ClusterParam>, known: map<string, PolicyInfo>) returns (r: Result<Supply, KeyError>)
    ensures r.Success? <==> forall k, n :: k in params && n in k.policies ==> n in known
    ensures r.Success? ==>
      && SupplyAgrees(r.value, params, known)
      && r.value.clusters == (set k | k in params :: k.name)
      && r.value.devices == (set k, n | k in params && n in k.policies && n in known :: known[n].device)
  {
    var s := Supply({}, {}, map[], map[]);
    for i := 0 to |params|
      invariant SupplyAgrees(s, params[..i], known)
      invariant forall k, n :: k in params[..i] && n in k.policies ==> n in known
      invariant s.clusters == (set k | k in params[..i] :: k.name)
      invariant s.devices == (set k, n | k in params[..i] && n in k.policies && n in known :: known[n].device)
    {
      var k := params[i];
      var step := LoadPolicies(s.(clusters := s.clusters + {k.name}), k.name, k.policies, known);
      if step.Failure? {
        assert k in params;
        return step;
      }
      assert params[..i + 1] == params[..i] + [k];
      AgreeStep(s, step.value, params[..i], k, known);
      s := step.value;
    }
    assert params[..|params|] == params;
    r := Success(s);
  }

  datatype WorkloadInfo = WorkloadInfo(app: string, amount: int, placement: string)

  datatype Demand = Demand(apps: set<string>, request: map<string, int>, placementOf: map<string, string>)

  ghost predicate LastListed(names: seq<string>, known: map<string, WorkloadInfo>, w: WorkloadInfo, i: int) {
    && 0 <= i < |names|
    && names[i] in known && known[names[i]] == w
    && forall j :: i < j < |names| ==> names[j] in known && known[names[j]].app != w.app
  }

  /** The last listed workload of an app decides its request and its placement. */
  ghost predicate DemandAgrees(d: Demand, names: seq<string>, known: map<string, WorkloadInfo>) {
    && d.apps == d.request.Keys == d.placementOf.Keys
    && (forall n :: n in names ==> n in known && known[n].app in d.apps)
    && forall a :: a in d.apps ==>
         exists i :: LastListed(names, known, WorkloadInfo(a, d.request[a], d.placementOf[a]), i)
  }

  method LoadWorkloads(names: seq<string>, known: map<string, WorkloadInfo>) returns (r: Result<Demand, KeyError>)
    ensures r.Success? <==> forall n :: n in names ==> n in known
    ensures r.Success? ==> DemandAgrees(r.value, names, known)
  {
    var d := Demand({}, map[], map[]);
    for i := 0 to |names|
      invariant DemandAgrees(d, names[..i], known)
    {
      if names[i] !in known {
        return Failure(KeyError(names[i]));
      }
      var w := known[names[i]];
      assert names[..i + 1] == names[..i] + [names[i]];
      LoadStep(d, names[..i], names[i], known);
      d := Demand(d.apps + {w.app}, d.request[w.app := w.amount], d.placementOf[w.app := w.placement]);
    }
    assert names[..|names|] == names;
    r := Success(d);
  }

  lemma LoadStep(d: Demand, names: seq<string>, n: string, known: map<string, WorkloadInfo>)
    requires DemandAgrees(d, names, known) && n in known
    ensures var w := known[n];
      DemandAgrees(Demand(d.apps + {w.app}, d.request[w.app := w.amount], d.placementOf[w.app := w.placement]),
                   names + [n], known)
  {
    var w := known[n];
    var e := Demand(d.apps + {w.app}, d.request[w.app := w.amount], d.placementOf[w.app := w.placement]);
    forall a | a in e.apps
      ensures exists i :: LastListed(names + [n], known, WorkloadInfo(a, e.request[a], e.placementOf[a]), i)
    {
      if a == w.app {
        assert LastListed(names + [n], known, WorkloadInfo(a, e.request[a], e.placementOf[a]), |names|);
      } else {
        var i :| LastListed(names, known, WorkloadInfo(a, d.request[a], d.placementOf[a]), i);
        assert LastListed(names + [n], known, WorkloadInfo(a, e.request[a], e.placementOf[a]), i);
      }
    }
  }

  // ---------------------------------------------------------------------------------------------
  // Building the program
  // ---------------------------------------------------------------------------------------------

  ghost function Elems<T>(s: seq<T>): set<T> { set x | x in s }

  lemma ElemsAppend<T>(s: seq<T>, x: T)
    ensures Elems(s + [x]) == Elems(s) + {x}
  {
  }

  method ExclusivityRows(p: Problem) returns (rows: seq<Row<Var>>)
    ensures Elems(rows) == DeviceRows(p) + ClusterRows(p)
  {
    rows := [];
    for i := 0 to |p.clusters|
      invariant Elems(rows) == set c | c in p.clusters[..i] :: OneDevice(p, c)
    {
      ElemsAppend(rows, OneDevice(p, p.clusters[i]));
      rows := rows + [OneDevice(p, p.clusters[i])];
      assert p.clusters[..i + 1] == p.clusters[..i] + [p.clusters[i]];
    }
    assert p.clusters[..|p.clusters|] == p.clusters;
    for i := 0 to |p.apps|
      invariant Elems(rows) == DeviceRows(p) + set a | a in p.apps[..i] :: OneCluster(p, a)
    {
      ElemsAppend(rows, OneCluster(p, p.apps[i]));
      rows := rows + [OneCluster(p, p.apps[i])];
      assert p.apps[..i + 1] == p.apps[..i] + [p.apps[i]];
    }
    assert p.apps[..|p.apps|] == p.apps;
  }

  method CapacityRows(p: Problem) returns (rows: seq<Row<Var>>)
    requires forall a :: a in p.apps ==> a in p.request
    ensures Elems(rows) == FitRows(p)
  {
    rows := [];
    for i := 0 to |p.clusters|
      invariant Elems(rows) == set c, d | c in p.clusters[..i] && d in p.devices :: Fits(p, c, d)
    {
      var c := p.clusters[i];
      ghost var before := Elems(rows);
      for j := 0 to |p.devices|
        invariant Elems(rows) == before + set d | d in p.devices[..j] :: Fits(p, c, d)
      {
        ElemsAppend(rows, Fits(p, c, p.devices[j]));
        rows := rows + [Fits(p, c, p.devices[j])];
        assert p.devices[..j + 1] == p.devices[..j] + [p.devices[j]];
      }
      assert p.devices[..|p.devices|] == p.devices;
      assert p.clusters[..i + 1] == p.clusters[..i] + [c];
    }
    assert p.clusters[..|p.clusters|] == p.clusters;
  }

  /** The rows linking z to x and y for one app. */
  ghost function AppLinks(a: string, cs: seq<string>, ds: seq<string>): set<Row<Var>> {
    (set c, d | c in cs && d in ds :: LinkX(a, c, d))
    + (set c, d | c in cs && d in ds :: LinkY(a, c, d))
    + (set c, d | c in cs && d in ds :: LinkBoth(a, c, d))
  }

  method PairLinks(a: string, c: string, ds: seq<string>) returns (rows: seq<Row<Var>>)
    ensures Elems(rows) == AppLinks(a, [c], ds)
  {
    rows := [];
    for k := 0 to |ds|
      invariant Elems(rows) == AppLinks(a, [c], ds[..k])
    {
      var d := ds[k];
      var three := [LinkX(a, c, d), LinkY(a, c, d), LinkBoth(a, c, d)];
      assert ds[..k + 1] == ds[..k] + [d];
      ghost var before := rows;
      rows := rows + three;
      assert Elems(rows) == Elems(before) + {LinkX(a, c, d), LinkY(a, c, d), LinkBoth(a, c, d)};
      PairLinksStep(a, c, ds[..k], d);
    }
    assert ds[..|ds|] == ds;
  }

  lemma PairLinksStep(a: string, c: string, ds: seq<string>, d: string)
    ensures AppLinks(a, [c], ds + [d]) == AppLinks(a, [c], ds) + {LinkX(a, c, d), LinkY(a, c, d), LinkBoth(a, c, d)}
  {
    assert d in ds + [d] && c in [c];
    assert forall e :: e in ds + [d] <==> e in ds || e == d;
  }

  lemma AppLinksStep(a: string, cs: seq<string>, c: string, ds: seq<string>)
    ensures AppLinks(a, cs + [c], ds) == AppLinks(a, cs, ds) + AppLinks(a, [c], ds)
  {
    assert forall e :: e in cs + [c] <==> e in cs || e in [c];
  }

  method LinkingRows(p: Problem) returns (rows: seq<Row<Var>>)
    ensures Elems(rows) == LinkRows(p)
  {
    rows := [];
    for i := 0 to |p.apps|
      invariant Elems(rows) == LinkRows(p.(apps := p.apps[..i]))
    {
      var a := p.apps[i];
      ghost var done := Elems(rows);
      for j := 0 to |p.clusters|
        invariant Elems(rows) == done + AppLinks(a, p.clusters[..j], p.devices)
      {
        var more := PairLinks(a, p.clusters[j], p.devices);
        assert Elems(rows + more) == Elems(rows) + Elems(more);
        assert p.clusters[..j + 1] == p.clusters[..j] + [p.clusters[j]];
        AppLinksStep(a, p.clusters[..j], p.clusters[j], p.devices);
        rows := rows + more;
      }
      assert p.clusters[..|p.clusters|] == p.clusters;
      assert p.apps[..i + 1] == p.apps[..i] + [a];
      LinkRowsStep(p, p.apps[..i], a);
    }
    assert p.(apps := p.apps[..|p.apps|]) == p;
  }

  lemma LinkRowsStep(p: Problem, apps: seq<string>, a: string)
    ensures LinkRows(p.(apps := apps + [a])) == LinkRows(p.(apps := apps)) + AppLinks(a, p.clusters, p.devices)
  {
    var q := p.(apps := apps + [a]);
    assert a in q.apps;
    assert forall e :: e in q.apps <==> e in apps || e == a;
  }

  method ConsistencyRows(p: Problem) returns (rows: seq<Row<Var>>)
    ensures Elems(rows) == SplitRows(p)
  {
    rows := [];
    for i := 0 to |p.apps|
      invariant Elems(rows) == set a, c | a in p.apps[..i] && c in p.clusters :: PlacementOptimizer.Split(p, a, c)
    {
      var a := p.apps[i];
      ghost var before := Elems(rows);
      for j := 0 to |p.clusters|
        invariant Elems(rows) == before + set c | c in p.clusters[..j] :: PlacementOptimizer.Split(p, a, c)
      {
        ElemsAppend(rows, PlacementOptimizer.Split(p, a, p.clusters[j]));
        rows := rows + [PlacementOptimizer.Split(p, a, p.clusters[j])];
        assert p.clusters[..j + 1] == p.clusters[..j] + [p.clusters[j]];
      }
      assert p.clusters[..|p.clusters|] == p.clusters;
      assert p.apps[..i + 1] == p.apps[..i] + [a];
    }
    assert p.apps[..|p.apps|] == p.apps;
  }

  lemma {:induction false} DeviceTermsAppend(p: Problem, a: string, c: string, ds: seq<string>, d: string)
    requires forall e :: e in ds + [d] ==> (a, c, e) in p.preference
    ensures d in ds + [d]
    ensures DeviceTerms(p, a, c, ds + [d]) == DeviceTerms(p, a, c, ds) + [Term(p.preference[(a, c, d)], Z(a, c, d))]
  {
    assert (ds + [d])[|ds|] == d;
    if ds == [] {
      assert ds + [d] == [d] && [d][1..] == [];
    } else {
      assert (ds + [d])[1..] == ds[1..] + [d];
      DeviceTermsAppend(p, a, c, ds[1..], d);
    }
  }

  lemma {:induction false} ClusterTermsAppend(p: Problem, a: string, cs: seq<string>, c: string)
    requires forall e, d :: e in cs + [c] && d in p.devices ==> (a, e, d) in p.preference
    ensures c in cs + [c]
    ensures ClusterTerms(p, a, cs + [c]) == ClusterTerms(p, a, cs) + DeviceTerms(p, a, c, p.devices)
  {
    assert (cs + [c])[|cs|] == c;
    if cs == [] {
      assert cs + [c] == [c] && [c][1..] == [];
    } else {
      assert (cs + [c])[1..] == cs[1..] + [c];
      ClusterTermsAppend(p, a, cs[1..], c);
    }
  }

  lemma {:induction false} ObjectiveTermsAppend(p: Problem, apps: seq<string>, a: string)
    requires forall e, c, d :: e in apps + [a] && c in p.clusters && d in p.devices ==> (e, c, d) in p.preference
    ensures a in apps + [a]
    ensures ObjectiveTerms(p, apps + [a]) == ObjectiveTerms(p, apps) + ClusterTerms(p, a, p.clusters)
  {
    assert (apps + [a])[|apps|] == a;
    if apps == [] {
      assert apps + [a] == [a] && [a][1..] == [];
    } else {
      assert (apps + [a])[1..] == apps[1..] + [a];
      ObjectiveTermsAppend(p, apps[1..], a);
    }
  }

  ghost predicate ScoresComplete(p: Problem) {
    forall a, c, d :: a in p.apps && c in p.clusters && d in p.devices ==> (a, c, d) in p.preference
  }

  method DeviceTermsLoop(p: Problem, a: string, c: string) returns (r: Result<seq<Term<Var>>, KeyError>)
    ensures r.Success? <==> forall d :: d in p.devices ==> (a, c, d) in p.preference
    ensures r.Success? ==> r.value == DeviceTerms(p, a, c, p.devices)
  {
    var terms := [];
    for k := 0 to |p.devices|
      invariant forall d :: d in p.devices[..k] ==> (a, c, d) in p.preference
      invariant terms == DeviceTerms(p, a, c, p.devices[..k])
    {
      var d := p.devices[k];
      if (a, c, d) !in p.preference {
        return Failure(KeyError(a));
      }
      assert p.devices[..k + 1] == p.devices[..k] + [d];
      DeviceTermsAppend(p, a, c, p.devices[..k], d);
      terms := terms + [Term(p.preference[(a, c, d)], Z(a, c, d))];
    }
    assert p.devices[..|p.devices|] == p.devices;
    r := Success(terms);
  }

  /** The objective: one term for every (app, cluster, device); a missing preference is a KeyError. */
  method ObjectiveLoop(p: Problem) returns (r: Result<seq<Term<Var>>, KeyError>)
    ensures r.Success? <==> ScoresComplete(p)
    ensures r.Success? ==> r.value == ObjectiveTerms(p, p.apps)
  {
    var terms := [];
    for i := 0 to |p.apps|
      invariant forall a, c, d :: a in p.apps[..i] && c in p.clusters && d in p.devices ==> (a, c, d) in p.preference
      invariant terms == ObjectiveTerms(p, p.apps[..i])
    {
      var a := p.apps[i];
      var mine := [];
      for j := 0 to |p.clusters|
        invariant forall c, d :: c in p.clusters[..j] && d in p.devices ==> (a, c, d) in p.preference
        invariant mine == ClusterTerms(p, a, p.clusters[..j])
      {
        var c := p.clusters[j];
        var more := DeviceTermsLoop(p, a, c);
        if more.Failure? {
          assert a in p.apps && c in p.clusters;
          return more;
        }
        assert p.clusters[..j + 1] == p.clusters[..j] + [c];
        ClusterTermsAppend(p, a, p.clusters[..j], c);
        mine := mine + more.value;
      }
      assert p.clusters[..|p.clusters|] == p.clusters;
      assert p.apps[..i + 1] == p.apps[..i] + [a];
      ObjectiveTermsAppend(p, p.apps[..i], a);
      terms := terms + mine;
    }
    assert p.apps[..|p.apps|] == p.apps;
    r := Success(terms);
  }

  datatype Program = Program(objective: seq<Term<Var>>, rows: seq<Row<Var>>)

  /** The whole program. Its feasible points are exactly the encodings of valid assignments
      and its objective is the total preference, for every iteration order of the three sets. */
  method BuildProgram(p: Problem) returns (r: Result<Program, KeyError>)
    requires NoDup(p.apps) && NoDup(p.clusters) && NoDup(p.devices)
    requires forall a :: a in p.apps ==> a in p.request
    ensures r.Success? <==> ScoresComplete(p)
    ensures r.Success? ==> forall s :: ValidAssignment(p, s) ==>
              && Feasible(Elems(r.value.rows), Encode(p, s))
              && Dot(r.value.objective, Encode(p, s)) == Preference(p, s, p.apps)
    ensures r.Success? ==> forall point :: point <= Vars(p) && Feasible(Elems(r.value.rows), point) ==>
              ValidAssignment(p, Decode(p, point)) && Encode(p, Decode(p, point)) == point
  {
    var obj := ObjectiveLoop(p);
    if obj.Failure? {
      return Failure(obj.error);
    }
    var r1 := ExclusivityRows(p);
    var r2 := CapacityRows(p);
    var r3 := LinkingRows(p);
    var r4 := ConsistencyRows(p);
    var rows := r1 + r2 + r3 + r4;
    assert Elems(rows) == Rows(p);
    r := Success(Program(obj.value, rows));
    forall s | ValidAssignment(p, s)
      ensures Feasible(Elems(rows), Encode(p, s)) && Dot(obj.value, Encode(p, s)) == Preference(p, s, p.apps)
    {
      EncodeIsFeasible(p, s);
      ObjectiveDot(p, s, p.apps);
    }
    forall point | point <= Vars(p) && Feasible(Elems(rows), point)
      ensures ValidAssignment(p, Decode(p, point)) && Encode(p, Decode(p, point)) == point
    {
      DecodeIsValid(p, point);
    }
  }

  // ---------------------------------------------------------------------------------------------
  // Emitting the result
  // ---------------------------------------------------------------------------------------------

  datatype PolicyPlacement = PolicyPlacement(name: string, namespace: string, cluster: string)

  datatype PolicyBinding = PolicyBinding(name: string, namespace: string, placement: string, policy: string)

  datatype WorkloadPlacement = WorkloadPlacement(name: string, namespace: string, cluster: string)

  datatype Output = Output(
    policyPlacements: seq<PolicyPlacement>,
    bindings: seq<PolicyBinding>,
    workloads: seq<WorkloadPlacement>)

  function PlacementName(c: string, hash: string): string { "placement-" + c + "-" + hash }

  function BindingName(c: string, hash: string): string { "binding-" + c + "-" + hash }

  function DevicePairs(c: string, ds: seq<string>, point: set<Var>): seq<(string, string)> {
    if ds == [] then []
    else (if Y(c, ds[0]) in point then [(c, ds[0])] else []) + DevicePairs(c, ds[1..], point)
  }

  /** The (cluster, device) choices in emission order. */
  function ChosenPairs(cs: seq<string>, ds: seq<string>, point: set<Var>): seq<(string, string)> {
    if cs == [] then [] else DevicePairs(cs[0], ds, point) + ChosenPairs(cs[1..], ds, point)
  }

  function HostPairs(a: string, cs: seq<string>, point: set<Var>): seq<(string, string)> {
    if cs == [] then []
    else (if X(a, cs[0]) in point then [(a, cs[0])] else []) + HostPairs(a, cs[1..], point)
  }

  /** The (app, cluster) placements in emission order. */
  function PlacedPairs(apps: seq<string>, cs: seq<string>, point: set<Var>): seq<(string, string)> {
    if apps == [] then [] else HostPairs(apps[0], cs, point) + PlacedPairs(apps[1..], cs, point)
  }

  lemma Regroup<T>(a: seq<T>, b: seq<T>, c: seq<T>)
    ensures (a + b) + c == a + (b + c)
  {
  }

  lemma {:induction false} DevicePairsAppend(c: string, ds: seq<string>, d: string, point: set<Var>)
    ensures DevicePairs(c, ds + [d], point) == DevicePairs(c, ds, point) + if Y(c, d) in point then [(c, d)] else []
  {
    if ds == [] {
      assert ds + [d] == [d] && [d][1..] == [];
    } else {
      assert (ds + [d])[1..] == ds[1..] + [d];
      DevicePairsAppend(c, ds[1..], d, point);
      Regroup(if Y(c, ds[0]) in point then [(c, ds[0])] else [], DevicePairs(c, ds[1..], point),
              if Y(c, d) in point then [(c, d)] else []);
    }
  }

  lemma {:induction false} ChosenPairsAppend(cs: seq<string>, c: string, ds: seq<string>, point: set<Var>)
    ensures ChosenPairs(cs + [c], ds, point) == ChosenPairs(cs, ds, point) + DevicePairs(c, ds, point)
  {
    if cs == [] {
      assert cs + [c] == [c] && [c][1..] == [];
    } else {
      assert (cs + [c])[1..] == cs[1..] + [c];
      ChosenPairsAppend(cs[1..], c, ds, point);
    }
  }

  lemma {:induction false} HostPairsAppend(a: string, cs: seq<string>, c: string, point: set<Var>)
    ensures HostPairs(a, cs + [c], point) == HostPairs(a, cs, point) + if X(a, c) in point then [(a, c)] else []
  {
    if cs == [] {
      assert cs + [c] == [c] && [c][1..] == [];
    } else {
      assert (cs + [c])[1..] == cs[1..] + [c];
      HostPairsAppend(a, cs[1..], c, point);
      Regroup(if X(a, cs[0]) in point then [(a, cs[0])] else [], HostPairs(a, cs[1..], point),
              if X(a, c) in point then [(a, c)] else []);
    }
  }

  lemma {:induction false} PlacedPairsAppend(apps: seq<string>, a: string, cs: seq<string>, point: set<Var>)
    ensures PlacedPairs(apps + [a], cs, point) == PlacedPairs(apps, cs, point) + HostPairs(a, cs, point)
  {
    if apps == [] {
      assert apps + [a] == [a] && [a][1..] == [];
    } else {
      assert (apps + [a])[1..] == apps[1..] + [a];
      PlacedPairsAppend(apps[1..], a, cs, point);
    }
  }

  /** The policy side of the output follows the choices one by one. */
  ghost predicate FollowsChoices(pairs: seq<(string, string)>, policyOf: map<(string, string), string>,
                                 namespace: string, hash: string,
                                 placements: seq<PolicyPlacement>, bindings: seq<PolicyBinding>)
  {
    && |placements| == |bindings| == |pairs|
    && forall i :: 0 <= i < |pairs| ==>
         && pairs[i] in policyOf
         && placements[i] == PolicyPlacement(PlacementName(pairs[i].0, hash), namespace, pairs[i].0)
         && bindings[i] == PolicyBinding(BindingName(pairs[i].0, hash), namespace, PlacementName(pairs[i].0, hash),
                                         policyOf[pairs[i]])
  }

  ghost predicate FollowsPlacements(pairs: seq<(string, string)>, placementOf: map<string, string>, namespace: string,
                                    workloads: seq<WorkloadPlacement>)
  {
    && |workloads| == |pairs|
    && forall i :: 0 <= i < |pairs| ==>
         && pairs[i].0 in placementOf
         && workloads[i] == WorkloadPlacement(placementOf[pairs[i].0], namespace, pairs[i].1)
  }

  lemma FollowsOneMore(pairs: seq<(string, string)>, policyOf: map<(string, string), string>, namespace: string,
                       hash: string, placements: seq<PolicyPlacement>, bindings: seq<PolicyBinding>,
                       pair: (string, string))
    requires FollowsChoices(pairs, policyOf, namespace, hash, placements, bindings) && pair in policyOf
    ensures FollowsChoices(pairs + [pair], policyOf, namespace, hash,
              placements + [PolicyPlacement(PlacementName(pair.0, hash), namespace, pair.0)],
              bindings + [PolicyBinding(BindingName(pair.0, hash), namespace, PlacementName(pair.0, hash),
                                        policyOf[pair])])
  {
  }

  lemma EmitStep(before: seq<(string, string)>, c: string, ds: seq<string>, d: string, point: set<Var>,
                 policyOf: map<(string, string), string>, namespace: string, hash: string,
                 placements: seq<PolicyPlacement>, bindings: seq<PolicyBinding>)
    requires FollowsChoices(before + DevicePairs(c, ds, point), policyOf, namespace, hash, placements, bindings)
    requires Y(c, d) in point ==> (c, d) in policyOf
    ensures Y(c, d) !in point ==>
              FollowsChoices(before + DevicePairs(c, ds + [d], point), policyOf, namespace, hash, placements, bindings)
    ensures Y(c, d) in point ==>
              FollowsChoices(before + DevicePairs(c, ds + [d], point), policyOf, namespace, hash,
                placements + [PolicyPlacement(PlacementName(c, hash), namespace, c)],
                bindings + [PolicyBinding(BindingName(c, hash), namespace, PlacementName(c, hash), policyOf[(c, d)])])
  {
    DevicePairsAppend(c, ds, d, point);
    var sofar := before + DevicePairs(c, ds, point);
    if Y(c, d) in point {
      FollowsOneMore(sofar, policyOf, namespace, hash, placements, bindings, (c, d));
      assert before + DevicePairs(c, ds + [d], point) == sofar + [(c, d)];
    } else {
      assert before + DevicePairs(c, ds + [d], point) == sofar;
    }
  }

  /** Emission. It fails exactly when a chosen (cluster, device) has no policy. */
  method Emit(p: Problem, point: set<Var>, policyOf: map<(string, string), string>, placementOf: map<string, string>,
              namespace: string, hash: string) returns (r: Result<Output, KeyError>)
    requires forall a :: a in p.apps ==> a in placementOf
    ensures r.Success? <==>
            forall pair :: pair in ChosenPairs(p.clusters, p.devices, point) ==> pair in policyOf
    ensures r.Success? ==>
      && FollowsChoices(ChosenPairs(p.clusters, p.devices, point), policyOf, namespace, hash,
                        r.value.policyPlacements, r.value.bindings)
      && FollowsPlacements(PlacedPairs(p.apps, p.clusters, point), placementOf, namespace, r.value.workloads)
  {
    var policyPlacements, bindings := [], [];
    ghost var all := ChosenPairs(p.clusters, p.devices, point);
    for i := 0 to |p.clusters|
      invariant FollowsChoices(ChosenPairs(p.clusters[..i], p.devices, point), policyOf, namespace, hash,
                               policyPlacements, bindings)
    {
      var c := p.clusters[i];
      ghost var before := ChosenPairs(p.clusters[..i], p.devices, point);
      for j := 0 to |p.devices|
        invariant FollowsChoices(before + DevicePairs(c, p.devices[..j], point), policyOf, namespace, hash,
                                 policyPlacements, bindings)
      {
        var d := p.devices[j];
        ghost var placed, bound := policyPlacements, bindings;
        if Y(c, d) in point {
          policyPlacements := policyPlacements + [PolicyPlacement(PlacementName(c, hash), namespace, c)];
          if (c, d) !in policyOf {
            ChosenMembers(p.clusters, p.devices, point);
            assert (c, d) in all;
            return Failure(KeyError(c));
          }
          var binding := PolicyBinding(BindingName(c, hash), namespace, PlacementName(c, hash), policyOf[(c, d)]);
          bindings := bindings + [binding];
        }
        EmitStep(before, c, p.devices[..j], d, point, policyOf, namespace, hash, placed, bound);
        assert p.devices[..j + 1] == p.devices[..j] + [d];
      }
      assert p.devices[..|p.devices|] == p.devices;
      assert p.clusters[..i + 1] == p.clusters[..i] + [c];
      ChosenPairsAppend(p.clusters[..i], c, p.devices, point);
    }
    assert p.clusters[..|p.clusters|] == p.clusters;
    var workloads := EmitWorkloads(p, point, placementOf, namespace);
    r := Success(Output(policyPlacements, bindings, workloads));
  }

  method EmitWorkloads(p: Problem, point: set<Var>, placementOf: map<string, string>, namespace: string)
    returns (workloads: seq<WorkloadPlacement>)
    requires forall a :: a in p.apps ==> a in placementOf
    ensures FollowsPlacements(PlacedPairs(p.apps, p.clusters, point), placementOf, namespace, workloads)
  {
    workloads := [];
    for i := 0 to |p.apps|
      invariant FollowsPlacements(PlacedPairs(p.apps[..i], p.clusters, point), placementOf, namespace, workloads)
    {
      var a := p.apps[i];
      ghost var before := PlacedPairs(p.apps[..i], p.clusters, point);
      assert p.apps[..i + 1] == p.apps[..i] + [a];
      PlacedPairsAppend(p.apps[..i], a, p.clusters, point);
      for j := 0 to |p.clusters|
        invariant FollowsPlacements(before + HostPairs(a, p.clusters[..j], point), placementOf, namespace, workloads)
      {
        assert p.clusters[..j + 1] == p.clusters[..j] + [p.clusters[j]];
        HostPairsAppend(a, p.clusters[..j], p.clusters[j], point);
        if X(a, p.clusters[j]) in point {
          workloads := workloads + [WorkloadPlacement(placementOf[a], namespace, p.clusters[j])];
          assert before + HostPairs(a, p.clusters[..j + 1], point)
              == before + HostPairs(a, p.clusters[..j], point) + [(a, p.clusters[j])];
        } else {
          assert before + HostPairs(a, p.clusters[..j + 1], point) == before + HostPairs(a, p.clusters[..j], point);
        }
      }
      assert p.clusters[..|p.clusters|] == p.clusters;
    }
    assert p.apps[..|p.apps|] == p.apps;
  }

  // ---------------------------------------------------------------------------------------------
  // What the emitted objects say
  // ---------------------------------------------------------------------------------------------

  lemma {:induction false} DevicePairMembers(c: string, ds: seq<string>, point: set<Var>)
    ensures forall e, d :: (e, d) in DevicePairs(c, ds, point) <==> e == c && d in ds && Y(c, d) in point
  {
    if ds != [] {
      DevicePairMembers(c, ds[1..], point);
    }
  }

  lemma {:induction false} ChosenMembers(cs: seq<string>, ds: seq<string>, point: set<Var>)
    ensures forall c, d :: (c, d) in ChosenPairs(cs, ds, point) <==> c in cs && d in ds && Y(c, d) in point
  {
    if cs != [] {
      DevicePairMembers(cs[0], ds, point);
      ChosenMembers(cs[1..], ds, point);
    }
  }

  lemma {:induction false} PlacedMembers(apps: seq<string>, cs: seq<string>, point: set<Var>)
    ensures forall a, c :: (a, c) in PlacedPairs(apps, cs, point) <==> a in apps && c in cs && X(a, c) in point
  {
    if apps != [] {
      HostPairMembers(apps[0], cs, point);
      PlacedMembers(apps[1..], cs, point);
    }
  }

  lemma {:induction false} HostPairMembers(a: string, cs: seq<string>, point: set<Var>)
    ensures forall b, c :: (b, c) in HostPairs(a, cs, point) <==> b == a && c in cs && X(a, c) in point
  {
    if cs != [] {
      HostPairMembers(a, cs[1..], point);
    }
  }

  lemma {:induction false} DevicePairsShort(c: string, ds: seq<string>, point: set<Var>)
    requires NoDup(ds)
    requires forall d, e :: d in ds && e in ds && Y(c, d) in point && Y(c, e) in point ==> d == e
    ensures |DevicePairs(c, ds, point)| <= 1
  {
    if ds != [] {
      NoDupTail(ds);
      DevicePairsShort(c, ds[1..], point);
      DevicePairMembers(c, ds[1..], point);
      var rest := DevicePairs(c, ds[1..], point);
      if rest != [] {
        var q := rest[0];
        assert (q.0, q.1) in rest;
        assert Y(c, ds[0]) !in point;
      }
    }
  }

  /** With at most one device a cluster, no cluster is chosen twice. */
  lemma {:induction false} ChosenClustersDistinct(cs: seq<string>, ds: seq<string>, point: set<Var>)
    requires NoDup(cs) && NoDup(ds)
    requires forall c, d, e :: c in cs && d in ds && e in ds && Y(c, d) in point && Y(c, e) in point ==> d == e
    ensures forall i, j :: 0 <= i < j < |ChosenPairs(cs, ds, point)| ==>
              ChosenPairs(cs, ds, point)[i].0 != ChosenPairs(cs, ds, point)[j].0
  {
    if cs != [] {
      NoDupTail(cs);
      ChosenClustersDistinct(cs[1..], ds, point);
      DevicePairsShort(cs[0], ds, point);
      DevicePairMembers(cs[0], ds, point);
      ChosenMembers(cs[1..], ds, point);
      var h: seq<(string, string)> := DevicePairs(cs[0], ds, point);
      var t: seq<(string, string)> := ChosenPairs(cs[1..], ds, point);
      var all: seq<(string, string)> := h + t;
      forall i, j | 0 <= i < j < |all| ensures all[i].0 != all[j].0 {
        if i < |h| {
          assert h[i] == (h[i].0, h[i].1) && h[i] in h;
          assert t[j - |h|] == (t[j - |h|].0, t[j - |h|].1) && t[j - |h|] in t;
        }
      }
    }
  }

  lemma SuffixedNames(prefix: string, c: string, h: string, e: string, g: string)
    requires |h| == |g|
    ensures prefix + c + "-" + h == prefix + e + "-" + g <==> c == e && h == g
  {
    var n, m := prefix + c + "-" + h, prefix + e + "-" + g;
    if n == m {
      assert |c| == |e|;
      assert n[|prefix|..|prefix| + |c|] == c && m[|prefix|..|prefix| + |e|] == e;
      assert n[|n| - |h|..] == h && m[|m| - |g|..] == g;
    }
  }

  /** Names tell clusters apart, and requests with different hashes of one length. */
  lemma NamesDiffer(c: string, h: string, e: string, g: string)
    requires |h| == |g|
    ensures PlacementName(c, h) == PlacementName(e, g) <==> c == e && h == g
    ensures BindingName(c, h) == BindingName(e, g) <==> c == e && h == g
  {
    SuffixedNames("placement-", c, h, e, g);
    SuffixedNames("binding-", c, h, e, g);
  }

  /** At a feasible point no two emitted placements of policies, and no two bindings, have the same name. */
  lemma EmittedNamesDiffer(p: Problem, point: set<Var>, policyOf: map<(string, string), string>, namespace: string,
                           hash: string, placements: seq<PolicyPlacement>, bindings: seq<PolicyBinding>)
    requires WellFormed(p) && point <= Vars(p) && Feasible(Rows(p), point)
    requires FollowsChoices(ChosenPairs(p.clusters, p.devices, point), policyOf, namespace, hash, placements, bindings)
    ensures forall i, j :: 0 <= i < j < |bindings| ==> bindings[i].name != bindings[j].name
    ensures forall i, j :: 0 <= i < j < |placements| ==> placements[i].name != placements[j].name
    ensures forall i :: 0 <= i < |bindings| ==> bindings[i].placement == placements[i].name
  {
    var pairs := ChosenPairs(p.clusters, p.devices, point);
    FeasibleMeansAdmissible(p, point);
    ChosenClustersDistinct(p.clusters, p.devices, point);
    forall i, j | 0 <= i < j < |pairs|
      ensures bindings[i].name != bindings[j].name && placements[i].name != placements[j].name
    {
      NamesDiffer(pairs[i].0, hash, pairs[j].0, hash);
    }
  }

  /** The cluster of a placed app has a chosen device. */
  lemma PlacedClusterIsChosen(p: Problem, point: set<Var>, w: nat)
    requires WellFormed(p) && point <= Vars(p) && Feasible(Rows(p), point)
    requires w < |PlacedPairs(p.apps, p.clusters, point)|
    ensures exists k :: && 0 <= k < |ChosenPairs(p.clusters, p.devices, point)|
                        && ChosenPairs(p.clusters, p.devices, point)[k].0 == PlacedPairs(p.apps, p.clusters, point)[w].1
  {
    var pairs := ChosenPairs(p.clusters, p.devices, point);
    var placed := PlacedPairs(p.apps, p.clusters, point);
    FeasibleMeansAdmissible(p, point);
    ChosenMembers(p.clusters, p.devices, point);
    PlacedMembers(p.apps, p.clusters, point);
    var a, c := placed[w].0, placed[w].1;
    assert placed[w] == (a, c) && (a, c) in placed;
    var d :| d in p.devices && Y(c, d) in point;
    assert (c, d) in pairs;
    var k :| 0 <= k < |pairs| && pairs[k] == (c, d);
  }

  /** Every emitted workload placement has exactly one emitted policy binding, on the placement of its own cluster. */
  lemma EachWorkloadHasOneBinding(p: Problem, point: set<Var>, policyOf: map<(string, string), string>,
                                  placementOf: map<string, string>, namespace: string, hash: string, out: Output,
                                  w: nat)
    requires WellFormed(p) && point <= Vars(p) && Feasible(Rows(p), point)
    requires FollowsChoices(ChosenPairs(p.clusters, p.devices, point), policyOf, namespace, hash,
                            out.policyPlacements, out.bindings)
    requires FollowsPlacements(PlacedPairs(p.apps, p.clusters, point), placementOf, namespace, out.workloads)
    requires w < |out.workloads|
    ensures exists k :: && 0 <= k < |out.bindings|
                        && out.policyPlacements[k].cluster == out.workloads[w].cluster
                        && (forall j :: 0 <= j < |out.bindings| ==>
                              (out.bindings[j].placement == PlacementName(out.workloads[w].cluster, hash) <==> j == k))
  {
    var pairs := ChosenPairs(p.clusters, p.devices, point);
    var c := PlacedPairs(p.apps, p.clusters, point)[w].1;
    PlacedClusterIsChosen(p, point, w);
    FeasibleMeansAdmissible(p, point);
    ChosenClustersDistinct(p.clusters, p.devices, point);
    var k :| 0 <= k < |pairs| && pairs[k].0 == c;
    forall j | 0 <= j < |out.bindings| ensures out.bindings[j].placement == PlacementName(c, hash) <==> j == k {
      NamesDiffer(pairs[j].0, hash, c, hash);
    }
  }

  lemma {:induction false} LoadAtLeast(p: Problem, s: Assignment, apps: seq<string>, c: string, a: string)
    requires forall e :: e in apps ==> e in p.request && p.request[e] >= 0
    requires a in apps && a in s.host && s.host[a] == c
    ensures Load(p, s, apps, c) >= p.request[a]
  {
    if a != apps[0] {
      LoadAtLeast(p, s, apps[1..], c, a);
    } else {
      LoadNonNegative(p, s, apps[1..], c);
    }
  }

  lemma {:induction false} LoadNonNegative(p: Problem, s: Assignment, apps: seq<string>, c: string)
    requires forall e :: e in apps ==> e in p.request && p.request[e] >= 0
    ensures Load(p, s, apps, c) >= 0
  {
    if apps != [] {
      LoadNonNegative(p, s, apps[1..], c);
    }
  }

  /** The policy is listed for the cluster. */
  ghost predicate Listed(params: seq<ClusterParam>, c: string, policy: string) {
    exists i :: 0 <= i < |params| && params[i].name == c && policy in params[i].policies
  }

  lemma EntryIsListed(s: Supply, params: seq<ClusterParam>, known: map<string, PolicyInfo>, key: (string, string))
    requires SupplyAgrees(s, params, known) && key in s.policyOf
    ensures s.policyOf[key] in known && Listed(params, key.0, s.policyOf[key])
    ensures known[s.policyOf[key]] == PolicyInfo(key.1, s.capacity[key])
  {
    var i :| HoldsLastOffer(s, params, known, key, i);
    var ps := params[i].policies;
    var j :| LastSupplier(ps, known, key.1, j) && s.policyOf[key] == ps[j] && s.capacity[key] == known[ps[j]].amount;
    assert ps[j] in ps;
  }

  /** With positive requests, a cluster that hosts an app has a policy for its device, listed for that cluster,
      and what the policy supplies covers everything placed there. */
  lemma HostingClusterIsSupplied(p: Problem, s: Assignment, supply: Supply, params: seq<ClusterParam>,
                                 known: map<string, PolicyInfo>, a: string)
    requires WellFormed(p) && ValidAssignment(p, s) && a in s.host
    requires forall e :: e in p.apps ==> p.request[e] > 0
    requires SupplyAgrees(supply, params, known) && p.capacity == supply.capacity
    ensures var c := s.host[a]; var d := s.device[c];
      && (c, d) in supply.policyOf
      && supply.policyOf[(c, d)] in known
      && Listed(params, c, supply.policyOf[(c, d)])
      && known[supply.policyOf[(c, d)]].device == d
      && Load(p, s, p.apps, c) <= known[supply.policyOf[(c, d)]].amount
  {
    var c := s.host[a];
    LoadAtLeast(p, s, p.apps, c, a);
    assert (c, s.device[c]) in p.capacity;
    EntryIsListed(supply, params, known, (c, s.device[c]));
  }

  /** So emission can only fail on a device chosen for a cluster that hosts nothing. */
  lemma OnlyIdleChoicesFail(p: Problem, point: set<Var>, supply: Supply, params: seq<ClusterParam>, known: map<string,
                            PolicyInfo>, c: string, d: string)
    requires WellFormed(p) && point <= Vars(p) && Feasible(Rows(p), point)
    requires forall e :: e in p.apps ==> p.request[e] > 0
    requires SupplyAgrees(supply, params, known) && p.capacity == supply.capacity
    requires (c, d) in ChosenPairs(p.clusters, p.devices, point) && (c, d) !in supply.policyOf
    ensures forall a :: a in p.apps ==> X(a, c) !in point
  {
    ChosenMembers(p.clusters, p.devices, point);
    FeasibleMeansAdmissible(p, point);
    DecodeIsValid(p, point);
    DecodeMembers(p, point);
    var s := Decode(p, point);
    forall a | a in p.apps ensures X(a, c) !in point {
      if X(a, c) in point {
        assert Y(c, d) in point;
        HostingClusterIsSupplied(p, s, supply, params, known, a);
      }
    }
  }

  // ---------------------------------------------------------------------------------------------
  // When emission cannot fail
  // ---------------------------------------------------------------------------------------------

  /** Every chosen (cluster, device) has a policy, which is what emission needs. */
  ghost predicate Emits(p: Problem, point: set<Var>, policyOf: map<(string, string), string>) {
    forall pair :: pair in ChosenPairs(p.clusters, p.devices, point) ==> pair in policyOf
  }

  lemma {:induction false} LoadOfNothing(p: Problem, s: Assignment, apps: seq<string>, c: string)
    requires forall a :: a in apps ==> a in p.request
    requires s.host == map[]
    ensures Load(p, s, apps, c) == 0
  {
    if apps != [] {
      LoadOfNothing(p, s, apps[1..], c);
    }
  }

  /** A (cluster, device) without a policy can be chosen idle: missing capacity is 0, which is enough for nothing. */
  lemma IdleChoiceIsFeasible(p: Problem, policyOf: map<(string, string), string>, c: string, d: string)
    requires WellFormed(p) && p.capacity.Keys == policyOf.Keys
    requires c in p.clusters && d in p.devices && (c, d) !in policyOf
    ensures ValidAssignment(p, Assignment(map[], map[c := d]))
    ensures var point := Encode(p, Assignment(map[], map[c := d]));
            point <= Vars(p) && Feasible(Rows(p), point) && !Emits(p, point, policyOf)
  {
    var s := Assignment(map[], map[c := d]);
    LoadOfNothing(p, s, p.apps, c);
    assert (c, d) !in p.capacity;
    assert ValidAssignment(p, s);
    EncodeIsFeasible(p, s);
    EncodeMembers(p, s);
    ChosenMembers(p.clusters, p.devices, Encode(p, s));
    assert Y(c, d) in Encode(p, s);
    assert (c, d) in ChosenPairs(p.clusters, p.devices, Encode(p, s));
  }

  /** Every feasible point emits exactly when every (cluster, device) of the tables has a policy. */
  lemma EveryPointEmitsIff(p: Problem, policyOf: map<(string, string), string>)
    requires WellFormed(p) && p.capacity.Keys == policyOf.Keys
    ensures (forall point :: point <= Vars(p) && Feasible(Rows(p), point) ==> Emits(p, point, policyOf))
            <==> forall c, d :: c in p.clusters && d in p.devices ==> (c, d) in policyOf
  {
    if c, d :| c in p.clusters && d in p.devices && (c, d) !in policyOf {
      IdleChoiceIsFeasible(p, policyOf, c, d);
    } else {
      forall point | point <= Vars(p) && Feasible(Rows(p), point)
        ensures Emits(p, point, policyOf)
      {
        ChosenMembers(p.clusters, p.devices, point);
        forall pair | pair in ChosenPairs(p.clusters, p.devices, point)
          ensures pair in policyOf
        {
          assert pair == (pair.0, pair.1);
        }
      }
    }
  }

  /** A hub with one policy for a device, an edge cluster with none, and no apps. */
  function IdleProblem(hub: string, edge: string, device: string): Problem {
    Problem([], [hub, edge], [device], map[], map[(hub, device) := 1], map[])
  }

  lemma IdleIsWellFormed(hub: string, edge: string, device: string)
    requires hub != edge
    ensures var p := IdleProblem(hub, edge, device);
            && WellFormed(p) && edge in p.clusters && device in p.devices
            && (edge, device) !in p.capacity
  {
    assert [hub, edge][1] == edge && [device][0] == device;
  }

  lemma IdleEncoding(p: Problem, c: string, d: string)
    requires WellFormed(p) && ValidAssignment(p, Assignment(map[], map[c := d]))
    ensures Encode(p, Assignment(map[], map[c := d])) == {Y(c, d)}
  {
    var s := Assignment(map[], map[c := d]);
    EncodeMembers(p, s);
    forall v
      ensures v in Encode(p, s) <==> v == Y(c, d)
    {
    }
  }

  /** An optimal point can choose such an idle device, and no policy is there for it. */
  lemma IdleChoiceWithoutPolicy(hub: string, edge: string, device: string)
    requires hub != edge
    ensures var p, point := IdleProblem(hub, edge, device), {Y(edge, device)};
            && WellFormed(p) && point <= Vars(p) && OptimalPoint(p, point)
            && (edge, device) in ChosenPairs(p.clusters, p.devices, point) && (edge, device) !in p.capacity
  {
    var p := IdleProblem(hub, edge, device);
    IdleIsWellFormed(hub, edge, device);
    IdleChoiceIsFeasible(p, map[(hub, device) := ""], edge, device);
    IdleEncoding(p, edge, device);
    ChosenMembers(p.clusters, p.devices, {Y(edge, device)});
  }

  lemma IdleTables(s: Supply, hub: string, edge: string, policy: string, device: string)
    requires hub != edge
    requires SupplyAgrees(s, [ClusterParam(hub, [policy]), ClusterParam(edge, [])],
                          map[policy := PolicyInfo(device, 1)])
    ensures s.capacity == map[(hub, device) := 1] && (edge, device) !in s.policyOf
  {
    var params, known := [ClusterParam(hub, [policy]), ClusterParam(edge, [])], map[policy := PolicyInfo(device, 1)];
    assert policy in params[0].policies && Supplies(params[0].policies, known, device);
    assert Offers(params, known, (hub, device));
    forall key: (string, string) | Offers(params, known, key)
      ensures key == (hub, device)
    {
      var i :| 0 <= i < |params| && params[i].name == key.0 && Supplies(params[i].policies, known, key.1);
      assert i == 0;
    }
    EntryIsListed(s, params, known, (hub, device));
  }

  /** From the parameters to the KeyError: the tables of such a hub and edge cluster, no workloads, an optimal point of
      the program built from them, and an emission that fails. */
  method EmissionFailsOnOptimum(hub: string, edge: string, policy: string, device: string)
    returns (r: Result<Output, KeyError>, ghost point: set<Var>)
    requires hub != edge
    ensures var p := IdleProblem(hub, edge, device);
            point <= Vars(p) && WellFormed(p) && OptimalPoint(p, point)
    ensures r.Failure?
  {
    var known := map[policy := PolicyInfo(device, 1)];
    var params := [ClusterParam(hub, [policy]), ClusterParam(edge, [])];
    assert forall k :: k in params ==> k == params[0] || k == params[1];
    var supply := LoadClusters(params, known);
    var demand := LoadWorkloads([], map[]);
    IdleTables(supply.value, hub, edge, policy, device);
    var p := Problem([], [hub, edge], [device], map[], supply.value.capacity, map[]);
    IdleChoiceWithoutPolicy(hub, edge, device);
    var solved := {Y(edge, device)};
    point := solved;
    r := Emit(p, solved, supply.value.policyOf, demand.value.placementOf, "default", "0");
  }
}
