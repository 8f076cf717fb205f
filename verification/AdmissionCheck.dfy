/** The controller that keeps one MultiKueueConfig per placement named by an AdmissionCheck.
    Caches are up to date; every read and every write may fail with an error text. */
module AdmissionCheck {
  import opened Wrappers

  // ---------------------------------------------------------------------------------------------
  // Objects
  // ---------------------------------------------------------------------------------------------

  /** This controller's own finalizer, and those of others. */
  datatype Finalizer = AdmissionCheckCleanup | Other(name: string)

  /** A reason with the arguments of its message. */
  datatype Reason =
    | PlacementNotFound(placement: string)
    | PlacementError(placement: string, err: string)
    | PlacementDecisionError(err: string)
    | ConfigError(placement: string, err: string)
    | ConfigDeleteError(placement: string, err: string)
    | NoClustersAvailable(placement: string)
    | Active(placement: string)

  /** The condition of type Active. */
  datatype Condition = Condition(status: bool, reason: Reason)

  datatype Check = Check(
    controllerName: string,
    placement: string,
    finalizers: set<Finalizer>,
    deleting: bool,
    active: Option<Condition>)

  /** `placement` is the value of the placement label, if the decision has one. */
  datatype Decision = Decision(placement: Option<string>, clusters: set<string>)

  datatype State = State(
    checks: map<string, Check>,
    configs: map<string, seq<string>>,
    placements: set<(string, string)>,
    decisions: map<(string, string), Decision>)

  function Elements(s: seq<string>): set<string> { set x | x in s }

  /** The clusters decided for a placement of namespace `ns`: the contract of the decision tracker. */
  function DecidedClusters(decisions: map<(string, string), Decision>, ns: string, placement: string): set<string> {
    set d, c | d in decisions && d.0 == ns && decisions[d].placement == Some(placement)
               && c in decisions[d].clusters :: c
  }

  /** `order` is one of the orders in which an iteration over the set `s` can go. */
  ghost predicate IsListing(order: seq<string>, s: set<string>) {
    Elements(order) == s && forall i, j :: 0 <= i < j < |order| ==> order[i] != order[j]
  }

  // ---------------------------------------------------------------------------------------------
  // Sync
  // ---------------------------------------------------------------------------------------------

  /** The calls that fail in one sync, with their error text; NotFound is not a failure. */
  datatype Faults = Faults(
    getCheck: Option<string>,
    addFinalizer: Option<string>,
    getPlacement: Option<string>,
    refresh: Option<string>,
    getConfig: Option<string>,
    writeConfig: Option<string>,
    deleteConfig: Option<string>,
    patchStatus: Option<string>,
    removeFinalizer: Option<string>)

  const NO_FAULTS := Faults(None, None, None, None, None, None, None, None, None)

  /** Stores a check; one that is being deleted and has no finalizer left disappears. */
  function PutCheck(st: State, key: string, ac: Check): State {
    st.(checks := if ac.deleting && ac.finalizers == {} then st.checks - {key} else st.checks[key := ac])
  }

  function Report(st: State, key: string, condition: Condition, f: Faults): State
    requires key in st.checks
  {
    if f.patchStatus.Some? then st
    else PutCheck(st, key, st.checks[key].(active := Some(condition)))
  }

  /** The stored configs after writing `order` to `p`, or the error of the call that failed. */
  function WriteConfig(configs: map<string, seq<string>>, p: string, order: seq<string>, f: Faults)
    : Result<map<string, seq<string>>, string>
  {
    if f.getConfig.Some? then Failure(f.getConfig.value)
    else if p in configs && configs[p] == order then Success(configs)
    else if f.writeConfig.Some? then Failure(f.writeConfig.value)
    else Success(configs[p := order])
  }

  function RemoveConfig(configs: map<string, seq<string>>, p: string, f: Faults)
    : Result<map<string, seq<string>>, string>
  {
    if f.deleteConfig.Some? then Failure(f.deleteConfig.value) else Success(configs - {p})
  }

  /** What a sync does for a live check that carries the finalizer. */
  function Reconcile(ns: string, st: State, key: string, order: seq<string>, f: Faults): (State, bool)
    requires key in st.checks
  {
    var p := st.checks[key].placement;
    if f.getPlacement.Some? then (Report(st, key, Condition(false, PlacementError(p, f.getPlacement.value)), f), true)
    else if (ns, p) !in st.placements then (Report(st, key, Condition(false, PlacementNotFound(p)), f), true)
    else if f.refresh.Some? then (Report(st, key, Condition(false, PlacementDecisionError(f.refresh.value)), f), true)
    else if order != [] then
      match WriteConfig(st.configs, p, order, f)
      case Failure(err) => (Report(st, key, Condition(false, ConfigError(p, err)), f), true)
      case Success(configs) =>
        (Report(st.(configs := configs), key, Condition(true, Active(p)), f), f.patchStatus.Some?)
    else
      match RemoveConfig(st.configs, p, f)
      case Failure(err) => (Report(st, key, Condition(false, ConfigDeleteError(p, err)), f), true)
      case Success(configs) =>
        (Report(st.(configs := configs), key, Condition(false, NoClustersAvailable(p)), f), f.patchStatus.Some?)
  }

  /** A failed delete of the config is only logged. */
  function Cleanup(st: State, key: string, f: Faults): (State, bool)
    requires key in st.checks
  {
    var ac := st.checks[key];
    if AdmissionCheckCleanup !in ac.finalizers then (st, false)
    else
      var st1 := if f.deleteConfig.Some? then st else st.(configs := st.configs - {ac.placement});
      if f.removeFinalizer.Some? then (st1, true)
      else (PutCheck(st1, key, ac.(finalizers := ac.finalizers - {AdmissionCheckCleanup})), false)
  }

  /** The new state and whether the sync returned an error. */
  function Sync(ns: string, st: State, key: string, order: seq<string>, f: Faults): (State, bool) {
    if f.getCheck.Some? then (st, true)
    else if key !in st.checks then (st, false)
    else
      var ac := st.checks[key];
      if ac.deleting then Cleanup(st, key, f)
      else if AdmissionCheckCleanup !in ac.finalizers then
        if f.addFinalizer.Some? then (st, true)
        else (PutCheck(st, key, ac.(finalizers := ac.finalizers + {AdmissionCheckCleanup})), false)
      else Reconcile(ns, st, key, order, f)
  }

  /** The clusters a sync of `key` iterates over. */
  function Target(ns: string, st: State, key: string): set<string> {
    if key in st.checks then DecidedClusters(st.decisions, ns, st.checks[key].placement) else {}
  }

  class Controller {
    const kueueNamespace: string
    const placements: set<(string, string)>
    const decisions: map<(string, string), Decision>
    var checks: map<string, Check>
    var configs: map<string, seq<string>>

    function View(): State
      reads this
    {
      State(checks, configs, placements, decisions)
    }

    constructor (ns: string, st: State)
      ensures kueueNamespace == ns && View() == st
    {
      kueueNamespace := ns;
      placements, decisions := st.placements, st.decisions;
      checks, configs := st.checks, st.configs;
    }

    method SyncOnce(key: string, f: Faults) returns (failed: bool, ghost order: seq<string>)
      modifies this
      ensures IsListing(order, Target(kueueNamespace, old(View()), key))
      ensures (View(), failed) == Sync(kueueNamespace, old(View()), key, order, f)
    {
      var clusters: seq<string> := [];
      clusters := ListClusters(Target(kueueNamespace, View(), key));
      order := clusters;
      if f.getCheck.Some? {
        return true, order;
      }
      if key !in checks {
        return false, order;
      }
      var ac := checks[key];
      if ac.deleting {
        failed := CleanupAdmissionCheckResources(key, f);
        return;
      }
      if AdmissionCheckCleanup !in ac.finalizers {
        if f.addFinalizer.Some? {
          return true, order;
        }
        checks := checks[key := ac.(finalizers := ac.finalizers + {AdmissionCheckCleanup})];
        return false, order;
      }
      var p := ac.placement;
      if f.getPlacement.Some? {
        PatchStatus(key, Condition(false, PlacementError(p, f.getPlacement.value)), f);
        return true, order;
      }
      if (kueueNamespace, p) !in placements {
        PatchStatus(key, Condition(false, PlacementNotFound(p)), f);
        return true, order;
      }
      if f.refresh.Some? {
        PatchStatus(key, Condition(false, PlacementDecisionError(f.refresh.value)), f);
        return true, order;
      }
      if |clusters| > 0 {
        var err := CreateOrUpdateMultiKueueConfig(p, clusters, f);
        if err.Some? {
          PatchStatus(key, Condition(false, ConfigError(p, err.value)), f);
          return true, order;
        }
      } else {
        var err := DeleteMultiKueueConfig(p, f);
        if err.Some? {
          PatchStatus(key, Condition(false, ConfigDeleteError(p, err.value)), f);
          return true, order;
        }
        PatchStatus(key, Condition(false, NoClustersAvailable(p)), f);
        return f.patchStatus.Some?, order;
      }
      PatchStatus(key, Condition(true, Active(p)), f);
      failed := f.patchStatus.Some?;
    }

    /** Go iterates over the set in an unspecified order. */
    method ListClusters(clusters: set<string>) returns (list: seq<string>)
      ensures IsListing(list, clusters)
    {
      list := [];
      var left := clusters;
      while left != {}
        invariant left <= clusters && IsListing(list, clusters - left)
        decreases left
      {
        var cn :| cn in left;
        assert cn !in Elements(list);
        assert Elements(list + [cn]) == Elements(list) + {cn};
        list := list + [cn];
        left := left - {cn};
      }
    }

    method PatchStatus(key: string, condition: Condition, f: Faults)
      requires key in checks && !checks[key].deleting
      modifies this`checks
      ensures View() == Report(old(View()), key, condition, f)
    {
      if f.patchStatus.None? {
        checks := checks[key := checks[key].(active := Some(condition))];
      }
    }

    method CreateOrUpdateMultiKueueConfig(p: string, clusters: seq<string>, f: Faults) returns (err: Option<string>)
      modifies this`configs
      ensures match WriteConfig(old(configs), p, clusters, f)
              case Failure(e) => err == Some(e) && configs == old(configs)
              case Success(written) => err == None && configs == written
    {
      if f.getConfig.Some? {
        return f.getConfig;
      }
      if p in configs && configs[p] == clusters {
        return None;
      }
      if f.writeConfig.Some? {
        return f.writeConfig;
      }
      configs := configs[p := clusters];
      err := None;
    }

    method DeleteMultiKueueConfig(p: string, f: Faults) returns (err: Option<string>)
      modifies this`configs
      ensures match RemoveConfig(old(configs), p, f)
              case Failure(e) => err == Some(e) && configs == old(configs)
              case Success(left) => err == None && configs == left
    {
      err := f.deleteConfig;
      if err.None? {
        configs := configs - {p};
      }
    }

    method CleanupAdmissionCheckResources(key: string, f: Faults) returns (failed: bool)
      requires key in checks && checks[key].deleting
      modifies this
      ensures (View(), failed) == Cleanup(old(View()), key, f)
    {
      var ac := checks[key];
      if AdmissionCheckCleanup !in ac.finalizers {
        return false;
      }
      var _ := DeleteMultiKueueConfig(ac.placement, f);
      if f.removeFinalizer.Some? {
        return true;
      }
      ac := ac.(finalizers := ac.finalizers - {AdmissionCheckCleanup});
      checks := if ac.finalizers == {} then checks - {key} else checks[key := ac];
      failed := false;
    }
  }

  // ---------------------------------------------------------------------------------------------
  // Convergence
  // ---------------------------------------------------------------------------------------------

  /** Equal, but for the order of the cluster lists. */
  ghost predicate Same(st: State, st1: State) {
    && st.(configs := map[]) == st1.(configs := map[])
    && st.configs.Keys == st1.configs.Keys
    && forall p :: p in st.configs ==> Elements(st.configs[p]) == Elements(st1.configs[p])
  }

  /** The config of a check's placement holds exactly the decided clusters, and does not exist without any. */
  ghost predicate ConfigMatches(configs: map<string, seq<string>>, p: string, decided: set<string>) {
    if decided == {} then p !in configs else p in configs && Elements(configs[p]) == decided
  }

  function RestCondition(decided: set<string>, p: string): Condition {
    if decided == {} then Condition(false, NoClustersAvailable(p)) else Condition(true, Active(p))
  }

  /** A live check of an existing placement at rest. */
  ghost predicate Settled(ns: string, st: State, key: string) {
    && key in st.checks && !st.checks[key].deleting
    && AdmissionCheckCleanup in st.checks[key].finalizers
    && var p := st.checks[key].placement;
       && (ns, p) in st.placements
       && ConfigMatches(st.configs, p, DecidedClusters(st.decisions, ns, p))
       && st.checks[key].active == Some(RestCondition(DecidedClusters(st.decisions, ns, p), p))
  }

  ghost predicate Live(ns: string, st: State, key: string) {
    && key in st.checks && !st.checks[key].deleting
    && (ns, st.checks[key].placement) in st.placements
  }

  lemma ListingEmpty(order: seq<string>, s: set<string>)
    requires IsListing(order, s)
    ensures order == [] <==> s == {}
  {
    if order != [] {
      assert order[0] in Elements(order);
    }
  }

  /** The settled states are exactly those a fault-free sync leaves unchanged. */
  lemma FixpointIffSettled(ns: string, st: State, key: string, order: seq<string>)
    requires Live(ns, st, key)
    requires IsListing(order, Target(ns, st, key))
    ensures Same(Sync(ns, st, key, order, NO_FAULTS).0, st) <==> Settled(ns, st, key)
  {
    var st1 := Sync(ns, st, key, order, NO_FAULTS).0;
    var p := st.checks[key].placement;
    ListingEmpty(order, DecidedClusters(st.decisions, ns, p));
    assert st1.(configs := map[]).checks == st1.checks && st.(configs := map[]).checks == st.checks;
    if AdmissionCheckCleanup !in st.checks[key].finalizers {
      assert st1.checks[key].finalizers != st.checks[key].finalizers;
    } else if order == [] {
      assert Same(st1, st) ==> st1.checks[key] == st.checks[key];
      assert p !in st1.configs;
    } else {
      assert Same(st1, st) ==> st1.checks[key] == st.checks[key];
      assert st1.configs == st.configs[p := order];
    }
  }

  lemma SyncSettles(ns: string, st: State, key: string, order: seq<string>)
    requires Live(ns, st, key) && AdmissionCheckCleanup in st.checks[key].finalizers
    requires IsListing(order, Target(ns, st, key))
    ensures Settled(ns, Sync(ns, st, key, order, NO_FAULTS).0, key)
  {
    ListingEmpty(order, DecidedClusters(st.decisions, ns, st.checks[key].placement));
  }

  /** Two fault-free syncs settle a live check of an existing placement, from any state. */
  lemma TwoSyncsSettle(ns: string, st: State, key: string, order: seq<string>, order1: seq<string>)
    requires Live(ns, st, key)
    requires IsListing(order, Target(ns, st, key)) && IsListing(order1, Target(ns, st, key))
    ensures var st2 := Sync(ns, Sync(ns, st, key, order, NO_FAULTS).0, key, order1, NO_FAULTS).0;
            var decided := DecidedClusters(st.decisions, ns, st.checks[key].placement);
            && Settled(ns, st2, key) && st2.checks[key].placement == st.checks[key].placement
            && (st2.checks[key].active.value.status <==> decided != {})
            && (st2.checks[key].placement in st2.configs <==> decided != {})
  {
    var st1 := Sync(ns, st, key, order, NO_FAULTS).0;
    SyncKeepsSpec(ns, st, key, order, NO_FAULTS);
    SyncSettles(ns, st1, key, order1);
    SyncKeepsSpec(ns, st1, key, order1, NO_FAULTS);
  }

  /** A sync never touches the placement, the deletion mark, the placements or the decisions; without faults
      a live check carries the finalizer afterwards. */
  lemma SyncKeepsSpec(ns: string, st: State, key: string, order: seq<string>, f: Faults)
    requires key in st.checks && !st.checks[key].deleting
    ensures var st1 := Sync(ns, st, key, order, f).0;
            && st1.placements == st.placements && st1.decisions == st.decisions
            && st1.checks.Keys == st.checks.Keys
            && st1.checks[key].placement == st.checks[key].placement && !st1.checks[key].deleting
            && (f == NO_FAULTS ==> AdmissionCheckCleanup in st1.checks[key].finalizers)
  {
  }

  /** A sync of one check unsettles another exactly when it cleans up a deleted check of the same placement
      while that placement still has decided clusters: the shared config goes, and the survivor still says Active. */
  lemma SettledSurvivesIff(ns: string, st: State, key: string, other: string, order: seq<string>, f: Faults)
    requires Settled(ns, st, key) && other != key
    requires IsListing(order, Target(ns, st, other))
    ensures var p := st.checks[key].placement;
            Settled(ns, Sync(ns, st, other, order, f).0, key)
            <==> !(&& other in st.checks && st.checks[other].deleting && st.checks[other].placement == p
                   && AdmissionCheckCleanup in st.checks[other].finalizers
                   && DecidedClusters(st.decisions, ns, p) != {} && f.getCheck.None? && f.deleteConfig.None?)
  {
    var st1 := Sync(ns, st, other, order, f).0;
    var p := st.checks[key].placement;
    assert st1.checks[key] == st.checks[key];
    assert DecidedClusters(st1.decisions, ns, p) == DecidedClusters(st.decisions, ns, p);
    if other in st.checks && st.checks[other].placement == p {
      ListingEmpty(order, DecidedClusters(st.decisions, ns, p));
    }
  }

  /** After a sync of a live check with the finalizer whose status write worked, Active is True exactly when
      nothing else failed and clusters are decided; and then the config holds exactly those clusters. */
  lemma ActiveTellsTheTruth(ns: string, st: State, key: string, order: seq<string>, f: Faults)
    requires key in st.checks && !st.checks[key].deleting && AdmissionCheckCleanup in st.checks[key].finalizers
    requires IsListing(order, Target(ns, st, key))
    requires f.getCheck.None? && f.patchStatus.None?
    ensures var p := st.checks[key].placement;
            var (st1, _) := Sync(ns, st, key, order, f);
            && key in st1.checks && st1.checks[key].active.Some?
            && (st1.checks[key].active.value.status <==>
                && f.getPlacement.None? && (ns, p) in st.placements && f.refresh.None?
                && DecidedClusters(st.decisions, ns, p) != {}
                && WriteConfig(st.configs, p, order, f).Success?)
            && (st1.checks[key].active.value.status ==>
                  ConfigMatches(st1.configs, p, DecidedClusters(st.decisions, ns, p)))
  {
    var p := st.checks[key].placement;
    ListingEmpty(order, DecidedClusters(st.decisions, ns, p));
    assert DecidedClusters(Sync(ns, st, key, order, f).0.decisions, ns, p) == DecidedClusters(st.decisions, ns, p);
  }

  /** Each reason stands for one situation: a check says why it is not Active. */
  lemma ReasonsAreExact(ns: string, st: State, key: string, order: seq<string>, f: Faults)
    requires key in st.checks && !st.checks[key].deleting && AdmissionCheckCleanup in st.checks[key].finalizers
    requires IsListing(order, Target(ns, st, key))
    requires f.getCheck.None? && f.patchStatus.None?
    ensures var p := st.checks[key].placement;
            var (st1, failed) := Sync(ns, st, key, order, f);
            var found := f.getPlacement.None? && (ns, p) in st.placements;
            var decided := DecidedClusters(st.decisions, ns, p) != {};
            && key in st1.checks && st1.checks[key].active.Some?
            && var reason := st1.checks[key].active.value.reason;
               && (reason.PlacementError? <==> f.getPlacement.Some?)
               && (reason.PlacementNotFound? <==> f.getPlacement.None? && !found)
               && (reason.PlacementDecisionError? <==> found && f.refresh.Some?)
               && (reason.ConfigError? <==>
                     found && f.refresh.None? && decided && WriteConfig(st.configs, p, order, f).Failure?)
               && (reason.ConfigDeleteError? <==> found && f.refresh.None? && !decided && f.deleteConfig.Some?)
               && (failed <==> !reason.Active? && !reason.NoClustersAvailable?)
  {
    ListingEmpty(order, DecidedClusters(st.decisions, ns, st.checks[key].placement));
  }

  /** A live check whose placement does not exist keeps its config whatever the decisions are. */
  lemma MissingPlacementKeepsConfig(ns: string, st: State, key: string, order: seq<string>, f: Faults)
    requires key in st.checks && !st.checks[key].deleting
    requires (ns, st.checks[key].placement) !in st.placements
    ensures Sync(ns, st, key, order, f).0.configs == st.configs
    ensures f == NO_FAULTS && AdmissionCheckCleanup in st.checks[key].finalizers ==>
              && Sync(ns, st, key, order, f).1
              && Sync(ns, st, key, order, f).0.checks[key].active
                 == Some(Condition(false, PlacementNotFound(st.checks[key].placement)))
  {
  }

  /** Cleanup drops the finalizer even when the delete of the config failed, and then the config stays. */
  lemma CleanupLeavesConfigIff(ns: string, st: State, key: string, order: seq<string>, f: Faults)
    requires key in st.checks && st.checks[key].deleting && AdmissionCheckCleanup in st.checks[key].finalizers
    requires st.checks[key].placement in st.configs
    requires f.getCheck.None? && f.removeFinalizer.None?
    ensures var st1 := Sync(ns, st, key, order, f).0;
            && (st.checks[key].placement in st1.configs <==> f.deleteConfig.Some?)
            && (key in st1.checks ==> AdmissionCheckCleanup !in st1.checks[key].finalizers)
  {
  }

  // ---------------------------------------------------------------------------------------------
  // Every run
  // ---------------------------------------------------------------------------------------------

  datatype Event =
    | SyncStep(key: string, order: seq<string>, faults: Faults)
    | Create(name: string, controllerName: string, placement: string)
    | Delete(name: string)
    | Retarget(name: string, placement: string)
    | Hold(name: string, finalizer: string)
    | Release(name: string, finalizer: string)
    | SetPlacements(placements: set<(string, string)>)
    | SetDecisions(decisions: map<(string, string), Decision>)

  /** Others may edit checks, but not the cleanup finalizer. */
  function Step(ns: string, st: State, e: Event): State {
    match e
    case SyncStep(key, order, f) => Sync(ns, st, key, order, f).0
    case Create(n, c, p) => if n in st.checks then st else PutCheck(st, n, Check(c, p, {}, false, None))
    case Delete(n) => if n in st.checks then PutCheck(st, n, st.checks[n].(deleting := true)) else st
    case Retarget(n, p) => if n in st.checks then PutCheck(st, n, st.checks[n].(placement := p)) else st
    case Hold(n, x) =>
      if n in st.checks && !st.checks[n].deleting then
        PutCheck(st, n, st.checks[n].(finalizers := st.checks[n].finalizers + {Other(x)}))
      else st
    case Release(n, x) =>
      if n in st.checks then
        PutCheck(st, n, st.checks[n].(finalizers := st.checks[n].finalizers - {Other(x)}))
      else st
    case SetPlacements(ps) => st.(placements := ps)
    case SetDecisions(ds) => st.(decisions := ds)
  }

  function Run(ns: string, st: State, run: seq<Event>): State
    decreases |run|
  {
    if run == [] then st else Run(ns, Step(ns, st, run[0]), run[1..])
  }

  ghost predicate NoEmptyConfig(st: State) {
    forall p :: p in st.configs ==> st.configs[p] != []
  }

  ghost predicate Carries(st: State, n: string, p: string) {
    n in st.checks && st.checks[n].placement == p && AdmissionCheckCleanup in st.checks[n].finalizers
  }

  ghost predicate EveryConfigOwned(st: State) {
    forall p :: p in st.configs ==> exists n :: Carries(st, n, p)
  }

  /** Parameters are fixed and no delete of a config fails. */
  predicate KeepsOwners(e: Event) {
    !e.Retarget? && (e.SyncStep? ==> e.faults.deleteConfig.None?)
  }

  lemma StepKeepsOwners(ns: string, st: State, e: Event)
    requires EveryConfigOwned(st) && KeepsOwners(e)
    ensures EveryConfigOwned(Step(ns, st, e))
  {
    var st1 := Step(ns, st, e);
    forall p | p in st1.configs
      ensures exists n :: Carries(st1, n, p)
    {
      if p in st.configs {
        var n :| Carries(st, n, p);
        OwnerStays(ns, st, e, n, p);
      } else {
        assert Carries(st1, e.key, p);
      }
    }
  }

  lemma OwnerStays(ns: string, st: State, e: Event, n: string, p: string)
    requires Carries(st, n, p) && KeepsOwners(e)
    requires p in Step(ns, st, e).configs
    ensures Carries(Step(ns, st, e), n, p)
  {
  }

  /** On every run with arbitrary failures no config is ever empty; and while parameters are fixed and deletes
      of configs work, every config has a check that still carries the cleanup finalizer. */
  lemma {:induction false} RunInvariant(ns: string, st: State, run: seq<Event>)
    ensures NoEmptyConfig(st) ==> NoEmptyConfig(Run(ns, st, run))
    ensures EveryConfigOwned(st) && (forall i :: 0 <= i < |run| ==> KeepsOwners(run[i]))
            ==> EveryConfigOwned(Run(ns, st, run))
    decreases |run|
  {
    if run != [] {
      var st1 := Step(ns, st, run[0]);
      if EveryConfigOwned(st) && KeepsOwners(run[0]) {
        StepKeepsOwners(ns, st, run[0]);
      }
      RunInvariant(ns, st1, run[1..]);
    }
  }

  /** A cleanup leaves a config without an owner exactly when the delete of the config fails, the finalizer goes
      all the same, and no other check carries the finalizer for that placement. */
  lemma CleanupKeepsOwnersIff(ns: string, st: State, key: string, order: seq<string>, f: Faults)
    requires EveryConfigOwned(st) && f.getCheck.None?
    requires key in st.checks && st.checks[key].deleting && AdmissionCheckCleanup in st.checks[key].finalizers
    requires st.checks[key].placement in st.configs
    ensures EveryConfigOwned(Sync(ns, st, key, order, f).0)
            <==> || f.deleteConfig.None? || f.removeFinalizer.Some?
                 || exists n :: n != key && Carries(st, n, st.checks[key].placement)
  {
    var st1 := Sync(ns, st, key, order, f).0;
    var p := st.checks[key].placement;
    if f.removeFinalizer.Some? {
      assert forall n, q :: Carries(st1, n, q) <==> Carries(st, n, q);
    } else {
      assert forall n, q :: Carries(st1, n, q) <==> n != key && Carries(st, n, q);
      assert forall n, q :: Carries(st, n, q) && n == key ==> q == p;
    }
  }

  // ---------------------------------------------------------------------------------------------
  // Two checks of one placement
  // ---------------------------------------------------------------------------------------------

  /** Checks `a` and `b` of placement `p`, which has one cluster decided and its config; `a` is being deleted. */
  function SharedPlacement(ns: string, a: string, b: string, p: string, cluster: string): State {
    State(map[a := Check("", p, {AdmissionCheckCleanup}, true, None),
              b := Check("", p, {AdmissionCheckCleanup}, false, Some(Condition(true, Active(p))))],
          map[p := [cluster]], {(ns, p)}, map[(ns, "d") := Decision(Some(p), {cluster})])
  }

  /** The sync of the deleted one takes the config, while the other stays Active. */
  lemma SharedConfigGoes(ns: string, a: string, b: string, p: string, cluster: string)
    requires a != b
    ensures var st := SharedPlacement(ns, a, b, p, cluster);
            var st1 := Sync(ns, st, a, [cluster], NO_FAULTS).0;
            && Settled(ns, st, b) && !Settled(ns, st1, b)
            && p !in st1.configs && st1.checks[b].active == Some(Condition(true, Active(p)))
  {
    var st := SharedPlacement(ns, a, b, p, cluster);
    OneDecided(ns, p, cluster);
    assert Elements([cluster]) == {cluster};
    SettledSurvivesIff(ns, st, b, a, [cluster], NO_FAULTS);
  }

  lemma OneDecided(ns: string, p: string, cluster: string)
    ensures DecidedClusters(map[(ns, "d") := Decision(Some(p), {cluster})], ns, p) == {cluster}
  {
    var ds := map[(ns, "d") := Decision(Some(p), {cluster})];
    assert (ns, "d") in ds && cluster in ds[(ns, "d")].clusters;
  }

  /** A single deleted check whose config cannot be deleted leaves it without an owner. */
  lemma FailedDeleteOrphans(ns: string, a: string, p: string, cluster: string, err: string)
    ensures var st := State(map[a := Check("", p, {AdmissionCheckCleanup}, true, None)], map[p := [cluster]], {},
                            map[]);
            var st1 := Sync(ns, st, a, [], NO_FAULTS.(deleteConfig := Some(err))).0;
            EveryConfigOwned(st) && p in st1.configs && !EveryConfigOwned(st1)
  {
    var st := State(map[a := Check("", p, {AdmissionCheckCleanup}, true, None)], map[p := [cluster]], {}, map[]);
    assert Carries(st, a, p);
    CleanupKeepsOwnersIff(ns, st, a, [], NO_FAULTS.(deleteConfig := Some(err)));
  }
}
