/** What one sync of an AdmissionCheck leaves behind, call by call, whatever fails in it. */
module AdmissionCheckOutcome {
  import opened AdmissionCheck
  import opened Wrappers

  /** `st1` is `st` up to the check `key` and the config `p`. */
  ghost predicate OnlyTouches(st: State, st1: State, key: string, p: string) {
    && st1.placements == st.placements && st1.decisions == st.decisions
    && st1.checks - {key} == st.checks - {key} && st1.configs - {p} == st.configs - {p}
  }

  /** A sync changes its own check and the config of that check's placement, and nothing for a check it does not
      find. */
  lemma SyncTouches(ns: string, st: State, key: string, order: seq<string>, f: Faults)
    ensures var (st1, failed) := Sync(ns, st, key, order, f);
            && (f.getCheck.Some? || key !in st.checks ==> st1 == st && (failed <==> f.getCheck.Some?))
            && (key in st.checks ==> OnlyTouches(st, st1, key, st.checks[key].placement))
  {
  }

  /** A deleted check: the config goes unless its delete fails, the finalizer goes unless that write fails, and with the
      last finalizer the check goes. Without the controller's finalizer nothing happens. */
  lemma DeletedCheckLeaves(ns: string, st: State, key: string, order: seq<string>, f: Faults)
    requires key in st.checks && st.checks[key].deleting && f.getCheck.None?
    ensures var ac := st.checks[key];
            var (st1, failed) := Sync(ns, st, key, order, f);
            if AdmissionCheckCleanup !in ac.finalizers then st1 == st && !failed
            else
              && (failed <==> f.removeFinalizer.Some?)
              && (f.deleteConfig.Some? ==> st1.configs == st.configs)
              && (f.deleteConfig.None? ==> ac.placement !in st1.configs)
              && (failed ==> key in st1.checks && st1.checks[key] == ac)
              && (!failed && ac.finalizers == {AdmissionCheckCleanup} ==> key !in st1.checks)
              && (!failed && ac.finalizers != {AdmissionCheckCleanup} ==>
                    && key in st1.checks && AdmissionCheckCleanup !in st1.checks[key].finalizers
                    && st1.checks[key] == ac.(finalizers := ac.finalizers - {AdmissionCheckCleanup}))
  {
    var ac := st.checks[key];
    if AdmissionCheckCleanup in ac.finalizers {
      assert ac.finalizers - {AdmissionCheckCleanup} == {} <==> ac.finalizers == {AdmissionCheckCleanup};
    }
  }

  /** A live check without the finalizer gets it, and nothing else happens in this sync; a failing write changes
      nothing. */
  lemma NewCheckLeaves(ns: string, st: State, key: string, order: seq<string>, f: Faults)
    requires key in st.checks && !st.checks[key].deleting && f.getCheck.None?
    requires AdmissionCheckCleanup !in st.checks[key].finalizers
    ensures var ac := st.checks[key];
            var (st1, failed) := Sync(ns, st, key, order, f);
            && (failed <==> f.addFinalizer.Some?) && st1.configs == st.configs && key in st1.checks
            && st1.checks[key] == if failed then ac else ac.(finalizers := ac.finalizers + {AdmissionCheckCleanup})
  {
  }

  /** The first call that stands in the way, in the order of the sync. */
  function Obstacle(ns: string, st: State, p: string, order: seq<string>, f: Faults): Option<Reason> {
    if f.getPlacement.Some? then Some(PlacementError(p, f.getPlacement.value))
    else if (ns, p) !in st.placements then Some(PlacementNotFound(p))
    else if f.refresh.Some? then Some(PlacementDecisionError(f.refresh.value))
    else if order == [] then
      if f.deleteConfig.Some? then Some(ConfigDeleteError(p, f.deleteConfig.value)) else None
    else if f.getConfig.Some? then Some(ConfigError(p, f.getConfig.value))
    else if (p in st.configs ==> st.configs[p] != order) && f.writeConfig.Some? then
      Some(ConfigError(p, f.writeConfig.value))
    else None
  }

  /** A live check with the finalizer: the obstacle is reported with the error of its call and the configs stay;
      without one the config holds the clusters, or is gone without any, and the condition says so. A condition that
      cannot be written changes nothing of the check and fails the sync. */
  lemma LiveCheckLeaves(ns: string, st: State, key: string, order: seq<string>, f: Faults)
    requires key in st.checks && !st.checks[key].deleting && f.getCheck.None?
    requires AdmissionCheckCleanup in st.checks[key].finalizers
    ensures var ac := st.checks[key];
            var p := ac.placement;
            var (st1, failed) := Sync(ns, st, key, order, f);
            var obstacle := Obstacle(ns, st, p, order, f);
            var reason := if obstacle.Some? then obstacle.value
                          else if order == [] then NoClustersAvailable(p) else Active(p);
            && (failed <==> obstacle.Some? || f.patchStatus.Some?)
            && key in st1.checks
            && st1.checks[key] == (if f.patchStatus.Some? then ac
                                   else ac.(active := Some(Condition(reason == Active(p), reason))))
            && (obstacle.Some? ==> st1.configs == st.configs)
            && (obstacle.None? && order == [] ==> p !in st1.configs)
            && (obstacle.None? && order != [] ==> p in st1.configs && st1.configs[p] == order)
  {
  }
}
