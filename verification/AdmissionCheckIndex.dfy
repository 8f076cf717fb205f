/** The secondary index of AdmissionChecks by placement, and the two functions that turn a placement event and a
    placement decision event into the keys to sync. */
module AdmissionCheckIndex {
  import opened AdmissionCheck
  import opened Keys
  import opened Wrappers

  const OCM_CONTROLLER := "open-cluster-management.io/placement"

  function IndexKey(ns: string, name: string): string { SlashKey(ns, name) }

  /** Cluster-scoped objects have no namespace part in their key. */
  function MetaNamespaceKey(ns: string, name: string): string {
    if ns == "" then name else IndexKey(ns, name)
  }

  function IndexAdmissionCheckByPlacement(kueueNamespace: string, ac: Check): (keys: seq<string>) {
    if ac.controllerName != OCM_CONTROLLER then [] else [IndexKey(kueueNamespace, ac.placement)]
  }

  /** The contract of the indexer: the objects whose index values contain the key. */
  function ByIndex(kueueNamespace: string, checks: map<string, Check>, key: string): set<string> {
    set n | n in checks && key in IndexAdmissionCheckByPlacement(kueueNamespace, checks[n])
  }

  /** An OCM check whose parameters name placement `placement` of namespace `ns`. */
  predicate Names(kueueNamespace: string, checks: map<string, Check>, n: string, ns: string, placement: string) {
    && n in checks && checks[n].controllerName == "open-cluster-management.io/placement"
    && ns == kueueNamespace && checks[n].placement == placement
  }

  /** An OCM check that names the placement of the decision label. */
  predicate NamesLabelled(kueueNamespace: string, checks: map<string, Check>, n: string, ns: string,
                          d: Option<Decision>)
  {
    d.Some? && d.value.placement.Some? && Names(kueueNamespace, checks, n, ns, d.value.placement.value)
  }

  /** A namespace has no slash, so a key stands for one placement. */
  lemma IndexKeyInjective(ns: string, name: string, ns1: string, name1: string)
    requires Slashless(ns) && Slashless(ns1)
    ensures IndexKey(ns, name) == IndexKey(ns1, name1) <==> ns == ns1 && name == name1
  {
    SlashKeyInjective(ns, name, ns1, name1);
  }

  /** Collects the names of the indexed objects, in whatever order the indexer returns them. */
  method CollectNames(objs: set<string>) returns (keys: seq<string>)
    ensures IsListing(keys, objs)
  {
    keys := [];
    var left := objs;
    while left != {}
      invariant left <= objs && IsListing(keys, objs - left)
      decreases left
    {
      var o :| o in left;
      assert o !in Elements(keys);
      assert Elements(keys + [o]) == Elements(keys) + {o};
      keys := keys + [o];
      left := left - {o};
    }
  }

  /** A placement event enqueues, once each, exactly the OCM checks that name the placement. */
  method PlacementQueueKeys(kueueNamespace: string, checks: map<string, Check>, ns: string, name: string)
    returns (keys: seq<string>)
    requires Slashless(kueueNamespace) && kueueNamespace != "" && Slashless(ns) && Slashless(name)
    ensures forall n :: n in keys <==> Names(kueueNamespace, checks, n, ns, name)
    ensures forall i, j :: 0 <= i < j < |keys| ==> keys[i] != keys[j]
  {
    keys := CollectNames(ByIndex(kueueNamespace, checks, MetaNamespaceKey(ns, name)));
    PlacementKeysExact(kueueNamespace, checks, ns, name);
    assert forall n :: n in keys <==> n in Elements(keys);
  }

  /** A decision event enqueues, once each, exactly the OCM checks that name the decision's placement; a decision
      without the placement label enqueues nothing. */
  method PlacementDecisionQueueKeys(kueueNamespace: string, checks: map<string, Check>, ns: string, d: Decision)
    returns (keys: seq<string>)
    requires Slashless(kueueNamespace) && Slashless(ns)
    ensures forall n :: n in keys <==> NamesLabelled(kueueNamespace, checks, n, ns, Some(d))
    ensures forall i, j :: 0 <= i < j < |keys| ==> keys[i] != keys[j]
  {
    if d.placement.None? {
      return [];
    }
    keys := CollectNames(ByIndex(kueueNamespace, checks, IndexKey(ns, d.placement.value)));
    DecisionKeysExact(kueueNamespace, checks, ns, d.placement.value);
    assert forall n :: n in keys <==> n in Elements(keys);
  }

  lemma DecisionKeysExact(kueueNamespace: string, checks: map<string, Check>, ns: string, name: string)
    requires Slashless(kueueNamespace) && Slashless(ns)
    ensures forall n :: n in ByIndex(kueueNamespace, checks, IndexKey(ns, name))
                        <==> Names(kueueNamespace, checks, n, ns, name)
  {
    forall n | n in checks
      ensures IndexKey(ns, name) == IndexKey(kueueNamespace, checks[n].placement)
              <==> ns == kueueNamespace && checks[n].placement == name
    {
      IndexKeyInjective(ns, name, kueueNamespace, checks[n].placement);
    }
  }

  lemma PlacementKeysExact(kueueNamespace: string, checks: map<string, Check>, ns: string, name: string)
    requires Slashless(kueueNamespace) && kueueNamespace != "" && Slashless(ns) && Slashless(name)
    ensures forall n :: n in ByIndex(kueueNamespace, checks, MetaNamespaceKey(ns, name))
                        <==> Names(kueueNamespace, checks, n, ns, name)
  {
    DecisionKeysExact(kueueNamespace, checks, ns, name);
    if ns == "" {
      forall n | n in checks
        ensures name != IndexKey(kueueNamespace, checks[n].placement)
      {
        assert IndexKey(kueueNamespace, checks[n].placement)[|kueueNamespace|] == '/';
      }
    }
  }

  // ---------------------------------------------------------------------------------------------
  // No lost wake-ups
  // ---------------------------------------------------------------------------------------------

  /** A placement of namespace `ns` appears or disappears. */
  function WithPlacement(st: State, ns: string, name: string, present: bool): State {
    st.(placements := if present then st.placements + {(ns, name)} else st.placements - {(ns, name)})
  }

  /** A decision object gets a new value, or is deleted. */
  function WithDecision(st: State, id: (string, string), d: Option<Decision>): State {
    st.(decisions := if d.Some? then st.decisions[id := d.value] else st.decisions - {id})
  }

  /** A sync does the same whether it runs before or after the event: the same error, and the two result states
      differ in nothing but what the event itself changed. */
  ghost predicate SameOutcome(ns: string, st: State, st1: State, key: string) {
    && Target(ns, st, key) == Target(ns, st1, key)
    && forall order: seq<string>, f: Faults ::
         Sync(ns, st1, key, order, f) ==
           (Sync(ns, st, key, order, f).0.(placements := st1.placements, decisions := st1.decisions),
            Sync(ns, st, key, order, f).1)
  }

  lemma SameInputsSameOutcome(ns: string, st: State, st1: State, key: string)
    requires st1 == st.(placements := st1.placements, decisions := st1.decisions)
    requires key in st.checks ==>
               ((ns, st.checks[key].placement) in st.placements <==> (ns, st.checks[key].placement) in st1.placements)
    requires Target(ns, st, key) == Target(ns, st1, key)
    ensures SameOutcome(ns, st, st1, key)
  {
    forall order: seq<string>, f: Faults
      ensures Sync(ns, st1, key, order, f) ==
                (Sync(ns, st, key, order, f).0.(placements := st1.placements, decisions := st1.decisions),
                 Sync(ns, st, key, order, f).1)
    {
      SameInputsSameSync(ns, st, st1, key, order, f);
    }
  }

  lemma SameInputsSameSync(ns: string, st: State, st1: State, key: string, order: seq<string>, f: Faults)
    requires st1 == st.(placements := st1.placements, decisions := st1.decisions)
    requires key in st.checks ==>
               ((ns, st.checks[key].placement) in st.placements <==> (ns, st.checks[key].placement) in st1.placements)
    ensures Sync(ns, st1, key, order, f) ==
              (Sync(ns, st, key, order, f).0.(placements := st1.placements, decisions := st1.decisions),
               Sync(ns, st, key, order, f).1)
  {
  }

  /** An OCM check that a placement event does not enqueue syncs the same before and after the event. */
  lemma PlacementEventComplete(kueueNamespace: string, st: State, ns: string, name: string, present: bool, key: string)
    requires key in st.checks && st.checks[key].controllerName == OCM_CONTROLLER
    requires !Names(kueueNamespace, st.checks, key, ns, name)
    ensures SameOutcome(kueueNamespace, st, WithPlacement(st, ns, name, present), key)
  {
    SameInputsSameOutcome(kueueNamespace, st, WithPlacement(st, ns, name, present), key);
  }

  function Stored(st: State, id: (string, string)): Option<Decision> {
    if id in st.decisions then Some(st.decisions[id]) else None
  }

  /** An OCM check that is enqueued by neither the old nor the new value of a decision syncs the same before and
      after the event. */
  lemma DecisionEventComplete(kueueNamespace: string, st: State, id: (string, string), d: Option<Decision>, key: string)
    requires key in st.checks && st.checks[key].controllerName == OCM_CONTROLLER
    requires !NamesLabelled(kueueNamespace, st.checks, key, id.0, Stored(st, id))
    requires !NamesLabelled(kueueNamespace, st.checks, key, id.0, d)
    ensures SameOutcome(kueueNamespace, st, WithDecision(st, id, d), key)
  {
    var st1 := WithDecision(st, id, d);
    var p := st.checks[key].placement;
    forall e: (string, string), c: string
      ensures (e in st.decisions && e.0 == kueueNamespace && st.decisions[e].placement == Some(p)
               && c in st.decisions[e].clusters)
              <==> (e in st1.decisions && e.0 == kueueNamespace && st1.decisions[e].placement == Some(p)
                    && c in st1.decisions[e].clusters)
    {
    }
    assert Target(kueueNamespace, st, key) == Target(kueueNamespace, st1, key);
    SameInputsSameOutcome(kueueNamespace, st, st1, key);
  }

  /** A decision counts for its own placement only, beside all the others. */
  lemma DecidedWith(ds: map<(string, string), Decision>, id: (string, string), ns: string, p: string)
    requires id in ds && id.0 == ns && ds[id].placement == Some(p)
    ensures DecidedClusters(ds, ns, p) == DecidedClusters(ds - {id}, ns, p) + ds[id].clusters
  {
    var rest := ds - {id};
    forall c | c in DecidedClusters(ds, ns, p)
      ensures c in DecidedClusters(rest, ns, p) + ds[id].clusters
    {
      var e :| e in ds && e.0 == ns && ds[e].placement == Some(p) && c in ds[e].clusters;
      assert e != id ==> e in rest && rest[e] == ds[e];
    }
    forall c | c in DecidedClusters(rest, ns, p)
      ensures c in DecidedClusters(ds, ns, p)
    {
      var e :| e in rest && e.0 == ns && rest[e].placement == Some(p) && c in rest[e].clusters;
      assert e in ds && ds[e] == rest[e];
    }
  }

  lemma DecidedWithout(ds: map<(string, string), Decision>, id: (string, string), d: Decision, ns: string, p: string)
    requires id.0 != ns || d.placement != Some(p)
    ensures DecidedClusters(ds[id := d], ns, p) == DecidedClusters(ds - {id}, ns, p)
  {
    var more, rest := ds[id := d], ds - {id};
    forall e: (string, string), c: string
      ensures (e in more && e.0 == ns && more[e].placement == Some(p) && c in more[e].clusters)
              <==> (e in rest && e.0 == ns && rest[e].placement == Some(p) && c in rest[e].clusters)
    {
    }
  }

  /** A check that the stored value of a decision names and the new one does not is missed when only the new value is
      enqueued. It then syncs the same before and after exactly when other decisions of its placement still decide
      every cluster that this one decided. */
  lemma MissedCheckIff(kueueNamespace: string, st: State, id: (string, string), d: Option<Decision>, key: string)
    requires key in st.checks && st.checks[key].controllerName == OCM_CONTROLLER
    requires NamesLabelled(kueueNamespace, st.checks, key, id.0, Stored(st, id))
    requires !NamesLabelled(kueueNamespace, st.checks, key, id.0, d)
    ensures SameOutcome(kueueNamespace, st, WithDecision(st, id, d), key)
            <==> st.decisions[id].clusters
                 <= DecidedClusters(st.decisions - {id}, kueueNamespace, st.checks[key].placement)
  {
    var p := st.checks[key].placement;
    var st1 := WithDecision(st, id, d);
    DecidedWith(st.decisions, id, kueueNamespace, p);
    if d.Some? {
      DecidedWithout(st.decisions, id, d.value, kueueNamespace, p);
    }
    if Target(kueueNamespace, st, key) == Target(kueueNamespace, st1, key) {
      SameInputsSameOutcome(kueueNamespace, st, st1, key);
    }
  }

  /** A decision whose placement label changes wakes only the checks of the new placement: one that names the old
      placement can be left with an outdated config. */
  lemma RelabelMissesOldPlacement(kueueNamespace: string)
    ensures exists st: State, id: (string, string), d: Decision, key: string ::
              && key in st.checks && st.checks[key].controllerName == OCM_CONTROLLER
              && Settled(kueueNamespace, st, key)
              && !NamesLabelled(kueueNamespace, st.checks, key, id.0, Some(d))
              && !Settled(kueueNamespace, WithDecision(st, id, Some(d)), key)
  {
    var id := (kueueNamespace, "d");
    var ac := Check(OCM_CONTROLLER, "p", {AdmissionCheckCleanup}, false, Some(Condition(true, Active("p"))));
    var st := State(map["ac" := ac], map["p" := ["c1"]], {(kueueNamespace, "p")},
                    map[id := Decision(Some("p"), {"c1"})]);
    var d := Decision(Some("q"), {"c1"});
    var st1 := WithDecision(st, id, Some(d));
    assert id in st.decisions && id.0 == kueueNamespace && "c1" in st.decisions[id].clusters;
    assert "c1" in DecidedClusters(st.decisions, kueueNamespace, "p");
    assert DecidedClusters(st.decisions, kueueNamespace, "p") == {"c1"} == Elements(["c1"]);
    assert DecidedClusters(st1.decisions, kueueNamespace, "p") == {};
    assert Settled(kueueNamespace, st, "ac") && !Settled(kueueNamespace, st1, "ac");
  }
}
