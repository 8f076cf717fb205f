/** What the history and the phase table of federated learning mean, in the terms of the spec and of the cluster. */
module FederatedTable {
  import opened FederatedLearning
  import opened FederatedServer
  import opened Wrappers

  // ---------------------------------------------------------------------------------------------
  // The data of a cluster
  // ---------------------------------------------------------------------------------------------

  /** Expression `j` of predicate `i` asks for a claim to exist, and no later one does. */
  predicate LastExists(predicates: seq<seq<Expression>>, i: int, j: int) {
    && 0 <= i < |predicates| && 0 <= j < |predicates[i]| && predicates[i][j].exists_
    && (forall l :: j < l < |predicates[i]| ==> !predicates[i][l].exists_)
    && forall k, l :: i < k < |predicates| && 0 <= l < |predicates[k]| ==> !predicates[k][l].exists_
  }

  /** The data key is the key of the last Exists expression, or empty without any; other operators do not count. */
  ghost predicate IsDataKey(predicates: seq<seq<Expression>>, key: string) {
    || (exists i, j :: LastExists(predicates, i, j) && predicates[i][j].key == key)
    || (key == "" && forall k, l :: 0 <= k < |predicates| && 0 <= l < |predicates[k]| ==> !predicates[k][l].exists_)
  }

  /** The key of the last Exists expression of one predicate, or else `start`. */
  ghost predicate IsLastKey(es: seq<Expression>, start: string, key: string) {
    || (exists j :: && 0 <= j < |es| && es[j].exists_ && es[j].key == key
                    && forall l :: j < l < |es| ==> !es[l].exists_)
    || (key == start && forall l :: 0 <= l < |es| ==> !es[l].exists_)
  }

  lemma {:induction false} LastKeyIs(es: seq<Expression>, start: string)
    ensures IsLastKey(es, start, LastKey(es, start))
  {
    if es != [] {
      var init, last, key := es[..|es| - 1], es[|es| - 1], LastKey(es, start);
      if last.exists_ {
        assert es[|init|].key == key;
      } else {
        LastKeyIs(init, start);
        assert forall l :: 0 <= l < |init| ==> es[l] == init[l];
        if j :| && 0 <= j < |init| && init[j].exists_ && init[j].key == key
                && forall l :: j < l < |init| ==> !init[l].exists_ {
          assert es[j].exists_ && es[j].key == key;
        }
      }
    }
  }

  predicate NoneExists(es: seq<Expression>) { forall l :: 0 <= l < |es| ==> !es[l].exists_ }

  lemma DataKeyStep(init: seq<seq<Expression>>, last: seq<Expression>, before: string, key: string)
    requires IsDataKey(init, before) && IsLastKey(last, before, key)
    ensures IsDataKey(init + [last], key)
  {
    var all := init + [last];
    assert all[|init|] == last && forall k :: 0 <= k < |init| ==> all[k] == init[k];
    if NoneExists(last) {
      if i, j :| LastExists(init, i, j) && init[i][j].key == before {
        assert LastExists(all, i, j) && all[i][j].key == key;
      }
    } else {
      var j :| && 0 <= j < |last| && last[j].exists_ && last[j].key == key
               && forall l :: j < l < |last| ==> !last[l].exists_;
      assert LastExists(all, |init|, j) && all[|init|][j].key == key;
    }
  }

  lemma {:induction false} DataKeyIs(predicates: seq<seq<Expression>>)
    ensures IsDataKey(predicates, DataKey(predicates))
  {
    if predicates != [] {
      var init, last := predicates[..|predicates| - 1], predicates[|predicates| - 1];
      DataKeyIs(init);
      LastKeyIs(last, DataKey(init));
      DataKeyStep(init, last, DataKey(init), DataKey(predicates));
      assert predicates == init + [last];
    }
  }

  /** The data configuration is the value of the last claim with the key, or empty without any. */
  ghost predicate IsDataConfig(claims: seq<(string, string)>, key: string, data: string) {
    || (exists i :: && 0 <= i < |claims| && claims[i] == (key, data)
                    && forall j :: i < j < |claims| ==> claims[j].0 != key)
    || (data == "" && forall j :: 0 <= j < |claims| ==> claims[j].0 != key)
  }

  lemma {:induction false} DataConfigIs(claims: seq<(string, string)>, key: string)
    ensures IsDataConfig(claims, key, DataConfig(claims, key))
  {
    if claims != [] && claims[|claims| - 1].0 != key {
      DataConfigIs(claims[..|claims| - 1], key);
    }
  }

  // ---------------------------------------------------------------------------------------------
  // What is behind Running
  // ---------------------------------------------------------------------------------------------

  predicate FitsInt32(n: int) { -0x8000_0000 <= n < 0x8000_0000 }

  /** The reconcile selected at least the minimum of the spec. */
  predicate SelectedEnough(spec: Spec, pl: Placement) {
    FitsInt32(spec.minAvailableClients) ==> pl.selected >= spec.minAvailableClients
  }

  /** Every cluster of every decision of the placement got a work with its data. */
  ghost predicate EveryClientStarted(w: World, pl: Placement, works: map<string, string>) {
    forall g, d, c :: g in pl.groups && d in g && d in w.decisions && c in w.decisions[d] ==>
      && c in works && works[c] != "" && c in w.claims
      && exists key :: IsDataKey(pl.predicates, key) && IsDataConfig(w.claims[c], key, works[c])
  }

  ghost predicate Earned(v: Version) {
    && v.inst.phase.Running? && v.cause.Reconciled? && v.cause.w.placement.Success?
    && SelectedEnough(v.inst.spec, v.cause.w.placement.value)
    && if v.inst.spec.framework.Flower? then v.cause.clientApp
       else EveryClientStarted(v.cause.w, v.cause.w.placement.value, v.cause.works)
  }

  lemma JustifiedIsEarned(v: Version)
    requires v.inst.phase.Running? && RunningJustified(v.inst.spec, v.cause)
    ensures Earned(v)
  {
    if !v.inst.spec.framework.Flower? {
      var w, pl := v.cause.w, v.cause.w.placement.value;
      forall g, d, c | g in pl.groups && d in g && d in w.decisions && c in w.decisions[d]
        ensures c in v.cause.works && v.cause.works[c] != "" && c in w.claims
        ensures exists key :: IsDataKey(pl.predicates, key) && IsDataConfig(w.claims[c], key, v.cause.works[c])
      {
        assert c in FederatedLearning.Listed(w, pl);
        DataKeyIs(pl.predicates);
        DataConfigIs(w.claims[c], DataKey(pl.predicates));
      }
    }
  }

  /** On every valid history a version that is Running, where the first was not, goes back to a reconcile that saw at
      least the minimum of clusters and had started every client with its data. */
  lemma RunningIsEarned(log: seq<Version>, j: nat)
    requires ValidLog(log) && j < |log| && log[j].inst.phase.Running? && !log[0].inst.phase.Running?
    ensures exists i :: 0 < i <= j && Earned(log[i])
  {
    HistoryBehindPhase(log, j);
    var i :| 0 < i <= j && log[i].inst.phase.Running? && RunningJustified(log[i].inst.spec, log[i].cause);
    JustifiedIsEarned(log[i]);
  }

  // ---------------------------------------------------------------------------------------------
  // The phase table, read from its outcomes
  // ---------------------------------------------------------------------------------------------

  /** The server is set up, and the published listener, if there is one, gives its address to the clients. */
  ghost predicate Serves(i: Instance, w: World, listeners: seq<Listener>) {
    && i.spec.listeners != [] && w.server.SetupOk? && w.service.Success?
    && var r := ServiceListener(w.service.value, i.spec.listeners[0].ip, w.nodes);
       && r.Success?
       && (r.value.None? ==> listeners == i.listeners)
       && (r.value.Some? ==>
             && r.value.value in listeners && ServerAddress(listeners) == r.value.value.address
             && forall l: Listener :: l != r.value.value ==>
                  (l in listeners <==> l in i.listeners && l.kind != r.value.value.kind))
  }

  lemma PublishesIs(i: Instance, w: World)
    ensures Publishes(i, w).Success? <==> Serves(i, w, ListenersAfter(i, w))
    ensures Publishes(i, w).Failure? ==> ListenersAfter(i, w) == i.listeners
  {
    if Publishes(i, w).Success? && Publishes(i, w).value.Some? {
      var l := Publishes(i, w).value.value;
      UpdatedListeners(i.listeners, l);
      forall x: Listener
        ensures x in ListenersAfter(i, w) <==> x == l || (x in i.listeners && x.kind != l.kind)
      {
        assert x.kind == l.kind || x.kind != l.kind;
      }
    }
  }

  /** Every cluster of every decision can be read, has data, and gets its work; there is an address to tell it. */
  ghost predicate EveryClientWorks(w: World, listeners: seq<Listener>, pl: Placement) {
    && (forall g, d :: g in pl.groups && d in g ==> d in w.decisions)
    && (forall g, d, c :: g in pl.groups && d in g && d in w.decisions && c in w.decisions[d] ==>
          && ServerAddress(listeners) != "" && c in w.claims && c !in w.badWorks
          && exists key, data :: IsDataKey(pl.predicates, key) && IsDataConfig(w.claims[c], key, data) && data != "")
  }

  lemma {:induction false} DataConfigUnique(claims: seq<(string, string)>, key: string, a: string, b: string)
    requires IsDataConfig(claims, key, a) && IsDataConfig(claims, key, b)
    ensures a == b
  {
  }

  lemma DataKeyUnique(predicates: seq<seq<Expression>>, a: string, b: string)
    requires IsDataKey(predicates, a) && IsDataKey(predicates, b)
    ensures a == b
  {
    if i, j :| LastExists(predicates, i, j) && predicates[i][j].key == a {
      var k, l :| LastExists(predicates, k, l) && predicates[k][l].key == b;
      assert i == k && j == l;
    }
  }

  lemma WorkloadsOkIs(w: World, listeners: seq<Listener>, pl: Placement)
    ensures WorkloadsOk(w, listeners, pl) <==> EveryClientWorks(w, listeners, pl)
  {
    var key := DataKey(pl.predicates);
    DataKeyIs(pl.predicates);
    forall g, d, c | g in pl.groups && d in g && d in w.decisions && c in w.decisions[d]
      ensures ClusterOk(w, listeners, key, c)
              <==> && ServerAddress(listeners) != "" && c in w.claims && c !in w.badWorks
                   && exists k, data :: IsDataKey(pl.predicates, k) && IsDataConfig(w.claims[c], k, data) && data != ""
    {
      if c in w.claims {
        var config := DataConfig(w.claims[c], key);
        DataConfigIs(w.claims[c], key);
        if k, data :| IsDataKey(pl.predicates, k) && IsDataConfig(w.claims[c], k, data) && data != "" {
          DataKeyUnique(pl.predicates, k, key);
          DataConfigUnique(w.claims[c], key, data, config);
        }
      }
    }
    if WorkloadsOk(w, listeners, pl) {
      forall g, d | g in pl.groups && d in g
        ensures d in w.decisions && forall c :: c in w.decisions[d] ==> ClusterOk(w, listeners, key, c)
      {
        assert GroupOk(w, listeners, key, g) && DecisionOk(w, listeners, key, d);
      }
    }
    if EveryClientWorks(w, listeners, pl) {
      forall g | g in pl.groups
        ensures GroupOk(w, listeners, key, g)
      {
        forall d | d in g
          ensures DecisionOk(w, listeners, key, d)
        {
        }
      }
    }
  }

  // ---------------------------------------------------------------------------------------------
  // Outcomes
  // ---------------------------------------------------------------------------------------------

  predicate Begun(i: Instance) { i.phase.Unset? || i.phase.Waiting? || i.phase.Running? }

  /** The reconcile gets as far as the clients: what the placement selected, if there is no error before. */
  ghost predicate ReachesClients(i: Instance, w: World) {
    && Begun(i) && w.deployPlacement.None? && w.placement.Success?
    && (if i.spec.framework.Flower? then w.flowerServer.None? else Serves(i, w, ListenersAfter(i, w)))
  }

  /** Every client is started: the client application, or a work for every cluster. */
  ghost predicate StartsClients(i: Instance, w: World) {
    && ReachesClients(i, w) && w.placement.value.selected >= i.spec.minAvailableClients
    && if i.spec.framework.Flower? then w.flowerClient.None?
       else EveryClientWorks(w, ListenersAfter(i, w), w.placement.value)
  }

  /** The server job is looked at: once clients are started, or while the instance runs without enough clusters for new
      ones, or after it has completed. */
  ghost predicate LooksAtJob(i: Instance, w: World) {
    && !i.spec.framework.Flower?
    && (|| StartsClients(i, w)
        || i.phase.Completed?
        || (i.phase.Running? && ReachesClients(i, w) && w.placement.value.selected < i.spec.minAvailableClients))
  }

  /** An undisturbed reconcile completes an instance exactly when it looks at the job and that has succeeded, or when
      the instance was complete and it does not look. */
  lemma CompletesIff(i: Instance, w: World)
    requires FitsInt32(i.spec.minAvailableClients)
    ensures NextPhase(i, w).Completed? <==>
              if LooksAtJob(i, w) then w.job.Success? && (w.job.value > 0 || i.phase.Completed?) else i.phase.Completed?
  {
    Outcome(i, w);
  }

  /** It fails an instance exactly when the placement cannot be deployed, or the job it looks at cannot be read, or,
      with Flower, when its server, its placement or its clients fail. */
  lemma FailsIff(i: Instance, w: World)
    requires FitsInt32(i.spec.minAvailableClients)
    ensures NextPhase(i, w).Failed? <==>
              || i.phase.Failed?
              || (Begun(i) && w.deployPlacement.Some?)
              || (LooksAtJob(i, w) && w.job.Failure?)
              || (&& Begun(i) && i.spec.framework.Flower?
                  && (w.flowerServer.Some? || w.placement.Failure?
                      || (w.placement.value.selected >= i.spec.minAvailableClients && w.flowerClient.Some?)))
  {
    Outcome(i, w);
  }

  /** It leaves an instance running exactly when it starts the clients, or the instance was running, and neither of the
      two happens. */
  lemma RunsIff(i: Instance, w: World)
    requires FitsInt32(i.spec.minAvailableClients)
    ensures NextPhase(i, w).Running? <==>
              && !NextPhase(i, w).Failed? && !NextPhase(i, w).Completed?
              && (StartsClients(i, w) || i.phase.Running?)
  {
    Outcome(i, w);
  }

  /** It leaves an instance waiting exactly when the instance was waiting or new, and clients were not started. */
  lemma WaitsIff(i: Instance, w: World)
    requires FitsInt32(i.spec.minAvailableClients)
    ensures NextPhase(i, w).Waiting? <==>
              (i.phase.Unset? || i.phase.Waiting?) && !StartsClients(i, w) && !NextPhase(i, w).Failed?
  {
    Outcome(i, w);
  }

  lemma Outcome(i: Instance, w: World)
    ensures Publishes(i, w).Success? <==> Serves(i, w, ListenersAfter(i, w))
    ensures w.placement.Success? ==>
              (WorkloadsOk(w, ListenersAfter(i, w), w.placement.value)
               <==> EveryClientWorks(w, ListenersAfter(i, w), w.placement.value))
  {
    PublishesIs(i, w);
    if w.placement.Success? {
      WorkloadsOkIs(w, ListenersAfter(i, w), w.placement.value);
    }
  }
}
