/** Runs in ClusterProfile mode, with the controllers of many clusters interleaved on the shared store. */
module KueueProfileRuns {
  import opened KueueHub
  import opened Wrappers

  function PutProfileSlice(cfg: Config, st: Store, c: string, s: ProfileSlice): Store {
    st.(permissions := Store1(st.permissions, c, s.perm),
        msas := Store1(st.msas, c, s.msa),
        secrets := Store1(Store1(st.secrets, TokenKey(c), s.token), SyncedKey(cfg, c), s.synced),
        mkclusters := Store1(st.mkclusters, c, s.mk))
  }

  function ActOnProfile(cfg: Config, st: Store, c: string, manager: string, a: ProfileAction): Store {
    PutProfileSlice(cfg, st, c, ActProfile(cfg, Lookup(st.clusters, c), Lookup(st.profiles, c),
                                           GetProfileSlice(cfg, st, c), c, manager, a))
  }

  // ---------------------------------------------------------------------------------------------
  // The objects of different clusters are apart
  // ---------------------------------------------------------------------------------------------

  lemma SyncedKeysDiffer(cfg: Config, c: string, d: string)
    ensures TokenKey(c) != SyncedKey(cfg, d)
    ensures c != d ==> TokenKey(c) != TokenKey(d) && SyncedKey(cfg, c) != SyncedKey(cfg, d)
  {
    assert |SyncedKey(cfg, d).1| == |d| + 11 && |MULTIKUEUE| == 10;
    if SyncedKey(cfg, c) == SyncedKey(cfg, d) {
      assert SyncedKey(cfg, c).1[..|c|] == c && SyncedKey(cfg, d).1[..|d|] == d;
    }
  }

  lemma SecretsAfterPut(cfg: Config, st: Store, c: string, s: ProfileSlice, k: (string, string))
    ensures Lookup(PutProfileSlice(cfg, st, c, s).secrets, k)
            == if k == SyncedKey(cfg, c) then s.synced else if k == TokenKey(c) then s.token else Lookup(st.secrets, k)
  {
    LookupStore1(st.secrets, TokenKey(c), s.token, k);
    LookupStore1(Store1(st.secrets, TokenKey(c), s.token), SyncedKey(cfg, c), s.synced, k);
  }

  lemma ProfileGetPut(cfg: Config, st: Store, c: string, s: ProfileSlice, d: string)
    ensures GetProfileSlice(cfg, PutProfileSlice(cfg, st, c, s), d) == if d == c then s else GetProfileSlice(cfg, st, d)
  {
    SyncedKeysDiffer(cfg, c, c);
    SyncedKeysDiffer(cfg, c, d);
    SyncedKeysDiffer(cfg, d, c);
    SecretsAfterPut(cfg, st, c, s, TokenKey(d));
    SecretsAfterPut(cfg, st, c, s, SyncedKey(cfg, d));
    LookupStore1(st.permissions, c, s.perm, d);
    LookupStore1(st.msas, c, s.msa, d);
    LookupStore1(st.mkclusters, c, s.mk, d);
  }

  lemma ProfilePutGet(cfg: Config, st: Store, c: string)
    ensures PutProfileSlice(cfg, st, c, GetProfileSlice(cfg, st, c)) == st
  {
    LookupStore1(st.permissions, c, None, c);
    LookupStore1(st.msas, c, None, c);
    LookupStore1(st.mkclusters, c, None, c);
    LookupStore1(st.secrets, TokenKey(c), None, TokenKey(c));
    LookupStore1(st.secrets, SyncedKey(cfg, c), None, SyncedKey(cfg, c));
  }

  lemma ActOnOneProfile(cfg: Config, st: Store, d: string, manager: string, a: ProfileAction, c: string)
    ensures var st1 := ActOnProfile(cfg, st, d, manager, a);
            var t := ActProfile(cfg, Lookup(st.clusters, d), Lookup(st.profiles, d), GetProfileSlice(cfg, st, d), d,
                                manager, a);
            && st1.clusters == st.clusters && st1.profiles == st.profiles
            && GetProfileSlice(cfg, st1, c) == (if d == c then t else GetProfileSlice(cfg, st, c))
            && (st1 == st <==> t == GetProfileSlice(cfg, st, d))
  {
    var t := ActProfile(cfg, Lookup(st.clusters, d), Lookup(st.profiles, d), GetProfileSlice(cfg, st, d), d, manager,
                        a);
    ProfileGetPut(cfg, st, d, t, c);
    ProfileGetPut(cfg, st, d, t, d);
    ProfilePutGet(cfg, st, d);
  }

  // ---------------------------------------------------------------------------------------------
  // Runs for one cluster
  // ---------------------------------------------------------------------------------------------

  /** What stays the same during a run: the cluster, its profile, and the manager its profiles are to name. */
  datatype Scene = Scene(name: string, cluster: ManagedCluster, profile: Option<Profile>, manager: string)

  function Step(cfg: Config, e: Scene, s: ProfileSlice, a: ProfileAction): ProfileSlice {
    ActProfile(cfg, Some(e.cluster), e.profile, s, e.name, e.manager, a)
  }

  function RunProfile(cfg: Config, e: Scene, s: ProfileSlice, run: seq<ProfileAction>): ProfileSlice
    decreases |run|
  {
    if run == [] then s else RunProfile(cfg, e, Step(cfg, e, s, run[0]), run[1..])
  }

  function EffectiveProfileSteps(cfg: Config, e: Scene, s: ProfileSlice, run: seq<ProfileAction>): nat
    decreases |run|
  {
    if run == [] then 0
    else
      var t := Step(cfg, e, s, run[0]);
      B2N(t != s) + EffectiveProfileSteps(cfg, e, t, run[1..])
  }

  /** In any interleaving and with any failures, a run for one cluster has at most 23 effective steps. */
  lemma {:induction false} ProfileRunsConverge(cfg: Config, e: Scene, s: ProfileSlice, issued: SecretData,
                                               run: seq<ProfileAction>)
    requires forall i :: 0 <= i < |run| && run[i].ProfileToken? ==> run[i].issued == issued
    ensures EffectiveProfileSteps(cfg, e, s, run)
            + ProfileMeasure(cfg, e.cluster, e.profile, RunProfile(cfg, e, s, run), e.name, issued)
            <= ProfileMeasure(cfg, e.cluster, e.profile, s, e.name, issued) <= 23
    decreases |run|
  {
    if run != [] {
      var t := Step(cfg, e, s, run[0]);
      if t != s {
        EffectiveProfileStepDecreases(cfg, e.cluster, e.profile, s, e.name, e.manager, issued, run[0]);
      }
      ProfileRunsConverge(cfg, e, t, issued, run[1..]);
    }
  }

  // ---------------------------------------------------------------------------------------------
  // Runs for many clusters on one store
  // ---------------------------------------------------------------------------------------------

  datatype StoreProfileAction = OnProfile(cluster: string, action: ProfileAction)

  function RunProfiles(cfg: Config, st: Store, manager: string, run: seq<StoreProfileAction>): Store
    decreases |run|
  {
    if run == [] then st
    else RunProfiles(cfg, ActOnProfile(cfg, st, run[0].cluster, manager, run[0].action), manager, run[1..])
  }

  function ProfileActionsOn(run: seq<StoreProfileAction>, c: string): seq<ProfileAction> {
    if run == [] then []
    else (if run[0].cluster == c then [run[0].action] else []) + ProfileActionsOn(run[1..], c)
  }

  /** How many steps of a run are about the cluster and change the store. */
  function EffectiveOnProfile(cfg: Config, st: Store, manager: string, run: seq<StoreProfileAction>, c: string): nat
    decreases |run|
  {
    if run == [] then 0
    else
      var st1 := ActOnProfile(cfg, st, run[0].cluster, manager, run[0].action);
      B2N(run[0].cluster == c && st1 != st) + EffectiveOnProfile(cfg, st1, manager, run[1..], c)
  }

  function SceneOf(st: Store, c: string, manager: string): Scene
    requires c in st.clusters
  {
    Scene(c, st.clusters[c], Lookup(st.profiles, c), manager)
  }

  /** What other clusters do in between does not matter to a cluster. */
  lemma {:induction false} ProfileRunsAreIndependent(cfg: Config, st: Store, manager: string,
                                                     run: seq<StoreProfileAction>, c: string)
    requires c in st.clusters
    ensures GetProfileSlice(cfg, RunProfiles(cfg, st, manager, run), c)
            == RunProfile(cfg, SceneOf(st, c, manager), GetProfileSlice(cfg, st, c), ProfileActionsOn(run, c))
    ensures EffectiveOnProfile(cfg, st, manager, run, c)
            == EffectiveProfileSteps(cfg, SceneOf(st, c, manager), GetProfileSlice(cfg, st, c),
                                     ProfileActionsOn(run, c))
    decreases |run|
  {
    if run != [] {
      var d, a := run[0].cluster, run[0].action;
      ActOnOneProfile(cfg, st, d, manager, a, c);
      ProfileRunsAreIndependent(cfg, ActOnProfile(cfg, st, d, manager, a), manager, run[1..], c);
      if d == c {
        var own := ProfileActionsOn(run, c);
        assert own == [a] + ProfileActionsOn(run[1..], c);
        assert own[0] == a && own[1..] == ProfileActionsOn(run[1..], c);
      } else {
        assert ProfileActionsOn(run, c) == ProfileActionsOn(run[1..], c);
      }
    }
  }

  lemma {:induction false} ProfileActionsOnMembers(run: seq<StoreProfileAction>, c: string, a: ProfileAction)
    requires a in ProfileActionsOn(run, c)
    ensures OnProfile(c, a) in run
  {
    if !(run[0].cluster == c && run[0].action == a) {
      ProfileActionsOnMembers(run[1..], c, a);
    }
  }

  /** On the shared store, with the steps for all clusters interleaved in any way and failing at will, at most 23 steps
      of each cluster change anything. */
  lemma ProfileRunsOnStoreConverge(cfg: Config, st: Store, manager: string, run: seq<StoreProfileAction>, c: string,
                                   issued: string -> SecretData)
    requires c in st.clusters
    requires forall x :: x in run && x.action.ProfileToken? ==> x.action.issued == issued(x.cluster)
    ensures var left := GetProfileSlice(cfg, RunProfiles(cfg, st, manager, run), c);
            EffectiveOnProfile(cfg, st, manager, run, c)
            + ProfileMeasure(cfg, st.clusters[c], Lookup(st.profiles, c), left, c, issued(c))
            <= ProfileMeasure(cfg, st.clusters[c], Lookup(st.profiles, c), GetProfileSlice(cfg, st, c), c, issued(c))
            <= 23
  {
    var own := ProfileActionsOn(run, c);
    forall i | 0 <= i < |own| && own[i].ProfileToken?
      ensures own[i].issued == issued(c)
    {
      assert own[i] in own;
      ProfileActionsOnMembers(run, c, own[i]);
    }
    ProfileRunsAreIndependent(cfg, st, manager, run, c);
    ProfileRunsConverge(cfg, SceneOf(st, c, manager), GetProfileSlice(cfg, st, c), issued(c), own);
  }
}
