/** The hub objects that connect a managed cluster to MultiKueue, and the controllers that maintain them:
    secret generation, secret copy, and (in ClusterProfile mode) the MultiKueueCluster controller.
    Caches are up to date; every Get and every write may fail. */
module KueueHub {
  import opened Wrappers

  // ---------------------------------------------------------------------------------------------
  // Objects
  // ---------------------------------------------------------------------------------------------

  datatype ManagedCluster = ManagedCluster(deleting: bool, urls: seq<string>)

  datatype Subject = Subject(apiGroup: string, kind: string, name: string, namespace: string)

  datatype Msa = Msa(rotation: bool, validityHours: int)

  datatype Kubeconfig = Kubeconfig(ca: string, server: string, cluster: string, user: string, token: string)

  datatype SecretData = TokenData(data: map<string, string>) | KubeconfigData(config: Kubeconfig)

  datatype MkSpec = MkSpec(location: Option<string>, profileRef: Option<string>)

  datatype Profile = Profile(manager: string, clusterLabel: string, providers: seq<string>)

  /** Process environment. `podAccount` is None when one of its two variables is unset;
      `hubToken` and `hubCA` are None when they cannot be read at all. */
  datatype Config = Config(
    impersonation: bool,
    proxyUrl: string,
    kueueNamespace: string,
    podAccount: Option<(string, string)>,
    hubToken: Option<string>,
    hubCA: Option<string>)

  const MULTIKUEUE := "multikueue"
  
  datatype Store = Store(
    clusters: map<string, ManagedCluster>,
    profiles: map<string, Profile>,
    permissions: map<string, Subject>,
    msas: map<string, Msa>,
    secrets: map<(string, string), SecretData>,
    mkclusters: map<string, MkSpec>)

  function TokenKey(c: string): (string, string) { (c, MULTIKUEUE) }

  function KubeconfigName(c: string): string { MULTIKUEUE + "-" + c }

  function KubeconfigKey(cfg: Config, c: string): (string, string) { (cfg.kueueNamespace, KubeconfigName(c)) }

  function Lookup<K(==), V>(m: map<K, V>, k: K): Option<V> {
    if k in m then Some(m[k]) else None
  }

  function Store1<K(==), V>(m: map<K, V>, k: K, v: Option<V>): map<K, V> {
    match v case Some(x) => m[k := x] case None => m - {k}
  }

  /** The objects of one cluster. */
  datatype Slice = Slice(
    perm: Option<Subject>,
    msa: Option<Msa>,
    token: Option<SecretData>,
    kube: Option<SecretData>,
    mk: Option<MkSpec>)

  function Get(cfg: Config, st: Store, c: string): Slice {
    Slice(Lookup(st.permissions, c), Lookup(st.msas, c), Lookup(st.secrets, TokenKey(c)),
          Lookup(st.secrets, KubeconfigKey(cfg, c)), Lookup(st.mkclusters, c))
  }

  function Put(cfg: Config, st: Store, c: string, s: Slice): Store {
    st.(permissions := Store1(st.permissions, c, s.perm),
        msas := Store1(st.msas, c, s.msa),
        secrets := Store1(Store1(st.secrets, TokenKey(c), s.token), KubeconfigKey(cfg, c), s.kube),
        mkclusters := Store1(st.mkclusters, c, s.mk))
  }

  // ---------------------------------------------------------------------------------------------
  // Secret generation
  // ---------------------------------------------------------------------------------------------

  function DesiredSubject(cfg: Config): Option<Subject> {
    if cfg.impersonation then
      match cfg.podAccount
      case None => None
      case Some((name, namespace)) =>
        Some(Subject("rbac.authorization.k8s.io", "User",
                     "cluster:hub:system:serviceaccount:" + namespace + ":" + name, ""))
    else Some(Subject("", "ServiceAccount", MULTIKUEUE, "open-cluster-management-agent-addon"))
  }

  const DESIRED_MSA := Msa(true, 8640)

  /** Which of the two objects cannot be read or written in this sync. */
  datatype GenFaults = GenFaults(perm: bool, msa: bool)

  function Gen(cfg: Config, cluster: Option<ManagedCluster>, s: Slice, f: GenFaults): Slice {
    if cluster.None? then s
    else if cluster.value.deleting then
      if f.perm then s
      else if cfg.impersonation || f.msa then s.(perm := None)
      else s.(perm := None, msa := None)
    else if DesiredSubject(cfg).None? || f.perm then s
    else if cfg.impersonation || f.msa then s.(perm := DesiredSubject(cfg))
    else s.(perm := DesiredSubject(cfg), msa := Some(DESIRED_MSA))
  }

  // ---------------------------------------------------------------------------------------------
  // The environment: the service-account add-on keeps the token secret of an existing ManagedServiceAccount
  // ---------------------------------------------------------------------------------------------

  function IssueToken(s: Slice, issued: SecretData): Slice {
    s.(token := if s.msa.Some? then Some(issued) else None)
  }

  // ---------------------------------------------------------------------------------------------
  // Secret copy
  // ---------------------------------------------------------------------------------------------

  function ClusterUrl(cfg: Config, cluster: Option<ManagedCluster>, c: string): Option<string> {
    if cfg.proxyUrl != "" then
      Some((if cfg.proxyUrl[|cfg.proxyUrl| - 1] == '/' then cfg.proxyUrl else cfg.proxyUrl + "/") + c)
    else if cluster.None? || cluster.value.urls == [] then None
    else Some(cluster.value.urls[0])
  }

  function Field(secret: SecretData, key: string): Option<string> {
    if secret.TokenData? then Lookup(secret.data, key) else None
  }

  /** The kubeconfig for the current token, or None where building it fails. */
  function BuildKubeconfig(cfg: Config, cluster: Option<ManagedCluster>, s: Slice, c: string): Option<SecretData> {
    var url := ClusterUrl(cfg, cluster, c);
    if url.None? then None
    else if cfg.impersonation then
      if cfg.hubToken.None? || cfg.hubCA.None? then None
      else Some(KubeconfigData(Kubeconfig(cfg.hubCA.value, url.value, c, "kueue-addon-controller", cfg.hubToken.value)))
    else if s.token.None? || Field(s.token.value, "token").None? then None
    else
      var ca := if cfg.proxyUrl != "" then cfg.hubCA else Field(s.token.value, "ca.crt");
      if ca.None? then None
      else Some(KubeconfigData(Kubeconfig(ca.value, url.value, c, MULTIKUEUE, Field(s.token.value, "token").value)))
  }

  function DesiredMk(c: string): MkSpec { MkSpec(Some(KubeconfigName(c)), None) }

  predicate ShouldCleanup(cfg: Config, s: Slice) {
    s.perm.None? || (!cfg.impersonation && s.token.None?)
  }

  /** `tokenGet`: the existence check of the token secret fails with an error other than NotFound, which is ignored.
      `build`: something the kubeconfig is built from cannot be read. `kube`, `mk`: the object cannot be read or
      written. */
  datatype CopyFaults = CopyFaults(tokenGet: bool, build: bool, kube: bool, mk: bool)

  function Copy(cfg: Config, cluster: Option<ManagedCluster>, s: Slice, c: string, f: CopyFaults): Slice {
    if s.perm.None? || (!cfg.impersonation && !f.tokenGet && s.token.None?) then
      if f.kube then s
      else if f.mk then s.(kube := None)
      else s.(kube := None, mk := None)
    else
      var built := BuildKubeconfig(cfg, cluster, s, c);
      if built.None? || f.build || f.kube then s
      else if f.mk then s.(kube := built)
      else s.(kube := built, mk := Some(DesiredMk(c)))
  }

  // ---------------------------------------------------------------------------------------------
  // Steps
  // ---------------------------------------------------------------------------------------------

  datatype Action = GenSync(g: GenFaults) | TokenIssue(issued: SecretData) | CopySync(f: CopyFaults)

  function ActSlice(cfg: Config, cluster: Option<ManagedCluster>, s: Slice, c: string, a: Action): Slice {
    match a
    case GenSync(g) => Gen(cfg, cluster, s, g)
    case TokenIssue(issued) => IssueToken(s, issued)
    case CopySync(f) => Copy(cfg, cluster, s, c, f)
  }

  function Act(cfg: Config, st: Store, c: string, a: Action): Store {
    Put(cfg, st, c, ActSlice(cfg, Lookup(st.clusters, c), Get(cfg, st, c), c, a))
  }

  lemma KeysDiffer(cfg: Config, c: string, d: string)
    ensures TokenKey(c) != KubeconfigKey(cfg, d)
    ensures c != d ==> TokenKey(c) != TokenKey(d) && KubeconfigKey(cfg, c) != KubeconfigKey(cfg, d)
  {
    assert |KubeconfigName(d)| == 11 + |d| && |MULTIKUEUE| == 10;
    if KubeconfigName(c) == KubeconfigName(d) {
      assert KubeconfigName(c)[11..] == c && KubeconfigName(d)[11..] == d;
    }
  }

  lemma LookupStore1<K, V>(m: map<K, V>, k: K, v: Option<V>, j: K)
    ensures Lookup(Store1(m, k, v), j) == if j == k then v else Lookup(m, j)
    ensures Store1(m, k, Lookup(m, k)) == m
  {
  }

  lemma Store1Commute<K, V>(m: map<K, V>, k: K, v: Option<V>, j: K, w: Option<V>)
    requires k != j
    ensures Store1(Store1(m, k, v), j, w) == Store1(Store1(m, j, w), k, v)
  {
  }

  lemma GetPut(cfg: Config, st: Store, c: string, s: Slice, d: string)
    ensures Get(cfg, Put(cfg, st, c, s), c) == s
    ensures c != d ==> Get(cfg, Put(cfg, st, c, s), d) == Get(cfg, st, d)
    ensures Put(cfg, st, c, Get(cfg, st, c)) == st
  {
    KeysDiffer(cfg, c, c);
    KeysDiffer(cfg, c, d);
    KeysDiffer(cfg, d, c);
    forall e | e == c || e == d ensures
        && Lookup(Store1(st.permissions, c, s.perm), e) == (if e == c then s.perm else Lookup(st.permissions, e))
        && Lookup(Store1(st.msas, c, s.msa), e) == (if e == c then s.msa else Lookup(st.msas, e))
        && Lookup(Store1(st.mkclusters, c, s.mk), e) == (if e == c then s.mk else Lookup(st.mkclusters, e))
    {
      LookupStore1(st.permissions, c, s.perm, e);
      LookupStore1(st.msas, c, s.msa, e);
      LookupStore1(st.mkclusters, c, s.mk, e);
    }
    var mid := Store1(st.secrets, TokenKey(c), s.token);
    forall k ensures Lookup(Store1(mid, KubeconfigKey(cfg, c), s.kube), k) ==
        (if k == KubeconfigKey(cfg, c) then s.kube else if k == TokenKey(c) then s.token else Lookup(st.secrets, k))
    {
      LookupStore1(st.secrets, TokenKey(c), s.token, k);
      LookupStore1(mid, KubeconfigKey(cfg, c), s.kube, k);
    }
    PutGet(cfg, st, c);
  }

  lemma PutGet(cfg: Config, st: Store, c: string)
    ensures Put(cfg, st, c, Get(cfg, st, c)) == st
  {
    LookupStore1(st.permissions, c, None, c);
    LookupStore1(st.msas, c, None, c);
    LookupStore1(st.mkclusters, c, None, c);
    LookupStore1(st.secrets, TokenKey(c), None, TokenKey(c));
    LookupStore1(st.secrets, KubeconfigKey(cfg, c), None, KubeconfigKey(cfg, c));
  }

  lemma PutPut(cfg: Config, st: Store, c: string, s: Slice, d: string, t: Slice)
    requires c != d
    ensures Put(cfg, Put(cfg, st, c, s), d, t) == Put(cfg, Put(cfg, st, d, t), c, s)
  {
    Store1Commute(st.permissions, c, s.perm, d, t.perm);
    Store1Commute(st.msas, c, s.msa, d, t.msa);
    Store1Commute(st.mkclusters, c, s.mk, d, t.mk);
    KeysDiffer(cfg, c, d);
    KeysDiffer(cfg, d, c);
    var ct, ck, dt, dk := TokenKey(c), KubeconfigKey(cfg, c), TokenKey(d), KubeconfigKey(cfg, d);
    var m := st.secrets;
    calc {
      Store1(Store1(Store1(Store1(m, ct, s.token), ck, s.kube), dt, t.token), dk, t.kube);
      { Store1Commute(Store1(m, ct, s.token), ck, s.kube, dt, t.token); }
      Store1(Store1(Store1(Store1(m, ct, s.token), dt, t.token), ck, s.kube), dk, t.kube);
      { Store1Commute(m, ct, s.token, dt, t.token); }
      Store1(Store1(Store1(Store1(m, dt, t.token), ct, s.token), ck, s.kube), dk, t.kube);
      { Store1Commute(Store1(Store1(m, dt, t.token), ct, s.token), ck, s.kube, dk, t.kube); }
      Store1(Store1(Store1(Store1(m, dt, t.token), ct, s.token), dk, t.kube), ck, s.kube);
      { Store1Commute(Store1(m, dt, t.token), ct, s.token, dk, t.kube); }
      Store1(Store1(Store1(Store1(m, dt, t.token), dk, t.kube), ct, s.token), ck, s.kube);
    }
  }

  /** Steps for different clusters commute, although their secrets share one namespace. */
  lemma StepsCommute(cfg: Config, st: Store, c: string, a: Action, d: string, b: Action)
    requires c != d
    ensures Act(cfg, Act(cfg, st, c, a), d, b) == Act(cfg, Act(cfg, st, d, b), c, a)
  {
    var s := ActSlice(cfg, Lookup(st.clusters, c), Get(cfg, st, c), c, a);
    var t := ActSlice(cfg, Lookup(st.clusters, d), Get(cfg, st, d), d, b);
    GetPut(cfg, st, c, s, d);
    GetPut(cfg, st, d, t, c);
    PutPut(cfg, st, c, s, d, t);
  }

  // ---------------------------------------------------------------------------------------------
  // Convergence
  // ---------------------------------------------------------------------------------------------

  function B2N(b: bool): nat { if b then 1 else 0 }

  /** What secret generation wants of the permission, in the cluster's current phase. */
  function PermTarget(cfg: Config, cluster: ManagedCluster): Option<Subject> {
    if cluster.deleting then None else DesiredSubject(cfg)
  }

  function MsaTarget(cluster: ManagedCluster): Option<Msa> {
    if cluster.deleting then None else Some(DESIRED_MSA)
  }

  function TokenTarget(s: Slice, issued: SecretData): Option<SecretData> {
    if s.msa.Some? then Some(issued) else None
  }

  /** What secret copy wants, given the permission and the token it sees now. */
  function KubeTarget(cfg: Config, cluster: ManagedCluster, s: Slice, c: string): Option<SecretData> {
    if ShouldCleanup(cfg, s) then None else BuildKubeconfig(cfg, Some(cluster), s, c)
  }

  function MkTarget(cfg: Config, s: Slice, c: string): Option<MkSpec> {
    if ShouldCleanup(cfg, s) then None else Some(DesiredMk(c))
  }

  function Upstream(cfg: Config, cluster: ManagedCluster, s: Slice): nat {
    B2N(s.perm != PermTarget(cfg, cluster)) + B2N(!cfg.impersonation && s.msa != MsaTarget(cluster))
  }

  function Downstream(cfg: Config, cluster: ManagedCluster, s: Slice, c: string): nat {
    B2N(s.kube != KubeTarget(cfg, cluster, s, c)) + B2N(s.mk != MkTarget(cfg, s, c))
  }

  /** Objects out of place: permission and service account first, then the token, then kubeconfig and
      MultiKueueCluster. */
  function Measure(cfg: Config, cluster: ManagedCluster, s: Slice, c: string, issued: SecretData): nat {
    6 * Upstream(cfg, cluster, s) + 3 * B2N(s.token != TokenTarget(s, issued)) + Downstream(cfg, cluster, s, c)
  }

  /** A token secret the kubeconfig can be built from in this configuration. */
  predicate UsableToken(cfg: Config, issued: SecretData) {
    && Field(issued, "token").Some?
    && (cfg.proxyUrl != "" ==> cfg.hubCA.Some?)
    && (cfg.proxyUrl == "" ==> Field(issued, "ca.crt").Some?)
  }

  /** The cluster can be connected: its URL is known, and the credentials of the mode are available. */
  predicate Connectable(cfg: Config, cluster: ManagedCluster, c: string, issued: SecretData) {
    && ClusterUrl(cfg, Some(cluster), c).Some?
    && (if cfg.impersonation then cfg.podAccount.Some? && cfg.hubToken.Some? && cfg.hubCA.Some?
        else UsableToken(cfg, issued))
  }

  /** Every step that changes something strictly decreases the measure, whatever fails in it. */
  lemma EffectiveStepDecreases(cfg: Config, cluster: ManagedCluster, s: Slice, c: string, issued: SecretData, a: Action)
    requires a.TokenIssue? ==> a.issued == issued
    requires ActSlice(cfg, Some(cluster), s, c, a) != s
    ensures Measure(cfg, cluster, ActSlice(cfg, Some(cluster), s, c, a), c, issued)
            < Measure(cfg, cluster, s, c, issued)
  {
    var t := ActSlice(cfg, Some(cluster), s, c, a);
    match a
    case GenSync(g) =>
      assert Upstream(cfg, cluster, t) < Upstream(cfg, cluster, s);
    case TokenIssue(_) =>
      assert t.token == TokenTarget(s, issued) == TokenTarget(t, issued);
    case CopySync(f) =>
      assert KubeTarget(cfg, cluster, t, c) == KubeTarget(cfg, cluster, s, c);
      assert Downstream(cfg, cluster, t, c) < Downstream(cfg, cluster, s, c);
  }

  const NO_GEN_FAULTS := GenFaults(false, false)
  const NO_COPY_FAULTS := CopyFaults(false, false, false, false)

  /** No fault-free step of any party changes anything. */
  predicate Quiet(cfg: Config, cluster: ManagedCluster, s: Slice, c: string, issued: SecretData) {
    && Gen(cfg, Some(cluster), s, NO_GEN_FAULTS) == s
    && IssueToken(s, issued) == s
    && Copy(cfg, Some(cluster), s, c, NO_COPY_FAULTS) == s
  }

  /** All four objects are there and linked: the kubeconfig holds the current credentials and URL,
      and the MultiKueueCluster points at the kubeconfig secret. */
  predicate Linked(cfg: Config, cluster: ManagedCluster, s: Slice, c: string, issued: SecretData) {
    && s.perm.Some? && s.perm == DesiredSubject(cfg)
    && (!cfg.impersonation ==> s.msa == Some(DESIRED_MSA) && s.token == Some(issued))
    && s.mk == Some(DesiredMk(c))
    && s.kube.Some? && s.kube.value.KubeconfigData?
    && var k := s.kube.value.config;
       && k.cluster == c && Some(k.server) == ClusterUrl(cfg, Some(cluster), c)
       && (if cfg.impersonation then
             k.user == "kueue-addon-controller" && Some(k.token) == cfg.hubToken && Some(k.ca) == cfg.hubCA
           else
             && k.user == MULTIKUEUE && Some(k.token) == Field(issued, "token")
             && Some(k.ca) == if cfg.proxyUrl != "" then cfg.hubCA else Field(issued, "ca.crt"))
  }

  /** The service account and its token belong to the flow only outside impersonation mode. */
  predicate Absent(cfg: Config, s: Slice) {
    && s.perm.None? && s.kube.None? && s.mk.None?
    && (!cfg.impersonation ==> s.msa.None? && s.token.None?)
  }

  predicate TokenFollowsMsa(s: Slice, issued: SecretData) {
    s.token == TokenTarget(s, issued)
  }

  /** For a live, connectable cluster the only quiet state is the linked one. */
  lemma LiveFixpoint(cfg: Config, cluster: ManagedCluster, s: Slice, c: string, issued: SecretData)
    requires !cluster.deleting && Connectable(cfg, cluster, c, issued)
    ensures Quiet(cfg, cluster, s, c, issued)
            <==> Linked(cfg, cluster, s, c, issued) && TokenFollowsMsa(s, issued)
    ensures Quiet(cfg, cluster, s, c, issued) <==> Measure(cfg, cluster, s, c, issued) == 0
  {
  }

  /** For a deleting cluster the only quiet state is the empty one. */
  lemma DeletingFixpoint(cfg: Config, cluster: ManagedCluster, s: Slice, c: string, issued: SecretData)
    requires cluster.deleting
    ensures Quiet(cfg, cluster, s, c, issued) <==> Absent(cfg, s) && TokenFollowsMsa(s, issued)
    ensures Quiet(cfg, cluster, s, c, issued) <==> Measure(cfg, cluster, s, c, issued) == 0
  {
  }

  /** One fault-free round in order settles a live or deleting cluster. */
  lemma OneRoundSettles(cfg: Config, cluster: ManagedCluster, s: Slice, c: string, issued: SecretData)
    requires cluster.deleting || Connectable(cfg, cluster, c, issued)
    ensures var s1 := Gen(cfg, Some(cluster), s, NO_GEN_FAULTS);
            var s2 := IssueToken(s1, issued);
            Quiet(cfg, cluster, Copy(cfg, Some(cluster), s2, c, NO_COPY_FAULTS), c, issued)
  {
  }

  function RunSlice(cfg: Config, cluster: ManagedCluster, s: Slice, c: string, run: seq<Action>): Slice
    decreases |run|
  {
    if run == [] then s
    else RunSlice(cfg, cluster, ActSlice(cfg, Some(cluster), s, c, run[0]), c, run[1..])
  }

  /** How many steps of a run change something. */
  function EffectiveSteps(cfg: Config, cluster: ManagedCluster, s: Slice, c: string, run: seq<Action>): nat
    decreases |run|
  {
    if run == [] then 0
    else
      var t := ActSlice(cfg, Some(cluster), s, c, run[0]);
      B2N(t != s) + EffectiveSteps(cfg, cluster, t, c, run[1..])
  }

  /** In any interleaving and with any failures, a run has at most as many effective steps as the measure it uses up:
      never more than 17. */
  lemma {:induction false} RunsConverge(cfg: Config, cluster: ManagedCluster, s: Slice, c: string, issued: SecretData,
                                        run: seq<Action>)
    requires forall i :: 0 <= i < |run| && run[i].TokenIssue? ==> run[i].issued == issued
    ensures EffectiveSteps(cfg, cluster, s, c, run)
            + Measure(cfg, cluster, RunSlice(cfg, cluster, s, c, run), c, issued)
            <= Measure(cfg, cluster, s, c, issued) <= 17
    decreases |run|
  {
    if run != [] {
      var t := ActSlice(cfg, Some(cluster), s, c, run[0]);
      if t != s {
        EffectiveStepDecreases(cfg, cluster, s, c, issued, run[0]);
      }
      RunsConverge(cfg, cluster, t, c, issued, run[1..]);
    }
  }

  // ---------------------------------------------------------------------------------------------
  // Many clusters on one store
  // ---------------------------------------------------------------------------------------------

  datatype StoreAction = On(cluster: string, action: Action)

  function RunStore(cfg: Config, st: Store, run: seq<StoreAction>): Store
    decreases |run|
  {
    if run == [] then st else RunStore(cfg, Act(cfg, st, run[0].cluster, run[0].action), run[1..])
  }

  /** The actions of a run that are about one cluster. */
  function ActionsOn(run: seq<StoreAction>, c: string): seq<Action> {
    if run == [] then []
    else (if run[0].cluster == c then [run[0].action] else []) + ActionsOn(run[1..], c)
  }

  /** How many steps of a run are about the cluster and change the store. */
  function EffectiveOn(cfg: Config, st: Store, run: seq<StoreAction>, c: string): nat
    decreases |run|
  {
    if run == [] then 0
    else
      var st1 := Act(cfg, st, run[0].cluster, run[0].action);
      B2N(run[0].cluster == c && st1 != st) + EffectiveOn(cfg, st1, run[1..], c)
  }

  lemma ActOnSlice(cfg: Config, st: Store, d: string, a: Action, c: string)
    ensures Act(cfg, st, d, a).clusters == st.clusters
    ensures d != c ==> Get(cfg, Act(cfg, st, d, a), c) == Get(cfg, st, c)
    ensures d == c ==> Get(cfg, Act(cfg, st, d, a), c) == ActSlice(cfg, Lookup(st.clusters, c), Get(cfg, st, c), c, a)
    ensures d == c ==> (Act(cfg, st, d, a) == st
                        <==> ActSlice(cfg, Lookup(st.clusters, c), Get(cfg, st, c), c, a) == Get(cfg, st, c))
  {
    GetPut(cfg, st, d, ActSlice(cfg, Lookup(st.clusters, d), Get(cfg, st, d), d, a), c);
    PutGet(cfg, st, c);
  }

  /** What other clusters do in between does not matter to a cluster: its part of a run on the shared store is the run
      of its own actions on its own objects. */
  lemma {:induction false} RunsOnStoreAreIndependent(cfg: Config, st: Store, run: seq<StoreAction>, c: string)
    requires c in st.clusters
    ensures RunStore(cfg, st, run).clusters == st.clusters
    ensures Get(cfg, RunStore(cfg, st, run), c)
            == RunSlice(cfg, st.clusters[c], Get(cfg, st, c), c, ActionsOn(run, c))
    ensures EffectiveOn(cfg, st, run, c)
            == EffectiveSteps(cfg, st.clusters[c], Get(cfg, st, c), c, ActionsOn(run, c))
    decreases |run|
  {
    if run != [] {
      var d, a := run[0].cluster, run[0].action;
      ActOnSlice(cfg, st, d, a, c);
      RunsOnStoreAreIndependent(cfg, Act(cfg, st, d, a), run[1..], c);
      if d == c {
        var own := ActionsOn(run, c);
        assert own == [a] + ActionsOn(run[1..], c);
        assert own[0] == a && own[1..] == ActionsOn(run[1..], c);
      } else {
        assert ActionsOn(run, c) == ActionsOn(run[1..], c);
      }
    }
  }

  lemma {:induction false} ActionsOnMembers(run: seq<StoreAction>, c: string, a: Action)
    requires a in ActionsOn(run, c)
    ensures On(c, a) in run
  {
    if !(run[0].cluster == c && run[0].action == a) {
      ActionsOnMembers(run[1..], c, a);
    }
  }

  /** On the shared store, with the steps for all clusters interleaved in any way and failing at will, at most 17 steps
      of each cluster change anything; `issued` is the token of each service account. */
  lemma RunsOnStoreConverge(cfg: Config, st: Store, run: seq<StoreAction>, c: string, issued: string -> SecretData)
    requires c in st.clusters
    requires forall x :: x in run && x.action.TokenIssue? ==> x.action.issued == issued(x.cluster)
    ensures EffectiveOn(cfg, st, run, c)
            + Measure(cfg, st.clusters[c], Get(cfg, RunStore(cfg, st, run), c), c, issued(c))
            <= Measure(cfg, st.clusters[c], Get(cfg, st, c), c, issued(c)) <= 17
  {
    var own := ActionsOn(run, c);
    forall i | 0 <= i < |own| && own[i].TokenIssue?
      ensures own[i].issued == issued(c)
    {
      assert own[i] in own;
      ActionsOnMembers(run, c, own[i]);
    }
    RunsOnStoreAreIndependent(cfg, st, run, c);
    RunsConverge(cfg, st.clusters[c], Get(cfg, st, c), c, issued(c), own);
  }

  // ---------------------------------------------------------------------------------------------
  // ClusterProfile mode
  // ---------------------------------------------------------------------------------------------

  /** The objects of one cluster in ClusterProfile mode: the token secret is synced into the kueue namespace. */
  datatype ProfileSlice = ProfileSlice(
    perm: Option<Subject>,
    msa: Option<Msa>,
    token: Option<SecretData>,
    synced: Option<SecretData>,
    mk: Option<MkSpec>)

  function SyncedKey(cfg: Config, c: string): (string, string) { (cfg.kueueNamespace, c + "-" + MULTIKUEUE) }

  function GetProfileSlice(cfg: Config, st: Store, c: string): ProfileSlice {
    ProfileSlice(Lookup(st.permissions, c), Lookup(st.msas, c), Lookup(st.secrets, TokenKey(c)),
                 Lookup(st.secrets, SyncedKey(cfg, c)), Lookup(st.mkclusters, c))
  }

  /** `manager` is the name the registration controller gives to the profiles it owns. */
  predicate WellFormedProfile(p: Profile, c: string, manager: string) {
    p.manager == manager && p.clusterLabel == c && |p.providers| == 1 && p.providers[0] == manager
  }

  function ProfileMk(c: string): MkSpec { MkSpec(None, Some(c)) }

  predicate NeedsUpdate(existing: MkSpec, desired: MkSpec) {
    if existing.profileRef.None? && desired.profileRef.None? then false
    else if existing.profileRef.None? || desired.profileRef.None? then true
    else existing.profileRef.value != desired.profileRef.value
  }

  function MkSync(profile: Option<Profile>, s: ProfileSlice, c: string, manager: string, fault: bool): ProfileSlice {
    if profile.None? || s.perm.None? || s.synced.None? then (if fault then s else s.(mk := None))
    else if !WellFormedProfile(profile.value, c, manager) || fault then s
    else if s.mk.None? || NeedsUpdate(s.mk.value, ProfileMk(c)) then s.(mk := Some(ProfileMk(c)))
    else s
  }

  /** The environment: the credential syncer of the cluster profiles copies the token secret. */
  function SyncSecret(profile: Option<Profile>, s: ProfileSlice): ProfileSlice {
    s.(synced := if profile.Some? then s.token else None)
  }

  function AsSlice(s: ProfileSlice): Slice { Slice(s.perm, s.msa, s.token, None, s.mk) }

  function FromSlice(s: ProfileSlice, t: Slice): ProfileSlice { s.(perm := t.perm, msa := t.msa, token := t.token) }

  datatype ProfileAction =
    | ProfileGen(g: GenFaults)
    | ProfileToken(issued: SecretData)
    | ProfileSecret
    | ProfileMkSync(fault: bool)

  function ActProfile(cfg: Config, cluster: Option<ManagedCluster>, profile: Option<Profile>, s: ProfileSlice,
                      c: string,
                      manager: string, a: ProfileAction): ProfileSlice
  {
    match a
    case ProfileGen(g) => FromSlice(s, Gen(cfg, cluster, AsSlice(s), g))
    case ProfileToken(issued) => FromSlice(s, IssueToken(AsSlice(s), issued))
    case ProfileSecret => SyncSecret(profile, s)
    case ProfileMkSync(fault) => MkSync(profile, s, c, manager, fault)
  }

  /** The MultiKueueCluster is as the controller wants it: absent without its inputs, and otherwise referring to the
      cluster's profile. A kubeconfig source beside a correct profile reference is not corrected. */
  predicate MkSettled(profile: Option<Profile>, s: ProfileSlice, c: string) {
    if profile.None? || s.perm.None? || s.synced.None? then s.mk.None?
    else s.mk.Some? && s.mk.value.profileRef == Some(c)
  }

  function ProfileMeasure(cfg: Config, cluster: ManagedCluster, profile: Option<Profile>, s: ProfileSlice, c: string,
                          issued: SecretData): nat
  {
    8 * Upstream(cfg, cluster, AsSlice(s))
    + 4 * B2N(s.token != TokenTarget(AsSlice(s), issued))
    + 2 * B2N(s.synced != SyncSecret(profile, s).synced)
    + B2N(!MkSettled(profile, s, c))
  }

  lemma EffectiveProfileStepDecreases(cfg: Config, cluster: ManagedCluster, profile: Option<Profile>, s: ProfileSlice,
                                      c: string, manager: string, issued: SecretData, a: ProfileAction)
    requires a.ProfileToken? ==> a.issued == issued
    requires ActProfile(cfg, Some(cluster), profile, s, c, manager, a) != s
    ensures ProfileMeasure(cfg, cluster, profile, ActProfile(cfg, Some(cluster), profile, s, c, manager, a), c, issued)
            < ProfileMeasure(cfg, cluster, profile, s, c, issued)
  {
    var t := ActProfile(cfg, Some(cluster), profile, s, c, manager, a);
    match a
    case ProfileGen(_) => assert Upstream(cfg, cluster, AsSlice(t)) < Upstream(cfg, cluster, AsSlice(s));
    case ProfileToken(_) =>
    case ProfileSecret =>
    case ProfileMkSync(_) =>
  }

  predicate ProfileQuiet(cfg: Config, cluster: ManagedCluster, profile: Option<Profile>, s: ProfileSlice, c: string,
                         manager: string, issued: SecretData)
  {
    && ActProfile(cfg, Some(cluster), profile, s, c, manager, ProfileGen(NO_GEN_FAULTS)) == s
    && ActProfile(cfg, Some(cluster), profile, s, c, manager, ProfileToken(issued)) == s
    && ActProfile(cfg, Some(cluster), profile, s, c, manager, ProfileSecret) == s
    && ActProfile(cfg, Some(cluster), profile, s, c, manager, ProfileMkSync(false)) == s
  }

  /** With a well-formed profile the quiet state has everything present and linked for a live cluster,
      and nothing left for a deleting one. */
  lemma ProfileFixpoint(cfg: Config, cluster: ManagedCluster, p: Profile, s: ProfileSlice, c: string, manager: string,
                        issued: SecretData)
    requires WellFormedProfile(p, c, manager) && !cfg.impersonation
    ensures !cluster.deleting ==>
              (ProfileQuiet(cfg, cluster, Some(p), s, c, manager, issued) <==>
                 && s.perm == DesiredSubject(cfg) && s.msa == Some(DESIRED_MSA)
                 && s.token == Some(issued) && s.synced == Some(issued)
                 && s.mk.Some? && s.mk.value.profileRef == Some(c))
    ensures cluster.deleting ==>
              (ProfileQuiet(cfg, cluster, Some(p), s, c, manager, issued) <==>
                 s.perm.None? && s.msa.None? && s.token.None? && s.synced.None? && s.mk.None?)
    ensures ProfileQuiet(cfg, cluster, Some(p), s, c, manager, issued)
            <==> ProfileMeasure(cfg, cluster, Some(p), s, c, issued) == 0
  {
  }

  // ---------------------------------------------------------------------------------------------
  // What a sync without an error means
  // ---------------------------------------------------------------------------------------------

  predicate GenOk(cfg: Config, cluster: Option<ManagedCluster>, f: GenFaults) {
    cluster.Some? ==> !f.perm && (cfg.impersonation || !f.msa) && (cluster.value.deleting || DesiredSubject(cfg).Some?)
  }

  predicate CopyOk(cfg: Config, cluster: Option<ManagedCluster>, s: Slice, c: string, f: CopyFaults) {
    && !f.kube && !f.mk
    && (s.perm.None? || (!cfg.impersonation && !f.tokenGet && s.token.None?)
        || (BuildKubeconfig(cfg, cluster, s, c).Some? && !f.build))
  }

  /** A controller that reports no error leaves nothing for its next sync to do. */
  lemma NoErrorMeansDone(cfg: Config, cluster: Option<ManagedCluster>, s: Slice, c: string, g: GenFaults, f: CopyFaults)
    ensures GenOk(cfg, cluster, g) ==>
              var t := Gen(cfg, cluster, s, g);
              Gen(cfg, cluster, t, NO_GEN_FAULTS) == t
    ensures CopyOk(cfg, cluster, s, c, f) ==>
              var t := Copy(cfg, cluster, s, c, f);
              Copy(cfg, cluster, t, c, NO_COPY_FAULTS) == t
  {
  }

  // ---------------------------------------------------------------------------------------------
  // The controllers, acting on the shared store
  // ---------------------------------------------------------------------------------------------

  class Hub {
    const cfg: Config
    var clusters: map<string, ManagedCluster>
    var profiles: map<string, Profile>
    var permissions: map<string, Subject>
    var msas: map<string, Msa>
    var secrets: map<(string, string), SecretData>
    var mkclusters: map<string, MkSpec>

    function View(): Store
      reads this
    {
      Store(clusters, profiles, permissions, msas, secrets, mkclusters)
    }

    constructor (cfg: Config, st: Store)
      ensures this.cfg == cfg && View() == st
    {
      this.cfg := cfg;
      clusters, profiles, permissions := st.clusters, st.profiles, st.permissions;
      msas, secrets, mkclusters := st.msas, st.secrets, st.mkclusters;
    }

    /** Secret generation. `ok` is false when the sync returns an error. */
    method GenerateSync(c: string, f: GenFaults) returns (ok: bool)
      modifies this`permissions, this`msas
      ensures View() == Act(cfg, old(View()), c, GenSync(f))
      ensures ok <==> GenOk(cfg, Lookup(clusters, c), f)
    {
      PutGet(cfg, View(), c);
      if c !in clusters {
        return true;
      }
      if clusters[c].deleting {
        ok := CleanupClusterResources(c, f);
      } else {
        ok := ApplyClusterResources(c, f);
      }
    }

    method CleanupClusterResources(c: string, f: GenFaults) returns (ok: bool)
      requires c in clusters && clusters[c].deleting
      modifies this`permissions, this`msas
      ensures View() == Act(cfg, old(View()), c, GenSync(f))
      ensures ok <==> GenOk(cfg, Lookup(clusters, c), f)
    {
      PutGet(cfg, View(), c);
      if f.perm {
        return false;
      }
      permissions := permissions - {c};
      if !cfg.impersonation {
        if f.msa {
          return false;
        }
        msas := msas - {c};
      }
      return true;
    }

    method ApplyClusterResources(c: string, f: GenFaults) returns (ok: bool)
      requires c in clusters && !clusters[c].deleting
      modifies this`permissions, this`msas
      ensures View() == Act(cfg, old(View()), c, GenSync(f))
      ensures ok <==> GenOk(cfg, Lookup(clusters, c), f)
    {
      PutGet(cfg, View(), c);
      var subject := DesiredSubject(cfg);
      if subject.None? || f.perm {
        return false;
      }
      permissions := permissions[c := subject.value];
      if !cfg.impersonation {
        if f.msa {
          return false;
        }
        msas := msas[c := DESIRED_MSA];
      }
      return true;
    }

    /** Secret copy. */
    method CopyKubeconfigSync(c: string, f: CopyFaults) returns (ok: bool)
      modifies this`secrets, this`mkclusters
      ensures View() == Act(cfg, old(View()), c, CopySync(f))
      ensures ok <==> CopyOk(cfg, Lookup(clusters, c), Get(cfg, old(View()), c), c, f)
    {
      if c !in permissions || (!cfg.impersonation && !f.tokenGet && TokenKey(c) !in secrets) {
        ok := WriteCopies(c, None, None, f);
      } else {
        var built := BuildKubeconfig(cfg, Lookup(clusters, c), Get(cfg, View(), c), c);
        if built.None? || f.build {
          PutGet(cfg, View(), c);
          return false;
        }
        ok := WriteCopies(c, built, Some(DesiredMk(c)), f);
      }
    }

    /** Writes the kubeconfig secret first and the MultiKueueCluster second; None deletes. */
    method WriteCopies(c: string, kube: Option<SecretData>, mk: Option<MkSpec>, f: CopyFaults) returns (ok: bool)
      modifies this`secrets, this`mkclusters
      ensures var s := Get(cfg, old(View()), c);
              View() == Put(cfg, old(View()), c,
                            if f.kube then s else if f.mk then s.(kube := kube) else s.(kube := kube, mk := mk))
      ensures ok <==> !f.kube && !f.mk
    {
      PutGet(cfg, View(), c);
      LookupStore1(secrets, TokenKey(c), None, TokenKey(c));
      LookupStore1(mkclusters, c, None, c);
      LookupStore1(permissions, c, None, c);
      LookupStore1(msas, c, None, c);
      if f.kube {
        return false;
      }
      secrets := Store1(secrets, KubeconfigKey(cfg, c), kube);
      if f.mk {
        return false;
      }
      mkclusters := Store1(mkclusters, c, mk);
      return true;
    }

    /** The MultiKueueCluster controller of ClusterProfile mode. */
    method MultiKueueClusterSync(c: string, manager: string, fault: bool) returns (ok: bool)
      modifies this`mkclusters
      ensures View() == old(View()).(mkclusters :=
                Store1(old(mkclusters), c,
                       MkSync(Lookup(profiles, c), GetProfileSlice(cfg, old(View()), c), c, manager, fault).mk))
      ensures ok ==> (c in mkclusters <==> c in profiles && c in permissions && SyncedKey(cfg, c) in secrets)
      ensures ok && c in mkclusters ==> mkclusters[c].profileRef == Some(c)
    {
      LookupStore1(mkclusters, c, None, c);
      if c !in profiles || c !in permissions || SyncedKey(cfg, c) !in secrets {
        if fault {
          return false;
        }
        mkclusters := mkclusters - {c};
        return true;
      }
      if !WellFormedProfile(profiles[c], c, manager) || fault {
        return false;
      }
      if c !in mkclusters || NeedsUpdate(mkclusters[c], ProfileMk(c)) {
        mkclusters := mkclusters[c := ProfileMk(c)];
      }
      return true;
    }
  }
}
