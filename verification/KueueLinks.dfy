/** What settled objects of a cluster say, spelled out on the shared store: who is bound, where the kubeconfig points,
    and which secret the MultiKueueCluster names. */
module KueueLinks {
  import opened KueueHub
  import opened Wrappers

  // ---------------------------------------------------------------------------------------------
  // The pieces
  // ---------------------------------------------------------------------------------------------

  /** The permission is bound to the caller the kubeconfig authenticates: the managed service account on the cluster,
      or with impersonation the controller's own account on the hub. */
  predicate BindsCaller(cfg: Config, subject: Subject) {
    if cfg.impersonation then
      && cfg.podAccount.Some? && subject.kind == "User" && subject.apiGroup == "rbac.authorization.k8s.io"
      && subject.namespace == ""
      && subject.name == "cluster:hub:system:serviceaccount:" + cfg.podAccount.value.1 + ":" + cfg.podAccount.value.0
    else
      && subject.kind == "ServiceAccount" && subject.apiGroup == "" && subject.name == "multikueue"
      && subject.namespace == "open-cluster-management-agent-addon"
  }

  /** A proxied URL is the proxy's, with one slash between, and then the cluster; any other the cluster's first one. */
  predicate LeadsTo(cfg: Config, cluster: ManagedCluster, c: string, url: string) {
    if cfg.proxyUrl == "" then cluster.urls != [] && url == cluster.urls[0]
    else if cfg.proxyUrl[|cfg.proxyUrl| - 1] == '/' then url == cfg.proxyUrl + c
    else url == cfg.proxyUrl + "/" + c
  }

  predicate HasField(secret: SecretData, key: string, value: string) {
    secret.TokenData? && key in secret.data && secret.data[key] == value
  }

  /** With impersonation the controller's own token and the hub's CA; through a proxy the account's token and the hub's
      CA; otherwise both of the account's secret. */
  predicate Authenticates(cfg: Config, issued: SecretData, k: Kubeconfig) {
    if cfg.impersonation then
      k.user == "kueue-addon-controller" && Some(k.token) == cfg.hubToken && Some(k.ca) == cfg.hubCA
    else
      && k.user == "multikueue" && HasField(issued, "token", k.token)
      && if cfg.proxyUrl != "" then Some(k.ca) == cfg.hubCA else HasField(issued, "ca.crt", k.ca)
  }

  /** A rotated service account for 360 days. */
  predicate IsAccount(msa: Msa) { msa.rotation && msa.validityHours == 360 * 24 }

  /** The cluster has a URL and the credentials of the mode are there. */
  predicate CanConnect(cfg: Config, cluster: ManagedCluster, issued: SecretData) {
    && (cfg.proxyUrl != "" || cluster.urls != [])
    && if cfg.impersonation then cfg.podAccount.Some? && cfg.hubToken.Some? && cfg.hubCA.Some?
       else
         && issued.TokenData? && "token" in issued.data
         && if cfg.proxyUrl != "" then cfg.hubCA.Some? else "ca.crt" in issued.data
  }

  /** The MultiKueueCluster names a secret of the kueue namespace, and that is the kubeconfig of the cluster. */
  predicate PointsAtKubeconfig(cfg: Config, st: Store, cluster: ManagedCluster, c: string, issued: SecretData) {
    && c in st.mkclusters && st.mkclusters[c].location.Some? && st.mkclusters[c].profileRef.None?
    && var secret := (cfg.kueueNamespace, st.mkclusters[c].location.value);
       && secret in st.secrets && st.secrets[secret].KubeconfigData?
       && var k := st.secrets[secret].config;
          k.cluster == c && LeadsTo(cfg, cluster, c, k.server) && Authenticates(cfg, issued, k)
  }

  /** Everything for a live cluster is on the store, and each object refers to the others. */
  predicate Connected(cfg: Config, st: Store, c: string, issued: SecretData)
    requires c in st.clusters
  {
    && c in st.permissions && BindsCaller(cfg, st.permissions[c])
    && (!cfg.impersonation ==> c in st.msas && IsAccount(st.msas[c]) && Lookup(st.secrets, TokenKey(c)) == Some(issued))
    && PointsAtKubeconfig(cfg, st, st.clusters[c], c, issued)
  }

  // ---------------------------------------------------------------------------------------------
  // Settled is connected
  // ---------------------------------------------------------------------------------------------

  /** No fault-free step for the cluster changes the store. */
  predicate QuietOnStore(cfg: Config, st: Store, c: string, issued: SecretData) {
    && Act(cfg, st, c, GenSync(NO_GEN_FAULTS)) == st
    && Act(cfg, st, c, TokenIssue(issued)) == st
    && Act(cfg, st, c, CopySync(NO_COPY_FAULTS)) == st
  }

  lemma QuietIsQuiet(cfg: Config, st: Store, c: string, issued: SecretData)
    requires c in st.clusters
    ensures QuietOnStore(cfg, st, c, issued) <==> Quiet(cfg, st.clusters[c], Get(cfg, st, c), c, issued)
  {
    ActOnSlice(cfg, st, c, GenSync(NO_GEN_FAULTS), c);
    ActOnSlice(cfg, st, c, TokenIssue(issued), c);
    ActOnSlice(cfg, st, c, CopySync(NO_COPY_FAULTS), c);
  }

  lemma SubjectBinds(cfg: Config, subject: Subject)
    ensures DesiredSubject(cfg) == Some(subject) <==> BindsCaller(cfg, subject)
  {
    if cfg.impersonation && cfg.podAccount.Some? {
      var (name, namespace) := cfg.podAccount.value;
    }
  }

  lemma UrlLeads(cfg: Config, cluster: ManagedCluster, c: string, url: string)
    ensures ClusterUrl(cfg, Some(cluster), c) == Some(url) <==> LeadsTo(cfg, cluster, c, url)
    ensures ClusterUrl(cfg, Some(cluster), c).Some? <==> cfg.proxyUrl != "" || cluster.urls != []
  {
  }

  lemma ConnectableIs(cfg: Config, cluster: ManagedCluster, c: string, issued: SecretData)
    ensures Connectable(cfg, cluster, c, issued) <==> CanConnect(cfg, cluster, issued)
  {
    UrlLeads(cfg, cluster, c, "");
  }

  lemma LinkedIsConnected(cfg: Config, st: Store, c: string, issued: SecretData)
    requires c in st.clusters
    ensures Linked(cfg, st.clusters[c], Get(cfg, st, c), c, issued) ==> Connected(cfg, st, c, issued)
  {
    var s := Get(cfg, st, c);
    if Linked(cfg, st.clusters[c], s, c, issued) {
      SubjectBinds(cfg, s.perm.value);
      UrlLeads(cfg, st.clusters[c], c, s.kube.value.config.server);
      assert (cfg.kueueNamespace, st.mkclusters[c].location.value) == KubeconfigKey(cfg, c);
    }
  }

  /** When nothing is left to do for a live cluster that can be connected, it is connected: the caller is bound, and
      its MultiKueueCluster names a stored secret with its own kubeconfig. */
  lemma QuietIsConnected(cfg: Config, st: Store, c: string, issued: SecretData)
    requires c in st.clusters && !st.clusters[c].deleting && CanConnect(cfg, st.clusters[c], issued)
    requires QuietOnStore(cfg, st, c, issued)
    ensures Connected(cfg, st, c, issued)
  {
    ConnectableIs(cfg, st.clusters[c], c, issued);
    QuietIsQuiet(cfg, st, c, issued);
    LiveFixpoint(cfg, st.clusters[c], Get(cfg, st, c), c, issued);
    LinkedIsConnected(cfg, st, c, issued);
  }

  /** One fault-free round of the controllers connects such a cluster, from any store. */
  lemma OneRoundConnects(cfg: Config, st: Store, c: string, issued: SecretData)
    requires c in st.clusters && !st.clusters[c].deleting && CanConnect(cfg, st.clusters[c], issued)
    ensures var st1 := Act(cfg, st, c, GenSync(NO_GEN_FAULTS));
            var st2 := Act(cfg, st1, c, TokenIssue(issued));
            var st3 := Act(cfg, st2, c, CopySync(NO_COPY_FAULTS));
            st3.clusters == st.clusters && Connected(cfg, st3, c, issued)
  {
    var st1 := Act(cfg, st, c, GenSync(NO_GEN_FAULTS));
    var st2 := Act(cfg, st1, c, TokenIssue(issued));
    var st3 := Act(cfg, st2, c, CopySync(NO_COPY_FAULTS));
    ActOnSlice(cfg, st, c, GenSync(NO_GEN_FAULTS), c);
    ActOnSlice(cfg, st1, c, TokenIssue(issued), c);
    ActOnSlice(cfg, st2, c, CopySync(NO_COPY_FAULTS), c);
    ConnectableIs(cfg, st.clusters[c], c, issued);
    OneRoundSettles(cfg, st.clusters[c], Get(cfg, st, c), c, issued);
    QuietIsQuiet(cfg, st3, c, issued);
    QuietIsConnected(cfg, st3, c, issued);
  }

  /** The MultiKueueClusters of different clusters name different secrets. */
  lemma ConnectedApart(cfg: Config, st: Store, c: string, d: string, issued: SecretData, other: SecretData)
    requires c in st.clusters && d in st.clusters && c != d
    requires Connected(cfg, st, c, issued) && Connected(cfg, st, d, other)
    ensures st.mkclusters[c].location != st.mkclusters[d].location
  {
  }

  // ---------------------------------------------------------------------------------------------
  // When a sync reports an error
  // ---------------------------------------------------------------------------------------------

  /** Secret generation reports an error exactly when the cluster exists and a call it needs fails, or a live cluster
      has no caller to bind. */
  lemma GenFailsIff(cfg: Config, cluster: Option<ManagedCluster>, f: GenFaults)
    ensures !GenOk(cfg, cluster, f) <==>
              && cluster.Some?
              && (f.perm || (f.msa && !cfg.impersonation)
                  || (!cluster.value.deleting && cfg.impersonation && cfg.podAccount.None?))
  {
  }

  /** Whether there is something to copy: the permission, and outside impersonation the token, as far as it is known. */
  predicate HasInputs(cfg: Config, s: Slice, f: CopyFaults) {
    s.perm.Some? && (cfg.impersonation || f.tokenGet || s.token.Some?)
  }

  /** Secret copy reports an error exactly when a write fails, or it has something to copy and cannot connect. */
  lemma CopyFailsIff(cfg: Config, cluster: ManagedCluster, s: Slice, c: string, f: CopyFaults)
    ensures !CopyOk(cfg, Some(cluster), s, c, f) <==>
              || f.kube || f.mk
              || (HasInputs(cfg, s, f) && (f.build || !Builds(cfg, cluster, s)))
  {
    UrlLeads(cfg, cluster, c, "");
  }

  /** What building the kubeconfig takes: a URL, and the credentials of the mode. */
  predicate Builds(cfg: Config, cluster: ManagedCluster, s: Slice) {
    && (cfg.proxyUrl != "" || cluster.urls != [])
    && if cfg.impersonation then cfg.hubToken.Some? && cfg.hubCA.Some?
       else
         && s.token.Some? && s.token.value.TokenData? && "token" in s.token.value.data
         && if cfg.proxyUrl != "" then cfg.hubCA.Some? else "ca.crt" in s.token.value.data
  }

  /** What one secret copy leaves: with nothing to copy, neither secret nor MultiKueueCluster; with something to copy
      and a way to connect, both, freshly made; otherwise what was there. A failing write stops it before its object. */
  lemma CopyLeaves(cfg: Config, cluster: ManagedCluster, s: Slice, c: string, f: CopyFaults)
    ensures var t := Copy(cfg, Some(cluster), s, c, f);
            var ready := HasInputs(cfg, s, f) && !f.build && Builds(cfg, cluster, s);
            && (t.perm, t.msa, t.token) == (s.perm, s.msa, s.token)
            && (HasInputs(cfg, s, f) && !ready ==> t == s)
            && (f.kube ==> t == s)
            && (f.mk ==> t.mk == s.mk)
            && (!HasInputs(cfg, s, f) && !f.kube ==> t.kube.None? && (!f.mk ==> t.mk.None?))
            && (ready && !f.kube ==>
                  && t.kube.Some? && t.kube.value.KubeconfigData?
                  && t.kube.value.config.cluster == c && LeadsTo(cfg, cluster, c, t.kube.value.config.server)
                  && (s.token.Some? || cfg.impersonation)
                  && Authenticates(cfg, if s.token.Some? then s.token.value else TokenData(map[]), t.kube.value.config)
                  && (!f.mk ==> t.mk == Some(MkSpec(Some(KubeconfigKey(cfg, c).1), None))))
  {
    UrlLeads(cfg, cluster, c, "");
    if BuildKubeconfig(cfg, Some(cluster), s, c).Some? {
      UrlLeads(cfg, cluster, c, BuildKubeconfig(cfg, Some(cluster), s, c).value.config.server);
    }
  }

  /** One secret generation: a live cluster gets its binding and, outside impersonation, its account; a deleting one
      loses both; a failing call stops it before its object. */
  lemma GenLeaves(cfg: Config, cluster: ManagedCluster, s: Slice, f: GenFaults)
    ensures var t := Gen(cfg, Some(cluster), s, f);
            && (t.token, t.kube, t.mk) == (s.token, s.kube, s.mk)
            && (f.perm ==> t == s)
            && (f.msa || cfg.impersonation ==> t.msa == s.msa)
            && (cluster.deleting && !f.perm ==>
                  t.perm.None? && (!f.msa && !cfg.impersonation ==> t.msa.None?))
            && (!cluster.deleting && !f.perm && cfg.impersonation && cfg.podAccount.None? ==> t == s)
            && (!cluster.deleting && !f.perm && (cfg.impersonation ==> cfg.podAccount.Some?) ==>
                  && t.perm.Some? && BindsCaller(cfg, t.perm.value)
                  && (!f.msa && !cfg.impersonation ==> t.msa.Some? && IsAccount(t.msa.value)))
  {
    if DesiredSubject(cfg).Some? {
      SubjectBinds(cfg, DesiredSubject(cfg).value);
    }
  }

  // ---------------------------------------------------------------------------------------------
  // ClusterProfile mode
  // ---------------------------------------------------------------------------------------------

  /** A profile belongs to the cluster: managed and provided by the registration controller alone. */
  predicate OwnProfile(p: Profile, c: string, manager: string) {
    p.manager == manager && p.clusterLabel == c && p.providers == [manager]
  }

  /** One sync of the MultiKueueCluster: gone without profile, permission or synced secret; left alone with a profile of
      someone else; otherwise it refers to the profile of the cluster, and one that does already is left alone. */
  lemma MkSyncLeaves(profile: Option<Profile>, s: ProfileSlice, c: string, manager: string, fault: bool)
    ensures var t := MkSync(profile, s, c, manager, fault);
            var inputs := profile.Some? && s.perm.Some? && s.synced.Some?;
            && t == s.(mk := t.mk) && (fault ==> t == s)
            && (!inputs && !fault ==> t.mk.None?)
            && (inputs && !OwnProfile(profile.value, c, manager) ==> t == s)
            && (inputs && OwnProfile(profile.value, c, manager) && !fault ==>
                  && t.mk.Some? && t.mk.value.profileRef == Some(c)
                  && (if s.mk.Some? && s.mk.value.profileRef == Some(c) then t == s else t.mk.value.location.None?))
  {
    if profile.Some? && |profile.value.providers| == 1 {
      assert profile.value.providers == [profile.value.providers[0]];
    }
  }

  /** The secret in the kueue namespace is a copy of the token secret while there is a profile, and gone without one. */
  lemma SyncedSecretIs(profile: Option<Profile>, s: ProfileSlice)
    ensures var t := SyncSecret(profile, s);
            && t == s.(synced := t.synced)
            && (profile.Some? ==> t.synced == s.token) && (profile.None? ==> t.synced.None?)
  {
  }
}
