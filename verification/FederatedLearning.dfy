/** The reconciler of a federated-learning instance, against an API server that keeps every version of the instance.
    A reconcile may read any past version; a write succeeds only on the latest one, may be refused, and may reach the
    server although the reply is lost; others edit the spec, the framework included, and delete the instance. */
module FederatedLearning {
  import opened Wrappers
  import opened FederatedServer

  // ---------------------------------------------------------------------------------------------
  // The instance
  // ---------------------------------------------------------------------------------------------

  /** The third framework, "other", takes the path of OpenFL everywhere. */
  datatype Framework = Flower | OpenFL

  datatype Phase = Unset | Start | Waiting | Running | Completed | Failed

  function Rank(p: Phase): nat {
    match p
    case Unset => 0
    case Start => 0
    case Waiting => 1
    case Running => 2
    case Completed => 3
    case Failed => 4
  }

  datatype Message =
    | NoMessage
    | WaitingReady
    | WaitingAvailableClients(expected: int, selected: int)
    | AssignedClusters(selected: int)
    | AppliedWorks(count: nat)
    | TrainingSuccessful
    | ServerFailed(err: string)
    | ErrorText(err: string)

  datatype ListenerSpec = ListenerSpec(kind: ListenerType, ip: string)

  datatype Spec = Spec(framework: Framework, minAvailableClients: int, listeners: seq<ListenerSpec>)

  datatype Instance = Instance(
    spec: Spec,
    finalizer: bool,
    deleting: bool,
    phase: Phase,
    message: Message,
    listeners: seq<Listener>)

  /** Conversion to a 32-bit signed integer: the number of that range that is the same modulo 2^32. */
  function Int32(n: int): (r: int)
    ensures -0x8000_0000 <= r < 0x8000_0000 && (n - r) % 0x1_0000_0000 == 0
    ensures -0x8000_0000 <= n < 0x8000_0000 ==> r == n
  {
    (n + 0x8000_0000) % 0x1_0000_0000 - 0x8000_0000
  }

  // ---------------------------------------------------------------------------------------------
  // What a reconcile finds in the rest of the cluster
  // ---------------------------------------------------------------------------------------------

  /** A required label expression of the placement's claim selector; `exists_`: its operator is Exists. */
  datatype Expression = Expression(key: string, exists_: bool)

  datatype Placement = Placement(selected: int, groups: seq<seq<string>>, predicates: seq<seq<Expression>>)

  /** `unrecorded` failures leave no message in the status. */
  datatype ServerSetup = SetupOk | SetupFails(err: string, unrecorded: bool)

  /** Options are the errors of the steps they name. A decision or cluster that is not in its map cannot be read. */
  datatype World = World(
    deployPlacement: Option<string>,
    placement: Result<Placement, string>,
    decisions: map<string, seq<string>>,
    claims: map<string, seq<(string, string)>>,
    badWorks: set<string>,
    server: ServerSetup,
    service: Result<Service, string>,
    nodes: Result<seq<Node>, string>,
    flowerServer: Option<string>,
    flowerClient: Option<string>,
    job: Result<int, string>,
    pruneServer: Option<string>,
    pruneClient: Option<string>)

  /** The data key: the last claim a predicate requires to exist. */
  function LastKey(es: seq<Expression>, start: string): string {
    if es == [] then start
    else if es[|es| - 1].exists_ then es[|es| - 1].key
    else LastKey(es[..|es| - 1], start)
  }

  function DataKey(predicates: seq<seq<Expression>>): string {
    if predicates == [] then ""
    else LastKey(predicates[|predicates| - 1], DataKey(predicates[..|predicates| - 1]))
  }

  /** The data configuration of a cluster: the last claim with the key. */
  function DataConfig(claims: seq<(string, string)>, key: string): string {
    if claims == [] then ""
    else if claims[|claims| - 1].0 == key then claims[|claims| - 1].1
    else DataConfig(claims[..|claims| - 1], key)
  }

  function Listed(w: World, pl: Placement): set<string> {
    set g, d, c | g in pl.groups && d in g && d in w.decisions && c in w.decisions[d] :: c
  }

  predicate ClusterOk(w: World, listeners: seq<Listener>, key: string, c: string) {
    c in w.claims && DataConfig(w.claims[c], key) != "" && ServerAddress(listeners) != "" && c !in w.badWorks
  }

  predicate DecisionOk(w: World, listeners: seq<Listener>, key: string, d: string) {
    d in w.decisions && forall c :: c in w.decisions[d] ==> ClusterOk(w, listeners, key, c)
  }

  predicate GroupOk(w: World, listeners: seq<Listener>, key: string, group: seq<string>) {
    forall d :: d in group ==> DecisionOk(w, listeners, key, d)
  }

  /** Every listed decision and cluster can be read, has data, and gets its work. */
  predicate WorkloadsOk(w: World, listeners: seq<Listener>, pl: Placement) {
    forall g :: g in pl.groups ==> GroupOk(w, listeners, DataKey(pl.predicates), g)
  }

  // ---------------------------------------------------------------------------------------------
  // Versions and what stands behind them
  // ---------------------------------------------------------------------------------------------

  /** `works` maps each cluster a manifest work was applied to in this reconcile to its data configuration;
      `clientApp`: the Flower client application was deployed in it. */
  datatype Cause = Others | Reconciled(w: World, works: map<string, string>, clientApp: bool)

  datatype Version = Version(inst: Instance, cause: Cause)

  predicate WorkApplied(w: World, pl: Placement, works: map<string, string>, c: string) {
    && c in works && works[c] != ""
    && c in w.claims && works[c] == DataConfig(w.claims[c], DataKey(pl.predicates))
  }

  predicate RunningJustified(spec: Spec, cause: Cause) {
    && cause.Reconciled? && cause.w.placement.Success?
    && cause.w.placement.value.selected >= Int32(spec.minAvailableClients)
    && if spec.framework.Flower? then cause.clientApp
       else forall c :: c in Listed(cause.w, cause.w.placement.value) ==>
              WorkApplied(cause.w, cause.w.placement.value, cause.works, c)
  }

  predicate CompletedJustified(spec: Spec, cause: Cause) {
    !spec.framework.Flower? && cause.Reconciled? && cause.w.job.Success? && cause.w.job.value > 0
  }

  /** `v` may follow an instance `a`: only a reconcile changes the phase, and only others change the framework. */
  predicate StepOk(a: Instance, v: Version) {
    && Rank(a.phase) <= Rank(v.inst.phase)
    && (if v.cause.Others? then a.phase == v.inst.phase else a.spec.framework == v.inst.spec.framework)
    && (v.inst.phase.Running? && !a.phase.Running? ==> RunningJustified(v.inst.spec, v.cause))
    && (v.inst.phase.Completed? && !a.phase.Completed? ==> CompletedJustified(v.inst.spec, v.cause))
  }

  predicate ValidLog(log: seq<Version>) {
    && log != []
    && (|log| > 1 ==> ValidLog(log[..|log| - 1]) && StepOk(log[|log| - 2].inst, log[|log| - 1]))
  }

  lemma Appended(log: seq<Version>, v: Version)
    requires ValidLog(log) && StepOk(log[|log| - 1].inst, v)
    ensures ValidLog(log + [v])
  {
    assert (log + [v])[..|log|] == log;
  }

  /** Over every valid history: phases never go down, Failed is final, and Completed only fails. */
  lemma {:induction false} PhasesNeverDecrease(log: seq<Version>, i: nat, j: nat)
    requires ValidLog(log) && i <= j < |log|
    ensures Rank(log[i].inst.phase) <= Rank(log[j].inst.phase)
    ensures log[i].inst.phase.Failed? ==> log[j].inst.phase.Failed?
    ensures log[i].inst.phase.Completed? ==> log[j].inst.phase.Completed? || log[j].inst.phase.Failed?
    ensures log[i].inst.phase.Running? ==>
              log[j].inst.phase.Running? || log[j].inst.phase.Completed? || log[j].inst.phase.Failed?
    ensures log[i].inst.phase.Waiting? ==> !log[j].inst.phase.Unset? && !log[j].inst.phase.Start?
    decreases |log|
  {
    if j < |log| - 1 {
      PhasesNeverDecrease(log[..|log| - 1], i, j);
    } else if i < j {
      PhasesNeverDecrease(log[..|log| - 1], i, j - 1);
    }
  }

  /** The first version of a valid history that is Running has a reconcile behind it that saw enough selected clusters
      and had started every client; the first that is Completed, one that saw the server job succeed. */
  lemma {:induction false} HistoryBehindPhase(log: seq<Version>, j: nat)
    requires ValidLog(log) && j < |log|
    requires log[j].inst.phase.Running? || log[j].inst.phase.Completed?
    requires log[0].inst.phase != log[j].inst.phase
    ensures exists i :: && 0 < i <= j && log[i].inst.phase == log[j].inst.phase
                        && (log[j].inst.phase.Running? ==> RunningJustified(log[i].inst.spec, log[i].cause))
                        && (log[j].inst.phase.Completed? ==> CompletedJustified(log[i].inst.spec, log[i].cause))
    decreases |log|
  {
    if j < |log| - 1 {
      HistoryBehindPhase(log[..|log| - 1], j);
    } else if log[j - 1].inst.phase == log[j].inst.phase {
      HistoryBehindPhase(log[..|log| - 1], j - 1);
    }
  }

  /** A version completed under another framework than Flower. */
  predicate CompletedElsewhere(log: seq<Version>, i: nat)
    requires i < |log|
  {
    log[i].inst.phase.Completed? && !log[i].inst.spec.framework.Flower?
  }

  /** An instance whose framework is Flower is Completed exactly when it was completed under another framework before,
      and has not failed since: no reconcile completes an instance of Flower, only an edit makes a completed one
      Flower. */
  lemma FlowerCompletedIff(log: seq<Version>, j: nat)
    requires ValidLog(log) && j < |log| && !log[0].inst.phase.Completed?
    requires log[j].inst.spec.framework.Flower?
    ensures log[j].inst.phase.Completed? <==>
              !log[j].inst.phase.Failed? && exists i: nat :: i < j && CompletedElsewhere(log, i)
  {
    if log[j].inst.phase.Completed? {
      HistoryBehindPhase(log, j);
      var i: nat :| 0 < i <= j && log[i].inst.phase.Completed? && CompletedJustified(log[i].inst.spec, log[i].cause);
      assert CompletedElsewhere(log, i);
    }
    forall i: nat | i < j && CompletedElsewhere(log, i)
      ensures log[j].inst.phase.Completed? || log[j].inst.phase.Failed?
    {
      PhasesNeverDecrease(log, i, j);
    }
  }

  // ---------------------------------------------------------------------------------------------
  // What an undisturbed reconcile is for
  // ---------------------------------------------------------------------------------------------

  /** The listener the server setup ends with, if everything up to there works. */
  function Publishes(i: Instance, w: World): Result<Option<Listener>, string> {
    if i.spec.listeners == [] then Failure("no listeners specified")
    else if w.server.SetupFails? then Failure(w.server.err)
    else if w.service.Failure? then Failure(w.service.error)
    else ServiceListener(w.service.value, i.spec.listeners[0].ip, w.nodes)
  }

  function ListenersAfter(i: Instance, w: World): seq<Listener> {
    match Publishes(i, w)
    case Success(Some(l)) => Without(i.listeners, l.kind) + [l]
    case _ => i.listeners
  }

  predicate Enough(i: Instance, pl: Placement) { pl.selected >= Int32(i.spec.minAvailableClients) }

  /** The server job decides between Running, Completed and Failed. */
  function JobPhase(p: Phase, w: World): Phase {
    if !p.Running? && !p.Completed? then p
    else if w.job.Failure? then Failed
    else if w.job.value > 0 then Completed
    else p
  }

  /** A Flower instance fails on any error and otherwise runs as soon as there are enough clusters. */
  function FlowerPhase(i: Instance, p: Phase, w: World): Phase {
    if w.deployPlacement.Some? || w.flowerServer.Some? || w.placement.Failure? then Failed
    else if !Enough(i, w.placement.value) then p
    else if w.flowerClient.Some? then Failed
    else Running
  }

  /** Other instances fail only with the placement; while the server or a client is not ready they stay as they are. */
  function OpenFLPhase(i: Instance, p: Phase, w: World): Phase {
    if w.deployPlacement.Some? then Failed
    else if Publishes(i, w).Failure? || w.placement.Failure? then p
    else if !Enough(i, w.placement.value) then JobPhase(p, w)
    else if WorkloadsOk(w, ListenersAfter(i, w), w.placement.value) then JobPhase(Running, w)
    else p
  }

  /** The phase after one undisturbed reconcile. */
  function NextPhase(i: Instance, w: World): Phase {
    var p := if i.phase.Unset? then Waiting else i.phase;
    if !p.Waiting? && !p.Running? then if i.spec.framework.Flower? then p else JobPhase(p, w)
    else if i.spec.framework.Flower? then FlowerPhase(i, p, w)
    else OpenFLPhase(i, p, w)
  }

  /** A healthy instance with enough clusters runs after one undisturbed reconcile, and completes in the same one
      once the server job has succeeded, unless it is Flower's. */
  lemma HealthyProgress(i: Instance, w: World)
    requires i.phase.Unset? || i.phase.Waiting? || i.phase.Running?
    requires w.deployPlacement.None? && w.placement.Success? && Enough(i, w.placement.value)
    requires if i.spec.framework.Flower? then w.flowerServer.None? && w.flowerClient.None?
             else Publishes(i, w).Success? && WorkloadsOk(w, ListenersAfter(i, w), w.placement.value) && w.job.Success?
    ensures NextPhase(i, w) == if i.spec.framework.Flower? || w.job.value <= 0 then Running else Completed
  {
  }

  // ---------------------------------------------------------------------------------------------
  // The API server
  // ---------------------------------------------------------------------------------------------

  datatype Move = EditSpec(spec: Spec) | MarkDeleted

  function Moved(a: Instance, m: Move): Instance {
    match m
    case EditSpec(spec) => a.(spec := spec)
    case MarkDeleted => a.(deleting := true)
  }

  /** The history, and whether the instance is gone, after some moves of others. */
  function Interfered(log: seq<Version>, gone: bool, moves: seq<Move>): (r: (seq<Version>, bool))
    requires log != []
    ensures r.0 != [] && log <= r.0
  {
    if moves == [] then (log, gone)
    else
      var (log1, gone1) := Interfered(log, gone, moves[..|moves| - 1]);
      var moved := Moved(log1[|log1| - 1].inst, moves[|moves| - 1]);
      if gone1 then (log1, true)
      else if moved.deleting && !moved.finalizer then (log1, true)
      else (log1 + [Version(moved, Others)], false)
  }

  /** The history with a write on top; a write that changes nothing makes no new version. */
  function Stored(log: seq<Version>, v: Version): seq<Version>
    requires log != []
  {
    if v.inst == log[|log| - 1].inst then log else log + [v]
  }

  datatype Outcome = Works | Refused(err: string) | ReplyLost(err: string)

  /** What others do just before a write of the reconciler, and how the write fares. */
  datatype Call = Call(moves: seq<Move>, outcome: Outcome)

  const UNDISTURBED := Call([], Works)

  /** One call for each place of a reconcile that writes the instance. */
  datatype Script = Script(
    finalizer: Call,
    init: Call,
    server: Call,
    listeners: Call,
    groups: seq<Call>,
    client: Call,
    completed: Call,
    deferred: Call)

  function GroupCall(s: Script, k: nat): Call { if k < |s.groups| then s.groups[k] else UNDISTURBED }

  predicate Quiet(s: Script) {
    && s.finalizer == s.init == s.server == s.listeners == s.client == s.completed == s.deferred == UNDISTURBED
    && forall k :: 0 <= k < |s.groups| ==> s.groups[k] == UNDISTURBED
  }

  /** The table does not look at the finalizer or the message, and takes an unset phase for Waiting. */
  lemma NextPhaseOfStarted(i: Instance, i1: Instance, w: World)
    requires i1.spec == i.spec && i1.listeners == i.listeners
    requires i1.phase == i.phase || (i.phase.Unset? && i1.phase.Waiting?)
    ensures NextPhase(i1, w) == NextPhase(i, w)
  {
  }

  predicate DecisionApplied(w: World, pl: Placement, works: map<string, string>, d: string) {
    d in w.decisions && forall c :: c in w.decisions[d] ==> WorkApplied(w, pl, works, c)
  }

  predicate GroupApplied(w: World, pl: Placement, works: map<string, string>, group: seq<string>) {
    forall d :: d in group ==> DecisionApplied(w, pl, works, d)
  }

  /** How many works the clusters of a group, and of all groups, take. */
  function WorksOfGroup(w: World, group: seq<string>): nat {
    if group == [] then 0
    else
      var d := group[|group| - 1];
      WorksOfGroup(w, group[..|group| - 1]) + if d in w.decisions then |w.decisions[d]| else 0
  }

  function WorksOfGroups(w: World, groups: seq<seq<string>>): nat {
    if groups == [] then 0
    else WorksOfGroups(w, groups[..|groups| - 1]) + WorksOfGroup(w, groups[|groups| - 1])
  }

  lemma WorksAppend(w: World, groups: seq<seq<string>>, group: seq<string>)
    ensures WorksOfGroups(w, groups + [group]) == WorksOfGroups(w, groups) + WorksOfGroup(w, group)
  {
    assert (groups + [group])[..|groups|] == groups;
  }

  lemma EveryListedApplied(w: World, pl: Placement, works: map<string, string>)
    requires forall g :: g in pl.groups ==> GroupApplied(w, pl, works, g)
    ensures forall c :: c in Listed(w, pl) ==> WorkApplied(w, pl, works, c)
  {
  }

  /** The same reconcile, with more works applied. */
  ghost predicate Grown(cause: Cause, later: Cause) {
    && cause.Reconciled? && later.Reconciled? && cause.w == later.w && cause.clientApp == later.clientApp
    && forall pl, c :: cause.w.placement == Success(pl) && WorkApplied(cause.w, pl, cause.works, c) ==>
         WorkApplied(cause.w, pl, later.works, c)
  }

  lemma GrownTrans(a: Cause, b: Cause, c: Cause)
    requires Grown(a, b) && Grown(b, c)
    ensures Grown(a, c)
  {
  }

  lemma GrownGroups(a: Cause, b: Cause, pl: Placement, groups: seq<seq<string>>)
    requires Grown(a, b) && a.w.placement == Success(pl)
    requires forall g :: g in groups ==> GroupApplied(a.w, pl, a.works, g)
    ensures forall g :: g in groups ==> GroupApplied(b.w, pl, b.works, g)
  {
  }

  lemma QuietCalls(s: Script, k: nat)
    ensures Quiet(s) ==> GroupCall(s, k) == UNDISTURBED
  {
  }

  class Reconciler {
    /** The API server: every version of the instance so far, whether it is gone, and the manifest works. */
    var log: seq<Version>
    var gone: bool
    var works: map<string, (string, string)>

    /** The reconciler's copy of the instance, and the version it was read or last written at. */
    var instance: Instance
    var version: nat

    /** What the current reconcile did so far. */
    var cause: Cause

    constructor (created: Instance)
      ensures log == [Version(created, Others)] && ValidLog(log) && !gone && works == map[]
    {
      log, gone, works := [Version(created, Others)], false, map[];
      instance, version, cause := created, 0, Others;
    }

    /** The copy may follow the version it was taken from. */
    ghost predicate Valid()
      reads this
    {
      && ValidLog(log) && version < |log| && cause.Reconciled?
      && instance.spec == log[version].inst.spec
      && StepOk(log[version].inst, Version(instance, cause))
    }

    /** Nobody has written since, and the copy differs from the stored instance in the status only. */
    ghost predicate Fresh()
      reads this
    {
      && !gone && |log| > 0 && version == |log| - 1
      && log[version].inst.(phase := instance.phase, message := instance.message, listeners := instance.listeners)
         == instance
    }

    twostate predicate Continues()
      reads this
    {
      Valid() && old(log) <= log && cause == old(cause) && works == old(works)
    }

    method Interfere(moves: seq<Move>)
      requires ValidLog(log)
      modifies this`log, this`gone
      ensures ValidLog(log)
      ensures (log, gone) == Interfered(old(log), old(gone), moves)
    {
      for i := 0 to |moves|
        invariant ValidLog(log)
        invariant (log, gone) == Interfered(old(log), old(gone), moves[..i])
      {
        assert moves[..i + 1][..i] == moves[..i];
        if !gone {
          var moved := Moved(log[|log| - 1].inst, moves[i]);
          if moved.deleting && !moved.finalizer {
            gone := true;
          } else {
            Appended(log, Version(moved, Others));
            log := log + [Version(moved, Others)];
          }
        }
      }
      assert moves[..|moves|] == moves;
    }

    /** What others do before a write, and whether the write then reaches the latest version. */
    method Reach(call: Call) returns (err: Option<string>)
      requires Valid()
      modifies this`log, this`gone
      ensures Valid() && (log, gone) == Interfered(old(log), old(gone), call.moves)
      ensures err.None? <==> !gone && !call.outcome.Refused? && version == |log| - 1
    {
      Interfere(call.moves);
      if gone {
        return Some("not found");
      }
      if call.outcome.Refused? {
        return Some(call.outcome.err);
      }
      if version != |log| - 1 {
        return Some("conflict");
      }
      err := None;
    }

    /** Writes the status of the copy; the server ignores everything else in it. A write that is refused, or comes from
        a copy of an older version, or finds the instance gone, leaves everything as the interference left it; any other
        one takes effect, and only a lost reply keeps the copy from learning so. */
    method UpdateStatus(call: Call) returns (err: Option<string>)
      requires Valid()
      modifies this`log, this`gone, this`instance, this`version
      ensures Continues()
      ensures var (log1, gone1) := Interfered(old(log), old(gone), call.moves);
              var stored := log1[|log1| - 1].inst.(phase := old(instance).phase, message := old(instance).message,
                                                   listeners := old(instance).listeners);
              && gone == gone1
              && if gone1 || call.outcome.Refused? || old(version) != |log1| - 1 then
                   err.Some? && log == log1 && version == old(version) && instance == old(instance)
                 else
                   && log == Stored(log1, Version(stored, cause))
                   && (err.None? <==> call.outcome.Works?)
                   && (if err.None? then version == |log| - 1 && instance == stored
                       else version == old(version) && instance == old(instance))
      ensures instance.phase == old(instance.phase) && instance.message == old(instance.message)
      ensures instance.listeners == old(instance.listeners) && instance.spec == old(instance.spec)
      ensures old(Fresh()) && call == UNDISTURBED ==>
                err.None? && Fresh() && instance == old(instance) && log[|log| - 1].inst == instance
    {
      err := Reach(call);
      if err.Some? {
        return;
      }
      StoreStatus();
      if call.outcome.ReplyLost? {
        return Some(call.outcome.err);
      }
      instance, version := log[|log| - 1].inst, |log| - 1;
      err := None;
    }

    method StoreStatus()
      requires Valid() && version == |log| - 1
      modifies this`log
      ensures Valid()
      ensures var stored := old(log)[version].inst.(phase := instance.phase, message := instance.message,
                                                    listeners := instance.listeners);
              log == Stored(old(log), Version(stored, cause)) && log[|log| - 1].inst == stored
    {
      var stored := log[version].inst.(phase := instance.phase, message := instance.message,
                                       listeners := instance.listeners);
      if stored != log[version].inst {
        Appended(log, Version(stored, cause));
        log := log + [Version(stored, cause)];
      }
    }

    /** Sets or clears the finalizer and writes it; the server ignores the status of the copy, and the reply puts its
        own into it. The last finalizer of a deleted instance takes the instance with it. Failures as for the status. */
    method UpdateMeta(present: bool, call: Call) returns (err: Option<string>)
      requires Valid()
      modifies this`log, this`gone, this`instance, this`version
      ensures Continues()
      ensures var (log1, gone1) := Interfered(old(log), old(gone), call.moves);
              var stored := log1[|log1| - 1].inst.(finalizer := present);
              if gone1 || call.outcome.Refused? || old(version) != |log1| - 1 then
                && err.Some? && log == log1 && gone == gone1
                && version == old(version) && instance == old(instance).(finalizer := present)
              else
                && gone == (stored.deleting && !present)
                && log == (if gone then log1 else Stored(log1, Version(stored, Others)))
                && (err.None? <==> call.outcome.Works?)
                && (if err.None? then version == |log| - 1 && instance == stored
                    else version == old(version) && instance == old(instance).(finalizer := present))
      ensures old(Fresh()) && !old(instance.deleting) && call == UNDISTURBED ==>
                err.None? && Fresh() && instance == old(log[version].inst).(finalizer := present)
    {
      instance := instance.(finalizer := present);
      err := Reach(call);
      if err.None? {
        err := PutFinalizer(present, call.outcome);
      }
    }

    /** A finalizer write that reaches the latest version. */
    method PutFinalizer(present: bool, outcome: Outcome) returns (err: Option<string>)
      requires Valid() && !gone && version == |log| - 1 && !outcome.Refused?
      modifies this`log, this`gone, this`instance, this`version
      ensures Valid()
      ensures var stored := old(log)[|old(log)| - 1].inst.(finalizer := present);
              && gone == (stored.deleting && !present)
              && log == (if gone then old(log) else Stored(old(log), Version(stored, Others)))
              && (err.None? <==> outcome.Works?)
              && (if err.None? then version == |log| - 1 && instance == stored
                  else version == old(version) && instance == old(instance))
    {
      var stored := StoreFinalizer(present);
      if outcome.ReplyLost? {
        return Some(outcome.err);
      }
      version, instance := |log| - 1, stored;
      err := None;
    }

    method StoreFinalizer(present: bool) returns (stored: Instance)
      requires ValidLog(log) && !gone
      modifies this`log, this`gone
      ensures ValidLog(log)
      ensures stored == old(log)[|old(log)| - 1].inst.(finalizer := present)
      ensures gone == (stored.deleting && !present)
      ensures log == (if gone then old(log) else Stored(old(log), Version(stored, Others)))
    {
      stored := log[|log| - 1].inst.(finalizer := present);
      if stored.deleting && !stored.finalizer {
        gone := true;
      } else if stored != log[|log| - 1].inst {
        Appended(log, Version(stored, Others));
        log := log + [Version(stored, Others)];
      }
    }

    /** Bookkeeping of the works applied so far keeps the copy justified. */
    lemma MoreWorks(grown: Cause)
      requires Valid() && Grown(cause, grown)
      ensures StepOk(log[version].inst, Version(instance, grown))
    {
    }

    method ComputeDataKey(predicates: seq<seq<Expression>>) returns (key: string)
      ensures key == DataKey(predicates)
    {
      key := "";
      for i := 0 to |predicates|
        invariant key == DataKey(predicates[..i])
      {
        assert predicates[..i + 1][..i] == predicates[..i];
        var start := key;
        for j := 0 to |predicates[i]|
          invariant key == LastKey(predicates[i][..j], start)
        {
          assert predicates[i][..j + 1][..j] == predicates[i][..j];
          if predicates[i][j].exists_ {
            key := predicates[i][j].key;
          }
        }
        assert predicates[i][..|predicates[i]|] == predicates[i];
      }
      assert predicates[..|predicates|] == predicates;
    }

    method ComputeDataConfig(claims: seq<(string, string)>, key: string) returns (dataConfig: string)
      ensures dataConfig == DataConfig(claims, key)
    {
      dataConfig := "";
      for i := 0 to |claims|
        invariant dataConfig == DataConfig(claims[..i], key)
      {
        assert claims[..i + 1][..i] == claims[..i];
        if claims[i].0 == key {
          dataConfig := claims[i].1;
        }
      }
      assert claims[..|claims|] == claims;
    }

    /** Applies the manifest work of one cluster, with the address of the last listener. */
    method ClusterWorkload(w: World, pl: Placement, key: string, c: string) returns (err: Option<string>)
      requires Valid() && cause.w == w && w.placement == Success(pl) && key == DataKey(pl.predicates)
      modifies this`works, this`cause
      ensures Valid() && Grown(old(cause), cause)
      ensures err.None? <==> ClusterOk(w, instance.listeners, key, c)
      ensures err.None? ==> WorkApplied(w, pl, cause.works, c)
      ensures works
              == if err.None? then old(works)[c := (DataConfig(w.claims[c], key), ServerAddress(instance.listeners))]
                       else old(works)
    {
      if c !in w.claims {
        return Some("cluster not found");
      }
      var dataConfig := ComputeDataConfig(w.claims[c], key);
      if dataConfig == "" {
        return Some("failed to the dataConfig");
      }
      var serverAddress := LastAddress(instance.listeners);
      if serverAddress == "" {
        return Some("wait the server address to be ready!");
      }
      if c in w.badWorks {
        return Some("failed to apply the work");
      }
      var grown := cause.(works := cause.works[c := dataConfig]);
      MoreWorks(grown);
      works, cause := works[c := (dataConfig, serverAddress)], grown;
      err := None;
    }

    /** Applies the works of the clusters of one decision and counts them. */
    method DecisionWorkload(w: World, pl: Placement, key: string, d: string) returns (err: Option<string>, count: nat)
      requires Valid() && cause.w == w && w.placement == Success(pl) && key == DataKey(pl.predicates)
      modifies this`works, this`cause
      ensures Valid() && Grown(old(cause), cause)
      ensures err.None? <==> DecisionOk(w, instance.listeners, key, d)
      ensures err.None? ==> DecisionApplied(w, pl, cause.works, d) && count == |w.decisions[d]|
    {
      count := 0;
      if d !in w.decisions {
        return Some("decision not found"), count;
      }
      var clusters := w.decisions[d];
      for i := 0 to |clusters|
        invariant Valid() && Grown(old(cause), cause) && count == i
        invariant forall c :: c in clusters[..i] ==>
                    ClusterOk(w, instance.listeners, key, c) && WorkApplied(w, pl, cause.works, c)
      {
        ghost var before := cause;
        err := ClusterWorkload(w, pl, key, clusters[i]);
        GrownTrans(old(cause), before, cause);
        if err.Some? {
          assert clusters[i] in clusters;
          return;
        }
        count := count + 1;
        assert clusters[..i + 1] == clusters[..i] + [clusters[i]];
      }
      assert clusters[..|clusters|] == clusters;
      err := None;
    }

    method GroupWorkload(w: World, pl: Placement, key: string, group: seq<string>)
      returns (err: Option<string>, count: nat)
      requires Valid() && cause.w == w && w.placement == Success(pl) && key == DataKey(pl.predicates)
      modifies this`works, this`cause
      ensures Valid() && Grown(old(cause), cause)
      ensures err.None? <==> GroupOk(w, instance.listeners, key, group)
      ensures err.None? ==> GroupApplied(w, pl, cause.works, group) && count == WorksOfGroup(w, group)
    {
      count := 0;
      for i := 0 to |group|
        invariant Valid() && Grown(old(cause), cause) && count == WorksOfGroup(w, group[..i])
        invariant forall d :: d in group[..i] ==>
                    DecisionOk(w, instance.listeners, key, d) && DecisionApplied(w, pl, cause.works, d)
      {
        ghost var before := cause;
        var n;
        err, n := DecisionWorkload(w, pl, key, group[i]);
        GrownTrans(old(cause), before, cause);
        if err.Some? {
          assert group[i] in group;
          return;
        }
        count := count + n;
        assert group[..i + 1] == group[..i] + [group[i]];
        assert group[..i + 1][..i] == group[..i];
      }
      assert group[..|group|] == group;
      err := None;
    }

    method ReportApplied(count: nat, call: Call) returns (err: Option<string>)
      requires Valid()
      modifies this`log, this`gone, this`instance, this`version
      ensures Continues()
      ensures instance.phase == old(instance.phase) && instance.listeners == old(instance.listeners)
      ensures instance.spec == old(instance.spec)
      ensures old(Fresh()) && call == UNDISTURBED ==>
                err.None? && Fresh() && instance.deleting == old(instance.deleting)
      ensures instance.message == if old(instance.phase).Running? then AppliedWorks(count) else old(instance.message)
    {
      err := None;
      if instance.phase.Running? && instance.message != AppliedWorks(count) {
        instance := instance.(phase := Running, message := AppliedWorks(count));
        err := UpdateStatus(call);
      }
    }

    /** One group of decisions; while Running, the message then counts the works so far. */
    method OneGroup(w: World, pl: Placement, key: string, group: seq<string>, count: nat, call: Call)
      returns (err: Option<string>, total: nat)
      requires Valid() && cause.w == w && w.placement == Success(pl) && key == DataKey(pl.predicates)
      modifies this
      ensures Valid() && old(log) <= log && Grown(old(cause), cause)
      ensures instance.phase == old(instance.phase) && instance.listeners == old(instance.listeners)
      ensures instance.spec == old(instance.spec)
      ensures err.None? ==> GroupApplied(w, pl, cause.works, group) && total == count + WorksOfGroup(w, group)
      ensures err.None? && instance.phase.Running? ==> instance.message == AppliedWorks(total)
      ensures old(Fresh()) && call == UNDISTURBED ==>
                Fresh() && instance.deleting == old(instance.deleting)
                && (err.None? <==> GroupOk(w, instance.listeners, key, group))
      ensures err.None? ==> GroupOk(w, instance.listeners, key, group)
    {
      var n;
      err, n := GroupWorkload(w, pl, key, group);
      total := count + n;
      if err.None? {
        err := ReportApplied(total, call);
      }
    }

    /** Applies a work to every listed cluster; while Running, the message counts them after each group. */
    method GenerateWorkload(w: World, pl: Placement, s: Script) returns (err: Option<string>)
      requires Valid() && cause.w == w && w.placement == Success(pl)
      modifies this
      ensures Valid() && old(log) <= log && Grown(old(cause), cause)
      ensures instance.phase == old(instance.phase) && instance.listeners == old(instance.listeners)
      ensures instance.spec == old(instance.spec)
      ensures err.None? ==> forall g :: g in pl.groups ==> GroupApplied(w, pl, cause.works, g)
      ensures err.None? && instance.phase.Running? && pl.groups != [] ==>
                instance.message == AppliedWorks(WorksOfGroups(w, pl.groups))
      ensures old(Fresh()) && Quiet(s) ==>
                Fresh() && instance.deleting == old(instance.deleting)
                && (err.None? <==> WorkloadsOk(w, instance.listeners, pl))
    {
      var key := ComputeDataKey(pl.predicates);
      var count := 0;
      for i := 0 to |pl.groups|
        invariant Valid() && old(log) <= log && Grown(old(cause), cause)
        invariant instance.phase == old(instance.phase) && instance.listeners == old(instance.listeners)
        invariant instance.spec == old(instance.spec) && count == WorksOfGroups(w, pl.groups[..i])
        invariant instance.phase.Running? && i > 0 ==> instance.message == AppliedWorks(count)
        invariant forall g :: g in pl.groups[..i] ==> GroupApplied(w, pl, cause.works, g)
        invariant old(Fresh()) && Quiet(s) ==> Fresh() && instance.deleting == old(instance.deleting)
        invariant forall g :: g in pl.groups[..i] ==> GroupOk(w, instance.listeners, key, g)
      {
        ghost var before := cause;
        QuietCalls(s, i);
        err, count := OneGroup(w, pl, key, pl.groups[i], count, GroupCall(s, i));
        GrownTrans(old(cause), before, cause);
        GrownGroups(before, cause, pl, pl.groups[..i]);
        if err.Some? {
          assert pl.groups[i] in pl.groups;
          return;
        }
        assert pl.groups[..i + 1] == pl.groups[..i] + [pl.groups[i]];
        WorksAppend(w, pl.groups[..i], pl.groups[i]);
      }
      assert pl.groups[..|pl.groups|] == pl.groups;
      err := None;
    }

    method ReportWaiting(selected: int, s: Script) returns (err: Option<string>)
      requires Valid()
      modifies this`log, this`gone, this`instance, this`version
      ensures Continues()
      ensures instance.phase == old(instance.phase) && instance.listeners == old(instance.listeners)
      ensures instance.spec == old(instance.spec)
      ensures instance.message == WaitingAvailableClients(old(instance.spec.minAvailableClients), selected)
      ensures old(Fresh()) && Quiet(s) ==> err.None? && Fresh() && instance.deleting == old(instance.deleting)
    {
      var message := WaitingAvailableClients(instance.spec.minAvailableClients, selected);
      err := None;
      if message != instance.message {
        instance := instance.(message := message);
        err := UpdateStatus(s.client);
      }
    }

    method SwitchToRunning(selected: int, s: Script) returns (err: Option<string>)
      requires Valid() && Rank(instance.phase) <= 2 && RunningJustified(instance.spec, cause)
      modifies this`log, this`gone, this`instance, this`version
      ensures Continues()
      ensures instance.phase.Running? && instance.spec == old(instance.spec)
      ensures instance.message == AssignedClusters(selected)
      ensures old(Fresh()) && Quiet(s) ==> err.None? && Fresh() && instance.deleting == old(instance.deleting)
    {
      var message := AssignedClusters(selected);
      err := None;
      if !instance.phase.Running? || instance.message != message {
        instance := instance.(phase := Running, message := message);
        err := UpdateStatus(s.client);
      }
    }

    method ToRunning(w: World, pl: Placement, s: Script) returns (err: Option<string>)
      requires Valid() && cause.w == w && w.placement == Success(pl)
      requires !instance.spec.framework.Flower? && Rank(instance.phase) <= 2
      modifies this
      ensures Valid() && old(log) <= log && Grown(old(cause), cause)
      ensures instance.phase == old(instance.phase) || instance.phase.Running?
      ensures instance.spec == old(instance.spec)
      ensures err.None? ==> !instance.message.TrainingSuccessful?
      ensures old(Fresh()) && Quiet(s) ==>
                var done := Enough(old(instance), pl) && WorkloadsOk(w, old(instance).listeners, pl);
                && Fresh() && instance.deleting == old(instance.deleting)
                && instance.phase == (if done then Running else old(instance.phase))
                && (err.None? <==> !Enough(old(instance), pl) || done)
    {
      if pl.selected < Int32(instance.spec.minAvailableClients) {
        err := ReportWaiting(pl.selected, s);
        return;
      }
      err := GenerateWorkload(w, pl, s);
      if err.Some? {
        return;
      }
      EveryListedApplied(w, pl, cause.works);
      err := SwitchToRunning(pl.selected, s);
    }

    /** The listener of the service, with the node address of the last usable node. */
    method FindListener(svc: Service, w: World) returns (r: Result<Option<Listener>, string>)
      requires instance.spec.listeners != []
      ensures r == ServiceListener(svc, instance.spec.listeners[0].ip, w.nodes)
    {
      match svc
      case OtherService(_) => r := Failure("failed to update the service address");
      case LoadBalancerService(name, ingress, port) =>
        if |ingress| == 0 {
          return Failure("loadBalancer service address is empty");
        }
        var address;
        if ingress[0].hostname != "" {
          address := ingress[0].hostname + ":" + port;
        } else if ingress[0].ip != "" {
          address := ingress[0].ip + ":" + port;
        } else {
          return Failure("no available ingress address in service");
        }
        r := Success(Some(Listener("listener(service):" + name, LoadBalancer, address, "")));
      case NodePortService(name, nodePorts) =>
        if |nodePorts| == 0 || nodePorts[0] == "0" {
          return Success(None);
        }
        var nodeIp := instance.spec.listeners[0].ip;
        if nodeIp == "" {
          if w.nodes.Failure? {
            return Failure(w.nodes.error);
          }
          nodeIp := AdvertisedNodeIp(nodeIp, w.nodes.value);
        }
        if nodeIp == "" {
          return Failure("no node internal IP found");
        }
        r := Success(Some(Listener("listener(service):" + name, NodePort, nodeIp + ":" + nodePorts[0], nodePorts[0])));
    }

    /** Sets the server up and publishes its listener; `unrecorded` as in `ServerSetup`. */
    method ServerSteps(w: World, s: Script) returns (err: Option<string>, unrecorded: bool)
      requires Valid() && cause.w == w && instance.spec.listeners != []
      modifies this`log, this`gone, this`instance, this`version
      ensures Continues()
      ensures instance.phase == old(instance.phase) && instance.spec == old(instance.spec)
      ensures instance.listeners == old(instance.listeners) || instance.listeners == ListenersAfter(old(instance), w)
      ensures old(Fresh()) && Quiet(s) ==>
                && Fresh() && instance.deleting == old(instance.deleting)
                && instance.listeners == ListenersAfter(old(instance), w)
                && (err.None? <==> Publishes(old(instance), w).Success?)
    {
      if w.server.SetupFails? {
        return Some(w.server.err), w.server.unrecorded;
      }
      if w.service.Failure? {
        return Some(w.service.error), false;
      }
      var found := FindListener(w.service.value, w);
      if found.Failure? {
        return Some(found.error), false;
      }
      err, unrecorded := None, false;
      if found.value.Some? {
        var listeners := Replaced(instance.listeners, found.value.value);
        instance := instance.(listeners := listeners);
        err := UpdateStatus(s.listeners);
      }
    }

    method FederatedLearningServer(w: World, s: Script) returns (err: Option<string>)
      requires Valid() && cause.w == w
      modifies this`log, this`gone, this`instance, this`version
      ensures Continues()
      ensures instance.phase == old(instance.phase) && instance.spec == old(instance.spec)
      ensures instance.listeners == old(instance.listeners) || instance.listeners == ListenersAfter(old(instance), w)
      ensures old(Fresh()) && Quiet(s) && !old(instance.deleting) ==>
                && Fresh() && !instance.deleting
                && instance.listeners == ListenersAfter(old(instance), w)
                && (err.None? <==> Publishes(old(instance), w).Success?)
    {
      if instance.deleting {
        return None;
      }
      if |instance.spec.listeners| == 0 {
        return Some("no listeners specified");
      }
      var unrecorded;
      err, unrecorded := ServerSteps(w, s);
      if err.Some? && !unrecorded {
        instance := instance.(message := ServerFailed(err.value));
        var _ := UpdateStatus(s.server);
      }
    }

    method FederatedLearningClient(w: World, s: Script) returns (err: Option<string>)
      requires Valid() && cause.w == w
      requires !instance.spec.framework.Flower? && Rank(instance.phase) <= 2
      modifies this
      ensures Valid() && old(log) <= log && Grown(old(cause), cause)
      ensures instance.phase == old(instance.phase) || instance.phase.Running?
      ensures instance.spec == old(instance.spec)
      ensures old(Fresh()) && Quiet(s) && !old(instance.deleting) ==>
                && Fresh() && !instance.deleting
                && (err.None? ==> !instance.message.TrainingSuccessful?)
                && (w.placement.Failure? ==> err.Some? && instance.phase == old(instance.phase))
                && (w.placement.Success? ==>
                      var enough := Enough(old(instance), w.placement.value);
                      var done := enough && WorkloadsOk(w, old(instance).listeners, w.placement.value);
                      && instance.phase == (if done then Running else old(instance.phase))
                      && (err.None? <==> !enough || done))
    {
      if instance.deleting {
        return None;
      }
      if w.placement.Failure? {
        return Some(w.placement.error);
      }
      err := ToRunning(w, w.placement.value, s);
    }

    method DeployFlowerClientApp(w: World, s: Script) returns (err: Option<string>)
      requires Valid() && cause.w == w && !cause.clientApp
      requires instance.spec.framework.Flower? && Rank(instance.phase) <= 2
      modifies this
      ensures Valid() && old(log) <= log && cause.w == w
      ensures instance.phase == old(instance.phase) || instance.phase.Running?
      ensures instance.spec == old(instance.spec)
      ensures old(Fresh()) && Quiet(s) ==>
                && Fresh() && instance.deleting == old(instance.deleting)
                && (w.placement.Failure? ==> err.Some? && instance.phase == old(instance.phase))
                && (w.placement.Success? ==>
                      var enough := Enough(old(instance), w.placement.value);
                      && (err.Some? <==> enough && w.flowerClient.Some?)
                      && instance.phase == (if enough && err.None? then Running else old(instance.phase)))
    {
      if w.placement.Failure? {
        return Some(w.placement.error);
      }
      var pl := w.placement.value;
      if pl.selected < Int32(instance.spec.minAvailableClients) {
        err := ReportWaiting(pl.selected, s);
        return;
      }
      if w.flowerClient.Some? {
        return w.flowerClient;
      }
      cause := cause.(clientApp := true);
      err := SwitchToRunning(pl.selected, s);
    }

    method ReconcileFlower(w: World, s: Script) returns (err: Option<string>)
      requires Valid() && cause.w == w && !cause.clientApp
      requires instance.spec.framework.Flower? && Rank(instance.phase) <= 2
      modifies this
      ensures Valid() && old(log) <= log && cause.w == w
      ensures instance.phase == old(instance.phase) || instance.phase.Running?
      ensures instance.spec == old(instance.spec)
      ensures old(Fresh()) && Quiet(s) ==>
                && Fresh() && instance.deleting == old(instance.deleting)
                && FlowerPhase(old(instance), old(instance.phase), w)
                   == if err.Some? then Failed else instance.phase
    {
      if w.deployPlacement.Some? {
        return w.deployPlacement;
      }
      if w.flowerServer.Some? {
        return w.flowerServer;
      }
      err := DeployFlowerClientApp(w, s);
    }

    /** Waiting or Running, without Flower. `stop`: an error that the deferred write does not see. */
    method ReconcileOpenFL(w: World, s: Script) returns (err: Option<string>, stop: bool)
      requires Valid() && cause == Reconciled(w, map[], false)
      requires !instance.spec.framework.Flower? && (instance.phase.Waiting? || instance.phase.Running?)
      modifies this
      ensures Valid() && old(log) <= log && cause.w == w
      ensures instance.phase == old(instance.phase) || instance.phase.Running?
      ensures instance.spec == old(instance.spec)
      ensures old(Fresh()) && Quiet(s) && !old(instance.deleting) ==>
                && Fresh() && !instance.deleting
                && (err.None? && !stop ==> !instance.message.TrainingSuccessful?)
                && OpenFLPhase(old(instance), old(instance.phase), w)
                   == if err.Some? then Failed else if stop then instance.phase else JobPhase(instance.phase, w)
    {
      stop := false;
      err := w.deployPlacement;
      if err.Some? {
        return;
      }
      var e := FederatedLearningServer(w, s);
      if e.Some? {
        return None, true;
      }
      e := FederatedLearningClient(w, s);
      stop := e.Some?;
    }

    method RecordCompletion(w: World, s: Script) returns (err: Option<string>)
      requires Valid() && cause.w == w && !instance.spec.framework.Flower?
      requires instance.phase.Running? || instance.phase.Completed?
      modifies this
      ensures Valid() && old(log) <= log
      ensures old(Fresh()) && Quiet(s)
              && (old(instance.phase.Completed?) || old(!instance.message.TrainingSuccessful?)) ==>
                && Fresh() && instance.deleting == old(instance.deleting)
                && JobPhase(old(instance.phase), w) == if err.Some? then Failed else instance.phase
      ensures instance.phase.Completed? && !old(instance.phase).Completed? ==>
                w.job.Success? && w.job.value > 0 && instance.message.TrainingSuccessful?
    {
      if w.job.Failure? {
        return Some(w.job.error);
      }
      err := None;
      if w.job.value > 0 && !instance.message.TrainingSuccessful? {
        instance := instance.(phase := Completed, message := TrainingSuccessful);
        err := UpdateStatus(s.completed);
      }
    }

    method Initialize(s: Script) returns (err: Option<string>)
      requires Valid()
      modifies this`log, this`gone, this`instance, this`version
      ensures Continues()
      ensures instance.phase == (if old(instance.phase).Unset? then Waiting else old(instance.phase))
      ensures instance.message == (if old(instance.phase).Unset? then WaitingReady else old(instance.message))
      ensures instance.listeners == old(instance.listeners) && instance.spec == old(instance.spec)
      ensures old(Fresh()) && Quiet(s) ==> err.None? && Fresh() && instance.deleting == old(instance.deleting)
    {
      err := None;
      if instance.phase.Unset? {
        instance := instance.(phase := Waiting, message := WaitingReady);
        err := UpdateStatus(s.init);
      }
    }

    /** From here on the frameworks part: Flower never looks at a job. */
    method FollowFlower(w: World, s: Script) returns (err: Option<string>)
      requires Valid() && cause == Reconciled(w, map[], false) && instance.spec.framework.Flower?
      modifies this
      ensures Valid() && old(log) <= log
      ensures old(Fresh()) && Quiet(s) && !old(instance.deleting) && !old(instance.phase).Unset? ==>
                && Fresh() && !instance.deleting
                && NextPhase(old(instance), w) == if err.Some? then Failed else instance.phase
    {
      err := None;
      if instance.phase.Waiting? || instance.phase.Running? {
        err := ReconcileFlower(w, s);
      }
    }

    method FollowOpenFL(w: World, s: Script) returns (err: Option<string>)
      requires Valid() && cause == Reconciled(w, map[], false) && !instance.spec.framework.Flower?
      modifies this
      ensures Valid() && old(log) <= log
      ensures old(Fresh()) && Quiet(s) && !old(instance.deleting) && !old(instance.phase).Unset? ==>
                && Fresh() && !instance.deleting
                && NextPhase(old(instance), w) == if err.Some? then Failed else instance.phase
    {
      err := None;
      if instance.phase.Waiting? || instance.phase.Running? {
        var stop;
        err, stop := ReconcileOpenFL(w, s);
        if err.Some? || stop {
          return;
        }
      }
      if instance.phase.Running? || instance.phase.Completed? {
        err := RecordCompletion(w, s);
      }
    }

    /** The phases of a live instance that has its finalizer. */
    method Advance(w: World, s: Script) returns (err: Option<string>)
      requires Valid() && cause == Reconciled(w, map[], false)
      modifies this
      ensures Valid() && old(log) <= log
      ensures old(Fresh()) && Quiet(s) && !old(instance.deleting) ==>
                && Fresh() && !instance.deleting
                && NextPhase(old(instance), w) == if err.Some? then Failed else instance.phase
    {
      err := None;
      if instance.phase.Failed? {
        return;
      }
      var e := Initialize(s);
      if e.Some? {
        return;
      }
      NextPhaseOfStarted(old(instance), instance, w);
      if instance.spec.framework.Flower? {
        err := FollowFlower(w, s);
      } else {
        err := FollowOpenFL(w, s);
      }
    }

    /** The finalizer goes once both sides are pruned; the errors of pruning are shadowed. */
    method CleanUp(w: World, s: Script) returns (err: Option<string>)
      requires Valid() && instance == log[version].inst && instance.deleting
      modifies this`log, this`gone, this`instance, this`version
      ensures Continues()
      ensures w.pruneServer.Some? || w.pruneClient.Some? ==> err.None? && log == old(log) && gone == old(gone)
      ensures w.pruneServer.None? && w.pruneClient.None? && err.None? && old(instance.finalizer) ==> gone
    {
      err := None;
      if w.pruneServer.Some? || w.pruneClient.Some? {
        return;
      }
      if instance.finalizer {
        err := UpdateMeta(false, s.finalizer);
      }
    }

    /** Everything before the deferred status write; `err` is the variable that write looks at, which the errors of
        shadowing declarations do not reach. */
    method Steps(w: World, s: Script) returns (err: Option<string>)
      requires Valid() && cause == Reconciled(w, map[], false) && instance == log[version].inst
      modifies this
      ensures Valid() && old(log) <= log
      ensures old(Fresh()) && Quiet(s) && !old(instance.deleting) ==>
                && Fresh() && !instance.deleting
                && NextPhase(old(instance), w) == if err.Some? then Failed else instance.phase
    {
      err := None;
      if instance.deleting {
        err := CleanUp(w, s);
        return;
      }
      if !instance.finalizer {
        err := UpdateMeta(true, s.finalizer);
        if err.Some? {
          return;
        }
        if instance == old(instance).(finalizer := true) {
          NextPhaseOfStarted(old(instance), instance, w);
        }
      }
      err := Advance(w, s);
    }

    /** The deferred status write: an error makes the instance Failed; a failure of the write itself is only logged. */
    method WriteDeferred(err: Option<string>, s: Script)
      requires Valid()
      modifies this
      ensures ValidLog(log) && old(log) <= log
      ensures old(Fresh()) && Quiet(s) ==>
                && !gone && log[|log| - 1].inst.phase == (if err.Some? then Failed else old(instance.phase))
                && log[|log| - 1].inst.deleting == old(instance.deleting)
                && log[|log| - 1].inst.message == (if err.Some? then ErrorText(err.value) else old(instance.message))
    {
      if err.Some? {
        instance := instance.(message := ErrorText(err.value), phase := Failed);
      }
      var _ := UpdateStatus(s.deferred);
    }

    method Begin(read: nat, w: World)
      requires ValidLog(log) && read < |log|
      modifies this`version, this`instance, this`cause
      ensures Valid() && version == read && instance == log[read].inst && cause == Reconciled(w, map[], false)
      ensures !gone && read == |log| - 1 ==> Fresh()
    {
      version, instance, cause := read, log[read].inst, Reconciled(w, map[], false);
    }

    /** One reconcile of the version `read`, or of nothing when the read fails or finds nothing.
        Whatever fails and whoever interferes, the history of the instance stays valid; undisturbed, on the latest
        version of a live instance, it ends in the phase of the table. */
    method Reconcile(read: Option<nat>, w: World, s: Script)
      requires ValidLog(log) && (read.Some? ==> read.value < |log|)
      modifies this
      ensures ValidLog(log) && old(log) <= log
      ensures !old(gone) && read == Some(old(|log|) - 1) && Quiet(s) && !old(log[|log| - 1].inst.deleting) ==>
                && !gone && !log[|log| - 1].inst.deleting
                && log[|log| - 1].inst.phase == NextPhase(old(log[|log| - 1].inst), w)
    {
      if read.None? {
        return;
      }
      Begin(read.value, w);
      var err := Steps(w, s);
      WriteDeferred(err, s);
    }
  }

  // ---------------------------------------------------------------------------------------------
  // Every run
  // ---------------------------------------------------------------------------------------------

  datatype Event = Reconciling(read: Option<nat>, w: World, s: Script) | Interfering(moves: seq<Move>)

  /** Any run of reconciles and interference after the creation of an instance leaves a valid history. */
  method Run(created: Instance, run: seq<Event>) returns (log: seq<Version>)
    ensures ValidLog(log) && log[0] == Version(created, Others)
    ensures forall i, j :: 0 <= i <= j < |log| ==> Rank(log[i].inst.phase) <= Rank(log[j].inst.phase)
    ensures !created.phase.Completed? ==>
              forall j: nat :: j < |log| && log[j].inst.spec.framework.Flower? ==>
                (log[j].inst.phase.Completed? <==>
                   !log[j].inst.phase.Failed? && exists i: nat :: i < j && CompletedElsewhere(log, i))
  {
    var r := new Reconciler(created);
    for i := 0 to |run|
      invariant ValidLog(r.log) && r.log[0] == Version(created, Others)
    {
      match run[i]
      case Interfering(moves) => r.Interfere(moves);
      case Reconciling(read, w, s) =>
        if read.None? || read.value < |r.log| {
          r.Reconcile(read, w, s);
        }
    }
    log := r.log;
    forall i, j | 0 <= i <= j < |log|
      ensures Rank(log[i].inst.phase) <= Rank(log[j].inst.phase)
    {
      PhasesNeverDecrease(log, i, j);
    }
    if !created.phase.Completed? {
      forall j: nat | j < |log| && log[j].inst.spec.framework.Flower?
        ensures log[j].inst.phase.Completed? <==>
                  !log[j].inst.phase.Failed? && exists i: nat :: i < j && CompletedElsewhere(log, i)
      {
        FlowerCompletedIff(log, j);
      }
    }
  }

  // ---------------------------------------------------------------------------------------------
  // A completed instance of Flower
  // ---------------------------------------------------------------------------------------------

  const TRAINING := Instance(Spec(OpenFL, 1, [ListenerSpec(NodePort, "10.0.0.1")]), true, false, Unset, NoMessage, [])

  /** One selected cluster with data, a ready service, and a server job that has succeeded. */
  const HEALTHY := World(
    None, Success(Placement(1, [["d"]], [[Expression("k", true)]])), map["d" := ["c"]], map["c" := [("k", "v")]], {},
    SetupOk, Success(NodePortService("s", ["1"])), Success([]), None, None, Success(1), None, None)

  const CALM := Script(UNDISTURBED, UNDISTURBED, UNDISTURBED, UNDISTURBED, [], UNDISTURBED, UNDISTURBED, UNDISTURBED)

  lemma TrainingCompletes()
    ensures NextPhase(TRAINING, HEALTHY) == Completed
  {
    var l := Listener("listener(service):" + "s", NodePort, "10.0.0.1" + ":" + "1", "1");
    assert "1"[0] != "0"[0] && |"10.0.0.1"| > 0;
    assert Publishes(TRAINING, HEALTHY) == Success(Some(l));
    assert ListenersAfter(TRAINING, HEALTHY) == [] + [l] == [l];
    var es := [Expression("k", true)];
    assert [es][..0] == [] && DataKey([es]) == LastKey(es, "") == "k";
    assert DataConfig([("k", "v")], "k") == "v";
    assert WorkloadsOk(HEALTHY, [l], HEALTHY.placement.value);
  }

  /** A run after which an instance of Flower is Completed: training ends, then the framework is edited. */
  method FlowerCompletedByEdit() returns (log: seq<Version>)
    ensures ValidLog(log) && log[0] == Version(TRAINING, Others)
    ensures log[|log| - 1].inst.phase.Completed? && log[|log| - 1].inst.spec.framework.Flower?
  {
    var r := new Reconciler(TRAINING);
    TrainingCompletes();
    r.Reconcile(Some(0), HEALTHY, CALM);
    var edit := EditSpec(TRAINING.spec.(framework := Flower));
    assert [edit][..0] == [] && !r.log[|r.log| - 1].inst.deleting;
    r.Interfere([edit]);
    log := r.log;
  }
}
