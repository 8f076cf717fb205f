/** The usage collector's arithmetic on one snapshot of nodes and pods. Quantities are real numbers. */
module ResourceUsage {
  import opened Wrappers

  type ResourceList = map<string, real>

  datatype PodPhase = Pending | Running | Succeeded | Failed | Unknown

  datatype Pod = Pod(
    node: string,
    phase: PodPhase,
    deleting: bool,
    containers: seq<ResourceList>,
    initContainers: seq<ResourceList>,
    overhead: Option<ResourceList>)

  datatype Node = Node(name: string, unschedulable: bool, allocatable: ResourceList)

  datatype Score = Score(useRequested: bool, enablePodOverhead: bool)

  const CPU := "cpu"
  const MEMORY := "memory"

  function Quantity(list: ResourceList, name: string): real { if name in list then list[name] else 0.0 }

  predicate NonNegative(list: ResourceList) { forall name :: name in list ==> list[name] >= 0.0 }

  /** Cpu and memory have defaults for pods that request nothing; an explicit zero stays zero. */
  function GetRequestForResource(name: string, requests: Option<ResourceList>, nonZero: bool): (value: real)
    ensures requests.Some? && name in requests.value ==> value == requests.value[name]
    ensures requests.Some? && NonNegative(requests.value) ==> value >= 0.0
    ensures requests.Some? && nonZero && CPU !in requests.value && name == CPU ==> value == 100.0
    ensures requests.Some? && nonZero && MEMORY !in requests.value && name == MEMORY ==> value == 209715200.0
    ensures value != 0.0 ==> requests.Some? && (name in requests.value || (nonZero && (name == CPU || name == MEMORY)))
  {
    if requests.None? then 0.0
    else if name == CPU then
      if name !in requests.value && nonZero then 100.0 else Quantity(requests.value, name)
    else if name == MEMORY then
      if name !in requests.value && nonZero then 200.0 * 1024.0 * 1024.0 else Quantity(requests.value, name)
    else if name !in requests.value then 0.0
    else requests.value[name]
  }

  // ---------------------------------------------------------------------------------------------
  // The running total over the pods of a node
  // ---------------------------------------------------------------------------------------------

  function Max(a: real, b: real): real { if a < b then b else a }

  function Request(s: Score, name: string, c: ResourceList): real {
    GetRequestForResource(name, Some(c), !s.useRequested)
  }

  function Sum(s: Score, name: string, cs: seq<ResourceList>): real {
    if cs == [] then 0.0 else Sum(s, name, cs[..|cs| - 1]) + Request(s, name, cs[|cs| - 1])
  }

  function Largest(s: Score, name: string, cs: seq<ResourceList>): real {
    if cs == [] then 0.0 else Max(Largest(s, name, cs[..|cs| - 1]), Request(s, name, cs[|cs| - 1]))
  }

  function Overhead(s: Score, name: string, p: Pod): real {
    if p.overhead.Some? && s.enablePodOverhead then Quantity(p.overhead.value, name) else 0.0
  }

  /** An unfinished pod on the node. */
  predicate Counted(p: Pod, node: string) {
    p.node == node && !p.phase.Succeeded? && !p.phase.Failed? && !p.deleting
  }

  predicate PodOk(p: Pod) {
    && (forall c :: c in p.containers ==> NonNegative(c)) && (forall c :: c in p.initContainers ==> NonNegative(c))
    && (p.overhead.Some? ==> NonNegative(p.overhead.value))
  }

  predicate PodsOk(pods: seq<Pod>) { forall p :: p in pods ==> PodOk(p) }

  /** The init containers of a pod are compared with the total so far, not with the pod's own containers. */
  function Add(s: Score, name: string, node: string, total: real, p: Pod): real {
    if !Counted(p, node) then total
    else Max(total + Sum(s, name, p.containers), Largest(s, name, p.initContainers)) + Overhead(s, name, p)
  }

  function Usage(s: Score, name: string, node: string, pods: seq<Pod>): real {
    if pods == [] then 0.0
    else Add(s, name, node, Usage(s, name, node, pods[..|pods| - 1]), pods[|pods| - 1])
  }

  method CalculateNodeResourceUsage(s: Score, pods: Result<seq<Pod>, string>, node: string, name: string)
    returns (r: Result<real, string>)
    requires pods.Success? ==> PodsOk(pods.value)
    ensures pods.Failure? ==> r == Failure(pods.error)
    ensures pods.Success? ==> r == Success(Usage(s, name, node, pods.value))
  {
    if pods.Failure? {
      return Failure(pods.error);
    }
    var list := pods.value;
    var podRequest := 0.0;
    for i := 0 to |list|
      invariant podRequest == Usage(s, name, node, list[..i]) && podRequest >= 0.0
    {
      assert list[..i + 1][..i] == list[..i];
      var pod := list[i];
      assert pod in list;
      if pod.node != node {
        continue;
      }
      if pod.phase.Succeeded? || pod.phase.Failed? || pod.deleting {
        continue;
      }
      podRequest := AddContainers(s, name, pod, podRequest);
      podRequest := RaiseToInit(s, name, pod, podRequest);
      if pod.overhead.Some? && s.enablePodOverhead {
        if name in pod.overhead.value {
          podRequest := podRequest + pod.overhead.value[name];
        }
      }
    }
    assert list[..|list|] == list;
    r := Success(podRequest);
  }

  /** The loop over the containers of a pod. */
  method AddContainers(s: Score, name: string, pod: Pod, start: real) returns (podRequest: real)
    requires PodOk(pod) && start >= 0.0
    ensures podRequest == start + Sum(s, name, pod.containers) && podRequest >= 0.0
  {
    podRequest := start;
    for i := 0 to |pod.containers|
      invariant podRequest == start + Sum(s, name, pod.containers[..i]) && podRequest >= 0.0
    {
      assert pod.containers[..i + 1][..i] == pod.containers[..i];
      assert pod.containers[i] in pod.containers;
      podRequest := podRequest + Request(s, name, pod.containers[i]);
    }
    assert pod.containers[..|pod.containers|] == pod.containers;
  }

  /** The loop over the init containers of a pod. */
  method RaiseToInit(s: Score, name: string, pod: Pod, start: real) returns (podRequest: real)
    requires start >= 0.0
    ensures podRequest == Max(start, Largest(s, name, pod.initContainers)) && podRequest >= 0.0
  {
    podRequest := start;
    for i := 0 to |pod.initContainers|
      invariant podRequest == Max(start, Largest(s, name, pod.initContainers[..i])) && podRequest >= start
    {
      assert pod.initContainers[..i + 1][..i] == pod.initContainers[..i];
      var value := Request(s, name, pod.initContainers[i]);
      if podRequest < value {
        podRequest := value;
      }
    }
    assert pod.initContainers[..|pod.initContainers|] == pod.initContainers;
  }

  // ---------------------------------------------------------------------------------------------
  // What the pieces of the total are
  // ---------------------------------------------------------------------------------------------

  /** A container requests what it says, even zero. One that says nothing of cpu or memory counts as 100 and as 200 MiB,
      unless only requested amounts are to be used. */
  lemma RequestIs(s: Score, name: string, c: ResourceList)
    ensures name in c ==> Request(s, name, c) == c[name]
    ensures name !in c && (s.useRequested || (name != "cpu" && name != "memory")) ==> Request(s, name, c) == 0.0
    ensures name !in c && !s.useRequested && name == "cpu" ==> Request(s, name, c) == 100.0
    ensures name !in c && !s.useRequested && name == "memory" ==> Request(s, name, c) == 209715200.0
  {
    assert "cpu"[0] != "memory"[0];
  }

  /** The sum of some containers is that of each part. */
  lemma {:induction false} SumIs(s: Score, name: string, a: seq<ResourceList>, c: ResourceList, b: seq<ResourceList>)
    ensures Sum(s, name, a + [c] + b) == Sum(s, name, a) + Request(s, name, c) + Sum(s, name, b)
    ensures Sum(s, name, []) == 0.0
    decreases |b|
  {
    if b == [] {
      assert a + [c] + b == a + [c] && (a + [c])[..|a|] == a;
    } else {
      assert (a + [c] + b)[..|a| + |b|] == a + [c] + b[..|b| - 1];
      SumIs(s, name, a, c, b[..|b| - 1]);
    }
  }

  /** The largest is no less than any request or 0, and is one of them. */
  lemma {:induction false} LargestIs(s: Score, name: string, cs: seq<ResourceList>)
    ensures Largest(s, name, cs) >= 0.0 && forall c :: c in cs ==> Request(s, name, c) <= Largest(s, name, cs)
    ensures Largest(s, name, cs) == 0.0 || exists c :: c in cs && Request(s, name, c) == Largest(s, name, cs)
  {
    if cs != [] {
      var init, last := cs[..|cs| - 1], cs[|cs| - 1];
      LargestIs(s, name, init);
      assert forall c :: c in cs <==> c in init || c == last;
    }
  }

  /** A pod counts on its own node while it is pending, running or unknown, and not deleting; then, alone on the node,
      it uses the larger of its containers and its largest init container, and its overhead if that is enabled. */
  lemma OnePod(s: Score, name: string, node: string, p: Pod)
    ensures var counts := p.node == node && (p.phase.Pending? || p.phase.Running? || p.phase.Unknown?) && !p.deleting;
            var held, init := Sum(s, name, p.containers), Largest(s, name, p.initContainers);
            var extra := if s.enablePodOverhead && p.overhead.Some? && name in p.overhead.value
                         then p.overhead.value[name] else 0.0;
            Usage(s, name, node, [p]) == if !counts then 0.0 else if held < init then init + extra else held + extra
  {
    var empty: seq<Pod> := [];
    assert [p][..0] == empty;
  }

  // ---------------------------------------------------------------------------------------------
  // Bounds
  // ---------------------------------------------------------------------------------------------

  /** What a pod holds while it runs, and what it needs at most at any time. */
  function Held(s: Score, name: string, p: Pod): real { Sum(s, name, p.containers) + Overhead(s, name, p) }

  function Need(s: Score, name: string, p: Pod): real {
    Max(Sum(s, name, p.containers), Largest(s, name, p.initContainers)) + Overhead(s, name, p)
  }

  function TotalHeld(s: Score, name: string, node: string, pods: seq<Pod>): real {
    if pods == [] then 0.0
    else
      var p := pods[|pods| - 1];
      TotalHeld(s, name, node, pods[..|pods| - 1]) + if Counted(p, node) then Held(s, name, p) else 0.0
  }

  function TotalNeed(s: Score, name: string, node: string, pods: seq<Pod>): real {
    if pods == [] then 0.0
    else
      var p := pods[|pods| - 1];
      TotalNeed(s, name, node, pods[..|pods| - 1]) + if Counted(p, node) then Need(s, name, p) else 0.0
  }

  lemma {:induction false} SumNonNegative(s: Score, name: string, cs: seq<ResourceList>)
    requires forall c :: c in cs ==> NonNegative(c)
    ensures Sum(s, name, cs) >= 0.0
  {
    if cs != [] {
      assert cs[|cs| - 1] in cs;
      SumNonNegative(s, name, cs[..|cs| - 1]);
    }
  }

  lemma {:induction false} LargestNonNegative(s: Score, name: string, cs: seq<ResourceList>)
    ensures Largest(s, name, cs) >= 0.0
  {
    if cs != [] {
      LargestNonNegative(s, name, cs[..|cs| - 1]);
    }
  }

  lemma PodNonNegative(s: Score, name: string, p: Pod)
    requires PodOk(p)
    ensures Sum(s, name, p.containers) >= 0.0 && Largest(s, name, p.initContainers) >= 0.0
    ensures Overhead(s, name, p) >= 0.0
  {
    SumNonNegative(s, name, p.containers);
    LargestNonNegative(s, name, p.initContainers);
  }

  /** The usage of a node lies between what its unfinished pods hold and what they need. */
  lemma {:induction false} UsageBounds(s: Score, name: string, node: string, pods: seq<Pod>)
    requires PodsOk(pods)
    ensures 0.0 <= TotalHeld(s, name, node, pods) <= Usage(s, name, node, pods) <= TotalNeed(s, name, node, pods)
  {
    if pods != [] {
      assert pods[|pods| - 1] in pods;
      PodNonNegative(s, name, pods[|pods| - 1]);
      UsageBounds(s, name, node, pods[..|pods| - 1]);
    }
  }

  /** Every unfinished pod on the node that is listed before pod `i` needs nothing. */
  predicate NothingBefore(s: Score, name: string, node: string, pods: seq<Pod>, i: nat)
    requires i <= |pods|
  {
    forall j :: 0 <= j < i && Counted(pods[j], node) ==> Need(s, name, pods[j]) == 0.0
  }

  lemma {:induction false} UsageZeroIff(s: Score, name: string, node: string, pods: seq<Pod>)
    requires PodsOk(pods)
    ensures Usage(s, name, node, pods) == 0.0 <==> NothingBefore(s, name, node, pods, |pods|)
  {
    if pods != [] {
      var rest, p := pods[..|pods| - 1], pods[|pods| - 1];
      assert p in pods;
      PodNonNegative(s, name, p);
      UsageBounds(s, name, node, rest);
      UsageZeroIff(s, name, node, rest);
      assert NothingBefore(s, name, node, rest, |rest|) <==> NothingBefore(s, name, node, pods, |rest|);
    }
  }

  /** Pod `i` is added in full: its init containers stay below its own containers, or nothing is needed before it. */
  predicate AddedInFull(s: Score, name: string, node: string, pods: seq<Pod>, i: nat)
    requires i < |pods|
  {
    Counted(pods[i], node) ==>
      || Largest(s, name, pods[i].initContainers) <= Sum(s, name, pods[i].containers)
      || NothingBefore(s, name, node, pods, i)
  }

  lemma AddIsNeedIff(s: Score, name: string, node: string, total: real, p: Pod)
    requires PodOk(p) && Counted(p, node) && total >= 0.0
    ensures Add(s, name, node, total, p) <= total + Need(s, name, p)
    ensures Add(s, name, node, total, p) == total + Need(s, name, p)
            <==> Largest(s, name, p.initContainers) <= Sum(s, name, p.containers) || total == 0.0
  {
    PodNonNegative(s, name, p);
  }

  lemma AddedInFullPrefix(s: Score, name: string, node: string, rest: seq<Pod>, p: Pod)
    ensures (forall i :: 0 <= i < |rest + [p]| ==> AddedInFull(s, name, node, rest + [p], i))
            <==> (forall i :: 0 <= i < |rest| ==> AddedInFull(s, name, node, rest, i))
                 && AddedInFull(s, name, node, rest + [p], |rest|)
    ensures NothingBefore(s, name, node, rest + [p], |rest|) <==> NothingBefore(s, name, node, rest, |rest|)
  {
    var pods := rest + [p];
    forall i | 0 <= i <= |rest|
      ensures NothingBefore(s, name, node, pods, i) <==> NothingBefore(s, name, node, rest, i)
    {
      assert forall j :: 0 <= j < i ==> pods[j] == rest[j];
    }
    forall i | 0 <= i < |rest|
      ensures AddedInFull(s, name, node, pods, i) <==> AddedInFull(s, name, node, rest, i)
    {
      assert pods[i] == rest[i];
    }
  }

  /** The usage is the whole need exactly when every pod is added in full. */
  lemma {:induction false} UsageIsNeedIff(s: Score, name: string, node: string, pods: seq<Pod>)
    requires PodsOk(pods)
    ensures Usage(s, name, node, pods) == TotalNeed(s, name, node, pods)
            <==> forall i :: 0 <= i < |pods| ==> AddedInFull(s, name, node, pods, i)
  {
    if pods != [] {
      var rest, p := pods[..|pods| - 1], pods[|pods| - 1];
      assert pods == rest + [p] && p in pods;
      UsageBounds(s, name, node, rest);
      UsageZeroIff(s, name, node, rest);
      UsageIsNeedIff(s, name, node, rest);
      AddedInFullPrefix(s, name, node, rest, p);
      if Counted(p, node) {
        AddIsNeedIff(s, name, node, Usage(s, name, node, rest), p);
      }
    }
  }

  lemma {:induction false} UsageAppend(s: Score, name: string, node: string, pods: seq<Pod>, p: Pod)
    ensures Usage(s, name, node, pods + [p]) == Add(s, name, node, Usage(s, name, node, pods), p)
  {
    assert (pods + [p])[..|pods|] == pods;
  }

  /** Inserting a pod anywhere never lowers the usage, and a pod that is finished or elsewhere changes nothing. */
  lemma {:induction false} InsertingNeverLowers(s: Score, name: string, node: string, before: seq<Pod>, p: Pod,
                                                after: seq<Pod>)
    requires PodOk(p)
    ensures Usage(s, name, node, before + after) <= Usage(s, name, node, before + [p] + after)
    ensures !Counted(p, node) ==> Usage(s, name, node, before + after) == Usage(s, name, node, before + [p] + after)
    decreases |after|
  {
    if after == [] {
      assert before + after == before && before + [p] + after == before + [p];
      UsageAppend(s, name, node, before, p);
      PodNonNegative(s, name, p);
    } else {
      var rest, q := after[..|after| - 1], after[|after| - 1];
      assert before + after == (before + rest) + [q];
      assert before + [p] + after == (before + [p] + rest) + [q];
      InsertingNeverLowers(s, name, node, before, p, rest);
      UsageAppend(s, name, node, before + rest, q);
      UsageAppend(s, name, node, before + [p] + rest, q);
    }
  }

  // ---------------------------------------------------------------------------------------------
  // The order of the pods
  // ---------------------------------------------------------------------------------------------

  /** How far the init containers of a pod reach above its own containers. */
  function Excess(s: Score, name: string, p: Pod): real {
    Largest(s, name, p.initContainers) - Sum(s, name, p.containers)
  }

  /** The largest excess of an unfinished pod on the node, or 0. */
  function Peak(s: Score, name: string, node: string, pods: seq<Pod>): (peak: real)
    ensures peak >= 0.0 && forall p :: p in pods && Counted(p, node) ==> Excess(s, name, p) <= peak
    ensures peak > 0.0 ==> exists p :: p in pods && Counted(p, node) && Excess(s, name, p) == peak
  {
    if pods == [] then 0.0
    else
      var rest, p := pods[..|pods| - 1], pods[|pods| - 1];
      assert forall q :: q in pods <==> q in rest || q == p;
      if Counted(p, node) then Max(Peak(s, name, node, rest), Excess(s, name, p)) else Peak(s, name, node, rest)
  }

  lemma AddIsMax(s: Score, name: string, node: string, total: real, p: Pod)
    requires Counted(p, node)
    ensures Add(s, name, node, total, p) == Max(total, Excess(s, name, p)) + Held(s, name, p)
  {
  }

  lemma {:induction false} HeldOfConcat(s: Score, name: string, node: string, a: seq<Pod>, b: seq<Pod>)
    ensures TotalHeld(s, name, node, a + b) == TotalHeld(s, name, node, a) + TotalHeld(s, name, node, b)
    decreases |b|
  {
    if b == [] {
      assert a + b == a;
    } else {
      assert (a + b)[..|a + b| - 1] == a + b[..|b| - 1];
      HeldOfConcat(s, name, node, a, b[..|b| - 1]);
    }
  }

  /** Pods listed behind others add what they hold, and lift the total to at most the largest excess. */
  lemma {:induction false} BehindBounds(s: Score, name: string, node: string, a: seq<Pod>, b: seq<Pod>, peak: real)
    requires PodsOk(b) && forall p :: p in b && Counted(p, node) ==> Excess(s, name, p) <= peak
    ensures Usage(s, name, node, a) + TotalHeld(s, name, node, b) <= Usage(s, name, node, a + b)
            <= Max(Usage(s, name, node, a), peak) + TotalHeld(s, name, node, b)
    decreases |b|
  {
    if b == [] {
      assert a + b == a;
    } else {
      var rest, p := b[..|b| - 1], b[|b| - 1];
      assert a + b == (a + rest) + [p] && p in b;
      BehindBounds(s, name, node, a, rest, peak);
      UsageAppend(s, name, node, a + rest, p);
      UsageBounds(s, name, node, rest);
      PodNonNegative(s, name, p);
    }
  }

  /** Each pod that holds something exceeds its containers at least as far as any pod does. */
  predicate HoldersReachPeak(s: Score, name: string, node: string, pods: seq<Pod>) {
    forall p, q :: && p in pods && q in pods && Counted(p, node) && Counted(q, node)
                   && Held(s, name, p) > 0.0 && Excess(s, name, q) > 0.0
                   ==> Excess(s, name, q) <= Excess(s, name, p)
  }

  lemma {:induction false} HeldIsZero(s: Score, name: string, node: string, pods: seq<Pod>)
    requires PodsOk(pods) && forall p :: p in pods && Counted(p, node) ==> Held(s, name, p) <= 0.0
    ensures TotalHeld(s, name, node, pods) == 0.0
  {
    if pods != [] {
      assert pods[|pods| - 1] in pods;
      PodNonNegative(s, name, pods[|pods| - 1]);
      HeldIsZero(s, name, node, pods[..|pods| - 1]);
    }
  }

  lemma {:induction false} PeakIsReached(s: Score, name: string, node: string, pods: seq<Pod>)
    requires PodsOk(pods) && HoldersReachPeak(s, name, node, pods)
    ensures Usage(s, name, node, pods) == TotalHeld(s, name, node, pods) + Peak(s, name, node, pods)
  {
    if pods != [] {
      var rest, p := pods[..|pods| - 1], pods[|pods| - 1];
      assert p in pods && forall q :: q in rest ==> q in pods;
      PeakIsReached(s, name, node, rest);
      UsageBounds(s, name, node, rest);
      if Counted(p, node) {
        AddIsMax(s, name, node, Usage(s, name, node, rest), p);
        if Excess(s, name, p) > Peak(s, name, node, rest) {
          HeldIsZero(s, name, node, rest);
        }
      }
    }
  }

  /** A listing of the same pods with `p` in front. */
  lemma ToFront(pods: seq<Pod>, p: Pod) returns (rest: seq<Pod>)
    requires p in pods
    ensures multiset([p] + rest) == multiset(pods)
  {
    var i :| 0 <= i < |pods| && pods[i] == p;
    rest := pods[..i] + pods[i + 1..];
    assert pods == pods[..i] + [p] + pods[i + 1..];
  }

  lemma SameMembers(a: seq<Pod>, b: seq<Pod>)
    requires multiset(a) == multiset(b)
    ensures |a| == |b| && forall p :: p in a <==> p in b
  {
    assert |a| == |multiset(a)| == |multiset(b)| == |b|;
    forall p
      ensures p in a <==> p in b
    {
      assert p in a <==> p in multiset(a);
      assert p in b <==> p in multiset(b);
    }
  }

  lemma RemoveOne(rest: seq<Pod>, p: Pod, b: seq<Pod>, i: nat)
    requires i < |b| && b[i] == p && multiset(rest + [p]) == multiset(b)
    ensures multiset(rest) == multiset(b[..i] + b[i + 1..])
  {
    assert b == b[..i] + [p] + b[i + 1..];
    assert multiset(b[..i] + b[i + 1..]) == multiset(b) - multiset{p};
    assert multiset(rest) == multiset(rest + [p]) - multiset{p};
  }

  lemma {:induction false} HeldIsOrderFree(s: Score, name: string, node: string, a: seq<Pod>, b: seq<Pod>)
    requires multiset(a) == multiset(b)
    ensures TotalHeld(s, name, node, a) == TotalHeld(s, name, node, b)
    decreases |a|
  {
    SameMembers(a, b);
    if a != [] {
      var rest, p := a[..|a| - 1], a[|a| - 1];
      assert a == rest + [p] && p in b;
      var i :| 0 <= i < |b| && b[i] == p;
      assert b == b[..i] + [p] + b[i + 1..];
      RemoveOne(rest, p, b, i);
      HeldIsOrderFree(s, name, node, rest, b[..i] + b[i + 1..]);
      HeldOfConcat(s, name, node, b[..i], b[i + 1..]);
      HeldOfConcat(s, name, node, b[..i] + [p], b[i + 1..]);
      HeldOfConcat(s, name, node, b[..i], [p]);
      HeldOfConcat(s, name, node, rest, [p]);
    }
  }

  ghost predicate OrderFree(s: Score, name: string, node: string, pods: seq<Pod>) {
    forall b :: multiset(b) == multiset(pods) ==> Usage(s, name, node, b) == Usage(s, name, node, pods)
  }

  lemma InFront(s: Score, name: string, node: string, pods: seq<Pod>, p: Pod) returns (b: seq<Pod>)
    requires PodsOk(pods) && p in pods && Counted(p, node)
    ensures multiset(b) == multiset(pods)
    ensures var held, peak, e := TotalHeld(s, name, node, pods), Peak(s, name, node, pods), Excess(s, name, p);
            && (e == peak ==> Usage(s, name, node, b) == held + peak)
            && (e < peak && peak > 0.0 && Held(s, name, p) > 0.0 ==> Usage(s, name, node, b) < held + peak)
  {
    var rest := ToFront(pods, p);
    b := [p] + rest;
    var empty: seq<Pod> := [];
    assert empty + [p] == [p];
    UsageAppend(s, name, node, empty, p);
    AddIsMax(s, name, node, 0.0, p);
    SameMembers(b, pods);
    assert forall q :: q in rest ==> q in b;
    BehindBounds(s, name, node, [p], rest, Peak(s, name, node, pods));
    HeldIsOrderFree(s, name, node, b, pods);
    HeldOfConcat(s, name, node, [p], rest);
    assert TotalHeld(s, name, node, [p]) == Held(s, name, p);
    PodNonNegative(s, name, p);
  }

  lemma PeakIsOrderFree(s: Score, name: string, node: string, a: seq<Pod>, b: seq<Pod>)
    requires forall p :: p in a <==> p in b
    ensures Peak(s, name, node, a) == Peak(s, name, node, b)
  {
  }

  /** In every order the usage is at most all that is held and the peak, and some order attains that. */
  lemma LargestUsage(s: Score, name: string, node: string, pods: seq<Pod>) returns (most: seq<Pod>)
    requires PodsOk(pods)
    ensures Usage(s, name, node, pods) <= TotalHeld(s, name, node, pods) + Peak(s, name, node, pods)
    ensures multiset(most) == multiset(pods)
    ensures Usage(s, name, node, most) == TotalHeld(s, name, node, pods) + Peak(s, name, node, pods)
  {
    var empty: seq<Pod> := [];
    assert empty + pods == pods;
    BehindBounds(s, name, node, empty, pods, Peak(s, name, node, pods));
    most := pods;
    if Peak(s, name, node, pods) > 0.0 {
      var top :| top in pods && Counted(top, node) && Excess(s, name, top) == Peak(s, name, node, pods);
      most := InFront(s, name, node, pods, top);
    }
  }

  lemma SmallerUsage(s: Score, name: string, node: string, pods: seq<Pod>) returns (less: seq<Pod>)
    requires PodsOk(pods) && !HoldersReachPeak(s, name, node, pods)
    ensures multiset(less) == multiset(pods)
    ensures Usage(s, name, node, less) < TotalHeld(s, name, node, pods) + Peak(s, name, node, pods)
  {
    var p, q :| p in pods && q in pods && Counted(p, node) && Counted(q, node)
      && Held(s, name, p) > 0.0 && Excess(s, name, q) > 0.0 && Excess(s, name, p) < Excess(s, name, q);
    less := InFront(s, name, node, pods, p);
  }

  lemma PeakInAnyOrder(s: Score, name: string, node: string, pods: seq<Pod>, b: seq<Pod>)
    requires PodsOk(pods) && HoldersReachPeak(s, name, node, pods) && multiset(b) == multiset(pods)
    ensures Usage(s, name, node, b) == TotalHeld(s, name, node, pods) + Peak(s, name, node, pods)
  {
    SameMembers(b, pods);
    PeakIsReached(s, name, node, b);
    HeldIsOrderFree(s, name, node, b, pods);
    PeakIsOrderFree(s, name, node, b, pods);
  }

  /** The usage does not depend on the order of the pods exactly when each pod that holds something exceeds its
      containers at least as far as any pod does. */
  lemma UsageIsOrderFreeIff(s: Score, name: string, node: string, pods: seq<Pod>)
    requires PodsOk(pods)
    ensures OrderFree(s, name, node, pods) <==> HoldersReachPeak(s, name, node, pods)
  {
    if HoldersReachPeak(s, name, node, pods) {
      PeakInAnyOrder(s, name, node, pods, pods);
      forall b | multiset(b) == multiset(pods)
        ensures Usage(s, name, node, b) == Usage(s, name, node, pods)
      {
        PeakInAnyOrder(s, name, node, pods, b);
      }
    } else {
      var most := LargestUsage(s, name, node, pods);
      var less := SmallerUsage(s, name, node, pods);
    }
  }

  /** In particular the order does not matter when no init container asks for more than its own pod's containers. */
  lemma UsageIsOrderFree(s: Score, name: string, node: string, a: seq<Pod>, b: seq<Pod>)
    requires PodsOk(a) && multiset(a) == multiset(b)
    requires forall p :: p in a && Counted(p, node) ==>
               Largest(s, name, p.initContainers) <= Sum(s, name, p.containers)
    ensures Usage(s, name, node, a) == Usage(s, name, node, b) == TotalNeed(s, name, node, a)
  {
    UsageIsOrderFreeIff(s, name, node, a);
    assert OrderFree(s, name, node, a);
    forall i | 0 <= i < |a|
      ensures AddedInFull(s, name, node, a, i)
    {
      assert a[i] in a;
    }
    UsageIsNeedIff(s, name, node, a);
  }

  /** Two pods whose order matters: one of init containers alone counts in full in front of the other, not behind it. */
  lemma OrderMatters(s: Score, name: string, node: string, plain: Pod, init: Pod)
    requires PodOk(plain) && Counted(plain, node) && plain.overhead.None? && plain.initContainers == []
    requires PodOk(init) && Counted(init, node) && init.overhead.None? && init.containers == []
    requires Sum(s, name, plain.containers) > 0.0 && Largest(s, name, init.initContainers) > 0.0
    ensures Usage(s, name, node, [plain, init]) < Usage(s, name, node, [init, plain])
  {
    var empty: seq<Pod> := [];
    assert [plain, init] == (empty + [plain]) + [init] && [init, plain] == (empty + [init]) + [plain];
    UsageAppend(s, name, node, empty + [plain], init);
    UsageAppend(s, name, node, empty, plain);
    UsageAppend(s, name, node, empty + [init], plain);
    UsageAppend(s, name, node, empty, init);
  }

  // ---------------------------------------------------------------------------------------------
  // Node scope and cluster scope
  // ---------------------------------------------------------------------------------------------

  function Available(s: Score, name: string, n: Node, pods: seq<Pod>): real {
    Quantity(n.allocatable, name) - Usage(s, name, n.name, pods)
  }

  function ClusterAvailable(s: Score, name: string, nodes: seq<Node>, pods: seq<Pod>): real {
    if nodes == [] then 0.0
    else
      var n := nodes[|nodes| - 1];
      ClusterAvailable(s, name, nodes[..|nodes| - 1], pods)
      + if n.unschedulable then 0.0 else Available(s, name, n, pods)
  }

  function SchedulableCount(nodes: seq<Node>): nat {
    if nodes == [] then 0
    else SchedulableCount(nodes[..|nodes| - 1]) + if nodes[|nodes| - 1].unschedulable then 0 else 1
  }

  /** Each schedulable node contributes what it can allocate, 0 if it does not say, less what its pods use. */
  lemma {:induction false} ClusterIsSum(s: Score, name: string, a: seq<Node>, n: Node, b: seq<Node>, pods: seq<Pod>)
    ensures ClusterAvailable(s, name, a + [n] + b, pods)
            == ClusterAvailable(s, name, a, pods) + ClusterAvailable(s, name, b, pods)
               + if n.unschedulable then 0.0
                 else (if name in n.allocatable then n.allocatable[name] else 0.0) - Usage(s, name, n.name, pods)
    ensures ClusterAvailable(s, name, [], pods) == 0.0
    decreases |b|
  {
    if b == [] {
      assert a + [n] + b == a + [n] && (a + [n])[..|a|] == a;
    } else {
      assert (a + [n] + b)[..|a| + |b|] == a + [n] + b[..|b| - 1];
      ClusterIsSum(s, name, a, n, b[..|b| - 1], pods);
    }
  }

  lemma {:induction false} SchedulableCountIs(nodes: seq<Node>)
    ensures SchedulableCount(nodes) > 0 <==> exists n :: n in nodes && !n.unschedulable
  {
    if nodes != [] {
      var init, last := nodes[..|nodes| - 1], nodes[|nodes| - 1];
      SchedulableCountIs(init);
      assert forall n :: n in nodes <==> n in init || n == last;
    }
  }

  method CalculateClusterAvailable(s: Score, nodes: Result<seq<Node>, string>, pods: Result<seq<Pod>, string>,
                                   name: string)
    returns (r: Result<real, string>)
    requires pods.Success? ==> PodsOk(pods.value)
    ensures r.Failure? <==> nodes.Failure? || (pods.Failure? && SchedulableCount(nodes.value) > 0)
    ensures r.Success? ==> r.value == if pods.Success? then ClusterAvailable(s, name, nodes.value, pods.value) else 0.0
  {
    if nodes.Failure? {
      return Failure(nodes.error);
    }
    var list := nodes.value;
    var totalAllocatable, totalUsage := 0.0, 0.0;
    for i := 0 to |list|
      invariant pods.Success? ==> totalAllocatable - totalUsage == ClusterAvailable(s, name, list[..i], pods.value)
      invariant pods.Failure? ==> SchedulableCount(list[..i]) == 0 && totalAllocatable == totalUsage == 0.0
    {
      assert list[..i + 1][..i] == list[..i];
      var node := list[i];
      if node.unschedulable {
        continue;
      }
      if name in node.allocatable {
        totalAllocatable := totalAllocatable + node.allocatable[name];
      }
      var usage := CalculateNodeResourceUsage(s, pods, node.name, name);
      if usage.Failure? {
        CountOfPrefix(list, i + 1);
        return Failure(usage.error);
      }
      totalUsage := totalUsage + usage.value;
    }
    assert list[..|list|] == list;
    r := Success(totalAllocatable - totalUsage);
  }

  lemma {:induction false} CountOfPrefix(nodes: seq<Node>, i: nat)
    requires i <= |nodes|
    ensures SchedulableCount(nodes[..i]) <= SchedulableCount(nodes)
  {
    if i < |nodes| {
      CountOfPrefix(nodes[..|nodes| - 1], i);
      assert nodes[..|nodes| - 1][..i] == nodes[..i];
    } else {
      assert nodes[..i] == nodes;
    }
  }

  /** A node the search looks at: schedulable, and it says how much it can allocate. */
  predicate Considered(n: Node, name: string) { !n.unschedulable && name in n.allocatable }

  /** `value` and `found` are the best of the nodes: the first one that attains a positive maximum, or 0 and "". */
  ghost predicate IsBest(s: Score, name: string, nodes: seq<Node>, pods: seq<Pod>, value: real, found: string) {
    && (forall n :: n in nodes && Considered(n, name) ==> Available(s, name, n, pods) <= value)
    && (if value > 0.0 then exists i :: FirstAt(s, name, nodes, pods, value, found, i) else value == 0.0 && found == "")
  }

  ghost predicate FirstAt(s: Score, name: string, nodes: seq<Node>, pods: seq<Pod>, value: real, found: string,
                          i: int)
  {
    && 0 <= i < |nodes| && Considered(nodes[i], name) && nodes[i].name == found
    && Available(s, name, nodes[i], pods) == value
    && forall j :: 0 <= j < i && Considered(nodes[j], name) ==> Available(s, name, nodes[j], pods) < value
  }

  /** Without the pods nothing can be computed for a considered node. */
  method CalculateMaxAvailableNode(s: Score, nodes: Result<seq<Node>, string>, pods: Result<seq<Pod>, string>,
                                   name: string)
    returns (r: Result<(real, string), string>)
    requires pods.Success? ==> PodsOk(pods.value)
    ensures r.Failure? <==> nodes.Failure? || (pods.Failure? && exists n :: n in nodes.value && Considered(n, name))
    ensures r.Success? && pods.Success? ==> IsBest(s, name, nodes.value, pods.value, r.value.0, r.value.1)
  {
    if nodes.Failure? {
      return Failure(nodes.error);
    }
    var list := nodes.value;
    var maxAvailable, maxNodeName := 0.0, "";
    for i := 0 to |list|
      invariant pods.Success? ==> IsBest(s, name, list[..i], pods.value, maxAvailable, maxNodeName)
      invariant pods.Failure? ==> forall n :: n in list[..i] ==> !Considered(n, name)
    {
      assert list[..i + 1] == list[..i] + [list[i]];
      var node := list[i];
      if pods.Success? {
        BestOfMore(s, name, list[..i], node, pods.value, maxAvailable, maxNodeName);
      }
      if node.unschedulable {
        continue;
      }
      if name !in node.allocatable {
        continue;
      }
      var usage := CalculateNodeResourceUsage(s, pods, node.name, name);
      if usage.Failure? {
        assert node in list && Considered(node, name);
        return Failure(usage.error);
      }
      var available := node.allocatable[name] - usage.value;
      if available > maxAvailable {
        maxAvailable := available;
        maxNodeName := node.name;
      }
    }
    assert list[..|list|] == list;
    r := Success((maxAvailable, maxNodeName));
  }

  lemma BestOfMore(s: Score, name: string, nodes: seq<Node>, n: Node, pods: seq<Pod>, value: real, found: string)
    requires IsBest(s, name, nodes, pods, value, found)
    ensures if Considered(n, name) && Available(s, name, n, pods) > value
            then IsBest(s, name, nodes + [n], pods, Available(s, name, n, pods), n.name)
            else IsBest(s, name, nodes + [n], pods, value, found)
  {
    var all := nodes + [n];
    if Considered(n, name) && Available(s, name, n, pods) > value {
      forall j | 0 <= j < |nodes| && Considered(all[j], name)
        ensures Available(s, name, all[j], pods) < Available(s, name, n, pods)
      {
        assert all[j] in nodes;
      }
      assert FirstAt(s, name, all, pods, Available(s, name, n, pods), n.name, |nodes|);
    } else if value > 0.0 {
      var i :| FirstAt(s, name, nodes, pods, value, found, i);
      assert FirstAt(s, name, all, pods, value, found, i);
    }
  }

  /** No schedulable node uses more than it can allocate; missing allocatable counts as 0. */
  predicate WithinAllocatable(s: Score, name: string, nodes: seq<Node>, pods: seq<Pod>) {
    forall n :: n in nodes && !n.unschedulable ==> Usage(s, name, n.name, pods) <= Quantity(n.allocatable, name)
  }

  lemma {:induction false} ClusterAtLeast(s: Score, name: string, nodes: seq<Node>, pods: seq<Pod>)
    requires WithinAllocatable(s, name, nodes, pods)
    ensures ClusterAvailable(s, name, nodes, pods) >= 0.0
    ensures forall n :: n in nodes && !n.unschedulable ==>
              Available(s, name, n, pods) <= ClusterAvailable(s, name, nodes, pods)
  {
    if nodes != [] {
      assert nodes == nodes[..|nodes| - 1] + [nodes[|nodes| - 1]];
      ClusterAtLeast(s, name, nodes[..|nodes| - 1], pods);
    }
  }

  /** `x`, added up `k` times. */
  function Times(k: nat, x: real): real { if k == 0 then 0.0 else Times(k - 1, x) + x }

  lemma {:induction false} TimesIsProduct(k: nat, x: real)
    ensures Times(k, x) == k as real * x
  {
    if k > 0 {
      TimesIsProduct(k - 1, x);
    }
  }

  lemma AtMostProduct(x: real, k: nat, y: real)
    requires x <= Times(k, y)
    ensures x <= k as real * y
  {
    TimesIsProduct(k, y);
  }

  lemma {:induction false} ClusterAtMost(s: Score, name: string, nodes: seq<Node>, pods: seq<Pod>, best: real)
    requires forall n :: n in nodes && !n.unschedulable ==> Available(s, name, n, pods) <= best
    ensures ClusterAvailable(s, name, nodes, pods) <= Times(SchedulableCount(nodes), best)
  {
    if nodes != [] {
      assert nodes == nodes[..|nodes| - 1] + [nodes[|nodes| - 1]];
      ClusterAtMost(s, name, nodes[..|nodes| - 1], pods, best);
    }
  }

  lemma BestIsAtMostCluster(s: Score, name: string, nodes: seq<Node>, pods: seq<Pod>, value: real, found: string)
    requires PodsOk(pods) && WithinAllocatable(s, name, nodes, pods) && IsBest(s, name, nodes, pods, value, found)
    ensures value <= ClusterAvailable(s, name, nodes, pods)
    ensures forall n :: n in nodes && !n.unschedulable ==> Available(s, name, n, pods) <= value
  {
    forall n | n in nodes && !n.unschedulable
      ensures Available(s, name, n, pods) <= value
    {
      if !Considered(n, name) {
        UsageBounds(s, name, n.name, pods);
      }
    }
    ClusterAtLeast(s, name, nodes, pods);
    if value > 0.0 {
      var i :| FirstAt(s, name, nodes, pods, value, found, i);
      assert nodes[i] in nodes;
    }
  }

  /** The best node's availability is at most the cluster's, which is at most that times the schedulable nodes. */
  lemma NodeVersusCluster(s: Score, name: string, nodes: seq<Node>, pods: seq<Pod>, value: real, found: string)
    requires PodsOk(pods) && WithinAllocatable(s, name, nodes, pods) && IsBest(s, name, nodes, pods, value, found)
    ensures value <= ClusterAvailable(s, name, nodes, pods) <= SchedulableCount(nodes) as real * value
  {
    BestIsAtMostCluster(s, name, nodes, pods, value, found);
    ClusterAtMost(s, name, nodes, pods, value);
    AtMostProduct(ClusterAvailable(s, name, nodes, pods), SchedulableCount(nodes), value);
  }
}
