/** The OTLP reporter: a cache of the latest payload, read by one registered callback at collection time.
    Payload maps are values and their numbers are reals; `now`, the instrument names the meter rejects, and failures
    to register or unregister a callback belong to the environment of an update. */
module Reporter {
  import opened Wrappers

  const TIMESTAMP := "timestamp"

  type Values = map<string, real>

  /** `callbacks` holds the instruments of each callback registered with the meter. */
  datatype State = State(
    metrics: Values,
    labels: Values,
    gauges: set<string>,
    registration: Option<nat>,
    callbacks: map<nat, set<string>>,
    nextId: nat)

  const INITIAL := State(map[], map[], {}, None, map[], 0)

  datatype Env = Env(now: real, rejected: set<string>, registerFails: bool, unregisterFails: bool)

  function WithoutTimestamp(m: Values): Values { m - {TIMESTAMP} }

  // ---------------------------------------------------------------------------------------------
  // Change detection
  // ---------------------------------------------------------------------------------------------

  /** Every entry, but for the key `skip`, is found in `other` with the same value. */
  predicate Covered(m: Values, other: Values, skip: set<string>) {
    forall k :: k in m && k !in skip ==> k in other && other[k] == m[k]
  }

  predicate MetricsChanged(metrics: Values, newMetrics: Values) {
    |newMetrics| != |metrics| - (if TIMESTAMP in metrics then 1 else 0) || !Covered(newMetrics, metrics, {TIMESTAMP})
  }

  predicate LabelsChanged(labels: Values, newLabels: Values) {
    |newLabels| != |labels| || !Covered(newLabels, labels, {})
  }

  predicate Skips(st: State, newMetrics: Values, newLabels: Values) {
    !MetricsChanged(st.metrics, newMetrics) && !LabelsChanged(st.labels, newLabels)
  }

  predicate NeedsUpdate(metrics: Values, gauges: set<string>) {
    |metrics| != |gauges| || !(metrics.Keys <= gauges)
  }

  function Reregister(st: State, env: Env): State {
    var callbacks := if st.registration.Some? && !env.unregisterFails
                     then st.callbacks - {st.registration.value} else st.callbacks;
    var gauges := st.metrics.Keys - env.rejected;
    if gauges == {} || env.registerFails then st.(gauges := gauges, registration := None, callbacks := callbacks)
    else st.(gauges := gauges, registration := Some(st.nextId), callbacks := callbacks[st.nextId := gauges],
             nextId := st.nextId + 1)
  }

  function Update(st: State, newMetrics: Values, newLabels: Values, env: Env): State {
    if Skips(st, newMetrics, newLabels) then st
    else
      var st1 := st.(metrics := newMetrics[TIMESTAMP := env.now], labels := newLabels);
      if NeedsUpdate(st1.metrics, st1.gauges) then Reregister(st1, env) else st1
  }

  /** What one collection emits: each observation carries every label. A callback may only observe its own
      instruments. */
  function Emitted(st: State): Values {
    map n | n in st.gauges && n in st.metrics && exists id :: id in st.callbacks && n in st.callbacks[id] ::
      st.metrics[n]
  }

  class Reporter {
    var metrics: Values
    var labels: Values
    var gauges: set<string>
    var callbackRegistration: Option<nat>
    var callbacks: map<nat, set<string>>
    var nextId: nat

    function View(): State
      reads this
    {
      State(metrics, labels, gauges, callbackRegistration, callbacks, nextId)
    }

    constructor ()
      ensures View() == INITIAL
    {
      metrics, labels, gauges, callbackRegistration, callbacks, nextId := map[], map[], {}, None, map[], 0;
    }

    method Differs(m: Values, other: Values, skip: set<string>) returns (differs: bool)
      ensures differs <==> !Covered(m, other, skip)
    {
      var left := m.Keys;
      while left != {}
        invariant left <= m.Keys
        invariant forall k :: k in m && k !in left && k !in skip ==> k in other && other[k] == m[k]
        decreases left
      {
        var name :| name in left;
        left := left - {name};
        if name in skip {
          continue;
        }
        if name !in other || other[name] != m[name] {
          return true;
        }
      }
      differs := false;
    }

    method HasChanged(newMetrics: Values, newLabels: Values) returns (changed: bool)
      ensures changed <==> !Skips(View(), newMetrics, newLabels)
    {
      var metricsChanged := false;
      var currentMetricsCount := |metrics|;
      if TIMESTAMP in metrics {
        currentMetricsCount := currentMetricsCount - 1;
      }
      if |newMetrics| != currentMetricsCount {
        metricsChanged := true;
      } else {
        metricsChanged := Differs(newMetrics, metrics, {TIMESTAMP});
      }
      var labelsChanged := false;
      if |newLabels| != |labels| {
        labelsChanged := true;
      } else {
        labelsChanged := Differs(newLabels, labels, {});
      }
      changed := metricsChanged || labelsChanged;
    }

    method UpdateMetrics(newMetrics: Values, newLabels: Values, env: Env)
      modifies this
      ensures View() == Update(old(View()), newMetrics, newLabels, env)
    {
      var changed := HasChanged(newMetrics, newLabels);
      if !changed {
        return;
      }
      metrics := newMetrics[TIMESTAMP := env.now];
      labels := newLabels;
      var needsUpdate := true;
      if |metrics| == |gauges| {
        needsUpdate := NamesMissing();
      }
      if needsUpdate {
        RegisterGauges(env);
      }
    }

    method NamesMissing() returns (missing: bool)
      ensures missing <==> !(metrics.Keys <= gauges)
    {
      var left := metrics.Keys;
      while left != {}
        invariant left <= metrics.Keys && metrics.Keys - left <= gauges
        decreases left
      {
        var name :| name in left;
        left := left - {name};
        if name !in gauges {
          return true;
        }
      }
      missing := false;
    }

    method RegisterGauges(env: Env)
      modifies this`gauges, this`callbackRegistration, this`callbacks, this`nextId
      ensures View() == Reregister(old(View()), env)
    {
      if callbackRegistration.Some? {
        if !env.unregisterFails {
          callbacks := callbacks - {callbackRegistration.value};
        }
        callbackRegistration := None;
      }
      gauges := {};
      ghost var kept := callbacks;
      var instruments: seq<string> := [];
      var left := metrics.Keys;
      while left != {}
        invariant left <= metrics.Keys && gauges == metrics.Keys - left - env.rejected
        invariant gauges == (set n | n in instruments)
        invariant View() == old(View()).(gauges := gauges, registration := None, callbacks := kept)
        decreases left
      {
        var name :| name in left;
        left := left - {name};
        if name in env.rejected {
          continue;
        }
        assert (set n | n in instruments + [name]) == (set n | n in instruments) + {name};
        gauges := gauges + {name};
        instruments := instruments + [name];
      }
      assert metrics.Keys - {} - env.rejected == metrics.Keys - env.rejected;
      if |instruments| == 0 {
        assert gauges == {};
        return;
      }
      assert instruments[0] in gauges;
      if env.registerFails {
        return;
      }
      callbacks := callbacks[nextId := gauges];
      callbackRegistration := Some(nextId);
      nextId := nextId + 1;
    }

    /** What the callbacks observe at collection time. */
    method Collect() returns (observed: Values)
      ensures observed == Emitted(View())
    {
      observed := map[];
      var left := callbacks.Keys;
      while left != {}
        invariant left <= callbacks.Keys
        invariant observed == map n | n in gauges && n in metrics
                                      && exists id :: id in callbacks && id !in left && n in callbacks[id] :: metrics[n]
        decreases left
      {
        var id :| id in left;
        left := left - {id};
        observed := observed + map n | n in gauges && n in metrics && n in callbacks[id] :: metrics[n];
      }
    }
  }

  // ---------------------------------------------------------------------------------------------
  // Counting
  // ---------------------------------------------------------------------------------------------

  lemma {:induction false} SubsetSize<T>(a: set<T>, b: set<T>)
    requires a <= b
    ensures |a| <= |b| && (|a| == |b| ==> a == b)
  {
    if a != {} {
      var x :| x in a;
      SubsetSize(a - {x}, b - {x});
    }
  }

  /** Equal size and containment make two maps equal. */
  lemma CoveredAndSameSize(m: Values, other: Values)
    requires |m| == |other|
    ensures Covered(m, other, {}) <==> m == other
  {
    if Covered(m, other, {}) {
      SubsetSize(m.Keys, other.Keys);
      assert |m.Keys| == |m| && |other.Keys| == |other|;
    }
  }

  lemma WithoutTimestampSize(m: Values)
    ensures |WithoutTimestamp(m)| == |m| - (if TIMESTAMP in m then 1 else 0)
  {
    assert |m.Keys| == |m| && |WithoutTimestamp(m).Keys| == |WithoutTimestamp(m)|;
    assert WithoutTimestamp(m).Keys == m.Keys - {TIMESTAMP};
  }

  lemma CoveredWithoutTimestamp(m: Values, other: Values)
    ensures Covered(m, other, {TIMESTAMP}) <==> Covered(WithoutTimestamp(m), WithoutTimestamp(other), {})
  {
    var m1, other1 := WithoutTimestamp(m), WithoutTimestamp(other);
    assert forall k :: k in m1 <==> k in m && k != TIMESTAMP;
    assert forall k :: k in other1 <==> k in other && k != TIMESTAMP;
    if Covered(m1, other1, {}) {
      forall k | k in m && k != TIMESTAMP
        ensures k in other && other[k] == m[k]
      {
        assert k in m1 && k !in {};
      }
    }
  }

  lemma NeedsUpdateIff(metrics: Values, gauges: set<string>)
    ensures NeedsUpdate(metrics, gauges) <==> metrics.Keys != gauges
  {
    assert |metrics.Keys| == |metrics|;
    if metrics.Keys <= gauges {
      SubsetSize(metrics.Keys, gauges);
    }
  }

  /** Without a timestamp in the payload, an update is skipped exactly when nothing but the timestamp changed. */
  lemma SkipsIffUnchanged(st: State, newMetrics: Values, newLabels: Values)
    requires TIMESTAMP !in newMetrics
    ensures Skips(st, newMetrics, newLabels) <==> newMetrics == WithoutTimestamp(st.metrics) && newLabels == st.labels
  {
    SkipsMeans(st, newMetrics, newLabels);
    assert WithoutTimestamp(newMetrics) == newMetrics;
    if |newMetrics| == |WithoutTimestamp(st.metrics)| {
      CoveredAndSameSize(newMetrics, WithoutTimestamp(st.metrics));
    }
  }

  /** `st` holds the payload, but for the timestamp. */
  predicate Holds(st: State, newMetrics: Values, newLabels: Values) {
    WithoutTimestamp(st.metrics) == WithoutTimestamp(newMetrics) && st.labels == newLabels
  }

  /** An update loses its payload exactly when the payload has a timestamp, repeats the labels, and only drops one
      metric: then the added key makes up for the dropped one in the size comparison. */
  lemma PayloadLostIff(st: State, newMetrics: Values, newLabels: Values, env: Env)
    ensures !Holds(Update(st, newMetrics, newLabels, env), newMetrics, newLabels)
            <==> && TIMESTAMP in newMetrics && newLabels == st.labels
                 && Covered(WithoutTimestamp(newMetrics), WithoutTimestamp(st.metrics), {})
                 && |WithoutTimestamp(st.metrics)| == |WithoutTimestamp(newMetrics)| + 1
  {
    SkipsMeans(st, newMetrics, newLabels);
    if Skips(st, newMetrics, newLabels) {
      if TIMESTAMP !in newMetrics {
        SkipsIffUnchanged(st, newMetrics, newLabels);
        assert WithoutTimestamp(newMetrics) == newMetrics;
      }
    } else {
      StoredHolds(st, newMetrics, newLabels, env);
    }
  }

  lemma SkipsMeans(st: State, newMetrics: Values, newLabels: Values)
    ensures Skips(st, newMetrics, newLabels)
            <==> && newLabels == st.labels && Covered(WithoutTimestamp(newMetrics), WithoutTimestamp(st.metrics), {})
                 && |WithoutTimestamp(st.metrics)|
                    == |WithoutTimestamp(newMetrics)| + (if TIMESTAMP in newMetrics then 1 else 0)
  {
    WithoutTimestampSize(st.metrics);
    WithoutTimestampSize(newMetrics);
    CoveredWithoutTimestamp(newMetrics, st.metrics);
    if |newLabels| == |st.labels| {
      CoveredAndSameSize(newLabels, st.labels);
    }
  }

  lemma StoredHolds(st: State, newMetrics: Values, newLabels: Values, env: Env)
    requires !Skips(st, newMetrics, newLabels)
    ensures Holds(Update(st, newMetrics, newLabels, env), newMetrics, newLabels)
  {
    OverwrittenKeyRemoved(newMetrics, TIMESTAMP, env.now);
  }

  lemma OverwrittenKeyRemoved(m: Values, k: string, v: real)
    ensures m[k := v] - {k} == m - {k}
  {
  }

  /** The timestamp is that of the last update that changed something: it moves exactly when the update is not
      skipped. */
  lemma TimestampMovesWithChanges(st: State, newMetrics: Values, newLabels: Values, env: Env)
    requires TIMESTAMP !in newMetrics && TIMESTAMP in st.metrics && st.metrics[TIMESTAMP] != env.now
    ensures var st1 := Update(st, newMetrics, newLabels, env);
            && TIMESTAMP in st1.metrics
            && (st1.metrics[TIMESTAMP] == env.now
                <==> newMetrics != WithoutTimestamp(st.metrics) || newLabels != st.labels)
  {
    SkipsIffUnchanged(st, newMetrics, newLabels);
  }

  // ---------------------------------------------------------------------------------------------
  // Every run
  // ---------------------------------------------------------------------------------------------

  datatype Call = Call(metrics: Values, labels: Values, env: Env)

  function Run(calls: seq<Call>): State {
    if calls == [] then INITIAL
    else
      var c := calls[|calls| - 1];
      Update(Run(calls[..|calls| - 1]), c.metrics, c.labels, c.env)
  }

  predicate Healthy(c: Call) {
    c.env.rejected == {} && !c.env.registerFails && !c.env.unregisterFails
  }

  /** Nothing was ever stored, or one callback observes a gauge for every metric. */
  predicate Consistent(st: State) {
    (st.metrics == map[] && st.gauges == {} && st.registration == None && st.callbacks == map[])
    || (&& TIMESTAMP in st.metrics && st.gauges == st.metrics.Keys && st.registration.Some?
        && st.callbacks == map[st.registration.value := st.gauges] && st.registration.value < st.nextId)
  }

  lemma ReregisterConsistent(st: State, env: Env)
    requires TIMESTAMP in st.metrics && env.rejected == {} && !env.registerFails && !env.unregisterFails
    requires st.callbacks.Keys == if st.registration.Some? then {st.registration.value} else {}
    ensures Consistent(Reregister(st, env)) && Reregister(st, env).metrics == st.metrics
  {
    assert st.metrics.Keys - {} == st.metrics.Keys;
    assert TIMESTAMP in st.metrics.Keys;
    if st.registration.Some? {
      assert st.callbacks - {st.registration.value} == map[];
    } else {
      assert st.callbacks == map[];
    }
  }

  lemma UpdateConsistent(st: State, c: Call)
    requires Consistent(st) && Healthy(c)
    ensures Consistent(Update(st, c.metrics, c.labels, c.env))
  {
    if !Skips(st, c.metrics, c.labels) {
      var st1 := st.(metrics := c.metrics[TIMESTAMP := c.env.now], labels := c.labels);
      NeedsUpdateIff(st1.metrics, st1.gauges);
      if NeedsUpdate(st1.metrics, st1.gauges) {
        ReregisterConsistent(st1, c.env);
      }
    }
  }

  lemma ConsistentEmits(st: State)
    requires Consistent(st)
    ensures Emitted(st) == st.metrics
  {
    if TIMESTAMP in st.metrics {
      assert st.registration.value in st.callbacks;
    }
  }

  lemma {:induction false} RunConsistent(calls: seq<Call>)
    requires forall i :: 0 <= i < |calls| ==> Healthy(calls[i])
    ensures Consistent(Run(calls))
  {
    if calls != [] {
      RunConsistent(calls[..|calls| - 1]);
      UpdateConsistent(Run(calls[..|calls| - 1]), calls[|calls| - 1]);
    }
  }

  /** After any run of healthy updates, if the last payload has no timestamp, a collection emits exactly that payload
      and its labels, apart from the timestamp; one callback is registered, for exactly the stored metrics. */
  lemma RunEmitsLastPayload(calls: seq<Call>)
    requires calls != [] && forall i :: 0 <= i < |calls| ==> Healthy(calls[i])
    requires TIMESTAMP !in calls[|calls| - 1].metrics
    ensures var st, last := Run(calls), calls[|calls| - 1];
            && WithoutTimestamp(Emitted(st)) == last.metrics && st.labels == last.labels
            && st.gauges == st.metrics.Keys && |st.callbacks| <= 1
  {
    RunConsistent(calls);
    ConsistentEmits(Run(calls));
    PayloadKept(Run(calls[..|calls| - 1]), calls[|calls| - 1]);
  }

  lemma PayloadKept(st: State, c: Call)
    requires TIMESTAMP !in c.metrics
    ensures var st1 := Update(st, c.metrics, c.labels, c.env);
            WithoutTimestamp(st1.metrics) == c.metrics && st1.labels == c.labels
  {
    PayloadLostIff(st, c.metrics, c.labels, c.env);
    assert WithoutTimestamp(c.metrics) == c.metrics;
  }

  /** After any run of healthy updates, a payload with a timestamp that only drops one metric of the last payload is
      lost, and the dropped metric goes on being emitted. */
  lemma DroppedMetricIsEmitted(calls: seq<Call>, c: Call, dropped: string)
    requires calls != [] && forall i :: 0 <= i < |calls| ==> Healthy(calls[i])
    requires TIMESTAMP !in calls[|calls| - 1].metrics && dropped in calls[|calls| - 1].metrics
    requires TIMESTAMP in c.metrics && c.labels == calls[|calls| - 1].labels
    requires WithoutTimestamp(c.metrics) == calls[|calls| - 1].metrics - {dropped}
    ensures var st := Run(calls + [c]);
            dropped in Emitted(st) && !Holds(st, c.metrics, c.labels)
  {
    var st, last := Run(calls), calls[|calls| - 1];
    assert (calls + [c])[..|calls|] == calls;
    RunConsistent(calls);
    ConsistentEmits(st);
    PayloadKept(Run(calls[..|calls| - 1]), last);
    assert (last.metrics - {dropped}).Keys == last.metrics.Keys - {dropped};
    SizeOfKeys(last.metrics);
    SizeOfKeys(last.metrics - {dropped});
    PayloadLostIff(st, c.metrics, c.labels, c.env);
    if !Skips(st, c.metrics, c.labels) {
      StoredHolds(st, c.metrics, c.labels, c.env);
    }
  }

  lemma SizeOfKeys(m: Values)
    ensures |m| == |m.Keys|
  {
  }

  /** A payload of loss and timestamp after one of loss and accuracy: accuracy goes on being emitted. */
  lemma DroppedMetricStays(loss: real, accuracy: real, later: real, first: Env, second: Env)
    requires Healthy(Call(map[], map[], first))
    ensures var before := Call(map["loss" := loss, "accuracy" := accuracy], map[], first);
            var payload := map["loss" := loss, "timestamp" := later];
            var st := Run([before, Call(payload, map[], second)]);
            "accuracy" in Emitted(st) && !Holds(st, payload, map[])
  {
    var before := Call(map["loss" := loss, "accuracy" := accuracy], map[], first);
    var payload := map["loss" := loss, TIMESTAMP := later];
    NamesDiffer();
    assert WithoutTimestamp(payload) == map["loss" := loss] == before.metrics - {"accuracy"};
    DroppedMetricIsEmitted([before], Call(payload, map[], second), "accuracy");
    assert [before] + [Call(payload, map[], second)] == [before, Call(payload, map[], second)];
  }

  lemma NamesDiffer()
    ensures "loss" != "accuracy" && "loss" != TIMESTAMP && "accuracy" != TIMESTAMP
  {
    assert |"loss"| == 4 && |"accuracy"| == 8 && |TIMESTAMP| == 9;
  }

  /** Whatever is rejected or fails to register: gauges only ever name stored metrics, and no more than one callback is
      registered as long as callbacks can be unregistered. */
  predicate AtMostOne(st: State) {
    && st.gauges <= st.metrics.Keys
    && st.callbacks.Keys == (if st.registration.Some? then {st.registration.value} else {})
  }

  lemma {:induction false} RunRegistersAtMostOne(calls: seq<Call>)
    requires forall i :: 0 <= i < |calls| ==> !calls[i].env.unregisterFails
    ensures AtMostOne(Run(calls))
  {
    if calls != [] {
      var c := calls[|calls| - 1];
      var st := Run(calls[..|calls| - 1]);
      RunRegistersAtMostOne(calls[..|calls| - 1]);
      NeedsUpdateIff(c.metrics[TIMESTAMP := c.env.now], st.gauges);
    }
  }

  /** Gauges for all stored metrics, and no callback that observes them. */
  predicate Stuck(st: State) {
    st.callbacks == map[] && st.registration == None && st.gauges == st.metrics.Keys && TIMESTAMP in st.metrics
  }

  /** The state that a failed registration leaves. */
  lemma FailedRegistrationLeaves(st: State, env: Env)
    requires st.callbacks.Keys == (if st.registration.Some? then {st.registration.value} else {})
    requires TIMESTAMP in st.metrics
    requires env.registerFails && !env.unregisterFails && env.rejected == {}
    ensures Stuck(Reregister(st, env)) && Reregister(st, env).metrics == st.metrics
  {
    assert st.metrics.Keys - {} == st.metrics.Keys;
    var left := if st.registration.Some? then st.callbacks - {st.registration.value} else st.callbacks;
    assert left.Keys == {};
    assert left == map[];
  }

  /** From there a callback is registered only by an update that is not skipped, changes the names, and succeeds. */
  lemma StuckUpdate(st: State, c: Call)
    requires Stuck(st)
    ensures var st1 := Update(st, c.metrics, c.labels, c.env);
            var names := c.metrics.Keys + {TIMESTAMP};
            && (names == st.metrics.Keys ==> Stuck(st1) && st1.metrics.Keys == names)
            && (st1.callbacks != map[] <==>
                  && !Skips(st, c.metrics, c.labels) && names != st.metrics.Keys
                  && !c.env.registerFails && !(names <= c.env.rejected))
  {
    if !Skips(st, c.metrics, c.labels) {
      var metrics := c.metrics[TIMESTAMP := c.env.now];
      var st1 := st.(metrics := metrics, labels := c.labels);
      assert metrics.Keys == c.metrics.Keys + {TIMESTAMP};
      NeedsUpdateIff(metrics, st.gauges);
      if NeedsUpdate(metrics, st.gauges) {
        assert Update(st, c.metrics, c.labels, c.env) == Reregister(st1, c.env);
        var gauges := metrics.Keys - c.env.rejected;
        assert gauges == {} <==> metrics.Keys <= c.env.rejected;
        assert st.nextId in st.callbacks[st.nextId := gauges];
      } else {
        assert Update(st, c.metrics, c.labels, c.env) == st1;
      }
    }
  }

  function RunFrom(st: State, calls: seq<Call>): State
    decreases |calls|
  {
    if calls == [] then st
    else RunFrom(Update(st, calls[0].metrics, calls[0].labels, calls[0].env), calls[1..])
  }

  lemma {:induction false} StuckRun(st: State, calls: seq<Call>)
    requires Stuck(st) && forall i :: 0 <= i < |calls| ==> calls[i].metrics.Keys + {TIMESTAMP} == st.metrics.Keys
    ensures Stuck(RunFrom(st, calls))
    decreases |calls|
  {
    if calls != [] {
      var c := calls[0];
      StuckUpdate(st, c);
      StuckRun(Update(st, c.metrics, c.labels, c.env), calls[1..]);
    }
  }

  /** After any run, an update that changes the names and fails to register them: every later run of updates with the
      same names, whatever its values, emits nothing at all. */
  lemma FailedRegistrationSticks(before: seq<Call>, failed: Call, after: seq<Call>)
    requires forall i :: 0 <= i < |before| ==> !before[i].env.unregisterFails
    requires !Skips(Run(before), failed.metrics, failed.labels)
    requires failed.metrics.Keys + {TIMESTAMP} != Run(before).gauges
    requires failed.env.registerFails && !failed.env.unregisterFails && failed.env.rejected == {}
    requires forall i :: 0 <= i < |after| ==>
               after[i].metrics.Keys + {TIMESTAMP} == failed.metrics.Keys + {TIMESTAMP}
    ensures Emitted(RunFrom(Run(before + [failed]), after)) == map[]
  {
    RunRegistersAtMostOne(before);
    RunAppend(before, failed);
    FailedUpdateIsStuck(Run(before), failed);
    StuckRun(Run(before + [failed]), after);
    StuckEmitsNothing(RunFrom(Run(before + [failed]), after));
  }

  lemma RunAppend(calls: seq<Call>, c: Call)
    ensures Run(calls + [c]) == Update(Run(calls), c.metrics, c.labels, c.env)
  {
    assert (calls + [c])[..|calls|] == calls && (calls + [c])[|calls|] == c;
  }

  lemma FailedUpdateIsStuck(st: State, failed: Call)
    requires AtMostOne(st) && !Skips(st, failed.metrics, failed.labels)
    requires failed.metrics.Keys + {TIMESTAMP} != st.gauges
    requires failed.env.registerFails && !failed.env.unregisterFails && failed.env.rejected == {}
    ensures var st1 := Update(st, failed.metrics, failed.labels, failed.env);
            Stuck(st1) && st1.metrics.Keys == failed.metrics.Keys + {TIMESTAMP}
  {
    var st1 := st.(metrics := failed.metrics[TIMESTAMP := failed.env.now], labels := failed.labels);
    assert st1.metrics.Keys == failed.metrics.Keys + {TIMESTAMP};
    NeedsUpdateIff(st1.metrics, st1.gauges);
    FailedRegistrationLeaves(st1, failed.env);
  }

  lemma StuckEmitsNothing(st: State)
    requires Stuck(st)
    ensures Emitted(st) == map[]
  {
  }
}
