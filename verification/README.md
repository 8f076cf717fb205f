# Verified model of the add-ons

A Dafny model of the algorithms and protocols in this repository of Open Cluster Management add-ons, with proofs of
what they keep. `dafny verify dfyconfig.toml` checks the whole project.

Controllers and stateful components are classes whose methods follow the code branch by branch; each is tied to a
function of the old state, or to an invariant of the whole history, and the theorems are lemmas over all inputs and
all runs. Pure functions stay functions. API servers are in-memory stores; calls fail as the caller of a step chooses.

| file | what it models |
|---|---|
| `LinearProgram.dfy`, `PlacementOptimizer.dfy`, `PlacementTables.dfy`, `PlacementService.dfy` | The placement optimizer of the MCP sample: tables, 0/1 program, decoding into placements and bindings, and the request as a whole |
| `Text.dfy`, `DimensionName.dfy`, `RenderOrder.dfy`, `PreferenceScores.dfy`, `AggregateKeys.dfy` | Dimension names: printed by the Go agent, parsed back by the optimizer, and the scores they carry |
| `ScoringAgent.dfy`, `ResourceName.dfy` | The dynamic scoring agent: worker lifecycle, gauge series, resource names |
| `ScoringUrls.dfy`, `ScoringConfig.dfy` | The hub controller that distributes scorer summaries in ManifestWorks, and how it joins URLs |
| `PolicyWatcher.dfy` | The debouncing policy watcher |
| `KueueHub.dfy`, `KueueLinks.dfy`, `KueueProfileRuns.dfy` | Secret generation, secret copy and MultiKueueCluster on one shared store |
| `AdmissionCheck.dfy`, `AdmissionCheckOutcome.dfy`, `AdmissionCheckIndex.dfy` | The admission-check controller, its index and its wake-ups |
| `FederatedLearning.dfy`, `FederatedTable.dfy`, `FederatedServer.dfy` | The federated-learning reconciler under optimistic concurrency, and its listeners |
| `Reporter.dfy` | The OTLP reporter |
| `ResourceUsage.dfy` | The arithmetic of the usage collector |

Some intuitive properties do not hold of the code. For each the model keeps the code as it is, proves exactly when the
property holds, and gives an input on which it does not:

- The order in which Go iterates over the placeholders can change a printed name (`RenderOrder.OrderFreeIff`,
  `RenderOrder.DollarBreaksOrderIndependence`).
- Results of a response that share their non-empty labels overwrite each other, so an app can lose its preference
  (`PreferenceScores.PreferenceIffSurvives`, `PreferenceScores.CollapseLosesPreference`).
- Label sets are recorded as joined strings: stale series go away exactly for labels without the separator at a seam
  (`ScoringAgent.StaleSeriesRemovedIffClean`, `ScoringAgent.SeparatorInLabelKeepsSeries`).
- The optimizer may choose a device for an idle cluster that no policy supplies, and then fails to emit
  (`PlacementTables.EveryPointEmitsIff`, `PlacementService.NeverRaisesIff`, `PlacementTables.EmissionFailsOnOptimum`).
- A Flower instance can be Completed, through an edit of its framework (`FederatedLearning.FlowerCompletedIff`,
  `FederatedLearning.FlowerCompletedByEdit`).
- Two AdmissionChecks of one placement share a config, which goes with the first one deleted
  (`AdmissionCheck.SettledSurvivesIff`, `AdmissionCheck.SharedConfigGoes`), and a failed delete orphans it
  (`AdmissionCheck.CleanupKeepsOwnersIff`, `AdmissionCheck.FailedDeleteOrphans`).
- A decision that changes its placement label can leave a check of the old placement outdated
  (`AdmissionCheckIndex.MissedCheckIff`, `AdmissionCheckIndex.RelabelMissesOldPlacement`).
- A payload that brings its own timestamp can be mistaken for an unchanged one (`Reporter.PayloadLostIff`,
  `Reporter.DroppedMetricStays`), and a failed registration is not retried (`Reporter.StuckUpdate`).
- Init containers are compared with the running total of the node, so usage can depend on the order of the pods
  (`ResourceUsage.UsageIsOrderFreeIff`, `ResourceUsage.OrderMatters`) and stay below what they need
  (`ResourceUsage.UsageIsNeedIff`).
- The scoring host of a synced configuration is not used (`ScoringConfig.SyncedScoringHostUsedIff`,
  `ScoringConfig.SyncedScoringHostLost`), an error of Get passes for success (`ScoringConfig.LoopHoldsIff`,
  `ScoringConfig.UnreadableClusterIsSkipped`), and a mask with a slash in its cluster name hits another pair
  (`ScoringConfig.MaskedByIff`, `ScoringConfig.SlashedMaskHitsAnother`).
- The federated-learning server binds to the first node's address and advertises the last node's
  (`FederatedServer.EndpointsAgreeIff`, `FederatedServer.TwoNodesDisagree`), and behind an ingress it binds to the IP
  and advertises the host name (`FederatedServer.IngressHostsAgreeIff`, `FederatedServer.IngressHostsDisagree`).

## Model

| member | source | states |
|---|---|---|
| PlacementOptimizer.FeasibleMeansAdmissible | dynamic-scoring-framework/samples/dynamic-scoring-framework-mcp/main.py:379-422 | A point that meets constraints 1 to 5 has z = x AND y everywhere, at most one device per cluster and one cluster per app, a chosen device under every placed app, and requests within capacity (missing capacity is 0) |
| PlacementOptimizer.AdmissibleMeansFeasible | dynamic-scoring-framework/samples/dynamic-scoring-framework-mcp/main.py:379-422 | Conversely such a point meets all five groups of constraints, so they ask for nothing else |
| PlacementOptimizer.EncodeIsFeasible | dynamic-scoring-framework/samples/dynamic-scoring-framework-mcp/main.py:341-422 | Every valid assignment is a feasible point, and decoding that point gives the assignment back |
| PlacementOptimizer.DecodeIsValid | dynamic-scoring-framework/samples/dynamic-scoring-framework-mcp/main.py:341-422 | Every feasible point decodes to a valid assignment whose encoding is that point: with EncodeIsFeasible, a bijection |
| PlacementOptimizer.ValidAssignmentIs | dynamic-scoring-framework/samples/dynamic-scoring-framework-mcp/main.py:394-403 | A valid assignment places apps on known clusters, with requests that add up to no more than the capacity table has for the cluster's device, or to nothing without an entry |
| PlacementOptimizer.ObjectiveDot | dynamic-scoring-framework/samples/dynamic-scoring-framework-mcp/main.py:368-377 | At the encoding of an assignment the objective is the sum of the preferences of the placed apps |
| PlacementOptimizer.OptimumIsBest | dynamic-scoring-framework/samples/dynamic-scoring-framework-mcp/main.py:341-425 | A feasible point is optimal for the 0/1 program if and only if its assignment is best among all valid assignments |
| PlacementTables.LoadPolicies | dynamic-scoring-framework/samples/dynamic-scoring-framework-mcp/main.py:283-297 | The inner loop over the policies of a cluster fails exactly on an unknown policy; otherwise each device it lists a policy for gets the last such policy and its amount, and no other entry changes |
| PlacementTables.LoadClusters | dynamic-scoring-framework/samples/dynamic-scoring-framework-mcp/main.py:279-297 | The cluster tables: a KeyError exactly when some listed policy is unknown; otherwise an entry for exactly the (cluster, device) pairs on offer, with the last offer of each |
| PlacementTables.LoadWorkloads | dynamic-scoring-framework/samples/dynamic-scoring-framework-mcp/main.py:299-312 | The workload tables agree with the last listed workload of each app; a KeyError exactly when one is unknown |
| PlacementTables.ExclusivityRows | dynamic-scoring-framework/samples/dynamic-scoring-framework-mcp/main.py:380-392 | The loops of constraints 1 and 2 add exactly one row per cluster and one per app |
| PlacementTables.CapacityRows | dynamic-scoring-framework/samples/dynamic-scoring-framework-mcp/main.py:394-403 | The loop of constraint 3 adds exactly one capacity row per (cluster, device) |
| PlacementTables.LinkingRows | dynamic-scoring-framework/samples/dynamic-scoring-framework-mcp/main.py:405-414 | The loop of constraint 4 adds exactly the three link rows per (app, cluster, device) |
| PlacementTables.ConsistencyRows | dynamic-scoring-framework/samples/dynamic-scoring-framework-mcp/main.py:416-422 | The loop of constraint 5 adds exactly one row per (app, cluster) |
| PlacementTables.ObjectiveLoop | dynamic-scoring-framework/samples/dynamic-scoring-framework-mcp/main.py:368-377 | The objective has one term per (app, cluster, device); a missing preference is a KeyError, and that is the only way to fail |
| PlacementTables.BuildProgram | dynamic-scoring-framework/samples/dynamic-scoring-framework-mcp/main.py:341-422 | For every iteration order of the three sets the built rows have exactly the encodings of valid assignments as feasible points, and the built objective is the total preference |
| PlacementTables.Emit | dynamic-scoring-framework/samples/dynamic-scoring-framework-mcp/main.py:440-469 | Emission follows the point entry by entry; it fails exactly when a chosen (cluster, device) has no policy |
| PlacementTables.EachWorkloadHasOneBinding | dynamic-scoring-framework/samples/dynamic-scoring-framework-mcp/main.py:436-469 | Every emitted workload placement has exactly one emitted policy binding whose placement is that of the workload's cluster |
| PlacementTables.EmittedNamesDiffer | dynamic-scoring-framework/samples/dynamic-scoring-framework-mcp/main.py:440-455 | At a feasible point the names of the emitted bindings are distinct, and those of the policy placements; each binding names the placement emitted with it |
| PlacementTables.NamesDiffer | dynamic-scoring-framework/samples/dynamic-scoring-framework-mcp/main.py:443-453 | Names tell clusters apart, and requests with different hashes of one length |
| PlacementTables.HostingClusterIsSupplied | dynamic-scoring-framework/samples/dynamic-scoring-framework-mcp/main.py:283-297 | With positive requests a cluster that hosts an app has a policy for its device, listed for that cluster, that supplies at least the load placed there |
| PlacementTables.OnlyIdleChoicesFail | dynamic-scoring-framework/samples/dynamic-scoring-framework-mcp/main.py:442-455 | With positive requests only a device chosen for a cluster that hosts nothing can lack a policy |
| PlacementTables.EmissionFailsOnOptimum | dynamic-scoring-framework/samples/dynamic-scoring-framework-mcp/main.py:279-455 | From cluster parameters to the KeyError: the tables of a hub with a policy and an edge cluster without, an optimum of their program, and an emission that fails |
| PlacementTables.IdleChoiceIsFeasible | dynamic-scoring-framework/samples/dynamic-scoring-framework-mcp/main.py:394-403 | Every (cluster, device) of the tables without a policy can be chosen by a feasible point, on which emission fails |
| PlacementTables.EveryPointEmitsIff | dynamic-scoring-framework/samples/dynamic-scoring-framework-mcp/main.py:440-457 | Every feasible point emits exactly when every (cluster, device) of the tables has a policy |
| PlacementService.PerformOptimization | dynamic-scoring-framework/samples/dynamic-scoring-framework-mcp/main.py:251-469 | A request raises exactly when a listed policy or workload is unknown, a score resource is missing or has an unusable name, an app lacks a score on some cluster for some device, or the solver picks a device that no policy listed for the cluster supplies; its tables hold the last offers, last listed workloads and last read scores, and its output is what these say at the solver's point |
| PlacementService.NeverRaisesIff | dynamic-scoring-framework/samples/dynamic-scoring-framework-mcp/main.py:279-457 | From the inputs alone: no feasible point makes a solvable request raise exactly when every cluster has a policy for every device that any cluster has one for |
| PlacementService.OutputIsRequested | dynamic-scoring-framework/samples/dynamic-scoring-framework-mcp/main.py:456-469 | Each emitted workload placement is the last listed placement of an app that the point puts on that cluster |
| PlacementService.OutputNamesDiffer | dynamic-scoring-framework/samples/dynamic-scoring-framework-mcp/main.py:440-455 | The names in the output of a request are distinct, and its bindings name its placements |
| PlacementService.OutputIsSupplied | dynamic-scoring-framework/samples/dynamic-scoring-framework-mcp/main.py:279-469 | From request to output, with positive amounts: each emitted workload has exactly one emitted binding on its cluster's placement, of a policy that the request lists for the cluster and that supplies all that is placed there |
| DimensionName.RenderDimensionName | dynamic-scoring-framework/pkg/dynamic_scoring_agent/agent.go:728-734 | The loop over the placeholder table, in any iteration order, is the fold of ReplaceAll over that order |
| DimensionName.RenderIsFill | dynamic-scoring-framework/pkg/dynamic_scoring_agent/agent.go:728-734 | For values without a dollar sign the result does not depend on the iteration order: it is simultaneous substitution of the placeholders |
| RenderOrder.OrderFreeIff | dynamic-scoring-framework/pkg/dynamic_scoring_agent/agent.go:728-734 | A placeholder table prints the same in every iteration order, for every well-formed format, exactly when no value contains, or ends in the beginning of, the placeholder of another entry that is not its own value |
| RenderOrder.IndependentIsFill | dynamic-scoring-framework/pkg/dynamic_scoring_agent/agent.go:728-734 | For such a table the printed name is simultaneous substitution in every order |
| RenderOrder.SwapMatters | dynamic-scoring-framework/pkg/dynamic_scoring_agent/agent.go:728-734 | For any other table there is a format on which swapping two entries at the end of the order changes the name |
| RenderOrder.DollarBreaksOrderIndependence | dynamic-scoring-framework/pkg/dynamic_scoring_agent/agent.go:523-533 | The nine-entry table of a response whose app label is a placeholder prints differently in different orders |
| RenderOrder.DollarFreeIsOrderFree | dynamic-scoring-framework/pkg/dynamic_scoring_agent/agent.go:523-533 | Tables without a dollar sign in a value print the same in every order |
| DimensionName.CompileFormat | dynamic-scoring-framework/samples/dynamic-scoring-framework-mcp/main.py:78-81 | Compiling a printed format gives the pattern of its literals and named groups, in order |
| DimensionName.RoundTripIff | dynamic-scoring-framework/pkg/dynamic_scoring_agent/agent.go:728-734 | What the agent renders, in any order, parses back under leftmost-lazy matching to exactly the rendered values if and only if each value that another placeholder follows ends where its following literal first occurs at index 1 or later |
| DimensionName.ParsedTextIsSpelled | dynamic-scoring-framework/samples/dynamic-scoring-framework-mcp/main.py:76-83 | Whatever text parses is spelled by its captures, which are non-empty and have no newline, up to one trailing newline |
| DimensionName.ParseRaisesIff | dynamic-scoring-framework/samples/dynamic-scoring-framework-mcp/main.py:76-83 | Compiling raises exactly when a placeholder is named twice, or with a digit first, or without a name |
| DimensionName.WordCharacters | dynamic-scoring-framework/samples/dynamic-scoring-framework-mcp/main.py:78-81 | A placeholder name is a run of ASCII letters, digits and underscores |
| PreferenceScores.Truncate | dynamic-scoring-framework/pkg/dynamic_scoring_agent/agent.go:635 | Conversion truncates towards zero |
| PreferenceScores.Value | dynamic-scoring-framework/pkg/dynamic_scoring_agent/agent.go:635 | A score that fits 32 bits is stored truncated; for any other some 32-bit value is, which is left open |
| PreferenceScores.CollectScores | dynamic-scoring-framework/pkg/dynamic_scoring_agent/agent.go:511-537 | After the loop over the results the two maps hold, for each aggregated label, the placeholders and the score of the last result that has it |
| PreferenceScores.ListEntries | dynamic-scoring-framework/pkg/dynamic_scoring_agent/agent.go:630-631 | Iterating over the score map, in any order, visits exactly the results that no later one overwrites |
| PreferenceScores.BuildItems | dynamic-scoring-framework/pkg/dynamic_scoring_agent/agent.go:627-642 | One item per non-empty rendered name, with the value of the last entry that renders to it |
| PreferenceScores.ScoreItems | dynamic-scoring-framework/pkg/dynamic_scoring_agent/agent.go:507-642 | From the raw results of a response to its items: collect under aggregated labels, render, keep one item per name; which results share a key is AggregateKeys.SameKeyIff |
| PreferenceScores.LoadPreferences | dynamic-scoring-framework/samples/dynamic-scoring-framework-mcp/main.py:314-328 | The preferences of a cluster are those of the last item read for each (app, device); a missing score resource or a format without app or device is the only failure |
| PreferenceScores.ReadNameIs | dynamic-scoring-framework/samples/dynamic-scoring-framework-mcp/main.py:314-328 | A name that does not parse, or without placeholders, is skipped; any other is read as its app and device, or is unusable without both |
| PreferenceScores.RenderedNameReadsBack | dynamic-scoring-framework/samples/dynamic-scoring-framework-mcp/main.py:323-328 | A name the agent renders is read by the optimizer as the app and device it was rendered from |
| PreferenceScores.PreferenceIsAScore | dynamic-scoring-framework/samples/dynamic-scoring-framework-mcp/main.py:322-328 | Across agent and optimizer, each preference is the stored value of an entry of the score map with that app and device |
| PreferenceScores.ScoreHasPreference | dynamic-scoring-framework/pkg/dynamic_scoring_agent/agent.go:627-642 | Across agent and optimizer, the app and device of every entry of the score map have a preference |
| PreferenceScores.PreferenceIffSurvives | dynamic-scoring-framework/pkg/dynamic_scoring_agent/agent.go:535-537 | From raw results to preferences: an app and device have a preference exactly when the last result of some aggregated label is for them |
| PreferenceScores.CollapsedResultIsLost | dynamic-scoring-framework/pkg/dynamic_scoring_agent/agent.go:718-726 | In any format, of two results, node x with device y and device x in namespace y, that share their aggregated labels, the first one gets no preference |
| PreferenceScores.ExchangeScores | dynamic-scoring-framework/pkg/dynamic_scoring_agent/agent.go:507-642 | One round of agent and optimizer with readable names: the resulting preferences are those of the surviving results |
| PreferenceScores.CollapseLosesPreference | dynamic-scoring-framework/pkg/dynamic_scoring_agent/agent.go:718-726 | The loss end to end, with names made of app and device: from the response with the two results to preferences without the first |
| AggregateKeys.NonEmptyKeeps | dynamic-scoring-framework/pkg/dynamic_scoring_agent/agent.go:718-724 | Aggregation keeps exactly the non-empty labels, in their order |
| AggregateKeys.SameKeyIff | dynamic-scoring-framework/pkg/dynamic_scoring_agent/agent.go:718-726 | Two label lists have the same key exactly when their non-empty labels have the same pieces between semicolons; without semicolons, exactly when they have the same non-empty labels |
| AggregateKeys.SurvivesIff | dynamic-scoring-framework/pkg/dynamic_scoring_agent/agent.go:535-537 | Without semicolons in labels, a result survives exactly when no later one has the same non-empty labels |
| AggregateKeys.PreferenceIffLastOfLabels | dynamic-scoring-framework/pkg/dynamic_scoring_agent/agent.go:511-537 | From raw results to preferences: an app and device have a preference exactly when a result is for them that no later one with the same non-empty labels overwrites |
| AggregateKeys.ExchangeDistinct | dynamic-scoring-framework/pkg/dynamic_scoring_agent/agent.go:511-642 | A round of agent and optimizer for results that differ in their non-empty labels: every result's app and device get a preference, and no others do |
| Text.SplitJoinIffClean | dynamic-scoring-framework/pkg/dynamic_scoring_agent/agent.go:672-674 | Splitting a joined label key gives the labels back if and only if no label contains the separator and no label but the last ends in a bar |
| Text.JoinSplit | dynamic-scoring-framework/pkg/dynamic_scoring_agent/agent.go:545-552 | Joining the parts of a split key gives the key back, whatever it is |
| Text.SplitIsClean | dynamic-scoring-framework/pkg/dynamic_scoring_agent/agent.go:548 | The parts of a split are always values that survive a join and split |
| ScoringAgent.LabelsInPlace | dynamic-scoring-framework/pkg/dynamic_scoring_agent/agent.go:512-522 | The label vector of a result holds each label at its place in the gauge's declaration, metric labels cut to 256 bytes |
| ScoringAgent.LabelsInTable | dynamic-scoring-framework/pkg/dynamic_scoring_agent/agent.go:523-533 | The placeholder table holds each of the nine labels under its own name, and not cut |
| ScoringAgent.FetchIs | dynamic-scoring-framework/pkg/dynamic_scoring_agent/agent.go:582-614 | A reference without name or key needs no secret; any other fails exactly without that key in that secret, and gives its value |
| ScoringAgent.GetValidString | dynamic-scoring-framework/pkg/dynamic_scoring_agent/agent.go:572-580 | A missing key gives the empty string; a value is kept, or cut to its first 256 bytes when asked |
| ScoringAgent.AgentController.HandleConfigMapUpdate | dynamic-scoring-framework/pkg/dynamic_scoring_agent/agent.go:308-375 | One update takes the whole agent state to Update(state, data) |
| ScoringAgent.AgentController.StopInactive | dynamic-scoring-framework/pkg/dynamic_scoring_agent/agent.go:354-374 | Stopping cancels and drops exactly the inactive workers and deletes all series of their names |
| ScoringAgent.AgentController.PerformScoring | dynamic-scoring-framework/pkg/dynamic_scoring_agent/agent.go:507-554 | The label and gauge section takes the agent state to Score(state, name, results) |
| ScoringAgent.UpdateLifecycle | dynamic-scoring-framework/pkg/dynamic_scoring_agent/agent.go:308-375 | After an update with valid data the workers are exactly the names whose last summary had both auth fetches succeed; workers and uncancelled contexts stay in bijection; surviving loops keep the summary they were started with |
| ScoringAgent.UpdateAuth | dynamic-scoring-framework/pkg/dynamic_scoring_agent/agent.go:324-352 | After an update a scorer whose last summary fetched tokens has exactly those tokens and that summary |
| ScoringAgent.UpdateSeries | dynamic-scoring-framework/pkg/dynamic_scoring_agent/agent.go:361-374 | A name that loses its worker loses all its series; a name that has one afterwards keeps its series |
| ScoringAgent.CurrentSeriesSurvive | dynamic-scoring-framework/pkg/dynamic_scoring_agent/agent.go:535-550 | Whatever the label values, a scoring never deletes a series it has just set |
| ScoringAgent.ScoreIsExact | dynamic-scoring-framework/pkg/dynamic_scoring_agent/agent.go:507-554 | With clean labels the series of the scored name are then exactly this step's label vectors with their last scores, and other names are untouched |
| ScoringAgent.SeriesAreDecoded | dynamic-scoring-framework/pkg/dynamic_scoring_agent/agent.go:544-554 | The series of a name are contained in its decoded previous label set |
| ScoringAgent.RunInvariant | dynamic-scoring-framework/pkg/dynamic_scoring_agent/agent.go:308-375 | On every run of updates and scorings contexts and workers are in bijection, and with clean labels the gauge stays within the recorded label sets |
| ScoringAgent.StaleSeriesRemovedIffClean | dynamic-scoring-framework/pkg/dynamic_scoring_agent/agent.go:544-552 | A series scored once and then not again disappears if and only if its label vector is clean |
| ScoringAgent.SeparatorInLabelKeepsSeries | dynamic-scoring-framework/pkg/dynamic_scoring_agent/agent.go:544-552 | The series of an application called a||b stays for good |
| ResourceName.Replace | dynamic-scoring-framework/pkg/dynamic_scoring_agent/agent.go:680-685 | Every character is lower-cased, or replaced by a dash when it cannot stand in a name |
| ResourceName.SanitizedIsResourceName | dynamic-scoring-framework/pkg/dynamic_scoring_agent/agent.go:676-716 | Every input gives 1 to 253 characters of a-z, 0-9, dot and dash, without a double dash, with alphanumeric ends; the branches that prepend or append an a are never taken |
| ResourceName.FixedIffResourceName | dynamic-scoring-framework/pkg/dynamic_scoring_agent/agent.go:676-716 | The names left alone are exactly the resource names, so sanitizing twice is sanitizing once |
| ResourceName.LongNameKeepsPrefix | dynamic-scoring-framework/pkg/dynamic_scoring_agent/agent.go:693-700 | Of a name that is only too long the longest prefix that fits and ends in an alphanumeric is kept |
| ResourceName.OnlyReplacedTextMatters | dynamic-scoring-framework/pkg/dynamic_scoring_agent/agent.go:680-685 | Names that agree after lower-casing and replacement sanitize to the same name |
| ResourceName.SanitizeMeans | dynamic-scoring-framework/pkg/dynamic_scoring_agent/agent.go:676-716 | For any name: characters are replaced, runs of dashes squeezed, dashes and dots dropped at the ends; the rest is the result if it fits, or its longest fitting prefix with an alphanumeric end, or "score" without a rest |
| ScoringConfig.ValidScoreName | dynamic-scoring-framework/internal/controller/dynamicscoringconfig_controller.go:517-524 | The synced name if it is set, else the specified one, else none |
| ScoringConfig.ValidSourceType | dynamic-scoring-framework/internal/controller/dynamicscoringconfig_controller.go:431-438 | The synced source type if it is set, else the specified one, else none |
| ScoringConfig.ValidSourceQuery | dynamic-scoring-framework/internal/controller/dynamicscoringconfig_controller.go:526-533 | The synced query if it is set, else the specified one, else none |
| ScoringConfig.ValidSourceEndpoint | dynamic-scoring-framework/internal/controller/dynamicscoringconfig_controller.go:440-466 | The source endpoint at the synced host, else the specified one, else that of the config URL, with the synced path before the specified one; none unless it is a valid URL |
| ScoringConfig.ValidScoringEndpoint | dynamic-scoring-framework/internal/controller/dynamicscoringconfig_controller.go:468-494 | The scoring endpoint at the specified host, else that of the config URL; but at the synced source host as soon as a synced scoring host is set; none unless it is a valid URL |
| ScoringConfig.ValidAuth | dynamic-scoring-framework/internal/controller/dynamicscoringconfig_controller.go:496-515 | An auth reference is rejected exactly when its name or key is empty |
| ScoringConfig.ValidSourceRange | dynamic-scoring-framework/internal/controller/dynamicscoringconfig_controller.go:535-542 | The synced range if positive, else the specified one if positive, else none |
| ScoringConfig.ValidSourceStep | dynamic-scoring-framework/internal/controller/dynamicscoringconfig_controller.go:544-551 | The synced step if positive, else the specified one if positive, else none |
| ScoringConfig.ValidScoringInterval | dynamic-scoring-framework/internal/controller/dynamicscoringconfig_controller.go:553-560 | The synced interval if positive, else the specified one if positive, else none |
| ScoringConfig.ValidDimensionFormat | dynamic-scoring-framework/internal/controller/dynamicscoringconfig_controller.go:576-581 | The specified format, or the score name placeholder when there is none |
| ScoringConfig.BuildMaskMap | dynamic-scoring-framework/internal/controller/dynamicscoringconfig_controller.go:163-170 | The map holds the keys of exactly the listed masks |
| ScoringConfig.MaskKeyInjective | dynamic-scoring-framework/internal/controller/dynamicscoringconfig_controller.go:163-176 | For cluster names without a slash a key stands for one (cluster, score) pair |
| ScoringConfig.Summarize | dynamic-scoring-framework/internal/controller/dynamicscoringconfig_controller.go:196-316 | The body of the loop over the scorers, with its checks in their order, yields a summary exactly for the listed, unmasked scorers |
| ScoringConfig.BuildClusterToSummaries | dynamic-scoring-framework/internal/controller/dynamicscoringconfig_controller.go:183-322 | Each cluster's list is one common list, in order, without the summaries some mask hits, for any masks |
| ScoringConfig.UnmaskedCounts | dynamic-scoring-framework/internal/controller/dynamicscoringconfig_controller.go:204-206 | The filter drops exactly the summaries some mask hits and keeps how often every other one occurs |
| ScoringConfig.MaskingIsByPairs | dynamic-scoring-framework/internal/controller/dynamicscoringconfig_controller.go:163-206 | For cluster names without a slash, in masks too, these are exactly the listed (cluster, score) pairs |
| ScoringConfig.MaskedByIff | dynamic-scoring-framework/internal/controller/dynamicscoringconfig_controller.go:163-176 | For a cluster name without a slash a mask hits exactly the pair of what is before and after the first slash of its key |
| ScoringConfig.SlashedMaskHitsAnother | dynamic-scoring-framework/internal/controller/dynamicscoringconfig_controller.go:163-176 | A mask with a slash in its cluster name hits a pair that is not the listed one |
| ScoringConfig.SummariesAreUsable | dynamic-scoring-framework/internal/controller/dynamicscoringconfig_controller.go:196-316 | Every summary has a name, a positive interval and valid endpoints; with a source other than None also a query, a positive range and a positive step |
| ScoringConfig.SummariesComeFromActiveScorers | dynamic-scoring-framework/internal/controller/dynamicscoringconfig_controller.go:208-215 | Every summary comes from an active scorer, and from a synced one if it is to be synced; it has that scorer's endpoints, credentials, location, destination and format, and each field that can be synced is the synced one if set and else the specified one |
| ScoringConfig.ListedIff | dynamic-scoring-framework/internal/controller/dynamicscoringconfig_controller.go:195-320 | A scorer is listed exactly when a summary can be made from it, in terms of its fields |
| ScoringConfig.MadeFromUnique | dynamic-scoring-framework/internal/controller/dynamicscoringconfig_controller.go:290-320 | Only one summary can be made from a scorer, up to the credentials of a source of type None |
| ScoringConfig.ActiveScorersAreSummarized | dynamic-scoring-framework/internal/controller/dynamicscoringconfig_controller.go:195-320 | Every scorer that a summary can be made from has one |
| ScoringConfig.NoneSourceNeverExcludes | dynamic-scoring-framework/internal/controller/dynamicscoringconfig_controller.go:217-271 | Changing anything but the type of a source of type None leaves the list of every cluster the same, but for what it says of that source |
| ScoringUrls.JoinPathIs | dynamic-scoring-framework/internal/controller/dynamicscoringconfig_controller.go:489 | Joining keeps scheme and authority, walks the path segments with "." and ".." resolved, and keeps a trailing slash |
| ScoringUrls.TrailingSlash | dynamic-scoring-framework/internal/controller/dynamicscoringconfig_controller.go:489 | A path that ends in a slash keeps it, and no other path that leads somewhere gets one |
| ScoringUrls.JoinIsPlain | dynamic-scoring-framework/internal/controller/dynamicscoringconfig_controller.go:178-181 | Joining a plain URL with a plain path gives a URL that is valid and reads back |
| ScoringUrls.WalkSplits | dynamic-scoring-framework/internal/controller/dynamicscoringconfig_controller.go:489 | A path climbs out of as many segments of the host's own path as Climb counts, and adds its own |
| ScoringUrls.SameJoinIff | dynamic-scoring-framework/internal/controller/dynamicscoringconfig_controller.go:489 | Two plain hosts join to the same URL exactly when scheme and authority are the same and their own paths are, as far as the path does not climb out of them |
| ScoringConfig.SyncedScoringHostUsedIff | dynamic-scoring-framework/internal/controller/dynamicscoringconfig_controller.go:474-493 | For plain hosts and paths, a synced scoring host is used exactly when the synced source host is set and stands for the same place under the scoring path, or the config URL cannot be parsed |
| ScoringConfig.SyncedScoringHostLost | dynamic-scoring-framework/internal/controller/dynamicscoringconfig_controller.go:474-493 | A listed scorer whose scoring endpoint is at the host of its Prometheus instead of its scorer |
| ScoringConfig.Reconciler.UpdateConfigManifestWork | dynamic-scoring-framework/internal/controller/dynamicscoringconfig_controller.go:365-406 | One cluster's work is created, left alone, replaced or reported unreadable as in UpdateWork; a Get error other than NotFound is no failure |
| ScoringConfig.Reconciler.ReconcileOnce | dynamic-scoring-framework/internal/controller/dynamicscoringconfig_controller.go:57-139 | One reconcile, including finalizer and deletion, takes the state to Reconcile(state, inputs, faults) with its error |
| ScoringConfig.ScanIs | dynamic-scoring-framework/internal/controller/dynamicscoringconfig_controller.go:365-406 | In a work the first config map that has the list, or cannot be decoded, decides |
| ScoringConfig.UpdateWorkLeaves | dynamic-scoring-framework/internal/controller/dynamicscoringconfig_controller.go:365-406 | What one cluster's update leaves: the list alone in its work when that was missing or different and the write works, and otherwise what was there |
| ScoringConfig.FinalizerLeaves | dynamic-scoring-framework/internal/controller/dynamicscoringconfig_controller.go:57-139 | A live configuration has the finalizer afterwards; a deleted one loses it last, and goes with it unless others have one; a write that fails changes nothing |
| ScoringConfig.ReconcileNeedsInputs | dynamic-scoring-framework/internal/controller/dynamicscoringconfig_controller.go:57-139 | Without its inputs a reconcile fails before any work is touched; without a configuration it does nothing |
| ScoringConfig.LoopFailsIff | dynamic-scoring-framework/internal/controller/dynamicscoringconfig_controller.go:128-137 | When no write fails, the loop over the clusters fails exactly when a work it can read is unreadable |
| ScoringConfig.LoopHoldsIff | dynamic-scoring-framework/internal/controller/dynamicscoringconfig_controller.go:402-405 | After a loop without error a work holds its cluster's list exactly when it could be read or held the list before |
| ScoringConfig.UnreadableClusterIsSkipped | dynamic-scoring-framework/internal/controller/dynamicscoringconfig_controller.go:402-405 | A cluster whose work cannot be read keeps its old list while the loop reports success |
| ScoringConfig.ReconcileSettles | dynamic-scoring-framework/internal/controller/dynamicscoringconfig_controller.go:107-139 | A fault-free reconcile succeeds exactly when every existing work is readable; then every work holds its list and a second reconcile writes nothing |
| ScoringConfig.DeletionOutcome | dynamic-scoring-framework/internal/controller/dynamicscoringconfig_controller.go:82-103 | On deletion exactly the works that could not be read or deleted stay, and the finalizer goes all the same |
| PolicyWatcher.Judge | dynamic-scoring-framework/samples/policy-watcher/main.py:44-52 | "empty" exactly without policies, "compliant" exactly when there are some and all are Compliant |
| PolicyWatcher.Watcher.AllPoliciesCompliant | dynamic-scoring-framework/samples/policy-watcher/main.py:35-52 | The scan with its early returns computes Judge |
| PolicyWatcher.Watcher.PollOnce | dynamic-scoring-framework/samples/policy-watcher/main.py:84-110 | One turn of the loop, with an exception at any call, takes the state to Step and raises exactly when it does not complete |
| PolicyWatcher.StableSinceIsStretch | dynamic-scoring-framework/samples/policy-watcher/main.py:91-106 | Over every run the stored time is that of the poll that began the current stretch of observed compliance, and there is none exactly when no stretch is on |
| PolicyWatcher.CompliantIffStable | dynamic-scoring-framework/samples/policy-watcher/main.py:91-99 | Over every run a poll writes "compliant" exactly when it sees compliance, the claim says something else, and its stretch began with an earlier poll at least STABLE_DURATION before |
| PolicyWatcher.ClaimAfter | dynamic-scoring-framework/samples/policy-watcher/main.py:84-110 | After any poll the claim is "empty" without policies, "noncompliant" with one that is not Compliant, "compliant" once compliance was stable, and otherwise, or when the patch raises before writing, what it was |
| PolicyWatcher.RaisesIff | dynamic-scoring-framework/samples/policy-watcher/main.py:84-110 | A poll raises exactly when policies or claim cannot be read, or when there is something to write and the patch raises |
| PolicyWatcher.CompletedPollReports | dynamic-scoring-framework/samples/policy-watcher/main.py:100-107 | A poll that completes leaves the claim "empty" or "noncompliant" when it sees that, and else alone or "compliant", the latter exactly when it was or is written |
| KueueHub.StepsCommute | kueue-addon/pkg/hub/controllers/kueuesecretcopy/controller.go:95-185 | Steps for different clusters commute, although their secrets share one namespace |
| KueueHub.GetPut | kueue-addon/pkg/hub/controllers/kueuesecretcopy/controller.go:208-292 | The objects of one cluster can be replaced without touching those of another: their names never collide |
| KueueHub.EffectiveStepDecreases | kueue-addon/pkg/hub/controllers/kueuesecretgen/controller.go:69-133 | Every step of secret generation, token issue or secret copy that changes anything strictly decreases the weighted count of objects out of place, whatever fails in it |
| KueueHub.RunsConverge | kueue-addon/pkg/hub/controllers/kueuesecretcopy/controller.go:95-185 | In any interleaving and with any failures a run has at most 17 steps that change anything |
| KueueHub.RunsOnStoreAreIndependent | kueue-addon/pkg/hub/controllers/kueuesecretcopy/controller.go:95-185 | On the shared store a cluster's part of any run is the run of its own steps on its own objects |
| KueueHub.RunsOnStoreConverge | kueue-addon/pkg/hub/controllers/kueuesecretcopy/controller.go:95-185 | On the shared store, with the steps for all clusters interleaved and failing at will, at most 17 steps of each cluster change anything |
| KueueHub.LiveFixpoint | kueue-addon/pkg/hub/controllers/kueuesecretcopy/controller.go:172-185 | For a live, connectable cluster nothing is left to do exactly when permission, service account, token, kubeconfig and MultiKueueCluster are all there and linked |
| KueueHub.DeletingFixpoint | kueue-addon/pkg/hub/controllers/kueuesecretcopy/controller.go:149-170 | For a deleting cluster nothing is left to do exactly when they are all gone |
| KueueHub.OneRoundSettles | kueue-addon/pkg/hub/controllers/kueuesecretgen/controller.go:69-133 | One fault-free round of generation, token issue and copy reaches that state |
| KueueLinks.QuietIsConnected | kueue-addon/pkg/hub/controllers/kueuesecretcopy/controller.go:120-360 | On the store: when nothing is left to do for a live cluster that can be connected, its MultiKueueCluster names a stored secret of the kueue namespace with its own kubeconfig, and the permission is bound to the account the kubeconfig authenticates |
| KueueLinks.OneRoundConnects | kueue-addon/pkg/hub/controllers/kueuesecretcopy/controller.go:120-360 | One fault-free round of the controllers gets there from any store |
| KueueLinks.ConnectedApart | kueue-addon/pkg/hub/controllers/kueuesecretcopy/controller.go:338-350 | The MultiKueueClusters of different clusters name different secrets |
| KueueLinks.GenLeaves | kueue-addon/pkg/hub/controllers/kueuesecretgen/controller.go:69-133 | What one secret generation leaves: binding and account for a live cluster, neither for a deleting one, up to the call that fails |
| KueueLinks.GenFailsIff | kueue-addon/pkg/hub/controllers/kueuesecretgen/controller.go:69-133 | It reports an error exactly when a call it needs fails, or a live cluster has no caller to bind |
| KueueLinks.CopyLeaves | kueue-addon/pkg/hub/controllers/kueuesecretcopy/controller.go:95-360 | What one secret copy leaves: nothing without permission or token, a fresh kubeconfig and a reference to it when the cluster can be connected, and otherwise what was there, up to the write that fails |
| KueueLinks.CopyFailsIff | kueue-addon/pkg/hub/controllers/kueuesecretcopy/controller.go:95-360 | It reports an error exactly when a write fails, or there is something to copy and the cluster cannot be connected |
| KueueHub.NoErrorMeansDone | kueue-addon/pkg/hub/controllers/kueuesecretgen/helpers.go:35-130 | A sync that returns no error leaves nothing for the next sync of that controller to change |
| KueueHub.EffectiveProfileStepDecreases | kueue-addon/pkg/hub/controllers/multikueuecluster/controller.go:85-280 | In ClusterProfile mode, too, every effective step decreases a measure |
| KueueHub.ProfileFixpoint | kueue-addon/pkg/hub/controllers/multikueuecluster/controller.go:85-280 | With a well-formed profile nothing is left to do exactly when everything is present and refers to the profile (live), or is gone (deleting) |
| KueueLinks.MkSyncLeaves | kueue-addon/pkg/hub/controllers/multikueuecluster/controller.go:150-280 | One sync of the MultiKueueCluster: gone without profile, permission or secret, left alone with a profile of someone else, and otherwise referring to the cluster's own |
| KueueProfileRuns.ProfileGetPut | kueue-addon/pkg/hub/controllers/multikueuecluster/controller.go:85-280 | In ClusterProfile mode, too, the objects of different clusters never overlap |
| KueueProfileRuns.ProfileRunsConverge | kueue-addon/pkg/hub/controllers/multikueuecluster/controller.go:85-280 | A run for one cluster in ClusterProfile mode has at most 23 effective steps, in any order and with any failures |
| KueueProfileRuns.ProfileRunsAreIndependent | kueue-addon/pkg/hub/controllers/multikueuecluster/controller.go:85-280 | A cluster's part of a run on the shared store is the run of its own actions on its own objects |
| KueueProfileRuns.ProfileRunsOnStoreConverge | kueue-addon/pkg/hub/controllers/multikueuecluster/controller.go:85-280 | With many clusters interleaved on the store, at most 23 steps of each change anything |
| KueueHub.Hub.GenerateSync | kueue-addon/pkg/hub/controllers/kueuesecretgen/controller.go:69-89 | A sync of secret generation is one Act on the shared store, and returns an error exactly when a needed call fails or no subject can be built |
| KueueHub.Hub.CleanupClusterResources | kueue-addon/pkg/hub/controllers/kueuesecretgen/controller.go:91-107 | Deletes the permission first and, outside impersonation, the service account second |
| KueueHub.Hub.ApplyClusterResources | kueue-addon/pkg/hub/controllers/kueuesecretgen/controller.go:109-133 | Applies the permission first and, outside impersonation, the service account second |
| KueueHub.Hub.CopyKubeconfigSync | kueue-addon/pkg/hub/controllers/kueuesecretcopy/controller.go:95-126 | A sync of secret copy is one Act on the shared store, and returns no error exactly under CopyOk |
| KueueHub.Hub.WriteCopies | kueue-addon/pkg/hub/controllers/kueuesecretcopy/controller.go:149-185 | Writes or deletes the kubeconfig secret first and the MultiKueueCluster second, and stops at the first failure |
| KueueHub.Hub.MultiKueueClusterSync | kueue-addon/pkg/hub/controllers/multikueuecluster/controller.go:85-125 | A sync without error leaves a MultiKueueCluster, referring to the profile, exactly when profile, permission and synced secret exist |
| AdmissionCheck.Controller.SyncOnce | kueue-addon/pkg/hub/controllers/admissioncheck/controller.go:86-223 | A sync takes the whole state to Sync for some iteration order of the decided clusters, with its error |
| AdmissionCheck.Controller.ListClusters | kueue-addon/pkg/hub/controllers/admissioncheck/controller.go:167-170 | The loop lists every decided cluster once |
| AdmissionCheck.Controller.CreateOrUpdateMultiKueueConfig | kueue-addon/pkg/hub/controllers/admissioncheck/controller.go:249-262 | The config is created, patched or left alone, or the first failing call is reported |
| AdmissionCheck.Controller.DeleteMultiKueueConfig | kueue-addon/pkg/hub/controllers/admissioncheck/controller.go:265-271 | The config is gone afterwards, whether or not it existed, unless the call fails |
| AdmissionCheck.Controller.CleanupAdmissionCheckResources | kueue-addon/pkg/hub/controllers/admissioncheck/controller.go:227-246 | Without the finalizer nothing happens; otherwise config and finalizer go, the finalizer even when the delete failed |
| AdmissionCheck.FixpointIffSettled | kueue-addon/pkg/hub/controllers/admissioncheck/controller.go:86-223 | A fault-free sync of a live check of an existing placement changes nothing, up to the order of the cluster list, exactly in the settled states |
| AdmissionCheck.TwoSyncsSettle | kueue-addon/pkg/hub/controllers/admissioncheck/controller.go:86-223 | From any state two fault-free syncs settle it: the finalizer is there, and Active is True iff clusters are decided iff the config exists, with exactly those clusters |
| AdmissionCheck.SettledSurvivesIff | kueue-addon/pkg/hub/controllers/admissioncheck/controller.go:227-246 | A sync of another check unsettles a settled one exactly when it cleans up a deleted check of the same placement while clusters are still decided |
| AdmissionCheck.SharedConfigGoes | kueue-addon/pkg/hub/controllers/admissioncheck/controller.go:227-246 | Two checks of one placement: the sync of the deleted one takes the config while the other stays Active |
| AdmissionCheck.ActiveTellsTheTruth | kueue-addon/pkg/hub/controllers/admissioncheck/controller.go:112-223 | After a sync whose status write worked Active is True exactly when nothing else failed and clusters are decided, and then the config holds exactly those |
| AdmissionCheck.ReasonsAreExact | kueue-addon/pkg/hub/controllers/admissioncheck/controller.go:112-211 | Each reason of the condition stands for exactly one situation, and the sync returns an error exactly for the failures among them |
| AdmissionCheck.MissingPlacementKeepsConfig | kueue-addon/pkg/hub/controllers/admissioncheck/controller.go:113-126 | Without its placement a check reports PlacementNotFound, and its config stays as it is |
| AdmissionCheck.CleanupLeavesConfigIff | kueue-addon/pkg/hub/controllers/admissioncheck/controller.go:237-246 | After a cleanup the config is left exactly when its delete failed; the finalizer is gone |
| AdmissionCheck.RunInvariant | kueue-addon/pkg/hub/controllers/admissioncheck/controller.go:86-271 | On every run with arbitrary failures no config is empty; with fixed parameters and working deletes every config has a check that still carries the finalizer |
| AdmissionCheck.CleanupKeepsOwnersIff | kueue-addon/pkg/hub/controllers/admissioncheck/controller.go:237-246 | A cleanup orphans a config exactly when its delete fails, the finalizer goes, and no other check carries it for that placement |
| AdmissionCheck.FailedDeleteOrphans | kueue-addon/pkg/hub/controllers/admissioncheck/controller.go:237-246 | A single deleted check whose config cannot be deleted leaves it without an owner |
| AdmissionCheckOutcome.SyncTouches | kueue-addon/pkg/hub/controllers/admissioncheck/controller.go:86-223 | A sync changes its own check and the config of its placement only, and nothing when it does not find the check |
| AdmissionCheckOutcome.DeletedCheckLeaves | kueue-addon/pkg/hub/controllers/admissioncheck/controller.go:227-246 | What the sync of a deleted check leaves: the config unless its delete works, the finalizer unless that write works, the check itself exactly with its last finalizer |
| AdmissionCheckOutcome.NewCheckLeaves | kueue-addon/pkg/hub/controllers/admissioncheck/controller.go:86-223 | A live check without the finalizer gets it and nothing else happens |
| AdmissionCheckOutcome.LiveCheckLeaves | kueue-addon/pkg/hub/controllers/admissioncheck/controller.go:86-223 | The first call that stands in the way is reported with its error and the configs stay; without one the config holds the listed clusters or is gone, and the condition says which; a condition that cannot be written fails the sync |
| AdmissionCheckIndex.IndexKeyInjective | kueue-addon/pkg/hub/controllers/admissioncheck/index.go:34-36 | For namespaces without a slash an index key stands for one placement |
| AdmissionCheckIndex.PlacementQueueKeys | kueue-addon/pkg/hub/controllers/admissioncheck/index.go:41-65 | A placement event enqueues, once each, exactly the OCM checks whose parameters name it in the kueue namespace |
| AdmissionCheckIndex.PlacementDecisionQueueKeys | kueue-addon/pkg/hub/controllers/admissioncheck/index.go:69-96 | A decision event enqueues, once each, exactly the OCM checks that name the placement of its label, so both functions agree; without the label nothing |
| AdmissionCheckIndex.PlacementEventComplete | kueue-addon/pkg/hub/controllers/admissioncheck/controller.go:112-170 | An OCM check that a placement event does not enqueue syncs the same before and after the event |
| AdmissionCheckIndex.DecisionEventComplete | kueue-addon/pkg/hub/controllers/admissioncheck/controller.go:140-156 | An OCM check that neither the old nor the new value of a decision enqueues syncs the same before and after the event |
| AdmissionCheckIndex.MissedCheckIff | kueue-addon/pkg/hub/controllers/admissioncheck/index.go:73-94 | A check that the stored value of a decision names and the new one does not syncs the same before and after exactly when other decisions of its placement still decide every cluster this one did |
| AdmissionCheckIndex.RelabelMissesOldPlacement | kueue-addon/pkg/hub/controllers/admissioncheck/index.go:73-79 | A decision that changes its label wakes only the checks of the new placement; one of the old placement can be left outdated |
| FederatedLearning.PhasesNeverDecrease | federated-learning-controller/internal/controller/federatedlearning_controller.go:64-177 | Over every valid history the phase never goes down, Failed is final, and Completed only becomes Failed |
| FederatedLearning.FlowerCompletedIff | federated-learning-controller/internal/controller/federatedlearning_controller.go:150-169 | A Flower instance is Completed exactly when it was completed under another framework before and has not failed since |
| FederatedLearning.FlowerCompletedByEdit | federated-learning-controller/internal/controller/federatedlearning_controller.go:150-169 | A run that does it: training completes, then the framework is edited to Flower |
| FederatedLearning.Int32 | federated-learning-controller/internal/controller/federatedlearning_client.go:386 | A number of 32 bits is itself, any other is reduced modulo 2^32 into their range |
| FederatedTable.RunningIsEarned | federated-learning-controller/internal/controller/federatedlearning_client.go:381-415 | On every valid history a version that is Running goes back to a reconcile that selected at least the minimum of clusters of the spec and started every client: the client application, or a work with its data for every cluster of every decision |
| FederatedTable.DataKeyIs | federated-learning-controller/internal/controller/federatedlearning_client.go:172-179 | The data key is that of the last Exists expression, and empty without any; other operators do not count |
| FederatedTable.DataConfigIs | federated-learning-controller/internal/controller/federatedlearning_client.go:197-202 | The data of a cluster is the value of its last claim with the key, and empty without any |
| FederatedLearning.HistoryBehindPhase | federated-learning-controller/internal/controller/federatedlearning_client.go:166-224 | Running is entered only by a reconcile that saw at least int32(minimum) selected clusters and had applied a work with its non-empty data configuration to every listed cluster (OpenFL) or deployed the client application (Flower); Completed only by one that saw the job succeed |
| FederatedLearning.Reconciler.UpdateStatus | federated-learning-controller/internal/controller/federatedlearning_controller.go:79-81 | A status write that is refused or stale, or finds the instance gone, leaves the history as the interference left it; any other stores exactly the status of the copy and refreshes it, unless the reply is lost |
| FederatedLearning.Reconciler.UpdateMeta | federated-learning-controller/internal/controller/federatedlearning_controller.go:92-105 | A finalizer write that takes effect stores the latest version with the finalizer set or cleared, whatever the status of the copy; the last finalizer of a deleted instance takes the instance with it |
| FederatedLearning.Reconciler.ComputeDataKey | federated-learning-controller/internal/controller/federatedlearning_client.go:172-179 | The data key is that of the last expression, over all predicates, with operator Exists |
| FederatedLearning.Reconciler.ComputeDataConfig | federated-learning-controller/internal/controller/federatedlearning_client.go:197-202 | The data configuration is the value of the last claim with the data key |
| FederatedLearning.Reconciler.ClusterWorkload | federated-learning-controller/internal/controller/federatedlearning_client.go:320-377 | A work is applied exactly when the cluster is readable, has data, and the last listener has an address; it gets that address |
| FederatedLearning.Reconciler.GenerateWorkload | federated-learning-controller/internal/controller/federatedlearning_client.go:166-224 | Without an error every listed decision cluster got its work; undisturbed, it succeeds exactly when all decisions and clusters are usable |
| FederatedLearning.Reconciler.ToRunning | federated-learning-controller/internal/controller/federatedlearning_client.go:381-415 | Undisturbed, the phase becomes Running exactly when enough clusters are selected and every work was applied, and stays otherwise |
| FederatedLearning.Reconciler.DeployFlowerClientApp | federated-learning-controller/internal/controller/federatedlearning_client.go:83-164 | Undisturbed, a Flower instance becomes Running exactly when enough clusters are selected and its client application deploys, and stays otherwise |
| FederatedLearning.Reconciler.FederatedLearningServer | federated-learning-controller/internal/controller/federatedlearning_server.go:40-180 | Undisturbed, the listeners are those of ListenersAfter, and it succeeds exactly when setup and service address do; the phase is untouched |
| FederatedLearning.Reconciler.ReconcileFlower | federated-learning-controller/internal/controller/federatedlearning_controller.go:181-200 | Undisturbed, the phase is that of the Flower column of the table |
| FederatedLearning.Reconciler.RecordCompletion | federated-learning-controller/internal/controller/federatedlearning_controller.go:150-169 | Undisturbed, a running or completed instance is Completed when the job succeeded, Failed when it cannot be read, and otherwise as before |
| FederatedLearning.Reconciler.CleanUp | federated-learning-controller/internal/controller/federatedlearning_controller.go:84-98 | A failed prune writes nothing; without one the finalizer goes and with it the instance |
| FederatedLearning.Reconciler.WriteDeferred | federated-learning-controller/internal/controller/federatedlearning_controller.go:74-82 | The deferred write makes the instance Failed exactly when the captured error is set |
| FederatedLearning.Reconciler.Reconcile | federated-learning-controller/internal/controller/federatedlearning_controller.go:64-177 | Whatever fails, however stale the read, whoever interferes, the history stays valid; undisturbed it ends in the phase of the table NextPhase |
| FederatedTable.CompletesIff | federated-learning-controller/internal/controller/federatedlearning_controller.go:107-169 | An undisturbed reconcile leaves an instance Completed exactly when it looks at a job that has succeeded, or that of a completed instance can be read, or does not look at it and the instance was |
| FederatedTable.FailsIff | federated-learning-controller/internal/controller/federatedlearning_controller.go:74-169 | It leaves it Failed exactly when it was, the placement cannot be deployed, the job it looks at cannot be read, or with Flower its server, placement or clients fail |
| FederatedTable.RunsIff | federated-learning-controller/internal/controller/federatedlearning_controller.go:107-169 | It leaves it Running exactly when it was or its clients are started, and it neither fails nor completes |
| FederatedTable.WaitsIff | federated-learning-controller/internal/controller/federatedlearning_controller.go:107-169 | It leaves it Waiting exactly when it was new or waiting, clients are not started, and it does not fail |
| FederatedTable.WorkloadsOkIs | federated-learning-controller/internal/controller/federatedlearning_client.go:166-330 | Works can be generated exactly when every cluster of every decision can be read, has data, and there is an address to tell it |
| FederatedTable.PublishesIs | federated-learning-controller/internal/controller/federatedlearning_server.go:40-180 | The server publishes exactly when it is set up and its service has an address; then that is the clients', and listeners of other types stay |
| FederatedLearning.HealthyProgress | federated-learning-controller/internal/controller/federatedlearning_controller.go:107-169 | A healthy instance with enough clusters runs after one undisturbed reconcile, and completes in the same one once the job has succeeded, unless it is Flower's |
| FederatedLearning.Run | federated-learning-controller/internal/controller/federatedlearning_controller.go:64-177 | Every run of reconciles and interference, edits of the framework included, has a valid, monotone history, in which Flower instances are Completed exactly as FlowerCompletedIff says |
| FederatedServer.Replaced | federated-learning-controller/internal/controller/federatedlearning_server.go:536-549 | The loop keeps the listeners of the other types in order and appends the new one |
| FederatedServer.LastAddress | federated-learning-controller/internal/controller/federatedlearning_client.go:323-326 | The loop over the listeners ends with the address of the last one |
| FederatedServer.UpdatedListeners | federated-learning-controller/internal/controller/federatedlearning_server.go:603-617 | After an update one listener of the type is left, the new one; clients get its address; updating again changes nothing |
| FederatedServer.EndpointNodeIp | federated-learning-controller/internal/controller/federatedlearning_server.go:418-437 | The IP the server binds to is the first internal IP of the first node that has one |
| FederatedServer.AdvertisedNodeIp | federated-learning-controller/internal/controller/federatedlearning_server.go:577-594 | The IP clients are told is the first internal IP of the last node that has one |
| FederatedServer.InternalIPIs | federated-learning-controller/internal/controller/federatedlearning_server.go:418-437 | The IP of a node is its first non-empty internal address, and empty without any |
| FederatedServer.NoInternalIP | federated-learning-controller/internal/controller/federatedlearning_server.go:577-594 | Without an internal address on any node there is no IP, first or last |
| FederatedServer.EndpointsAgreeIff | federated-learning-controller/internal/controller/federatedlearning_server.go:416-445 | Both are the same exactly when the listener names an IP or the first and the last node with an internal IP have the same |
| FederatedServer.TwoNodesDisagree | federated-learning-controller/internal/controller/federatedlearning_server.go:577-594 | With two nodes of different internal IPs the server binds to one and advertises the other |
| FederatedServer.ServiceListener | federated-learning-controller/internal/controller/federatedlearning_server.go:453-612 | The published address is the host name, else the IP, of the first ingress with the service port, or the listener IP, else that of the last usable node, with the node port; it is missing or an error exactly in the cases listed |
| FederatedServer.IngressHostsAgreeIff | federated-learning-controller/internal/controller/federatedlearning_server.go:392-412 | Behind an ingress with a host, the published address is the one the server binds to exactly when the ingress does not have both an IP and a host name, or both are the same |
| FederatedServer.IngressHostsDisagree | federated-learning-controller/internal/controller/federatedlearning_server.go:524-533 | With an IP and a different host name the server binds to the IP and the host name is published |
| Reporter.Reporter.HasChanged | federated-learning-controller/internal/sidecar/exporter/exporter.go:113-154 | The two change-detecting loops report a change exactly when the update is not skipped |
| Reporter.Reporter.UpdateMetrics | federated-learning-controller/internal/sidecar/exporter/exporter.go:109-242 | One update takes the reporter, with its gauges and registered callbacks, to Update(state, payload, environment) |
| Reporter.Reporter.RegisterGauges | federated-learning-controller/internal/sidecar/exporter/exporter.go:188-241 | Re-registration replaces the callback by one for exactly the accepted instruments; nothing is registered without any, or when registering fails |
| Reporter.Reporter.Collect | federated-learning-controller/internal/sidecar/exporter/exporter.go:217-233 | The callbacks emit exactly the stored metrics that have a gauge and a registered callback |
| Reporter.CoveredAndSameSize | federated-learning-controller/internal/sidecar/exporter/exporter.go:122-135 | Equal size and containment make two maps equal |
| Reporter.NeedsUpdateIff | federated-learning-controller/internal/sidecar/exporter/exporter.go:168-178 | The size-and-names test asks for new gauges exactly when the gauge names are not the metric names |
| Reporter.SkipsIffUnchanged | federated-learning-controller/internal/sidecar/exporter/exporter.go:113-154 | For payloads without a timestamp an update is skipped exactly when nothing but the timestamp changed |
| Reporter.PayloadLostIff | federated-learning-controller/internal/sidecar/exporter/exporter.go:113-158 | For any payload and state, the payload is lost exactly when it has a timestamp, repeats the labels and only drops one metric |
| Reporter.DroppedMetricIsEmitted | federated-learning-controller/internal/sidecar/exporter/exporter.go:113-158 | After any healthy run, a payload with a timestamp that only drops one metric of the last payload is lost, and the dropped metric goes on being emitted |
| Reporter.DroppedMetricStays | federated-learning-controller/internal/sidecar/exporter/exporter.go:113-154 | The run of a payload of loss and accuracy and one of loss and timestamp ends emitting accuracy, without holding the second payload |
| Reporter.TimestampMovesWithChanges | federated-learning-controller/internal/sidecar/exporter/exporter.go:150-162 | The timestamp moves exactly when something other than the timestamp changed |
| Reporter.RunEmitsLastPayload | federated-learning-controller/internal/sidecar/exporter/exporter.go:109-242 | After any run without errors a collection emits exactly the last payload, if that has no timestamp, and its labels, apart from the timestamp; gauges are the metrics, with at most one callback |
| Reporter.RunRegistersAtMostOne | federated-learning-controller/internal/sidecar/exporter/exporter.go:188-241 | Whatever is rejected or fails to register, at most one callback is registered as long as unregistering works, and gauges only name stored metrics |
| Reporter.FailedRegistrationLeaves | federated-learning-controller/internal/sidecar/exporter/exporter.go:197-239 | A failed registration leaves gauges for all metrics and no callback |
| Reporter.StuckUpdate | federated-learning-controller/internal/sidecar/exporter/exporter.go:166-184 | From there a callback is registered exactly by an update that is not skipped, changes the names, and succeeds |
| Reporter.FailedRegistrationSticks | federated-learning-controller/internal/sidecar/exporter/exporter.go:166-239 | After any run that ends in a failed registration, every later run of updates with the same names emits nothing at all |
| ResourceUsage.GetRequestForResource | resource-usage-collect-addon/pkg/addon/agent/calculate.go:254-278 | A set request counts as it is, even when zero; only unset cpu or memory requests may get a default |
| ResourceUsage.RequestIs | resource-usage-collect-addon/pkg/addon/agent/calculate.go:254-278 | Only without useRequested does a container that says nothing of cpu or memory count as 100 and 200 MiB |
| ResourceUsage.SumIs | resource-usage-collect-addon/pkg/addon/agent/calculate.go:228-233 | The containers of a pod add up |
| ResourceUsage.LargestIs | resource-usage-collect-addon/pkg/addon/agent/calculate.go:235-242 | Of its init containers the largest counts |
| ResourceUsage.OnePod | resource-usage-collect-addon/pkg/addon/agent/calculate.go:216-251 | A pod alone on its node uses the larger of the two, and its overhead if enabled; it counts while pending, running or unknown and not deleting |
| ResourceUsage.CalculateNodeResourceUsage | resource-usage-collect-addon/pkg/addon/agent/calculate.go:209-252 | The loops over pods, containers and init containers compute the running total Usage |
| ResourceUsage.UsageBounds | resource-usage-collect-addon/pkg/addon/agent/calculate.go:216-251 | Usage lies between the sum of (containers + overhead) and the sum of (max(containers, largest init) + overhead) over the unfinished pods of the node |
| ResourceUsage.UsageZeroIff | resource-usage-collect-addon/pkg/addon/agent/calculate.go:216-251 | Usage is 0 exactly when no unfinished pod of the node needs anything |
| ResourceUsage.UsageIsNeedIff | resource-usage-collect-addon/pkg/addon/agent/calculate.go:235-242 | Usage equals the upper sum exactly when every pod whose largest init request exceeds its containers has only pods that need nothing listed before it |
| ResourceUsage.InsertingNeverLowers | resource-usage-collect-addon/pkg/addon/agent/calculate.go:217-226 | Inserting a pod anywhere never lowers the usage; a pod that is finished or elsewhere changes nothing |
| ResourceUsage.LargestUsage | resource-usage-collect-addon/pkg/addon/agent/calculate.go:216-251 | In every order the usage is at most all that is held plus the largest excess of init containers over their own pod's containers, and some order attains that |
| ResourceUsage.UsageIsOrderFreeIff | resource-usage-collect-addon/pkg/addon/agent/calculate.go:216-251 | The usage does not depend on the order of the pods exactly when each pod that holds something exceeds its containers at least as far as any pod does |
| ResourceUsage.UsageIsOrderFree | resource-usage-collect-addon/pkg/addon/agent/calculate.go:216-251 | In particular it does not when no init request exceeds its own pod's containers, and then it is the upper sum |
| ResourceUsage.OrderMatters | resource-usage-collect-addon/pkg/addon/agent/calculate.go:235-242 | A pod of init containers alone counts less behind another pod than in front of it |
| ResourceUsage.CalculateClusterAvailable | resource-usage-collect-addon/pkg/addon/agent/calculate.go:106-137 | Allocatable minus usage, summed over the schedulable nodes; an error exactly when nodes cannot be listed, or pods cannot and a schedulable node exists |
| ResourceUsage.ClusterIsSum | resource-usage-collect-addon/pkg/addon/agent/calculate.go:106-137 | Each schedulable node contributes what it can allocate less what its pods use, the others nothing |
| ResourceUsage.SchedulableCountIs | resource-usage-collect-addon/pkg/addon/agent/calculate.go:106-137 | The count is positive exactly when some node is schedulable |
| ResourceUsage.CalculateMaxAvailableNode | resource-usage-collect-addon/pkg/addon/agent/calculate.go:174-206 | The result is the first node that attains the positive maximum, or 0 and no name; an error exactly when nodes cannot be listed, or pods cannot and a node has to be looked at |
| ResourceUsage.NodeVersusCluster | resource-usage-collect-addon/pkg/addon/agent/calculate.go:106-206 | If no schedulable node uses more than it can allocate, the best node's availability is at most the cluster's, which is at most that times the number of schedulable nodes |

## Left out

- DimensionName.RoundTripIff: formats whose literals contain regular-expression metacharacters are excluded, and placeholder names are runs of ASCII word characters, because the regular-expression language is not modelled.
- DimensionName.ParsedTextIsSpelled: patterns with a group name used twice or with metacharacters make `re` raise; the parser then returns a failure, which the model does not describe further.
- PreferenceScores.Value: what the conversion of a score that does not fit 32 bits gives is implementation-defined and left open.
- ScoringAgent.GetValidString: strings are bytes; that the metrics library panics on a label cut inside a multi-byte character is not modelled.
- ScoringAgent.RunInvariant: an update and the label and gauge section of a scoring are atomic steps; the unlocked maps of the code are assumed to be free of data races.
- ResourceName.SanitizedIsResourceName: lower-casing maps one character to one character; invalid UTF-8 is not modelled.
- KueueHub.RunsConverge: caches are up to date, the token issued for a service account is fixed during the run, the kubeconfig is a record instead of its text, and the helpers that patch or apply an object make it equal to the desired one. The queue keys of the secret-copy controller are not modelled.
- KueueHub.ProfileFixpoint: covers the mode without impersonation, where the token secret is synced; a kubeconfig source beside a correct profile reference is not corrected by the controller. Profiles and managed clusters are fixed during a run.
- AdmissionCheck.TwoSyncsSettle: caches are up to date, checks have parameters (the code would panic without), and the decision tracker is its contract: the set of decided clusters. Transition times of conditions are not modelled.
- AdmissionCheckIndex.DecisionEventComplete: what the informer hands to the queue-key function on an update is not part of this repository; the lemma asks that neither value of the decision enqueues the check, and MissedCheckIff covers the case where only the new value is handed over.
- FederatedLearning.Reconciler.FederatedLearningServer: storage, service creation, rendering and owner references are one step that works or fails; only the publication of the address is modelled in detail. Route listeners are never published by the code.
- FederatedLearning.Reconciler.ClusterWorkload: splitting host and port, rendering and deploying are one step that works or fails per cluster.
- FederatedLearning.Reconciler.CleanUp: pruning of server and client resources works or fails as a whole. ManifestWorks of clusters that are no longer decided are not pruned by the code, and the model claims nothing about them.
- FederatedLearning.Run: others edit the spec and delete the instance but do not write its status, messages with different templates differ, and an instance created again under the same name is another instance.
- Reporter.Reporter.UpdateMetrics: payload maps are values, so the write of the timestamp into the caller's map, the panic on a nil payload map and NaN values are not modelled.
- ResourceUsage.UsageBounds: quantities are exact reals, without the rounding of 64-bit floating point. Score normalisation, and with it the memory unit, is not modelled.
- ScoringConfig.ReconcileSettles: JSON is an identity, each manifest of a work is decoded on its own, and URL parsing and joining are parameters that are fixed on plain URLs only.
- ScoringConfig.SyncedScoringHostUsedIff: the URL library is modelled for lower-case schemes, authorities without user information, and unreserved characters; escaping, queries and fragments are not modelled.
- PolicyWatcher.CompliantIffStable: the claim is read and written without interference inside one poll; others may write it between polls.
- PlacementTables.LoadPolicies: the labels of known policies and workloads are there and their amounts parse as integers.
- PlacementService.PerformOptimization: formats with regular-expression metacharacters are excluded, and the solver returns some feasible point.
- PlacementTables.BuildProgram: names of variables and constraints, the solver and its status are not modelled; facts are about feasible points and the optimum. The copy of the same program in `opt.py` is not modelled.
- `parseNamespaceFromEndpoint`, `getDirFile` and the collaborator list of the server: plain string handling.
- HTTP, Prometheus, MQTT and OPC-UA clients, informers, command lines, RBAC, template rendering, YAML and JSON parsing, and the machine-learning samples.
- The device add-on, the other add-ons and generated code.
