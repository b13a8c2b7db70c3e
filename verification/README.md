# Verified models of the ARO tools

A Dafny model of the decision-making code of this repository, with proofs of what that code guarantees: the
construction of execution graphs, the combination of topology files, the algebra of layered configuration, the
wrapping of templates in YAML, the canary upgrade of Istio, and the clean-up of scratch folders in Grafana.
`dafny verify dfyconfig.toml` checks everything.

Stateful code is modelled as classes whose methods update fields, loops as loops with invariants, and recursive
computations as functions; every method is tied to a specification that does not mention the method, and the main
results are lemmas about that specification. Requests to Azure, Kubernetes and Grafana are methods that succeed or
fail arbitrarily, where it matters before or after they have taken effect. Iteration over a Go map is the choice of
an arbitrary remaining element.

## What is modelled

**Execution graphs** (`Reachability`, `Ordering`, `GraphTypes`, `Pipelines`, `ServiceTree`, `GraphSpec`,
`ServicePlans`, `PipelineNodes`, `StampResolution`, `BuilderInvariant`, `GraphBuilder`, `CycleDetection`,
`ExecutionGraph`, `DependencyEdges`, `StampedExpansion`, `ServiceOrdering`). `GraphSpec` states which nodes and edges a service tree calls
for without mentioning the builder: edges inside a pipeline, edges from the leaves of a service to the roots of its
children with a compatible stamp, and external edges. The class `Builder` carries the index, the nodes, the steps and
the resource groups of the Go builder and keeps one invariant: the index finds every node, identifiers, steps and
expansions agree, both directions of every edge are recorded, and edges inside a service are exactly its pipeline's.
A built graph has exactly the edges the specification calls for, which `DependencyEdges` spells out in terms of the lists
that the steps carry; a failed build names a reason that is present in the input, and an acyclicity verdict is exact. On top of this stand the theorem that stamped expansion is the lift of the
flat graph, and the ordering guarantee between parent and child services.

**Topologies** (`StampPropagation`, `Grafting`, `TopologyLoading`). Several files are read, their services checked, and
the trees that name an external parent grafted in one pass with look-ahead. Loading succeeds exactly when names are
unique, nothing nested names a parent, every parent is loaded and no tree hangs below itself. The result holds every
service once and does not depend on the order of the files. Inheritance of stamping agrees with validation and can be
carried out before or after grafting.

**Configuration** (`Configuration`, `Provenance`). Merging, lookup and truncation as functions on nested maps, with the
laws that hold and the exact shape where they do not.

**YAML templates** (`Strings`, `Quoting`, `YamlLines`, `YamlWrap`). The line pattern is an explicit matcher, proved to find
the longest prefix of the pattern's language. A text without markers survives wrapping and unwrapping exactly when
each line that is wrapped is tidy and is not taken for a key afterwards.

**Istio upgrades** (`Revisions`, `UpgradeDecision`, `TagWebhook`, `NamespaceLabels`, `WorkloadRestarts`, `HealthChecks`,
`UpgradeRuns`). The class `Operator` records what a run observes and requests. Completing a canary, and removing
a stale one, is only requested after everything that has to precede it was observed in the same run, in every mesh
namespace, failures of a canary before that point roll back, and any sequence of runs keeps the installed revisions legal. Listings of pods and attempts to restart
workloads are recorded by the class `PodApi`, so the passes and checks of a run are tied to requests that were made.

**Scratch folders** (`ScratchFolders`). The collected folders are exactly those below the root; the removed ones are
exactly those with nothing in or below them that stays, each after all folders below it.

## Where the code falls short of its comments

- A step that names itself in `externalDependsOn` is written back with the children its local copy sees
  (`pipelines/graph/graph.go:622-629`). Where appending to the children's array has moved it, the loop is lost on the
  children's side; the cycle search reads only that side, so the loop goes unnoticed. Where the array had room, the copy
  sees the sorted array cut off at its old length: the loop shows, and the last child is lost
  (`GraphTypes.LargestIsLost`). Such a graph is cyclic, so a graph that is built has all its other edges
  (`ExecutionGraph.AcyclicIsExact`). `ExecutionGraph.ChildrenMirrorParents` says exactly when both sides agree,
  `ExecutionGraph.SelfDependencyExample` is an input where they do not.
- Merging three configuration layers is not associative when a map is replaced by a non-map and then by a map that lacks
  some of the first one's keys. `Configuration.MergeAssociates` is the exact condition.
- Truncation forgets empty keys at the front of a path, so a path such as `.a.b` is cut off by the listed path `a`.
  `Configuration.TruncationIsExact` is the exact condition.
- A list item without a key whose content has a colon before any space is wrapped into something that reads as a key, and
  is not restored by unwrapping (`YamlWrap.LineRoundTrip`, `YamlWrap.ColonItemIsNotRestored`).
- Unwrapping slices out of range at a line whose value, once the marker is gone, is a lone quote character; the model
  reports that as an aborted run. `YamlWrap.UnwrapYAML` gives the exact condition, `YamlWrap.OpenQuoteAborts` an input.
  Text that was just wrapped aborts exactly for list items that read as a key up to their very end
  (`YamlWrap.WrappedTextAborts`, `YamlWrap.TabItemAborts`).
- Revision numbers that do not fit an integer are compared as text, and the order is then not transitive: it is so up to a
  bound exactly when the bound fits (`Revisions.TransitiveWhileFitting`, `Revisions.OverflowBreaksTheOrder`).
- A relabelling that fails after its first patch keeps the namespace cache, so the rollback that follows may overlook
  namespaces and still report success. `NamespaceLabels.RelabelBackAfterInterruption` is the exact condition, which
  `UpgradeRuns.Operator.RunCanaryPostInstall` states for its rollback; `NamespaceLabels.StaleCacheHidesTarget` is an input.
- A canary refuses to start moving workloads without a tag while some namespace follows one (`tools/istio-upgrade/pkg/istio/upgrade.go:432-446`).
  The clean-up of a stale canary has no such check: it first relabels all namespaces to the revision it keeps, after which
  the check has nothing left to find (`UpgradeRuns.ConsolidationDropsTag`).
- Two folders under one identifier can make the descent over scratch folders endless. It ends exactly when no folder it
  reaches lies below itself (`ScratchFolders.DescentEnds`); `ScratchFolders.RepeatedIdentifierLoops` is an input where it
  does not.

## Model

| member | source | states |
|---|---|---|
| Pipelines.Validate | pipelines/types/pipeline.go:95-149 | accepts exactly the pipelines with unique groups and steps, named groups with subscriptions, and a step for every dependency and every required input that is listed; every rejection points at a defect that is there |
| Pipelines.JustifiedRefutes | pipelines/types/pipeline.go:98-148 | a defect named by a rejection rules out well-formedness, whichever it is |
| GraphTypes.DeduplicateIsCanonical | pipelines/graph/graph.go:747-767 | deduplicated lists depend only on the set of identifiers, not on the order they were added in |
| ServiceTree.FindInForest | pipelines/topology/types.go:318-343 | lookup finds a service of the forest with that name, and finds none only if there is none |
| PipelineNodes.NodesFor | pipelines/graph/graph.go:635-745 | the nodes of one expansion are its steps; on both sides they have exactly the edges from a step to one that lists it as a dependency or a required input; fails only for two subscription provisionings |
| StampResolution.ResolveIterations | pipelines/graph/graph.go:322-362 | succeeds exactly when a pipeline exists for every stamp needed; one unstamped expansion, or one per set stamp in order |
| GraphBuilder.Builder.RegisterNode | pipelines/graph/graph.go:416-426 | adds the node or merges its edges into the recorded one; the index stays exact |
| GraphBuilder.Builder.RegisterResourceGroup | pipelines/graph/graph.go:430-449 | accepts a group exactly when stamping and metadata agree with the records, and records it without replacing metadata |
| GraphBuilder.Builder.RegisterGroups | pipelines/graph/graph.go:382-386 | whatever the order of the groups, succeeds exactly when each one is acceptable by itself, and keeps earlier records |
| BuilderInvariant.FitsMeansNoClash | pipelines/graph/graph.go:374-393 | checking an expansion against the records is checking it against every expansion recorded before |
| GraphBuilder.Builder.FindLeaves | pipelines/graph/graph.go:453-473 | the leaves are the completion steps without a completion child; fails only if a lookup does |
| GraphBuilder.Builder.HasCompletionChild | pipelines/graph/graph.go:475-486 | whether some direct child counts for completion |
| GraphBuilder.Builder.AccumulateIteration | pipelines/graph/graph.go:366-410 | accepts exactly the expansions that are fit and clash with no recorded one; adds exactly their edges, keeps the invariant and returns exactly their leaves |
| GraphBuilder.Builder.AccumulateService | pipelines/graph/graph.go:281-304 | records a service once with its resolved expansions; a rejection means the name was taken or the service is faulty among the given ones |
| GraphBuilder.Builder.HasIntraServiceParent | pipelines/graph/graph.go:548-555 | whether some parent belongs to the node's own service |
| GraphBuilder.Builder.FindChildRoots | pipelines/graph/graph.go:532-546 | exactly the parentless nodes of the child service with a compatible stamp, in identifier order |
| GraphBuilder.Builder.WireInterServiceEdges | pipelines/graph/graph.go:503-526 | adds on both ends exactly the edges from the parent's leaves to the child's compatible roots; never fails |
| GraphBuilder.Builder.Accumulate | pipelines/graph/graph.go:280-317 | a whole tree adds exactly the edges its pipelines and its topology call for |
| GraphBuilder.Builder.ResolveExternal | pipelines/graph/graph.go:592-621 | finds the node an external dependency names exactly when both groups are known, stamping allows it and the node exists |
| GraphBuilder.Builder.AddExternalDependencyEdges | pipelines/graph/graph.go:581-632 | succeeds exactly when every external dependency can be wired; adds the edges to the parents, and to the children except that a loop is missing or takes the place of at most one other child of the same node |
| GraphTypes.OverwrittenIs | pipelines/graph/graph.go:622-629 | what a node sees of its children once its own identifier was appended to their array in place: all of them, or itself and at most one fewer |
| GraphTypes.LargestIsLost | pipelines/graph/graph.go:622-629 | an identifier before all its children pushes the last of them out |
| ExecutionGraph.ForEntrypoints | pipelines/graph/graph.go:249-276 | a built graph has exactly the specified nodes, steps, validation steps and edges, the subscription that is asked for, and is acyclic; a cyclic one has them up to displaced loops; every failure is explained by the input |
| ExecutionGraph.DanglingRefutes | pipelines/graph/graph.go:600-621 | a dependency that is reported as impossible to wire excludes every graph of the same expansions |
| ExecutionGraph.AcyclicIsExact | pipelines/graph/graph.go:581-632 | an acyclic graph has all its edges: a displaced child always comes with a loop |
| ExecutionGraph.NoSelfDependencyIsExact | pipelines/graph/graph.go:581-632 | without self-dependencies all edges are there even when the graph is cyclic |
| ExecutionGraph.NodesPassLookup | pipelines/graph/graph.go:557-571 | node identifiers are the keys of the steps, and both ends of every edge pass the graph's own lookup |
| ExecutionGraph.ChildrenMirrorParents | pipelines/graph/graph.go:581-632 | children and parents are inverse relations exactly when no step names itself as an external dependency without an inner loop |
| ExecutionGraph.SelfDependencyExample | pipelines/graph/graph.go:622-629 | a one-step graph whose loop shows on the parents' side only |
| ExecutionGraph.BuiltServicesFit | pipelines/graph/graph.go:366-449 | the services of a built graph occur once, are resolved, fit, and pairwise do not clash |
| GraphSpec.IterEdgesAreListed | pipelines/graph/graph.go:680-706 | the edges of an expansion are those its steps list, as dependencies or as required inputs |
| DependencyEdges.ListedComesFirst | pipelines/graph/graph.go:680-706 | whatever a step lists, dependency or required input, is a node of the same expansion in every graph, and its edge to the step is there on both sides |
| DependencyEdges.InnerComesFromLists | pipelines/graph/graph.go:680-706 | an edge within one service that is no external dependency comes from one of the two lists of the step at its end |
| DependencyEdges.ExternalComesFirst | pipelines/graph/graph.go:581-632 | the step an external dependency names is a node, in the same stamp if its group is stamped, and comes before the step that names it |
| DependencyEdges.ParentsAre | pipelines/graph/graph.go:249-276 | the parents recorded in a graph are exactly those listed by steps, those between the final steps of a service and the initial steps of a child in one stamp, and those of external dependencies |
| DependencyEdges.ChildrenAre | pipelines/graph/graph.go:249-276 | the same for the children, except for the loops of external dependencies and what they displace |
| DependencyEdges.RecordedStepIs | pipelines/graph/graph.go:395-399 | the step recorded for a node is that of the last expansion that has the node |
| DependencyEdges.GroupsAgree | pipelines/graph/graph.go:428-449 | in a graph two declarations of one resource group agree on stamping and, within one stamp, on names, subscription and constraints, each constraint up to order and repetition |
| DependencyEdges.ClashMeans | pipelines/graph/graph.go:769-803 | two expansions clash exactly when two declarations of one group disagree in this sense, or both ask for a subscription |
| StampedExpansion.StampedGraphIsLift | pipelines/graph/graph.go:240-247 | the edges of the stamped graph are exactly the pairs of copies, for one common stamp, of the ends of a flat edge, on both sides |
| StampedExpansion.FlatGraphUnstamped | pipelines/graph/graph.go:232-238 | without expansion every node is unstamped |
| StampedExpansion.StampingKeepsAcyclicity | pipelines/graph/graph.go:236-247 | the stamped graph is acyclic exactly when the flat one is |
| ServiceOrdering.ParentBeforeChild | pipelines/graph/graph.go:488-526 | every completion step of a service leads to every step of its child with a compatible stamp |
| ServiceOrdering.AncestorBeforeDescendant | pipelines/graph/graph.go:488-526 | the same for deeper descendants when every service in between has a completion step |
| ServiceOrdering.StampsStayApart | pipelines/graph/graph.go:528-546 | no edge joins two different set stamps |
| CycleDetection.Search.Visit | pipelines/graph/graph.go:820-847 | grey identifiers are the current path, black ones a reverse topological order; an error is true of the graph |
| CycleDetection.DetectCycles | pipelines/graph/graph.go:805-857 | succeeds exactly on closed acyclic graphs, with a reverse topological finish order; a reported cycle is one |
| CycleDetection.TruthfulErrorsRefute | pipelines/graph/graph.go:820-842 | a reported error excludes that the graph is closed and acyclic |
| CycleDetection.FinishedMeansAcyclic | pipelines/graph/graph.go:844-856 | a search that finished every identifier certifies the graph |
| StampPropagation.PropagateAgain | pipelines/topology/types.go:146-160 | propagation is idempotent, and an earlier propagation without a stamped parent changes nothing later |
| StampPropagation.PropagationAgreesWithWalk | pipelines/topology/types.go:153-160 | in a valid tree a service is stamped after propagation exactly when validation considers it stamped |
| StampPropagation.StampingClosedDownwards | pipelines/topology/types.go:153-160 | in a valid propagated tree no child of a stamped service is unstamped |
| StampPropagation.PropagationKeepsVerdict | pipelines/topology/types.go:170-175 | propagation does not change the verdict of validation |
| StampPropagation.Validator.Walk | pipelines/topology/types.go:248-286 | succeeds exactly on valid trees; collects the names seen and those repeated |
| StampPropagation.Validator.Validate | pipelines/topology/types.go:215-238 | accepts exactly the topologies with valid trees, distinct names and known entrypoints |
| StampPropagation.TreeOkMeans | pipelines/topology/types.go:248-318 | a tree is valid exactly when every service has a name of the required form, a purpose and a pipeline, set or from the metadata, and none declares itself unstamped below a stamped one |
| StampPropagation.NothingRepeated | pipelines/topology/types.go:266-269 | the duplicate bookkeeping is empty exactly when names are new and distinct |
| Grafting.GraftConserves | pipelines/topology/types.go:138 | a graft adds the grafted services and one link, loses nothing and keeps the roots |
| Grafting.CombineConserves | pipelines/topology/types.go:119-139 | combining yields every loaded service as often as it was loaded, each waiting tree under its parent |
| Grafting.CombineSucceeds | pipelines/topology/types.go:119-139 | combining succeeds exactly when every external parent is loaded and the links have no cycle |
| Grafting.OrderDoesNotMatter | pipelines/topology/types.go:119-139 | the order of trees changes neither success nor, up to siblings, the result |
| Grafting.PropagateBeforeCombining | pipelines/topology/types.go:119-160 | propagating every file before combining changes neither the outcome nor the propagated result |
| TopologyLoading.ValidateNoNestedParents | pipelines/topology/types.go:198-208 | accepts exactly the trees in which nothing below the root names an external parent |
| TopologyLoading.CombinedTopology.AccumulateDirectories | pipelines/topology/types.go:185-196 | records the directory of every service of a tree, or fails exactly when a name is taken or repeated |
| TopologyLoading.CombinedTopology.ReadFile | pipelines/topology/types.go:96-116 | a file's propagated services are split into grounded and waiting ones; a failure names a defect that is there |
| TopologyLoading.CombinedTopology.PlaceWaiting | pipelines/topology/types.go:119-139 | the loop with look-ahead computes the combination of the forest and the waiting trees |
| TopologyLoading.CombinedTopology.PropagateStamped | pipelines/topology/types.go:147-151 | every root is propagated without a stamped parent |
| TopologyLoading.CombinedTopology.LoadCombined | pipelines/topology/types.go:80-144 | loads exactly the combinable lists of files, and explains every failure |
| TopologyLoading.LoadSucceeds | pipelines/topology/types.go:80-144 | loadable means: nothing nested names a parent, names are unique, parents are loaded, no tree hangs below itself |
| TopologyLoading.LoadConserves | pipelines/topology/types.go:80-144 | the loaded forest holds every service exactly once under the parents it should have |
| TopologyLoading.FileOrderDoesNotMatter | pipelines/topology/types.go:89-139 | the same files in another order load as the same forest up to siblings |
| TopologyLoading.SingleFile | pipelines/topology/types.go:107-115 | a single file loads with its services where they are, whatever external parents they name |
| TopologyLoading.DirectoryIsOfItsFile | pipelines/topology/types.go:177-196 | every service is found in the directory of the file that declares it |
| Configuration.MergeConfiguration | config/types/configuration.go:103-126 | the loop computes the recursive override of two maps; a missing configuration counts as empty |
| Configuration.MergeIdempotent | config/types/configuration.go:103-126 | merging a value with itself changes nothing |
| Configuration.EmptyIsIdentity | config/types/configuration.go:103-126 | the empty configuration is a two-sided identity |
| Configuration.AbsorbedMeansUnchanged | config/types/configuration.go:114-123 | an override wins outright exactly when it has every key of the base, down through common maps |
| Configuration.MergeAssociates | config/types/configuration.go:103-126 | three layers merge associatively exactly when no path is sandwiched between map, non-map and map |
| Configuration.SameKindsAssociate | config/types/configuration.go:103-126 | layers that agree on what is a map merge associatively |
| Configuration.SandwichExample | config/types/configuration.go:103-126 | map, scalar, map: the grouping shows |
| Configuration.LeavesOfMerge | config/types/configuration.go:103-126 | the leaves of a merge are those of the newer layer, and those of the base at keys the newer layer does not have |
| Configuration.GetFollows | config/types/configuration.go:80-98 | a lookup finds exactly what the keys lead to step by step; otherwise a key is missing in a map that the keys before it lead to, or they lead to something that is no map |
| Configuration.GetByPath | config/types/configuration.go:80-98 | the loop finds what the keys of the path lead to; which of the two failures it reports is decided by the first key that is absent or the first value that is no map |
| Configuration.GetOfMerge | config/types/configuration.go:80-126 | looking up in a merge is merging what the layers hold at the path |
| Configuration.TruncateConfiguration | config/types/configuration.go:229-257 | fails exactly for no configuration, no paths or an invalid path; otherwise keys with no listed path on the way lead to the same leaf as before, or to a map where there was one, and no others lead anywhere |
| Configuration.TruncateRecursive | config/types/configuration.go:260-289 | the loop computes the recursive truncation below a path |
| Configuration.TruncateOfMerge | config/types/configuration.go:260-289 | truncating a merge is merging the truncations |
| Configuration.TruncateTwice | config/types/configuration.go:260-289 | truncating by two sets in turn is truncating by their union |
| Configuration.TruncatePrunes | config/types/configuration.go:260-289 | the same of the recursive truncation: nothing unlisted is lost or altered and nothing is added |
| Configuration.GetOfTruncated | config/types/configuration.go:260-289 | a path survives exactly when none of the paths truncation meets on the way is listed, with its value truncated |
| Configuration.LookupAfterTruncation | config/types/configuration.go:260-289 | a path that does not start with a dot is found afterwards exactly when it was before and no prefix of it is listed |
| Configuration.TruncationIsExact | config/types/configuration.go:260-289 | that equivalence holds for all configurations and valid paths exactly when no empty key precedes a real one |
| Provenance.GetConfiguration | config/config.go:285-299 | succeeds exactly when cloud and environment exist, with the fold of their layers |
| Provenance.GetRegionConfiguration | config/config.go:263-282 | the same with the region's layer, which may be absent |
| Provenance.LookupOfFold | config/config.go:263-282 | the value in a fold of layers is the fold of the values the layers set |
| Provenance.ValueProvenance | config/config.go:338-380 | succeeds exactly when cloud and environment exist and no layer holds a non-map on the way; every layer is shown with what the path leads to in it, unset exactly when a key is missing; the result is set exactly when some layer is, and folds the set values in order |
| Quoting.UnquoteOfQuote | tools/yamlwrap/yaml.go:164-227 | reading a quoted string gives the text back, whatever had to be escaped |
| YamlLines.MatchPrefixIsLongest | tools/yamlwrap/yaml.go:42-45 | the matcher finds the longest prefix of the pattern's language, and nothing exactly when there is none |
| YamlLines.PrefixStays | tools/yamlwrap/yaml.go:143-150 | replacing the value keeps the prefix, except that a key at its start extends a bare list item |
| YamlWrap.WrapYAML | tools/yamlwrap/yaml.go:134-185 | every line is replaced by its wrapped form; fails exactly when validation is asked for and the result is no YAML |
| YamlWrap.UnwrapYAML | tools/yamlwrap/yaml.go:187-239 | every line is replaced by its unwrapped form; aborts exactly when some line is marked, has a prefix and its value without the marker is a lone quote |
| YamlWrap.UnwrapLineAborts | tools/yamlwrap/yaml.go:219-229 | a line makes unwrapping abort exactly when its value is a lone quote once the marker is gone |
| YamlWrap.WrappedLineAborts | tools/yamlwrap/yaml.go:134-239 | a marker-free line aborts unwrapping after wrapping exactly when it is hijacked by a colon at its very end |
| YamlWrap.WrappedTextAborts | tools/yamlwrap/yaml.go:134-239 | marker-free text aborts unwrapping after wrapping exactly when it has such a line |
| YamlWrap.OpenQuoteAborts | tools/yamlwrap/yaml.go:219-229 | a marked value without a closing quote aborts |
| YamlWrap.TabItemAborts | tools/yamlwrap/yaml.go:134-239 | a list item that wraps into a line on which unwrapping aborts |
| YamlWrap.UnwrapOfWrapped | tools/yamlwrap/yaml.go:162-235 | a wrapped line that is not taken for a key unwraps to its prefix, trimmed content and comment, so it differs in white space only |
| YamlWrap.LineRoundTrip | tools/yamlwrap/yaml.go:134-239 | a line survives wrapping and unwrapping exactly when it is not wrapped, or is tidy and not taken for a key |
| YamlWrap.RoundTrip | tools/yamlwrap/yaml.go:134-239 | a marker-free text survives exactly when all its lines do |
| YamlWrap.WrapTwice | tools/yamlwrap/yaml.go:138-141 | wrapping wrapped text changes nothing |
| YamlWrap.ColonItemIsNotRestored | tools/yamlwrap/yaml.go:42-45 | a list item that starts with a colon is wrapped but not restored |
| Revisions.CompareRevisions | tools/istio-upgrade/pkg/istio/decide.go:197-233 | the loop computes the comparison of segments, numeric where both are numbers |
| Revisions.OrderIsNumeric | tools/istio-upgrade/pkg/istio/decide.go:193-233 | on revisions whose numbers fit, the comparison is the numeric order of major and minor |
| Revisions.OrderIsTotalPreorder | tools/istio-upgrade/pkg/istio/decide.go:193-233 | that order is total, transitive, and ties exactly on equal numbers |
| Revisions.OverflowBreaksTheOrder | tools/istio-upgrade/pkg/istio/decide.go:209-229 | three revisions with numbers up to the first that does not fit compare in a circle |
| Revisions.TransitiveWhileFitting | tools/istio-upgrade/pkg/istio/decide.go:197-233 | the comparison is transitive on all revisions with numbers up to a bound exactly when the bound fits an integer |
| Revisions.BestIsFirst | tools/istio-upgrade/pkg/istio/upgrade.go:406 | on revisions whose numbers fit, the one kept by the scan is the first of the best |
| Revisions.Extreme | tools/istio-upgrade/pkg/istio/upgrade.go:406 | the first maximum (or minimum) of a non-empty list: no listed revision is better, and no earlier one ties |
| Revisions.PickRevision | tools/istio-upgrade/pkg/istio/upgrade.go:396-417 | the newest or oldest of the other revisions, empty exactly when there is none |
| UpgradeDecision.Classify | tools/istio-upgrade/pkg/istio/decide.go:65-130 | the scenario describes the cluster, whatever its revisions |
| UpgradeDecision.ScenariosExclude | tools/istio-upgrade/pkg/istio/decide.go:47-130 | two descriptions of one cluster are the same scenario |
| UpgradeDecision.Decide | tools/istio-upgrade/pkg/istio/decide.go:132-191 | for each action the exact condition on provisioning, progress, installed and available revisions under which it is taken; the action is the one its scenario calls for |
| UpgradeDecision.ReconcileTarget | tools/istio-upgrade/pkg/istio/upgrade.go:154-163 | the newest installed revision exactly when it is above the target |
| UpgradeDecision.AboveTargetIs | tools/istio-upgrade/pkg/istio/decide.go:112-115 | looking at the newest revision finds any that is above the target, when the revisions compare consistently |
| UpgradeDecision.ActionsAreSound | tools/istio-upgrade/pkg/istio/upgrade.go:148-195 | a highest revision is only asked of a non-empty list; a canary starts from one other revision not above the target |
| TagWebhook.WebhookApi.CaBundle | tools/istio-upgrade/pkg/istio/webhooks.go:60-71 | the bundle of the revision's own webhook; a refusal means there is none |
| TagWebhook.RetargetEntries | tools/istio-upgrade/pkg/istio/webhooks.go:77-104 | fails exactly for an entry without a service; otherwise every entry leads to the revision and the flag says whether any differed |
| TagWebhook.WebhookApi.EnsureRevisionTag | tools/istio-upgrade/pkg/istio/webhooks.go:39-131 | success passes the tag verification and leaves the desired webhook (with an empty tag, possibly without its labels): every entry has the service, namespace, path and port of the revision and the bundle of its own webhook; failure leaves the old or the desired one |
| TagWebhook.LastFlipWins | tools/istio-upgrade/pkg/istio/webhooks.go:77-130 | flipping again overrides, flipping back restores |
| TagWebhook.RetargetedIsVerified | tools/istio-upgrade/pkg/istio/health.go:130-149 | a flipped or new tag webhook passes the verification of its revision |
| NamespaceLabels.KubeClient.GetMeshNamespaces | tools/istio-upgrade/pkg/istio/kubeclient.go:51-82 | shows the cache or a fresh listing and keeps the cache coherent |
| NamespaceLabels.KubeClient.InvalidateNamespaceCache | tools/istio-upgrade/pkg/istio/kubeclient.go:84-89 | leaves a coherent, empty cache |
| NamespaceLabels.KubeClient.UpdateMeshNamespaceLabels | tools/istio-upgrade/pkg/istio/workloads.go:46-70 | success patches and counts every listed namespace shown with another label and drops the cache, so from a coherent cache all are relabelled; an interrupted one keeps the cache |
| NamespaceLabels.RelabelReachesAll | tools/istio-upgrade/pkg/istio/workloads.go:57-67 | a complete relabelling reaches every namespace exactly when its listing overlooks none |
| NamespaceLabels.RelabelBackAfterInterruption | tools/istio-upgrade/pkg/istio/workloads.go:57-69 | relabelling back from a stale cache reaches all exactly when no namespace it shows on the old revision had been moved |
| NamespaceLabels.StaleCacheHidesTarget | tools/istio-upgrade/pkg/istio/workloads.go:62-68 | a failing second patch, and the relabelling back that then patches nothing |
| WorkloadRestarts.BuildReplicaSetOwnerMap | tools/istio-upgrade/pkg/istio/workloads.go:337-349 | maps exactly the replica sets controlled by a deployment to it, the last one of a name |
| WorkloadRestarts.IdentifyStaleWorkloads | tools/istio-upgrade/pkg/istio/workloads.go:294-335 | the collected workloads are exactly those behind pods with another revision: by the kind of the first controlling owner, or the pod itself |
| WorkloadRestarts.ExecuteRestart | tools/istio-upgrade/pkg/istio/workloads.go:351-402 | makes exactly the requests of a pass: lists, then acts on what replaces every stale pod by its owners and those of the listed sets, and on nothing else, and reports what succeeded and what failed |
| WorkloadRestarts.PassReplacesStale | tools/istio-upgrade/pkg/istio/workloads.go:294-402 | for every stale pod shown, the stateful or daemon set that controls it is restarted, or the deployment that controls the last listed set of its replica set's name, or else the pod is deleted; every request comes from such a pod |
| WorkloadRestarts.ReplacementIsUnique | tools/istio-upgrade/pkg/istio/workloads.go:294-349 | owners and listed sets determine what replaces a pod |
| WorkloadRestarts.ExecuteRestartAll | tools/istio-upgrade/pkg/istio/workloads.go:222-269 | makes one pass over every namespace, reports them in order, and fails exactly when one could not observe its namespace or act on a workload |
| WorkloadRestarts.ErrorFreePassCoversAll | tools/istio-upgrade/pkg/istio/workloads.go:222-269 | passes without an error saw their namespaces and restarted, with success, what replaces every stale pod they saw, and nothing else |
| UpgradeRuns.SeenOrphansAreActedOn | tools/istio-upgrade/pkg/istio/upgrade.go:561-586 | an orphan that a check of the guard found and the pass after it still sees has what replaces it acted on; with success when the guard goes on |
| HealthChecks.HealthCheck | tools/istio-upgrade/pkg/istio/health.go:49-100 | passes exactly when both namespaces exist and all control planes and gateways are healthy, and names the unhealthy part |
| HealthChecks.CheckOrphanedWorkloads | tools/istio-upgrade/pkg/istio/health.go:166-195 | lists every mesh namespace and reports exactly the pods with a sidecar of a retiring revision; lists nothing when none retires |
| HealthChecks.VerifyUpgrade | tools/istio-upgrade/pkg/istio/health.go:102-164 | passes exactly when configuration, labels, tag and sidecars are all of the revision |
| UpgradeRuns.Operator.EnableMesh | tools/istio-upgrade/pkg/istio/aks.go:175-193 | replaces the list of revisions, or fails before or after doing so |
| UpgradeRuns.Operator.StartCanaryUpgrade | tools/istio-upgrade/pkg/istio/aks.go:195-211 | appends a revision that is not installed yet, or fails before or after doing so |
| UpgradeRuns.Operator.CompleteCanaryUpgrade | tools/istio-upgrade/pkg/istio/aks.go:213-222 | keeps one revision, or fails before or after doing so |
| UpgradeRuns.Operator.RestartAllNamespaces | tools/istio-upgrade/pkg/istio/workloads.go:222-269 | the requests made are those of one pass over each listed namespace, and success means none of them failed |
| UpgradeRuns.Operator.CheckOrphans | tools/istio-upgrade/pkg/istio/health.go:166-195 | the requests made list every listed namespace; finding nothing means no pod shown there runs a retiring sidecar |
| UpgradeRuns.Operator.VerifyRun | tools/istio-upgrade/pkg/istio/health.go:102-164 | success means the config map exists, the tag leads to the revision, every listed namespace is labelled for it and every pod shown in one runs it |
| UpgradeRuns.Operator.VerifyControlPlaneAndTag | tools/istio-upgrade/pkg/istio/upgrade.go:622-647 | success means all observed control planes were ready, the target's among them, and the tag leads to the target |
| UpgradeRuns.Operator.EnsureIngress | tools/istio-upgrade/pkg/istio/upgrade.go:526-539 | nothing to do without ingress settings, an error for half of them; success leaves a gateway that has a load balancer pinned to them |
| UpgradeRuns.Operator.HasTagBasedNamespaces | tools/istio-upgrade/pkg/istio/upgrade.go:545-556 | whether some listed label is neither the target nor a revision; with a coherent cache, whether some label of the cluster is |
| UpgradeRuns.Operator.MigrateWorkloads | tools/istio-upgrade/pkg/istio/workloads.go:188-218 | success means routed, then restarted without an error in every listed namespace, then rolled out, with exactly the labels the listing leads to |
| UpgradeRuns.Operator.RetireOrphanedWorkloads | tools/istio-upgrade/pkg/istio/upgrade.go:561-620 | at most the allowed restarts and one more check; every check looks into all listed namespaces and, unless it is the last, is followed by a pass over all of them; the strict guard succeeds only on an empty last check, the lenient one also when the retries are used up |
| UpgradeRuns.Operator.Rollback | tools/istio-upgrade/pkg/istio/upgrade.go:380-394 | attempted exactly when a previous revision other than the target exists, to the newest one; success leaves tag or labels as the listing leads to |
| UpgradeRuns.Operator.PrepareCanary | tools/istio-upgrade/pkg/istio/upgrade.go:428-488 | success means every precondition was observed in order, in all listed namespaces, the config map exists and the gateway is pinned; later failures roll back, earlier ones do nothing; without a tag nothing at all is moved when some namespace follows one, and only then |
| UpgradeRuns.Operator.RunCanaryPostInstall | tools/istio-upgrade/pkg/istio/upgrade.go:428-524 | completion is requested only after its preconditions held in every mesh namespace, nothing is rolled back afterwards, and only completion changes the revisions; success means the final verification passed; without a tag it fails with labels, tag and revisions untouched when some namespace follows one; when labels were left half changed, the rollback reaches all exactly under the stated condition |
| UpgradeRuns.Operator.RunCanaryUpgrade | tools/istio-upgrade/pkg/istio/upgrade.go:266-282 | legal requests and safe completion only; success leaves just the target, or both revisions when stopped after the start; without a tag nothing but the start is requested when some namespace follows one |
| UpgradeRuns.Operator.RunCleanupAndUpgrade | tools/istio-upgrade/pkg/istio/upgrade.go:291-374 | keeps the older revision, removes the newer, then upgrades; each completion follows ready control planes, the move, a healthy mesh and the orphan guard for the revision it keeps, in every mesh namespace; fails for lack of an old revision exactly when both are the same |
| UpgradeRuns.Operator.Consolidate | tools/istio-upgrade/pkg/istio/upgrade.go:306-346 | success means the config map of the revision to keep, ready control planes, the move of every listed namespace to it, a healthy mesh and an orphan guard that ended empty or used up its retries, in this order |
| UpgradeRuns.Operator.RemoveStale | tools/istio-upgrade/pkg/istio/upgrade.go:301-369 | the newer revision is only removed after all of that, in every mesh namespace; success means the verification for the kept revision passed |
| UpgradeRuns.Operator.RunInitialInstall | tools/istio-upgrade/pkg/istio/upgrade.go:221-264 | leaves the target installed unless enabling failed; success means its config map exists, the control planes were ready, the tag leads to the target, the gateway is pinned and the mesh was healthy |
| UpgradeRuns.Operator.RunReconcile | tools/istio-upgrade/pkg/istio/upgrade.go:198-219 | sends nothing to ARM and reconciles exactly when the target is installed; then the tag is flipped to it or the flip fails |
| UpgradeRuns.Operator.RunUpgrade | tools/istio-upgrade/pkg/istio/upgrade.go:92-196 | never more than two revisions, never none after some, legal requests, safe completion of whichever revision; a successful upgrade or installation leaves just the target, tag or labels lead to it, and an upgrade has passed its verification; without a tag a resumed or new canary touches nothing when some namespace follows one |
| UpgradeRuns.Operator.RunRepeatedly | tools/istio-upgrade/pkg/istio/upgrade.go:92-196 | the same over any sequence of runs |
| UpgradeRuns.PostInstallIsLegal | tools/istio-upgrade/pkg/istio/upgrade.go:428-524 | whatever fails, a post-install sequence sends only legal requests and completes the target only when prepared in every mesh namespace |
| UpgradeRuns.ConsolidationDropsTag | tools/istio-upgrade/pkg/istio/workloads.go:188-199 | relabelling to the revision to keep leaves no sign of a tag, so the check that follows passes |
| UpgradeRuns.TwoRevisions | tools/istio-upgrade/pkg/istio/upgrade.go:292-298 | of two revisions the newest goes and the oldest stays, which is not above the target |
| UpgradeRuns.ReconcileFindsTarget | tools/istio-upgrade/pkg/istio/upgrade.go:198-206 | the revision to reconcile is always installed, so the early return is not reached from a run |
| UpgradeRuns.SettledRunIsAtTarget | tools/istio-upgrade/pkg/istio/decide.go:82-97 | a cluster with just the target classifies as being there |
| ScratchFolders.CollectScratchFolderUIDs | tools/grafanactl/internal/grafana/scratch.go:88-104 | the fixpoint loop ends with exactly the root and everything below it |
| ScratchFolders.CollectedIsTree | tools/grafanactl/internal/grafana/scratch.go:164-172 | with unique identifiers the collected folders form a tree below the root |
| ScratchFolders.ExpireDashboards | tools/grafanactl/internal/grafana/scratch.go:125-154 | exactly the readable, old enough, deletable dashboards of the collected folders expire |
| ScratchFolders.BuildChildren | tools/grafanactl/internal/grafana/scratch.go:165-172 | the table lists exactly the collected folders other than the root under their parents, in order, repeated ones included |
| ScratchFolders.CountSurvivors | tools/grafanactl/internal/grafana/scratch.go:174-179 | a folder counts more than nothing exactly when it holds a surviving dashboard |
| ScratchFolders.DeleteEmptyRecursive | tools/grafanactl/internal/grafana/scratch.go:190-215 | ends, deletes exactly the clean folders in and below a folder, leaves first, and says whether the folder itself is gone |
| ScratchFolders.DeleteEmptySubfolders | tools/grafanactl/internal/grafana/scratch.go:164-185 | deletes exactly the clean folders below the root, never the root |
| ScratchFolders.SyncScratchFolder | tools/grafanactl/internal/grafana/scratch.go:106-159 | a folder goes exactly when nothing in or below it holds a surviving dashboard or refuses deletion; only old dashboards below the root expire, all of them that can be deleted, and no other is lost with its folder; a dry run changes nothing |
| ScratchFolders.DescentEnds | tools/grafanactl/internal/grafana/scratch.go:190-198 | the descent from a folder ends exactly when no folder it reaches lies below itself |
| ScratchFolders.UniqueFoldersEnd | tools/grafanactl/internal/grafana/scratch.go:164-198 | with unique identifiers every descent ends |
| ScratchFolders.RepeatedIdentifierLoops | tools/grafanactl/internal/grafana/scratch.go:190-198 | two folders with one identifier, from which the descent does not end |

## Left out

- ParentBeforeChild: speaks of graphs in which all pipelines of a service declare the same groups and steps, as the repository's ordering guarantee does.
- StampedGraphIsLift: takes the success of both builds, and the same structure in every stamp, as hypotheses.
- AccumulateService: a rejection is explained by candidates of the given services; which stamp's pipeline an unstamped service takes is left open, as it is in the iteration over a Go map.
- AddExternalDependencyEdges: when a step names itself, its children are taken to be listed without repeats; whether their array has room is left open.
- NodesFor: sorts and compacts a copy of a step's dependencies; the Go code may sort and compact a slice that pipelines share across stamps, which shows only for repeated dependencies.
- DeleteEmptySubfolders: takes unique folder identifiers, as Grafana keeps them; with repeated ones a folder may be visited twice, and only the end of the descent is characterised.
- SyncScratchFolder: takes unique folder identifiers; finding or creating the folder and setting its permissions come before the modelled part.
- RunRepeatedly: one operator at a time, each run with a fresh client.
- UnquoteOfQuote: strings are sequences of Unicode scalar values; escapes for lone bytes above 0x7f stand for the character of that number.
- The owners of resource groups and all message texts; errors are kinds with the names involved.
- Single-pipeline entry points of the graph package, DOT output and colours.
- The bodies that compute required inputs of the various step types: a step is a name, dependency lists and a completion flag.
- Parsing of YAML and JSON, file access, and paths relative to files.
- Concurrency inside one run: namespaces are restarted one after the other, and the lock around the namespace cache is not modelled.
- Time: timeouts, polling and rollout waiting are requests that succeed or fail; creation times are numbers.
- The contents of config maps, and the effect of ingress annotations and restarts on the cluster; later observations of pods are arbitrary.
- How a sidecar's revision is read from a pod's annotation or image.
- Schema, CEL and template validation, semantic versions, and the wrappers around other services.
