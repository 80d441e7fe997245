# Spectrum-X operator: verified model of the node agent

The operator runs one agent per node. All agents share one Kubernetes object, the
`SpectrumXRailPoolConfig`, and each drives the Open vSwitch state of its own node. This project
models the agent's state-changing core and proves what it keeps.

| files | what they model |
|---|---|
| `NodeStates`, `StatusPatch`, `StatusProtocol` | the status protocol: many agents patch one status by read, compute, compare-and-swap, while the spec and the node labels change and reads may be stale |
| `ExternalIds`, `FlowTables`, `PodFlows`, `PodFlowRuns`, `PodAgent`, `PodFlowSteps` | pod flows and the bridge tags that index them: pod reconcile, pod deletion, stale cleanup, with any command able to fail; pass by pass and, in `PodFlowSteps`, command by command under any interleaving |
| `Multiplane`, `Forwarding`, `Provisioning` | the OpenFlow tables and groups, their lookup semantics (sections 5.3, 5.6.1 and 6.4 of the OpenFlow Switch Specification 1.3), the forwarding function they implement, and what adds and cleans leave of it |
| `XPlane`, `SafeStart` | `br-xplane`, the rail bridges and their ports, and the hook that strips DOCA uplinks before Open vSwitch starts |
| `Reconciler`, `CallLog`, `StatusReports`, `Errors`, `CallResults`, `ReconcilerProofs`, `Convergence`, `CleanRuns`, `Orphans`, `Host`, `SharedDeletion` | the reconcile pass of one agent: what it reports and which failures it tolerates, owned policies, finalizer, bridges, timeouts, fixed point, and what is never found again; and the deletion of the object while several agents' calls interleave |
| `VfStateFollower` | mirroring of PF carrier to VF representors |
| `Basics` | options, call outcomes, label selectors |

Two conventions run through all parts.

- **Calls and failures.** Every command or API call has an outcome given by an oracle indexed by
  the number of calls so far, so a statement for all oracles covers every pattern of failures. A
  call that failed or timed out may still have taken effect.
- **Methods and functions.** What the agent does step by step is a method with loops that changes
  fields. Its postcondition ties the new state to a function of the old one, and the results for
  whole runs are lemmas about that function.

The status protocol is a step system in which a run is any sequence of enabled steps: agents begin,
read any version ever stored, commit under the resourceVersion lock, are rejected, skip or give up;
users edit the spec; nodes are relabelled; metadata changes. JSON merge patches replace arrays whole
(section 2 of RFC 7396), which `StatusPatch.UnlockedMergeLosesUpdate` shows to be unsafe without the
lock.

Where the code and its comments differ, the model follows the code: the comment at
internal/controller/spectrumxrailpoolconfig_host_flows_controller.go:701 says that `br-xplane` is
deleted only with the last rail, but the function always deletes it. `Convergence.OnePassSufficesIff`
states exactly when that leaves the remaining rails unconfigured after a pass, and
`Convergence.TwoPassesReachFixedPoint` that the next pass repairs it.

Other places where the obvious claim is false, each with its exact condition:

- the two table-1 rules for strict=1 and preferred=0 overlap at equal priority
  (`Forwarding.TablesForward` gives the class of packets, both ways);
- the stale cleanup's line scan takes other values for the tag (`ExternalIds.ScanIsExactIff`), and so
  removes their keys and flows of their cookies (`PodFlowRuns.StaleCleanupSweeps`,
  `PodFlowRuns.FlowSurvivesIff`);
- flows can lose their tag when a clean falls between the tag check and the flows, or when a bridge
  is deleted and re-created there (`PodFlowRuns.TagDecides`; over interleaved commands
  `PodFlowSteps.InterleavedFlowsStayTagged` with its two conditions, which
  `PodFlowSteps.CollisionLosesTag` and `PodFlowSteps.RecreateLosesTag` show to be sharp);
- cleaning a pod unroutes an earlier pod that shares its address (`Provisioning.RoutedIff`);
- plane ids of two rails can meet (`XPlane.PlaneIdsMeetIff`);
- a removed rail with mixed labels may lose its policies without its bridges
  (`ReconcilerProofs.FirstListedDecides`);
- a network can be orphaned (`Orphans.NetworkOrphanedIff`, reached in `Orphans.NetworkGetsOrphaned`), and so can the second policy of a rail
  that shrinks to one PF (`Orphans.UnusedAfterPassIff`);
- policies can outlive the finalizer when agents overlap (`SharedDeletion.PolicyOutlivesIff`);
- an error before the node was read is not recorded (`StatusReports.ResultMatchesStatus`).

Hypotheses that appear in several results: rail names are not empty, distinct, and none is another
one's name followed by `-unused`; no PF serves two rails; a policy listing returns every policy;
`list-br` prints each bridge once and names hold no newline; plane ids read from PFs are distinct and
not 100. `ns.IPs[0]` needs a non-empty list, so pod reconciles assume one address per relevant
network. Cookies are an arbitrary function of the pod id; where a collision matters, the result says
what happens to flows that share a cookie.

## Model

| member | source | states |
|---|---|---|
| NodeStates.FirstIndex | pkg/state/state.go:25-32 | the first entry of a node: nothing before it has the name, and the end of the list means absent |
| NodeStates.UpsertFrame | internal/controller/spectrumxrailpoolconfig_host_flows_controller.go:878-889 | writing one node's entry sets exactly that entry; every other node keeps its own, whatever the list order |
| NodeStates.UpsertUnique | internal/controller/spectrumxrailpoolconfig_host_flows_controller.go:878-889 | overwriting or appending keeps one entry per node |
| NodeStates.FirstMatchIsLastWins | internal/controller/spectrumxrailpoolconfig_host_flows_controller.go:915-922 | with one entry per node, first-match lookup and the last-wins map of the aggregation agree |
| NodeStates.LookupsAgreeIff | internal/controller/spectrumxrailpoolconfig_host_flows_controller.go:915-922 | in any list, lookup gives a node its first entry and the map its last, so they agree on it if and only if these two are equal |
| NodeStates.AggregateIsDeclared | internal/controller/spectrumxrailpoolconfig_host_flows_controller.go:907-942 | the scan equals the aggregate declared over the bare sets of listed nodes and entries: order and repetition do not matter |
| NodeStates.AggregateSyncStatus | internal/controller/spectrumxrailpoolconfig_host_flows_controller.go:907-942 | the map-filling and early-exit loops compute the aggregate: Failed iff some listed node currently reports Failed, Succeeded iff the list is not empty and all report Succeeded, else InProgress |
| StatusPatch.SkipIffUnchanged | internal/controller/spectrumxrailpoolconfig_host_flows_controller.go:866-896 | for one node list, the skip branch is taken exactly when the write path would leave the status as it is |
| StatusPatch.MergeIntoBase | internal/controller/spectrumxrailpoolconfig_host_flows_controller.go:898-903 | a merge patch applied to the snapshot it was computed from gives the intended status |
| StatusPatch.UnlockedMergeLosesUpdate | internal/controller/spectrumxrailpoolconfig_host_flows_controller.go:898-903 | without the resourceVersion lock, a merge patch would undo any other node's concurrent entry, because arrays are replaced whole |
| StatusPatch.GetNodeState | pkg/state/state.go:25-32 | the index loop returns the position of the first match, the alias the caller writes through, and nothing iff no entry has the name |
| StatusPatch.StatusObject.constructor | internal/controller/spectrumxrailpoolconfig_host_flows_controller.go:860-860 | DeepCopy: same contents in freshly allocated storage |
| StatusPatch.StatusObject.Append | internal/controller/spectrumxrailpoolconfig_host_flows_controller.go:883-888 | append one entry at the end; the old array is left as it was |
| StatusPatch.Attempt | internal/controller/spectrumxrailpoolconfig_host_flows_controller.go:843-905 | one attempt: conflict iff the generation moved, skip iff nothing would change, otherwise the in-place edit through the alias yields the updated status; after a write or a skip this node's entry holds exactly the requested state, message and generation; the snapshot that is the patch base is never altered |
| StatusProtocol.MaxGeneration | internal/controller/spectrumxrailpoolconfig_host_flows_controller.go:845-896 | the greatest generation among the entries, attained, 0 when there are none |
| StatusProtocol.CommitStores | internal/controller/spectrumxrailpoolconfig_host_flows_controller.go:843-905 | under the lock a commit stores the updated status of the object it read, for that object's generation and only for the agent's own node |
| StatusProtocol.InvStep | internal/controller/spectrumxrailpoolconfig_host_flows_controller.go:843-905 | every step of every agent, spec edit, relabelling or metadata change keeps the invariant |
| StatusProtocol.ReachableStatus | internal/controller/spectrumxrailpoolconfig_host_flows_controller.go:845-942 | in every reachable state: one entry per node, lookup and aggregation map agree, ObservedGeneration is the maximum of the entries' and at most the object's generation |
| StatusProtocol.OnlyOwnerChangesEntry | internal/controller/spectrumxrailpoolconfig_host_flows_controller.go:843-905 | in any run, a step that changes a node's entry is a commit of that node's own agent |
| StatusProtocol.NoLostUpdate | internal/controller/spectrumxrailpoolconfig_host_flows_controller.go:843-905 | in any run with stale reads and any interleaving, a committed entry stays exactly as written until the same node's agent commits again |
| StatusProtocol.CommitRecordsRequest | internal/controller/spectrumxrailpoolconfig_host_flows_controller.go:843-905 | and what it holds until then is the state and message the agent asked for when it last began to patch, under its own name, for the generation of the version it had read then |
| StatusProtocol.SelectorIsSubset | internal/controller/spectrumxrailpoolconfig_host_flows_controller.go:221-227 | a selector matches a node iff its labels are a subset of the node's |
| StatusProtocol.GenerationsNeverRegress | internal/controller/spectrumxrailpoolconfig_host_flows_controller.go:845-858 | generation, ObservedGeneration and every entry's ObservedGeneration never decrease along a run |
| StatusProtocol.StaleReconcileNeverCommits | internal/controller/spectrumxrailpoolconfig_host_flows_controller.go:845-858 | once the generation has moved past a reconcile, none of its remaining retries can commit |
| StatusProtocol.CommitAggregates | internal/controller/spectrumxrailpoolconfig_host_flows_controller.go:891-942 | after every commit SyncStatus is the declared aggregate of what is now stored over the node list that was read |
| StatusProtocol.StatusTracksPool | internal/controller/spectrumxrailpoolconfig_host_flows_controller.go:891-942 | with a stable pool, from the first commit on the status equals the declared aggregate over the pool in every later state |
| StatusProtocol.StablePoolStatusIff | internal/controller/spectrumxrailpoolconfig_host_flows_controller.go:891-942 | with a stable pool and any commit since, whatever the interleaving: Succeeded iff the pool is not empty and every node's entry, however old its commit, currently reports Succeeded; Failed iff some node's entry currently reports Failed; else InProgress |
| StatusProtocol.LastCommitSucceeds | internal/controller/spectrumxrailpoolconfig_host_flows_controller.go:891-942 | when all other nodes of a stable pool already report Succeeded, the last node's commit of Succeeded makes the status Succeeded |
| ExternalIds.RemoveGet | internal/controller/flows.go:246-250 | removing a key removes exactly its pairs; every other key reads as before |
| ExternalIds.PutGet | internal/controller/flows.go:254-261 | a key reads back what was put last; other keys read as before |
| ExternalIds.SplitJoin | internal/controller/flows.go:213-220 | splitting printed names gives the names back, except that an empty listing comes back as one empty name |
| ExternalIds.ScanFinds | internal/controller/flows.go:291-310 | the line scan of the printed ids finds exactly the keys whose value starts with the tag or contains "=" and the tag |
| ExternalIds.ScanIsExactIff | internal/controller/flows.go:291-310 | the scan agrees with the exact test of pod deletion if and only if no other value looks like the tag |
| ExternalIds.MistakenTag | internal/controller/flows.go:293-297 | every other value that starts with the tag, or contains "=" and the tag, makes its key a scanned pod that the exact test does not know |
| ExternalIds.RailPodsAreTagged | internal/controller/flows.go:230-230 | the pods the exact test accepts are those whose key carries the tag value |
| ExternalIds.ScanExternalIds | internal/controller/flows.go:291-310 | the parsing loop returns the scanned keys in printed order |
| FlowTables.InstallAt | internal/controller/flows.go:162-183 | a series of add-flow commands determines every key: the last rule for a key wins, other keys keep their flow |
| FlowTables.LatestWriterHolds | internal/controller/flows.go:162-252 | after any sequence of pod adds and cleans, a key is present iff its latest writer was not cleaned since, and then it holds that writer's flow |
| FlowTables.ReuseSurvivesCleanup | internal/controller/flows.go:162-252 | with distinct cookies, cleaning other pods never removes or alters the flows of the pod that now owns an address or VF |
| PodAgent.CollectStale | internal/controller/flows.go:299-306 | the scanned pods outside the live set, in order |
| PodAgent.Ovs.AddPodRailFlows | internal/controller/flows.go:162-183 | the three add-flow commands in order, stopped at the first failure: on success exactly the three rules are installed on that bridge, and on a tagged bridge the tag invariant is kept, whatever fails |
| PodAgent.Ovs.HandlePodFlows | internal/controller/flow_controller.go:106-148 | per interface: two lookups, the tag check, then the flows; errors accumulate and the loop goes on; the tag invariant is kept, and without an error every bridge is in its reconciled form |
| PodFlowRuns.RelevantAre | internal/controller/flow_controller.go:88-95 | the attachments handled are those of exactly the pci networks of the annotation, in its order |
| PodFlowRuns.AnnotationInstalled | internal/controller/flow_controller.go:65-148 | an error-free reconcile gives every bridge with the pod's tag, for each pci network on it, the flows that send its first address to its representor and traffic of its representor on, and changes nothing else anywhere |
| PodAgent.Ovs.ReconcilePodFlows | internal/controller/flow_controller.go:65-104 | a deleting pod is gone from every bridge without a failed command, with errors swallowed; without a readable annotation nothing happens; otherwise, without an error, every tagged bridge has what the pci networks of the annotation ask for and nothing else changed; the tag invariant is kept |
| PodAgent.Ovs.CleanBridgeFlows | internal/controller/flows.go:240-252 | whatever fails, every pod flow stays on a tagged bridge, only this bridge, this tag and flows of this cookie can go, and nil means that the tag and all those flows are gone |
| PodAgent.Ovs.DeletePod | internal/controller/flows.go:213-238 | every listed bridge is asked for the tag and cleaned when it has it; the invariant is kept, nothing of other cookies goes, and a bridge without an error keeps nothing of the pod |
| PodAgent.Ovs.CleanupBridge | internal/controller/flows.go:275-323 | one bridge of the stale cleanup (read, scan, collect, clean each) ends up cleaned of exactly the keys taken for stale |
| PodAgent.Ovs.Cleanup | internal/staleflows/stalecleanup.go:67-88 | an empty pod list does nothing; otherwise every bridge with printable ids is cleaned of the keys outside the live set, completely unless it reported an error |
| PodFlowRuns.CleanBridgeKeeps | internal/controller/flows.go:240-252 | with any failures, cleaning keeps every pod flow on a tagged bridge, touches only that bridge, that tag and flows of that cookie, and on success leaves no such tag |
| PodFlowRuns.FlowsSitOnTaggedBridges | internal/controller/flows.go:213-326 | in every run from an empty switch, in any order and with any failed commands, each flow written for a pod carries its cookie and sits on a bridge that still carries its tag |
| PodFlowRuns.TagDecides | internal/controller/flows.go:254-261 | whatever happened since the check, completed pod flows leave the bridge in order if and only if the tag is there when they are written |
| PodFlowRuns.OverlapLosesTag | internal/controller/flows.go:240-261 | its instance: a check that passes, a clean of the bridge, then the flows, end in flows without a tag |
| PodFlowRuns.AddRulesInstalls | internal/controller/flows.go:162-183 | a series without a failed command installs exactly its rules and changes no other bridge |
| PodFlowRuns.PodReconcileInstalls | internal/controller/flow_controller.go:106-148 | an error-free pod reconcile installs the pod's rules on every bridge that carries its tag and leaves every other bridge, group and tag as it was |
| PodFlowRuns.PodDeletionSweeps | internal/controller/flows.go:213-238 | pod deletion does not touch a bridge without the pod's tag; elsewhere it removes only that tag and flows of its cookie, and a bridge without a failed command keeps neither |
| PodFlowRuns.StaleCleanupSweeps | internal/controller/flows.go:263-326 | per bridge with printable ids: what goes are exactly the keys that look like the tag and are not live, with the flows of their cookies; without an error all of it goes and no tag or flow of a pod outside the live set remains; where no other value looks like the tag, nothing but stale state goes |
| PodFlowRuns.FlowSurvivesIff | internal/controller/flows.go:263-326 | a flow is never altered, and on a bridge without an error it survives if and only if its cookie is that of no key taken for stale; with errors, it survives if that holds |
| PodFlowRuns.CleanupErrorFree | internal/controller/flows.go:263-326 | when no command fails the only error possible is for the empty name of an empty listing |
| PodFlowRuns.DeletionErrorFree | internal/controller/flows.go:213-238 | the same for the deletion of a pod |
| PodFlowRuns.ReconcileErrorFree | internal/controller/flow_controller.go:106-148 | when no command fails a pod reconcile reports exactly the interfaces on missing bridges |
| PodFlowRuns.AddRulesStops | internal/controller/flows.go:162-183 | a series of add-flow commands goes on exactly until the first one that fails |
| PodFlowRuns.EveryStalePodIsTried | internal/controller/flows.go:316-322 | a failed clean does not keep the other stale pods of the bridge from being tried |
| PodFlowRuns.EveryInterfaceIsTried | internal/controller/flow_controller.go:113-147 | a failed interface does not keep the others from being tried, and only names of interfaces are reported |
| PodFlowSteps.InterleavedFlowsStayTagged | internal/controller/flows.go:213-326 | under any interleaving of the single commands of pod workers, cleaner, CNI, host and Open vSwitch, with any failures and with bridges deleted and created, each pod flow sits on a tagged bridge, on two conditions: the cleaner is never about to untag a pod on a bridge its own worker is adding to, and no bridge that was deleted under an adding worker is re-created while it still is |
| PodFlowSteps.CoveringSweepsAreSafe | internal/staleflows/stalecleanup.go:67-88 | the first condition holds whenever the live set covers every pod being reconciled; with the second, the invariant follows |
| PodFlowSteps.CollisionLosesTag | internal/controller/flows.go:240-252 | the first condition is sharp: from every state that violates it, two successful commands leave a flow without a tag |
| PodFlowSteps.RecreateLosesTag | internal/controller/spectrumxrailpoolconfig_host_flows_controller.go:627-644 | so is the second: from every state with a worker adding to a missing bridge, its re-creation and one successful command do |
| Multiplane.FloodActions | internal/controller/flows.go:89-94 | the ARP actions name every PF once, in order |
| Multiplane.AllPlanesBuckets | internal/controller/flows.go:149-153 | one watched bucket per PF, in order |
| Multiplane.AddHardwareMultiplaneFlows | internal/controller/flows.go:84-127 | the host program in command order, given up at the first failure or PF without a plane id; refused without PFs |
| Multiplane.AddHardwareMultiplaneGroups | internal/controller/flows.go:129-160 | one failover group per plane, then the select group of all planes; given up at the first failure |
| Forwarding.HostFlowsInstalled | internal/controller/flows.go:84-127 | a completed host program, the first or a later one, over pods' rules already present or not, leaves exactly the host rules beside the pods' rules, and flows of lower priority as they were |
| Forwarding.HostGroupsInstalled | internal/controller/flows.go:129-160 | a completed group program leaves each plane's group and the all-planes group as specified |
| Forwarding.PodFlowsInstalled | internal/controller/flows.go:162-183 | a completed pod program adds the pod's rules, taking its address and VF over from an earlier pod, and leaves host rules and flows of lower priority as they were |
| Forwarding.TablesForward | internal/controller/flows.go:84-183 | on every packet the composed tables and groups equal the forwarding function: local addresses to their VF, other ip from a pod VF to the uplinks, ARP flooded; the result is undefined exactly on the class where two table-1 rules of equal priority overlap, and packets no rule claims are treated as the flows of lower priority say |
| Forwarding.NoBackgroundDrops | internal/controller/flows.go:84-183 | on a bridge without other flows those packets are dropped |
| Provisioning.CleanTracked | internal/controller/flows.go:203-211 | cleaning a cookie other than the host's removes exactly the routes and sources written under it, and flows of lower priority that carry it |
| Provisioning.ProvisionedBridgeForwards | internal/controller/flows.go:84-211 | after any sequence of host programs, pod adds and pod cleans without a failed command, in any order and over any flows of lower priority such as a default NORMAL flow, a bridge that got its host program forwards as the surviving routes and sources say |
| Provisioning.RoutedIff | internal/controller/flows.go:162-252 | an address is routed if and only if the last pod added with it was not cleaned since, and then to that pod's VF |
| Provisioning.SentOnIff | internal/controller/flows.go:162-252 | traffic of a VF is sent on if and only if the last pod added with that VF was not cleaned since |
| Provisioning.TakeoverUnroutes | internal/controller/flows.go:162-252 | so cleaning the later of two pods that share an address or a VF unroutes the earlier one too, whatever came before |
| Forwarding.FailoverDelivers | internal/controller/flows.go:84-160 | what the tables do to non-local traffic of a pod: undefined exactly on the overlap; otherwise unpreferred packets, and preferred ones of a known plane that are not strict, leave by exactly one live PF, the plane's own when preferred and live, and are dropped only when all PFs are down; strict packets go to their plane's PF even when it is down, and the rest nowhere |
| XPlane.PlaneIdBlock | internal/controller/spectrumxrailpoolconfig_host_flows_controller.go:651-653 | the plane ids of a rail with n PFs are exactly the block from n*swPlane to n*swPlane+n-1, rising in PF order |
| XPlane.PlaneIdsDisjoint | internal/controller/spectrumxrailpoolconfig_host_flows_controller.go:651-653 | rails with equal PF counts on different switch planes share no plane id |
| XPlane.PlaneIdsMeetIff | internal/controller/spectrumxrailpoolconfig_host_flows_controller.go:651-653 | two rails share a plane id if and only if both have PFs and each block starts before the other ends |
| XPlane.PlaneIdsCanMeet | internal/controller/spectrumxrailpoolconfig_host_flows_controller.go:651-653 | example: two PFs on plane 1 and four on plane 0 |
| XPlane.ApplyHolds | internal/controller/spectrumxrailpoolconfig_host_flows_controller.go:627-695 | each command, run again at once, changes nothing |
| XPlane.CompatibleKeeps | internal/controller/spectrumxrailpoolconfig_host_flows_controller.go:627-695 | a command of one rail keeps what a command of another rail established |
| XPlane.ProgramConverges | internal/controller/spectrumxrailpoolconfig_host_flows_controller.go:618-698 | a completed run configures every multiplane rail (bridges, the k-th PF with plane id n*swPlane+k, patch ports naming each other as peers), and a second run changes nothing |
| XPlane.ProgramRunsIff | internal/controller/spectrumxrailpoolconfig_host_flows_controller.go:627-695 | the commands of all rails can complete if and only if no other bridge holds one of the uplinks or patch ports |
| SafeStart.StripUplinks | internal/ovssafestart/xplane-ovs-safe-start.sh:29-42 | the hook's loop deletes exactly the found ports whose PF is not in switchdev and whose del-port succeeds |
| SafeStart.StripIsSafe | internal/ovssafestart/xplane-ovs-safe-start.sh:25-42 | after an error-free run a port is left iff it was there and is no DOCA uplink or its PF is in switchdev, and what is left is unchanged |
| SafeStart.StripIsTransparent | internal/controller/spectrumxrailpoolconfig_host_flows_controller.go:651-671 | running the rails' program after any strip of their uplinks gives the same port database as without the strip |
| Host.PfsInSwitchdevMode | internal/controller/spectrumxrailpoolconfig_host_flows_controller.go:462-481 | true iff there are PFs and the last interface listed under each of their names is in switchdev |
| CallResults.CreateIssues | internal/controller/spectrumxrailpoolconfig_host_flows_controller.go:618-698 | the commands of the rail's program are issued in order up to the first that stops, which is a failed add-br or a timeout; nil iff none stops |
| Host.Agent.CreateBridges | internal/controller/spectrumxrailpoolconfig_host_flows_controller.go:618-698 | so does the method; policies, entry and finalizer stay, and without a failed command the database is that of the program, the k-th PF with plane id n*swPlane+k |
| Host.Agent.CleanupBridges | internal/controller/spectrumxrailpoolconfig_host_flows_controller.go:704-725 | nil means that both del-br commands ended without a timeout, an error that the last one timed out, no failure at all that both bridges are gone; no other bridge and nothing outside the database changes |
| Host.Agent.DeleteResources | internal/controller/spectrumxrailpoolconfig_host_flows_controller.go:727-751 | nil means that both policies and the network of the rail are gone; nothing of another rail and no bridge changes, whatever fails |
| Host.Agent.Prepare | internal/controller/spectrumxrailpoolconfig_host_flows_controller.go:407-436 | hook, node list, then the state of every node; a missing state ends the configuration quietly |
| CallResults.ConfigureGuards | internal/controller/spectrumxrailpoolconfig_host_flows_controller.go:403-458 | bridges change and the deployment is issued only when the node is in the pool, SR-IOV knows every node of the pool, all PFs are in switchdev here, and after the safe-start hook was installed; then nil ends with the deployment |
| Host.Agent.ConfigureRail | internal/controller/spectrumxrailpoolconfig_host_flows_controller.go:403-458 | so does the method; policies, networks, entry and finalizer stay; without a failed call nil comes back and, where that is allowed, the database is that of the rail's program; an error names a call that failed |
| CallResults.ApplyCalls | internal/controller/spectrumxrailpoolconfig_host_flows_controller.go:323-391 | applying a rail returns nil iff it has PFs and every call succeeded, the lookup of a referenced CIDR pool among them |
| Host.Agent.ReconcileTopology | internal/controller/spectrumxrailpoolconfig_host_flows_controller.go:323-401 | nil means that the rail is owned: its policies split its PFs under the right labels and its network exists; no other policy, no entry and no finalizer changes, and no bridge for a rail with one PF; without PFs it is an error that changes nothing |
| Host.Agent.ReconcileTopologies | internal/controller/spectrumxrailpoolconfig_host_flows_controller.go:310-321 | rail by rail, stopped at the first failure; every policy is as before or one of the spec's rails under the right name and labels |
| Host.Agent.RemoveTopology | internal/controller/spectrumxrailpoolconfig_host_flows_controller.go:787-797 | nil means that nothing of the rail is left; policies of a multiplane rail change only after both del-br commands ended without a timeout; other rails are untouched |
| CallLog.RemovedOnce | internal/controller/spectrumxrailpoolconfig_host_flows_controller.go:772-799 | however many policies of a rail are listed, its resources are deleted at most once in a pass, and those of a rail in the spec never |
| Host.Agent.DeleteRemoved | internal/controller/spectrumxrailpoolconfig_host_flows_controller.go:753-803 | each owned rail not in the spec is removed, bridges first when its first listed policy is multiplane; policies only go, and nil leaves only policies of rails in the spec |
| Host.Agent.PatchSyncStatus | internal/controller/spectrumxrailpoolconfig_host_flows_controller.go:839-905 | nil means that this node's entry for the reconciled generation is recorded; with an error it is that entry or the old one; nothing else changes |
| Host.Agent.ReportFailure | internal/controller/spectrumxrailpoolconfig_host_flows_controller.go:250-269 | the original error comes back; an agent that is not selected changes nothing, and a selected one can only record Failed with the composed message, which it does when the patch succeeds |
| Host.Agent.ProcessStatus | internal/controller/spectrumxrailpoolconfig_host_flows_controller.go:805-837 | nothing when not selected; nil means Succeeded iff SR-IOV succeeded with configured interfaces, Failed iff it failed, else InProgress; nothing else changes |
| CallResults.DeletionLeavesNothing | internal/controller/spectrumxrailpoolconfig_host_flows_controller.go:271-308 | when the finalizer goes, no policy and no network of any rail of the spec is left |
| Host.Agent.Delete | internal/controller/spectrumxrailpoolconfig_host_flows_controller.go:271-308 | the finalizer goes only when no policy carries the owner label, no network of the spec is left, the pool config was deleted just before, and both del-br commands of every multiplane rail ended without a timeout; naming and coverage are kept by failed attempts too |
| Host.Agent.ConfigureObject | internal/controller/spectrumxrailpoolconfig_host_flows_controller.go:197-219 | the steps after selection: a selected agent whose patches succeed records what it returns, an unselected one writes no entry, and nil leaves only policies of rails in the spec |
| Host.Agent.Reconcile | internal/controller/spectrumxrailpoolconfig_host_flows_controller.go:171-219 | the whole pass: an agent not selected writes no entry; a selected one whose patches succeed records what it returns, unless its node could not be read; nil leaves only policies of rails in the spec and means that no call failed but tolerated ones |
| Errors.PassErrorsAreFaithful | internal/controller/spectrumxrailpoolconfig_host_flows_controller.go:171-308 | over a whole pass, deletion included: nil means that every call succeeded, but for port commands and bridge deletions that failed without timing out; and an error that names a call names one of this pass that failed |
| StatusReports.ResultMatchesStatus | internal/controller/spectrumxrailpoolconfig_host_flows_controller.go:171-262 | when all patches succeed, an error is recorded as Failed for this generation with its text, bare up to the listing of policies and then under the heading of the removal or of the status update; nil records Succeeded, Failed or InProgress as SR-IOV says; if the local node cannot be read, exactly that error is returned and the entry stays |
| StatusReports.UnselectedWritesNothing | internal/controller/spectrumxrailpoolconfig_host_flows_controller.go:171-308 | an agent whose node is not selected writes no entry on any path, deletion included |
| StatusReports.FinalizerFirst | internal/controller/spectrumxrailpoolconfig_host_flows_controller.go:175-180 | without the finalizer a pass does nothing but add it |
| StatusReports.ProgressShownFirst | internal/controller/spectrumxrailpoolconfig_host_flows_controller.go:192-196 | a selected agent shows InProgress before it touches anything iff its entry does not already say Succeeded for this generation, and stops if it cannot |
| StatusReports.EmptySpecFails | internal/controller/spectrumxrailpoolconfig_host_flows_controller.go:198-200 | a spec without rails is an error that changes nothing but the entry |
| StatusReports.DeletionRecorded | internal/controller/spectrumxrailpoolconfig_host_flows_controller.go:271-296 | a selected agent that could read its node records a rail it could not delete as Failed with the error under its heading; on every other path of a deletion the entry stays |
| ReconcilerProofs.RemoveRailPolicies | internal/controller/spectrumxrailpoolconfig_host_flows_controller.go:727-751 | removing a rail only removes policies, none but its two, and both when it returns nil |
| ReconcilerProofs.CleanPassCovers | internal/controller/spectrumxrailpoolconfig_host_flows_controller.go:753-803 | labelled policies stay named after their rail, and a pass that returns nil leaves only policies whose rail label, or own name if they have none, is in the spec |
| ReconcilerProofs.FinalizerWaitsForPool | internal/controller/spectrumxrailpoolconfig_host_flows_controller.go:297-306 | a deletion never brings the pool config back, and drops the finalizer only once it is gone, right after a successful deletion of it |
| ReconcilerProofs.DeletionAttempt | internal/controller/spectrumxrailpoolconfig_host_flows_controller.go:271-308 | a deletion attempt with any failures only removes policies and drops the finalizer only when none carries the owner label and the pool config is gone |
| ReconcilerProofs.DeletionLeavesNoPolicy | internal/controller/spectrumxrailpoolconfig_host_flows_controller.go:271-308 | after a pass that returned nil, any sequence of deletion attempts keeps the finalizer until no policy carries the owner label and the pool config is gone |
| ReconcilerProofs.RemoveRailEnds | internal/controller/spectrumxrailpoolconfig_host_flows_controller.go:704-751 | a multiplane rail's policies are touched only after both its del-br commands ended without a timeout |
| ReconcilerProofs.FirstListedDecides | internal/controller/spectrumxrailpoolconfig_host_flows_controller.go:753-803 | when the policies of a removed rail carry mixed labels: a removal that returns nil leaves none of them, and ended both del-br commands without a timeout if and only if the first one listed is multiplane |
| ReconcilerProofs.TimedOutCleanupIsFoundAgain | internal/controller/spectrumxrailpoolconfig_host_flows_controller.go:704-803 | over any number of passes with any failures and timeouts that list a multiplane policy of the removed rail first, its policies stay as they are until both del-br commands ended without a timeout |
| ReconcilerProofs.UniformLabelsLead | internal/controller/spectrumxrailpoolconfig_host_flows_controller.go:788-790 | rails whose policies are all multiplane meet that condition in every listing |
| ReconcilerProofs.FinalizerWaitsForBridges | internal/controller/spectrumxrailpoolconfig_host_flows_controller.go:271-308 | a deleting object keeps its finalizer until both del-br commands of every multiplane rail ended without a timeout |
| Convergence.CleanPass | internal/controller/spectrumxrailpoolconfig_host_flows_controller.go:171-219 | a pass without a failed call, whatever it removes: exactly which policies, networks, entry and database it leaves |
| Convergence.CleanPassOwnsRails | internal/controller/spectrumxrailpoolconfig_host_flows_controller.go:323-401 | after such a pass every rail has its network and its policies split its PFs into the first and the rest, under the owner, rail and multiplane labels, also when it removed other rails |
| Convergence.TwoPassesReachFixedPoint | internal/controller/spectrumxrailpoolconfig_host_flows_controller.go:171-219 | after a pass that returned nil and a pass without a failed call, every multiplane rail is configured and a third such pass changes nothing but the log |
| Convergence.OnePassSufficesIff | internal/controller/spectrumxrailpoolconfig_host_flows_controller.go:704-803 | a single pass without a failed call leaves the multiplane rails configured if and only if it removes no rail whose first listed policy is multiplane, since that removal deletes the shared bridge |
| Convergence.ShrinkingMixesLabels | internal/controller/spectrumxrailpoolconfig_host_flows_controller.go:323-401 | how labels come to be mixed: shrinking a rail to one PF relabels its first policy and leaves the second as it was |
| CleanRuns.PassIsCleanIff | internal/controller/spectrumxrailpoolconfig_host_flows_controller.go:171-219 | where the environment refuses nothing, a pass has no failed call if and only if no other bridge holds an uplink or patch port of the rails |
| CleanRuns.OkEnvironmentConverges | internal/controller/spectrumxrailpoolconfig_host_flows_controller.go:171-219 | in such an environment, whatever rails are removed, three passes return nil, every multiplane rail is configured after the second and the third changes nothing but the log |
| Orphans.NetworkOrphanedIff | internal/controller/spectrumxrailpoolconfig_host_flows_controller.go:727-803 | a pass that returns nil leaves the network of a rail outside the spec if and only if it was there and the rail had no policy of this object left |
| Orphans.OrphanedNetworkStays | internal/controller/spectrumxrailpoolconfig_host_flows_controller.go:743-747 | such a network is found by no later pass: it stays over any number of passes, whatever fails |
| Orphans.NetworkGetsOrphaned | internal/controller/spectrumxrailpoolconfig_host_flows_controller.go:727-751 | how it comes about: both policies are deleted, deleting the network fails, and from then on no pass for a spec without the rail removes it |
| SharedDeletion.PolicyOutlivesIff | internal/controller/spectrumxrailpoolconfig_host_flows_controller.go:271-308 | with any number of agents whose calls interleave, some still reconciling from a version that is not being deleted: once an agent has deleted every policy and only the finalizer is left, a policy is there if and only if some reconcile wrote it since that deletion began and no call removed it since |
| SharedDeletion.NoPolicyOutlives | internal/controller/spectrumxrailpoolconfig_host_flows_controller.go:271-308 | so none is left while no reconcile writes one |
| SharedDeletion.StaleReconcileLeavesPolicy | internal/controller/spectrumxrailpoolconfig_host_flows_controller.go:343-366 | and every reconcile that still has a policy to write leaves it with one successful call, finalizer or not |
| Orphans.UnusedAfterPassIff | internal/controller/spectrumxrailpoolconfig_host_flows_controller.go:352-366 | a pass without a failed call, whatever it removes, leaves a second policy exactly for rails with several PFs and where one was there before, unless it removes a rail of just that name |
| Orphans.UnusedPolicyStays | internal/controller/spectrumxrailpoolconfig_host_flows_controller.go:775-784 | while a rail stays in the spec with one PF, no pass removes or rewrites its second policy, whatever fails |
| Convergence.PassRestoresStripped | internal/controller/spectrumxrailpoolconfig_host_flows_controller.go:618-698 | whatever uplinks the safe-start hook stripped and whatever rails the next pass without a failed call removes, it leaves the same database as if nothing had been stripped |
| VfStateFollower.JobsAre | internal/vfstatefollower/monitor.go:88-108 | a tick looks after exactly the topologies of the pools whose selector labels are all on the node, with following on unless the pool says false |
| VfStateFollower.Monitor.AllPFsNoCarrier | internal/vfstatefollower/monitor.go:148-159 | true means that every PF was seen without carrier, false that one was seen with carrier, an error that a lookup failed; no link changes |
| VfStateFollower.Monitor.ReconcileReps | internal/vfstatefollower/monitor.go:123-143 | each representor found is set only when its admin state is not the wanted one |
| VfStateFollower.Monitor.ReconcileTopology | internal/vfstatefollower/monitor.go:114-145 | the representors of every PF; a PF whose lookup fails is passed over |
| VfStateFollower.Monitor.Follow | internal/vfstatefollower/monitor.go:95-107 | an error of the carrier check leaves the topology alone; a representor is set down only if following is enabled, it belongs to this topology and every PF of it was seen without carrier in this call |
| VfStateFollower.Monitor.TickLoop | internal/vfstatefollower/monitor.go:73-110 | nothing happens when the node or the pools cannot be read; a set-down is of a representor in a topology of a pool that selects the node and follows, all of whose PFs this tick saw without carrier |
| VfStateFollower.SetDownOnlyWhenDark | internal/vfstatefollower/monitor.go:73-159 | with any errors and changing carrier, a representor is set down only in a tick that saw every PF of its topology without carrier, in a pool that selects the node and follows |
| VfStateFollower.ErrorFreeTickSettles | internal/vfstatefollower/monitor.go:73-159 | after an error-free tick, for every pool that selects the node and every topology of it, an active representor is up iff following is disabled or some PF of the topology has carrier; links of other pools and all other links are unchanged |
| VfStateFollower.SettledTickIsQuiet | internal/vfstatefollower/monitor.go:73-159 | once every representor has that state, a further tick issues no set while carrier is unchanged, even if calls fail |

## Left out

- The Kubernetes client, caches and server-side apply: the status protocol uses a versioned store whose commits check the version and whose reads may return an older one; the reconcile pass uses a map of policies, a set of networks and a flag for the pool config.
- Retry counts and back-off of the conflict retry: an agent may retry any number of times or give up at any point.
- Deletion and re-creation of the object inside the status protocol: runs start from an empty status of one object.
- Inside the reconcile pass a status patch is one call that may fail; its reads, retries and skip branch are modelled in the status protocol, and the pass reads this node's entry as stored.
- Other agents during a pass: the results about passes are for one agent, although policies are shared by all; only deletion is also modelled over interleaved agents, in SharedDeletion, where a reconcile is any sequence of policy writes and removals and bridges are left out.
- PodFlowRuns.FlowsSitOnTaggedBridges: passes are atomic with respect to each other; PodFlowSteps.InterleavedFlowsStayTagged is the same invariant over interleaved commands, with the two conditions it then needs.
- PodFlowRuns.StaleCleanupSweeps: is stated for bridges whose external-id keys hold no '=' or newline and whose values hold no newline; other ids cannot be taken apart from the printed lines.
- Convergence.TwoPassesReachFixedPoint: assumes the node is selected with every PF in switchdev and every node of the pool known to SR-IOV; without that the code waits and configures nothing.
- VfStateFollower.ErrorFreeTickSettles: assumes that carrier does not change during the tick and that topologies which share a representor want the same of it, as they do when no PF is in two of them.
- Command strings: commands are data, port and bridge names of the agent are structured values, and only the listing and external-id texts are parsed.
- datapath_type and bridge-id settings of the bridges, and other Open vSwitch columns the agent never reads back.
- Fields of generated objects other than names, labels and PF lists, including the IPv6 check of the CIDR pool; only its failure is modelled.
- deployXplane, manifest rendering and DaemonSet handling: one call that may fail.
- AddSoftwareMultiplaneFlows: the single-uplink alternative to the hardware program, two unconditional rules, is not modelled.
- The FNV hash behind cookies: an arbitrary function; so collisions are covered, and PodFlowRuns.FlowSurvivesIff says what they cost.
- netlink, sysfs, devlink, shell execution, the file watcher, ticker loops, watch mappings, logging and configuration.
