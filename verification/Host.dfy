/** The reconciler as the agent runs it: methods that issue calls one by one. */
module Host {
  import opened Basics
  import opened NodeStates
  import opened XPlane
  import opened Reconciler
  import opened StatusReports
  import opened ReconcilerProofs
  import opened Convergence
  import opened CallResults
  import Errors

  /** pfsInSwitchdevMode: index the interfaces by name, then look every PF up. */
  method PfsInSwitchdevMode(interfaces: seq<(string, string)>, pfNames: seq<string>) returns (all: bool)
    ensures all == PfsInSwitchdev(interfaces, pfNames)
    ensures all <==> pfNames != [] && forall p :: p in pfNames ==> LastMode(interfaces, p, "switchdev")
  {
    SwitchdevIs(interfaces, pfNames);
    if |pfNames| == 0 {
      return false;
    }
    var byName: map<string, string> := map[];
    for i := 0 to |interfaces|
      invariant byName == ModeOf(interfaces[..i])
    {
      assert interfaces[..i + 1][..i] == interfaces[..i];
      byName := byName[interfaces[i].0 := interfaces[i].1];
    }
    assert interfaces[..|interfaces|] == interfaces;
    for i := 0 to |pfNames|
      invariant forall j :: 0 <= j < i ==> pfNames[j] in byName && byName[pfNames[j]] == SWITCHDEV
    {
      if pfNames[i] !in byName {
        assert pfNames[i] in pfNames;
        return false;
      }
      if byName[pfNames[i]] != SWITCHDEV {
        assert pfNames[i] in pfNames;
        return false;
      }
    }
    return true;
  }

  class Agent {
    const env: Env
    var policies: map<string, Policy>
    var networks: set<string>
    var pool: bool
    var finalizer: bool
    var entry: Option<NodeState>
    var db: Db
    var log: seq<Event>

    ghost function View(): World
      reads this
    {
      World(policies, networks, pool, finalizer, entry, db, log)
    }

    constructor (env: Env, w: World)
      ensures this.env == env && View() == w
    {
      this.env := env;
      policies, networks, pool, finalizer := w.policies, w.networks, w.pool, w.finalizer;
      entry, db, log := w.entry, w.db, w.log;
    }

    /** Issue one call. */
    method Execute(op: Op) returns (o: Outcome)
      modifies this
      ensures (View(), o) == Call(old(View()), env, op)
    {
      var (w, outcome) := Call(World(policies, networks, pool, finalizer, entry, db, log), env, op);
      policies, networks, pool, finalizer := w.policies, w.networks, w.pool, w.finalizer;
      entry, db, log := w.entry, w.db, w.log;
      return outcome;
    }

    method CreateBridges(rt: Rail) returns (err: Option<Error>)
      modifies this
      ensures (View(), err) == CreateXPlaneBridges(old(View()), env, rt)
      ensures policies == old(policies) && entry == old(entry) && finalizer == old(finalizer)
      ensures CleanSince(View(), |old(log)|) ==> err.None? && RunAll(old(db), RailProgram(rt)) == Some(db)
      ensures CleanSince(View(), |old(log)|) && DistinctPfs(rt) ==> Configured(db, rt)
      ensures Issued(old(View()), View(), RailProgram(rt), err)
    {
      hide Call, RailProgram, RunAll, Configured, Issued;
      CreateIssues(View(), env, rt);
      CreateMeans(View(), env, rt);
      var o := Execute(Ovs(AddBr(XPlaneBridge, Secure)));
      if !o.Ok? {
        return Some(CallFailed(Ovs(AddBr(XPlaneBridge, Secure))));
      }
      o := Execute(Ovs(AddBr(RailBridge(rt.name), Standalone)));
      if !o.Ok? {
        return Some(CallFailed(Ovs(AddBr(RailBridge(rt.name), Standalone))));
      }
      ghost var w2 := View();
      var numPFs := |rt.pfs|;
      for idx := 0 to numPFs
        invariant AddUplinks(View(), env, rt, idx) == AddUplinks(w2, env, rt, 0)
      {
        var planeID := numPFs * rt.swPlane + idx;
        var c := AddUplink(rt.pfs[idx], rt.mtu, planeID, rt.name);
        assert c == UplinkOf(rt, idx);
        o := Execute(Ovs(c));
        if o.Timeout? {
          return Some(CallFailed(Ovs(c)));
        }
      }
      o := Execute(Ovs(AddPatch(rt.name, rt.mtu)));
      if o.Timeout? {
        return Some(CallFailed(Ovs(AddPatch(rt.name, rt.mtu))));
      }
      return None;
    }

    /** cleanupXPlaneBridges: nil means that neither del-br timed out; nothing but the two bridges can go. */
    method CleanupBridges(railName: string) returns (err: Option<Error>)
      modifies this
      ensures (View(), err) == CleanupXPlaneBridges(old(View()), env, railName)
      ensures View() == old(View()).(db := db, log := log)
      ensures OnlyDropped(old(db), db, {RailBridge(railName), XPlaneBridge})
      ensures err.None? ==> CleanupEnded(log, |old(log)|, railName)
      ensures err.Some? ==> |log| > |old(log)| && log[|log| - 1].outcome.Timeout?
      ensures CleanSince(View(), |old(log)|) ==> RailBridge(railName) !in db && XPlaneBridge !in db
    {
      hide Call, OnlyDropped, CleanupEnded;
      CleanupMeans(View(), env, railName);
      var o := Execute(Ovs(DelBr(RailBridge(railName))));
      if o.Timeout? {
        return Some(CallFailed(Ovs(DelBr(RailBridge(railName)))));
      }
      o := Execute(Ovs(DelBr(XPlaneBridge)));
      if o.Timeout? {
        return Some(CallFailed(Ovs(DelBr(XPlaneBridge))));
      }
      return None;
    }

    /** deleteRailTopologyResources: nil means that nothing of the rail is left; nothing of another rail is touched. */
    method DeleteResources(railName: string) returns (err: Option<Error>)
      modifies this
      ensures (View(), err) == DeleteRailResources(old(View()), env, railName)
      ensures OnlyRail(old(View()), View(), railName) && db == old(db)
      ensures err.None? ==> RailGone(View(), railName) && railName !in networks
    {
      hide Call, OnlyRail;
      DeleteResourcesMeans(View(), env, railName);
      var o := Execute(DeletePolicy(railName));
      if !o.Ok? {
        return Some(CallFailed(DeletePolicy(railName)));
      }
      o := Execute(DeletePolicy(railName + UNUSED));
      if !o.Ok? {
        return Some(CallFailed(DeletePolicy(railName + UNUSED)));
      }
      o := Execute(DeleteNetwork(railName));
      if !o.Ok? {
        return Some(CallFailed(DeleteNetwork(railName)));
      }
      return None;
    }

    /** The node loop of configureXPlane. */
    method Prepare() returns (ready: bool, err: Option<Error>)
      modifies this
      ensures (View(), ready, err) == PrepareXPlane(old(View()), env)
    {
      hide Call;
      var o := Execute(InstallHook);
      if !o.Ok? {
        return false, Some(CallFailed(InstallHook));
      }
      o := Execute(ListNodes);
      if !o.Ok? {
        return false, Some(CallFailed(ListNodes));
      }
      ghost var w2 := View();
      var nodes := env.poolNodes;
      for i := 0 to |nodes|
        invariant CheckNodes(View(), env, nodes[i..]) == CheckNodes(w2, env, nodes)
      {
        assert nodes[i..][0] == nodes[i] && nodes[i..][1..] == nodes[i + 1..];
        o := Execute(GetSriovState(nodes[i]));
        if !o.Ok? {
          return false, Some(CallFailed(GetSriovState(nodes[i])));
        }
        if nodes[i] !in env.sriov {
          return false, None;
        }
      }
      return true, None;
    }

    method ConfigureRail(rt: Rail) returns (err: Option<Error>)
      modifies this
      ensures (View(), err) == ConfigureXPlane(old(View()), env, rt)
      ensures RailConfigured(old(View()), View(), env, rt, err)
    {
      hide Call, PrepareXPlane, CreateXPlaneBridges, RailConfigured, RailProgram, RunAll, Issued, CleanSince, Configured;
      RailIsConfiguredSo(View(), env, rt);
      var found, e := Prepare();
      if e.Some? || !found {
        return e;
      }
      if env.node !in env.poolNodes || env.node !in env.sriov {
        return None;
      }
      var switchdev := PfsInSwitchdevMode(env.sriov[env.node].interfaces, rt.pfs);
      if !switchdev {
        return None;
      }
      e := CreateBridges(rt);
      if e.Some? {
        return e;
      }
      var o := Execute(DeployXPlane);
      return if o.Ok? then None else Some(CallFailed(DeployXPlane));
    }

    method ReconcileTopology(cfg: Config, rt: Rail) returns (err: Option<Error>)
      modifies this
      ensures (View(), err) == ReconcileRail(old(View()), env, cfg, rt)
      ensures OnlyOwnRails(old(View()), View(), cfg, [rt]) && entry == old(entry) && finalizer == old(finalizer)
      ensures forall n :: n in old(policies) && !WritesName(rt, n) ==> n in policies && policies[n] == old(policies)[n]
      ensures rt.pfs == [] ==> err.Some? && View() == old(View())
      ensures |rt.pfs| <= 1 ==> db == old(db)
      ensures err.None? && rt.cidrPoolRef ==> exists i :: |old(log)| <= i < |log| && log[i] == Event(GetCidrPool(rt.name), Ok)
      ensures err.None? ==> OwnsRail(policies, cfg, rt) && rt.name in networks
    {
      hide Call, ConfigureXPlane, OnlyOwnRails, WritesName, OwnsRail, RailProgram, RunAll, CleanSince, AllKnown, Ready;
      ReconcileMeans(View(), env, cfg, rt);
      if |rt.pfs| == 0 {
        return Some(NoPfNames(rt.name));
      }
      var primary := ApplyPolicy(rt.name, Policy(cfg.name, rt.name, |rt.pfs| > 1, [rt.pfs[0]]));
      var o := Execute(primary);
      if !o.Ok? {
        return Some(CallFailed(primary));
      }
      if |rt.pfs| > 1 {
        var secondary := ApplyPolicy(rt.name + UNUSED, Policy(cfg.name, rt.name, true, rt.pfs[1..]));
        o := Execute(secondary);
        if !o.Ok? {
          return Some(CallFailed(secondary));
        }
      }
      if rt.cidrPoolRef {
        o := Execute(GetCidrPool(rt.name));
        if !o.Ok? {
          return Some(CallFailed(GetCidrPool(rt.name)));
        }
      }
      o := Execute(ApplyNetwork(rt.name));
      if !o.Ok? {
        return Some(CallFailed(ApplyNetwork(rt.name)));
      }
      if |rt.pfs| > 1 {
        err := ConfigureRail(rt);
      } else {
        err := None;
      }
    }

    method ReconcileTopologies(cfg: Config) returns (err: Option<Error>)
      modifies this
      ensures (View(), err) == ReconcileRails(old(View()), env, cfg, cfg.rails)
      ensures OnlyOwnRails(old(View()), View(), cfg, cfg.rails) && entry == old(entry) && finalizer == old(finalizer)
    {
      hide ReconcileRail, OnlyOwnRails;
      ReconcileRailsPolicies(View(), env, cfg, cfg.rails);
      for i := 0 to |cfg.rails|
        invariant ReconcileRails(View(), env, cfg, cfg.rails[i..]) == ReconcileRails(old(View()), env, cfg, cfg.rails)
      {
        assert cfg.rails[i..][0] == cfg.rails[i] && cfg.rails[i..][1..] == cfg.rails[i + 1..];
        err := ReconcileTopology(cfg, cfg.rails[i]);
        if err.Some? {
          return;
        }
      }
      return None;
    }

    /** Bridges before policies: a multiplane rail's policies go only after its bridges ended without a timeout. */
    method RemoveTopology(railName: string, multiplane: bool) returns (err: Option<Error>)
      modifies this
      ensures (View(), err) == RemoveRail(old(View()), env, railName, multiplane)
      ensures OnlyRail(old(View()), View(), railName)
      ensures err.None? ==> RailGone(View(), railName) && railName !in networks
      ensures multiplane && (err.None? || policies != old(policies)) ==> CleanupEnded(log, |old(log)|, railName)
    {
      hide CleanupXPlaneBridges, DeleteRailResources, OnlyRail, CleanupEnded, OnlyDropped, CleanSince;
      RemoveMeans(View(), env, railName, multiplane);
      if multiplane {
        err := CleanupBridges(railName);
        if err.Some? {
          return;
        }
      }
      err := DeleteResources(railName);
    }

    /** deleteRemovedRailTopologies. */
    method DeleteRemoved(cfg: Config) returns (err: Option<Error>)
      modifies this
      ensures (View(), err) == DeleteRemovedRails(old(View()), env, cfg)
      ensures NamedAfterRails(old(View()), cfg.name) && ListsAll(env, old(policies).Keys) ==>
                Shrinks(old(View()), View()) && NamedAfterRails(View(), cfg.name) && (err.None? ==> Covered(View(), cfg))
    {
      hide Call, RemoveRail, NamedAfterRails, ListsAll, Covered, Shrinks, OnlyRail, RailGone, CleanupEnded;
      if NamedAfterRails(View(), cfg.name) && ListsAll(env, policies.Keys) {
        DeleteRemovedCovers(View(), env, cfg);
      }
      var currentTopologies: set<string> := {};
      for i := 0 to |cfg.rails|
        invariant currentTopologies == RailNames(cfg.rails[..i])
        invariant View() == old(View())
      {
        assert cfg.rails[..i + 1] == cfg.rails[..i] + [cfg.rails[i]];
        currentTopologies := currentTopologies + {cfg.rails[i].name};
      }
      assert cfg.rails[..|cfg.rails|] == cfg.rails;
      var o := Execute(ListPolicies);
      if !o.Ok? {
        return Some(CallFailed(ListPolicies));
      }
      ghost var w1 := View();
      var policyList := OwnedAmong(policies, cfg.name, env.order(policies.Keys));
      var deletedTopologies: set<string> := {};
      for i := 0 to |policyList|
        invariant RemoveRails(View(), env, policyList[i..], currentTopologies, deletedTopologies) ==
                  RemoveRails(w1, env, policyList, currentTopologies, {})
      {
        assert policyList[i..][0] == policyList[i] && policyList[i..][1..] == policyList[i + 1..];
        var (name, policy) := policyList[i];
        var rtName := policy.rail;
        if rtName == "" {
          rtName := name;
        }
        if rtName in currentTopologies {
          continue;
        }
        if rtName in deletedTopologies {
          continue;
        }
        var isMultiplane := policy.multiplane || (policy.rail == "" && |policy.pfs| > 1);
        err := RemoveTopology(rtName, isMultiplane);
        if err.Some? {
          return;
        }
        deletedTopologies := deletedTopologies + {rtName};
      }
      return None;
    }

    /** Nil means that the entry is recorded; an error may leave it recorded or not; nothing else changes. */
    method PatchSyncStatus(cfg: Config, newState: State, message: string) returns (err: Option<Error>)
      modifies this
      ensures (View(), err) == Patch(old(View()), env, cfg, newState, message)
      ensures View() == old(View()).(entry := entry, log := log)
      ensures err.None? ==> entry == Some(NodeState(env.node, newState, message, cfg.generation))
      ensures entry == old(entry) || entry == Some(NodeState(env.node, newState, message, cfg.generation))
    {
      hide Call;
      PatchMeans(View(), env, cfg, newState, message);
      var op := PatchStatus(NodeState(env.node, newState, message, cfg.generation));
      var o := Execute(op);
      return if o.Ok? then None else Some(CallFailed(op));
    }

    /** The original error comes back; only a selected agent's own entry can change, to Failed with the message. */
    method ReportFailure(cfg: Config, e: Error, context: string) returns (err: Option<Error>)
      modifies this
      ensures (View(), err) == FailReconcile(old(View()), env, cfg, e, context)
      ensures err == Some(e) && View() == old(View()).(entry := entry, log := log)
      ensures !env.selected ==> View() == old(View())
      ensures entry == old(entry) || entry == Some(NodeState(env.node, Failed, StatusMessage(context, env.render(e)), cfg.generation))
      ensures env.selected && PatchesOk(old(View()), View()) ==>
                entry == Some(NodeState(env.node, Failed, StatusMessage(context, env.render(e)), cfg.generation))
    {
      hide Patch, StatusMessage;
      ghost var w := View();
      ghost var message := StatusMessage(context, env.render(e));
      PatchMeans(w, env, cfg, Failed, message);
      if env.selected && PatchesOk(w, Patch(w, env, cfg, Failed, message).0) {
        PatchRecorded(w, w, env, cfg, Failed, message, Patch(w, env, cfg, Failed, message).0);
      }
      if env.selected {
        var _ := PatchSyncStatus(cfg, Failed, StatusMessage(context, env.render(e)));
      }
      return Some(e);
    }

    method ProcessStatus(cfg: Config) returns (err: Option<Error>)
      modifies this
      ensures (View(), err) == ProcessNodeStatus(old(View()), env, cfg)
      ensures View() == old(View()).(entry := entry, log := log) && (!env.selected ==> View() == old(View()))
      ensures env.selected && err.None? ==> entry.Some? && ReportsSriov(entry.value, env, cfg)
    {
      hide Call, ReportsSriov;
      StatusMeans(View(), env, cfg);
      if !env.selected {
        return None;
      }
      var o := Execute(GetSriovState(env.node));
      if !o.Ok? {
        return Some(CallFailed(GetSriovState(env.node)));
      }
      if env.node !in env.sriov {
        err := PatchSyncStatus(cfg, InProgress, "");
        return;
      }
      var nodeState := env.sriov[env.node];
      match nodeState.syncStatus {
        case Succeeded =>
          if nodeState.configured == 0 {
            err := PatchSyncStatus(cfg, InProgress, "");
          } else {
            err := PatchSyncStatus(cfg, Succeeded, "");
          }
        case Failed => err := PatchSyncStatus(cfg, Failed, "");
        case _ => err := PatchSyncStatus(cfg, InProgress, "");
      }
    }

    method Delete(cfg: Config) returns (err: Option<Error>)
      modifies this
      ensures (View(), err) == HandleDeletion(old(View()), env, cfg)
      ensures NamedAfterRails(old(View()), cfg.name) && Covered(old(View()), cfg) ==>
                && NamedAfterRails(View(), cfg.name) && Covered(View(), cfg)
                && (old(finalizer) && !finalizer ==> NoneOwned(View(), cfg.name))
      ensures old(finalizer) && !finalizer ==> !pool && PoolThenFinalizer(log, |old(log)|)
      ensures old(finalizer) && !finalizer ==> forall r :: r in cfg.rails ==> RailGone(View(), r.name) && r.name !in networks
      ensures old(finalizer) && !finalizer ==>
                forall r :: r in cfg.rails && Multiplane(r) ==> CleanupEnded(log, |old(log)|, r.name)
    {
      hide Call, RemoveRail, Patch, NamedAfterRails, Covered, NoneOwned, CleanupEnded, OnlyRail, RailGone, PoolThenFinalizer;
      ghost var w := View();
      FinalizerWaitsForPool(w, env, cfg);
      DeletionLeavesNothing(w, env, cfg);
      if NamedAfterRails(w, cfg.name) && Covered(w, cfg) {
        DeletionAttempt(w, env, cfg);
      }
      forall r | r in cfg.rails && Multiplane(r) && w.finalizer && !HandleDeletion(w, env, cfg).0.finalizer
        ensures CleanupEnded(HandleDeletion(w, env, cfg).0.log, |w.log|, r.name)
      {
        DeletionWaits(w, env, cfg, r);
      }
      for i := 0 to |cfg.rails|
        invariant DeleteRails(View(), env, cfg.rails[i..]) == DeleteRails(old(View()), env, cfg.rails)
      {
        assert cfg.rails[i..][0] == cfg.rails[i] && cfg.rails[i..][1..] == cfg.rails[i + 1..];
        err := RemoveTopology(cfg.rails[i].name, |cfg.rails[i].pfs| > 1);
        if err.Some? {
          var o := Execute(GetNode);
          if o.Ok? && env.selected {
            var e := PatchSyncStatus(cfg, Failed, StatusMessage(DELETE_FAILED, env.render(err.value)));
            if e.Some? {
              return e;
            }
          }
          return;
        }
      }
      var o := Execute(DeletePool);
      if !o.Ok? {
        return Some(CallFailed(DeletePool));
      }
      o := Execute(RemoveFinalizer);
      return if o.Ok? then None else Some(CallFailed(RemoveFinalizer));
    }

    method ConfigureObject(cfg: Config) returns (err: Option<Error>)
      modifies this
      ensures (View(), err) == Configure(old(View()), env, cfg)
      ensures ObjectConfigured(old(View()), View(), env, cfg, err)
    {
      hide Call, ReconcileRails, DeleteRemovedRails, ProcessNodeStatus, FailReconcile,
        ObjectConfigured, PatchesOk, NamedAfterRails, ListsAll, Covered, OnlyOwnRails, ReportsSriov, Shrinks, StatusMessage;
      ObjectIsConfiguredSo(View(), env, cfg);
      if |cfg.rails| < 1 {
        err := ReportFailure(cfg, NoRails, "");
        return;
      }
      var o := Execute(ApplyPool);
      if !o.Ok? {
        err := ReportFailure(cfg, CallFailed(ApplyPool), "");
        return;
      }
      err := ReconcileTopologies(cfg);
      if err.Some? {
        err := ReportFailure(cfg, err.value, "");
        return;
      }
      err := DeleteRemoved(cfg);
      if err.Some? {
        err := ReportFailure(cfg, err.value, REMOVED_FAILED);
        return;
      }
      err := ProcessStatus(cfg);
      if err.Some? {
        err := ReportFailure(cfg, err.value, STATUS_FAILED);
        return;
      }
    }

    method Reconcile(cfg: Config) returns (err: Option<Error>)
      modifies this
      ensures (View(), err) == DoReconcile(old(View()), env, cfg)
      ensures Errors.Faithful(old(View()), View(), err)
      ensures !env.selected ==> entry == old(entry)
      ensures env.selected && old(finalizer) && !cfg.deleting && PatchesOk(old(View()), View()) ==>
                || Agrees(old(View()), View(), env, cfg, err)
                || (err == Some(CallFailed(GetNode)) && entry == old(entry))
      ensures (&& old(finalizer) && !cfg.deleting && NamedAfterRails(old(View()), cfg.name) && NamedRails(cfg.rails)
               && (forall names :: ListsAll(env, names)))
              ==> NamedAfterRails(View(), cfg.name) && (err.None? ==> Covered(View(), cfg))
    {
      hide Call, HandleDeletion, Configure, Patch, PatchesOk, Agrees, NamedAfterRails, NamedRails, Covered, ListsAll, NoneOwned, CleanupEnded;
      ghost var w := View();
      hide Errors.Faithful;
      Errors.PassErrorsAreFaithful(w, env, cfg);
      if !env.selected {
        UnselectedWritesNothing(w, env, cfg);
      } else if w.finalizer && !cfg.deleting && PatchesOk(w, DoReconcile(w, env, cfg).0) {
        ResultMatchesStatus(w, env, cfg);
      }
      if && w.finalizer && !cfg.deleting && NamedAfterRails(w, cfg.name) && NamedRails(cfg.rails)
         && (forall names :: ListsAll(env, names))
      {
        CleanPassCovers(w, env, cfg);
      }
      if !finalizer {
        var o := Execute(AddFinalizer);
        return if o.Ok? then None else Some(CallFailed(AddFinalizer));
      }
      if cfg.deleting {
        err := Delete(cfg);
        return;
      }
      var o := Execute(GetNode);
      if !o.Ok? {
        return Some(CallFailed(GetNode));
      }
      var succeeded := entry.Some? && entry.value.state == Succeeded && entry.value.observedGeneration == cfg.generation;
      if env.selected && !succeeded {
        err := PatchSyncStatus(cfg, InProgress, "");
        if err.Some? {
          return;
        }
      }
      err := ConfigureObject(cfg);
    }
  }
}
