/** What reconcile passes keep, reach and report. */
module ReconcilerProofs {
  import opened Basics
  import opened NodeStates
  import opened XPlane
  import opened Reconciler
  import opened CallLog

  // ------------------------------------------------------- policies and names

  ghost predicate Owned(w: World, owner: string, name: string) {
    name in w.policies && w.policies[name].owner == owner
  }

  /** An owned policy with a rail label is named after that rail; old ones without a label stand for themselves. */
  ghost predicate NamedAfterRails(w: World, owner: string) {
    forall n :: Owned(w, owner, n) ==>
      var rail := w.policies[n].rail;
      rail == "" || n == rail || n == rail + UNUSED
  }

  ghost predicate NamedRails(rails: seq<Rail>) {
    forall r :: r in rails ==> r.name != ""
  }

  /** Nothing is written but what was there, or policies of the rails of this object. */
  ghost predicate OnlyOwnRails(w: World, w': World, cfg: Config, rails: seq<Rail>) {
    forall n :: n in w'.policies ==>
      || (n in w.policies && w'.policies[n] == w.policies[n])
      || (exists r :: r in rails && w'.policies[n].owner == cfg.name && w'.policies[n].rail == r.name && (n == r.name || n == r.name + UNUSED))
  }

  /** Reconciling the rail writes the policy of this name. */
  predicate WritesName(r: Rail, n: string) {
    n == r.name || (Multiplane(r) && n == r.name + UNUSED)
  }

  /** A name that no rail of the list writes. */
  ghost predicate Foreign(n: string, rails: seq<Rail>) {
    forall r :: r in rails ==> !WritesName(r, n)
  }

  /** What a call can do to the policies. */
  lemma {:induction false} CallPolicies(w: World, env: Env, op: Op)
    ensures var (w1, o) := Call(w, env, op);
            var after := match op
              case ApplyPolicy(name, p) => w.policies[name := p]
              case DeletePolicy(name) => w.policies - {name}
              case _ => w.policies;
            && (w1.policies == w.policies || w1.policies == after)
            && (o.Ok? ==> w1.policies == after)
  {
    hide Apply;
  }

  lemma {:induction false} UplinksKeepPolicies(w: World, env: Env, r: Rail, idx: nat)
    requires idx <= |r.pfs|
    ensures AddUplinks(w, env, r, idx).0.policies == w.policies
    decreases |r.pfs| - idx
  {
    if idx < |r.pfs| {
      UplinksKeepPolicies(TryOvs(w, env, UplinkOf(r, idx)).0, env, r, idx + 1);
    }
  }

  lemma {:induction false} CheckNodesKeepsPolicies(w: World, env: Env, nodes: seq<string>)
    ensures CheckNodes(w, env, nodes).0.policies == w.policies
    decreases |nodes|
  {
    if nodes != [] {
      CheckNodesKeepsPolicies(Try(w, env, GetSriovState(nodes[0])).0, env, nodes[1..]);
    }
  }

  lemma {:induction false} BridgesKeepPolicies(w: World, env: Env, r: Rail)
    ensures CreateXPlaneBridges(w, env, r).0.policies == w.policies
  {
    hide Effect, AddUplinks;
    var op1, op2 := Ovs(AddBr(XPlaneBridge, Secure)), Ovs(AddBr(RailBridge(r.name), Standalone));
    var w1 := Call(w, env, op1).0;
    var w2 := Call(w1, env, op2).0;
    CallPolicies(w, env, op1);
    CallPolicies(w1, env, op2);
    UplinksKeepPolicies(w2, env, r, 0);
    CallPolicies(AddUplinks(w2, env, r, 0).0, env, Ovs(AddPatch(r.name, r.mtu)));
  }

  lemma {:induction false} ConfigureKeepsPolicies(w: World, env: Env, r: Rail)
    ensures ConfigureXPlane(w, env, r).0.policies == w.policies
  {
    hide CheckNodes, CreateXPlaneBridges, Effect;
    var w1 := Call(w, env, InstallHook).0;
    var w2 := Call(w1, env, ListNodes).0;
    CallPolicies(w, env, InstallHook);
    CallPolicies(w1, env, ListNodes);
    CheckNodesKeepsPolicies(w2, env, env.poolNodes);
    var w3 := PrepareXPlane(w, env).0;
    BridgesKeepPolicies(w3, env, r);
    CallPolicies(CreateXPlaneBridges(w3, env, r).0, env, DeployXPlane);
  }

  lemma {:induction false} ApplyRailPolicies(w: World, env: Env, cfg: Config, r: Rail)
    ensures var w' := ApplyRail(w, env, cfg, r).0;
            && OnlyOwnRails(w, w', cfg, [r])
            && (forall n :: n in w.policies && Foreign(n, [r]) ==> n in w'.policies && w'.policies[n] == w.policies[n])
  {
    hide Effect, Call;
    assert r in [r];
    if r.pfs != [] {
      var op1, op2 := ApplyPolicy(r.name, Primary(cfg, r)), ApplyPolicy(r.name + UNUSED, Secondary(cfg, r));
      var w1 := Call(w, env, op1).0;
      CallPolicies(w, env, op1);
      CallPolicies(w1, env, op2);
      var w2 := if Multiplane(r) then Call(w1, env, op2).0 else w1;
      CallPolicies(w2, env, GetCidrPool(r.name));
      var w3 := if r.cidrPoolRef then Call(w2, env, GetCidrPool(r.name)).0 else w2;
      CallPolicies(w3, env, ApplyNetwork(r.name));
    }
  }

  lemma {:induction false} ReconcileRailsPolicies(w: World, env: Env, cfg: Config, rails: seq<Rail>)
    ensures var w' := ReconcileRails(w, env, cfg, rails).0;
            && OnlyOwnRails(w, w', cfg, rails)
            && (forall n :: n in w.policies && Foreign(n, rails) ==> n in w'.policies && w'.policies[n] == w.policies[n])
    decreases |rails|
  {
    hide ApplyRail, ConfigureXPlane;
    if rails != [] {
      var r := rails[0];
      var w0 := ApplyRail(w, env, cfg, r).0;
      ApplyRailPolicies(w, env, cfg, r);
      ConfigureKeepsPolicies(w0, env, r);
      var (w1, e) := ReconcileRail(w, env, cfg, r);
      assert w1.policies == w0.policies;
      assert r in rails;
      assert forall q :: q in rails[1..] ==> q in rails;
      ReconcileRailsPolicies(w1, env, cfg, rails[1..]);
    }
  }

  /** Policies only disappear. */
  ghost predicate Shrinks(w: World, w': World) {
    forall n :: n in w'.policies ==> n in w.policies && w'.policies[n] == w.policies[n]
  }

  /** Neither policy of the rail is left. */
  ghost predicate RailGone(w: World, rail: string) {
    rail !in w.policies && rail + UNUSED !in w.policies
  }

  lemma {:induction false} RemoveRailPolicies(w: World, env: Env, rail: string, multiplane: bool)
    ensures var (w', e) := RemoveRail(w, env, rail, multiplane);
            && Shrinks(w, w') && (e.None? ==> RailGone(w', rail))
            && (forall n :: n in w.policies && n != rail && n != rail + UNUSED ==> n in w'.policies)
  {
    hide Effect;
    CallPolicies(w, env, Ovs(DelBr(RailBridge(rail))));
    CallPolicies(Call(w, env, Ovs(DelBr(RailBridge(rail)))).0, env, Ovs(DelBr(XPlaneBridge)));
    var w1 := if multiplane then CleanupXPlaneBridges(w, env, rail).0 else w;
    assert w1.policies == w.policies;
    CallPolicies(w1, env, DeletePolicy(rail));
    var w2 := Call(w1, env, DeletePolicy(rail)).0;
    CallPolicies(w2, env, DeletePolicy(rail + UNUSED));
    CallPolicies(Call(w2, env, DeletePolicy(rail + UNUSED)).0, env, DeleteNetwork(rail));
  }

  lemma {:induction false} RemoveRailsCovers(w: World, env: Env, listed: seq<(string, Policy)>, current: set<string>, removed: set<string>)
    requires forall rail :: rail in removed ==> RailGone(w, rail)
    ensures var (w', e) := RemoveRails(w, env, listed, current, removed);
            && Shrinks(w, w')
            && (e.None? ==> forall x :: x in listed && RailOf(x.0, x.1) !in current ==> RailGone(w', RailOf(x.0, x.1)))
    decreases |listed|
  {
    hide RemoveRail, RailOf;
    if listed != [] {
      var rail := RailOf(listed[0].0, listed[0].1);
      if rail in current || rail in removed {
        RemoveRailsCovers(w, env, listed[1..], current, removed);
      } else {
        RemoveRailPolicies(w, env, rail, MultiplanePolicy(listed[0].1));
        var (w1, e) := RemoveRail(w, env, rail, MultiplanePolicy(listed[0].1));
        if e.None? {
          RemoveRailsCovers(w1, env, listed[1..], current, removed + {rail});
        }
      }
      assert forall x :: x in listed <==> x == listed[0] || x in listed[1..];
    }
  }

  /** A listing returns every name. */
  ghost predicate ListsAll(env: Env, names: set<string>) {
    forall n :: n in env.order(names) <==> n in names
  }

  lemma {:induction false} OwnedAmongIs(policies: map<string, Policy>, owner: string, names: seq<string>, n: string)
    ensures n in names && n in policies && policies[n].owner == owner ==> (n, policies[n]) in OwnedAmong(policies, owner, names)
    ensures forall x :: x in OwnedAmong(policies, owner, names) ==> x.0 in policies && x.1 == policies[x.0] && x.1.owner == owner
  {
    if names != [] {
      OwnedAmongIs(policies, owner, names[1..], n);
    }
  }

  /** Every owned policy belongs to a rail of the spec. */
  ghost predicate Covered(w: World, cfg: Config) {
    forall n :: Owned(w, cfg.name, n) ==>
      var rail := w.policies[n].rail;
      exists r :: r in cfg.rails && r.name == if rail == "" then n else rail
  }

  lemma {:induction false} DeleteRemovedCovers(w: World, env: Env, cfg: Config)
    requires NamedAfterRails(w, cfg.name) && ListsAll(env, w.policies.Keys)
    ensures var (w', e) := DeleteRemovedRails(w, env, cfg);
            Shrinks(w, w') && NamedAfterRails(w', cfg.name) && (e.None? ==> Covered(w', cfg))
  {
    var (w1, e1) := Try(w, env, ListPolicies);
    assert w1.policies == w.policies;
    if e1.None? {
      var listed := OwnedAmong(w1.policies, cfg.name, env.order(w1.policies.Keys));
      var current := RailNames(cfg.rails);
      RemoveRailsCovers(w1, env, listed, current, {});
      var (w', e) := RemoveRails(w1, env, listed, current, {});
      if e.None? {
        forall n | Owned(w', cfg.name, n) ensures RailOf(n, w'.policies[n]) in current {
          OwnedAmongIs(w1.policies, cfg.name, env.order(w1.policies.Keys), n);
          assert (n, w1.policies[n]) in listed;
          assert Owned(w, cfg.name, n);
        }
      }
    }
  }

  lemma {:induction false} OwnRailsStayNamed(w: World, w': World, cfg: Config)
    requires NamedAfterRails(w, cfg.name) && NamedRails(cfg.rails) && OnlyOwnRails(w, w', cfg, cfg.rails)
    ensures NamedAfterRails(w', cfg.name)
  {
    forall n | Owned(w', cfg.name, n)
      ensures n == RailOf(n, w'.policies[n]) || n == RailOf(n, w'.policies[n]) + UNUSED
    {
      if n in w.policies && w'.policies[n] == w.policies[n] {
        assert Owned(w, cfg.name, n);
      }
    }
  }

  lemma {:induction false} FailKeepsPolicies(w: World, env: Env, cfg: Config, err: Error, context: string)
    ensures FailReconcile(w, env, cfg, err, context).0.policies == w.policies
  {
  }

  lemma {:induction false} NodeStatusKeepsPolicies(w: World, env: Env, cfg: Config)
    ensures ProcessNodeStatus(w, env, cfg).0.policies == w.policies
  {
  }

  /** A pass that returns no error leaves only policies of rails in the spec. */
  lemma {:induction false} CleanPassCovers(w: World, env: Env, cfg: Config)
    requires w.finalizer && !cfg.deleting
    requires NamedAfterRails(w, cfg.name) && NamedRails(cfg.rails)
    requires forall names :: ListsAll(env, names)
    ensures var (w', e) := DoReconcile(w, env, cfg);
            NamedAfterRails(w', cfg.name) && (e.None? ==> Covered(w', cfg))
  {
    var (w1, e1) := Try(w, env, GetNode);
    var w2 := if env.selected && !SucceededForGeneration(w1, cfg) then Patch(w1, env, cfg, InProgress, "").0 else w1;
    assert w2.policies == w.policies;
    ConfigureCovers(w2, env, cfg);
  }

  /** Where the policies stand when Configure ends: as before, after the rails, or after the removals. */
  lemma {:induction false} ConfigurePolicies(w: World, env: Env, cfg: Config)
    ensures var w1 := Try(w, env, ApplyPool).0;
            var w2 := ReconcileRails(w1, env, cfg, cfg.rails).0;
            var (w3, e3) := DeleteRemovedRails(w2, env, cfg);
            var (w', e) := Configure(w, env, cfg);
            && w1.policies == w.policies
            && (w'.policies == w.policies || w'.policies == w2.policies || (w'.policies == w3.policies && w3.log <= w'.log))
            && (e.None? ==> e3.None? && w'.policies == w3.policies)
  {
    hide ReconcileRails, DeleteRemovedRails, ProcessNodeStatus, FailReconcile, Effect;
    var (w1, e1) := Try(w, env, ApplyPool);
    CallPolicies(w, env, ApplyPool);
    var (w2, e2) := ReconcileRails(w1, env, cfg, cfg.rails);
    var (w3, e3) := DeleteRemovedRails(w2, env, cfg);
    var (w4, e4) := ProcessNodeStatus(w3, env, cfg);
    FailKeepsPolicies(w, env, cfg, NoRails, "");
    if e1.Some? {
      FailKeepsPolicies(w1, env, cfg, e1.value, "");
    } else if e2.Some? {
      FailKeepsPolicies(w2, env, cfg, e2.value, "");
    } else if e3.Some? {
      FailKeepsPolicies(w3, env, cfg, e3.value, REMOVED_FAILED);
    } else {
      NodeStatusKeepsPolicies(w3, env, cfg);
      if e4.Some? {
        FailKeepsPolicies(w4, env, cfg, e4.value, STATUS_FAILED);
      }
    }
  }

  lemma {:induction false} ConfigureCovers(w: World, env: Env, cfg: Config)
    requires NamedAfterRails(w, cfg.name) && NamedRails(cfg.rails)
    requires forall names :: ListsAll(env, names)
    ensures var (w', e) := Configure(w, env, cfg);
            NamedAfterRails(w', cfg.name) && (e.None? ==> Covered(w', cfg))
  {
    hide Try, ReconcileRails, DeleteRemovedRails, Configure;
    ConfigurePolicies(w, env, cfg);
    var w1 := Try(w, env, ApplyPool).0;
    var w2 := ReconcileRails(w1, env, cfg, cfg.rails).0;
    ReconcileRailsPolicies(w1, env, cfg, cfg.rails);
    OwnRailsStayNamed(w1, w2, cfg);
    assert ListsAll(env, w2.policies.Keys);
    DeleteRemovedCovers(w2, env, cfg);
  }

  // ------------------------------------------------------------------ deletion

  lemma {:induction false} DeleteRailsClears(w: World, env: Env, rails: seq<Rail>)
    ensures var (w', e) := DeleteRails(w, env, rails);
            Shrinks(w, w') && (e.None? ==> forall r :: r in rails ==> RailGone(w', r.name))
    decreases |rails|
  {
    if rails != [] {
      RemoveRailPolicies(w, env, rails[0].name, Multiplane(rails[0]));
      var (w1, e) := RemoveRail(w, env, rails[0].name, Multiplane(rails[0]));
      if e.None? {
        DeleteRailsClears(w1, env, rails[1..]);
      }
      assert forall r :: r in rails <==> r == rails[0] || r in rails[1..];
    }
  }

  ghost predicate NoneOwned(w: World, owner: string) {
    forall n :: !Owned(w, owner, n)
  }

  /** Only the rails' own deletions touch policies, and the finalizer goes only after all of them succeeded. */
  lemma {:induction false} HandleDeletionPolicies(w: World, env: Env, cfg: Config)
    ensures var (w1, e1) := DeleteRails(w, env, cfg.rails);
            var w' := HandleDeletion(w, env, cfg).0;
            w'.policies == w1.policies && (e1.Some? ==> w'.finalizer == w.finalizer)
  {
    hide DeleteRails, Effect;
    var (w1, e1) := DeleteRails(w, env, cfg.rails);
    CallPolicies(w1, env, DeletePool);
    CallPolicies(Call(w1, env, DeletePool).0, env, RemoveFinalizer);
    if e1.Some? {
      var w2 := Call(w1, env, GetNode).0;
      CallPolicies(w1, env, GetNode);
      CallPolicies(w2, env, PatchStatus(NodeState(env.node, Failed, StatusMessage(DELETE_FAILED, env.render(e1.value)), cfg.generation)));
    }
  }

  /** Only two calls change whether the pool config exists. */
  lemma {:induction false} CallPool(w: World, env: Env, op: Op)
    ensures var (w1, o) := Call(w, env, op);
            && (op != ApplyPool && op != DeletePool ==> w1.pool == w.pool)
            && (op == DeletePool ==> (w1.pool ==> w.pool) && (o.Ok? ==> !w1.pool))
  {
    hide Apply;
  }

  lemma {:induction false} RemoveRailKeepsPool(w: World, env: Env, rail: string, multiplane: bool)
    ensures RemoveRail(w, env, rail, multiplane).0.pool == w.pool
  {
    hide Call;
    var w1 := Call(w, env, Ovs(DelBr(RailBridge(rail)))).0;
    CallPool(w, env, Ovs(DelBr(RailBridge(rail))));
    CallPool(w1, env, Ovs(DelBr(XPlaneBridge)));
    var w2 := if multiplane then CleanupXPlaneBridges(w, env, rail).0 else w;
    var w3 := Call(w2, env, DeletePolicy(rail)).0;
    CallPool(w2, env, DeletePolicy(rail));
    CallPool(w3, env, DeletePolicy(rail + UNUSED));
    CallPool(Call(w3, env, DeletePolicy(rail + UNUSED)).0, env, DeleteNetwork(rail));
  }

  lemma {:induction false} DeleteRailsKeepsPool(w: World, env: Env, rails: seq<Rail>)
    ensures DeleteRails(w, env, rails).0.pool == w.pool
    decreases |rails|
  {
    hide RemoveRail;
    if rails != [] {
      RemoveRailKeepsPool(w, env, rails[0].name, Multiplane(rails[0]));
      DeleteRailsKeepsPool(RemoveRail(w, env, rails[0].name, Multiplane(rails[0])).0, env, rails[1..]);
    }
  }

  /** The log ends with a successful deletion of the pool config and then the removal of the finalizer. */
  ghost predicate PoolThenFinalizer(log: seq<Event>, from: nat) {
    var n := |log|;
    from + 2 <= n && log[n - 2] == Event(DeletePool, Ok) && log[n - 1].op == RemoveFinalizer
  }

  /** The pool config never comes back in a deletion, and the finalizer goes only once it is gone. */
  lemma {:induction false} FinalizerWaitsForPool(w: World, env: Env, cfg: Config)
    ensures var w' := HandleDeletion(w, env, cfg).0;
            && (w'.pool ==> w.pool)
            && (w.finalizer && !w'.finalizer ==> !w'.pool && PoolThenFinalizer(w'.log, |w.log|))
  {
    hide DeleteRails, Effect;
    DeleteRailsKeepsPool(w, env, cfg.rails);
    var (w1, e1) := DeleteRails(w, env, cfg.rails);
    if e1.None? {
      var w2 := Call(w1, env, DeletePool).0;
      CallPool(w1, env, DeletePool);
      CallPool(w2, env, RemoveFinalizer);
      FinalizerKept(w1, env, DeletePool);
    } else {
      var w2 := Call(w1, env, GetNode).0;
      CallPool(w1, env, GetNode);
      CallPool(w2, env, PatchStatus(NodeState(env.node, Failed, StatusMessage(DELETE_FAILED, env.render(e1.value)), cfg.generation)));
    }
  }

  lemma {:induction false} FinalizerKept(w: World, env: Env, op: Op)
    requires op != AddFinalizer && op != RemoveFinalizer
    ensures Call(w, env, op).0.finalizer == w.finalizer
  {
    hide Apply;
  }

  /** One deletion attempt: it only removes, and drops the finalizer only when no policy is owned and the pool config is gone. */
  lemma {:induction false} DeletionAttempt(w: World, env: Env, cfg: Config)
    requires NamedAfterRails(w, cfg.name) && Covered(w, cfg)
    ensures var w' := HandleDeletion(w, env, cfg).0;
            && NamedAfterRails(w', cfg.name) && Covered(w', cfg)
            && (w.finalizer && !w'.finalizer ==> NoneOwned(w', cfg.name) && !w'.pool)
            && (NoneOwned(w, cfg.name) ==> NoneOwned(w', cfg.name)) && (w'.pool ==> w.pool)
  {
    hide DeleteRails, HandleDeletion, RailOf, PoolThenFinalizer;
    FinalizerWaitsForPool(w, env, cfg);
    DeleteRailsClears(w, env, cfg.rails);
    HandleDeletionPolicies(w, env, cfg);
    var (w1, e1) := DeleteRails(w, env, cfg.rails);
    var w' := HandleDeletion(w, env, cfg).0;
    if e1.None? {
      forall n ensures !Owned(w', cfg.name, n) {
        if Owned(w, cfg.name, n) {
          var rail := w.policies[n].rail;
          var r :| r in cfg.rails && r.name == if rail == "" then n else rail;
          assert RailGone(w1, r.name);
        }
      }
    }
    forall n | Owned(w', cfg.name, n) ensures Owned(w, cfg.name, n) {
    }
  }

  function RunDeletions(w: World, envs: seq<Env>, cfg: Config): World
    decreases |envs|
  {
    if envs == [] then w else RunDeletions(HandleDeletion(w, envs[0], cfg).0, envs[1..], cfg)
  }

  lemma {:induction false} DeletionsLeaveNone(w: World, envs: seq<Env>, cfg: Config)
    requires NamedAfterRails(w, cfg.name) && Covered(w, cfg)
    requires w.finalizer || (NoneOwned(w, cfg.name) && !w.pool)
    ensures var w' := RunDeletions(w, envs, cfg); w'.finalizer || (NoneOwned(w', cfg.name) && !w'.pool)
    decreases |envs|
  {
    if envs != [] {
      DeletionAttempt(w, envs[0], cfg);
      DeletionsLeaveNone(HandleDeletion(w, envs[0], cfg).0, envs[1..], cfg);
    }
  }

  lemma {:induction false} LivePassKeepsFinalizer(w: World, env: Env, cfg: Config)
    requires w.finalizer && !cfg.deleting
    ensures DoReconcile(w, env, cfg).0.finalizer
  {
    hide Configure;
    var w0 := Try(w, env, GetNode).0;
    var w2 := if env.selected && !SucceededForGeneration(w0, cfg) then Patch(w0, env, cfg, InProgress, "").0 else w0;
    assert w2.finalizer;
  }

  /**
   * If a pass for the current spec returned no error and the object is then deleted, any number of
   * deletion attempts, failed or not, keep the finalizer until no policy carries the owner label
   * and the pool config is gone.
   */
  lemma {:induction false} DeletionLeavesNoPolicy(w: World, env: Env, cfg: Config, envs: seq<Env>)
    requires w.finalizer && !cfg.deleting
    requires NamedAfterRails(w, cfg.name) && NamedRails(cfg.rails)
    requires forall names :: ListsAll(env, names)
    requires DoReconcile(w, env, cfg).1 == None
    ensures var w' := RunDeletions(DoReconcile(w, env, cfg).0, envs, cfg.(deleting := true));
            w'.finalizer || (NoneOwned(w', cfg.name) && !w'.pool)
  {
    hide DoReconcile, RailOf, HandleDeletion;
    CleanPassCovers(w, env, cfg);
    LivePassKeepsFinalizer(w, env, cfg);
    var w1 := DoReconcile(w, env, cfg).0;
    assert Covered(w1, cfg.(deleting := true));
    DeletionsLeaveNone(w1, envs, cfg.(deleting := true));
  }

  // ------------------------------------------------------------------ timeouts

  /** From position `from` on, both bridges of the rail were deleted without a timeout, in a row. */
  ghost predicate CleanupEnded(log: seq<Event>, from: nat, rail: string) {
    exists i :: from <= i < |log| - 1
      && log[i].op == Ovs(DelBr(RailBridge(rail))) && !log[i].outcome.Timeout?
      && log[i + 1].op == Ovs(DelBr(XPlaneBridge)) && !log[i + 1].outcome.Timeout?
  }

  lemma {:induction false} CleanupEndedGrows(log: seq<Event>, log': seq<Event>, from: nat, from': nat, rail: string)
    requires CleanupEnded(log, from, rail) && log <= log' && from' <= from
    ensures CleanupEnded(log', from', rail)
  {
    var i :| from <= i < |log| - 1
      && log[i].op == Ovs(DelBr(RailBridge(rail))) && !log[i].outcome.Timeout?
      && log[i + 1].op == Ovs(DelBr(XPlaneBridge)) && !log[i + 1].outcome.Timeout?;
    assert log'[i] == log[i] && log'[i + 1] == log[i + 1];
  }

  lemma {:induction false} CleanupEnds(w: World, env: Env, rail: string)
    requires CleanupXPlaneBridges(w, env, rail).1 == None
    ensures CleanupEnded(CleanupXPlaneBridges(w, env, rail).0.log, |w.log|, rail)
  {
    var (w1, o1) := Call(w, env, Ovs(DelBr(RailBridge(rail))));
    var (w2, o2) := Call(w1, env, Ovs(DelBr(XPlaneBridge)));
    assert w2.log[|w.log|] == Event(Ovs(DelBr(RailBridge(rail))), o1);
    assert w2.log[|w.log| + 1] == Event(Ovs(DelBr(XPlaneBridge)), o2);
  }

  /** Removing a multiplane rail touches its policies only after its bridges are gone. */
  lemma {:induction false} RemoveRailEnds(w: World, env: Env, rail: string)
    ensures var (w', e) := RemoveRail(w, env, rail, true);
            (e.None? || w'.policies != w.policies) ==> CleanupEnded(w'.log, |w.log|, rail)
  {
    var (w1, e1) := CleanupXPlaneBridges(w, env, rail);
    if e1.None? {
      CleanupEnds(w, env, rail);
      CleanupEndedGrows(w1.log, RemoveRail(w, env, rail, true).0.log, |w.log|, |w.log|, rail);
    }
  }

  /** The names of the two rails cannot be confused. */
  predicate Separate(a: string, b: string) {
    a != b && a != b + UNUSED && b != a + UNUSED
  }

  lemma {:induction false} SeparateNames(a: string, b: string, n: string)
    requires Separate(a, b) && (n == a || n == a + UNUSED)
    ensures n != b && n != b + UNUSED
  {
    assert (a + UNUSED)[..|a|] == a && (b + UNUSED)[..|b|] == b;
  }

  /** Position i lists the first policy of its rail. */
  ghost predicate FirstOfRail(listed: seq<(string, Policy)>, i: nat) {
    && i < |listed|
    && forall j :: 0 <= j < i ==> RailOf(listed[j].0, listed[j].1) != RailOf(listed[i].0, listed[i].1)
  }

  /** n is one of the two names a policy of rail x has. */
  predicate NameOf(n: string, x: string) {
    n == x || n == x + UNUSED
  }

  /** The policies of rail x carry its names, and no other owned rail has a name like it. */
  ghost predicate Isolated(w: World, owner: string, x: string) {
    forall n :: Owned(w, owner, n) ==>
      if RailOf(n, w.policies[n]) == x then NameOf(n, x) else Separate(x, RailOf(n, w.policies[n]))
  }

  ghost predicate ApartFrom(listed: seq<(string, Policy)>, x: string) {
    forall y :: y in listed ==> RailOf(y.0, y.1) == x || Separate(x, RailOf(y.0, y.1))
  }

  /** The first listed policy of rail x, if any, is multiplane. */
  ghost predicate FirstIsMultiplane(listed: seq<(string, Policy)>, x: string) {
    forall i: nat :: FirstOfRail(listed, i) && RailOf(listed[i].0, listed[i].1) == x ==>
      listed[i].1.multiplane || (listed[i].1.rail == "" && |listed[i].1.pfs| > 1)
  }

  lemma {:induction false} FirstIsMultiplaneStep(listed: seq<(string, Policy)>, x: string)
    requires listed != []
    ensures FirstIsMultiplane(listed, x) <==>
            if RailOf(listed[0].0, listed[0].1) == x then MultiplanePolicy(listed[0].1) else FirstIsMultiplane(listed[1..], x)
  {
    hide RailOf;
    assert FirstOfRail(listed, 0);
    assert forall k :: 0 <= k < |listed[1..]| ==> listed[1..][k] == listed[k + 1];
    if RailOf(listed[0].0, listed[0].1) != x {
      forall i: nat | FirstOfRail(listed[1..], i) && RailOf(listed[i + 1].0, listed[i + 1].1) == x ensures FirstOfRail(listed, i + 1) {
      }
      forall i: nat | FirstOfRail(listed, i) && i > 0 ensures FirstOfRail(listed[1..], i - 1) {
      }
    }
  }

  /** The policies of rail x are all still there. */
  ghost predicate KeepsRail(w: World, w': World, x: string) {
    forall n :: NameOf(n, x) && n in w.policies ==> n in w'.policies && w'.policies[n] == w.policies[n]
  }

  lemma {:induction false} RemoveRailsEnds(w: World, env: Env, listed: seq<(string, Policy)>, current: set<string>, removed: set<string>, x: string)
    requires x !in current && x !in removed && FirstIsMultiplane(listed, x) && ApartFrom(listed, x)
    ensures var w' := RemoveRails(w, env, listed, current, removed).0;
            Shrinks(w, w') && (KeepsRail(w, w', x) || CleanupEnded(w'.log, |w.log|, x))
    decreases |listed|
  {
    hide RemoveRail, RailOf, Separate, CleanupEnded, FirstIsMultiplane;
    if listed != [] {
      var rail := RailOf(listed[0].0, listed[0].1);
      FirstIsMultiplaneStep(listed, x);
      assert listed[0] in listed;
      assert ApartFrom(listed[1..], x);
      if rail in current || rail in removed {
        RemoveRailsEnds(w, env, listed[1..], current, removed, x);
      } else {
        var (w1, e) := RemoveRail(w, env, rail, MultiplanePolicy(listed[0].1));
        RemoveRailPolicies(w, env, rail, MultiplanePolicy(listed[0].1));
        var w' := RemoveRails(w, env, listed, current, removed).0;
        if rail == x {
          RemoveRailEnds(w, env, x);
          if e.None? {
            RemoveRailsShrinks(w1, env, listed[1..], current, removed + {rail});
            CleanupEndedGrows(w1.log, w'.log, |w.log|, |w.log|, x);
          }
        } else {
          RemovalSparesOthers(w, w1, rail, x);
          if e.None? {
            RemoveRailsEnds(w1, env, listed[1..], current, removed + {rail}, x);
            if !KeepsRail(w1, w', x) {
              CleanupEndedGrows(w'.log, w'.log, |w1.log|, |w.log|, x);
            }
          }
        }
      }
    }
  }

  lemma {:induction false} RemovalSparesOthers(w: World, w1: World, rail: string, x: string)
    requires Separate(x, rail) && Shrinks(w, w1)
    requires forall n :: n in w.policies && n != rail && n != rail + UNUSED ==> n in w1.policies
    ensures KeepsRail(w, w1, x)
  {
    forall n | NameOf(n, x) ensures n != rail && n != rail + UNUSED {
      SeparateNames(x, rail, n);
    }
  }

  lemma {:induction false} RemoveRailsShrinks(w: World, env: Env, listed: seq<(string, Policy)>, current: set<string>, removed: set<string>)
    ensures Shrinks(w, RemoveRails(w, env, listed, current, removed).0)
    decreases |listed|
  {
    if listed != [] {
      var rail := RailOf(listed[0].0, listed[0].1);
      if rail in current || rail in removed {
        RemoveRailsShrinks(w, env, listed[1..], current, removed);
      } else {
        RemoveRailPolicies(w, env, rail, MultiplanePolicy(listed[0].1));
        var (w1, e) := RemoveRail(w, env, rail, MultiplanePolicy(listed[0].1));
        RemoveRailsShrinks(w1, env, listed[1..], current, removed + {rail});
      }
    }
  }

  /** The owned policies as a listing returns them. */
  function Listing(w: World, env: Env, owner: string): seq<(string, Policy)> {
    OwnedAmong(w.policies, owner, env.order(w.policies.Keys))
  }

  lemma {:induction false} ListingIsApart(w: World, env: Env, owner: string, x: string)
    requires Isolated(w, owner, x)
    ensures ApartFrom(Listing(w, env, owner), x)
  {
    hide RailOf;
    var listed := Listing(w, env, owner);
    forall y | y in listed ensures RailOf(y.0, y.1) == x || Separate(x, RailOf(y.0, y.1)) {
      OwnedAmongIs(w.policies, owner, env.order(w.policies.Keys), y.0);
      assert Owned(w, owner, y.0);
    }
  }

  lemma {:induction false} DeleteRemovedEnds(w: World, env: Env, cfg: Config, x: string)
    requires Isolated(w, cfg.name, x) && x !in RailNames(cfg.rails) && FirstIsMultiplane(Listing(w, env, cfg.name), x)
    ensures var w' := DeleteRemovedRails(w, env, cfg).0;
            Shrinks(w, w') && (KeepsRail(w, w', x) || CleanupEnded(w'.log, |w.log|, x))
  {
    hide RemoveRails, FirstIsMultiplane, Isolated, CleanupEnded, Effect;
    CallPolicies(w, env, ListPolicies);
    var (w1, e1) := Try(w, env, ListPolicies);
    ListingIsApart(w, env, cfg.name, x);
    if e1.None? {
      RemoveRailsEnds(w1, env, Listing(w, env, cfg.name), RailNames(cfg.rails), {}, x);
      var w' := DeleteRemovedRails(w, env, cfg).0;
      if !KeepsRail(w1, w', x) {
        CleanupEndedGrows(w'.log, w'.log, |w1.log|, |w.log|, x);
      }
    }
  }

  // --------------------------------------------- the first listed policy decides

  /** The del-br of a rail's bridge. */
  function DelRail(rail: string): Op {
    Ovs(DelBr(RailBridge(rail)))
  }

  lemma {:induction false} RemoveRailSilent(w: World, env: Env, rail: string, multiplane: bool, x: string)
    requires rail != x || !multiplane
    ensures Silent(w, RemoveRail(w, env, rail, multiplane).0, DelRail(x))
  {
    hide Call, Silent;
    var w0 := if multiplane then CleanupXPlaneBridges(w, env, rail).0 else w;
    assert Silent(w, w0, DelRail(x)) by {
      SilentHere(w, DelRail(x));
      if multiplane {
        var w1 := Call(w, env, Ovs(DelBr(RailBridge(rail)))).0;
        CallSilent(w, env, Ovs(DelBr(RailBridge(rail))), DelRail(x));
        CallSilent(w1, env, Ovs(DelBr(XPlaneBridge)), DelRail(x));
        SilentTwice(w, w1, Call(w1, env, Ovs(DelBr(XPlaneBridge))).0, DelRail(x));
      }
    }
    var w1 := Call(w0, env, DeletePolicy(rail)).0;
    var w2 := Call(w1, env, DeletePolicy(rail + UNUSED)).0;
    CallSilent(w0, env, DeletePolicy(rail), DelRail(x));
    SilentTwice(w, w0, w1, DelRail(x));
    CallSilent(w1, env, DeletePolicy(rail + UNUSED), DelRail(x));
    SilentTwice(w, w1, w2, DelRail(x));
    CallSilent(w2, env, DeleteNetwork(rail), DelRail(x));
    SilentTwice(w, w2, Call(w2, env, DeleteNetwork(rail)).0, DelRail(x));
  }

  lemma {:induction false} RemoveRailsSilent(w: World, env: Env, listed: seq<(string, Policy)>, current: set<string>, removed: set<string>, x: string)
    requires x in current || x in removed || !FirstIsMultiplane(listed, x)
    ensures Silent(w, RemoveRails(w, env, listed, current, removed).0, DelRail(x))
    decreases |listed|
  {
    hide RemoveRail, RailOf, FirstIsMultiplane, Silent;
    SilentHere(w, DelRail(x));
    if listed != [] {
      FirstIsMultiplaneStep(listed, x);
      var rail, multiplane := RailOf(listed[0].0, listed[0].1), MultiplanePolicy(listed[0].1);
      if rail in current || rail in removed {
        RemoveRailsSilent(w, env, listed[1..], current, removed, x);
      } else {
        RemoveRailSilent(w, env, rail, multiplane, x);
        var (w1, e) := RemoveRail(w, env, rail, multiplane);
        if e.None? {
          RemoveRailsSilent(w1, env, listed[1..], current, removed + {rail}, x);
          SilentTwice(w, w1, RemoveRails(w1, env, listed[1..], current, removed + {rail}).0, DelRail(x));
        }
      }
    }
  }

  lemma {:induction false} SilentNeverEnds(w: World, w': World, x: string)
    requires Silent(w, w', DelRail(x))
    ensures !CleanupEnded(w'.log, |w.log|, x)
  {
  }

  /**
   * When the policies of a rail disagree on the multiplane label, the first one listed decides: a
   * removal that returns nil deletes the policies, and its bridges were deleted without a timeout
   * if and only if that policy is multiplane.
   */
  lemma {:induction false} FirstListedDecides(w: World, env: Env, cfg: Config, x: string, n: string)
    requires Isolated(w, cfg.name, x) && ListsAll(env, w.policies.Keys) && x !in RailNames(cfg.rails)
    requires Owned(w, cfg.name, n) && RailOf(n, w.policies[n]) == x
    requires DeleteRemovedRails(w, env, cfg).1 == None
    ensures var w' := DeleteRemovedRails(w, env, cfg).0;
            && RailGone(w', x)
            && (CleanupEnded(w'.log, |w.log|, x) <==> FirstIsMultiplane(Listing(w, env, cfg.name), x))
  {
    hide RemoveRails, RailOf, FirstIsMultiplane, CleanupEnded, Effect;
    CallPolicies(w, env, ListPolicies);
    var w1 := Try(w, env, ListPolicies).0;
    var listed, current := Listing(w, env, cfg.name), RailNames(cfg.rails);
    OwnedAmongIs(w.policies, cfg.name, env.order(w.policies.Keys), n);
    assert (n, w.policies[n]) in listed;
    RemoveRailsCovers(w1, env, listed, current, {});
    var w' := RemoveRails(w1, env, listed, current, {}).0;
    if FirstIsMultiplane(listed, x) {
      DeleteRemovedEnds(w, env, cfg, x);
      assert NameOf(n, x) && n !in w'.policies;
    } else {
      RemoveRailsSilent(w1, env, listed, current, {}, x);
      CallSilent(w, env, ListPolicies, DelRail(x));
      SilentTwice(w, w1, w', DelRail(x));
      SilentNeverEnds(w, w', x);
    }
  }

  // ------------------------------------------------------------ timeouts over runs

  ghost predicate SeparateFrom(x: string, rails: seq<Rail>) {
    forall r :: r in rails ==> r.name != "" && Separate(x, r.name)
  }

  ghost predicate PolicyOf(w: World, owner: string, x: string, n: string) {
    Owned(w, owner, n) && RailOf(n, w.policies[n]) == x
  }

  /** Rail x has the same policies in both states. */
  ghost predicate SameRail(w: World, w': World, owner: string, x: string) {
    forall n :: (PolicyOf(w', owner, x, n) <==> PolicyOf(w, owner, x, n))
             && (PolicyOf(w, owner, x, n) ==> w'.policies[n] == w.policies[n])
  }

  /** However the names are listed, the first policy of x is multiplane. */
  ghost predicate LeadsIn(w: World, owner: string, x: string, names: seq<string>) {
    forall i ::
      0 <= i < |names| && PolicyOf(w, owner, x, names[i]) && (forall j :: 0 <= j < i ==> !PolicyOf(w, owner, x, names[j])) ==>
      MultiplanePolicy(w.policies[names[i]])
  }

  ghost predicate LeadsMultiplane(w: World, env: Env, owner: string, x: string) {
    forall names :: LeadsIn(w, owner, x, env.order(names))
  }

  lemma {:induction false} LeadsInListing(w: World, owner: string, x: string, names: seq<string>)
    requires LeadsIn(w, owner, x, names)
    ensures FirstIsMultiplane(OwnedAmong(w.policies, owner, names), x)
  {
    hide RailOf;
    if names != [] {
      var n, rest := names[0], OwnedAmong(w.policies, owner, names[1..]);
      if PolicyOf(w, owner, x, n) {
        assert MultiplanePolicy(w.policies[n]);
        FirstIsMultiplaneStep(OwnedAmong(w.policies, owner, names), x);
      } else {
        assert forall k :: 0 <= k < |names[1..]| ==> names[1..][k] == names[k + 1];
        assert LeadsIn(w, owner, x, names[1..]);
        LeadsInListing(w, owner, x, names[1..]);
        if Owned(w, owner, n) {
          var listed := OwnedAmong(w.policies, owner, names);
          assert listed == [(n, w.policies[n])] + rest && listed[1..] == rest;
          FirstIsMultiplaneStep(listed, x);
        } else {
          assert OwnedAmong(w.policies, owner, names) == rest;
        }
      }
    }
  }

  lemma {:induction false} LeadsElsewhere(w: World, w': World, env: Env, owner: string, x: string)
    requires LeadsMultiplane(w, env, owner, x) && SameRail(w, w', owner, x)
    ensures LeadsMultiplane(w', env, owner, x)
  {
    forall names ensures LeadsIn(w', owner, x, env.order(names)) {
      assert LeadsIn(w, owner, x, env.order(names));
    }
  }

  lemma {:induction false} RailsKeepOthers(w: World, w': World, cfg: Config, x: string)
    requires Isolated(w, cfg.name, x) && SeparateFrom(x, cfg.rails) && OnlyOwnRails(w, w', cfg, cfg.rails)
    requires forall n :: n in w.policies && Foreign(n, cfg.rails) ==> n in w'.policies && w'.policies[n] == w.policies[n]
    ensures SameRail(w, w', cfg.name, x)
  {
    forall n | PolicyOf(w, cfg.name, x, n) ensures n in w'.policies && w'.policies[n] == w.policies[n] {
      assert NameOf(n, x);
      forall r | r in cfg.rails ensures !WritesName(r, n) {
        SeparateNames(x, r.name, n);
      }
    }
  }

  lemma {:induction false} KeptIsSame(w: World, w': World, owner: string, x: string)
    requires Isolated(w, owner, x) && Shrinks(w, w') && KeepsRail(w, w', x)
    ensures SameRail(w, w', owner, x)
  {
    forall n | PolicyOf(w, owner, x, n) ensures n in w'.policies && w'.policies[n] == w.policies[n] {
      assert NameOf(n, x);
    }
  }

  lemma {:induction false} SameRailTwice(w: World, w1: World, w2: World, owner: string, x: string)
    requires SameRail(w, w1, owner, x) && SameRail(w1, w2, owner, x)
    ensures SameRail(w, w2, owner, x)
  {
    assert forall n :: PolicyOf(w, owner, x, n) <==> PolicyOf(w1, owner, x, n);
  }

  lemma {:induction false} SamePolicies(w: World, w': World, owner: string, x: string)
    requires w'.policies == w.policies
    ensures SameRail(w, w', owner, x) && (Isolated(w, owner, x) ==> Isolated(w', owner, x))
  {
    assert forall n :: Owned(w', owner, n) <==> Owned(w, owner, n);
  }

  lemma {:induction false} ConfigureKeepsRemovedRail(w: World, env: Env, cfg: Config, x: string)
    requires SeparateFrom(x, cfg.rails) && Isolated(w, cfg.name, x) && LeadsMultiplane(w, env, cfg.name, x)
    ensures var w' := Configure(w, env, cfg).0;
            Isolated(w', cfg.name, x) && (SameRail(w, w', cfg.name, x) || CleanupEnded(w'.log, |w.log|, x))
  {
    hide Try, ReconcileRails, DeleteRemovedRails, Configure, RailOf, Separate, Isolated, LeadsMultiplane, LeadsIn, FirstIsMultiplane, SameRail, CleanupEnded;
    var owner := cfg.name;
    ConfigurePolicies(w, env, cfg);
    var w1 := Try(w, env, ApplyPool).0;
    var w2 := ReconcileRails(w1, env, cfg, cfg.rails).0;
    var w3, w' := DeleteRemovedRails(w2, env, cfg).0, Configure(w, env, cfg).0;
    SamePolicies(w, w1, owner, x);
    ReconcileRailsPolicies(w1, env, cfg, cfg.rails);
    RailsKeepOthers(w1, w2, cfg, x);
    SameRailTwice(w, w1, w2, owner, x);
    IsolatedKept(w1, w2, cfg, x);
    LeadsElsewhere(w, w2, env, owner, x);
    assert LeadsIn(w2, owner, x, env.order(w2.policies.Keys)) by { LeadsAt(w2, env, owner, x, w2.policies.Keys); }
    LeadsInListing(w2, owner, x, env.order(w2.policies.Keys));
    NotCurrent(x, cfg.rails);
    DeleteRemovedEnds(w2, env, cfg, x);
    IsolatedShrinks(w2, w3, cfg, x);
    if w'.policies == w.policies {
      SamePolicies(w, w', owner, x);
    } else if w'.policies == w2.policies {
      SamePolicies(w2, w', owner, x);
      SameRailTwice(w, w2, w', owner, x);
    } else {
      SamePolicies(w3, w', owner, x);
      if KeepsRail(w2, w3, x) {
        KeptIsSame(w2, w3, owner, x);
        SameRailTwice(w, w2, w3, owner, x);
        SameRailTwice(w, w3, w', owner, x);
      } else {
        CleanupEndedGrows(w3.log, w'.log, |w2.log|, |w.log|, x);
      }
    }
  }

  lemma {:induction false} LeadsAt(w: World, env: Env, owner: string, x: string, names: set<string>)
    requires LeadsMultiplane(w, env, owner, x)
    ensures LeadsIn(w, owner, x, env.order(names))
  {
  }

  lemma {:induction false} NotCurrent(x: string, rails: seq<Rail>)
    requires SeparateFrom(x, rails)
    ensures x !in RailNames(rails)
  {
  }

  lemma {:induction false} IsolatedKept(w: World, w': World, cfg: Config, x: string)
    requires Isolated(w, cfg.name, x) && SeparateFrom(x, cfg.rails) && OnlyOwnRails(w, w', cfg, cfg.rails)
    ensures Isolated(w', cfg.name, x)
  {
    forall n | Owned(w', cfg.name, n)
      ensures if RailOf(n, w'.policies[n]) == x then NameOf(n, x) else Separate(x, RailOf(n, w'.policies[n]))
    {
      if n in w.policies && w'.policies[n] == w.policies[n] {
        assert Owned(w, cfg.name, n);
      }
    }
  }

  lemma {:induction false} IsolatedShrinks(w: World, w': World, cfg: Config, x: string)
    requires Isolated(w, cfg.name, x) && Shrinks(w, w')
    ensures Isolated(w', cfg.name, x)
  {
    forall n | Owned(w', cfg.name, n) ensures Owned(w, cfg.name, n) {
    }
  }

  /** One pass for a spec without rail x. */
  lemma {:induction false} PassKeepsRemovedRail(w: World, env: Env, cfg: Config, x: string)
    requires !cfg.deleting && SeparateFrom(x, cfg.rails)
    requires Isolated(w, cfg.name, x) && LeadsMultiplane(w, env, cfg.name, x)
    ensures var w' := DoReconcile(w, env, cfg).0;
            Isolated(w', cfg.name, x) && (SameRail(w, w', cfg.name, x) || CleanupEnded(w'.log, |w.log|, x))
  {
    hide Configure, HandleDeletion, Isolated, LeadsMultiplane, SameRail, CleanupEnded, Effect, SucceededForGeneration;
    CallPolicies(w, env, AddFinalizer);
    SamePolicies(w, Call(w, env, AddFinalizer).0, cfg.name, x);
    if w.finalizer {
      var (w1, e1) := Try(w, env, GetNode);
      CallPolicies(w, env, GetNode);
      SamePolicies(w, w1, cfg.name, x);
      CallPolicies(w1, env, PatchStatus(NodeState(env.node, InProgress, "", cfg.generation)));
      var w2 := if env.selected && !SucceededForGeneration(w1, cfg) then Patch(w1, env, cfg, InProgress, "").0 else w1;
      assert w2.policies == w.policies;
      SamePolicies(w, w2, cfg.name, x);
      LeadsElsewhere(w, w2, env, cfg.name, x);
      ConfigureKeepsRemovedRail(w2, env, cfg, x);
      var w' := Configure(w2, env, cfg).0;
      if SameRail(w2, w', cfg.name, x) {
        SameRailTwice(w, w2, w', cfg.name, x);
      } else {
        CleanupEndedGrows(w'.log, w'.log, |w2.log|, |w.log|, x);
      }
    }
  }

  function RunPasses(w: World, passes: seq<(Env, Config)>): (w': World)
    ensures w.log <= w'.log
    decreases |passes|
  {
    if passes == [] then w else RunPasses(DoReconcile(w, passes[0].0, passes[0].1).0, passes[1..])
  }

  /**
   * With arbitrary failures and timeouts, over any number of passes for specs without rail x that
   * list a multiplane policy of x first, the policies of x stay as they are until both its del-br
   * commands ended without a timeout. So a cleanup that timed out is found again by the next pass.
   */
  lemma {:induction false} TimedOutCleanupIsFoundAgain(w: World, passes: seq<(Env, Config)>, owner: string, x: string)
    requires forall p :: p in passes ==>
               !p.1.deleting && p.1.name == owner && SeparateFrom(x, p.1.rails) && LeadsMultiplane(w, p.0, owner, x)
    requires Isolated(w, owner, x)
    ensures var w' := RunPasses(w, passes);
            SameRail(w, w', owner, x) || CleanupEnded(w'.log, |w.log|, x)
    decreases |passes|
  {
    hide DoReconcile, Isolated, LeadsMultiplane, SameRail, CleanupEnded, SeparateFrom;
    if passes == [] {
      SamePolicies(w, w, owner, x);
    } else {
      assert passes[0] in passes;
      assert forall p :: p in passes[1..] ==> p in passes;
      PassKeepsRemovedRail(w, passes[0].0, passes[0].1, x);
      var w1 := DoReconcile(w, passes[0].0, passes[0].1).0;
      var w' := RunPasses(w1, passes[1..]);
      if SameRail(w, w1, owner, x) {
        forall p | p in passes[1..] ensures LeadsMultiplane(w1, p.0, owner, x) {
          LeadsElsewhere(w, w1, p.0, owner, x);
        }
        TimedOutCleanupIsFoundAgain(w1, passes[1..], owner, x);
        if SameRail(w1, w', owner, x) {
          SameRailTwice(w, w1, w', owner, x);
        } else {
          CleanupEndedGrows(w'.log, w'.log, |w1.log|, |w.log|, x);
        }
      } else {
        CleanupEndedGrows(w1.log, w'.log, |w.log|, |w.log|, x);
      }
    }
  }

  /** When all policies of x are multiplane, every listing leads with one. */
  lemma {:induction false} UniformLabelsLead(w: World, env: Env, owner: string, x: string)
    requires forall n :: PolicyOf(w, owner, x, n) ==> MultiplanePolicy(w.policies[n])
    ensures LeadsMultiplane(w, env, owner, x)
  {
  }

  lemma {:induction false} DeleteRailsEnds(w: World, env: Env, rails: seq<Rail>, r: Rail)
    requires DeleteRails(w, env, rails).1 == None && r in rails && Multiplane(r)
    ensures CleanupEnded(DeleteRails(w, env, rails).0.log, |w.log|, r.name)
    decreases |rails|
  {
    var w1 := RemoveRail(w, env, rails[0].name, Multiplane(rails[0])).0;
    var w' := DeleteRails(w, env, rails).0;
    if rails[0] == r {
      RemoveRailEnds(w, env, r.name);
      CleanupEndedGrows(w1.log, w'.log, |w.log|, |w.log|, r.name);
    } else {
      assert r in rails[1..];
      DeleteRailsEnds(w1, env, rails[1..], r);
      CleanupEndedGrows(w'.log, w'.log, |w1.log|, |w.log|, r.name);
    }
  }

  /** A deleting object keeps its finalizer until every multiplane rail's bridges were deleted without a timeout. */
  lemma {:induction false} FinalizerWaitsForBridges(w: World, env: Env, cfg: Config, r: Rail)
    requires w.finalizer && cfg.deleting && r in cfg.rails && Multiplane(r)
    ensures var w' := DoReconcile(w, env, cfg).0;
            !w'.finalizer ==> CleanupEnded(w'.log, |w.log|, r.name)
  {
    var (w1, e1) := DeleteRails(w, env, cfg.rails);
    if e1.None? {
      DeleteRailsEnds(w, env, cfg.rails, r);
      CleanupEndedGrows(w1.log, DoReconcile(w, env, cfg).0.log, |w.log|, |w.log|, r.name);
    }
  }
}
