/** When passes are clean: the environment lets every call succeed and no port is held elsewhere. */
module CleanRuns {
  import opened Basics
  import opened NodeStates
  import opened XPlane
  import opened Reconciler
  import opened ReconcilerProofs
  import opened Convergence

  /** The environment refuses nothing; ovs-vsctl still may. */
  ghost predicate AllOk(env: Env) {
    forall t :: env.oracle(t).Ok?
  }

  ghost predicate Clean(w: World, w': World) {
    w.log <= w'.log && CleanSince(w', |w.log|)
  }

  lemma {:induction false} CleanJoin(w: World, w1: World, w2: World)
    requires Clean(w, w1) && Clean(w1, w2)
    ensures Clean(w, w2)
  {
    forall i | |w.log| <= i < |w2.log| ensures w2.log[i].outcome.Ok? {
      assert i < |w1.log| ==> w2.log[i] == w1.log[i];
    }
  }

  lemma {:induction false} OkCall(w: World, env: Env, op: Op)
    requires AllOk(env) && Effect(w, op).Some?
    ensures var (w1, o) := Call(w, env, op);
            o.Ok? && Clean(w, w1) && w1 == Effect(w, op).value.(log := w1.log)
  {
    hide Effect;
  }

  /** A call that is not an ovs command is never refused. */
  lemma {:induction false} OkOther(w: World, env: Env, op: Op)
    requires AllOk(env) && (op.Ovs? ==> op.c.AddBr? || op.c.DelBr?)
    ensures Call(w, env, op).1.Ok? && Clean(w, Call(w, env, op).0)
  {
    OkCall(w, env, op);
  }

  lemma {:induction false} OkUplinks(w: World, env: Env, r: Rail, idx: nat)
    requires AllOk(env) && idx <= |r.pfs| && RunAll(w.db, UplinksFrom(r, idx)).Some?
    ensures var (w', e) := AddUplinks(w, env, r, idx); e.None? && Clean(w, w')
    decreases |r.pfs| - idx
  {
    hide Apply, Call;
    if idx < |r.pfs| {
      var c := UplinkOf(r, idx);
      assert UplinksFrom(r, idx)[0] == c && UplinksFrom(r, idx)[1..] == UplinksFrom(r, idx + 1);
      OkCall(w, env, Ovs(c));
      var w1 := Call(w, env, Ovs(c)).0;
      OkUplinks(w1, env, r, idx + 1);
      CleanJoin(w, w1, AddUplinks(w1, env, r, idx + 1).0);
    }
  }

  lemma {:induction false} OkCreate(w: World, env: Env, r: Rail)
    requires AllOk(env) && RunAll(w.db, RailProgram(r)).Some?
    ensures var (w', e) := CreateXPlaneBridges(w, env, r); e.None? && Clean(w, w')
  {
    hide Apply, AddUplinks, Call, Clean;
    var c1, c2, c4 := AddBr(XPlaneBridge, Secure), AddBr(RailBridge(r.name), Standalone), AddPatch(r.name, r.mtu);
    var w1 := Call(w, env, Ovs(c1)).0;
    var w2 := Call(w1, env, Ovs(c2)).0;
    OkOther(w, env, Ovs(c1));
    OkOther(w1, env, Ovs(c2));
    CleanJoin(w, w1, w2);
    BridgesRun(w, env, r);
    OkUplinks(w2, env, r, 0);
    var w3 := AddUplinks(w2, env, r, 0).0;
    CleanJoin(w, w2, w3);
    assert Clean(w2, w3);
    UplinksRunHere(w2, env, r);
    RunOne(w3.db, c4);
    OkCall(w3, env, Ovs(c4));
    CleanJoin(w, w3, Call(w3, env, Ovs(c4)).0);
  }

  /** After the two add-br commands the rest of the program can still run. */
  lemma {:induction false} BridgesRun(w: World, env: Env, r: Rail)
    requires AllOk(env) && RunAll(w.db, RailProgram(r)).Some?
    ensures var c1, c2 := Ovs(AddBr(XPlaneBridge, Secure)), Ovs(AddBr(RailBridge(r.name), Standalone));
            var w2 := Call(Call(w, env, c1).0, env, c2).0;
            var up := RunAll(w2.db, UplinksFrom(r, 0));
            up.Some? && RunAll(up.value, [AddPatch(r.name, r.mtu)]).Some?
  {
    hide Apply, AddUplinks;
    var c1, c2, c4 := AddBr(XPlaneBridge, Secure), AddBr(RailBridge(r.name), Standalone), AddPatch(r.name, r.mtu);
    RunAllSplit(w.db, [c1, c2] + UplinksFrom(r, 0), [c4]);
    RunAllSplit(w.db, [c1, c2], UplinksFrom(r, 0));
    RunTwo(w.db, c1, c2);
    OkCall(w, env, Ovs(c1));
    OkCall(Call(w, env, Ovs(c1)).0, env, Ovs(c2));
  }

  lemma {:induction false} UplinksRunHere(w: World, env: Env, r: Rail)
    requires Clean(w, AddUplinks(w, env, r, 0).0)
    ensures RunAll(w.db, UplinksFrom(r, 0)) == Some(AddUplinks(w, env, r, 0).0.db)
  {
    UplinksRun(w, env, r, 0, AddUplinks(w, env, r, 0).0, |w.log|);
  }

  lemma {:induction false} OkCheckNodes(w: World, env: Env, nodes: seq<string>)
    requires AllOk(env)
    ensures Clean(w, CheckNodes(w, env, nodes).0)
    decreases |nodes|
  {
    hide Call;
    if nodes != [] {
      var op := GetSriovState(nodes[0]);
      OkOther(w, env, op);
      var w1 := Call(w, env, op).0;
      OkCheckNodes(w1, env, nodes[1..]);
      CleanJoin(w, w1, CheckNodes(w1, env, nodes[1..]).0);
    }
  }

  lemma {:induction false} OkPrepare(w: World, env: Env)
    requires AllOk(env)
    ensures Clean(w, PrepareXPlane(w, env).0)
  {
    hide Call, CheckNodes, Clean;
    var w1 := Call(w, env, InstallHook).0;
    var w2 := Call(w1, env, ListNodes).0;
    OkOther(w, env, InstallHook);
    OkOther(w1, env, ListNodes);
    CleanJoin(w, w1, w2);
    OkCheckNodes(w2, env, env.poolNodes);
    CleanJoin(w, w2, CheckNodes(w2, env, env.poolNodes).0);
  }

  lemma {:induction false} OkConfigureXPlane(w: World, env: Env, r: Rail)
    requires AllOk(env) && AllKnown(env) && Ready(env, r) && RunAll(w.db, RailProgram(r)).Some?
    ensures Clean(w, ConfigureXPlane(w, env, r).0)
  {
    hide PrepareXPlane, CreateXPlaneBridges, Call, RailProgram, RunAll;
    OkPrepare(w, env);
    var w1 := PrepareXPlane(w, env).0;
    PrepareRun(w, env, w1, |w.log|);
    OkCreate(w1, env, r);
    var w2 := CreateXPlaneBridges(w1, env, r).0;
    CleanJoin(w, w1, w2);
    OkOther(w2, env, DeployXPlane);
    CleanJoin(w, w2, Call(w2, env, DeployXPlane).0);
  }

  lemma {:induction false} OkTry(w: World, env: Env, op: Op)
    requires AllOk(env) && !op.Ovs?
    ensures Try(w, env, op).1 == None && Clean(w, Try(w, env, op).0)
  {
    hide Call;
    OkOther(w, env, op);
  }

  lemma {:induction false} OkApplyRail(w: World, env: Env, cfg: Config, r: Rail)
    requires AllOk(env) && r.pfs != []
    ensures Clean(w, ApplyRail(w, env, cfg, r).0)
  {
    hide Try, Clean, Primary, Secondary;
    var op1, op2 := ApplyPolicy(r.name, Primary(cfg, r)), ApplyPolicy(r.name + UNUSED, Secondary(cfg, r));
    OkTry(w, env, op1);
    var w1 := Try(w, env, op1).0;
    OkTry(w1, env, op2);
    var w2 := if Multiplane(r) then Try(w1, env, op2).0 else w1;
    assert Clean(w, w2) by {
      CleanJoin(w, w1, Try(w1, env, op2).0);
    }
    OkTry(w2, env, GetCidrPool(r.name));
    var w3 := if r.cidrPoolRef then Try(w2, env, GetCidrPool(r.name)).0 else w2;
    assert Clean(w, w3) by {
      CleanJoin(w, w2, Try(w2, env, GetCidrPool(r.name)).0);
    }
    OkTry(w3, env, ApplyNetwork(r.name));
    CleanJoin(w, w3, Try(w3, env, ApplyNetwork(r.name)).0);
  }

  lemma {:induction false} OkRail(w: World, env: Env, cfg: Config, r: Rail)
    requires AllOk(env) && AllKnown(env) && r.pfs != [] && (Multiplane(r) ==> Ready(env, r) && RunAll(w.db, RailProgram(r)).Some?)
    ensures Clean(w, ReconcileRail(w, env, cfg, r).0)
  {
    hide ApplyRail, ConfigureXPlane, RailProgram, RunAll, ApplyPolicies;
    OkApplyRail(w, env, cfg, r);
    var w1 := ApplyRail(w, env, cfg, r).0;
    ApplyRailRun(w, env, cfg, r, w1, |w.log|);
    if Multiplane(r) {
      OkConfigureXPlane(w1, env, r);
      CleanJoin(w, w1, ConfigureXPlane(w1, env, r).0);
    }
  }

  lemma {:induction false} OkRails(w: World, env: Env, cfg: Config, rails: seq<Rail>)
    requires AllOk(env) && AllReady(env, rails) && RunAll(w.db, Program(rails)).Some?
    ensures Clean(w, ReconcileRails(w, env, cfg, rails).0)
    decreases |rails|
  {
    hide ReconcileRail, RailProgram, ApplyPolicies, Apply;
    if rails != [] {
      var r, rest := rails[0], rails[1..];
      assert r in rails;
      assert forall q :: q in rest ==> q in rails;
      RunAllSplit(w.db, if Multiplane(r) then RailProgram(r) else [], Program(rest));
      OkRail(w, env, cfg, r);
      var w1 := ReconcileRail(w, env, cfg, r).0;
      RailRun(w, env, cfg, r, w1, |w.log|);
      OkRails(w1, env, cfg, rest);
      CleanJoin(w, w1, ReconcileRails(w1, env, cfg, rest).0);
    }
  }

  lemma {:induction false} OkRemoveRail(w: World, env: Env, rail: string, multiplane: bool)
    requires AllOk(env)
    ensures RemoveRail(w, env, rail, multiplane).1 == None && Clean(w, RemoveRail(w, env, rail, multiplane).0)
  {
    hide Call, Clean;
    var a := Call(w, env, Ovs(DelBr(RailBridge(rail)))).0;
    OkOther(w, env, Ovs(DelBr(RailBridge(rail))));
    OkOther(a, env, Ovs(DelBr(XPlaneBridge)));
    CleanJoin(w, a, Call(a, env, Ovs(DelBr(XPlaneBridge))).0);
    var w0 := if multiplane then CleanupXPlaneBridges(w, env, rail).0 else w;
    assert Clean(w, w0) by { CleanHere(w); }
    OkTry(w0, env, DeletePolicy(rail));
    var w1 := Try(w0, env, DeletePolicy(rail)).0;
    CleanJoin(w, w0, w1);
    OkTry(w1, env, DeletePolicy(rail + UNUSED));
    var w2 := Try(w1, env, DeletePolicy(rail + UNUSED)).0;
    CleanJoin(w, w1, w2);
    OkTry(w2, env, DeleteNetwork(rail));
    CleanJoin(w, w2, Try(w2, env, DeleteNetwork(rail)).0);
  }

  lemma {:induction false} CleanHere(w: World)
    ensures Clean(w, w)
  {
  }

  lemma {:induction false} OkRemoveRails(w: World, env: Env, listed: seq<(string, Policy)>, current: set<string>, removed: set<string>)
    requires AllOk(env)
    ensures var (w', e) := RemoveRails(w, env, listed, current, removed); e.None? && Clean(w, w')
    decreases |listed|
  {
    hide RemoveRail, RailOf;
    if listed != [] {
      var rail, multiplane := RailOf(listed[0].0, listed[0].1), MultiplanePolicy(listed[0].1);
      if rail in current || rail in removed {
        OkRemoveRails(w, env, listed[1..], current, removed);
      } else {
        OkRemoveRail(w, env, rail, multiplane);
        var w1 := RemoveRail(w, env, rail, multiplane).0;
        OkRemoveRails(w1, env, listed[1..], current, removed + {rail});
        CleanJoin(w, w1, RemoveRails(w1, env, listed[1..], current, removed + {rail}).0);
      }
    }
  }

  lemma {:induction false} OkDeleteRemoved(w: World, env: Env, cfg: Config)
    requires AllOk(env)
    ensures var (w', e) := DeleteRemovedRails(w, env, cfg); e.None? && Clean(w, w')
  {
    hide Try, RemoveRails, Clean;
    OkTry(w, env, ListPolicies);
    var w1 := Try(w, env, ListPolicies).0;
    var listed := OwnedAmong(w1.policies, cfg.name, env.order(w1.policies.Keys));
    OkRemoveRails(w1, env, listed, RailNames(cfg.rails), {});
    CleanJoin(w, w1, RemoveRails(w1, env, listed, RailNames(cfg.rails), {}).0);
  }

  lemma {:induction false} OkNodeStatus(w: World, env: Env, cfg: Config)
    requires AllOk(env) && env.selected
    ensures var (w', e) := ProcessNodeStatus(w, env, cfg); e.None? && Clean(w, w')
  {
    hide Try, Clean;
    OkTry(w, env, GetSriovState(env.node));
    var w1 := Try(w, env, GetSriovState(env.node)).0;
    var op := PatchStatus(NodeState(env.node, NodeVerdict(env), "", cfg.generation));
    OkTry(w1, env, op);
    CleanJoin(w, w1, Try(w1, env, op).0);
  }

  lemma {:induction false} OkConfigure(w: World, env: Env, cfg: Config)
    requires AllOk(env) && Steady(w, env, cfg) && RunAll(w.db, Program(cfg.rails)).Some?
    ensures Clean(w, Configure(w, env, cfg).0)
  {
    hide Try, ReconcileRails, DeleteRemovedRails, ProcessNodeStatus, Program, RunAll, ApplyAllPolicies, Clean;
    OkTry(w, env, ApplyPool);
    var w1 := Try(w, env, ApplyPool).0;
    assert w1.db == w.db by { PoolKeepsDb(w, env); }
    OkRails(w1, env, cfg, cfg.rails);
    var w2 := ReconcileRails(w1, env, cfg, cfg.rails).0;
    CleanJoin(w, w1, w2);
    RailsRunHere(w1, env, cfg);
    OkDeleteRemoved(w2, env, cfg);
    var w3 := DeleteRemovedRails(w2, env, cfg).0;
    CleanJoin(w, w2, w3);
    OkNodeStatus(w3, env, cfg);
    CleanJoin(w, w3, ProcessNodeStatus(w3, env, cfg).0);
  }

  lemma {:induction false} PoolKeepsDb(w: World, env: Env)
    ensures Try(w, env, ApplyPool).0.db == w.db
  {
  }

  lemma {:induction false} RailsRunHere(w: World, env: Env, cfg: Config)
    requires AllReady(env, cfg.rails) && Clean(w, ReconcileRails(w, env, cfg, cfg.rails).0)
    ensures ReconcileRails(w, env, cfg, cfg.rails).1 == None
  {
    hide ReconcileRails, Program, RunAll, ApplyAllPolicies;
    RailsRun(w, env, cfg, cfg.rails, ReconcileRails(w, env, cfg, cfg.rails).0, |w.log|);
  }

  /**
   * In an environment that refuses nothing, a pass is without a failed call if and only if no other
   * bridge holds a port of the rails.
   */
  lemma {:induction false} PassIsCleanIff(w: World, env: Env, cfg: Config)
    requires AllOk(env) && Steady(w, env, cfg)
    ensures CleanSince(DoReconcile(w, env, cfg).0, |w.log|) <==> AllFit(w.db, Program(cfg.rails))
  {
    hide Configure, Program, RunAll, AllFit, GoneIn, DroppedIn, ApplyAllPolicies, Clean;
    ProgramRunsIff(w.db, cfg.rails);
    if CleanSince(DoReconcile(w, env, cfg).0, |w.log|) {
      CleanPass(w, env, cfg);
    }
    if AllFit(w.db, Program(cfg.rails)) {
      OkPass(w, env, cfg);
    }
  }

  lemma {:induction false} OkPass(w: World, env: Env, cfg: Config)
    requires AllOk(env) && Steady(w, env, cfg) && RunAll(w.db, Program(cfg.rails)).Some?
    ensures CleanSince(DoReconcile(w, env, cfg).0, |w.log|)
  {
    hide Configure, Program, RunAll, Call;
    OkCall(w, env, GetNode);
    var w1 := Call(w, env, GetNode).0;
    var op := PatchStatus(NodeState(env.node, InProgress, "", cfg.generation));
    OkCall(w1, env, op);
    var w2 := if SucceededForGeneration(w1, cfg) then w1 else Call(w1, env, op).0;
    CleanJoin(w, w1, Call(w1, env, op).0);
    assert w2.db == w.db && Steady(w2, env, cfg) && Clean(w, w2);
    OkConfigure(w2, env, cfg);
    CleanJoin(w, w2, Configure(w2, env, cfg).0);
  }

  lemma {:induction false} FewerBridgesFit(db: Db, dropped: set<BridgeName>, c: Command)
    requires Fits(db, c)
    ensures Fits(db - dropped, c)
  {
  }

  /** A clean pass leaves every port of the rails free of other bridges. */
  lemma {:induction false} PassKeepsFit(w: World, env: Env, cfg: Config)
    requires Steady(w, env, cfg) && CleanSince(DoReconcile(w, env, cfg).0, |w.log|) && AllFit(w.db, Program(cfg.rails))
    ensures AllFit(DoReconcile(w, env, cfg).0.db, Program(cfg.rails))
  {
    hide DoReconcile, Program, RunAll, GoneIn, DroppedIn, ApplyAllPolicies, Fits;
    CleanPass(w, env, cfg);
    var after, w' := RunAll(w.db, Program(cfg.rails)).value, DoReconcile(w, env, cfg).0;
    forall c | c in Program(cfg.rails) ensures Fits(w'.db, c) {
      forall d | d in Program(cfg.rails) ensures !d.DelBr? {
        ProgramIs(cfg.rails, d);
      }
      RunKeepsFits(w.db, Program(cfg.rails), c);
      FewerBridgesFit(after, DroppedIn(w, env, cfg), c);
    }
  }

  lemma {:induction false} SteadyAfter(w: World, w': World, env: Env, cfg: Config)
    requires Steady(w, env, cfg) && w'.finalizer
    ensures Steady(w', env, cfg)
  {
  }

  /**
   * Convergence from the inputs alone: where the environment refuses nothing and no other bridge
   * holds a port of the rails, three passes return nil, every multiplane rail is configured after
   * the second, and the third changes nothing but the log.
   */
  lemma {:induction false} OkEnvironmentConverges(w: World, e1: Env, e2: Env, e3: Env, cfg: Config)
    requires NamedAfterRails(w, cfg.name) && AllFit(w.db, Program(cfg.rails))
    requires Steady(w, e1, cfg) && Steady(w, e2, cfg) && Steady(w, e3, cfg)
    requires AllOk(e1) && AllOk(e2) && AllOk(e3) && e2.node == e3.node && e2.sriov == e3.sriov
    ensures var (w1, r1) := DoReconcile(w, e1, cfg);
            var (w2, r2) := DoReconcile(w1, e2, cfg);
            var (w3, r3) := DoReconcile(w2, e3, cfg);
            && r1.None? && r2.None? && r3.None?
            && (forall i :: 0 <= i < |cfg.rails| && Multiplane(cfg.rails[i]) ==> Configured(w2.db, cfg.rails[i]))
            && w3 == w2.(log := w3.log)
  {
    hide DoReconcile, Program, RunAll, AllFit, Steady, Configured, AllOk, NamedAfterRails;
    var w1 := DoReconcile(w, e1, cfg).0;
    var w2 := DoReconcile(w1, e2, cfg).0;
    OkPassAgain(w, e1, cfg);
    SteadyAfter(w, w1, e2, cfg);
    SteadyAfter(w, w1, e3, cfg);
    OkPassAgain(w1, e2, cfg);
    SteadyAfter(w1, w2, e3, cfg);
    OkPassAgain(w2, e3, cfg);
    TwoPassesReachFixedPoint(w, e1, e2, e3, cfg);
  }

  lemma {:induction false} OkPassAgain(w: World, env: Env, cfg: Config)
    requires AllOk(env) && Steady(w, env, cfg) && AllFit(w.db, Program(cfg.rails))
    ensures var (w', e) := DoReconcile(w, env, cfg);
            e.None? && CleanSince(w', |w.log|) && w'.finalizer && AllFit(w'.db, Program(cfg.rails))
  {
    hide DoReconcile, Program, RunAll, AllFit, GoneIn, DroppedIn, ApplyAllPolicies;
    PassIsCleanIff(w, env, cfg);
    CleanPass(w, env, cfg);
    PassKeepsFit(w, env, cfg);
    LivePassKeepsFinalizer(w, env, cfg);
  }
}
