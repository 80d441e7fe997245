/** What no later pass finds again: networks without a policy, and second policies of shrunken rails. */
module Orphans {
  import opened Basics
  import opened NodeStates
  import opened XPlane
  import opened Reconciler
  import opened ReconcilerProofs
  import opened Convergence

  // ------------------------------------------------------------------ networks

  ghost predicate NetKept(w: World, w': World, x: string) {
    x in w'.networks <==> x in w.networks
  }

  lemma {:induction false} CallNet(w: World, env: Env, op: Op, x: string)
    requires op != ApplyNetwork(x) && op != DeleteNetwork(x)
    ensures NetKept(w, Call(w, env, op).0, x)
  {
    hide Apply;
  }

  lemma {:induction false} UplinksNet(w: World, env: Env, r: Rail, idx: nat, x: string)
    requires idx <= |r.pfs|
    ensures NetKept(w, AddUplinks(w, env, r, idx).0, x)
    decreases |r.pfs| - idx
  {
    hide Call;
    if idx < |r.pfs| {
      CallNet(w, env, Ovs(UplinkOf(r, idx)), x);
      UplinksNet(Call(w, env, Ovs(UplinkOf(r, idx))).0, env, r, idx + 1, x);
    }
  }

  lemma {:induction false} CheckNodesNet(w: World, env: Env, nodes: seq<string>, x: string)
    ensures NetKept(w, CheckNodes(w, env, nodes).0, x)
    decreases |nodes|
  {
    hide Call;
    if nodes != [] {
      CallNet(w, env, GetSriovState(nodes[0]), x);
      CheckNodesNet(Call(w, env, GetSriovState(nodes[0])).0, env, nodes[1..], x);
    }
  }

  lemma {:induction false} BridgesNet(w: World, env: Env, r: Rail, x: string)
    ensures NetKept(w, CreateXPlaneBridges(w, env, r).0, x)
  {
    hide Call, AddUplinks;
    var op1, op2 := Ovs(AddBr(XPlaneBridge, Secure)), Ovs(AddBr(RailBridge(r.name), Standalone));
    var w1 := Call(w, env, op1).0;
    var w2 := Call(w1, env, op2).0;
    CallNet(w, env, op1, x);
    CallNet(w1, env, op2, x);
    UplinksNet(w2, env, r, 0, x);
    CallNet(AddUplinks(w2, env, r, 0).0, env, Ovs(AddPatch(r.name, r.mtu)), x);
  }

  lemma {:induction false} XPlaneNet(w: World, env: Env, r: Rail, x: string)
    ensures NetKept(w, ConfigureXPlane(w, env, r).0, x)
  {
    hide Call, CheckNodes, CreateXPlaneBridges;
    var w1 := Call(w, env, InstallHook).0;
    var w2 := Call(w1, env, ListNodes).0;
    CallNet(w, env, InstallHook, x);
    CallNet(w1, env, ListNodes, x);
    CheckNodesNet(w2, env, env.poolNodes, x);
    var w3 := PrepareXPlane(w, env).0;
    BridgesNet(w3, env, r, x);
    CallNet(CreateXPlaneBridges(w3, env, r).0, env, DeployXPlane, x);
  }

  lemma {:induction false} ApplyRailNet(w: World, env: Env, cfg: Config, r: Rail, x: string)
    requires r.name != x
    ensures NetKept(w, ApplyRail(w, env, cfg, r).0, x)
  {
    hide Call, Primary, Secondary;
    if r.pfs != [] {
      var op1, op2 := ApplyPolicy(r.name, Primary(cfg, r)), ApplyPolicy(r.name + UNUSED, Secondary(cfg, r));
      var w1 := Call(w, env, op1).0;
      CallNet(w, env, op1, x);
      CallNet(w1, env, op2, x);
      var w2 := if Multiplane(r) then Call(w1, env, op2).0 else w1;
      CallNet(w2, env, GetCidrPool(r.name), x);
      var w3 := if r.cidrPoolRef then Call(w2, env, GetCidrPool(r.name)).0 else w2;
      CallNet(w3, env, ApplyNetwork(r.name), x);
    }
  }

  lemma {:induction false} RailsNet(w: World, env: Env, cfg: Config, rails: seq<Rail>, x: string)
    requires x !in RailNames(rails)
    ensures NetKept(w, ReconcileRails(w, env, cfg, rails).0, x)
    decreases |rails|
  {
    hide ApplyRail, ConfigureXPlane;
    if rails != [] {
      var r := rails[0];
      assert r in rails && r.name in RailNames(rails);
      assert RailNames(rails[1..]) <= RailNames(rails);
      ApplyRailNet(w, env, cfg, r, x);
      XPlaneNet(ApplyRail(w, env, cfg, r).0, env, r, x);
      RailsNet(ReconcileRail(w, env, cfg, r).0, env, cfg, rails[1..], x);
    }
  }

  /** Removing another rail keeps the network; removing its own rail without an error deletes it. */
  lemma {:induction false} RemoveRailNet(w: World, env: Env, rail: string, multiplane: bool, x: string)
    ensures var (w', e) := RemoveRail(w, env, rail, multiplane);
            && (rail != x ==> NetKept(w, w', x))
            && (rail == x && e.None? ==> x !in w'.networks)
  {
    hide Call, CleanupXPlaneBridges;
    CleanupNet(w, env, rail, x);
    var w0 := if multiplane then CleanupXPlaneBridges(w, env, rail).0 else w;
    var w1 := Call(w0, env, DeletePolicy(rail)).0;
    var w2 := Call(w1, env, DeletePolicy(rail + UNUSED)).0;
    CallNet(w0, env, DeletePolicy(rail), x);
    CallNet(w1, env, DeletePolicy(rail + UNUSED), x);
    if rail == x {
      DeletedNet(w2, env, x);
    } else {
      CallNet(w2, env, DeleteNetwork(rail), x);
    }
  }

  lemma {:induction false} CleanupNet(w: World, env: Env, rail: string, x: string)
    ensures NetKept(w, CleanupXPlaneBridges(w, env, rail).0, x)
  {
    hide Call;
    CallNet(w, env, Ovs(DelBr(RailBridge(rail))), x);
    CallNet(Call(w, env, Ovs(DelBr(RailBridge(rail)))).0, env, Ovs(DelBr(XPlaneBridge)), x);
  }

  lemma {:induction false} DeletedNet(w: World, env: Env, x: string)
    ensures Call(w, env, DeleteNetwork(x)).1.Ok? ==> x !in Call(w, env, DeleteNetwork(x)).0.networks
  {
  }

  /** Rail x has a policy in the list. */
  ghost predicate ListsRail(listed: seq<(string, Policy)>, x: string) {
    exists y :: y in listed && RailOf(y.0, y.1) == x
  }

  lemma {:induction false} RemoveRailsNet(w: World, env: Env, listed: seq<(string, Policy)>, current: set<string>, removed: set<string>, x: string)
    requires x !in current && (x in removed ==> x !in w.networks)
    ensures var (w', e) := RemoveRails(w, env, listed, current, removed);
            && (!ListsRail(listed, x) ==> NetKept(w, w', x))
            && (e.None? ==> (x in w'.networks <==> x in w.networks && !ListsRail(listed, x)))
    decreases |listed|
  {
    hide RemoveRail, RailOf;
    if listed != [] {
      var rail, multiplane := RailOf(listed[0].0, listed[0].1), MultiplanePolicy(listed[0].1);
      assert ListsRail(listed, x) <==> rail == x || ListsRail(listed[1..], x) by {
        assert listed[0] in listed;
        assert forall y :: y in listed <==> y == listed[0] || y in listed[1..];
      }
      if rail in current || rail in removed {
        RemoveRailsNet(w, env, listed[1..], current, removed, x);
      } else {
        RemoveRailNet(w, env, rail, multiplane, x);
        var (w1, e) := RemoveRail(w, env, rail, multiplane);
        if e.None? {
          RemoveRailsNet(w1, env, listed[1..], current, removed + {rail}, x);
        }
      }
    }
  }

  /** No policy of this object leads to rail x. */
  ghost predicate NoPolicyOf(w: World, owner: string, x: string) {
    forall n :: !PolicyOf(w, owner, x, n)
  }

  lemma {:induction false} ListedIff(w: World, env: Env, owner: string, x: string)
    ensures NoPolicyOf(w, owner, x) ==> !ListsRail(Listing(w, env, owner), x)
    ensures ListsAll(env, w.policies.Keys) && !ListsRail(Listing(w, env, owner), x) ==> NoPolicyOf(w, owner, x)
  {
    hide RailOf;
    var names, listed := env.order(w.policies.Keys), Listing(w, env, owner);
    if y :| y in listed && RailOf(y.0, y.1) == x {
      OwnedAmongIs(w.policies, owner, names, y.0);
      assert PolicyOf(w, owner, x, y.0);
    }
    if ListsAll(env, w.policies.Keys) && !NoPolicyOf(w, owner, x) {
      var n :| PolicyOf(w, owner, x, n);
      OwnedAmongIs(w.policies, owner, names, n);
      assert (n, w.policies[n]) in listed;
    }
  }

  lemma {:induction false} DeleteRemovedNet(w: World, env: Env, cfg: Config, x: string)
    requires x !in RailNames(cfg.rails)
    ensures var (w', e) := DeleteRemovedRails(w, env, cfg);
            && (NoPolicyOf(w, cfg.name, x) ==> NetKept(w, w', x))
            && (e.None? && ListsAll(env, w.policies.Keys) ==> (x in w'.networks <==> x in w.networks && NoPolicyOf(w, cfg.name, x)))
  {
    hide RemoveRails, NoPolicyOf, ListsRail, ListsAll, Effect;
    CallNet(w, env, ListPolicies, x);
    CallPolicies(w, env, ListPolicies);
    var (w1, e1) := Try(w, env, ListPolicies);
    ListedIff(w, env, cfg.name, x);
    if e1.None? {
      RemoveRailsNet(w1, env, Listing(w, env, cfg.name), RailNames(cfg.rails), {}, x);
    }
  }

  lemma {:induction false} FailNet(w: World, env: Env, cfg: Config, err: Error, context: string, x: string)
    ensures NetKept(w, FailReconcile(w, env, cfg, err, context).0, x)
  {
    hide Call;
    CallNet(w, env, PatchStatus(NodeState(env.node, Failed, StatusMessage(context, env.render(err)), cfg.generation)), x);
  }

  lemma {:induction false} NodeStatusNet(w: World, env: Env, cfg: Config, x: string)
    ensures NetKept(w, ProcessNodeStatus(w, env, cfg).0, x)
  {
    hide Call;
    CallNet(w, env, GetSriovState(env.node), x);
    CallNet(Call(w, env, GetSriovState(env.node)).0, env, PatchStatus(NodeState(env.node, NodeVerdict(env), "", cfg.generation)), x);
  }

  /** Configure changes the network of a rail outside the spec only while removing rails. */
  lemma {:induction false} ConfigureNet(w: World, env: Env, cfg: Config, x: string)
    requires x !in RailNames(cfg.rails)
    ensures var w1 := Try(w, env, ApplyPool).0;
            var w2 := ReconcileRails(w1, env, cfg, cfg.rails).0;
            var (w3, e3) := DeleteRemovedRails(w2, env, cfg);
            var (w', e) := Configure(w, env, cfg);
            && NetKept(w, w2, x) && (NetKept(w, w', x) || NetKept(w3, w', x)) && (e.None? ==> e3.None? && NetKept(w3, w', x))
  {
    hide Call, ReconcileRails, DeleteRemovedRails, ProcessNodeStatus, FailReconcile;
    CallNet(w, env, ApplyPool, x);
    var (w1, e1) := Try(w, env, ApplyPool);
    RailsNet(w1, env, cfg, cfg.rails, x);
    var (w2, e2) := ReconcileRails(w1, env, cfg, cfg.rails);
    var (w3, e3) := DeleteRemovedRails(w2, env, cfg);
    var (w4, e4) := ProcessNodeStatus(w3, env, cfg);
    FailNet(w, env, cfg, NoRails, "", x);
    if e1.Some? {
      FailNet(w1, env, cfg, e1.value, "", x);
    } else if e2.Some? {
      FailNet(w2, env, cfg, e2.value, "", x);
    } else if e3.Some? {
      FailNet(w3, env, cfg, e3.value, REMOVED_FAILED, x);
    } else {
      NodeStatusNet(w3, env, cfg, x);
      if e4.Some? {
        FailNet(w4, env, cfg, e4.value, STATUS_FAILED, x);
      }
    }
  }

  lemma {:induction false} OwnRailsAddNoPolicy(w: World, w': World, cfg: Config, x: string)
    requires NamedRails(cfg.rails) && x !in RailNames(cfg.rails) && OnlyOwnRails(w, w', cfg, cfg.rails) && NoPolicyOf(w, cfg.name, x)
    ensures NoPolicyOf(w', cfg.name, x)
  {
    assert forall r :: r in cfg.rails ==> r.name in RailNames(cfg.rails);
    forall n ensures !PolicyOf(w', cfg.name, x, n) {
      assert !PolicyOf(w, cfg.name, x, n);
    }
  }

  lemma {:induction false} ShrinkingAddsNoPolicy(w: World, w': World, owner: string, x: string)
    requires Shrinks(w, w') && NoPolicyOf(w, owner, x)
    ensures NoPolicyOf(w', owner, x)
  {
    forall n ensures !PolicyOf(w', owner, x, n) {
      assert !PolicyOf(w, owner, x, n);
    }
  }

  lemma {:induction false} ConfigureKeepsOrphan(w: World, env: Env, cfg: Config, x: string)
    requires NamedRails(cfg.rails) && x !in RailNames(cfg.rails) && NoPolicyOf(w, cfg.name, x)
    ensures var w' := Configure(w, env, cfg).0; NetKept(w, w', x) && NoPolicyOf(w', cfg.name, x)
  {
    hide Try, ReconcileRails, DeleteRemovedRails, Configure, NoPolicyOf, ListsAll;
    ConfigurePolicies(w, env, cfg);
    ConfigureNet(w, env, cfg, x);
    var w1 := Try(w, env, ApplyPool).0;
    var w2 := ReconcileRails(w1, env, cfg, cfg.rails).0;
    var w3, w' := DeleteRemovedRails(w2, env, cfg).0, Configure(w, env, cfg).0;
    ShrinkingAddsNoPolicy(w, w1, cfg.name, x);
    ReconcileRailsPolicies(w1, env, cfg, cfg.rails);
    OwnRailsAddNoPolicy(w1, w2, cfg, x);
    DeleteRemovedNet(w2, env, cfg, x);
    DeleteRemovedShrinks(w2, env, cfg);
    ShrinkingAddsNoPolicy(w2, w3, cfg.name, x);
    ShrinkingAddsNoPolicy(if w'.policies == w.policies then w else if w'.policies == w2.policies then w2 else w3, w', cfg.name, x);
  }

  lemma {:induction false} DeleteRemovedShrinks(w: World, env: Env, cfg: Config)
    ensures Shrinks(w, DeleteRemovedRails(w, env, cfg).0)
  {
    hide RemoveRails, Effect;
    CallPolicies(w, env, ListPolicies);
    var w1 := Try(w, env, ListPolicies).0;
    RemoveRailsShrinks(w1, env, Listing(w, env, cfg.name), RailNames(cfg.rails), {});
  }

  lemma {:induction false} PassKeepsOrphan(w: World, env: Env, cfg: Config, x: string)
    requires !cfg.deleting && NamedRails(cfg.rails) && x !in RailNames(cfg.rails) && NoPolicyOf(w, cfg.name, x)
    ensures var w' := DoReconcile(w, env, cfg).0; NetKept(w, w', x) && NoPolicyOf(w', cfg.name, x)
  {
    hide Configure, Effect, SucceededForGeneration, NoPolicyOf;
    var w1, op := Call(w, env, GetNode).0, PatchStatus(NodeState(env.node, InProgress, "", cfg.generation));
    CallPolicies(w, env, AddFinalizer);
    CallNet(w, env, AddFinalizer, x);
    CallPolicies(w, env, GetNode);
    CallNet(w, env, GetNode, x);
    CallPolicies(w1, env, op);
    CallNet(w1, env, op, x);
    ShrinkingAddsNoPolicy(w, Call(w, env, AddFinalizer).0, cfg.name, x);
    ShrinkingAddsNoPolicy(w, w1, cfg.name, x);
    var w2 := if env.selected && !SucceededForGeneration(w1, cfg) then Call(w1, env, op).0 else w1;
    ShrinkingAddsNoPolicy(w1, w2, cfg.name, x);
    ConfigureKeepsOrphan(w2, env, cfg, x);
  }

  /**
   * A network whose rail has no policy left is found by no later pass: over any number of passes
   * for specs without the rail, whatever fails, it stays (and no such network appears).
   */
  lemma {:induction false} OrphanedNetworkStays(w: World, passes: seq<(Env, Config)>, owner: string, x: string)
    requires forall p :: p in passes ==>
               !p.1.deleting && p.1.name == owner && NamedRails(p.1.rails) && x !in RailNames(p.1.rails)
    requires NoPolicyOf(w, owner, x)
    ensures NetKept(w, RunPasses(w, passes), x)
    decreases |passes|
  {
    hide DoReconcile, NoPolicyOf, NamedRails, RailNames;
    if passes != [] {
      assert passes[0] in passes;
      assert forall p :: p in passes[1..] ==> p in passes;
      PassKeepsOrphan(w, passes[0].0, passes[0].1, x);
      OrphanedNetworkStays(DoReconcile(w, passes[0].0, passes[0].1).0, passes[1..], owner, x);
    }
  }

  /**
   * How the state is reached, from the inputs: the rail's policies are deleted and then deleting its
   * network fails. From then on, no pass for a spec without the rail removes the network.
   */
  lemma {:induction false} NetworkGetsOrphaned(w: World, env: Env, owner: string, x: string, passes: seq<(Env, Config)>)
    requires x in w.networks && Isolated(w, owner, x)
    requires env.oracle(|w.log|).Ok? && env.oracle(|w.log| + 1).Ok? && env.oracle(|w.log| + 2) == Fail(false)
    requires forall p :: p in passes ==>
               !p.1.deleting && p.1.name == owner && NamedRails(p.1.rails) && x !in RailNames(p.1.rails)
    ensures var (w', e) := RemoveRail(w, env, x, false);
            && e == Some(CallFailed(DeleteNetwork(x))) && RailGone(w', x)
            && x in w'.networks && x in RunPasses(w', passes).networks
  {
    var (w', e) := RemoveRail(w, env, x, false);
    RemovalFailsLast(w, env, x);
    RemoveRailPolicies(w, env, x, false);
    forall n ensures !PolicyOf(w', owner, x, n) {
      assert PolicyOf(w', owner, x, n) ==> Owned(w, owner, n);
    }
    OrphanedNetworkStays(w', passes, owner, x);
  }

  lemma {:induction false} RemovalFailsLast(w: World, env: Env, x: string)
    requires env.oracle(|w.log|).Ok? && env.oracle(|w.log| + 1).Ok? && env.oracle(|w.log| + 2) == Fail(false)
    ensures var (w', e) := RemoveRail(w, env, x, false);
            e == Some(CallFailed(DeleteNetwork(x))) && RailGone(w', x) && w'.networks == w.networks
  {
  }

  /**
   * Exactly those networks are orphaned: a pass that returns nil leaves the network of a rail
   * outside the spec if and only if it was there and the rail had no policy of this object.
   */
  lemma {:induction false} NetworkOrphanedIff(w: World, env: Env, cfg: Config, x: string)
    requires w.finalizer && !cfg.deleting && SeparateFrom(x, cfg.rails) && Isolated(w, cfg.name, x)
    requires forall names :: ListsAll(env, names)
    ensures var (w', err) := DoReconcile(w, env, cfg);
            err.None? ==> (x in w'.networks <==> x in w.networks && NoPolicyOf(w, cfg.name, x))
  {
    hide Configure, Effect, SucceededForGeneration, NoPolicyOf, Isolated, ListsAll;
    var w1, op := Call(w, env, GetNode).0, PatchStatus(NodeState(env.node, InProgress, "", cfg.generation));
    CallPolicies(w, env, GetNode);
    CallNet(w, env, GetNode, x);
    CallPolicies(w1, env, op);
    CallNet(w1, env, op, x);
    var w2 := if env.selected && !SucceededForGeneration(w1, cfg) then Call(w1, env, op).0 else w1;
    assert w2.policies == w.policies && NetKept(w, w2, x);
    SamePolicies(w, w2, cfg.name, x);
    SameRailSamePolicies(w, w2, cfg.name, x);
    ConfigureOrphans(w2, env, cfg, x);
  }

  lemma {:induction false} SameRailSamePolicies(w: World, w': World, owner: string, x: string)
    requires SameRail(w, w', owner, x)
    ensures NoPolicyOf(w', owner, x) <==> NoPolicyOf(w, owner, x)
  {
    assert forall n :: PolicyOf(w', owner, x, n) <==> PolicyOf(w, owner, x, n);
  }

  lemma {:induction false} ConfigureOrphans(w: World, env: Env, cfg: Config, x: string)
    requires SeparateFrom(x, cfg.rails) && Isolated(w, cfg.name, x) && (forall names :: ListsAll(env, names))
    ensures var (w', err) := Configure(w, env, cfg);
            err.None? ==> (x in w'.networks <==> x in w.networks && NoPolicyOf(w, cfg.name, x))
  {
    hide Try, ReconcileRails, DeleteRemovedRails, Configure, NoPolicyOf, Isolated, SameRail;
    ConfigurePolicies(w, env, cfg);
    NotCurrent(x, cfg.rails);
    ConfigureNet(w, env, cfg, x);
    var w1 := Try(w, env, ApplyPool).0;
    var w2 := ReconcileRails(w1, env, cfg, cfg.rails).0;
    SamePolicies(w, w1, cfg.name, x);
    ReconcileRailsPolicies(w1, env, cfg, cfg.rails);
    RailsKeepOthers(w1, w2, cfg, x);
    SameRailTwice(w, w1, w2, cfg.name, x);
    SameRailSamePolicies(w, w2, cfg.name, x);
    assert ListsAll(env, w2.policies.Keys);
    DeleteRemovedNet(w2, env, cfg, x);
  }

  // ------------------------------------------------------------ second policies

  /** The spec holds rail x with one PF, and no other rail with a name like it. */
  ghost predicate Shrunken(x: string, rails: seq<Rail>) {
    && x in RailNames(rails)
    && forall r :: r in rails ==> r.name != "" && if r.name == x then !Multiplane(r) else Separate(x, r.name)
  }

  lemma {:induction false} RemovalKeepsCurrent(w: World, env: Env, listed: seq<(string, Policy)>, current: set<string>, removed: set<string>, x: string)
    requires x in current && ApartFrom(listed, x)
    ensures var w' := RemoveRails(w, env, listed, current, removed).0; Shrinks(w, w') && KeepsRail(w, w', x)
    decreases |listed|
  {
    hide RemoveRail, RailOf, Separate;
    if listed != [] {
      var rail, multiplane := RailOf(listed[0].0, listed[0].1), MultiplanePolicy(listed[0].1);
      assert listed[0] in listed;
      assert ApartFrom(listed[1..], x);
      if rail in current || rail in removed {
        RemovalKeepsCurrent(w, env, listed[1..], current, removed, x);
      } else {
        RemoveRailPolicies(w, env, rail, multiplane);
        var (w1, e) := RemoveRail(w, env, rail, multiplane);
        RemovalSparesOthers(w, w1, rail, x);
        if e.None? {
          RemovalKeepsCurrent(w1, env, listed[1..], current, removed + {rail}, x);
        }
      }
    }
  }

  lemma {:induction false} ShrunkenIsolated(w: World, w': World, cfg: Config, x: string)
    requires Isolated(w, cfg.name, x) && Shrunken(x, cfg.rails) && OnlyOwnRails(w, w', cfg, cfg.rails)
    ensures Isolated(w', cfg.name, x)
  {
    forall n | Owned(w', cfg.name, n)
      ensures if RailOf(n, w'.policies[n]) == x then NameOf(n, x) else Separate(x, RailOf(n, w'.policies[n]))
    {
      if n in w.policies && w'.policies[n] == w.policies[n] {
        assert Owned(w, cfg.name, n);
      }
    }
  }

  lemma {:induction false} ShrunkenForeign(x: string, rails: seq<Rail>)
    requires Shrunken(x, rails)
    ensures Foreign(x + UNUSED, rails)
  {
    forall r | r in rails ensures !WritesName(r, x + UNUSED) {
      if r.name != x {
        SeparateNames(x, r.name, x + UNUSED);
      }
    }
  }

  /** The second policy of rail x is there, unchanged. */
  ghost predicate UnusedKept(w: World, w': World, x: string) {
    x + UNUSED in w.policies ==> x + UNUSED in w'.policies && w'.policies[x + UNUSED] == w.policies[x + UNUSED]
  }

  lemma {:induction false} ConfigureKeepsUnused(w: World, env: Env, cfg: Config, x: string)
    requires Shrunken(x, cfg.rails) && Isolated(w, cfg.name, x)
    ensures var w' := Configure(w, env, cfg).0; Isolated(w', cfg.name, x) && UnusedKept(w, w', x)
  {
    hide Try, ReconcileRails, DeleteRemovedRails, Configure, Isolated, Shrunken, Separate;
    ConfigurePolicies(w, env, cfg);
    var w1 := Try(w, env, ApplyPool).0;
    var w2 := ReconcileRails(w1, env, cfg, cfg.rails).0;
    var w3, w' := DeleteRemovedRails(w2, env, cfg).0, Configure(w, env, cfg).0;
    SamePolicies(w, w1, cfg.name, x);
    ReconcileRailsPolicies(w1, env, cfg, cfg.rails);
    ShrunkenForeign(x, cfg.rails);
    ShrunkenIsolated(w1, w2, cfg, x);
    DeleteRemovedKeepsCurrent(w2, env, cfg, x);
    IsolatedShrinks(w2, w3, cfg, x);
    SamePolicies(if w'.policies == w.policies then w else if w'.policies == w2.policies then w2 else w3, w', cfg.name, x);
    assert NameOf(x + UNUSED, x);
  }

  lemma {:induction false} DeleteRemovedKeepsCurrent(w: World, env: Env, cfg: Config, x: string)
    requires Shrunken(x, cfg.rails) && Isolated(w, cfg.name, x)
    ensures var w' := DeleteRemovedRails(w, env, cfg).0; Shrinks(w, w') && KeepsRail(w, w', x)
  {
    hide RemoveRails, Effect;
    CallPolicies(w, env, ListPolicies);
    ListingIsApart(w, env, cfg.name, x);
    RemovalKeepsCurrent(Try(w, env, ListPolicies).0, env, Listing(w, env, cfg.name), RailNames(cfg.rails), {}, x);
  }

  lemma {:induction false} PassKeepsUnused(w: World, env: Env, cfg: Config, x: string)
    requires !cfg.deleting && Shrunken(x, cfg.rails) && Isolated(w, cfg.name, x)
    ensures var w' := DoReconcile(w, env, cfg).0; Isolated(w', cfg.name, x) && UnusedKept(w, w', x)
  {
    hide Configure, Effect, SucceededForGeneration, Isolated, Shrunken;
    var w1, op := Call(w, env, GetNode).0, PatchStatus(NodeState(env.node, InProgress, "", cfg.generation));
    CallPolicies(w, env, AddFinalizer);
    CallPolicies(w, env, GetNode);
    CallPolicies(w1, env, op);
    SamePolicies(w, Call(w, env, AddFinalizer).0, cfg.name, x);
    SamePolicies(w, w1, cfg.name, x);
    var w2 := if env.selected && !SucceededForGeneration(w1, cfg) then Call(w1, env, op).0 else w1;
    SamePolicies(w, w2, cfg.name, x);
    ConfigureKeepsUnused(w2, env, cfg, x);
  }

  /** While a rail stays in the spec with one PF, no pass removes or rewrites its second policy, whatever fails. */
  lemma {:induction false} UnusedPolicyStays(w: World, passes: seq<(Env, Config)>, owner: string, x: string)
    requires forall p :: p in passes ==> !p.1.deleting && p.1.name == owner && Shrunken(x, p.1.rails)
    requires Isolated(w, owner, x)
    ensures UnusedKept(w, RunPasses(w, passes), x)
    decreases |passes|
  {
    hide DoReconcile, Isolated, Shrunken;
    if passes != [] {
      assert passes[0] in passes;
      assert forall p :: p in passes[1..] ==> p in passes;
      PassKeepsUnused(w, passes[0].0, passes[0].1, x);
      UnusedPolicyStays(DoReconcile(w, passes[0].0, passes[0].1).0, passes[1..], owner, x);
    }
  }

  lemma {:induction false} AppliedNames(m: map<string, Policy>, cfg: Config, rails: seq<Rail>, n: string)
    requires forall r :: r in rails ==> r.pfs != []
    ensures n in ApplyAllPolicies(m, cfg, rails) <==> n in m || !Foreign(n, rails)
    decreases |rails|
  {
    if rails != [] {
      assert rails[0] in rails;
      assert forall r :: r in rails <==> r == rails[0] || r in rails[1..];
      AppliedNames(ApplyPolicies(m, cfg, rails[0]), cfg, rails[1..], n);
    }
  }

  /**
   * A clean pass leaves a second policy of a rail exactly if the rail has several PFs or the policy
   * was there, unless it removes a rail with just that name.
   */
  lemma {:induction false} UnusedAfterPassIff(w: World, env: Env, cfg: Config, i: nat)
    requires Steady(w, env, cfg) && SeparateRails(cfg.rails) && i < |cfg.rails|
    requires CleanSince(DoReconcile(w, env, cfg).0, |w.log|)
    ensures var n := cfg.rails[i].name + UNUSED;
            n in DoReconcile(w, env, cfg).0.policies <==>
            (Multiplane(cfg.rails[i]) || n in w.policies) && n !in GoneIn(w, env, cfg)
  {
    hide DoReconcile, ApplyAllPolicies, Program, RunAll, GoneIn, DroppedIn;
    CleanPass(w, env, cfg);
    var x := cfg.rails[i].name;
    AppliedNames(w.policies, cfg, cfg.rails, x + UNUSED);
    assert cfg.rails[i] in cfg.rails;
    forall r | r in cfg.rails && r != cfg.rails[i] ensures !WritesName(r, x + UNUSED) {
      var j :| 0 <= j < |cfg.rails| && cfg.rails[j] == r;
      assert Separate(cfg.rails[if i < j then i else j].name, cfg.rails[if i < j then j else i].name);
      SeparateNames(x, r.name, x + UNUSED);
    }
    assert x + UNUSED in BothNames(GoneIn(w, env, cfg)) <==> x + UNUSED in GoneIn(w, env, cfg) by {
      GoneAreNames(w, env, cfg);
      assert x in RailNames(cfg.rails);
      forall y | y in GoneIn(w, env, cfg) ensures y + UNUSED != x + UNUSED {
        assert (y + UNUSED)[..|y|] == y && (x + UNUSED)[..|x|] == x;
      }
    }
  }
}
