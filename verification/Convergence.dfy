/** Where repeated passes lead when every call succeeds. */
module Convergence {
  import opened Basics
  import opened NodeStates
  import opened XPlane
  import opened SafeStart
  import opened Reconciler
  import opened ReconcilerProofs

  /** Every call since the log had length `from` succeeded. */
  ghost predicate CleanSince(w: World, from: nat) {
    forall i :: from <= i < |w.log| ==> w.log[i].outcome.Ok?
  }

  /** A call that ends in a clean log succeeded and took its effect. */
  lemma {:induction false} CleanCall(w: World, env: Env, op: Op, end: World, from: nat)
    requires from <= |w.log| && Call(w, env, op).0.log <= end.log && CleanSince(end, from)
    ensures var (w1, o) := Call(w, env, op);
            o.Ok? && Effect(w, op).Some? && w1 == Effect(w, op).value.(log := w1.log)
  {
    var (w1, o) := Call(w, env, op);
    assert w1.log[|w.log|] == Event(op, o);
    assert end.log[|w.log|] == w1.log[|w.log|];
  }

  lemma {:induction false} CleanTry(w: World, env: Env, op: Op, end: World, from: nat)
    requires from <= |w.log| && Try(w, env, op).0.log <= end.log && CleanSince(end, from)
    ensures var (w1, e) := Try(w, env, op);
            e.None? && |w.log| <= |w1.log| && Effect(w, op).Some? && w1 == Effect(w, op).value.(log := w1.log)
  {
    hide Effect;
    CleanCall(w, env, op, end, from);
  }

  /** Nothing but the OVS database and the log changed. */
  ghost predicate OnlyDb(w: World, w': World) {
    w' == w.(db := w'.db, log := w'.log)
  }

  lemma {:induction false} UplinksRun(w: World, env: Env, r: Rail, idx: nat, end: World, from: nat)
    requires idx <= |r.pfs| && from <= |w.log|
    requires AddUplinks(w, env, r, idx).0.log <= end.log && CleanSince(end, from)
    ensures var (w', e) := AddUplinks(w, env, r, idx);
            e.None? && OnlyDb(w, w') && RunAll(w.db, UplinksFrom(r, idx)) == Some(w'.db)
    decreases |r.pfs| - idx
  {
    hide Apply;
    if idx < |r.pfs| {
      var c := UplinkOf(r, idx);
      CleanCall(w, env, Ovs(c), end, from);
      var w1 := Call(w, env, Ovs(c)).0;
      UplinksRun(w1, env, r, idx + 1, end, from);
      assert UplinksFrom(r, idx)[0] == c && UplinksFrom(r, idx)[1..] == UplinksFrom(r, idx + 1);
    }
  }

  lemma {:induction false} RunOne(db: Db, c: Command)
    ensures RunAll(db, [c]) == Apply(db, c)
  {
    hide Apply;
    assert [c][1..] == [];
  }

  lemma {:induction false} RunTwo(db: Db, c: Command, d: Command)
    ensures RunAll(db, [c, d]) == if Apply(db, c).None? then None else Apply(Apply(db, c).value, d)
  {
    hide Apply;
    assert [c, d][1..] == [d];
    if Apply(db, c).Some? {
      RunOne(Apply(db, c).value, d);
    }
  }

  lemma {:induction false} CreateRun(w: World, env: Env, r: Rail, end: World, from: nat)
    requires from <= |w.log| && CreateXPlaneBridges(w, env, r).0.log <= end.log && CleanSince(end, from)
    ensures var (w', e) := CreateXPlaneBridges(w, env, r);
            e.None? && OnlyDb(w, w') && RunAll(w.db, RailProgram(r)) == Some(w'.db)
  {
    hide Apply, AddUplinks;
    var c1, c2, c4 := AddBr(XPlaneBridge, Secure), AddBr(RailBridge(r.name), Standalone), AddPatch(r.name, r.mtu);
    CleanCall(w, env, Ovs(c1), end, from);
    var w1 := Call(w, env, Ovs(c1)).0;
    CleanCall(w1, env, Ovs(c2), end, from);
    var w2 := Call(w1, env, Ovs(c2)).0;
    UplinksRun(w2, env, r, 0, end, from);
    var w3 := AddUplinks(w2, env, r, 0).0;
    CleanCall(w3, env, Ovs(c4), end, from);
    RunTwo(w.db, c1, c2);
    RunAllSplit(w.db, [c1, c2], UplinksFrom(r, 0));
    RunAllSplit(w.db, [c1, c2] + UplinksFrom(r, 0), [c4]);
    RunOne(w3.db, c4);
  }

  ghost predicate AllKnown(env: Env) {
    forall n :: n in env.poolNodes ==> n in env.sriov
  }

  lemma {:induction false} CheckNodesRun(w: World, env: Env, nodes: seq<string>, end: World, from: nat)
    requires from <= |w.log| && CheckNodes(w, env, nodes).0.log <= end.log && CleanSince(end, from)
    requires forall n :: n in nodes ==> n in env.sriov
    ensures var (w', found, e) := CheckNodes(w, env, nodes);
            e.None? && found && w' == w.(log := w'.log)
    decreases |nodes|
  {
    if nodes != [] {
      CleanCall(w, env, GetSriovState(nodes[0]), end, from);
      assert nodes[0] in nodes;
      assert forall n :: n in nodes[1..] ==> n in nodes;
      CheckNodesRun(Call(w, env, GetSriovState(nodes[0])).0, env, nodes[1..], end, from);
    }
  }

  lemma {:induction false} PrepareRun(w: World, env: Env, end: World, from: nat)
    requires from <= |w.log| && PrepareXPlane(w, env).0.log <= end.log && CleanSince(end, from) && AllKnown(env)
    ensures var (w', found, e) := PrepareXPlane(w, env);
            e.None? && found && w' == w.(log := w'.log)
  {
    hide CheckNodes;
    CleanCall(w, env, InstallHook, end, from);
    var w1 := Call(w, env, InstallHook).0;
    CleanCall(w1, env, ListNodes, end, from);
    CheckNodesRun(Call(w1, env, ListNodes).0, env, env.poolNodes, end, from);
  }

  lemma {:induction false} ConfigureRun(w: World, env: Env, r: Rail, end: World, from: nat)
    requires from <= |w.log| && ConfigureXPlane(w, env, r).0.log <= end.log && CleanSince(end, from)
    requires AllKnown(env) && Ready(env, r)
    ensures var (w', e) := ConfigureXPlane(w, env, r);
            e.None? && OnlyDb(w, w') && RunAll(w.db, RailProgram(r)) == Some(w'.db)
  {
    hide PrepareXPlane, CreateXPlaneBridges, RailProgram, RunAll;
    PrepareRun(w, env, end, from);
    var w1 := PrepareXPlane(w, env).0;
    CreateRun(w1, env, r, end, from);
    CleanCall(CreateXPlaneBridges(w1, env, r).0, env, DeployXPlane, end, from);
  }

  /** The policies a rail ends up with. */
  function ApplyPolicies(m: map<string, Policy>, cfg: Config, r: Rail): map<string, Policy>
    requires r.pfs != []
  {
    var m1 := m[r.name := Primary(cfg, r)];
    if Multiplane(r) then m1[r.name + UNUSED := Secondary(cfg, r)] else m1
  }

  lemma {:induction false} ApplyRailRun(w: World, env: Env, cfg: Config, r: Rail, end: World, from: nat)
    requires r.pfs != [] && from <= |w.log| && ApplyRail(w, env, cfg, r).0.log <= end.log && CleanSince(end, from)
    ensures var (w', e) := ApplyRail(w, env, cfg, r);
            && e.None?
            && w' == w.(policies := ApplyPolicies(w.policies, cfg, r), networks := w.networks + {r.name}, log := w'.log)
  {
    hide Apply, Call, Try, Primary, Secondary;
    var op1, op2 := ApplyPolicy(r.name, Primary(cfg, r)), ApplyPolicy(r.name + UNUSED, Secondary(cfg, r));
    CleanTry(w, env, op1, end, from);
    var w1 := Try(w, env, op1).0;
    if Multiplane(r) {
      CleanTry(w1, env, op2, end, from);
    }
    var w2 := if Multiplane(r) then Try(w1, env, op2).0 else w1;
    if r.cidrPoolRef {
      CleanTry(w2, env, GetCidrPool(r.name), end, from);
    }
    var w3 := if r.cidrPoolRef then Try(w2, env, GetCidrPool(r.name)).0 else w2;
    CleanTry(w3, env, ApplyNetwork(r.name), end, from);
  }

  /** This node can configure every rail of the list at once. */
  ghost predicate AllReady(env: Env, rails: seq<Rail>) {
    AllKnown(env) && forall r :: r in rails ==> r.pfs != [] && (Multiplane(r) ==> Ready(env, r))
  }

  function ApplyAllPolicies(m: map<string, Policy>, cfg: Config, rails: seq<Rail>): map<string, Policy>
    requires forall r :: r in rails ==> r.pfs != []
    decreases |rails|
  {
    if rails == [] then m
    else
      assert rails[0] in rails;
      ApplyAllPolicies(ApplyPolicies(m, cfg, rails[0]), cfg, rails[1..])
  }

  lemma {:induction false} RailRun(w: World, env: Env, cfg: Config, r: Rail, end: World, from: nat)
    requires r.pfs != [] && AllKnown(env) && (Multiplane(r) ==> Ready(env, r))
    requires from <= |w.log| && ReconcileRail(w, env, cfg, r).0.log <= end.log && CleanSince(end, from)
    ensures var (w', e) := ReconcileRail(w, env, cfg, r);
            && e.None?
            && w' == w.(policies := ApplyPolicies(w.policies, cfg, r), networks := w.networks + {r.name}, db := w'.db, log := w'.log)
            && RunAll(w.db, if Multiplane(r) then RailProgram(r) else []) == Some(w'.db)
  {
    hide ApplyRail, ConfigureXPlane, RailProgram, ApplyPolicies;
    var (w1, e1) := ApplyRail(w, env, cfg, r);
    ApplyRailRun(w, env, cfg, r, end, from);
    if Multiplane(r) {
      ConfigureRun(w1, env, r, end, from);
    }
  }

  lemma {:induction false} RailsRun(w: World, env: Env, cfg: Config, rails: seq<Rail>, end: World, from: nat)
    requires AllReady(env, rails)
    requires from <= |w.log| && ReconcileRails(w, env, cfg, rails).0.log <= end.log && CleanSince(end, from)
    ensures var (w', e) := ReconcileRails(w, env, cfg, rails);
            && e.None?
            && w' == w.(policies := ApplyAllPolicies(w.policies, cfg, rails), networks := w.networks + RailNames(rails), db := w'.db, log := w'.log)
            && RunAll(w.db, Program(rails)) == Some(w'.db)
    decreases |rails|
  {
    hide ReconcileRail, RailProgram, ApplyPolicies, Apply;
    if rails == [] {
      assert w.networks + RailNames([]) == w.networks;
    } else {
      var r := rails[0];
      assert r in rails;
      assert forall q :: q in rails[1..] ==> q in rails;
      RailRun(w, env, cfg, r, end, from);
      var w1 := ReconcileRail(w, env, cfg, r).0;
      RailsRun(w1, env, cfg, rails[1..], end, from);
      var own := if Multiplane(r) then RailProgram(r) else [];
      RunAllSplit(w.db, own, Program(rails[1..]));
      assert w.networks + {r.name} + RailNames(rails[1..]) == w.networks + RailNames(rails);
    }
  }

  // ----------------------------------------------------------- removal, exactly

  lemma {:induction false} RemoveRailRun(w: World, env: Env, rail: string, multiplane: bool, end: World, from: nat)
    requires from <= |w.log| && RemoveRail(w, env, rail, multiplane).0.log <= end.log && CleanSince(end, from)
    ensures var (w', e) := RemoveRail(w, env, rail, multiplane);
            && e.None?
            && w' == w.(policies := w.policies - {rail, rail + UNUSED}, networks := w.networks - {rail},
                        db := w.db - BridgesOf(rail, multiplane), log := w'.log)
  {
    hide Call, Try;
    var w1 := if multiplane then CleanupXPlaneBridges(w, env, rail).0 else w;
    BridgesRemoved(w, env, rail, multiplane, end, from);
    CleanTry(w1, env, DeletePolicy(rail), end, from);
    var w2 := Try(w1, env, DeletePolicy(rail)).0;
    CleanTry(w2, env, DeletePolicy(rail + UNUSED), end, from);
    var w3 := Try(w2, env, DeletePolicy(rail + UNUSED)).0;
    CleanTry(w3, env, DeleteNetwork(rail), end, from);
    assert w.policies - {rail} - {rail + UNUSED} == w.policies - {rail, rail + UNUSED};
  }

  /** The bridges that go with a rail. */
  function BridgesOf(rail: string, multiplane: bool): set<BridgeName> {
    if multiplane then {RailBridge(rail), XPlaneBridge} else {}
  }

  lemma {:induction false} BridgesRemoved(w: World, env: Env, rail: string, multiplane: bool, end: World, from: nat)
    requires from <= |w.log| && CleanSince(end, from)
    requires multiplane ==> CleanupXPlaneBridges(w, env, rail).0.log <= end.log
    ensures var (w', e) := if multiplane then CleanupXPlaneBridges(w, env, rail) else (w, None);
            e.None? && |w.log| <= |w'.log| && w' == w.(db := w.db - BridgesOf(rail, multiplane), log := w'.log)
  {
    if multiplane {
      var w1 := Call(w, env, Ovs(DelBr(RailBridge(rail)))).0;
      CleanCall(w, env, Ovs(DelBr(RailBridge(rail))), end, from);
      CleanCall(w1, env, Ovs(DelBr(XPlaneBridge)), end, from);
      assert w.db - {RailBridge(rail)} - {XPlaneBridge} == w.db - {RailBridge(rail), XPlaneBridge};
    } else {
      assert w.db - {} == w.db;
    }
  }

  /** Position i lists the first policy of a rail to remove, and that policy is multiplane. */
  ghost predicate DropsAt(listed: seq<(string, Policy)>, current: set<string>, removed: set<string>, i: nat) {
    && FirstOfRail(listed, i) && (listed[i].1.multiplane || (listed[i].1.rail == "" && |listed[i].1.pfs| > 1))
    && RailOf(listed[i].0, listed[i].1) !in current + removed
  }

  /** Some rail to remove has a multiplane policy listed first. */
  ghost predicate Drops(listed: seq<(string, Policy)>, current: set<string>, removed: set<string>) {
    exists i: nat :: DropsAt(listed, current, removed, i)
  }

  lemma {:induction false} DropsStep(listed: seq<(string, Policy)>, current: set<string>, removed: set<string>)
    requires listed != []
    ensures var rail := RailOf(listed[0].0, listed[0].1);
            Drops(listed, current, removed) <==>
            if rail in current || rail in removed then Drops(listed[1..], current, removed)
            else MultiplanePolicy(listed[0].1) || Drops(listed[1..], current, removed + {rail})
  {
    hide RailOf;
    var rail, rest := RailOf(listed[0].0, listed[0].1), listed[1..];
    var done := if rail in current || rail in removed then removed else removed + {rail};
    assert forall k :: 0 <= k < |rest| ==> rest[k] == listed[k + 1];
    if i: nat :| DropsAt(listed, current, removed, i) && i > 0 {
      assert DropsAt(rest, current, done, i - 1);
    }
    if i: nat :| DropsAt(rest, current, done, i) {
      assert DropsAt(listed, current, removed, i + 1);
    }
    assert rail !in current + removed && MultiplanePolicy(listed[0].1) ==> DropsAt(listed, current, removed, 0);
    assert DropsAt(listed, current, removed, 0) ==> rail !in current + removed && MultiplanePolicy(listed[0].1);
  }

  /** The rails a removal goes through: those listed, not in the spec and not removed before. */
  function GoneRails(listed: seq<(string, Policy)>, current: set<string>, removed: set<string>): set<string> {
    set y | y in listed && RailOf(y.0, y.1) !in current + removed :: RailOf(y.0, y.1)
  }

  /** The bridges it drops, decided for each rail by its first listed policy. */
  function Dropped(listed: seq<(string, Policy)>, current: set<string>, removed: set<string>): set<BridgeName>
    decreases |listed|
  {
    if listed == [] then {}
    else
      var rail := RailOf(listed[0].0, listed[0].1);
      if rail in current || rail in removed then Dropped(listed[1..], current, removed)
      else BridgesOf(rail, MultiplanePolicy(listed[0].1)) + Dropped(listed[1..], current, removed + {rail})
  }

  /** The shared bridge is among them exactly if some rail's first listed policy is multiplane. */
  lemma {:induction false} SharedDropped(listed: seq<(string, Policy)>, current: set<string>, removed: set<string>)
    ensures XPlaneBridge in Dropped(listed, current, removed) <==> Drops(listed, current, removed)
    decreases |listed|
  {
    hide RailOf;
    if listed != [] {
      DropsStep(listed, current, removed);
      var rail := RailOf(listed[0].0, listed[0].1);
      if rail in current || rail in removed {
        SharedDropped(listed[1..], current, removed);
      } else {
        SharedDropped(listed[1..], current, removed + {rail});
      }
    }
  }

  function BothNames(rails: set<string>): set<string> {
    rails + set x | x in rails :: x + UNUSED
  }

  lemma {:induction false} GoneStep(listed: seq<(string, Policy)>, current: set<string>, removed: set<string>)
    requires listed != []
    ensures var rail := RailOf(listed[0].0, listed[0].1);
            GoneRails(listed, current, removed) ==
            if rail in current || rail in removed then GoneRails(listed[1..], current, removed)
            else {rail} + GoneRails(listed[1..], current, removed + {rail})
  {
    hide RailOf;
    assert listed[0] in listed;
    assert forall y :: y in listed <==> y == listed[0] || y in listed[1..];
  }

  lemma {:induction false} MinusTwice<K(!new), V>(m: map<K, V>, a: set<K>, b: set<K>)
    ensures (m - a) - b == m - (a + b)
  {
  }

  lemma {:induction false} RemoveRailsRun(w: World, env: Env, listed: seq<(string, Policy)>, current: set<string>, removed: set<string>, end: World, from: nat)
    requires from <= |w.log| && RemoveRails(w, env, listed, current, removed).0.log <= end.log && CleanSince(end, from)
    ensures var (w', e) := RemoveRails(w, env, listed, current, removed);
            var gone := GoneRails(listed, current, removed);
            && e.None?
            && w' == w.(policies := w.policies - BothNames(gone), networks := w.networks - gone,
                        db := w.db - Dropped(listed, current, removed), log := w'.log)
    decreases |listed|
  {
    hide RemoveRail, RailOf, BridgesOf, GoneRails;
    if listed == [] {
      assert GoneRails([], current, removed) == {} by { NoneGone(current, removed); }
      assert w.policies - {} == w.policies && w.networks - {} == w.networks && w.db - {} == w.db;
    } else {
      GoneStep(listed, current, removed);
      var rail, multiplane := RailOf(listed[0].0, listed[0].1), MultiplanePolicy(listed[0].1);
      if rail in current || rail in removed {
        RemoveRailsRun(w, env, listed[1..], current, removed, end, from);
      } else {
        RemoveRailRun(w, env, rail, multiplane, end, from);
        var w1 := RemoveRail(w, env, rail, multiplane).0;
        RemoveRailsRun(w1, env, listed[1..], current, removed + {rail}, end, from);
        var rest, down := GoneRails(listed[1..], current, removed + {rail}), Dropped(listed[1..], current, removed + {rail});
        MinusTwice(w.policies, {rail, rail + UNUSED}, BothNames(rest));
        MinusTwice(w.db, BridgesOf(rail, multiplane), down);
        assert {rail, rail + UNUSED} + BothNames(rest) == BothNames({rail} + rest);
        assert w.networks - {rail} - rest == w.networks - ({rail} + rest);
      }
    }
  }

  lemma {:induction false} NoneGone(current: set<string>, removed: set<string>)
    ensures GoneRails([], current, removed) == {}
  {
  }

  lemma {:induction false} DeleteRemovedRun(w: World, env: Env, cfg: Config, end: World, from: nat)
    requires from <= |w.log| && DeleteRemovedRails(w, env, cfg).0.log <= end.log && CleanSince(end, from)
    ensures var (w', e) := DeleteRemovedRails(w, env, cfg);
            var listed, current := Listing(w, env, cfg.name), RailNames(cfg.rails);
            var gone := GoneRails(listed, current, {});
            && e.None? && |w.log| <= |w'.log|
            && w' == w.(policies := w.policies - BothNames(gone), networks := w.networks - gone,
                        db := w.db - Dropped(listed, current, {}), log := w'.log)
  {
    hide Try, RemoveRails, GoneRails, BothNames, Dropped;
    CleanTry(w, env, ListPolicies, end, from);
    var w1 := Try(w, env, ListPolicies).0;
    RemoveRailsRun(w1, env, Listing(w, env, cfg.name), RailNames(cfg.rails), {}, end, from);
  }

  // ------------------------------------------------------------- a clean pass

  /** The preconditions of the fixed point: a live, finalized object and a node that can do its part. */
  ghost predicate Steady(w: World, env: Env, cfg: Config) {
    && w.finalizer && !cfg.deleting && cfg.rails != [] && env.selected
    && AllReady(env, cfg.rails) && NamedRails(cfg.rails) && DistinctRails(cfg.rails)
    && forall names :: ListsAll(env, names)
  }

  /** The owned policies in the order a pass will list them, once it has applied those of the spec. */
  function ListingOf(w: World, env: Env, cfg: Config): seq<(string, Policy)>
    requires forall r :: r in cfg.rails ==> r.pfs != []
  {
    var after := ApplyAllPolicies(w.policies, cfg, cfg.rails);
    OwnedAmong(after, cfg.name, env.order(after.Keys))
  }

  /** The pass will remove a rail whose first listed policy is multiplane. */
  ghost predicate RemovesMultiplane(w: World, env: Env, cfg: Config)
    requires forall r :: r in cfg.rails ==> r.pfs != []
  {
    Drops(ListingOf(w, env, cfg), RailNames(cfg.rails), {})
  }

  /** The rails a pass will remove, and the bridges it will drop with them. */
  function GoneIn(w: World, env: Env, cfg: Config): set<string>
    requires forall r :: r in cfg.rails ==> r.pfs != []
  {
    GoneRails(ListingOf(w, env, cfg), RailNames(cfg.rails), {})
  }

  function DroppedIn(w: World, env: Env, cfg: Config): set<BridgeName>
    requires forall r :: r in cfg.rails ==> r.pfs != []
  {
    Dropped(ListingOf(w, env, cfg), RailNames(cfg.rails), {})
  }

  /** Everything a pass without a failed call leaves, from what it found. */
  ghost predicate Leaves(w: World, w': World, env: Env, cfg: Config)
    requires forall r :: r in cfg.rails ==> r.pfs != []
  {
    var after, gone := RunAll(w.db, Program(cfg.rails)), GoneIn(w, env, cfg);
    && after.Some?
    && w' == w.(policies := ApplyAllPolicies(w.policies, cfg, cfg.rails) - BothNames(gone),
                networks := w.networks + RailNames(cfg.rails) - gone, pool := true,
                entry := Some(NodeState(env.node, NodeVerdict(env), "", cfg.generation)),
                db := after.value - DroppedIn(w, env, cfg), log := w'.log)
  }

  lemma {:induction false} CleanConfigure(w: World, env: Env, cfg: Config, end: World, from: nat)
    requires Steady(w, env, cfg)
    requires from <= |w.log| && Configure(w, env, cfg).0.log <= end.log && CleanSince(end, from)
    ensures var (w', e) := Configure(w, env, cfg); e.None? && Leaves(w, w', env, cfg)
  {
    hide ReconcileRails, DeleteRemovedRails, Program, RunAll, ApplyAllPolicies, Try, GoneRails, BothNames, Dropped;
    CleanTry(w, env, ApplyPool, end, from);
    var w1 := Try(w, env, ApplyPool).0;
    RailsRun(w1, env, cfg, cfg.rails, end, from);
    var w2 := ReconcileRails(w1, env, cfg, cfg.rails).0;
    DeleteRemovedRun(w2, env, cfg, end, from);
    var w3 := DeleteRemovedRails(w2, env, cfg).0;
    CleanTry(w3, env, GetSriovState(env.node), end, from);
    var w4 := Try(w3, env, GetSriovState(env.node)).0;
    CleanTry(w4, env, PatchStatus(NodeState(env.node, NodeVerdict(env), "", cfg.generation)), end, from);
  }

  /** A clean pass, whatever it removes. */
  lemma {:induction false} CleanPass(w: World, env: Env, cfg: Config)
    requires Steady(w, env, cfg) && CleanSince(DoReconcile(w, env, cfg).0, |w.log|)
    ensures var (w', e) := DoReconcile(w, env, cfg); e.None? && Leaves(w, w', env, cfg)
  {
    hide Configure, ApplyAllPolicies, Program, RunAll, GoneRails, BothNames, Dropped;
    var end := DoReconcile(w, env, cfg).0;
    CleanCall(w, env, GetNode, end, |w.log|);
    var w1 := Call(w, env, GetNode).0;
    var op := PatchStatus(NodeState(env.node, InProgress, "", cfg.generation));
    if !SucceededForGeneration(w1, cfg) {
      CleanCall(w1, env, op, end, |w.log|);
    }
    var w2 := if SucceededForGeneration(w1, cfg) then w1 else Call(w1, env, op).0;
    CleanConfigure(w2, env, cfg, end, |w.log|);
  }

  lemma {:induction false} ApplyAllIsMerge(m: map<string, Policy>, cfg: Config, rails: seq<Rail>)
    requires forall r :: r in rails ==> r.pfs != []
    ensures ApplyAllPolicies(m, cfg, rails) == m + ApplyAllPolicies(map[], cfg, rails)
    decreases |rails|
  {
    if rails != [] {
      assert rails[0] in rails;
      assert forall r :: r in rails[1..] ==> r in rails;
      var d := ApplyPolicies(map[], cfg, rails[0]);
      assert ApplyPolicies(m, cfg, rails[0]) == m + d;
      ApplyAllIsMerge(m + d, cfg, rails[1..]);
      ApplyAllIsMerge(d, cfg, rails[1..]);
      var rest := ApplyAllPolicies(map[], cfg, rails[1..]);
      assert (m + d) + rest == m + (d + rest);
    }
  }

  /** No rail's policy names collide with another's. */
  ghost predicate SeparateRails(rails: seq<Rail>) {
    forall i, j :: 0 <= i < j < |rails| ==> Separate(rails[i].name, rails[j].name)
  }

  /** The rail is owned by this object: its two policies hold its PFs in order, none twice. */
  ghost predicate OwnsRail(m: map<string, Policy>, cfg: Config, r: Rail) {
    && r.name in m && m[r.name].owner == cfg.name && m[r.name].rail == r.name && |m[r.name].pfs| == 1
    && (|r.pfs| == 1 ==> !m[r.name].multiplane && m[r.name].pfs == r.pfs)
    && (|r.pfs| > 1 ==>
          && r.name + UNUSED in m && m[r.name + UNUSED].owner == cfg.name && m[r.name + UNUSED].rail == r.name
          && m[r.name].multiplane && m[r.name + UNUSED].multiplane
          && m[r.name].pfs + m[r.name + UNUSED].pfs == r.pfs)
  }

  lemma {:induction false} LaterRailsKeep(m: map<string, Policy>, cfg: Config, rails: seq<Rail>, n: string)
    requires (forall r :: r in rails ==> r.pfs != []) && n in m && Foreign(n, rails)
    ensures n in ApplyAllPolicies(m, cfg, rails) && ApplyAllPolicies(m, cfg, rails)[n] == m[n]
    decreases |rails|
  {
    if rails != [] {
      assert rails[0] in rails;
      assert forall r :: r in rails[1..] ==> r in rails;
      LaterRailsKeep(ApplyPolicies(m, cfg, rails[0]), cfg, rails[1..], n);
    }
  }

  lemma {:induction false} AppliedPoliciesOwn(m: map<string, Policy>, cfg: Config, rails: seq<Rail>, i: nat)
    requires (forall r :: r in rails ==> r.pfs != []) && SeparateRails(rails) && i < |rails|
    ensures OwnsRail(ApplyAllPolicies(m, cfg, rails), cfg, rails[i])
    decreases |rails|
  {
    assert rails[0] in rails;
    assert forall r :: r in rails[1..] ==> r in rails;
    var m1 := ApplyPolicies(m, cfg, rails[0]);
    if i > 0 {
      AppliedPoliciesOwn(m1, cfg, rails[1..], i - 1);
    } else {
      var r := rails[0];
      forall n | n == r.name || n == r.name + UNUSED ensures Foreign(n, rails[1..]) {
        forall q | q in rails[1..] ensures n != q.name && n != q.name + UNUSED {
          var j :| 0 <= j < |rails[1..]| && rails[1..][j] == q;
          assert Separate(rails[0].name, rails[j + 1].name);
          SeparateNames(r.name, q.name, n);
        }
      }
      LaterRailsKeep(m1, cfg, rails[1..], r.name);
      if |r.pfs| > 1 {
        LaterRailsKeep(m1, cfg, rails[1..], r.name + UNUSED);
        assert [r.pfs[0]] + r.pfs[1..] == r.pfs;
      }
    }
  }

  /** No removed rail is named like one of the spec plus the suffix, or the other way round. */
  ghost predicate SeparateLeftovers(w: World, env: Env, cfg: Config)
    requires forall r :: r in cfg.rails ==> r.pfs != []
  {
    forall x, r :: x in GoneIn(w, env, cfg) && r in cfg.rails ==> Separate(x, r.name)
  }

  lemma {:induction false} LeftoversSpare(w: World, env: Env, cfg: Config, r: Rail)
    requires (forall q :: q in cfg.rails ==> q.pfs != []) && SeparateLeftovers(w, env, cfg) && r in cfg.rails
    ensures var names := BothNames(GoneIn(w, env, cfg)); r.name !in names && r.name + UNUSED !in names
  {
    hide GoneIn;
    forall x | x in GoneIn(w, env, cfg) ensures !NameOf(r.name, x) && !NameOf(r.name + UNUSED, x) {
      SeparateNames(x, r.name, x);
      SeparateNames(x, r.name, x + UNUSED);
    }
  }

  /** After a clean pass the policies of every rail split its PFs, first one and rest, under the right labels. */
  lemma {:induction false} CleanPassOwnsRails(w: World, env: Env, cfg: Config, i: nat)
    requires Steady(w, env, cfg) && SeparateRails(cfg.rails) && SeparateLeftovers(w, env, cfg) && i < |cfg.rails|
    requires CleanSince(DoReconcile(w, env, cfg).0, |w.log|)
    ensures var w' := DoReconcile(w, env, cfg).0;
            w'.pool && cfg.rails[i].name in w'.networks && OwnsRail(w'.policies, cfg, cfg.rails[i])
  {
    hide DoReconcile, ApplyAllPolicies, Program, RunAll, GoneIn, BothNames, DroppedIn;
    CleanPass(w, env, cfg);
    AppliedPoliciesOwn(w.policies, cfg, cfg.rails, i);
    LeftoversSpare(w, env, cfg, cfg.rails[i]);
    GoneAreNames(w, env, cfg);
    assert cfg.rails[i] in cfg.rails && cfg.rails[i].name in RailNames(cfg.rails);
  }

  lemma {:induction false} GoneAreNames(w: World, env: Env, cfg: Config)
    requires forall r :: r in cfg.rails ==> r.pfs != []
    ensures GoneIn(w, env, cfg) <= BothNames(GoneIn(w, env, cfg))
    ensures GoneIn(w, env, cfg) !! RailNames(cfg.rails)
  {
  }

  lemma {:induction false} AppliedAreOwn(m: map<string, Policy>, cfg: Config, rails: seq<Rail>, n: string)
    requires (forall r :: r in rails ==> r.pfs != []) && NamedRails(rails) && n in ApplyAllPolicies(m, cfg, rails)
    ensures var p := ApplyAllPolicies(m, cfg, rails)[n];
            (n in m && p == m[n]) || RailOf(n, p) in RailNames(rails)
    decreases |rails|
  {
    if rails != [] {
      assert rails[0] in rails;
      assert forall r :: r in rails[1..] ==> r in rails;
      AppliedAreOwn(ApplyPolicies(m, cfg, rails[0]), cfg, rails[1..], n);
    }
  }

  lemma {:induction false} ReconcileRailsPoliciesCover(w1: World, w2: World, cfg: Config)
    requires Covered(w1, cfg) && NamedRails(cfg.rails) && forall r :: r in cfg.rails ==> r.pfs != []
    requires w2.policies == ApplyAllPolicies(w1.policies, cfg, cfg.rails)
    ensures Covered(w2, cfg)
  {
    forall n | Owned(w2, cfg.name, n) ensures RailOf(n, w2.policies[n]) in RailNames(cfg.rails) {
      AppliedAreOwn(w1.policies, cfg, cfg.rails, n);
      if n in w1.policies && w2.policies[n] == w1.policies[n] {
        assert Owned(w1, cfg.name, n);
      }
    }
  }

  /** When every owned policy belongs to a rail of the spec, nothing is removed. */
  lemma {:induction false} CoveredLosesNothing(w: World, env: Env, cfg: Config)
    requires Covered(w, cfg) && NamedRails(cfg.rails) && forall r :: r in cfg.rails ==> r.pfs != []
    ensures GoneIn(w, env, cfg) == {} && DroppedIn(w, env, cfg) == {}
  {
    var after, listed := ApplyAllPolicies(w.policies, cfg, cfg.rails), ListingOf(w, env, cfg);
    forall y | y in listed ensures RailOf(y.0, y.1) in RailNames(cfg.rails) {
      OwnedAmongIs(after, cfg.name, env.order(after.Keys), y.0);
      AppliedAreOwn(w.policies, cfg, cfg.rails, y.0);
      assert y.0 in w.policies && y.1 == w.policies[y.0] ==> Owned(w, cfg.name, y.0);
    }
    NothingDropped(listed, RailNames(cfg.rails));
  }

  lemma {:induction false} NothingDropped(listed: seq<(string, Policy)>, current: set<string>)
    requires forall y :: y in listed ==> RailOf(y.0, y.1) in current
    ensures Dropped(listed, current, {}) == {}
    decreases |listed|
  {
    if listed != [] {
      assert listed[0] in listed;
      assert forall y :: y in listed[1..] ==> y in listed;
      NothingDropped(listed[1..], current);
    }
  }

  /** A clean pass with nothing to remove. */
  lemma {:induction false} CoveredPass(w: World, env: Env, cfg: Config)
    requires Steady(w, env, cfg) && Covered(w, cfg) && CleanSince(DoReconcile(w, env, cfg).0, |w.log|)
    ensures var (w', e) := DoReconcile(w, env, cfg);
            && e.None?
            && w' == w.(policies := ApplyAllPolicies(w.policies, cfg, cfg.rails), networks := w.networks + RailNames(cfg.rails),
                        pool := true, entry := Some(NodeState(env.node, NodeVerdict(env), "", cfg.generation)), db := w'.db, log := w'.log)
            && RunAll(w.db, Program(cfg.rails)) == Some(w'.db)
  {
    hide DoReconcile, ApplyAllPolicies, Program, RunAll, GoneIn, DroppedIn, Covered;
    CleanPass(w, env, cfg);
    CoveredLosesNothing(w, env, cfg);
    assert BothNames({}) == {};
    var m := ApplyAllPolicies(w.policies, cfg, cfg.rails);
    var nets, db := w.networks + RailNames(cfg.rails), RunAll(w.db, Program(cfg.rails)).value;
    assert m - {} == m && nets - {} == nets && db - {} == db;
  }

  /**
   * Two passes in which every call succeeds reach a fixed point: every multiplane rail is fully
   * configured, and a third such pass changes nothing but the log.
   */
  lemma {:induction false} TwoPassesReachFixedPoint(w: World, e1: Env, e2: Env, e3: Env, cfg: Config)
    requires NamedAfterRails(w, cfg.name)
    requires Steady(w, e1, cfg) && Steady(w, e2, cfg) && Steady(w, e3, cfg)
    requires e2.node == e3.node && e2.sriov == e3.sriov
    ensures var (w1, r1) := DoReconcile(w, e1, cfg);
            var w2 := DoReconcile(w1, e2, cfg).0;
            var w3 := DoReconcile(w2, e3, cfg).0;
            r1.None? && CleanSince(w2, |w1.log|) && CleanSince(w3, |w2.log|) ==>
              && (forall i :: 0 <= i < |cfg.rails| && Multiplane(cfg.rails[i]) ==> Configured(w2.db, cfg.rails[i]))
              && w3 == w2.(log := w3.log)
  {
    hide Configure, ApplyAllPolicies, Program, RunAll, Configured;
    var (w1, r1) := DoReconcile(w, e1, cfg);
    var w2 := DoReconcile(w1, e2, cfg).0;
    if r1.None? && CleanSince(w2, |w1.log|) && CleanSince(DoReconcile(w2, e3, cfg).0, |w2.log|) {
      CleanPassCovers(w, e1, cfg);
      LivePassKeepsFinalizer(w, e1, cfg);
      CoveredPass(w1, e2, cfg);
      ReconcileRailsPoliciesCover(w1, w2, cfg);
      CoveredPass(w2, e3, cfg);
      ProgramConverges(w1.db, cfg.rails);
      ApplyAllIsMerge(w1.policies, cfg, cfg.rails);
      ApplyAllIsMerge(w2.policies, cfg, cfg.rails);
      var d := ApplyAllPolicies(map[], cfg, cfg.rails);
      assert (w1.policies + d) + d == w1.policies + d;
      assert w1.networks + RailNames(cfg.rails) + RailNames(cfg.rails) == w1.networks + RailNames(cfg.rails);
    }
  }

  /**
   * Safe start and recovery: whatever uplinks of the pool's rails the hook stripped, and whatever
   * rails the next clean pass on this node removes, it leaves the same database as if nothing had
   * been stripped.
   */
  lemma {:induction false} PassRestoresStripped(w: World, env: Env, cfg: Config, gone: set<PortName>)
    requires Steady(w, env, cfg)
    requires PlainUplinks(w.db, gone) && OfRails(gone, cfg.rails)
    requires CleanSince(DoReconcile(w, env, cfg).0, |w.log|)
    requires var stripped := w.(db := DelPorts(w.db, gone)); CleanSince(DoReconcile(stripped, env, cfg).0, |w.log|)
    ensures var stripped := w.(db := DelPorts(w.db, gone));
            DoReconcile(stripped, env, cfg).0.db == DoReconcile(w, env, cfg).0.db
  {
    hide DoReconcile, ApplyAllPolicies, Program, RunAll, GoneRails, Dropped;
    var stripped := w.(db := DelPorts(w.db, gone));
    CleanPass(w, env, cfg);
    CleanPass(stripped, env, cfg);
    StripIsTransparent(w.db, gone, cfg.rails);
    assert ListingOf(stripped, env, cfg) == ListingOf(w, env, cfg);
  }

  // ------------------------------------------------- exactly when one pass is enough

  /**
   * A single pass in which every call succeeds configures the multiplane rails of the spec if and
   * only if it removes no rail whose first listed policy is multiplane.
   */
  lemma {:induction false} OnePassSufficesIff(w: World, env: Env, cfg: Config)
    requires Steady(w, env, cfg)
    requires exists i :: 0 <= i < |cfg.rails| && Multiplane(cfg.rails[i])
    requires CleanSince(DoReconcile(w, env, cfg).0, |w.log|)
    ensures var w' := DoReconcile(w, env, cfg).0;
            (forall i :: 0 <= i < |cfg.rails| && Multiplane(cfg.rails[i]) ==> Configured(w'.db, cfg.rails[i]))
            <==> !RemovesMultiplane(w, env, cfg)
  {
    hide DoReconcile, Program, RunAll, Drops, Dropped, GoneIn, ApplyAllPolicies;
    CleanPass(w, env, cfg);
    ProgramConverges(w.db, cfg.rails);
    var listed, current := ListingOf(w, env, cfg), RailNames(cfg.rails);
    SharedDropped(listed, current, {});
    if !RemovesMultiplane(w, env, cfg) {
      var after := RunAll(w.db, Program(cfg.rails)).value;
      forall i | 0 <= i < |cfg.rails| && Multiplane(cfg.rails[i])
        ensures Configured(after - Dropped(listed, current, {}), cfg.rails[i])
      {
        assert cfg.rails[i] in cfg.rails;
        OwnBridgeStays(listed, current, {}, cfg.rails[i].name);
      }
    }
  }

  /** A rail of the spec keeps its own bridge. */
  lemma {:induction false} OwnBridgeStays(listed: seq<(string, Policy)>, current: set<string>, removed: set<string>, x: string)
    requires x in current
    ensures RailBridge(x) !in Dropped(listed, current, removed)
    decreases |listed|
  {
    hide RailOf;
    if listed != [] {
      OwnBridgeStays(listed[1..], current, removed, x);
      OwnBridgeStays(listed[1..], current, removed + {RailOf(listed[0].0, listed[0].1)}, x);
    }
  }

  /** Why labels can be mixed: shrinking a rail to one PF relabels its first policy only. */
  lemma {:induction false} ShrinkingMixesLabels(m: map<string, Policy>, cfg: Config, r: Rail, q: Rail)
    requires |r.pfs| > 1 && |q.pfs| == 1 && q.name == r.name
    ensures var m' := ApplyPolicies(ApplyPolicies(m, cfg, r), cfg, q);
            && r.name in m' && !m'[r.name].multiplane && m'[r.name].pfs == q.pfs
            && r.name + UNUSED in m' && m'[r.name + UNUSED].multiplane && m'[r.name + UNUSED].pfs == r.pfs[1..]
  {
    assert r.name != r.name + UNUSED;
  }
}
