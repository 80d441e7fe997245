/** What the steps of a pass mean for their callers: results, frames, and the calls they were made of. */
module CallResults {
  import opened Basics
  import opened NodeStates
  import opened XPlane
  import opened Reconciler
  import opened StatusReports
  import opened ReconcilerProofs
  import opened Convergence
  import CallLog
  import Errors
  import CleanRuns
  import Orphans

  /** Every bridge that is left is unchanged. */
  ghost predicate OnlyDropped(db: Db, db': Db, gone: set<BridgeName>) {
    && (forall b :: b in db' ==> b in db && db'[b] == db[b])
    && (forall b :: b in db && b !in gone ==> b in db')
  }

  lemma {:induction false} CleanupMeans(w: World, env: Env, rail: string)
    ensures var (w', e) := CleanupXPlaneBridges(w, env, rail);
            && w' == w.(db := w'.db, log := w'.log) && OnlyDropped(w.db, w'.db, {RailBridge(rail), XPlaneBridge})
            && (e.None? ==> CleanupEnded(w'.log, |w.log|, rail))
            && (e.Some? ==> |w'.log| > |w.log| && w'.log[|w'.log| - 1].outcome.Timeout?)
            && (CleanSince(w', |w.log|) ==> RailBridge(rail) !in w'.db && XPlaneBridge !in w'.db)
  {
    hide Effect, CleanupEnded;
    var (w', e) := CleanupXPlaneBridges(w, env, rail);
    if e.None? {
      CleanupEnds(w, env, rail);
    }
    var w1 := Call(w, env, Ovs(DelBr(RailBridge(rail)))).0;
    DelBrMeans(w, env, RailBridge(rail));
    DelBrMeans(w1, env, XPlaneBridge);
    if CleanSince(w', |w.log|) {
      CleanCall(w, env, Ovs(DelBr(RailBridge(rail))), w', |w.log|);
      CleanCall(w1, env, Ovs(DelBr(XPlaneBridge)), w', |w.log|);
    }
  }

  lemma {:induction false} DelBrMeans(w: World, env: Env, b: BridgeName)
    ensures var (w1, o) := Call(w, env, Ovs(DelBr(b)));
            w1 == w.(db := w1.db, log := w1.log) && OnlyDropped(w.db, w1.db, {b}) && (o.Ok? ==> b !in w1.db)
  {
  }

  lemma {:induction false} CreateMeans(w: World, env: Env, r: Rail)
    ensures var (w', e) := CreateXPlaneBridges(w, env, r);
            && w'.policies == w.policies
            && (CleanSince(w', |w.log|) ==> e.None? && RunAll(w.db, RailProgram(r)) == Some(w'.db))
            && (CleanSince(w', |w.log|) && DistinctPfs(r) ==> Configured(w'.db, r))
  {
    hide CreateXPlaneBridges, RailProgram, RunAll, Configured;
    BridgesKeepPolicies(w, env, r);
    var w' := CreateXPlaneBridges(w, env, r).0;
    if CleanSince(w', |w.log|) {
      CreateRun(w, env, r, w', |w.log|);
      if DistinctPfs(r) {
        RailProgramConfigures(w.db, r);
      }
    }
  }

  ghost predicate DistinctPfs(r: Rail) {
    forall i, j :: 0 <= i < j < |r.pfs| ==> r.pfs[i] != r.pfs[j]
  }

  lemma {:induction false} RailProgramConfigures(db: Db, r: Rail)
    requires DistinctPfs(r) && RunAll(db, RailProgram(r)).Some?
    ensures Configured(RunAll(db, RailProgram(r)).value, r)
  {
    hide RunAll, Holds;
    var db' := RunAll(db, RailProgram(r)).value;
    forall c, d | c in RailProgram(r) && d in RailProgram(r) ensures Compatible(c, d) {
      RailProgramIs(r, c);
      RailProgramIs(r, d);
      assert DistinctRails([r]);
      RailsCompatible([r], 0, 0, c, d);
    }
    RunEstablishes(db, RailProgram(r));
    RailIsConfigured(db', r);
  }

  /** Policies other than the rail's two stay, and nothing outside policies and networks changes. */
  ghost predicate OnlyRail(w: World, w': World, rail: string) {
    && Shrinks(w, w') && (forall n :: n in w.policies && !NameOf(n, rail) ==> n in w'.policies)
    && (forall x :: x != rail ==> (x in w'.networks <==> x in w.networks))
    && w'.entry == w.entry && w'.finalizer == w.finalizer
  }

  lemma {:induction false} RemoveMeans(w: World, env: Env, rail: string, multiplane: bool)
    ensures var (w', e) := RemoveRail(w, env, rail, multiplane);
            && OnlyRail(w, w', rail) && (e.None? ==> RailGone(w', rail) && rail !in w'.networks)
            && (multiplane && (e.None? || w'.policies != w.policies) ==> CleanupEnded(w'.log, |w.log|, rail))
  {
    hide RemoveRail, CleanupEnded;
    RemoveRailPolicies(w, env, rail, multiplane);
    forall x ensures var (w', e) := RemoveRail(w, env, rail, multiplane);
                     (rail != x ==> (x in w'.networks <==> x in w.networks)) && (rail == x && e.None? ==> x !in w'.networks) {
      Orphans.RemoveRailNet(w, env, rail, multiplane, x);
    }
    Orphans.RemoveRailNet(w, env, rail, multiplane, rail);
    if multiplane {
      RemoveRailEnds(w, env, rail);
    }
  }

  lemma {:induction false} DeleteResourcesMeans(w: World, env: Env, rail: string)
    ensures var (w', e) := DeleteRailResources(w, env, rail);
            OnlyRail(w, w', rail) && w'.db == w.db && (e.None? ==> RailGone(w', rail) && rail !in w'.networks)
  {
    hide OnlyRail, Call;
    RemoveMeans(w, env, rail, false);
    ResourcesKeepDb(w, env, rail);
  }

  lemma {:induction false} ResourcesKeepDb(w: World, env: Env, rail: string)
    ensures DeleteRailResources(w, env, rail).0.db == w.db
  {
  }

  lemma {:induction false} PatchMeans(w: World, env: Env, cfg: Config, st: State, message: string)
    ensures var (w', e) := Patch(w, env, cfg, st, message);
            var wanted := Some(NodeState(env.node, st, message, cfg.generation));
            && w' == w.(entry := w'.entry, log := w'.log) && (w'.entry == w.entry || w'.entry == wanted)
            && (e.None? ==> w'.entry == wanted)
  {
  }

  lemma {:induction false} StatusMeans(w: World, env: Env, cfg: Config)
    ensures var (w', e) := ProcessNodeStatus(w, env, cfg);
            && w' == w.(entry := w'.entry, log := w'.log)
            && (env.selected && e.None? ==> w'.entry.Some? && ReportsSriov(w'.entry.value, env, cfg))
            && (!env.selected ==> w' == w)
  {
    hide Patch;
    PatchMeans(Try(w, env, GetSriovState(env.node)).0, env, cfg, NodeVerdict(env), "");
  }

  /** The last interface listed under the name has this mode. */
  ghost predicate LastMode(interfaces: seq<(string, string)>, name: string, mode: string) {
    exists i :: 0 <= i < |interfaces| && interfaces[i] == (name, mode) && forall j :: i < j < |interfaces| ==> interfaces[j].0 != name
  }

  lemma {:induction false} ModeIsLast(interfaces: seq<(string, string)>, name: string, mode: string)
    ensures name in ModeOf(interfaces) && ModeOf(interfaces)[name] == mode <==> LastMode(interfaces, name, mode)
  {
    if interfaces != [] {
      var n := |interfaces| - 1;
      ModeIsLast(interfaces[..n], name, mode);
      if interfaces[n].0 == name {
        assert LastMode(interfaces, name, mode) ==> interfaces[n] == (name, mode);
        assert interfaces[n] == (name, mode) ==> LastMode(interfaces, name, mode);
      } else {
        if LastMode(interfaces[..n], name, mode) {
          var i :| 0 <= i < n && interfaces[..n][i] == (name, mode) && forall j :: i < j < n ==> interfaces[..n][j].0 != name;
          assert interfaces[i] == (name, mode) && forall j :: i < j < n ==> interfaces[j] == interfaces[..n][j];
        }
        if LastMode(interfaces, name, mode) {
          var i :| 0 <= i < |interfaces| && interfaces[i] == (name, mode) && forall j :: i < j < |interfaces| ==> interfaces[j].0 != name;
          assert interfaces[..n][i] == (name, mode) && forall j :: i < j < n ==> interfaces[..n][j] == interfaces[j];
        }
      }
    }
  }

  lemma {:induction false} SwitchdevIs(interfaces: seq<(string, string)>, pfs: seq<string>)
    ensures PfsInSwitchdev(interfaces, pfs) <==> pfs != [] && forall p :: p in pfs ==> LastMode(interfaces, p, "switchdev")
  {
    hide LastMode, ModeOf;
    forall p ensures p in ModeOf(interfaces) && ModeOf(interfaces)[p] == SWITCHDEV <==> LastMode(interfaces, p, "switchdev") {
      ModeIsLast(interfaces, p, SWITCHDEV);
    }
  }

  /** The node is in the pool, every node of the pool is known to SR-IOV, and all PFs of the rail are in switchdev here. */
  ghost predicate MayConfigure(env: Env, r: Rail) {
    && env.node in env.poolNodes && (forall n :: n in env.poolNodes ==> n in env.sriov)
    && r.pfs != [] && forall p :: p in r.pfs ==> LastMode(env.sriov[env.node].interfaces, p, "switchdev")
  }

  lemma {:induction false} MayConfigureIs(env: Env, r: Rail)
    ensures MayConfigure(env, r) <==> AllKnown(env) && Ready(env, r)
  {
    hide PfsInSwitchdev, LastMode;
    if env.node in env.sriov {
      SwitchdevIs(env.sriov[env.node].interfaces, r.pfs);
    }
  }

  /** The node loop ends quietly at a node without SR-IOV state, and goes on only when there is none. */
  lemma {:induction false} CheckNodesFinds(w: World, env: Env, nodes: seq<string>)
    ensures var (w', found, e) := CheckNodes(w, env, nodes);
            && (found ==> e.None? && forall n :: n in nodes ==> n in env.sriov)
            && (!found && e.None? ==> exists n :: n in nodes && n !in env.sriov)
    decreases |nodes|
  {
    if nodes != [] {
      CheckNodesFinds(Try(w, env, GetSriovState(nodes[0])).0, env, nodes[1..]);
      assert forall n :: n in nodes <==> n == nodes[0] || n in nodes[1..];
    }
  }

  /** The log from w on starts with a successful installation of the safe-start hook. */
  ghost predicate HookFirst(w: World, w': World) {
    |w.log| < |w'.log| && w'.log[|w.log|] == Event(InstallHook, Ok)
  }

  /** Configuration gets past its preparation only with the hook installed and every node known. */
  lemma {:induction false} PrepareGuards(w: World, env: Env)
    ensures var (w', found, e) := PrepareXPlane(w, env);
            && w.log <= w'.log && w'.db == w.db
            && (found ==> e.None? && AllKnown(env) && HookFirst(w, w'))
            && (!found && e.None? ==> !AllKnown(env))
  {
    hide CheckNodes, Effect;
    PrepareKeepsDb(w, env);
    var w1 := Call(w, env, InstallHook).0;
    var w2 := Call(w1, env, ListNodes).0;
    CheckNodesFinds(w2, env, env.poolNodes);
    assert w1.log[|w.log|].op == InstallHook;
  }

  /** The database changes, and the deployment is issued, only where the rail may be configured and after the hook. */
  lemma {:induction false} ConfigureGuards(w: World, env: Env, r: Rail)
    ensures var (w', e) := ConfigureXPlane(w, env, r);
            && (w'.db != w.db || (exists i :: |w.log| <= i < |w'.log| && w'.log[i].op == DeployXPlane) ==>
                  MayConfigure(env, r) && HookFirst(w, w'))
            && (MayConfigure(env, r) && e.None? && (w'.db != w.db || CleanSince(w', |w.log|)) ==>
                  |w'.log| > |w.log| && w'.log[|w'.log| - 1] == Event(DeployXPlane, Ok))
  {
    hide PrepareXPlane, CreateXPlaneBridges, Ready, AllKnown, Effect, CleanSince, MayConfigure;
    MayConfigureIs(env, r);
    PrepareGuards(w, env);
    PrepareNeverDeploys(w, env);
    var (w1, found, e1) := PrepareXPlane(w, env);
    if e1.None? && AllKnown(env) && CleanSince(ConfigureXPlane(w, env, r).0, |w.log|) {
      PrepareRun(w, env, ConfigureXPlane(w, env, r).0, |w.log|);
    }
    if found && Ready(env, r) {
      var w2 := CreateXPlaneBridges(w1, env, r).0;
      assert HookFirst(w, w1) ==> HookFirst(w, ConfigureXPlane(w, env, r).0);
    }
  }

  /** What configuring a rail means for the caller. */
  ghost predicate RailConfigured(w: World, w': World, env: Env, r: Rail, e: Option<Error>) {
    && w'.policies == w.policies && w'.networks == w.networks && w'.entry == w.entry && w'.finalizer == w.finalizer
    && (w'.db != w.db ==> MayConfigure(env, r) && HookFirst(w, w'))
    && (MayConfigure(env, r) && CleanSince(w', |w.log|) ==>
          && e.None? && RunAll(w.db, RailProgram(r)) == Some(w'.db)
          && |w'.log| > 0 && w'.log[|w'.log| - 1] == Event(DeployXPlane, Ok))
    && Errors.Faithful(w, w', e)
  }

  lemma {:induction false} RailIsConfiguredSo(w: World, env: Env, r: Rail)
    ensures RailConfigured(w, ConfigureXPlane(w, env, r).0, env, r, ConfigureXPlane(w, env, r).1)
  {
    hide ConfigureXPlane, MayConfigure, HookFirst, RailProgram, RunAll, CleanSince, AllKnown, Ready, Errors.Faithful;
    Errors.Here(w);
    Errors.FaithfulXPlane(w, w, env, r);
    MayConfigureIs(env, r);
    ConfigureGuards(w, env, r);
    ConfigureMeans(w, env, r);
  }

  /** What configuring the object means for the caller. */
  ghost predicate ObjectConfigured(w: World, w': World, env: Env, cfg: Config, e: Option<Error>) {
    && w'.finalizer == w.finalizer && (!env.selected ==> w'.entry == w.entry)
    && (env.selected && PatchesOk(w, w') ==> Agrees(w, w', env, cfg, e))
    && (NamedAfterRails(w, cfg.name) && NamedRails(cfg.rails) && (forall names :: ListsAll(env, names)) ==>
          NamedAfterRails(w', cfg.name) && (e.None? ==> Covered(w', cfg)))
    && Errors.Faithful(w, w', e)
  }

  lemma {:induction false} ObjectIsConfiguredSo(w: World, env: Env, cfg: Config)
    ensures ObjectConfigured(w, Configure(w, env, cfg).0, env, cfg, Configure(w, env, cfg).1)
  {
    hide Configure, PatchesOk, Agrees, NamedAfterRails, NamedRails, ListsAll, Covered, Errors.Faithful;
    Errors.Here(w);
    Errors.FaithfulConfigure(w, w, env, cfg);
    if !env.selected {
      UnselectedConfigure(w, env, cfg);
    } else if PatchesOk(w, Configure(w, env, cfg).0) {
      CallLog.SilentHere(w, ListPolicies);
      ConfigureAgrees(w, w, env, cfg);
    }
    if NamedAfterRails(w, cfg.name) && NamedRails(cfg.rails) && forall names :: ListsAll(env, names) {
      ConfigureCovers(w, env, cfg);
    }
  }

  lemma {:induction false} CheckNeverDeploys(w: World, env: Env, nodes: seq<string>)
    ensures CallLog.Silent(w, CheckNodes(w, env, nodes).0, DeployXPlane)
    decreases |nodes|
  {
    hide Call, CallLog.Silent;
    CallLog.SilentHere(w, DeployXPlane);
    if nodes != [] {
      var w1 := Call(w, env, GetSriovState(nodes[0])).0;
      CallLog.CallSilent(w, env, GetSriovState(nodes[0]), DeployXPlane);
      CheckNeverDeploys(w1, env, nodes[1..]);
      CallLog.SilentTwice(w, w1, CheckNodes(w1, env, nodes[1..]).0, DeployXPlane);
    }
  }

  lemma {:induction false} PrepareNeverDeploys(w: World, env: Env)
    ensures CallLog.Silent(w, PrepareXPlane(w, env).0, DeployXPlane)
  {
    hide Call, CheckNodes, CallLog.Silent;
    var w1 := Call(w, env, InstallHook).0;
    var w2 := Call(w1, env, ListNodes).0;
    CallLog.CallSilent(w, env, InstallHook, DeployXPlane);
    CallLog.ThenCall(w, w1, env, ListNodes, DeployXPlane);
    CheckNeverDeploys(w2, env, env.poolNodes);
    CallLog.SilentTwice(w, w2, CheckNodes(w2, env, env.poolNodes).0, DeployXPlane);
  }

  /** A command that ends createXPlaneBridges: an add-br that failed, or any command that timed out. */
  predicate Stops(ev: Event) {
    ev.outcome.Timeout? || (ev.op.Ovs? && ev.op.c.AddBr? && !ev.outcome.Ok?)
  }

  /** The commands were issued in order, up to the first that stops or to the end; nil means the end. */
  ghost predicate Issued(w: World, w': World, cmds: seq<Command>, e: Option<Error>) {
    var n := |w'.log| - |w.log|;
    && w.log <= w'.log && n <= |cmds|
    && (forall i :: 0 <= i < n ==> w'.log[|w.log| + i].op == Ovs(cmds[i]))
    && (e.None? ==> n == |cmds| && forall i :: |w.log| <= i < |w'.log| ==> !Stops(w'.log[i]))
    && (e.Some? ==> n > 0 && Stops(w'.log[|w'.log| - 1]) && forall i :: |w.log| <= i < |w'.log| - 1 ==> !Stops(w'.log[i]))
  }

  lemma {:induction false} IssuedThen(w: World, w1: World, w2: World, c1: seq<Command>, c2: seq<Command>, e: Option<Error>)
    requires Issued(w, w1, c1, None) && Issued(w1, w2, c2, e)
    ensures Issued(w, w2, c1 + c2, e)
  {
    forall i | 0 <= i < |w2.log| - |w.log| ensures w2.log[|w.log| + i].op == Ovs((c1 + c2)[i]) {
      if i < |c1| {
        assert w2.log[|w.log| + i] == w1.log[|w.log| + i];
      } else {
        assert w2.log[|w1.log| + (i - |c1|)].op == Ovs(c2[i - |c1|]);
      }
    }
    assert forall i :: |w.log| <= i < |w1.log| ==> w2.log[i] == w1.log[i];
  }

  lemma {:induction false} IssuedShort(w: World, w1: World, c1: seq<Command>, c2: seq<Command>, e: Option<Error>)
    requires e.Some? && Issued(w, w1, c1, e)
    ensures Issued(w, w1, c1 + c2, e)
  {
  }

  lemma {:induction false} OneIssued(w: World, env: Env, c: Command)
    ensures c.AddBr? ==> Issued(w, Try(w, env, Ovs(c)).0, [c], Try(w, env, Ovs(c)).1)
    ensures !c.AddBr? ==> Issued(w, TryOvs(w, env, c).0, [c], TryOvs(w, env, c).1)
  {
    hide Effect;
  }

  lemma {:induction false} UplinksIssued(w: World, env: Env, r: Rail, idx: nat)
    requires idx <= |r.pfs|
    ensures var (w', e) := AddUplinks(w, env, r, idx); Issued(w, w', UplinksFrom(r, idx), e)
    decreases |r.pfs| - idx
  {
    hide Try, TryOvs;
    if idx < |r.pfs| {
      hide Issued;
      var c := UplinkOf(r, idx);
      var (w1, e1) := TryOvs(w, env, c);
      OneIssued(w, env, c);
      if e1.None? {
        UplinksIssued(w1, env, r, idx + 1);
        IssuedThen(w, w1, AddUplinks(w1, env, r, idx + 1).0, [c], UplinksFrom(r, idx + 1), AddUplinks(w1, env, r, idx + 1).1);
      } else {
        IssuedShort(w, w1, [c], UplinksFrom(r, idx + 1), e1);
      }
    }
  }

  /** createXPlaneBridges goes through its program in order: only a failed add-br or a timeout stops it. */
  lemma {:induction false} CreateIssues(w: World, env: Env, r: Rail)
    ensures var (w', e) := CreateXPlaneBridges(w, env, r); Issued(w, w', RailProgram(r), e)
  {
    hide Try, TryOvs, AddUplinks, Issued, UplinksFrom;
    var c1, c2, c4 := AddBr(XPlaneBridge, Secure), AddBr(RailBridge(r.name), Standalone), AddPatch(r.name, r.mtu);
    var ups := UplinksFrom(r, 0);
    var (w1, e1) := Try(w, env, Ovs(c1));
    OneIssued(w, env, c1);
    assert RailProgram(r) == [c1] + ([c2] + ups + [c4]);
    if e1.Some? {
      IssuedShort(w, w1, [c1], [c2] + ups + [c4], e1);
    } else {
      var (w2, e2) := Try(w1, env, Ovs(c2));
      OneIssued(w1, env, c2);
      IssuedThen(w, w1, w2, [c1], [c2], e2);
      assert RailProgram(r) == ([c1] + [c2]) + (ups + [c4]);
      if e2.Some? {
        IssuedShort(w, w2, [c1] + [c2], ups + [c4], e2);
      } else {
        var (w3, e3) := AddUplinks(w2, env, r, 0);
        UplinksIssued(w2, env, r, 0);
        IssuedThen(w, w2, w3, [c1] + [c2], ups, e3);
        assert RailProgram(r) == ([c1] + [c2] + ups) + [c4];
        if e3.Some? {
          IssuedShort(w, w3, [c1] + [c2] + ups, [c4], e3);
        } else {
          OneIssued(w3, env, c4);
          IssuedThen(w, w3, TryOvs(w3, env, c4).0, [c1] + [c2] + ups, [c4], TryOvs(w3, env, c4).1);
        }
      }
    }
  }

  /** Applying a rail returns nil exactly if it has PFs and every call succeeded; the CIDR pool is looked up when referenced. */
  lemma {:induction false} ApplyCalls(w: World, env: Env, cfg: Config, r: Rail)
    ensures var (w', e) := ApplyRail(w, env, cfg, r);
            && (e.None? <==> r.pfs != [] && CleanSince(w', |w.log|))
            && (e.None? && r.cidrPoolRef ==> exists i :: |w.log| <= i < |w'.log| && w'.log[i] == Event(GetCidrPool(r.name), Ok))
  {
    hide Primary, Secondary, Try, CleanSince, ApplyPolicies;
    var (w', e) := ApplyRail(w, env, cfg, r);
    if r.pfs != [] {
      if CleanSince(w', |w.log|) {
        ApplyRailRun(w, env, cfg, r, w', |w.log|);
      }
      if e.None? {
        var op1, op2, op3 := ApplyPolicy(r.name, Primary(cfg, r)), ApplyPolicy(r.name + UNUSED, Secondary(cfg, r)), GetCidrPool(r.name);
        var w1 := Try(w, env, op1).0;
        TryLogs(w, env, op1);
        var w2 := if Multiplane(r) then Try(w1, env, op2).0 else w1;
        if Multiplane(r) {
          TryLogs(w1, env, op2);
          CleanRuns.CleanJoin(w, w1, w2);
        }
        var w3 := if r.cidrPoolRef then Try(w2, env, op3).0 else w2;
        if r.cidrPoolRef {
          TryLogs(w2, env, op3);
          CleanRuns.CleanJoin(w, w2, w3);
        }
        TryLogs(w3, env, ApplyNetwork(r.name));
        CleanRuns.CleanJoin(w, w3, w');
        assert r.cidrPoolRef ==> w'.log[|w2.log|] == w3.log[|w2.log|] == Event(op3, Ok);
      }
    }
  }

  lemma {:induction false} TryLogs(w: World, env: Env, op: Op)
    requires Try(w, env, op).1 == None
    ensures CleanRuns.Clean(w, Try(w, env, op).0) && Try(w, env, op).0.log == w.log + [Event(op, Ok)]
  {
    hide Effect;
  }

  lemma {:induction false} CheckNodesKeepsDb(w: World, env: Env, nodes: seq<string>)
    ensures CheckNodes(w, env, nodes).0.db == w.db
    decreases |nodes|
  {
    if nodes != [] {
      CheckNodesKeepsDb(Try(w, env, GetSriovState(nodes[0])).0, env, nodes[1..]);
    }
  }

  lemma {:induction false} ConfigureMeans(w: World, env: Env, r: Rail)
    ensures var (w', e) := ConfigureXPlane(w, env, r);
            && w'.policies == w.policies && w'.networks == w.networks
            && (!Ready(env, r) ==> w'.db == w.db)
            && (AllKnown(env) && Ready(env, r) && CleanSince(w', |w.log|) ==> e.None? && RunAll(w.db, RailProgram(r)) == Some(w'.db))
  {
    hide CheckNodes, CreateXPlaneBridges, RailProgram, RunAll, Effect, PfsInSwitchdev;
    ConfigureKeepsPolicies(w, env, r);
    var w' := ConfigureXPlane(w, env, r).0;
    forall x ensures x in w'.networks <==> x in w.networks {
      Orphans.XPlaneNet(w, env, r, x);
    }
    if !Ready(env, r) {
      PrepareKeepsDb(w, env);
    } else if AllKnown(env) && CleanSince(w', |w.log|) {
      ConfigureRun(w, env, r, w', |w.log|);
    }
  }

  lemma {:induction false} PrepareKeepsDb(w: World, env: Env)
    ensures PrepareXPlane(w, env).0.db == w.db
  {
    hide CheckNodes;
    CheckNodesKeepsDb(Try(Try(w, env, InstallHook).0, env, ListNodes).0, env, env.poolNodes);
  }

  lemma {:induction false} ApplyMeans(w: World, env: Env, cfg: Config, r: Rail)
    requires ApplyRail(w, env, cfg, r).1 == None
    ensures var w' := ApplyRail(w, env, cfg, r).0; OwnsRail(w'.policies, cfg, r) && r.name in w'.networks
  {
    hide Effect;
    var op1, op2 := ApplyPolicy(r.name, Primary(cfg, r)), ApplyPolicy(r.name + UNUSED, Secondary(cfg, r));
    var w1 := Call(w, env, op1).0;
    CallPolicies(w, env, op1);
    CallPolicies(w1, env, op2);
    var w2 := if Multiplane(r) then Call(w1, env, op2).0 else w1;
    CallPolicies(w2, env, GetCidrPool(r.name));
    var w3 := if r.cidrPoolRef then Call(w2, env, GetCidrPool(r.name)).0 else w2;
    CallPolicies(w3, env, ApplyNetwork(r.name));
    NetworkApplied(w3, env, r.name);
    assert r.name != r.name + UNUSED;
    assert [r.pfs[0]] + r.pfs[1..] == r.pfs;
  }

  lemma {:induction false} NetworkApplied(w: World, env: Env, x: string)
    ensures Call(w, env, ApplyNetwork(x)).1.Ok? ==> x in Call(w, env, ApplyNetwork(x)).0.networks
  {
  }

  /** A rail that is reconciled without an error is owned, and no policy of another rail is touched. */
  lemma {:induction false} ReconcileMeans(w: World, env: Env, cfg: Config, r: Rail)
    ensures var (w', e) := ReconcileRail(w, env, cfg, r);
            && OnlyOwnRails(w, w', cfg, [r])
            && (forall n :: n in w.policies && !WritesName(r, n) ==> n in w'.policies && w'.policies[n] == w.policies[n])
            && (r.pfs == [] ==> w' == w && e.Some?)
            && (|r.pfs| <= 1 ==> w'.db == w.db)
            && (e.None? && r.cidrPoolRef ==> exists i :: |w.log| <= i < |w'.log| && w'.log[i] == Event(GetCidrPool(r.name), Ok))
            && (e.None? ==> OwnsRail(w'.policies, cfg, r) && r.name in w'.networks)
  {
    hide ApplyRail, ConfigureXPlane, OwnsRail;
    ApplyRailPolicies(w, env, cfg, r);
    var (w1, e1) := ApplyRail(w, env, cfg, r);
    ConfigureMeans(w1, env, r);
    assert forall n :: !WritesName(r, n) ==> Foreign(n, [r]);
    if e1.None? {
      ApplyMeans(w, env, cfg, r);
    }
    NoPfsNothing(w, env, cfg, r);
    ApplyKeepsDb(w, env, cfg, r);
    ApplyCalls(w, env, cfg, r);
    assert w1.log <= ReconcileRail(w, env, cfg, r).0.log;
    assert forall i :: 0 <= i < |w1.log| ==> ReconcileRail(w, env, cfg, r).0.log[i] == w1.log[i];
  }

  lemma {:induction false} ApplyKeepsDb(w: World, env: Env, cfg: Config, r: Rail)
    ensures ApplyRail(w, env, cfg, r).0.db == w.db
  {
    hide Primary, Secondary, Call;
    if r.pfs != [] {
      var op1, op2 := ApplyPolicy(r.name, Primary(cfg, r)), ApplyPolicy(r.name + UNUSED, Secondary(cfg, r));
      var w1 := Call(w, env, op1).0;
      CallKeepsDb(w, env, op1);
      CallKeepsDb(w1, env, op2);
      var w2 := if Multiplane(r) then Call(w1, env, op2).0 else w1;
      CallKeepsDb(w2, env, GetCidrPool(r.name));
      var w3 := if r.cidrPoolRef then Call(w2, env, GetCidrPool(r.name)).0 else w2;
      CallKeepsDb(w3, env, ApplyNetwork(r.name));
    }
  }

  lemma {:induction false} CallKeepsDb(w: World, env: Env, op: Op)
    requires !op.Ovs?
    ensures Call(w, env, op).0.db == w.db
  {
  }

  lemma {:induction false} NoPfsNothing(w: World, env: Env, cfg: Config, r: Rail)
    ensures r.pfs == [] ==> ApplyRail(w, env, cfg, r) == (w, Some(NoPfNames(r.name)))
  {
  }

  lemma {:induction false} UnselectedConfigure(w: World, env: Env, cfg: Config)
    requires !env.selected
    ensures Configure(w, env, cfg).0.entry == w.entry
  {
    hide ReconcileRails, DeleteRemovedRails;
  }

  lemma {:induction false} DeletionWaits(w: World, env: Env, cfg: Config, r: Rail)
    requires r in cfg.rails && Multiplane(r) && w.finalizer && !HandleDeletion(w, env, cfg).0.finalizer
    ensures CleanupEnded(HandleDeletion(w, env, cfg).0.log, |w.log|, r.name)
  {
    hide DoReconcile;
    var deleting := cfg.(deleting := true);
    FinalizerWaitsForBridges(w, env, deleting, r);
    DeletionIgnoresFlag(w, env, cfg);
  }

  lemma {:induction false} DeleteRailsLeavesNothing(w: World, env: Env, rails: seq<Rail>)
    ensures var (w', e) := DeleteRails(w, env, rails);
            && Shrinks(w, w') && w'.networks <= w.networks
            && (e.None? ==> forall r :: r in rails ==> RailGone(w', r.name) && r.name !in w'.networks)
    decreases |rails|
  {
    hide RemoveRail;
    if rails != [] {
      var r := rails[0];
      RemoveMeans(w, env, r.name, Multiplane(r));
      var (w1, e) := RemoveRail(w, env, r.name, Multiplane(r));
      NetworksOnlyGo(w, env, r.name, Multiplane(r));
      if e.None? {
        DeleteRailsLeavesNothing(w1, env, rails[1..]);
      }
      assert forall q :: q in rails <==> q == r || q in rails[1..];
    }
  }

  lemma {:induction false} NetworksOnlyGo(w: World, env: Env, rail: string, multiplane: bool)
    ensures RemoveRail(w, env, rail, multiplane).0.networks <= w.networks
  {
    hide Call;
    var a := Call(w, env, Ovs(DelBr(RailBridge(rail)))).0;
    NetworksShrink(w, env, Ovs(DelBr(RailBridge(rail))));
    NetworksShrink(a, env, Ovs(DelBr(XPlaneBridge)));
    var w0 := if multiplane then CleanupXPlaneBridges(w, env, rail).0 else w;
    var w1 := Call(w0, env, DeletePolicy(rail)).0;
    NetworksShrink(w0, env, DeletePolicy(rail));
    NetworksShrink(w1, env, DeletePolicy(rail + UNUSED));
    NetworksShrink(Call(w1, env, DeletePolicy(rail + UNUSED)).0, env, DeleteNetwork(rail));
  }

  lemma {:induction false} NetworksShrink(w: World, env: Env, op: Op)
    requires !op.ApplyNetwork?
    ensures Call(w, env, op).0.networks <= w.networks
  {
    hide Apply;
  }

  /** When the finalizer goes, nothing of any rail of the spec is left. */
  lemma {:induction false} DeletionLeavesNothing(w: World, env: Env, cfg: Config)
    ensures var w' := HandleDeletion(w, env, cfg).0;
            w.finalizer && !w'.finalizer ==> forall r :: r in cfg.rails ==> RailGone(w', r.name) && r.name !in w'.networks
  {
    hide DeleteRails, Effect;
    DeleteRailsLeavesNothing(w, env, cfg.rails);
    HandleDeletionPolicies(w, env, cfg);
    var (w1, e1) := DeleteRails(w, env, cfg.rails);
    if e1.None? {
      var w2 := Call(w1, env, DeletePool).0;
      forall x ensures x in HandleDeletion(w, env, cfg).0.networks <==> x in w1.networks {
        Orphans.CallNet(w1, env, DeletePool, x);
        Orphans.CallNet(w2, env, RemoveFinalizer, x);
      }
    }
  }

  lemma {:induction false} DeletionIgnoresFlag(w: World, env: Env, cfg: Config)
    requires w.finalizer
    ensures DoReconcile(w, env, cfg.(deleting := true)) == HandleDeletion(w, env, cfg)
  {
    hide DeleteRails, Try;
  }
}
