/**
 * Pod workers and the stale cleaner command by command. One worker per pod goes through that pod's
 * reconciles and deletions one after the other; workers, cleaner, CNI, host and Open vSwitch
 * interleave freely, and every command may fail.
 */
module PodFlowSteps {
  import opened Basics
  import opened ExternalIds
  import opened FlowTables
  import opened PodFlows
  import opened PodFlowRuns

  /** Between which commands a pod's worker is. */
  datatype Work =
    | Idle
    | Adding(bridge: string, rules: seq<Rule>)
    | Clearing(bridge: string)
    | Untagging(bridge: string)

  datatype Sweep =
    | Resting
    | Sweeping(live: set<string>)
    | SweepClearing(live: set<string>, bridge: string, uid: string)
    | SweepUntagging(live: set<string>, bridge: string, uid: string)

  datatype Node = Node(sw: Switch, workers: map<string, Work>, cleaner: Sweep)

  datatype Act =
    | Check(uid: string, bridge: string, vf: string, ip: string)
    | Add(uid: string)
    | Find(uid: string, bridge: string)
    | Clear(uid: string)
    | Untag(uid: string)
    | BeginSweep(live: set<string>)
    | Pick(bridge: string, uid: string)
    | SweepClear
    | SweepUntag
    | EndSweep
    | CniTags(bridge: string, uid: string)
    | HostFlow(bridge: string, rule: Rule, cookie: nat)
    | Restart
    | NewBridge(bridge: string)
    | DropBridge(bridge: string)

  function WorkOf(n: Node, uid: string): Work {
    if uid in n.workers then n.workers[uid] else Idle
  }

  predicate Enabled(n: Node, a: Act) {
    match a
    case Check(uid, _, _, _) => WorkOf(n, uid).Idle?
    case Add(uid) => WorkOf(n, uid).Adding? && WorkOf(n, uid).rules != []
    case Find(uid, _) => WorkOf(n, uid).Idle?
    case Clear(uid) => WorkOf(n, uid).Clearing?
    case Untag(uid) => WorkOf(n, uid).Untagging?
    case BeginSweep(_) => n.cleaner.Resting?
    case Pick(_, uid) => n.cleaner.Sweeping? && uid !in n.cleaner.live
    case SweepClear => n.cleaner.SweepClearing?
    case SweepUntag => n.cleaner.SweepUntagging?
    case EndSweep => n.cleaner.Sweeping?
    case _ => true
  }

  function Works(n: Node, uid: string, sw: Switch, work: Work): Node {
    n.(sw := sw, workers := n.workers[uid := work])
  }

  function Sweeps(n: Node, sw: Switch, sweep: Sweep): Node {
    n.(sw := sw, cleaner := sweep)
  }

  function Next(n: Node, env: Env, a: Act): Node
    requires Enabled(n, a)
  {
    match a
    case Check(uid, bridge, vf, ip) =>
      var tagged := ReadId(n.sw, env, bridge, uid) == Some(RAIL_POD_ID);
      Works(n, uid, Tick(n.sw), if tagged then Adding(bridge, PodRules(vf, ip)) else Idle)
    case Add(uid) =>
      var work := WorkOf(n, uid);
      var (sw, ok) := AddFlow(n.sw, env, work.bridge, work.rules[0], env.cookie(uid), PodWriter(uid));
      Works(n, uid, sw, if ok && |work.rules| > 1 then Adding(work.bridge, work.rules[1..]) else Idle)
    case Find(uid, bridge) =>
      var tagged := ReadId(n.sw, env, bridge, uid) == Some(RAIL_POD_ID);
      Works(n, uid, Tick(n.sw), if tagged then Clearing(bridge) else Idle)
    case Clear(uid) =>
      var (sw, ok) := DeleteFlows(n.sw, env, WorkOf(n, uid).bridge, env.cookie(uid));
      Works(n, uid, sw, if ok then Untagging(WorkOf(n, uid).bridge) else Idle)
    case Untag(uid) => Works(n, uid, RemoveId(n.sw, env, WorkOf(n, uid).bridge, uid).0, Idle)
    case BeginSweep(live) => Sweeps(n, n.sw, Sweeping(live))
    case Pick(bridge, uid) => Sweeps(n, Tick(n.sw), SweepClearing(n.cleaner.live, bridge, uid))
    case SweepClear =>
      var c := n.cleaner;
      var (sw, ok) := DeleteFlows(n.sw, env, c.bridge, env.cookie(c.uid));
      Sweeps(n, sw, if ok then SweepUntagging(c.live, c.bridge, c.uid) else Sweeping(c.live))
    case SweepUntag =>
      Sweeps(n, RemoveId(n.sw, env, n.cleaner.bridge, n.cleaner.uid).0, Sweeping(n.cleaner.live))
    case EndSweep => Sweeps(n, n.sw, Resting)
    case CniTags(bridge, uid) => n.(sw := RunPass(n.sw, env, CniTag(bridge, uid)))
    case HostFlow(bridge, rule, cookie) => n.(sw := AddFlow(n.sw, env, bridge, rule, cookie, HostWriter).0)
    case Restart => n.(sw := RunPass(n.sw, env, OvsRestart))
    case NewBridge(bridge) => n.(sw := RunPass(n.sw, env, AddBridge(bridge)))
    case DropBridge(bridge) => n.(sw := RunPass(n.sw, env, DelBridge(bridge)))
  }

  // -------------------------------------------------------------- the discipline

  /** The cleaner is about to untag a pod on the very bridge that pod's worker is adding flows to. */
  predicate Collides(n: Node) {
    && n.cleaner.SweepUntagging? && n.cleaner.bridge in n.sw.bridges && WorkOf(n, n.cleaner.uid).Adding?
    && WorkOf(n, n.cleaner.uid).bridge == n.cleaner.bridge
  }

  /** The live set covers every pod that is being reconciled. */
  ghost predicate Covers(n: Node) {
    n.cleaner.Resting? || forall uid :: WorkOf(n, uid).Adding? ==> uid in n.cleaner.live
  }

  /** The act re-creates a bridge that was deleted under a worker that is still adding flows to it. */
  ghost predicate Recreates(n: Node, a: Act) {
    a.NewBridge? && a.bridge !in n.sw.bridges && exists uid :: WorkOf(n, uid).Adding? && WorkOf(n, uid).bridge == a.bridge
  }

  // ------------------------------------------------------------------ invariant

  ghost predicate NoFlowsOf(b: Bridge, uid: string) {
    forall k :: k in b.flows ==> b.flows[k].writer != PodWriter(uid)
  }

  ghost predicate GoodWork(sw: Switch, uid: string, work: Work) {
    match work
    case Adding(bridge, rules) => rules != [] && (bridge in sw.bridges ==> Get(sw.bridges[bridge].ids, uid) == RAIL_POD_ID)
    case Untagging(bridge) => bridge in sw.bridges ==> NoFlowsOf(sw.bridges[bridge], uid)
    case _ => true
  }

  ghost predicate GoodSweep(n: Node) {
    match n.cleaner
    case SweepClearing(live, _, uid) => uid !in live
    case SweepUntagging(live, bridge, uid) =>
      uid !in live && (bridge in n.sw.bridges ==> NoFlowsOf(n.sw.bridges[bridge], uid))
    case _ => true
  }

  ghost predicate GoodNode(n: Node, env: Env) {
    Inv(n.sw, env) && GoodSweep(n) && forall uid :: GoodWork(n.sw, uid, WorkOf(n, uid))
  }

  /** A covering live set rules collisions out. */
  lemma {:induction false} CoveredDoesNotCollide(n: Node, env: Env)
    requires GoodNode(n, env) && Covers(n)
    ensures !Collides(n)
  {
  }

  // How a command can change the switch.

  /** Flows only go, ids and bridges stay. */
  ghost predicate FlowsShrink(sw: Switch, sw': Switch) {
    && sw'.bridges.Keys == sw.bridges.Keys
    && forall b :: b in sw.bridges ==>
         && sw'.bridges[b].ids == sw.bridges[b].ids
         && forall k :: k in sw'.bridges[b].flows ==> k in sw.bridges[b].flows && sw'.bridges[b].flows[k] == sw.bridges[b].flows[k]
  }

  lemma {:induction false} ShrinkKeeps(sw: Switch, sw': Switch, env: Env)
    requires FlowsShrink(sw, sw')
    ensures sw'.bridges.Keys == sw.bridges.Keys
    ensures Inv(sw, env) ==> Inv(sw', env)
    ensures forall uid, work :: GoodWork(sw, uid, work) ==> GoodWork(sw', uid, work)
    ensures forall b, uid :: b in sw.bridges && NoFlowsOf(sw.bridges[b], uid) ==> NoFlowsOf(sw'.bridges[b], uid)
  {
    if Inv(sw, env) {
      forall b | b in sw'.bridges ensures GoodBridge(sw'.bridges[b], env) {
        assert GoodBridge(sw.bridges[b], env);
      }
    }
  }

  lemma {:induction false} ClearShrinks(sw: Switch, env: Env, bridge: string, uid: string)
    requires Inv(sw, env)
    ensures var (sw', ok) := DeleteFlows(sw, env, bridge, env.cookie(uid));
            && FlowsShrink(sw, sw')
            && (ok ==> bridge in sw'.bridges && NoFlowsOf(sw'.bridges[bridge], uid))
  {
    if bridge in sw.bridges {
      assert GoodBridge(sw.bridges[bridge], env);
    }
  }

  /** One flow was added on a bridge. */
  lemma {:induction false} AddKeeps(sw: Switch, env: Env, bridge: string, r: Rule, cookie: nat, writer: Writer)
    requires writer.PodWriter? ==>
               cookie == env.cookie(writer.uid) && (bridge in sw.bridges ==> Get(sw.bridges[bridge].ids, writer.uid) == RAIL_POD_ID)
    ensures var sw' := AddFlow(sw, env, bridge, r, cookie, writer).0;
            && sw'.bridges.Keys == sw.bridges.Keys
            && (Inv(sw, env) ==> Inv(sw', env))
            && (forall uid, work :: GoodWork(sw, uid, work) && (work.Untagging? ==> PodWriter(uid) != writer) ==> GoodWork(sw', uid, work))
  {
    hide Get;
    var sw' := AddFlow(sw, env, bridge, r, cookie, writer).0;
    if Inv(sw, env) {
      forall b | b in sw'.bridges ensures GoodBridge(sw'.bridges[b], env) {
        assert GoodBridge(sw.bridges[b], env);
      }
    }
  }

  lemma {:induction false} AddElsewhere(sw: Switch, env: Env, bridge: string, r: Rule, cookie: nat, writer: Writer, b: string, uid: string)
    requires b in sw.bridges && NoFlowsOf(sw.bridges[b], uid) && (PodWriter(uid) != writer || b != bridge)
    ensures var sw' := AddFlow(sw, env, bridge, r, cookie, writer).0; b in sw'.bridges && NoFlowsOf(sw'.bridges[b], uid)
  {
  }

  /** A tag was removed from a bridge without flows of its pod. */
  lemma {:induction false} UntagKeeps(sw: Switch, env: Env, bridge: string, pod: string)
    requires Inv(sw, env) && (bridge in sw.bridges ==> NoFlowsOf(sw.bridges[bridge], pod))
    ensures var sw' := RemoveId(sw, env, bridge, pod).0;
            && sw'.bridges.Keys == sw.bridges.Keys && Inv(sw', env)
            && (forall uid, work :: GoodWork(sw, uid, work) && (work.Adding? && work.bridge == bridge && bridge in sw.bridges ==> uid != pod) ==> GoodWork(sw', uid, work))
            && (forall b :: b in sw.bridges ==> sw'.bridges[b].flows == sw.bridges[b].flows)
  {
    hide Remove;
    var sw' := RemoveId(sw, env, bridge, pod).0;
    if bridge in sw.bridges {
      var b := sw.bridges[bridge];
      RemoveUnique(b.ids, pod);
      forall u ensures Get(Remove(b.ids, pod), u) == if u == pod then "" else Get(b.ids, u) {
        RemoveGet(b.ids, pod, u);
      }
      assert GoodBridge(b, env);
      assert GoodBridge(b.(ids := Remove(b.ids, pod)), env);
    }
  }

  lemma {:induction false} TagKeeps(sw: Switch, env: Env, bridge: string, pod: string)
    requires Inv(sw, env)
    ensures var sw' := RunPass(sw, env, CniTag(bridge, pod));
            && sw'.bridges.Keys == sw.bridges.Keys && Inv(sw', env)
            && (forall uid, work :: GoodWork(sw, uid, work) ==> GoodWork(sw', uid, work))
            && (forall b :: b in sw.bridges ==> sw'.bridges[b].flows == sw.bridges[b].flows)
  {
    hide Put;
    PassKeeps(sw, env, CniTag(bridge, pod));
    if bridge in sw.bridges {
      var b := sw.bridges[bridge];
      forall u ensures Get(Put(b.ids, pod, RAIL_POD_ID), u) == if u == pod then RAIL_POD_ID else Get(b.ids, u) {
        PutGet(b.ids, pod, RAIL_POD_ID, u);
      }
    }
  }

  lemma {:induction false} RestartShrinks(sw: Switch, env: Env)
    ensures FlowsShrink(sw, RunPass(sw, env, OvsRestart))
  {
  }

  lemma {:induction false} NewBridgeKeeps(n: Node, env: Env, bridge: string)
    requires GoodNode(n, env) && !Recreates(n, NewBridge(bridge))
    ensures GoodNode(Next(n, env, NewBridge(bridge)), env)
  {
    PassKeeps(n.sw, env, AddBridge(bridge));
    var n' := Next(n, env, NewBridge(bridge));
    forall uid ensures GoodWork(n'.sw, uid, WorkOf(n', uid)) {
      assert GoodWork(n.sw, uid, WorkOf(n, uid));
    }
  }

  lemma {:induction false} DropBridgeKeeps(n: Node, env: Env, bridge: string)
    requires GoodNode(n, env)
    ensures GoodNode(Next(n, env, DropBridge(bridge)), env)
  {
    PassKeeps(n.sw, env, DelBridge(bridge));
    var n' := Next(n, env, DropBridge(bridge));
    forall uid ensures GoodWork(n'.sw, uid, WorkOf(n', uid)) {
      assert GoodWork(n.sw, uid, WorkOf(n, uid));
    }
  }

  // ---------------------------------------------------------------------- steps

  lemma {:induction false} WorkerStepKeeps(n: Node, env: Env, a: Act)
    requires GoodNode(n, env) && Enabled(n, a) && !Collides(n)
    requires a.Check? || a.Add? || a.Find? || a.Clear? || a.Untag?
    ensures GoodNode(Next(n, env, a), env)
  {
    hide NoFlowsOf, Inv, Get, FlowsShrink;
    var n' := Next(n, env, a);
    var work := WorkOf(n, a.uid);
    assert GoodWork(n.sw, a.uid, work);
    match a {
      case Check(_, _, _, _) => TickShrinks(n.sw); ShrinkKeeps(n.sw, n'.sw, env);
      case Find(_, _) => TickShrinks(n.sw); ShrinkKeeps(n.sw, n'.sw, env);
      case Add(uid) =>
        AddKeeps(n.sw, env, work.bridge, work.rules[0], env.cookie(uid), PodWriter(uid));
        var c := n.cleaner;
        if c.SweepUntagging? && c.bridge in n.sw.bridges {
          AddElsewhere(n.sw, env, work.bridge, work.rules[0], env.cookie(uid), PodWriter(uid), c.bridge, c.uid);
        }
      case Clear(uid) => ClearShrinks(n.sw, env, work.bridge, uid); ShrinkKeeps(n.sw, n'.sw, env);
      case Untag(uid) => UntagKeeps(n.sw, env, work.bridge, uid); SameFlowsSameNoFlows(n.sw, n'.sw);
    }
    forall uid ensures GoodWork(n'.sw, uid, WorkOf(n', uid)) {
      assert GoodWork(n.sw, uid, WorkOf(n, uid));
    }
  }

  lemma {:induction false} TickShrinks(sw: Switch)
    ensures FlowsShrink(sw, Tick(sw))
  {
  }

  lemma {:induction false} SameFlowsSameNoFlows(sw: Switch, sw': Switch)
    requires sw'.bridges.Keys == sw.bridges.Keys && forall b :: b in sw.bridges ==> sw'.bridges[b].flows == sw.bridges[b].flows
    ensures forall b, uid :: b in sw.bridges ==> (NoFlowsOf(sw'.bridges[b], uid) <==> NoFlowsOf(sw.bridges[b], uid))
  {
  }

  lemma {:induction false} OtherStepKeeps(n: Node, env: Env, a: Act)
    requires GoodNode(n, env) && Enabled(n, a) && !Collides(n) && !Recreates(n, a)
    requires !(a.Check? || a.Add? || a.Find? || a.Clear? || a.Untag?)
    ensures GoodNode(Next(n, env, a), env)
  {
    hide NoFlowsOf, Inv, Get, FlowsShrink;
    var n' := Next(n, env, a);
    match a {
      case BeginSweep(_) =>
      case EndSweep =>
      case Pick(_, _) => TickShrinks(n.sw); ShrinkKeeps(n.sw, n'.sw, env);
      case SweepClear => ClearShrinks(n.sw, env, n.cleaner.bridge, n.cleaner.uid); ShrinkKeeps(n.sw, n'.sw, env);
      case SweepUntag => UntagKeeps(n.sw, env, n.cleaner.bridge, n.cleaner.uid);
      case CniTags(bridge, uid) => TagKeeps(n.sw, env, bridge, uid); SameFlowsSameNoFlows(n.sw, n'.sw);
      case HostFlow(bridge, rule, cookie) =>
        AddKeeps(n.sw, env, bridge, rule, cookie, HostWriter);
        if n.cleaner.SweepUntagging? && n.cleaner.bridge in n.sw.bridges {
          AddElsewhere(n.sw, env, bridge, rule, cookie, HostWriter, n.cleaner.bridge, n.cleaner.uid);
        }
      case Restart => RestartShrinks(n.sw, env); ShrinkKeeps(n.sw, n'.sw, env);
      case NewBridge(bridge) => NewBridgeKeeps(n, env, bridge);
      case DropBridge(bridge) => DropBridgeKeeps(n, env, bridge);
    }
    forall uid ensures GoodWork(n'.sw, uid, WorkOf(n', uid)) {
      assert GoodWork(n.sw, uid, WorkOf(n, uid));
    }
  }

  /** A run: nodes s[0..m] connected by acts a[0..m). */
  ghost predicate IsRun(s: seq<Node>, a: seq<Act>, env: Env) {
    && |s| == |a| + 1 && s[0] == Node(EMPTY_SWITCH, map[], Resting)
    && forall i :: 0 <= i < |a| ==> StepAt(s, a, env, i)
  }

  ghost predicate StepAt(s: seq<Node>, a: seq<Act>, env: Env, i: nat)
    requires i < |a| && |s| == |a| + 1
  {
    Enabled(s[i], a[i]) && s[i + 1] == Next(s[i], env, a[i])
  }

  /** Up to step i the cleaner never was about to untag under the pod's own worker, and no bridge was re-created under one. */
  ghost predicate Apart(s: seq<Node>, a: seq<Act>, i: nat)
    requires i <= |a| <= |s|
  {
    forall j :: 0 <= j < i ==> !Collides(s[j]) && !Recreates(s[j], a[j])
  }

  lemma {:induction false} GoodRun(s: seq<Node>, a: seq<Act>, env: Env, i: nat)
    requires IsRun(s, a, env) && i < |s| && Apart(s, a, i)
    ensures GoodNode(s[i], env)
  {
    hide GoodNode, Enabled, Next, Recreates, Collides;
    if i == 0 {
      assert GoodNode(s[0], env) by { EmptyIsGood(env); }
    } else {
      GoodRun(s, a, env, i - 1);
      assert StepAt(s, a, env, i - 1);
      var act := a[i - 1];
      if act.Check? || act.Add? || act.Find? || act.Clear? || act.Untag? {
        WorkerStepKeeps(s[i - 1], env, act);
      } else {
        OtherStepKeeps(s[i - 1], env, act);
      }
    }
  }

  lemma {:induction false} EmptyIsGood(env: Env)
    ensures GoodNode(Node(EMPTY_SWITCH, map[], Resting), env)
  {
  }

  /**
   * Under any interleaving of commands, whatever fails and whatever bridges come and go, each pod
   * flow sits on a bridge that still carries its pod's tag, as long as the cleaner is never about to
   * untag a pod on a bridge that the pod's own worker is adding to, and no bridge that was deleted
   * under such a worker is re-created before it notices.
   */
  lemma {:induction false} InterleavedFlowsStayTagged(s: seq<Node>, a: seq<Act>, env: Env, i: nat)
    requires IsRun(s, a, env) && i < |s| && Apart(s, a, i)
    ensures Inv(s[i].sw, env)
  {
    GoodRun(s, a, env, i);
  }

  /** The first condition holds in particular when the cleaner's live set covers every pod that is being reconciled. */
  lemma {:induction false} CoveringSweepsAreSafe(s: seq<Node>, a: seq<Act>, env: Env, i: nat)
    requires IsRun(s, a, env) && i < |s| && forall j :: 0 <= j < i ==> Covers(s[j]) && !Recreates(s[j], a[j])
    ensures Inv(s[i].sw, env) && Apart(s, a, i)
  {
    hide GoodNode, Collides, Covers, Inv, Recreates;
    if i > 0 {
      CoveringSweepsAreSafe(s, a, env, i - 1);
      GoodRun(s, a, env, i - 1);
      CoveredDoesNotCollide(s[i - 1], env);
    }
    GoodRun(s, a, env, i);
    GoodNodeIsTagged(s[i], env);
  }

  lemma {:induction false} GoodNodeIsTagged(n: Node, env: Env)
    requires GoodNode(n, env)
    ensures Inv(n.sw, env)
  {
  }

  /** Both conditions are sharp. From every collision two successful commands leave an untagged flow. */
  lemma {:induction false} CollisionLosesTag(n: Node, env: Env)
    requires GoodNode(n, env) && Collides(n)
    requires env.oracle(n.sw.clock).Ok? && env.oracle(n.sw.clock + 1).Ok?
    ensures Enabled(n, SweepUntag) && Enabled(Next(n, env, SweepUntag), Add(n.cleaner.uid))
    ensures !Inv(Next(Next(n, env, SweepUntag), env, Add(n.cleaner.uid)).sw, env)
  {
    hide Get, Remove;
    var uid, bridge := n.cleaner.uid, n.cleaner.bridge;
    assert GoodWork(n.sw, uid, WorkOf(n, uid));
    var n1 := Next(n, env, SweepUntag);
    var n2 := Next(n1, env, Add(uid));
    RemoveGet(n.sw.bridges[bridge].ids, uid, uid);
    var b, r := n2.sw.bridges[bridge], WorkOf(n, uid).rules[0];
    assert b.flows[r.key].writer == PodWriter(uid) && Get(b.ids, uid) == "";
    assert !GoodBridge(b, env);
  }

  /** And from every state where an act re-creates a bridge under a worker, that act and one successful command do. */
  lemma {:induction false} RecreateLosesTag(n: Node, env: Env, bridge: string, uid: string)
    requires GoodNode(n, env) && bridge !in n.sw.bridges && WorkOf(n, uid).Adding? && WorkOf(n, uid).bridge == bridge
    requires env.oracle(n.sw.clock).Ok?
    ensures Recreates(n, NewBridge(bridge))
    ensures Enabled(Next(n, env, NewBridge(bridge)), Add(uid))
    ensures !Inv(Next(Next(n, env, NewBridge(bridge)), env, Add(uid)).sw, env)
  {
    assert GoodWork(n.sw, uid, WorkOf(n, uid));
    var n2 := Next(Next(n, env, NewBridge(bridge)), env, Add(uid));
    var b, r := n2.sw.bridges[bridge], WorkOf(n, uid).rules[0];
    assert b.flows[r.key].writer == PodWriter(uid) && Get(b.ids, uid) == "";
    assert !GoodBridge(b, env);
  }
}
