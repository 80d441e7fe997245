/**
 * One agent's reconcile pass over a SpectrumXRailPoolConfig: the cluster resources it owns, the
 * OVS database of its node, and its status entry. Every call may fail, and a call that failed or
 * timed out may still have taken effect. All calls are logged with their outcome.
 */
module Reconciler {
  import opened Basics
  import opened NodeStates
  import opened XPlane

  /** A SriovNetworkNodePolicy, keyed by name elsewhere; rail is the topology label, "" if absent. */
  datatype Policy = Policy(owner: string, rail: string, multiplane: bool, pfs: seq<string>)

  datatype Op =
    | Ovs(c: Command)
    | ApplyPool
    | DeletePool
    | ApplyPolicy(name: string, p: Policy)
    | DeletePolicy(name: string)
    | ListPolicies
    | ApplyNetwork(name: string)
    | DeleteNetwork(name: string)
    | GetCidrPool(rail: string)
    | InstallHook
    | ListNodes
    | GetSriovState(node: string)
    | GetNode
    | DeployXPlane
    | AddFinalizer
    | RemoveFinalizer
    | PatchStatus(e: NodeState)

  datatype Event = Event(op: Op, outcome: Outcome)

  datatype World = World(
    policies: map<string, Policy>, networks: set<string>, pool: bool, finalizer: bool,
    entry: Option<NodeState>, db: Db, log: seq<Event>)

  /** The part of a SriovNetworkNodeState that is read: interfaces are (name, eSwitch mode) pairs. */
  datatype SriovState = SriovState(syncStatus: State, configured: nat, interfaces: seq<(string, string)>)

  datatype Error = CallFailed(op: Op) | NoRails | NoPfNames(rail: string)

  /** The object being reconciled. */
  datatype Config = Config(name: string, generation: nat, deleting: bool, rails: seq<Rail>)

  /**
   * What the agent meets: the outcome of the n-th call, how errors read, the order of a listing,
   * its node, whether the selector matches it, the nodes of the pool, and their SR-IOV states.
   */
  datatype Env = Env(
    oracle: nat -> Outcome, render: Error -> string, order: set<string> -> seq<string>,
    node: string, selected: bool, poolNodes: seq<string>, sriov: map<string, SriovState>)

  const UNUSED := "-unused"
  const SWITCHDEV := "switchdev"

  // --------------------------------------------------------------------- calls

  /** The effect of a call; None when it is refused. */
  function Effect(w: World, op: Op): (r: Option<World>)
    ensures r.Some? ==> r.value.log == w.log
  {
    match op
    case Ovs(c) => (match Apply(w.db, c) case None => None case Some(db) => Some(w.(db := db)))
    case ApplyPool => Some(w.(pool := true))
    case DeletePool => Some(w.(pool := false))
    case ApplyPolicy(name, p) => Some(w.(policies := w.policies[name := p]))
    case DeletePolicy(name) => Some(w.(policies := w.policies - {name}))
    case ApplyNetwork(name) => Some(w.(networks := w.networks + {name}))
    case DeleteNetwork(name) => Some(w.(networks := w.networks - {name}))
    case AddFinalizer => Some(w.(finalizer := true))
    case RemoveFinalizer => Some(w.(finalizer := false))
    case PatchStatus(e) => Some(w.(entry := Some(e)))
    case _ => Some(w)
  }

  function Call(w: World, env: Env, op: Op): (r: (World, Outcome))
    ensures r.0.log == w.log + [Event(op, r.1)]
  {
    var o := env.oracle(|w.log|);
    match Effect(w, op)
    case None =>
      var o' := if o.Ok? then Fail(false) else o;
      (w.(log := w.log + [Event(op, o')]), o')
    case Some(w1) =>
      ((if TookEffect(o) then w1 else w).(log := w.log + [Event(op, o)]), o)
  }

  /** A call whose every failure is an error. */
  function Try(w: World, env: Env, op: Op): (r: (World, Option<Error>))
    ensures w.log <= r.0.log
  {
    var (w1, o) := Call(w, env, op);
    (w1, if o.Ok? then None else Some(CallFailed(op)))
  }

  /** An ovs command of which only a timeout is an error; other failures are logged and ignored. */
  function TryOvs(w: World, env: Env, c: Command): (r: (World, Option<Error>))
    ensures w.log <= r.0.log
  {
    var (w1, o) := Call(w, env, Ovs(c));
    (w1, if o.Timeout? then Some(CallFailed(Ovs(c))) else None)
  }

  /** The status entry and the finalizer are left alone. */
  ghost predicate Frame(w: World, w': World) {
    w.log <= w'.log && w'.entry == w.entry && w'.finalizer == w.finalizer
  }

  // ------------------------------------------------------------------- bridges

  function AddUplinks(w: World, env: Env, r: Rail, idx: nat): (res: (World, Option<Error>))
    requires idx <= |r.pfs|
    ensures Frame(w, res.0)
    decreases |r.pfs| - idx
  {
    if idx == |r.pfs| then (w, None)
    else
      var (w1, e) := TryOvs(w, env, UplinkOf(r, idx));
      if e.Some? then (w1, e) else AddUplinks(w1, env, r, idx + 1)
  }

  function CreateXPlaneBridges(w: World, env: Env, r: Rail): (res: (World, Option<Error>))
    ensures Frame(w, res.0)
  {
    var (w1, e1) := Try(w, env, Ovs(AddBr(XPlaneBridge, Secure)));
    if e1.Some? then (w1, e1)
    else
      var (w2, e2) := Try(w1, env, Ovs(AddBr(RailBridge(r.name), Standalone)));
      if e2.Some? then (w2, e2)
      else
        var (w3, e3) := AddUplinks(w2, env, r, 0);
        if e3.Some? then (w3, e3) else TryOvs(w3, env, AddPatch(r.name, r.mtu))
  }

  function CleanupXPlaneBridges(w: World, env: Env, rail: string): (res: (World, Option<Error>))
    ensures Frame(w, res.0)
  {
    var (w1, e1) := TryOvs(w, env, DelBr(RailBridge(rail)));
    if e1.Some? then (w1, e1) else TryOvs(w1, env, DelBr(XPlaneBridge))
  }

  /** The mode each interface is listed with; the last listing of a name wins. */
  function ModeOf(interfaces: seq<(string, string)>): map<string, string> {
    if interfaces == [] then map[]
    else
      var n := |interfaces| - 1;
      ModeOf(interfaces[..n])[interfaces[n].0 := interfaces[n].1]
  }

  predicate PfsInSwitchdev(interfaces: seq<(string, string)>, pfs: seq<string>) {
    pfs != [] && forall p :: p in pfs ==> p in ModeOf(interfaces) && ModeOf(interfaces)[p] == SWITCHDEV
  }

  /** Get the SR-IOV state of every node of the pool; a missing one ends the pass quietly. */
  function CheckNodes(w: World, env: Env, nodes: seq<string>): (res: (World, bool, Option<Error>))
    ensures Frame(w, res.0)
    decreases |nodes|
  {
    if nodes == [] then (w, true, None)
    else
      var (w1, e) := Try(w, env, GetSriovState(nodes[0]));
      if e.Some? then (w1, false, e)
      else if nodes[0] !in env.sriov then (w1, false, None)
      else CheckNodes(w1, env, nodes[1..])
  }

  /** Install the safe-start hook, list the nodes and get their states; the flag says whether to go on. */
  function PrepareXPlane(w: World, env: Env): (res: (World, bool, Option<Error>))
    ensures Frame(w, res.0)
  {
    var (w1, e1) := Try(w, env, InstallHook);
    if e1.Some? then (w1, false, e1)
    else
      var (w2, e2) := Try(w1, env, ListNodes);
      if e2.Some? then (w2, false, e2) else CheckNodes(w2, env, env.poolNodes)
  }

  /** The local node is in the pool and all PFs of the rail are in switchdev. */
  predicate Ready(env: Env, r: Rail) {
    env.node in env.poolNodes && env.node in env.sriov && PfsInSwitchdev(env.sriov[env.node].interfaces, r.pfs)
  }

  function ConfigureXPlane(w: World, env: Env, r: Rail): (res: (World, Option<Error>))
    ensures Frame(w, res.0)
  {
    hide PrepareXPlane, CreateXPlaneBridges, PfsInSwitchdev;
    var (w1, found, e1) := PrepareXPlane(w, env);
    if e1.Some? || !found || !Ready(env, r) then (w1, e1)
    else
      var (w2, e2) := CreateXPlaneBridges(w1, env, r);
      if e2.Some? then (w2, e2) else Try(w2, env, DeployXPlane)
  }

  // ----------------------------------------------------------------- resources

  function Primary(cfg: Config, r: Rail): Policy
    requires r.pfs != []
  {
    Policy(cfg.name, r.name, Multiplane(r), [r.pfs[0]])
  }

  function Secondary(cfg: Config, r: Rail): Policy
    requires r.pfs != []
  {
    Policy(cfg.name, r.name, Multiplane(r), r.pfs[1..])
  }

  function ApplyRail(w: World, env: Env, cfg: Config, r: Rail): (res: (World, Option<Error>))
    ensures Frame(w, res.0)
  {
    if r.pfs == [] then (w, Some(NoPfNames(r.name)))
    else
      var (w1, e1) := Try(w, env, ApplyPolicy(r.name, Primary(cfg, r)));
      if e1.Some? then (w1, e1)
      else
        var (w2, e2) := if Multiplane(r) then Try(w1, env, ApplyPolicy(r.name + UNUSED, Secondary(cfg, r))) else (w1, None);
        if e2.Some? then (w2, e2)
        else
          var (w3, e3) := if r.cidrPoolRef then Try(w2, env, GetCidrPool(r.name)) else (w2, None);
          if e3.Some? then (w3, e3) else Try(w3, env, ApplyNetwork(r.name))
  }

  function ReconcileRail(w: World, env: Env, cfg: Config, r: Rail): (res: (World, Option<Error>))
    ensures Frame(w, res.0)
  {
    var (w1, e1) := ApplyRail(w, env, cfg, r);
    if e1.Some? || !Multiplane(r) then (w1, e1) else ConfigureXPlane(w1, env, r)
  }

  function ReconcileRails(w: World, env: Env, cfg: Config, rails: seq<Rail>): (res: (World, Option<Error>))
    ensures Frame(w, res.0)
    decreases |rails|
  {
    if rails == [] then (w, None)
    else
      var (w1, e) := ReconcileRail(w, env, cfg, rails[0]);
      if e.Some? then (w1, e) else ReconcileRails(w1, env, cfg, rails[1..])
  }

  function DeleteRailResources(w: World, env: Env, rail: string): (res: (World, Option<Error>))
    ensures Frame(w, res.0)
  {
    var (w1, e1) := Try(w, env, DeletePolicy(rail));
    if e1.Some? then (w1, e1)
    else
      var (w2, e2) := Try(w1, env, DeletePolicy(rail + UNUSED));
      if e2.Some? then (w2, e2) else Try(w2, env, DeleteNetwork(rail))
  }

  /** The rail a policy belongs to: its label, or its own name for old policies without one. */
  function RailOf(name: string, p: Policy): string {
    if p.rail == "" then name else p.rail
  }

  predicate MultiplanePolicy(p: Policy) {
    p.multiplane || (p.rail == "" && |p.pfs| > 1)
  }

  /** The policies with this owner label, in listing order. */
  function OwnedAmong(policies: map<string, Policy>, owner: string, names: seq<string>): seq<(string, Policy)> {
    if names == [] then []
    else (if names[0] in policies && policies[names[0]].owner == owner then [(names[0], policies[names[0]])] else [])
         + OwnedAmong(policies, owner, names[1..])
  }

  function RemoveRail(w: World, env: Env, rail: string, multiplane: bool): (res: (World, Option<Error>))
    ensures Frame(w, res.0)
  {
    var (w1, e1) := if multiplane then CleanupXPlaneBridges(w, env, rail) else (w, None);
    if e1.Some? then (w1, e1) else DeleteRailResources(w1, env, rail)
  }

  function RemoveRails(w: World, env: Env, listed: seq<(string, Policy)>, current: set<string>, removed: set<string>): (res: (World, Option<Error>))
    ensures Frame(w, res.0)
    decreases |listed|
  {
    if listed == [] then (w, None)
    else
      var rail := RailOf(listed[0].0, listed[0].1);
      if rail in current || rail in removed then RemoveRails(w, env, listed[1..], current, removed)
      else
        var (w1, e) := RemoveRail(w, env, rail, MultiplanePolicy(listed[0].1));
        if e.Some? then (w1, e) else RemoveRails(w1, env, listed[1..], current, removed + {rail})
  }

  function RailNames(rails: seq<Rail>): set<string> {
    set r | r in rails :: r.name
  }

  function DeleteRemovedRails(w: World, env: Env, cfg: Config): (res: (World, Option<Error>))
    ensures Frame(w, res.0)
  {
    var (w1, e) := Try(w, env, ListPolicies);
    if e.Some? then (w1, e)
    else RemoveRails(w1, env, OwnedAmong(w1.policies, cfg.name, env.order(w1.policies.Keys)), RailNames(cfg.rails), {})
  }

  // -------------------------------------------------------------------- status

  function StatusMessage(context: string, text: string): string {
    if context == "" then text else context + ": " + text
  }

  function Patch(w: World, env: Env, cfg: Config, st: State, message: string): (res: (World, Option<Error>))
    ensures w.log <= res.0.log && res.0.finalizer == w.finalizer
  {
    Try(w, env, PatchStatus(NodeState(env.node, st, message, cfg.generation)))
  }

  function FailReconcile(w: World, env: Env, cfg: Config, err: Error, context: string): (res: (World, Option<Error>))
    ensures w.log <= res.0.log && res.0.finalizer == w.finalizer && res.1 == Some(err)
  {
    var w1 := if env.selected then Patch(w, env, cfg, Failed, StatusMessage(context, env.render(err))).0 else w;
    (w1, Some(err))
  }

  /** The state processNodeStatus reports for what SR-IOV says about the node. */
  function NodeVerdict(env: Env): State {
    if env.node !in env.sriov then InProgress
    else
      var s := env.sriov[env.node];
      if s.syncStatus == Succeeded then if s.configured == 0 then InProgress else Succeeded
      else if s.syncStatus == Failed then Failed
      else InProgress
  }

  function ProcessNodeStatus(w: World, env: Env, cfg: Config): (res: (World, Option<Error>))
    ensures w.log <= res.0.log && res.0.finalizer == w.finalizer
  {
    if !env.selected then (w, None)
    else
      var (w1, e) := Try(w, env, GetSriovState(env.node));
      if e.Some? then (w1, e) else Patch(w1, env, cfg, NodeVerdict(env), "")
  }

  // ---------------------------------------------------------------- the passes

  const DELETE_FAILED := "failed to delete rail topology resources"
  const REMOVED_FAILED := "failed to delete removed rail topologies"
  const STATUS_FAILED := "failed to update sync status"

  function DeleteRails(w: World, env: Env, rails: seq<Rail>): (res: (World, Option<Error>))
    ensures Frame(w, res.0)
    decreases |rails|
  {
    if rails == [] then (w, None)
    else
      var (w1, e) := RemoveRail(w, env, rails[0].name, Multiplane(rails[0]));
      if e.Some? then (w1, e) else DeleteRails(w1, env, rails[1..])
  }

  /** The error branch of handleDeletion: record the failure when the node is selected. */
  function ReportDeletion(w: World, env: Env, cfg: Config, err: Error): (res: (World, Option<Error>))
    ensures w.log <= res.0.log && res.0.finalizer == w.finalizer
  {
    var (w1, e1) := Try(w, env, GetNode);
    if e1.Some? || !env.selected then (w1, Some(err))
    else
      var (w2, e2) := Patch(w1, env, cfg, Failed, StatusMessage(DELETE_FAILED, env.render(err)));
      (w2, if e2.Some? then e2 else Some(err))
  }

  function HandleDeletion(w: World, env: Env, cfg: Config): (res: (World, Option<Error>))
    ensures w.log <= res.0.log
  {
    var (w1, e1) := DeleteRails(w, env, cfg.rails);
    if e1.Some? then ReportDeletion(w1, env, cfg, e1.value)
    else
      var (w2, e2) := Try(w1, env, DeletePool);
      if e2.Some? then (w2, e2) else Try(w2, env, RemoveFinalizer)
  }

  predicate SucceededForGeneration(w: World, cfg: Config) {
    w.entry.Some? && w.entry.value.state == Succeeded && w.entry.value.observedGeneration == cfg.generation
  }

  /** The body of the pass once deletion is ruled out and the node is known. */
  function Configure(w: World, env: Env, cfg: Config): (res: (World, Option<Error>))
    ensures w.log <= res.0.log && res.0.finalizer == w.finalizer
  {
    if cfg.rails == [] then FailReconcile(w, env, cfg, NoRails, "")
    else
      var (w1, e1) := Try(w, env, ApplyPool);
      if e1.Some? then FailReconcile(w1, env, cfg, e1.value, "")
      else
        var (w2, e2) := ReconcileRails(w1, env, cfg, cfg.rails);
        if e2.Some? then FailReconcile(w2, env, cfg, e2.value, "")
        else
          var (w3, e3) := DeleteRemovedRails(w2, env, cfg);
          if e3.Some? then FailReconcile(w3, env, cfg, e3.value, REMOVED_FAILED)
          else
            var (w4, e4) := ProcessNodeStatus(w3, env, cfg);
            if e4.Some? then FailReconcile(w4, env, cfg, e4.value, STATUS_FAILED) else (w4, None)
  }

  function DoReconcile(w: World, env: Env, cfg: Config): (res: (World, Option<Error>))
    ensures w.log <= res.0.log
  {
    if !w.finalizer then Try(w, env, AddFinalizer)
    else if cfg.deleting then HandleDeletion(w, env, cfg)
    else
      var (w1, e1) := Try(w, env, GetNode);
      if e1.Some? then (w1, e1)
      else
        var (w2, e2) := if env.selected && !SucceededForGeneration(w1, cfg) then Patch(w1, env, cfg, InProgress, "") else (w1, None);
        if e2.Some? then (w2, e2) else Configure(w2, env, cfg)
  }
}
