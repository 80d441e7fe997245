/**
 * Pod flows and their tags on the bridges of one node. Every ovs command may fail, and a failed
 * command may or may not have taken effect.
 */
module PodFlows {
  import opened Basics
  import opened ExternalIds
  import opened FlowTables

  /** The outcome of the n-th command, and the cookie of a pod id. */
  datatype Env = Env(oracle: nat -> Outcome, cookie: string -> nat)

  datatype Bridge = OvsBridge(flows: Table, groups: Groups, ids: Ids)

  /** The bridges, the order list-br prints them in, and the number of commands issued so far. */
  datatype Switch = Switch(bridges: map<string, Bridge>, listing: seq<string>, clock: nat)

  // ---------------------------------------------------------------- commands

  function Tick(sw: Switch): Switch {
    sw.(clock := sw.clock + 1)
  }

  function Succeeds(sw: Switch, env: Env): bool {
    env.oracle(sw.clock).Ok?
  }

  /** A command that changes bridge `name`; on an unknown bridge it fails. */
  function Change(sw: Switch, env: Env, name: string, after: Bridge): (Switch, bool) {
    if name !in sw.bridges then (Tick(sw), false)
    else if TookEffect(env.oracle(sw.clock)) then
      (Tick(sw.(bridges := sw.bridges[name := after])), Succeeds(sw, env))
    else (Tick(sw), false)
  }

  function AddFlow(sw: Switch, env: Env, name: string, r: Rule, cookie: nat, writer: Writer): (Switch, bool) {
    if name !in sw.bridges then (Tick(sw), false)
    else
      var b := sw.bridges[name];
      Change(sw, env, name, b.(flows := b.flows[r.key := Flow(cookie, writer, r.actions)]))
  }

  /** mod-group --may-create. */
  function ModGroup(sw: Switch, env: Env, name: string, id: nat, g: Group): (Switch, bool) {
    if name !in sw.bridges then (Tick(sw), false)
    else Change(sw, env, name, sw.bridges[name].(groups := sw.bridges[name].groups[id := g]))
  }

  function DeleteFlows(sw: Switch, env: Env, name: string, cookie: nat): (Switch, bool) {
    if name !in sw.bridges then (Tick(sw), false)
    else Change(sw, env, name, sw.bridges[name].(flows := DelFlows(sw.bridges[name].flows, cookie)))
  }

  function RemoveId(sw: Switch, env: Env, name: string, key: string): (Switch, bool) {
    if name !in sw.bridges then (Tick(sw), false)
    else Change(sw, env, name, sw.bridges[name].(ids := Remove(sw.bridges[name].ids, key)))
  }

  /** br-get-external-id bridge key. */
  function ReadId(sw: Switch, env: Env, name: string, key: string): Option<string> {
    if name in sw.bridges && Succeeds(sw, env) then Some(Get(sw.bridges[name].ids, key)) else None
  }

  /** br-get-external-id bridge. */
  function ReadIds(sw: Switch, env: Env, name: string): Option<string> {
    if name in sw.bridges && Succeeds(sw, env) then Some(Print(sw.bridges[name].ids)) else None
  }

  /** list-br: the printed names, split at newlines. */
  function ListedNames(sw: Switch): seq<string> {
    Split(Join(sw.listing, '\n'), '\n')
  }

  // ------------------------------------------------------------ pod reconcile

  /** A pod interface with the answers of the two lookups that precede the flows. */
  datatype Attachment = Attachment(iface: string, rep: string, bridge: string, ips: seq<string>)

  /** A series of add-flow commands, given up at the first failure. */
  function AddRules(sw: Switch, env: Env, name: string, rules: seq<Rule>, cookie: nat, writer: Writer): (Switch, bool)
    decreases |rules|
  {
    if rules == [] then (sw, true)
    else
      var (s1, ok) := AddFlow(sw, env, name, rules[0], cookie, writer);
      if ok then AddRules(s1, env, name, rules[1..], cookie, writer) else (s1, false)
  }

  function Attach(sw: Switch, env: Env, uid: string, a: Attachment): (Switch, bool)
    requires |a.ips| > 0
  {
    if !Succeeds(sw, env) then (Tick(sw), false)
    else if !Succeeds(Tick(sw), env) then (Tick(Tick(sw)), false)
    else
      var s2 := Tick(Tick(sw));
      match ReadId(s2, env, a.bridge, uid)
      case None => (Tick(s2), false)
      case Some(v) =>
        if v != RAIL_POD_ID then (Tick(s2), true)
        else AddRules(Tick(s2), env, a.bridge, PodRules(a.rep, a.ips[0]), env.cookie(uid), PodWriter(uid))
  }

  function HandlePod(sw: Switch, env: Env, uid: string, atts: seq<Attachment>, failed: set<string>): (Switch, set<string>)
    requires forall a :: a in atts ==> |a.ips| > 0
    decreases |atts|
  {
    if atts == [] then (sw, failed)
    else
      assert atts[0] in atts;
      var (s1, ok) := Attach(sw, env, uid, atts[0]);
      HandlePod(s1, env, uid, atts[1..], if ok then failed else failed + {atts[0].iface})
  }

  // ------------------------------------------------------- deletion and cleanup

  /** cleanBridgeFlows: the flows first, the tag only after them. */
  function CleanBridge(sw: Switch, env: Env, name: string, uid: string): (Switch, bool) {
    var (s1, ok) := DeleteFlows(sw, env, name, env.cookie(uid));
    if ok then RemoveId(s1, env, name, uid) else (s1, false)
  }

  function DeleteOn(sw: Switch, env: Env, name: string, uid: string): (Switch, bool) {
    match ReadId(sw, env, name, uid)
    case None => (Tick(sw), false)
    case Some(v) => if v == RAIL_POD_ID then CleanBridge(Tick(sw), env, name, uid) else (Tick(sw), true)
  }

  function DeleteOnAll(sw: Switch, env: Env, names: seq<string>, uid: string, failed: set<string>): (Switch, set<string>)
    decreases |names|
  {
    if names == [] then (sw, failed)
    else
      var (s1, ok) := DeleteOn(sw, env, names[0], uid);
      DeleteOnAll(s1, env, names[1..], uid, if ok then failed else failed + {names[0]})
  }

  function CleanPods(sw: Switch, env: Env, name: string, pods: seq<string>, ok: bool): (Switch, bool)
    decreases |pods|
  {
    if pods == [] then (sw, ok)
    else
      var (s1, cleaned) := CleanBridge(sw, env, name, pods[0]);
      CleanPods(s1, env, name, pods[1..], ok && cleaned)
  }

  function Stale(pods: seq<string>, live: set<string>): seq<string> {
    if pods == [] then [] else (if pods[0] in live then [] else [pods[0]]) + Stale(pods[1..], live)
  }

  function CleanupOn(sw: Switch, env: Env, name: string, live: set<string>): (Switch, bool) {
    match ReadIds(sw, env, name)
    case None => (Tick(sw), false)
    case Some(out) => CleanPods(Tick(sw), env, name, Stale(Scan(out), live), true)
  }

  function CleanupOnAll(sw: Switch, env: Env, names: seq<string>, live: set<string>, failed: set<string>): (Switch, set<string>)
    decreases |names|
  {
    if names == [] then (sw, failed)
    else
      var (s1, ok) := CleanupOn(sw, env, names[0], live);
      CleanupOnAll(s1, env, names[1..], live, if ok then failed else failed + {names[0]})
  }

  /** The result of a pass over all bridges: the listing failed, or the bridges with an error. */
  datatype Report = ListFailed | Done(failed: set<string>)

  function DeletePodRailFlows(sw: Switch, env: Env, uid: string): (Switch, Report) {
    if !Succeeds(sw, env) then (Tick(sw), ListFailed)
    else
      var (s1, failed) := DeleteOnAll(Tick(sw), env, ListedNames(sw), uid, {});
      (s1, Done(failed))
  }

  function CleanupStaleFlows(sw: Switch, env: Env, live: set<string>): (Switch, Report) {
    if !Succeeds(sw, env) then (Tick(sw), ListFailed)
    else
      var (s1, failed) := CleanupOnAll(Tick(sw), env, ListedNames(sw), live, {});
      (s1, Done(failed))
  }

  // ---------------------------------------------------------------- reconcile

  /** One entry of the network-status annotation; `pci` when its device info says so. */
  datatype NetworkStatus = NetworkStatus(pci: bool, att: Attachment)

  /** `networks` is None when there are no annotations or the network status does not parse. */
  datatype Pod = Pod(uid: string, deleting: bool, networks: Option<seq<NetworkStatus>>)

  function Relevant(networks: seq<NetworkStatus>): seq<Attachment> {
    if networks == [] then [] else (if networks[0].pci then [networks[0].att] else []) + Relevant(networks[1..])
  }

  /** Every relevant network has an address. */
  ghost predicate Addressed(pod: Pod) {
    pod.networks.Some? ==> forall a :: a in Relevant(pod.networks.value) ==> |a.ips| > 0
  }

  /** FlowReconciler.Reconcile; errors of a deletion are only logged. */
  function ReconcilePod(sw: Switch, env: Env, pod: Pod): (Switch, set<string>)
    requires Addressed(pod)
  {
    if pod.deleting then (DeletePodRailFlows(sw, env, pod.uid).0, {})
    else if pod.networks.None? then (sw, {})
    else HandlePod(sw, env, pod.uid, Relevant(pod.networks.value), {})
  }
}
