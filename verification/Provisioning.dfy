/** From commands to packets: how a bridge forwards after any sequence of host programs, pod adds and pod cleans. */
module Provisioning {
  import opened Basics
  import opened FlowTables
  import opened PodFlows
  import opened Multiplane
  import opened Forwarding
  import PodFlowRuns

  // -------------------------------------------------------- cookies in the table

  /** Each pod rule carries the cookie it was written under, and each host rule the host's. */
  ghost predicate Cookies(t: Table, names: seq<string>, planeOf: map<string, nat>, host: nat, pods: Pods)
    requires ValidPlanes(names, planeOf)
  {
    && PodCookies(t, pods)
    && (forall r :: HostRule(names, planeOf, r) && r.key in t ==> t[r.key].cookie == host)
  }

  ghost predicate RouteCookie(t: Table, ip: string, cookie: nat) {
    && ArpTo(ip) in t && t[ArpTo(ip)].cookie == cookie
    && IpTo(ip) in t && t[IpTo(ip)].cookie == cookie
  }

  ghost predicate Tracked(t: Table, names: seq<string>, planeOf: map<string, nat>, host: nat, pods: Pods)
    requires ValidPlanes(names, planeOf)
  {
    AtMost(t, names, planeOf, pods) && Cookies(t, names, planeOf, host, pods)
  }

  lemma {:induction false} HostKeys(names: seq<string>, planeOf: map<string, nat>, r: Rule)
    requires ValidPlanes(names, planeOf) && HostRule(names, planeOf, r)
    ensures !Background(r.key)
    ensures forall ip :: r.key != ArpTo(ip) && r.key != IpTo(ip)
    ensures forall port :: r.key != IpFrom(port)
  {
    if n :| n in names && r in PfRules(n, planeOf) {
      assert r == PfRules(n, planeOf)[0] || r == PfRules(n, planeOf)[1];
    }
  }

  lemma {:induction false} HostTracked(t: Table, names: seq<string>, planeOf: map<string, nat>, host: nat, pods: Pods)
    requires ValidPlanes(names, planeOf) && Tracked(t, names, planeOf, host, pods)
    ensures var t' := Install(t, FlowProgram(names, planeOf).0, host, HostWriter);
            Tracked(t', names, planeOf, host, pods) && HostPresent(t', names, planeOf) && BackgroundOf(t') == BackgroundOf(t)
  {
    hide AtMost, Install, HostRule;
    var rules := FlowProgram(names, planeOf).0;
    var t' := Install(t, rules, host, HostWriter);
    HostFlowsInstalled(t, names, planeOf, pods, host);
    forall k ensures Mentions(rules, k) ==> exists r :: HostRule(names, planeOf, r) && r.key == k {
      if Mentions(rules, k) {
        LastActionsIsRule(rules, k);
        FlowProgramRules(names, planeOf, Rule(k, LastActions(rules, k)));
      }
    }
    forall ip | ip in pods.routes ensures RouteCookie(t', ip, pods.routes[ip].cookie) {
      NotHost(names, planeOf, rules, ArpTo(ip), ip, "");
      NotHost(names, planeOf, rules, IpTo(ip), ip, "");
      InstallAt(t, rules, host, HostWriter, ArpTo(ip));
      InstallAt(t, rules, host, HostWriter, IpTo(ip));
    }
    forall vf | vf in pods.sources ensures IpFrom(vf) in t' && t'[IpFrom(vf)].cookie == pods.sources[vf] {
      NotHost(names, planeOf, rules, IpFrom(vf), "", vf);
      InstallAt(t, rules, host, HostWriter, IpFrom(vf));
    }
    forall r | HostRule(names, planeOf, r) && r.key in t' ensures t'[r.key].cookie == host {
      FlowProgramRules(names, planeOf, r);
      var i :| 0 <= i < |rules| && rules[i] == r;
      InstallAt(t, rules, host, HostWriter, r.key);
    }
  }

  lemma {:induction false} NotHost(names: seq<string>, planeOf: map<string, nat>, rules: seq<Rule>, k: FlowKey, ip: string, port: string)
    requires ValidPlanes(names, planeOf) && rules == FlowProgram(names, planeOf).0
    requires k == ArpTo(ip) || k == IpTo(ip) || k == IpFrom(port)
    ensures !Mentions(rules, k)
  {
    if Mentions(rules, k) {
      LastActionsIsRule(rules, k);
      var r := Rule(k, LastActions(rules, k));
      FlowProgramRules(names, planeOf, r);
      HostKeys(names, planeOf, r);
    }
  }

  lemma {:induction false} AddTracked(t: Table, names: seq<string>, planeOf: map<string, nat>, host: nat, pods: Pods, pod: PodPort)
    requires ValidPlanes(names, planeOf) && Tracked(t, names, planeOf, host, pods)
    ensures var t' := Install(t, PodRules(pod.vf, pod.ip), pod.cookie, PodWriter(pod.uid));
            && Tracked(t', names, planeOf, host, With(pods, pod)) && BackgroundOf(t') == BackgroundOf(t)
            && (HostPresent(t, names, planeOf) ==> HostPresent(t', names, planeOf))
  {
    hide AtMost, HostRule, HostPresent, Install, With, PodCookies, Background;
    var rules, writer := PodRules(pod.vf, pod.ip), PodWriter(pod.uid);
    var t' := Install(t, rules, pod.cookie, writer);
    PodFlowsInstalled(t, names, planeOf, pods, pod);
    AddCookies(t, pods, pod);
    forall r | HostRule(names, planeOf, r) && r.key in t' ensures t'[r.key].cookie == host {
      HostKeys(names, planeOf, r);
      PodMentions(pod, r.key);
      InstallAt(t, rules, pod.cookie, writer, r.key);
    }
  }

  lemma {:induction false} PodMentions(pod: PodPort, k: FlowKey)
    ensures Mentions(PodRules(pod.vf, pod.ip), k) <==> k == ArpTo(pod.ip) || k == IpTo(pod.ip) || k == IpFrom(pod.vf)
  {
    var rules := PodRules(pod.vf, pod.ip);
    assert rules[0].key == ArpTo(pod.ip) && rules[1].key == IpTo(pod.ip) && rules[2].key == IpFrom(pod.vf);
  }

  lemma {:induction false} AddCookies(t: Table, pods: Pods, pod: PodPort)
    requires PodCookies(t, pods)
    ensures PodCookies(Install(t, PodRules(pod.vf, pod.ip), pod.cookie, PodWriter(pod.uid)), With(pods, pod))
  {
    hide Install, Mentions, PodRules;
    var rules, writer, all := PodRules(pod.vf, pod.ip), PodWriter(pod.uid), With(pods, pod);
    var t' := Install(t, rules, pod.cookie, writer);
    forall ip | ip in all.routes ensures RouteCookie(t', ip, all.routes[ip].cookie) {
      PodMentions(pod, ArpTo(ip));
      PodMentions(pod, IpTo(ip));
      InstallAt(t, rules, pod.cookie, writer, ArpTo(ip));
      InstallAt(t, rules, pod.cookie, writer, IpTo(ip));
      assert ip != pod.ip ==> RouteCookie(t, ip, pods.routes[ip].cookie);
    }
    forall vf | vf in all.sources ensures IpFrom(vf) in t' && t'[IpFrom(vf)].cookie == all.sources[vf] {
      PodMentions(pod, IpFrom(vf));
      InstallAt(t, rules, pod.cookie, writer, IpFrom(vf));
    }
  }

  /** A clean removes exactly what was written under the cookie, of pods and of the background. */
  lemma {:induction false} CleanTracked(t: Table, names: seq<string>, planeOf: map<string, nat>, host: nat, pods: Pods, cookie: nat)
    requires ValidPlanes(names, planeOf) && Tracked(t, names, planeOf, host, pods) && cookie != host
    ensures var t' := DelFlows(t, cookie);
            && Tracked(t', names, planeOf, host, Without(pods, cookie)) && BackgroundOf(t') == DelFlows(BackgroundOf(t), cookie)
            && (HostPresent(t, names, planeOf) ==> HostPresent(t', names, planeOf))
  {
    hide HostRule, PodRule, Background;
    var t', left := DelFlows(t, cookie), Without(pods, cookie);
    forall k | k in t' && !Background(k) ensures HostRule(names, planeOf, Rule(k, t'[k].actions)) || PodRule(left, Rule(k, t'[k].actions)) {
      var r := Rule(k, t[k].actions);
      if !HostRule(names, planeOf, r) {
        PodRuleWithout(t, pods, cookie, r);
      }
    }
    forall r | PodRule(left, r) ensures r.key in t' {
      PodRuleLeft(t, pods, cookie, r);
    }
    forall ip | ip in left.routes ensures RouteCookie(t', ip, left.routes[ip].cookie) {
      assert RouteCookie(t, ip, pods.routes[ip].cookie);
    }
    assert forall r :: HostRule(names, planeOf, r) && r.key in t ==> t[r.key].cookie == host;
  }

  /** The pods' part of Cookies. */
  ghost predicate PodCookies(t: Table, pods: Pods) {
    && (forall ip :: ip in pods.routes ==> RouteCookie(t, ip, pods.routes[ip].cookie))
    && (forall vf :: vf in pods.sources ==> IpFrom(vf) in t && t[IpFrom(vf)].cookie == pods.sources[vf])
  }

  lemma {:induction false} PodRuleWithout(t: Table, pods: Pods, cookie: nat, r: Rule)
    requires PodCookies(t, pods) && PodRule(pods, r) && r.key in t && t[r.key].cookie != cookie
    ensures PodRule(Without(pods, cookie), r)
  {
    var left := Without(pods, cookie);
    if ip :| VfOf(pods, ip).Some? && (r == Rule(ArpTo(ip), [Output(VfOf(pods, ip).value)]) || r == Rule(IpTo(ip), [Output(VfOf(pods, ip).value)])) {
      assert RouteCookie(t, ip, pods.routes[ip].cookie);
      assert VfOf(left, ip) == VfOf(pods, ip);
    } else {
      var port :| IsPodVf(pods, port) && r == Rule(IpFrom(port), [Resubmit(1)]);
      assert IsPodVf(left, port);
    }
  }

  lemma {:induction false} PodRuleLeft(t: Table, pods: Pods, cookie: nat, r: Rule)
    requires PodCookies(t, pods) && PodRule(Without(pods, cookie), r)
    ensures r.key in t && t[r.key].cookie != cookie
  {
    var left := Without(pods, cookie);
    if ip :| VfOf(left, ip).Some? && (r == Rule(ArpTo(ip), [Output(VfOf(left, ip).value)]) || r == Rule(IpTo(ip), [Output(VfOf(left, ip).value)])) {
      assert RouteCookie(t, ip, pods.routes[ip].cookie);
    } else {
      var port :| IsPodVf(left, port) && r == Rule(IpFrom(port), [Resubmit(1)]);
    }
  }

  // ------------------------------------------------------------------ operations

  /** What happens to a bridge, in any order and any number of times. */
  datatype BridgeOp = HostProgram | OfPod(op: PodOp)

  datatype Plan = Plan(bridge: string, host: nat, names: seq<string>, planeOf: map<string, nat>)

  /** The commands of one operation; the flag is false when one of them failed. */
  function Perform(sw: Switch, env: Env, plan: Plan, op: BridgeOp): (Switch, bool) {
    match op
    case HostProgram =>
      var (s1, flows) := AddRules(sw, env, plan.bridge, FlowProgram(plan.names, plan.planeOf).0, plan.host, HostWriter);
      if flows then ModGroups(s1, env, plan.bridge, GroupProgram(plan.names, plan.names, plan.planeOf).0) else (s1, false)
    case OfPod(AddPod(pod)) => AddRules(sw, env, plan.bridge, PodRules(pod.vf, pod.ip), pod.cookie, PodWriter(pod.uid))
    case OfPod(CleanPod(cookie)) => DeleteFlows(sw, env, plan.bridge, cookie)
  }

  function PerformAll(sw: Switch, env: Env, plan: Plan, ops: seq<BridgeOp>): (Switch, bool) {
    if ops == [] then (sw, true)
    else
      var (s1, ok) := PerformAll(sw, env, plan, ops[..|ops| - 1]);
      if ok then Perform(s1, env, plan, ops[|ops| - 1]) else (s1, false)
  }

  /** What the operations leave routed, and of the background. */
  function Surviving(ops: seq<BridgeOp>): Pods {
    if ops == [] then Pods(map[], map[])
    else
      var before := Surviving(ops[..|ops| - 1]);
      match ops[|ops| - 1]
      case HostProgram => before
      case OfPod(AddPod(pod)) => With(before, pod)
      case OfPod(CleanPod(cookie)) => Without(before, cookie)
  }

  function BackgroundAfter(t: Table, ops: seq<BridgeOp>): Table {
    if ops == [] then t
    else
      var before, op := BackgroundAfter(t, ops[..|ops| - 1]), ops[|ops| - 1];
      if op.OfPod? && op.op.CleanPod? then DelFlows(before, op.op.cookie) else before
  }

  lemma {:induction false} ModGroupsInstalls(sw: Switch, env: Env, name: string, mods: seq<GroupMod>)
    requires name in sw.bridges && ModGroups(sw, env, name, mods).1
    ensures var sw' := ModGroups(sw, env, name, mods).0;
            name in sw'.bridges && sw'.bridges[name] == sw.bridges[name].(groups := InstallGroups(sw.bridges[name].groups, mods))
    decreases |mods|
  {
    if mods != [] {
      ModGroupsInstalls(ModGroup(sw, env, name, mods[0].id, mods[0].group).0, env, name, mods[1..]);
    }
  }

  /** The bridge is tracked by the ledger, and once the host program ran, it holds the host's rules and groups. */
  ghost predicate Follows(b: Bridge, plan: Plan, pods: Pods, hosted: bool)
    requires ValidPlanes(plan.names, plan.planeOf)
  {
    && Tracked(b.flows, plan.names, plan.planeOf, plan.host, pods)
    && (hosted ==> HostPresent(b.flows, plan.names, plan.planeOf) && GroupsInstalled(b.groups, plan.names, plan.planeOf))
  }

  lemma {:induction false} PerformFollows(sw: Switch, env: Env, plan: Plan, op: BridgeOp, pods: Pods, hosted: bool)
    requires ValidPlanes(plan.names, plan.planeOf) && plan.bridge in sw.bridges && Follows(sw.bridges[plan.bridge], plan, pods, hosted)
    requires Perform(sw, env, plan, op).1 && op != OfPod(CleanPod(plan.host))
    ensures var sw' := Perform(sw, env, plan, op).0;
            var pods' := match op case HostProgram => pods case OfPod(AddPod(pod)) => With(pods, pod) case OfPod(CleanPod(c)) => Without(pods, c);
            var before := BackgroundOf(sw.bridges[plan.bridge].flows);
            && plan.bridge in sw'.bridges
            && Follows(sw'.bridges[plan.bridge], plan, pods', hosted || op.HostProgram?)
            && BackgroundOf(sw'.bridges[plan.bridge].flows) ==
               if op.OfPod? && op.op.CleanPod? then DelFlows(before, op.op.cookie) else before
  {
    hide Tracked, HostPresent, GroupsInstalled, Install, ValidPlanes, BackgroundOf, DelFlows, InstallGroups, With, Without;
    var b, names, planeOf := sw.bridges[plan.bridge], plan.names, plan.planeOf;
    match op
    case HostProgram =>
      var rules, mods := FlowProgram(names, planeOf).0, GroupProgram(names, names, planeOf).0;
      var s1 := AddRules(sw, env, plan.bridge, rules, plan.host, HostWriter).0;
      PodFlowRuns.AddRulesInstalls(sw, env, plan.bridge, rules, plan.host, HostWriter);
      ModGroupsInstalls(s1, env, plan.bridge, mods);
      HostTracked(b.flows, names, planeOf, plan.host, pods);
      HostGroupsInstalled(b.groups, names, planeOf);
    case OfPod(AddPod(pod)) =>
      PodFlowRuns.AddRulesInstalls(sw, env, plan.bridge, PodRules(pod.vf, pod.ip), pod.cookie, PodWriter(pod.uid));
      AddTracked(b.flows, names, planeOf, plan.host, pods, pod);
    case OfPod(CleanPod(cookie)) =>
      CleanTracked(b.flows, names, planeOf, plan.host, pods, cookie);
  }

  lemma {:induction false} AllFollow(sw: Switch, env: Env, plan: Plan, ops: seq<BridgeOp>)
    requires ValidPlanes(plan.names, plan.planeOf) && plan.bridge in sw.bridges
    requires forall k :: k in sw.bridges[plan.bridge].flows ==> Background(k)
    requires PerformAll(sw, env, plan, ops).1 && OfPod(CleanPod(plan.host)) !in ops
    ensures var sw' := PerformAll(sw, env, plan, ops).0;
            && plan.bridge in sw'.bridges
            && Follows(sw'.bridges[plan.bridge], plan, Surviving(ops), HostProgram in ops)
            && BackgroundOf(sw'.bridges[plan.bridge].flows) == BackgroundAfter(sw.bridges[plan.bridge].flows, ops)
  {
    hide Perform, Follows, ValidPlanes, DelFlows;
    if ops == [] {
      StartFollows(sw.bridges[plan.bridge], plan);
    } else {
      var n := |ops| - 1;
      assert ops == ops[..n] + [ops[n]];
      AllFollow(sw, env, plan, ops[..n]);
      PerformFollows(PerformAll(sw, env, plan, ops[..n]).0, env, plan, ops[n], Surviving(ops[..n]), HostProgram in ops[..n]);
    }
  }

  lemma {:induction false} StartFollows(b: Bridge, plan: Plan)
    requires ValidPlanes(plan.names, plan.planeOf) && forall k :: k in b.flows ==> Background(k)
    ensures Follows(b, plan, Pods(map[], map[]), false) && BackgroundOf(b.flows) == b.flows
  {
    forall r | HostRule(plan.names, plan.planeOf, r) ensures r.key !in b.flows {
      HostKeys(plan.names, plan.planeOf, r);
    }
  }

  /**
   * After any sequence of host programs, pod adds and pod cleans without a failed command, in any
   * order and over any background flows, a bridge that got its host program forwards as the
   * surviving routes and sources say, and leaves the rest to what survives of the background.
   */
  lemma {:induction false} ProvisionedBridgeForwards(sw: Switch, env: Env, plan: Plan, ops: seq<BridgeOp>, net: Net, p: Packet, depth: nat)
    requires ValidPlanes(plan.names, plan.planeOf) && plan.bridge in sw.bridges && depth >= 3
    requires forall k :: k in sw.bridges[plan.bridge].flows ==> Background(k)
    requires PerformAll(sw, env, plan, ops).1 && HostProgram in ops && OfPod(CleanPod(plan.host)) !in ops
    ensures var sw', pods := PerformAll(sw, env, plan, ops).0, Surviving(ops);
            && plan.bridge in sw'.bridges
            && var c := Context(sw'.bridges[plan.bridge].flows, sw'.bridges[plan.bridge].groups, net, p);
               && BackgroundOf(c.flows) == BackgroundAfter(sw.bridges[plan.bridge].flows, ops)
               && RunTable(c, 0, depth) ==
                  if Overlaps(plan.names, plan.planeOf, pods, p) then None
                  else if Unclaimed(pods, p) then RunBackground(c, depth)
                  else Some(Forward(plan.names, plan.planeOf, pods, net, p))
  {
    hide PerformAll, AtMost, HostPresent, Cookies, GroupsInstalled, RunTable, RunBackground, ValidPlanes, BackgroundOf;
    AllFollow(sw, env, plan, ops);
    var b := PerformAll(sw, env, plan, ops).0.bridges[plan.bridge];
    TablesForward(Context(b.flows, b.groups, net, p), plan.names, plan.planeOf, Surviving(ops), depth);
  }

  // ------------------------------------------------------------- what survives

  predicate Adds(op: BridgeOp) {
    op.OfPod? && op.op.AddPod?
  }

  /** Operation i is the last to add the address, and its cookie was not cleaned since. */
  ghost predicate RoutedBy(ops: seq<BridgeOp>, ip: string, i: nat) {
    && i < |ops| && Adds(ops[i]) && ops[i].op.pod.ip == ip
    && forall j :: i < j < |ops| ==>
         !(Adds(ops[j]) && ops[j].op.pod.ip == ip) && ops[j] != OfPod(CleanPod(ops[i].op.pod.cookie))
  }

  ghost predicate SentOnBy(ops: seq<BridgeOp>, vf: string, i: nat) {
    && i < |ops| && Adds(ops[i]) && ops[i].op.pod.vf == vf
    && forall j :: i < j < |ops| ==>
         !(Adds(ops[j]) && ops[j].op.pod.vf == vf) && ops[j] != OfPod(CleanPod(ops[i].op.pod.cookie))
  }

  lemma {:induction false} RoutedStep(ops: seq<BridgeOp>, ip: string, i: nat)
    requires ops != []
    ensures var n, op := |ops| - 1, ops[|ops| - 1];
            RoutedBy(ops, ip, i) <==>
            if i == n then Adds(op) && op.op.pod.ip == ip
            else RoutedBy(ops[..n], ip, i) && !(Adds(op) && op.op.pod.ip == ip) && op != OfPod(CleanPod(ops[i].op.pod.cookie))
  {
    var n := |ops| - 1;
    assert forall j :: 0 <= j < n ==> ops[..n][j] == ops[j];
  }

  lemma {:induction false} SentOnStep(ops: seq<BridgeOp>, vf: string, i: nat)
    requires ops != []
    ensures var n, op := |ops| - 1, ops[|ops| - 1];
            SentOnBy(ops, vf, i) <==>
            if i == n then Adds(op) && op.op.pod.vf == vf
            else SentOnBy(ops[..n], vf, i) && !(Adds(op) && op.op.pod.vf == vf) && op != OfPod(CleanPod(ops[i].op.pod.cookie))
  {
    var n := |ops| - 1;
    assert forall j :: 0 <= j < n ==> ops[..n][j] == ops[j];
  }

  /**
   * An address is routed if and only if the last pod that was added with it was not cleaned since,
   * and then to that pod's VF: cleaning the later of two pods that share it unroutes the earlier.
   */
  lemma {:induction false} RoutedIff(ops: seq<BridgeOp>, ip: string)
    ensures ip in Surviving(ops).routes <==> exists i: nat :: RoutedBy(ops, ip, i)
    ensures forall i: nat :: RoutedBy(ops, ip, i) ==>
              ip in Surviving(ops).routes && Surviving(ops).routes[ip] == Route(ops[i].op.pod.vf, ops[i].op.pod.cookie)
  {
    if ops != [] {
      var n := |ops| - 1;
      RoutedIff(ops[..n], ip);
      forall i: nat
        ensures RoutedBy(ops, ip, i) ==>
                  ip in Surviving(ops).routes && Surviving(ops).routes[ip] == Route(ops[i].op.pod.vf, ops[i].op.pod.cookie)
      {
        RoutedStep(ops, ip, i);
      }
      if ip in Surviving(ops).routes {
        if Adds(ops[n]) && ops[n].op.pod.ip == ip {
          RoutedStep(ops, ip, n);
        } else {
          var i: nat :| RoutedBy(ops[..n], ip, i);
          RoutedStep(ops, ip, i);
        }
      }
    }
  }

  /** The same for the VFs whose traffic is sent on. */
  lemma {:induction false} SentOnIff(ops: seq<BridgeOp>, vf: string)
    ensures vf in Surviving(ops).sources <==> exists i: nat :: SentOnBy(ops, vf, i)
    ensures forall i: nat :: SentOnBy(ops, vf, i) ==>
              vf in Surviving(ops).sources && Surviving(ops).sources[vf] == ops[i].op.pod.cookie
  {
    if ops != [] {
      var n := |ops| - 1;
      SentOnIff(ops[..n], vf);
      forall i: nat
        ensures SentOnBy(ops, vf, i) ==> vf in Surviving(ops).sources && Surviving(ops).sources[vf] == ops[i].op.pod.cookie
      {
        SentOnStep(ops, vf, i);
      }
      if vf in Surviving(ops).sources {
        if Adds(ops[n]) && ops[n].op.pod.vf == vf {
          SentOnStep(ops, vf, n);
        } else {
          var i: nat :| SentOnBy(ops[..n], vf, i);
          SentOnStep(ops, vf, i);
        }
      }
    }
  }

  /** Cleaning a pod right after it took over an address or a VF leaves both unrouted, whoever had them before. */
  lemma {:induction false} TakeoverUnroutes(ops: seq<BridgeOp>, pod: PodPort)
    ensures var pods := Surviving(ops + [OfPod(AddPod(pod)), OfPod(CleanPod(pod.cookie))]);
            pod.ip !in pods.routes && pod.vf !in pods.sources
  {
    var add, clean := OfPod(AddPod(pod)), OfPod(CleanPod(pod.cookie));
    var all := ops + [add, clean];
    assert all[..|all| - 1] == ops + [add];
    assert (ops + [add])[..|ops|] == ops;
  }
}
