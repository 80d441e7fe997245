/** The host's multiplane rules and groups, and the commands that install them. */
module Multiplane {
  import opened Basics
  import opened FlowTables
  import opened PodFlows
  import opened PodAgent

  const ALL_PLANES: nat := 100

  /** A physical function with the plane id read from its phys_port_name. */
  datatype Pf = Pf(name: string, plane: nat)

  const ARP_FLOOD: FlowKey := FlowKey(0, LOW_PRIORITY, ANY.(proto := ArpProto))
  const UNPREFERRED: FlowKey := FlowKey(1, DEFAULT_PRIORITY, ANY.(preferred := Some(0)))

  function Preferred(plane: nat): FlowKey {
    FlowKey(1, DEFAULT_PRIORITY, ANY.(pid := Some(plane), strict := Some(0), preferred := Some(1)))
  }

  function Strict(plane: nat): FlowKey {
    FlowKey(1, DEFAULT_PRIORITY, ANY.(pid := Some(plane), strict := Some(1)))
  }

  function Outputs(names: seq<string>): seq<Action> {
    if names == [] then [] else [Output(names[0])] + Outputs(names[1..])
  }

  /** The rules of one plane. */
  function PlaneRules(pf: Pf): seq<Rule> {
    [Rule(Preferred(pf.plane), [ToGroup(pf.plane)]), Rule(Strict(pf.plane), [Output(pf.name)])]
  }

  /** The rules after the ARP rule; they end early, incomplete, at a PF without a plane id. */
  function PlaneProgram(names: seq<string>, planeOf: map<string, nat>): (seq<Rule>, bool) {
    if names == [] then ([Rule(UNPREFERRED, [ToGroup(ALL_PLANES)])], true)
    else if names[0] !in planeOf then ([], false)
    else
      var (rest, complete) := PlaneProgram(names[1..], planeOf);
      (PlaneRules(Pf(names[0], planeOf[names[0]])) + rest, complete)
  }

  /** AddHardwareMultiplaneFlows, in command order. */
  function FlowProgram(names: seq<string>, planeOf: map<string, nat>): (seq<Rule>, bool) {
    var (rest, complete) := PlaneProgram(names, planeOf);
    ([Rule(ARP_FLOOD, Outputs(names))] + rest, complete)
  }

  function PlaneGroup(pf: Pf): Group {
    FastFailover([Bucket(WatchPort(pf.name), [Output(pf.name)]), Bucket(WatchGroup(ALL_PLANES), [ToGroup(ALL_PLANES)])])
  }

  function PortBuckets(names: seq<string>): seq<Bucket> {
    if names == [] then [] else [Bucket(WatchPort(names[0]), [Output(names[0])])] + PortBuckets(names[1..])
  }

  datatype GroupMod = GroupMod(id: nat, group: Group)

  /** AddHardwareMultiplaneGroups, in command order: the planes `names`, then the group of all planes. */
  function GroupProgram(names: seq<string>, all: seq<string>, planeOf: map<string, nat>): (seq<GroupMod>, bool)
    decreases |names|
  {
    if names == [] then ([GroupMod(ALL_PLANES, Select(PortBuckets(all)))], true)
    else if names[0] !in planeOf then ([], false)
    else
      var (rest, complete) := GroupProgram(names[1..], all, planeOf);
      ([GroupMod(planeOf[names[0]], PlaneGroup(Pf(names[0], planeOf[names[0]])))] + rest, complete)
  }

  function ModGroups(sw: Switch, env: Env, name: string, mods: seq<GroupMod>): (Switch, bool)
    decreases |mods|
  {
    if mods == [] then (sw, true)
    else
      var (s1, ok) := ModGroup(sw, env, name, mods[0].id, mods[0].group);
      if ok then ModGroups(s1, env, name, mods[1..]) else (s1, false)
  }

  function InstallGroups(g: Groups, mods: seq<GroupMod>): Groups
    decreases |mods|
  {
    if mods == [] then g else InstallGroups(g[mods[0].id := mods[0].group], mods[1..])
  }

  lemma {:induction false} OutputsExtend(names: seq<string>, n: string)
    ensures Outputs(names + [n]) == Outputs(names) + [Output(n)]
  {
    if names == [] {
      assert names + [n] == [n];
    } else {
      assert (names + [n])[1..] == names[1..] + [n];
      OutputsExtend(names[1..], n);
    }
  }

  lemma {:induction false} PortBucketsExtend(names: seq<string>, n: string)
    ensures PortBuckets(names + [n]) == PortBuckets(names) + [Bucket(WatchPort(n), [Output(n)])]
  {
    if names == [] {
      assert names + [n] == [n];
    } else {
      assert (names + [n])[1..] == names[1..] + [n];
      PortBucketsExtend(names[1..], n);
    }
  }

  /** The ARP actions, built up PF by PF. */
  method FloodActions(pfNames: seq<string>) returns (outputs: seq<Action>)
    requires pfNames != []
    ensures outputs == Outputs(pfNames)
  {
    outputs := [Output(pfNames[0])];
    for i := 1 to |pfNames|
      invariant outputs == Outputs(pfNames[..i])
    {
      OutputsExtend(pfNames[..i], pfNames[i]);
      assert pfNames[..i] + [pfNames[i]] == pfNames[..i + 1];
      outputs := outputs + [Output(pfNames[i])];
    }
    assert pfNames[..|pfNames|] == pfNames;
  }

  method AllPlanesBuckets(pfNames: seq<string>) returns (buckets: seq<Bucket>)
    ensures buckets == PortBuckets(pfNames)
  {
    buckets := [];
    for i := 0 to |pfNames|
      invariant buckets == PortBuckets(pfNames[..i])
    {
      PortBucketsExtend(pfNames[..i], pfNames[i]);
      assert pfNames[..i] + [pfNames[i]] == pfNames[..i + 1];
      buckets := buckets + [Bucket(WatchPort(pfNames[i]), [Output(pfNames[i])])];
    }
    assert pfNames[..|pfNames|] == pfNames;
  }

  /** One add-flow of the host; what is left of the program after it. */
  method AddHostFlow(ovs: Ovs, bridge: string, cookie: nat, r: Rule, ghost rest: seq<Rule>) returns (ok: bool)
    modifies ovs
    ensures var (after, added) := AddRules(old(ovs.View()), ovs.env, bridge, [r] + rest, cookie, HostWriter);
            && (ok ==> AddRules(ovs.View(), ovs.env, bridge, rest, cookie, HostWriter) == (after, added))
            && (!ok ==> ovs.View() == after && !added)
  {
    assert ([r] + rest)[1..] == rest;
    var (after, added) := AddFlow(ovs.View(), ovs.env, bridge, r, cookie, HostWriter);
    ovs.Become(after);
    return added;
  }

  method AddHardwareMultiplaneFlows(ovs: Ovs, bridge: string, cookie: nat, pfNames: seq<string>, planeOf: map<string, nat>)
    returns (ok: bool)
    modifies ovs
    ensures pfNames == [] ==> !ok && ovs.View() == old(ovs.View())
    ensures pfNames != [] ==>
              var (rules, complete) := FlowProgram(pfNames, planeOf);
              var (after, added) := AddRules(old(ovs.View()), ovs.env, bridge, rules, cookie, HostWriter);
              ovs.View() == after && ok == (added && complete)
  {
    if |pfNames| == 0 {
      return false;
    }
    var outputs := FloodActions(pfNames);
    ghost var total := AddRules(ovs.View(), ovs.env, bridge, FlowProgram(pfNames, planeOf).0, cookie, HostWriter);
    ok := AddHostFlow(ovs, bridge, cookie, Rule(ARP_FLOOD, outputs), PlaneProgram(pfNames, planeOf).0);
    if !ok {
      return false;
    }
    for i := 0 to |pfNames|
      invariant AddRules(ovs.View(), ovs.env, bridge, PlaneProgram(pfNames[i..], planeOf).0, cookie, HostWriter) == total
      invariant PlaneProgram(pfNames[i..], planeOf).1 == PlaneProgram(pfNames, planeOf).1
    {
      assert pfNames[i..][0] == pfNames[i] && pfNames[i..][1..] == pfNames[i + 1..];
      if pfNames[i] !in planeOf {
        return false;
      }
      var planeID := planeOf[pfNames[i]];
      ghost var rest := PlaneProgram(pfNames[i + 1..], planeOf).0;
      var preferred, strict := Rule(Preferred(planeID), [ToGroup(planeID)]), Rule(Strict(planeID), [Output(pfNames[i])]);
      assert PlaneProgram(pfNames[i..], planeOf).0 == [preferred] + ([strict] + rest);
      ok := AddHostFlow(ovs, bridge, cookie, preferred, [strict] + rest);
      if !ok {
        return false;
      }
      ok := AddHostFlow(ovs, bridge, cookie, strict, rest);
      if !ok {
        return false;
      }
    }
    assert PlaneProgram(pfNames[|pfNames|..], planeOf).0 == [Rule(UNPREFERRED, [ToGroup(ALL_PLANES)])] + [];
    ok := AddHostFlow(ovs, bridge, cookie, Rule(UNPREFERRED, [ToGroup(ALL_PLANES)]), []);
  }

  method AddHardwareMultiplaneGroups(ovs: Ovs, bridge: string, pfNames: seq<string>, planeOf: map<string, nat>)
    returns (ok: bool)
    modifies ovs
    ensures pfNames == [] ==> !ok && ovs.View() == old(ovs.View())
    ensures pfNames != [] ==>
              var (mods, complete) := GroupProgram(pfNames, pfNames, planeOf);
              var (after, added) := ModGroups(old(ovs.View()), ovs.env, bridge, mods);
              ovs.View() == after && ok == (added && complete)
  {
    if |pfNames| == 0 {
      return false;
    }
    ghost var total := ModGroups(ovs.View(), ovs.env, bridge, GroupProgram(pfNames, pfNames, planeOf).0);
    for i := 0 to |pfNames|
      invariant ModGroups(ovs.View(), ovs.env, bridge, GroupProgram(pfNames[i..], pfNames, planeOf).0) == total
      invariant GroupProgram(pfNames[i..], pfNames, planeOf).1 == GroupProgram(pfNames, pfNames, planeOf).1
    {
      assert pfNames[i..][0] == pfNames[i] && pfNames[i..][1..] == pfNames[i + 1..];
      if pfNames[i] !in planeOf {
        return false;
      }
      var planeID := planeOf[pfNames[i]];
      assert GroupProgram(pfNames[i..], pfNames, planeOf).0[1..] == GroupProgram(pfNames[i + 1..], pfNames, planeOf).0;
      var (after, added) := ModGroup(ovs.View(), ovs.env, bridge, planeID, PlaneGroup(Pf(pfNames[i], planeID)));
      ovs.Become(after);
      if !added {
        return false;
      }
    }
    var buckets := AllPlanesBuckets(pfNames);
    var (after, added) := ModGroup(ovs.View(), ovs.env, bridge, ALL_PLANES, Select(buckets));
    ghost var last := GroupProgram(pfNames[|pfNames|..], pfNames, planeOf).0;
    assert last == [GroupMod(ALL_PLANES, Select(buckets))] && last[1..] == [];
    assert ModGroups(after, ovs.env, bridge, []) == (after, true);
    ovs.Become(after);
    return added;
  }
}
