/**
 * What the installed tables and groups do to a packet, after the OpenFlow Switch Specification 1.3
 * (5.3 matching, 5.6.1 group types), and that it is a simple forwarding function.
 */
module Forwarding {
  import opened Basics
  import opened FlowTables
  import opened Multiplane

  datatype PacketKind = Arp | Ip | OtherKind

  datatype Packet = Packet(kind: PacketKind, arpTpa: string, nwDst: string, inPort: string, pid: nat, strict: nat, preferred: nat)

  // --------------------------------------------------------- lookup semantics

  predicate ProtoMatches(m: Proto, kind: PacketKind) {
    match m
    case AnyProto => true
    case ArpProto => kind.Arp?
    case IpProto => kind.Ip?
  }

  predicate FieldMatches<T(==)>(want: Option<T>, have: T) {
    want.None? || want.value == have
  }

  predicate Matches(m: Match, p: Packet) {
    && ProtoMatches(m.proto, p.kind)
    && FieldMatches(m.arpTpa, p.arpTpa) && FieldMatches(m.nwDst, p.nwDst) && FieldMatches(m.inPort, p.inPort)
    && FieldMatches(m.pid, p.pid) && FieldMatches(m.strict, p.strict) && FieldMatches(m.preferred, p.preferred)
  }

  predicate Candidate(t: Table, tbl: nat, p: Packet, k: FlowKey) {
    k in t && k.table == tbl && Matches(k.m, p)
  }

  /** k is the one matching flow of highest priority. */
  ghost predicate Wins(t: Table, tbl: nat, p: Packet, k: FlowKey) {
    Candidate(t, tbl, p, k) && forall j :: Candidate(t, tbl, p, j) && j != k ==> j.priority < k.priority
  }

  datatype LookupResult = Miss | Hit(actions: seq<Action>) | Ambiguous

  ghost function Lookup(t: Table, tbl: nat, p: Packet): LookupResult {
    if k :| Wins(t, tbl, p, k) then Hit(t[k].actions)
    else if exists k :: Candidate(t, tbl, p, k) then Ambiguous
    else Miss
  }

  lemma {:induction false} WinnerIsHit(t: Table, tbl: nat, p: Packet, k: FlowKey)
    requires Wins(t, tbl, p, k)
    ensures Lookup(t, tbl, p) == Hit(t[k].actions)
  {
    forall j | Wins(t, tbl, p, j) ensures j == k {
      assert Candidate(t, tbl, p, j) && Candidate(t, tbl, p, k);
    }
  }

  /** Which ports are live, the hash select groups use, and where ordinary switching would send the packet. */
  datatype Net = Net(live: set<string>, hash: nat, normal: set<string>)

  datatype Context = Context(flows: Table, groups: Groups, net: Net, p: Packet)

  /** A watched group is live when it has a live bucket. */
  predicate Alive(c: Context, b: Bucket, depth: nat)
    decreases depth, 0, 0
  {
    match b.watch
    case WatchPort(port) => port in c.net.live
    case WatchGroup(id) => depth > 0 && id in c.groups && LiveBuckets(c, c.groups[id].buckets, depth - 1) != []
  }

  function LiveBuckets(c: Context, buckets: seq<Bucket>, depth: nat): seq<Bucket>
    decreases depth, 1, |buckets|
  {
    if buckets == [] then []
    else (if Alive(c, buckets[0], depth) then [buckets[0]] else []) + LiveBuckets(c, buckets[1..], depth)
  }

  /**
   * The set of ports a packet leaves by. None means undefined: an ambiguous lookup, or more than
   * `depth` resubmits and group hops. A packet is never sent back to the port it came from.
   */
  ghost function RunTable(c: Context, tbl: nat, depth: nat): Option<set<string>>
    decreases depth, 2, 0
  {
    match Lookup(c.flows, tbl, c.p)
    case Miss => Some({})
    case Ambiguous => None
    case Hit(actions) => RunActions(c, actions, depth)
  }

  ghost function RunGroup(c: Context, id: nat, depth: nat): Option<set<string>>
    decreases depth, 2, 0
  {
    if id !in c.groups then Some({})
    else
      var alive := LiveBuckets(c, c.groups[id].buckets, depth);
      if alive == [] then Some({})
      else if c.groups[id].FastFailover? then RunActions(c, alive[0].actions, depth)
      else RunActions(c, alive[c.net.hash % |alive|].actions, depth)
  }

  ghost function RunActions(c: Context, actions: seq<Action>, depth: nat): Option<set<string>>
    decreases depth, 1, |actions|
  {
    if actions == [] then Some({})
    else
      var first := match actions[0]
        case Output(port) => Some({port} - {c.p.inPort})
        case Normal => Some(c.net.normal - {c.p.inPort})
        case Resubmit(tbl) => if depth == 0 then None else RunTable(c, tbl, depth - 1)
        case ToGroup(id) => if depth == 0 then None else RunGroup(c, id, depth - 1);
      var rest := RunActions(c, actions[1..], depth);
      if first.Some? && rest.Some? then Some(first.value + rest.value) else None
  }

  // ------------------------------------------------- the installed configuration

  /** Every PF has a plane id; the ids are distinct and none is the id of the all-planes group. */
  ghost predicate ValidPlanes(names: seq<string>, planeOf: map<string, nat>) {
    && (forall n :: n in names ==> n in planeOf && planeOf[n] != ALL_PLANES)
    && (forall i, j :: 0 <= i < j < |names| ==> names[i] in planeOf && names[j] in planeOf && planeOf[names[i]] != planeOf[names[j]])
  }

  function PfRules(n: string, planeOf: map<string, nat>): seq<Rule>
    requires n in planeOf
  {
    PlaneRules(Pf(n, planeOf[n]))
  }

  ghost predicate HostRule(names: seq<string>, planeOf: map<string, nat>, r: Rule)
    requires ValidPlanes(names, planeOf)
  {
    || r == Rule(ARP_FLOOD, Outputs(names))
    || r == Rule(UNPREFERRED, [ToGroup(ALL_PLANES)])
    || exists n :: n in names && r in PfRules(n, planeOf)
  }

  /** What a bridge routes for pods: addresses to VFs, and VFs whose traffic is sent on, each with the cookie it was written under. */
  datatype Pods = Pods(routes: map<string, Route>, sources: map<string, nat>)

  datatype Route = Route(vf: string, cookie: nat)

  function VfOf(pods: Pods, ip: string): Option<string> {
    if ip in pods.routes then Some(pods.routes[ip].vf) else None
  }

  predicate IsPodVf(pods: Pods, port: string) {
    port in pods.sources
  }

  /** The pod takes over its address and its VF. */
  function With(pods: Pods, pod: PodPort): Pods {
    Pods(pods.routes[pod.ip := Route(pod.vf, pod.cookie)], pods.sources[pod.vf := pod.cookie])
  }

  /** Everything written under the cookie goes. */
  function Without(pods: Pods, cookie: nat): Pods {
    Pods(map ip | ip in pods.routes && pods.routes[ip].cookie != cookie :: pods.routes[ip],
         map vf | vf in pods.sources && pods.sources[vf] != cookie :: pods.sources[vf])
  }

  ghost predicate PodRule(pods: Pods, r: Rule) {
    || (exists ip :: VfOf(pods, ip).Some? && (r == Rule(ArpTo(ip), [Output(VfOf(pods, ip).value)])
                                              || r == Rule(IpTo(ip), [Output(VfOf(pods, ip).value)])))
    || (exists port :: IsPodVf(pods, port) && r == Rule(IpFrom(port), [Resubmit(1)]))
  }

  /** Flows of others that stay below the operator's: low priorities of table 0, and tables it does not use. */
  predicate Background(k: FlowKey) {
    (k.table == 0 && k.priority < LOW_PRIORITY) || k.table > 1
  }

  function BackgroundOf(t: Table): Table {
    map k | k in t && Background(k) :: t[k]
  }

  /** Above the background the table holds nothing but host rules and the pods' rules, and all of the latter. */
  ghost predicate AtMost(t: Table, names: seq<string>, planeOf: map<string, nat>, pods: Pods)
    requires ValidPlanes(names, planeOf)
  {
    && (forall k :: k in t && !Background(k) ==> HostRule(names, planeOf, Rule(k, t[k].actions)) || PodRule(pods, Rule(k, t[k].actions)))
    && (forall r :: PodRule(pods, r) ==> r.key in t)
  }

  ghost predicate HostPresent(t: Table, names: seq<string>, planeOf: map<string, nat>)
    requires ValidPlanes(names, planeOf)
  {
    forall r :: HostRule(names, planeOf, r) ==> r.key in t
  }

  /** Above the background the table holds exactly the host's and the pods' rules. */
  ghost predicate Installed(t: Table, names: seq<string>, planeOf: map<string, nat>, pods: Pods)
    requires ValidPlanes(names, planeOf)
  {
    AtMost(t, names, planeOf, pods) && HostPresent(t, names, planeOf)
  }

  ghost predicate GroupsInstalled(g: Groups, names: seq<string>, planeOf: map<string, nat>)
    requires ValidPlanes(names, planeOf)
  {
    && (forall n :: n in names ==> planeOf[n] in g && g[planeOf[n]] == PlaneGroup(Pf(n, planeOf[n])))
    && ALL_PLANES in g && g[ALL_PLANES] == Select(PortBuckets(names))
  }

  lemma {:induction false} PlaneProgramRules(names: seq<string>, planeOf: map<string, nat>, r: Rule)
    requires ValidPlanes(names, planeOf)
    ensures PlaneProgram(names, planeOf).1
    ensures r in PlaneProgram(names, planeOf).0 <==>
            r == Rule(UNPREFERRED, [ToGroup(ALL_PLANES)]) || exists n :: n in names && r in PfRules(n, planeOf)
  {
    if names != [] {
      assert names[0] in names;
      assert forall n :: n in names[1..] ==> n in names;
      PlaneProgramRules(names[1..], planeOf, r);
      assert forall n :: n in names <==> n == names[0] || n in names[1..];
    }
  }

  lemma {:induction false} FlowProgramRules(names: seq<string>, planeOf: map<string, nat>, r: Rule)
    requires ValidPlanes(names, planeOf)
    ensures FlowProgram(names, planeOf).1
    ensures r in FlowProgram(names, planeOf).0 <==> HostRule(names, planeOf, r)
  {
    PlaneProgramRules(names, planeOf, r);
  }

  lemma {:induction false} InstalledKey(t: Table, rules: seq<Rule>, cookie: nat, writer: Writer, k: FlowKey)
    ensures var t' := Install(t, rules, cookie, writer);
            && (k in t' ==> Rule(k, t'[k].actions) in rules || (k in t && t'[k] == t[k] && forall r :: r in rules ==> r.key != k))
            && ((k in t || exists r :: r in rules && r.key == k) ==> k in t')
  {
    InstallAt(t, rules, cookie, writer, k);
    if Mentions(rules, k) {
      LastActionsIsRule(rules, k);
    } else {
      forall r | r in rules ensures r.key != k {
        var i :| 0 <= i < |rules| && rules[i] == r;
      }
    }
  }

  lemma {:induction false} RulesAreForeground(names: seq<string>, planeOf: map<string, nat>, pods: Pods, r: Rule)
    requires ValidPlanes(names, planeOf) && (HostRule(names, planeOf, r) || PodRule(pods, r))
    ensures !Background(r.key)
  {
  }

  lemma {:induction false} InstallKeepsBackground(t: Table, rules: seq<Rule>, cookie: nat, writer: Writer)
    requires forall r :: r in rules ==> !Background(r.key)
    ensures BackgroundOf(Install(t, rules, cookie, writer)) == BackgroundOf(t)
  {
    var t' := Install(t, rules, cookie, writer);
    forall k | Background(k) ensures (k in t' <==> k in t) && (k in t ==> t'[k] == t[k]) {
      InstallAt(t, rules, cookie, writer, k);
    }
  }

  /** A completed AddHardwareMultiplaneFlows: the first one, over pods' rules or not, or one of many. */
  lemma {:induction false} HostFlowsInstalled(t: Table, names: seq<string>, planeOf: map<string, nat>, pods: Pods, cookie: nat)
    requires ValidPlanes(names, planeOf) && AtMost(t, names, planeOf, pods)
    ensures var t' := Install(t, FlowProgram(names, planeOf).0, cookie, HostWriter);
            Installed(t', names, planeOf, pods) && BackgroundOf(t') == BackgroundOf(t)
  {
    var rules := FlowProgram(names, planeOf).0;
    var t' := Install(t, rules, cookie, HostWriter);
    forall k | k in t' && !Background(k) ensures HostRule(names, planeOf, Rule(k, t'[k].actions)) || PodRule(pods, Rule(k, t'[k].actions)) {
      InstalledKey(t, rules, cookie, HostWriter, k);
      FlowProgramRules(names, planeOf, Rule(k, t'[k].actions));
    }
    forall r | HostRule(names, planeOf, r) || PodRule(pods, r) ensures r.key in t' {
      InstalledKey(t, rules, cookie, HostWriter, r.key);
      FlowProgramRules(names, planeOf, r);
    }
    forall r | r in rules ensures !Background(r.key) {
      FlowProgramRules(names, planeOf, r);
      RulesAreForeground(names, planeOf, pods, r);
    }
    InstallKeepsBackground(t, rules, cookie, HostWriter);
  }

  lemma {:induction false} PodRuleWith(pods: Pods, pod: PodPort, r: Rule)
    ensures PodRule(With(pods, pod), r) <==>
            r in PodRules(pod.vf, pod.ip) || (PodRule(pods, r) && r.key != ArpTo(pod.ip) && r.key != IpTo(pod.ip))
  {
    var all := With(pods, pod);
    assert r in PodRules(pod.vf, pod.ip) <==>
           r == Rule(ArpTo(pod.ip), [Output(pod.vf)]) || r == Rule(IpTo(pod.ip), [Output(pod.vf)]) || r == Rule(IpFrom(pod.vf), [Resubmit(1)]);
    assert VfOf(all, pod.ip) == Some(pod.vf) && IsPodVf(all, pod.vf);
    forall ip | ip != pod.ip ensures VfOf(all, ip) == VfOf(pods, ip) {
    }
    forall port | port != pod.vf ensures IsPodVf(all, port) <==> IsPodVf(pods, port) {
    }
  }

  /** A completed AddPodRailFlows adds the pod, taking over its address and VF; host rules stay. */
  lemma {:induction false} PodFlowsInstalled(t: Table, names: seq<string>, planeOf: map<string, nat>, pods: Pods, pod: PodPort)
    requires ValidPlanes(names, planeOf) && AtMost(t, names, planeOf, pods)
    ensures var t' := Install(t, PodRules(pod.vf, pod.ip), pod.cookie, PodWriter(pod.uid));
            && AtMost(t', names, planeOf, With(pods, pod)) && BackgroundOf(t') == BackgroundOf(t)
            && (HostPresent(t, names, planeOf) ==> HostPresent(t', names, planeOf))
  {
    var rules, writer := PodRules(pod.vf, pod.ip), PodWriter(pod.uid);
    var t' := Install(t, rules, pod.cookie, writer);
    assert rules[0].key == ArpTo(pod.ip) && rules[1].key == IpTo(pod.ip) && rules[2].key == IpFrom(pod.vf);
    assert rules[0] in rules && rules[1] in rules && rules[2] in rules;
    InstallKeepsBackground(t, rules, pod.cookie, writer);
    forall k | k in t' && !Background(k)
      ensures HostRule(names, planeOf, Rule(k, t'[k].actions)) || PodRule(With(pods, pod), Rule(k, t'[k].actions))
    {
      InstalledKey(t, rules, pod.cookie, writer, k);
      PodRuleWith(pods, pod, Rule(k, t'[k].actions));
    }
    forall r | PodRule(With(pods, pod), r) || HostRule(names, planeOf, r) ensures r.key in t' || !HostPresent(t, names, planeOf) {
      InstalledKey(t, rules, pod.cookie, writer, r.key);
      PodRuleWith(pods, pod, r);
    }
    forall r | PodRule(With(pods, pod), r) ensures r.key in t' {
      InstalledKey(t, rules, pod.cookie, writer, r.key);
      PodRuleWith(pods, pod, r);
    }
  }

  lemma {:induction false} GroupProgramInstalls(g: Groups, names: seq<string>, all: seq<string>, planeOf: map<string, nat>)
    requires ValidPlanes(names, planeOf)
    ensures GroupProgram(names, all, planeOf).1
    ensures var g' := InstallGroups(g, GroupProgram(names, all, planeOf).0);
            && (forall n :: n in names ==> planeOf[n] in g' && g'[planeOf[n]] == PlaneGroup(Pf(n, planeOf[n])))
            && ALL_PLANES in g' && g'[ALL_PLANES] == Select(PortBuckets(all))
            && (forall id :: id in g && id != ALL_PLANES && (forall n :: n in names ==> planeOf[n] != id) ==> id in g' && g'[id] == g[id])
    decreases |names|
  {
    var mods := GroupProgram(names, all, planeOf).0;
    if names == [] {
      assert mods[1..] == [];
    } else {
      assert names[0] in names;
      assert forall n :: n in names[1..] ==> n in names;
      GroupProgramInstalls(g[planeOf[names[0]] := PlaneGroup(Pf(names[0], planeOf[names[0]]))], names[1..], all, planeOf);
      assert mods[1..] == GroupProgram(names[1..], all, planeOf).0;
      assert forall n :: n in names <==> n == names[0] || n in names[1..];
      forall n | n in names[1..] ensures planeOf[n] != planeOf[names[0]] {
        var i :| 0 <= i < |names[1..]| && names[1..][i] == n;
        assert names[i + 1] == n;
      }
    }
  }

  /** A completed AddHardwareMultiplaneGroups, whatever groups existed before. */
  lemma {:induction false} HostGroupsInstalled(g: Groups, names: seq<string>, planeOf: map<string, nat>)
    requires ValidPlanes(names, planeOf)
    ensures GroupsInstalled(InstallGroups(g, GroupProgram(names, names, planeOf).0), names, planeOf)
  {
    GroupProgramInstalls(g, names, names, planeOf);
  }

  // -------------------------------------------------------- the reference function

  function LiveNames(names: seq<string>, live: set<string>): seq<string> {
    if names == [] then [] else (if names[0] in live then [names[0]] else []) + LiveNames(names[1..], live)
  }

  /** One live PF, chosen by the hash; none when all are down. */
  function AnyLive(names: seq<string>, net: Net): set<string> {
    var alive := LiveNames(names, net.live);
    if alive == [] then {} else {alive[net.hash % |alive|]}
  }

  function PfOfPlane(names: seq<string>, planeOf: map<string, nat>, plane: nat): Option<string> {
    if names == [] then None
    else if names[0] in planeOf && planeOf[names[0]] == plane then Some(names[0])
    else PfOfPlane(names[1..], planeOf, plane)
  }

  /** Where non-local traffic of a pod goes. */
  function Uplink(names: seq<string>, planeOf: map<string, nat>, net: Net, p: Packet): set<string> {
    var own := PfOfPlane(names, planeOf, p.pid);
    if p.preferred == 0 then AnyLive(names, net)
    else if own.Some? && p.strict == 1 then {own.value}
    else if own.Some? && p.strict == 0 && p.preferred == 1 then
      if own.value in net.live then {own.value} else AnyLive(names, net)
    else {}
  }

  /** The forwarding the rules are meant to implement. */
  function Forward(names: seq<string>, planeOf: map<string, nat>, pods: Pods, net: Net, p: Packet): set<string> {
    (match p.kind
     case Arp => if VfOf(pods, p.arpTpa).Some? then {VfOf(pods, p.arpTpa).value} else Elements(names)
     case Ip =>
       if VfOf(pods, p.nwDst).Some? then {VfOf(pods, p.nwDst).value}
       else if IsPodVf(pods, p.inPort) then Uplink(names, planeOf, net, p)
       else {}
     case OtherKind => {}) - {p.inPort}
  }

  /** The packets for which two table-1 rules of equal priority match. */
  predicate Overlaps(names: seq<string>, planeOf: map<string, nat>, pods: Pods, p: Packet) {
    && p.kind.Ip? && VfOf(pods, p.nwDst).None? && IsPodVf(pods, p.inPort)
    && p.strict == 1 && p.preferred == 0 && PfOfPlane(names, planeOf, p.pid).Some?
  }

  // --------------------------------------------------------------------- proof

  lemma {:induction false} PfOfPlaneIs(names: seq<string>, planeOf: map<string, nat>, plane: nat)
    requires ValidPlanes(names, planeOf)
    ensures var own := PfOfPlane(names, planeOf, plane);
            && (own.Some? ==> own.value in names && planeOf[own.value] == plane)
            && (forall n :: n in names && planeOf[n] == plane ==> own == Some(n))
  {
    if names != [] {
      assert names[0] in names;
      assert forall n :: n in names[1..] ==> n in names;
      PfOfPlaneIs(names[1..], planeOf, plane);
      assert forall n :: n in names <==> n == names[0] || n in names[1..];
      forall n | n in names[1..] ensures planeOf[n] != planeOf[names[0]] {
        var i :| 0 <= i < |names[1..]| && names[1..][i] == n;
        assert names[i + 1] == n;
      }
    }
  }

  /** What a key of an installed table can be, and its actions. */
  lemma {:induction false} KeyCases(t: Table, names: seq<string>, planeOf: map<string, nat>, pods: Pods, k: FlowKey)
    requires ValidPlanes(names, planeOf) && Installed(t, names, planeOf, pods) && k in t && !Background(k)
    ensures var a := t[k].actions;
            || (k == ARP_FLOOD && a == Outputs(names))
            || (k == UNPREFERRED && a == [ToGroup(ALL_PLANES)])
            || (exists n :: n in names && k == Preferred(planeOf[n]) && a == [ToGroup(planeOf[n])])
            || (exists n :: n in names && k == Strict(planeOf[n]) && a == [Output(n)])
            || (exists ip :: VfOf(pods, ip).Some? && (k == ArpTo(ip) || k == IpTo(ip)) && a == [Output(VfOf(pods, ip).value)])
            || (exists port :: IsPodVf(pods, port) && k == IpFrom(port) && a == [Resubmit(1)])
  {
    var r := Rule(k, t[k].actions);
    if HostRule(names, planeOf, r) {
      if n :| n in names && r in PfRules(n, planeOf) {
        assert r == PfRules(n, planeOf)[0] || r == PfRules(n, planeOf)[1];
      }
    }
  }

  lemma {:induction false} Table0Arp(t: Table, names: seq<string>, planeOf: map<string, nat>, pods: Pods, p: Packet)
    requires ValidPlanes(names, planeOf) && Installed(t, names, planeOf, pods) && p.kind.Arp?
    ensures Lookup(t, 0, p) == Hit(if VfOf(pods, p.arpTpa).Some? then [Output(VfOf(pods, p.arpTpa).value)] else Outputs(names))
  {
    var k := if VfOf(pods, p.arpTpa).Some? then ArpTo(p.arpTpa) else ARP_FLOOD;
    assert k in t by {
      assert HostRule(names, planeOf, Rule(ARP_FLOOD, Outputs(names)));
      if VfOf(pods, p.arpTpa).Some? {
        assert PodRule(pods, Rule(ArpTo(p.arpTpa), [Output(VfOf(pods, p.arpTpa).value)]));
      }
    }
    forall j | Candidate(t, 0, p, j) && j != k ensures j.priority < k.priority {
      if !Background(j) {
        KeyCases(t, names, planeOf, pods, j);
      }
    }
    WinnerIsHit(t, 0, p, k);
    KeyCases(t, names, planeOf, pods, k);
  }

  /** A packet that matches background flows only is theirs. */
  lemma {:induction false} FallsThrough(t: Table, p: Packet)
    requires forall j :: Candidate(t, 0, p, j) ==> Background(j)
    ensures Lookup(t, 0, p) == Lookup(BackgroundOf(t), 0, p)
  {
    var b := BackgroundOf(t);
    assert forall j :: Candidate(t, 0, p, j) <==> Candidate(b, 0, p, j);
    forall k ensures Wins(t, 0, p, k) <==> Wins(b, 0, p, k) {
    }
    if k :| Wins(t, 0, p, k) {
      WinnerIsHit(t, 0, p, k);
      WinnerIsHit(b, 0, p, k);
    }
  }

  lemma {:induction false} Table0Ip(t: Table, names: seq<string>, planeOf: map<string, nat>, pods: Pods, p: Packet)
    requires ValidPlanes(names, planeOf) && Installed(t, names, planeOf, pods) && p.kind.Ip?
    ensures Lookup(t, 0, p) ==
            if VfOf(pods, p.nwDst).Some? then Hit([Output(VfOf(pods, p.nwDst).value)])
            else if IsPodVf(pods, p.inPort) then Hit([Resubmit(1)])
            else Lookup(BackgroundOf(t), 0, p)
  {
    if VfOf(pods, p.nwDst).Some? || IsPodVf(pods, p.inPort) {
      var k := if VfOf(pods, p.nwDst).Some? then IpTo(p.nwDst) else IpFrom(p.inPort);
      assert k in t by {
        if VfOf(pods, p.nwDst).Some? {
          assert PodRule(pods, Rule(IpTo(p.nwDst), [Output(VfOf(pods, p.nwDst).value)]));
        } else {
          assert PodRule(pods, Rule(IpFrom(p.inPort), [Resubmit(1)]));
        }
      }
      forall j | Candidate(t, 0, p, j) && j != k ensures j.priority < k.priority {
        if !Background(j) {
          KeyCases(t, names, planeOf, pods, j);
        }
      }
      WinnerIsHit(t, 0, p, k);
      KeyCases(t, names, planeOf, pods, k);
    } else {
      forall j | Candidate(t, 0, p, j) ensures Background(j) {
        if !Background(j) {
          KeyCases(t, names, planeOf, pods, j);
        }
      }
      FallsThrough(t, p);
    }
  }

  lemma {:induction false} Table0Other(t: Table, names: seq<string>, planeOf: map<string, nat>, pods: Pods, p: Packet)
    requires ValidPlanes(names, planeOf) && Installed(t, names, planeOf, pods) && p.kind.OtherKind?
    ensures Lookup(t, 0, p) == Lookup(BackgroundOf(t), 0, p)
  {
    forall j | Candidate(t, 0, p, j) ensures Background(j) {
      if !Background(j) {
        KeyCases(t, names, planeOf, pods, j);
      }
    }
    FallsThrough(t, p);
  }

  lemma {:induction false} PlaneKeysPresent(t: Table, names: seq<string>, planeOf: map<string, nat>, pods: Pods, n: string)
    requires ValidPlanes(names, planeOf) && Installed(t, names, planeOf, pods) && n in names
    ensures Preferred(planeOf[n]) in t && t[Preferred(planeOf[n])].actions == [ToGroup(planeOf[n])]
    ensures Strict(planeOf[n]) in t && t[Strict(planeOf[n])].actions == [Output(n)]
  {
    assert PfRules(n, planeOf)[0] in PfRules(n, planeOf) && PfRules(n, planeOf)[1] in PfRules(n, planeOf);
    assert HostRule(names, planeOf, PfRules(n, planeOf)[0]) && HostRule(names, planeOf, PfRules(n, planeOf)[1]);
    KeyCases(t, names, planeOf, pods, Preferred(planeOf[n]));
    KeyCases(t, names, planeOf, pods, Strict(planeOf[n]));
    PfOfPlaneIs(names, planeOf, planeOf[n]);
  }

  lemma {:induction false} UnpreferredPresent(t: Table, names: seq<string>, planeOf: map<string, nat>, pods: Pods)
    requires ValidPlanes(names, planeOf) && Installed(t, names, planeOf, pods)
    ensures UNPREFERRED in t && t[UNPREFERRED].actions == [ToGroup(ALL_PLANES)]
  {
    assert HostRule(names, planeOf, Rule(UNPREFERRED, [ToGroup(ALL_PLANES)]));
    KeyCases(t, names, planeOf, pods, UNPREFERRED);
  }

  lemma {:induction false} Table1Cases(t: Table, names: seq<string>, planeOf: map<string, nat>, pods: Pods, p: Packet, j: FlowKey)
    requires ValidPlanes(names, planeOf) && Installed(t, names, planeOf, pods) && Candidate(t, 1, p, j)
    ensures var own := PfOfPlane(names, planeOf, p.pid);
            || (j == UNPREFERRED && p.preferred == 0)
            || (own.Some? && j == Preferred(p.pid) && p.strict == 0 && p.preferred == 1)
            || (own.Some? && j == Strict(p.pid) && p.strict == 1)
  {
    KeyCases(t, names, planeOf, pods, j);
    PfOfPlaneIs(names, planeOf, p.pid);
  }

  lemma {:induction false} Table1(t: Table, names: seq<string>, planeOf: map<string, nat>, pods: Pods, p: Packet)
    requires ValidPlanes(names, planeOf) && Installed(t, names, planeOf, pods)
    ensures var own := PfOfPlane(names, planeOf, p.pid);
            Lookup(t, 1, p) ==
            if p.preferred == 0 then if p.strict == 1 && own.Some? then Ambiguous else Hit([ToGroup(ALL_PLANES)])
            else if own.Some? && p.strict == 1 then Hit([Output(own.value)])
            else if own.Some? && p.strict == 0 && p.preferred == 1 then Hit([ToGroup(p.pid)])
            else Miss
  {
    var own := PfOfPlane(names, planeOf, p.pid);
    PfOfPlaneIs(names, planeOf, p.pid);
    if own.Some? {
      PlaneKeysPresent(t, names, planeOf, pods, own.value);
    }
    UnpreferredPresent(t, names, planeOf, pods);
    forall j | Candidate(t, 1, p, j)
      ensures || (j == UNPREFERRED && p.preferred == 0)
              || (own.Some? && j == Preferred(p.pid) && p.strict == 0 && p.preferred == 1)
              || (own.Some? && j == Strict(p.pid) && p.strict == 1)
    {
      Table1Cases(t, names, planeOf, pods, p, j);
    }
    if p.preferred == 0 {
      assert Candidate(t, 1, p, UNPREFERRED);
      if p.strict == 1 && own.Some? {
        assert Candidate(t, 1, p, Strict(p.pid));
        assert forall j :: !Wins(t, 1, p, j);
      } else {
        WinnerIsHit(t, 1, p, UNPREFERRED);
      }
    } else if own.Some? && p.strict == 1 {
      assert Candidate(t, 1, p, Strict(p.pid));
      WinnerIsHit(t, 1, p, Strict(p.pid));
    } else if own.Some? && p.strict == 0 && p.preferred == 1 {
      assert Candidate(t, 1, p, Preferred(p.pid));
      WinnerIsHit(t, 1, p, Preferred(p.pid));
    }
  }

  lemma {:induction false} PortBucketsAt(names: seq<string>)
    ensures |PortBuckets(names)| == |names|
    ensures forall i :: 0 <= i < |names| ==> PortBuckets(names)[i] == Bucket(WatchPort(names[i]), [Output(names[i])])
  {
    if names != [] {
      PortBucketsAt(names[1..]);
    }
  }

  lemma {:induction false} LivePortBuckets(c: Context, names: seq<string>, depth: nat)
    ensures LiveBuckets(c, PortBuckets(names), depth) == PortBuckets(LiveNames(names, c.net.live))
    decreases |names|
  {
    if names != [] {
      LivePortBuckets(c, names[1..], depth);
      var first, rest := Bucket(WatchPort(names[0]), [Output(names[0])]), LiveNames(names[1..], c.net.live);
      assert PortBuckets(names) == [first] + PortBuckets(names[1..]);
      assert PortBuckets(names)[1..] == PortBuckets(names[1..]);
      assert PortBuckets([names[0]] + rest) == [first] + PortBuckets(rest) by {
        assert ([names[0]] + rest)[1..] == rest;
      }
      assert [] + rest == rest;
    }
  }

  lemma {:induction false} RunOutput(c: Context, port: string, depth: nat)
    ensures RunActions(c, [Output(port)], depth) == Some({port} - {c.p.inPort})
  {
    assert RunActions(c, [Output(port)][1..], depth) == Some({});
    assert ({port} - {c.p.inPort}) + {} == {port} - {c.p.inPort};
  }

  lemma {:induction false} RunHop(c: Context, a: Action, depth: nat)
    requires depth > 0 && (a.Resubmit? || a.ToGroup?)
    ensures RunActions(c, [a], depth) == if a.Resubmit? then RunTable(c, a.table, depth - 1) else RunGroup(c, a.id, depth - 1)
  {
    assert RunActions(c, [a][1..], depth) == Some({});
    var hop := if a.Resubmit? then RunTable(c, a.table, depth - 1) else RunGroup(c, a.id, depth - 1);
    assert hop.Some? ==> hop.value + {} == hop.value;
  }

  lemma {:induction false} RunFlood(c: Context, names: seq<string>, depth: nat)
    ensures RunActions(c, Outputs(names), depth) == Some(Elements(names) - {c.p.inPort})
    decreases |names|
  {
    if names != [] {
      RunFlood(c, names[1..], depth);
      assert Outputs(names)[1..] == Outputs(names[1..]);
      assert ({names[0]} - {c.p.inPort}) + (Elements(names[1..]) - {c.p.inPort}) == Elements(names) - {c.p.inPort};
    } else {
      assert Elements(names) - {c.p.inPort} == {};
    }
  }

  lemma {:induction false} RunAllPlanes(c: Context, names: seq<string>, planeOf: map<string, nat>, depth: nat)
    requires ValidPlanes(names, planeOf) && GroupsInstalled(c.groups, names, planeOf)
    ensures RunGroup(c, ALL_PLANES, depth) == Some(AnyLive(names, c.net) - {c.p.inPort})
  {
    var alive := LiveNames(names, c.net.live);
    LivePortBuckets(c, names, depth);
    PortBucketsAt(alive);
    if alive != [] {
      RunOutput(c, alive[c.net.hash % |alive|], depth);
    } else {
      assert AnyLive(names, c.net) - {c.p.inPort} == {};
    }
  }

  lemma {:induction false} RunPlane(c: Context, names: seq<string>, planeOf: map<string, nat>, n: string, depth: nat)
    requires ValidPlanes(names, planeOf) && GroupsInstalled(c.groups, names, planeOf) && n in names && depth > 0
    ensures RunGroup(c, planeOf[n], depth) ==
            Some((if n in c.net.live then {n} else AnyLive(names, c.net)) - {c.p.inPort})
  {
    var buckets := PlaneGroup(Pf(n, planeOf[n])).buckets;
    LivePortBuckets(c, names, depth - 1);
    PortBucketsAt(LiveNames(names, c.net.live));
    var second := [buckets[1]];
    assert buckets[1..] == second && second[1..] == [];
    assert LiveBuckets(c, second, depth) == if LiveNames(names, c.net.live) != [] then second else [];
    assert LiveBuckets(c, buckets, depth) == (if n in c.net.live then [buckets[0]] else []) + LiveBuckets(c, second, depth);
    if n !in c.net.live && LiveNames(names, c.net.live) == [] {
      assert AnyLive(names, c.net) - {c.p.inPort} == {};
    }
    RunOutput(c, n, depth);
    RunHop(c, ToGroup(ALL_PLANES), depth);
    RunAllPlanes(c, names, planeOf, depth - 1);
  }

  lemma {:induction false} RunTable1(c: Context, names: seq<string>, planeOf: map<string, nat>, pods: Pods, depth: nat)
    requires ValidPlanes(names, planeOf) && Installed(c.flows, names, planeOf, pods) && GroupsInstalled(c.groups, names, planeOf)
    requires depth >= 2
    ensures RunTable(c, 1, depth) ==
            if c.p.preferred == 0 && c.p.strict == 1 && PfOfPlane(names, planeOf, c.p.pid).Some? then None
            else Some(Uplink(names, planeOf, c.net, c.p) - {c.p.inPort})
  {
    Table1(c.flows, names, planeOf, pods, c.p);
    PfOfPlaneIs(names, planeOf, c.p.pid);
    RunAllPlanes(c, names, planeOf, depth - 1);
    RunHop(c, ToGroup(ALL_PLANES), depth);
    var own := PfOfPlane(names, planeOf, c.p.pid);
    assert {} - {c.p.inPort} == {};
    if own.Some? {
      RunOutput(c, own.value, depth);
      RunHop(c, ToGroup(c.p.pid), depth);
      RunPlane(c, names, planeOf, own.value, depth - 1);
    }
  }

  /** Packets the operator's rules do not claim. */
  predicate Unclaimed(pods: Pods, p: Packet) {
    p.kind.OtherKind? || (p.kind.Ip? && VfOf(pods, p.nwDst).None? && !IsPodVf(pods, p.inPort))
  }

  /** What the background flows alone make of a packet. */
  ghost function RunBackground(c: Context, depth: nat): Option<set<string>> {
    match Lookup(BackgroundOf(c.flows), 0, c.p)
    case Miss => Some({})
    case Ambiguous => None
    case Hit(actions) => RunActions(c, actions, depth)
  }

  /** Without background flows, unclaimed packets are dropped. */
  lemma {:induction false} NoBackgroundDrops(c: Context, depth: nat)
    requires forall k :: k in c.flows ==> !Background(k)
    ensures RunBackground(c, depth) == Some({})
  {
    assert forall k :: !Candidate(BackgroundOf(c.flows), 0, c.p, k);
  }

  /**
   * The composed tables and groups equal the forwarding function on every packet they claim, for
   * any number of allowed hops from three on; they are undefined exactly on the overlapping class,
   * and leave unclaimed packets to the background flows.
   */
  lemma {:induction false} TablesForward(c: Context, names: seq<string>, planeOf: map<string, nat>, pods: Pods, depth: nat)
    requires ValidPlanes(names, planeOf) && Installed(c.flows, names, planeOf, pods) && GroupsInstalled(c.groups, names, planeOf)
    requires depth >= 3
    ensures RunTable(c, 0, depth) ==
            if Overlaps(names, planeOf, pods, c.p) then None
            else if Unclaimed(pods, c.p) then RunBackground(c, depth)
            else Some(Forward(names, planeOf, pods, c.net, c.p))
  {
    assert {} - {c.p.inPort} == {};
    match c.p.kind
    case Arp =>
      Table0Arp(c.flows, names, planeOf, pods, c.p);
      RunFlood(c, names, depth);
      if VfOf(pods, c.p.arpTpa).Some? {
        RunOutput(c, VfOf(pods, c.p.arpTpa).value, depth);
      }
    case Ip =>
      Table0Ip(c.flows, names, planeOf, pods, c.p);
      RunTable1(c, names, planeOf, pods, depth - 1);
      RunHop(c, Resubmit(1), depth);
      if VfOf(pods, c.p.nwDst).Some? {
        RunOutput(c, VfOf(pods, c.p.nwDst).value, depth);
      }
    case OtherKind =>
      Table0Other(c.flows, names, planeOf, pods, c.p);
  }

  // ------------------------------------------------------------------ failover

  lemma {:induction false} LiveNamesAre(names: seq<string>, live: set<string>)
    ensures forall n :: n in LiveNames(names, live) <==> n in names && n in live
  {
    if names != [] {
      LiveNamesAre(names[1..], live);
      assert forall n :: n in names <==> n == names[0] || n in names[1..];
    }
  }

  /** The classes of pod traffic that may leave by another plane than their own. */
  predicate FailsOver(names: seq<string>, planeOf: map<string, nat>, p: Packet) {
    p.preferred == 0 || (p.strict == 0 && p.preferred == 1 && PfOfPlane(names, planeOf, p.pid).Some?)
  }

  lemma {:induction false} UplinkFailsOver(names: seq<string>, planeOf: map<string, nat>, net: Net, p: Packet)
    requires ValidPlanes(names, planeOf) && p.inPort !in names && FailsOver(names, planeOf, p)
    ensures var out := Uplink(names, planeOf, net, p) - {p.inPort};
            && (out == {} <==> forall n :: n in names ==> n !in net.live)
            && (out != {} ==> exists n :: n in names && n in net.live && out == {n})
            && (forall n :: p.preferred == 1 && n in names && planeOf[n] == p.pid && n in net.live ==> out == {n})
  {
    LiveNamesAre(names, net.live);
    PfOfPlaneIs(names, planeOf, p.pid);
    var alive, out := LiveNames(names, net.live), Uplink(names, planeOf, net, p) - {p.inPort};
    if alive == [] {
      assert forall n :: n in names ==> n !in net.live by {
        assert forall n :: n !in alive;
      }
      assert out == {};
    } else {
      var pick := alive[net.hash % |alive|];
      assert pick in alive;
      var own := PfOfPlane(names, planeOf, p.pid);
      var n := if p.preferred != 0 && own.value in net.live then own.value else pick;
      assert out == {n};
    }
  }

  /**
   * Failover, as the tables do it to non-local traffic of a pod: a packet that may fail over leaves
   * by exactly one live PF, its plane's own when it prefers that and it is live, and is dropped only
   * when every PF is down. Strict packets go to their plane's PF, live or not, and packets of an
   * unknown plane nowhere.
   */
  lemma {:induction false} FailoverDelivers(c: Context, names: seq<string>, planeOf: map<string, nat>, pods: Pods, depth: nat)
    requires ValidPlanes(names, planeOf) && Installed(c.flows, names, planeOf, pods) && GroupsInstalled(c.groups, names, planeOf)
    requires depth >= 3 && c.p.inPort !in names
    requires c.p.kind.Ip? && VfOf(pods, c.p.nwDst).None? && IsPodVf(pods, c.p.inPort)
    ensures var out, p, own := RunTable(c, 0, depth), c.p, PfOfPlane(names, planeOf, c.p.pid);
            && (out.None? <==> Overlaps(names, planeOf, pods, p))
            && (out.Some? && FailsOver(names, planeOf, p) ==>
                  && (out.value == {} <==> forall n :: n in names ==> n !in c.net.live)
                  && (out.value != {} ==> exists n :: n in names && n in c.net.live && out.value == {n})
                  && (forall n :: p.preferred == 1 && n in names && planeOf[n] == p.pid && n in c.net.live ==> out.value == {n}))
            && (!FailsOver(names, planeOf, p) ==> out == Some(if own.Some? && p.strict == 1 then {own.value} else {}))
  {
    hide Installed, GroupsInstalled, RunTable, RunBackground;
    TablesForward(c, names, planeOf, pods, depth);
    if FailsOver(names, planeOf, c.p) {
      UplinkFailsOver(names, planeOf, c.net, c.p);
    } else {
      PfOfPlaneIs(names, planeOf, c.p.pid);
      var out := Uplink(names, planeOf, c.net, c.p);
      assert out - {c.p.inPort} == out;
    }
  }
}
