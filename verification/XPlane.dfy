/** The bridges and ports createXPlaneBridges maintains in the OVS database of one node. */
module XPlane {
  import opened Basics

  /** A rail topology: its PFs in order, its MTU and the switch plane it belongs to. */
  datatype Rail = Rail(name: string, pfs: seq<string>, mtu: int, swPlane: nat, cidrPoolRef: bool)

  predicate Multiplane(r: Rail) {
    |r.pfs| > 1
  }

  /** br-xplane, br-rail-NAME, and bridges of others. */
  datatype BridgeName = XPlaneBridge | RailBridge(rail: string) | OtherBridge(name: string)

  /** A netdev, and the two ends of the patch between br-xplane and a rail bridge. */
  datatype PortName = NetDev(name: string) | PatchToRail(rail: string) | PatchToXPlane(rail: string)

  datatype Kind = Doca | PatchKind | SystemKind

  datatype Iface = Iface(
    kind: Kind, mtu: int, planeId: Option<nat>, groupId: Option<string>, uplink: bool, downlink: bool, peer: Option<PortName>)

  datatype FailMode = Secure | Standalone

  datatype Bridge = Bridge(failMode: FailMode, ports: map<PortName, Iface>)

  type Db = map<BridgeName, Bridge>

  datatype Command =
    | AddBr(bridge: BridgeName, failMode: FailMode)
    | AddUplink(pf: string, mtu: int, planeId: nat, groupId: string)
    | AddPatch(rail: string, mtu: int)
    | DelBr(bridge: BridgeName)

  const NEW_IFACE := Iface(SystemKind, 0, None, None, false, false, None)

  /** The interface a port already has on the bridge, or a new one. */
  function Current(db: Db, b: BridgeName, port: PortName): Iface {
    if b in db && port in db[b].ports then db[b].ports[port] else NEW_IFACE
  }

  predicate Elsewhere(db: Db, b: BridgeName, port: PortName) {
    exists x :: x in db && x != b && port in db[x].ports
  }

  function SetPort(db: Db, b: BridgeName, port: PortName, i: Iface): Db
    requires b in db
  {
    db[b := db[b].(ports := db[b].ports[port := i])]
  }

  function UplinkSettings(i: Iface, mtu: int, planeId: nat, groupId: string): Iface {
    i.(kind := Doca, mtu := mtu, planeId := Some(planeId), groupId := Some(groupId), uplink := true)
  }

  function XPlanePatch(i: Iface, rail: string, mtu: int): Iface {
    i.(kind := PatchKind, peer := Some(PatchToXPlane(rail)), mtu := mtu, groupId := Some(rail), downlink := true)
  }

  function RailPatch(i: Iface, rail: string, mtu: int): Iface {
    i.(kind := PatchKind, peer := Some(PatchToRail(rail)), mtu := mtu)
  }

  /** The effect of a command; None when ovs-vsctl refuses it. */
  function Apply(db: Db, c: Command): Option<Db> {
    match c
    case AddBr(b, mode) =>
      Some(db[b := if b in db then db[b].(failMode := mode) else Bridge(mode, map[])])
    case AddUplink(pf, mtu, planeId, groupId) =>
      if XPlaneBridge !in db || Elsewhere(db, XPlaneBridge, NetDev(pf)) then None
      else Some(SetPort(db, XPlaneBridge, NetDev(pf), UplinkSettings(Current(db, XPlaneBridge, NetDev(pf)), mtu, planeId, groupId)))
    case AddPatch(rail, mtu) =>
      var xp, rp := PatchToRail(rail), PatchToXPlane(rail);
      if XPlaneBridge !in db || RailBridge(rail) !in db || Elsewhere(db, XPlaneBridge, xp) || Elsewhere(db, RailBridge(rail), rp) then None
      else
        var db1 := SetPort(db, XPlaneBridge, xp, XPlanePatch(Current(db, XPlaneBridge, xp), rail, mtu));
        Some(SetPort(db1, RailBridge(rail), rp, RailPatch(Current(db, RailBridge(rail), rp), rail, mtu)))
    case DelBr(b) => Some(db - {b})
  }

  function RunAll(db: Db, cmds: seq<Command>): Option<Db>
    decreases |cmds|
  {
    if cmds == [] then Some(db)
    else match Apply(db, cmds[0])
      case None => None
      case Some(db1) => RunAll(db1, cmds[1..])
  }

  lemma {:induction false} RunAllSplit(db: Db, c1: seq<Command>, c2: seq<Command>)
    ensures RunAll(db, c1 + c2) == if RunAll(db, c1).None? then None else RunAll(RunAll(db, c1).value, c2)
    decreases |c1|
  {
    if c1 == [] {
      assert c1 + c2 == c2;
    } else {
      assert (c1 + c2)[1..] == c1[1..] + c2;
      if Apply(db, c1[0]).Some? {
        RunAllSplit(Apply(db, c1[0]).value, c1[1..], c2);
      }
    }
  }

  // ------------------------------------------------------------- plane ids

  /** The plane id of the idx-th PF. */
  function PlaneId(r: Rail, idx: nat): nat {
    |r.pfs| * r.swPlane + idx
  }

  /** A rail's plane ids fill the block [n * swPlane, n * swPlane + n), in PF order. */
  lemma {:induction false} PlaneIdBlock(r: Rail, id: nat)
    ensures |r.pfs| * r.swPlane <= id < |r.pfs| * r.swPlane + |r.pfs| <==>
            exists idx: nat :: idx < |r.pfs| && PlaneId(r, idx) == id
    ensures forall i: nat, j: nat :: i < j < |r.pfs| ==> PlaneId(r, i) < PlaneId(r, j)
  {
    if |r.pfs| * r.swPlane <= id < |r.pfs| * r.swPlane + |r.pfs| {
      assert PlaneId(r, id - |r.pfs| * r.swPlane) == id;
    }
  }

  lemma {:induction false} MulStep(n: nat, a: nat, b: nat)
    requires a < b
    ensures n * a + n <= n * b
  {
    var d := b - a - 1;
    assert n * b == n * (a + 1 + d) == n * a + n + n * d;
  }

  /** Rails with as many PFs on different switch planes share no plane id. */
  lemma {:induction false} PlaneIdsDisjoint(r: Rail, q: Rail, i: nat, j: nat)
    requires |r.pfs| == |q.pfs| && r.swPlane != q.swPlane && i < |r.pfs| && j < |q.pfs|
    ensures PlaneId(r, i) != PlaneId(q, j)
  {
    if r.swPlane < q.swPlane {
      MulStep(|r.pfs|, r.swPlane, q.swPlane);
    } else {
      MulStep(|r.pfs|, q.swPlane, r.swPlane);
    }
  }

  /** Two rails share a plane id if and only if their blocks overlap, each starting before the other ends. */
  lemma {:induction false} PlaneIdsMeetIff(r: Rail, q: Rail)
    ensures (exists i: nat, j: nat :: i < |r.pfs| && j < |q.pfs| && PlaneId(r, i) == PlaneId(q, j))
       <==> && r.pfs != [] && q.pfs != []
            && |r.pfs| * r.swPlane < |q.pfs| * q.swPlane + |q.pfs|
            && |q.pfs| * q.swPlane < |r.pfs| * r.swPlane + |r.pfs|
  {
    var a, b := |r.pfs| * r.swPlane, |q.pfs| * q.swPlane;
    if r.pfs != [] && q.pfs != [] && a < b + |q.pfs| && b < a + |r.pfs| {
      var id := if a < b then b else a;
      PlaneIdBlock(r, id);
      PlaneIdBlock(q, id);
    }
  }

  /** Different PF counts can meet, for example two PFs on plane 1 and four on plane 0. */
  lemma {:induction false} PlaneIdsCanMeet(r: Rail, q: Rail)
    requires |r.pfs| == 2 && r.swPlane == 1 && |q.pfs| == 4 && q.swPlane == 0
    ensures PlaneId(r, 0) == PlaneId(q, 2)
  {
  }

  // ------------------------------------------------------------ the program

  function UplinkOf(r: Rail, idx: nat): Command
    requires idx < |r.pfs|
  {
    AddUplink(r.pfs[idx], r.mtu, PlaneId(r, idx), r.name)
  }

  function UplinksFrom(r: Rail, idx: nat): seq<Command>
    requires idx <= |r.pfs|
    decreases |r.pfs| - idx
  {
    if idx == |r.pfs| then [] else [UplinkOf(r, idx)] + UplinksFrom(r, idx + 1)
  }

  /** createXPlaneBridges when no command fails. */
  function RailProgram(r: Rail): seq<Command> {
    [AddBr(XPlaneBridge, Secure), AddBr(RailBridge(r.name), Standalone)] + UplinksFrom(r, 0) + [AddPatch(r.name, r.mtu)]
  }

  function Program(rails: seq<Rail>): seq<Command> {
    if rails == [] then []
    else (if Multiplane(rails[0]) then RailProgram(rails[0]) else []) + Program(rails[1..])
  }

  /** The command leaves the setting it establishes as it is. */
  ghost predicate Holds(db: Db, c: Command) {
    Apply(db, c) == Some(db)
  }

  ghost predicate AllHold(db: Db, cmds: seq<Command>) {
    forall c :: c in cmds ==> Holds(db, c)
  }

  /** What a configured rail looks like. */
  ghost predicate Configured(db: Db, r: Rail) {
    && XPlaneBridge in db && db[XPlaneBridge].failMode == Secure
    && RailBridge(r.name) in db && db[RailBridge(r.name)].failMode == Standalone
    && (forall idx :: 0 <= idx < |r.pfs| ==>
          && NetDev(r.pfs[idx]) in db[XPlaneBridge].ports
          && var i := db[XPlaneBridge].ports[NetDev(r.pfs[idx])];
             i.kind == Doca && i.uplink && i.mtu == r.mtu && i.planeId == Some(|r.pfs| * r.swPlane + idx) && i.groupId == Some(r.name))
    && PatchToRail(r.name) in db[XPlaneBridge].ports
    && PatchToXPlane(r.name) in db[RailBridge(r.name)].ports
    && var x, p := db[XPlaneBridge].ports[PatchToRail(r.name)], db[RailBridge(r.name)].ports[PatchToXPlane(r.name)];
       && x.kind == PatchKind && x.peer == Some(PatchToXPlane(r.name)) && x.mtu == r.mtu && x.groupId == Some(r.name) && x.downlink
       && p.kind == PatchKind && p.peer == Some(PatchToRail(r.name)) && p.mtu == r.mtu
  }

  /** Two commands that never fight over a setting. */
  ghost predicate Compatible(c: Command, d: Command) {
    match c
    case AddBr(b, mode) => !d.DelBr? && (d.AddBr? && d.bridge == b ==> d.failMode == mode)
    case AddUplink(pf, _, _, _) => !d.DelBr? && (d.AddUplink? && d.pf == pf ==> c == d)
    case AddPatch(rail, mtu) => !d.DelBr? && (d.AddPatch? && d.rail == rail ==> c == d)
    case DelBr(_) => false
  }

  lemma {:induction false} SetPortSame(db: Db, b: BridgeName, port: PortName)
    requires b in db && port in db[b].ports
    ensures SetPort(db, b, port, db[b].ports[port]) == db
  {
    assert db[b].ports[port := db[b].ports[port]] == db[b].ports;
    assert db[b := db[b]] == db;
  }

  /** A command establishes its own setting. */
  lemma {:induction false} ApplyHolds(db: Db, c: Command)
    requires Apply(db, c).Some? && !c.DelBr?
    ensures Holds(Apply(db, c).value, c)
  {
    var db' := Apply(db, c).value;
    match c
    case AddBr(b, mode) =>
      assert db'[b := db'[b].(failMode := mode)] == db';
    case AddUplink(pf, mtu, planeId, groupId) =>
      assert !Elsewhere(db', XPlaneBridge, NetDev(pf));
      SetPortSame(db', XPlaneBridge, NetDev(pf));
    case AddPatch(rail, mtu) =>
      var xp, rp := PatchToRail(rail), PatchToXPlane(rail);
      assert !Elsewhere(db', XPlaneBridge, xp) && !Elsewhere(db', RailBridge(rail), rp);
      SetPortSame(db', XPlaneBridge, xp);
      SetPortSame(db', RailBridge(rail), rp);
  }

  /** What a held command says about the database. */
  lemma {:induction false} HeldAddBr(db: Db, b: BridgeName, mode: FailMode)
    ensures Holds(db, AddBr(b, mode)) <==> b in db && db[b].failMode == mode
  {
    var after := Apply(db, AddBr(b, mode)).value;
    assert after[b].failMode == mode;
    if b in db && db[b].failMode == mode {
      assert db[b].(failMode := mode) == db[b];
      assert db[b := db[b]] == db;
    }
  }

  ghost predicate UplinkSet(db: Db, c: Command)
    requires c.AddUplink?
  {
    && XPlaneBridge in db && NetDev(c.pf) in db[XPlaneBridge].ports && !Elsewhere(db, XPlaneBridge, NetDev(c.pf))
    && var i := db[XPlaneBridge].ports[NetDev(c.pf)]; UplinkSettings(i, c.mtu, c.planeId, c.groupId) == i
  }

  lemma {:induction false} HeldUplink(db: Db, c: Command)
    requires c.AddUplink?
    ensures Holds(db, c) <==> UplinkSet(db, c)
  {
    if Apply(db, c).Some? {
      var db' := Apply(db, c).value;
      var i := Current(db, XPlaneBridge, NetDev(c.pf));
      assert db'[XPlaneBridge].ports[NetDev(c.pf)] == UplinkSettings(i, c.mtu, c.planeId, c.groupId);
      if UplinkSet(db, c) {
        SetPortSame(db, XPlaneBridge, NetDev(c.pf));
      }
    }
  }

  ghost predicate PatchSet(db: Db, c: Command)
    requires c.AddPatch?
  {
    && XPlaneBridge in db && RailBridge(c.rail) in db
    && PatchToRail(c.rail) in db[XPlaneBridge].ports && !Elsewhere(db, XPlaneBridge, PatchToRail(c.rail))
    && PatchToXPlane(c.rail) in db[RailBridge(c.rail)].ports && !Elsewhere(db, RailBridge(c.rail), PatchToXPlane(c.rail))
    && var x, y := db[XPlaneBridge].ports[PatchToRail(c.rail)], db[RailBridge(c.rail)].ports[PatchToXPlane(c.rail)];
       XPlanePatch(x, c.rail, c.mtu) == x && RailPatch(y, c.rail, c.mtu) == y
  }

  lemma {:induction false} HeldPatch(db: Db, c: Command)
    requires c.AddPatch?
    ensures Holds(db, c) <==> PatchSet(db, c)
  {
    if Apply(db, c).Some? {
      var db' := Apply(db, c).value;
      var xp, rp := PatchToRail(c.rail), PatchToXPlane(c.rail);
      var x, y := Current(db, XPlaneBridge, xp), Current(db, RailBridge(c.rail), rp);
      assert db'[XPlaneBridge].ports[xp] == XPlanePatch(x, c.rail, c.mtu);
      assert db'[RailBridge(c.rail)].ports[rp] == RailPatch(y, c.rail, c.mtu);
      if PatchSet(db, c) {
        SetPortSame(db, XPlaneBridge, xp);
        SetPortSame(db, RailBridge(c.rail), rp);
      }
    }
  }

  lemma {:induction false} UplinkKept(db: Db, c: Command, d: Command)
    requires c.AddUplink? && UplinkSet(db, c) && c != d && Compatible(c, d) && Apply(db, d).Some?
    ensures UplinkSet(Apply(db, d).value, c)
  {
  }

  lemma {:induction false} PatchKept(db: Db, c: Command, d: Command)
    requires c.AddPatch? && PatchSet(db, c) && c != d && Compatible(c, d) && Apply(db, d).Some?
    ensures PatchSet(Apply(db, d).value, c)
  {
  }

  /** A compatible command keeps what another established. */
  lemma {:induction false} CompatibleKeeps(db: Db, c: Command, d: Command)
    requires Holds(db, c) && Compatible(c, d) && Apply(db, d).Some?
    ensures Holds(Apply(db, d).value, c)
  {
    hide Holds, UplinkSet, PatchSet;
    var db' := Apply(db, d).value;
    if c == d {
      ApplyHolds(db, c);
    } else {
      match c
      case AddBr(b, mode) =>
        HeldAddBr(db, b, mode);
        HeldAddBr(db', b, mode);
      case AddUplink(_, _, _, _) =>
        HeldUplink(db, c);
        UplinkKept(db, c, d);
        HeldUplink(db', c);
      case AddPatch(_, _) =>
        HeldPatch(db, c);
        PatchKept(db, c, d);
        HeldPatch(db', c);
    }
  }

  ghost predicate AllCompatible(cmds: seq<Command>) {
    forall c, d :: c in cmds && d in cmds ==> Compatible(c, d)
  }

  lemma {:induction false} RunKeeps(db: Db, cmds: seq<Command>, c: Command)
    requires Holds(db, c) && (forall d :: d in cmds ==> Compatible(c, d)) && RunAll(db, cmds).Some?
    ensures Holds(RunAll(db, cmds).value, c)
    decreases |cmds|
  {
    if cmds != [] {
      CompatibleKeeps(db, c, cmds[0]);
      RunKeeps(Apply(db, cmds[0]).value, cmds[1..], c);
    }
  }

  /** After a run of compatible commands every one of them holds. */
  lemma {:induction false} RunEstablishes(db: Db, cmds: seq<Command>)
    requires AllCompatible(cmds) && RunAll(db, cmds).Some?
    ensures AllHold(RunAll(db, cmds).value, cmds)
    decreases |cmds|
  {
    if cmds != [] {
      var db1 := Apply(db, cmds[0]).value;
      assert cmds[0] in cmds && Compatible(cmds[0], cmds[0]);
      assert forall c :: c in cmds[1..] ==> c in cmds;
      ApplyHolds(db, cmds[0]);
      RunKeeps(db1, cmds[1..], cmds[0]);
      RunEstablishes(db1, cmds[1..]);
      assert forall c :: c in cmds <==> c == cmds[0] || c in cmds[1..];
    }
  }

  /** A run whose settings all hold already changes nothing. */
  lemma {:induction false} RunIdle(db: Db, cmds: seq<Command>)
    requires AllHold(db, cmds)
    ensures RunAll(db, cmds) == Some(db)
    decreases |cmds|
  {
    if cmds != [] {
      assert cmds[0] in cmds;
      assert forall c :: c in cmds[1..] ==> c in cmds;
      RunIdle(db, cmds[1..]);
    }
  }

  // ------------------------------------------------------- the rails' program

  /** Rail names are distinct and no PF serves two uplinks. */
  ghost predicate DistinctRails(rails: seq<Rail>) {
    && (forall i, j :: 0 <= i < j < |rails| ==> rails[i].name != rails[j].name)
    && (forall i, j, a, b ::
          0 <= i < |rails| && 0 <= j < |rails| && 0 <= a < |rails[i].pfs| && 0 <= b < |rails[j].pfs| ==>
          rails[i].pfs[a] == rails[j].pfs[b] ==> i == j && a == b)
  }

  lemma {:induction false} UplinksAre(r: Rail, idx: nat, c: Command)
    requires idx <= |r.pfs|
    ensures c in UplinksFrom(r, idx) <==> exists k :: idx <= k < |r.pfs| && c == UplinkOf(r, k)
    decreases |r.pfs| - idx
  {
    if idx < |r.pfs| {
      UplinksAre(r, idx + 1, c);
      assert c in UplinksFrom(r, idx) <==> c == UplinkOf(r, idx) || c in UplinksFrom(r, idx + 1);
    }
  }

  /** The commands of one rail, one by one. */
  ghost predicate RailCommand(r: Rail, c: Command) {
    || c == AddBr(XPlaneBridge, Secure)
    || c == AddBr(RailBridge(r.name), Standalone)
    || (exists k :: 0 <= k < |r.pfs| && c == UplinkOf(r, k))
    || c == AddPatch(r.name, r.mtu)
  }

  lemma {:induction false} RailProgramIs(r: Rail, c: Command)
    ensures c in RailProgram(r) <==> RailCommand(r, c)
  {
    UplinksAre(r, 0, c);
  }

  lemma {:induction false} ProgramIs(rails: seq<Rail>, c: Command)
    ensures c in Program(rails) <==> exists i :: 0 <= i < |rails| && Multiplane(rails[i]) && RailCommand(rails[i], c)
  {
    if rails != [] {
      ProgramIs(rails[1..], c);
      RailProgramIs(rails[0], c);
      if i :| 0 <= i < |rails| && Multiplane(rails[i]) && RailCommand(rails[i], c) {
        assert i > 0 ==> rails[1..][i - 1] == rails[i];
      }
      if j :| 0 <= j < |rails[1..]| && Multiplane(rails[1..][j]) && RailCommand(rails[1..][j], c) {
        assert rails[j + 1] == rails[1..][j];
      }
    }
  }

  /** Commands of two rails of the pool do not fight. */
  lemma {:induction false} RailsCompatible(rails: seq<Rail>, i: nat, j: nat, c: Command, d: Command)
    requires DistinctRails(rails) && i < |rails| && j < |rails|
    requires RailCommand(rails[i], c) && RailCommand(rails[j], d)
    ensures Compatible(c, d)
  {
    if c.AddUplink? {
      if d.AddUplink? && c.pf == d.pf {
        var a :| 0 <= a < |rails[i].pfs| && c == UplinkOf(rails[i], a);
        var b :| 0 <= b < |rails[j].pfs| && d == UplinkOf(rails[j], b);
        assert rails[i].pfs[a] == rails[j].pfs[b];
      }
    } else if c.AddPatch? {
      assert d.AddPatch? && d.rail == c.rail ==> i == j;
    }
  }

  lemma {:induction false} ProgramCompatible(rails: seq<Rail>)
    requires DistinctRails(rails)
    ensures AllCompatible(Program(rails))
  {
    forall c, d | c in Program(rails) && d in Program(rails) ensures Compatible(c, d) {
      ProgramIs(rails, c);
      ProgramIs(rails, d);
      var i :| 0 <= i < |rails| && Multiplane(rails[i]) && RailCommand(rails[i], c);
      var j :| 0 <= j < |rails| && Multiplane(rails[j]) && RailCommand(rails[j], d);
      RailsCompatible(rails, i, j, c, d);
    }
  }

  lemma {:induction false} RailIsConfigured(db: Db, r: Rail)
    requires AllHold(db, RailProgram(r))
    ensures Configured(db, r)
  {
    hide RailProgram, Holds;
    forall c | RailCommand(r, c) ensures Holds(db, c) {
      RailProgramIs(r, c);
    }
    HeldAddBr(db, XPlaneBridge, Secure);
    HeldAddBr(db, RailBridge(r.name), Standalone);
    forall k | 0 <= k < |r.pfs| ensures UplinkSet(db, AddUplink(r.pfs[k], r.mtu, PlaneId(r, k), r.name)) {
      assert RailCommand(r, UplinkOf(r, k));
      HeldUplink(db, UplinkOf(r, k));
    }
    assert RailCommand(r, AddPatch(r.name, r.mtu));
    HeldPatch(db, AddPatch(r.name, r.mtu));
  }

  lemma {:induction false} HeldIsConfigured(db: Db, rails: seq<Rail>, i: nat)
    requires AllHold(db, Program(rails)) && i < |rails| && Multiplane(rails[i])
    ensures Configured(db, rails[i])
  {
    hide Holds, Configured;
    var r := rails[i];
    forall c | c in RailProgram(r) ensures Holds(db, c) {
      RailProgramIs(r, c);
      ProgramIs(rails, c);
    }
    RailIsConfigured(db, r);
  }

  /** One completed run configures every multiplane rail, and running again changes nothing. */
  lemma {:induction false} ProgramConverges(db: Db, rails: seq<Rail>)
    requires DistinctRails(rails) && RunAll(db, Program(rails)).Some?
    ensures var db' := RunAll(db, Program(rails)).value;
            && (forall i :: 0 <= i < |rails| && Multiplane(rails[i]) ==> Configured(db', rails[i]))
            && RunAll(db', Program(rails)) == Some(db')
  {
    var db' := RunAll(db, Program(rails)).value;
    ProgramCompatible(rails);
    RunEstablishes(db, Program(rails));
    RunIdle(db', Program(rails));
    forall i | 0 <= i < |rails| && Multiplane(rails[i]) ensures Configured(db', rails[i]) {
      HeldIsConfigured(db', rails, i);
    }
  }

  // -------------------------------------------------- when the program can run

  /** The one bridge the program puts a port on. */
  function Home(port: PortName): BridgeName {
    match port
    case NetDev(_) => XPlaneBridge
    case PatchToRail(_) => XPlaneBridge
    case PatchToXPlane(rail) => RailBridge(rail)
  }

  /** Another bridge holds the port. */
  ghost predicate Astray(db: Db, port: PortName) {
    Elsewhere(db, Home(port), port)
  }

  lemma {:induction false} ApplyKeepsAstray(db: Db, c: Command, port: PortName)
    requires Apply(db, c).Some? && !c.DelBr?
    ensures Astray(Apply(db, c).value, port) <==> Astray(db, port)
  {
    var db', b := Apply(db, c).value, Home(port);
    if Astray(db, port) {
      var x :| x in db && x != b && port in db[x].ports;
      assert x in db' && port in db'[x].ports;
    }
    if Astray(db', port) {
      var x :| x in db' && x != b && port in db'[x].ports;
      assert x in db && port in db[x].ports;
    }
  }

  /** The ports of the command are free to be placed. */
  ghost predicate Fits(db: Db, c: Command) {
    match c
    case AddUplink(pf, _, _, _) => !Astray(db, NetDev(pf))
    case AddPatch(rail, _) => !Astray(db, PatchToRail(rail)) && !Astray(db, PatchToXPlane(rail))
    case _ => true
  }

  ghost predicate AllFit(db: Db, cmds: seq<Command>) {
    forall c :: c in cmds ==> Fits(db, c)
  }

  /** The bridges a command needs. */
  predicate BridgesThere(db: Db, c: Command) {
    match c
    case AddUplink(_, _, _, _) => XPlaneBridge in db
    case AddPatch(rail, _) => XPlaneBridge in db && RailBridge(rail) in db
    case _ => true
  }

  lemma {:induction false} RunKeepsFits(db: Db, cmds: seq<Command>, c: Command)
    requires RunAll(db, cmds).Some? && forall d :: d in cmds ==> !d.DelBr?
    ensures Fits(RunAll(db, cmds).value, c) <==> Fits(db, c)
    decreases |cmds|
  {
    hide Astray, Apply;
    if cmds != [] {
      var d := cmds[0];
      assert d in cmds;
      assert forall x :: x in cmds[1..] ==> x in cmds;
      forall port ensures Astray(Apply(db, d).value, port) <==> Astray(db, port) {
        ApplyKeepsAstray(db, d, port);
      }
      RunKeepsFits(Apply(db, d).value, cmds[1..], c);
    }
  }

  lemma {:induction false} RunsIff(db: Db, cmds: seq<Command>)
    requires forall c :: c in cmds ==> !c.DelBr? && BridgesThere(db, c)
    ensures RunAll(db, cmds).Some? <==> AllFit(db, cmds)
    decreases |cmds|
  {
    if cmds != [] {
      var d := cmds[0];
      assert d in cmds;
      assert forall c :: c in cmds <==> c == d || c in cmds[1..];
      StepsIff(db, d);
      if Apply(db, d).Some? {
        var db1 := Apply(db, d).value;
        assert db.Keys <= db1.Keys;
        forall c ensures Fits(db1, c) <==> Fits(db, c) {
          RunOneFits(db, d, c);
        }
        RunsIff(db1, cmds[1..]);
      }
    }
  }

  lemma {:induction false} StepsIff(db: Db, c: Command)
    requires !c.DelBr? && BridgesThere(db, c)
    ensures Apply(db, c).Some? <==> Fits(db, c)
  {
  }

  lemma {:induction false} RunOneFits(db: Db, d: Command, c: Command)
    requires Apply(db, d).Some? && !d.DelBr?
    ensures Fits(Apply(db, d).value, c) <==> Fits(db, c)
  {
    hide Apply;
    assert [d][1..] == [];
    RunKeepsFits(db, [d], c);
  }

  lemma {:induction false} RailRunsIff(db: Db, r: Rail)
    ensures RunAll(db, RailProgram(r)).Some? <==> AllFit(db, RailProgram(r))
  {
    var c1, c2 := AddBr(XPlaneBridge, Secure), AddBr(RailBridge(r.name), Standalone);
    var rest := UplinksFrom(r, 0) + [AddPatch(r.name, r.mtu)];
    var db1 := Apply(db, c1).value;
    var db2 := Apply(db1, c2).value;
    assert RailProgram(r) == [c1, c2] + rest;
    assert [c1, c2][1..] == [c2] && [c2][1..] == [];
    assert RunAll(db1, [c2]) == Some(db2);
    assert RunAll(db, [c1, c2]) == Some(db2);
    RunAllSplit(db, [c1, c2], rest);
    forall c | c in rest ensures !c.DelBr? && BridgesThere(db2, c) {
      UplinksAre(r, 0, c);
    }
    RunsIff(db2, rest);
    forall c ensures Fits(db2, c) <==> Fits(db, c) {
      RunKeepsFits(db, [c1, c2], c);
    }
    assert forall c :: c in RailProgram(r) <==> c == c1 || c == c2 || c in rest;
  }

  /** The commands of all rails can complete if and only if no other bridge holds one of their ports. */
  lemma {:induction false} ProgramRunsIff(db: Db, rails: seq<Rail>)
    ensures RunAll(db, Program(rails)).Some? <==> AllFit(db, Program(rails))
    decreases |rails|
  {
    hide RailProgram, Fits;
    if rails != [] {
      var own, rest := if Multiplane(rails[0]) then RailProgram(rails[0]) else [], Program(rails[1..]);
      RailRunsIff(db, rails[0]);
      RunAllSplit(db, own, rest);
      if RunAll(db, own).Some? {
        var db1 := RunAll(db, own).value;
        ProgramRunsIff(db1, rails[1..]);
        forall d | d in own ensures !d.DelBr? {
          RailProgramIs(rails[0], d);
        }
        forall c ensures Fits(db1, c) <==> Fits(db, c) {
          RunKeepsFits(db, own, c);
        }
      }
      assert forall c :: c in Program(rails) <==> c in own || c in rest;
    }
  }
}
