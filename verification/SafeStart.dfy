/** The hook that strips DOCA uplinks before ovs-vswitchd starts, and why that is harmless. */
module SafeStart {
  import opened Basics
  import opened XPlane

  predicate DocaUplink(i: Iface) {
    i.kind == Doca && i.uplink
  }

  /** del-port: from whichever bridge has it. */
  function DelPorts(db: Db, gone: set<PortName>): Db {
    map b | b in db :: db[b].(ports := db[b].ports - gone)
  }

  /** The port is a netdev whose PF is in switchdev mode. */
  predicate MayStay(port: PortName, mode: map<string, string>) {
    port.NetDev? && port.name in mode && mode[port.name] == "switchdev"
  }

  /** The ports the hook goes for and whose deletion, the n-th port's being deletes(n), succeeds. */
  function Doomed(found: seq<PortName>, mode: map<string, string>, deletes: nat -> bool): set<PortName> {
    set n | 0 <= n < |found| && !MayStay(found[n], mode) && deletes(n) :: found[n]
  }

  /**
   * The loop of the hook over the interfaces that `find` printed; a PF without a netdev has no
   * mode. A failed del-port is ignored.
   */
  method StripUplinks(db: Db, found: seq<PortName>, mode: map<string, string>, deletes: nat -> bool) returns (db': Db)
    ensures db' == DelPorts(db, Doomed(found, mode, deletes))
  {
    db' := db;
    assert DelPorts(db, Doomed([], mode, deletes)) == db by {
      assert forall b :: b in db ==> db[b].ports - Doomed([], mode, deletes) == db[b].ports;
    }
    for n := 0 to |found|
      invariant db' == DelPorts(db, Doomed(found[..n], mode, deletes))
    {
      var current := "";
      if found[n].NetDev? && found[n].name in mode {
        current := mode[found[n].name];
      }
      ghost var before, after := Doomed(found[..n], mode, deletes), Doomed(found[..n + 1], mode, deletes);
      assert after == before + if !MayStay(found[n], mode) && deletes(n) then {found[n]} else {};
      if current != "switchdev" {
        if deletes(n) {
          db' := DelPorts(db', {found[n]});
          assert forall b :: b in db ==> db[b].ports - before - {found[n]} == db[b].ports - after;
          assert db' == DelPorts(db, after);
        } else {
          assert after == before;
        }
      } else {
        assert after == before;
      }
    }
    assert found[..|found|] == found;
  }

  /** `found` lists exactly the DOCA uplinks of the database. */
  ghost predicate FindsUplinks(db: Db, found: seq<PortName>) {
    forall b, p :: b in db && p in db[b].ports ==> (db[b].ports[p].kind == Doca && db[b].ports[p].uplink <==> p in found)
  }

  /** After an error-free run every DOCA uplink left is on a PF in switchdev, and no other port changed. */
  lemma {:induction false} StripIsSafe(db: Db, found: seq<PortName>, mode: map<string, string>, deletes: nat -> bool)
    requires FindsUplinks(db, found) && forall n: nat :: n < |found| ==> deletes(n)
    ensures var db' := DelPorts(db, Doomed(found, mode, deletes));
            && db'.Keys == db.Keys
            && (forall b, p :: b in db && p in db'[b].ports ==>
                  p in db[b].ports && db'[b].ports[p] == db[b].ports[p]
                  && (DocaUplink(db'[b].ports[p]) ==> p.NetDev? && p.name in mode && mode[p.name] == "switchdev"))
            && (forall b, p :: b in db && p in db[b].ports ==>
                  (p in db'[b].ports <==> !DocaUplink(db[b].ports[p]) || (p.NetDev? && p.name in mode && mode[p.name] == "switchdev")))
  {
    var gone := Doomed(found, mode, deletes);
    forall p ensures p in gone <==> p in found && !MayStay(p, mode) {
      if p in found && !MayStay(p, mode) {
        var n :| 0 <= n < |found| && found[n] == p;
        assert found[n] in gone;
      }
    }
  }

  // ------------------------------------------------------------ transparency

  /** The stripped ports were plain uplinks of br-xplane. */
  ghost predicate PlainUplinks(db: Db, gone: set<PortName>) {
    && (forall p :: p in gone ==> p.NetDev?)
    && (forall p, b :: p in gone && b in db && p in db[b].ports ==>
          b == XPlaneBridge && db[b].ports[p].peer == None && !db[b].ports[p].downlink)
  }

  function Restored(c: Command): set<PortName> {
    if c.AddUplink? then {NetDev(c.pf)} else {}
  }

  lemma {:induction false} ElsewhereStripped(db: Db, gone: set<PortName>, b: BridgeName, p: PortName)
    requires PlainUplinks(db, gone) && (p in gone ==> b == XPlaneBridge)
    ensures Elsewhere(DelPorts(db, gone), b, p) <==> Elsewhere(db, b, p)
  {
    if Elsewhere(db, b, p) {
      var x :| x in db && x != b && p in db[x].ports;
      assert p in DelPorts(db, gone)[x].ports;
    }
  }

  /** One command on the stripped and the full database: the port it restores is no longer missing. */
  lemma {:induction false} StepAgrees(db: Db, gone: set<PortName>, c: Command)
    requires PlainUplinks(db, gone) && !c.DelBr?
    ensures Apply(db, c).None? <==> Apply(DelPorts(db, gone), c).None?
    ensures Apply(db, c).Some? ==>
              && PlainUplinks(Apply(db, c).value, gone - Restored(c))
              && Apply(DelPorts(db, gone), c) == Some(DelPorts(Apply(db, c).value, gone - Restored(c)))
  {
    hide Apply, DelPorts, PlainUplinks;
    assert gone - {} == gone;
    match c
    case AddBr(_, _) => BridgeAgrees(db, gone, c);
    case AddUplink(_, _, _, _) => UplinkAgrees(db, gone, c);
    case AddPatch(_, _) => PatchAgrees(db, gone, c);
  }

  lemma {:induction false} BridgeAgrees(db: Db, gone: set<PortName>, c: Command)
    requires PlainUplinks(db, gone) && c.AddBr?
    ensures Apply(db, c).Some? && PlainUplinks(Apply(db, c).value, gone)
    ensures Apply(DelPorts(db, gone), c) == Some(DelPorts(Apply(db, c).value, gone))
  {
    var left, right := Apply(DelPorts(db, gone), c).value, DelPorts(Apply(db, c).value, gone);
    assert left.Keys == right.Keys;
    var none: map<PortName, Iface> := map[];
    assert none - gone == none;
    assert left == right;
  }

  lemma {:induction false} UplinkPorts(db: Db, gone: set<PortName>, c: Command)
    requires PlainUplinks(db, gone) && c.AddUplink? && XPlaneBridge in db
    ensures var p, d := NetDev(c.pf), DelPorts(db, gone);
            d[XPlaneBridge].ports[p := UplinkSettings(Current(d, XPlaneBridge, p), c.mtu, c.planeId, c.groupId)] ==
            db[XPlaneBridge].ports[p := UplinkSettings(Current(db, XPlaneBridge, p), c.mtu, c.planeId, c.groupId)] - (gone - {p})
  {
  }

  lemma {:induction false} UplinkAgrees(db: Db, gone: set<PortName>, c: Command)
    requires PlainUplinks(db, gone) && c.AddUplink?
    ensures var rest := gone - {NetDev(c.pf)};
            && (Apply(db, c).None? <==> Apply(DelPorts(db, gone), c).None?)
            && (Apply(db, c).Some? ==>
                  && PlainUplinks(Apply(db, c).value, rest)
                  && Apply(DelPorts(db, gone), c) == Some(DelPorts(Apply(db, c).value, rest)))
  {
    var p := NetDev(c.pf);
    ElsewhereStripped(db, gone, XPlaneBridge, p);
    if Apply(db, c).Some? {
      var left, right := Apply(DelPorts(db, gone), c).value, DelPorts(Apply(db, c).value, gone - {p});
      UplinkPorts(db, gone, c);
      assert forall b :: b in db && b != XPlaneBridge ==> db[b].ports - gone == db[b].ports - (gone - {p});
      assert left == right;
    }
  }

  lemma {:induction false} SetPortStripped(db: Db, gone: set<PortName>, b: BridgeName, p: PortName, i: Iface)
    requires b in db && p !in gone
    ensures b in DelPorts(db, gone) && SetPort(DelPorts(db, gone), b, p, i) == DelPorts(SetPort(db, b, p, i), gone)
  {
    assert (db[b].ports - gone)[p := i] == db[b].ports[p := i] - gone;
    assert SetPort(DelPorts(db, gone), b, p, i).Keys == DelPorts(SetPort(db, b, p, i), gone).Keys;
  }

  lemma {:induction false} PatchAgrees(db: Db, gone: set<PortName>, c: Command)
    requires PlainUplinks(db, gone) && c.AddPatch?
    ensures Apply(db, c).None? <==> Apply(DelPorts(db, gone), c).None?
    ensures Apply(db, c).Some? ==>
              PlainUplinks(Apply(db, c).value, gone) && Apply(DelPorts(db, gone), c) == Some(DelPorts(Apply(db, c).value, gone))
  {
    var d, xp, rp := DelPorts(db, gone), PatchToRail(c.rail), PatchToXPlane(c.rail);
    ElsewhereStripped(db, gone, XPlaneBridge, xp);
    ElsewhereStripped(db, gone, RailBridge(c.rail), rp);
    if Apply(db, c).Some? {
      assert xp !in gone && rp !in gone;
      var x, y := XPlanePatch(Current(db, XPlaneBridge, xp), c.rail, c.mtu), RailPatch(Current(db, RailBridge(c.rail), rp), c.rail, c.mtu);
      assert Current(d, XPlaneBridge, xp) == Current(db, XPlaneBridge, xp);
      assert Current(d, RailBridge(c.rail), rp) == Current(db, RailBridge(c.rail), rp);
      SetPortStripped(db, gone, XPlaneBridge, xp, x);
      SetPortStripped(SetPort(db, XPlaneBridge, xp, x), gone, RailBridge(c.rail), rp, y);
    }
  }

  function RestoredBy(cmds: seq<Command>): set<PortName> {
    if cmds == [] then {} else Restored(cmds[0]) + RestoredBy(cmds[1..])
  }

  lemma {:induction false} RunAgrees(db: Db, gone: set<PortName>, cmds: seq<Command>)
    requires PlainUplinks(db, gone) && forall c :: c in cmds ==> !c.DelBr?
    ensures RunAll(db, cmds).None? <==> RunAll(DelPorts(db, gone), cmds).None?
    ensures RunAll(db, cmds).Some? ==>
              RunAll(DelPorts(db, gone), cmds) == Some(DelPorts(RunAll(db, cmds).value, gone - RestoredBy(cmds)))
    decreases |cmds|
  {
    if cmds == [] {
      assert gone - {} == gone;
    } else {
      assert cmds[0] in cmds;
      assert forall c :: c in cmds[1..] ==> c in cmds;
      StepAgrees(db, gone, cmds[0]);
      if Apply(db, cmds[0]).Some? {
        RunAgrees(Apply(db, cmds[0]).value, gone - Restored(cmds[0]), cmds[1..]);
        assert gone - Restored(cmds[0]) - RestoredBy(cmds[1..]) == gone - RestoredBy(cmds);
      }
    }
  }

  lemma {:induction false} RestoredByHas(cmds: seq<Command>, c: Command)
    requires c in cmds
    ensures Restored(c) <= RestoredBy(cmds)
  {
    if c != cmds[0] {
      assert c in cmds[1..];
      RestoredByHas(cmds[1..], c);
    }
  }

  /** Every stripped port is an uplink of some multiplane rail of the pool. */
  ghost predicate OfRails(gone: set<PortName>, rails: seq<Rail>) {
    forall p :: p in gone ==> (
      && p.NetDev?
      && exists i, k :: 0 <= i < |rails| && Multiplane(rails[i]) && 0 <= k < |rails[i].pfs| && rails[i].pfs[k] == p.name)
  }

  /** Once the PFs are back, a completed pass gives the same database as if nothing had been stripped. */
  lemma {:induction false} StripIsTransparent(db: Db, gone: set<PortName>, rails: seq<Rail>)
    requires PlainUplinks(db, gone) && OfRails(gone, rails)
    ensures RunAll(DelPorts(db, gone), Program(rails)) == RunAll(db, Program(rails))
  {
    var cmds := Program(rails);
    forall c | c in cmds ensures !c.DelBr? {
      ProgramIs(rails, c);
    }
    RunAgrees(db, gone, cmds);
    forall p | p in gone ensures p in RestoredBy(cmds) {
      var i, k :| 0 <= i < |rails| && Multiplane(rails[i]) && 0 <= k < |rails[i].pfs| && rails[i].pfs[k] == p.name;
      assert RailCommand(rails[i], UplinkOf(rails[i], k));
      ProgramIs(rails, UplinkOf(rails[i], k));
      RestoredByHas(cmds, UplinkOf(rails[i], k));
    }
    assert gone - RestoredBy(cmds) == {};
    if RunAll(db, cmds).Some? {
      var after := RunAll(db, cmds).value;
      assert forall b :: b in after ==> after[b].ports - {} == after[b].ports;
      assert DelPorts(after, {}) == after;
    }
  }
}
