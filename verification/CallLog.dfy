/** What the calls between two states were, and were not. */
module CallLog {
  import opened Basics
  import opened XPlane
  import opened Reconciler

  /** No such call was issued between the two states. */
  ghost predicate Silent(w: World, w': World, op: Op) {
    w.log <= w'.log && forall i :: |w.log| <= i < |w'.log| ==> w'.log[i].op != op
  }

  lemma {:induction false} SilentHere(w: World, op: Op)
    ensures Silent(w, w, op)
  {
  }

  lemma {:induction false} SilentTwice(w: World, w1: World, w2: World, op: Op)
    requires Silent(w, w1, op) && Silent(w1, w2, op)
    ensures Silent(w, w2, op)
  {
    forall i | |w.log| <= i < |w2.log| ensures w2.log[i].op != op {
      assert i < |w1.log| ==> w2.log[i] == w1.log[i];
    }
  }

  lemma {:induction false} CallSilent(w: World, env: Env, issued: Op, op: Op)
    requires issued != op
    ensures Silent(w, Call(w, env, issued).0, op)
  {
    hide Effect;
  }

  // ---------------------------------------- rails are reconciled before any listing

  lemma {:induction false} UplinksNeverList(w: World, env: Env, r: Rail, idx: nat)
    requires idx <= |r.pfs|
    ensures Silent(w, AddUplinks(w, env, r, idx).0, ListPolicies)
    decreases |r.pfs| - idx
  {
    hide Call, Silent;
    SilentHere(w, ListPolicies);
    if idx < |r.pfs| {
      var op := Ovs(UplinkOf(r, idx));
      var w1 := Call(w, env, op).0;
      CallSilent(w, env, op, ListPolicies);
      UplinksNeverList(w1, env, r, idx + 1);
      SilentTwice(w, w1, AddUplinks(w1, env, r, idx + 1).0, ListPolicies);
    }
  }

  lemma {:induction false} CheckNeverLists(w: World, env: Env, nodes: seq<string>)
    ensures Silent(w, CheckNodes(w, env, nodes).0, ListPolicies)
    decreases |nodes|
  {
    hide Call, Silent;
    SilentHere(w, ListPolicies);
    if nodes != [] {
      var w1 := Call(w, env, GetSriovState(nodes[0])).0;
      CallSilent(w, env, GetSriovState(nodes[0]), ListPolicies);
      CheckNeverLists(w1, env, nodes[1..]);
      SilentTwice(w, w1, CheckNodes(w1, env, nodes[1..]).0, ListPolicies);
    }
  }

  /** A call after a silent stretch. */
  lemma {:induction false} ThenCall(w: World, w1: World, env: Env, issued: Op, op: Op)
    requires Silent(w, w1, op) && issued != op
    ensures Silent(w, Call(w1, env, issued).0, op)
  {
    hide Call, Silent;
    CallSilent(w1, env, issued, op);
    SilentTwice(w, w1, Call(w1, env, issued).0, op);
  }

  lemma {:induction false} BridgesNeverList(w: World, env: Env, r: Rail)
    ensures Silent(w, CreateXPlaneBridges(w, env, r).0, ListPolicies)
  {
    hide Call, Silent, AddUplinks;
    var op1, op2 := Ovs(AddBr(XPlaneBridge, Secure)), Ovs(AddBr(RailBridge(r.name), Standalone));
    var w1 := Call(w, env, op1).0;
    var w2 := Call(w1, env, op2).0;
    var w3 := AddUplinks(w2, env, r, 0).0;
    CallSilent(w, env, op1, ListPolicies);
    ThenCall(w, w1, env, op2, ListPolicies);
    UplinksNeverList(w2, env, r, 0);
    SilentTwice(w, w2, w3, ListPolicies);
    ThenCall(w, w3, env, Ovs(AddPatch(r.name, r.mtu)), ListPolicies);
  }

  lemma {:induction false} PrepareNeverLists(w: World, env: Env)
    ensures Silent(w, PrepareXPlane(w, env).0, ListPolicies)
  {
    hide Call, Silent, CheckNodes;
    var w1 := Call(w, env, InstallHook).0;
    var w2 := Call(w1, env, ListNodes).0;
    CallSilent(w, env, InstallHook, ListPolicies);
    ThenCall(w, w1, env, ListNodes, ListPolicies);
    CheckNeverLists(w2, env, env.poolNodes);
    SilentTwice(w, w2, CheckNodes(w2, env, env.poolNodes).0, ListPolicies);
  }

  lemma {:induction false} XPlaneNeverLists(w: World, env: Env, r: Rail)
    ensures Silent(w, ConfigureXPlane(w, env, r).0, ListPolicies)
  {
    hide Call, Silent, PrepareXPlane, CreateXPlaneBridges, PfsInSwitchdev;
    var w1 := PrepareXPlane(w, env).0;
    var w2 := CreateXPlaneBridges(w1, env, r).0;
    PrepareNeverLists(w, env);
    BridgesNeverList(w1, env, r);
    SilentTwice(w, w1, w2, ListPolicies);
    ThenCall(w, w2, env, DeployXPlane, ListPolicies);
  }

  lemma {:induction false} ApplyNeverLists(w: World, env: Env, cfg: Config, r: Rail)
    ensures Silent(w, ApplyRail(w, env, cfg, r).0, ListPolicies)
  {
    hide Call, Silent, Primary, Secondary;
    SilentHere(w, ListPolicies);
    if r.pfs != [] {
      var op1, op2 := ApplyPolicy(r.name, Primary(cfg, r)), ApplyPolicy(r.name + UNUSED, Secondary(cfg, r));
      var w1 := Call(w, env, op1).0;
      CallSilent(w, env, op1, ListPolicies);
      ThenCall(w, w1, env, op2, ListPolicies);
      var w2 := if Multiplane(r) then Call(w1, env, op2).0 else w1;
      ThenCall(w, w2, env, GetCidrPool(r.name), ListPolicies);
      var w3 := if r.cidrPoolRef then Call(w2, env, GetCidrPool(r.name)).0 else w2;
      ThenCall(w, w3, env, ApplyNetwork(r.name), ListPolicies);
    }
  }

  lemma {:induction false} RailsNeverList(w: World, env: Env, cfg: Config, rails: seq<Rail>)
    ensures Silent(w, ReconcileRails(w, env, cfg, rails).0, ListPolicies)
    decreases |rails|
  {
    hide ApplyRail, ConfigureXPlane, Silent;
    SilentHere(w, ListPolicies);
    if rails != [] {
      var r := rails[0];
      var w0 := ApplyRail(w, env, cfg, r).0;
      ApplyNeverLists(w, env, cfg, r);
      XPlaneNeverLists(w0, env, r);
      SilentTwice(w, w0, ConfigureXPlane(w0, env, r).0, ListPolicies);
      var w1 := ReconcileRail(w, env, cfg, r).0;
      RailsNeverList(w1, env, cfg, rails[1..]);
      SilentTwice(w, w1, ReconcileRails(w1, env, cfg, rails[1..]).0, ListPolicies);
    }
  }

  // ------------------------------------------------- each rail is removed once

  /** The call was issued at most once between the two states. */
  ghost predicate AtMostOnce(w: World, w': World, op: Op) {
    w.log <= w'.log && forall i, j :: |w.log| <= i < j < |w'.log| ==> !(w'.log[i].op == op && w'.log[j].op == op)
  }

  lemma {:induction false} OnceInParts(w: World, w1: World, w2: World, op: Op)
    requires (Silent(w, w1, op) && AtMostOnce(w1, w2, op)) || (AtMostOnce(w, w1, op) && Silent(w1, w2, op))
    ensures AtMostOnce(w, w2, op)
  {
    forall i, j | |w.log| <= i < j < |w2.log| ensures !(w2.log[i].op == op && w2.log[j].op == op) {
      assert i < |w1.log| ==> w2.log[i] == w1.log[i];
      assert j < |w1.log| ==> w2.log[j] == w1.log[j];
    }
  }

  /** Removing a rail deletes its network at most once, and no other network. */
  lemma {:induction false} RemoveRailOnce(w: World, env: Env, rail: string, multiplane: bool, x: string)
    ensures var w' := RemoveRail(w, env, rail, multiplane).0;
            AtMostOnce(w, w', DeleteNetwork(x)) && (rail != x ==> Silent(w, w', DeleteNetwork(x)))
  {
    hide Call, Silent, AtMostOnce;
    var op := DeleteNetwork(x);
    SilentHere(w, op);
    var a := Call(w, env, Ovs(DelBr(RailBridge(rail)))).0;
    ThenCall(w, w, env, Ovs(DelBr(RailBridge(rail))), op);
    ThenCall(w, a, env, Ovs(DelBr(XPlaneBridge)), op);
    var w0 := if multiplane then CleanupXPlaneBridges(w, env, rail).0 else w;
    var w1 := Call(w0, env, DeletePolicy(rail)).0;
    var w2 := Call(w1, env, DeletePolicy(rail + UNUSED)).0;
    ThenCall(w, w0, env, DeletePolicy(rail), op);
    ThenCall(w, w1, env, DeletePolicy(rail + UNUSED), op);
    OneCall(w2, env, DeleteNetwork(rail), op);
    OnceInParts(w, w2, Call(w2, env, DeleteNetwork(rail)).0, op);
    if rail != x {
      ThenCall(w, w2, env, DeleteNetwork(rail), op);
    }
    SilentIsOnce(w, RemoveRail(w, env, rail, multiplane).0, op);
  }

  lemma {:induction false} OneCall(w: World, env: Env, issued: Op, op: Op)
    ensures AtMostOnce(w, Call(w, env, issued).0, op)
  {
    hide Effect;
  }

  lemma {:induction false} SilentIsOnce(w: World, w': World, op: Op)
    ensures Silent(w, w', op) ==> AtMostOnce(w, w', op)
  {
  }

  /** However many policies of a rail are listed, its resources are deleted at most once, and not again if it was done before. */
  lemma {:induction false} RemovedOnce(w: World, env: Env, listed: seq<(string, Policy)>, current: set<string>, removed: set<string>, x: string)
    ensures var w' := RemoveRails(w, env, listed, current, removed).0;
            && AtMostOnce(w, w', DeleteNetwork(x))
            && (x in current || x in removed ==> Silent(w, w', DeleteNetwork(x)))
    decreases |listed|
  {
    hide RemoveRail, RailOf, Silent, AtMostOnce;
    var op := DeleteNetwork(x);
    SilentHere(w, op);
    SilentIsOnce(w, w, op);
    if listed != [] {
      var rail, multiplane := RailOf(listed[0].0, listed[0].1), MultiplanePolicy(listed[0].1);
      if rail in current || rail in removed {
        RemovedOnce(w, env, listed[1..], current, removed, x);
      } else {
        RemoveRailOnce(w, env, rail, multiplane, x);
        var (w1, e) := RemoveRail(w, env, rail, multiplane);
        if e.None? {
          var w2 := RemoveRails(w1, env, listed[1..], current, removed + {rail}).0;
          RemovedOnce(w1, env, listed[1..], current, removed + {rail}, x);
          OnceInParts(w, w1, w2, op);
          if x in current || x in removed {
            SilentTwice(w, w1, w2, op);
          }
        }
      }
    }
  }

  // ------------------------------------------------------- errors of a removal

  /** An error that removing a rail can end in. */
  predicate RemovalError(e: Error) {
    e.CallFailed? && (e.op.DeletePolicy? || e.op.DeleteNetwork? || (e.op.Ovs? && e.op.c.DelBr?))
  }

  lemma {:induction false} RemoveRailErrors(w: World, env: Env, rail: string, multiplane: bool)
    ensures var e := RemoveRail(w, env, rail, multiplane).1; e.Some? ==> RemovalError(e.value)
  {
    hide Call;
  }

  lemma {:induction false} RemoveRailsErrors(w: World, env: Env, listed: seq<(string, Policy)>, current: set<string>, removed: set<string>)
    ensures var e := RemoveRails(w, env, listed, current, removed).1; e.Some? ==> RemovalError(e.value)
    decreases |listed|
  {
    hide RemoveRail, RailOf, RemovalError;
    if listed != [] {
      var rail, multiplane := RailOf(listed[0].0, listed[0].1), MultiplanePolicy(listed[0].1);
      if rail in current || rail in removed {
        RemoveRailsErrors(w, env, listed[1..], current, removed);
      } else {
        RemoveRailErrors(w, env, rail, multiplane);
        RemoveRailsErrors(RemoveRail(w, env, rail, multiplane).0, env, listed[1..], current, removed + {rail});
      }
    }
  }

  lemma {:induction false} DeleteRailsErrors(w: World, env: Env, rails: seq<Rail>)
    ensures var e := DeleteRails(w, env, rails).1; e.Some? ==> RemovalError(e.value)
    decreases |rails|
  {
    hide RemoveRail, RemovalError;
    if rails != [] {
      RemoveRailErrors(w, env, rails[0].name, Multiplane(rails[0]));
      DeleteRailsErrors(RemoveRail(w, env, rails[0].name, Multiplane(rails[0])).0, env, rails[1..]);
    }
  }

  /** Removal starts with the listing, and every error of it is of a listing or a removal. */
  lemma {:induction false} DeleteRemovedLists(w: World, env: Env, cfg: Config)
    ensures var (w', e) := DeleteRemovedRails(w, env, cfg);
            && |w'.log| > |w.log| && w'.log[|w.log|].op == ListPolicies
            && (e.Some? ==> e.value == CallFailed(ListPolicies) || RemovalError(e.value))
  {
    hide Effect, RemoveRails, RemovalError;
    var w1 := Call(w, env, ListPolicies).0;
    RemoveRailsErrors(w1, env, OwnedAmong(w1.policies, cfg.name, env.order(w1.policies.Keys)), RailNames(cfg.rails), {});
  }
}
