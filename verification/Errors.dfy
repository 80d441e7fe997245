/** Which failures of calls a pass tolerates, and where its errors come from. */
module Errors {
  import opened Basics
  import opened NodeStates
  import opened XPlane
  import opened Reconciler
  import opened CallLog

  /** A failure that is only logged: of a port command or a bridge deletion, and not a timeout. */
  predicate Tolerated(ev: Event) {
    ev.op.Ovs? && !ev.op.c.AddBr? && ev.outcome.Fail?
  }

  /**
   * Nil means that every call since w succeeded, but for tolerated failures; and an error that names
   * a call names one that failed.
   */
  ghost predicate Faithful(w: World, w': World, e: Option<Error>) {
    && w.log <= w'.log
    && (e.None? ==> forall i :: |w.log| <= i < |w'.log| ==> w'.log[i].outcome.Ok? || Tolerated(w'.log[i]))
    && (e.Some? && e.value.CallFailed? ==> FailedSince(w, w', e.value.op))
  }

  ghost predicate FailedSince(w: World, w': World, op: Op) {
    exists i :: |w.log| <= i < |w'.log| && w'.log[i].op == op && !w'.log[i].outcome.Ok?
  }

  lemma {:induction false} Here(w: World)
    ensures Faithful(w, w, None)
  {
  }

  lemma {:induction false} Then(w: World, w1: World, w2: World, e: Option<Error>)
    requires Faithful(w, w1, None) && Faithful(w1, w2, e)
    ensures Faithful(w, w2, e)
  {
    forall i | |w.log| <= i < |w2.log| && e.None? ensures w2.log[i].outcome.Ok? || Tolerated(w2.log[i]) {
      assert i < |w1.log| ==> w2.log[i] == w1.log[i];
    }
  }

  /** An error stays one, whatever is called after it. */
  lemma {:induction false} Later(w: World, w1: World, w2: World, e: Error)
    requires Faithful(w, w1, Some(e)) && w1.log <= w2.log
    ensures Faithful(w, w2, Some(e))
  {
    if e.CallFailed? {
      var i :| |w.log| <= i < |w1.log| && w1.log[i].op == e.op && !w1.log[i].outcome.Ok?;
      assert w2.log[i] == w1.log[i];
    }
  }

  lemma {:induction false} FaithfulTry(w: World, env: Env, op: Op)
    ensures Faithful(w, Try(w, env, op).0, Try(w, env, op).1)
  {
    hide Effect;
    var w1 := Call(w, env, op).0;
    assert w1.log[|w.log|].op == op;
  }

  lemma {:induction false} FaithfulTryOvs(w: World, env: Env, c: Command)
    requires !c.AddBr?
    ensures Faithful(w, TryOvs(w, env, c).0, TryOvs(w, env, c).1)
  {
    hide Effect;
    var w1 := Call(w, env, Ovs(c)).0;
    assert w1.log[|w.log|].op == Ovs(c);
  }

  /** A further call after a stretch without an error. */
  lemma {:induction false} ThenTry(w: World, w1: World, env: Env, op: Op)
    requires Faithful(w, w1, None)
    ensures Faithful(w, Try(w1, env, op).0, Try(w1, env, op).1)
  {
    hide Try, Faithful;
    FaithfulTry(w1, env, op);
    Then(w, w1, Try(w1, env, op).0, Try(w1, env, op).1);
  }

  lemma {:induction false} ThenTryOvs(w: World, w1: World, env: Env, c: Command)
    requires Faithful(w, w1, None) && !c.AddBr?
    ensures Faithful(w, TryOvs(w1, env, c).0, TryOvs(w1, env, c).1)
  {
    hide TryOvs, Faithful;
    FaithfulTryOvs(w1, env, c);
    Then(w, w1, TryOvs(w1, env, c).0, TryOvs(w1, env, c).1);
  }

  lemma {:induction false} FaithfulUplinks(w: World, w1: World, env: Env, r: Rail, idx: nat)
    requires Faithful(w, w1, None) && idx <= |r.pfs|
    ensures Faithful(w, AddUplinks(w1, env, r, idx).0, AddUplinks(w1, env, r, idx).1)
    decreases |r.pfs| - idx
  {
    hide TryOvs, Faithful;
    if idx < |r.pfs| {
      ThenTryOvs(w, w1, env, UplinkOf(r, idx));
      var (w2, e) := TryOvs(w1, env, UplinkOf(r, idx));
      if e.None? {
        FaithfulUplinks(w, w2, env, r, idx + 1);
      }
    }
  }

  lemma {:induction false} FaithfulBridges(w: World, w0: World, env: Env, r: Rail)
    requires Faithful(w, w0, None)
    ensures Faithful(w, CreateXPlaneBridges(w0, env, r).0, CreateXPlaneBridges(w0, env, r).1)
  {
    hide Try, TryOvs, AddUplinks, Faithful;
    var op1, op2 := Ovs(AddBr(XPlaneBridge, Secure)), Ovs(AddBr(RailBridge(r.name), Standalone));
    ThenTry(w, w0, env, op1);
    var (w1, e1) := Try(w0, env, op1);
    if e1.None? {
      ThenTry(w, w1, env, op2);
      var (w2, e2) := Try(w1, env, op2);
      if e2.None? {
        FaithfulUplinks(w, w2, env, r, 0);
        var (w3, e3) := AddUplinks(w2, env, r, 0);
        if e3.None? {
          ThenTryOvs(w, w3, env, AddPatch(r.name, r.mtu));
        }
      }
    }
  }

  lemma {:induction false} FaithfulNodes(w: World, w1: World, env: Env, nodes: seq<string>)
    requires Faithful(w, w1, None)
    ensures Faithful(w, CheckNodes(w1, env, nodes).0, CheckNodes(w1, env, nodes).2)
    decreases |nodes|
  {
    hide Try, Faithful;
    if nodes != [] {
      ThenTry(w, w1, env, GetSriovState(nodes[0]));
      var (w2, e) := Try(w1, env, GetSriovState(nodes[0]));
      if e.None? {
        FaithfulNodes(w, w2, env, nodes[1..]);
      }
    }
  }

  lemma {:induction false} FaithfulXPlane(w: World, w0: World, env: Env, r: Rail)
    requires Faithful(w, w0, None)
    ensures Faithful(w, ConfigureXPlane(w0, env, r).0, ConfigureXPlane(w0, env, r).1)
  {
    hide Try, CheckNodes, CreateXPlaneBridges, Faithful, Ready;
    ThenTry(w, w0, env, InstallHook);
    var (w1, e1) := Try(w0, env, InstallHook);
    if e1.None? {
      ThenTry(w, w1, env, ListNodes);
      var (w2, e2) := Try(w1, env, ListNodes);
      if e2.None? {
        FaithfulNodes(w, w2, env, env.poolNodes);
        var (w3, found, e3) := CheckNodes(w2, env, env.poolNodes);
        if e3.None? {
          FaithfulBridges(w, w3, env, r);
          var (w4, e4) := CreateXPlaneBridges(w3, env, r);
          if e4.None? {
            ThenTry(w, w4, env, DeployXPlane);
          }
        }
      }
    }
  }

  lemma {:induction false} FaithfulApply(w: World, w0: World, env: Env, cfg: Config, r: Rail)
    requires Faithful(w, w0, None)
    ensures Faithful(w, ApplyRail(w0, env, cfg, r).0, ApplyRail(w0, env, cfg, r).1)
  {
    if r.pfs != [] {
      hide Try, Faithful, Primary, Secondary;
      var op1, op2 := ApplyPolicy(r.name, Primary(cfg, r)), ApplyPolicy(r.name + UNUSED, Secondary(cfg, r));
      ThenTry(w, w0, env, op1);
      var (w1, e1) := Try(w0, env, op1);
      if e1.None? {
        ThenTry(w, w1, env, op2);
        var (w2, e2) := if Multiplane(r) then Try(w1, env, op2) else (w1, None);
        if e2.None? {
          ThenTry(w, w2, env, GetCidrPool(r.name));
          var (w3, e3) := if r.cidrPoolRef then Try(w2, env, GetCidrPool(r.name)) else (w2, None);
          if e3.None? {
            ThenTry(w, w3, env, ApplyNetwork(r.name));
          }
        }
      }
    }
  }

  lemma {:induction false} FaithfulRails(w: World, w0: World, env: Env, cfg: Config, rails: seq<Rail>)
    requires Faithful(w, w0, None)
    ensures Faithful(w, ReconcileRails(w0, env, cfg, rails).0, ReconcileRails(w0, env, cfg, rails).1)
    decreases |rails|
  {
    hide ApplyRail, ConfigureXPlane, Faithful;
    if rails != [] {
      var r := rails[0];
      FaithfulApply(w, w0, env, cfg, r);
      var (w1, e1) := ApplyRail(w0, env, cfg, r);
      if e1.None? {
        FaithfulXPlane(w, w1, env, r);
        var (w2, e2) := ReconcileRail(w0, env, cfg, r);
        if e2.None? {
          FaithfulRails(w, w2, env, cfg, rails[1..]);
        }
      }
    }
  }

  lemma {:induction false} FaithfulRemoval(w: World, w0: World, env: Env, rail: string, multiplane: bool)
    requires Faithful(w, w0, None)
    ensures Faithful(w, RemoveRail(w0, env, rail, multiplane).0, RemoveRail(w0, env, rail, multiplane).1)
  {
    hide Try, TryOvs, Faithful;
    FaithfulCleanup(w, w0, env, rail);
    var (w1, e1) := if multiplane then CleanupXPlaneBridges(w0, env, rail) else (w0, None);
    if e1.None? {
      ThenTry(w, w1, env, DeletePolicy(rail));
      var (w2, e2) := Try(w1, env, DeletePolicy(rail));
      if e2.None? {
        ThenTry(w, w2, env, DeletePolicy(rail + UNUSED));
        var (w3, e3) := Try(w2, env, DeletePolicy(rail + UNUSED));
        if e3.None? {
          ThenTry(w, w3, env, DeleteNetwork(rail));
        }
      }
    }
  }

  lemma {:induction false} FaithfulCleanup(w: World, w0: World, env: Env, rail: string)
    requires Faithful(w, w0, None)
    ensures Faithful(w, CleanupXPlaneBridges(w0, env, rail).0, CleanupXPlaneBridges(w0, env, rail).1)
  {
    hide TryOvs, Faithful;
    ThenTryOvs(w, w0, env, DelBr(RailBridge(rail)));
    var (w1, e1) := TryOvs(w0, env, DelBr(RailBridge(rail)));
    if e1.None? {
      ThenTryOvs(w, w1, env, DelBr(XPlaneBridge));
    }
  }

  lemma {:induction false} FaithfulRemovals(w: World, w0: World, env: Env, listed: seq<(string, Policy)>, current: set<string>, removed: set<string>)
    requires Faithful(w, w0, None)
    ensures Faithful(w, RemoveRails(w0, env, listed, current, removed).0, RemoveRails(w0, env, listed, current, removed).1)
    decreases |listed|
  {
    hide RemoveRail, RailOf, Faithful;
    if listed != [] {
      var rail, multiplane := RailOf(listed[0].0, listed[0].1), MultiplanePolicy(listed[0].1);
      if rail in current || rail in removed {
        FaithfulRemovals(w, w0, env, listed[1..], current, removed);
      } else {
        FaithfulRemoval(w, w0, env, rail, multiplane);
        var (w1, e1) := RemoveRail(w0, env, rail, multiplane);
        if e1.None? {
          FaithfulRemovals(w, w1, env, listed[1..], current, removed + {rail});
        }
      }
    }
  }

  lemma {:induction false} FaithfulDeletions(w: World, w0: World, env: Env, rails: seq<Rail>)
    requires Faithful(w, w0, None)
    ensures Faithful(w, DeleteRails(w0, env, rails).0, DeleteRails(w0, env, rails).1)
    decreases |rails|
  {
    hide RemoveRail, Faithful;
    if rails != [] {
      FaithfulRemoval(w, w0, env, rails[0].name, Multiplane(rails[0]));
      var (w1, e1) := RemoveRail(w0, env, rails[0].name, Multiplane(rails[0]));
      if e1.None? {
        FaithfulDeletions(w, w1, env, rails[1..]);
      }
    }
  }

  lemma {:induction false} FaithfulStatus(w: World, w0: World, env: Env, cfg: Config)
    requires Faithful(w, w0, None)
    ensures Faithful(w, ProcessNodeStatus(w0, env, cfg).0, ProcessNodeStatus(w0, env, cfg).1)
  {
    hide Try, Faithful;
    if env.selected {
      ThenTry(w, w0, env, GetSriovState(env.node));
      var (w1, e1) := Try(w0, env, GetSriovState(env.node));
      if e1.None? {
        ThenTry(w, w1, env, PatchStatus(NodeState(env.node, NodeVerdict(env), "", cfg.generation)));
      }
    }
  }

  lemma {:induction false} FaithfulFailure(w: World, w0: World, env: Env, cfg: Config, err: Error, context: string)
    requires Faithful(w, w0, Some(err))
    ensures Faithful(w, FailReconcile(w0, env, cfg, err, context).0, FailReconcile(w0, env, cfg, err, context).1)
  {
    hide Patch, Faithful;
    Later(w, w0, FailReconcile(w0, env, cfg, err, context).0, err);
  }

  lemma {:induction false} FaithfulConfigure(w: World, w0: World, env: Env, cfg: Config)
    requires Faithful(w, w0, None)
    ensures Faithful(w, Configure(w0, env, cfg).0, Configure(w0, env, cfg).1)
  {
    hide Try, ReconcileRails, DeleteRemovedRails, ProcessNodeStatus, FailReconcile, Faithful;
    if cfg.rails == [] {
      NotACall(w, w0, NoRails);
      FaithfulFailure(w, w0, env, cfg, NoRails, "");
    } else {
      ThenTry(w, w0, env, ApplyPool);
      var (w1, e1) := Try(w0, env, ApplyPool);
      if e1.Some? {
        FaithfulFailure(w, w1, env, cfg, e1.value, "");
      } else {
        FaithfulRails(w, w1, env, cfg, cfg.rails);
        var (w2, e2) := ReconcileRails(w1, env, cfg, cfg.rails);
        if e2.Some? {
          FaithfulFailure(w, w2, env, cfg, e2.value, "");
        } else {
          FaithfulRemoved(w, w2, env, cfg);
          var (w3, e3) := DeleteRemovedRails(w2, env, cfg);
          if e3.Some? {
            FaithfulFailure(w, w3, env, cfg, e3.value, REMOVED_FAILED);
          } else {
            FaithfulStatus(w, w3, env, cfg);
            var (w4, e4) := ProcessNodeStatus(w3, env, cfg);
            if e4.Some? {
              FaithfulFailure(w, w4, env, cfg, e4.value, STATUS_FAILED);
            }
          }
        }
      }
    }
  }

  lemma {:induction false} FaithfulRemoved(w: World, w0: World, env: Env, cfg: Config)
    requires Faithful(w, w0, None)
    ensures Faithful(w, DeleteRemovedRails(w0, env, cfg).0, DeleteRemovedRails(w0, env, cfg).1)
  {
    hide Try, RemoveRails, Faithful;
    ThenTry(w, w0, env, ListPolicies);
    var (w1, e1) := Try(w0, env, ListPolicies);
    if e1.None? {
      FaithfulRemovals(w, w1, env, OwnedAmong(w1.policies, cfg.name, env.order(w1.policies.Keys)), RailNames(cfg.rails), {});
    }
  }

  lemma {:induction false} NotACall(w: World, w': World, e: Error)
    requires Faithful(w, w', None) && !e.CallFailed?
    ensures Faithful(w, w', Some(e))
  {
  }

  lemma {:induction false} FaithfulDeletion(w: World, env: Env, cfg: Config)
    ensures Faithful(w, HandleDeletion(w, env, cfg).0, HandleDeletion(w, env, cfg).1)
  {
    hide Try, DeleteRails, Faithful, StatusMessage;
    Here(w);
    FaithfulDeletions(w, w, env, cfg.rails);
    var (w1, e1) := DeleteRails(w, env, cfg.rails);
    if e1.Some? {
      FaithfulReport(w, w1, env, cfg, e1.value);
    } else {
      ThenTry(w, w1, env, DeletePool);
      var (w2, e2) := Try(w1, env, DeletePool);
      if e2.None? {
        ThenTry(w, w2, env, RemoveFinalizer);
      }
    }
  }

  lemma {:induction false} FaithfulReport(w: World, w1: World, env: Env, cfg: Config, err: Error)
    requires Faithful(w, w1, Some(err))
    ensures Faithful(w, ReportDeletion(w1, env, cfg, err).0, ReportDeletion(w1, env, cfg, err).1)
  {
    hide Faithful, Effect;
    var (w', e) := ReportDeletion(w1, env, cfg, err);
    if e == Some(err) {
      Later(w, w1, w', err);
    } else {
      var w2 := Call(w1, env, GetNode).0;
      var op := PatchStatus(NodeState(env.node, Failed, StatusMessage(DELETE_FAILED, env.render(err)), cfg.generation));
      LastFailed(w, w1, w2, env, op, err);
    }
  }

  lemma {:induction false} LastFailed(w: World, w1: World, w2: World, env: Env, op: Op, err: Error)
    requires Faithful(w, w1, Some(err)) && w1.log <= w2.log && !Call(w2, env, op).1.Ok?
    ensures Faithful(w, Call(w2, env, op).0, Some(CallFailed(op)))
  {
    hide Effect;
    var w3 := Call(w2, env, op).0;
    assert w3.log[|w2.log|].op == op;
  }

  /**
   * Over a whole pass, deletion included: nil means that every call succeeded, but for port commands
   * and bridge deletions that failed without timing out; and an error that names a call names one of
   * this pass that failed.
   */
  lemma {:induction false} PassErrorsAreFaithful(w: World, env: Env, cfg: Config)
    ensures Faithful(w, DoReconcile(w, env, cfg).0, DoReconcile(w, env, cfg).1)
  {
    hide Try, HandleDeletion, Configure, Faithful, SucceededForGeneration;
    Here(w);
    if !w.finalizer {
      ThenTry(w, w, env, AddFinalizer);
    } else if cfg.deleting {
      FaithfulDeletion(w, env, cfg);
    } else {
      ThenTry(w, w, env, GetNode);
      var (w1, e1) := Try(w, env, GetNode);
      if e1.None? {
        var op := PatchStatus(NodeState(env.node, InProgress, "", cfg.generation));
        ThenTry(w, w1, env, op);
        var (w2, e2) := if env.selected && !SucceededForGeneration(w1, cfg) then Try(w1, env, op) else (w1, None);
        if e2.None? {
          FaithfulConfigure(w, w2, env, cfg);
        }
      }
    }
  }
}
