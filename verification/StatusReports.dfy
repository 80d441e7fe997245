/** What a pass records in its node's status entry, against what it returns. */
module StatusReports {
  import opened Basics
  import opened NodeStates
  import opened XPlane
  import opened Reconciler
  import opened CallLog

  /** Every status patch between the two states succeeded. */
  ghost predicate PatchesOk(w: World, w': World) {
    forall i :: |w.log| <= i < |w'.log| && w'.log[i].op.PatchStatus? ==> w'.log[i].outcome.Ok?
  }

  lemma {:induction false} PatchRecorded(start: World, w: World, env: Env, cfg: Config, st: State, message: string, end: World)
    requires start.log <= w.log && Patch(w, env, cfg, st, message).0.log <= end.log && PatchesOk(start, end)
    ensures Patch(w, env, cfg, st, message).1 == None
    ensures Patch(w, env, cfg, st, message).0.entry == Some(NodeState(env.node, st, message, cfg.generation))
  {
    var e := NodeState(env.node, st, message, cfg.generation);
    var (w1, o) := Call(w, env, PatchStatus(e));
    assert w1.log[|w.log|] == Event(PatchStatus(e), o);
    assert end.log[|w.log|] == w1.log[|w.log|];
  }

  /** The policies were listed between the two states. */
  ghost predicate Listed(w: World, w': World) {
    exists i :: |w.log| <= i < |w'.log| && w'.log[i].op == ListPolicies
  }

  /**
   * The message for an error: bare up to the listing of policies, then under the heading of the
   * removal, or of the status update if it is that update's.
   */
  function FailureText(env: Env, err: Error, listed: bool): string {
    var text := env.render(err);
    if !listed then text
    else if err.CallFailed? && (err.op.GetSriovState? || err.op.PatchStatus?) then "failed to update sync status: " + text
    else "failed to delete removed rail topologies: " + text
  }

  /** The recorded entry says what the pass returned. */
  ghost predicate Agrees(w: World, w': World, env: Env, cfg: Config, err: Option<Error>) {
    if err.Some? then
      w'.entry == Some(NodeState(env.node, Failed, FailureText(env, err.value, Listed(w, w')), cfg.generation))
    else w'.entry.Some? && ReportsSriov(w'.entry.value, env, cfg)
  }

  /** A clean entry: Succeeded iff SR-IOV succeeded with configured interfaces, Failed iff it failed. */
  ghost predicate ReportsSriov(e: NodeState, env: Env, cfg: Config) {
    && e.name == env.node && e.message == "" && e.observedGeneration == cfg.generation
    && (e.state == Succeeded <==>
          env.node in env.sriov && env.sriov[env.node].syncStatus == Succeeded && env.sriov[env.node].configured > 0)
    && (e.state == Failed <==> env.node in env.sriov && env.sriov[env.node].syncStatus == Failed)
    && e.state in {Succeeded, Failed, InProgress}
  }

  lemma {:induction false} SilentIsUnlisted(w: World, w': World)
    requires w.log <= w'.log
    ensures Silent(w, w', ListPolicies) <==> !Listed(w, w')
  {
  }

  lemma {:induction false} ListedGrows(w: World, w1: World, w2: World)
    requires w.log <= w1.log && w1.log <= w2.log && Listed(w, w1)
    ensures Listed(w, w2)
  {
    var i :| |w.log| <= i < |w1.log| && w1.log[i].op == ListPolicies;
    assert w2.log[i] == w1.log[i];
  }

  /** What a failure at state w leaves, when the patch succeeds. */
  lemma {:induction false} FailureRecorded(start: World, w: World, env: Env, cfg: Config, err: Error, context: string)
    requires env.selected && start.log <= w.log && PatchesOk(start, FailReconcile(w, env, cfg, err, context).0)
    ensures var (w', e) := FailReconcile(w, env, cfg, err, context);
            && e == Some(err) && (Listed(start, w') <==> Listed(start, w))
            && w'.entry == Some(NodeState(env.node, Failed, StatusMessage(context, env.render(err)), cfg.generation))
  {
    var w' := FailReconcile(w, env, cfg, err, context).0;
    var message := StatusMessage(context, env.render(err));
    PatchRecorded(start, w, env, cfg, Failed, message, w');
    assert forall i :: 0 <= i < |w.log| ==> w'.log[i] == w.log[i];
    assert w'.log[|w.log|].op == PatchStatus(NodeState(env.node, Failed, message, cfg.generation));
  }

  lemma {:induction false} Headings(text: string)
    ensures StatusMessage("", text) == text
    ensures StatusMessage(REMOVED_FAILED, text) == "failed to delete removed rail topologies: " + text
    ensures StatusMessage(STATUS_FAILED, text) == "failed to update sync status: " + text
    ensures StatusMessage(DELETE_FAILED, text) == "failed to delete rail topology resources: " + text
  {
    assert REMOVED_FAILED + ": " == "failed to delete removed rail topologies: ";
    assert STATUS_FAILED + ": " == "failed to update sync status: ";
    assert DELETE_FAILED + ": " == "failed to delete rail topology resources: ";
  }

  lemma {:induction false} NodeStatusAgrees(start: World, w: World, env: Env, cfg: Config)
    requires env.selected && start.log <= w.log && Listed(start, w)
    requires var (w1, e) := ProcessNodeStatus(w, env, cfg);
             PatchesOk(start, if e.Some? then FailReconcile(w1, env, cfg, e.value, STATUS_FAILED).0 else w1)
    ensures var (w1, e) := ProcessNodeStatus(w, env, cfg);
            if e.Some? then Agrees(start, FailReconcile(w1, env, cfg, e.value, STATUS_FAILED).0, env, cfg, e)
            else Agrees(start, w1, env, cfg, None)
  {
    hide Listed, Effect, StatusMessage;
    var (w1, e) := ProcessNodeStatus(w, env, cfg);
    if e.Some? {
      ListedGrows(start, w, w1);
      FailureRecorded(start, w1, env, cfg, e.value, STATUS_FAILED);
      Headings(env.render(e.value));
    } else {
      PatchRecorded(start, Try(w, env, GetSriovState(env.node)).0, env, cfg, NodeVerdict(env), "", w1);
    }
  }

  /** A failure before the listing is recorded with its bare text. */
  lemma {:induction false} EarlyFailureAgrees(start: World, w: World, env: Env, cfg: Config, err: Error)
    requires env.selected && Silent(start, w, ListPolicies) && PatchesOk(start, FailReconcile(w, env, cfg, err, "").0)
    ensures Agrees(start, FailReconcile(w, env, cfg, err, "").0, env, cfg, Some(err))
  {
    hide Listed, StatusMessage, FailReconcile;
    FailureRecorded(start, w, env, cfg, err, "");
    SilentIsUnlisted(start, w);
    Headings(env.render(err));
  }

  /** A failure of the removal is recorded under its heading. */
  lemma {:induction false} RemovalFailureAgrees(start: World, w: World, env: Env, cfg: Config, err: Error)
    requires env.selected && start.log <= w.log && Listed(start, w) && (err == CallFailed(ListPolicies) || RemovalError(err))
    requires PatchesOk(start, FailReconcile(w, env, cfg, err, REMOVED_FAILED).0)
    ensures Agrees(start, FailReconcile(w, env, cfg, err, REMOVED_FAILED).0, env, cfg, Some(err))
  {
    hide Listed, StatusMessage, FailReconcile;
    FailureRecorded(start, w, env, cfg, err, REMOVED_FAILED);
    Headings(env.render(err));
  }

  lemma {:induction false} ConfigureAgrees(start: World, w: World, env: Env, cfg: Config)
    requires env.selected && Silent(start, w, ListPolicies) && PatchesOk(start, Configure(w, env, cfg).0)
    ensures Agrees(start, Configure(w, env, cfg).0, env, cfg, Configure(w, env, cfg).1)
  {
    hide ReconcileRails, DeleteRemovedRails, ProcessNodeStatus, FailReconcile, Agrees, Effect, Silent, Listed;
    if cfg.rails == [] {
      EarlyFailureAgrees(start, w, env, cfg, NoRails);
    } else {
      var (w1, e1) := Try(w, env, ApplyPool);
      ThenCall(start, w, env, ApplyPool, ListPolicies);
      if e1.Some? {
        EarlyFailureAgrees(start, w1, env, cfg, e1.value);
      } else {
        var (w2, e2) := ReconcileRails(w1, env, cfg, cfg.rails);
        RailsNeverList(w1, env, cfg, cfg.rails);
        SilentTwice(start, w1, w2, ListPolicies);
        if e2.Some? {
          EarlyFailureAgrees(start, w2, env, cfg, e2.value);
        } else {
          var (w3, e3) := DeleteRemovedRails(w2, env, cfg);
          DeleteRemovedLists(w2, env, cfg);
          SilentGrows(start, w2, ListPolicies);
          assert Listed(start, w3) by { ListedAt(start, w3, |w2.log|); }
          if e3.Some? {
            RemovalFailureAgrees(start, w3, env, cfg, e3.value);
          } else {
            NodeStatusAgrees(start, w3, env, cfg);
          }
        }
      }
    }
  }

  lemma {:induction false} SilentGrows(w: World, w': World, op: Op)
    requires Silent(w, w', op)
    ensures w.log <= w'.log
  {
  }

  lemma {:induction false} ListedAt(w: World, w': World, i: nat)
    requires |w.log| <= i < |w'.log| && w'.log[i].op == ListPolicies
    ensures Listed(w, w')
  {
  }

  /**
   * On a selected node of a finalized, live object, when all status patches succeed, the result of
   * a pass and the committed entry agree: an error is recorded as Failed with its message, under the
   * heading of the step it comes from, and a clean pass records Succeeded, Failed or InProgress as
   * SR-IOV reports it. When the local node cannot be read the agent cannot know that it is selected:
   * it returns that error, unrecorded.
   */
  lemma {:induction false} ResultMatchesStatus(w: World, env: Env, cfg: Config)
    requires w.finalizer && !cfg.deleting && env.selected
    requires PatchesOk(w, DoReconcile(w, env, cfg).0)
    ensures var (w', err) := DoReconcile(w, env, cfg);
            if Call(w, env, GetNode).1.Ok? then Agrees(w, w', env, cfg, err)
            else err == Some(CallFailed(GetNode)) && w'.entry == w.entry
  {
    hide Configure, Agrees, Silent;
    var (w1, e1) := Try(w, env, GetNode);
    CallSilent(w, env, GetNode, ListPolicies);
    if e1.Some? {
      return;
    } else if SucceededForGeneration(w1, cfg) {
      ConfigureAgrees(w, w1, env, cfg);
    } else {
      var w2 := Patch(w1, env, cfg, InProgress, "").0;
      PatchRecorded(w, w1, env, cfg, InProgress, "", DoReconcile(w, env, cfg).0);
      ThenCall(w, w1, env, PatchStatus(NodeState(env.node, InProgress, "", cfg.generation)), ListPolicies);
      ConfigureAgrees(w, w2, env, cfg);
    }
  }

  /** An agent whose node is not selected writes no entry on any path, deletion included. */
  lemma {:induction false} UnselectedWritesNothing(w: World, env: Env, cfg: Config)
    requires !env.selected
    ensures DoReconcile(w, env, cfg).0.entry == w.entry
  {
    hide ReconcileRails, DeleteRemovedRails, DeleteRails;
  }

  // ------------------------------------------------- how a pass starts and stops

  /** Without the finalizer a pass does nothing but add it. */
  lemma {:induction false} FinalizerFirst(w: World, env: Env, cfg: Config)
    requires !w.finalizer
    ensures var (w', err) := DoReconcile(w, env, cfg);
            && w' == w.(finalizer := w'.finalizer, log := w'.log) && |w'.log| == |w.log| + 1
            && w'.log[|w.log|].op == AddFinalizer && (err.None? ==> w'.finalizer)
  {
  }

  /** A spec without rails is an error that changes nothing but the entry. */
  lemma {:induction false} EmptySpecFails(w: World, env: Env, cfg: Config)
    requires cfg.rails == []
    ensures var (w', err) := Configure(w, env, cfg);
            err == Some(NoRails) && w' == w.(entry := w'.entry, log := w'.log)
  {
  }

  /**
   * A selected agent shows InProgress before it touches anything, unless its entry already says
   * Succeeded for this generation; then the entry does not flap. If it cannot show it, it stops.
   */
  lemma {:induction false} ProgressShownFirst(w: World, env: Env, cfg: Config)
    requires w.finalizer && !cfg.deleting && env.selected && Call(w, env, GetNode).1.Ok?
    ensures var (w', err) := DoReconcile(w, env, cfg);
            var n := |w.log| + 1;
            var shown := PatchStatus(NodeState(env.node, InProgress, "", cfg.generation));
            var done := w.entry.Some? && w.entry.value.state == Succeeded && w.entry.value.observedGeneration == cfg.generation;
            && |w'.log| > n && w'.log[|w.log|] == Event(GetNode, Ok)
            && (w'.log[n].op == shown <==> !done)
            && (!done && !w'.log[n].outcome.Ok? ==>
                  err == Some(CallFailed(shown)) && |w'.log| == n + 1 && w' == w.(entry := w'.entry, log := w'.log))
  {
    hide Configure, Apply;
    var w1 := Call(w, env, GetNode).0;
    var shown := PatchStatus(NodeState(env.node, InProgress, "", cfg.generation));
    var w2 := if SucceededForGeneration(w1, cfg) then w1 else Call(w1, env, shown).0;
    ConfigureStarts(w2, env, cfg);
  }

  /** The first call of Configure. */
  lemma {:induction false} ConfigureStarts(w: World, env: Env, cfg: Config)
    requires env.selected
    ensures var w' := Configure(w, env, cfg).0;
            && |w'.log| > |w.log|
            && (w'.log[|w.log|].op == ApplyPool || exists m :: w'.log[|w.log|].op == PatchStatus(NodeState(env.node, Failed, m, cfg.generation)))
  {
    hide ReconcileRails, DeleteRemovedRails, ProcessNodeStatus, Effect;
    if cfg.rails == [] {
      var m := StatusMessage("", env.render(NoRails));
      assert Configure(w, env, cfg).0.log[|w.log|].op == PatchStatus(NodeState(env.node, Failed, m, cfg.generation));
    } else {
      var w1 := Call(w, env, ApplyPool).0;
      assert w1.log[|w.log|].op == ApplyPool;
      assert w1.log <= Configure(w, env, cfg).0.log;
    }
  }

  // -------------------------------------------------------------------- deletion

  /**
   * What a selected agent records when a deletion fails: Failed with the error under its heading, if
   * a rail could not be removed and the local node could be read; on every other path the entry stays.
   */
  lemma {:induction false} DeletionRecorded(w: World, env: Env, cfg: Config)
    requires env.selected && PatchesOk(w, HandleDeletion(w, env, cfg).0)
    ensures var (w', err) := HandleDeletion(w, env, cfg);
            var read := exists i :: |w.log| <= i < |w'.log| && w'.log[i] == Event(GetNode, Ok);
            && (err.Some? && RemovalError(err.value) && read ==>
                  w'.entry == Some(NodeState(env.node, Failed, "failed to delete rail topology resources: " + env.render(err.value), cfg.generation)))
            && (err.None? || !RemovalError(err.value) || !read ==> w'.entry == w.entry)
  {
    hide DeleteRails, RemovalError, StatusMessage, Apply;
    var (w1, e1) := DeleteRails(w, env, cfg.rails);
    var (w', err) := HandleDeletion(w, env, cfg);
    DeleteRailsErrors(w, env, cfg.rails);
    OtherErrors();
    if e1.Some? {
      var (w2, o) := Call(w1, env, GetNode);
      assert w2.log[|w1.log|] == Event(GetNode, o);
      if o.Ok? {
        assert w'.log[|w1.log|] == Event(GetNode, Ok);
        PatchRecorded(w, w2, env, cfg, Failed, StatusMessage(DELETE_FAILED, env.render(e1.value)), w');
        Headings(env.render(e1.value));
      } else {
        DeleteRailsNeverRead(w, env, cfg.rails);
      }
    }
  }

  lemma {:induction false} OtherErrors()
    ensures !RemovalError(CallFailed(DeletePool)) && !RemovalError(CallFailed(RemoveFinalizer))
  {
  }

  lemma {:induction false} RemoveRailNeverReads(w: World, env: Env, rail: string, multiplane: bool)
    ensures Silent(w, RemoveRail(w, env, rail, multiplane).0, GetNode)
  {
    hide Call, Silent;
    SilentHere(w, GetNode);
    ThenDelBr(w, env, rail);
    var w0 := if multiplane then CleanupXPlaneBridges(w, env, rail).0 else w;
    var w1 := Call(w0, env, DeletePolicy(rail)).0;
    var w2 := Call(w1, env, DeletePolicy(rail + UNUSED)).0;
    ThenCall(w, w0, env, DeletePolicy(rail), GetNode);
    ThenCall(w, w1, env, DeletePolicy(rail + UNUSED), GetNode);
    ThenCall(w, w2, env, DeleteNetwork(rail), GetNode);
  }

  lemma {:induction false} ThenDelBr(w: World, env: Env, rail: string)
    ensures Silent(w, CleanupXPlaneBridges(w, env, rail).0, GetNode)
  {
    hide Call, Silent;
    var w1 := Call(w, env, Ovs(DelBr(RailBridge(rail)))).0;
    CallSilent(w, env, Ovs(DelBr(RailBridge(rail))), GetNode);
    ThenCall(w, w1, env, Ovs(DelBr(XPlaneBridge)), GetNode);
  }

  lemma {:induction false} DeleteRailsNeverRead(w: World, env: Env, rails: seq<Rail>)
    ensures Silent(w, DeleteRails(w, env, rails).0, GetNode)
    decreases |rails|
  {
    hide RemoveRail, Silent;
    SilentHere(w, GetNode);
    if rails != [] {
      var w1 := RemoveRail(w, env, rails[0].name, Multiplane(rails[0])).0;
      RemoveRailNeverReads(w, env, rails[0].name, Multiplane(rails[0]));
      DeleteRailsNeverRead(w1, env, rails[1..]);
      SilentTwice(w, w1, DeleteRails(w1, env, rails[1..]).0, GetNode);
    }
  }
}
