/** The pod side of the agent as it runs: loops over interfaces, bridges and pods that issue commands one by one. */
module PodAgent {
  import opened Basics
  import opened ExternalIds
  import opened FlowTables
  import opened PodFlows
  import opened PodFlowRuns

  // What the commands' functions mean for the methods below.

  lemma {:induction false} AddRulesMeans(sw: Switch, env: Env, uid: string, bridge: string, vf: string, ip: string)
    ensures var rules, cookie, writer := PodRules(vf, ip), env.cookie(uid), PodWriter(uid);
            var (sw', ok) := AddRules(sw, env, bridge, rules, cookie, writer);
            && (ok && bridge in sw.bridges ==>
                  sw'.bridges == sw.bridges[bridge := sw.bridges[bridge].(flows := Install(sw.bridges[bridge].flows, rules, cookie, writer))])
            && (Inv(sw, env) && (bridge in sw.bridges ==> Get(sw.bridges[bridge].ids, uid) == RAIL_POD_ID) ==> Inv(sw', env))
  {
    hide AddRules, Install, PodRules, Inv;
    var rules, cookie, writer := PodRules(vf, ip), env.cookie(uid), PodWriter(uid);
    var (sw', ok) := AddRules(sw, env, bridge, rules, cookie, writer);
    if ok && bridge in sw.bridges {
      AddRulesInstalls(sw, env, bridge, rules, cookie, writer);
    }
    if Inv(sw, env) && (bridge in sw.bridges ==> Get(sw.bridges[bridge].ids, uid) == RAIL_POD_ID) {
      AddRulesKeeps(sw, env, bridge, rules, uid);
    }
  }

  lemma {:induction false} HandlePodMeans(sw: Switch, env: Env, uid: string, atts: seq<Attachment>)
    requires forall a :: a in atts ==> |a.ips| > 0
    ensures var (sw', failed) := HandlePod(sw, env, uid, atts, {});
            && (Inv(sw, env) ==> Inv(sw', env))
            && (failed == {} ==>
                  && sw'.bridges.Keys == sw.bridges.Keys
                  && forall n :: n in sw.bridges ==> sw'.bridges[n] == Reconciled(sw.bridges[n], env, uid, RulesOn(atts, n)))
  {
    hide HandlePod, Inv, Reconciled;
    if Inv(sw, env) {
      HandlePodKeeps(sw, env, uid, atts, {});
    }
    if HandlePod(sw, env, uid, atts, {}).1 == {} {
      PodReconcileInstalls(sw, env, uid, atts, {});
    }
  }

  lemma {:induction false} CleanBridgeMeans(sw: Switch, env: Env, bridge: string, uid: string)
    ensures var (sw', ok) := CleanBridge(sw, env, bridge, uid);
            Inv(sw, env) ==>
              && Inv(sw', env) && OnlyAt(sw, sw', bridge)
              && if bridge in sw.bridges then LosesPods(env, sw.bridges[bridge], sw'.bridges[bridge], {uid}, ok) else !ok
  {
    hide CleanBridge, LosesPods, Inv;
    if Inv(sw, env) {
      CleanBridgeKeeps(sw, env, bridge, uid);
    }
  }

  lemma {:induction false} DeletePodMeans(sw: Switch, env: Env, uid: string)
    ensures var (sw', report) := DeletePodRailFlows(sw, env, uid);
            && (Inv(sw, env) ==> Inv(sw', env))
            && (Inv(sw, env) && WellListed(sw) ==>
                  && sw'.bridges.Keys == sw.bridges.Keys
                  && forall n :: n in sw.bridges ==>
                       && LosesPods(env, sw.bridges[n], sw'.bridges[n], {uid}, false)
                       && (report.Done? && n !in report.failed ==> PodGone(sw'.bridges[n], uid)))
  {
    hide DeletePodRailFlows, Inv, WellListed, LosesPods, PodGone;
    if Inv(sw, env) {
      PassKeeps(sw, env, PodReconcile(Pod(uid, true, None)));
      assert RunPass(sw, env, PodReconcile(Pod(uid, true, None))) == DeletePodRailFlows(sw, env, uid).0;
      if WellListed(sw) {
        PodDeletionSweeps(sw, env, uid);
      }
    }
  }

  /** Bridge by bridge, the pod is gone unless a command failed there, and nothing else is. */
  ghost predicate Deleted(sw: Switch, sw': Switch, env: Env, uid: string) {
    var report := DeletePodRailFlows(sw, env, uid).1;
    Inv(sw, env) && WellListed(sw) ==>
      && sw'.bridges.Keys == sw.bridges.Keys
      && forall n :: n in sw.bridges ==>
           && LosesPods(env, sw.bridges[n], sw'.bridges[n], {uid}, false)
           && (Get(sw.bridges[n].ids, uid) != RAIL_POD_ID ==> sw'.bridges[n] == sw.bridges[n])
           && (report.Done? && n !in report.failed ==> PodGone(sw'.bridges[n], uid))
  }

  /** Every bridge with the pod's tag has the flows of the annotation's pci networks; nothing else changed. */
  ghost predicate Served(sw: Switch, sw': Switch, env: Env, uid: string, ns: seq<NetworkStatus>) {
    && HasAddresses(ns) && sw'.bridges.Keys == sw.bridges.Keys
    && forall n :: n in sw.bridges ==>
         && sw'.bridges[n] == sw.bridges[n].(flows := sw'.bridges[n].flows)
         && if Get(sw.bridges[n].ids, uid) == RAIL_POD_ID
            then Attached(sw.bridges[n].flows, sw'.bridges[n].flows, env.cookie(uid), uid, ns, n)
            else sw'.bridges[n] == sw.bridges[n]
  }

  lemma {:induction false} ReconcilePodMeans(sw: Switch, env: Env, pod: Pod)
    requires Addressed(pod)
    ensures var (sw', failed) := ReconcilePod(sw, env, pod);
            && (pod.deleting ==> failed == {} && Deleted(sw, sw', env, pod.uid))
            && (!pod.deleting && pod.networks.None? ==> failed == {} && sw' == sw)
            && (!pod.deleting && pod.networks.Some? && failed == {} ==> Served(sw, sw', env, pod.uid, pod.networks.value))
  {
    hide DeletePodRailFlows, HandlePod, Attached, LosesPods, PodGone, Get, Relevant;
    if pod.deleting {
      if Inv(sw, env) && WellListed(sw) {
        PodDeletionSweeps(sw, env, pod.uid);
      }
    } else if pod.networks.Some? {
      var ns := pod.networks.value;
      RelevantHaveAddresses(ns);
      if HandlePod(sw, env, pod.uid, Relevant(ns), {}).1 == {} {
        PodReconcileInstalls(sw, env, pod.uid, Relevant(ns), {});
        forall n | n in sw.bridges
          ensures var sw' := HandlePod(sw, env, pod.uid, Relevant(ns), {}).0;
                  && n in sw'.bridges && sw'.bridges[n] == sw.bridges[n].(flows := sw'.bridges[n].flows)
                  && if Get(sw.bridges[n].ids, pod.uid) == RAIL_POD_ID
                     then Attached(sw.bridges[n].flows, sw'.bridges[n].flows, env.cookie(pod.uid), pod.uid, ns, n)
                     else sw'.bridges[n] == sw.bridges[n]
        {
          AnnotationInstalled(sw, env, pod.uid, ns, n);
        }
      }
    }
  }

  lemma {:induction false} CleanupOnMeans(sw: Switch, env: Env, bridge: string, live: set<string>)
    ensures var (sw', ok) := CleanupOn(sw, env, bridge, live);
            Inv(sw, env) && bridge in sw.bridges && Printable(sw.bridges[bridge].ids) ==>
              bridge in sw'.bridges && Cleaned(env, sw.bridges[bridge], sw'.bridges[bridge], live, ok)
  {
    hide CleanupOn, Inv, Printable, Cleaned;
    if Inv(sw, env) && bridge in sw.bridges && Printable(sw.bridges[bridge].ids) {
      CleanupOnSweeps(sw, env, bridge, live);
    }
  }

  lemma {:induction false} CleanupMeans(sw: Switch, env: Env, live: set<string>)
    ensures var (sw', report) := CleanupStaleFlows(sw, env, live);
            Inv(sw, env) && WellListed(sw) ==>
                  && sw'.bridges.Keys == sw.bridges.Keys
                  && forall n :: n in sw.bridges && Printable(sw.bridges[n].ids) ==>
                       Cleaned(env, sw.bridges[n], sw'.bridges[n], live, report.Done? && n !in report.failed)
  {
    hide CleanupStaleFlows, Inv, WellListed, Printable, Cleaned;
    if Inv(sw, env) && WellListed(sw) {
      CleanupKeepsBridges(sw, env, live);
      forall n | n in sw.bridges && Printable(sw.bridges[n].ids)
        ensures var (sw', report) := CleanupStaleFlows(sw, env, live);
                n in sw'.bridges && Cleaned(env, sw.bridges[n], sw'.bridges[n], live, report.Done? && n !in report.failed)
      {
        StaleCleanupSweeps(sw, env, live, n);
      }
    }
  }

  /** The pods of a bridge that are not in the live set, in the order they were printed. */
  method CollectStale(pods: seq<string>, live: set<string>) returns (stalePods: seq<string>)
    ensures stalePods == Stale(pods, live)
  {
    stalePods := [];
    for i := 0 to |pods|
      invariant stalePods + Stale(pods[i..], live) == Stale(pods, live)
    {
      assert pods[i..][0] == pods[i] && pods[i..][1..] == pods[i + 1..];
      ghost var rest := Stale(pods[i + 1..], live);
      if pods[i] !in live {
        assert stalePods + ([pods[i]] + rest) == (stalePods + [pods[i]]) + rest;
        stalePods := stalePods + [pods[i]];
      } else {
        assert [] + rest == rest;
      }
    }
  }

  /** The node's Open vSwitch, driven by commands. */
  class Ovs {
    const env: Env
    var bridges: map<string, Bridge>
    var listing: seq<string>
    var clock: nat

    function View(): Switch
      reads this
    {
      Switch(bridges, listing, clock)
    }

    constructor (env: Env, start: Switch)
      ensures this.env == env && View() == start
    {
      this.env := env;
      bridges, listing, clock := start.bridges, start.listing, start.clock;
    }

    method Become(sw: Switch)
      modifies this
      ensures View() == sw
    {
      bridges, listing, clock := sw.bridges, sw.listing, sw.clock;
    }

    /** A read-only command: only its outcome matters. */
    method Probe() returns (ok: bool)
      modifies this
      ensures View() == Tick(old(View())) && ok == Succeeds(old(View()), env)
    {
      ok := env.oracle(clock).Ok?;
      clock := clock + 1;
    }

    /** AddPodRailFlows: all three rules or an error, on a tagged bridge always within the invariant. */
    method AddPodRailFlows(uid: string, vf: string, bridge: string, podIP: string) returns (ok: bool)
      modifies this
      ensures (View(), ok) == AddRules(old(View()), env, bridge, PodRules(vf, podIP), env.cookie(uid), PodWriter(uid))
      ensures ok && bridge in old(bridges) ==>
                bridges == old(bridges)[bridge := old(bridges)[bridge].(flows :=
                  Install(old(bridges)[bridge].flows, PodRules(vf, podIP), env.cookie(uid), PodWriter(uid)))]
      ensures Inv(old(View()), env) && (bridge in old(bridges) ==> Get(old(bridges)[bridge].ids, uid) == RAIL_POD_ID) ==> Inv(View(), env)
    {
      ghost var before := View();
      AddRulesMeans(before, env, uid, bridge, vf, podIP);
      var rules, cookie, writer := PodRules(vf, podIP), env.cookie(uid), PodWriter(uid);
      ok := true;
      for i := 0 to |rules|
        invariant ok
        invariant AddRules(View(), env, bridge, rules[i..], cookie, writer) == AddRules(old(View()), env, bridge, rules, cookie, writer)
      {
        assert rules[i..][0] == rules[i] && rules[i..][1..] == rules[i + 1..];
        var (after, added) := AddFlow(View(), env, bridge, rules[i], cookie, writer);
        Become(after);
        if !added {
          return false;
        }
      }
    }

    /** handlePodFlows: flows go only to a bridge that carries the pod's tag. */
    method HandlePodFlows(uid: string, atts: seq<Attachment>) returns (failed: set<string>)
      requires forall a :: a in atts ==> |a.ips| > 0
      modifies this
      ensures (View(), failed) == HandlePod(old(View()), env, uid, atts, {})
      ensures Inv(old(View()), env) ==> Inv(View(), env)
      ensures failed == {} ==>
                && bridges.Keys == old(bridges).Keys
                && forall n :: n in bridges ==> bridges[n] == Reconciled(old(bridges)[n], env, uid, RulesOn(atts, n))
    {
      HandlePodMeans(View(), env, uid, atts);
      failed := {};
      for i := 0 to |atts|
        invariant forall a :: a in atts[i..] ==> |a.ips| > 0
        invariant HandlePod(View(), env, uid, atts[i..], failed) == HandlePod(old(View()), env, uid, atts, {})
      {
        var a := atts[i];
        assert atts[i..][0] == a && atts[i..][1..] == atts[i + 1..];
        assert a in atts[i..];
        assert forall x :: x in atts[i + 1..] ==> x in atts[i..];
        var ok := Probe();
        if !ok {
          failed := failed + {a.iface};
          continue;
        }
        ok := Probe();
        if !ok {
          failed := failed + {a.iface};
          continue;
        }
        var value := ReadId(View(), env, a.bridge, uid);
        Become(Tick(View()));
        if value.None? {
          failed := failed + {a.iface};
          continue;
        }
        if value.value != RAIL_POD_ID {
          continue;
        }
        ok := AddPodRailFlows(uid, a.rep, a.bridge, a.ips[0]);
        if !ok {
          failed := failed + {a.iface};
        }
      }
    }

    method ReconcilePodFlows(pod: Pod) returns (failed: set<string>)
      requires Addressed(pod)
      modifies this
      ensures (View(), failed) == ReconcilePod(old(View()), env, pod)
      ensures Inv(old(View()), env) ==> Inv(View(), env)
      ensures pod.deleting ==> failed == {} && Deleted(old(View()), View(), env, pod.uid)
      ensures !pod.deleting && pod.networks.None? ==> failed == {} && View() == old(View())
      ensures !pod.deleting && pod.networks.Some? && failed == {} ==> Served(old(View()), View(), env, pod.uid, pod.networks.value)
    {
      hide Deleted, Served;
      ReconcilePodMeans(View(), env, pod);
      if pod.deleting {
        var report := DeletePod(pod.uid);
        return {};
      }
      if pod.networks.None? {
        return {};
      }
      var networks, relevant: seq<Attachment> := pod.networks.value, [];
      for i := 0 to |networks|
        invariant View() == old(View())
        invariant relevant + Relevant(networks[i..]) == Relevant(networks)
      {
        assert networks[i..][0] == networks[i] && networks[i..][1..] == networks[i + 1..];
        ghost var rest := Relevant(networks[i + 1..]);
        if networks[i].pci {
          assert relevant + ([networks[i].att] + rest) == (relevant + [networks[i].att]) + rest;
          relevant := relevant + [networks[i].att];
        } else {
          assert [] + rest == rest;
        }
      }
      assert relevant == Relevant(networks);
      if |relevant| == 0 {
        return {};
      }
      failed := HandlePodFlows(pod.uid, relevant);
    }

    /** cleanBridgeFlows: whatever fails, the tag outlives the flows, and nothing of another pod is touched. */
    method CleanBridgeFlows(bridge: string, uid: string) returns (ok: bool)
      modifies this
      ensures (View(), ok) == CleanBridge(old(View()), env, bridge, uid)
      ensures Inv(old(View()), env) ==>
                && Inv(View(), env) && OnlyAt(old(View()), View(), bridge)
                && if bridge in old(bridges) then LosesPods(env, old(bridges)[bridge], bridges[bridge], {uid}, ok) else !ok
    {
      CleanBridgeMeans(View(), env, bridge, uid);
      var (s1, deleted) := DeleteFlows(View(), env, bridge, env.cookie(uid));
      Become(s1);
      if !deleted {
        return false;
      }
      var (s2, removed) := RemoveId(View(), env, bridge, uid);
      Become(s2);
      return removed;
    }

    method DeletePod(uid: string) returns (report: Report)
      modifies this
      ensures (View(), report) == DeletePodRailFlows(old(View()), env, uid)
      ensures Inv(old(View()), env) ==> Inv(View(), env)
      ensures Inv(old(View()), env) && WellListed(old(View())) ==>
                && bridges.Keys == old(bridges).Keys
                && forall n :: n in bridges ==>
                     && LosesPods(env, old(bridges)[n], bridges[n], {uid}, false)
                     && (report.Done? && n !in report.failed ==> PodGone(bridges[n], uid))
    {
      hide LosesPods, PodGone, WellListed, Inv;
      DeletePodMeans(View(), env, uid);
      var names := ListedNames(View());
      var ok := Probe();
      if !ok {
        return ListFailed;
      }
      var failed: set<string> := {};
      for i := 0 to |names|
        invariant DeleteOnAll(View(), env, names[i..], uid, failed) == DeleteOnAll(Tick(old(View())), env, names, uid, {})
      {
        assert names[i..][0] == names[i] && names[i..][1..] == names[i + 1..];
        var value := ReadId(View(), env, names[i], uid);
        Become(Tick(View()));
        if value.None? {
          failed := failed + {names[i]};
          continue;
        }
        if value.value == RAIL_POD_ID {
          ok := CleanBridgeFlows(names[i], uid);
          if !ok {
            failed := failed + {names[i]};
          }
        }
      }
      return Done(failed);
    }

    method CleanupBridge(bridge: string, live: set<string>) returns (ok: bool)
      modifies this
      ensures (View(), ok) == CleanupOn(old(View()), env, bridge, live)
      ensures Inv(old(View()), env) && bridge in old(bridges) && Printable(old(bridges)[bridge].ids) ==>
                bridge in bridges && Cleaned(env, old(bridges)[bridge], bridges[bridge], live, ok)
    {
      hide Cleaned, Printable, Inv, LosesPods;
      CleanupOnMeans(View(), env, bridge, live);
      var output := ReadIds(View(), env, bridge);
      Become(Tick(View()));
      if output.None? {
        return false;
      }
      var pods := ScanExternalIds(output.value);
      var stalePods := CollectStale(pods, live);
      ok := true;
      for i := 0 to |stalePods|
        invariant CleanPods(View(), env, bridge, stalePods[i..], ok) == CleanupOn(old(View()), env, bridge, live)
      {
        assert stalePods[i..][0] == stalePods[i] && stalePods[i..][1..] == stalePods[i + 1..];
        var cleaned := CleanBridgeFlows(bridge, stalePods[i]);
        ok := ok && cleaned;
      }
    }

    /** cleanupStaleFlows of the cleaner: an empty pod list is not trusted. */
    method Cleanup(podUIDs: seq<string>) returns (report: Report)
      modifies this
      ensures podUIDs == [] ==> View() == old(View()) && report == Done({})
      ensures podUIDs != [] ==> (View(), report) == CleanupStaleFlows(old(View()), env, set u | u in podUIDs)
      ensures podUIDs != [] && Inv(old(View()), env) && WellListed(old(View())) ==>
                && bridges.Keys == old(bridges).Keys
                && forall n :: n in bridges && Printable(old(bridges)[n].ids) ==>
                     Cleaned(env, old(bridges)[n], bridges[n], (set u | u in podUIDs), report.Done? && n !in report.failed)
    {
      hide Cleaned, Printable, Inv, WellListed;
      CleanupMeans(View(), env, set u | u in podUIDs);
      if |podUIDs| == 0 {
        return Done({});
      }
      var live: set<string> := {};
      for i := 0 to |podUIDs|
        invariant View() == old(View())
        invariant live == set u | u in podUIDs[..i]
      {
        assert forall u :: u in podUIDs[..i + 1] <==> u in podUIDs[..i] || u == podUIDs[i];
        live := live + {podUIDs[i]};
      }
      assert podUIDs[..|podUIDs|] == podUIDs;
      var names := ListedNames(View());
      var ok := Probe();
      if !ok {
        return ListFailed;
      }
      var failed: set<string> := {};
      for i := 0 to |names|
        invariant CleanupOnAll(View(), env, names[i..], live, failed) == CleanupOnAll(Tick(old(View())), env, names, live, {})
      {
        assert names[i..][0] == names[i] && names[i..][1..] == names[i + 1..];
        ok := CleanupBridge(names[i], live);
        if !ok {
          failed := failed + {names[i]};
        }
      }
      return Done(failed);
    }
  }
}
