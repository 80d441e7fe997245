/** What every run of pod reconciles, pod deletions and stale cleanups keeps. */
module PodFlowRuns {
  import opened Basics
  import opened ExternalIds
  import opened FlowTables
  import opened PodFlows

  // -------------------------------------------------------------- invariant

  /** Every pod flow carries its pod's cookie and sits on a bridge that carries its pod's tag. */
  ghost predicate TaggedFlows(b: Bridge, env: Env) {
    forall k :: k in b.flows && b.flows[k].writer.PodWriter? ==>
      var uid := b.flows[k].writer.uid;
      Get(b.ids, uid) == RAIL_POD_ID && b.flows[k].cookie == env.cookie(uid)
  }

  ghost predicate GoodBridge(b: Bridge, env: Env) {
    UniqueKeys(b.ids) && TaggedFlows(b, env)
  }

  ghost predicate Inv(sw: Switch, env: Env) {
    forall n :: n in sw.bridges ==> GoodBridge(sw.bridges[n], env)
  }

  ghost predicate SameTags(sw: Switch, sw': Switch) {
    sw'.bridges.Keys == sw.bridges.Keys && forall n :: n in sw.bridges ==> sw'.bridges[n].ids == sw.bridges[n].ids
  }

  lemma {:induction false} AddRulesKeeps(sw: Switch, env: Env, name: string, rules: seq<Rule>, uid: string)
    requires Inv(sw, env)
    requires name in sw.bridges ==> Get(sw.bridges[name].ids, uid) == RAIL_POD_ID
    ensures var sw' := AddRules(sw, env, name, rules, env.cookie(uid), PodWriter(uid)).0; Inv(sw', env) && SameTags(sw, sw')
    decreases |rules|
  {
    if rules != [] {
      var (s1, ok) := AddFlow(sw, env, name, rules[0], env.cookie(uid), PodWriter(uid));
      assert Inv(s1, env);
      if ok {
        AddRulesKeeps(s1, env, name, rules[1..], uid);
      }
    }
  }

  lemma {:induction false} HandlePodKeeps(sw: Switch, env: Env, uid: string, atts: seq<Attachment>, failed: set<string>)
    requires Inv(sw, env) && forall a :: a in atts ==> |a.ips| > 0
    ensures Inv(HandlePod(sw, env, uid, atts, failed).0, env)
    decreases |atts|
  {
    if atts != [] {
      var a := atts[0];
      assert a in atts;
      var (s1, ok) := Attach(sw, env, uid, a);
      var s3 := Tick(Tick(Tick(sw)));
      if ReadId(Tick(Tick(sw)), env, a.bridge, uid) == Some(RAIL_POD_ID) {
        AddRulesKeeps(s3, env, a.bridge, PodRules(a.rep, a.ips[0]), uid);
      }
      HandlePodKeeps(s1, env, uid, atts[1..], if ok then failed else failed + {a.iface});
    }
  }

  /** How cleaning `pods` may change a bridge; when `done`, none of their ids and no flow with their cookies is left. */
  ghost predicate LosesPods(env: Env, b: Bridge, b': Bridge, pods: set<string>, done: bool) {
    && (forall p :: p in b'.ids ==> p in b.ids)
    && (forall p :: p in b.ids && p.0 !in pods ==> p in b'.ids)
    && (done ==> forall p :: p in b'.ids ==> p.0 !in pods)
    && (forall k :: k in b'.flows ==> k in b.flows && b'.flows[k] == b.flows[k])
    && (forall k :: k in b.flows && (forall u :: u in pods ==> env.cookie(u) != b.flows[k].cookie) ==> k in b'.flows)
    && (done ==> forall k, u :: k in b'.flows && u in pods ==> env.cookie(u) != b'.flows[k].cookie)
  }

  ghost predicate OnlyAt(sw: Switch, sw': Switch, name: string) {
    && sw'.listing == sw.listing && sw'.bridges.Keys == sw.bridges.Keys
    && forall n :: n in sw.bridges && n != name ==> sw'.bridges[n] == sw.bridges[n]
  }

  lemma {:induction false} DelFlowsKeeps(b: Bridge, env: Env, cookie: nat)
    requires GoodBridge(b, env)
    ensures GoodBridge(b.(flows := DelFlows(b.flows, cookie)), env)
  {
  }

  lemma {:induction false} RemoveTagKeeps(b: Bridge, env: Env, uid: string)
    requires GoodBridge(b, env)
    requires forall k :: k in b.flows ==> b.flows[k].cookie != env.cookie(uid)
    ensures GoodBridge(b.(ids := Remove(b.ids, uid)), env)
  {
    RemoveUnique(b.ids, uid);
    forall k | k in b.flows && b.flows[k].writer.PodWriter?
      ensures Get(Remove(b.ids, uid), b.flows[k].writer.uid) == RAIL_POD_ID
    {
      RemoveGet(b.ids, uid, b.flows[k].writer.uid);
    }
  }

  /** cleanBridgeFlows, with any failures: the tag outlives the flows, never the other way round. */
  lemma {:induction false} CleanBridgeKeeps(sw: Switch, env: Env, name: string, uid: string)
    requires Inv(sw, env)
    ensures var (sw', ok) := CleanBridge(sw, env, name, uid);
            && Inv(sw', env) && OnlyAt(sw, sw', name)
            && (name !in sw.bridges ==> !ok)
            && (name in sw.bridges ==> LosesPods(env, sw.bridges[name], sw'.bridges[name], {uid}, ok))
  {
    hide GoodBridge, Remove;
    if name in sw.bridges {
      var b := sw.bridges[name];
      DelFlowsKeeps(b, env, env.cookie(uid));
      var (s1, ok) := DeleteFlows(sw, env, name, env.cookie(uid));
      if ok {
        RemoveTagKeeps(s1.bridges[name], env, uid);
        RemoveGet(b.ids, uid, uid);
      }
    }
  }

  lemma {:induction false} LosesPodsTwice(env: Env, b: Bridge, b1: Bridge, b2: Bridge, p1: set<string>, p2: set<string>, d1: bool, d2: bool)
    requires LosesPods(env, b, b1, p1, d1) && LosesPods(env, b1, b2, p2, d2)
    ensures LosesPods(env, b, b2, p1 + p2, d1 && d2)
  {
  }

  lemma {:induction false} CleanPodsKeeps(sw: Switch, env: Env, name: string, pods: seq<string>, ok: bool)
    requires Inv(sw, env) && name in sw.bridges
    ensures var (sw', ok') := CleanPods(sw, env, name, pods, ok);
            && Inv(sw', env) && OnlyAt(sw, sw', name) && (ok' ==> ok)
            && LosesPods(env, sw.bridges[name], sw'.bridges[name], (set p | p in pods), ok')
    decreases |pods|
  {
    if pods != [] {
      var (s1, cleaned) := CleanBridge(sw, env, name, pods[0]);
      CleanBridgeKeeps(sw, env, name, pods[0]);
      CleanPodsKeeps(s1, env, name, pods[1..], ok && cleaned);
      var (s2, ok') := CleanPods(s1, env, name, pods[1..], ok && cleaned);
      LosesPodsTwice(env, sw.bridges[name], s1.bridges[name], s2.bridges[name], {pods[0]}, (set p | p in pods[1..]), cleaned, ok');
      assert {pods[0]} + (set p | p in pods[1..]) == set p | p in pods;
    }
  }

  lemma {:induction false} DeleteOnAllKeeps(sw: Switch, env: Env, names: seq<string>, uid: string, failed: set<string>)
    requires Inv(sw, env)
    ensures Inv(DeleteOnAll(sw, env, names, uid, failed).0, env)
    decreases |names|
  {
    if names != [] {
      CleanBridgeKeeps(Tick(sw), env, names[0], uid);
      var (s1, ok) := DeleteOn(sw, env, names[0], uid);
      DeleteOnAllKeeps(s1, env, names[1..], uid, if ok then failed else failed + {names[0]});
    }
  }

  lemma {:induction false} CleanupOnKeeps(sw: Switch, env: Env, name: string, live: set<string>)
    requires Inv(sw, env)
    ensures var (sw', ok) := CleanupOn(sw, env, name, live);
            && Inv(sw', env) && OnlyAt(sw, sw', name)
            && (ok ==> name in sw.bridges)
  {
    if ReadIds(sw, env, name).Some? {
      CleanPodsKeeps(Tick(sw), env, name, Stale(Scan(Print(sw.bridges[name].ids)), live), true);
    }
  }

  lemma {:induction false} CleanupOnAllKeeps(sw: Switch, env: Env, names: seq<string>, live: set<string>, failed: set<string>)
    requires Inv(sw, env)
    ensures Inv(CleanupOnAll(sw, env, names, live, failed).0, env)
    decreases |names|
  {
    if names != [] {
      CleanupOnKeeps(sw, env, names[0], live);
      var (s1, ok) := CleanupOn(sw, env, names[0], live);
      CleanupOnAllKeeps(s1, env, names[1..], live, if ok then failed else failed + {names[0]});
    }
  }

  // --------------------------------------------------------------------- runs

  /** A pass of the agent, or something that happens to the switch between passes. */
  datatype Pass =
    | PodReconcile(pod: Pod)
    | StaleCleanup(live: set<string>)
    | CniTag(bridge: string, uid: string)
    | HostFlows(bridge: string, rules: seq<Rule>, cookie: nat)
    | OvsRestart
    | AddBridge(bridge: string)
    | DelBridge(bridge: string)

  ghost predicate Legal(p: Pass) {
    p.PodReconcile? ==> Addressed(p.pod)
  }

  function RunPass(sw: Switch, env: Env, p: Pass): Switch
    requires Legal(p)
  {
    match p
    case PodReconcile(pod) => ReconcilePod(sw, env, pod).0
    case StaleCleanup(live) => if live == {} then sw else CleanupStaleFlows(sw, env, live).0
    case CniTag(n, uid) =>
      if n !in sw.bridges then sw
      else sw.(bridges := sw.bridges[n := sw.bridges[n].(ids := Put(sw.bridges[n].ids, uid, RAIL_POD_ID))])
    case HostFlows(n, rules, cookie) =>
      if n !in sw.bridges then sw
      else sw.(bridges := sw.bridges[n := sw.bridges[n].(flows := Install(sw.bridges[n].flows, rules, cookie, HostWriter))])
    case OvsRestart => sw.(bridges := map n | n in sw.bridges :: sw.bridges[n].(flows := map[], groups := map[]))
    case AddBridge(n) =>
      if n in sw.bridges then sw
      else sw.(bridges := sw.bridges[n := OvsBridge(map[], map[], [])], listing := sw.listing + [n])
    case DelBridge(n) => sw.(bridges := sw.bridges - {n}, listing := Stale(sw.listing, {n}))
  }

  function Run(sw: Switch, env: Env, passes: seq<Pass>): Switch
    requires forall p :: p in passes ==> Legal(p)
  {
    if passes == [] then sw
    else
      var n := |passes| - 1;
      assert passes[n] in passes;
      RunPass(Run(sw, env, passes[..n]), env, passes[n])
  }

  lemma {:induction false} PassKeeps(sw: Switch, env: Env, p: Pass)
    requires Inv(sw, env) && Legal(p)
    ensures Inv(RunPass(sw, env, p), env)
  {
    match p
    case PodReconcile(pod) =>
      DeleteOnAllKeeps(Tick(sw), env, ListedNames(sw), pod.uid, {});
      if pod.networks.Some? {
        HandlePodKeeps(sw, env, pod.uid, Relevant(pod.networks.value), {});
      }
    case StaleCleanup(live) => CleanupOnAllKeeps(Tick(sw), env, ListedNames(sw), live, {});
    case CniTag(n, uid) =>
      if n in sw.bridges {
        var b := sw.bridges[n];
        PutUnique(b.ids, uid, RAIL_POD_ID);
        forall u ensures Get(Put(b.ids, uid, RAIL_POD_ID), u) == if u == uid then RAIL_POD_ID else Get(b.ids, u) {
          PutGet(b.ids, uid, RAIL_POD_ID, u);
        }
      }
    case HostFlows(n, rules, cookie) =>
      if n in sw.bridges {
        forall k ensures k in Install(sw.bridges[n].flows, rules, cookie, HostWriter) ==>
                           (Install(sw.bridges[n].flows, rules, cookie, HostWriter)[k].writer == HostWriter
                            || (k in sw.bridges[n].flows && Install(sw.bridges[n].flows, rules, cookie, HostWriter)[k] == sw.bridges[n].flows[k])) {
          InstallAt(sw.bridges[n].flows, rules, cookie, HostWriter, k);
        }
      }
    case OvsRestart =>
    case AddBridge(_) =>
    case DelBridge(_) =>
  }

  const EMPTY_SWITCH := Switch(map[], [], 0)

  /**
   * In every run from an empty switch, whatever commands fail and in whatever order the passes
   * come, each flow written for a pod sits on a bridge that still carries that pod's tag.
   */
  lemma {:induction false} FlowsSitOnTaggedBridges(env: Env, passes: seq<Pass>)
    requires forall p :: p in passes ==> Legal(p)
    ensures Inv(Run(EMPTY_SWITCH, env, passes), env)
  {
    if passes != [] {
      var n := |passes| - 1;
      assert passes[n] in passes;
      FlowsSitOnTaggedBridges(env, passes[..n]);
      PassKeeps(Run(EMPTY_SWITCH, env, passes[..n]), env, passes[n]);
    }
  }

  lemma {:induction false} AddRulesInstalls(sw: Switch, env: Env, name: string, rules: seq<Rule>, cookie: nat, writer: Writer)
    requires name in sw.bridges && AddRules(sw, env, name, rules, cookie, writer).1
    ensures var sw' := AddRules(sw, env, name, rules, cookie, writer).0;
            && OnlyAt(sw, sw', name)
            && sw'.bridges[name] == sw.bridges[name].(flows := Install(sw.bridges[name].flows, rules, cookie, writer))
    decreases |rules|
  {
    if rules != [] {
      AddRulesInstalls(AddFlow(sw, env, name, rules[0], cookie, writer).0, env, name, rules[1..], cookie, writer);
    }
  }

  /**
   * What the tag check is for: whatever happened since, a pod's flows leave the bridge in order if
   * and only if the tag is there when they are written.
   */
  lemma {:induction false} TagDecides(sw: Switch, env: Env, name: string, uid: string, vf: string, ip: string)
    requires Inv(sw, env) && name in sw.bridges
    requires AddRules(sw, env, name, PodRules(vf, ip), env.cookie(uid), PodWriter(uid)).1
    ensures var sw' := AddRules(sw, env, name, PodRules(vf, ip), env.cookie(uid), PodWriter(uid)).0;
            && name in sw'.bridges
            && (TaggedFlows(sw'.bridges[name], env) <==> Get(sw.bridges[name].ids, uid) == RAIL_POD_ID)
  {
    hide Get;
    var rules, writer := PodRules(vf, ip), PodWriter(uid);
    var sw' := AddRules(sw, env, name, rules, env.cookie(uid), writer).0;
    AddRulesInstalls(sw, env, name, rules, env.cookie(uid), writer);
    if Get(sw.bridges[name].ids, uid) == RAIL_POD_ID {
      AddRulesKeeps(sw, env, name, rules, uid);
      assert GoodBridge(sw'.bridges[name], env);
    } else {
      assert rules[0].key == ArpTo(ip);
      InstallAt(sw.bridges[name].flows, rules, env.cookie(uid), writer, ArpTo(ip));
      assert sw'.bridges[name].flows[ArpTo(ip)].writer == writer;
    }
  }

  /** So passes must not overlap: the check passes, the bridge is cleaned, the flows come last and untagged. */
  lemma {:induction false} OverlapLosesTag(sw: Switch, env: Env, name: string, uid: string, vf: string, ip: string)
    requires Inv(sw, env) && ReadId(sw, env, name, uid) == Some(RAIL_POD_ID)
    requires CleanBridge(Tick(sw), env, name, uid).1
    requires AddRules(CleanBridge(Tick(sw), env, name, uid).0, env, name, PodRules(vf, ip), env.cookie(uid), PodWriter(uid)).1
    ensures var s2 := AddRules(CleanBridge(Tick(sw), env, name, uid).0, env, name, PodRules(vf, ip), env.cookie(uid), PodWriter(uid)).0;
            name in s2.bridges && !TaggedFlows(s2.bridges[name], env)
  {
    hide AddRules, Inv;
    var s1 := CleanBridge(Tick(sw), env, name, uid).0;
    CleanBridgeKeeps(Tick(sw), env, name, uid) by {
      assert Inv(Tick(sw), env) by { TickKeeps(sw, env); }
    }
    RemoveGet(sw.bridges[name].ids, uid, uid);
    TagDecides(s1, env, name, uid, vf, ip);
  }

  lemma {:induction false} TickKeeps(sw: Switch, env: Env)
    requires Inv(sw, env)
    ensures Inv(Tick(sw), env)
  {
  }

  // ------------------------------------------------------------ stale cleanup

  ghost predicate WellListed(sw: Switch) {
    && (forall n :: n in sw.bridges <==> n in sw.listing)
    && (forall i, j :: 0 <= i < j < |sw.listing| ==> sw.listing[i] != sw.listing[j])
    && (forall n :: n in sw.listing ==> '\n' !in n)
  }

  /** No tag and no flow of a pod outside the live set. */
  ghost predicate Swept(b: Bridge, live: set<string>) {
    && (forall p :: p in b.ids && p.1 == RAIL_POD_ID ==> p.0 in live)
    && (forall k :: k in b.flows && b.flows[k].writer.PodWriter? ==> b.flows[k].writer.uid in live)
  }

  /** The cookie of some tagged pod outside the live set. */
  ghost predicate StaleCookie(b: Bridge, env: Env, live: set<string>, cookie: nat) {
    exists u :: (u, RAIL_POD_ID) in b.ids && u !in live && env.cookie(u) == cookie
  }

  /** Only flows with a stale cookie and tags of stale pods may have gone; nothing was added. */
  ghost predicate OnlyStaleGone(env: Env, b: Bridge, b': Bridge, live: set<string>) {
    && (forall p :: p in b'.ids ==> p in b.ids)
    && (forall p :: p in b.ids && (p.1 != RAIL_POD_ID || p.0 in live) ==> p in b'.ids)
    && (forall k :: k in b'.flows ==> k in b.flows && b'.flows[k] == b.flows[k])
    && (forall k :: k in b.flows && !StaleCookie(b, env, live, b.flows[k].cookie) ==> k in b'.flows)
  }

  lemma {:induction false} StaleElements(pods: seq<string>, live: set<string>)
    ensures forall u :: u in Stale(pods, live) <==> u in pods && u !in live
  {
    if pods != [] {
      StaleElements(pods[1..], live);
      assert forall u :: u in pods <==> u == pods[0] || u in pods[1..];
    }
  }

  lemma {:induction false} SweptWhenTagsAre(b: Bridge, env: Env, live: set<string>)
    requires GoodBridge(b, env)
    requires forall p :: p in b.ids && p.1 == RAIL_POD_ID ==> p.0 in live
    ensures Swept(b, live)
  {
    forall k | k in b.flows && b.flows[k].writer.PodWriter? ensures b.flows[k].writer.uid in live {
      GetPresent(b.ids, b.flows[k].writer.uid);
      assert (b.flows[k].writer.uid, RAIL_POD_ID) in b.ids;
    }
  }

  lemma {:induction false} KeysAreUnique(ids: Ids, key: string, v: string, w: string)
    requires UniqueKeys(ids) && (key, v) in ids && (key, w) in ids
    ensures v == w
  {
    var i :| 0 <= i < |ids| && ids[i] == (key, v);
    var j :| 0 <= j < |ids| && ids[j] == (key, w);
    assert i == j;
  }

  /** The keys the cleanup takes for stale pods: their value looks like the tag and they are not live. */
  ghost function StaleKeys(b: Bridge, live: set<string>): set<string> {
    set p | p in b.ids && LooksLikeRailTag(p.1) && p.0 !in live :: p.0
  }

  /** The cleanup did to the bridge what it does to `StaleKeys`, and all of it when `done`. */
  ghost predicate Cleaned(env: Env, b: Bridge, b': Bridge, live: set<string>, done: bool) {
    && LosesPods(env, b, b', StaleKeys(b, live), done)
    && (done ==> Swept(b', live))
    && (Unmistakable(b.ids) ==> OnlyStaleGone(env, b, b', live))
  }

  lemma {:induction false} StaleKeysFound(b: Bridge, live: set<string>)
    requires Printable(b.ids)
    ensures (set p | p in Stale(Scan(Print(b.ids)), live)) == StaleKeys(b, live)
  {
    hide LooksLikeRailTag;
    ScanFinds(b.ids);
    StaleElements(KeysOf(b.ids, LooksLikeRailTag), live);
    forall u ensures u in KeysOf(b.ids, LooksLikeRailTag) && u !in live <==> u in StaleKeys(b, live) {
      KeysOfElements(b.ids, LooksLikeRailTag, u);
      if u in StaleKeys(b, live) {
        var p :| p in b.ids && LooksLikeRailTag(p.1) && p.0 !in live && p.0 == u;
        assert (u, p.1) in b.ids;
      }
    }
  }

  lemma {:induction false} ShrunkIsCleaned(env: Env, b: Bridge, b': Bridge, live: set<string>, done: bool)
    requires GoodBridge(b, env) && GoodBridge(b', env) && LosesPods(env, b, b', StaleKeys(b, live), done)
    ensures Cleaned(env, b, b', live, done)
  {
    assert LooksLikeRailTag(RAIL_POD_ID) by {
      assert RAIL_POD_ID[..|RAIL_POD_ID|] == RAIL_POD_ID;
    }
    if done {
      forall p | p in b'.ids && p.1 == RAIL_POD_ID ensures p.0 in live {
        assert p in b.ids;
      }
      SweptWhenTagsAre(b', env, live);
    }
    if Unmistakable(b.ids) {
      UnmistakenShrink(env, b, b', live, done);
    }
  }

  lemma {:induction false} UnmistakenShrink(env: Env, b: Bridge, b': Bridge, live: set<string>, done: bool)
    requires UniqueKeys(b.ids) && Unmistakable(b.ids) && LosesPods(env, b, b', StaleKeys(b, live), done)
    ensures OnlyStaleGone(env, b, b', live)
  {
    hide LooksLikeRailTag;
    var gone := StaleKeys(b, live);
    forall u | u in gone ensures (u, RAIL_POD_ID) in b.ids && u !in live {
      var p :| p in b.ids && LooksLikeRailTag(p.1) && p.0 !in live && p.0 == u;
      assert p == (u, RAIL_POD_ID);
    }
    forall p | p in b.ids && (p.1 != RAIL_POD_ID || p.0 in live) ensures p.0 !in gone {
      if p.0 in gone {
        KeysAreUnique(b.ids, p.0, p.1, RAIL_POD_ID);
      }
    }
    forall k | k in b.flows && !StaleCookie(b, env, live, b.flows[k].cookie) ensures k in b'.flows {
      assert forall u :: u in gone ==> env.cookie(u) != b.flows[k].cookie;
    }
  }

  lemma {:induction false} CleanupOnSweeps(sw: Switch, env: Env, name: string, live: set<string>)
    requires Inv(sw, env) && name in sw.bridges && Printable(sw.bridges[name].ids)
    ensures var (sw', ok) := CleanupOn(sw, env, name, live);
            name in sw'.bridges && Cleaned(env, sw.bridges[name], sw'.bridges[name], live, ok)
  {
    hide GoodBridge, Cleaned, Printable;
    CleanupOnKeeps(sw, env, name, live);
    var b := sw.bridges[name];
    var (sw', ok) := CleanupOn(sw, env, name, live);
    if ReadIds(sw, env, name).Some? {
      var pods := Stale(Scan(Print(b.ids)), live);
      CleanPodsKeeps(Tick(sw), env, name, pods, true);
      StaleKeysFound(b, live);
    }
    ShrunkIsCleaned(env, b, sw'.bridges[name], live, ok);
  }

  lemma {:induction false} CleanupOnAllSweeps(sw: Switch, env: Env, names: seq<string>, live: set<string>, failed: set<string>)
    requires Inv(sw, env) && forall n :: n in names ==> n in sw.bridges
    requires forall i, j :: 0 <= i < j < |names| ==> names[i] != names[j]
    ensures var (sw', failed') := CleanupOnAll(sw, env, names, live, failed);
            && failed <= failed' && (forall n :: n in failed' ==> n in failed || n in names)
            && sw'.bridges.Keys == sw.bridges.Keys
            && (forall n :: n in sw.bridges && n !in names ==> sw'.bridges[n] == sw.bridges[n])
            && (forall n :: n in names && Printable(sw.bridges[n].ids) ==>
                  Cleaned(env, sw.bridges[n], sw'.bridges[n], live, n !in failed') || n in failed)
    decreases |names|
  {
    hide CleanupOn, Cleaned, Printable, Inv;
    if names != [] {
      var (s1, ok) := CleanupOn(sw, env, names[0], live);
      assert names[0] in names;
      CleanupOnKeeps(sw, env, names[0], live);
      if Printable(sw.bridges[names[0]].ids) {
        CleanupOnSweeps(sw, env, names[0], live);
      }
      assert forall n :: n in names[1..] ==> n in names && n != names[0];
      CleanupOnAllSweeps(s1, env, names[1..], live, if ok then failed else failed + {names[0]});
      assert forall n :: n in names <==> n == names[0] || n in names[1..];
      assert names[0] !in names[1..];
    }
  }

  /**
   * Stale cleanup, bridge by bridge. What goes are the keys whose value looks like the tag and that
   * are not live, and the flows with their cookies: nothing else on any bridge, and all of them on
   * a bridge without a failed command, which then keeps no tag and no flow of a pod outside the
   * live set. Where no other value looks like the tag, only stale state goes.
   */
  lemma {:induction false} StaleCleanupSweeps(sw: Switch, env: Env, live: set<string>, n: string)
    requires Inv(sw, env) && WellListed(sw) && n in sw.bridges && Printable(sw.bridges[n].ids)
    ensures var (sw', report) := CleanupStaleFlows(sw, env, live);
            && sw'.bridges.Keys == sw.bridges.Keys
            && Cleaned(env, sw.bridges[n], sw'.bridges[n], live, report.Done? && n !in report.failed)
  {
    hide Cleaned, Printable;
    SplitJoin(sw.listing, '\n');
    var (sw', report) := CleanupStaleFlows(sw, env, live);
    if Succeeds(sw, env) {
      CleanupOnAllSweeps(Tick(sw), env, sw.listing, live, {});
    } else {
      NothingCleaned(env, sw.bridges[n], live);
    }
  }

  lemma {:induction false} CleanupKeepsBridges(sw: Switch, env: Env, live: set<string>)
    requires Inv(sw, env) && WellListed(sw)
    ensures CleanupStaleFlows(sw, env, live).0.bridges.Keys == sw.bridges.Keys
  {
    hide Cleaned, Printable, Inv;
    SplitJoin(sw.listing, '\n');
    if Succeeds(sw, env) && sw.listing != [] {
      TickKeeps(sw, env);
      CleanupOnAllSweeps(Tick(sw), env, sw.listing, live, {});
    } else if Succeeds(sw, env) {
      assert CleanupOn(Tick(sw), env, "", live) == (Tick(Tick(sw)), false);
      assert [""][1..] == [] && {} + {""} == {""};
      assert CleanupOnAll(Tick(sw), env, [""], live, {}) == CleanupOnAll(Tick(Tick(sw)), env, [], live, {""});
    }
  }

  lemma {:induction false} NothingCleaned(env: Env, b: Bridge, live: set<string>)
    ensures Cleaned(env, b, b, live, false)
  {
  }

  // ------------------------------------------------------------- pod deletion

  /** Neither the tag nor a flow of the pod is left. */
  ghost predicate PodGone(b: Bridge, uid: string) {
    Get(b.ids, uid) != RAIL_POD_ID && forall k :: k in b.flows ==> b.flows[k].writer != PodWriter(uid)
  }

  lemma {:induction false} DeleteOnClears(sw: Switch, env: Env, name: string, uid: string)
    requires Inv(sw, env) && name in sw.bridges
    ensures var (sw', ok) := DeleteOn(sw, env, name, uid);
            && OnlyAt(sw, sw', name) && Inv(sw', env)
            && LosesPods(env, sw.bridges[name], sw'.bridges[name], {uid}, false)
            && (ok ==> PodGone(sw'.bridges[name], uid))
            && (Get(sw.bridges[name].ids, uid) != RAIL_POD_ID ==> sw'.bridges[name] == sw.bridges[name])
  {
    hide CleanBridge, PodGone, GoodBridge;
    CleanBridgeKeeps(Tick(sw), env, name, uid);
    var (sw', ok) := DeleteOn(sw, env, name, uid);
    var b' := sw'.bridges[name];
    if ok {
      if Get(sw.bridges[name].ids, uid) == RAIL_POD_ID {
        assert forall v :: (uid, v) !in b'.ids;
      }
      GetPresent(b'.ids, uid);
      UntaggedIsGone(b', env, uid);
    }
  }

  lemma {:induction false} UntaggedIsGone(b: Bridge, env: Env, uid: string)
    requires GoodBridge(b, env) && Get(b.ids, uid) != RAIL_POD_ID
    ensures PodGone(b, uid)
  {
    forall k | k in b.flows ensures b.flows[k].writer != PodWriter(uid) {
      assert b.flows[k].writer.PodWriter? ==> Get(b.ids, b.flows[k].writer.uid) == RAIL_POD_ID;
    }
  }

  lemma {:induction false} DeleteOnAllClears(sw: Switch, env: Env, names: seq<string>, uid: string, failed: set<string>)
    requires Inv(sw, env) && forall n :: n in names ==> n in sw.bridges
    requires forall i, j :: 0 <= i < j < |names| ==> names[i] != names[j]
    ensures var (sw', failed') := DeleteOnAll(sw, env, names, uid, failed);
            && failed <= failed' && sw'.bridges.Keys == sw.bridges.Keys
            && (forall n :: n in sw.bridges && n !in names ==> sw'.bridges[n] == sw.bridges[n])
            && (forall n :: n in names ==> LosesPods(env, sw.bridges[n], sw'.bridges[n], {uid}, false))
            && (forall n :: n in names && n !in failed' ==> PodGone(sw'.bridges[n], uid))
            && (forall n :: n in names && Get(sw.bridges[n].ids, uid) != RAIL_POD_ID ==> sw'.bridges[n] == sw.bridges[n])
    decreases |names|
  {
    hide DeleteOn, LosesPods, PodGone, Inv, Get;
    if names != [] {
      var (s1, ok) := DeleteOn(sw, env, names[0], uid);
      assert names[0] in names;
      DeleteOnClears(sw, env, names[0], uid);
      assert forall n :: n in names[1..] ==> n in names && n != names[0];
      DeleteOnAllClears(s1, env, names[1..], uid, if ok then failed else failed + {names[0]});
      assert forall n :: n in names <==> n == names[0] || n in names[1..];
    }
  }

  /**
   * Deleting a pod, bridge by bridge: a bridge without its tag is not touched, elsewhere only its own
   * tag and flows with its cookie can go, and a bridge without a failed command keeps neither.
   */
  lemma {:induction false} PodDeletionSweeps(sw: Switch, env: Env, uid: string)
    requires Inv(sw, env) && WellListed(sw)
    ensures var (sw', report) := DeletePodRailFlows(sw, env, uid);
            && sw'.bridges.Keys == sw.bridges.Keys
            && (forall n :: n in sw.bridges ==> LosesPods(env, sw.bridges[n], sw'.bridges[n], {uid}, false))
            && (forall n :: n in sw.bridges && report.Done? && n !in report.failed ==> PodGone(sw'.bridges[n], uid))
            && (forall n :: n in sw.bridges && Get(sw.bridges[n].ids, uid) != RAIL_POD_ID ==> sw'.bridges[n] == sw.bridges[n])
  {
    hide PodGone, Get;
    SplitJoin(sw.listing, '\n');
    if Succeeds(sw, env) && sw.listing != [] {
      DeleteOnAllClears(Tick(sw), env, sw.listing, uid, {});
    } else if Succeeds(sw, env) {
      assert DeleteOn(Tick(sw), env, "", uid) == (Tick(Tick(sw)), false);
      assert [""][1..] == [] && {} + {""} == {""};
      assert DeleteOnAll(Tick(sw), env, [""], uid, {}) == DeleteOnAll(Tick(Tick(sw)), env, [], uid, {""});
    }
  }

  // ------------------------------------------------------------ pod reconcile

  /** The rules of the attachments on one bridge, in order. */
  function RulesOn(atts: seq<Attachment>, name: string): seq<Rule>
    requires forall a :: a in atts ==> |a.ips| > 0
  {
    if atts == [] then []
    else
      assert atts[0] in atts;
      (if atts[0].bridge == name then PodRules(atts[0].rep, atts[0].ips[0]) else []) + RulesOn(atts[1..], name)
  }

  /** What a reconciled pod makes of a bridge: its rules are installed where its tag is, and nothing else changes. */
  function Reconciled(b: Bridge, env: Env, uid: string, rules: seq<Rule>): Bridge {
    if Get(b.ids, uid) == RAIL_POD_ID then b.(flows := Install(b.flows, rules, env.cookie(uid), PodWriter(uid))) else b
  }

  lemma {:induction false} InstallSplit(t: Table, r1: seq<Rule>, r2: seq<Rule>, cookie: nat, writer: Writer)
    ensures Install(t, r1 + r2, cookie, writer) == Install(Install(t, r1, cookie, writer), r2, cookie, writer)
    decreases |r1|
  {
    if r1 == [] {
      assert r1 + r2 == r2;
    } else {
      assert (r1 + r2)[1..] == r1[1..] + r2;
      InstallSplit(t[r1[0].key := Flow(cookie, writer, r1[0].actions)], r1[1..], r2, cookie, writer);
    }
  }

  lemma {:induction false} FailedGrows(sw: Switch, env: Env, uid: string, atts: seq<Attachment>, failed: set<string>)
    requires forall a :: a in atts ==> |a.ips| > 0
    ensures failed <= HandlePod(sw, env, uid, atts, failed).1
    decreases |atts|
  {
    hide Attach;
    if atts != [] {
      assert atts[0] in atts;
      var (s1, ok) := Attach(sw, env, uid, atts[0]);
      FailedGrows(s1, env, uid, atts[1..], if ok then failed else failed + {atts[0].iface});
    }
  }

  lemma {:induction false} AttachInstalls(sw: Switch, env: Env, uid: string, a: Attachment)
    requires |a.ips| > 0 && Attach(sw, env, uid, a).1
    ensures var sw' := Attach(sw, env, uid, a).0;
            && OnlyAt(sw, sw', a.bridge) && a.bridge in sw.bridges
            && sw'.bridges[a.bridge] == Reconciled(sw.bridges[a.bridge], env, uid, PodRules(a.rep, a.ips[0]))
  {
    hide AddRules, Install, PodRules;
    var s3 := Tick(Tick(Tick(sw)));
    if Get(sw.bridges[a.bridge].ids, uid) == RAIL_POD_ID {
      AddRulesInstalls(s3, env, a.bridge, PodRules(a.rep, a.ips[0]), env.cookie(uid), PodWriter(uid));
    }
  }

  /** A pod reconcile that reports no error turns every bridge into its reconciled form. */
  lemma {:induction false} PodReconcileInstalls(sw: Switch, env: Env, uid: string, atts: seq<Attachment>, failed: set<string>)
    requires forall a :: a in atts ==> |a.ips| > 0
    requires HandlePod(sw, env, uid, atts, failed).1 == {}
    ensures var sw' := HandlePod(sw, env, uid, atts, failed).0;
            && sw'.bridges.Keys == sw.bridges.Keys
            && forall n :: n in sw.bridges ==> sw'.bridges[n] == Reconciled(sw.bridges[n], env, uid, RulesOn(atts, n))
    decreases |atts|
  {
    hide Attach, Install, PodRules;
    if atts == [] {
      forall n | n in sw.bridges ensures Reconciled(sw.bridges[n], env, uid, RulesOn(atts, n)) == sw.bridges[n] {
        InstallNothing(sw.bridges[n].flows, env.cookie(uid), PodWriter(uid));
      }
    } else {
      var a := atts[0];
      assert a in atts;
      var (s1, ok) := Attach(sw, env, uid, a);
      FailedGrows(s1, env, uid, atts[1..], if ok then failed else failed + {a.iface});
      AttachInstalls(sw, env, uid, a);
      PodReconcileInstalls(s1, env, uid, atts[1..], failed);
      forall n | n in sw.bridges
        ensures Reconciled(s1.bridges[n], env, uid, RulesOn(atts[1..], n)) == Reconciled(sw.bridges[n], env, uid, RulesOn(atts, n))
      {
        InstallSplit(sw.bridges[n].flows, PodRules(a.rep, a.ips[0]), RulesOn(atts[1..], n), env.cookie(uid), PodWriter(uid));
        assert [] + RulesOn(atts[1..], n) == RulesOn(atts[1..], n);
      }
    }
  }

  lemma {:induction false} InstallNothing(t: Table, cookie: nat, writer: Writer)
    ensures Install(t, [], cookie, writer) == t
  {
  }

  // ------------------------------------------------- from the pod's annotation

  /** The positions of the pci networks: all of them, in order. */
  function PciPositions(ns: seq<NetworkStatus>): (at: seq<nat>)
    ensures forall k :: 0 <= k < |at| ==> at[k] < |ns| && ns[at[k]].pci
    ensures forall k, l :: 0 <= k < l < |at| ==> at[k] < at[l]
    ensures forall i :: 0 <= i < |ns| && ns[i].pci ==> i in at
  {
    if ns == [] then []
    else
      var n := |ns| - 1;
      var rest := PciPositions(ns[..n]);
      assert forall i :: 0 <= i < n ==> ns[..n][i] == ns[i];
      if ns[n].pci then rest + [n] else rest
  }

  /** The relevant attachments are those of the pci networks, in their order. */
  lemma {:induction false} RelevantAre(ns: seq<NetworkStatus>)
    ensures |Relevant(ns)| == |PciPositions(ns)|
    ensures forall k :: 0 <= k < |PciPositions(ns)| ==> Relevant(ns)[k] == ns[PciPositions(ns)[k]].att
  {
    if ns != [] {
      hide Relevant;
      var n := |ns| - 1;
      RelevantAre(ns[..n]);
      RelevantLast(ns);
    } else {
      assert Relevant(ns) == [];
    }
  }

  lemma {:induction false} RelevantLast(ns: seq<NetworkStatus>)
    requires ns != []
    ensures var n := |ns| - 1; Relevant(ns) == Relevant(ns[..n]) + if ns[n].pci then [ns[n].att] else []
  {
    if |ns| == 1 {
      assert ns[1..] == [] && ns[..0] == [];
    } else {
      RelevantLast(ns[1..]);
      assert ns[1..][..|ns| - 2] == ns[..|ns| - 1][1..];
    }
  }

  /** Network i is a pci network attached to the bridge. */
  predicate OnBridge(ns: seq<NetworkStatus>, name: string, i: nat) {
    i < |ns| && ns[i].pci && ns[i].att.bridge == name
  }

  /** Network i is on the bridge, and no later one there has its first address. */
  ghost predicate LastOnBridge(ns: seq<NetworkStatus>, name: string, i: nat)
    requires HasAddresses(ns)
  {
    OnBridge(ns, name, i) && forall j: nat :: i < j && OnBridge(ns, name, j) ==> ns[j].att.ips[0] != ns[i].att.ips[0]
  }

  predicate HasAddresses(ns: seq<NetworkStatus>) {
    forall i :: 0 <= i < |ns| && ns[i].pci ==> |ns[i].att.ips| > 0
  }

  /** The keys of the flows a network gets: ARP and ip to its first address, ip from its representor. */
  predicate KeyOf(a: Attachment, k: FlowKey)
    requires |a.ips| > 0
  {
    k == ArpTo(a.ips[0]) || k == IpTo(a.ips[0]) || k == IpFrom(a.rep)
  }

  /**
   * What the annotation asks for on a bridge: ip from each representor goes on to table 1, ARP and ip
   * to each first address go to the representor of the last network that has it, all under the pod's
   * cookie; every other flow is as before.
   */
  ghost predicate Attached(t: Table, t': Table, cookie: nat, uid: string, ns: seq<NetworkStatus>, name: string)
    requires HasAddresses(ns)
  {
    && (forall i: nat :: OnBridge(ns, name, i) ==>
          FlowIs(t', IpFrom(ns[i].att.rep), Flow(cookie, PodWriter(uid), [Resubmit(1)])))
    && (forall i: nat :: LastOnBridge(ns, name, i) ==>
          && FlowIs(t', ArpTo(ns[i].att.ips[0]), Flow(cookie, PodWriter(uid), [Output(ns[i].att.rep)]))
          && FlowIs(t', IpTo(ns[i].att.ips[0]), Flow(cookie, PodWriter(uid), [Output(ns[i].att.rep)])))
    && (forall k :: (forall i: nat :: OnBridge(ns, name, i) ==> !KeyOf(ns[i].att, k)) ==>
          (k in t' <==> k in t) && (k in t ==> t'[k] == t[k]))
  }

  predicate FlowIs(t: Table, k: FlowKey, f: Flow) {
    k in t && t[k] == f
  }

  lemma {:induction false} RelevantHaveAddresses(ns: seq<NetworkStatus>)
    ensures HasAddresses(ns) <==> forall a :: a in Relevant(ns) ==> |a.ips| > 0
  {
    var at := PciPositions(ns);
    RelevantAre(ns);
    if HasAddresses(ns) {
      forall a | a in Relevant(ns) ensures |a.ips| > 0 {
        var k :| 0 <= k < |at| && Relevant(ns)[k] == a;
        assert ns[at[k]].pci;
      }
    }
    if forall a :: a in Relevant(ns) ==> |a.ips| > 0 {
      forall i | 0 <= i < |ns| && ns[i].pci ensures |ns[i].att.ips| > 0 {
        var k :| 0 <= k < |at| && at[k] == i;
        assert Relevant(ns)[k] in Relevant(ns);
      }
    }
  }

  /** The rules of the pci networks on the bridge, first network first. */
  function RulesFor(ns: seq<NetworkStatus>, name: string): seq<Rule>
    requires HasAddresses(ns)
  {
    if ns == [] then []
    else
      (if ns[0].pci && ns[0].att.bridge == name then PodRules(ns[0].att.rep, ns[0].att.ips[0]) else []) + RulesFor(ns[1..], name)
  }

  lemma {:induction false} RulesForIs(ns: seq<NetworkStatus>, name: string)
    requires HasAddresses(ns) && forall a :: a in Relevant(ns) ==> |a.ips| > 0
    ensures RulesOn(Relevant(ns), name) == RulesFor(ns, name)
  {
    if ns != [] {
      RelevantHaveAddresses(ns[1..]);
      RulesForIs(ns[1..], name);
      if ns[0].pci {
        assert Relevant(ns)[0] == ns[0].att && Relevant(ns)[1..] == Relevant(ns[1..]);
      } else {
        assert Relevant(ns) == Relevant(ns[1..]);
        assert [] + RulesFor(ns[1..], name) == RulesFor(ns[1..], name);
      }
    }
  }

  /** Every rule comes from a network on the bridge. */
  lemma {:induction false} RulesForHas(ns: seq<NetworkStatus>, name: string, r: Rule) returns (i: nat)
    requires HasAddresses(ns) && r in RulesFor(ns, name)
    ensures OnBridge(ns, name, i) && r in PodRules(ns[i].att.rep, ns[i].att.ips[0])
  {
    if ns[0].pci && ns[0].att.bridge == name && r in PodRules(ns[0].att.rep, ns[0].att.ips[0]) {
      i := 0;
    } else {
      var j := RulesForHas(ns[1..], name, r);
      i := j + 1;
    }
  }

  lemma {:induction false} PodRulesAre(vf: string, ip: string, r: Rule)
    ensures r in PodRules(vf, ip) <==>
            r == Rule(ArpTo(ip), [Output(vf)]) || r == Rule(IpTo(ip), [Output(vf)]) || r == Rule(IpFrom(vf), [Resubmit(1)])
  {
    var rules := PodRules(vf, ip);
    assert rules == [Rule(ArpTo(ip), [Output(vf)]), Rule(IpTo(ip), [Output(vf)]), Rule(IpFrom(vf), [Resubmit(1)])];
  }

  /** A key of no network on the bridge is mentioned by no rule. */
  lemma {:induction false} NotMentioned(ns: seq<NetworkStatus>, name: string, k: FlowKey)
    requires HasAddresses(ns) && forall i: nat :: OnBridge(ns, name, i) ==> !KeyOf(ns[i].att, k)
    ensures !Mentions(RulesFor(ns, name), k)
  {
    if Mentions(RulesFor(ns, name), k) {
      LastActionsIsRule(RulesFor(ns, name), k);
      var r := Rule(k, LastActions(RulesFor(ns, name), k));
      var i := RulesForHas(ns, name, r);
      PodRulesAre(ns[i].att.rep, ns[i].att.ips[0], r);
    }
  }

  /** The flows of one network after its own rules and those of the networks behind it. */
  lemma {:induction false} FirstNetwork(t: Table, cookie: nat, uid: string, ns: seq<NetworkStatus>, name: string)
    requires HasAddresses(ns) && OnBridge(ns, name, 0)
    ensures var t', a := Install(t, RulesFor(ns, name), cookie, PodWriter(uid)), ns[0].att;
            && FlowIs(t', IpFrom(a.rep), Flow(cookie, PodWriter(uid), [Resubmit(1)]))
            && ((forall j: nat :: 0 < j && OnBridge(ns, name, j) ==> ns[j].att.ips[0] != a.ips[0]) ==>
                  && FlowIs(t', ArpTo(a.ips[0]), Flow(cookie, PodWriter(uid), [Output(a.rep)]))
                  && FlowIs(t', IpTo(a.ips[0]), Flow(cookie, PodWriter(uid), [Output(a.rep)])))
  {
    hide Install;
    var a, writer, rest := ns[0].att, PodWriter(uid), RulesFor(ns[1..], name);
    var own := PodRules(a.rep, a.ips[0]);
    var t1 := Install(t, own, cookie, writer);
    InstallSplit(t, own, rest, cookie, writer);
    OwnRules(t, cookie, uid, a);
    var k := IpFrom(a.rep);
    InstallAt(t1, rest, cookie, writer, k);
    if Mentions(rest, k) {
      LastActionsIsRule(rest, k);
      var i := RulesForHas(ns[1..], name, Rule(k, LastActions(rest, k)));
      PodRulesAre(ns[1..][i].att.rep, ns[1..][i].att.ips[0], Rule(k, LastActions(rest, k)));
    }
    if forall j: nat :: 0 < j && OnBridge(ns, name, j) ==> ns[j].att.ips[0] != a.ips[0] {
      forall i: nat | OnBridge(ns[1..], name, i)
        ensures !KeyOf(ns[1..][i].att, ArpTo(a.ips[0])) && !KeyOf(ns[1..][i].att, IpTo(a.ips[0]))
      {
        assert OnBridge(ns, name, i + 1);
      }
      NotMentioned(ns[1..], name, ArpTo(a.ips[0]));
      NotMentioned(ns[1..], name, IpTo(a.ips[0]));
      InstallAt(t1, rest, cookie, writer, ArpTo(a.ips[0]));
      InstallAt(t1, rest, cookie, writer, IpTo(a.ips[0]));
    }
  }

  /** The three flows of one attachment. */
  lemma {:induction false} OwnRules(t: Table, cookie: nat, uid: string, a: Attachment)
    requires |a.ips| > 0
    ensures var t1 := Install(t, PodRules(a.rep, a.ips[0]), cookie, PodWriter(uid));
            && FlowIs(t1, IpFrom(a.rep), Flow(cookie, PodWriter(uid), [Resubmit(1)]))
            && FlowIs(t1, ArpTo(a.ips[0]), Flow(cookie, PodWriter(uid), [Output(a.rep)]))
            && FlowIs(t1, IpTo(a.ips[0]), Flow(cookie, PodWriter(uid), [Output(a.rep)]))
  {
    hide Install;
    var rules, writer := PodRules(a.rep, a.ips[0]), PodWriter(uid);
    assert rules[0].key == ArpTo(a.ips[0]) && rules[1].key == IpTo(a.ips[0]) && rules[2].key == IpFrom(a.rep);
    forall k | Mentions(rules, k) ensures Rule(k, LastActions(rules, k)) in rules {
      LastActionsIsRule(rules, k);
    }
    forall k | Mentions(rules, k)
      ensures FlowIs(Install(t, rules, cookie, writer), k, Flow(cookie, writer, LastActions(rules, k)))
    {
      InstallAt(t, rules, cookie, writer, k);
    }
    PodRulesAre(a.rep, a.ips[0], Rule(ArpTo(a.ips[0]), LastActions(rules, ArpTo(a.ips[0]))));
    PodRulesAre(a.rep, a.ips[0], Rule(IpTo(a.ips[0]), LastActions(rules, IpTo(a.ips[0]))));
    PodRulesAre(a.rep, a.ips[0], Rule(IpFrom(a.rep), LastActions(rules, IpFrom(a.rep))));
  }

  lemma {:induction false} NetworkAt(t: Table, cookie: nat, uid: string, ns: seq<NetworkStatus>, name: string, i: nat)
    requires HasAddresses(ns) && OnBridge(ns, name, i)
    ensures var t', a := Install(t, RulesFor(ns, name), cookie, PodWriter(uid)), ns[i].att;
            && FlowIs(t', IpFrom(a.rep), Flow(cookie, PodWriter(uid), [Resubmit(1)]))
            && ((forall j: nat :: i < j && OnBridge(ns, name, j) ==> ns[j].att.ips[0] != a.ips[0]) ==>
                  && FlowIs(t', ArpTo(a.ips[0]), Flow(cookie, PodWriter(uid), [Output(a.rep)]))
                  && FlowIs(t', IpTo(a.ips[0]), Flow(cookie, PodWriter(uid), [Output(a.rep)])))
    decreases |ns|
  {
    hide Install, PodRules;
    if i == 0 {
      FirstNetwork(t, cookie, uid, ns, name);
    } else {
      var rest, writer := RulesFor(ns[1..], name), PodWriter(uid);
      var own := if ns[0].pci && ns[0].att.bridge == name then PodRules(ns[0].att.rep, ns[0].att.ips[0]) else [];
      InstallSplit(t, own, rest, cookie, writer);
      NetworkAt(Install(t, own, cookie, writer), cookie, uid, ns[1..], name, i - 1);
      if forall j: nat :: i < j && OnBridge(ns, name, j) ==> ns[j].att.ips[0] != ns[i].att.ips[0] {
        forall j: nat | i - 1 < j && OnBridge(ns[1..], name, j) ensures ns[1..][j].att.ips[0] != ns[i].att.ips[0] {
          assert OnBridge(ns, name, j + 1);
        }
      }
    }
  }

  /** An error-free pod reconcile gives every tagged bridge what the annotation asks for, and leaves all else alone. */
  lemma {:induction false} AnnotationInstalled(sw: Switch, env: Env, uid: string, ns: seq<NetworkStatus>, name: string)
    requires HasAddresses(ns) && (forall a :: a in Relevant(ns) ==> |a.ips| > 0) && name in sw.bridges
    requires HandlePod(sw, env, uid, Relevant(ns), {}).1 == {}
    ensures var sw', b := HandlePod(sw, env, uid, Relevant(ns), {}).0, sw.bridges[name];
            && name in sw'.bridges && sw'.bridges[name] == b.(flows := sw'.bridges[name].flows)
            && if Get(b.ids, uid) == RAIL_POD_ID
               then Attached(b.flows, sw'.bridges[name].flows, env.cookie(uid), uid, ns, name)
               else sw'.bridges[name] == b
  {
    hide HandlePod, Install, Get, FlowIs, KeyOf;
    PodReconcileInstalls(sw, env, uid, Relevant(ns), {});
    RulesForIs(ns, name);
    var b := sw.bridges[name];
    var rules, cookie := RulesFor(ns, name), env.cookie(uid);
    var t' := Install(b.flows, rules, cookie, PodWriter(uid));
    assert Attached(b.flows, t', cookie, uid, ns, name) by {
      forall i: nat | OnBridge(ns, name, i)
        ensures FlowIs(t', IpFrom(ns[i].att.rep), Flow(cookie, PodWriter(uid), [Resubmit(1)]))
      {
        NetworkAt(b.flows, cookie, uid, ns, name, i);
      }
      forall i: nat | LastOnBridge(ns, name, i)
        ensures FlowIs(t', ArpTo(ns[i].att.ips[0]), Flow(cookie, PodWriter(uid), [Output(ns[i].att.rep)]))
        ensures FlowIs(t', IpTo(ns[i].att.ips[0]), Flow(cookie, PodWriter(uid), [Output(ns[i].att.rep)]))
      {
        NetworkAt(b.flows, cookie, uid, ns, name, i);
      }
      forall k | forall i: nat :: OnBridge(ns, name, i) ==> !KeyOf(ns[i].att, k)
        ensures (k in t' <==> k in b.flows) && (k in b.flows ==> t'[k] == b.flows[k])
      {
        NotMentioned(ns, name, k);
        InstallAt(b.flows, rules, cookie, PodWriter(uid), k);
      }
    }
  }

  // -------------------------------------------------------- live pods, no errors

  /**
   * A flow goes only if its cookie is that of a key the cleanup takes for stale, and on a bridge
   * without a failed command exactly then; so live pods whose cookie no such key shares are safe.
   */
  lemma {:induction false} FlowSurvivesIff(sw: Switch, env: Env, live: set<string>, n: string, k: FlowKey)
    requires Inv(sw, env) && WellListed(sw) && n in sw.bridges && Printable(sw.bridges[n].ids) && k in sw.bridges[n].flows
    ensures var (sw', report) := CleanupStaleFlows(sw, env, live);
            var hit := exists u :: u in StaleKeys(sw.bridges[n], live) && env.cookie(u) == sw.bridges[n].flows[k].cookie;
            && n in sw'.bridges
            && (k in sw'.bridges[n].flows ==> sw'.bridges[n].flows[k] == sw.bridges[n].flows[k])
            && (!hit ==> k in sw'.bridges[n].flows)
            && (report.Done? && n !in report.failed ==> (k in sw'.bridges[n].flows <==> !hit))
  {
    hide StaleKeys, Inv, WellListed, Printable, CleanupStaleFlows;
    StaleCleanupSweeps(sw, env, live, n);
  }

  lemma {:induction false} CleanPodsSucceeds(sw: Switch, env: Env, name: string, pods: seq<string>)
    requires name in sw.bridges && forall t :: t >= sw.clock ==> env.oracle(t).Ok?
    ensures CleanPods(sw, env, name, pods, true).1
    ensures CleanPods(sw, env, name, pods, true).0.bridges.Keys == sw.bridges.Keys
    ensures CleanPods(sw, env, name, pods, true).0.clock >= sw.clock
    decreases |pods|
  {
    if pods != [] {
      var (s1, cleaned) := CleanBridge(sw, env, name, pods[0]);
      CleanPodsSucceeds(s1, env, name, pods[1..]);
    }
  }

  lemma {:induction false} CleanupOnAllSucceeds(sw: Switch, env: Env, names: seq<string>, live: set<string>, failed: set<string>)
    requires forall t :: t >= sw.clock ==> env.oracle(t).Ok?
    ensures CleanupOnAll(sw, env, names, live, failed).1 == failed + set n | n in names && n !in sw.bridges
    decreases |names|
  {
    if names != [] {
      var (s1, ok) := CleanupOn(sw, env, names[0], live);
      if names[0] in sw.bridges {
        CleanPodsSucceeds(Tick(sw), env, names[0], Stale(Scan(Print(sw.bridges[names[0]].ids)), live));
      }
      CleanupOnAllSucceeds(s1, env, names[1..], live, if ok then failed else failed + {names[0]});
      assert forall n :: n in names <==> n == names[0] || n in names[1..];
    }
  }

  lemma {:induction false} DeleteOnAllSucceeds(sw: Switch, env: Env, names: seq<string>, uid: string, failed: set<string>)
    requires forall t :: t >= sw.clock ==> env.oracle(t).Ok?
    ensures DeleteOnAll(sw, env, names, uid, failed).1 == failed + set n | n in names && n !in sw.bridges
    decreases |names|
  {
    if names != [] {
      var (s1, ok) := DeleteOn(sw, env, names[0], uid);
      assert s1.bridges.Keys == sw.bridges.Keys && ok == (names[0] in sw.bridges);
      DeleteOnAllSucceeds(s1, env, names[1..], uid, if ok then failed else failed + {names[0]});
      assert forall n :: n in names <==> n == names[0] || n in names[1..];
    }
  }

  /** When no command fails, a pod's deletion reports an error only for the empty name of an empty listing. */
  lemma {:induction false} DeletionErrorFree(sw: Switch, env: Env, uid: string)
    requires WellListed(sw) && forall t :: t >= sw.clock ==> env.oracle(t).Ok?
    ensures DeletePodRailFlows(sw, env, uid).1 == Done(if sw.listing == [] then {""} else {})
  {
    SplitJoin(sw.listing, '\n');
    DeleteOnAllSucceeds(Tick(sw), env, ListedNames(sw), uid, {});
    if sw.listing == [] {
      assert "" !in sw.bridges;
      assert (set n | n in [""] && n !in sw.bridges) == {""};
    }
  }

  lemma {:induction false} AddRulesSucceeds(sw: Switch, env: Env, name: string, rules: seq<Rule>, cookie: nat, writer: Writer)
    requires name in sw.bridges && forall t :: t >= sw.clock ==> env.oracle(t).Ok?
    ensures var (sw', ok) := AddRules(sw, env, name, rules, cookie, writer);
            ok && sw'.bridges.Keys == sw.bridges.Keys && sw'.clock >= sw.clock
    decreases |rules|
  {
    if rules != [] {
      AddRulesSucceeds(AddFlow(sw, env, name, rules[0], cookie, writer).0, env, name, rules[1..], cookie, writer);
    }
  }

  /** A pod reconcile reports exactly the interfaces on missing bridges when no command fails. */
  lemma {:induction false} ReconcileErrorFree(sw: Switch, env: Env, uid: string, atts: seq<Attachment>, failed: set<string>)
    requires (forall a :: a in atts ==> |a.ips| > 0) && forall t :: t >= sw.clock ==> env.oracle(t).Ok?
    ensures HandlePod(sw, env, uid, atts, failed).1 == failed + set a | a in atts && a.bridge !in sw.bridges :: a.iface
    decreases |atts|
  {
    if atts != [] {
      var a := atts[0];
      assert a in atts;
      var (s1, ok) := Attach(sw, env, uid, a);
      if ReadId(Tick(Tick(sw)), env, a.bridge, uid) == Some(RAIL_POD_ID) {
        AddRulesSucceeds(Tick(Tick(Tick(sw))), env, a.bridge, PodRules(a.rep, a.ips[0]), env.cookie(uid), PodWriter(uid));
      }
      assert s1.bridges.Keys == sw.bridges.Keys && s1.clock >= sw.clock && ok == (a.bridge in sw.bridges);
      ReconcileErrorFree(s1, env, uid, atts[1..], if ok then failed else failed + {a.iface});
      assert forall x :: x in atts <==> x == a || x in atts[1..];
    }
  }

  /** A series of add-flow commands goes on exactly until the first one that fails. */
  lemma {:induction false} AddRulesStops(sw: Switch, env: Env, name: string, rules: seq<Rule>, cookie: nat, writer: Writer)
    requires name in sw.bridges
    ensures var (sw', ok) := AddRules(sw, env, name, rules, cookie, writer);
            && sw.clock <= sw'.clock <= sw.clock + |rules|
            && (ok <==> forall t :: sw.clock <= t < sw.clock + |rules| ==> env.oracle(t).Ok?)
            && (!ok ==> sw'.clock > sw.clock && !env.oracle(sw'.clock - 1).Ok?
                        && forall t :: sw.clock <= t < sw'.clock - 1 ==> env.oracle(t).Ok?)
    decreases |rules|
  {
    if rules != [] {
      var (s1, ok) := AddFlow(sw, env, name, rules[0], cookie, writer);
      assert s1.clock == sw.clock + 1 && ok == env.oracle(sw.clock).Ok?;
      if ok {
        AddRulesStops(s1, env, name, rules[1..], cookie, writer);
      }
    }
  }

  /** A failed clean does not keep the others from being tried: one command or two for each pod. */
  lemma {:induction false} EveryStalePodIsTried(sw: Switch, env: Env, name: string, pods: seq<string>, ok: bool)
    ensures sw.clock + |pods| <= CleanPods(sw, env, name, pods, ok).0.clock <= sw.clock + 2 * |pods|
    decreases |pods|
  {
    if pods != [] {
      var (s1, cleaned) := CleanBridge(sw, env, name, pods[0]);
      assert sw.clock + 1 <= s1.clock <= sw.clock + 2;
      EveryStalePodIsTried(s1, env, name, pods[1..], ok && cleaned);
    }
  }

  /** Nor does a failed interface: each is tried, and only its own name is reported for it. */
  lemma {:induction false} EveryInterfaceIsTried(sw: Switch, env: Env, uid: string, atts: seq<Attachment>, failed: set<string>)
    requires forall a :: a in atts ==> |a.ips| > 0
    ensures var (sw', failed') := HandlePod(sw, env, uid, atts, failed);
            && sw'.clock >= sw.clock + |atts|
            && failed <= failed' && forall f :: f in failed' ==> f in failed || exists a :: a in atts && a.iface == f
    decreases |atts|
  {
    if atts != [] {
      assert atts[0] in atts;
      var (s1, ok) := Attach(sw, env, uid, atts[0]);
      AttachTicks(sw, env, uid, atts[0]);
      hide Attach;
      EveryInterfaceIsTried(s1, env, uid, atts[1..], if ok then failed else failed + {atts[0].iface});
      assert forall a :: a in atts[1..] ==> a in atts;
    }
  }

  lemma {:induction false} AttachTicks(sw: Switch, env: Env, uid: string, a: Attachment)
    requires |a.ips| > 0
    ensures Attach(sw, env, uid, a).0.clock > sw.clock
  {
    RulesTick(Tick(Tick(Tick(sw))), env, a.bridge, PodRules(a.rep, a.ips[0]), env.cookie(uid), PodWriter(uid));
  }

  lemma {:induction false} RulesTick(sw: Switch, env: Env, name: string, rules: seq<Rule>, cookie: nat, writer: Writer)
    ensures AddRules(sw, env, name, rules, cookie, writer).0.clock >= sw.clock
    decreases |rules|
  {
    if rules != [] {
      RulesTick(AddFlow(sw, env, name, rules[0], cookie, writer).0, env, name, rules[1..], cookie, writer);
    }
  }

  /** When no command fails, cleanup reports an error only for the empty name of an empty listing. */
  lemma {:induction false} CleanupErrorFree(sw: Switch, env: Env, live: set<string>)
    requires WellListed(sw) && forall t :: t >= sw.clock ==> env.oracle(t).Ok?
    ensures CleanupStaleFlows(sw, env, live).1 == Done(if sw.listing == [] then {""} else {})
  {
    SplitJoin(sw.listing, '\n');
    CleanupOnAllSucceeds(Tick(sw), env, ListedNames(sw), live, {});
    if sw.listing == [] {
      assert "" !in sw.bridges;
      assert (set n | n in [""] && n !in sw.bridges) == {""};
    }
  }
}
