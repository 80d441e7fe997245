/** OpenFlow tables as the operator writes them: keyed by table, priority and match, tagged by cookie. */
module FlowTables {
  import opened Basics

  datatype Proto = AnyProto | ArpProto | IpProto

  /** A flow match; None leaves a field wild. The last three are the multiplane metadata fields. */
  datatype Match = Match(
    proto: Proto, arpTpa: Option<string>, nwDst: Option<string>, inPort: Option<string>,
    pid: Option<nat>, strict: Option<nat>, preferred: Option<nat>)

  /** Normal is ordinary L2 switching; the operator never writes it, but a bridge may hold it. */
  datatype Action = Output(port: string) | ToGroup(id: nat) | Resubmit(table: nat) | Normal

  datatype FlowKey = FlowKey(table: nat, priority: nat, m: Match)

  /** Who wrote a flow: bookkeeping of the model, which no command can see. */
  datatype Writer = HostWriter | PodWriter(uid: string)

  datatype Flow = Flow(cookie: nat, writer: Writer, actions: seq<Action>)

  type Table = map<FlowKey, Flow>

  /** A bucket is used only while what it watches is live. */
  datatype Watch = WatchPort(port: string) | WatchGroup(id: nat)

  datatype Bucket = Bucket(watch: Watch, actions: seq<Action>)

  datatype Group = FastFailover(buckets: seq<Bucket>) | Select(buckets: seq<Bucket>)

  type Groups = map<nat, Group>

  datatype Rule = Rule(key: FlowKey, actions: seq<Action>)

  const DEFAULT_PRIORITY: nat := 32768
  const LOW_PRIORITY: nat := 16384

  const ANY: Match := Match(AnyProto, None, None, None, None, None, None)

  /** del-flows cookie=c/-1. */
  function DelFlows(t: Table, cookie: nat): Table {
    map k | k in t && t[k].cookie != cookie :: t[k]
  }

  /** A sequence of add-flow commands; adding an existing key replaces its flow. */
  function Install(t: Table, rules: seq<Rule>, cookie: nat, writer: Writer): Table
    decreases |rules|
  {
    if rules == [] then t
    else Install(t[rules[0].key := Flow(cookie, writer, rules[0].actions)], rules[1..], cookie, writer)
  }

  predicate Mentions(rules: seq<Rule>, k: FlowKey) {
    exists i :: 0 <= i < |rules| && rules[i].key == k
  }

  /** The actions the last rule for key k gives it. */
  function LastActions(rules: seq<Rule>, k: FlowKey): seq<Action>
    requires Mentions(rules, k)
  {
    var n := |rules| - 1;
    if rules[n].key == k then rules[n].actions
    else
      assert Mentions(rules[..n], k) by {
        var i :| 0 <= i < |rules| && rules[i].key == k;
        assert rules[..n][i].key == k;
      }
      LastActions(rules[..n], k)
  }

  lemma {:induction false} InstallLast(t: Table, rules: seq<Rule>, cookie: nat, writer: Writer)
    requires rules != []
    ensures var n := |rules| - 1;
            Install(t, rules, cookie, writer) ==
            Install(t, rules[..n], cookie, writer)[rules[n].key := Flow(cookie, writer, rules[n].actions)]
    decreases |rules|
  {
    var n := |rules| - 1;
    if n > 0 {
      InstallLast(t[rules[0].key := Flow(cookie, writer, rules[0].actions)], rules[1..], cookie, writer);
      assert rules[1..][..n - 1] == rules[..n][1..];
    }
  }

  /** Installing rules determines every key: the last rule for it wins, other keys are untouched. */
  lemma {:induction false} InstallAt(t: Table, rules: seq<Rule>, cookie: nat, writer: Writer, k: FlowKey)
    ensures k in Install(t, rules, cookie, writer) <==> k in t || Mentions(rules, k)
    ensures Mentions(rules, k) ==> Install(t, rules, cookie, writer)[k] == Flow(cookie, writer, LastActions(rules, k))
    ensures k in t && !Mentions(rules, k) ==> Install(t, rules, cookie, writer)[k] == t[k]
  {
    if rules != [] {
      var n := |rules| - 1;
      InstallLast(t, rules, cookie, writer);
      InstallAt(t, rules[..n], cookie, writer, k);
      assert rules == rules[..n] + [rules[n]];
      assert Mentions(rules, k) <==> Mentions(rules[..n], k) || rules[n].key == k by {
        if Mentions(rules[..n], k) {
          var i :| 0 <= i < |rules[..n]| && rules[..n][i].key == k;
          assert rules[i].key == k;
        }
        if Mentions(rules, k) && rules[n].key != k {
          var i :| 0 <= i < |rules| && rules[i].key == k;
          assert rules[..n][i].key == k;
        }
        if rules[n].key == k {
          assert Mentions(rules, k);
        }
      }
    }
  }

  lemma {:induction false} LastActionsIsRule(rules: seq<Rule>, k: FlowKey)
    requires Mentions(rules, k)
    ensures Rule(k, LastActions(rules, k)) in rules
  {
    var n := |rules| - 1;
    if rules[n].key == k {
      assert rules[n] in rules;
    } else {
      var i :| 0 <= i < |rules| && rules[i].key == k;
      assert rules[..n][i].key == k;
      LastActionsIsRule(rules[..n], k);
      assert Rule(k, LastActions(rules[..n], k)) in rules[..n];
    }
  }

  // --------------------------------------------------------- the pod's rules

  function ArpTo(ip: string): FlowKey {
    FlowKey(0, DEFAULT_PRIORITY, ANY.(proto := ArpProto, arpTpa := Some(ip)))
  }

  function IpTo(ip: string): FlowKey {
    FlowKey(0, DEFAULT_PRIORITY, ANY.(proto := IpProto, nwDst := Some(ip)))
  }

  function IpFrom(port: string): FlowKey {
    FlowKey(0, LOW_PRIORITY, ANY.(proto := IpProto, inPort := Some(port)))
  }

  /** AddPodRailFlows, in command order. */
  function PodRules(vf: string, ip: string): seq<Rule> {
    [Rule(ArpTo(ip), [Output(vf)]), Rule(IpTo(ip), [Output(vf)]), Rule(IpFrom(vf), [Resubmit(1)])]
  }

  // ------------------------------------------------------------ latest writer

  datatype PodPort = PodPort(uid: string, cookie: nat, vf: string, ip: string)

  datatype PodOp = AddPod(pod: PodPort) | CleanPod(cookie: nat)

  function ApplyOp(t: Table, op: PodOp): Table {
    match op
    case AddPod(p) => Install(t, PodRules(p.vf, p.ip), p.cookie, PodWriter(p.uid))
    case CleanPod(cookie) => DelFlows(t, cookie)
  }

  function Replay(ops: seq<PodOp>): Table {
    if ops == [] then map[] else ApplyOp(Replay(ops[..|ops| - 1]), ops[|ops| - 1])
  }

  predicate Writes(op: PodOp, k: FlowKey) {
    op.AddPod? && Mentions(PodRules(op.pod.vf, op.pod.ip), k)
  }

  /** Operation i wrote key k last, and its pod was not cleaned since. */
  ghost predicate HoldsKey(ops: seq<PodOp>, k: FlowKey, i: nat) {
    && i < |ops| && Writes(ops[i], k)
    && forall j :: i < j < |ops| ==> !Writes(ops[j], k) && ops[j] != CleanPod(ops[i].pod.cookie)
  }

  function PodFlow(p: PodPort, k: FlowKey): Flow
    requires Mentions(PodRules(p.vf, p.ip), k)
  {
    Flow(p.cookie, PodWriter(p.uid), LastActions(PodRules(p.vf, p.ip), k))
  }

  lemma {:induction false} HoldsKeyStep(ops: seq<PodOp>, k: FlowKey, i: nat)
    requires ops != []
    ensures var n, op := |ops| - 1, ops[|ops| - 1];
            HoldsKey(ops, k, i) <==> if i == n then Writes(op, k)
                                     else HoldsKey(ops[..n], k, i) && !Writes(op, k) && op != CleanPod(ops[i].pod.cookie)
  {
    hide Writes;
    var n := |ops| - 1;
    assert forall j :: 0 <= j < n ==> ops[..n][j] == ops[j];
  }

  /**
   * After any sequence of pod adds and cleans, a key is present exactly when its latest writer
   * was not cleaned since, and then it holds that writer's flow.
   */
  lemma {:induction false} LatestWriterHolds(ops: seq<PodOp>, k: FlowKey)
    ensures k in Replay(ops) <==> exists i: nat :: HoldsKey(ops, k, i)
    ensures forall i: nat :: HoldsKey(ops, k, i) ==> k in Replay(ops) && Replay(ops)[k] == PodFlow(ops[i].pod, k)
  {
    if ops != [] {
      hide Install, LastActions, PodRules, Mentions, HoldsKey;
      var n := |ops| - 1;
      var init, op := ops[..n], ops[n];
      LatestWriterHolds(init, k);
      if op.AddPod? {
        InstallAt(Replay(init), PodRules(op.pod.vf, op.pod.ip), op.pod.cookie, PodWriter(op.pod.uid), k);
      }
      forall i: nat | HoldsKey(ops, k, i)
        ensures k in Replay(ops) && Replay(ops)[k] == PodFlow(ops[i].pod, k)
      {
        HoldsKeyStep(ops, k, i);
      }
      if k in Replay(ops) {
        if Writes(op, k) {
          HoldsKeyStep(ops, k, n);
        } else {
          var i: nat :| HoldsKey(init, k, i);
          HoldsKeyStep(ops, k, i);
        }
      }
    }
  }

  /**
   * Reuse of an address or a VF is safe: once pod i has written its flows, cleaning any pods with
   * other cookies leaves all of them in place, as long as no later pod takes the same ip or vf.
   */
  lemma {:induction false} ReuseSurvivesCleanup(ops: seq<PodOp>, i: nat)
    requires i < |ops| && ops[i].AddPod?
    requires forall j :: i < j < |ops| ==>
               match ops[j]
               case AddPod(p) => p.vf != ops[i].pod.vf && p.ip != ops[i].pod.ip
               case CleanPod(cookie) => cookie != ops[i].pod.cookie
    ensures var p := ops[i].pod;
            forall k :: Mentions(PodRules(p.vf, p.ip), k) ==> k in Replay(ops) && Replay(ops)[k] == PodFlow(p, k)
  {
    var p := ops[i].pod;
    forall k | Mentions(PodRules(p.vf, p.ip), k) ensures k in Replay(ops) && Replay(ops)[k] == PodFlow(p, k) {
      forall j | i < j < |ops| ensures !Writes(ops[j], k) {
      }
      assert HoldsKey(ops, k, i);
      LatestWriterHolds(ops, k);
    }
  }
}
