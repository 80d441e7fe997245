/** The status of a SpectrumXRailPoolConfig: one entry per node and the pool-wide aggregate. */
module NodeStates {
  import opened Basics

  /** The four published states; any other text, such as the empty initial value, is Other. */
  datatype State = Unknown | InProgress | Failed | Succeeded | Other(text: string)

  datatype NodeState = NodeState(name: string, state: State, message: string, observedGeneration: nat)

  datatype Status = Status(syncStatus: State, nodeStates: seq<NodeState>, observedGeneration: nat)

  // ---------------------------------------------------------------- entries

  /** The position of the first entry of `name`, or |states| when there is none. */
  function FirstIndex(states: seq<NodeState>, name: string): (i: nat)
    ensures i <= |states|
    ensures forall j :: 0 <= j < i ==> states[j].name != name
    ensures i < |states| ==> states[i].name == name
  {
    if states == [] then 0
    else if states[0].name == name then 0
    else 1 + FirstIndex(states[1..], name)
  }

  /** First-match lookup. */
  function EntryOf(states: seq<NodeState>, name: string): Option<NodeState> {
    var i := FirstIndex(states, name);
    if i < |states| then Some(states[i]) else None
  }

  /** Overwrite the first entry of the same node, or append. */
  function Upsert(states: seq<NodeState>, e: NodeState): seq<NodeState> {
    var i := FirstIndex(states, e.name);
    if i < |states| then states[i := e] else states + [e]
  }

  ghost predicate UniqueNames(states: seq<NodeState>) {
    forall i, j :: 0 <= i < j < |states| ==> states[i].name != states[j].name
  }

  /** The first match is characterised by position, whatever computes it. */
  lemma {:induction false} EntryAt(states: seq<NodeState>, i: nat)
    requires i < |states|
    requires forall j :: 0 <= j < i ==> states[j].name != states[i].name
    ensures EntryOf(states, states[i].name) == Some(states[i])
  {
    var k := FirstIndex(states, states[i].name);
    assert k >= i;
    assert k <= i;
  }

  /** Writing one node's entry sets exactly that entry: every other node keeps its own. */
  lemma {:induction false} UpsertFrame(states: seq<NodeState>, e: NodeState, name: string)
    ensures EntryOf(Upsert(states, e), name) == if name == e.name then Some(e) else EntryOf(states, name)
  {
    var i := FirstIndex(states, e.name);
    var after := Upsert(states, e);
    assert forall j :: 0 <= j < |states| ==> after[j].name == states[j].name;
    if name == e.name {
      EntryAt(after, i);
    } else {
      var k := FirstIndex(states, name);
      if k < |states| {
        assert after[k] == states[k];
        EntryAt(after, k);
      } else {
        assert forall j :: 0 <= j < |after| ==> after[j].name != name;
      }
    }
  }

  lemma {:induction false} UpsertUnique(states: seq<NodeState>, e: NodeState)
    requires UniqueNames(states)
    ensures UniqueNames(Upsert(states, e))
  {
    var i := FirstIndex(states, e.name);
    var after := Upsert(states, e);
    assert forall j :: 0 <= j < |states| ==> after[j].name == states[j].name;
  }

  /** The last-wins map that aggregation builds from the entries. */
  function ByName(states: seq<NodeState>): map<string, NodeState> {
    if states == [] then map[]
    else ByName(states[..|states| - 1])[states[|states| - 1].name := states[|states| - 1]]
  }

  lemma {:induction false} ByNameDomain(states: seq<NodeState>)
    ensures forall n :: n in ByName(states) <==> exists i :: 0 <= i < |states| && states[i].name == n
    ensures forall n :: n in ByName(states) ==> ByName(states)[n] in states && ByName(states)[n].name == n
  {
    if states != [] {
      var init, last := states[..|states| - 1], states[|states| - 1];
      ByNameDomain(init);
      assert states == init + [last];
      forall n | n in ByName(states) ensures exists i :: 0 <= i < |states| && states[i].name == n {
        if n == last.name {
          assert states[|states| - 1].name == n;
        } else {
          assert n in ByName(init);
          var i: int :| 0 <= i < |init| && init[i].name == n;
          assert states[i].name == n;
        }
      }
      forall i | 0 <= i < |states| ensures states[i].name in ByName(states) {
        if i < |init| {
          assert init[i].name in ByName(init);
        }
      }
    }
  }

  /** With one entry per node, first-match lookup and the last-wins map agree. */
  lemma {:induction false} FirstMatchIsLastWins(states: seq<NodeState>, name: string)
    requires UniqueNames(states)
    ensures EntryOf(states, name) == if name in ByName(states) then Some(ByName(states)[name]) else None
  {
    ByNameDomain(states);
    var i := FirstIndex(states, name);
    if i < |states| {
      assert states[i].name in ByName(states);
      var j :| 0 <= j < |states| && states[j] == ByName(states)[name];
      assert i == j;
    }
  }

  /** The map holds the last entry of each name. */
  lemma {:induction false} ByNameAt(states: seq<NodeState>, j: nat)
    requires j < |states| && forall k :: j < k < |states| ==> states[k].name != states[j].name
    ensures states[j].name in ByName(states) && ByName(states)[states[j].name] == states[j]
  {
    var n := |states| - 1;
    if j < n {
      assert states[..n][j] == states[j];
      ByNameAt(states[..n], j);
    }
  }

  /** In any list, lookup and map agree on a node if and only if its first and its last entry are equal. */
  lemma {:induction false} LookupsAgreeIff(states: seq<NodeState>, first: nat, last: nat)
    requires first <= last < |states| && states[first].name == states[last].name
    requires forall k :: 0 <= k < first || last < k < |states| ==> states[k].name != states[first].name
    ensures var name := states[first].name;
            && EntryOf(states, name) == Some(states[first])
            && name in ByName(states) && ByName(states)[name] == states[last]
            && (EntryOf(states, name) == Some(ByName(states)[name]) <==> states[first] == states[last])
  {
    EntryAt(states, first);
    ByNameAt(states, last);
  }

  // ------------------------------------------------------------ aggregation

  /** What a node currently reports: its entry counts only when made for generation `gen`. */
  function Report(byName: map<string, NodeState>, gen: nat, node: string): Option<State> {
    if node in byName && byName[node].observedGeneration == gen then Some(byName[node].state) else None
  }

  /** The aggregate over a list of nodes, read off the last-wins map. */
  function Aggregate(nodes: seq<string>, byName: map<string, NodeState>, gen: nat): State {
    if exists n :: n in nodes && Report(byName, gen, n) == Some(Failed) then Failed
    else if nodes != [] && forall n :: n in nodes ==> Report(byName, gen, n) == Some(Succeeded) then Succeeded
    else InProgress
  }

  ghost predicate Reports(entries: set<NodeState>, gen: nat, node: string, state: State) {
    exists e :: e in entries && e.name == node && e.observedGeneration == gen && e.state == state
  }

  /** The promised aggregate, over the bare sets of listed nodes and stored entries. */
  ghost function DeclaredStatus(nodes: set<string>, entries: set<NodeState>, gen: nat): State {
    if exists n :: n in nodes && Reports(entries, gen, n, Failed) then Failed
    else if nodes != {} && forall n :: n in nodes ==> Reports(entries, gen, n, Succeeded) then Succeeded
    else InProgress
  }

  lemma {:induction false} ReportIsReports(states: seq<NodeState>, gen: nat, node: string, st: State)
    requires UniqueNames(states)
    ensures Report(ByName(states), gen, node) == Some(st) <==> Reports(Elements(states), gen, node, st)
  {
    ByNameDomain(states);
    if Reports(Elements(states), gen, node, st) {
      var e :| e in Elements(states) && e.name == node && e.observedGeneration == gen && e.state == st;
      var i :| 0 <= i < |states| && states[i] == e;
      assert states[i].name in ByName(states);
      var j :| 0 <= j < |states| && states[j] == ByName(states)[node];
      assert i == j;
    }
  }

  /** Neither the order of the entries nor the order or multiplicity of the listed nodes matters. */
  lemma {:induction false} AggregateIsDeclared(nodes: seq<string>, states: seq<NodeState>, gen: nat)
    requires UniqueNames(states)
    ensures Aggregate(nodes, ByName(states), gen) == DeclaredStatus(Elements(nodes), Elements(states), gen)
  {
    forall n, st ensures Report(ByName(states), gen, n) == Some(st) <==> Reports(Elements(states), gen, n, st) {
      ReportIsReports(states, gen, n, st);
    }
    assert nodes == [] <==> Elements(nodes) == {} by {
      if nodes != [] {
        assert nodes[0] in Elements(nodes);
      }
    }
    assert forall n :: n in nodes <==> n in Elements(nodes);
  }

  /** aggregateSyncStatus: fill the map, then scan the listed nodes with an early exit on Failed. */
  method AggregateSyncStatus(nodes: seq<string>, states: seq<NodeState>, generation: nat) returns (status: State)
    ensures status == Aggregate(nodes, ByName(states), generation)
    ensures UniqueNames(states) ==> status == DeclaredStatus(Elements(nodes), Elements(states), generation)
  {
    if UniqueNames(states) {
      AggregateIsDeclared(nodes, states, generation);
    }
    if |nodes| == 0 {
      return InProgress;
    }
    var statesByNodeName: map<string, NodeState> := map[];
    for i := 0 to |states|
      invariant statesByNodeName == ByName(states[..i])
    {
      assert states[..i + 1][..i] == states[..i];
      statesByNodeName := statesByNodeName[states[i].name := states[i]];
    }
    assert states[..|states|] == states;
    var allSucceeded := true;
    for i := 0 to |nodes|
      invariant allSucceeded <==> forall j :: 0 <= j < i ==> Report(statesByNodeName, generation, nodes[j]) == Some(Succeeded)
      invariant forall j :: 0 <= j < i ==> Report(statesByNodeName, generation, nodes[j]) != Some(Failed)
    {
      if nodes[i] !in statesByNodeName || statesByNodeName[nodes[i]].observedGeneration != generation {
        allSucceeded := false;
        continue;
      }
      match statesByNodeName[nodes[i]].state {
        case Failed =>
          assert nodes[i] in nodes;
          return Failed;
        case Succeeded =>
        case _ => allSucceeded := false;
      }
    }
    if allSucceeded {
      return Succeeded;
    }
    return InProgress;
  }
}
