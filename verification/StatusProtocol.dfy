/**
 * The status protocol: any number of agents patch one SpectrumXRailPoolConfig by read, compute,
 * compare-and-swap, while users edit the spec and nodes are relabelled. Reads may be stale.
 */
module StatusProtocol {
  import opened Basics
  import opened NodeStates
  import opened StatusPatch

  datatype PoolConfig = PoolConfig(generation: nat, selector: Labels, status: Status)

  /** Where an agent is inside patchSyncStatusWithMessage. */
  datatype Phase =
    | Idle
    | Patching(r: Request)
    | Holding(r: Request, rv: nat)

  /**
   * Every version ever stored stays readable (a cache may serve any of them); the resourceVersion
   * of an object is its position, and the last one is the stored object. Likewise for node labels.
   */
  datatype Cluster = Cluster(versions: seq<PoolConfig>, labels: seq<map<string, Labels>>, agents: map<string, Phase>)

  /** A node list as returned to an agent: in any order, from any version of the labels. */
  datatype NodeList = NodeList(nodes: seq<string>, labelVersion: nat)

  datatype Action =
    | Begin(node: string, rv: nat, newState: State, message: string)
    | Read(node: string, rv: nat)
    | Commit(node: string, checked: NodeList, listed: NodeList)
    | Rejected(node: string)
    | Skipped(node: string, checked: NodeList)
    | GiveUp(node: string)
    | EditSpec(selector: Labels)
    | Touch
    | Relabel(labels: map<string, Labels>)

  function PhaseOf(c: Cluster, node: string): Phase {
    if node in c.agents then c.agents[node] else Idle
  }

  predicate Wellformed(c: Cluster) {
    |c.versions| > 0 && |c.labels| > 0
  }

  function Stored(c: Cluster): PoolConfig
    requires Wellformed(c)
  {
    c.versions[|c.versions| - 1]
  }

  function Entry(c: Cluster, node: string): Option<NodeState>
    requires Wellformed(c)
  {
    EntryOf(Stored(c).status.nodeStates, node)
  }

  /** A selector is a set of required labels. */
  lemma {:induction false} SelectorIsSubset(selector: Labels, labels: Labels)
    ensures MatchesSelector(selector, labels) <==> selector.Items <= labels.Items
  {
    if MatchesSelector(selector, labels) {
      forall l | l in selector.Items ensures l in labels.Items {
        assert l.0 in selector && selector[l.0] == l.1;
      }
    }
    if selector.Items <= labels.Items {
      forall k | k in selector ensures k in labels && labels[k] == selector[k] {
        assert (k, selector[k]) in selector.Items;
      }
    }
  }

  ghost function Selected(selector: Labels, labels: map<string, Labels>): set<string> {
    set n | n in labels && MatchesSelector(selector, labels[n])
  }

  ghost predicate Lists(c: Cluster, selector: Labels, l: NodeList) {
    l.labelVersion < |c.labels| && Elements(l.nodes) == Selected(selector, c.labels[l.labelVersion])
  }

  ghost predicate Enabled(c: Cluster, a: Action)
    requires Wellformed(c)
  {
    match a
    case Begin(node, rv, _, _) => PhaseOf(c, node).Idle? && rv < |c.versions|
    case Read(node, rv) =>
      var p := PhaseOf(c, node);
      p.Patching? && rv < |c.versions| && c.versions[rv].generation == p.r.generation
    case Commit(node, checked, listed) =>
      var p := PhaseOf(c, node);
      && p.Holding? && p.rv == |c.versions| - 1
      && Lists(c, Stored(c).selector, checked) && !Skips(Stored(c).status, p.r, checked.nodes)
      && Lists(c, Stored(c).selector, listed)
    case Rejected(node) =>
      PhaseOf(c, node).Holding? && PhaseOf(c, node).rv != |c.versions| - 1
    case Skipped(node, checked) =>
      var p := PhaseOf(c, node);
      && p.Holding? && p.rv < |c.versions|
      && Lists(c, c.versions[p.rv].selector, checked) && Skips(c.versions[p.rv].status, p.r, checked.nodes)
    case GiveUp(node) => !PhaseOf(c, node).Idle?
    case EditSpec(_) => true
    case Touch => true
    case Relabel(_) => true
  }

  function Store(c: Cluster, o: PoolConfig): Cluster {
    c.(versions := c.versions + [o])
  }

  function Move(c: Cluster, node: string, p: Phase): Cluster {
    c.(agents := c.agents[node := p])
  }

  ghost function Next(c: Cluster, a: Action): Cluster
    requires Wellformed(c) && Enabled(c, a)
  {
    match a
    case Begin(node, rv, newState, message) =>
      Move(c, node, Patching(Request(node, c.versions[rv].generation, newState, message)))
    case Read(node, rv) => Move(c, node, Holding(PhaseOf(c, node).r, rv))
    case Commit(node, _, listed) =>
      var p := PhaseOf(c, node);
      var base := c.versions[p.rv].status;
      var patch := Diff(base, Updated(base, p.r, listed.nodes));
      Move(Store(c, Stored(c).(status := Merge(Stored(c).status, patch))), node, Idle)
    case Rejected(node) => Move(c, node, Patching(PhaseOf(c, node).r))
    case Skipped(node, _) => Move(c, node, Idle)
    case GiveUp(node) => Move(c, node, Idle)
    case EditSpec(selector) =>
      Store(c, PoolConfig(Stored(c).generation + 1, selector, Stored(c).status))
    case Touch => Store(c, Stored(c))
    case Relabel(labels) => c.(labels := c.labels + [labels])
  }

  ghost predicate Init(c: Cluster) {
    && |c.versions| == 1 && |c.labels| == 1 && c.agents == map[]
    && c.versions[0].status == Status(Other(""), [], 0)
  }

  /** A run: states s[0..n] connected by actions a[0..n). */
  ghost predicate IsRun(s: seq<Cluster>, a: seq<Action>) {
    && |s| == |a| + 1
    && Init(s[0])
    && forall i :: 0 <= i < |a| ==> StepAt(s, a, i)
  }

  ghost predicate StepAt(s: seq<Cluster>, a: seq<Action>, i: nat)
    requires i < |a| && |s| == |a| + 1
  {
    Wellformed(s[i]) && Enabled(s[i], a[i]) && s[i + 1] == Next(s[i], a[i])
  }

  // -------------------------------------------------------------- invariant

  /** The greatest generation any entry was made for; 0 when there is no entry. */
  function MaxGeneration(states: seq<NodeState>): (m: nat)
    ensures forall e :: e in states ==> e.observedGeneration <= m
    ensures states == [] ==> m == 0
    ensures states != [] ==> exists e :: e in states && e.observedGeneration == m
  {
    if states == [] then 0
    else
      var rest := MaxGeneration(states[1..]);
      assert forall e :: e in states <==> e == states[0] || e in states[1..];
      if states[0].observedGeneration >= rest then states[0].observedGeneration else rest
  }

  ghost predicate GoodVersion(o: PoolConfig) {
    && UniqueNames(o.status.nodeStates)
    && o.status.observedGeneration == MaxGeneration(o.status.nodeStates)
    && o.status.observedGeneration <= o.generation
  }

  ghost predicate GoodPhase(c: Cluster, node: string)
    requires Wellformed(c)
  {
    match PhaseOf(c, node)
    case Idle => true
    case Patching(r) => r.node == node && r.generation <= Stored(c).generation
    case Holding(r, rv) => r.node == node && rv < |c.versions| && c.versions[rv].generation == r.generation
  }

  ghost predicate Inv(c: Cluster) {
    && Wellformed(c)
    && (forall i :: 0 <= i < |c.versions| ==> GoodVersion(c.versions[i]))
    && (forall i :: 0 <= i < |c.versions| ==> c.versions[i].generation <= Stored(c).generation)
    && (forall n :: n in c.agents ==> GoodPhase(c, n))
  }

  lemma {:induction false} UpsertMax(states: seq<NodeState>, e: NodeState)
    requires MaxGeneration(states) <= e.observedGeneration
    ensures MaxGeneration(Upsert(states, e)) == e.observedGeneration
  {
    var after := Upsert(states, e);
    var i := FirstIndex(states, e.name);
    assert after[i] == e;
    forall x | x in after ensures x.observedGeneration <= e.observedGeneration {
      assert x == e || x in states;
    }
  }

  /** What a commit stores, read off the lock: the stored object is the snapshot it was computed from. */
  lemma {:induction false} CommitStores(c: Cluster, a: Action)
    requires Inv(c) && Enabled(c, a) && a.Commit?
    ensures var r := PhaseOf(c, a.node).r;
            && r.node == a.node && r.generation == Stored(c).generation
            && Stored(Next(c, a)) == Stored(c).(status := Updated(Stored(c).status, r, a.listed.nodes))
  {
    var p := PhaseOf(c, a.node);
    assert GoodPhase(c, a.node);
    MergeIntoBase(Stored(c).status, Updated(Stored(c).status, p.r, a.listed.nodes));
  }

  lemma {:induction false} OtherStepsKeepStatus(c: Cluster, a: Action)
    requires Wellformed(c) && Enabled(c, a) && !a.Commit?
    ensures Wellformed(Next(c, a)) && Stored(Next(c, a)).status == Stored(c).status
    ensures Stored(Next(c, a)).generation == Stored(c).generation + if a.EditSpec? then 1 else 0
  {
  }

  lemma {:induction false} StoredStaysGood(c: Cluster, a: Action)
    requires Inv(c) && Enabled(c, a)
    ensures GoodVersion(Stored(Next(c, a)))
    ensures Stored(c).generation <= Stored(Next(c, a)).generation
  {
    hide Skips, Lists, Merge, Diff, Aggregate, ByName;
    assert GoodVersion(Stored(c));
    if a.Commit? {
      CommitStores(c, a);
      var e := Wanted(PhaseOf(c, a.node).r);
      UpsertUnique(Stored(c).status.nodeStates, e);
      UpsertMax(Stored(c).status.nodeStates, e);
    }
  }

  lemma {:induction false} PhaseStaysGood(c: Cluster, a: Action, n: string)
    requires Inv(c) && Enabled(c, a)
    ensures Wellformed(Next(c, a)) && GoodPhase(Next(c, a), n)
  {
    hide GoodVersion, Updated, Skips, Lists, Merge, Diff;
    StoredStaysGood(c, a);
    assert PhaseOf(c, n) == Idle || GoodPhase(c, n);
    assert forall i :: 0 <= i < |c.versions| ==> Next(c, a).versions[i] == c.versions[i];
  }

  lemma {:induction false} InvStep(c: Cluster, a: Action)
    requires Inv(c) && Enabled(c, a)
    ensures Inv(Next(c, a))
  {
    hide GoodVersion, Updated, Skips, Lists, Merge, Diff;
    var c' := Next(c, a);
    StoredStaysGood(c, a);
    assert forall i :: 0 <= i < |c.versions| ==> c'.versions[i] == c.versions[i];
    forall i | 0 <= i < |c'.versions|
      ensures GoodVersion(c'.versions[i]) && c'.versions[i].generation <= Stored(c').generation
    {
      if i < |c.versions| {
        assert c'.versions[i] == c.versions[i];
      }
    }
    forall n | n in c'.agents ensures GoodPhase(c', n) {
      PhaseStaysGood(c, a, n);
    }
  }

  lemma {:induction false} InvRun(s: seq<Cluster>, a: seq<Action>, i: nat)
    requires IsRun(s, a) && i < |s|
    ensures Inv(s[i])
  {
    if i == 0 {
      assert GoodVersion(s[0].versions[0]);
    } else {
      InvRun(s, a, i - 1);
      assert StepAt(s, a, i - 1);
      InvStep(s[i - 1], a[i - 1]);
    }
  }

  /**
   * In every reachable state: one entry per node, so that lookup and aggregation agree on who
   * reported what, and the pool's observed generation is the newest of its entries' and no newer
   * than the object.
   */
  lemma {:induction false} ReachableStatus(s: seq<Cluster>, a: seq<Action>, i: nat, node: string)
    requires IsRun(s, a) && i < |s|
    ensures Wellformed(s[i])
    ensures var o := Stored(s[i]);
            && UniqueNames(o.status.nodeStates)
            && o.status.observedGeneration == MaxGeneration(o.status.nodeStates) <= o.generation
            && (Entry(s[i], node) ==
                if node in ByName(o.status.nodeStates) then Some(ByName(o.status.nodeStates)[node]) else None)
  {
    InvRun(s, a, i);
    assert GoodVersion(Stored(s[i]));
    FirstMatchIsLastWins(Stored(s[i]).status.nodeStates, node);
  }

  // ---------------------------------------------------------- no lost update

  predicate CommitsFor(a: Action, node: string) {
    a.Commit? && a.node == node
  }

  /** The entry a commit records: what the agent asked for when it started patching. */
  ghost function Recorded(c: Cluster, a: Action): NodeState
    requires a.Commit? && PhaseOf(c, a.node).Holding?
  {
    Wanted(PhaseOf(c, a.node).r)
  }

  lemma {:induction false} StepEntry(c: Cluster, a: Action, node: string)
    requires Inv(c) && Enabled(c, a)
    ensures Wellformed(Next(c, a))
    ensures Entry(Next(c, a), node) == if CommitsFor(a, node) then Some(Recorded(c, a)) else Entry(c, node)
  {
    if a.Commit? {
      CommitStores(c, a);
      UpsertFrame(Stored(c).status.nodeStates, Recorded(c, a), node);
    } else {
      OtherStepsKeepStatus(c, a);
    }
  }

  /** No agent, spec edit, relabelling or metadata change alters the entry of another node. */
  lemma {:induction false} OnlyOwnerChangesEntry(s: seq<Cluster>, a: seq<Action>, i: nat, node: string)
    requires IsRun(s, a) && i < |a|
    ensures Wellformed(s[i]) && Wellformed(s[i + 1])
    ensures Entry(s[i + 1], node) != Entry(s[i], node) ==> CommitsFor(a[i], node)
  {
    InvRun(s, a, i);
    assert StepAt(s, a, i);
    StepEntry(s[i], a[i], node);
  }

  /** A committed entry stays exactly as written until the agent of the same node commits again. */
  lemma {:induction false} NoLostUpdate(s: seq<Cluster>, a: seq<Action>, i: nat, j: nat)
    requires IsRun(s, a) && i < j < |s|
    requires StepAt(s, a, i) && a[i].Commit?
    requires forall k :: i < k < j ==> !CommitsFor(a[k], a[i].node)
    ensures Wellformed(s[j]) && Entry(s[j], a[i].node) == Some(Recorded(s[i], a[i]))
  {
    hide Inv, Next, Enabled, Entry;
    InvRun(s, a, j - 1);
    assert StepAt(s, a, j - 1);
    StepEntry(s[j - 1], a[j - 1], a[i].node);
    if j > i + 1 {
      NoLostUpdate(s, a, i, j - 1);
    }
  }

  // ----------------------------------------------------- from request to entry

  /** Step b is the last before k in which the node's agent began to patch. */
  ghost predicate LastBegin(s: seq<Cluster>, a: seq<Action>, node: string, b: nat, k: nat)
    requires k <= |a| <= |s|
  {
    && b < k && a[b].Begin? && a[b].node == node && a[b].rv < |s[b].versions|
    && forall m :: b < m < k ==> !(a[m].Begin? && a[m].node == node)
  }

  /** Step b is the last Begin of the node before k, and asked for state st and message m on reading generation g. */
  ghost predicate Asked(s: seq<Cluster>, a: seq<Action>, node: string, b: nat, k: nat, st: State, m: string, g: nat)
    requires k <= |a| <= |s|
  {
    LastBegin(s, a, node, b, k) && a[b].newState == st && a[b].message == m && s[b].versions[a[b].rv].generation == g
  }

  /** An agent that is patching does so for its last Begin. */
  lemma {:induction false} PatchingSince(s: seq<Cluster>, a: seq<Action>, node: string, k: nat)
    requires IsRun(s, a) && k < |s| && !PhaseOf(s[k], node).Idle?
    ensures var r := PhaseOf(s[k], node).r;
            r.node == node && exists b: nat :: Asked(s, a, node, b, k, r.newState, r.message, r.generation)
  {
    hide Lists, Skips, Merge, Diff, Updated;
    assert k > 0;
    assert StepAt(s, a, k - 1);
    var r := PhaseOf(s[k], node).r;
    if a[k - 1].Begin? && a[k - 1].node == node {
      assert Asked(s, a, node, k - 1, k, r.newState, r.message, r.generation);
    } else {
      var before := k - 1;
      PatchingSince(s, a, node, before);
      var b: nat :| Asked(s, a, node, b, before, r.newState, r.message, r.generation);
      assert Asked(s, a, node, b, k, r.newState, r.message, r.generation);
    }
  }

  /**
   * What a commit stores, and what stays until the node's next commit: the state and message the agent
   * asked for when it last began to patch, under its own name, for the generation it read then.
   */
  lemma {:induction false} CommitRecordsRequest(s: seq<Cluster>, a: seq<Action>, k: nat, j: nat)
    requires IsRun(s, a) && k < j < |s| && a[k].Commit?
    requires forall m :: k < m < j ==> !CommitsFor(a[m], a[k].node)
    ensures Wellformed(s[j]) && Entry(s[j], a[k].node).Some?
    ensures var e := Entry(s[j], a[k].node).value;
            e.name == a[k].node && exists b: nat :: Asked(s, a, a[k].node, b, k, e.state, e.message, e.observedGeneration)
  {
    hide Lists, Skips, Merge, Diff, Updated, Asked;
    assert StepAt(s, a, k);
    PatchingSince(s, a, a[k].node, k);
    NoLostUpdate(s, a, k, j);
  }

  // ------------------------------------------------------------- generations

  ghost predicate NotOlder(e: Option<NodeState>, e': Option<NodeState>) {
    e.Some? ==> e'.Some? && e.value.observedGeneration <= e'.value.observedGeneration
  }

  ghost predicate NoRegress(c: Cluster, c': Cluster)
    requires Wellformed(c) && Wellformed(c')
  {
    && Stored(c).generation <= Stored(c').generation
    && Stored(c).status.observedGeneration <= Stored(c').status.observedGeneration
    && forall n :: NotOlder(Entry(c, n), Entry(c', n))
  }

  lemma {:induction false} StepNoRegress(c: Cluster, a: Action)
    requires Inv(c) && Enabled(c, a)
    ensures Wellformed(Next(c, a)) && NoRegress(c, Next(c, a))
  {
    hide Skips, Lists, Merge, Diff, Aggregate, ByName, UniqueNames, Upsert;
    assert GoodVersion(Stored(c));
    StoredStaysGood(c, a);
    if a.Commit? {
      CommitStores(c, a);
    } else {
      OtherStepsKeepStatus(c, a);
    }
    forall n ensures NotOlder(Entry(c, n), Entry(Next(c, a), n)) {
      StepEntry(c, a, n);
      if CommitsFor(a, n) && Entry(c, n).Some? {
        assert Entry(c, n).value in Stored(c).status.nodeStates;
      }
    }
  }

  /** The object's generation, the observed generation and every entry's generation never decrease. */
  lemma {:induction false} GenerationsNeverRegress(s: seq<Cluster>, a: seq<Action>, i: nat, j: nat)
    requires IsRun(s, a) && i <= j < |s|
    ensures Wellformed(s[i]) && Wellformed(s[j]) && NoRegress(s[i], s[j])
  {
    hide Next, Enabled, Entry, GoodVersion, GoodPhase;
    InvRun(s, a, i);
    if i < j {
      GenerationsNeverRegress(s, a, i, j - 1);
      InvRun(s, a, j - 1);
      assert StepAt(s, a, j - 1);
      StepNoRegress(s[j - 1], a[j - 1]);
      forall n ensures NotOlder(Entry(s[i], n), Entry(s[j], n)) {
        assert NotOlder(Entry(s[i], n), Entry(s[j - 1], n));
        assert NotOlder(Entry(s[j - 1], n), Entry(s[j], n));
      }
    }
  }

  ghost predicate AtGeneration(p: Phase, g: nat) {
    p.Idle? || p.r.generation == g
  }

  lemma {:induction false} RequestKeepsGeneration(s: seq<Cluster>, a: seq<Action>, i: nat, j: nat, node: string, g: nat)
    requires IsRun(s, a) && i <= j < |s|
    requires AtGeneration(PhaseOf(s[i], node), g)
    requires forall k :: i <= k < j ==> !(a[k].Begin? && a[k].node == node)
    ensures AtGeneration(PhaseOf(s[j], node), g)
  {
    if i < j {
      RequestKeepsGeneration(s, a, i, j - 1, node, g);
      assert StepAt(s, a, j - 1);
    }
  }

  /** Once the generation has moved past a reconcile, none of its remaining retries commits. */
  lemma {:induction false} StaleReconcileNeverCommits(s: seq<Cluster>, a: seq<Action>, i: nat, j: nat, node: string)
    requires IsRun(s, a) && i <= j < |a|
    requires Wellformed(s[i]) && !PhaseOf(s[i], node).Idle?
    requires PhaseOf(s[i], node).r.generation < Stored(s[i]).generation
    requires forall k :: i <= k < j ==> !(a[k].Begin? && a[k].node == node)
    ensures !CommitsFor(a[j], node)
  {
    RequestKeepsGeneration(s, a, i, j, node, PhaseOf(s[i], node).r.generation);
    GenerationsNeverRegress(s, a, i, j);
    InvRun(s, a, j);
    assert StepAt(s, a, j);
    if CommitsFor(a[j], node) {
      CommitStores(s[j], a[j]);
    }
  }

  // ------------------------------------------------------------- aggregation

  /** After every commit the pool status is the declared aggregate of what is now stored. */
  lemma {:induction false} CommitAggregates(s: seq<Cluster>, a: seq<Action>, i: nat)
    requires IsRun(s, a) && i < |a| && a[i].Commit?
    ensures Wellformed(s[i + 1])
    ensures var o := Stored(s[i + 1]);
            o.status.syncStatus == DeclaredStatus(Elements(a[i].listed.nodes), Elements(o.status.nodeStates), o.generation)
  {
    InvRun(s, a, i);
    assert StepAt(s, a, i);
    CommitStores(s[i], a[i]);
    InvRun(s, a, i + 1);
    assert GoodVersion(Stored(s[i + 1]));
    AggregateIsDeclared(a[i].listed.nodes, Stored(s[i + 1]).status.nodeStates, Stored(s[i + 1]).generation);
  }

  ghost function Pool(c: Cluster): set<string>
    requires Wellformed(c)
  {
    Selected(Stored(c).selector, c.labels[|c.labels| - 1])
  }

  /** The pool does not change, and commits see the node list as it is. */
  ghost predicate StablePool(s: seq<Cluster>, a: seq<Action>, i: nat, j: nat) {
    i <= j < |s| == |a| + 1 &&
    forall k :: i <= k < j ==>
      !a[k].EditSpec? && !a[k].Relabel? && (a[k].Commit? ==> a[k].listed.labelVersion == |s[i].labels| - 1)
  }

  lemma {:induction false} QuietStepKeepsPool(c: Cluster, a: Action)
    requires Inv(c) && Enabled(c, a) && !a.EditSpec? && !a.Relabel?
    ensures var c' := Next(c, a);
            && Wellformed(c') && c'.labels == c.labels
            && Stored(c').generation == Stored(c).generation && Stored(c').selector == Stored(c).selector
  {
    hide GoodVersion, Updated, Skips, Lists, Merge, Diff;
    if a.Commit? {
      CommitStores(c, a);
    }
  }

  lemma {:induction false} StablePoolKept(s: seq<Cluster>, a: seq<Action>, i: nat, j: nat)
    requires IsRun(s, a) && StablePool(s, a, i, j)
    ensures Wellformed(s[i]) && Wellformed(s[j])
    ensures Stored(s[j]).generation == Stored(s[i]).generation && Stored(s[j]).selector == Stored(s[i]).selector
    ensures s[j].labels == s[i].labels
  {
    hide GoodVersion, GoodPhase, Updated, Skips, Lists, Merge, Diff;
    InvRun(s, a, i);
    if i < j {
      StablePoolKept(s, a, i, j - 1);
      InvRun(s, a, j - 1);
      assert StepAt(s, a, j - 1);
      QuietStepKeepsPool(s[j - 1], a[j - 1]);
    }
  }

  /** The published status is the declared aggregate of the entries over the current pool. */
  ghost predicate StatusIsCurrent(c: Cluster)
    requires Wellformed(c)
  {
    var o := Stored(c);
    o.status.syncStatus == DeclaredStatus(Pool(c), Elements(o.status.nodeStates), o.generation)
  }

  lemma {:induction false} CommitMakesCurrent(s: seq<Cluster>, a: seq<Action>, i: nat, k: nat)
    requires IsRun(s, a) && StablePool(s, a, i, k + 1) && i <= k && a[k].Commit?
    ensures Wellformed(s[k + 1]) && StatusIsCurrent(s[k + 1])
  {
    hide DeclaredStatus, Next, Skips, Selected, IsRun;
    StablePoolKept(s, a, i, k);
    StablePoolKept(s, a, i, k + 1);
    assert StepAt(s, a, k) by { RunSteps(s, a, k); }
    CommitAggregates(s, a, k);
    assert Lists(s[k], Stored(s[k]).selector, a[k].listed);
  }

  lemma {:induction false} RunSteps(s: seq<Cluster>, a: seq<Action>, k: nat)
    requires IsRun(s, a) && k < |a|
    ensures StepAt(s, a, k)
  {
  }

  lemma {:induction false} OtherStepsKeepCurrent(c: Cluster, a: Action)
    requires Wellformed(c) && Enabled(c, a) && StatusIsCurrent(c)
    requires !a.Commit? && !a.EditSpec? && !a.Relabel?
    ensures Wellformed(Next(c, a)) && StatusIsCurrent(Next(c, a))
  {
    OtherStepsKeepStatus(c, a);
    assert Pool(Next(c, a)) == Pool(c);
  }

  /** With a stable pool, from the first commit on the status always equals the declared aggregate. */
  lemma {:induction false} StatusTracksPool(s: seq<Cluster>, a: seq<Action>, i: nat, k: nat, j: nat)
    requires IsRun(s, a) && StablePool(s, a, i, j) && i <= k < j && a[k].Commit?
    ensures Wellformed(s[j]) && StatusIsCurrent(s[j])
  {
    if a[j - 1].Commit? {
      CommitMakesCurrent(s, a, i, j - 1);
    } else {
      StatusTracksPool(s, a, i, k, j - 1);
      assert StepAt(s, a, j - 1);
      OtherStepsKeepCurrent(s[j - 1], a[j - 1]);
    }
  }

  /** The node's entry, whenever it was committed, gives this state for the stored generation. */
  ghost predicate CurrentlyReports(c: Cluster, node: string, st: State)
    requires Wellformed(c)
  {
    Entry(c, node).Some? && Entry(c, node).value.state == st && Entry(c, node).value.observedGeneration == Stored(c).generation
  }

  lemma {:induction false} EntryReports(c: Cluster, node: string, st: State)
    requires Inv(c)
    ensures Reports(Elements(Stored(c).status.nodeStates), Stored(c).generation, node, st) <==> CurrentlyReports(c, node, st)
  {
    var states := Stored(c).status.nodeStates;
    assert GoodVersion(Stored(c));
    ReportIsReports(states, Stored(c).generation, node, st);
    FirstMatchIsLastWins(states, node);
  }

  /**
   * With a stable pool and any commit since, whatever the interleaving: the status is Succeeded if
   * and only if the pool is not empty and every node's entry currently reports Succeeded, Failed if
   * and only if some node's entry currently reports Failed, and InProgress otherwise. Entries may be
   * older than the pool, so the last missing node's commit completes it.
   */
  lemma {:induction false} StablePoolStatusIff(s: seq<Cluster>, a: seq<Action>, i: nat, k: nat, j: nat)
    requires IsRun(s, a) && StablePool(s, a, i, j) && i <= k < j && a[k].Commit?
    ensures Wellformed(s[j])
    ensures var c := s[j];
            var status := Stored(c).status.syncStatus;
            && (status == Succeeded <==> Pool(c) != {} && forall n :: n in Pool(c) ==> CurrentlyReports(c, n, Succeeded))
            && (status == Failed <==> exists n :: n in Pool(c) && CurrentlyReports(c, n, Failed))
            && status in {Succeeded, Failed, InProgress}
  {
    hide Inv, Pool, Reports, CurrentlyReports, IsRun;
    InvRun(s, a, j);
    StatusTracksPool(s, a, i, k, j);
    var c := s[j];
    forall n, st
      ensures Reports(Elements(Stored(c).status.nodeStates), Stored(c).generation, n, st) <==> CurrentlyReports(c, n, st)
    {
      EntryReports(c, n, st);
    }
    forall n ensures !(CurrentlyReports(c, n, Succeeded) && CurrentlyReports(c, n, Failed)) {
      OneReport(c, n);
    }
  }

  lemma {:induction false} OneReport(c: Cluster, node: string)
    requires Wellformed(c)
    ensures !(CurrentlyReports(c, node, Succeeded) && CurrentlyReports(c, node, Failed))
  {
  }

  /** In particular, when every other node already reports Succeeded, the last node's commit makes the pool Succeeded. */
  lemma {:induction false} LastCommitSucceeds(s: seq<Cluster>, a: seq<Action>, i: nat, k: nat)
    requires IsRun(s, a) && StablePool(s, a, i, k + 1) && i <= k && a[k].Commit? && Wellformed(s[k])
    requires PhaseOf(s[k], a[k].node).Holding? && Recorded(s[k], a[k]).state == Succeeded && a[k].node in Pool(s[k])
    requires forall n :: n in Pool(s[k]) && n != a[k].node ==> CurrentlyReports(s[k], n, Succeeded)
    ensures Wellformed(s[k + 1]) && Stored(s[k + 1]).status.syncStatus == Succeeded
  {
    hide IsRun, Enabled, Next, Selected;
    StablePoolStatusIff(s, a, i, k, k + 1);
    StablePoolKept(s, a, i, k + 1);
    InvRun(s, a, k);
    CommitStep(s, a, i, k);
    assert Pool(s[k + 1]) == Pool(s[k]);
    forall n | n in Pool(s[k]) ensures CurrentlyReports(s[k + 1], n, Succeeded) {
      StepEntry(s[k], a[k], n);
    }
  }

  lemma {:induction false} CommitStep(s: seq<Cluster>, a: seq<Action>, i: nat, k: nat)
    requires IsRun(s, a) && StablePool(s, a, i, k + 1) && i <= k && a[k].Commit?
    ensures Inv(s[k]) && Enabled(s[k], a[k]) && s[k + 1] == Next(s[k], a[k])
    ensures Wellformed(s[k + 1]) && s[k + 1].labels == s[k].labels
    ensures Stored(s[k + 1]).generation == Stored(s[k]).generation && Stored(s[k + 1]).selector == Stored(s[k]).selector
    ensures PhaseOf(s[k], a[k].node).Holding? && PhaseOf(s[k], a[k].node).r.generation == Stored(s[k]).generation
  {
    InvRun(s, a, k);
    assert StepAt(s, a, k);
    CommitStores(s[k], a[k]);
    QuietStepKeepsPool(s[k], a[k]);
  }
}
