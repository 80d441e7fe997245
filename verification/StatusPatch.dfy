/** One attempt of patchSyncStatusWithMessage: snapshot, in-place edit of a copy, merge patch. */
module StatusPatch {
  import opened Basics
  import opened NodeStates

  /** What one agent wants recorded: its own entry, for the generation it reconciled. */
  datatype Request = Request(node: string, generation: nat, newState: State, message: string)

  function Wanted(r: Request): NodeState {
    NodeState(r.node, r.newState, r.message, r.generation)
  }

  /** The status the write path sends, computed from the snapshot and the node list. */
  function Updated(status: Status, r: Request, nodes: seq<string>): Status {
    var states := Upsert(status.nodeStates, Wanted(r));
    Status(Aggregate(nodes, ByName(states), r.generation), states, r.generation)
  }

  /** The guard of the skip branch. */
  predicate Skips(status: Status, r: Request, nodes: seq<string>) {
    && EntryOf(status.nodeStates, r.node) == Some(Wanted(r))
    && status.syncStatus == Aggregate(nodes, ByName(status.nodeStates), r.generation)
    && status.observedGeneration == r.generation
  }

  /** Given one node list, the skip branch is taken exactly when a write would change nothing. */
  lemma {:induction false} SkipIffUnchanged(status: Status, r: Request, nodes: seq<string>)
    ensures Skips(status, r, nodes) <==> Updated(status, r, nodes) == status
  {
    var i := FirstIndex(status.nodeStates, r.node);
    if i < |status.nodeStates| {
      assert Upsert(status.nodeStates, Wanted(r))[i] == Wanted(r);
      assert status.nodeStates[i] == Wanted(r) ==> Upsert(status.nodeStates, Wanted(r)) == status.nodeStates;
    } else {
      assert |Upsert(status.nodeStates, Wanted(r))| == |status.nodeStates| + 1;
    }
  }

  // ------------------------------------------------------------ merge patch

  /** A JSON merge patch of the status: absent members are kept, arrays are replaced whole. */
  datatype Patch = Patch(syncStatus: Option<State>, nodeStates: Option<seq<NodeState>>, observedGeneration: Option<nat>)

  function Changed<T(==)>(base: T, updated: T): Option<T> {
    if base == updated then None else Some(updated)
  }

  function Diff(base: Status, updated: Status): Patch {
    Patch(Changed(base.syncStatus, updated.syncStatus),
          Changed(base.nodeStates, updated.nodeStates),
          Changed(base.observedGeneration, updated.observedGeneration))
  }

  function Override<T>(stored: T, change: Option<T>): T {
    if change.Some? then change.value else stored
  }

  function Merge(stored: Status, p: Patch): Status {
    Status(Override(stored.syncStatus, p.syncStatus),
           Override(stored.nodeStates, p.nodeStates),
           Override(stored.observedGeneration, p.observedGeneration))
  }

  /** Merged into the snapshot it was computed from, a patch yields the intended status. */
  lemma {:induction false} MergeIntoBase(base: Status, updated: Status)
    ensures Merge(base, Diff(base, updated)) == updated
  {
  }

  /**
   * Why the resourceVersion lock is needed: without it, a patch computed from `base` and merged
   * into a store that another agent has written meanwhile wipes that agent's entry back to base.
   */
  lemma {:induction false} UnlockedMergeLosesUpdate(base: Status, mine: Request, other: Request, nodes: seq<string>)
    requires mine.node != other.node
    requires EntryOf(base.nodeStates, mine.node) != Some(Wanted(mine))
    ensures var stored := Updated(base, other, nodes);
            var merged := Merge(stored, Diff(base, Updated(base, mine, nodes)));
            && EntryOf(stored.nodeStates, other.node) == Some(Wanted(other))
            && EntryOf(merged.nodeStates, other.node) == EntryOf(base.nodeStates, other.node)
  {
    UpsertFrame(base.nodeStates, Wanted(other), other.node);
    UpsertFrame(base.nodeStates, Wanted(mine), other.node);
    UpsertFrame(base.nodeStates, Wanted(mine), mine.node);
    assert Upsert(base.nodeStates, Wanted(mine)) != base.nodeStates;
  }

  // ------------------------------------------------------- the imperative form

  /** GetNodeState: the returned index is the alias through which the caller writes. */
  method GetNodeState(states: array<NodeState>, nodeName: string) returns (found: Option<nat>)
    ensures found == if FirstIndex(states[..], nodeName) < states.Length then Some(FirstIndex(states[..], nodeName)) else None
    ensures found.Some? ==> found.value < states.Length && EntryOf(states[..], nodeName) == Some(states[found.value])
    ensures found.None? ==> forall i :: 0 <= i < states.Length ==> states[i].name != nodeName
  {
    ghost var first := FirstIndex(states[..], nodeName);
    for i := 0 to states.Length
      invariant i <= first
    {
      if states[i].name == nodeName {
        return Some(i);
      }
    }
    return None;
  }

  /** An API object held in memory: its node states are a slice that can be written in place. */
  class StatusObject {
    const generation: nat
    var syncStatus: State
    var nodeStates: array<NodeState>
    var observedGeneration: nat

    ghost function View(): Status
      reads this, nodeStates
    {
      Status(syncStatus, nodeStates[..], observedGeneration)
    }

    /** DeepCopy. */
    constructor (original: StatusObject)
      ensures fresh(nodeStates)
      ensures generation == original.generation && View() == original.View()
    {
      generation := original.generation;
      syncStatus := original.syncStatus;
      observedGeneration := original.observedGeneration;
      var n := original.nodeStates.Length;
      nodeStates := new NodeState[n](i requires 0 <= i < n reads original, original.nodeStates
        => if i < original.nodeStates.Length then original.nodeStates[i] else NodeState("", Unknown, "", 0));
      new;
      assert nodeStates[..] == original.nodeStates[..];
    }

    method Append(e: NodeState)
      modifies this`nodeStates
      ensures fresh(nodeStates)
      ensures nodeStates[..] == old(nodeStates[..]) + [e]
    {
      var n := nodeStates.Length;
      var grown := new NodeState[n + 1](_ => e);
      for i := 0 to n
        invariant nodeStates == old(nodeStates) && nodeStates[..] == old(nodeStates[..])
        invariant grown[..i] == nodeStates[..i]
        invariant grown[n] == e
      {
        grown[i] := nodeStates[i];
      }
      assert nodeStates[..n] == nodeStates[..];
      assert grown[..] == grown[..n] + [grown[n]];
      nodeStates := grown;
    }
  }

  datatype Decision = Conflict | ListFailed | Skip | Write

  /**
   * The body of the retry loop up to the patch call. `forSkip` and `forWrite` are the node lists
   * of the two aggregations, None when listing failed. The method modifies nothing that existed
   * before the call, so the snapshot that serves as patch base is never touched by the edit.
   */
  method Attempt(latest: StatusObject, r: Request, forSkip: Option<seq<string>>, forWrite: Option<seq<string>>)
    returns (decision: Decision, updated: StatusObject)
    ensures fresh(updated) && fresh(updated.nodeStates)
    ensures latest.View() == old(latest.View())
    ensures decision.Conflict? <==> latest.generation != r.generation
    ensures decision.Skip? <==>
              latest.generation == r.generation && forSkip.Some? && Skips(latest.View(), r, forSkip.value)
    ensures decision.Skip? ==> updated.View() == latest.View()
    ensures decision.Write? <==>
              && latest.generation == r.generation && forSkip.Some? && forWrite.Some?
              && !Skips(latest.View(), r, forSkip.value)
    ensures decision.Write? ==> updated.View() == Updated(latest.View(), r, forWrite.value)
    ensures decision.Write? || decision.Skip? ==>
              EntryOf(updated.View().nodeStates, r.node) == Some(NodeState(r.node, r.newState, r.message, r.generation))
    ensures decision.Write? ==> Merge(latest.View(), Diff(latest.View(), updated.View())) == Updated(latest.View(), r, forWrite.value)
  {
    hide Aggregate, ByName, UniqueNames, DeclaredStatus, Elements, Merge, Diff;
    updated := new StatusObject(latest);
    if latest.generation != r.generation {
      return Conflict, updated;
    }
    var current := GetNodeState(updated.nodeStates, r.node);
    if forSkip.None? {
      return ListFailed, updated;
    }
    var aggregateStatus := AggregateSyncStatus(forSkip.value, updated.nodeStates[..], updated.generation);
    if && current.Some?
       && updated.nodeStates[current.value].state == r.newState
       && updated.nodeStates[current.value].message == r.message
       && updated.nodeStates[current.value].observedGeneration == r.generation
       && updated.syncStatus == aggregateStatus
       && updated.observedGeneration == r.generation
    {
      return Skip, updated;
    }
    assert !Skips(latest.View(), r, forSkip.value);
    ghost var before := latest.View();
    if current.Some? {
      var entry := updated.nodeStates[current.value];
      updated.nodeStates[current.value] :=
        entry.(state := r.newState, message := r.message, observedGeneration := r.generation);
      assert updated.nodeStates[..] == before.nodeStates[current.value := Wanted(r)];
    } else {
      updated.Append(NodeState(r.node, r.newState, r.message, r.generation));
    }
    assert updated.nodeStates[..] == Upsert(before.nodeStates, Wanted(r));
    UpsertFrame(before.nodeStates, Wanted(r), r.node);
    if forWrite.None? {
      return ListFailed, updated;
    }
    updated.syncStatus := AggregateSyncStatus(forWrite.value, updated.nodeStates[..], updated.generation);
    updated.observedGeneration := r.generation;
    MergeIntoBase(latest.View(), updated.View());
    return Write, updated;
  }
}
