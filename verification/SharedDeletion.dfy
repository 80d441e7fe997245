/**
 * Deleting the object while agents share its policies. Calls of any number of agents interleave;
 * some agents still reconcile from an older version of the object that is not being deleted.
 */
module SharedDeletion {
  import opened Basics
  import opened XPlane
  import opened Reconciler

  /** What a reconcile does to the policies that carry the owner label. */
  datatype PolicyOp = Put(name: string) | Drop(name: string)

  /** Reconciling from some version of the spec, with the calls still to come; or deleting. */
  datatype Phase = Idle | Reconciling(todo: seq<PolicyOp>) | Deleting(left: seq<string>)

  datatype Cluster = Cluster(policies: set<string>, finalizer: bool, agents: map<string, Phase>)

  /** A reconcile may follow any plan, whatever its version of the spec says. */
  datatype Act =
    | BeginReconcile(agent: string, plan: seq<PolicyOp>)
    | BeginDelete(agent: string)
    | Issue(agent: string, outcome: Outcome)

  /** The policies a deletion goes through, rail by rail. */
  function DeletePlan(rails: seq<Rail>): seq<string> {
    if rails == [] then [] else [rails[0].name, rails[0].name + UNUSED] + DeletePlan(rails[1..])
  }

  function PhaseOf(c: Cluster, agent: string): Phase {
    if agent in c.agents then c.agents[agent] else Idle
  }

  predicate Enabled(c: Cluster, a: Act) {
    match a
    case BeginReconcile(agent, _) => PhaseOf(c, agent).Idle?
    case BeginDelete(agent) => PhaseOf(c, agent).Idle?
    case Issue(agent, _) => !PhaseOf(c, agent).Idle?
  }

  /** The effect of the agent's next call, should it take effect. */
  function Effect(c: Cluster, p: Phase): Cluster {
    match p
    case Idle => c
    case Reconciling(todo) =>
      if todo == [] then c
      else if todo[0].Put? then c.(policies := c.policies + {todo[0].name})
      else c.(policies := c.policies - {todo[0].name})
    case Deleting(left) =>
      if left == [] then c.(finalizer := false) else c.(policies := c.policies - {left[0]})
  }

  function After(p: Phase): Phase {
    match p
    case Idle => Idle
    case Reconciling(todo) => if |todo| <= 1 then Idle else Reconciling(todo[1..])
    case Deleting(left) => if left == [] then Idle else Deleting(left[1..])
  }

  function Next(c: Cluster, rails: seq<Rail>, a: Act): Cluster
    requires Enabled(c, a)
  {
    match a
    case BeginReconcile(agent, plan) => c.(agents := c.agents[agent := Reconciling(plan)])
    case BeginDelete(agent) => c.(agents := c.agents[agent := Deleting(DeletePlan(rails))])
    case Issue(agent, o) =>
      var p := PhaseOf(c, agent);
      var c1 := if TookEffect(o) then Effect(c, p) else c;
      c1.(agents := c.agents[agent := if o.Ok? then After(p) else Idle])
  }

  ghost predicate IsRun(s: seq<Cluster>, a: seq<Act>, rails: seq<Rail>) {
    |s| == |a| + 1 && forall i :: 0 <= i < |a| ==> StepAt(s, a, rails, i)
  }

  ghost predicate StepAt(s: seq<Cluster>, a: seq<Act>, rails: seq<Rail>, i: nat)
    requires i < |a| && |s| == |a| + 1
  {
    Enabled(s[i], a[i]) && s[i + 1] == Next(s[i], rails, a[i])
  }

  // ------------------------------------------------------------------ last writer

  /** The act writes policy n. */
  predicate Puts(c: Cluster, a: Act, n: string) {
    a.Issue? && TookEffect(a.outcome) &&
    var p := PhaseOf(c, a.agent); p.Reconciling? && p.todo != [] && p.todo[0] == Put(n)
  }

  /** The act removes policy n. */
  predicate Drops(c: Cluster, a: Act, n: string) {
    a.Issue? && TookEffect(a.outcome) &&
    var p := PhaseOf(c, a.agent);
    (p.Reconciling? && p.todo != [] && p.todo[0] == Drop(n)) || (p.Deleting? && p.left != [] && p.left[0] == n)
  }

  /** Step k wrote n, and no step since removed it. */
  ghost predicate PutLast(s: seq<Cluster>, a: seq<Act>, n: string, k: nat, m: nat)
    requires m <= |a| <= |s|
  {
    k < m && Puts(s[k], a[k], n) && forall l :: k < l < m ==> !Drops(s[l], a[l], n)
  }

  lemma {:induction false} StepPolicy(c: Cluster, rails: seq<Rail>, a: Act, n: string)
    requires Enabled(c, a)
    ensures n in Next(c, rails, a).policies <==> Puts(c, a, n) || (n in c.policies && !Drops(c, a, n))
  {
  }

  /** A policy is there exactly if a step wrote it, or it was there, and no step removed it since. */
  lemma {:induction false} PresentIff(s: seq<Cluster>, a: seq<Act>, rails: seq<Rail>, n: string, i: nat, m: nat)
    requires IsRun(s, a, rails) && i <= m < |s|
    ensures n in s[m].policies <==>
            || (exists k: nat :: i <= k && PutLast(s, a, n, k, m))
            || (n in s[i].policies && forall l :: i <= l < m ==> !Drops(s[l], a[l], n))
  {
    hide Puts, Drops, Next, Enabled;
    if i < m {
      var before := m - 1;
      PresentIff(s, a, rails, n, i, before);
      assert StepAt(s, a, rails, m - 1);
      StepPolicy(s[m - 1], rails, a[m - 1], n);
      if Puts(s[m - 1], a[m - 1], n) {
        assert PutLast(s, a, n, m - 1, m);
      } else if !Drops(s[m - 1], a[m - 1], n) {
        if k: nat :| i <= k && PutLast(s, a, n, k, before) {
          assert PutLast(s, a, n, k, m);
        }
        if k: nat :| i <= k && PutLast(s, a, n, k, m) {
          assert PutLast(s, a, n, k, before);
        }
      } else {
        forall k: nat ensures !PutLast(s, a, n, k, m) {
        }
      }
    }
  }

  // --------------------------------------------------------------------- deletion

  /** The agent began deleting at step i and has been at it in every state up to j. */
  ghost predicate DeletesFrom(s: seq<Cluster>, a: seq<Act>, agent: string, i: nat, j: nat)
    requires |s| == |a| + 1 && j < |s|
  {
    i < j && a[i] == BeginDelete(agent) && forall m :: i < m <= j ==> PhaseOf(s[m], agent).Deleting?
  }

  ghost predicate DroppedBetween(s: seq<Cluster>, a: seq<Act>, n: string, i: nat, j: nat)
    requires j <= |a| <= |s|
  {
    exists k :: i < k < j && Drops(s[k], a[k], n)
  }

  /** A step that leaves an agent deleting: it removed the next policy for good, or left the agent alone. */
  lemma {:induction false} DeletingStep(c: Cluster, rails: seq<Rail>, a: Act, agent: string)
    requires Enabled(c, a) && PhaseOf(c, agent).Deleting? && PhaseOf(Next(c, rails, a), agent).Deleting?
    ensures var left, left' := PhaseOf(c, agent).left, PhaseOf(Next(c, rails, a), agent).left;
            left' == left || (left != [] && left' == left[1..] && Drops(c, a, left[0]))
  {
  }

  lemma {:induction false} DeletionProgress(s: seq<Cluster>, a: seq<Act>, rails: seq<Rail>, agent: string, i: nat, j: nat) returns (d: nat)
    requires IsRun(s, a, rails) && j < |s| && DeletesFrom(s, a, agent, i, j)
    ensures d <= |DeletePlan(rails)| && PhaseOf(s[j], agent) == Deleting(DeletePlan(rails)[d..])
    ensures forall e :: 0 <= e < d ==> DroppedBetween(s, a, DeletePlan(rails)[e], i, j)
  {
    hide Drops, Enabled, DeletePlan;
    var plan := DeletePlan(rails);
    assert StepAt(s, a, rails, j - 1);
    if j == i + 1 {
      d := 0;
      assert plan[0..] == plan;
    } else {
      hide Next;
      var d0 := DeletionProgress(s, a, rails, agent, i, j - 1);
      DeletingStep(s[j - 1], rails, a[j - 1], agent);
      var left, left' := plan[d0..], PhaseOf(s[j], agent).left;
      if left' == left {
        d := d0;
      } else {
        d := d0 + 1;
        assert left[0] == plan[d0] && left[1..] == plan[d..];
        assert DroppedBetween(s, a, plan[d0], i, j);
      }
      forall e | 0 <= e < d0 ensures DroppedBetween(s, a, plan[e], i, j) {
        assert DroppedBetween(s, a, plan[e], i, j - 1);
      }
    }
  }

  /** Every policy with the owner label is one of the spec's. */
  ghost predicate Covered(c: Cluster, rails: seq<Rail>) {
    forall n :: n in c.policies ==> exists r :: r in rails && (n == r.name || n == r.name + UNUSED)
  }

  lemma {:induction false} DeletePlanIs(rails: seq<Rail>, n: string)
    ensures n in DeletePlan(rails) <==> exists r :: r in rails && (n == r.name || n == r.name + UNUSED)
  {
    if rails != [] {
      DeletePlanIs(rails[1..], n);
      assert rails[0] in rails;
      assert forall r :: r in rails <==> r == rails[0] || r in rails[1..];
      assert DeletePlan(rails) == [rails[0].name, rails[0].name + UNUSED] + DeletePlan(rails[1..]);
    }
  }

  /**
   * Exactly when policies outlive the deletion: an agent began deleting at i, when every owned policy
   * was one of the spec's, and at j has only the finalizer left to remove. From then on, in any state
   * m, a policy is there if and only if some reconcile wrote it since i and no call removed it since.
   */
  lemma {:induction false} PolicyOutlivesIff(s: seq<Cluster>, a: seq<Act>, rails: seq<Rail>, agent: string, i: nat, j: nat, m: nat, n: string)
    requires IsRun(s, a, rails) && i < j <= m < |s| && DeletesFrom(s, a, agent, i, j)
    requires Covered(s[i], rails) && PhaseOf(s[j], agent) == Deleting([])
    ensures n in s[m].policies <==> exists k: nat :: i <= k && PutLast(s, a, n, k, m)
  {
    hide Next, Enabled, Puts, Drops;
    PresentIff(s, a, rails, n, i, m);
    var plan := DeletePlan(rails);
    var d := DeletionProgress(s, a, rails, agent, i, j);
    assert d == |plan|;
    if n in s[i].policies {
      DeletePlanIs(rails, n);
      var e :| 0 <= e < |plan| && plan[e] == n;
      assert DroppedBetween(s, a, plan[e], i, j);
    }
  }

  /** In particular none does while no reconcile writes one. */
  lemma {:induction false} NoPolicyOutlives(s: seq<Cluster>, a: seq<Act>, rails: seq<Rail>, agent: string, i: nat, j: nat, m: nat)
    requires IsRun(s, a, rails) && i < j <= m < |s| && DeletesFrom(s, a, agent, i, j)
    requires Covered(s[i], rails) && PhaseOf(s[j], agent) == Deleting([])
    requires forall k, n :: i <= k < m ==> !Puts(s[k], a[k], n)
    ensures s[m].policies == {}
  {
    hide IsRun, Puts, Covered, DeletesFrom;
    forall n ensures n !in s[m].policies {
      PolicyOutlivesIff(s, a, rails, agent, i, j, m, n);
    }
  }

  /** And the condition is sharp: while a reconcile has a policy to write, one successful call leaves it, finalizer or not. */
  lemma {:induction false} StaleReconcileLeavesPolicy(c: Cluster, rails: seq<Rail>, agent: string, n: string)
    requires PhaseOf(c, agent).Reconciling? && PhaseOf(c, agent).todo != [] && PhaseOf(c, agent).todo[0] == Put(n)
    ensures Enabled(c, Issue(agent, Ok))
    ensures var c' := Next(c, rails, Issue(agent, Ok)); n in c'.policies && c'.finalizer == c.finalizer
  {
  }
}
