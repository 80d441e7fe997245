/** The VF state follower: PF carrier is mirrored to the representors of the VFs inside pods. */
module VfStateFollower {
  import opened Basics

  /** What the follower saw and did. */
  datatype Event = SawCarrier(pf: string, noCarrier: bool) | SetLink(link: string, up: bool)

  /** Admin state of every link, the events so far, and the number of calls issued. */
  datatype Net = Net(up: map<string, bool>, log: seq<Event>, clock: nat)

  /** Outcome of the n-th call, carrier of a PF as of the n-th call, active representors of a PF. */
  datatype Env = Env(oracle: nat -> Outcome, noCarrier: (nat, string) -> bool, reps: string -> seq<string>)

  datatype Topology = Topology(name: string, pfs: seq<string>)

  datatype Pool = Pool(selector: Labels, follow: Option<bool>, topologies: seq<Topology>)

  /** One topology to look after; `follow` is false when mirroring is disabled for its pool. */
  datatype Job = Job(pfs: seq<string>, follow: bool)

  // ------------------------------------------------------------------ functions

  function Tick(n: Net): Net {
    n.(clock := n.clock + 1)
  }

  /** LinkByName: the link exists and the call succeeds. */
  predicate Found(n: Net, env: Env, link: string) {
    env.oracle(n.clock).Ok? && link in n.up
  }

  /** allPFsNoCarrier: stops at the first error (None) or the first PF with carrier. */
  function AllNoCarrier(n: Net, env: Env, pfs: seq<string>): (Net, Option<bool>)
    decreases |pfs|
  {
    if pfs == [] then (n, Some(true))
    else if !Found(n, env, pfs[0]) then (Tick(n), None)
    else
      var down := env.noCarrier(n.clock, pfs[0]);
      var n1 := Tick(n.(log := n.log + [SawCarrier(pfs[0], down)]));
      if down then AllNoCarrier(n1, env, pfs[1..]) else (n1, Some(false))
  }

  function SetAdmin(n: Net, env: Env, link: string, up: bool): Net {
    var o := env.oracle(n.clock);
    Tick(n.(up := if TookEffect(o) then n.up[link := up] else n.up, log := n.log + [SetLink(link, up)]))
  }

  /** One representor: touched only when its admin state is not the wanted one. */
  function Mirror(n: Net, env: Env, rep: string, allDown: bool): Net {
    if !Found(n, env, rep) then Tick(n)
    else if n.up[rep] == allDown then SetAdmin(Tick(n), env, rep, !allDown)
    else Tick(n)
  }

  function MirrorReps(n: Net, env: Env, reps: seq<string>, allDown: bool): Net
    decreases |reps|
  {
    if reps == [] then n else MirrorReps(Mirror(n, env, reps[0], allDown), env, reps[1..], allDown)
  }

  function MirrorPfs(n: Net, env: Env, pfs: seq<string>, allDown: bool): Net
    decreases |pfs|
  {
    if pfs == [] then n
    else
      var n1 := if env.oracle(n.clock).Ok? then MirrorReps(Tick(n), env, env.reps(pfs[0]), allDown) else Tick(n);
      MirrorPfs(n1, env, pfs[1..], allDown)
  }

  function RunJob(n: Net, env: Env, job: Job): Net {
    if !job.follow then MirrorPfs(n, env, job.pfs, false)
    else
      var (n1, allDown) := AllNoCarrier(n, env, job.pfs);
      if allDown.None? then n1 else MirrorPfs(n1, env, job.pfs, allDown.value)
  }

  function RunJobs(n: Net, env: Env, jobs: seq<Job>): Net
    decreases |jobs|
  {
    if jobs == [] then n else RunJobs(RunJob(n, env, jobs[0]), env, jobs[1..])
  }

  function TopologyJobs(topologies: seq<Topology>, follow: bool): seq<Job> {
    if topologies == [] then [] else [Job(topologies[0].pfs, follow)] + TopologyJobs(topologies[1..], follow)
  }

  function PoolJobs(labels: Labels, p: Pool): seq<Job> {
    if MatchesSelector(p.selector, labels) then
      TopologyJobs(p.topologies, p.follow.None? || p.follow.value)
    else []
  }

  /** The topologies of all pools that select the node. */
  function Jobs(labels: Labels, pools: seq<Pool>): seq<Job> {
    if pools == [] then [] else PoolJobs(labels, pools[0]) + Jobs(labels, pools[1..])
  }

  /** One tick: get the node, list the pools, look after every selected topology. */
  function TickOnce(n: Net, env: Env, labels: Labels, pools: seq<Pool>): Net {
    if !env.oracle(n.clock).Ok? then Tick(n)
    else if !env.oracle(n.clock + 1).Ok? then Tick(Tick(n))
    else RunJobs(Tick(Tick(n)), env, Jobs(labels, pools))
  }

  // -------------------------------------------------------------- imperative form

  class Monitor {
    const env: Env
    var up: map<string, bool>
    var log: seq<Event>
    var clock: nat

    function View(): Net
      reads this
    {
      Net(up, log, clock)
    }

    constructor (env: Env, n: Net)
      ensures this.env == env && View() == n
    {
      this.env := env;
      up, log, clock := n.up, n.log, n.clock;
    }

    method Call() returns (ok: bool)
      modifies this
      ensures View() == Tick(old(View())) && ok == env.oracle(old(clock)).Ok?
    {
      ok := env.oracle(clock).Ok?;
      clock := clock + 1;
    }

    method AllPFsNoCarrier(pfNames: seq<string>) returns (allDown: Option<bool>)
      modifies this
      ensures (View(), allDown) == AllNoCarrier(old(View()), env, pfNames)
      ensures up == old(up) && CarrierSeen(old(View()), View(), env, pfNames, allDown)
    {
      CarrierAnswer(View(), env, pfNames);
      for i := 0 to |pfNames|
        invariant AllNoCarrier(View(), env, pfNames[i..]) == AllNoCarrier(old(View()), env, pfNames)
      {
        assert pfNames[i..][0] == pfNames[i] && pfNames[i..][1..] == pfNames[i + 1..];
        var found := pfNames[i] in up;
        var down := env.noCarrier(clock, pfNames[i]);
        var ok := Call();
        if !ok || !found {
          return None;
        }
        log := log + [SawCarrier(pfNames[i], down)];
        if !down {
          return Some(false);
        }
      }
      return Some(true);
    }

    method LinkSet(rep: string, state: bool)
      modifies this
      ensures View() == SetAdmin(old(View()), env, rep, state)
    {
      var o := env.oracle(clock);
      if TookEffect(o) {
        up := up[rep := state];
      }
      log := log + [SetLink(rep, state)];
      clock := clock + 1;
    }

    /** reconcileTopology: representors of every PF, one by one. */
    method ReconcileTopology(pfNames: seq<string>, allDown: bool)
      modifies this
      ensures View() == MirrorPfs(old(View()), env, pfNames, allDown)
    {
      for i := 0 to |pfNames|
        invariant MirrorPfs(View(), env, pfNames[i..], allDown) == MirrorPfs(old(View()), env, pfNames, allDown)
      {
        assert pfNames[i..][0] == pfNames[i] && pfNames[i..][1..] == pfNames[i + 1..];
        var ok := Call();
        if !ok {
          continue;
        }
        ReconcileReps(env.reps(pfNames[i]), allDown);
      }
    }

    method ReconcileReps(reps: seq<string>, allDown: bool)
      modifies this
      ensures View() == MirrorReps(old(View()), env, reps, allDown)
    {
      for j := 0 to |reps|
        invariant MirrorReps(View(), env, reps[j..], allDown) == MirrorReps(old(View()), env, reps, allDown)
      {
        assert reps[j..][0] == reps[j] && reps[j..][1..] == reps[j + 1..];
        var present := reps[j] in up;
        var ok := Call();
        if !ok || !present {
          continue;
        }
        var isUp := up[reps[j]];
        if allDown && isUp {
          LinkSet(reps[j], false);
        } else if !allDown && !isUp {
          LinkSet(reps[j], true);
        }
      }
    }

    method FollowTopologies(topologies: seq<Topology>, enabled: bool, ghost rest: seq<Job>)
      modifies this
      ensures RunJobs(View(), env, rest) == RunJobs(old(View()), env, TopologyJobs(topologies, enabled) + rest)
    {
      hide RunJob;
      for i := 0 to |topologies|
        invariant RunJobs(View(), env, TopologyJobs(topologies[i..], enabled) + rest) ==
                  RunJobs(old(View()), env, TopologyJobs(topologies, enabled) + rest)
      {
        assert topologies[i..][0] == topologies[i] && topologies[i..][1..] == topologies[i + 1..];
        ghost var todo := TopologyJobs(topologies[i..], enabled) + rest;
        assert todo[0] == Job(topologies[i].pfs, enabled) && todo[1..] == TopologyJobs(topologies[i + 1..], enabled) + rest;
        Follow(topologies[i].pfs, enabled);
      }
      assert TopologyJobs(topologies[|topologies|..], enabled) + rest == rest;
    }

    method Follow(pfNames: seq<string>, enabled: bool)
      modifies this
      ensures View() == RunJob(old(View()), env, Job(pfNames, enabled))
      ensures old(log) <= log
      ensures forall i :: |old(log)| <= i < |log| && log[i].SetLink? && !log[i].up ==>
                enabled && OnSomePf(env, Job(pfNames, enabled), log[i].link) && AllSeenDown(log, |old(log)|, Job(pfNames, enabled))
      ensures enabled && AllNoCarrier(old(View()), env, pfNames).1.None? ==> NoSets(old(View()), View())
    {
      CarrierAnswer(View(), env, pfNames);
      AllNoCarrierSaw(View(), env, pfNames);
      hide OnSomePf, AllSeenDown;
      JobJustified(View(), env, Job(pfNames, enabled));
      var allDown := false;
      if enabled {
        var seen := AllPFsNoCarrier(pfNames);
        if seen.None? {
          return;
        }
        allDown := seen.value;
      }
      ReconcileTopology(pfNames, allDown);
    }

    method TickLoop(labels: Labels, pools: seq<Pool>)
      modifies this
      ensures View() == TickOnce(old(View()), env, labels, pools)
      ensures !env.oracle(old(clock)).Ok? || !env.oracle(old(clock) + 1).Ok? ==> up == old(up) && log == old(log)
      ensures forall i :: |old(log)| <= i < |log| && log[i].SetLink? && !log[i].up ==>
                SeenDark(log, |old(log)|, env, labels, pools, log[i].link)
    {
      hide SeenDark;
      ghost var n, n' := View(), TickOnce(View(), env, labels, pools);
      forall i: nat | |n.log| <= i < |n'.log| && n'.log[i].SetLink? && !n'.log[i].up
        ensures SeenDark(n'.log, |n.log|, env, labels, pools, n'.log[i].link)
      {
        SetDownOnlyWhenDark(n, env, labels, pools, i);
      }
      hide RunJob;
      var ok := Call();
      if !ok {
        return;
      }
      ok := Call();
      if !ok {
        return;
      }
      ghost var start := View();
      for i := 0 to |pools|
        invariant RunJobs(View(), env, Jobs(labels, pools[i..])) == RunJobs(start, env, Jobs(labels, pools))
      {
        assert pools[i..][0] == pools[i] && pools[i..][1..] == pools[i + 1..];
        var p := pools[i];
        ghost var rest := Jobs(labels, pools[i + 1..]);
        assert Jobs(labels, pools[i..]) == PoolJobs(labels, p) + rest;
        if !MatchesSelector(p.selector, labels) {
          assert [] + rest == rest;
          continue;
        }
        var enabled := p.follow.None? || p.follow.value;
        FollowTopologies(p.topologies, enabled, rest);
      }
    }
  }

  // ------------------------------------------------------ set down only when dark

  /** A set-down is justified: its topology is followed and every PF of it was seen without carrier. */
  ghost predicate Justified(log: seq<Event>, from: nat, env: Env, jobs: seq<Job>, link: string) {
    exists job :: job in jobs && job.follow && OnSomePf(env, job, link) && AllSeenDown(log, from, job)
  }

  ghost predicate OnSomePf(env: Env, job: Job, link: string) {
    exists pf :: pf in job.pfs && link in env.reps(pf)
  }

  ghost predicate AllSeenDown(log: seq<Event>, from: nat, job: Job) {
    forall pf :: pf in job.pfs ==> exists i :: from <= i < |log| && log[i] == SawCarrier(pf, true)
  }

  lemma {:induction false} SeenGrows(log: seq<Event>, log': seq<Event>, from: nat, job: Job)
    requires AllSeenDown(log, from, job) && log <= log'
    ensures AllSeenDown(log', from, job)
  {
    forall pf | pf in job.pfs ensures exists i :: from <= i < |log'| && log'[i] == SawCarrier(pf, true) {
      var i :| from <= i < |log| && log[i] == SawCarrier(pf, true);
      assert log'[i] == log[i];
    }
  }

  lemma {:induction false} AllNoCarrierSaw(n: Net, env: Env, pfs: seq<string>)
    ensures var (n', r) := AllNoCarrier(n, env, pfs);
            && n.log <= n'.log && n'.up == n.up && n'.clock >= n.clock
            && (forall i :: |n.log| <= i < |n'.log| ==> n'.log[i].SawCarrier?)
            && (r == Some(true) ==> forall pf :: pf in pfs ==> exists i :: |n.log| <= i < |n'.log| && n'.log[i] == SawCarrier(pf, true))
    decreases |pfs|
  {
    if pfs != [] && Found(n, env, pfs[0]) && env.noCarrier(n.clock, pfs[0]) {
      var n1 := Tick(n.(log := n.log + [SawCarrier(pfs[0], true)]));
      AllNoCarrierSaw(n1, env, pfs[1..]);
      var n' := AllNoCarrier(n1, env, pfs[1..]).0;
      assert n'.log[|n.log|] == n1.log[|n.log|] == SawCarrier(pfs[0], true);
      assert forall pf :: pf in pfs <==> pf == pfs[0] || pf in pfs[1..];
    }
  }

  /** What an answer of the carrier check means, in what was seen and which lookup failed. */
  ghost predicate CarrierSeen(n: Net, n': Net, env: Env, pfs: seq<string>, answer: Option<bool>) {
    && n.log <= n'.log && n.clock <= n'.clock
    && (answer == Some(true) ==> forall pf :: pf in pfs ==> SawCarrier(pf, true) in n'.log[|n.log|..])
    && (answer == Some(false) ==> exists pf :: pf in pfs && SawCarrier(pf, false) in n'.log[|n.log|..])
    && (answer.None? ==> n'.clock > n.clock && exists pf :: pf in pfs && !(env.oracle(n'.clock - 1).Ok? && pf in n.up))
  }

  lemma {:induction false} CarrierAnswer(n: Net, env: Env, pfs: seq<string>)
    ensures var (n', answer) := AllNoCarrier(n, env, pfs); n'.up == n.up && CarrierSeen(n, n', env, pfs, answer)
    decreases |pfs|
  {
    if pfs != [] {
      assert pfs[0] in pfs;
      assert forall pf :: pf in pfs <==> pf == pfs[0] || pf in pfs[1..];
      if Found(n, env, pfs[0]) {
        var saw := SawCarrier(pfs[0], env.noCarrier(n.clock, pfs[0]));
        var n1 := Tick(n.(log := n.log + [saw]));
        CarrierAnswer(n1, env, pfs[1..]);
        var n' := AllNoCarrier(n, env, pfs).0;
        assert n1.log <= n'.log;
        assert n'.log[|n.log|..] == [saw] + n'.log[|n1.log|..];
      }
    }
  }

  /** What mirroring logs: only sets of the given representors, in the wanted direction. */
  lemma {:induction false} MirrorRepsLog(n: Net, env: Env, reps: seq<string>, allDown: bool)
    ensures var n' := MirrorReps(n, env, reps, allDown);
            && n.log <= n'.log
            && forall i :: |n.log| <= i < |n'.log| ==> n'.log[i].SetLink? && n'.log[i].link in reps && n'.log[i].up == !allDown
    decreases |reps|
  {
    if reps != [] {
      MirrorRepsLog(Mirror(n, env, reps[0], allDown), env, reps[1..], allDown);
    }
  }

  lemma {:induction false} MirrorPfsLog(n: Net, env: Env, pfs: seq<string>, allDown: bool)
    ensures var n' := MirrorPfs(n, env, pfs, allDown);
            && n.log <= n'.log
            && forall i :: |n.log| <= i < |n'.log| ==>
                 n'.log[i].SetLink? && OnSomePf(env, Job(pfs, true), n'.log[i].link) && n'.log[i].up == !allDown
    decreases |pfs|
  {
    if pfs != [] {
      MirrorRepsLog(Tick(n), env, env.reps(pfs[0]), allDown);
      var n1 := if env.oracle(n.clock).Ok? then MirrorReps(Tick(n), env, env.reps(pfs[0]), allDown) else Tick(n);
      MirrorPfsLog(n1, env, pfs[1..], allDown);
      var n' := MirrorPfs(n, env, pfs, allDown);
      forall i | |n.log| <= i < |n'.log|
        ensures n'.log[i].SetLink? && OnSomePf(env, Job(pfs, true), n'.log[i].link) && n'.log[i].up == !allDown
      {
        if i < |n1.log| {
          assert n'.log[i] == n1.log[i];
          assert pfs[0] in pfs && n'.log[i].link in env.reps(pfs[0]);
        } else {
          assert OnSomePf(env, Job(pfs[1..], true), n'.log[i].link);
          var pf :| pf in Job(pfs[1..], true).pfs && n'.log[i].link in env.reps(pf);
          assert pf in pfs;
        }
      }
    }
  }

  lemma {:induction false} JobJustified(n: Net, env: Env, job: Job)
    ensures var n' := RunJob(n, env, job);
            && n.log <= n'.log
            && forall i :: |n.log| <= i < |n'.log| && n'.log[i].SetLink? && !n'.log[i].up ==>
                 job.follow && OnSomePf(env, job, n'.log[i].link) && AllSeenDown(n'.log, |n.log|, job)
  {
    var n' := RunJob(n, env, job);
    if !job.follow {
      MirrorPfsLog(n, env, job.pfs, false);
    } else {
      var (n1, allDown) := AllNoCarrier(n, env, job.pfs);
      AllNoCarrierSaw(n, env, job.pfs);
      if allDown.Some? {
        MirrorPfsLog(n1, env, job.pfs, allDown.value);
        if allDown.value {
          SeenGrows(n1.log, n'.log, |n.log|, job);
        }
        assert forall k :: |n.log| <= k < |n1.log| ==> n'.log[k] == n1.log[k];
        forall i | |n.log| <= i < |n'.log| && n'.log[i].SetLink? && !n'.log[i].up
          ensures allDown.value && OnSomePf(env, job, n'.log[i].link)
        {
          var pf :| pf in Job(job.pfs, true).pfs && n'.log[i].link in env.reps(pf);
        }
      }
    }
  }

  lemma {:induction false} JobsJustified(n: Net, env: Env, jobs: seq<Job>)
    ensures var n' := RunJobs(n, env, jobs);
            && n.log <= n'.log
            && forall i :: |n.log| <= i < |n'.log| && n'.log[i].SetLink? && !n'.log[i].up ==>
                 Justified(n'.log, |n.log|, env, jobs, n'.log[i].link)
    decreases |jobs|
  {
    if jobs != [] {
      hide RunJob;
      var n1 := RunJob(n, env, jobs[0]);
      var n' := RunJobs(n, env, jobs);
      JobJustified(n, env, jobs[0]);
      JobsJustified(n1, env, jobs[1..]);
      forall i | |n.log| <= i < |n'.log| && n'.log[i].SetLink? && !n'.log[i].up
        ensures Justified(n'.log, |n.log|, env, jobs, n'.log[i].link)
      {
        if i < |n1.log| {
          assert n'.log[i] == n1.log[i];
          SeenGrows(n1.log, n'.log, |n.log|, jobs[0]);
          assert jobs[0] in jobs;
        } else {
          var job :| job in jobs[1..] && job.follow && OnSomePf(env, job, n'.log[i].link) && AllSeenDown(n'.log, |n1.log|, job);
          assert job in jobs && AllSeenDown(n'.log, |n.log|, job);
        }
      }
    }
  }

  // ------------------------------------------------------------ error-free ticks

  ghost predicate AllOk(env: Env, from: nat) {
    forall t :: t >= from ==> env.oracle(t).Ok?
  }

  /** Carrier does not change. */
  ghost predicate Steady(env: Env) {
    forall t, u, pf :: env.noCarrier(t, pf) == env.noCarrier(u, pf)
  }

  /** The topology is followed and dark. */
  ghost predicate Dark(env: Env, job: Job) {
    job.follow && forall pf :: pf in job.pfs ==> env.noCarrier(0, pf)
  }

  ghost predicate LinksExist(up: map<string, bool>, env: Env, job: Job) {
    (forall pf :: pf in job.pfs ==> pf in up) && forall link :: OnSomePf(env, job, link) ==> link in up
  }

  lemma {:induction false} CarrierRead(n: Net, env: Env, pfs: seq<string>)
    requires Steady(env)
    ensures var (n', r) := AllNoCarrier(n, env, pfs);
            && (r.Some? ==> (r.value <==> forall pf :: pf in pfs ==> env.noCarrier(0, pf)))
            && (AllOk(env, n.clock) && (forall pf :: pf in pfs ==> pf in n.up) ==> r.Some?)
    decreases |pfs|
  {
    if pfs != [] {
      assert pfs[0] in pfs;
      assert env.noCarrier(n.clock, pfs[0]) == env.noCarrier(0, pfs[0]);
      if Found(n, env, pfs[0]) && env.noCarrier(n.clock, pfs[0]) {
        CarrierRead(Tick(n.(log := n.log + [SawCarrier(pfs[0], true)])), env, pfs[1..]);
        assert forall pf :: pf in pfs <==> pf == pfs[0] || pf in pfs[1..];
      }
    }
  }

  lemma {:induction false} MirrorRepsSets(n: Net, env: Env, reps: seq<string>, allDown: bool)
    requires AllOk(env, n.clock) && forall r :: r in reps ==> r in n.up
    ensures var n' := MirrorReps(n, env, reps, allDown);
            && n'.clock >= n.clock && n'.up.Keys == n.up.Keys
            && forall l :: l in n.up ==> n'.up[l] == if l in reps then !allDown else n.up[l]
    decreases |reps|
  {
    if reps != [] {
      assert reps[0] in reps;
      MirrorRepsSets(Mirror(n, env, reps[0], allDown), env, reps[1..], allDown);
    }
  }

  lemma {:induction false} MirrorPfsSets(n: Net, env: Env, pfs: seq<string>, allDown: bool)
    requires AllOk(env, n.clock) && forall l :: OnSomePf(env, Job(pfs, true), l) ==> l in n.up
    ensures var n' := MirrorPfs(n, env, pfs, allDown);
            && n'.clock >= n.clock && n'.up.Keys == n.up.Keys
            && forall l :: l in n.up ==> n'.up[l] == if OnSomePf(env, Job(pfs, true), l) then !allDown else n.up[l]
    decreases |pfs|
  {
    if pfs != [] {
      forall r | r in env.reps(pfs[0]) ensures r in n.up {
        assert pfs[0] in Job(pfs, true).pfs;
        assert OnSomePf(env, Job(pfs, true), r);
      }
      MirrorRepsSets(Tick(n), env, env.reps(pfs[0]), allDown);
      var n1 := MirrorReps(Tick(n), env, env.reps(pfs[0]), allDown);
      forall l ensures OnSomePf(env, Job(pfs, true), l) <==> l in env.reps(pfs[0]) || OnSomePf(env, Job(pfs[1..], true), l) {
        SomePfCons(env, pfs, l);
      }
      MirrorPfsSets(n1, env, pfs[1..], allDown);
    }
  }

  lemma {:induction false} SomePfCons(env: Env, pfs: seq<string>, l: string)
    requires pfs != []
    ensures OnSomePf(env, Job(pfs, true), l) <==> l in env.reps(pfs[0]) || OnSomePf(env, Job(pfs[1..], true), l)
  {
    assert forall pf :: pf in pfs <==> pf == pfs[0] || pf in pfs[1..];
    if OnSomePf(env, Job(pfs[1..], true), l) {
      var pf :| pf in Job(pfs[1..], true).pfs && l in env.reps(pf);
      assert pf in Job(pfs, true).pfs;
    }
    if l in env.reps(pfs[0]) {
      assert pfs[0] in Job(pfs, true).pfs;
    }
    if OnSomePf(env, Job(pfs, true), l) && l !in env.reps(pfs[0]) {
      var pf :| pf in Job(pfs, true).pfs && l in env.reps(pf);
      assert pf in Job(pfs[1..], true).pfs;
    }
  }

  lemma {:induction false} JobSets(n: Net, env: Env, job: Job)
    requires AllOk(env, n.clock) && Steady(env) && LinksExist(n.up, env, job)
    ensures var n' := RunJob(n, env, job);
            && n'.clock >= n.clock && n'.up.Keys == n.up.Keys
            && forall l :: l in n.up ==> n'.up[l] == if OnSomePf(env, job, l) then !Dark(env, job) else n.up[l]
  {
    forall l ensures OnSomePf(env, job, l) <==> OnSomePf(env, Job(job.pfs, true), l) {
      if OnSomePf(env, job, l) {
        var pf :| pf in job.pfs && l in env.reps(pf);
        assert pf in Job(job.pfs, true).pfs;
      }
      if OnSomePf(env, Job(job.pfs, true), l) {
        var pf :| pf in Job(job.pfs, true).pfs && l in env.reps(pf);
        assert pf in job.pfs;
      }
    }
    if !job.follow {
      MirrorPfsSets(n, env, job.pfs, false);
    } else {
      var (n1, allDown) := AllNoCarrier(n, env, job.pfs);
      CarrierRead(n, env, job.pfs);
      AllNoCarrierSaw(n, env, job.pfs);
      MirrorPfsSets(n1, env, job.pfs, allDown.value);
    }
  }

  /** Jobs that share a representor want the same of it. */
  ghost predicate Harmonious(env: Env, jobs: seq<Job>) {
    forall i, j, l :: 0 <= i < |jobs| && 0 <= j < |jobs| && OnSomePf(env, jobs[i], l) && OnSomePf(env, jobs[j], l) ==>
      (Dark(env, jobs[i]) <==> Dark(env, jobs[j]))
  }

  /** Every representor of a job has the state its topology calls for. */
  ghost predicate Settled(up: map<string, bool>, env: Env, jobs: seq<Job>) {
    forall i, l :: 0 <= i < |jobs| && OnSomePf(env, jobs[i], l) && l in up ==> up[l] == !Dark(env, jobs[i])
  }

  ghost predicate OnSomeJob(env: Env, jobs: seq<Job>, l: string) {
    exists i :: 0 <= i < |jobs| && OnSomePf(env, jobs[i], l)
  }

  lemma {:induction false} HarmoniousTail(env: Env, jobs: seq<Job>)
    requires jobs != [] && Harmonious(env, jobs)
    ensures Harmonious(env, jobs[1..])
  {
    hide OnSomePf, Dark;
    forall i, j, l | 0 <= i < |jobs[1..]| && 0 <= j < |jobs[1..]| && OnSomePf(env, jobs[1..][i], l) && OnSomePf(env, jobs[1..][j], l)
      ensures Dark(env, jobs[1..][i]) <==> Dark(env, jobs[1..][j])
    {
      HarmonyAt(env, jobs, i + 1, j + 1, l);
    }
  }

  lemma {:induction false} HarmonyAt(env: Env, jobs: seq<Job>, i: nat, j: nat, l: string)
    requires Harmonious(env, jobs) && i < |jobs| && j < |jobs| && OnSomePf(env, jobs[i], l) && OnSomePf(env, jobs[j], l)
    ensures Dark(env, jobs[i]) <==> Dark(env, jobs[j])
  {
    hide OnSomePf, Dark;
  }

  lemma {:induction false} LinksStillExist(up: map<string, bool>, up': map<string, bool>, env: Env, job: Job)
    requires LinksExist(up, env, job) && up'.Keys == up.Keys
    ensures LinksExist(up', env, job)
  {
  }

  /** One job first, then the rest: what the links end up with. */
  lemma {:induction false} SettleStep(up: map<string, bool>, up1: map<string, bool>, up': map<string, bool>, env: Env, jobs: seq<Job>)
    requires jobs != [] && Harmonious(env, jobs) && up1.Keys == up.Keys && up'.Keys == up.Keys
    requires forall l :: l in up ==> up1[l] == if OnSomePf(env, jobs[0], l) then !Dark(env, jobs[0]) else up[l]
    requires Settled(up', env, jobs[1..]) && forall l :: l in up && !OnSomeJob(env, jobs[1..], l) ==> up'[l] == up1[l]
    ensures Settled(up', env, jobs) && forall l :: l in up && !OnSomeJob(env, jobs, l) ==> up'[l] == up[l]
  {
    hide OnSomePf, Dark, Harmonious;
    var rest := jobs[1..];
    assert forall i :: 0 <= i < |rest| ==> rest[i] == jobs[i + 1];
    forall i, l | 0 <= i < |jobs| && OnSomePf(env, jobs[i], l) && l in up' ensures up'[l] == !Dark(env, jobs[i]) {
      if i > 0 {
        assert OnSomePf(env, rest[i - 1], l);
      } else if OnSomeJob(env, rest, l) {
        var j :| 0 <= j < |rest| && OnSomePf(env, rest[j], l);
        HarmonyAt(env, jobs, 0, j + 1, l);
      }
    }
    forall l | l in up && !OnSomeJob(env, jobs, l) ensures up'[l] == up[l] {
      assert !OnSomePf(env, jobs[0], l);
      forall i | 0 <= i < |rest| ensures !OnSomePf(env, rest[i], l) {
        assert !OnSomePf(env, jobs[i + 1], l);
      }
    }
  }

  lemma {:induction false} JobsSettle(n: Net, env: Env, jobs: seq<Job>)
    requires AllOk(env, n.clock) && Steady(env) && Harmonious(env, jobs)
    requires forall i :: 0 <= i < |jobs| ==> LinksExist(n.up, env, jobs[i])
    ensures var n' := RunJobs(n, env, jobs);
            && n'.up.Keys == n.up.Keys && Settled(n'.up, env, jobs)
            && forall l :: l in n.up && !OnSomeJob(env, jobs, l) ==> n'.up[l] == n.up[l]
    decreases |jobs|
  {
    if jobs != [] {
      hide RunJob, OnSomePf, Dark, Harmonious, LinksExist, Settled, OnSomeJob, Steady;
      var n1, rest := RunJob(n, env, jobs[0]), jobs[1..];
      JobSets(n, env, jobs[0]);
      forall i | 0 <= i < |rest| ensures LinksExist(n1.up, env, rest[i]) {
        LinksStillExist(n.up, n1.up, env, jobs[i + 1]);
      }
      HarmoniousTail(env, jobs);
      JobsSettle(n1, env, rest);
      SettleStep(n.up, n1.up, RunJobs(n1, env, rest).up, env, jobs);
    }
  }

  // -------------------------------------------------------- in terms of the pools

  /** The pool selects the node and has the topology. */
  ghost predicate Follows(labels: Labels, p: Pool, t: Topology) {
    t in p.topologies && forall k :: k in p.selector ==> k in labels && labels[k] == p.selector[k]
  }

  lemma {:induction false} TopologyJobsAre(topologies: seq<Topology>, follow: bool, job: Job)
    ensures job in TopologyJobs(topologies, follow) <==> job.follow == follow && exists t :: t in topologies && t.pfs == job.pfs
  {
    if topologies != [] {
      TopologyJobsAre(topologies[1..], follow, job);
      assert forall t :: t in topologies <==> t == topologies[0] || t in topologies[1..];
    }
  }

  lemma {:induction false} PoolJobsAre(labels: Labels, p: Pool, job: Job)
    ensures job in PoolJobs(labels, p) <==> exists t :: Follows(labels, p, t) && job == Job(t.pfs, p.follow != Some(false))
  {
    TopologyJobsAre(p.topologies, p.follow != Some(false), job);
    if job in PoolJobs(labels, p) {
      var t :| t in p.topologies && t.pfs == job.pfs;
      assert Follows(labels, p, t);
    }
    if t :| Follows(labels, p, t) && job == Job(t.pfs, p.follow != Some(false)) {
      assert t in p.topologies;
    }
  }

  /** The jobs of a tick are the topologies of the pools that select the node, followed unless the pool says not to. */
  lemma {:induction false} JobsAre(labels: Labels, pools: seq<Pool>, job: Job)
    ensures job in Jobs(labels, pools) <==>
            exists p, t :: p in pools && Follows(labels, p, t) && job == Job(t.pfs, p.follow != Some(false))
  {
    hide Follows, PoolJobs;
    if pools != [] {
      JobsAre(labels, pools[1..], job);
      PoolJobsAre(labels, pools[0], job);
      assert forall p :: p in pools <==> p == pools[0] || p in pools[1..];
    }
  }

  /** Some PF of the topology carries the link. */
  ghost predicate OnTopology(env: Env, t: Topology, link: string) {
    exists pf :: pf in t.pfs && link in env.reps(pf)
  }

  /** The pool does not want following, or some PF of the topology has carrier. */
  ghost predicate WantsUp(env: Env, p: Pool, t: Topology) {
    p.follow == Some(false) || exists pf :: pf in t.pfs && !env.noCarrier(0, pf)
  }

  /** A pool that selects the node and follows has a topology with this link, whose PFs were all seen without carrier. */
  ghost predicate SeenDark(log: seq<Event>, from: nat, env: Env, labels: Labels, pools: seq<Pool>, link: string)
    requires from <= |log|
  {
    exists p, t ::
      && p in pools && Follows(labels, p, t) && p.follow != Some(false) && OnTopology(env, t, link)
      && forall pf :: pf in t.pfs ==> SawCarrier(pf, true) in log[from..]
  }

  /**
   * Whatever calls fail and however carrier changes meanwhile, a representor is set down only in a
   * tick that saw every PF of its topology without carrier, with following enabled in its pool.
   */
  lemma {:induction false} SetDownOnlyWhenDark(n: Net, env: Env, labels: Labels, pools: seq<Pool>, i: nat)
    requires var n' := TickOnce(n, env, labels, pools);
             |n.log| <= i < |n'.log| && n'.log[i].SetLink? && !n'.log[i].up
    ensures var n' := TickOnce(n, env, labels, pools);
            n.log <= n'.log && SeenDark(n'.log, |n.log|, env, labels, pools, n'.log[i].link)
  {
    hide RunJobs, Follows, OnTopology, OnSomePf;
    JobsJustified(Tick(Tick(n)), env, Jobs(labels, pools));
    var n' := TickOnce(n, env, labels, pools);
    var link := n'.log[i].link;
    var job :| job in Jobs(labels, pools) && job.follow && OnSomePf(env, job, link) && AllSeenDown(n'.log, |n.log|, job);
    JobsAre(labels, pools, job);
    var p, t :| p in pools && Follows(labels, p, t) && job == Job(t.pfs, p.follow != Some(false));
    JobLinks(env, job, t, link);
    forall pf | pf in t.pfs ensures SawCarrier(pf, true) in n'.log[|n.log|..] {
      var k :| |n.log| <= k < |n'.log| && n'.log[k] == SawCarrier(pf, true);
      assert n'.log[|n.log|..][k - |n.log|] == SawCarrier(pf, true);
    }
  }

  /** All links of the topologies this node is selected for exist. */
  ghost predicate AllExist(up: map<string, bool>, env: Env, labels: Labels, pools: seq<Pool>) {
    forall p, t :: p in pools && Follows(labels, p, t) ==>
      (forall pf :: pf in t.pfs ==> pf in up) && forall link :: OnTopology(env, t, link) ==> link in up
  }

  lemma {:induction false} JobLinks(env: Env, job: Job, t: Topology, link: string)
    requires job.pfs == t.pfs
    ensures OnSomePf(env, job, link) <==> OnTopology(env, t, link)
  {
    if OnTopology(env, t, link) {
      var pf :| pf in t.pfs && link in env.reps(pf);
      assert pf in job.pfs;
    }
    if OnSomePf(env, job, link) {
      var pf :| pf in job.pfs && link in env.reps(pf);
      assert pf in t.pfs;
    }
  }

  lemma {:induction false} AllJobsExist(up: map<string, bool>, env: Env, labels: Labels, pools: seq<Pool>, i: nat)
    requires AllExist(up, env, labels, pools) && i < |Jobs(labels, pools)|
    ensures LinksExist(up, env, Jobs(labels, pools)[i])
  {
    var job := Jobs(labels, pools)[i];
    assert job in Jobs(labels, pools);
    JobsAre(labels, pools, job);
    var p, t :| p in pools && Follows(labels, p, t) && job == Job(t.pfs, p.follow != Some(false));
    forall link | OnSomePf(env, job, link) ensures link in up {
      JobLinks(env, job, t, link);
    }
  }

  /** Topologies that share a representor want the same of it; so it is when no PF is in two of them. */
  ghost predicate AllHarmonious(env: Env, labels: Labels, pools: seq<Pool>) {
    forall p, t, q, u, link ::
      p in pools && Follows(labels, p, t) && OnTopology(env, t, link) && q in pools && Follows(labels, q, u) && OnTopology(env, u, link) ==>
      (WantsUp(env, p, t) <==> WantsUp(env, q, u))
  }

  lemma {:induction false} JobWants(env: Env, labels: Labels, pools: seq<Pool>, job: Job) returns (p: Pool, t: Topology)
    requires job in Jobs(labels, pools)
    ensures p in pools && Follows(labels, p, t) && job.pfs == t.pfs && (Dark(env, job) <==> !WantsUp(env, p, t))
  {
    JobsAre(labels, pools, job);
    p, t :| p in pools && Follows(labels, p, t) && job == Job(t.pfs, p.follow != Some(false));
  }

  lemma {:induction false} JobsAreHarmonious(env: Env, labels: Labels, pools: seq<Pool>)
    requires AllHarmonious(env, labels, pools)
    ensures Harmonious(env, Jobs(labels, pools))
  {
    hide Follows, OnTopology, OnSomePf, Dark, WantsUp, Jobs;
    var jobs := Jobs(labels, pools);
    forall i, j, l | 0 <= i < |jobs| && 0 <= j < |jobs| && OnSomePf(env, jobs[i], l) && OnSomePf(env, jobs[j], l)
      ensures Dark(env, jobs[i]) <==> Dark(env, jobs[j])
    {
      var p, t := JobWants(env, labels, pools, jobs[i]);
      var q, u := JobWants(env, labels, pools, jobs[j]);
      JobLinks(env, jobs[i], t, l);
      JobLinks(env, jobs[j], u, l);
    }
  }

  /** The link belongs to no topology this node is selected for. */
  ghost predicate Unrelated(env: Env, labels: Labels, pools: seq<Pool>, link: string) {
    forall p, t :: p in pools && Follows(labels, p, t) ==> !OnTopology(env, t, link)
  }

  lemma {:induction false} UnrelatedToJobs(env: Env, labels: Labels, pools: seq<Pool>, link: string)
    requires Unrelated(env, labels, pools, link)
    ensures !OnSomeJob(env, Jobs(labels, pools), link)
  {
    var jobs := Jobs(labels, pools);
    forall i | 0 <= i < |jobs| ensures !OnSomePf(env, jobs[i], link) {
      assert jobs[i] in jobs;
      JobsAre(labels, pools, jobs[i]);
      var p, t :| p in pools && Follows(labels, p, t) && jobs[i] == Job(t.pfs, p.follow != Some(false));
      JobLinks(env, jobs[i], t, link);
    }
  }

  /**
   * After an error-free tick, for every pool that selects the node and every topology of it: an
   * active representor is up if and only if following is disabled or some PF has carrier. Links of
   * other pools, and all other links, are unchanged.
   */
  lemma {:induction false} ErrorFreeTickSettles(n: Net, env: Env, labels: Labels, pools: seq<Pool>)
    requires AllOk(env, n.clock) && Steady(env) && AllHarmonious(env, labels, pools) && AllExist(n.up, env, labels, pools)
    ensures var n' := TickOnce(n, env, labels, pools);
            && n'.up.Keys == n.up.Keys
            && (forall p, t, link :: p in pools && Follows(labels, p, t) && OnTopology(env, t, link) ==>
                  link in n'.up && (n'.up[link] <==> WantsUp(env, p, t)))
            && (forall link :: link in n.up && Unrelated(env, labels, pools, link) ==> n'.up[link] == n.up[link])
  {
    hide RunJobs, Follows, OnTopology, Harmonious, AllHarmonious, Unrelated, Settled;
    var jobs, n' := Jobs(labels, pools), TickOnce(n, env, labels, pools);
    forall i | 0 <= i < |jobs| ensures LinksExist(n.up, env, jobs[i]) {
      AllJobsExist(n.up, env, labels, pools, i);
    }
    JobsAreHarmonious(env, labels, pools);
    JobsSettle(Tick(Tick(n)), env, jobs);
    forall p, t, link | p in pools && Follows(labels, p, t) && OnTopology(env, t, link)
      ensures link in n'.up && (n'.up[link] <==> WantsUp(env, p, t))
    {
      var job := Job(t.pfs, p.follow != Some(false));
      JobsAre(labels, pools, job);
      JobLinks(env, job, t, link);
      SettledJob(n'.up, env, jobs, job, link);
    }
    forall link | link in n.up && Unrelated(env, labels, pools, link) ensures n'.up[link] == n.up[link] {
      UnrelatedToJobs(env, labels, pools, link);
    }
  }

  lemma {:induction false} SettledJob(up: map<string, bool>, env: Env, jobs: seq<Job>, job: Job, link: string)
    requires Settled(up, env, jobs) && job in jobs && OnSomePf(env, job, link) && link in up
    ensures up[link] == !Dark(env, job)
  {
  }

  // ---------------------------------------------------------------- quiescence

  ghost predicate NoSets(n: Net, n': Net) {
    n.log <= n'.log && n'.up == n.up && forall i :: |n.log| <= i < |n'.log| ==> n'.log[i].SawCarrier?
  }

  lemma {:induction false} MirrorRepsIdle(n: Net, env: Env, reps: seq<string>, allDown: bool)
    requires forall r :: r in reps && r in n.up ==> n.up[r] == !allDown
    ensures NoSets(n, MirrorReps(n, env, reps, allDown))
    decreases |reps|
  {
    if reps != [] {
      assert reps[0] in reps;
      MirrorRepsIdle(Mirror(n, env, reps[0], allDown), env, reps[1..], allDown);
    }
  }

  lemma {:induction false} MirrorPfsIdle(n: Net, env: Env, pfs: seq<string>, allDown: bool)
    requires forall pf, r :: pf in pfs && r in env.reps(pf) && r in n.up ==> n.up[r] == !allDown
    ensures NoSets(n, MirrorPfs(n, env, pfs, allDown))
    decreases |pfs|
  {
    if pfs != [] {
      assert pfs[0] in pfs;
      MirrorRepsIdle(Tick(n), env, env.reps(pfs[0]), allDown);
      var n1 := if env.oracle(n.clock).Ok? then MirrorReps(Tick(n), env, env.reps(pfs[0]), allDown) else Tick(n);
      MirrorPfsIdle(n1, env, pfs[1..], allDown);
    }
  }

  lemma {:induction false} JobIdle(n: Net, env: Env, job: Job)
    requires Steady(env) && forall l :: OnSomePf(env, job, l) && l in n.up ==> n.up[l] == !Dark(env, job)
    ensures NoSets(n, RunJob(n, env, job))
  {
    forall pf, r | pf in job.pfs && r in env.reps(pf) && r in n.up ensures n.up[r] == !Dark(env, job) {
      assert OnSomePf(env, job, r);
    }
    if !job.follow {
      MirrorPfsIdle(n, env, job.pfs, false);
    } else {
      var (n1, allDown) := AllNoCarrier(n, env, job.pfs);
      CarrierRead(n, env, job.pfs);
      AllNoCarrierSaw(n, env, job.pfs);
      if allDown.Some? {
        MirrorPfsIdle(n1, env, job.pfs, allDown.value);
      }
    }
  }

  lemma {:induction false} JobsIdle(n: Net, env: Env, jobs: seq<Job>)
    requires Steady(env) && Settled(n.up, env, jobs)
    ensures NoSets(n, RunJobs(n, env, jobs))
    decreases |jobs|
  {
    if jobs != [] {
      hide RunJob, OnSomePf, Dark;
      JobIdle(n, env, jobs[0]);
      var n1 := RunJob(n, env, jobs[0]);
      assert forall i :: 0 <= i < |jobs[1..]| ==> jobs[1..][i] == jobs[i + 1];
      JobsIdle(n1, env, jobs[1..]);
      var n' := RunJobs(n1, env, jobs[1..]);
      assert forall i :: |n.log| <= i < |n1.log| ==> n'.log[i] == n1.log[i];
    }
  }

  /** Every representor has the state its pool and topology call for. */
  ghost predicate AllSettled(up: map<string, bool>, env: Env, labels: Labels, pools: seq<Pool>) {
    forall p, t, link :: p in pools && Follows(labels, p, t) && OnTopology(env, t, link) && link in up ==>
      (up[link] <==> WantsUp(env, p, t))
  }

  /** Once settled, a further tick issues no set while carrier is unchanged, even if calls fail. */
  lemma {:induction false} SettledTickIsQuiet(n: Net, env: Env, labels: Labels, pools: seq<Pool>)
    requires Steady(env) && AllSettled(n.up, env, labels, pools)
    ensures NoSets(n, TickOnce(n, env, labels, pools))
  {
    hide Follows, OnTopology, OnSomePf, Dark, WantsUp, RunJobs;
    var jobs := Jobs(labels, pools);
    forall i, l | 0 <= i < |jobs| && OnSomePf(env, jobs[i], l) && l in n.up ensures n.up[l] == !Dark(env, jobs[i]) {
      var p, t := JobWants(env, labels, pools, jobs[i]);
      JobLinks(env, jobs[i], t, l);
    }
    JobsIdle(Tick(Tick(n)), env, jobs);
  }
}
