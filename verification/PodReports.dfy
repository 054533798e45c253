/** Which live pods the registry reports after a tick, and two short runs in
    which it falls short: a pod hidden by its predecessor's exit, and usage that
    no one is charged for. */
module PodReports {
  import opened PowerModel
  import opened Sampler
  import opened EnergyRuns

  /** Reading pods forgets nothing, tracks what it sees, and reports it. */
  lemma {:induction false} ReadKeeps(cfg: Config, util: real, known: map<string, Identity>, pods: Pods,
      cgs: seq<Cgroup>, uid: string)
    ensures var next := ReadPods(cfg, util, known, pods, cgs);
            if uid in Seen(known, cgs) then uid in known && uid in next.usage && known[uid] in next.reported
            else (uid in next.usage <==> uid in pods.usage)
                 && (uid in next.ids <==> uid in pods.ids) && (uid in pods.ids ==> next.ids[uid] == pods.ids[uid])
    ensures forall id :: id in pods.reported ==> id in ReadPods(cfg, util, known, pods, cgs).reported
  {
    if cgs != [] {
      ReadKeeps(cfg, util, known, pods, cgs[..|cgs| - 1], uid);
    }
  }

  /** A tracked pod that this tick did not see goes by this identity. */
  predicate LeavesName(pods: Pods, seen: set<string>, id: Identity) {
    exists uid :: uid in pods.usage && uid !in seen && uid in pods.ids && pods.ids[uid] == id
  }

  /** The registry is keyed by name. After a tick, a pod the tick has read is
      reported if and only if no tracked pod that exited by then carried the same
      name and namespace; either way it stays tracked. */
  lemma ReportedIffNameNotLeft(cfg: Config, s: State, input: Input, live: string)
    requires Attributes(s, input) && live in Seen(input.pods.value, input.cgroups.value)
    ensures live in input.pods.value && live in Tick(cfg, s, input).pods.usage
    ensures input.pods.value[live] in Tick(cfg, s, input).pods.reported
            <==> !LeavesName(s.pods, Seen(input.pods.value, input.cgroups.value), input.pods.value[live])
  {
    var known, cgs, util := input.pods.value, input.cgroups.value, UtilAt(s, input);
    var seen, read := Seen(known, cgs), ReadPods(cfg, util, known, s.pods, cgs);
    ReadKeeps(cfg, util, known, s.pods, cgs, live);
    assert Tick(cfg, s, input).pods == Forget(read, seen);
    ForgetReported(read, seen, known[live]);
    forall uid | uid !in seen
      ensures (uid in read.usage && uid in read.ids) == (uid in s.pods.usage && uid in s.pods.ids)
      ensures uid in s.pods.ids ==> uid in read.ids && read.ids[uid] == s.pods.ids[uid]
    {
      ReadKeeps(cfg, util, known, s.pods, cgs, uid);
    }
    LeavesSame(s.pods, read, seen, known[live]);
  }

  /** No other pod read in this tick goes by the pod's name. */
  predicate NameIsOwn(known: map<string, Identity>, cgs: seq<Cgroup>, live: string) {
    live in known && forall uid :: uid in Seen(known, cgs) && uid in known && uid != live ==> known[uid] != known[live]
  }

  lemma {:induction false} ReadReports(cfg: Config, util: real, known: map<string, Identity>, pods: Pods,
      cgs: seq<Cgroup>, live: string)
    requires live in Seen(known, cgs) && NameIsOwn(known, cgs, live)
    ensures var next := ReadPods(cfg, util, known, pods, cgs);
            known[live] in next.reported && live in next.joules && next.reported[known[live]] == next.joules[live]
  {
    var n := |cgs| - 1;
    if live in Seen(known, cgs[..n]) { ReadReports(cfg, util, known, pods, cgs[..n], live); }
  }

  /** What is reported for a pod the tick has read is its own running energy. */
  lemma ReportedIsOwnEnergy(cfg: Config, s: State, input: Input, live: string)
    requires Attributes(s, input) && live in Seen(input.pods.value, input.cgroups.value)
    requires NameIsOwn(input.pods.value, input.cgroups.value, live)
    ensures var next := Tick(cfg, s, input).pods;
            && live in input.pods.value && live in next.joules
            && (input.pods.value[live] in next.reported ==> next.reported[input.pods.value[live]] == next.joules[live])
  {
    ReadReports(cfg, UtilAt(s, input), input.pods.value, s.pods, input.cgroups.value, live);
  }

  lemma ForgetReported(pods: Pods, seen: set<string>, id: Identity)
    requires id in pods.reported
    ensures id in Forget(pods, seen).reported <==> !LeavesName(pods, seen, id)
  {
  }

  lemma LeavesSame(pods: Pods, read: Pods, seen: set<string>, id: Identity)
    requires forall uid ::
               uid !in seen ==> (uid in read.usage && uid in read.ids) == (uid in pods.usage && uid in pods.ids)
    requires forall uid :: uid !in seen && uid in pods.ids ==> uid in read.ids && read.ids[uid] == pods.ids[uid]
    ensures LeavesName(read, seen, id) <==> LeavesName(pods, seen, id)
  {
    if LeavesName(pods, seen, id) {
      var uid :| uid in pods.usage && uid !in seen && uid in pods.ids && pods.ids[uid] == id;
      assert uid in read.usage && uid in read.ids && read.ids[uid] == id;
    }
    if LeavesName(read, seen, id) {
      var uid :| uid in read.usage && uid !in seen && uid in read.ids && read.ids[uid] == id;
      assert uid in pods.usage && uid in pods.ids && pods.ids[uid] == id;
    }
  }

  // ------------------------------------------------------------ two short runs

  /** A tick that sees one pod with one usage reading. */
  function OnePod(cpu: CpuTimes, uid: string, id: Identity, usage: nat): Input {
    Input(Some(cpu), Some(map[uid := id]), Some([Cgroup(uid, Some(usage))]))
  }

  /** The tick that only takes the first CPU sample. */
  function Warmup(cpu: CpuTimes): Input { Input(Some(cpu), None, None) }

  lemma OneCgroup(cfg: Config, util: real, uid: string, id: Identity, usage: nat, pods: Pods, log: seq<Reading>)
    ensures var known, cgs := map[uid := id], [Cgroup(uid, Some(usage))];
            && Seen(known, cgs) == {uid}
            && ReadPods(cfg, util, known, pods, cgs) == ReadPod(cfg, util, known, pods, cgs[0])
            && Collect(log, util, known, cgs, uid) == log + [Reading(usage, util)]
  {
    assert [Cgroup(uid, Some(usage))][..0] == [];
  }

  lemma AfterWarmup(cfg: Config, cpu: CpuTimes)
    ensures After(cfg, [Warmup(cpu)]) == START.(prevCpu := Some(cpu))
  {
    assert [Warmup(cpu)][..0] == [];
  }

  lemma TickOnePod(cfg: Config, s: State, cpu: CpuTimes, uid: string, id: Identity, usage: nat)
    requires s.prevCpu.Some?
    ensures var next := Tick(cfg, s, OnePod(cpu, uid, id, usage));
            && next.prevCpu == Some(cpu) && uid in next.pods.usage && uid in next.pods.ids && next.pods.ids[uid] == id
  {
    OneCgroup(cfg, UtilAt(s, OnePod(cpu, uid, id, usage)), uid, id, usage, s.pods, []);
  }

  const NAME: Identity := Identity("web-0", "shop")

  /** A run from the start: a pod exits and another of the same name is read in
      the same tick. It is tracked, but not reported. */
  lemma SuccessorHidden(cfg: Config, cpu0: CpuTimes, cpu1: CpuTimes, cpu2: CpuTimes)
    ensures var inputs := [Warmup(cpu0), OnePod(cpu1, "first", NAME, 0), OnePod(cpu2, "second", NAME, 0)];
            "second" in After(cfg, inputs).pods.usage && NAME !in After(cfg, inputs).pods.reported
  {
    var start, one, two := [Warmup(cpu0)], OnePod(cpu1, "first", NAME, 0), OnePod(cpu2, "second", NAME, 0);
    AfterWarmup(cfg, cpu0);
    AfterSnoc(cfg, start, one);
    AfterSnoc(cfg, start + [one], two);
    assert start + [one] + [two] == [Warmup(cpu0), one, two];
    var s := After(cfg, start + [one]);
    TickOnePod(cfg, After(cfg, start), cpu1, "first", NAME, 0);
    OneCgroup(cfg, UtilAt(s, two), "second", NAME, 0, s.pods, []);
    assert "first"[0] != "second"[0];
    assert LeavesName(s.pods, {"second"}, NAME);
    ReportedIffNameNotLeft(cfg, s, two, "second");
  }

  /** Time passed between the two samples, all of it idle. */
  predicate IdleBetween(prev: CpuTimes, cur: CpuTimes) {
    Advances(prev, cur) && prev.idleOnly < cur.idleOnly && cur == prev.(idleOnly := cur.idleOnly)
  }

  lemma SameDeltasMeanZero(prev: CpuTimes, cur: CpuTimes)
    requires Delta(prev.Idle(), cur.Idle()) == Delta(prev.Total(), cur.Total())
    ensures Utilization(prev, cur) == 0.0
  {
  }

  lemma IdleMeansZero(prev: CpuTimes, cur: CpuTimes)
    requires IdleBetween(prev, cur)
    ensures Utilization(prev, cur) == 0.0
  {
    TotalAdvances(prev, cur);
    IdleAdvances(prev, cur);
    SameDeltasMeanZero(prev, cur);
  }

  lemma TrackSnoc(cfg: Config, inputs: seq<Input>, prev: CpuTimes, cur: CpuTimes, uid: string, id: Identity, usage: nat)
    requires After(cfg, inputs).prevCpu == Some(prev) && IdleBetween(prev, cur)
    ensures Track(cfg, inputs + [OnePod(cur, uid, id, usage)], uid) == Track(cfg, inputs, uid) + [Reading(usage, 0.0)]
  {
    var input := OnePod(cur, uid, id, usage);
    assert (inputs + [input])[..|inputs|] == inputs;
    IdleMeansZero(prev, cur);
    OneCgroup(cfg, 0.0, uid, id, usage, After(cfg, inputs).pods, Track(cfg, inputs, uid));
  }

  /** A run from the start on an idle node in which a second of CPU time is read
      at a tick without utilization: the pod's whole usage is charged to no one. */
  lemma IdleUsageIsLost(cfg: Config, cpu0: CpuTimes, cpu1: CpuTimes, cpu2: CpuTimes)
    requires cfg.interval > 0.0 && cfg.c.idle < cfg.c.max && IdleBetween(cpu0, cpu1) && IdleBetween(cpu1, cpu2)
    ensures var inputs := [Warmup(cpu0), OnePod(cpu1, "pod", NAME, 0), OnePod(cpu2, "pod", NAME, 1_000_000)];
            && Track(cfg, inputs, "pod") == [Reading(0, 0.0), Reading(1_000_000, 0.0)]
            && "pod" in After(cfg, inputs).pods.joules && After(cfg, inputs).pods.joules["pod"] == Energy(cfg, 0)
            && Energy(cfg, 0) != Energy(cfg, 1_000_000)
  {
    var one, two := OnePod(cpu1, "pod", NAME, 0), OnePod(cpu2, "pod", NAME, 1_000_000);
    var start := [Warmup(cpu0)];
    var inputs := start + [one] + [two];
    AfterWarmup(cfg, cpu0);
    AfterSnoc(cfg, start, one);
    TickOnePod(cfg, After(cfg, start), cpu1, "pod", NAME, 0);
    assert start[..0] == [];
    TrackSnoc(cfg, start, cpu0, cpu1, "pod", NAME, 0);
    TrackSnoc(cfg, start + [one], cpu1, cpu2, "pod", NAME, 1_000_000);
    var log := Track(cfg, inputs, "pod");
    assert inputs == [Warmup(cpu0), one, two] && log == [Reading(0, 0.0), Reading(1_000_000, 0.0)];
    NothingCredited(log);
    PodEnergyClosedForm(cfg, inputs, "pod");
    SameEnergyIff(cfg, 0, 1_000_000);
  }

  lemma NothingCredited(log: seq<Reading>)
    requires |log| == 2 && log[1].util == 0.0
    ensures Credited(log) == 0
  {
    assert |log[..1]| == 1;
  }
}
