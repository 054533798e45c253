/** The estimator's loop: on each tick it turns counters into power and adds to
    the node's and each pod's running energy. */
module Sampler {
  import opened PowerModel

  datatype Option<+T> = None | Some(value: T)

  datatype Identity = Identity(name: string, namespace: string)

  /** One pod cgroup found on the node; its usage file may not be readable. */
  datatype Cgroup = Cgroup(uid: string, usage: Option<nat>)

  /** What one tick sees; None where a read failed. */
  datatype Input = Input(cpu: Option<CpuTimes>, pods: Option<map<string, Identity>>, cgroups: Option<seq<Cgroup>>)

  datatype Config = Config(c: Coefficients, interval: real)

  /** What the loop keeps about its tracked pods, and what the registry reports. */
  datatype Pods = Pods(usage: map<string, nat>, joules: map<string, real>, ids: map<string, Identity>,
      reported: map<Identity, real>)

  datatype State = State(prevCpu: Option<CpuTimes>, prevWatts: Option<real>, nodeJoules: real, pods: Pods)

  const START: State := State(None, None, 0.0, Pods(map[], map[], map[], map[]))

  // ---------------------------------------------------------------- one tick

  function Spent(pods: Pods, uid: string, usage: nat): nat {
    if uid in pods.usage && usage >= pods.usage[uid] then usage - pods.usage[uid] else 0
  }

  function Joules(pods: Pods, uid: string): real {
    if uid in pods.joules then pods.joules[uid] else 0.0
  }

  /** A pod's power while it spends these CPU microseconds in one interval. */
  function PodWatts(cfg: Config, util: real, spent: nat): real {
    PodPower(NodePower(cfg.c, util), cfg.c.idle, ShareOfActive(spent as real / 1_000_000.0, util * cfg.interval))
  }

  /** The energy one reading adds to its pod. */
  function Share(cfg: Config, util: real, spent: nat): real {
    PodWatts(cfg, util, spent) * cfg.interval
  }

  function ReadPod(cfg: Config, util: real, known: map<string, Identity>, pods: Pods, cg: Cgroup): Pods {
    if cg.uid !in known || cg.usage.None? then pods
    else
      var uid, usage, id := cg.uid, cg.usage.value, known[cg.uid];
      var total := Joules(pods, uid) + Share(cfg, util, Spent(pods, uid, usage));
      Pods(pods.usage[uid := usage], pods.joules[uid := total], pods.ids[uid := id], pods.reported[id := total])
  }

  function ReadPods(cfg: Config, util: real, known: map<string, Identity>, pods: Pods, cgs: seq<Cgroup>): Pods {
    if cgs == [] then pods
    else ReadPod(cfg, util, known, ReadPods(cfg, util, known, pods, cgs[..|cgs| - 1]), cgs[|cgs| - 1])
  }

  /** The pods this tick has read. */
  function Seen(known: map<string, Identity>, cgs: seq<Cgroup>): set<string> {
    if cgs == [] then {}
    else
      var front, cg := Seen(known, cgs[..|cgs| - 1]), cgs[|cgs| - 1];
      if cg.uid in known && cg.usage.Some? then front + {cg.uid} else front
  }

  /** A tracked pod that was not seen has exited: it is no longer tracked, and
      its name is no longer reported. */
  function Forget(pods: Pods, seen: set<string>): Pods {
    var gone := set uid | uid in pods.usage && uid !in seen;
    Pods(pods.usage - gone, pods.joules - gone, pods.ids - gone,
         pods.reported - (set uid | uid in gone && uid in pods.ids :: pods.ids[uid]))
  }

  function PodTick(cfg: Config, util: real, pods: Pods, input: Input): Pods {
    if input.pods.None? || input.cgroups.None? then pods
    else Forget(ReadPods(cfg, util, input.pods.value, pods, input.cgroups.value),
        Seen(input.pods.value, input.cgroups.value))
  }

  /** The energy between two wattages `dt` apart. */
  function Trapezoid(a: real, b: real, dt: real): real { (b + a) / 2.0 * dt }

  function Watts(cfg: Config, s: State, cpu: CpuTimes): real
    requires s.prevCpu.Some?
  {
    NodePower(cfg.c, Utilization(s.prevCpu.value, cpu))
  }

  function Tick(cfg: Config, s: State, input: Input): State {
    if input.cpu.None? then s
    else if s.prevCpu.None? then s.(prevCpu := input.cpu)
    else
      var watts := Watts(cfg, s, input.cpu.value);
      var before := if s.prevWatts.Some? then s.prevWatts.value else watts;
      State(input.cpu, Some(watts), s.nodeJoules + Trapezoid(before, watts, cfg.interval),
            PodTick(cfg, Utilization(s.prevCpu.value, input.cpu.value), s.pods, input))
  }

  function After(cfg: Config, inputs: seq<Input>): State {
    if inputs == [] then START else Tick(cfg, After(cfg, inputs[..|inputs| - 1]), inputs[|inputs| - 1])
  }

  lemma AfterSnoc(cfg: Config, inputs: seq<Input>, input: Input)
    ensures After(cfg, inputs + [input]) == Tick(cfg, After(cfg, inputs), input)
  {
    assert (inputs + [input])[..|inputs|] == inputs;
  }

  lemma TwoSamples(a: real, b: real, dt: real)
    ensures Integral([WattSample(0.0, a), WattSample(dt, b)]) == Trapezoid(a, b, dt)
  {
    assert [WattSample(0.0, a), WattSample(dt, b)][..1] == [WattSample(0.0, a)];
  }

  // ----------------------------------------------------------------- the loop

  class Loop {
    const cfg: Config
    var prevCpu: Option<CpuTimes>
    var prevWatts: Option<real>
    var nodeJoules: real
    var pods: Pods
    ghost var history: seq<Input>

    constructor (cfg: Config)
      ensures this.cfg == cfg && Valid() && history == []
    {
      this.cfg := cfg;
      prevCpu, prevWatts, nodeJoules := None, None, 0.0;
      pods := Pods(map[], map[], map[], map[]);
      history := [];
    }

    function Contents(): State
      reads this
    {
      State(prevCpu, prevWatts, nodeJoules, pods)
    }

    ghost predicate Valid()
      reads this
    {
      Contents() == After(cfg, history)
    }

    method OnTick(input: Input)
      requires Valid()
      modifies this
      ensures Valid() && history == old(history) + [input]
    {
      AfterSnoc(cfg, history, input);
      history := history + [input];
      TickBody(input);
    }

    method TickBody(input: Input)
      modifies `prevCpu, `prevWatts, `nodeJoules, `pods
      ensures Contents() == Tick(cfg, old(Contents()), input)
    {
      if input.cpu.None? { return; }
      var cur := input.cpu.value;
      if prevCpu.None? {
        prevCpu := Some(cur);
        return;
      }
      var util := Utilization(prevCpu.value, cur);
      var watts := NodePower(cfg.c, util);
      if prevWatts.None? { prevWatts := Some(watts); }
      var before := prevWatts.value;
      var added := IntegrateJoules([WattSample(0.0, before), WattSample(cfg.interval, watts)]);
      TwoSamples(before, watts, cfg.interval);
      nodeJoules := nodeJoules + added;
      prevWatts := Some(watts);
      if input.pods.Some? && input.cgroups.Some? {
        pods := AttributePods(cfg, util, input.pods.value, pods, input.cgroups.value);
      }
      prevCpu := Some(cur);
    }
  }

  /** One cgroup's turn. */
  method AttributePod(cfg: Config, util: real, known: map<string, Identity>, pods: Pods, cg: Cgroup)
      returns (next: Pods)
    ensures next == ReadPod(cfg, util, known, pods, cg)
  {
    if cg.uid !in known || cg.usage.None? { return pods; }
    var uid, usage, id := cg.uid, cg.usage.value, known[cg.uid];
    var spent := 0;
    if uid in pods.usage && usage >= pods.usage[uid] { spent := usage - pods.usage[uid]; }
    assert spent == Spent(pods, uid, usage);
    var energy := Share(cfg, util, spent);
    var total := if uid in pods.joules then pods.joules[uid] + energy else 0.0 + energy;
    assert total == Joules(pods, uid) + energy;
    next := Pods(pods.usage[uid := usage], pods.joules[uid := total], pods.ids[uid := id], pods.reported[id := total]);
  }

  method AttributePods(cfg: Config, util: real, known: map<string, Identity>, pods0: Pods, cgs: seq<Cgroup>)
      returns (pods: Pods)
    ensures pods == Forget(ReadPods(cfg, util, known, pods0, cgs), Seen(known, cgs))
  {
    pods := pods0;
    var seen: set<string> := {};
    for i := 0 to |cgs|
      invariant pods == ReadPods(cfg, util, known, pods0, cgs[..i]) && seen == Seen(known, cgs[..i])
    {
      assert cgs[..i + 1][..i] == cgs[..i];
      var cg := cgs[i];
      if cg.uid in known && cg.usage.Some? {
        seen := seen + {cg.uid};
        pods := AttributePod(cfg, util, known, pods, cg);
      }
    }
    assert cgs[..|cgs|] == cgs;
    pods := ForgetExited(pods, seen);
  }

  /** `m` without the keys of `gone`, whichever way they were taken out. */
  ghost predicate Without<K(!new), V>(m: map<K, V>, next: map<K, V>, gone: set<K>) {
    && (forall k :: k in next <==> k in m && k !in gone)
    && (forall k :: k in next ==> next[k] == m[k])
  }

  lemma WithoutIsMinus<K(!new), V>(m: map<K, V>, next: map<K, V>, gone: set<K>)
    requires Without(m, next, gone)
    ensures next == m - gone
  {
  }

  /** The loop over the tracked pods, in any order. */
  method ForgetExited(pods0: Pods, seen: set<string>) returns (pods: Pods)
    ensures pods == Forget(pods0, seen)
  {
    var usage, joules, ids, reported := pods0.usage, pods0.joules, pods0.ids, pods0.reported;
    var todo := pods0.usage.Keys;
    ghost var gone: set<string> := {};
    ghost var names: set<Identity> := {};
    while todo != {}
      invariant todo <= pods0.usage.Keys
      invariant gone == set uid | uid in pods0.usage && uid !in seen && uid !in todo
      invariant names == set uid | uid in gone && uid in pods0.ids :: pods0.ids[uid]
      invariant Without(pods0.usage, usage, gone) && Without(pods0.joules, joules, gone)
                && Without(pods0.ids, ids, gone)
      invariant Without(pods0.reported, reported, names)
      decreases |todo|
    {
      var uid :| uid in todo;
      if uid !in seen {
        if uid in ids {
          reported := reported - {ids[uid]};
          names := names + {ids[uid]};
        }
        usage, joules, ids := usage - {uid}, joules - {uid}, ids - {uid};
        gone := gone + {uid};
      }
      todo := todo - {uid};
    }
    WithoutIsMinus(pods0.usage, usage, gone);
    WithoutIsMinus(pods0.joules, joules, gone);
    WithoutIsMinus(pods0.ids, ids, gone);
    WithoutIsMinus(pods0.reported, reported, names);
    assert gone == set uid | uid in pods0.usage && uid !in seen;
    pods := Pods(usage, joules, ids, reported);
  }
}
