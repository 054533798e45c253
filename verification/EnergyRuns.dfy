/** The running counters of the estimator against closed forms over its whole
    history of ticks. */
module EnergyRuns {
  import opened PowerModel
  import opened Sampler

  // --------------------------------------------------------------------- node

  /** Did this tick have two CPU samples to compare? */
  predicate Measures(s: State, input: Input) { s.prevCpu.Some? && input.cpu.Some? }

  /** The node's wattage at every measuring tick. */
  function Series(cfg: Config, inputs: seq<Input>): seq<real> {
    if inputs == [] then []
    else
      var front, input := inputs[..|inputs| - 1], inputs[|inputs| - 1];
      var s := After(cfg, front);
      if Measures(s, input) then Series(cfg, front) + [Watts(cfg, s, input.cpu.value)] else Series(cfg, front)
  }

  /** The wattages one interval apart; the first one also stands for the start. */
  function Timeline(ws: seq<real>, dt: real): seq<WattSample> {
    if ws == [] then []
    else if |ws| == 1 then [WattSample(0.0, ws[0]), WattSample(dt, ws[0])]
    else Timeline(ws[..|ws| - 1], dt) + [WattSample(|ws| as real * dt, ws[|ws| - 1])]
  }

  lemma {:induction false} TimelineEnds(ws: seq<real>, dt: real)
    requires ws != []
    ensures |Timeline(ws, dt)| == |ws| + 1
    ensures Timeline(ws, dt)[|ws|] == WattSample(|ws| as real * dt, ws[|ws| - 1])
  {
    if |ws| > 1 { TimelineEnds(ws[..|ws| - 1], dt); }
  }

  lemma OneMoreInterval(n: nat, dt: real)
    ensures (n + 1) as real * dt - n as real * dt == dt
  {
    assert (n + 1) as real == n as real + 1.0;
  }

  lemma IntegralSnoc(samples: seq<WattSample>, b: WattSample)
    requires samples != []
    ensures Integral(samples + [b]) == Integral(samples) + Panel(samples[|samples| - 1], b)
  {
    assert (samples + [b])[..|samples|] == samples;
    assert (samples + [b])[|samples| - 1] == samples[|samples| - 1];
  }

  /** One more wattage adds one more trapezoid. */
  lemma TimelineGrows(ws: seq<real>, w: real, dt: real)
    ensures Integral(Timeline(ws + [w], dt))
            == Integral(Timeline(ws, dt)) + Trapezoid(if ws == [] then w else ws[|ws| - 1], w, dt)
  {
    if ws == [] {
      assert [w][..0] == [] && [] + [w] == [w];
      TwoSamples(w, w, dt);
    } else {
      assert (ws + [w])[..|ws|] == ws;
      TimelineEnds(ws, dt);
      OneMoreInterval(|ws|, dt);
      IntegralSnoc(Timeline(ws, dt), WattSample((|ws| + 1) as real * dt, w));
    }
  }

  /** The node counter is the batch trapezoid integral of all its samples. */
  lemma {:induction false} NodeIsBatchIntegral(cfg: Config, inputs: seq<Input>)
    ensures After(cfg, inputs).nodeJoules == Integral(Timeline(Series(cfg, inputs), cfg.interval))
    ensures var ws := Series(cfg, inputs);
            After(cfg, inputs).prevWatts == if ws == [] then None else Some(ws[|ws| - 1])
  {
    if inputs != [] {
      var front, input := inputs[..|inputs| - 1], inputs[|inputs| - 1];
      NodeIsBatchIntegral(cfg, front);
      if Measures(After(cfg, front), input) {
        TimelineGrows(Series(cfg, front), Watts(cfg, After(cfg, front), input.cpu.value), cfg.interval);
      }
    }
  }

  predicate AllWithin(ws: seq<real>, lo: real, hi: real) {
    forall i :: 0 <= i < |ws| ==> lo <= ws[i] <= hi
  }

  lemma TrapezoidWithin(a: real, b: real, lo: real, hi: real, dt: real)
    requires lo <= a <= hi && lo <= b <= hi && dt >= 0.0
    ensures lo * dt <= Trapezoid(a, b, dt) <= hi * dt
  {
    var mean := (b + a) / 2.0;
    assert (mean - lo) * dt >= 0.0 && (hi - mean) * dt >= 0.0;
  }

  /** Constant power x held over n intervals. */
  function Held(x: real, n: nat, dt: real): real {
    if n == 0 then 0.0 else Held(x, n - 1, dt) + x * dt
  }

  lemma {:induction false} HeldIsProduct(x: real, n: nat, dt: real)
    ensures Held(x, n, dt) == x * (n as real * dt)
  {
    if n > 0 {
      HeldIsProduct(x, n - 1, dt);
      OneMoreInterval(n - 1, dt);
      Distribute(x, (n - 1) as real * dt, dt);
    }
  }

  lemma StepWithin(ws: seq<real>, w: real, lo: real, hi: real, dt: real) returns (energy: real)
    requires AllWithin(ws + [w], lo, hi) && dt >= 0.0
    ensures Integral(Timeline(ws + [w], dt)) == Integral(Timeline(ws, dt)) + energy
    ensures lo * dt <= energy <= hi * dt
  {
    var before := if ws == [] then w else ws[|ws| - 1];
    assert (ws + [w])[|ws|] == w && (ws != [] ==> (ws + [w])[|ws| - 1] == before);
    energy := Trapezoid(before, w, dt);
    TimelineGrows(ws, w, dt);
    TrapezoidWithin(before, w, lo, hi, dt);
  }

  lemma {:induction false} IntegralWithin(ws: seq<real>, lo: real, hi: real, dt: real)
    requires AllWithin(ws, lo, hi) && dt >= 0.0
    ensures Held(lo, |ws|, dt) <= Integral(Timeline(ws, dt)) <= Held(hi, |ws|, dt)
  {
    if ws != [] {
      var n := |ws| - 1;
      IntegralWithin(ws[..n], lo, hi, dt);
      assert ws == ws[..n] + [ws[n]];
      var energy := StepWithin(ws[..n], ws[n], lo, hi, dt);
    }
  }

  /** The CPU counters never fell between the ticks that compared them. */
  predicate Steady(cfg: Config, inputs: seq<Input>) {
    inputs != [] ==>
      var front, input := inputs[..|inputs| - 1], inputs[|inputs| - 1];
      Steady(cfg, front) && (Measures(After(cfg, front), input)
          ==> Advances(After(cfg, front).prevCpu.value, input.cpu.value))
  }

  lemma {:induction false} SeriesWithin(cfg: Config, inputs: seq<Input>)
    requires Steady(cfg, inputs) && cfg.c.idle <= cfg.c.max
    ensures AllWithin(Series(cfg, inputs), cfg.c.idle, cfg.c.max)
  {
    if inputs != [] {
      var front, input := inputs[..|inputs| - 1], inputs[|inputs| - 1];
      SeriesWithin(cfg, front);
      var s := After(cfg, front);
      if Measures(s, input) {
        UtilizationInRange(s.prevCpu.value, input.cpu.value);
        NodePowerInRange(cfg.c, Utilization(s.prevCpu.value, input.cpu.value));
      }
    }
  }

  /** Over n measuring ticks, with counters that never fall, the node's energy
      lies between idle and max power held for n intervals. */
  lemma NodeEnergyWithin(cfg: Config, inputs: seq<Input>)
    requires Steady(cfg, inputs) && cfg.c.idle <= cfg.c.max && cfg.interval >= 0.0
    ensures var n := |Series(cfg, inputs)|;
            Held(cfg.c.idle, n, cfg.interval) <= After(cfg, inputs).nodeJoules <= Held(cfg.c.max, n, cfg.interval)
  {
    SeriesWithin(cfg, inputs);
    NodeIsBatchIntegral(cfg, inputs);
    IntegralWithin(Series(cfg, inputs), cfg.c.idle, cfg.c.max, cfg.interval);
  }

  // --------------------------------------------------------------------- pods

  /** One reading of a pod's usage counter and the node's utilization then. */
  datatype Reading = Reading(usage: nat, util: real)

  /** This tick's readings of `uid` after those before it. */
  function Collect(log: seq<Reading>, util: real, known: map<string, Identity>, cgs: seq<Cgroup>, uid: string):
      seq<Reading> {
    if cgs == [] then log
    else
      var front, cg := Collect(log, util, known, cgs[..|cgs| - 1], uid), cgs[|cgs| - 1];
      if cg.uid == uid && uid in known && cg.usage.Some? then front + [Reading(cg.usage.value, util)] else front
  }

  predicate Attributes(s: State, input: Input) { Measures(s, input) && input.pods.Some? && input.cgroups.Some? }

  function UtilAt(s: State, input: Input): real
    requires Measures(s, input)
  {
    Utilization(s.prevCpu.value, input.cpu.value)
  }

  /** The readings since the pod was last (re)discovered; none while it is not
      tracked. Ticks whose kubelet or cgroup walk failed leave no reading. */
  function Track(cfg: Config, inputs: seq<Input>, uid: string): seq<Reading> {
    if inputs == [] then []
    else
      var front, input := inputs[..|inputs| - 1], inputs[|inputs| - 1];
      var s := After(cfg, front);
      if !Attributes(s, input) then Track(cfg, front, uid)
      else if uid !in Seen(input.pods.value, input.cgroups.value) then []
      else Collect(Track(cfg, front, uid), UtilAt(s, input), input.pods.value, input.cgroups.value, uid)
  }

  predicate Busy(log: seq<Reading>, i: nat)
    requires 1 <= i < |log|
  {
    log[i].util > 0.0
  }

  function Step(a: Reading, b: Reading): nat { if b.usage >= a.usage then b.usage - a.usage else 0 }

  /** The CPU microseconds that were read while the node was busy. */
  function Credited(log: seq<Reading>): nat {
    if |log| < 2 then 0
    else
      var n := |log| - 1;
      Credited(log[..n]) + if Busy(log, n) then Step(log[n - 1], log[n]) else 0
  }

  /** Those that were read at a tick without utilization: no one is charged. */
  function Lost(log: seq<Reading>): nat {
    if |log| < 2 then 0
    else
      var n := |log| - 1;
      Lost(log[..n]) + if Busy(log, n) then 0 else Step(log[n - 1], log[n])
  }

  /** The node's dynamic range held for these CPU-seconds. */
  function Energy(cfg: Config, micros: nat): real {
    Positive(cfg.c.max - cfg.c.idle) * (micros as real / 1_000_000.0)
  }

  lemma EnergyAdds(cfg: Config, a: nat, b: nat)
    ensures Energy(cfg, a + b) == Energy(cfg, a) + Energy(cfg, b)
  {
    var m, x, y := Positive(cfg.c.max - cfg.c.idle), a as real / 1_000_000.0, b as real / 1_000_000.0;
    assert (a + b) as real / 1_000_000.0 == x + y;
    Distribute(m, x, y);
  }

  lemma Distribute(m: real, x: real, y: real)
    ensures m * (x + y) == m * x + m * y
  {
  }

  /** The bookkeeping of one pod agrees with its readings. */
  predicate Agrees(cfg: Config, pods: Pods, uid: string, log: seq<Reading>) {
    if log == [] then uid !in pods.usage && uid !in pods.joules && uid !in pods.ids
    else
      && uid in pods.usage && pods.usage[uid] == log[|log| - 1].usage && uid in pods.ids
      && uid in pods.joules && pods.joules[uid] == Energy(cfg, Credited(log))
  }

  lemma ShareIs(cfg: Config, util: real, spent: nat)
    requires cfg.interval > 0.0
    ensures Share(cfg, util, spent) == if util > 0.0 then Energy(cfg, spent) else 0.0
  {
    PodIncrement(cfg.c, util, cfg.interval, spent as real / 1_000_000.0);
  }

  lemma CreditedSnoc(log: seq<Reading>, r: Reading)
    requires log != []
    ensures Credited(log + [r]) == Credited(log) + if r.util > 0.0 then Step(log[|log| - 1], r) else 0
  {
    assert (log + [r])[..|log|] == log;
  }

  lemma NoEnergy(cfg: Config)
    ensures Energy(cfg, 0) == 0.0
  {
    assert Positive(cfg.c.max - cfg.c.idle) * 0.0 == 0.0;
  }

  lemma ReadingAgrees(cfg: Config, util: real, known: map<string, Identity>, pods: Pods, cg: Cgroup, log: seq<Reading>)
    requires cfg.interval > 0.0 && Agrees(cfg, pods, cg.uid, log) && cg.uid in known && cg.usage.Some?
    ensures Agrees(cfg, ReadPod(cfg, util, known, pods, cg), cg.uid, log + [Reading(cg.usage.value, util)])
  {
    var uid, r := cg.uid, Reading(cg.usage.value, util);
    var spent := Spent(pods, uid, r.usage);
    ShareIs(cfg, util, spent);
    NoEnergy(cfg);
    var added := if util > 0.0 then spent else 0;
    if log == [] {
      assert Credited(log + [r]) == 0 && spent == 0;
      assert Joules(pods, uid) + Share(cfg, util, spent) == Energy(cfg, 0);
    } else {
      CreditedSnoc(log, r);
      EnergyAdds(cfg, Credited(log), added);
      assert Joules(pods, uid) + Share(cfg, util, spent) == Energy(cfg, Credited(log) + added);
    }
  }

  lemma {:induction false} ReadsAgree(
      cfg: Config, util: real, known: map<string, Identity>, pods: Pods, cgs: seq<Cgroup>, uid: string,
          log: seq<Reading>)
    requires cfg.interval > 0.0 && Agrees(cfg, pods, uid, log)
    ensures Agrees(cfg, ReadPods(cfg, util, known, pods, cgs), uid, Collect(log, util, known, cgs, uid))
  {
    if cgs != [] {
      var n := |cgs| - 1;
      ReadsAgree(cfg, util, known, pods, cgs[..n], uid, log);
      var mid := ReadPods(cfg, util, known, pods, cgs[..n]);
      if cgs[n].uid == uid && uid in known && cgs[n].usage.Some? {
        ReadingAgrees(cfg, util, known, mid, cgs[n], Collect(log, util, known, cgs[..n], uid));
      } else {
        assert cgs[n].uid == uid ==> ReadPod(cfg, util, known, mid, cgs[n]) == mid;
      }
    }
  }

  lemma {:induction false} SeenCollects(log: seq<Reading>, util: real, known: map<string, Identity>, cgs: seq<Cgroup>,
      uid: string)
    ensures if uid in Seen(known, cgs) then Collect(log, util, known, cgs, uid) != []
            else Collect(log, util, known, cgs, uid) == log
  {
    if cgs != [] {
      SeenCollects(log, util, known, cgs[..|cgs| - 1], uid);
    }
  }

  lemma ForgetAgrees(cfg: Config, pods: Pods, seen: set<string>, uid: string, log: seq<Reading>)
    requires Agrees(cfg, pods, uid, log)
    ensures Agrees(cfg, Forget(pods, seen), uid, if uid in seen then log else [])
  {
  }

  lemma PodTickAgrees(cfg: Config, s: State, input: Input, uid: string, log: seq<Reading>)
    requires cfg.interval > 0.0 && Agrees(cfg, s.pods, uid, log) && Attributes(s, input)
    ensures var known, cgs := input.pods.value, input.cgroups.value;
            Agrees(cfg, Tick(cfg, s, input).pods, uid,
                   if uid in Seen(known, cgs) then Collect(log, UtilAt(s, input), known, cgs, uid) else [])
  {
    var known, cgs, util := input.pods.value, input.cgroups.value, UtilAt(s, input);
    ReadsAgree(cfg, util, known, s.pods, cgs, uid, log);
    SeenCollects(log, util, known, cgs, uid);
    ForgetAgrees(cfg, ReadPods(cfg, util, known, s.pods, cgs), Seen(known, cgs), uid,
        Collect(log, util, known, cgs, uid));
  }

  /** Pod energy in closed form, on every history of ticks: while a pod is
      tracked, its joules are the dynamic range of the node times the
      CPU-seconds read for it at busy ticks since it was first seen, whichever
      ticks were skipped; a pod that is not tracked has none. */
  lemma {:induction false} PodEnergyClosedForm(cfg: Config, inputs: seq<Input>, uid: string)
    requires cfg.interval > 0.0
    ensures var pods, log := After(cfg, inputs).pods, Track(cfg, inputs, uid);
            && (uid in pods.joules <==> log != [])
            && (log != [] ==> pods.joules[uid] == Energy(cfg, Credited(log)))
    ensures Agrees(cfg, After(cfg, inputs).pods, uid, Track(cfg, inputs, uid))
  {
    if inputs != [] {
      var front, input := inputs[..|inputs| - 1], inputs[|inputs| - 1];
      PodEnergyClosedForm(cfg, front, uid);
      if Attributes(After(cfg, front), input) {
        PodTickAgrees(cfg, After(cfg, front), input, uid, Track(cfg, front, uid));
      }
    }
  }

  predicate NeverFalls(log: seq<Reading>) {
    forall i :: 1 <= i < |log| ==> log[i - 1].usage <= log[i].usage
  }

  /** While the counter never falls, what was used since the first reading is
      either credited or lost. */
  lemma {:induction false} UsedIsCreditedOrLost(log: seq<Reading>)
    requires log != [] && NeverFalls(log)
    ensures log[0].usage + Credited(log) + Lost(log) == log[|log| - 1].usage
  {
    if |log| > 1 {
      UsedIsCreditedOrLost(log[..|log| - 1]);
    }
  }

  /** All usage was read while the node was busy. */
  predicate AllBusy(log: seq<Reading>) {
    forall i :: 1 <= i < |log| ==> Busy(log, i) || log[i].usage == log[i - 1].usage
  }

  lemma AllBusySnoc(log: seq<Reading>)
    requires |log| > 1
    ensures var n := |log| - 1;
            AllBusy(log) <==> AllBusy(log[..n]) && (Busy(log, n) || log[n].usage == log[n - 1].usage)
  {
    var n := |log| - 1;
    if AllBusy(log) {
      forall i | 1 <= i < n ensures Busy(log[..n], i) || log[..n][i].usage == log[..n][i - 1].usage {
        assert Busy(log, i) || log[i].usage == log[i - 1].usage;
      }
    }
    if AllBusy(log[..n]) && (Busy(log, n) || log[n].usage == log[n - 1].usage) {
      forall i | 1 <= i < |log| ensures Busy(log, i) || log[i].usage == log[i - 1].usage {
        if i < n { assert Busy(log[..n], i) || log[..n][i].usage == log[..n][i - 1].usage; }
      }
    }
  }

  lemma {:induction false} LostExactly(log: seq<Reading>)
    requires NeverFalls(log)
    ensures Lost(log) == 0 <==> AllBusy(log)
  {
    if |log| > 1 {
      LostExactly(log[..|log| - 1]);
      AllBusySnoc(log);
    }
  }

  /** The usage since the first reading is charged in full exactly when all of
      it was read while the node was busy. */
  predicate ChargedIffBusy(cfg: Config, pods: Pods, uid: string, log: seq<Reading>)
    requires log != [] && uid in pods.joules
  {
    && log[|log| - 1].usage >= log[0].usage
    && (pods.joules[uid] == Energy(cfg, log[|log| - 1].usage - log[0].usage) <==> AllBusy(log))
  }

  lemma AgreedIsCharged(cfg: Config, pods: Pods, uid: string, log: seq<Reading>)
    requires cfg.c.idle < cfg.c.max && log != [] && NeverFalls(log) && Agrees(cfg, pods, uid, log)
    ensures ChargedIffBusy(cfg, pods, uid, log)
  {
    UsedIsCreditedOrLost(log);
    LostExactly(log);
    SameEnergyIff(cfg, Credited(log), Lost(log));
    assert log[|log| - 1].usage - log[0].usage == Credited(log) + Lost(log);
  }

  /** Hence the promise, on every history of ticks: for a tracked pod whose
      counter never fell, the joules are the dynamic range times the CPU-seconds
      used since first seen, if and only if all of it was read while the node
      was busy. */
  lemma PodEnergyIsUsage(cfg: Config, inputs: seq<Input>, uid: string)
    requires cfg.interval > 0.0 && cfg.c.idle < cfg.c.max
    requires Track(cfg, inputs, uid) != [] && NeverFalls(Track(cfg, inputs, uid))
    ensures uid in After(cfg, inputs).pods.joules
    ensures ChargedIffBusy(cfg, After(cfg, inputs).pods, uid, Track(cfg, inputs, uid))
  {
    PodEnergyClosedForm(cfg, inputs, uid);
    AgreedIsCharged(cfg, After(cfg, inputs).pods, uid, Track(cfg, inputs, uid));
  }

  lemma SameEnergyIff(cfg: Config, a: nat, more: nat)
    requires cfg.c.idle < cfg.c.max
    ensures Energy(cfg, a) == Energy(cfg, a + more) <==> more == 0
  {
    var x, y := a as real / 1_000_000.0, (a + more) as real / 1_000_000.0;
    if more > 0 {
      assert y > x;
      Rises(Positive(cfg.c.max - cfg.c.idle), x, y);
    }
  }

  lemma Rises(m: real, x: real, y: real)
    requires m > 0.0 && y > x
    ensures m * y > m * x
  {
    assert m * (y - x) > 0.0;
  }
}
