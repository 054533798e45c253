/** The estimator's power curve: utilization from CPU counters, watts from
    utilization, joules from watts. Numbers are reals: rounding is not modelled. */
module PowerModel {

  const WORD: int := 0x1_0000_0000_0000_0000

  datatype Coefficients = Coefficients(idle: real, max: real)

  /** The cumulative jiffy counters of the whole node, each a 64-bit word. */
  datatype CpuTimes = CpuTimes(
    user: nat, nice: nat, system: nat, idleOnly: nat, ioWait: nat, irq: nat, softIrq: nat, steal: nat)
  {
    function Busy(): nat { user + nice + system + irq + softIrq + steal }

    function Waiting(): nat { idleOnly + ioWait }

    /** The sums as the code takes them: modulo 2^64. */
    function Total(): nat { (Busy() + Waiting()) % WORD }

    function Idle(): nat { Waiting() % WORD }
  }

  /** Unsigned 64-bit subtraction. */
  function Delta(prev: nat, cur: nat): nat { (cur - prev) % WORD }

  function Utilization(prev: CpuTimes, cur: CpuTimes): real {
    var total := Delta(prev.Total(), cur.Total());
    if total == 0 then 0.0 else 1.0 - Delta(prev.Idle(), cur.Idle()) as real / total as real
  }

  function NodePower(c: Coefficients, util: real): real {
    c.idle + util * (c.max - c.idle)
  }

  function ShareOfActive(pod: real, node: real): real {
    if node <= 0.0 then 0.0 else pod / node
  }

  function PodPower(nodeWatts: real, idleWatts: real, share: real): real {
    (if nodeWatts - idleWatts < 0.0 then 0.0 else nodeWatts - idleWatts) * share
  }

  datatype WattSample = WattSample(at: real, watts: real)

  /** The energy between two samples. */
  function Panel(a: WattSample, b: WattSample): real {
    (b.watts + a.watts) / 2.0 * (b.at - a.at)
  }

  /** The trapezoidal integral of a wattage series. */
  function Integral(samples: seq<WattSample>): real {
    if |samples| < 2 then 0.0
    else
      Integral(samples[..|samples| - 1]) + Panel(samples[|samples| - 2], samples[|samples| - 1])
  }

  method IntegrateJoules(samples: seq<WattSample>) returns (joules: real)
    ensures joules == Integral(samples)
  {
    joules := 0.0;
    if samples == [] { return; }
    for i := 1 to |samples|
      invariant joules == Integral(samples[..i])
    {
      assert samples[..i + 1][..i] == samples[..i];
      var dt := samples[i].at - samples[i - 1].at;
      var avg := (samples[i].watts + samples[i - 1].watts) / 2.0;
      joules := joules + avg * dt;
    }
    assert samples[..|samples|] == samples;
  }

  /** No counter fell, and the node did not tick 2^64 times in between. */
  predicate Advances(prev: CpuTimes, cur: CpuTimes) {
    && prev.user <= cur.user && prev.nice <= cur.nice && prev.system <= cur.system && prev.idleOnly <= cur.idleOnly
    && prev.ioWait <= cur.ioWait && prev.irq <= cur.irq && prev.softIrq <= cur.softIrq && prev.steal <= cur.steal
    && (cur.Busy() + cur.Waiting()) - (prev.Busy() + prev.Waiting()) < WORD
  }

  /** Wrap-around cancels out of a difference. */
  lemma DeltaUnwraps(prev: nat, cur: nat)
    requires prev <= cur < prev + WORD
    ensures Delta(prev % WORD, cur % WORD) == cur - prev
  {
    var p, c := prev / WORD, cur / WORD;
    assert prev == p * WORD + prev % WORD && cur == c * WORD + cur % WORD;
    assert c == p || c == p + 1;
  }

  lemma RatioInRange(part: nat, whole: nat)
    requires whole > 0 && part <= whole
    ensures 0.0 <= part as real / whole as real <= 1.0
  {
  }

  lemma AtMostOneShrinks(q: real, w: real)
    ensures q <= 1.0 && w >= 0.0 ==> q * w <= w
  {
    if q <= 1.0 && w >= 0.0 { assert (1.0 - q) * w >= 0.0; }
  }

  lemma RatioAboveOne(part: nat, whole: nat)
    requires whole > 0 && part > whole
    ensures part as real / whole as real > 1.0
  {
    var q := part as real / whole as real;
    assert q * whole as real == part as real;
    AtMostOneShrinks(q, whole as real);
  }

  /** In general it is one exactly when idle time, as differenced, has not grown
      more than all time: an iowait counter that falls pushes it below zero. */
  lemma UtilizationInRangeIff(prev: CpuTimes, cur: CpuTimes)
    ensures 0.0 <= Utilization(prev, cur) <= 1.0
            <==> Delta(prev.Total(), cur.Total()) == 0
                 || Delta(prev.Idle(), cur.Idle()) <= Delta(prev.Total(), cur.Total())
  {
    var total, waiting := Delta(prev.Total(), cur.Total()), Delta(prev.Idle(), cur.Idle());
    if total != 0 {
      if waiting <= total { RatioInRange(waiting, total); } else { RatioAboveOne(waiting, total); }
    }
  }

  lemma TotalAdvances(prev: CpuTimes, cur: CpuTimes)
    requires Advances(prev, cur)
    ensures Delta(prev.Total(), cur.Total()) == (cur.Busy() + cur.Waiting()) - (prev.Busy() + prev.Waiting())
  {
    DeltaUnwraps(prev.Busy() + prev.Waiting(), cur.Busy() + cur.Waiting());
  }

  lemma IdleAdvances(prev: CpuTimes, cur: CpuTimes)
    requires Advances(prev, cur)
    ensures Delta(prev.Idle(), cur.Idle()) == cur.Waiting() - prev.Waiting()
  {
    DeltaUnwraps(prev.Waiting(), cur.Waiting());
  }

  /** Utilization is a fraction whenever the counters advance. */
  lemma UtilizationInRange(prev: CpuTimes, cur: CpuTimes)
    requires Advances(prev, cur)
    ensures 0.0 <= Utilization(prev, cur) <= 1.0
  {
    TotalAdvances(prev, cur);
    IdleAdvances(prev, cur);
    UtilizationInRangeIff(prev, cur);
  }

  lemma ComplementScales(part: nat, whole: nat, u: real)
    requires u == if whole == 0 then 0.0 else 1.0 - part as real / whole as real
    requires part <= whole
    ensures u * whole as real == (whole - part) as real
  {
    if whole > 0 {
      var q := part as real / whole as real;
      assert q * whole as real == part as real;
      assert (1.0 - q) * whole as real == whole as real - q * whole as real;
    }
  }

  /** `u` is the part of these jiffies that were not spent idle or waiting. */
  predicate IsBusyShare(u: real, busy: int, rest: int) {
    u * (busy + rest) as real == busy as real && (busy + rest == 0 ==> u == 0.0)
  }

  lemma BusyShareFrom(u: real, busy: nat, rest: nat)
    requires u == if busy + rest == 0 then 0.0 else 1.0 - rest as real / (busy + rest) as real
    ensures IsBusyShare(u, busy, rest)
  {
    ComplementScales(rest, busy + rest, u);
  }

  lemma BusyShareOf(prev: CpuTimes, cur: CpuTimes, busy: nat, rest: nat)
    requires Delta(prev.Total(), cur.Total()) == busy + rest && Delta(prev.Idle(), cur.Idle()) == rest
    ensures IsBusyShare(Utilization(prev, cur), busy, rest)
  {
    var u := Utilization(prev, cur);
    assert u == if busy + rest == 0 then 0.0 else 1.0 - rest as real / (busy + rest) as real;
    BusyShareFrom(u, busy, rest);
  }

  /** The jiffies spent on anything but idling and waiting for I/O. */
  function Worked(prev: CpuTimes, cur: CpuTimes): int {
    (cur.user + cur.nice + cur.system + cur.irq + cur.softIrq + cur.steal)
    - (prev.user + prev.nice + prev.system + prev.irq + prev.softIrq + prev.steal)
  }

  function Rested(prev: CpuTimes, cur: CpuTimes): int {
    (cur.idleOnly + cur.ioWait) - (prev.idleOnly + prev.ioWait)
  }

  lemma JiffiesAdvance(prev: CpuTimes, cur: CpuTimes)
    requires Advances(prev, cur)
    ensures Worked(prev, cur) >= 0 && Rested(prev, cur) >= 0
    ensures Delta(prev.Total(), cur.Total()) == Worked(prev, cur) + Rested(prev, cur)
    ensures Delta(prev.Idle(), cur.Idle()) == Rested(prev, cur)
  {
    TotalAdvances(prev, cur);
    IdleAdvances(prev, cur);
  }

  /** While no counter falls, utilization is the busy share of the jiffies that
      passed: all but those idle or waiting for I/O. */
  lemma UtilizationIsBusyShare(prev: CpuTimes, cur: CpuTimes)
    requires Advances(prev, cur)
    ensures IsBusyShare(Utilization(prev, cur), Worked(prev, cur), Rested(prev, cur))
  {
    JiffiesAdvance(prev, cur);
    BusyShareOf(prev, cur, Worked(prev, cur), Rested(prev, cur));
  }

  lemma ScaleBetween(u: real, x: real)
    requires 0.0 <= u <= 1.0 && x >= 0.0
    ensures 0.0 <= u * x <= x
  {
    assert (1.0 - u) * x >= 0.0;
  }

  lemma NodePowerInRange(c: Coefficients, util: real)
    requires c.idle <= c.max && 0.0 <= util <= 1.0
    ensures c.idle <= NodePower(c, util) <= c.max
  {
    var range := c.max - c.idle;
    ScaleBetween(util, range);
    assert NodePower(c, util) == c.idle + util * range;
  }

  function Positive(x: real): real { if x < 0.0 then 0.0 else x }

  lemma Regroup(u: real, m: real, q: real, dt: real)
    ensures u * m * q * dt == m * (q * (u * dt))
  {
    assert u * m * q * dt == m * (u * q * dt);
    assert u * q * dt == q * (u * dt);
  }

  lemma Quotient(secs: real, d: real)
    requires d > 0.0
    ensures secs / d * d == secs
  {
  }

  lemma PositiveProduct(a: real, b: real)
    requires a > 0.0
    ensures a * b < 0.0 <==> b < 0.0
    ensures b > 0.0 ==> a * b > 0.0
  {
  }

  lemma NonPositiveProduct(a: real, b: real)
    requires a <= 0.0 && b > 0.0
    ensures a * b <= 0.0
  {
  }

  /** What one tick credits a pod: its share of the node's dynamic power for one
      interval is the dynamic range times the CPU-seconds it used, whatever the
      utilization, as long as there was any. */
  lemma PodIncrement(c: Coefficients, util: real, dt: real, secs: real)
    requires dt > 0.0
    ensures PodPower(NodePower(c, util), c.idle, ShareOfActive(secs, util * dt)) * dt
            == if util > 0.0 then Positive(c.max - c.idle) * secs else 0.0
  {
    var m, node := c.max - c.idle, util * dt;
    assert NodePower(c, util) - c.idle == util * m;
    if util > 0.0 {
      PositiveProduct(util, m);
      PositiveProduct(util, dt);
      Quotient(secs, node);
      Regroup(util, m, secs / node, dt);
    } else {
      NonPositiveProduct(util, dt);
    }
  }
}
