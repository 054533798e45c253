/** The login limiter: failures are counted on three independent axes in fixed
    windows. An attempt first checks, works, and only then records its failure,
    so other attempts interleave between the two. */
module RateLimiter {

  const LOGIN_WINDOW: int := 60_000_000_000

  datatype Axis = PerSource | PerIP | PerAccount

  function Max(axis: Axis): int {
    match axis
    case PerSource => 5
    case PerIP => 30
    case PerAccount => 20
  }

  datatype Window = Window(start: int, count: int)

  type Windows = map<string, Window>

  predicate Expired(w: Window, now: int) {
    now - w.start > LOGIN_WINDOW
  }

  function Prune(m: Windows, now: int): Windows {
    map k | k in m && !Expired(m[k], now) :: m[k]
  }

  function Bump(m: Windows, key: string, now: int): Windows {
    m[key := if key !in m || Expired(m[key], now) then Window(now, 1) else Window(m[key].start, m[key].count + 1)]
  }

  predicate Over(m: Windows, key: string, max: int) {
    key in m && m[key].count >= max
  }

  /** The three keys one attempt is counted under. */
  datatype Keys = Keys(source: string, ip: string, account: string) {
    function On(axis: Axis): string {
      match axis
      case PerSource => source
      case PerIP => ip
      case PerAccount => account
    }
  }

  /** The three key spaces. */
  datatype Tables = Tables(source: Windows, ip: Windows, account: Windows) {
    function On(axis: Axis): Windows {
      match axis
      case PerSource => source
      case PerIP => ip
      case PerAccount => account
    }

    function Pruned(now: int): Tables {
      Tables(Prune(source, now), Prune(ip, now), Prune(account, now))
    }

    predicate Refuses(keys: Keys) {
      exists axis :: Over(On(axis), keys.On(axis), Max(axis))
    }
  }

  // ----------------------------------------------------- the limiter in place

  method PruneWindows(m: Windows, now: int) returns (out: Windows)
    ensures out == Prune(m, now)
  {
    out := m;
    var todo := m.Keys;
    while todo != {}
      invariant todo <= m.Keys
      invariant forall k :: k in out <==> k in m && (k in todo || !Expired(m[k], now))
      invariant forall k :: k in out ==> out[k] == m[k]
      decreases |todo|
    {
      var k :| k in todo;
      if now - out[k].start > LOGIN_WINDOW { out := out - {k}; }
      todo := todo - {k};
    }
  }

  class Limiter {
    var windows: Windows
    var ipWindows: Windows
    var acctWindows: Windows

    constructor ()
      ensures Contents() == Tables(map[], map[], map[])
    {
      windows, ipWindows, acctWindows := map[], map[], map[];
    }

    function Contents(): Tables
      reads this
    {
      Tables(windows, ipWindows, acctWindows)
    }

    method Blocked(keys: Keys, now: int) returns (refused: bool)
      modifies this
      ensures Contents() == old(Contents()).Pruned(now)
      ensures refused <==> Contents().Refuses(keys)
    {
      windows := PruneWindows(windows, now);
      ipWindows := PruneWindows(ipWindows, now);
      acctWindows := PruneWindows(acctWindows, now);
      assert Over(Contents().On(PerSource), keys.On(PerSource), Max(PerSource)) == Over(windows, keys.source, 5);
      assert Over(Contents().On(PerIP), keys.On(PerIP), Max(PerIP)) == Over(ipWindows, keys.ip, 30);
      assert Over(Contents().On(PerAccount), keys.On(PerAccount), Max(PerAccount))
             == Over(acctWindows, keys.account, 20);
      if keys.source in windows && windows[keys.source].count >= 5 { return true; }
      if keys.ip in ipWindows && ipWindows[keys.ip].count >= 30 { return true; }
      if keys.account in acctWindows && acctWindows[keys.account].count >= 20 { return true; }
      return false;
    }

    /** The clock is read once per axis. */
    method Fail(keys: Keys, at: Axis -> int)
      modifies this
      ensures forall axis :: Contents().On(axis) == Bump(old(Contents()).On(axis), keys.On(axis), at(axis))
    {
      windows := BumpWindow(windows, keys.source, at(PerSource));
      ipWindows := BumpWindow(ipWindows, keys.ip, at(PerIP));
      acctWindows := BumpWindow(acctWindows, keys.account, at(PerAccount));
    }
  }

  method BumpWindow(m: Windows, key: string, now: int) returns (out: Windows)
    ensures out == Bump(m, key, now)
  {
    if key !in m || now - m[key].start > LOGIN_WINDOW {
      out := m[key := Window(now, 1)];
    } else {
      out := m[key := m[key].(count := m[key].count + 1)];
    }
  }

  // --------------------------------------------------- interleaved attempts

  /** `pending` holds the attempts between their check and their record. */
  datatype State = State(tables: Tables, pending: map<nat, Keys>, clock: int)

  datatype Event =
    | Check(id: nat, keys: Keys, now: int)
    | Record(id: nat, at: Axis -> int, until: int)
    | Leave(id: nat)

  const START: State := State(Tables(map[], map[], map[]), map[], 0)

  /** The clock never runs backwards, and an attempt records only after an
      unblocked check of its own. */
  predicate Enabled(s: State, e: Event) {
    match e
    case Check(id, keys, now) => id !in s.pending && s.clock <= now
    case Record(id, at, until) => id in s.pending && forall axis :: s.clock <= at(axis) <= until
    case Leave(id) => id in s.pending
  }

  function Apply(s: State, e: Event): State
    requires Enabled(s, e)
  {
    match e
    case Check(id, keys, now) =>
      var tables := s.tables.Pruned(now);
      State(tables, if tables.Refuses(keys) then s.pending else s.pending[id := keys], now)
    case Record(id, at, until) =>
      var keys, t := s.pending[id], s.tables;
      State(Tables(Bump(t.source, keys.source, at(PerSource)), Bump(t.ip, keys.ip, at(PerIP)),
                   Bump(t.account, keys.account, at(PerAccount))),
            s.pending - {id}, until)
    case Leave(id) => s.(pending := s.pending - {id})
  }

  predicate IsRun(es: seq<Event>)
    decreases |es|, 0
  {
    es == [] || (IsRun(es[..|es| - 1]) && Enabled(After(es[..|es| - 1]), es[|es| - 1]))
  }

  function After(es: seq<Event>): State
    requires IsRun(es)
    decreases |es|, 1
  {
    if es == [] then START else Apply(After(es[..|es| - 1]), es[|es| - 1])
  }

  /** The attempts in flight that count under `key` on `axis`. */
  function InFlight(s: State, axis: Axis, key: string): set<nat> {
    set id | id in s.pending && s.pending[id].On(axis) == key
  }

  /** At every moment of the run, at most `k` attempts on the key are between
      check and record. */
  predicate AtMost(es: seq<Event>, axis: Axis, key: string, k: nat)
    requires IsRun(es)
  {
    |InFlight(After(es), axis, key)| <= k && (es == [] || AtMost(es[..|es| - 1], axis, key, k))
  }

  /** Does this event record a failure under `key` on `axis`? */
  predicate Hits(s: State, e: Event, axis: Axis, key: string) {
    e.Record? && e.id in s.pending && s.pending[e.id].On(axis) == key
  }

  /** When the failures under `key` were recorded, oldest first. */
  function Failures(es: seq<Event>, axis: Axis, key: string): seq<int>
    requires IsRun(es)
  {
    if es == [] then []
    else
      var before, e := es[..|es| - 1], es[|es| - 1];
      Failures(before, axis, key) + if Hits(After(before), e, axis, key) then [e.at(axis)] else []
  }

  // --------------------------------------------------------- counting bound

  /** One key's window while at most `k` attempts are in flight: what is
      counted, plus what may still be once the limit is reached, is bounded. */
  predicate Counted(m: Windows, key: string, inFlight: int, max: int, k: int) {
    key in m ==> m[key].count >= 1 && (m[key].count < max || m[key].count + inFlight <= max - 1 + k)
  }

  lemma CountedCheck(m: Windows, key: string, now: int, before: int, after: int, max: int, k: int)
    requires Counted(m, key, before, max, k)
    requires Over(Prune(m, now), key, max) ==> after <= before
    ensures Counted(Prune(m, now), key, after, max, k)
  {
  }

  lemma CountedBump(m: Windows, key: string, hit: string, now: int, before: int, after: int, max: int, k: int)
    requires Counted(m, key, before, max, k) && before <= k && max >= 1
    requires after == if hit == key then before - 1 else before
    ensures Counted(Bump(m, hit, now), key, after, max, k)
  {
  }

  lemma InFlightCheck(s: State, e: Event, axis: Axis, key: string)
    requires Enabled(s, e) && e.Check?
    ensures Over(Prune(s.tables.On(axis), e.now), key, Max(axis))
            ==> |InFlight(Apply(s, e), axis, key)| <= |InFlight(s, axis, key)|
  {
    if Over(Prune(s.tables.On(axis), e.now), key, Max(axis)) {
      if e.keys.On(axis) == key {
        assert Over(s.tables.Pruned(e.now).On(axis), e.keys.On(axis), Max(axis));
      }
      assert InFlight(Apply(s, e), axis, key) == InFlight(s, axis, key);
    }
  }

  lemma InFlightEnds(s: State, e: Event, axis: Axis, key: string)
    requires Enabled(s, e) && !e.Check?
    ensures |InFlight(Apply(s, e), axis, key)|
            == |InFlight(s, axis, key)| - if s.pending[e.id].On(axis) == key then 1 else 0
  {
    var was, next := InFlight(s, axis, key), InFlight(Apply(s, e), axis, key);
    assert next == was - {e.id};
  }

  /** However attempts interleave, no window counts more than the limit less
      one plus the attempts in flight. */
  lemma {:induction false} CountBound(es: seq<Event>, axis: Axis, key: string, k: nat)
    requires IsRun(es) && AtMost(es, axis, key, k)
    ensures Counted(After(es).tables.On(axis), key, |InFlight(After(es), axis, key)|, Max(axis), k)
    ensures key in After(es).tables.On(axis) ==> After(es).tables.On(axis)[key].count <= Max(axis) - 1 + k
  {
    if es != [] {
      var before, e := es[..|es| - 1], es[|es| - 1];
      var s, t := After(before), After(es);
      var was, now := |InFlight(s, axis, key)|, |InFlight(t, axis, key)|;
      CountBound(before, axis, key, k);
      match e {
        case Check(_, _, at) =>
          InFlightCheck(s, e, axis, key);
          CountedCheck(s.tables.On(axis), key, at, was, now, Max(axis), k);
        case Record(id, at, _) =>
          InFlightEnds(s, e, axis, key);
          CountedBump(s.tables.On(axis), key, s.pending[id].On(axis), at(axis), was, now, Max(axis), k);
        case Leave(_) =>
          InFlightEnds(s, e, axis, key);
      }
    }
  }

  // --------------------------------------------------------- interval bound

  /** Failures fall into fixed windows: the first one opens a window, and one
      later than the window's length after that opens the next. This is where in
      `ts` the newest window starts, and the one before it. */
  function Groups(ts: seq<int>): (r: (int, int))
    ensures 0 <= r.0 <= r.1 && (if ts == [] then r.1 == 0 else r.1 < |ts|)
  {
    if |ts| < 2 then (0, 0)
    else
      var n := |ts| - 1;
      var (last, newest) := Groups(ts[..n]);
      if ts[n] - ts[newest] > LOGIN_WINDOW then (newest, n) else (last, newest)
  }

  function Newest(ts: seq<int>): int { Groups(ts).1 }

  lemma GroupsSnoc(ts: seq<int>, t: int)
    ensures Groups(ts + [t]) ==
            if ts == [] then (0, 0)
            else if t - ts[Newest(ts)] > LOGIN_WINDOW then (Newest(ts), |ts|) else Groups(ts)
  {
    assert (ts + [t])[..|ts|] == ts;
  }

  predicate Sorted(ts: seq<int>) {
    forall i, j :: 0 <= i <= j < |ts| ==> ts[i] <= ts[j]
  }

  lemma SortedAt(ts: seq<int>, i: int, j: int)
    requires Sorted(ts) && 0 <= i < |ts| && 0 <= j < |ts|
    ensures ts[i] <= ts[j] || i > j
  {
  }

  /** Any stretch of failures no longer than the window holds at most 2b - 1. */
  predicate Sparse(ts: seq<int>, b: int) {
    forall i, j :: 0 <= i <= j < |ts| && ts[j] - ts[i] <= LOGIN_WINDOW ==> j - i + 1 <= 2 * b - 1
  }

  /** The limiter's own window for a key is the newest one of its failures, and
      is only forgotten once it has run out. */
  predicate Mirrors(m: Windows, key: string, clock: int, ts: seq<int>) {
    && Sorted(ts) && (ts != [] ==> ts[|ts| - 1] <= clock)
    && (key in m ==> ts != [] && m[key] == Window(ts[Newest(ts)], |ts| - Newest(ts)))
    && (key !in m && ts != [] ==> clock - ts[Newest(ts)] > LOGIN_WINDOW)
  }

  lemma MirrorsHit(m: Windows, key: string, clock: int, now: int, ts: seq<int>)
    requires Mirrors(m, key, clock, ts) && clock <= now
    ensures Mirrors(Bump(m, key, now), key, now, ts + [now])
  {
    GroupsSnoc(ts, now);
  }

  lemma MirrorsMiss(m: Windows, next: Windows, key: string, clock: int, now: int, ts: seq<int>)
    requires Mirrors(m, key, clock, ts) && clock <= now
    requires if key in next then key in m && next[key] == m[key] else key in m ==> Expired(m[key], now)
    ensures Mirrors(next, key, now, ts)
  {
  }

  lemma MissStep(s: State, e: Event, axis: Axis, key: string)
    requires Enabled(s, e) && !Hits(s, e, axis, key)
    ensures var m, next := s.tables.On(axis), Apply(s, e).tables.On(axis);
            && s.clock <= Apply(s, e).clock
            && if key in next then key in m && next[key] == m[key] else key in m ==> Expired(m[key], Apply(s, e).clock)
  {
  }

  lemma {:induction false} RunMirrors(es: seq<Event>, axis: Axis, key: string)
    requires IsRun(es)
    ensures Mirrors(After(es).tables.On(axis), key, After(es).clock, Failures(es, axis, key))
  {
    if es != [] {
      var before, e := es[..|es| - 1], es[|es| - 1];
      RunMirrors(before, axis, key);
      var s, ts := After(before), Failures(before, axis, key);
      if Hits(s, e, axis, key) {
        assert After(es).tables.On(axis) == Bump(s.tables.On(axis), key, e.at(axis));
        MirrorsHit(s.tables.On(axis), key, s.clock, e.at(axis), ts);
        MirrorsMiss(After(es).tables.On(axis), After(es).tables.On(axis), key, e.at(axis), e.until, ts + [e.at(axis)]);
      } else {
        assert Failures(es, axis, key) == ts;
        MissStep(s, e, axis, key);
        MirrorsMiss(s.tables.On(axis), After(es).tables.On(axis), key, s.clock, After(es).clock, ts);
      }
    }
  }

  /** Successive windows start further apart than one window's length, and hold at
      most `b` failures each. */
  predicate Bounded(ts: seq<int>, b: int) {
    var (last, newest) := Groups(ts);
    && (newest > 0 ==> last < newest && ts[newest] - ts[last] > LOGIN_WINDOW)
    && newest - last <= b && |ts| - newest <= b
  }

  lemma BoundedHit(ts: seq<int>, now: int, b: int)
    requires Bounded(ts, b) && b >= 1 && |ts| + 1 - Newest(ts + [now]) <= b
    ensures Bounded(ts + [now], b)
  {
    GroupsSnoc(ts, now);
  }

  lemma SparseHit(ts: seq<int>, now: int, b: int)
    requires Bounded(ts, b) && b >= 1 && Sorted(ts + [now]) && Sparse(ts, b) && |ts| + 1 - Newest(ts + [now]) <= b
    ensures Sparse(ts + [now], b)
  {
    var next := ts + [now];
    var (last, newest) := Groups(ts);
    GroupsSnoc(ts, now);
    forall i, j | 0 <= i <= j < |next| && next[j] - next[i] <= LOGIN_WINDOW ensures j - i + 1 <= 2 * b - 1 {
      if j < |ts| {
        assert next[i] == ts[i] && next[j] == ts[j];
      } else if i < |ts| {
        assert next[i] == ts[i];
        if now - ts[newest] > LOGIN_WINDOW {
          SortedAt(next, i, newest);
        } else if newest > 0 {
          SortedAt(next, i, last);
        }
      }
    }
  }

  function Bound(axis: Axis, k: nat): int { Max(axis) - 1 + k }

  /** After a failure, its window counts no more than the bound. */
  lemma HitCounts(es: seq<Event>, axis: Axis, key: string, k: nat)
    requires IsRun(es) && AtMost(es, axis, key, k) && es != []
    requires Hits(After(es[..|es| - 1]), es[|es| - 1], axis, key)
    ensures |Failures(es, axis, key)| - Newest(Failures(es, axis, key)) <= Bound(axis, k)
  {
    CountBound(es, axis, key, k);
    RunMirrors(es, axis, key);
    assert key in After(es).tables.On(axis);
  }

  ghost predicate Spread(ts: seq<int>, b: int) {
    ts != [] ==> b >= 1 && Bounded(ts, b) && Sparse(ts, b)
  }

  lemma SpreadHit(ts: seq<int>, now: int, b: int)
    requires Spread(ts, b) && Sorted(ts + [now]) && |ts| + 1 - Newest(ts + [now]) <= b
    ensures Spread(ts + [now], b)
  {
    GroupsSnoc(ts, now);
    if ts != [] {
      BoundedHit(ts, now, b);
      SparseHit(ts, now, b);
    }
  }

  lemma {:induction false} RunSpread(es: seq<Event>, axis: Axis, key: string, k: nat)
    requires IsRun(es) && AtMost(es, axis, key, k)
    ensures Spread(Failures(es, axis, key), Bound(axis, k))
  {
    if es != [] {
      var before, e := es[..|es| - 1], es[|es| - 1];
      var ts := Failures(before, axis, key);
      RunSpread(before, axis, key, k);
      if Hits(After(before), e, axis, key) {
        HitCounts(es, axis, key, k);
        RunMirrors(es, axis, key);
        SpreadHit(ts, e.at(axis), Bound(axis, k));
      } else {
        assert Failures(es, axis, key) == ts;
      }
    }
  }

  /** The limiter's own count is the failures recorded since its window began. */
  lemma CountIsFailures(es: seq<Event>, axis: Axis, key: string)
    requires IsRun(es) && key in After(es).tables.On(axis)
    ensures var w, ts := After(es).tables.On(axis)[key], Failures(es, axis, key);
            0 < w.count <= |ts| && w.start == ts[|ts| - w.count]
  {
    RunMirrors(es, axis, key);
  }

  // ------------------------------------------------------- who is refused

  /** The failures in the window that is open at `now`. */
  function Live(ts: seq<int>, now: int): nat {
    if ts == [] || now - ts[Newest(ts)] > 60_000_000_000 then 0 else |ts| - Newest(ts)
  }

  lemma OverIsLive(es: seq<Event>, axis: Axis, key: string, now: int)
    requires IsRun(es) && After(es).clock <= now
    ensures Over(Prune(After(es).tables.On(axis), now), key, Max(axis))
            <==> Live(Failures(es, axis, key), now) >= Max(axis)
  {
    RunMirrors(es, axis, key);
  }

  /** A check on any run is refused if and only if the source has five failures
      in the window open for it, or the address thirty, or the account twenty. */
  lemma RefusedIff(es: seq<Event>, id: nat, keys: Keys, now: int)
    requires IsRun(es) && Enabled(After(es), Check(id, keys, now))
    ensures id !in Apply(After(es), Check(id, keys, now)).pending <==>
              || Live(Failures(es, PerSource, keys.source), now) >= 5
              || Live(Failures(es, PerIP, keys.ip), now) >= 30
              || Live(Failures(es, PerAccount, keys.account), now) >= 20
  {
    var tables := After(es).tables.Pruned(now);
    forall axis: Axis
      ensures Over(tables.On(axis), keys.On(axis), Max(axis))
              <==> Live(Failures(es, axis, keys.On(axis)), now) >= Max(axis)
    {
      OverIsLive(es, axis, keys.On(axis), now);
    }
    assert tables.Refuses(keys) <==> exists axis: Axis :: Over(tables.On(axis), keys.On(axis), Max(axis));
    assert keys.On(PerSource) == keys.source && keys.On(PerIP) == keys.ip && keys.On(PerAccount) == keys.account;
  }

  /** How many failures fall in the closed interval of one window from `from`. */
  function Within(ts: seq<int>, from: int): nat {
    if ts == [] then 0
    else Within(ts[..|ts| - 1], from) + if from <= ts[|ts| - 1] <= from + LOGIN_WINDOW then 1 else 0
  }

  lemma {:induction false} WithinSuffix(ts: seq<int>, from: int, lo: nat)
    requires lo <= |ts| && forall j :: 0 <= j < lo ==> ts[j] < from
    ensures Within(ts, from) <= |ts| - lo
  {
    if ts != [] {
      WithinSuffix(ts[..|ts| - 1], from, if lo < |ts| then lo else lo - 1);
    }
  }

  lemma {:induction false} SparseInterval(ts: seq<int>, from: int, b: int)
    requires Sparse(ts, b) && b >= 1
    ensures Within(ts, from) <= 2 * b - 1
  {
    if ts != [] {
      var n := |ts| - 1;
      SparseInterval(ts[..n], from, b);
      if from <= ts[n] <= from + LOGIN_WINDOW && n >= 2 * b - 1 {
        var lo := n - (2 * b - 2);
        forall j | 0 <= j < lo ensures ts[j] < from {
          assert ts[n] - ts[j] > LOGIN_WINDOW;
        }
        WithinSuffix(ts, from, lo);
      } else {
        WithinSuffix(ts, from, 0);
      }
    }
  }

  /** On every axis, and however attempts interleave: any closed interval of the
      window's length holds at most 2(max - 1 + K) - 1 recorded failures. */
  lemma RateBound(es: seq<Event>, axis: Axis, key: string, k: nat, from: int)
    requires IsRun(es) && AtMost(es, axis, key, k)
    ensures Within(Failures(es, axis, key), from) <= 2 * (Max(axis) - 1 + k) - 1
  {
    RunSpread(es, axis, key, k);
    if Failures(es, axis, key) != [] { SparseInterval(Failures(es, axis, key), from, Bound(axis, k)); }
  }

  lemma {:induction false} WithinAtLeast(ts: seq<int>, from: int, lo: nat)
    requires lo <= |ts| && forall j :: lo <= j < |ts| ==> from <= ts[j] <= from + LOGIN_WINDOW
    ensures Within(ts, from) >= |ts| - lo
  {
    if lo < |ts| { WithinAtLeast(ts[..|ts| - 1], from, lo); }
  }

  /** So nobody is refused early: a refused check has that many recorded failures
      of its source, address or account within the last minute. */
  lemma RefusedHasFailed(es: seq<Event>, id: nat, keys: Keys, now: int)
    requires IsRun(es) && Enabled(After(es), Check(id, keys, now))
    requires id !in Apply(After(es), Check(id, keys, now)).pending
    ensures var from := now - 60_000_000_000;
            || Within(Failures(es, PerSource, keys.source), from) >= 5
            || Within(Failures(es, PerIP, keys.ip), from) >= 30
            || Within(Failures(es, PerAccount, keys.account), from) >= 20
  {
    RefusedIff(es, id, keys, now);
    LiveIsRecent(es, PerSource, keys.source, now);
    LiveIsRecent(es, PerIP, keys.ip, now);
    LiveIsRecent(es, PerAccount, keys.account, now);
  }

  lemma LiveIsRecent(es: seq<Event>, axis: Axis, key: string, now: int)
    requires IsRun(es) && After(es).clock <= now
    ensures Live(Failures(es, axis, key), now) <= Within(Failures(es, axis, key), now - LOGIN_WINDOW)
  {
    var ts := Failures(es, axis, key);
    RunMirrors(es, axis, key);
    if Live(ts, now) > 0 {
      forall j | Newest(ts) <= j < |ts| ensures now - LOGIN_WINDOW <= ts[j] <= now {
        SortedAt(ts, Newest(ts), j);
        SortedAt(ts, j, |ts| - 1);
      }
      WithinAtLeast(ts, now - LOGIN_WINDOW, Newest(ts));
    }
  }
}
