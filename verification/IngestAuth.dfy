/** The gateway's ingest-key authenticator and the tenant processor behind it.
    Requests share one verdict cache, which they read and write in separate
    critical sections with a hub call in between. */
module IngestAuth {

  datatype Option<+T> = None | Some(value: T)

  datatype Mode = Off | Log | Enforce

  datatype Config = Config(mode: Mode, cacheTTL: int, staleGrace: int) {
    /** How old a verdict may be when it is used. */
    function MaxAge(): int {
      var longer := if cacheTTL > staleGrace then cacheTTL else staleGrace;
      if longer > 0 then longer else 0
    }
  }

  datatype Verdict = Verdict(valid: bool, project: string, fetched: int)

  type Cache = map<string, Verdict>

  datatype HubReply = Unreachable | Answered(valid: bool, project: string)

  /** What the authenticator decides: whether the request goes on, with which
      project attached, and whether the denial counter moved. */
  datatype Result = Result(admitted: bool, auth: Option<string>, counted: bool)

  function Pass(): Result { Result(true, None, false) }

  function Deny(cfg: Config): Result {
    Result(cfg.mode != Enforce, None, true)
  }

  /** No usable verdict: fail closed when enforcing, open otherwise. */
  function Unavailable(cfg: Config): Result {
    if cfg.mode == Enforce then Deny(cfg) else Pass()
  }

  function Judge(cfg: Config, v: Verdict): Result {
    if !v.valid then Deny(cfg)
    else if cfg.mode == Enforce then Result(true, Some(v.project), false)
    else Pass()
  }

  predicate Fresh(cfg: Config, v: Verdict, now: int) { now - v.fetched < cfg.cacheTTL }

  predicate InGrace(cfg: Config, v: Verdict, now: int) { now - v.fetched < cfg.staleGrace }

  function Lookup(cache: Cache, key: string): Option<Verdict> {
    if key in cache then Some(cache[key]) else None
  }

  /** The hub could not be asked: serve the cached verdict within the grace. */
  function Outage(cfg: Config, cached: Option<Verdict>, now: int): Result {
    if cached.Some? && InGrace(cfg, cached.value, now) then Judge(cfg, cached.value) else Unavailable(cfg)
  }

  // ------------------------------------------------------ one request, whole

  /** One request run to its end with no other in between. */
  function Served(cfg: Config, cache: Cache, key: string, now: int, reply: HubReply): (Cache, Result) {
    if cfg.mode == Off then (cache, Pass())
    else if key == "" then (cache, Deny(cfg))
    else
      var cached := Lookup(cache, key);
      if cached.Some? && Fresh(cfg, cached.value, now) then (cache, Judge(cfg, cached.value))
      else match reply
        case Unreachable => (cache, Outage(cfg, cached, now))
        case Answered(valid, project) =>
          var v := Verdict(valid, project, now);
          (cache[key := v], Judge(cfg, v))
  }

  class Authenticator {
    const cfg: Config
    var cache: Cache

    constructor (cfg: Config)
      ensures this.cfg == cfg && cache == map[]
    {
      this.cfg := cfg;
      cache := map[];
    }

    /** `reply` is what the hub call gives, should there be one. */
    method Authenticate(key: string, now: int, reply: HubReply) returns (r: Result)
      modifies this
      ensures (cache, r) == Served(cfg, old(cache), key, now, reply)
    {
      if cfg.mode == Off { return Pass(); }
      if key == "" { return Deny(cfg); }
      var ok, v := GetVerdict(key, now, reply);
      if !ok {
        if cfg.mode == Enforce { return Deny(cfg); }
        return Pass();
      }
      if !v.valid { return Deny(cfg); }
      if cfg.mode == Enforce { return Result(true, Some(v.project), false); }
      return Pass();
    }

    method GetVerdict(key: string, now: int, reply: HubReply) returns (ok: bool, v: Verdict)
      modifies this
      ensures var cached := Lookup(old(cache), key);
              if cached.Some? && Fresh(cfg, cached.value, now) then ok && v == cached.value && cache == old(cache)
              else match reply
                case Unreachable =>
                  cache == old(cache) && ok == (cached.Some? && InGrace(cfg, cached.value, now))
                      && (ok ==> v == cached.value)
                case Answered(valid, project) =>
                  ok && v == Verdict(valid, project, now) && cache == old(cache)[key := v]
    {
      if key in cache && now - cache[key].fetched < cfg.cacheTTL { return true, cache[key]; }
      match reply {
        case Unreachable =>
          if key in cache && now - cache[key].fetched < cfg.staleGrace { return true, cache[key]; }
          return false, Verdict(false, "", 0);
        case Answered(valid, project) =>
          v := Verdict(valid, project, now);
          cache := cache[key := v];
          ok := true;
      }
    }
  }

  /** Off and log mode never reject a request and never attach a project,
      whatever is cached and whatever the hub says. */
  lemma OpenModesChangeNothing(cfg: Config, cache: Cache, key: string, now: int, reply: HubReply)
    requires cfg.mode != Enforce
    ensures var r := Served(cfg, cache, key, now, reply).1; r.admitted && r.auth == None
  {
  }

  /** Log mode forecasts enforce mode: it counts a denial exactly when enforce
      would reject with the same cache and hub, except when the hub is out and
      no verdict is left to serve; then only enforce rejects. */
  lemma LogForecastsEnforce(ttl: int, grace: int, cache: Cache, key: string, now: int, reply: HubReply)
    ensures var enforce, log := Config(Enforce, ttl, grace), Config(Log, ttl, grace);
            var dark := key != "" && reply.Unreachable?
                        && !(key in cache && (Fresh(log, cache[key], now) || InGrace(log, cache[key], now)));
            && !Served(enforce, cache, key, now, reply).1.admitted
                == (Served(log, cache, key, now, reply).1.counted || dark)
            && !(Served(log, cache, key, now, reply).1.counted && dark)
            && Served(enforce, cache, key, now, reply).0 == Served(log, cache, key, now, reply).0
  {
  }

  // ------------------------------------------------------------ interleaving

  /** One request between its steps; `now` is the clock as it read it. */
  datatype Request =
    | Arrived(key: string, now: int)
    | Asking(key: string, now: int, cached: Option<Verdict>)
    | Told(key: string, now: int, cached: Option<Verdict>, valid: bool, project: string)
    | Done(key: string, now: int, result: Result)

  /** The hub's own record of what it answered, and when. */
  datatype Said = Said(key: string, valid: bool, project: string, at: int)

  datatype Gateway = Gateway(cfg: Config, cache: Cache, requests: map<nat, Request>, hubLog: seq<Said>, clock: int)

  datatype Event =
    | Arrive(id: nat, key: string, at: int)
    | Look(id: nat, at: int)
    | HubAnswers(id: nat, at: int, valid: bool, project: string)
    | HubLost(id: nat, at: int)
    | Keep(id: nat, at: int)

  predicate Enabled(g: Gateway, e: Event) {
    && g.clock <= e.at
    && match e
       case Arrive(id, _, _) => id !in g.requests
       case Look(id, _) => id in g.requests && g.requests[id].Arrived?
       case HubAnswers(id, _, _, _) => id in g.requests && g.requests[id].Asking?
       case HubLost(id, _) => id in g.requests && (g.requests[id].Asking? || g.requests[id].Told?)
       case Keep(id, _) => id in g.requests && g.requests[id].Told?
  }

  /** The request a step leaves behind. */
  function Step(g: Gateway, e: Event): Request
    requires Enabled(g, e)
  {
    match e
    case Arrive(_, key, now) =>
      if g.cfg.mode == Off then Done(key, now, Pass())
      else if key == "" then Done(key, now, Deny(g.cfg))
      else Arrived(key, now)
    case Look(id, _) =>
      var Arrived(key, now) := g.requests[id];
      var cached := Lookup(g.cache, key);
      if cached.Some? && Fresh(g.cfg, cached.value, now) then Done(key, now, Judge(g.cfg, cached.value))
      else Asking(key, now, cached)
    case HubAnswers(id, _, valid, project) =>
      var Asking(key, now, cached) := g.requests[id];
      Told(key, now, cached, valid, project)
    case HubLost(id, _) =>
      var r := g.requests[id];
      Done(r.key, r.now, Outage(g.cfg, r.cached, r.now))
    case Keep(id, _) =>
      var Told(key, now, _, valid, project) := g.requests[id];
      Done(key, now, Judge(g.cfg, Verdict(valid, project, now)))
  }

  function Apply(g: Gateway, e: Event): Gateway
    requires Enabled(g, e)
  {
    var next := g.(requests := g.requests[e.id := Step(g, e)], clock := e.at);
    match e
    case HubAnswers(id, at, valid, project) =>
      next.(hubLog := g.hubLog + [Said(g.requests[id].key, valid, project, at)])
    case Keep(id, _) =>
      var Told(key, now, _, valid, project) := g.requests[id];
      next.(cache := g.cache[key := Verdict(valid, project, now)])
    case _ => next
  }

  predicate IsRun(cfg: Config, es: seq<Event>)
    decreases |es|, 0
  {
    es == [] || (IsRun(cfg, es[..|es| - 1]) && Enabled(After(cfg, es[..|es| - 1]), es[|es| - 1]))
  }

  function After(cfg: Config, es: seq<Event>): Gateway
    requires IsRun(cfg, es)
    decreases |es|, 1
  {
    if es == [] then Gateway(cfg, map[], map[], [], 0)
    else Apply(After(cfg, es[..|es| - 1]), es[|es| - 1])
  }

  lemma Extend(cfg: Config, es: seq<Event>, e: Event)
    requires IsRun(cfg, es) && Enabled(After(cfg, es), e)
    ensures IsRun(cfg, es + [e]) && After(cfg, es + [e]) == Apply(After(cfg, es), e)
  {
    assert (es + [e])[..|es|] == es;
  }

  /** The hub gave this answer about the key, at `since` or later. */
  predicate Heard(hubLog: seq<Said>, key: string, valid: bool, project: string, since: int) {
    exists i :: 0 <= i < |hubLog| && Matches(hubLog[i], key, valid, project, since)
  }

  predicate Matches(s: Said, key: string, valid: bool, project: string, since: int) {
    s.key == key && s.valid == valid && s.project == project && s.at >= since
  }

  predicate Backed(hubLog: seq<Said>, key: string, v: Verdict) {
    Heard(hubLog, key, v.valid, v.project, v.fetched)
  }

  lemma HeardGrows(hubLog: seq<Said>, more: Said, key: string, valid: bool, project: string, since: int)
    ensures Heard(hubLog, key, valid, project, since) ==> Heard(hubLog + [more], key, valid, project, since)
    ensures Matches(more, key, valid, project, since) ==> Heard(hubLog + [more], key, valid, project, since)
  {
    var longer := hubLog + [more];
    assert longer[|hubLog|] == more;
    if Heard(hubLog, key, valid, project, since) {
      var i :| 0 <= i < |hubLog| && Matches(hubLog[i], key, valid, project, since);
      assert longer[i] == hubLog[i];
    }
  }

  /** A result with a project attached rests on the hub's word, young enough. */
  predicate Justified(cfg: Config, hubLog: seq<Said>, key: string, now: int, r: Result) {
    && (cfg.mode == Enforce ==> r.admitted == r.auth.Some?)
    && (cfg.mode != Enforce ==> r.admitted && r.auth == None)
    && (r.auth.Some? ==> Heard(hubLog, key, true, r.auth.value, now - cfg.MaxAge()))
  }

  predicate RequestOk(cfg: Config, hubLog: seq<Said>, r: Request) {
    match r
    case Arrived(_, _) => true
    case Asking(key, _, cached) => cached.Some? ==> Backed(hubLog, key, cached.value)
    case Told(key, now, cached, valid, project) =>
      (cached.Some? ==> Backed(hubLog, key, cached.value)) && Heard(hubLog, key, valid, project, now)
    case Done(key, now, result) => Justified(cfg, hubLog, key, now, result)
  }

  predicate InTime(g: Gateway, r: Request) { r.now <= g.clock }

  ghost predicate Inv(g: Gateway) {
    && (forall key :: key in g.cache ==> Backed(g.hubLog, key, g.cache[key]))
    && (forall id :: id in g.requests ==> RequestOk(g.cfg, g.hubLog, g.requests[id]) && InTime(g, g.requests[id]))
  }

  lemma HeardSince(hubLog: seq<Said>, key: string, valid: bool, project: string, since: int, before: int)
    requires Heard(hubLog, key, valid, project, since) && before <= since
    ensures Heard(hubLog, key, valid, project, before)
  {
    var i :| 0 <= i < |hubLog| && Matches(hubLog[i], key, valid, project, since);
    assert Matches(hubLog[i], key, valid, project, before);
  }

  lemma JudgeJustified(cfg: Config, hubLog: seq<Said>, key: string, now: int, v: Verdict)
    requires Backed(hubLog, key, v) && (Fresh(cfg, v, now) || InGrace(cfg, v, now) || v.fetched >= now)
             && cfg.mode != Off
    ensures Justified(cfg, hubLog, key, now, Judge(cfg, v))
  {
    HeardSince(hubLog, key, v.valid, v.project, v.fetched, now - cfg.MaxAge());
  }

  lemma RequestOkGrows(cfg: Config, hubLog: seq<Said>, more: Said, r: Request)
    requires RequestOk(cfg, hubLog, r)
    ensures RequestOk(cfg, hubLog + [more], r)
  {
    match r {
      case Arrived(_, _) =>
      case Asking(key, _, cached) =>
        if cached.Some? {
          HeardGrows(hubLog, more, key, cached.value.valid, cached.value.project, cached.value.fetched);
        }
      case Told(key, now, cached, valid, project) =>
        if cached.Some? {
          HeardGrows(hubLog, more, key, cached.value.valid, cached.value.project, cached.value.fetched);
        }
        HeardGrows(hubLog, more, key, valid, project, now);
      case Done(key, now, result) =>
        if result.auth.Some? { HeardGrows(hubLog, more, key, true, result.auth.value, now - cfg.MaxAge()); }
    }
  }

  lemma StepOk(g: Gateway, e: Event)
    requires Inv(g) && Enabled(g, e) && !e.HubAnswers? && (g.cfg.mode == Off ==> e.Arrive?)
    ensures RequestOk(g.cfg, g.hubLog, Step(g, e))
  {
    match e {
      case Arrive(_, _, _) =>
      case Look(id, _) =>
        assert RequestOk(g.cfg, g.hubLog, g.requests[id]);
        var cached := Lookup(g.cache, g.requests[id].key);
        if cached.Some? && Fresh(g.cfg, cached.value, g.requests[id].now) {
          JudgeJustified(g.cfg, g.hubLog, g.requests[id].key, g.requests[id].now, cached.value);
        }
      case HubLost(id, _) =>
        var r := g.requests[id];
        assert RequestOk(g.cfg, g.hubLog, r);
        if r.cached.Some? && InGrace(g.cfg, r.cached.value, r.now) {
          JudgeJustified(g.cfg, g.hubLog, r.key, r.now, r.cached.value);
        }
      case Keep(id, _) =>
        var r := g.requests[id];
        assert RequestOk(g.cfg, g.hubLog, r);
        JudgeJustified(g.cfg, g.hubLog, r.key, r.now, Verdict(r.valid, r.project, r.now));
    }
  }

  lemma AnswerKeepsInv(g: Gateway, e: Event)
    requires Inv(g) && Enabled(g, e) && e.HubAnswers?
    ensures Inv(Apply(g, e))
  {
    var r, next := g.requests[e.id], Apply(g, e);
    var more := Said(r.key, e.valid, e.project, e.at);
    forall key | key in next.cache ensures Backed(next.hubLog, key, next.cache[key]) {
      var v := g.cache[key];
      assert Backed(g.hubLog, key, v);
      HeardGrows(g.hubLog, more, key, v.valid, v.project, v.fetched);
    }
    forall id | id in next.requests
        ensures RequestOk(g.cfg, next.hubLog, next.requests[id]) && InTime(next, next.requests[id]) {
      if id == e.id {
        assert RequestOk(g.cfg, g.hubLog, r) && InTime(g, r);
        RequestOkGrows(g.cfg, g.hubLog, more, r);
        HeardGrows(g.hubLog, more, r.key, e.valid, e.project, r.now);
      } else {
        assert RequestOk(g.cfg, g.hubLog, g.requests[id]) && InTime(g, g.requests[id]);
        RequestOkGrows(g.cfg, g.hubLog, more, g.requests[id]);
      }
    }
  }

  lemma ApplyKeepsInv(g: Gateway, e: Event)
    requires Inv(g) && Enabled(g, e) && (g.cfg.mode == Off ==> e.Arrive?)
    ensures Inv(Apply(g, e))
  {
    if e.HubAnswers? {
      AnswerKeepsInv(g, e);
    } else {
      var next := Apply(g, e);
      StepOk(g, e);
      if e.Keep? { assert RequestOk(g.cfg, g.hubLog, g.requests[e.id]); }
      forall id | id in next.requests
          ensures RequestOk(g.cfg, next.hubLog, next.requests[id]) && InTime(next, next.requests[id]) {
        if id in g.requests { assert RequestOk(g.cfg, g.hubLog, g.requests[id]) && InTime(g, g.requests[id]); }
      }
    }
  }

  ghost predicate OffIsIdle(g: Gateway) {
    g.cfg.mode == Off ==> forall id :: id in g.requests ==> g.requests[id].Done?
  }

  lemma {:induction false} RunKeepsInv(cfg: Config, es: seq<Event>)
    requires IsRun(cfg, es)
    ensures Inv(After(cfg, es)) && OffIsIdle(After(cfg, es)) && After(cfg, es).cfg == cfg
  {
    if es != [] {
      RunKeepsInv(cfg, es[..|es| - 1]);
      ApplyKeepsInv(After(cfg, es[..|es| - 1]), es[|es| - 1]);
    }
  }

  /** Bounded staleness: under any interleaving of requests, outages and key
      changes, a request that leaves enforce mode with a project attached
      arrived at most MaxAge after the hub affirmed that project for its key. */
  lemma BoundedStaleness(cfg: Config, es: seq<Event>, id: nat)
    requires IsRun(cfg, es) && id in After(cfg, es).requests && After(cfg, es).requests[id].Done?
    ensures var Done(key, now, r) := After(cfg, es).requests[id];
            && (cfg.mode == Enforce ==>
                  if r.admitted then r.auth.Some?
                      && Heard(After(cfg, es).hubLog, key, true, r.auth.value, now - cfg.MaxAge())
                  else r.auth == None)
            && (cfg.mode != Enforce ==> r.admitted && r.auth == None)
  {
    RunKeepsInv(cfg, es);
    assert RequestOk(cfg, After(cfg, es).hubLog, After(cfg, es).requests[id]);
  }

  /** The hub has not affirmed the key at `since` or later. */
  predicate Withdrawn(hubLog: seq<Said>, key: string, since: int) {
    forall i :: 0 <= i < |hubLog| && hubLog[i].key == key && hubLog[i].at >= since ==> !hubLog[i].valid
  }

  /** A key the hub stopped affirming opens nothing for a request that arrives
      MaxAge later, outage or not. */
  lemma WithdrawnKeyShutOut(cfg: Config, es: seq<Event>, id: nat, since: int)
    requires IsRun(cfg, es) && cfg.mode == Enforce && id in After(cfg, es).requests && After(cfg, es).requests[id].Done?
    requires var r := After(cfg, es).requests[id];
             Withdrawn(After(cfg, es).hubLog, r.key, since) && r.now >= since + cfg.MaxAge()
    ensures !After(cfg, es).requests[id].result.admitted
  {
    BoundedStaleness(cfg, es, id);
  }

  // ------------------------------------------------------ what a verdict does

  /** The answer last kept for the key, dated by the request that kept it. */
  function LastKept(cfg: Config, es: seq<Event>, key: string): Option<Verdict>
    requires IsRun(cfg, es)
  {
    if es == [] then None
    else
      var before, e := es[..|es| - 1], es[|es| - 1];
      if e.Keep? && After(cfg, before).requests[e.id].key == key
      then
        var r := After(cfg, before).requests[e.id];
        Some(Verdict(r.valid, r.project, r.now))
      else LastKept(cfg, before, key)
  }

  lemma {:induction false} CacheIsLastKept(cfg: Config, es: seq<Event>, key: string)
    requires IsRun(cfg, es)
    ensures Lookup(After(cfg, es).cache, key) == LastKept(cfg, es, key)
  {
    if es != [] { CacheIsLastKept(cfg, es[..|es| - 1], key); }
  }

  /** What a verdict makes of a request: a valid key goes on, in enforce mode with
      its project; an invalid one is counted, and in enforce mode rejected. */
  function Ruled(mode: Mode, valid: bool, project: string): Result {
    Result(valid || mode != Enforce, if valid && mode == Enforce then Some(project) else None, !valid)
  }

  /** A lookup uses the answer last kept for the key exactly while it is younger
      than the cache's lifetime; otherwise the hub is asked. */
  lemma LookUsesYoungVerdict(cfg: Config, es: seq<Event>, id: nat, at: int)
    requires IsRun(cfg, es) && Enabled(After(cfg, es), Look(id, at))
    ensures var Arrived(key, now) := After(cfg, es).requests[id];
            Apply(After(cfg, es), Look(id, at)).requests[id] ==
            match LastKept(cfg, es, key)
            case Some(v) =>
              if now - v.fetched < cfg.cacheTTL then Done(key, now, Ruled(cfg.mode, v.valid, v.project))
              else Asking(key, now, Some(v))
            case None => Asking(key, now, None)
  {
    CacheIsLastKept(cfg, es, After(cfg, es).requests[id].key);
    RunKeepsInv(cfg, es);
  }

  lemma {:induction false} Waits(cfg: Config, es: seq<Event>, more: seq<Event>, id: nat)
    requires IsRun(cfg, es) && IsRun(cfg, es + more) && id in After(cfg, es).requests
    requires forall e :: e in more ==> e.id != id
    ensures id in After(cfg, es + more).requests && After(cfg, es + more).requests[id] == After(cfg, es).requests[id]
  {
    if more == [] {
      assert es + more == es;
    } else {
      var n := |more| - 1;
      assert (es + more)[..|es| + n] == es + more[..n];
      assert more[n] in more && (es + more)[|es| + n] == more[n];
      Waits(cfg, es, more[..n], id);
    }
  }

  /** In an outage a request that looked after `es` is ruled by the answer kept
      last before its look, if that is younger than the grace; failing that it is
      rejected and counted in enforce mode, and goes on uncounted otherwise. */
  lemma OutageUsesStaleVerdict(cfg: Config, es: seq<Event>, id: nat, looked: int, more: seq<Event>, lost: int)
    requires IsRun(cfg, es) && id in After(cfg, es).requests && After(cfg, es).requests[id].Arrived?
    requires IsRun(cfg, es + [Look(id, looked)]) && IsRun(cfg, es + [Look(id, looked)] + more)
    requires (forall e :: e in more ==> e.id != id)
             && Enabled(After(cfg, es + [Look(id, looked)] + more), HubLost(id, lost))
    ensures var Arrived(key, now) := After(cfg, es).requests[id];
            Apply(After(cfg, es + [Look(id, looked)] + more), HubLost(id, lost)).requests[id] ==
            Done(key, now,
                 match LastKept(cfg, es, key)
                 case Some(v) =>
                   if now - v.fetched < cfg.staleGrace then Ruled(cfg.mode, v.valid, v.project)
                   else Result(cfg.mode != Enforce, None, cfg.mode == Enforce)
                 case None => Result(cfg.mode != Enforce, None, cfg.mode == Enforce))
  {
    var before := es + [Look(id, looked)];
    assert before[..|es|] == es && before[|es|] == Look(id, looked);
    LookUsesYoungVerdict(cfg, es, id, looked);
    Waits(cfg, before, more, id);
    RunKeepsInv(cfg, before + more);
  }

  /** A request the hub answered is ruled by that answer. */
  lemma AnswerRules(cfg: Config, es: seq<Event>, id: nat, at: int)
    requires IsRun(cfg, es) && Enabled(After(cfg, es), Keep(id, at))
    ensures var r := After(cfg, es).requests[id];
            Apply(After(cfg, es), Keep(id, at)).requests[id] == Done(r.key, r.now, Ruled(cfg.mode, r.valid, r.project))
  {
    RunKeepsInv(cfg, es);
  }

  /** Without a key a request is counted, and in enforce mode rejected, at once;
      with the authenticator off every request goes on at once. */
  lemma ArrivalDecides(g: Gateway, id: nat, key: string, now: int)
    requires Enabled(g, Arrive(id, key, now))
    ensures Apply(g, Arrive(id, key, now)).requests[id] ==
            if g.cfg.mode == Off then Done(key, now, Result(true, None, false))
            else if key == "" then Done(key, now, Result(g.cfg.mode != Enforce, None, true))
            else Arrived(key, now)
  {
  }

  /** A request whose steps follow each other undisturbed is the whole one. */
  lemma UndisturbedRequest(g: Gateway, id: nat, key: string, now: int, valid: bool, project: string, lost: bool)
    requires id !in g.requests && g.clock <= now
    ensures var reply := if lost then Unreachable else Answered(valid, project);
            var (cache, r) := Served(g.cfg, g.cache, key, now, reply);
            var arrived := Apply(g, Arrive(id, key, now));
            var looked := if arrived.requests[id].Done? then arrived else Apply(arrived, Look(id, now));
            var end := if looked.requests[id].Done? then looked
                       else if lost then Apply(looked, HubLost(id, now))
                       else Apply(Apply(looked, HubAnswers(id, now, valid, project)), Keep(id, now));
            end.cache == cache && end.requests[id] == Done(key, now, r)
  {
  }
}
