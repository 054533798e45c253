/** The health-alert state machine: rules, targets, and one evaluation. */
module Alerting {

  datatype Option<+T> = None | Some(value: T)

  datatype Status = Ok | Pending | Firing

  datatype Kind = Fired | Resolved

  datatype StateKey = StateKey(rule: string, target: string)

  datatype TargetState = TargetState(status: Status, since: int, lastNotified: int)

  type State = map<StateKey, TargetState>

  datatype Notification = Notification(
    rule: string, target: string, kind: Kind, status: string, reason: string, at: int, channel: string)

  datatype TargetInfo = TargetInfo(status: string, reason: string)

  type Targets = map<string, TargetInfo>

  datatype Selector = Selector(groups: seq<string>, services: seq<string>, tiers: seq<string>,
      environments: seq<string>)
  {
    /** No configured environment means every environment. */
    predicate MatchesEnvironment(env: string) {
      environments == [] || env in environments
    }
  }

  /** `wait` is the rule's `for`. */
  datatype Rule = Rule(name: string, selector: Selector, when: string, wait: int, channel: string)

  type Config = seq<Rule>

  /** The facts config validation supplies about the rules. */
  ghost predicate Valid(cfg: Config) {
    && (forall i, j :: 0 <= i < j < |cfg| ==> cfg[i].name != cfg[j].name)
    && (forall i :: 0 <= i < |cfg| ==> cfg[i].wait >= 0)
  }

  predicate HasPrefix(s: string, p: string) {
    |p| <= |s| && s[..|p|] == p
  }

  /** The index of the last `c` in `s`, or -1. */
  function LastIndex(s: string, c: char): (i: int)
    ensures -1 <= i < |s| && (i >= 0 ==> s[i] == c)
    ensures forall k :: i < k < |s| ==> s[k] != c
  {
    if s == [] then -1
    else if s[|s| - 1] == c then |s| - 1
    else LastIndex(s[..|s| - 1], c)
  }

  function SplitGroupTarget(s: string): (string, string) {
    var i := LastIndex(s, '[');
    if i >= 0 && s[|s| - 1] == ']' then (s[..i], s[i + 1..|s| - 1]) else (s, "")
  }

  predicate SelectorMatches(sel: Selector, target: string) {
    if HasPrefix(target, "group:") then
      var (name, env) := SplitGroupTarget(target[6..]);
      name in sel.groups && sel.MatchesEnvironment(env)
    else if HasPrefix(target, "service:") then target[8..] in sel.services
    else HasPrefix(target, "tier:") && target[5..] in sel.tiers
  }

  predicate ConditionMatches(when: string, status: string) {
    match when
    case "down" => status == "down"
    case "degraded" => status == "degraded"
    case "not-healthy" => status == "down" || status == "degraded"
    case _ => false
  }

  predicate Matches(rule: Rule, targets: Targets, target: string) {
    target in targets && SelectorMatches(rule.selector, target) && ConditionMatches(rule.when, targets[target].status)
  }

  function Get<K, V>(m: map<K, V>, k: K): Option<V> {
    if k in m then Some(m[k]) else None
  }

  function StatusOf(cell: Option<TargetState>): Status {
    if cell.Some? then cell.value.status else Ok
  }

  /** One rule and target: what the state becomes, given whether it matches. */
  function NextCell(rule: Rule, cell: Option<TargetState>, matching: bool, now: int): Option<TargetState> {
    if !matching then None
    else match StatusOf(cell)
      case Ok => Some(TargetState(Pending, now, 0))
      case Pending =>
        if now - cell.value.since >= rule.wait
        then Some(TargetState(Firing, cell.value.since, now)) else cell
      case Firing => cell
  }

  function FireNote(rule: Rule, target: string, info: TargetInfo, now: int): Notification {
    Notification(rule.name, target, Fired, info.status, info.reason, now, rule.channel)
  }

  function ResolveNote(rule: Rule, target: string, info: Option<TargetInfo>, now: int): Notification {
    var i := if info.Some? then info.value else TargetInfo("unknown", "target no longer reporting");
    Notification(rule.name, target, Resolved, i.status, i.reason, now, rule.channel)
  }

  /** The notifications one rule and target contribute to a tick. */
  function NextNotes(rule: Rule, targets: Targets, target: string, cell: Option<TargetState>, now: int):
      seq<Notification> {
    if Matches(rule, targets, target) then
      if StatusOf(cell) == Pending && now - cell.value.since >= rule.wait
      then [FireNote(rule, target, targets[target], now)] else []
    else if StatusOf(cell) == Firing then [ResolveNote(rule, target, Get(targets, target), now)]
    else []
  }

  function RuleNamed(cfg: Config, name: string): (r: Option<Rule>)
    ensures r.Some? ==> r.value in cfg && r.value.name == name
    ensures r.None? ==> forall i :: 0 <= i < |cfg| ==> cfg[i].name != name
  {
    if cfg == [] then None
    else if cfg[0].name == name then Some(cfg[0])
    else RuleNamed(cfg[1..], name)
  }

  /** What Evaluate leaves under key `k`, as a function of the previous cell. */
  function EvalCell(cfg: Config, targets: Targets, cell: Option<TargetState>, now: int, k: StateKey):
      Option<TargetState> {
    match RuleNamed(cfg, k.rule)
    case None => None
    case Some(rule) => NextCell(rule, cell, Matches(rule, targets, k.target), now)
  }

  function EvalNotes(cfg: Config, targets: Targets, cell: Option<TargetState>, now: int, k: StateKey):
      seq<Notification> {
    match RuleNamed(cfg, k.rule)
    case None => []
    case Some(rule) => NextNotes(rule, targets, k.target, cell, now)
  }

  /** The notifications about key `k`, in delivery order. */
  function NotesFor(notes: seq<Notification>, k: StateKey): seq<Notification> {
    if notes == [] then []
    else
      var last := notes[|notes| - 1];
      NotesFor(notes[..|notes| - 1], k) + if StateKey(last.rule, last.target) == k then [last] else []
  }

  lemma {:induction false} NotesForConcat(a: seq<Notification>, b: seq<Notification>, k: StateKey)
    ensures NotesFor(a + b, k) == NotesFor(a, k) + NotesFor(b, k)
  {
    if b == [] {
      assert a + b == a;
    } else {
      NotesForConcat(a, b[..|b| - 1], k);
      assert (a + b)[..|a + b| - 1] == a + b[..|b| - 1];
    }
  }

  lemma NotesForSnoc(a: seq<Notification>, n: Notification, k: StateKey)
    ensures NotesFor(a + [n], k) == NotesFor(a, k) + if StateKey(n.rule, n.target) == k then [n] else []
  {
    assert (a + [n])[..|a|] == a;
  }

  /** Appending at most one notification, about `k`, is invisible elsewhere. */
  lemma OnlyAbout(notes: seq<Notification>, added: seq<Notification>, k: StateKey)
    requires |added| <= 1 && (added != [] ==> StateKey(added[0].rule, added[0].target) == k)
    ensures forall q :: NotesFor(notes + added, q) == NotesFor(notes, q) + if q == k then added else []
  {
    if added == [] {
      assert notes + added == notes;
    } else {
      assert added == [added[0]];
      forall q ensures NotesFor(notes + added, q) == NotesFor(notes, q) + if q == k then added else [] {
        NotesForSnoc(notes, added[0], q);
      }
    }
  }

  /** `next` and `notes` are the result of evaluating `cfg`, key by key. The
      order of notifications of different keys is left open. */
  ghost predicate Evaluated(cfg: Config, targets: Targets, prev: State, now: int, next: State,
      notes: seq<Notification>) {
    forall k :: Get(next, k) == EvalCell(cfg, targets, Get(prev, k), now, k)
                && NotesFor(notes, k) == EvalNotes(cfg, targets, Get(prev, k), now, k)
  }

  /** The targets a rule is evaluated on: those present that it selects, and
      those it has state for. */
  method CandidateTargets(rule: Rule, targets: Targets, prev: State) returns (out: set<string>)
    ensures forall t :: t in out <==>
              (t in targets && SelectorMatches(rule.selector, t)) || StateKey(rule.name, t) in prev
  {
    out := {};
    var pending := targets.Keys;
    while pending != {}
      invariant pending <= targets.Keys
      invariant forall t :: t in out <==> t in targets && t !in pending && SelectorMatches(rule.selector, t)
      decreases pending
    {
      var t :| t in pending;
      if SelectorMatches(rule.selector, t) { out := out + {t}; }
      pending := pending - {t};
    }
    var keys := prev.Keys;
    ghost var present := out;
    while keys != {}
      invariant keys <= prev.Keys
      invariant forall t ::
                  t in out <==> t in present || (StateKey(rule.name, t) in prev && StateKey(rule.name, t) !in keys)
      decreases keys
    {
      var k :| k in keys;
      if k.rule == rule.name { out := out + {k.target}; }
      keys := keys - {k};
    }
  }

  /** A target that is no candidate has neither state nor a match. */
  lemma NonCandidatesAreIdle(rule: Rule, targets: Targets, prev: State, now: int, t: string)
    requires !(t in targets && SelectorMatches(rule.selector, t)) && StateKey(rule.name, t) !in prev
    ensures var cell := Get(prev, StateKey(rule.name, t));
            NextCell(rule, cell, Matches(rule, targets, t), now) == None && NextNotes(rule, targets, t, cell, now) == []
  {
  }

  /** The tick so far holds the result for key (rule, t). */
  ghost predicate KeyDone(rule: Rule, targets: Targets, prev: State, now: int, next: State, notes: seq<Notification>,
      t: string) {
    var k := StateKey(rule.name, t);
    Get(next, k) == NextCell(rule, Get(prev, k), Matches(rule, targets, t), now)
    && NotesFor(notes, k) == NextNotes(rule, targets, t, Get(prev, k), now)
  }

  ghost predicate KeyFresh(next: State, notes: seq<Notification>, k: StateKey) {
    k !in next && NotesFor(notes, k) == []
  }

  ghost predicate SameAt(next: State, notes: seq<Notification>, next0: State, notes0: seq<Notification>, k: StateKey) {
    Get(next, k) == Get(next0, k) && NotesFor(notes, k) == NotesFor(notes0, k)
  }

  /** One rule over all its candidates, in whatever order the map yields them. */
  method EvaluateRule(rule: Rule, targets: Targets, prev: State, now: int, next0: State, notes0: seq<Notification>)
    returns (next: State, notes: seq<Notification>)
    requires forall t :: KeyFresh(next0, notes0, StateKey(rule.name, t))
    ensures forall k: StateKey :: k.rule != rule.name ==> SameAt(next, notes, next0, notes0, k)
    ensures forall t :: KeyDone(rule, targets, prev, now, next, notes, t)
  {
    next, notes := next0, notes0;
    var all := CandidateTargets(rule, targets, prev);
    var pending := all;
    while pending != {}
      invariant pending <= all
      invariant forall k: StateKey :: k.rule != rule.name ==> SameAt(next, notes, next0, notes0, k)
      invariant forall t :: t in pending || t !in all ==> KeyFresh(next, notes, StateKey(rule.name, t))
      invariant forall t :: t in all && t !in pending ==> KeyDone(rule, targets, prev, now, next, notes, t)
      decreases pending
    {
      var target :| target in pending;
      ghost var next1, notes1 := next, notes;
      next, notes := EvaluateTarget(rule, targets, target, prev, now, next, notes);
      forall k: StateKey | k.rule != rule.name ensures SameAt(next, notes, next0, notes0, k) {
        assert SameAt(next1, notes1, next0, notes0, k) && SameAt(next, notes, next1, notes1, k);
      }
      forall t | t != target && (t in pending || t !in all) ensures KeyFresh(next, notes, StateKey(rule.name, t)) {
        assert KeyFresh(next1, notes1, StateKey(rule.name, t))
               && SameAt(next, notes, next1, notes1, StateKey(rule.name, t));
      }
      forall t | t in all && t !in pending ensures KeyDone(rule, targets, prev, now, next, notes, t) {
        assert KeyDone(rule, targets, prev, now, next1, notes1, t)
               && SameAt(next, notes, next1, notes1, StateKey(rule.name, t));
      }
      pending := pending - {target};
    }
    forall t ensures KeyDone(rule, targets, prev, now, next, notes, t) {
      if t !in all {
        assert KeyFresh(next, notes, StateKey(rule.name, t));
        NonCandidatesAreIdle(rule, targets, prev, now, t);
      }
    }
  }

  /** The transition switch for one rule and target. */
  method EvaluateTarget(rule: Rule, targets: Targets, target: string, prev: State, now: int, next0: State,
      notes0: seq<Notification>)
    returns (next: State, notes: seq<Notification>)
    requires KeyFresh(next0, notes0, StateKey(rule.name, target))
    ensures KeyDone(rule, targets, prev, now, next, notes, target)
    ensures forall k :: k != StateKey(rule.name, target) ==> SameAt(next, notes, next0, notes0, k)
  {
    next, notes := next0, notes0;
    var k := StateKey(rule.name, target);
    var present := target in targets;
    var matching := present && SelectorMatches(rule.selector, target)
        && ConditionMatches(rule.when, targets[target].status);
    var prevSt := if k in prev then prev[k] else TargetState(Ok, 0, 0);
    if matching && prevSt.status != Pending && prevSt.status != Firing {
      next := next[k := TargetState(Pending, now, 0)];
    } else if matching && prevSt.status == Pending {
      if now - prevSt.since >= rule.wait {
        next := next[k := TargetState(Firing, prevSt.since, now)];
        notes := notes + [FireNote(rule, target, targets[target], now)];
      } else {
        next := next[k := prevSt];
      }
    } else if matching && prevSt.status == Firing {
      next := next[k := prevSt];
    } else if !matching && prevSt.status == Firing {
      notes := notes + [ResolveNote(rule, target, Get(targets, target), now)];
    }
    ghost var added := NextNotes(rule, targets, target, Get(prev, k), now);
    assert notes == notes0 + added;
    OnlyAbout(notes0, added, k);
  }

  /** Evaluate: the next state and the notifications of one tick. */
  method Evaluate(cfg: Config, targets: Targets, prev: State, now: int) returns (next: State, notes: seq<Notification>)
    requires Valid(cfg)
    ensures Evaluated(cfg, targets, prev, now, next, notes)
  {
    next, notes := map[], [];
    for i := 0 to |cfg|
      invariant forall k: StateKey :: (forall j :: 0 <= j < i ==> cfg[j].name != k.rule) ==> KeyFresh(next, notes, k)
      invariant forall j, t :: 0 <= j < i ==> KeyDone(cfg[j], targets, prev, now, next, notes, t)
    {
      ghost var next1, notes1 := next, notes;
      next, notes := EvaluateRule(cfg[i], targets, prev, now, next, notes);
      forall j, t | 0 <= j < i ensures KeyDone(cfg[j], targets, prev, now, next, notes, t) {
        assert KeyDone(cfg[j], targets, prev, now, next1, notes1, t);
        assert SameAt(next, notes, next1, notes1, StateKey(cfg[j].name, t));
      }
    }
    forall k ensures Get(next, k) == EvalCell(cfg, targets, Get(prev, k), now, k)
                     && NotesFor(notes, k) == EvalNotes(cfg, targets, Get(prev, k), now, k)
    {
      if RuleNamed(cfg, k.rule).Some? {
        var j :| 0 <= j < |cfg| && cfg[j] == RuleNamed(cfg, k.rule).value;
        assert KeyDone(cfg[j], targets, prev, now, next, notes, k.target);
      }
    }
  }
}
