/** Alerts told on health reports: which groups, services and tiers a rule is
    about, what counts as bad, and what a run of reports makes of it. */
module AlertReports {
  import opened Alerting
  import opened HealthTargets
  import opened AlertTick
  import opened AlertRuns

  /** What an alert can be about. */
  datatype Thing = AGroup(name: string, environment: string) | AService(service: string) | ATier(tier: string)

  function Target(x: Thing): string {
    match x
    case AGroup(name, environment) => "group:" + if environment == "" then name else name + "[" + environment + "]"
    case AService(service) => "service:" + service
    case ATier(tier) => "tier:" + tier
  }

  /** A name and environment that a group's target can be split back into. */
  predicate Splits(name: string, environment: string) {
    if environment == "" then !('[' in name && name[|name| - 1] == ']') else '[' !in environment
  }

  predicate Plain(x: Thing) {
    x.AGroup? ==> Splits(x.name, x.environment)
  }

  predicate AllPlain(groups: seq<Group>) {
    forall i :: 0 <= i < |groups| ==> Splits(groups[i].name, groups[i].environment)
  }

  // -------------------------------------------------------------- selection

  /** The selector names it; no environment listed means every environment. */
  predicate Selected(sel: Selector, x: Thing) {
    match x
    case AGroup(name, environment) => name in sel.groups && (sel.environments == [] || environment in sel.environments)
    case AService(service) => service in sel.services
    case ATier(tier) => tier in sel.tiers
  }

  function AsGroup(name: string, environment: string): Group { Group(name, environment, "", "", "", []) }

  lemma TargetSplits(name: string, environment: string)
    requires Splits(name, environment)
    ensures HasPrefix(Target(AGroup(name, environment)), "group:")
    ensures SplitGroupTarget(Target(AGroup(name, environment))[6..]) == (name, environment)
  {
    GroupKeySplits(AsGroup(name, environment));
    assert Target(AGroup(name, environment))[6..] == GroupName(AsGroup(name, environment));
  }

  /** A selector matches a target exactly when it names the thing behind it. */
  lemma SelectsNamed(sel: Selector, x: Thing)
    requires Plain(x)
    ensures SelectorMatches(sel, Target(x)) <==> Selected(sel, x)
  {
    var t := Target(x);
    match x {
      case AGroup(name, environment) => TargetSplits(name, environment);
      case AService(service) =>
        assert t[0] == 's' && "group:"[0] == 'g' && t[..8] == "service:" && t[8..] == service;
        assert !HasPrefix(t, "group:") by { assert |t| >= 6 && t[..6][0] == 's'; }
      case ATier(tier) =>
        assert t[0] == 't' && t[..5] == "tier:" && t[5..] == tier;
        assert !HasPrefix(t, "group:") by { if |t| >= 6 { assert t[..6][0] == 't'; } }
        assert !HasPrefix(t, "service:") by { if |t| >= 8 { assert t[..8][0] == 't'; } }
    }
  }

  // ------------------------------------------------------- what a report shows

  /** The targets built from a report. */
  ghost predicate Flattens(groups: seq<Group>, targets: Targets) {
    forall t :: Get(targets, t) == if HasPrefix(t, "tier:") then TierWorst(groups, t[5..]) else FlatInfo(groups, t)
  }

  predicate Same(g: Group, name: string, environment: string) { g.name == name && g.environment == environment }

  predicate Lists(g: Group, service: string) {
    exists j :: 0 <= j < |g.members| && g.members[j].service == service
  }

  /** The group's last entry for the service says this. */
  predicate ListsAs(g: Group, service: string, info: TargetInfo) {
    exists j :: 0 <= j < |g.members| && IsLastEntry(g.members, service, j)
                && info == TargetInfo(g.members[j].effective, g.members[j].reason)
  }

  predicate IsLastEntry(ms: seq<Member>, service: string, j: int) {
    0 <= j < |ms| && ms[j].service == service && forall k :: j < k < |ms| ==> ms[k].service != service
  }

  /** Group `i` is the first of its tier in this bad status, and none of the tier
      is worse. */
  predicate IsWorst(groups: seq<Group>, tier: string, status: string, i: int) {
    && 0 <= i < |groups| && groups[i].tier == tier && groups[i].status == status
    && (forall k :: 0 <= k < i && groups[k].tier == tier ==> groups[k].status != status)
    && (status == "degraded" ==> forall k :: 0 <= k < |groups| && groups[k].tier == tier ==> groups[k].status != "down")
  }

  /** The report shows this, with a bad status, for the thing. A later entry for
      the same group or service replaces an earlier one; a tier shows its worst
      group, by name. */
  ghost predicate Shown(groups: seq<Group>, x: Thing, info: TargetInfo) {
    match x
    case AGroup(name, environment) =>
      exists i :: 0 <= i < |groups| && Same(groups[i], name, environment)
                  && info == TargetInfo(groups[i].status, groups[i].reason)
                  && forall k :: i < k < |groups| ==> !Same(groups[k], name, environment)
    case AService(service) =>
      exists i :: 0 <= i < |groups| && ListsAs(groups[i], service, info)
                  && forall k :: i < k < |groups| ==> !Lists(groups[k], service)
    case ATier(tier) =>
      tier != "" && exists i :: IsWorst(groups, tier, info.status, i) && info.reason == Says(groups[i])
  }

  function Says(g: Group): string {
    g.name + (if g.environment != "" then " [" + g.environment + "]" else "") + " is " + g.status
  }

  predicate IsBad(status: string) { status == "down" || status == "degraded" }

  lemma {:induction false} NoMemberTarget(ms: seq<Member>, t: string)
    requires HasPrefix(t, "group:")
    ensures MemberInfo(ms, t) == None
  {
    if ms != [] {
      NoMemberTarget(ms[..|ms| - 1], t);
      assert t[..6][0] == 'g' && ("service:" + ms[|ms| - 1].service)[0] == 's';
    }
  }

  lemma GroupDeclares(g: Group, name: string, environment: string)
    requires Splits(g.name, g.environment) && Splits(name, environment)
    ensures GroupInfo(g, Target(AGroup(name, environment)))
            == if Same(g, name, environment) then Some(TargetInfo(g.status, g.reason)) else None
  {
    var t := Target(AGroup(name, environment));
    TargetSplits(name, environment);
    TargetSplits(g.name, g.environment);
    NoMemberTarget(g.members, t);
    assert Target(AGroup(g.name, g.environment)) == GroupTargetKey(g);
  }

  lemma {:induction false} GroupShown(groups: seq<Group>, name: string, environment: string, info: TargetInfo)
    requires AllPlain(groups) && Splits(name, environment)
    ensures FlatInfo(groups, Target(AGroup(name, environment))) == Some(info)
            <==> Shown(groups, AGroup(name, environment), info)
  {
    if groups != [] {
      var n := |groups| - 1;
      var g := groups[n];
      GroupShown(groups[..n], name, environment, info);
      GroupDeclares(g, name, environment);
      if Same(g, name, environment) {
        LastGroupShown(groups, name, environment, info);
      } else {
        LaterUnlike(groups, name, environment, info);
      }
    }
  }

  lemma LastGroupShown(groups: seq<Group>, name: string, environment: string, info: TargetInfo)
    requires groups != [] && Same(groups[|groups| - 1], name, environment)
    ensures Shown(groups, AGroup(name, environment), info)
            <==> info == TargetInfo(groups[|groups| - 1].status, groups[|groups| - 1].reason)
  {
  }

  lemma LaterUnlike(groups: seq<Group>, name: string, environment: string, info: TargetInfo)
    requires groups != [] && !Same(groups[|groups| - 1], name, environment)
    ensures Shown(groups, AGroup(name, environment), info)
            <==> Shown(groups[..|groups| - 1], AGroup(name, environment), info)
  {
    var n := |groups| - 1;
    if i :| 0 <= i < n && Same(groups[..n][i], name, environment)
            && info == TargetInfo(groups[..n][i].status, groups[..n][i].reason)
            && forall k :: i < k < n ==> !Same(groups[..n][k], name, environment) {
      forall k | i < k < |groups| ensures !Same(groups[k], name, environment) {
        if k < n { assert groups[..n][k] == groups[k]; }
      }
      assert Same(groups[i], name, environment);
    }
    if i :| 0 <= i < |groups| && Same(groups[i], name, environment)
            && info == TargetInfo(groups[i].status, groups[i].reason)
            && forall k :: i < k < |groups| ==> !Same(groups[k], name, environment) {
      assert groups[..n][i] == groups[i];
    }
  }

  lemma {:induction false} MemberShown(ms: seq<Member>, service: string)
    ensures var info := MemberInfo(ms, "service:" + service);
            && (info.None? <==> forall j :: 0 <= j < |ms| ==> ms[j].service != service)
            && (info.Some? ==>
                  exists j :: IsLastEntry(ms, service, j) && info.value == TargetInfo(ms[j].effective, ms[j].reason))
  {
    if ms != [] {
      var n := |ms| - 1;
      MemberShown(ms[..n], service);
      assert ("service:" + service)[8..] == service && ("service:" + ms[n].service)[8..] == ms[n].service;
      if ms[n].service == service {
        assert IsLastEntry(ms, service, n);
      } else if MemberInfo(ms[..n], "service:" + service).Some? {
        var j :| IsLastEntry(ms[..n], service, j)
                 && MemberInfo(ms[..n], "service:" + service).value
                     == TargetInfo(ms[..n][j].effective, ms[..n][j].reason);
        forall k | j < k < |ms| ensures ms[k].service != service { if k < n { assert ms[..n][k] == ms[k]; } }
        assert IsLastEntry(ms, service, j);
      } else {
        forall j | 0 <= j < |ms| ensures ms[j].service != service { if j < n { assert ms[..n][j] == ms[j]; } }
      }
    }
  }

  lemma MemberInfoIs(g: Group, service: string, info: TargetInfo)
    ensures MemberInfo(g.members, "service:" + service) == Some(info) <==> ListsAs(g, service, info)
    ensures MemberInfo(g.members, "service:" + service).Some? <==> Lists(g, service)
  {
    MemberShown(g.members, service);
    if i, j :| IsLastEntry(g.members, service, i) && IsLastEntry(g.members, service, j) { assert i == j; }
  }

  lemma ServiceDeclared(g: Group, service: string)
    ensures GroupInfo(g, "service:" + service) == MemberInfo(g.members, "service:" + service)
  {
    assert ("service:" + service)[0] == 's' && GroupTargetKey(g)[0] == 'g';
  }

  lemma LastListShown(groups: seq<Group>, service: string, info: TargetInfo)
    requires groups != [] && Lists(groups[|groups| - 1], service)
    ensures Shown(groups, AService(service), info) <==> ListsAs(groups[|groups| - 1], service, info)
  {
  }

  lemma {:induction false} ServiceShown(groups: seq<Group>, service: string, info: TargetInfo)
    ensures FlatInfo(groups, "service:" + service) == Some(info) <==> Shown(groups, AService(service), info)
  {
    if groups != [] {
      var n := |groups| - 1;
      var g := groups[n];
      ServiceShown(groups[..n], service, info);
      MemberInfoIs(g, service, info);
      ServiceDeclared(g, service);
      if Lists(g, service) {
        LastListShown(groups, service, info);
      } else {
        LaterUnlisted(groups, service, info);
      }
    }
  }

  lemma LaterUnlisted(groups: seq<Group>, service: string, info: TargetInfo)
    requires groups != [] && !Lists(groups[|groups| - 1], service)
    ensures Shown(groups, AService(service), info) <==> Shown(groups[..|groups| - 1], AService(service), info)
  {
    var n := |groups| - 1;
    if i :| 0 <= i < n && ListsAs(groups[..n][i], service, info)
            && forall k :: i < k < n ==> !Lists(groups[..n][k], service) {
      forall k | i < k < |groups| ensures !Lists(groups[k], service) {
        if k < n { assert groups[..n][k] == groups[k]; }
      }
      assert ListsAs(groups[i], service, info);
    }
    if i :| 0 <= i < |groups| && ListsAs(groups[i], service, info)
            && forall k :: i < k < |groups| ==> !Lists(groups[k], service) {
      assert groups[..n][i] == groups[i];
      forall k | i < k < n ensures !Lists(groups[..n][k], service) { assert groups[..n][k] == groups[k]; }
    }
  }

  /** No group of the tier is as bad as this. */
  predicate NoneAsBad(groups: seq<Group>, tier: string, status: string) {
    forall k :: 0 <= k < |groups| && groups[k].tier == tier ==>
      groups[k].status != "down" && (status == "degraded" ==> groups[k].status != "degraded")
  }

  /** What a tier shows: its first worst group when that is bad. */
  lemma {:induction false} TierShown(groups: seq<Group>, tier: string)
    requires tier != ""
    ensures var w := TierWorst(groups, tier);
            && (w.Some? && IsBad(w.value.status) ==>
                  exists i :: IsWorst(groups, tier, w.value.status, i) && w.value.reason == Says(groups[i]))
            && (w.Some? && w.value.status == "degraded" ==> NoneAsBad(groups, tier, "down"))
            && (w.None? || !IsBad(w.value.status) ==> NoneAsBad(groups, tier, "degraded"))
  {
    if groups != [] {
      var n := |groups| - 1;
      var g, w := groups[n], TierWorst(groups[..n], tier);
      TierShown(groups[..n], tier);
      assert forall k :: 0 <= k < n ==> groups[..n][k] == groups[k];
      if TierWorst(groups, tier) == w {
        if w.Some? && IsBad(w.value.status) {
          var i :| IsWorst(groups[..n], tier, w.value.status, i) && w.value.reason == Says(groups[..n][i]);
          assert IsWorst(groups, tier, w.value.status, i);
        }
      } else if IsBad(g.status) {
        assert IsWorst(groups, tier, g.status, n);
      }
    }
  }

  lemma TierShownIff(groups: seq<Group>, tier: string, info: TargetInfo)
    requires tier != "" && IsBad(info.status)
    ensures TierWorst(groups, tier) == Some(info) <==> Shown(groups, ATier(tier), info)
  {
    TierShown(groups, tier);
    var w := TierWorst(groups, tier);
    if i :| IsWorst(groups, tier, info.status, i) && info.reason == Says(groups[i]) {
      assert !NoneAsBad(groups, tier, "degraded");
      var j :| IsWorst(groups, tier, w.value.status, j) && w.value.reason == Says(groups[j]);
      assert w.value.status == info.status;
      assert i == j;
    }
  }

  lemma {:induction false} NoEmptyTier(groups: seq<Group>)
    ensures TierWorst(groups, "") == None
  {
    if groups != [] { NoEmptyTier(groups[..|groups| - 1]); }
  }

  /** A target built from a report says something bad exactly when the report
      shows it for the thing behind the target. */
  lemma TargetShows(groups: seq<Group>, targets: Targets, x: Thing, info: TargetInfo)
    requires Flattens(groups, targets) && AllPlain(groups) && Plain(x) && IsBad(info.status)
    ensures Get(targets, Target(x)) == Some(info) <==> Shown(groups, x, info)
  {
    var t := Target(x);
    assert Get(targets, t) == if HasPrefix(t, "tier:") then TierWorst(groups, t[5..]) else FlatInfo(groups, t);
    match x {
      case AGroup(name, environment) =>
        assert t[0] == 'g' && "tier:"[0] == 't';
        assert !HasPrefix(t, "tier:") by { assert |t| >= 6 && t[..5][0] == 'g'; }
        GroupShown(groups, name, environment, info);
      case AService(service) =>
        assert !HasPrefix(t, "tier:") by { assert |t| >= 8 && t[..5][0] == 's'; }
        ServiceShown(groups, service, info);
      case ATier(tier) =>
        assert t[..5] == "tier:" && t[5..] == tier;
        if tier == "" { NoEmptyTier(groups); } else { TierShownIff(groups, tier, info); }
    }
  }

  // --------------------------------------------------- alerts over a run of reports

  /** Which statuses a rule's `when` is about. */
  predicate Minds(when: string, status: string) {
    when == status || when == "not-healthy"
  }

  /** The report shows the thing in a state that a configured rule of this name
      selects it for. */
  ghost predicate Bad(cfg: Config, groups: seq<Group>, rule: string, x: Thing) {
    exists r: Rule, info: TargetInfo ::
      && r in cfg && r.name == rule && Selected(r.selector, x)
      && IsBad(info.status) && Minds(r.when, info.status) && Shown(groups, x, info)
  }

  predicate Configured(cfg: Config, rule: string, wait: int) {
    exists i :: 0 <= i < |cfg| && cfg[i].name == rule && cfg[i].wait == wait
  }

  lemma TheRule(cfg: Config, rule: string, r: Rule)
    requires Valid(cfg) && r in cfg && r.name == rule
    ensures RuleNamed(cfg, rule) == Some(r)
  {
    var named := RuleNamed(cfg, rule);
    var i :| 0 <= i < |cfg| && cfg[i] == r;
    var j :| 0 <= j < |cfg| && cfg[j] == named.value;
  }

  /** A `when` outside the validated three matches nothing. */
  predicate KnownWhen(cfg: Config) {
    forall r :: r in cfg ==> r.when in {"down", "degraded", "not-healthy"}
  }

  lemma MindsIff(when: string, status: string)
    requires when in {"down", "degraded", "not-healthy"}
    ensures ConditionMatches(when, status) <==> IsBad(status) && Minds(when, status)
  {
  }

  lemma MatchedIsBad(t: Tick, groups: seq<Group>, rule: string, x: Thing)
    requires t.Tick? && Valid(t.cfg) && KnownWhen(t.cfg) && Flattens(groups, t.targets) && AllPlain(groups) && Plain(x)
    ensures MatchedAt(t, StateKey(rule, Target(x))) <==> Bad(t.cfg, groups, rule, x)
  {
    if r: Rule, info: TargetInfo :|
        r in t.cfg && r.name == rule && Selected(r.selector, x)
        && IsBad(info.status) && Minds(r.when, info.status) && Shown(groups, x, info) {
      TargetShows(groups, t.targets, x, info);
      TheRule(t.cfg, rule, r);
      SelectsNamed(r.selector, x);
      MindsIff(r.when, info.status);
    }
    if MatchedAt(t, StateKey(rule, Target(x))) {
      var r := RuleNamed(t.cfg, rule).value;
      var info := t.targets[Target(x)];
      SelectsNamed(r.selector, x);
      MindsIff(r.when, info.status);
      TargetShows(groups, t.targets, x, info);
    }
  }

  /** Each tick evaluated the targets of its report, under a valid configuration
      with a rule of this name and `for`. */
  ghost predicate Reported(ticks: seq<Tick>, reports: seq<seq<Group>>, rule: string, wait: int) {
    |reports| == |ticks| && forall i :: 0 <= i < |ticks| ==>
      && ticks[i].Tick? && Configured(ticks[i].cfg, rule, wait) && KnownWhen(ticks[i].cfg)
      && Flattens(reports[i], ticks[i].targets) && AllPlain(reports[i])
  }

  ghost predicate BadSince(ticks: seq<Tick>, reports: seq<seq<Group>>, rule: string, x: Thing, s: int)
    requires |reports| == |ticks| && forall i :: 0 <= i < |ticks| ==> ticks[i].Tick?
  {
    0 <= s < |ticks| && forall i :: s <= i < |ticks| ==> Bad(ticks[i].cfg, reports[i], rule, x)
  }

  /** From an absent or resolved row: the alert fires exactly when the reports have
      shown the thing bad, as the rule minds it, at every tick since some earlier
      one at least `wait` ago; it is pending when they show it bad but not for that
      long. */
  lemma AlertFollowsReports(start: Option<TargetState>, ticks: seq<Tick>, reports: seq<seq<Group>>, rule: string,
                            x: Thing, wait: int)
    requires Active(start) == None && ticks != [] && ValidRun(ticks) && ClockRuns(ticks)
    requires Reported(ticks, reports, rule, wait) && Plain(x)
    ensures var n, status := |ticks| - 1, StatusOf(StoredFrom(start, ticks, StateKey(rule, Target(x))));
            var long := exists s ::
                          BadSince(ticks, reports, rule, x, s) && s < n && ticks[n].now - ticks[s].now >= wait;
            && (status == Firing <==> long)
            && (status == Pending <==> Bad(ticks[n].cfg, reports[n], rule, x) && !long)
  {
    var k, n := StateKey(rule, Target(x)), |ticks| - 1;
    forall i | 0 <= i < |ticks|
      ensures RuleNamed(ticks[i].cfg, rule).Some? && RuleNamed(ticks[i].cfg, rule).value.wait == wait
      ensures MatchedAt(ticks[i], k) <==> Bad(ticks[i].cfg, reports[i], rule, x)
    {
      assert ValidTick(ticks[i]) && Configured(ticks[i].cfg, rule, wait);
      var j :| 0 <= j < |ticks[i].cfg| && ticks[i].cfg[j].name == rule && ticks[i].cfg[j].wait == wait;
      TheRule(ticks[i].cfg, rule, ticks[i].cfg[j]);
      MatchedIsBad(ticks[i], reports[i], rule, x);
    }
    assert RuleStays(ticks, k, wait);
    DebounceEqualsHistory(start, ticks, k, wait);
    forall s ensures MatchedSince(ticks, k, s) <==> BadSince(ticks, reports, rule, x, s) {}
    if MatchedLongEnough(ticks, k, wait) {
      var s :| MatchedSince(ticks, k, s) && HeldFor(ticks, s, wait);
      assert BadSince(ticks, reports, rule, x, s);
    }
    if s :| BadSince(ticks, reports, rule, x, s) && s < n && ticks[n].now - ticks[s].now >= wait {
      assert MatchedSince(ticks, k, s) && HeldFor(ticks, s, wait);
    }
  }

  // ----------------------------------------------------------- what a note says

  /** A tick's notification about a health key: a fired one gives the status and
      reason the report shows; a resolved one the target's own status and reason, or that it
      no longer reports. Both carry the rule's channel and the tick's time. */
  lemma NoteSays(t: Tick, groups: seq<Group>, cell: Option<TargetState>, rule: string, r: Rule, x: Thing,
      n: Notification)
    requires t.Tick? && ValidTick(t) && KnownWhen(t.cfg) && r in t.cfg && r.name == rule
    requires Flattens(groups, t.targets) && AllPlain(groups) && Plain(x)
    requires TickNotes(t, cell, StateKey(rule, Target(x))) == [n]
    ensures n.rule == rule && n.target == Target(x) && n.at == t.now && n.channel == r.channel
    ensures n.kind == Fired ==>
              IsBad(n.status) && Minds(r.when, n.status) && Shown(groups, x, TargetInfo(n.status, n.reason))
    ensures n.kind == Resolved && Target(x) !in t.targets ==>
              n.status == "unknown" && n.reason == "target no longer reporting"
    ensures n.kind == Resolved && Target(x) in t.targets ==>
              TargetInfo(n.status, n.reason) == t.targets[Target(x)] && !Bad(t.cfg, groups, rule, x)
  {
    var k := StateKey(rule, Target(x));
    TheRule(t.cfg, rule, r);
    HealthOnly(t, cell, k);
    var notes := NextNotes(r, t.targets, Target(x), cell, t.now);
    assert TickNotes(t, cell, k) == notes + [] == notes;
    assert n == notes[0];
    MatchedIsBad(t, groups, rule, x);
    if Target(x) in t.targets {
      MindsIff(r.when, t.targets[Target(x)].status);
      if IsBad(t.targets[Target(x)].status) { TargetShows(groups, t.targets, x, t.targets[Target(x)]); }
    }
  }
}
