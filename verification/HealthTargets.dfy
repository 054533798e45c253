/** Flattening a health report into the targets alert rules address. */
module HealthTargets {
  import opened Alerting

  datatype Member = Member(service: string, effective: string, reason: string)

  datatype Group = Group(name: string, environment: string, tier: string, status: string, reason: string,
      members: seq<Member>)

  function GroupName(g: Group): string {
    if g.environment == "" then g.name else g.name + "[" + g.environment + "]"
  }

  function GroupTargetKey(g: Group): string {
    "group:" + GroupName(g)
  }

  function Severity(status: string): nat {
    match status
    case "healthy" => 1
    case "degraded" => 2
    case "down" => 3
    case _ => 0
  }

  // ------------------------------------------------- group keys and selectors

  lemma {:induction false} LastIndexOfSuffix(a: string, b: string)
    requires '[' !in b
    ensures LastIndex(a + "[" + b, '[') == |a|
  {
    var s := a + "[" + b;
    assert s[|a|] == '[' && forall k :: |a| < k < |s| ==> s[k] == b[k - |a| - 1];
  }

  /** Splitting a group's target gives back its name and environment exactly
      when the environment has no bracket of its own and, without one, the name
      does not already look bracketed. */
  lemma GroupKeySplits(g: Group)
    ensures SplitGroupTarget(GroupName(g)) == (g.name, g.environment) <==>
              if g.environment == "" then !('[' in g.name && g.name[|g.name| - 1] == ']')
              else '[' !in g.environment
  {
    var s := GroupName(g);
    if g.environment == "" {
      if '[' in s { var k :| 0 <= k < |s| && s[k] == '['; }
    } else if '[' !in g.environment {
      assert s == g.name + "[" + (g.environment + "]");
      LastIndexOfSuffix(g.name, g.environment + "]");
      assert s[..|g.name|] == g.name && s[|g.name| + 1..|s| - 1] == g.environment;
    } else {
      var k :| 0 <= k < |g.environment| && g.environment[k] == '[';
      assert s[|g.name| + 1 + k] == '[';
    }
  }

  // ----------------------------------------------------------- buildTargets

  /** The non-tier target `t` as one group declares it. */
  function GroupInfo(g: Group, t: string): Option<TargetInfo> {
    var m := MemberInfo(g.members, t);
    if m.Some? then m else if t == GroupTargetKey(g) then Some(TargetInfo(g.status, g.reason)) else None
  }

  function MemberInfo(ms: seq<Member>, t: string): Option<TargetInfo> {
    if ms == [] then None
    else
      var m := ms[|ms| - 1];
      if t == "service:" + m.service then Some(TargetInfo(m.effective, m.reason)) else MemberInfo(ms[..|ms| - 1], t)
  }

  /** The last group that declares `t` wins. */
  function FlatInfo(groups: seq<Group>, t: string): Option<TargetInfo> {
    if groups == [] then None
    else
      var i := GroupInfo(groups[|groups| - 1], t);
      if i.Some? then i else FlatInfo(groups[..|groups| - 1], t)
  }

  function TierLabel(g: Group): TargetInfo {
    TargetInfo(g.status, g.name + (if g.environment != "" then " [" + g.environment + "]" else "") + " is " + g.status)
  }

  /** The first group of a tier that no other group of it is worse than. */
  function TierWorst(groups: seq<Group>, tier: string): Option<TargetInfo> {
    if groups == [] then None
    else
      var g := groups[|groups| - 1];
      var sofar := TierWorst(groups[..|groups| - 1], tier);
      if g.tier == tier && tier != "" && (sofar.None? || Severity(g.status) > Severity(sofar.value.status))
      then Some(TierLabel(g)) else sofar
  }

  /** A tier target exists exactly when some group is in the tier; it then shows
      a group of the tier that is at least as severe as every other. */
  lemma {:induction false} TierShowsWorst(groups: seq<Group>, tier: string)
    requires tier != ""
    ensures var w := TierWorst(groups, tier);
            && (w.None? <==> forall i :: 0 <= i < |groups| ==> groups[i].tier != tier)
            && (w.Some? ==>
                  && (exists i :: 0 <= i < |groups| && groups[i].tier == tier && w.value == TierLabel(groups[i]))
                  && forall i :: 0 <= i < |groups| && groups[i].tier == tier
                      ==> Severity(groups[i].status) <= Severity(w.value.status))
  {
    if groups != [] {
      var front := groups[..|groups| - 1];
      TierShowsWorst(front, tier);
      forall i | 0 <= i < |front| ensures front[i] == groups[i] {}
      var w := TierWorst(front, tier);
      if w.Some? {
        var i :| 0 <= i < |front| && front[i].tier == tier && w.value == TierLabel(front[i]);
        assert groups[i].tier == tier && w.value == TierLabel(groups[i]);
      }
      assert groups[|groups| - 1].tier == tier ==> exists i :: 0 <= i < |groups| && groups[i].tier == tier;
    }
  }

  method BuildTargets(groups: seq<Group>) returns (out: Targets)
    ensures forall t :: Get(out, t) ==
              if HasPrefix(t, "tier:") then TierWorst(groups, t[5..]) else FlatInfo(groups, t)
  {
    out := map[];
    var worst: map<string, TargetInfo> := map[];
    for i := 0 to |groups|
      invariant forall t :: Get(out, t) == FlatInfo(groups[..i], t)
      invariant forall t :: HasPrefix(t, "tier:") ==> t !in out
      invariant forall tier :: Get(worst, tier) == TierWorst(groups[..i], tier)
    {
      var g := groups[i];
      assert groups[..i + 1][..i] == groups[..i];
      out := AddGroup(out, g);
      worst := RaiseTier(worst, g);
    }
    assert groups[..|groups|] == groups;
    out := AddTiers(out, worst);
  }

  /** A group makes its tier worse if it is more severe than all before it. */
  method RaiseTier(worst0: map<string, TargetInfo>, g: Group) returns (worst: map<string, TargetInfo>)
    ensures forall tier :: Get(worst, tier) ==
              var sofar := Get(worst0, tier);
              if g.tier == tier && tier != "" && (sofar.None? || Severity(g.status) > Severity(sofar.value.status))
              then Some(TierLabel(g)) else sofar
  {
    worst := worst0;
    if g.tier != "" {
      if g.tier !in worst || Severity(g.status) > Severity(worst[g.tier].status) {
        worst := worst[g.tier := TierLabel(g)];
      }
    }
  }

  lemma TierKey(t: string, tier: string)
    ensures HasPrefix("tier:" + tier, "tier:") && ("tier:" + tier)[5..] == tier
    ensures HasPrefix(t, "tier:") && t[5..] == tier ==> t == "tier:" + tier
  {
  }

  /** One target per tier, showing its worst group. */
  method AddTiers(flat: Targets, worst: map<string, TargetInfo>) returns (out: Targets)
    requires forall t :: HasPrefix(t, "tier:") ==> t !in flat
    ensures forall t :: Get(out, t) == if HasPrefix(t, "tier:") then Get(worst, t[5..]) else Get(flat, t)
  {
    out := flat;
    var pending := worst.Keys;
    while pending != {}
      invariant pending <= worst.Keys
      invariant forall t :: Get(out, t) ==
                  if HasPrefix(t, "tier:") then (if t[5..] in pending then None else Get(worst, t[5..]))
                      else Get(flat, t)
      decreases pending
    {
      var tier :| tier in pending;
      TierKey("tier:" + tier, tier);
      forall t ensures HasPrefix(t, "tier:") && t[5..] == tier ==> t == "tier:" + tier { TierKey(t, tier); }
      out := out["tier:" + tier := worst[tier]];
      pending := pending - {tier};
    }
  }

  /** One group and its members, added over what is there. */
  method AddGroup(out0: Targets, g: Group) returns (out: Targets)
    ensures forall t :: Get(out, t) == if GroupInfo(g, t).Some? then GroupInfo(g, t) else Get(out0, t)
    ensures (forall t :: HasPrefix(t, "tier:") ==> t !in out0) ==> forall t :: HasPrefix(t, "tier:") ==> t !in out
  {
    out := out0[GroupTargetKey(g) := TargetInfo(g.status, g.reason)];
    assert !HasPrefix(GroupTargetKey(g), "tier:") by { assert GroupTargetKey(g)[0] == 'g'; }
    for j := 0 to |g.members|
      invariant forall t :: Get(out, t) ==
                  if MemberInfo(g.members[..j], t).Some? then MemberInfo(g.members[..j], t)
                  else if t == GroupTargetKey(g) then Some(TargetInfo(g.status, g.reason)) else Get(out0, t)
      invariant (forall t :: HasPrefix(t, "tier:") ==> t !in out0) ==> forall t :: HasPrefix(t, "tier:") ==> t !in out
    {
      var m := g.members[j];
      assert g.members[..j + 1][..j] == g.members[..j];
      assert !HasPrefix("service:" + m.service, "tier:") by { assert ("service:" + m.service)[0] == 's'; }
      out := out["service:" + m.service := TargetInfo(m.effective, m.reason)];
    }
    assert g.members[..|g.members|] == g.members;
  }
}
