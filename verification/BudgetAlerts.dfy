/** Budget alerts told on the budget as configured and the month's usage. */
module BudgetAlerts {
  import opened Alerting
  import opened Budgets
  import opened AlertTick
  import opened AlertRuns

  /** What has been spent of the budget, in its own unit: its service's, or the
      whole estate's. */
  function Spend(b: Budget, u: Usage): real {
    if b.monthlyCost > 0.0 then
      if b.scope == "" then u.estateCost else if b.scope in u.costByService then u.costByService[b.scope] else 0.0
    else if b.scope == "" then u.estateTokens as real
    else if b.scope in u.tokensByService then u.tokensByService[b.scope] as real else 0.0
  }

  /** Some of a cost had no price, so that the spend is a floor. */
  predicate IsFloor(b: Budget, u: Usage) {
    b.monthlyCost > 0.0
    && if b.scope == "" then u.unpricedEstate > 0
       else b.scope in u.unpricedByService && u.unpricedByService[b.scope] > 0
  }

  function Cap(b: Budget): real {
    if b.monthlyCost > 0.0 then b.monthlyCost else b.monthlyTokens as real
  }

  /** The share of the cap at which a rule fires. */
  function Share(b: Budget, over: bool): real {
    if over then 1.0 else if b.warnRatio > 0.0 then b.warnRatio else 0.8
  }

  /** The spend has reached the rule's share of the cap. */
  predicate Reached(b: Budget, over: bool, u: Usage) { Spend(b, u) >= Share(b, over) * Cap(b) }

  function RuleKey(b: Budget, over: bool): StateKey {
    StateKey("ai:" + b.name + (if over then ":over" else ":warn"),
        if b.scope == "" then "estate" else "service:" + b.scope)
  }

  lemma SameNumbers(b: Budget, over: bool, u: Usage)
    requires b.Limit() > 0.0
    ensures u.Used(b) == (Spend(b, u), IsFloor(b, u)) && b.Limit() == Cap(b) && RuleKey(b, over) == b.Key(over)
    ensures Crossed(b, over, u) <==> Reached(b, over, u)
  {
    CrossedMeansShare(b, over, u);
  }

  /** The health rules say nothing about a budget's key, and its budget owns it. */
  lemma OwnKey(t: Tick, cell: Option<TargetState>, i: nat, over: bool)
    requires t.Tick? && ValidTick(t) && t.ai.On? && t.ai.usage.Some? && i < |t.ai.budgets|
    ensures var b, u := t.ai.budgets[i], t.ai.usage.value;
            var k := b.Key(over);
            && b.Limit() > 0.0
            && TickCell(t, cell, k) == BudgetCell(cell, Crossed(b, over, u), t.now)
            && TickNotes(t, cell, k) == OwnerNotes(b, over, u, t.describe, cell, t.now)
  {
    var b, u := t.ai.budgets[i], t.ai.usage.value;
    var k := b.Key(over);
    OwnerIs(t.ai.budgets, i, over);
    OwnedKeysAreAi(t.ai.budgets, k);
    NoRuleIsAi(t, k);
    assert EvalCell(t.cfg, t.targets, cell, t.now, k) == None && EvalNotes(t.cfg, t.targets, cell, t.now, k) == [];
    assert [] + AiNotes(t, cell, k) == AiNotes(t, cell, k);
  }

  /** With usage known, a configured budget's rule fires exactly when the spend has
      reached its share of the cap. It fires anew at the tick's time, and goes on
      firing as it was. */
  lemma BudgetAlert(t: Tick, stored: Option<TargetState>, i: nat, over: bool)
    requires t.Tick? && ValidTick(t) && t.ai.On? && t.ai.usage.Some? && i < |t.ai.budgets|
    ensures var b := t.ai.budgets[i];
            var next := SavedCell(t, stored, RuleKey(b, over));
            && (Fires(next) <==> Reached(b, over, t.ai.usage.value))
            && (Fires(next) ==> next == if Fires(stored) then stored else Some(TargetState(Firing, t.now, t.now)))
  {
    OwnKey(t, Active(stored), i, over);
    SameNumbers(t.ai.budgets[i], over, t.ai.usage.value);
  }

  /** The tick's notes about the rule: one when the spend reaches the share, one
      when it falls below it again, and otherwise none. */
  lemma BudgetNote(t: Tick, stored: Option<TargetState>, i: nat, over: bool)
    requires t.Tick? && ValidTick(t) && t.ai.On? && t.ai.usage.Some? && i < |t.ai.budgets|
    ensures var b, u := t.ai.budgets[i], t.ai.usage.value;
            var k, reached := RuleKey(b, over), Reached(b, over, u);
            Cap(b) > 0.0 &&
            var reason := t.describe(b, Spend(b, u), Spend(b, u) / Cap(b), IsFloor(b, u));
            TickNotes(t, Active(stored), k) ==
            if reached && !Fires(stored) then
              [Notification(k.rule, k.target, Fired, if over then "exceeded" else "warn", reason, t.now, b.channel)]
            else if !reached && Fires(stored) then
              [Notification(k.rule, k.target, Resolved, "ok", reason, t.now, b.channel)]
            else []
  {
    OwnKey(t, Active(stored), i, over);
    SameNumbers(t.ai.budgets[i], over, t.ai.usage.value);
  }
}
