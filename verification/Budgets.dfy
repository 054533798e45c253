/** AI spend budgets: validation, naming, and the ok/firing machine that shares
    the alert state with the health rules. Money and ratios are reals. */
module Budgets {
  import opened Alerting

  const PREFIX: string := "ai:"
  const WARN_SUFFIX: string := ":warn"
  const OVER_SUFFIX: string := ":over"
  const DEFAULT_WARN_RATIO: real := 0.8

  datatype Budget = Budget(
    name: string, scope: string, monthlyTokens: int, monthlyCost: real, warnRatio: real, channel: string)
  {
    predicate IsCost() { monthlyCost > 0.0 }

    function Limit(): real {
      if IsCost() then monthlyCost else monthlyTokens as real
    }

    function WarnAt(): real {
      if warnRatio <= 0.0 then DEFAULT_WARN_RATIO else warnRatio
    }

    function Target(): string {
      if scope == "" then "estate" else "service:" + scope
    }

    function WarnKey(): StateKey { StateKey(PREFIX + name + WARN_SUFFIX, Target()) }

    function OverKey(): StateKey { StateKey(PREFIX + name + OVER_SUFFIX, Target()) }

    function Key(over: bool): StateKey { if over then OverKey() else WarnKey() }
  }

  datatype Usage = Usage(
    tokensByService: map<string, int>, costByService: map<string, real>,
    estateTokens: int, estateCost: real,
    unpricedByService: map<string, nat>, unpricedEstate: nat)
  {
    /** Spend in the budget's own unit, and whether the number is a floor. */
    function Used(b: Budget): (real, bool) {
      if b.scope == "" then
        if b.IsCost() then (estateCost, unpricedEstate > 0) else (estateTokens as real, false)
      else if b.IsCost() then
        (if b.scope in costByService then costByService[b.scope] else 0.0,
         b.scope in unpricedByService && unpricedByService[b.scope] > 0)
      else (if b.scope in tokensByService then tokensByService[b.scope] as real else 0.0, false)
    }
  }

  /** The line of text recorded with a crossing is left uninterpreted. */
  type Describe = (Budget, real, real, bool) -> string

  function Ratio(b: Budget, u: Usage): real
    requires b.Limit() > 0.0
  {
    u.Used(b).0 / b.Limit()
  }

  // --------------------------------------------------------------- validation

  /** What validateBudgets accepts; `trim` is whitespace trimming. */
  ghost predicate Accepted(trim: string -> string, budgets: seq<Budget>, priced: bool) {
    && (forall i, j :: 0 <= i < j < |budgets| ==> trim(budgets[i].name) != trim(budgets[j].name))
    && (forall i :: 0 <= i < |budgets| ==> BudgetAccepted(trim, budgets[i], priced))
  }

  predicate BudgetAccepted(trim: string -> string, b: Budget, priced: bool) {
    && trim(b.name) != ""
    && b.monthlyTokens >= 0 && b.monthlyCost >= 0.0
    && (b.monthlyTokens > 0 <==> b.monthlyCost == 0.0)
    && 0.0 <= b.warnRatio < 1.0
    && (b.IsCost() ==> priced)
  }

  method ValidateBudgets(trim: string -> string, budgets: seq<Budget>, priced: bool) returns (ok: bool)
    ensures ok <==> Accepted(trim, budgets, priced)
    ensures ok <==>
              && (forall i, j :: 0 <= i < j < |budgets| ==> trim(budgets[i].name) != trim(budgets[j].name))
              && (forall i :: 0 <= i < |budgets| ==> trim(budgets[i].name) != "" && 0.0 <= budgets[i].warnRatio < 1.0)
              && (forall i :: 0 <= i < |budgets| ==>
                    || (budgets[i].monthlyTokens > 0 && budgets[i].monthlyCost == 0.0)
                    || (budgets[i].monthlyTokens == 0 && budgets[i].monthlyCost > 0.0 && priced))
  {
    var seen: set<string> := {};
    for i := 0 to |budgets|
      invariant seen == set j | 0 <= j < i :: trim(budgets[j].name)
      invariant Accepted(trim, budgets[..i], priced)
    {
      var b := budgets[i];
      var name := trim(b.name);
      if name == "" || name in seen { return false; }
      seen := seen + {name};
      if b.monthlyTokens < 0 || b.monthlyCost < 0.0 { return false; }
      if b.monthlyTokens > 0 && b.monthlyCost > 0.0 { return false; }
      if b.monthlyTokens == 0 && b.monthlyCost == 0.0 { return false; }
      if b.warnRatio < 0.0 || b.warnRatio >= 1.0 { return false; }
      if b.IsCost() && !priced { return false; }
      assert BudgetAccepted(trim, b, priced);
    }
    assert budgets[..|budgets|] == budgets;
    return true;
  }

  /** The facts the budget machine relies on. */
  ghost predicate ValidBudgets(budgets: seq<Budget>) {
    && (forall i, j :: 0 <= i < j < |budgets| ==> budgets[i].name != budgets[j].name)
    && (forall i :: 0 <= i < |budgets| ==> budgets[i].Limit() > 0.0 && 0.0 < budgets[i].WarnAt() < 1.0)
  }

  lemma AcceptedIsValid(trim: string -> string, budgets: seq<Budget>, priced: bool)
    requires Accepted(trim, budgets, priced)
    ensures ValidBudgets(budgets)
  {
    forall i | 0 <= i < |budgets| ensures budgets[i].Limit() > 0.0 && 0.0 < budgets[i].WarnAt() < 1.0 {
      assert BudgetAccepted(trim, budgets[i], priced);
    }
    forall i, j | 0 <= i < j < |budgets| ensures budgets[i].name != budgets[j].name {
      assert trim(budgets[i].name) != trim(budgets[j].name);
    }
  }

  // ------------------------------------------------------------------- naming

  lemma WarnIsNotOver(a: string, b: string)
    ensures PREFIX + a + WARN_SUFFIX != PREFIX + b + OVER_SUFFIX
  {
    var w, o := PREFIX + a + WARN_SUFFIX, PREFIX + b + OVER_SUFFIX;
    assert w[|w| - 1] == 'n' && o[|o| - 1] == 'r';
  }

  lemma NamesDiffer(a: string, b: string, suffix: string)
    requires PREFIX + a + suffix == PREFIX + b + suffix
    ensures a == b
  {
    var x, y := PREFIX + a + suffix, PREFIX + b + suffix;
    assert x[3..|x| - |suffix|] == a && y[3..|y| - |suffix|] == b;
  }

  // -------------------------------------------------------------- one rule

  function BudgetCell(cell: Option<TargetState>, crossed: bool, now: int): Option<TargetState> {
    if !crossed then None
    else if StatusOf(cell) == Firing then cell
    else Some(TargetState(Firing, now, now))
  }

  function BudgetNotes(k: StateKey, cell: Option<TargetState>, crossed: bool, status: string, reason: string,
      channel: string, now: int)
    : seq<Notification>
  {
    if crossed && StatusOf(cell) != Firing then [Notification(k.rule, k.target, Fired, status, reason, now, channel)]
    else if !crossed && StatusOf(cell) == Firing
        then [Notification(k.rule, k.target, Resolved, "ok", reason, now, channel)]
    else []
  }

  /** Which budget, and which of its two rules, owns a key. */
  function OwnerOf(budgets: seq<Budget>, k: StateKey): (r: Option<(Budget, bool)>)
    ensures r.Some? ==> r.value.0 in budgets && k == r.value.0.Key(r.value.1)
    ensures r.None? ==> forall i :: 0 <= i < |budgets| ==> k != budgets[i].WarnKey() && k != budgets[i].OverKey()
  {
    if budgets == [] then None
    else if k == budgets[0].WarnKey() then Some((budgets[0], false))
    else if k == budgets[0].OverKey() then Some((budgets[0], true))
    else OwnerOf(budgets[1..], k)
  }

  predicate Crossed(b: Budget, over: bool, u: Usage)
    requires b.Limit() > 0.0
  {
    Ratio(b, u) >= if over then 1.0 else b.WarnAt()
  }

  /** What EvaluateBudgets leaves under key `k`. */
  function BudgetsCell(budgets: seq<Budget>, u: Usage, cell: Option<TargetState>, now: int, k: StateKey):
      Option<TargetState> {
    match OwnerOf(budgets, k)
    case Some((b, over)) => if b.Limit() > 0.0 then BudgetCell(cell, Crossed(b, over, u), now) else None
    case None => None
  }

  function OwnerNotes(b: Budget, over: bool, u: Usage, describe: Describe, cell: Option<TargetState>, now: int):
      seq<Notification>
    requires b.Limit() > 0.0
  {
    BudgetNotes(b.Key(over), cell, Crossed(b, over, u), if over then "exceeded" else "warn",
                describe(b, u.Used(b).0, Ratio(b, u), u.Used(b).1), b.channel, now)
  }

  function BudgetsNotes(budgets: seq<Budget>, u: Usage, describe: Describe, cell: Option<TargetState>, now: int,
      k: StateKey)
    : seq<Notification>
  {
    match OwnerOf(budgets, k)
    case Some((b, over)) => if b.Limit() > 0.0 then OwnerNotes(b, over, u, describe, cell, now) else []
    case None => []
  }

  lemma {:induction false} OwnerIs(budgets: seq<Budget>, i: nat, over: bool)
    requires ValidBudgets(budgets) && i < |budgets|
    ensures OwnerOf(budgets, budgets[i].Key(over)) == Some((budgets[i], over))
  {
    WarnIsNotOver(budgets[0].name, budgets[i].name);
    WarnIsNotOver(budgets[i].name, budgets[0].name);
    if i > 0 {
      if over && budgets[0].OverKey() == budgets[i].OverKey() {
        NamesDiffer(budgets[0].name, budgets[i].name, OVER_SUFFIX);
      }
      if !over && budgets[0].WarnKey() == budgets[i].WarnKey() {
        NamesDiffer(budgets[0].name, budgets[i].name, WARN_SUFFIX);
      }
      OwnerIs(budgets[1..], i - 1, over);
    }
  }

  // ------------------------------------------------------------ the machine

  /** One rule's transition, applied in place to `next` and `notes`. */
  method EvalBudgetRule(next0: State, notes0: seq<Notification>, prev: State, k: StateKey, channel: string,
                        crossed: bool, firingStatus: string, reason: string, now: int)
    returns (next: State, notes: seq<Notification>)
    requires KeyFresh(next0, notes0, k)
    ensures Get(next, k) == BudgetCell(Get(prev, k), crossed, now)
    ensures NotesFor(notes, k) == BudgetNotes(k, Get(prev, k), crossed, firingStatus, reason, channel, now)
    ensures forall q :: q != k ==> SameAt(next, notes, next0, notes0, q)
  {
    var firing := k in prev && prev[k].status == Firing;
    next, notes := next0, notes0;
    if crossed && firing {
      next := next[k := prev[k]];
    } else if crossed {
      next := next[k := TargetState(Firing, now, now)];
      notes := notes + [Notification(k.rule, k.target, Fired, firingStatus, reason, now, channel)];
    } else if firing {
      notes := notes + [Notification(k.rule, k.target, Resolved, "ok", reason, now, channel)];
    }
    ghost var added := BudgetNotes(k, Get(prev, k), crossed, firingStatus, reason, channel, now);
    assert notes == notes0 + added;
    OnlyAbout(notes0, added, k);
    assert NotesFor(notes, k) == [] + added;
    forall q | q != k ensures SameAt(next, notes, next0, notes0, q) {
      assert NotesFor(notes, q) == NotesFor(notes0, q) + [];
    }
  }

  ghost predicate BudgetsDone(budgets: seq<Budget>, u: Usage, describe: Describe, prev: State, now: int,
                              next: State, notes: seq<Notification>, k: StateKey)
  {
    Get(next, k) == BudgetsCell(budgets, u, Get(prev, k), now, k)
    && NotesFor(notes, k) == BudgetsNotes(budgets, u, describe, Get(prev, k), now, k)
  }

  lemma {:induction false} OwnerOfSnoc(budgets: seq<Budget>, b: Budget, k: StateKey)
    ensures OwnerOf(budgets + [b], k) ==
            if OwnerOf(budgets, k).Some? then OwnerOf(budgets, k) else OwnerOf([b], k)
  {
    if budgets == [] {
      assert budgets + [b] == [b];
    } else {
      OwnerOfSnoc(budgets[1..], b, k);
      assert (budgets + [b])[1..] == budgets[1..] + [b];
    }
  }

  lemma OwnerOfPrefix(budgets: seq<Budget>, i: nat, k: StateKey)
    requires ValidBudgets(budgets) && i < |budgets|
    ensures OwnerOf(budgets[..i + 1], k) ==
            if k == budgets[i].WarnKey() then Some((budgets[i], false))
            else if k == budgets[i].OverKey() then Some((budgets[i], true))
            else OwnerOf(budgets[..i], k)
  {
    assert budgets[..i + 1] == budgets[..i] + [budgets[i]];
    OwnerOfSnoc(budgets[..i], budgets[i], k);
    OwnerUnclaimed(budgets, i, false);
    OwnerUnclaimed(budgets, i, true);
  }

  ghost predicate OwnerDone(b: Budget, over: bool, u: Usage, describe: Describe, prev: State, now: int,
                            next: State, notes: seq<Notification>)
    requires b.Limit() > 0.0
  {
    Get(next, b.Key(over)) == BudgetCell(Get(prev, b.Key(over)), Crossed(b, over, u), now)
    && NotesFor(notes, b.Key(over)) == OwnerNotes(b, over, u, describe, Get(prev, b.Key(over)), now)
  }

  /** One budget: its warn rule, then its over rule. */
  method EvaluateBudget(b: Budget, u: Usage, describe: Describe, prev: State, now: int, next0: State,
      notes0: seq<Notification>)
    returns (next: State, notes: seq<Notification>)
    requires b.Limit() > 0.0
    requires KeyFresh(next0, notes0, b.WarnKey()) && KeyFresh(next0, notes0, b.OverKey())
    ensures OwnerDone(b, false, u, describe, prev, now, next, notes)
    ensures OwnerDone(b, true, u, describe, prev, now, next, notes)
    ensures forall k :: k != b.WarnKey() && k != b.OverKey() ==> SameAt(next, notes, next0, notes0, k)
  {
    var (used, partial) := u.Used(b);
    var ratio := used / b.Limit();
    var reason := describe(b, used, ratio, partial);
    WarnIsNotOver(b.name, b.name);
    var next1, notes1 := EvalBudgetRule(next0, notes0, prev, b.WarnKey(), b.channel, ratio >= b.WarnAt(), "warn",
        reason, now);
    assert SameAt(next1, notes1, next0, notes0, b.OverKey());
    next, notes := EvalBudgetRule(next1, notes1, prev, b.OverKey(), b.channel, ratio >= 1.0, "exceeded", reason, now);
    assert SameAt(next, notes, next1, notes1, b.WarnKey());
    forall k | k != b.WarnKey() && k != b.OverKey() ensures SameAt(next, notes, next0, notes0, k) {
      assert SameAt(next1, notes1, next0, notes0, k) && SameAt(next, notes, next1, notes1, k);
    }
  }

  method EvaluateBudgets(budgets: seq<Budget>, u: Usage, describe: Describe, prev: State, now: int)
    returns (next: State, notes: seq<Notification>)
    requires ValidBudgets(budgets)
    ensures forall k :: BudgetsDone(budgets, u, describe, prev, now, next, notes, k)
  {
    next, notes := map[], [];
    for i := 0 to |budgets|
      invariant forall k :: BudgetsDone(budgets[..i], u, describe, prev, now, next, notes, k)
    {
      var b := budgets[i];
      if b.Limit() <= 0.0 { continue; }
      NewKeysFresh(budgets, u, describe, prev, now, next, notes, i);
      ghost var next0, notes0 := next, notes;
      next, notes := EvaluateBudget(b, u, describe, prev, now, next, notes);
      ghost var upto := budgets[..i + 1];
      forall k ensures BudgetsDone(upto, u, describe, prev, now, next, notes, k) {
        assert BudgetsDone(budgets[..i], u, describe, prev, now, next0, notes0, k);
        assert k != b.WarnKey() && k != b.OverKey() ==> SameAt(next, notes, next0, notes0, k);
        OneMoreDone(budgets, i, u, describe, prev, now, next0, notes0, next, notes, k);
      }
    }
    assert budgets[..|budgets|] == budgets;
  }

  /** At one key: its budget has been evaluated, or nothing has changed. */
  lemma OneMoreDone(budgets: seq<Budget>, i: nat, u: Usage, describe: Describe, prev: State, now: int,
                    next0: State, notes0: seq<Notification>, next: State, notes: seq<Notification>, k: StateKey)
    requires ValidBudgets(budgets) && i < |budgets|
    requires BudgetsDone(budgets[..i], u, describe, prev, now, next0, notes0, k)
    requires OwnerDone(budgets[i], false, u, describe, prev, now, next, notes)
    requires OwnerDone(budgets[i], true, u, describe, prev, now, next, notes)
    requires k != budgets[i].WarnKey() && k != budgets[i].OverKey() ==> SameAt(next, notes, next0, notes0, k)
    ensures BudgetsDone(budgets[..i + 1], u, describe, prev, now, next, notes, k)
  {
    OwnerOfPrefix(budgets, i, k);
  }

  lemma NewKeysFresh(budgets: seq<Budget>, u: Usage, describe: Describe, prev: State, now: int,
                     next: State, notes: seq<Notification>, i: nat)
    requires ValidBudgets(budgets) && i < |budgets|
    requires forall k :: BudgetsDone(budgets[..i], u, describe, prev, now, next, notes, k)
    ensures KeyFresh(next, notes, budgets[i].WarnKey()) && KeyFresh(next, notes, budgets[i].OverKey())
  {
    OwnerUnclaimed(budgets, i, false);
    OwnerUnclaimed(budgets, i, true);
    assert BudgetsDone(budgets[..i], u, describe, prev, now, next, notes, budgets[i].WarnKey());
    assert BudgetsDone(budgets[..i], u, describe, prev, now, next, notes, budgets[i].OverKey());
    assert Get(next, budgets[i].WarnKey()) == None && Get(next, budgets[i].OverKey()) == None;
  }

  lemma OwnerUnclaimed(budgets: seq<Budget>, i: nat, over: bool)
    requires ValidBudgets(budgets) && i < |budgets|
    ensures OwnerOf(budgets[..i], budgets[i].Key(over)) == None
  {
    var k := budgets[i].Key(over);
    if OwnerOf(budgets[..i], k).Some? {
      var (b, o) := OwnerOf(budgets[..i], k).value;
      var j :| 0 <= j < i && budgets[j] == b;
      OwnerIs(budgets, j, o);
      OwnerIs(budgets, i, over);
    }
  }
}
