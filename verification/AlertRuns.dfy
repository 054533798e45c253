/** What holds of every run of alerting ticks: the stored state refines an
    in-memory one, firing means a long enough unbroken match, notifications
    alternate, and a budget's two rules keep their order. */
module AlertRuns {
  import opened Alerting
  import opened Budgets
  import opened AlertTick

  ghost predicate ValidRun(ticks: seq<Tick>) {
    forall i :: 0 <= i < |ticks| ==> ValidTick(ticks[i])
  }

  function Front(ticks: seq<Tick>): seq<Tick>
    requires ticks != []
  {
    ticks[..|ticks| - 1]
  }

  function Last(ticks: seq<Tick>): Tick
    requires ticks != []
  {
    ticks[|ticks| - 1]
  }

  // --------------------------------------------------------- durable = memory

  /** Rows with status ok are indistinguishable from no row. */
  lemma OkRowsBehaveAsAbsent(t: Tick, cell: Option<TargetState>, k: StateKey)
    requires t.Tick?
    ensures Active(TickCell(t, cell, k)) == Active(TickCell(t, Active(cell), k))
    ensures TickNotes(t, cell, k) == TickNotes(t, Active(cell), k)
  {
  }

  lemma MemoryHasNoOkRows(t: Tick, cell: Option<TargetState>, k: StateKey)
    requires t.Tick? && Active(cell) == cell
    ensures Active(TickCell(t, cell, k)) == TickCell(t, cell, k)
  {
  }

  /** Loading what was saved gives back exactly the in-memory state, at every
      key after every run, and hence the same notifications at the next tick. */
  lemma {:induction false} DurableRefinesMemory(ticks: seq<Tick>, k: StateKey)
    ensures Active(StoredAfter(ticks, k)) == MemoryAfter(ticks, k)
    ensures Active(MemoryAfter(ticks, k)) == MemoryAfter(ticks, k)
  {
    if ticks != [] {
      DurableRefinesMemory(Front(ticks), k);
      if Last(ticks).Tick? { MemoryHasNoOkRows(Last(ticks), MemoryAfter(Front(ticks), k), k); }
    }
  }

  function Drop(ticks: seq<Tick>): seq<Tick> {
    if ticks == [] then []
    else if Last(ticks).Skipped? then Drop(Front(ticks)) else Drop(Front(ticks)) + [Last(ticks)]
  }

  /** Skipped ticks leave no trace. */
  lemma {:induction false} SkippedTicksVanish(ticks: seq<Tick>, k: StateKey)
    ensures StoredAfter(Drop(ticks), k) == StoredAfter(ticks, k)
    ensures NotesAfter(Drop(ticks), k) == NotesAfter(ticks, k)
  {
    if ticks != [] {
      SkippedTicksVanish(Front(ticks), k);
      if Last(ticks).Tick? {
        assert Front(Drop(Front(ticks)) + [Last(ticks)]) == Drop(Front(ticks));
      }
    }
  }

  // ------------------------------------------------------- debounce = history

  /** The tick has rule `k.rule`, with this `for`, and it matches `k.target`. */
  predicate MatchedAt(t: Tick, k: StateKey) {
    t.Tick? && RuleNamed(t.cfg, k.rule).Some? && Matches(RuleNamed(t.cfg, k.rule).value, t.targets, k.target)
  }

  ghost predicate RuleStays(ticks: seq<Tick>, k: StateKey, wait: int) {
    forall i :: 0 <= i < |ticks| ==>
      ticks[i].Tick? && RuleNamed(ticks[i].cfg, k.rule).Some? && RuleNamed(ticks[i].cfg, k.rule).value.wait == wait
  }

  ghost predicate ClockRuns(ticks: seq<Tick>) {
    forall i, j :: 0 <= i <= j < |ticks| && ticks[i].Tick? && ticks[j].Tick? ==> ticks[i].now <= ticks[j].now
  }

  ghost predicate MatchedSince(ticks: seq<Tick>, k: StateKey, s: int) {
    0 <= s < |ticks| && forall i :: s <= i < |ticks| ==> MatchedAt(ticks[i], k)
  }

  /** The key has matched at every tick since some earlier one, `wait` or more ago. */
  ghost predicate MatchedLongEnough(ticks: seq<Tick>, k: StateKey, wait: int) {
    exists s :: MatchedSince(ticks, k, s) && HeldFor(ticks, s, wait)
  }

  predicate HeldFor(ticks: seq<Tick>, s: int, wait: int) {
    0 <= s < |ticks| - 1 && ticks[s].Tick? && Last(ticks).Tick? && Last(ticks).now - ticks[s].now >= wait
  }

  /** Where the current unbroken match began. */
  function RunStart(ticks: seq<Tick>, k: StateKey): (s: nat)
    ensures s <= |ticks|
  {
    if ticks == [] || !MatchedAt(Last(ticks), k) then |ticks| else RunStart(Front(ticks), k)
  }

  lemma LastMatched(ticks: seq<Tick>, k: StateKey, r: int)
    requires ticks != []
    ensures MatchedSince(ticks, k, r) ==> MatchedAt(ticks[|ticks| - 1], k)
  {
  }

  lemma {:induction false} RunStartIsFirst(ticks: seq<Tick>, k: StateKey)
    ensures var s := RunStart(ticks, k);
            && (s < |ticks| ==> MatchedSince(ticks, k, s))
            && (forall r :: MatchedSince(ticks, k, r) ==> s <= r)
  {
    if ticks != [] && MatchedAt(Last(ticks), k) {
      RunStartIsFirst(Front(ticks), k);
      forall r | MatchedSince(ticks, k, r) ensures RunStart(ticks, k) <= r {
        if r < |ticks| - 1 {
          assert forall i :: r <= i < |ticks| - 1 ==> Front(ticks)[i] == ticks[i];
          assert MatchedSince(Front(ticks), k, r);
        }
      }
      forall i | RunStart(ticks, k) <= i < |ticks| ensures MatchedAt(ticks[i], k) {
        assert i < |ticks| - 1 ==> Front(ticks)[i] == ticks[i];
      }
    } else if ticks != [] {
      forall r ensures !MatchedSince(ticks, k, r) { LastMatched(ticks, k, r); }
    }
  }

  lemma HealthOnly(t: Tick, cell: Option<TargetState>, k: StateKey)
    requires t.Tick? && ValidTick(t) && RuleNamed(t.cfg, k.rule).Some?
    ensures !IsAi(k) && AiCell(t, cell, k) == None && AiNotes(t, cell, k) == []
  {
    var r := RuleNamed(t.cfg, k.rule).value;
    var i :| 0 <= i < |t.cfg| && t.cfg[i] == r;
    if t.ai.On? { OwnedKeysAreAi(t.ai.budgets, k); }
  }

  lemma OwnedKeysAreAi(budgets: seq<Budget>, k: StateKey)
    ensures OwnerOf(budgets, k).Some? ==> IsAi(k)
  {
    if OwnerOf(budgets, k).Some? {
      var (b, over) := OwnerOf(budgets, k).value;
      assert k.rule == PREFIX + b.name + if over then OVER_SUFFIX else WARN_SUFFIX;
      assert k.rule[..3] == PREFIX;
    }
  }

  /** The state a key must be in, told from the history of matches alone. */
  ghost predicate Debounced(ticks: seq<Tick>, k: StateKey, wait: int, cell: Option<TargetState>) {
    var s := RunStart(ticks, k);
    if s == |ticks| then cell == None
    else ticks[s].Tick? && cell.Some? && cell.value.since == ticks[s].now
         && cell.value.status == if HeldFor(ticks, s, wait) then Firing else Pending
  }

  lemma DebounceStep(start: Option<TargetState>, ticks: seq<Tick>, k: StateKey, wait: int)
    requires ticks != [] && ValidRun(ticks) && RuleStays(ticks, k, wait) && ClockRuns(ticks)
    requires Debounced(Front(ticks), k, wait, Active(StoredFrom(start, Front(ticks), k)))
    ensures Debounced(ticks, k, wait, Active(StoredFrom(start, ticks, k)))
  {
    var t := Last(ticks);
    var cell := Active(StoredFrom(start, Front(ticks), k));
    HealthOnly(t, cell, k);
    RunStartIsFirst(Front(ticks), k);
    RunStartIsFirst(ticks, k);
    var s := RunStart(ticks, k);
    if MatchedAt(t, k) && s < |ticks| - 1 {
      assert Front(ticks)[s] == ticks[s];
      assert Last(Front(ticks)) == ticks[|ticks| - 2];
      assert ticks[|ticks| - 2].now <= t.now;
    }
  }

  lemma {:induction false} DebounceInvariant(start: Option<TargetState>, ticks: seq<Tick>, k: StateKey, wait: int)
    requires ValidRun(ticks) && RuleStays(ticks, k, wait) && ClockRuns(ticks) && wait >= 0 && Active(start) == None
    ensures Debounced(ticks, k, wait, Active(StoredFrom(start, ticks, k)))
  {
    if ticks != [] {
      assert ValidRun(Front(ticks)) && RuleStays(Front(ticks), k, wait) && ClockRuns(Front(ticks));
      DebounceInvariant(start, Front(ticks), k, wait);
      DebounceStep(start, ticks, k, wait);
    }
  }

  /** From any table whose row for the key is absent or ok: a key fires exactly
      when it has matched at every tick since some earlier tick at least `wait`
      ago; it is pending when it matches but not for that long yet; otherwise it
      has no active state. */
  lemma DebounceEqualsHistory(start: Option<TargetState>, ticks: seq<Tick>, k: StateKey, wait: int)
    requires Active(start) == None
    requires ticks != [] && ValidRun(ticks) && RuleStays(ticks, k, wait) && ClockRuns(ticks)
    ensures var status := StatusOf(StoredFrom(start, ticks, k));
            && (status == Firing <==> MatchedLongEnough(ticks, k, wait))
            && (status == Pending <==> MatchedAt(Last(ticks), k) && !MatchedLongEnough(ticks, k, wait))
  {
    WaitIsNatural(ticks, k, wait);
    DebounceInvariant(start, ticks, k, wait);
    RunStartIsFirst(ticks, k);
    var s := RunStart(ticks, k);
    forall r | MatchedSince(ticks, k, r) && HeldFor(ticks, r, wait)
        ensures MatchedSince(ticks, k, s) && HeldFor(ticks, s, wait) {
      assert ticks[s].now <= ticks[r].now;
    }
    if s < |ticks| {
      assert MatchedAt(ticks[|ticks| - 1], k);
    }
  }

  lemma {:induction false} StoredSplits(before: seq<Tick>, ticks: seq<Tick>, k: StateKey)
    ensures StoredAfter(before + ticks, k) == StoredFrom(StoredAfter(before, k), ticks, k)
  {
    if ticks == [] {
      assert before + ticks == before;
    } else {
      StoredSplits(before, Front(ticks), k);
      assert Front(before + ticks) == before + Front(ticks);
    }
  }

  /** So the history may begin after any run that left the key inactive, such as
      the ticks before its rule was configured. */
  lemma DebounceAfter(before: seq<Tick>, ticks: seq<Tick>, k: StateKey, wait: int)
    requires Active(StoredAfter(before, k)) == None
    requires ticks != [] && ValidRun(ticks) && RuleStays(ticks, k, wait) && ClockRuns(ticks)
    ensures var status := StatusOf(StoredAfter(before + ticks, k));
            && (status == Firing <==> MatchedLongEnough(ticks, k, wait))
            && (status == Pending <==> MatchedAt(Last(ticks), k) && !MatchedLongEnough(ticks, k, wait))
  {
    StoredSplits(before, ticks, k);
    DebounceEqualsHistory(StoredAfter(before, k), ticks, k, wait);
  }

  lemma WaitIsNatural(ticks: seq<Tick>, k: StateKey, wait: int)
    requires ticks != [] && ValidRun(ticks) && RuleStays(ticks, k, wait)
    ensures wait >= 0
  {
    var t := ticks[0];
    assert ValidTick(t);
    var i :| 0 <= i < |t.cfg| && t.cfg[i] == RuleNamed(t.cfg, k.rule).value;
  }

  // -------------------------------------------------------------- alternation

  function Kinds(notes: seq<Notification>): (ks: seq<Kind>)
    ensures |ks| == |notes|
    ensures forall i :: 0 <= i < |ks| ==> ks[i] == notes[i].kind
  {
    seq(|notes|, i requires 0 <= i < |notes| => notes[i].kind)
  }

  ghost predicate Alternates(ks: seq<Kind>) {
    forall i :: 0 <= i < |ks| ==> ks[i] == if i % 2 == 0 then Fired else Resolved
  }

  /** The tick keeps the key's alert in hand: it is skipped, it still has the
      rule or the budget, or the budgets are on but their usage failed. */
  predicate Keeps(t: Tick, k: StateKey) {
    || t.Skipped?
    || RuleNamed(t.cfg, k.rule).Some?
    || (t.ai.On? && OwnerOf(t.ai.budgets, k).Some?)
    || (t.ai.On? && t.ai.budgets != [] && t.ai.usage.None? && IsAi(k))
  }

  predicate Fires(cell: Option<TargetState>) { StatusOf(cell) == Firing }

  /** A tick that keeps the key reports every change of firing, once. */
  lemma KeptKeysReport(t: Tick, cell: Option<TargetState>, k: StateKey)
    requires t.Tick? && ValidTick(t) && Keeps(t, k)
    ensures var before, after := Fires(cell), Fires(TickCell(t, cell, k));
            Kinds(TickNotes(t, cell, k)) == if before == after then [] else if after then [Fired] else [Resolved]
  {
    if RuleNamed(t.cfg, k.rule).Some? {
      HealthOnly(t, cell, k);
    } else {
      assert EvalNotes(t.cfg, t.targets, cell, t.now, k) == [];
      if t.ai.On? && t.ai.usage.Some? && OwnerOf(t.ai.budgets, k).Some? {
        var (b, over) := OwnerOf(t.ai.budgets, k).value;
        var i :| 0 <= i < |t.ai.budgets| && t.ai.budgets[i] == b;
        assert b.Limit() > 0.0;
      } else {
        if t.ai.On? && OwnerOf(t.ai.budgets, k).Some? { OwnedKeysAreAi(t.ai.budgets, k); }
      }
    }
  }

  /** A firing key goes quiet without a resolve exactly when the tick no longer
      keeps it: the rule or budget has left the configuration. */
  lemma SilentDropIffNotKept(t: Tick, cell: Option<TargetState>, k: StateKey)
    requires t.Tick? && ValidTick(t) && Fires(cell)
    ensures !Fires(TickCell(t, cell, k)) && TickNotes(t, cell, k) == [] <==> !Keeps(t, k)
  {
    if Keeps(t, k) { KeptKeysReport(t, cell, k); }
  }

  lemma KindsConcat(a: seq<Notification>, b: seq<Notification>)
    ensures Kinds(a + b) == Kinds(a) + Kinds(b)
  {
  }

  lemma AlternatesSnoc(ks: seq<Kind>, more: seq<Kind>)
    requires Alternates(ks) && |more| <= 1
    requires more != [] ==> more[0] == if |ks| % 2 == 0 then Fired else Resolved
    ensures Alternates(ks + more)
  {
  }

  /** The key's notifications so far go fired, resolved, fired and so on, and its
      stored row fires exactly when the last one was fired. */
  ghost predicate InStep(ticks: seq<Tick>, k: StateKey) {
    var ks := Kinds(NotesAfter(ticks, k));
    Alternates(ks) && (Fires(StoredAfter(ticks, k)) <==> |ks| % 2 == 1)
  }

  ghost predicate AlwaysInStep(ticks: seq<Tick>, k: StateKey) {
    InStep(ticks, k) && (ticks != [] ==> AlwaysInStep(Front(ticks), k))
  }

  /** No tick that finds the key firing drops its rule or budget. */
  predicate KeptWhileFiring(ticks: seq<Tick>, k: StateKey) {
    ticks != [] ==>
      && KeptWhileFiring(Front(ticks), k)
      && (Last(ticks).Tick? && Fires(StoredAfter(Front(ticks), k)) ==> Keeps(Last(ticks), k))
  }

  /** A tick that does not keep a quiet key leaves it quiet. */
  lemma QuietStaysQuiet(t: Tick, cell: Option<TargetState>, k: StateKey)
    requires t.Tick? && ValidTick(t) && !Keeps(t, k) && !Fires(cell)
    ensures !Fires(TickCell(t, cell, k)) && TickNotes(t, cell, k) == []
  {
  }

  lemma TickAppends(ticks: seq<Tick>, k: StateKey)
    requires ticks != [] && Last(ticks).Tick?
    ensures var t, cell := Last(ticks), Active(StoredAfter(Front(ticks), k));
            && Kinds(NotesAfter(ticks, k)) == Kinds(NotesAfter(Front(ticks), k)) + Kinds(TickNotes(t, cell, k))
            && Fires(StoredAfter(ticks, k)) == Fires(TickCell(t, cell, k))
            && Fires(StoredAfter(Front(ticks), k)) == Fires(cell)
  {
    var t, cell := Last(ticks), Active(StoredAfter(Front(ticks), k));
    KindsConcat(NotesAfter(Front(ticks), k), TickNotes(t, cell, k));
    assert NotesAfter(ticks, k) == NotesAfter(Front(ticks), k) + TickNotes(t, cell, k);
  }

  /** One tick, exactly. */
  lemma StepInStepIff(ticks: seq<Tick>, k: StateKey)
    requires ticks != [] && ValidTick(Last(ticks)) && InStep(Front(ticks), k)
    ensures InStep(ticks, k) <==> (Last(ticks).Tick? && Fires(StoredAfter(Front(ticks), k)) ==> Keeps(Last(ticks), k))
  {
    var t := Last(ticks);
    if t.Tick? {
      var cell := Active(StoredAfter(Front(ticks), k));
      var past, more := Kinds(NotesAfter(Front(ticks), k)), Kinds(TickNotes(t, cell, k));
      TickAppends(ticks, k);
      if Keeps(t, k) {
        KeptKeysReport(t, cell, k);
        AlternatesSnoc(past, more);
      } else if Fires(cell) {
        SilentDropIffNotKept(t, cell, k);
        assert past + more == past;
      } else {
        QuietStaysQuiet(t, cell, k);
        assert past + more == past;
      }
    } else {
      assert NotesAfter(ticks, k) == NotesAfter(Front(ticks), k);
    }
  }

  /** On every run of valid ticks: a key's notifications alternate, starting with
      fired, and its row fires exactly when the last one was fired, at every
      moment of the run, if and only if no tick that finds the key firing drops
      its rule or budget. Vanished targets, skipped ticks, failed usage
      computations and keys configured late or dropped while quiet do no harm. */
  lemma {:induction false} NotificationsAlternateIff(ticks: seq<Tick>, k: StateKey)
    requires ValidRun(ticks)
    ensures AlwaysInStep(ticks, k) <==> KeptWhileFiring(ticks, k)
  {
    if ticks != [] {
      assert ValidRun(Front(ticks));
      NotificationsAlternateIff(Front(ticks), k);
      if AlwaysInStep(Front(ticks), k) {
        assert InStep(Front(ticks), k);
        StepInStepIff(ticks, k);
      }
    }
  }

  /** In particular while the rule or budget stays configured throughout. */
  lemma NotificationsAlternate(ticks: seq<Tick>, k: StateKey)
    requires ValidRun(ticks) && forall i :: 0 <= i < |ticks| ==> Keeps(ticks[i], k)
    ensures AlwaysInStep(ticks, k)
  {
    KeptThroughout(ticks, k);
    NotificationsAlternateIff(ticks, k);
  }

  lemma {:induction false} KeptThroughout(ticks: seq<Tick>, k: StateKey)
    requires forall i :: 0 <= i < |ticks| ==> Keeps(ticks[i], k)
    ensures KeptWhileFiring(ticks, k)
  {
    if ticks != [] {
      assert Keeps(ticks[|ticks| - 1], k);
      forall i | 0 <= i < |Front(ticks)| ensures Keeps(Front(ticks)[i], k) { assert Keeps(ticks[i], k); }
      KeptThroughout(Front(ticks), k);
    }
  }

  function Service(rule: string): Config {
    [Rule(rule, Selector([], ["s"], [], []), "down", 0, "channel")]
  }

  function DownTick(cfg: Config, now: int): Tick {
    Tick(cfg, map["service:s" := TargetInfo("down", "")], Off, (b, u, r, p) => "", now)
  }

  const R: StateKey := StateKey("r", "service:s")

  lemma OnTick(now: int, cell: Option<TargetState>)
    ensures var t := DownTick(Service("r"), now); var rule := Service("r")[0];
            && Keeps(t, R) && TickCell(t, cell, R) == NextCell(rule, cell, true, now)
            && TickNotes(t, cell, R) ==
               if StatusOf(cell) == Pending && now >= cell.value.since
               then [FireNote(rule, "service:s", TargetInfo("down", ""), now)] else []
  {
    var t := DownTick(Service("r"), now);
    assert "service:s"[..8] == "service:" && "service:s"[8..] == "s";
    assert "service:s"[0] == 's' && "group:"[0] == 'g';
    assert t.ai.Off?;
    assert RuleNamed(t.cfg, "r") == Some(t.cfg[0]);
    assert Matches(t.cfg[0], t.targets, "service:s");
  }

  lemma OffTick(now: int, cell: Option<TargetState>)
    ensures var t := DownTick([], now);
            !Keeps(t, R) && TickCell(t, cell, R) == None && TickNotes(t, cell, R) == []
  {
  }

  lemma OneMore(ticks: seq<Tick>, t: Tick, k: StateKey)
    requires t.Tick?
    ensures StoredAfter(ticks + [t], k) == SavedCell(t, StoredAfter(ticks, k), k)
    ensures Kinds(NotesAfter(ticks + [t], k)) ==
            Kinds(NotesAfter(ticks, k)) + Kinds(TickNotes(t, Active(StoredAfter(ticks, k)), k))
  {
    assert Front(ticks + [t]) == ticks;
    KindsConcat(NotesAfter(ticks, k), TickNotes(t, Active(StoredAfter(ticks, k)), k));
  }

  /** Five ticks; at the third the rule is gone. */
  function Interrupted(at: seq<int>): seq<Tick>
    requires |at| == 5
  {
    [On(at[0])] + [On(at[1])] + [DownTick([], at[2])] + [On(at[3])] + [On(at[4])]
  }

  function On(now: int): Tick { DownTick(Service("r"), now) }

  lemma PendsAtFirstTick(a: int)
    ensures StoredAfter([On(a)], R) == Some(TargetState(Pending, a, 0)) && Kinds(NotesAfter([On(a)], R)) == []
  {
    OnTick(a, None);
    OneMore([], On(a), R);
    assert [] + [On(a)] == [On(a)];
  }

  lemma FiresAtSecondTick(a: int, b: int)
    requires a < b
    ensures StoredAfter([On(a)] + [On(b)], R) == Some(TargetState(Firing, a, b))
    ensures Kinds(NotesAfter([On(a)] + [On(b)], R)) == [Fired]
  {
    PendsAtFirstTick(a);
    OnTick(b, Some(TargetState(Pending, a, 0)));
    OneMore([On(a)], On(b), R);
  }

  lemma DropsSilently(a: int, b: int, c: int)
    requires a < b < c
    ensures var ticks := [On(a)] + [On(b)] + [DownTick([], c)];
            StoredAfter(ticks, R) == Some(TargetState(Ok, c, b)) && Kinds(NotesAfter(ticks, R)) == [Fired]
  {
    FiresAtSecondTick(a, b);
    OffTick(c, Some(TargetState(Firing, a, b)));
    OneMore([On(a)] + [On(b)], DownTick([], c), R);
  }

  lemma RefiringPends(a: int, b: int, c: int, d: int)
    requires a < b < c < d
    ensures var ticks := [On(a)] + [On(b)] + [DownTick([], c)] + [On(d)];
            StoredAfter(ticks, R) == Some(TargetState(Pending, d, 0)) && Kinds(NotesAfter(ticks, R)) == [Fired]
  {
    DropsSilently(a, b, c);
    OnTick(d, None);
    OneMore([On(a)] + [On(b)] + [DownTick([], c)], On(d), R);
  }

  lemma FiresAgain(at: seq<int>)
    requires |at| == 5 && at[0] < at[1] < at[2] < at[3] < at[4]
    ensures Kinds(NotesAfter(Interrupted(at), R)) == [Fired, Fired]
  {
    RefiringPends(at[0], at[1], at[2], at[3]);
    OnTick(at[4], Some(TargetState(Pending, at[3], 0)));
    OneMore([On(at[0])] + [On(at[1])] + [DownTick([], at[2])] + [On(at[3])], On(at[4]), R);
  }

  lemma OnValid(now: int)
    ensures On(now).Tick? && ValidTick(On(now)) && On(now).now == now && Keeps(On(now), R)
  {
    OnTick(now, None);
  }

  lemma OffValid(now: int)
    ensures var t := DownTick([], now);
            t.Tick? && ValidTick(t) && t.now == now && !Keeps(t, R)
  {
  }

  lemma InterruptedAt(at: seq<int>, i: nat)
    requires |at| == 5 && i < 5
    ensures Interrupted(at)[i] == if i == 2 then DownTick([], at[2]) else On(at[i])
  {
  }

  /** A valid run at increasing times, of any spacing. Taking the rule out for one
      tick while it fires loses the resolve: the next firing is a second fired in
      a row. */
  lemma RemovedRuleBreaksAlternation(at: seq<int>)
    requires |at| == 5 && at[0] < at[1] < at[2] < at[3] < at[4]
    ensures ValidRun(Interrupted(at)) && ClockRuns(Interrupted(at))
    ensures forall i :: 0 <= i < 5 ==> (Keeps(Interrupted(at)[i], R) <==> i != 2)
    ensures Kinds(NotesAfter(Interrupted(at), R)) == [Fired, Fired]
  {
    FiresAgain(at);
    InterruptedValid(at);
  }

  lemma InterruptedValid(at: seq<int>)
    requires |at| == 5 && at[0] < at[1] < at[2] < at[3] < at[4]
    ensures ValidRun(Interrupted(at)) && ClockRuns(Interrupted(at))
    ensures forall i :: 0 <= i < 5 ==> (Keeps(Interrupted(at)[i], R) <==> i != 2)
  {
    var ticks := Interrupted(at);
    forall i | 0 <= i < 5 ensures ticks[i].Tick? && ValidTick(ticks[i]) && ticks[i].now == at[i] {
      InterruptedAt(at, i);
      OnValid(at[i]);
      OffValid(at[i]);
    }
    forall i | 0 <= i < 5 ensures Keeps(ticks[i], R) <==> i != 2 {
      InterruptedAt(at, i);
      OnValid(at[i]);
      OffValid(at[i]);
    }
  }

  // ------------------------------------------------------------- budget order

  function NamedKey(name: string, over: bool, target: string): StateKey {
    StateKey(PREFIX + name + if over then OVER_SUFFIX else WARN_SUFFIX, target)
  }

  /** An owner of the over key owns the warn key too, and the other way round. */
  lemma OwnersPair(budgets: seq<Budget>, name: string, over: bool, target: string)
    requires ValidBudgets(budgets) && OwnerOf(budgets, NamedKey(name, over, target)).Some?
    ensures var r := OwnerOf(budgets, NamedKey(name, over, target)).value;
            && r.1 == over && r.0.Limit() > 0.0 && r.0.WarnAt() < 1.0
            && OwnerOf(budgets, NamedKey(name, !over, target)) == Some((r.0, !over))
  {
    var k := NamedKey(name, over, target);
    var (b, o) := OwnerOf(budgets, k).value;
    var i :| 0 <= i < |budgets| && budgets[i] == b;
    WarnIsNotOver(name, b.name);
    WarnIsNotOver(b.name, name);
    NamesDiffer(b.name, name, if over then OVER_SUFFIX else WARN_SUFFIX);
    assert b.Key(!over) == NamedKey(name, !over, target);
    OwnerIs(budgets, i, !over);
  }

  lemma BudgetOrderStep(t: Tick, warn: Option<TargetState>, over: Option<TargetState>, name: string, target: string)
    requires t.Tick? && ValidTick(t) && (Fires(over) ==> Fires(warn))
    ensures Fires(TickCell(t, over, NamedKey(name, true, target)))
            ==> Fires(TickCell(t, warn, NamedKey(name, false, target)))
  {
    var o, w := NamedKey(name, true, target), NamedKey(name, false, target);
    assert IsAi(o) && IsAi(w) by { assert o.rule[..3] == PREFIX && w.rule[..3] == PREFIX; }
    assert RuleNamed(t.cfg, o.rule).None? && RuleNamed(t.cfg, w.rule).None? by {
      NoRuleIsAi(t, o);
      NoRuleIsAi(t, w);
    }
    if t.ai.On? && t.ai.usage.Some? && OwnerOf(t.ai.budgets, o).Some? {
      OwnersPair(t.ai.budgets, name, true, target);
    }
  }

  lemma RulesAreNotAi(t: Tick)
    requires t.Tick? && ValidTick(t)
    ensures forall r :: r in t.cfg ==> !HasPrefix(r.name, PREFIX)
  {
  }

  lemma NoRuleIsAi(t: Tick, k: StateKey)
    requires t.Tick? && ValidTick(t) && IsAi(k)
    ensures RuleNamed(t.cfg, k.rule).None?
  {
    RulesAreNotAi(t);
  }

  /** In every reachable stored state, a budget whose over rule fires for a
      target has its warn rule firing for that target too: across failures,
      removals, and any sequence of valid configurations. */
  lemma {:induction false} BudgetOrderKept(ticks: seq<Tick>, name: string, target: string)
    requires ValidRun(ticks)
    ensures Fires(StoredAfter(ticks, NamedKey(name, true, target)))
            ==> Fires(StoredAfter(ticks, NamedKey(name, false, target)))
  {
    if ticks != [] {
      assert ValidRun(Front(ticks));
      BudgetOrderKept(Front(ticks), name, target);
      if Last(ticks).Tick? {
        var o, w := NamedKey(name, true, target), NamedKey(name, false, target);
        BudgetOrderStep(Last(ticks), Active(StoredAfter(Front(ticks), w)), Active(StoredAfter(Front(ticks), o)), name,
            target);
      }
    }
  }

  /** A failed usage computation leaves a firing budget row exactly as it was,
      and reports nothing, while any budget is configured. */
  lemma UsageFailureKeepsFiring(t: Tick, stored: Option<TargetState>, k: StateKey)
    requires t.Tick? && ValidTick(t) && t.ai.On? && t.ai.budgets != [] && t.ai.usage.None? && IsAi(k) && Fires(stored)
    ensures SavedCell(t, stored, k) == stored && TickNotes(t, Active(stored), k) == []
  {
    NoRuleIsAi(t, k);
  }

  /** With usage computed, a configured budget's rule fires exactly when the
      spend has crossed its threshold. */
  lemma BudgetFiresIffCrossed(t: Tick, stored: Option<TargetState>, i: nat, over: bool)
    requires t.Tick? && ValidTick(t) && t.ai.On? && t.ai.usage.Some? && i < |t.ai.budgets|
    ensures var b := t.ai.budgets[i];
            b.Limit() > 0.0 && (Fires(SavedCell(t, stored, b.Key(over))) <==> Crossed(b, over, t.ai.usage.value))
  {
    var b := t.ai.budgets[i];
    OwnerIs(t.ai.budgets, i, over);
    OwnedKeysAreAi(t.ai.budgets, b.Key(over));
    NoRuleIsAi(t, b.Key(over));
    assert TickCell(t, Active(stored), b.Key(over))
           == BudgetCell(Active(stored), Crossed(b, over, t.ai.usage.value), t.now);
  }

  /** Crossing means the spend has reached that share of the limit. */
  lemma CrossedMeansShare(b: Budget, over: bool, u: Usage)
    requires b.Limit() > 0.0
    ensures Crossed(b, over, u) <==> u.Used(b).0 >= (if over then 1.0 else b.WarnAt()) * b.Limit()
  {
    var used, limit, share := u.Used(b).0, b.Limit(), if over then 1.0 else b.WarnAt();
    RatioMeansShare(used, limit, share);
  }

  lemma RatioMeansShare(used: real, limit: real, share: real)
    requires limit > 0.0
    ensures used / limit >= share <==> used >= share * limit
  {
    var q := used / limit;
    assert q * limit == used;
    ProductOrder(q, share, limit);
  }

  lemma ProductOrder(a: real, b: real, m: real)
    requires m > 0.0
    ensures a >= b <==> a * m >= b * m
  {
    if a >= b { assert (a - b) * m >= 0.0; } else { assert (b - a) * m > 0.0; }
  }
}
