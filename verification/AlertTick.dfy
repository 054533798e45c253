/** One alerting tick end to end: load the stored state, evaluate health rules
    and budgets, merge, and write the difference back to a table in which the
    latest row of a key wins. Store writes are taken to succeed. */
module AlertTick {
  import opened Alerting
  import opened Budgets

  datatype Row = Row(key: StateKey, state: TargetState)

  /** The budget half of a tick: the module off, or the configured budgets with
      the month's usage, which may have failed to compute. */
  datatype AiInput = Off | On(budgets: seq<Budget>, usage: Option<Usage>)

  /** A tick whose health or state could not be read does nothing. */
  datatype Tick = Skipped | Tick(cfg: Config, targets: Targets, ai: AiInput, describe: Describe, now: int)

  predicate IsAi(k: StateKey) { HasPrefix(k.rule, PREFIX) }

  /** Valid configurations, and no health rule inside the budgets' namespace. */
  ghost predicate ValidTick(t: Tick) {
    t.Tick? ==>
      && Valid(t.cfg) && (t.ai.On? ==> ValidBudgets(t.ai.budgets))
      && forall i :: 0 <= i < |t.cfg| ==> !HasPrefix(t.cfg[i].name, PREFIX)
  }

  /** The stored cell as a load sees it: ok rows are not returned. */
  function Active(cell: Option<TargetState>): Option<TargetState> {
    if StatusOf(cell) == Ok then None else cell
  }

  function AiCell(t: Tick, cell: Option<TargetState>, k: StateKey): Option<TargetState>
    requires t.Tick?
  {
    if t.ai.Off? || t.ai.budgets == [] then None
    else match t.ai.usage
      case None => if IsAi(k) then cell else None
      case Some(u) => BudgetsCell(t.ai.budgets, u, cell, t.now, k)
  }

  function AiNotes(t: Tick, cell: Option<TargetState>, k: StateKey): seq<Notification>
    requires t.Tick?
  {
    if t.ai.Off? || t.ai.budgets == [] || t.ai.usage.None? then []
    else BudgetsNotes(t.ai.budgets, t.ai.usage.value, t.describe, cell, t.now, k)
  }

  /** The next in-memory cell. A key the health rules produced is not touched by
      the budget merge. */
  function TickCell(t: Tick, cell: Option<TargetState>, k: StateKey): Option<TargetState>
    requires t.Tick?
  {
    var health := EvalCell(t.cfg, t.targets, cell, t.now, k);
    if health.Some? then health else AiCell(t, cell, k)
  }

  function TickNotes(t: Tick, cell: Option<TargetState>, k: StateKey): seq<Notification>
    requires t.Tick?
  {
    EvalNotes(t.cfg, t.targets, cell, t.now, k) + AiNotes(t, cell, k)
  }

  /** What a key's stored row becomes in one tick. */
  function SavedCell(t: Tick, stored: Option<TargetState>, k: StateKey): Option<TargetState> {
    if t.Skipped? then stored
    else
      var prev := Active(stored);
      var next := TickCell(t, prev, k);
      if next.Some? then next
      else if prev.Some? then Some(TargetState(Ok, t.now, prev.value.lastNotified))
      else stored
  }

  // ---------------------------------------------------- the tick, imperatively

  /** The last row for `k`, which is the one that counts. */
  function LastRow(rows: seq<Row>, k: StateKey): Option<TargetState> {
    if rows == [] then None
    else if rows[|rows| - 1].key == k then Some(rows[|rows| - 1].state)
    else LastRow(rows[..|rows| - 1], k)
  }

  lemma LastRowSnoc(rows: seq<Row>, r: Row, k: StateKey)
    ensures LastRow(rows + [r], k) == if r.key == k then Some(r.state) else LastRow(rows, k)
  {
    assert (rows + [r])[..|rows|] == rows;
  }

  method ToEvalState(rows: seq<Row>) returns (st: State)
    ensures forall k :: Get(st, k) == LastRow(rows, k)
  {
    st := map[];
    for i := 0 to |rows|
      invariant forall k :: Get(st, k) == LastRow(rows[..i], k)
    {
      st := st[rows[i].key := rows[i].state];
      assert rows[..i + 1] == rows[..i] + [rows[i]];
      forall k ensures Get(st, k) == LastRow(rows[..i + 1], k) { LastRowSnoc(rows[..i], rows[i], k); }
    }
    assert rows[..|rows|] == rows;
  }

  /** The next state, plus an explicit ok row for every key that went away. */
  method DiffToSave(prev: State, next: State, now: int) returns (out: seq<Row>)
    ensures forall k :: LastRow(out, k) ==
              if k in next then Some(next[k])
              else if k in prev then Some(TargetState(Ok, now, prev[k].lastNotified)) else None
  {
    out := [];
    var pending := next.Keys;
    while pending != {}
      invariant pending <= next.Keys
      invariant forall k :: LastRow(out, k) == if k in next && k !in pending then Some(next[k]) else None
      decreases pending
    {
      var k :| k in pending;
      forall q ensures LastRow(out + [Row(k, next[k])], q) == if q == k then Some(next[k]) else LastRow(out, q) {
        LastRowSnoc(out, Row(k, next[k]), q);
      }
      out := out + [Row(k, next[k])];
      pending := pending - {k};
    }
    pending := prev.Keys;
    while pending != {}
      invariant pending <= prev.Keys
      invariant forall k :: LastRow(out, k) ==
                  if k in next then Some(next[k])
                  else if k in prev && k !in pending then Some(TargetState(Ok, now, prev[k].lastNotified)) else None
      decreases pending
    {
      var k :| k in pending;
      if k !in next {
        var r := Row(k, TargetState(Ok, now, prev[k].lastNotified));
        forall q ensures LastRow(out + [r], q) == if q == k then Some(r.state) else LastRow(out, q) {
          LastRowSnoc(out, r, q);
        }
        out := out + [r];
      }
      pending := pending - {k};
    }
  }

  /** Adds a budget key unless the health path already set it. */
  method MergeAiKeys(next0: State, extra: State) returns (next: State)
    ensures forall k :: Get(next, k) == if k in next0 then Some(next0[k]) else Get(extra, k)
  {
    next := next0;
    var pending := extra.Keys;
    while pending != {}
      invariant pending <= extra.Keys
      invariant forall k :: Get(next, k) ==
                  if k in next0 then Some(next0[k]) else if k in pending then None else Get(extra, k)
      decreases pending
    {
      var k :| k in pending;
      if k !in next { next := next[k := extra[k]]; }
      pending := pending - {k};
    }
  }

  method EvalAiBudgets(ghost t: Tick, ai: AiInput, describe: Describe, prev: State, next0: State,
      notes0: seq<Notification>, now: int)
    returns (next: State, notes: seq<Notification>)
    requires t.Tick? && t.ai == ai && t.describe == describe && t.now == now && (ai.On? ==> ValidBudgets(ai.budgets))
    ensures forall k :: Get(next, k) == if k in next0 then Some(next0[k]) else AiCell(t, Get(prev, k), k)
    ensures forall k :: NotesFor(notes, k) == NotesFor(notes0, k) + AiNotes(t, Get(prev, k), k)
  {
    if ai.Off? { return next0, notes0; }
    if ai.budgets == [] { return next0, notes0; }
    if ai.usage.None? {
      var carried := map k | k in prev && HasPrefix(k.rule, PREFIX) :: prev[k];
      next := MergeAiKeys(next0, carried);
      notes := notes0;
    } else {
      var aNext, aNotes := EvaluateBudgets(ai.budgets, ai.usage.value, describe, prev, now);
      next := MergeAiKeys(next0, aNext);
      notes := notes0 + aNotes;
      forall k ensures Get(next, k) == (if k in next0 then Some(next0[k]) else AiCell(t, Get(prev, k), k))
                    && NotesFor(notes, k) == NotesFor(notes0, k) + AiNotes(t, Get(prev, k), k) {
        assert BudgetsDone(ai.budgets, ai.usage.value, describe, prev, now, aNext, aNotes, k);
        NotesForConcat(notes0, aNotes, k);
      }
    }
  }

  /** The alert_state table of one tenant. */
  class AlertTable {
    var rows: map<StateKey, TargetState>

    constructor ()
      ensures rows == map[]
    {
      rows := map[];
    }

    /** The newest row of every key, ok rows left out. */
    method Load() returns (out: seq<Row>)
      ensures forall k :: LastRow(out, k) == Active(Get(rows, k))
    {
      out := [];
      var pending := rows.Keys;
      while pending != {}
        invariant pending <= rows.Keys
        invariant forall k :: LastRow(out, k) == if k in pending then None else Active(Get(rows, k))
        decreases pending
      {
        var k :| k in pending;
        if rows[k].status != Ok {
          forall q ensures LastRow(out + [Row(k, rows[k])], q) == if q == k then Some(rows[k]) else LastRow(out, q) {
            LastRowSnoc(out, Row(k, rows[k]), q);
          }
          out := out + [Row(k, rows[k])];
        }
        pending := pending - {k};
      }
    }

    method Save(states: seq<Row>)
      modifies this
      ensures forall k :: Get(rows, k) ==
                if LastRow(states, k).Some? then LastRow(states, k) else Get(old(rows), k)
    {
      for i := 0 to |states|
        invariant forall k :: Get(rows, k) ==
                    if LastRow(states[..i], k).Some? then LastRow(states[..i], k) else Get(old(rows), k)
      {
        rows := rows[states[i].key := states[i].state];
        assert states[..i + 1] == states[..i] + [states[i]];
        forall k ensures LastRow(states[..i + 1], k) == if states[i].key == k then Some(states[i].state)
            else LastRow(states[..i], k) {
          LastRowSnoc(states[..i], states[i], k);
        }
      }
      assert states[..|states|] == states;
    }

    /** evaluateOnce for this tenant. */
    method EvaluateOnce(t: Tick) returns (notes: seq<Notification>)
      requires ValidTick(t)
      modifies this
      ensures forall k :: Get(rows, k) == SavedCell(t, Get(old(rows), k), k)
      ensures forall k :: NotesFor(notes, k) == if t.Tick? then TickNotes(t, Active(Get(old(rows), k)), k) else []
    {
      if t.Skipped? { return []; }
      var loaded := Load();
      var prev := ToEvalState(loaded);
      var next;
      next, notes := Evaluate(t.cfg, t.targets, prev, t.now);
      ghost var health := next;
      next, notes := EvalAiBudgets(t, t.ai, t.describe, prev, next, notes, t.now);
      var diff := DiffToSave(prev, next, t.now);
      Save(diff);
      forall k ensures Get(rows, k) == SavedCell(t, Get(old(rows), k), k) {
        assert Get(prev, k) == Active(Get(old(rows), k));
        assert Get(health, k) == EvalCell(t.cfg, t.targets, Get(prev, k), t.now, k);
        assert Get(next, k) == TickCell(t, Get(prev, k), k);
      }
    }

    /** The evaluator loop: a table that starts empty, tick after tick. */
    method RunEvaluator(ticks: seq<Tick>) returns (notes: seq<Notification>)
      requires rows == map[] && forall i :: 0 <= i < |ticks| ==> ValidTick(ticks[i])
      modifies this
      ensures forall k :: Get(rows, k) == StoredAfter(ticks, k) && NotesFor(notes, k) == NotesAfter(ticks, k)
    {
      notes := [];
      for i := 0 to |ticks|
        invariant forall k ::
                    Get(rows, k) == StoredAfter(ticks[..i], k) && NotesFor(notes, k) == NotesAfter(ticks[..i], k)
      {
        var more := EvaluateOnce(ticks[i]);
        assert ticks[..i + 1][..i] == ticks[..i];
        forall k ensures NotesFor(notes + more, k) == NotesFor(notes, k) + NotesFor(more, k) {
          NotesForConcat(notes, more, k);
        }
        notes := notes + more;
      }
      assert ticks[..|ticks|] == ticks;
    }
  }

  // --------------------------------------------------------------- whole runs

  /** A key's stored row after a run of ticks from an empty table. */
  function StoredAfter(ticks: seq<Tick>, k: StateKey): Option<TargetState> {
    if ticks == [] then None
    else SavedCell(ticks[|ticks| - 1], StoredAfter(ticks[..|ticks| - 1], k), k)
  }

  /** The same from a table whose row for the key is `start`. */
  function StoredFrom(start: Option<TargetState>, ticks: seq<Tick>, k: StateKey): Option<TargetState> {
    if ticks == [] then start
    else SavedCell(ticks[|ticks| - 1], StoredFrom(start, ticks[..|ticks| - 1], k), k)
  }

  /** All notifications about a key over a run. */
  function NotesAfter(ticks: seq<Tick>, k: StateKey): seq<Notification> {
    if ticks == [] then []
    else
      var before, t := ticks[..|ticks| - 1], ticks[|ticks| - 1];
      NotesAfter(before, k) + if t.Tick? then TickNotes(t, Active(StoredAfter(before, k)), k) else []
  }

  /** The same run kept in memory only: each tick's `next` is the next `prev`. */
  function MemoryAfter(ticks: seq<Tick>, k: StateKey): Option<TargetState> {
    if ticks == [] then None
    else
      var before, t := ticks[..|ticks| - 1], ticks[|ticks| - 1];
      if t.Tick? then TickCell(t, MemoryAfter(before, k), k) else MemoryAfter(before, k)
  }
}
