/** The month-to-date usage as the alerting tick sees it: recomputed at most
    once per interval and tenant. */
module UsageCache {
  import opened Alerting
  import opened Budgets

  datatype Entry = Entry(at: int, used: Usage)

  /** One call: whose usage, when, how long an entry lasts, and what computing
      it would give (None when that fails). */
  datatype Call = Call(tenant: string, now: int, interval: int, computed: Option<Usage>)

  predicate Serves(entries: map<string, Entry>, c: Call) {
    c.tenant in entries && c.interval > 0 && c.now - entries[c.tenant].at < c.interval
  }

  function Answer(entries: map<string, Entry>, c: Call): Option<Usage> {
    if Serves(entries, c) then Some(entries[c.tenant].used) else c.computed
  }

  function Updated(entries: map<string, Entry>, c: Call): map<string, Entry> {
    if Serves(entries, c) || c.computed.None? then entries else entries[c.tenant := Entry(c.now, c.computed.value)]
  }

  class Cache {
    var entries: map<string, Entry>

    constructor ()
      ensures entries == After([])
    {
      entries := map[];
    }

    /** A failed computation is answered with nothing and keeps the entry. */
    method GetUsage(c: Call) returns (used: Option<Usage>)
      modifies this
      ensures used == Answer(old(entries), c) && entries == Updated(old(entries), c)
    {
      if c.tenant in entries && c.interval > 0 && c.now - entries[c.tenant].at < c.interval {
        return Some(entries[c.tenant].used);
      }
      if c.computed.None? { return None; }
      entries := entries[c.tenant := Entry(c.now, c.computed.value)];
      used := c.computed;
    }
  }

  function After(calls: seq<Call>): map<string, Entry> {
    if calls == [] then map[] else Updated(After(calls[..|calls| - 1]), calls[|calls| - 1])
  }

  /** Some call for this tenant computed this usage at `at`. */
  predicate Computed(calls: seq<Call>, tenant: string, used: Usage, at: int) {
    exists i :: 0 <= i < |calls| && calls[i].tenant == tenant && calls[i].now == at && calls[i].computed == Some(used)
  }

  lemma ComputedGrows(calls: seq<Call>, c: Call, tenant: string, used: Usage, at: int)
    ensures Computed(calls, tenant, used, at) ==> Computed(calls + [c], tenant, used, at)
    ensures c.tenant == tenant && c.now == at && c.computed == Some(used) ==> Computed(calls + [c], tenant, used, at)
  {
    var more := calls + [c];
    assert more[|calls|] == c;
    if Computed(calls, tenant, used, at) {
      var i :| 0 <= i < |calls| && calls[i].tenant == tenant && calls[i].now == at && calls[i].computed == Some(used);
      assert more[i] == calls[i];
    }
  }

  lemma {:induction false} EntriesWereComputed(calls: seq<Call>, tenant: string)
    ensures tenant in After(calls) ==> Computed(calls, tenant, After(calls)[tenant].used, After(calls)[tenant].at)
  {
    if calls != [] {
      var front, c := calls[..|calls| - 1], calls[|calls| - 1];
      EntriesWereComputed(front, tenant);
      assert calls == front + [c];
      if tenant in After(calls) {
        ComputedGrows(front, c, tenant, After(calls)[tenant].used, After(calls)[tenant].at);
      }
    }
  }

  /** Over every sequence of calls, a tenant is answered only with its own
      usage, computed now or less than one interval before. */
  lemma AnswersAreOwnAndRecent(calls: seq<Call>, c: Call)
    requires Answer(After(calls), c).Some?
    ensures exists at ::
              Computed(calls + [c], c.tenant, Answer(After(calls), c).value, at)
              && (at == c.now || c.now - at < c.interval)
  {
    var used := Answer(After(calls), c).value;
    var at := if Serves(After(calls), c) then After(calls)[c.tenant].at else c.now;
    EntriesWereComputed(calls, c.tenant);
    ComputedGrows(calls, c, c.tenant, used, at);
    assert Computed(calls + [c], c.tenant, used, at);
  }

  /** One computation is enough for its whole interval: usage computed when no
      answer for the tenant was young enough answers every later call of the tenant
      within the interval, whatever is computed or fails meanwhile, for this tenant
      or another. */
  lemma {:induction false} ComputedOncePerInterval(before: seq<Call>, c: Call, more: seq<Call>, d: Call)
    requires c.computed.Some? && d.tenant == c.tenant
    requires forall i :: 0 <= i < |before| && before[i].tenant == c.tenant ==>
               c.interval <= 0 || c.now - before[i].now >= c.interval
    requires forall e :: e in more + [d] && e.tenant == c.tenant ==> e.interval > 0 && e.now - c.now < e.interval
    ensures Answer(After(before + [c] + more), d) == c.computed
  {
    EntryStays(before, c, more);
    assert d in more + [d];
  }

  lemma {:induction false} EntryStays(before: seq<Call>, c: Call, more: seq<Call>)
    requires c.computed.Some?
    requires forall i :: 0 <= i < |before| && before[i].tenant == c.tenant ==>
               c.interval <= 0 || c.now - before[i].now >= c.interval
    requires forall e :: e in more && e.tenant == c.tenant ==> e.interval > 0 && e.now - c.now < e.interval
    ensures var entries := After(before + [c] + more);
            c.tenant in entries && entries[c.tenant] == Entry(c.now, c.computed.value)
  {
    if more == [] {
      assert before + [c] + more == before + [c] && (before + [c])[..|before|] == before;
      EntriesWereComputed(before, c.tenant);
    } else {
      var n := |more| - 1;
      EntryStays(before, c, more[..n]);
      assert (before + [c] + more)[..|before| + 1 + n] == before + [c] + more[..n];
      assert more[n] in more;
    }
  }
}
