/** The memoized project list: readers refill it from the store while holding
    its lock; every project write drops it once the row is stored. */
module ProjectMemo {
  import opened Projects

  const TTL: int := 30_000_000_000

  // ------------------------------------------------------------ memo in place

  datatype Listing = Listed(rows: Rows) | Failed

  /** The critical sections of one replica's memo. `fetched` is None for the
      zero time, which is older than any clock can tell. */
  class Memo {
    var projects: Rows
    var fetched: Option<int>

    constructor ()
      ensures fetched == None
    {
      projects, fetched := map[], None;
    }

    method Invalidate()
      modifies this
      ensures fetched == None && projects == old(projects)
    {
      fetched := None;
    }

    /** `before` and `after` are the clock around the store read, and `read` is
        what that read gives, should there be one. */
    method DbProjectsCached(before: int, read: Listing, after: int) returns (r: Listing)
      modifies this
      ensures if old(fetched).Some? && before - old(fetched).value < TTL
              then r == Listed(old(projects)) && projects == old(projects) && fetched == old(fetched)
              else r == read &&
                   if read.Failed? then projects == old(projects) && fetched == old(fetched)
                   else projects == read.rows && fetched == Some(after)
    {
      if fetched.Some? && before - fetched.value < TTL { return Listed(projects); }
      if read.Listed? { projects, fetched := read.rows, Some(after); }
      r := read;
    }
  }

  // ------------------------------------------------------------- interleaving

  /** A list that was read from the store: `began` counts the writes stored
      when the read began, `sees` those the snapshot it returned contains. */
  datatype Snapshot = Snapshot(began: nat, sees: nat, fetched: int)

  /** What one resolution got. */
  datatype Answer = Answer(list: Snapshot, at: int)

  /** `history` is the store after each write; `reading` is the reader holding
      the lock; `owing` are the writes stored but not yet invalidated here. */
  datatype State = State(
    history: seq<Rows>, memo: Option<Snapshot>, reading: Option<nat>,
    owing: set<nat>, settled: nat, answers: seq<Answer>, clock: int)

  const START: State := State([map[]], None, None, {}, 0, [], 0)

  /** Writes stored so far. */
  function Writes(s: State): nat
    requires s.history != []
  {
    |s.history| - 1
  }

  datatype Event =
    | StoreWrite(rows: Rows, local: bool, at: int)
    | Invalidate(write: nat, at: int)
    | Serve(at: int)
    | BeginRead(at: int)
    | EndRead(ok: bool, sees: nat, at: int)

  predicate MemoFresh(s: State, now: int) {
    s.memo.Some? && now - s.memo.value.fetched < TTL
  }

  /** The lock is free for whoever takes it, and held across a store read. */
  predicate Enabled(s: State, e: Event) {
    && s.history != [] && s.clock <= e.at
    && match e
       case StoreWrite(_, _, _) => true
       case Invalidate(write, _) => write in s.owing && s.reading == None
       case Serve(at) => s.reading == None && MemoFresh(s, at)
       case BeginRead(at) => s.reading == None && !MemoFresh(s, at)
       case EndRead(_, sees, _) => s.reading.Some? && s.reading.value <= sees <= Writes(s)
  }

  function Apply(s: State, e: Event): State
    requires Enabled(s, e)
  {
    match e
    case StoreWrite(rows, local, at) =>
      s.(history := s.history + [rows], owing := if local then s.owing + {Writes(s) + 1} else s.owing, clock := at)
    case Invalidate(write, at) =>
      s.(memo := None, owing := s.owing - {write}, settled := if write > s.settled then write else s.settled,
          clock := at)
    case Serve(at) => s.(answers := s.answers + [Answer(s.memo.value, at)], clock := at)
    case BeginRead(at) => s.(reading := Some(Writes(s)), clock := at)
    case EndRead(ok, sees, at) =>
      if !ok then s.(reading := None, clock := at)
      else
        var list := Snapshot(s.reading.value, sees, at);
        s.(reading := None, memo := Some(list), answers := s.answers + [Answer(list, at)], clock := at)
  }

  predicate IsRun(es: seq<Event>)
    decreases |es|, 0
  {
    es == [] || (IsRun(es[..|es| - 1]) && Enabled(After(es[..|es| - 1]), es[|es| - 1]))
  }

  function After(es: seq<Event>): State
    requires IsRun(es)
    decreases |es|, 1
  {
    if es == [] then START else Apply(After(es[..|es| - 1]), es[|es| - 1])
  }

  /** Nothing older than the settled writes is memoized or being read. */
  predicate Inv(s: State) {
    && s.history != [] && s.settled <= Writes(s)
    && (forall w :: w in s.owing ==> w <= Writes(s))
    && (s.memo.Some? ==>
          s.settled <= s.memo.value.began <= s.memo.value.sees <= Writes(s)
          && s.memo.value.fetched <= s.clock)
    && (s.reading.Some? ==> s.settled <= s.reading.value <= Writes(s))
  }

  lemma {:induction false} RunKeepsInv(es: seq<Event>)
    requires IsRun(es)
    ensures Inv(After(es))
  {
    if es != [] {
      RunKeepsInv(es[..|es| - 1]);
    }
  }

  lemma {:induction false} RunPrefix(es: seq<Event>, i: nat)
    requires IsRun(es) && i <= |es|
    ensures IsRun(es[..i])
    ensures After(es[..i]).settled <= After(es).settled && |After(es[..i]).history| <= |After(es).history|
    ensures After(es[..i]).answers <= After(es).answers
    ensures forall w :: 0 <= w < |After(es[..i]).history| ==> After(es).history[w] == After(es[..i]).history[w]
  {
    if i < |es| {
      RunPrefix(es[..|es| - 1], i);
      assert es[..|es| - 1][..i] == es[..i];
    } else {
      assert es[..i] == es;
    }
  }

  /** Answers given at moments when write `w` was settled rest on reads that
      began after it. */
  lemma {:induction false} AnswersSince(es: seq<Event>, i: nat, j: nat)
    requires IsRun(es) && i <= |es| && IsRun(es[..i])
    requires |After(es[..i]).answers| <= j < |After(es).answers|
    ensures var a := After(es).answers[j];
            After(es[..i]).settled <= a.list.began <= a.list.sees <= Writes(After(es)) && a.at - a.list.fetched < TTL
  {
    assert es[..|es|] == es;
    var front := es[..|es| - 1];
    assert front[..i] == es[..i];
    RunKeepsInv(front);
    RunPrefix(front, i);
    if j < |After(front).answers| {
      AnswersSince(front, i, j);
      assert After(es).answers[j] == After(front).answers[j];
      assert |After(es).history| >= |After(front).history|;
    }
  }

  /** Read your writes: once a project write has invalidated the memo, every
      later resolution on this replica uses a list whose read began after that
      write, so the list contains it; and a memoized list is used only while
      its read ended less than the TTL ago. */
  lemma ReadYourWrites(es: seq<Event>, i: nat, write: nat, j: nat)
    requires IsRun(es) && i < |es| && es[i].Invalidate? && es[i].write == write
    requires IsRun(es[..i + 1]) && |After(es[..i + 1]).answers| <= j < |After(es).answers|
    ensures var a := After(es).answers[j];
            write <= a.list.began <= a.list.sees < |After(es).history| && a.at - a.list.fetched < TTL
  {
    assert es[..i + 1][..i] == es[..i];
    AnswersSince(es, i + 1, j);
  }

  /** No write is forgotten: one stored by this replica's own handlers is owed
      an invalidation until it has settled. */
  lemma {:induction false} OwnWritesSettle(es: seq<Event>, i: nat)
    requires IsRun(es) && i < |es| && es[i].StoreWrite? && es[i].local && IsRun(es[..i])
    ensures var w := Writes(After(es[..i])) + 1;
            w in After(es).owing || After(es).settled >= w
    ensures After(es).history != []
  {
    RunKeepsInv(es);
    RunKeepsInv(es[..i]);
    if i == |es| - 1 {
      assert es[..i] == es[..|es| - 1];
    } else {
      assert es[..|es| - 1][..i] == es[..i];
      OwnWritesSettle(es[..|es| - 1], i);
    }
  }
}
