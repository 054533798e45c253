/** Project edits whose steps interleave. Nothing serialises the reads an edit is
    checked against with the write that saves it. */
module ProjectRaces {
  import opened Projects

  /** What an open request still has to do: check the row it fetched against the
      stored rows and save it, save the row it holds, or write a tombstone. */
  datatype Phase = Fetched(row: Project, patch: Patch) | Saving(row: Project) | Deleting(id: string)

  datatype Desk = Desk(rows: Rows, open: map<nat, Phase>)

  /** One store call of one request, with the local work around it. A request
      whose store call fails, or that is given up, takes no further step. */
  datatype Event =
    | StartCreate(i: nat, id: string, title: string, days: int)
    | StartUpdate(i: nat, id: string, patch: Patch)
    | StartDelete(i: nat, id: string)
    | Check(i: nat)
    | Commit(i: nat)

  function Opened(s: Desk, i: nat, p: Phase): Desk {
    s.(open := s.open[i := p])
  }

  /** The first read: does the id exist, and may it be edited. */
  function Start(env: Install, s: Desk, e: Event): Desk
    requires e.StartCreate? || e.StartUpdate? || e.StartDelete?
  {
    if e.i in s.open then s
    else
      match e
      case StartCreate(i, id, title, days) =>
        if Create(env, s.rows, id, title, days).Ok?
        then Opened(s, i, Saving(Project(env.trim(id), env.trim(title), [], days))) else s
      case StartUpdate(i, id, patch) =>
        if Editable(env, s.rows, id) then Opened(s, i, Fetched(s.rows[id], patch)) else s
      case StartDelete(i, id) => if Editable(env, s.rows, id) then Opened(s, i, Deleting(id)) else s
  }

  /** A refused update closes, as does a saved one. */
  function Step(env: Install, s: Desk, e: Event): Desk {
    match e
    case Check(i) =>
      if i !in s.open || !s.open[i].Fetched? then s
      else
        var checked := Checked(env, s.rows, s.open[i].row, s.open[i].patch);
        if checked.Ok? then Opened(s, i, Saving(checked.value)) else s.(open := s.open - {i})
    case Commit(i) =>
      if i !in s.open || s.open[i].Fetched? then s
      else
        Desk(if s.open[i].Saving? then Save(s.rows, s.open[i].row) else s.rows - {s.open[i].id}, s.open - {i})
    case _ => Start(env, s, e)
  }

  const EMPTY: Desk := Desk(map[], map[])

  function After(env: Install, events: seq<Event>): Desk {
    if events == [] then EMPTY else Step(env, After(env, Front(events)), events[|events| - 1])
  }

  function Front(events: seq<Event>): seq<Event>
    requires events != []
  {
    events[..|events| - 1]
  }

  // ------------------------------------------------------ the exact condition

  ghost predicate Inv(s: Desk) {
    AllSound(s.rows) && forall i :: i in s.open && !s.open[i].Deleting? ==> Sound(s.open[i].row)
  }

  lemma InvStep(env: Install, s: Desk, e: Event)
    requires env.Lawful() && Inv(s)
    ensures Inv(Step(env, s, e))
  {
    if e.Check? && e.i in s.open && s.open[e.i].Fetched? {
      var f := s.open[e.i];
      if Checked(env, s.rows, f.row, f.patch).Ok? { CheckedIsSound(env, s.rows, f.row, f.patch); }
    }
  }

  lemma {:induction false} InvAfter(env: Install, events: seq<Event>)
    requires env.Lawful()
    ensures Inv(After(env, events))
  {
    if events != [] {
      InvAfter(env, Front(events));
      InvStep(env, After(env, Front(events)), events[|events| - 1]);
    }
  }

  /** If the event saves a row, the member check would let it through now. */
  predicate FindsRoom(s: Desk, e: Event) {
    e.Commit? && e.i in s.open && s.open[e.i].Saving? ==> Room(s.rows, s.open[e.i].row)
  }

  /** One event, exactly. */
  lemma StepOneLevelIff(env: Install, s: Desk, e: Event)
    requires Inv(s) && OneLevel(s.rows)
    ensures OneLevel(Step(env, s, e).rows) <==> FindsRoom(s, e)
  {
    if e.Commit? && e.i in s.open {
      match s.open[e.i] {
        case Saving(p) => SaveKeepsOneLevelIff(s.rows, p);
        case Deleting(id) => RemoveKeepsOneLevel(s.rows, id);
        case Fetched(_, _) =>
      }
    }
  }

  ghost predicate AlwaysOneLevel(env: Install, events: seq<Event>) {
    OneLevel(After(env, events).rows) && (events != [] ==> AlwaysOneLevel(env, Front(events)))
  }

  predicate AlwaysRoom(env: Install, events: seq<Event>) {
    events != [] ==>
      AlwaysRoom(env, Front(events)) && FindsRoom(After(env, Front(events)), events[|events| - 1])
  }

  /** Over every interleaving of creates, updates and deletes: membership is one
      level deep at every moment if and only if every save finds room, that is,
      the member check repeated at the moment of the save would let its row
      through. */
  lemma {:induction false} OneLevelIffRoom(env: Install, events: seq<Event>)
    requires env.Lawful()
    ensures AlwaysOneLevel(env, events) <==> AlwaysRoom(env, events)
  {
    if events != [] {
      OneLevelIffRoom(env, Front(events));
      if AlwaysOneLevel(env, Front(events)) {
        assert OneLevel(After(env, Front(events)).rows);
        InvAfter(env, Front(events));
        StepOneLevelIff(env, After(env, Front(events)), events[|events| - 1]);
      }
    }
  }

  // ------------------------------------------------------- undisturbed edits

  /** The steps of one edit. */
  function Steps(i: nat, e: Edit): seq<Event> {
    match e
    case CreateProject(id, title, days) => [StartCreate(i, id, title, days), Commit(i)]
    case UpdateProject(id, patch) => [StartUpdate(i, id, patch), Check(i), Commit(i)]
    case DeleteProject(id) => [StartDelete(i, id), Commit(i)]
  }

  lemma {:induction false} AfterMore(env: Install, events: seq<Event>, e: Event)
    ensures After(env, events + [e]) == Step(env, After(env, events), e)
  {
    assert Front(events + [e]) == events;
  }

  lemma CloseUndoesOpen(s: Desk, i: nat, p: Phase)
    requires i !in s.open
    ensures Opened(s, i, p).open - {i} == s.open
  {
  }

  lemma UndisturbedUpdate(env: Install, s: Desk, i: nat, id: string, patch: Patch)
    requires i !in s.open
    ensures Step(env, Step(env, Step(env, s, StartUpdate(i, id, patch)), Check(i)), Commit(i))
            == Desk(Applied(env, s.rows, UpdateProject(id, patch)), s.open)
  {
    if Editable(env, s.rows, id) {
      var fetched := Fetched(s.rows[id], patch);
      var one := Opened(s, i, fetched);
      CloseUndoesOpen(s, i, fetched);
      var checked := Checked(env, s.rows, s.rows[id], patch);
      if checked.Ok? {
        var two := Opened(one, i, Saving(checked.value));
        assert two == Opened(s, i, Saving(checked.value));
        CloseUndoesOpen(s, i, Saving(checked.value));
      }
    }
  }

  lemma UndisturbedOther(env: Install, s: Desk, i: nat, e: Edit)
    requires i !in s.open && !e.UpdateProject?
    ensures Step(env, Step(env, s, Steps(i, e)[0]), Commit(i)) == Desk(Applied(env, s.rows, e), s.open)
  {
    var one := Step(env, s, Steps(i, e)[0]);
    if one != s { CloseUndoesOpen(s, i, one.open[i]); }
  }

  /** Run back to back, the steps of an edit are the whole edit, and the other
      open requests stay as they were. */
  lemma UndisturbedEdit(env: Install, events: seq<Event>, i: nat, e: Edit)
    requires i !in After(env, events).open
    ensures After(env, events + Steps(i, e)) == Desk(Applied(env, After(env, events).rows, e), After(env, events).open)
  {
    var start := Steps(i, e)[0];
    AfterMore(env, events, start);
    if e.UpdateProject? {
      AfterMore(env, events + [start], Check(i));
      AfterMore(env, events + [start] + [Check(i)], Commit(i));
      assert events + Steps(i, e) == events + [start] + [Check(i)] + [Commit(i)];
      UndisturbedUpdate(env, After(env, events), i, e.id, e.patch);
    } else {
      AfterMore(env, events + [start], Commit(i));
      assert events + Steps(i, e) == events + [start] + [Commit(i)];
      UndisturbedOther(env, After(env, events), i, e);
    }
  }

  /** A step that saves nothing keeps the level. */
  lemma ReadKeeps(env: Install, events: seq<Event>, e: Event)
    requires AlwaysOneLevel(env, events) && !e.Commit?
    ensures AlwaysOneLevel(env, events + [e])
  {
    AfterMore(env, events, e);
    assert Front(events + [e]) == events;
    assert OneLevel(After(env, events).rows);
  }

  lemma AlwaysMore(env: Install, events: seq<Event>, e: Event)
    requires AlwaysOneLevel(env, events) && OneLevel(After(env, events + [e]).rows)
    ensures AlwaysOneLevel(env, events + [e])
  {
    assert Front(events + [e]) == events;
  }

  lemma AppliedOneLevel(env: Install, events: seq<Event>, e: Edit)
    requires env.Lawful() && AlwaysOneLevel(env, events)
    ensures OneLevel(Applied(env, After(env, events).rows, e))
  {
    assert OneLevel(After(env, events).rows);
    EditKeepsOneLevel(env, After(env, events).rows, e);
  }

  /** Edits without overlap nest nothing. */
  lemma UndisturbedEditKeeps(env: Install, events: seq<Event>, i: nat, e: Edit)
    requires env.Lawful() && AlwaysOneLevel(env, events) && i !in After(env, events).open
    ensures AlwaysOneLevel(env, events + Steps(i, e))
  {
    var before := events + [Steps(i, e)[0]];
    ReadKeeps(env, events, Steps(i, e)[0]);
    if e.UpdateProject? {
      ReadKeeps(env, before, Check(i));
      before := before + [Check(i)];
    }
    assert events + Steps(i, e) == before + [Commit(i)];
    UndisturbedEdit(env, events, i, e);
    AppliedOneLevel(env, events, e);
    AlwaysMore(env, before, Commit(i));
  }

  // --------------------------------------------------------- two overlapping updates

  lemma SavedBothFlatIff(env: Install, rows: Rows, a: string, first: Patch, b: string, second: Patch)
    requires env.Lawful() && OneLevel(rows) && a != b
    requires Update(env, rows, a, first).Ok? && Update(env, rows, b, second).Ok?
    ensures var p, q := Update(env, rows, a, first).value[a], Update(env, rows, b, second).value[b];
            OneLevel(Save(Save(rows, p), q))
            <==> !(b in p.members && q.members != []) && !(a in q.members && p.members != [])
  {
    var p, q := Update(env, rows, a, first).value[a], Update(env, rows, b, second).value[b];
    AcceptedUpdate(env, rows, a, first);
    AcceptedUpdate(env, rows, b, second);
    var one := Save(rows, p);
    SaveKeepsOneLevelIff(rows, p);
    SaveKeepsOneLevelIff(rows, q);
    SaveKeepsOneLevelIff(one, q);
    assert Blocks(one[a], b, q.members) <==> p.members != [] && (a in q.members || b in p.members);
    assert forall k :: k in one && k != a ==> k in rows && one[k] == rows[k];
  }

  /** The row an accepted update saves. */
  lemma AcceptedUpdate(env: Install, rows: Rows, id: string, patch: Patch)
    requires env.Lawful() && OneLevel(rows) && Update(env, rows, id, patch).Ok?
    ensures var next := Update(env, rows, id, patch).value;
            && id in next && next[id].id == id && Sound(next[id]) && OneLevel(next) && Save(rows, next[id]) == next
  {
    UpdateKeepsOneLevel(env, rows, id, patch);
    assert Flat(rows, id);
    CheckedIsSound(env, rows, rows[id], patch);
  }

  lemma SortOne(env: Install, m: string)
    requires env.Lawful()
    ensures env.sort([m]) == [m]
  {
    var out := env.sort([m]);
    assert |multiset(out)| == |multiset([m])| == 1;
    assert out[0] in multiset(out);
  }

  lemma OneMemberAccepted(env: Install, rows: Rows, id: string, m: string)
    requires env.Lawful() && ProjectId(m) && env.trim(m) == m && m != id
    requires forall k :: k in rows ==> !Blocks(rows[k], id, [m])
    ensures ValidMembers(env, rows, id, [m]) == Ok([m])
  {
    assert [m][..0] == [];
    var none: seq<string> := [];
    assert none + [m] == [m];
    assert Cleaned(env, id, none) == Ok(none);
    assert Cleaned(env, id, [m]) == Ok([m]);
    SortOne(env, m);
  }

  /** Both updates start and are checked, then both are saved. */
  function Overlap(i: nat, a: string, first: Patch, j: nat, b: string, second: Patch): seq<Event> {
    [StartUpdate(i, a, first), StartUpdate(j, b, second), Check(i), Check(j)] + [Commit(i), Commit(j)]
  }

  lemma StartAndCheck(env: Install, s: Desk, i: nat, a: string, first: Patch, j: nat, b: string, second: Patch)
    requires i != j && i !in s.open && j !in s.open
    requires Editable(env, s.rows, a) && Checked(env, s.rows, s.rows[a], first).Ok?
    requires Editable(env, s.rows, b) && Checked(env, s.rows, s.rows[b], second).Ok?
    ensures var started := Step(env, Step(env, s, StartUpdate(i, a, first)), StartUpdate(j, b, second));
            var checks := Step(env, Step(env, started, Check(i)), Check(j));
            && checks.rows == s.rows && i in checks.open && j in checks.open
            && checks.open[i] == Saving(Checked(env, s.rows, s.rows[a], first).value)
            && checks.open[j] == Saving(Checked(env, s.rows, s.rows[b], second).value)
  {
  }

  lemma CommitBoth(env: Install, s: Desk, i: nat, p: Project, j: nat, q: Project)
    requires i != j && i in s.open && j in s.open && s.open[i] == Saving(p) && s.open[j] == Saving(q)
    ensures Step(env, Step(env, s, Commit(i)), Commit(j)).rows == Save(Save(s.rows, p), q)
  {
  }

  lemma {:induction false} AfterSix(env: Install, events: seq<Event>, i: nat, a: string, first: Patch, j: nat,
      b: string, second: Patch)
    ensures var started := Step(env, Step(env, After(env, events), StartUpdate(i, a, first)),
            StartUpdate(j, b, second));
            var checks := Step(env, Step(env, started, Check(i)), Check(j));
            After(env, events + Overlap(i, a, first, j, b, second))
                == Step(env, Step(env, checks, Commit(i)), Commit(j))
  {
    var one := events + [StartUpdate(i, a, first)];
    var two := one + [StartUpdate(j, b, second)];
    AfterMore(env, events, StartUpdate(i, a, first));
    AfterMore(env, one, StartUpdate(j, b, second));
    AfterMore(env, two, Check(i));
    AfterMore(env, two + [Check(i)], Check(j));
    AfterMore(env, two + [Check(i)] + [Check(j)], Commit(i));
    AfterMore(env, two + [Check(i)] + [Check(j)] + [Commit(i)], Commit(j));
    assert events + Overlap(i, a, first, j, b, second) == two + [Check(i)] + [Check(j)] + [Commit(i)] + [Commit(j)];
  }

  /** Two updates of different projects, both checked before either is saved:
      membership is one level deep after the run if and only if neither makes a
      member of a project that the other leaves with members of its own. */
  lemma OverlappingUpdatesFlatIff(env: Install, events: seq<Event>, i: nat, a: string, first: Patch, j: nat, b: string,
      second: Patch)
    requires env.Lawful() && OneLevel(After(env, events).rows) && a != b
    requires i != j && i !in After(env, events).open && j !in After(env, events).open
    requires Update(env, After(env, events).rows, a, first).Ok? && Update(env, After(env, events).rows, b, second).Ok?
    ensures var rows := After(env, events).rows;
            var p, q := Update(env, rows, a, first).value[a], Update(env, rows, b, second).value[b];
            OneLevel(After(env, events + Overlap(i, a, first, j, b, second)).rows)
            <==> !(b in p.members && q.members != []) && !(a in q.members && p.members != [])
  {
    var s := After(env, events);
    assert Flat(s.rows, a) && Flat(s.rows, b);
    AfterSix(env, events, i, a, first, j, b, second);
    StartAndCheck(env, s, i, a, first, j, b, second);
    var p, q := Checked(env, s.rows, s.rows[a], first).value, Checked(env, s.rows, s.rows[b], second).value;
    var started := Step(env, Step(env, s, StartUpdate(i, a, first)), StartUpdate(j, b, second));
    CommitBoth(env, Step(env, Step(env, started, Check(i)), Check(j)), i, p, j, q);
    SavedBothFlatIff(env, s.rows, a, first, b, second);
    AcceptedUpdate(env, s.rows, a, first);
    AcceptedUpdate(env, s.rows, b, second);
  }

  /** Such a pair exists wherever there are two free leaves: `a` takes `b` as a
      member while `b` becomes an aggregate, and both updates are accepted. */
  lemma OverlappingUpdatesNest(env: Install, events: seq<Event>, i: nat, j: nat, a: string, b: string, c: string)
    requires env.Lawful() && OneLevel(After(env, events).rows) && i != j && a != b && b != c
    requires i !in After(env, events).open && j !in After(env, events).open
    requires FreeLeaf(env, After(env, events).rows, a) && FreeLeaf(env, After(env, events).rows, b)
    requires IsLeaf(After(env, events).rows, c) && ProjectId(b) && ProjectId(c) && env.trim(b) == b && env.trim(c) == c
    ensures !OneLevel(After(env, events + Overlap(i, a, SetMembers([b]), j, b, SetMembers([c]))).rows)
  {
    var rows := After(env, events).rows;
    assert Flat(rows, a) && Flat(rows, b);
    forall k | k in rows ensures !Blocks(rows[k], a, [b]) && !Blocks(rows[k], b, [c]) { assert Flat(rows, k); }
    OneMemberAccepted(env, rows, a, b);
    OneMemberAccepted(env, rows, b, c);
    OverlappingUpdatesFlatIff(env, events, i, a, SetMembers([b]), j, b, SetMembers([c]));
  }

  /** An editable project without members or retention, and no one's member. */
  predicate FreeLeaf(env: Install, rows: Rows, id: string) {
    && Editable(env, rows, id) && rows[id].members == [] && rows[id].retention == 0
    && forall k :: k in rows ==> id !in rows[k].members
  }

  // ------------------------------------------------------------ a stale rename

  /** An install whose library leaves four short names as they are. */
  ghost predicate Plain(env: Install) {
    && env.Lawful() && "a" !in env.reserved && "b" !in env.reserved
    && env.trim("") == "" && env.trim("a") == "a" && env.trim("b") == "b" && env.trim("c") == "c"
  }

  function Rename(title: string): Patch { Patch(Some(title), None, None) }

  function SetMembers(members: seq<string>): Patch { Patch(None, Some(members), None) }

  function Creates(): seq<Event> {
    Steps(0, CreateProject("a", "", 0)) + Steps(1, CreateProject("b", "", 0))
  }

  /** Two projects, and `a` takes `b` as its member. */
  function Setup(): seq<Event> {
    Creates() + Steps(2, UpdateProject("a", SetMembers(["b"])))
  }

  /** A rename of `a` is checked; before it is saved, `a` gives up its member and
      `b` becomes an aggregate. */
  function Meanwhile(title: string): seq<Event> {
    Emptied(title) + Steps(4, UpdateProject("b", SetMembers(["c"])))
  }

  function Emptied(title: string): seq<Event> {
    Renaming(title) + Steps(3, UpdateProject("a", SetMembers([])))
  }

  function Renaming(title: string): seq<Event> {
    Setup() + [StartUpdate(9, "a", Rename(title))] + [Check(9)]
  }

  function Leaf(id: string): Project { Project(id, "", [], 0) }

  /** What the rename is about to save. */
  function StaleRow(env: Install, title: string): Phase { Saving(Project("a", env.trim(title), ["b"], 0)) }

  lemma Edited(env: Install, events: seq<Event>, i: nat, e: Edit)
    requires env.Lawful() && AlwaysOneLevel(env, events) && i !in After(env, events).open
    ensures AlwaysOneLevel(env, events + Steps(i, e))
    ensures After(env, events + Steps(i, e)) == Desk(Applied(env, After(env, events).rows, e), After(env, events).open)
  {
    UndisturbedEdit(env, events, i, e);
    UndisturbedEditKeeps(env, events, i, e);
  }

  lemma TwoLeaves(env: Install)
    requires Plain(env)
    ensures AlwaysOneLevel(env, Creates())
    ensures After(env, Creates()) == Desk(map["a" := Leaf("a"), "b" := Leaf("b")], map[])
  {
    var one := Steps(0, CreateProject("a", "", 0));
    Edited(env, [], 0, CreateProject("a", "", 0));
    assert [] + one == one;
    assert After(env, one) == Desk(map["a" := Leaf("a")], map[]);
    Edited(env, one, 1, CreateProject("b", "", 0));
  }

  lemma SetupRows(env: Install)
    requires Plain(env)
    ensures AlwaysOneLevel(env, Setup())
    ensures After(env, Setup()) == Desk(map["a" := Leaf("a").(members := ["b"]), "b" := Leaf("b")], map[])
  {
    TwoLeaves(env);
    OneMemberAccepted(env, After(env, Creates()).rows, "a", "b");
    Edited(env, Creates(), 2, UpdateProject("a", SetMembers(["b"])));
  }

  lemma RenamingRows(env: Install, title: string)
    requires Plain(env) && |env.trim(title)| <= MAX_TITLE
    ensures AlwaysOneLevel(env, Renaming(title))
    ensures After(env, Renaming(title)) == Desk(After(env, Setup()).rows, map[9 := StaleRow(env, title)])
  {
    SetupRows(env);
    var started := Setup() + [StartUpdate(9, "a", Rename(title))];
    AfterMore(env, Setup(), StartUpdate(9, "a", Rename(title)));
    ReadKeeps(env, Setup(), StartUpdate(9, "a", Rename(title)));
    AfterMore(env, started, Check(9));
    ReadKeeps(env, started, Check(9));
  }

  lemma EmptiedRows(env: Install, title: string)
    requires Plain(env) && |env.trim(title)| <= MAX_TITLE
    ensures AlwaysOneLevel(env, Emptied(title))
    ensures After(env, Emptied(title)) == Desk(map["a" := Leaf("a"), "b" := Leaf("b")], map[9 := StaleRow(env, title)])
  {
    SetupRows(env);
    RenamingRows(env, title);
    Edited(env, Renaming(title), 3, UpdateProject("a", SetMembers([])));
    SortNone(env);
  }

  lemma MeanwhileRows(env: Install, title: string)
    requires Plain(env) && |env.trim(title)| <= MAX_TITLE
    ensures AlwaysOneLevel(env, Meanwhile(title))
    ensures After(env, Meanwhile(title))
            == Desk(map["a" := Leaf("a"), "b" := Leaf("b").(members := ["c"])], map[9 := StaleRow(env, title)])
  {
    EmptiedRows(env, title);
    OneMemberAccepted(env, After(env, Emptied(title)).rows, "b", "c");
    Edited(env, Emptied(title), 4, UpdateProject("b", SetMembers(["c"])));
  }

  lemma SortNone(env: Install)
    requires env.Lawful()
    ensures env.sort([]) == []
  {
    var none: seq<string> := [];
    assert |multiset(env.sort(none))| == |multiset(none)| == 0;
  }

  /** An update that sets no members can nest as well: a rename saves the member
      list it read. Every save of this run but the last finds room. */
  lemma StaleRenameNests(env: Install, title: string)
    requires Plain(env) && |env.trim(title)| <= MAX_TITLE
    ensures AlwaysRoom(env, Meanwhile(title)) && OneLevel(After(env, Meanwhile(title)).rows)
    ensures var rows := After(env, Meanwhile(title) + [Commit(9)]).rows;
            "a" in rows && "b" in rows && rows["a"].members == ["b"] && rows["b"].members == ["c"] && !OneLevel(rows)
  {
    MeanwhileRows(env, title);
    OneLevelIffRoom(env, Meanwhile(title));
    var s := After(env, Meanwhile(title));
    AfterMore(env, Meanwhile(title), Commit(9));
    assert Step(env, s, Commit(9)).rows == Save(s.rows, StaleRow(env, title).row);
    var rows := After(env, Meanwhile(title) + [Commit(9)]).rows;
    assert !Flat(rows, "a") by { assert "b" in rows["a"].members && !IsLeaf(rows, "b"); }
  }
}
