/** What the project handlers accept, store and change, told on the requests as
    they come in. */
module ProjectRules {
  import opened Projects

  /** A lower-case letter, then up to 62 of lower-case letters, digits and dashes. */
  predicate IsId(s: string) {
    && 1 <= |s| <= 63 && 'a' <= s[0] <= 'z'
    && forall i :: 1 <= i < |s| ==> 'a' <= s[i] <= 'z' || '0' <= s[i] <= '9' || s[i] == '-'
  }

  /** No retention of its own, or one no longer than the install's longest. */
  predicate Allowed(env: Install, days: int) {
    days >= 0 && (env.globalRetention > 0 ==> days <= env.globalRetention)
  }

  /** A create is accepted exactly for a new, unreserved id, a short title and an
      allowed retention, and stores that project. */
  lemma CreateIff(env: Install, rows: Rows, rawId: string, rawTitle: string, days: int)
    ensures var id, title, r := env.trim(rawId), env.trim(rawTitle), Create(env, rows, rawId, rawTitle, days);
            && (r.Ok? <==> IsId(id) && |title| <= 200 && id !in env.reserved && Allowed(env, days) && id !in rows)
            && (r.Ok? ==> r.value == rows[id := Project(id, title, [], if days > 65535 then 65535 else days)])
            && (r.Conflict? ==> id in env.reserved || id in rows)
  {
  }

  // ------------------------------------------------------------------- members

  /** The names a membership request comes to. */
  function Names(env: Install, requested: seq<string>): set<string> {
    if requested == [] then {}
    else
      var front, m := Names(env, requested[..|requested| - 1]), env.trim(requested[|requested| - 1]);
      if m == "" then front else front + {m}
  }

  /** They are the trimmed, non-blank ones. */
  lemma {:induction false} NamesAre(env: Install, requested: seq<string>, m: string)
    ensures m in Names(env, requested) <==> m != "" && exists i :: 0 <= i < |requested| && env.trim(requested[i]) == m
  {
    if requested != [] {
      var n := |requested| - 1;
      NamesAre(env, requested[..n], m);
      assert forall i :: 0 <= i < n ==> requested[..n][i] == requested[i];
    }
  }

  predicate AllIds(env: Install, id: string, requested: seq<string>) {
    forall i :: 0 <= i < |requested| ==>
      var m := env.trim(requested[i]);
      m == "" || (IsId(m) && m != id)
  }

  lemma AllIdsSnoc(env: Install, id: string, requested: seq<string>)
    requires requested != []
    ensures var front, m := requested[..|requested| - 1], env.trim(requested[|requested| - 1]);
            AllIds(env, id, requested) <==> AllIds(env, id, front) && (m == "" || (IsId(m) && m != id))
  {
    var n := |requested| - 1;
    forall i | 0 <= i < n ensures requested[..n][i] == requested[i] {}
  }

  lemma {:induction false} CleanedIff(env: Install, id: string, requested: seq<string>)
    ensures !Cleaned(env, id, requested).Conflict?
    ensures Cleaned(env, id, requested).Ok? <==> AllIds(env, id, requested)
  {
    if requested != [] {
      CleanedIff(env, id, requested[..|requested| - 1]);
      AllIdsSnoc(env, id, requested);
    }
  }

  ghost predicate Lists(ms: seq<string>, names: set<string>) {
    |ms| == |names| && forall m :: m in ms <==> m in names
  }

  lemma ListsOneMore(ms: seq<string>, names: set<string>, m: string)
    requires Lists(ms, names)
    ensures if m in ms then Lists(ms, names + {m}) else Lists(ms + [m], names + {m})
  {
    if m in ms { assert names + {m} == names; }
  }

  lemma {:induction false} CleanedNames(env: Install, id: string, requested: seq<string>)
    requires Cleaned(env, id, requested).Ok?
    ensures Lists(Cleaned(env, id, requested).value, Names(env, requested))
  {
    if requested != [] {
      var n := |requested| - 1;
      CleanedNames(env, id, requested[..n]);
      ListsOneMore(Cleaned(env, id, requested[..n]).value, Names(env, requested[..n]), env.trim(requested[n]));
    }
  }

  /** Nothing stands in the way: none of the members has members, and nobody who
      has members has this project among them. */
  predicate Clear(rows: Rows, id: string, members: set<string>) {
    forall k :: k in rows && rows[k].id != id && rows[k].members != []
        ==> rows[k].id !in members && id !in rows[k].members
  }

  /** A membership is accepted exactly when every name in it is an id other than
      the project's, there are at most 32, and none or nothing in the way; it is
      then those names, each once. */
  lemma MembersIff(env: Install, rows: Rows, id: string, requested: seq<string>)
    requires env.Lawful()
    ensures var r, names := ValidMembers(env, rows, id, requested), Names(env, requested);
            && (r.Ok? <==> AllIds(env, id, requested) && |names| <= 32 && (names == {} || Clear(rows, id, names)))
            && (r.Ok? ==> Lists(r.value, names))
            && (r.Conflict? ==> !Clear(rows, id, names))
  {
    CleanedIff(env, id, requested);
    if Cleaned(env, id, requested).Ok? {
      var ms := Cleaned(env, id, requested).value;
      CleanedNames(env, id, requested);
      forall m ensures m in env.sort(ms) <==> m in ms { SortKeepsMembers(env, ms, m); }
      assert |multiset(env.sort(ms))| == |multiset(ms)|;
      assert |env.sort(ms)| == |Names(env, requested)|;
    }
  }

  // ------------------------------------------------------------------- updates

  /** An update is accepted exactly for an editable project, a short title,
      acceptable members and an allowed retention, and a result that has not both
      members and a retention. */
  lemma UpdateIff(env: Install, rows: Rows, id: string, patch: Patch)
    requires env.Lawful() && (id in rows ==> rows[id].id == id)
    ensures Update(env, rows, id, patch).Ok? <==>
              && id !in env.reserved && id in rows
              && (patch.title.Some? ==> |env.trim(patch.title.value)| <= 200)
              && (patch.members.Some? ==>
                    var names := Names(env, patch.members.value);
                    AllIds(env, id, patch.members.value) && |names| <= 32 && (names == {} || Clear(rows, id, names)))
              && (patch.retention.Some? ==> Allowed(env, patch.retention.value))
              && ((if patch.members.Some? then Names(env, patch.members.value) == {} else rows[id].members == [])
                  || (if patch.retention.Some? then patch.retention.value else rows[id].retention) <= 0)
  {
    if patch.members.Some? { MembersIff(env, rows, id, patch.members.value); }
  }

  /** It then changes what the patch names and nothing else. */
  lemma UpdateChanges(env: Install, rows: Rows, id: string, patch: Patch)
    requires env.Lawful() && (id in rows ==> rows[id].id == id) && Update(env, rows, id, patch).Ok?
    ensures id in rows && id in Update(env, rows, id, patch).value
    ensures var next := Update(env, rows, id, patch).value;
            var p, q := rows[id], next[id];
            && next == rows[id := q] && q.id == id
            && q.title == (if patch.title.Some? then env.trim(patch.title.value) else p.title)
            && (if patch.members.Some?
                then Lists(q.members, Names(env, patch.members.value))
                else q.members == p.members)
            && q.retention == Stored(if patch.retention.Some? then patch.retention.value else p.retention)
  {
    if patch.members.Some? { MembersIff(env, rows, id, patch.members.value); }
  }

  /** The column holds 0 to 65535. */
  function Stored(days: int): int { if days < 0 then 0 else if days > 65535 then 65535 else days }

  // ------------------------------------------------------------- what is stored

  ghost predicate Proper(env: Install, p: Project) {
    && IsId(p.id) && p.id !in env.reserved && |p.title| <= 200
    && 0 <= p.retention <= 65535 && (env.globalRetention > 0 ==> p.retention <= env.globalRetention)
    && |p.members| <= 32 && p.id !in p.members && (p.members != [] ==> p.retention == 0)
  }

  ghost predicate AllProper(env: Install, rows: Rows) {
    forall id :: id in rows ==> rows[id].id == id && Proper(env, rows[id])
  }

  lemma EditKeepsProper(env: Install, rows: Rows, e: Edit)
    requires env.Lawful() && OneLevel(rows) && AllProper(env, rows)
    ensures AllProper(env, Applied(env, rows, e))
  {
    EditKeepsOneLevel(env, rows, e);
    match e {
      case CreateProject(id, title, days) => CreateIff(env, rows, id, title, days);
      case UpdateProject(id, patch) =>
        if Update(env, rows, id, patch).Ok? {
          UpdateIff(env, rows, id, patch);
          UpdateChanges(env, rows, id, patch);
          assert Flat(Applied(env, rows, e), id);
        }
      case DeleteProject(id) =>
    }
  }

  /** Over every sequence of edits, every stored project has a well-formed and
      unreserved id, a short title, a retention the install allows, and no more
      than 32 members. */
  lemma {:induction false} StoredProjectsAreProper(env: Install, edits: seq<Edit>)
    requires env.Lawful()
    ensures AllProper(env, After(env, edits))
  {
    if edits != [] {
      StoredProjectsAreProper(env, edits[..|edits| - 1]);
      EditsKeepOneLevel(env, edits[..|edits| - 1]);
      EditKeepsProper(env, After(env, edits[..|edits| - 1]), edits[|edits| - 1]);
    }
  }

  /** Deleting a stored project, and only that, takes its row away. */
  lemma DeletedIsGone(env: Install, edits: seq<Edit>, id: string)
    requires env.Lawful()
    ensures var rows, next := After(env, edits), After(env, edits + [DeleteProject(id)]);
            id !in next && forall k :: k != id ==> (k in next <==> k in rows) && (k in rows ==> next[k] == rows[k])
  {
    StoredProjectsAreProper(env, edits);
    assert (edits + [DeleteProject(id)])[..|edits|] == edits;
  }
}
