/** Project edits: create, update and delete, and the membership they keep. */
module Projects {

  const MAX_TITLE: nat := 200
  const MAX_MEMBERS: nat := 32

  datatype Project = Project(id: string, title: string, members: seq<string>, retention: int)

  /** The live rows, by id. */
  type Rows = map<string, Project>

  /** The install: which ids it reserves, its longest global retention (0 for
      none), and the library calls that trim a string and sort a list. */
  datatype Install = Install(reserved: set<string>, globalRetention: int, trim: string -> string,
      sort: seq<string> -> seq<string>) {
    ghost predicate Lawful() {
      forall s :: multiset(sort(s)) == multiset(s)
    }
  }

  datatype Outcome<+T> = Ok(value: T) | BadRequest | Conflict

  predicate Lower(c: char) { 'a' <= c <= 'z' }

  /** A project id: a lower-case letter, then up to 62 more of [a-z0-9-]. */
  predicate ProjectId(s: string) {
    && 1 <= |s| <= 63 && Lower(s[0])
    && forall i :: 1 <= i < |s| ==> Lower(s[i]) || '0' <= s[i] <= '9' || s[i] == '-'
  }

  predicate RetentionOk(env: Install, days: int) {
    days == 0 || (days > 0 && (env.globalRetention <= 0 || days <= env.globalRetention))
  }

  /** The column is an unsigned 16-bit number: the store clamps into it. */
  function Clamp(days: int): int {
    if days < 0 then 0 else if days > 65535 then 65535 else days
  }

  function Save(rows: Rows, p: Project): Rows {
    rows[p.id := p.(retention := Clamp(p.retention))]
  }

  predicate Editable(env: Install, rows: Rows, id: string) {
    id !in env.reserved && id in rows
  }

  // ------------------------------------------------------------------ create

  function Create(env: Install, rows: Rows, rawId: string, rawTitle: string, days: int): Outcome<Rows> {
    var id, title := env.trim(rawId), env.trim(rawTitle);
    if !ProjectId(id) || |title| > MAX_TITLE then BadRequest
    else if id in env.reserved then Conflict
    else if !RetentionOk(env, days) then BadRequest
    else if id in rows then Conflict
    else Ok(Save(rows, Project(id, title, [], days)))
  }

  // ----------------------------------------------------------------- members

  /** The requested members trimmed and deduplicated; BadRequest when one is
      not a project id or is the project itself. */
  function Cleaned(env: Install, id: string, requested: seq<string>): Outcome<seq<string>> {
    if requested == [] then Ok([])
    else match Cleaned(env, id, requested[..|requested| - 1])
      case Ok(front) =>
        var m := env.trim(requested[|requested| - 1]);
        if m == "" then Ok(front)
        else if !ProjectId(m) || m == id then BadRequest
        else Ok(if m in front then front else front + [m])
      case other => other
  }

  /** `p` stands in the way of `id` having these members: it is an aggregate,
      and it is one of them or already has `id` as a member. */
  predicate Blocks(p: Project, id: string, members: seq<string>) {
    p.id != id && p.members != [] && (p.id in members || id in p.members)
  }

  function ValidMembers(env: Install, rows: Rows, id: string, requested: seq<string>): Outcome<seq<string>> {
    match Cleaned(env, id, requested)
    case Ok(members) =>
      var sorted := env.sort(members);
      if |sorted| > MAX_MEMBERS then BadRequest
      else if sorted == [] then Ok([])
      else if exists k :: k in rows && Blocks(rows[k], id, members) then Conflict
      else Ok(sorted)
    case other => other
  }

  // ------------------------------------------------------------------ update

  datatype Option<+T> = None | Some(value: T)

  /** A partial update: an absent field keeps its stored value. */
  datatype Patch = Patch(title: Option<string>, members: Option<seq<string>>, retention: Option<int>)

  /** The row an update of `p` would save, with every check it has to pass. */
  function Checked(env: Install, rows: Rows, p: Project, patch: Patch): Outcome<Project> {
    if patch.title.Some? && |env.trim(patch.title.value)| > MAX_TITLE then BadRequest
    else
      var title := if patch.title.Some? then env.trim(patch.title.value) else p.title;
      match (if patch.members.Some? then ValidMembers(env, rows, p.id, patch.members.value) else Ok(p.members))
      case Ok(members) =>
        if patch.retention.Some? && !RetentionOk(env, patch.retention.value) then BadRequest
        else
          var days := if patch.retention.Some? then patch.retention.value else p.retention;
          if members != [] && days > 0 then Conflict
          else Ok(Project(p.id, title, members, days))
      case BadRequest => BadRequest
      case Conflict => Conflict
  }

  function Update(env: Install, rows: Rows, id: string, patch: Patch): Outcome<Rows> {
    if !Editable(env, rows, id) then Conflict
    else
      match Checked(env, rows, rows[id], patch)
      case Ok(p) => Ok(Save(rows, p))
      case BadRequest => BadRequest
      case Conflict => Conflict
  }

  function Delete(env: Install, rows: Rows, id: string): Outcome<Rows> {
    if Editable(env, rows, id) then Ok(rows - {id}) else Conflict
  }

  datatype Edit =
    | CreateProject(id: string, title: string, days: int)
    | UpdateProject(id: string, patch: Patch)
    | DeleteProject(id: string)

  function Tried(env: Install, rows: Rows, e: Edit): Outcome<Rows> {
    match e
    case CreateProject(id, title, days) => Create(env, rows, id, title, days)
    case UpdateProject(id, patch) => Update(env, rows, id, patch)
    case DeleteProject(id) => Delete(env, rows, id)
  }

  /** A refused edit changes nothing. */
  function Applied(env: Install, rows: Rows, e: Edit): Rows {
    match Tried(env, rows, e)
    case Ok(next) => next
    case _ => rows
  }

  function After(env: Install, edits: seq<Edit>): Rows {
    if edits == [] then map[] else Applied(env, After(env, edits[..|edits| - 1]), edits[|edits| - 1])
  }

  // --------------------------------------------------------------- invariant

  predicate NoRepeats(s: seq<string>) {
    forall i, j :: 0 <= i < j < |s| ==> s[i] != s[j]
  }

  predicate IsLeaf(rows: Rows, id: string) {
    id !in rows || rows[id].members == []
  }

  /** What a row says on its own: it is not its own member, its members are
      distinct ids within the limit, and with members it has no retention. */
  predicate Sound(p: Project) {
    && p.id !in p.members && p.retention >= 0 && (p.members != [] ==> p.retention == 0)
    && |p.members| <= MAX_MEMBERS && NoRepeats(p.members) && forall m :: m in p.members ==> ProjectId(m)
  }

  ghost predicate AllSound(rows: Rows) {
    forall id :: id in rows ==> rows[id].id == id && Sound(rows[id])
  }

  /** One project's membership: sound, and no member is an aggregate. */
  predicate Flat(rows: Rows, id: string) {
    id in rows ==> rows[id].id == id && Sound(rows[id]) && forall m :: m in rows[id].members ==> IsLeaf(rows, m)
  }

  ghost predicate OneLevel(rows: Rows) {
    forall id :: id in rows ==> Flat(rows, id)
  }

  /** The member check, put to these rows, lets `p` through. */
  predicate Room(rows: Rows, p: Project) {
    p.members != [] ==> forall k :: k in rows ==> !Blocks(rows[k], p.id, p.members)
  }

  lemma {:induction false} CleanedIsClean(env: Install, id: string, requested: seq<string>)
    requires Cleaned(env, id, requested).Ok?
    ensures var ms := Cleaned(env, id, requested).value;
            NoRepeats(ms) && id !in ms && forall m :: m in ms ==> ProjectId(m)
  {
    if requested != [] {
      CleanedIsClean(env, id, requested[..|requested| - 1]);
    }
  }

  /** Exactly the trimmed, non-blank names survive the cleaning. */
  lemma {:induction false} CleanedKeepsAll(env: Install, id: string, requested: seq<string>, m: string)
    requires Cleaned(env, id, requested).Ok?
    ensures m in Cleaned(env, id, requested).value
            <==> m != "" && exists i :: 0 <= i < |requested| && env.trim(requested[i]) == m
  {
    if requested != [] {
      var n := |requested| - 1;
      CleanedKeepsAll(env, id, requested[..n], m);
      assert forall i :: 0 <= i < n ==> requested[..n][i] == requested[i];
    }
  }

  lemma SortKeepsMembers(env: Install, s: seq<string>, m: string)
    requires env.Lawful()
    ensures m in env.sort(s) <==> m in s
  {
    assert multiset(env.sort(s)) == multiset(s);
    assert m in env.sort(s) <==> m in multiset(env.sort(s));
  }

  lemma {:induction false} NoRepeatsCounts(s: seq<string>)
    ensures NoRepeats(s) <==> forall x :: multiset(s)[x] <= 1
  {
    if s != [] {
      var n := |s| - 1;
      var front, last := s[..n], s[n];
      NoRepeatsCounts(front);
      assert s == front + [last];
      assert multiset(s)[last] == multiset(front)[last] + 1;
      if NoRepeats(s) {
        assert last !in front;
        assert forall x :: multiset(s)[x] == multiset(front)[x] + if x == last then 1 else 0;
      }
      if forall x :: multiset(s)[x] <= 1 {
        assert forall x :: multiset(front)[x] <= multiset(s)[x];
        assert last !in multiset(front);
        forall i, j | 0 <= i < j < |s| ensures s[i] != s[j] {
          if j == n { assert front[i] in front; }
          else { assert front[i] == s[i] && front[j] == s[j]; }
        }
      }
    }
  }

  lemma SortKeepsNoRepeats(env: Install, s: seq<string>)
    requires env.Lawful() && NoRepeats(s)
    ensures NoRepeats(env.sort(s))
  {
    NoRepeatsCounts(s);
    NoRepeatsCounts(env.sort(s));
  }

  /** What a membership accepted by the checks looks like. */
  lemma ValidMembersAreFlat(env: Install, rows: Rows, id: string, requested: seq<string>)
    requires env.Lawful() && ValidMembers(env, rows, id, requested).Ok?
    ensures var ms := ValidMembers(env, rows, id, requested).value;
            && |ms| <= MAX_MEMBERS && NoRepeats(ms) && id !in ms && (forall m :: m in ms ==> ProjectId(m))
            && (ms != [] ==> forall k :: k in rows ==> !Blocks(rows[k], id, ms))
  {
    var members := Cleaned(env, id, requested).value;
    CleanedIsClean(env, id, requested);
    SortKeepsNoRepeats(env, members);
    forall m ensures m in env.sort(members) <==> m in members { SortKeepsMembers(env, members, m); }
  }

  /** Saving a sound row keeps membership one level deep if and only if the
      member check would let it through at that moment. */
  lemma SaveKeepsOneLevelIff(rows: Rows, p: Project)
    requires OneLevel(rows) && Sound(p)
    ensures OneLevel(Save(rows, p)) <==> Room(rows, p)
  {
    var next := Save(rows, p);
    if Room(rows, p) {
      forall k | k in next ensures Flat(next, k) {
        assert Flat(rows, k);
        forall m | m in next[k].members ensures IsLeaf(next, m) { assert k != p.id ==> IsLeaf(rows, m); }
      }
    } else {
      var k :| k in rows && Blocks(rows[k], p.id, p.members);
      assert Flat(rows, k);
      assert !Flat(next, if k in p.members then p.id else k);
    }
  }

  /** What an update's checks establish; the membership is only checked when the
      update sets it. */
  lemma CheckedIsSound(env: Install, rows: Rows, p: Project, patch: Patch)
    requires env.Lawful() && Sound(p) && Checked(env, rows, p, patch).Ok?
    ensures var q := Checked(env, rows, p, patch).value;
            q.id == p.id && Sound(q) && if patch.members.Some? then Room(rows, q) else q.members == p.members
  {
    if patch.members.Some? { ValidMembersAreFlat(env, rows, p.id, patch.members.value); }
  }

  /** A stored membership passes the check on the rows it is stored in. */
  lemma OwnMembersHaveRoom(rows: Rows, id: string)
    requires OneLevel(rows) && id in rows
    ensures Room(rows, rows[id])
  {
    assert Flat(rows, id);
    forall k | k in rows ensures rows[id].members != [] ==> !Blocks(rows[k], id, rows[id].members) {
      assert Flat(rows, k);
      assert k in rows[id].members ==> IsLeaf(rows, k);
      assert id in rows[k].members ==> IsLeaf(rows, id);
    }
  }

  lemma CreateKeepsOneLevel(env: Install, rows: Rows, id: string, title: string, days: int)
    requires OneLevel(rows)
    ensures OneLevel(Applied(env, rows, CreateProject(id, title, days)))
  {
    if Create(env, rows, id, title, days).Ok? {
      SaveKeepsOneLevelIff(rows, Project(env.trim(id), env.trim(title), [], days));
    }
  }

  lemma UpdateKeepsOneLevel(env: Install, rows: Rows, id: string, patch: Patch)
    requires env.Lawful() && OneLevel(rows)
    ensures OneLevel(Applied(env, rows, UpdateProject(id, patch)))
  {
    if Update(env, rows, id, patch).Ok? {
      assert Flat(rows, id);
      CheckedIsSound(env, rows, rows[id], patch);
      OwnMembersHaveRoom(rows, id);
      SaveKeepsOneLevelIff(rows, Checked(env, rows, rows[id], patch).value);
    }
  }

  lemma RemoveKeepsOneLevel(rows: Rows, id: string)
    requires OneLevel(rows)
    ensures OneLevel(rows - {id})
  {
    forall k | k in rows - {id} ensures Flat(rows - {id}, k) {
      assert Flat(rows, k);
      forall m | m in rows[k].members ensures IsLeaf(rows - {id}, m) { assert IsLeaf(rows, m); }
    }
  }

  lemma EditKeepsOneLevel(env: Install, rows: Rows, e: Edit)
    requires env.Lawful() && OneLevel(rows)
    ensures OneLevel(Applied(env, rows, e))
  {
    match e {
      case CreateProject(id, title, days) => CreateKeepsOneLevel(env, rows, id, title, days);
      case UpdateProject(id, patch) => UpdateKeepsOneLevel(env, rows, id, patch);
      case DeleteProject(id) => RemoveKeepsOneLevel(rows, id);
    }
  }

  /** Membership stays one level deep over every sequence of edits. */
  lemma {:induction false} EditsKeepOneLevel(env: Install, edits: seq<Edit>)
    requires env.Lawful()
    ensures OneLevel(After(env, edits))
  {
    if edits != [] {
      EditsKeepOneLevel(env, edits[..|edits| - 1]);
      EditKeepsOneLevel(env, After(env, edits[..|edits| - 1]), edits[|edits| - 1]);
    }
  }
}
