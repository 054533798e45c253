/** From a request's project to the tenants its queries read. */
module ProjectTenants {
  import opened Projects
  import Roles

  type Grants = seq<Roles.Grant>

  function Members(rows: Rows, id: string): seq<string> {
    if id in rows then rows[id].members else []
  }

  /** An aggregate stands for its members, anything else for itself. */
  function Expand(rows: Rows, id: string): seq<string> {
    if Members(rows, id) == [] then [id] else Members(rows, id)
  }

  // ----------------------------------------------------- transitive closure

  /** Each project on the path is a member of the one before it. */
  predicate Path(rows: Rows, path: seq<string>) {
    |path| > 0 &&
    (|path| > 1 ==> path[|path| - 1] in Members(rows, path[|path| - 2]) && Path(rows, path[..|path| - 1]))
  }

  lemma NoSecondStep(rows: Rows, top: string, middle: string, bottom: string)
    requires OneLevel(rows) && middle in Members(rows, top)
    ensures bottom !in Members(rows, middle)
  {
    assert Flat(rows, top);
    assert IsLeaf(rows, middle);
  }

  lemma PathsAreShort(rows: Rows, path: seq<string>)
    requires OneLevel(rows)
    ensures Path(rows, path) ==> |path| <= 2
  {
    if |path| > 2 {
      var n := |path|;
      var front := path[..n - 1];
      assert front[n - 2] == path[n - 2] && front[n - 3] == path[n - 3];
      assert Path(rows, path) ==> path[n - 1] in Members(rows, path[n - 2]) && Path(rows, front);
      assert Path(rows, front) ==> path[n - 2] in Members(rows, path[n - 3]);
      if path[n - 2] in Members(rows, path[n - 3]) {
        NoSecondStep(rows, path[n - 3], path[n - 2], path[n - 1]);
      }
    }
  }

  predicate Leads(rows: Rows, path: seq<string>, from: string, to: string) {
    Path(rows, path) && path[0] == from && path[|path| - 1] == to
  }

  lemma ShortPaths(rows: Rows, id: string, x: string)
    ensures Leads(rows, [id], id, id)
    ensures x in Members(rows, id) ==> Leads(rows, [id, x], id, x)
  {
    assert [id, x][..1] == [id];
  }

  lemma ShortPathsOnly(rows: Rows, path: seq<string>, id: string, x: string)
    requires OneLevel(rows) && Leads(rows, path, id, x)
    ensures x == id || x in Members(rows, id)
  {
    PathsAreShort(rows, path);
  }

  /** Expanding once reaches every leaf the membership leads to, and only
      leaves: one expansion is the transitive closure. */
  lemma ExpandIsClosure(rows: Rows, id: string, x: string)
    requires OneLevel(rows)
    ensures x in Expand(rows, id) <==> IsLeaf(rows, x) && exists path :: Leads(rows, path, id, x)
  {
    ShortPaths(rows, id, x);
    assert Flat(rows, id);
    if path :| Leads(rows, path, id, x) { ShortPathsOnly(rows, path, id, x); }
  }

  // ------------------------------------------------------------ authorization

  datatype Reply = Tenants(ids: seq<string>) | Forbidden

  /** The members the caller holds some role on, in order. */
  function Visible(members: seq<string>, grants: Grants): seq<string> {
    if members == [] then []
    else
      var m := members[|members| - 1];
      Visible(members[..|members| - 1], grants) + if Roles.RoleFor(grants, m).Some? then [m] else []
  }

  /** `who` is None when authentication is disabled. */
  function ResolveTenants(rows: Rows, project: string, who: Option<Grants>): Reply {
    var members := Members(rows, project);
    if members == [] then Tenants([project])
    else if who.None? then Tenants(members)
    else if Visible(members, who.value) == [] then Forbidden
    else Tenants(Visible(members, who.value))
  }

  method FindTenants(rows: Rows, project: string, who: Option<Grants>) returns (r: Reply)
    ensures r == ResolveTenants(rows, project, who)
  {
    var members: seq<string> := [];
    if project in rows { members := rows[project].members; }
    if |members| == 0 { return Tenants([project]); }
    if who.None? { return Tenants(members); }
    var out: seq<string> := [];
    for i := 0 to |members|
      invariant out == Visible(members[..i], who.value)
    {
      assert members[..i + 1][..i] == members[..i];
      var role := Roles.FindRole(who.value, members[i]);
      if role.Some? { out := out + [members[i]]; }
    }
    assert members[..|members|] == members;
    if out == [] { return Forbidden; }
    r := Tenants(out);
  }

  const DEFAULT: string := "default"

  /** The project a request names: the OAuth token's own project wins, and a
      header naming another one is refused. */
  function NamedProject(header: string, bound: Option<string>): Option<string> {
    if bound.Some? && bound.value != "" then
      if header != "" && header != bound.value then None else bound
    else Some(if header == "" then DEFAULT else header)
  }

  function AuthorizedProject(header: string, bound: Option<string>, who: Option<Grants>, need: Roles.Role):
      Option<string> {
    match NamedProject(header, bound)
    case None => None
    case Some(project) =>
      if who.Some? && !Roles.CanAccess(who.value, project, need) then None else Some(project)
  }

  function RequestTenants(rows: Rows, header: string, bound: Option<string>, who: Option<Grants>, need: Roles.Role):
      Reply {
    match AuthorizedProject(header, bound, who, need)
    case None => Forbidden
    case Some(project) => ResolveTenants(rows, project, who)
  }

  /** A token bound to a project speaks for it alone: naming no project or that one
      comes to the same, and naming another is refused. */
  lemma BoundTokenNames(rows: Rows, header: string, bound: string, who: Option<Grants>, need: Roles.Role)
    requires bound != ""
    ensures RequestTenants(rows, header, Some(bound), who, need)
            == if header == "" || header == bound then RequestTenants(rows, bound, None, who, need) else Forbidden
  {
  }

  /** Otherwise the header names the project, and none means the default one. */
  lemma HeaderNames(rows: Rows, header: string, who: Option<Grants>, need: Roles.Role)
    ensures RequestTenants(rows, header, Some(""), who, need) == RequestTenants(rows, header, None, who, need)
    ensures RequestTenants(rows, "", None, who, need) == RequestTenants(rows, "default", None, who, need)
    ensures header != "" && Members(rows, header) == [] && RequestTenants(rows, header, None, who, need).Tenants? ==>
              RequestTenants(rows, header, None, who, need) == Tenants([header])
  {
  }

  lemma {:induction false} VisibleExactly(members: seq<string>, grants: Grants, t: string)
    ensures t in Visible(members, grants) <==> t in members && Roles.RoleFor(grants, t).Some?
  {
    if members != [] {
      VisibleExactly(members[..|members| - 1], grants, t);
      assert members == members[..|members| - 1] + [members[|members| - 1]];
    }
  }

  /** May the caller view this tenant? */
  predicate Views(who: Option<Grants>, t: string) {
    who.None? || Roles.CanAccess(who.value, t, Roles.VIEWER)
  }

  /** The tenants returned after authorization are exactly the viewable leaves
      the named project leads to, never none, and never more than its scope. */
  lemma TenantsAreAuthorized(rows: Rows, header: string, bound: Option<string>, who: Option<Grants>, need: Roles.Role,
      t: string)
    requires OneLevel(rows) && RequestTenants(rows, header, bound, who, need).Tenants?
    ensures var project := NamedProject(header, bound);
            && project.Some?
            && RequestTenants(rows, header, bound, who, need).ids != []
            && (t in RequestTenants(rows, header, bound, who, need).ids
                <==> Views(who, t) && IsLeaf(rows, t) && exists path :: Leads(rows, path, project.value, t))
  {
    var project := NamedProject(header, bound).value;
    ExpandIsClosure(rows, project, t);
    if who.Some? {
      VisibleExactly(Members(rows, project), who.value, t);
      Roles.AnyRoleViews(who.value, t);
      Roles.AnyRoleViews(who.value, project);
      LeafIsViewed(who.value, project, need);
    }
  }

  /** Access at any role is access to view. */
  lemma LeafIsViewed(grants: Grants, project: string, need: Roles.Role)
    requires Roles.CanAccess(grants, project, need)
    ensures Roles.CanAccess(grants, project, Roles.VIEWER)
  {
  }

  /** A request is refused exactly when its header disagrees with its token, its
      role on the project falls short, or the project is an aggregate of which
      it may view no member. */
  lemma RefusedExactly(rows: Rows, header: string, bound: Option<string>, who: Option<Grants>, need: Roles.Role)
    ensures var named := NamedProject(header, bound);
            RequestTenants(rows, header, bound, who, need).Forbidden?
            <==> || named.None?
                 || (who.Some? && !Roles.CanAccess(who.value, named.value, need))
                 || (who.Some? && Members(rows, named.value) != []
                     && forall m :: m in Members(rows, named.value) ==> !Views(who, m))
  {
    var named := NamedProject(header, bound);
    if named.Some? && who.Some? {
      var members := Members(rows, named.value);
      forall m ensures m in Visible(members, who.value) <==> m in members && Views(who, m) {
        VisibleExactly(members, who.value, m);
        Roles.AnyRoleViews(who.value, m);
      }
      if Visible(members, who.value) != [] {
        assert Visible(members, who.value)[0] in Visible(members, who.value);
      }
    }
  }

  /** A token bound to a project reads inside that project whatever the header. */
  lemma BoundTokenStaysInside(rows: Rows, header: string, project: string, who: Option<Grants>, need: Roles.Role)
    requires project != "" && RequestTenants(rows, header, Some(project), who, need).Tenants?
    ensures forall t :: t in RequestTenants(rows, header, Some(project), who, need).ids ==> t in Expand(rows, project)
  {
    if who.Some? {
      forall t ensures t in Visible(Members(rows, project), who.value) ==> t in Members(rows, project) {
        VisibleExactly(Members(rows, project), who.value, t);
      }
    }
  }

  /** Over every history of edits, and for every caller. */
  lemma TenantsAfterEdits(env: Install, edits: seq<Edit>, header: string, bound: Option<string>, who: Option<Grants>,
      need: Roles.Role)
    requires env.Lawful() && RequestTenants(After(env, edits), header, bound, who, need).Tenants?
    ensures var ids := RequestTenants(After(env, edits), header, bound, who, need).ids;
            ids != [] && forall t :: t in ids ==> Views(who, t) && IsLeaf(After(env, edits), t)
  {
    EditsKeepOneLevel(env, edits);
    forall t ensures var ids := RequestTenants(After(env, edits), header, bound, who, need).ids;
                     ids != [] && (t in ids ==> Views(who, t) && IsLeaf(After(env, edits), t))
    {
      TenantsAreAuthorized(After(env, edits), header, bound, who, need, t);
    }
  }
}
