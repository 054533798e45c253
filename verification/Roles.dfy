/** Roles, grants and what an identity may do on a project. */
module Roles {

  datatype Option<+T> = None | Some(value: T)

  /** A role as stored: only three strings are roles. */
  type Role = string

  const ADMIN: Role := "admin"
  const EDITOR: Role := "editor"
  const VIEWER: Role := "viewer"

  function Rank(r: Role): int {
    if r == ADMIN then 3 else if r == EDITOR then 2 else if r == VIEWER then 1 else 0
  }

  predicate Known(r: Role) { Rank(r) > 0 }

  predicate Allows(r: Role, need: Role) {
    Known(need) && Rank(r) >= Rank(need)
  }

  datatype Grant = Grant(scope: string, role: Role)

  predicate Covers(g: Grant, project: string) {
    (g.scope == "*" || g.scope == project) && Known(g.role)
  }

  /** The strongest role held on the project, the earliest of equals. */
  function RoleFor(grants: seq<Grant>, project: string): Option<Role> {
    if grants == [] then None
    else
      var best, g := RoleFor(grants[..|grants| - 1], project), grants[|grants| - 1];
      if Covers(g, project) && (best.None? || Rank(g.role) > Rank(best.value)) then Some(g.role) else best
  }

  predicate CanAccess(grants: seq<Grant>, project: string, need: Role) {
    RoleFor(grants, project).Some? && Allows(RoleFor(grants, project).value, need)
  }

  method FindRole(grants: seq<Grant>, project: string) returns (best: Option<Role>)
    ensures best == RoleFor(grants, project)
  {
    best := None;
    for i := 0 to |grants|
      invariant best == RoleFor(grants[..i], project)
    {
      assert grants[..i + 1][..i] == grants[..i];
      var g := grants[i];
      if g.scope == "*" || g.scope == project {
        if Known(g.role) && (best.None? || Rank(g.role) > Rank(best.value)) {
          best := Some(g.role);
        }
      }
    }
    assert grants[..|grants|] == grants;
  }

  /** The role is one the identity holds, and no covering grant beats it. */
  lemma {:induction false} RoleForIsStrongest(grants: seq<Grant>, project: string, g: Grant)
    ensures g in grants && Covers(g, project) ==>
              RoleFor(grants, project).Some? && Rank(RoleFor(grants, project).value) >= Rank(g.role)
    ensures RoleFor(grants, project).Some? ==>
              exists h :: h in grants && Covers(h, project) && h.role == RoleFor(grants, project).value
  {
    if grants != [] {
      var n := |grants| - 1;
      RoleForIsStrongest(grants[..n], project, g);
      assert grants == grants[..n] + [grants[n]];
      if RoleFor(grants[..n], project).Some? {
        var h :| h in grants[..n] && Covers(h, project) && h.role == RoleFor(grants[..n], project).value;
        assert h in grants;
      }
      assert grants[n] in grants;
    }
  }

  /** A grant of this role on the project, or on every project. */
  predicate Holds(grants: seq<Grant>, project: string, role: Role) {
    exists i :: 0 <= i < |grants| && grants[i].role == role && (grants[i].scope == "*" || grants[i].scope == project)
  }

  /** The role on a project is the first held of admin, editor and viewer. */
  lemma {:induction false} RoleIsFirstHeld(grants: seq<Grant>, project: string)
    ensures RoleFor(grants, project) ==
            if Holds(grants, project, "admin") then Some("admin")
            else if Holds(grants, project, "editor") then Some("editor")
            else if Holds(grants, project, "viewer") then Some("viewer") else None
  {
    if grants != [] {
      var n := |grants| - 1;
      RoleIsFirstHeld(grants[..n], project);
      forall role ensures Holds(grants, project, role) <==>
                          Holds(grants[..n], project, role)
                          || (grants[n].role == role && (grants[n].scope == "*" || grants[n].scope == project))
      {
        HoldsOneMore(grants, project, role);
      }
    }
  }

  lemma HoldsOneMore(grants: seq<Grant>, project: string, role: Role)
    requires grants != []
    ensures var n := |grants| - 1;
            Holds(grants, project, role) <==>
            Holds(grants[..n], project, role)
            || (grants[n].role == role && (grants[n].scope == "*" || grants[n].scope == project))
  {
    var n := |grants| - 1;
    if Holds(grants[..n], project, role) {
      var i :| 0 <= i < n && grants[..n][i].role == role
          && (grants[..n][i].scope == "*" || grants[..n][i].scope == project);
      assert grants[i].role == role;
    }
    if i :| 0 <= i < n && grants[i].role == role && (grants[i].scope == "*" || grants[i].scope == project) {
      assert grants[..n][i] == grants[i];
    }
  }

  /** What each need admits. */
  lemma AccessIsHeld(grants: seq<Grant>, project: string, need: Role)
    ensures CanAccess(grants, project, need) <==>
              || (Holds(grants, project, "admin") && need in {"admin", "editor", "viewer"})
              || (Holds(grants, project, "editor") && need in {"editor", "viewer"})
              || (Holds(grants, project, "viewer") && need == "viewer")
  {
    RoleIsFirstHeld(grants, project);
  }

  lemma RoleForAtMost(grants: seq<Grant>, more: seq<Grant>, project: string)
    requires forall g :: g in grants ==> g in more
    ensures RoleFor(grants, project).Some? ==>
              RoleFor(more, project).Some? && Rank(RoleFor(grants, project).value) <= Rank(RoleFor(more, project).value)
  {
    RoleForIsStrongest(grants, project, Grant("", ""));
    if RoleFor(grants, project).Some? {
      var h :| h in grants && Covers(h, project) && h.role == RoleFor(grants, project).value;
      RoleForIsStrongest(more, project, h);
    }
  }

  /** Order and repetition of grants never matter. */
  lemma RoleForSameGrants(a: seq<Grant>, b: seq<Grant>, project: string)
    requires forall g :: g in a <==> g in b
    ensures RoleFor(a, project) == RoleFor(b, project)
  {
    RoleForAtMost(a, b, project);
    RoleForAtMost(b, a, project);
    RoleForIsStrongest(a, project, Grant("", ""));
    RoleForIsStrongest(b, project, Grant("", ""));
  }

  /** Holding any role on a project is viewer access to it. */
  lemma AnyRoleViews(grants: seq<Grant>, project: string)
    ensures RoleFor(grants, project).Some? <==> CanAccess(grants, project, VIEWER)
  {
    RoleForIsStrongest(grants, project, Grant("", ""));
  }
}
