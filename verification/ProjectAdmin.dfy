/** The project handlers as the hub runs them, over the stored rows. */
module ProjectAdmin {
  import opened Projects

  /** The first loop of the member check: trim, validate, deduplicate. */
  method CleanMembers(env: Install, id: string, requested: seq<string>) returns (r: Outcome<seq<string>>)
    ensures r == Cleaned(env, id, requested)
  {
    var seen: set<string> := {};
    var members: seq<string> := [];
    for i := 0 to |requested|
      invariant Cleaned(env, id, requested[..i]) == Ok(members)
      invariant forall m :: m in seen <==> m in members
    {
      assert requested[..i + 1][..i] == requested[..i];
      var m := env.trim(requested[i]);
      if m != "" {
        if !ProjectId(m) || m == id {
          CleanedStops(env, id, requested, i + 1);
          return BadRequest;
        }
        if m !in seen {
          seen, members := seen + {m}, members + [m];
        }
      }
    }
    assert requested[..|requested|] == requested;
    r := Ok(members);
  }

  lemma {:induction false} CleanedStops(env: Install, id: string, requested: seq<string>, i: nat)
    requires i <= |requested| && Cleaned(env, id, requested[..i]).BadRequest?
    ensures Cleaned(env, id, requested).BadRequest?
  {
    if i < |requested| {
      assert requested[..|requested| - 1][..i] == requested[..i];
      CleanedStops(env, id, requested[..|requested| - 1], i);
    } else {
      assert requested[..i] == requested;
    }
  }

  method ValidateMembers(env: Install, rows: Rows, id: string, requested: seq<string>) returns (r: Outcome<seq<string>>)
    ensures r == ValidMembers(env, rows, id, requested)
  {
    var cleaned := CleanMembers(env, id, requested);
    if !cleaned.Ok? { return cleaned; }
    var members := cleaned.value;
    var sorted := env.sort(members);
    if |sorted| > MAX_MEMBERS { return BadRequest; }
    if sorted == [] { return Ok([]); }
    var todo := rows.Keys;
    while todo != {}
      invariant todo <= rows.Keys
      invariant forall k :: k in rows && k !in todo ==> !Blocks(rows[k], id, members)
      decreases |todo|
    {
      var k :| k in todo;
      var p := rows[k];
      if p.id != id && |p.members| > 0 {
        if p.id in members { return Conflict; }
        if id in p.members { return Conflict; }
      }
      todo := todo - {k};
    }
    r := Ok(sorted);
  }

  class Admin {
    const env: Install
    var rows: Rows

    constructor (env: Install)
      ensures this.env == env && rows == After(env, [])
    {
      this.env := env;
      rows := map[];
    }

    method CreateHandler(rawId: string, rawTitle: string, days: int) returns (r: Outcome<()>)
      modifies this
      ensures rows == Applied(env, old(rows), CreateProject(rawId, rawTitle, days))
      ensures r.Ok? <==> Create(env, old(rows), rawId, rawTitle, days).Ok?
      ensures r.Conflict? <==> Create(env, old(rows), rawId, rawTitle, days).Conflict?
    {
      var id, title := env.trim(rawId), env.trim(rawTitle);
      if !ProjectId(id) { return BadRequest; }
      if |title| > MAX_TITLE { return BadRequest; }
      if id in env.reserved { return Conflict; }
      if !RetentionOk(env, days) { return BadRequest; }
      if id in rows { return Conflict; }
      rows := Save(rows, Project(id, title, [], days));
      r := Ok(());
    }

    method UpdateHandler(id: string, patch: Patch) returns (r: Outcome<()>)
      modifies this
      ensures rows == Applied(env, old(rows), UpdateProject(id, patch))
      ensures r.Ok? <==> Update(env, old(rows), id, patch).Ok?
      ensures r.Conflict? <==> Update(env, old(rows), id, patch).Conflict?
    {
      if id in env.reserved || id !in rows { return Conflict; }
      var p := rows[id];
      if patch.title.Some? {
        var title := env.trim(patch.title.value);
        if |title| > MAX_TITLE { return BadRequest; }
        p := p.(title := title);
      }
      if patch.members.Some? {
        var members := ValidateMembers(env, rows, p.id, patch.members.value);
        match members {
          case Ok(ms) => p := p.(members := ms);
          case BadRequest => return BadRequest;
          case Conflict => return Conflict;
        }
      }
      if patch.retention.Some? {
        if !RetentionOk(env, patch.retention.value) { return BadRequest; }
        p := p.(retention := patch.retention.value);
      }
      if |p.members| > 0 && p.retention > 0 { return Conflict; }
      rows := Save(rows, p);
      r := Ok(());
    }

    method DeleteHandler(id: string) returns (r: Outcome<()>)
      modifies this
      ensures rows == Applied(env, old(rows), DeleteProject(id))
      ensures r.Ok? <==> Delete(env, old(rows), id).Ok?
    {
      if id in env.reserved || id !in rows { return Conflict; }
      rows := rows - {id};
      r := Ok(());
    }
  }
}
