/** The processor that stamps the validated project on every resource of a
    payload, and the path from the ingest key to the stamp. */
module TenantProcessor {
  import opened IngestAuth

  type Attributes = map<string, string>

  const TENANT: string := "avuru.tenant"

  /** "" when no project was attached. */
  function ProjectFromContext(auth: Option<string>): string {
    if auth.None? then "" else auth.value
  }

  function Stamp(project: string, attributes: Attributes): Attributes {
    if project == "" then attributes else attributes[TENANT := project]
  }

  function Stamped(project: string, resources: seq<Attributes>): (out: seq<Attributes>)
    ensures |out| == |resources| && forall i :: 0 <= i < |out| ==> out[i] == Stamp(project, resources[i])
  {
    seq(|resources|, i requires 0 <= i < |resources| => Stamp(project, resources[i]))
  }

  /** Traces, metrics and logs go through the same loop over their resources. */
  method Process(auth: Option<string>, resources: array<Attributes>)
    modifies resources
    ensures resources[..] == Stamped(ProjectFromContext(auth), old(resources[..]))
  {
    var project := ProjectFromContext(auth);
    if project == "" { return; }
    for i := 0 to resources.Length
      invariant forall j :: 0 <= j < i ==> resources[j] == Stamp(project, old(resources[j]))
      invariant forall j :: i <= j < resources.Length ==> resources[j] == old(resources[j])
    {
      resources[i] := resources[i][TENANT := project];
    }
  }

  /** The project wins over whatever the client claimed, and nothing else moves. */
  lemma StampTouchesOnlyTenant(project: string, resources: seq<Attributes>, i: nat, name: string)
    requires i < |resources|
    ensures var out := Stamped(project, resources)[i];
            if name == TENANT && project != "" then name in out && out[name] == project
            else (name in out <==> name in resources[i]) && (name in out ==> out[name] == resources[i][name])
  {
  }

  /** Every resource carries one non-empty project, which the hub affirmed for
      the key at `since` or later. */
  ghost predicate FullyStamped(out: seq<Attributes>, hubLog: seq<Said>, key: string, since: int) {
    exists project :: Heard(hubLog, key, true, project, since) && CarryAll(out, project)
  }

  predicate CarryAll(out: seq<Attributes>, project: string) {
    project != "" && forall i :: 0 <= i < |out| ==> TENANT in out[i] && out[i][TENANT] == project
  }

  /** The end-to-end promise of enforce mode, exactly: whatever the payload, all
      of it is stamped with a recently affirmed project, if and only if the
      project the hub attached to the key is not empty. */
  lemma EnforceStampsIffProjectNamed(cfg: Config, es: seq<Event>, id: nat)
    requires IsRun(cfg, es) && cfg.mode == Enforce
    requires id in After(cfg, es).requests && After(cfg, es).requests[id].Done?
             && After(cfg, es).requests[id].result.admitted
    ensures var Done(key, now, r) := After(cfg, es).requests[id];
            r.auth.Some? &&
            (r.auth.value != "" <==>
             forall resources: seq<Attributes> ::
               FullyStamped(Stamped(r.auth.value, resources), After(cfg, es).hubLog, key, now - cfg.MaxAge()))
  {
    BoundedStaleness(cfg, es, id);
    var Done(key, now, r) := After(cfg, es).requests[id];
    var project, hubLog, since := r.auth.value, After(cfg, es).hubLog, now - cfg.MaxAge();
    if project != "" {
      forall resources: seq<Attributes> ensures FullyStamped(Stamped(project, resources), hubLog, key, since) {
        assert CarryAll(Stamped(project, resources), project);
      }
    } else {
      var bare: seq<Attributes> := [map[]];
      assert Stamped(project, bare)[0] == map[];
      assert !FullyStamped(Stamped(project, bare), hubLog, key, since);
    }
  }

  /** A hub that names a project with every key it affirms keeps the promise. */
  lemma NamedProjectsSuffice(cfg: Config, es: seq<Event>, id: nat, resources: seq<Attributes>)
    requires IsRun(cfg, es) && cfg.mode == Enforce
    requires id in After(cfg, es).requests && After(cfg, es).requests[id].Done?
             && After(cfg, es).requests[id].result.admitted
    requires forall i :: 0 <= i < |After(cfg, es).hubLog| && After(cfg, es).hubLog[i].valid ==>
               After(cfg, es).hubLog[i].project != ""
    ensures var Done(key, now, r) := After(cfg, es).requests[id];
            FullyStamped(Stamped(ProjectFromContext(r.auth), resources), After(cfg, es).hubLog, key, now - cfg.MaxAge())
  {
    BoundedStaleness(cfg, es, id);
    EnforceStampsIffProjectNamed(cfg, es, id);
  }

  /** The hole: a hub that affirms a key without naming its project lets the
      payload through with whatever tenant the client claimed. */
  lemma UnnamedProjectPassesUnstamped()
    ensures var cfg := Config(Enforce, 30, 300);
            var es := [Arrive(0, "k", 0), Look(0, 0), HubAnswers(0, 0, true, ""), Keep(0, 0)];
            var claimed: seq<Attributes> := [map[TENANT := "someone-else"]];
            && IsRun(cfg, es) && 0 in After(cfg, es).requests
            && After(cfg, es).requests[0] == Done("k", 0, Result(true, Some(""), false))
            && Stamped(ProjectFromContext(Some("")), claimed) == claimed
  {
    var cfg := Config(Enforce, 30, 300);
    var arrive, look, answer, keep := Arrive(0, "k", 0), Look(0, 0), HubAnswers(0, 0, true, ""), Keep(0, 0);
    Extend(cfg, [], arrive);
    Extend(cfg, [] + [arrive], look);
    Extend(cfg, [] + [arrive] + [look], answer);
    Extend(cfg, [] + [arrive] + [look] + [answer], keep);
    assert [] + [arrive] + [look] + [answer] + [keep] == [arrive, look, answer, keep];
  }

  /** Log and off mode leave every payload as it came. */
  lemma OpenModesLeavePayload(cfg: Config, es: seq<Event>, id: nat, resources: seq<Attributes>)
    requires IsRun(cfg, es) && cfg.mode != Enforce && id in After(cfg, es).requests && After(cfg, es).requests[id].Done?
    ensures var r := After(cfg, es).requests[id].result;
            r.admitted && Stamped(ProjectFromContext(r.auth), resources) == resources
  {
    BoundedStaleness(cfg, es, id);
  }
}
