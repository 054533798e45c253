/** What a loaded alerting configuration is known to satisfy. */
module RuleValidation {
  import opened Alerting

  /** `trim` is the library call that trims white space. */
  method ValidateRules(trim: string -> string, cfg: Config) returns (ok: bool)
    ensures ok <==>
              && (forall i, j :: 0 <= i < j < |cfg| ==> cfg[i].name != cfg[j].name)
              && (forall i :: 0 <= i < |cfg| ==> trim(cfg[i].name) != "" && trim(cfg[i].channel) != "")
              && (forall i :: 0 <= i < |cfg| ==> cfg[i].when in {"down", "degraded", "not-healthy"})
              && (forall i :: 0 <= i < |cfg| ==>
                    var sel := cfg[i].selector;
                    cfg[i].wait >= 0 && (sel.groups != [] || sel.services != [] || sel.tiers != []))
    ensures ok ==> Valid(cfg) && forall r :: r in cfg ==> r.when in {"down", "degraded", "not-healthy"}
  {
    var seen: set<string> := {};
    for i := 0 to |cfg|
      invariant forall n :: n in seen <==> exists j :: 0 <= j < i && cfg[j].name == n
      invariant forall j :: 0 <= j < i ==> trim(cfg[j].name) != "" && trim(cfg[j].channel) != ""
      invariant forall j :: 0 <= j < i ==> cfg[j].when in {"down", "degraded", "not-healthy"}
      invariant forall j :: 0 <= j < i ==>
                  var sel := cfg[j].selector;
                  cfg[j].wait >= 0 && (sel.groups != [] || sel.services != [] || sel.tiers != [])
      invariant forall j, k :: 0 <= j < k < i ==> cfg[j].name != cfg[k].name
    {
      var r := cfg[i];
      if trim(r.name) == "" { return false; }
      if r.name in seen { return false; }
      seen := seen + {r.name};
      if r.when != "down" && r.when != "degraded" && r.when != "not-healthy" { return false; }
      if r.selector.groups == [] && r.selector.services == [] && r.selector.tiers == [] { return false; }
      if r.wait < 0 { return false; }
      if trim(r.channel) == "" { return false; }
    }
    ok := true;
  }
}
