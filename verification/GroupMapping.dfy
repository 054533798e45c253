/** From identity-provider groups to grants: the config-only mapper, and the
    merge of config rules with rules authored in the database. */
module GroupMapping {
  import opened Roles

  datatype GroupMap = GroupMap(group: string, role: Role, projects: seq<string>)

  /** A stored overlay row; the database does not check its role. */
  datatype Row = Row(group: string, role: string, projects: seq<string>)

  datatype Rule = Rule(group: string, role: Role, projects: seq<string>, source: string, editable: bool, shadowed: bool)

  /** The chart's half: its rules and what to grant when no rule matches. */
  datatype Config = Config(mapping: seq<GroupMap>, defaultRole: Role, defaultProjects: seq<string>) {
    /** What parsing the chart guarantees. */
    predicate Parsed() {
      && (forall i :: 0 <= i < |mapping| ==> Known(mapping[i].role))
      && (defaultRole == "" || Known(defaultRole))
    }
  }

  // --------------------------------------------------------- collecting grants

  function Key(g: Grant): string { g.scope + "|" + g.role }

  predicate Seen(out: seq<Grant>, k: string) {
    exists i :: 0 <= i < |out| && Key(out[i]) == k
  }

  function Add(out: seq<Grant>, g: Grant): seq<Grant> {
    if Seen(out, Key(g)) then out else out + [g]
  }

  function AddProjects(out: seq<Grant>, projects: seq<string>, role: Role): seq<Grant> {
    if projects == [] then out
    else Add(AddProjects(out, projects[..|projects| - 1], role), Grant(projects[|projects| - 1], role))
  }

  /** The rules that match the groups, each with its role and projects. */
  datatype Hit = Hit(role: Role, projects: seq<string>)

  function AddHits(hits: seq<Hit>): seq<Grant> {
    if hits == [] then []
    else AddProjects(AddHits(hits[..|hits| - 1]), hits[|hits| - 1].projects, hits[|hits| - 1].role)
  }

  function ConfigHits(mapping: seq<GroupMap>, groups: set<string>): seq<Hit> {
    if mapping == [] then []
    else
      var m := mapping[|mapping| - 1];
      var front := ConfigHits(mapping[..|mapping| - 1], groups);
      if m.group in groups then front + [Hit(m.role, m.projects)] else front
  }

  predicate Live(r: Rule, groups: set<string>) { !r.shadowed && r.group in groups }

  function RuleHits(rules: seq<Rule>, groups: set<string>): seq<Hit> {
    if rules == [] then []
    else
      var r := rules[|rules| - 1];
      var front := RuleHits(rules[..|rules| - 1], groups);
      if Live(r, groups) then front + [Hit(r.role, r.projects)] else front
  }

  function WithDefault(hits: seq<Hit>, defaultRole: Role, defaultProjects: seq<string>): seq<Grant> {
    if hits == [] && defaultRole != "" then AddProjects([], defaultProjects, defaultRole) else AddHits(hits)
  }

  function MapGroups(cfg: Config, groups: set<string>): seq<Grant> {
    WithDefault(ConfigHits(cfg.mapping, groups), cfg.defaultRole, cfg.defaultProjects)
  }

  function GrantsFor(rules: seq<Rule>, groups: set<string>, defaultRole: Role, defaultProjects: seq<string>):
      seq<Grant> {
    WithDefault(RuleHits(rules, groups), defaultRole, defaultProjects)
  }

  // ------------------------------------------------------------------- merging

  predicate Declared(mapping: seq<GroupMap>, group: string) {
    exists i :: 0 <= i < |mapping| && mapping[i].group == group
  }

  function FromConfig(m: GroupMap): Rule { Rule(m.group, m.role, m.projects, "config", false, false) }

  function FromRow(mapping: seq<GroupMap>, r: Row): Rule {
    Rule(r.group, r.role, r.projects, "db", true, Declared(mapping, r.group))
  }

  function ConfigRules(mapping: seq<GroupMap>): (rules: seq<Rule>)
    ensures |rules| == |mapping| && forall i :: 0 <= i < |mapping| ==> rules[i] == FromConfig(mapping[i])
  {
    seq(|mapping|, i requires 0 <= i < |mapping| => FromConfig(mapping[i]))
  }

  /** Rows whose role is no role are dropped. */
  function RowRules(mapping: seq<GroupMap>, rows: seq<Row>): seq<Rule> {
    if rows == [] then []
    else
      var r := rows[|rows| - 1];
      var front := RowRules(mapping, rows[..|rows| - 1]);
      if Known(r.role) then front + [FromRow(mapping, r)] else front
  }

  function Unsorted(mapping: seq<GroupMap>, rows: seq<Row>): seq<Rule> {
    ConfigRules(mapping) + RowRules(mapping, rows)
  }

  predicate StringLess(a: string, b: string) {
    b != "" && (a == "" || a[0] < b[0] || (a[0] == b[0] && StringLess(a[1..], b[1..])))
  }

  predicate Before(a: Rule, b: Rule) {
    StringLess(a.group, b.group) || (a.group == b.group && StringLess(a.source, b.source))
  }

  predicate SortedRules(rules: seq<Rule>) {
    forall i, j :: 0 <= i < j < |rules| ==> !Before(rules[j], rules[i])
  }

  /** The sort is not stable, so a merge is any sorted arrangement. */
  ghost predicate Merged(mapping: seq<GroupMap>, rows: seq<Row>, out: seq<Rule>) {
    multiset(out) == multiset(Unsorted(mapping, rows)) && SortedRules(out)
  }

  ghost predicate Sorts(sort: seq<Rule> -> seq<Rule>) {
    forall rules :: multiset(sort(rules)) == multiset(rules) && SortedRules(sort(rules))
  }

  /** `sort` is the library's sort by (group, source). */
  method MergeMapping(mapping: seq<GroupMap>, rows: seq<Row>, sort: seq<Rule> -> seq<Rule>) returns (out: seq<Rule>)
    requires Sorts(sort)
    ensures Merged(mapping, rows, out)
  {
    var declared: set<string> := {};
    out := [];
    for i := 0 to |mapping|
      invariant out == ConfigRules(mapping)[..i]
      invariant forall g :: g in declared <==> Declared(mapping[..i], g)
    {
      declared := declared + {mapping[i].group};
      DeclaredSnoc(mapping, i);
      out := out + [Rule(mapping[i].group, mapping[i].role, mapping[i].projects, "config", false, false)];
    }
    assert mapping[..|mapping|] == mapping;
    for i := 0 to |rows|
      invariant out == ConfigRules(mapping) + RowRules(mapping, rows[..i])
    {
      assert rows[..i + 1][..i] == rows[..i];
      var r := rows[i];
      if Known(r.role) {
        out := out + [Rule(r.group, r.role, r.projects, "db", true, r.group in declared)];
      }
    }
    assert rows[..|rows|] == rows;
    out := sort(out);
  }

  lemma DeclaredSnoc(mapping: seq<GroupMap>, i: nat)
    requires i < |mapping|
    ensures forall g :: Declared(mapping[..i + 1], g) <==> Declared(mapping[..i], g) || g == mapping[i].group
  {
    var before, after := mapping[..i], mapping[..i + 1];
    forall g ensures Declared(after, g) <==> Declared(before, g) || g == mapping[i].group {
      if Declared(before, g) {
        var j :| 0 <= j < |before| && before[j].group == g;
        assert after[j].group == g;
      }
      if g == mapping[i].group { assert after[i].group == g; }
      if Declared(after, g) {
        var j :| 0 <= j < |after| && after[j].group == g;
        if j < i { assert before[j].group == g; }
      }
    }
  }

  // ------------------------------------------------------------ loops as coded

  method CollectProjects(out0: seq<Grant>, seen0: set<string>, projects: seq<string>, role: Role)
    returns (out: seq<Grant>, seen: set<string>)
    requires forall k :: k in seen0 <==> Seen(out0, k)
    ensures out == AddProjects(out0, projects, role) && forall k :: k in seen <==> Seen(out, k)
  {
    out, seen := out0, seen0;
    for i := 0 to |projects|
      invariant out == AddProjects(out0, projects[..i], role)
      invariant forall k :: k in seen <==> Seen(out, k)
    {
      assert projects[..i + 1][..i] == projects[..i];
      var g := Grant(projects[i], role);
      if g.scope + "|" + g.role !in seen {
        SeenSnoc(out, g);
        seen, out := seen + {g.scope + "|" + g.role}, out + [g];
      }
    }
    assert projects[..|projects|] == projects;
  }

  lemma SeenSnoc(out: seq<Grant>, g: Grant)
    ensures forall k :: Seen(out + [g], k) <==> Seen(out, k) || k == Key(g)
  {
    var more := out + [g];
    forall k ensures Seen(more, k) <==> Seen(out, k) || k == Key(g) {
      if Seen(out, k) {
        var i :| 0 <= i < |out| && Key(out[i]) == k;
        assert Key(more[i]) == k;
      }
      assert Key(more[|out|]) == Key(g);
      if Seen(more, k) {
        var i :| 0 <= i < |more| && Key(more[i]) == k;
        if i < |out| { assert Key(out[i]) == k; }
      }
    }
  }

  lemma HitsSnoc(hits: seq<Hit>, h: Hit)
    ensures AddHits(hits + [h]) == AddProjects(AddHits(hits), h.projects, h.role)
  {
    assert (hits + [h])[..|hits|] == hits;
  }

  method DeriveGrants(rules: seq<Rule>, groups: set<string>, defaultRole: Role, defaultProjects: seq<string>)
      returns (out: seq<Grant>)
    ensures out == GrantsFor(rules, groups, defaultRole, defaultProjects)
  {
    var seen: set<string> := {};
    var matched := false;
    out := [];
    for i := 0 to |rules|
      invariant out == AddHits(RuleHits(rules[..i], groups)) && matched == (RuleHits(rules[..i], groups) != [])
      invariant forall k :: k in seen <==> Seen(out, k)
    {
      assert rules[..i + 1][..i] == rules[..i];
      var r := rules[i];
      if !r.shadowed && r.group in groups {
        matched := true;
        HitsSnoc(RuleHits(rules[..i], groups), Hit(r.role, r.projects));
        out, seen := CollectProjects(out, seen, r.projects, r.role);
      }
    }
    assert rules[..|rules|] == rules;
    if !matched && defaultRole != "" {
      out, seen := CollectProjects(out, seen, defaultProjects, defaultRole);
    }
  }

  method DeriveConfigGrants(cfg: Config, groups: set<string>) returns (out: seq<Grant>)
    ensures out == MapGroups(cfg, groups)
  {
    var seen: set<string> := {};
    var matched := false;
    out := [];
    for i := 0 to |cfg.mapping|
      invariant out == AddHits(ConfigHits(cfg.mapping[..i], groups))
                && matched == (ConfigHits(cfg.mapping[..i], groups) != [])
      invariant forall k :: k in seen <==> Seen(out, k)
    {
      assert cfg.mapping[..i + 1][..i] == cfg.mapping[..i];
      var m := cfg.mapping[i];
      if m.group in groups {
        matched := true;
        HitsSnoc(ConfigHits(cfg.mapping[..i], groups), Hit(m.role, m.projects));
        out, seen := CollectProjects(out, seen, m.projects, m.role);
      }
    }
    assert cfg.mapping[..|cfg.mapping|] == cfg.mapping;
    if !matched && cfg.defaultRole != "" {
      out, seen := CollectProjects(out, seen, cfg.defaultProjects, cfg.defaultRole);
    }
  }

  // ----------------------------------------------- what ends up being granted

  function LastBar(s: string): int {
    if s == "" then -1 else if s[|s| - 1] == '|' then |s| - 1 else LastBar(s[..|s| - 1])
  }

  lemma {:induction false} LastBarAt(scope: string, role: string)
    requires '|' !in role
    ensures LastBar(scope + "|" + role) == |scope|
  {
    if role == "" {
      assert scope + "|" + role == scope + "|";
    } else {
      var front := role[..|role| - 1];
      LastBarAt(scope, front);
      assert (scope + "|" + role)[..|scope| + |role|] == scope + "|" + front;
    }
  }

  /** Known roles hold no bar, so a key names one grant only. */
  lemma KeyInjective(a: Grant, b: Grant)
    requires Known(a.role) && Known(b.role) && Key(a) == Key(b)
    ensures a == b
  {
    LastBarAt(a.scope, a.role);
    LastBarAt(b.scope, b.role);
    var k, n := Key(a), |a.scope|;
    assert k[..n] == a.scope && k[n + 1..] == a.role;
    assert Key(b)[..n] == b.scope && Key(b)[n + 1..] == b.role;
  }

  predicate NoneTwice(out: seq<Grant>) {
    forall i, j :: 0 <= i < j < |out| ==> out[i] != out[j]
  }

  lemma {:induction false} ProjectsOnce(out: seq<Grant>, projects: seq<string>, role: Role)
    requires NoneTwice(out)
    ensures NoneTwice(AddProjects(out, projects, role))
  {
    if projects != [] { ProjectsOnce(out, projects[..|projects| - 1], role); }
  }

  lemma {:induction false} HitsOnce(hits: seq<Hit>)
    ensures NoneTwice(AddHits(hits))
  {
    if hits != [] {
      HitsOnce(hits[..|hits| - 1]);
      ProjectsOnce(AddHits(hits[..|hits| - 1]), hits[|hits| - 1].projects, hits[|hits| - 1].role);
    }
  }

  /** No mapper gives a grant twice, however rules and their projects overlap. */
  lemma GrantsOnce(cfg: Config, rules: seq<Rule>, groups: set<string>, defaultRole: Role, defaultProjects: seq<string>)
    ensures NoneTwice(GrantsFor(rules, groups, defaultRole, defaultProjects)) && NoneTwice(MapGroups(cfg, groups))
  {
    HitsOnce(RuleHits(rules, groups));
    HitsOnce(ConfigHits(cfg.mapping, groups));
    ProjectsOnce([], defaultProjects, defaultRole);
    ProjectsOnce([], cfg.defaultProjects, cfg.defaultRole);
  }

  predicate KnownAll(out: seq<Grant>) {
    forall i :: 0 <= i < |out| ==> Known(out[i].role)
  }

  lemma AddAddsOne(out: seq<Grant>, g: Grant, x: Grant)
    requires KnownAll(out) && Known(g.role)
    ensures KnownAll(Add(out, g)) && (x in Add(out, g) <==> x in out || x == g)
  {
    if Seen(out, Key(g)) {
      var i :| 0 <= i < |out| && Key(out[i]) == Key(g);
      KeyInjective(out[i], g);
    }
  }

  lemma {:induction false} ProjectsGranted(out: seq<Grant>, projects: seq<string>, role: Role, x: Grant)
    requires KnownAll(out) && Known(role)
    ensures KnownAll(AddProjects(out, projects, role))
    ensures x in AddProjects(out, projects, role) <==> x in out || (x.role == role && x.scope in projects)
  {
    if projects != [] {
      var n := |projects| - 1;
      ProjectsGranted(out, projects[..n], role, x);
      AddAddsOne(AddProjects(out, projects[..n], role), Grant(projects[n], role), x);
      assert projects == projects[..n] + [projects[n]];
    }
  }

  predicate Gives(h: Hit, x: Grant) { x.role == h.role && x.scope in h.projects }

  predicate KnownHits(hits: seq<Hit>) {
    forall i :: 0 <= i < |hits| ==> Known(hits[i].role)
  }

  lemma {:induction false} HitsGranted(hits: seq<Hit>, x: Grant)
    requires KnownHits(hits)
    ensures KnownAll(AddHits(hits))
    ensures x in AddHits(hits) <==> exists h :: h in hits && Gives(h, x)
  {
    if hits != [] {
      var n := |hits| - 1;
      HitsGranted(hits[..n], x);
      ProjectsGranted(AddHits(hits[..n]), hits[n].projects, hits[n].role, x);
      assert hits == hits[..n] + [hits[n]];
      assert x.role == hits[n].role && x.scope in hits[n].projects <==> Gives(hits[n], x);
      assert forall h :: h in hits <==> h in hits[..n] || h == hits[n];
    }
  }

  lemma {:induction false} RuleHitsAre(rules: seq<Rule>, groups: set<string>, h: Hit)
    ensures h in RuleHits(rules, groups) <==> exists r :: r in rules && Live(r, groups) && h == Hit(r.role, r.projects)
  {
    if rules != [] {
      var n := |rules| - 1;
      RuleHitsAre(rules[..n], groups, h);
      assert rules == rules[..n] + [rules[n]];
    }
  }

  lemma {:induction false} ConfigHitsAre(mapping: seq<GroupMap>, groups: set<string>, h: Hit)
    ensures h in ConfigHits(mapping, groups)
            <==> exists m :: m in mapping && m.group in groups && h == Hit(m.role, m.projects)
  {
    if mapping != [] {
      var n := |mapping| - 1;
      ConfigHitsAre(mapping[..n], groups, h);
      assert mapping == mapping[..n] + [mapping[n]];
    }
  }

  lemma {:induction false} RowRulesAre(mapping: seq<GroupMap>, rows: seq<Row>, r: Rule)
    ensures r in RowRules(mapping, rows) <==> exists row :: row in rows && Known(row.role) && r == FromRow(mapping, row)
  {
    if rows != [] {
      var n := |rows| - 1;
      RowRulesAre(mapping, rows[..n], r);
      assert rows == rows[..n] + [rows[n]];
    }
  }

  /** Does a config rule, or an overlay row that counts, match and give `x`? */
  ghost predicate ConfigGives(mapping: seq<GroupMap>, groups: set<string>, x: Grant) {
    exists m :: m in mapping && m.group in groups && Gives(Hit(m.role, m.projects), x)
  }

  predicate Counts(mapping: seq<GroupMap>, row: Row) { Known(row.role) && !Declared(mapping, row.group) }

  ghost predicate OverlayGives(mapping: seq<GroupMap>, rows: seq<Row>, groups: set<string>, x: Grant) {
    exists row :: row in rows && Counts(mapping, row) && row.group in groups && Gives(Hit(row.role, row.projects), x)
  }

  ghost predicate AnyMatch(mapping: seq<GroupMap>, rows: seq<Row>, groups: set<string>) {
    || (exists m :: m in mapping && m.group in groups)
    || (exists row :: row in rows && Counts(mapping, row) && row.group in groups)
  }

  lemma MergedRulesAre(mapping: seq<GroupMap>, rows: seq<Row>, out: seq<Rule>, r: Rule)
    requires Merged(mapping, rows, out)
    ensures r in out <==> (exists m :: m in mapping && r == FromConfig(m))
                          || (exists row :: row in rows && Known(row.role) && r == FromRow(mapping, row))
  {
    var unsorted := Unsorted(mapping, rows);
    assert r in out <==> r in multiset(out);
    assert r in unsorted <==> r in multiset(unsorted);
    RowRulesAre(mapping, rows, r);
    if m :| m in mapping && r == FromConfig(m) {
      var i :| 0 <= i < |mapping| && mapping[i] == m;
      assert ConfigRules(mapping)[i] == r;
    }
  }

  /** The merged list holds the config's rules, and every overlay row with one of
      the three roles; a row is shadowed exactly when the config has a rule for its
      group, and only rows can be edited. */
  lemma MergedRulesExactly(mapping: seq<GroupMap>, rows: seq<Row>, out: seq<Rule>, r: Rule)
    requires Merged(mapping, rows, out)
    ensures r in out <==>
              || (exists m :: m in mapping && r == Rule(m.group, m.role, m.projects, "config", false, false))
              || (exists row ::
                    row in rows && row.role in {"admin", "editor", "viewer"}
                    && r == Rule(row.group, row.role, row.projects, "db", true, r.shadowed)
                    && (r.shadowed <==> exists m :: m in mapping && m.group == row.group))
  {
    MergedRulesAre(mapping, rows, out, r);
    forall row: Row ensures Declared(mapping, row.group) <==> exists m :: m in mapping && m.group == row.group {
      if i :| 0 <= i < |mapping| && mapping[i].group == row.group { assert mapping[i] in mapping; }
    }
  }

  lemma HitSources(mapping: seq<GroupMap>, rows: seq<Row>, out: seq<Rule>, groups: set<string>, h: Hit)
    requires Merged(mapping, rows, out)
    ensures h in RuleHits(out, groups) <==>
              (exists m :: m in mapping && m.group in groups && h == Hit(m.role, m.projects))
              || (exists row ::
                    row in rows && Counts(mapping, row) && row.group in groups && h == Hit(row.role, row.projects))
  {
    RuleHitsAre(out, groups, h);
    if h in RuleHits(out, groups) {
      var r :| r in out && Live(r, groups) && h == Hit(r.role, r.projects);
      MergedRulesAre(mapping, rows, out, r);
    }
    if m :| m in mapping && m.group in groups && h == Hit(m.role, m.projects) {
      MergedRulesAre(mapping, rows, out, FromConfig(m));
      assert Live(FromConfig(m), groups);
    }
    if row :| row in rows && Counts(mapping, row) && row.group in groups && h == Hit(row.role, row.projects) {
      MergedRulesAre(mapping, rows, out, FromRow(mapping, row));
      assert Live(FromRow(mapping, row), groups);
    }
  }

  lemma NoHitsMeansNoMatch(mapping: seq<GroupMap>, rows: seq<Row>, out: seq<Rule>, groups: set<string>)
    requires Merged(mapping, rows, out)
    ensures RuleHits(out, groups) == [] <==> !AnyMatch(mapping, rows, groups)
  {
    var hits := RuleHits(out, groups);
    if hits != [] {
      HitSources(mapping, rows, out, groups, hits[0]);
    }
    if m :| m in mapping && m.group in groups {
      HitSources(mapping, rows, out, groups, Hit(m.role, m.projects));
    }
    if row :| row in rows && Counts(mapping, row) && row.group in groups {
      HitSources(mapping, rows, out, groups, Hit(row.role, row.projects));
    }
  }

  lemma HitsAreKnown(cfg: Config, rows: seq<Row>, out: seq<Rule>, groups: set<string>)
    requires cfg.Parsed() && Merged(cfg.mapping, rows, out)
    ensures KnownHits(RuleHits(out, groups))
  {
    var hits := RuleHits(out, groups);
    forall i | 0 <= i < |hits| ensures Known(hits[i].role) {
      HitSources(cfg.mapping, rows, out, groups, hits[i]);
    }
  }

  /** The grants of the merged mapping, from its inputs alone: what a matching
      config rule gives, what a matching overlay row gives if its role is one
      and its group is not declared, and the default when neither matches. */
  lemma GrantsExactly(cfg: Config, rows: seq<Row>, out: seq<Rule>, groups: set<string>, x: Grant)
    requires cfg.Parsed() && Merged(cfg.mapping, rows, out)
    ensures x in GrantsFor(out, groups, cfg.defaultRole, cfg.defaultProjects) <==>
              || ConfigGives(cfg.mapping, groups, x)
              || OverlayGives(cfg.mapping, rows, groups, x)
              || (!AnyMatch(cfg.mapping, rows, groups) && cfg.defaultRole != "" && x.role == cfg.defaultRole
                  && x.scope in cfg.defaultProjects)
  {
    var hits := RuleHits(out, groups);
    NoHitsMeansNoMatch(cfg.mapping, rows, out, groups);
    HitsAreKnown(cfg, rows, out, groups);
    HitsGranted(hits, x);
    if hits == [] && cfg.defaultRole != "" { ProjectsGranted([], cfg.defaultProjects, cfg.defaultRole, x); }
    if h :| h in hits && Gives(h, x) { HitSources(cfg.mapping, rows, out, groups, h); }
    if m :| m in cfg.mapping && m.group in groups && Gives(Hit(m.role, m.projects), x) {
      HitSources(cfg.mapping, rows, out, groups, Hit(m.role, m.projects));
    }
    if row :| row in rows && Counts(cfg.mapping, row) && row.group in groups && Gives(Hit(row.role, row.projects), x) {
      HitSources(cfg.mapping, rows, out, groups, Hit(row.role, row.projects));
    }
  }

  /** The same for the config-only mapper. */
  lemma ConfigGrantsExactly(cfg: Config, groups: set<string>, x: Grant)
    requires cfg.Parsed()
    ensures x in MapGroups(cfg, groups) <==>
              || ConfigGives(cfg.mapping, groups, x)
              || (!AnyMatch(cfg.mapping, [], groups) && cfg.defaultRole != "" && x.role == cfg.defaultRole
                  && x.scope in cfg.defaultProjects)
  {
    var hits := ConfigHits(cfg.mapping, groups);
    forall i | 0 <= i < |hits| ensures Known(hits[i].role) { ConfigHitsAre(cfg.mapping, groups, hits[i]); }
    HitsGranted(hits, x);
    if hits == [] && cfg.defaultRole != "" { ProjectsGranted([], cfg.defaultProjects, cfg.defaultRole, x); }
    if hits != [] { ConfigHitsAre(cfg.mapping, groups, hits[0]); }
    if m :| m in cfg.mapping && m.group in groups { ConfigHitsAre(cfg.mapping, groups, Hit(m.role, m.projects)); }
    if h :| h in hits && Gives(h, x) { ConfigHitsAre(cfg.mapping, groups, h); }
    if m :| m in cfg.mapping && m.group in groups && Gives(Hit(m.role, m.projects), x) {
      ConfigHitsAre(cfg.mapping, groups, Hit(m.role, m.projects));
    }
  }

  /** No overlay row counts: it is empty, shadowed, or its role is no role. */
  predicate Inert(mapping: seq<GroupMap>, rows: seq<Row>) {
    forall i :: 0 <= i < |rows| ==> !Counts(mapping, rows[i])
  }

  /** An inert overlay changes no grant, hence no role on any project. */
  lemma InertOverlayChangesNothing(cfg: Config, rows: seq<Row>, out: seq<Rule>, groups: set<string>, project: string)
    requires cfg.Parsed() && Merged(cfg.mapping, rows, out) && Inert(cfg.mapping, rows)
    ensures var merged := GrantsFor(out, groups, cfg.defaultRole, cfg.defaultProjects);
            && (forall x: Grant :: x in merged <==> x in MapGroups(cfg, groups))
            && RoleFor(merged, project) == RoleFor(MapGroups(cfg, groups), project)
  {
    var merged := GrantsFor(out, groups, cfg.defaultRole, cfg.defaultProjects);
    forall x: Grant ensures x in merged <==> x in MapGroups(cfg, groups) {
      GrantsExactly(cfg, rows, out, groups, x);
      ConfigGrantsExactly(cfg, groups, x);
    }
    RoleForSameGrants(merged, MapGroups(cfg, groups), project);
  }

  /** The overlay can only add while a config rule matches: whatever role such
      a rule gives on a project, the merged mapping gives at least that. */
  lemma ConfigGrantsSurvive(cfg: Config, rows: seq<Row>, out: seq<Rule>, groups: set<string>, project: string)
    requires cfg.Parsed() && Merged(cfg.mapping, rows, out) && AnyMatch(cfg.mapping, [], groups)
    ensures var merged := GrantsFor(out, groups, cfg.defaultRole, cfg.defaultProjects);
            && (forall x: Grant :: x in MapGroups(cfg, groups) ==> x in merged)
            && (RoleFor(MapGroups(cfg, groups), project).Some? ==>
                  RoleFor(merged, project).Some?
                  && Rank(RoleFor(merged, project).value) >= Rank(RoleFor(MapGroups(cfg, groups), project).value))
  {
    var merged := GrantsFor(out, groups, cfg.defaultRole, cfg.defaultProjects);
    forall x: Grant ensures x in MapGroups(cfg, groups) ==> x in merged {
      GrantsExactly(cfg, rows, out, groups, x);
      ConfigGrantsExactly(cfg, groups, x);
    }
    RoleForAtMost(MapGroups(cfg, groups), merged, project);
  }

  /** In the merged list, a group's config rules come before its overlay rows. */
  lemma ConfigRulesFirst(mapping: seq<GroupMap>, rows: seq<Row>, out: seq<Rule>, i: nat, j: nat)
    requires Merged(mapping, rows, out) && i < |out| && j < |out|
    requires out[i].group == out[j].group && out[i].source == "config" && out[j].source == "db"
    ensures i < j
  {
    assert StringLess("config", "db");
    assert Before(out[i], out[j]);
    assert i != j;
  }
}
