/** The live group mapping: a config half that a hot reload swaps, and a merged
    snapshot that a refresh swaps, each behind its own atomic pointer. */
module MappingCache {
  import opened Roles
  import opened GroupMapping

  /** Merged rules together with the defaults they were merged with. */
  datatype Snapshot = Snapshot(rules: seq<Rule>, defaultRole: Role, defaultProjects: seq<string>) {
    function Grants(groups: set<string>): seq<Grant> {
      GrantsFor(rules, groups, defaultRole, defaultProjects)
    }
  }

  const EMPTY_CONFIG: Config := Config([], "", [])
  const EMPTY_SNAPSHOT: Snapshot := Snapshot([], "", [])

  /** What reading the overlay gives: no store yet, a failed query, or rows. */
  datatype Overlay = NoStore | QueryFailed | Stored(rows: seq<Row>)

  function OverlayRows(o: Overlay): seq<Row>
    requires !o.QueryFailed?
  {
    if o.NoStore? then [] else o.rows
  }

  /** The snapshot is one config's rules merged with some overlay, carrying
      that same config's defaults. */
  ghost predicate Pairs(s: Snapshot, cfg: Config, rows: seq<Row>) {
    Merged(cfg.mapping, rows, s.rules) && s.defaultRole == cfg.defaultRole && s.defaultProjects == cfg.defaultProjects
  }

  class Cache {
    var cfg: Config
    var snapshot: Snapshot

    constructor ()
      ensures cfg == EMPTY_CONFIG && snapshot == EMPTY_SNAPSHOT && Pairs(snapshot, cfg, [])
    {
      cfg, snapshot := EMPTY_CONFIG, EMPTY_SNAPSHOT;
    }

    method SetConfig(next: Config)
      modifies this
      ensures cfg == next && snapshot == old(snapshot)
    {
      cfg := next;
    }

    /** A failed query keeps the last good snapshot; an absent store does not
        fail, it has no overlay. */
    method Refresh(overlay: Overlay, sort: seq<Rule> -> seq<Rule>) returns (ok: bool)
      requires Sorts(sort)
      modifies this
      ensures cfg == old(cfg) && ok == !overlay.QueryFailed?
      ensures if ok then Pairs(snapshot, cfg, OverlayRows(overlay)) else snapshot == old(snapshot)
    {
      var loaded := cfg;
      var rows: seq<Row> := [];
      match overlay {
        case NoStore =>
        case QueryFailed => return false;
        case Stored(found) => rows := found;
      }
      var rules := MergeMapping(loaded.mapping, rows, sort);
      snapshot := Snapshot(rules, loaded.defaultRole, loaded.defaultProjects);
      ok := true;
    }

    method Mapper(groups: set<string>) returns (grants: seq<Grant>)
      ensures grants == snapshot.Grants(groups)
    {
      grants := DeriveGrants(snapshot.rules, groups, snapshot.defaultRole, snapshot.defaultProjects);
    }
  }

  // ------------------------------------------------------------- interleaving

  /** `loaded` are the refreshes that have read the config and not yet stored
      a snapshot; `configs` are all the configs there ever were. */
  datatype State = State(cfg: Config, snapshot: Snapshot, loaded: map<nat, Config>, configs: set<Config>)

  const START: State := State(EMPTY_CONFIG, EMPTY_SNAPSHOT, map[], {EMPTY_CONFIG})

  datatype Event =
    | SetConfig(next: Config)
    | Load(id: nat)
    | Fail(id: nat)
    | Swap(id: nat, rows: seq<Row>, rules: seq<Rule>)

  ghost predicate Enabled(s: State, e: Event) {
    match e
    case SetConfig(next) => next.Parsed()
    case Load(id) => id !in s.loaded
    case Fail(id) => id in s.loaded
    case Swap(id, rows, rules) => id in s.loaded && Merged(s.loaded[id].mapping, rows, rules)
  }

  function Apply(s: State, e: Event): State {
    match e
    case SetConfig(next) => s.(cfg := next, configs := s.configs + {next})
    case Load(id) => s.(loaded := s.loaded[id := s.cfg])
    case Fail(id) => s.(loaded := s.loaded - {id})
    case Swap(id, _, rules) =>
      if id !in s.loaded then s
      else s.(snapshot := Snapshot(rules, s.loaded[id].defaultRole, s.loaded[id].defaultProjects),
          loaded := s.loaded - {id})
  }

  function After(es: seq<Event>): State {
    if es == [] then START else Apply(After(es[..|es| - 1]), es[|es| - 1])
  }

  ghost predicate IsRun(es: seq<Event>) {
    es == [] || (IsRun(es[..|es| - 1]) && Enabled(After(es[..|es| - 1]), es[|es| - 1]))
  }

  ghost predicate Consistent(s: State) {
    exists cfg, rows :: cfg in s.configs && Pairs(s.snapshot, cfg, rows)
  }

  ghost predicate Inv(s: State) {
    && Consistent(s) && s.cfg in s.configs
    && (forall c :: c in s.configs ==> c.Parsed())
    && (forall id :: id in s.loaded ==> s.loaded[id] in s.configs)
  }

  lemma ApplyKeepsInv(s: State, e: Event)
    requires Inv(s) && Enabled(s, e)
    ensures Inv(Apply(s, e))
  {
    var next := Apply(s, e);
    if e.Swap? {
      assert Pairs(next.snapshot, s.loaded[e.id], e.rows);
    } else {
      var cfg, rows :| cfg in s.configs && Pairs(s.snapshot, cfg, rows);
      assert cfg in next.configs && Pairs(next.snapshot, cfg, rows);
    }
  }

  lemma {:induction false} RunKeepsInv(es: seq<Event>)
    requires IsRun(es)
    ensures Inv(After(es))
  {
    if es == [] {
      assert Merged([], [], EMPTY_SNAPSHOT.rules);
      assert Pairs(EMPTY_SNAPSHOT, EMPTY_CONFIG, []);
    } else {
      RunKeepsInv(es[..|es| - 1]);
      ApplyKeepsInv(After(es[..|es| - 1]), es[|es| - 1]);
    }
  }

  /** However reloads and refreshes race, what the mapper grants is always what
      one single config grants with one reading of the overlay. */
  lemma SnapshotIsOneConfig(es: seq<Event>, groups: set<string>) returns (cfg: Config, rows: seq<Row>)
    requires IsRun(es)
    ensures cfg in After(es).configs && cfg.Parsed() && Pairs(After(es).snapshot, cfg, rows)
    ensures forall x: Grant :: x in After(es).snapshot.Grants(groups) <==>
              || ConfigGives(cfg.mapping, groups, x)
              || OverlayGives(cfg.mapping, rows, groups, x)
              || (!AnyMatch(cfg.mapping, rows, groups) && cfg.defaultRole != "" && x.role == cfg.defaultRole
                  && x.scope in cfg.defaultProjects)
  {
    RunKeepsInv(es);
    cfg, rows :| cfg in After(es).configs && Pairs(After(es).snapshot, cfg, rows);
    forall x: Grant ensures x in After(es).snapshot.Grants(groups) <==>
              || ConfigGives(cfg.mapping, groups, x)
              || OverlayGives(cfg.mapping, rows, groups, x)
              || (!AnyMatch(cfg.mapping, rows, groups) && cfg.defaultRole != "" && x.role == cfg.defaultRole
                  && x.scope in cfg.defaultProjects)
    {
      GrantsExactly(cfg, rows, After(es).snapshot.rules, groups, x);
    }
  }

  // ------------------------------------------------- which config is enforced

  /** How many reloads there have been: the generation of the config. */
  function Generation(es: seq<Event>): nat {
    if es == [] then 0
    else Generation(es[..|es| - 1]) + if es[|es| - 1].SetConfig? then 1 else 0
  }

  /** The generations the hub carries along: each refresh keeps the one it
      loaded, and a swap makes it the snapshot's. */
  datatype Stamps = Stamps(snapshot: nat, loaded: map<nat, nat>)

  function Stamped(es: seq<Event>): Stamps {
    if es == [] then Stamps(0, map[])
    else
      var front, e := es[..|es| - 1], es[|es| - 1];
      var s := Stamped(front);
      match e
      case SetConfig(_) => s
      case Load(id) => s.(loaded := s.loaded[id := Generation(front)])
      case Fail(id) => s.(loaded := s.loaded - {id})
      case Swap(id, _, _) => if id in s.loaded then Stamps(s.loaded[id], s.loaded - {id}) else s
  }

  /** No reload at position `n` or later. */
  predicate NoReload(es: seq<Event>, n: nat) {
    forall i :: n <= i < |es| ==> !es[i].SetConfig?
  }

  /** Where `id` was last loaded; 0 if never. */
  function LastLoad(es: seq<Event>, id: nat): nat {
    if es == [] then 0
    else if es[|es| - 1] == Load(id) then |es| - 1
    else LastLoad(es[..|es| - 1], id)
  }

  /** Where the refresh behind the snapshot loaded its config: the last load of
      the last swap's refresh. The first snapshot counts as loaded at the start. */
  function SourceLoad(es: seq<Event>): nat {
    if es == [] then 0
    else
      var front, e := es[..|es| - 1], es[|es| - 1];
      if e.Swap? then LastLoad(front, e.id) else SourceLoad(front)
  }

  lemma {:induction false} GenerationGrows(es: seq<Event>, n: nat)
    requires n <= |es|
    ensures Generation(es[..n]) <= Generation(es)
    ensures Generation(es[..n]) == Generation(es) <==> NoReload(es, n)
  {
    if n == |es| {
      assert es[..n] == es;
    } else {
      var front := es[..|es| - 1];
      assert front[..n] == es[..n];
      GenerationGrows(front, n);
      assert NoReload(es, n) <==> NoReload(front, n) && !es[|es| - 1].SetConfig? by {
        assert forall i :: n <= i < |front| ==> front[i] == es[i];
      }
    }
  }

  /** A loaded config is the one of its load's moment. */
  lemma {:induction false} LoadedIsOf(es: seq<Event>, id: nat)
    requires IsRun(es) && id in After(es).loaded
    ensures var n := LastLoad(es, id);
            && n < |es| && After(es).loaded[id] == After(es[..n]).cfg
            && id in Stamped(es).loaded && Stamped(es).loaded[id] == Generation(es[..n])
  {
    var front := es[..|es| - 1];
    if es[|es| - 1] != Load(id) {
      LoadedIsOf(front, id);
      assert front[..LastLoad(front, id)] == es[..LastLoad(front, id)];
    }
  }

  lemma {:induction false} SnapshotIsOf(es: seq<Event>)
    requires IsRun(es)
    ensures var n := SourceLoad(es);
            && n <= |es| && Stamped(es).snapshot == Generation(es[..n])
            && exists rows :: Pairs(After(es).snapshot, After(es[..n]).cfg, rows)
  {
    if es == [] {
      assert Pairs(After(es).snapshot, After(es[..0]).cfg, []);
    } else {
      var front, e := es[..|es| - 1], es[|es| - 1];
      if e.Swap? {
        LoadedIsOf(front, e.id);
        var n := LastLoad(front, e.id);
        assert front[..n] == es[..n];
        assert Pairs(After(es).snapshot, After(es[..n]).cfg, e.rows);
      } else {
        SnapshotIsOf(front);
        var n := SourceLoad(front);
        assert front[..n] == es[..n];
        var rows :| Pairs(After(front).snapshot, After(front[..n]).cfg, rows);
        assert Pairs(After(es).snapshot, After(es[..n]).cfg, rows);
      }
    }
  }

  lemma {:induction false} ConfigOfGeneration(es: seq<Event>, n: nat)
    requires n <= |es| && NoReload(es, n)
    ensures After(es).cfg == After(es[..n]).cfg
  {
    if n == |es| {
      assert es[..n] == es;
    } else {
      var front := es[..|es| - 1];
      assert front[..n] == es[..n] && forall i :: n <= i < |front| ==> front[i] == es[i];
      ConfigOfGeneration(front, n);
    }
  }

  /** On every run: the enforced snapshot is of the newest generation if and only
      if no reload came at or after the load of the refresh that swapped last;
      and then it pairs the current config's rules with its defaults. */
  lemma CurrentIffNoReloadSinceLoad(es: seq<Event>)
    requires IsRun(es)
    ensures Stamped(es).snapshot == Generation(es) <==> NoReload(es, SourceLoad(es))
    ensures Stamped(es).snapshot == Generation(es) ==> exists rows :: Pairs(After(es).snapshot, After(es).cfg, rows)
  {
    var n := SourceLoad(es);
    SnapshotIsOf(es);
    GenerationGrows(es, n);
    if NoReload(es, n) { ConfigOfGeneration(es, n); }
  }

  /** Some refresh swapped at `n` or later. */
  predicate SwapSince(es: seq<Event>, n: nat) {
    exists i :: n <= i < |es| && es[i].Swap?
  }

  lemma {:induction false} LoadedSince(es: seq<Event>, n: nat, id: nat)
    requires IsRun(es) && n <= |es| && After(es[..n]).loaded == map[] && id in After(es).loaded
    ensures n <= LastLoad(es, id)
  {
    assert es[..|es|] == es;
    if n < |es| {
      assert es[..|es| - 1][..n] == es[..n];
      if es[|es| - 1] != Load(id) { LoadedSince(es[..|es| - 1], n, id); }
    }
  }

  lemma {:induction false} SourceSince(es: seq<Event>, n: nat)
    requires IsRun(es) && n <= |es| && After(es[..n]).loaded == map[] && SwapSince(es, n)
    ensures n <= SourceLoad(es)
  {
    var front, e := es[..|es| - 1], es[|es| - 1];
    assert front[..n] == es[..n];
    if e.Swap? {
      LoadedSince(front, n, e.id);
    } else {
      var i :| n <= i < |es| && es[i].Swap?;
      assert front[i].Swap?;
      SourceSince(front, n);
    }
  }

  /** A refresh that no older one overlaps enforces the newest config: from a
      moment without refreshes in flight, the first swap makes the snapshot
      current, and it stays so until the next reload, whatever else refreshes. */
  lemma LoneRefreshIsCurrent(es: seq<Event>, n: nat)
    requires IsRun(es) && n <= |es| && After(es[..n]).loaded == map[]
    requires NoReload(es, n) && SwapSince(es, n)
    ensures Stamped(es).snapshot == Generation(es)
    ensures exists rows :: Pairs(After(es).snapshot, After(es).cfg, rows)
  {
    SourceSince(es, n);
    CurrentIffNoReloadSinceLoad(es);
  }

  lemma RunSnoc(es: seq<Event>, e: Event)
    requires IsRun(es) && Enabled(After(es), e)
    ensures IsRun(es + [e]) && After(es + [e]) == Apply(After(es), e)
    ensures Generation(es + [e]) == Generation(es) + if e.SetConfig? then 1 else 0
  {
    assert (es + [e])[..|es|] == es;
  }

  lemma LastLoadSnoc(es: seq<Event>, e: Event, id: nat)
    ensures LastLoad(es + [e], id) == if e == Load(id) then |es| else LastLoad(es, id)
  {
    assert (es + [e])[..|es|] == es;
  }

  lemma LastSwapOf(es: seq<Event>, e: Event)
    requires e.Swap?
    ensures SourceLoad(es + [e]) == LastLoad(es, e.id)
  {
    assert (es + [e])[..|es|] == es;
  }

  lemma OldestLoadFirst(e2: Event, e4: Event, e5: Event)
    requires !e2.Load? && !e4.Load? && e5.Swap? && e5.id == 0
    ensures SourceLoad([] + [Load(0)] + [e2] + [Load(1)] + [e4] + [e5]) == 0
  {
    var s1: seq<Event> := [] + [Load(0)];
    LastLoadSnoc([], Load(0), 0);
    LastLoadSnoc(s1, e2, 0);
    LastLoadSnoc(s1 + [e2], Load(1), 0);
    LastLoadSnoc(s1 + [e2] + [Load(1)], e4, 0);
    LastSwapOf(s1 + [e2] + [Load(1)] + [e4], e5);
  }

  /** A run from the start on which an older refresh ends last: the reloaded
      config is enforced after the fourth event, and the fifth puts the replaced
      one back. */
  lemma LateRefreshReverts(reload: Config, rows: seq<Row>, newRules: seq<Rule>, oldRules: seq<Rule>)
      returns (es: seq<Event>)
    requires reload.Parsed() && Merged(reload.mapping, rows, newRules) && Merged([], rows, oldRules)
    ensures |es| == 5 && IsRun(es) && IsRun(es[..4])
    ensures Pairs(After(es[..4]).snapshot, reload, rows)
    ensures After(es).cfg == reload && Pairs(After(es).snapshot, EMPTY_CONFIG, rows) && !NoReload(es, SourceLoad(es))
  {
    var e1, e2, e3, e4, e5 := Load(0), SetConfig(reload), Load(1), Swap(1, rows, newRules), Swap(0, rows, oldRules);
    var s1: seq<Event> := [] + [e1];
    var s2, s3, s4 := s1 + [e2], s1 + [e2] + [e3], s1 + [e2] + [e3] + [e4];
    RunSnoc([], e1);
    RunSnoc(s1, e2);
    RunSnoc(s2, e3);
    RunSnoc(s3, e4);
    RunSnoc(s4, e5);
    es := s4 + [e5];
    assert es[..4] == s4 && es[1] == e2;
    OldestLoadFirst(e2, e4, e5);
  }
}
