/** Pagination stability: every later page asks the store exactly what page one
    asked, whatever the cluster looks like by then. */
module LogPaging {
  import opened LogPages

  // ------------------------------------------------ one key per selected item

  /** An item as the handler builds it: clean names, no slash in a namespace. */
  ghost predicate Proper(hub: Hub, item: Item) {
    match item
    case ServiceItem(service) => service != "" && hub.trim(service) == service
    case WorkloadItem(namespace, workload) => namespace != "" && workload != "" && '/' !in namespace
  }

  lemma ServiceKeyText(hub: Hub, service: string, namespace: string, workload: string)
    requires service != "" && hub.trim(service) == service
    ensures hub.ResolutionKey(service, namespace, workload) == "service:" + service
  {
  }

  /** Two items share a key only if they are the same item. */
  lemma ItemKeyInjective(hub: Hub, a: Item, b: Item)
    requires hub.trim("") == "" && Proper(hub, a) && Proper(hub, b) && hub.ItemKey(a) == hub.ItemKey(b)
    ensures a == b
  {
    var ka, kb := hub.ItemKey(a), hub.ItemKey(b);
    assert ka[0] == (if a.ServiceItem? then 's' else 'w') && kb[0] == (if b.ServiceItem? then 's' else 'w');
    if a.ServiceItem? {
      assert ka[8..] == a.service && kb[8..] == b.service;
    } else {
      assert ka == "workload:" + (a.namespace + ['/'] + a.workload)
             && kb == "workload:" + (b.namespace + ['/'] + b.workload);
      assert ka[9..] == a.namespace + ['/'] + a.workload && kb[9..] == b.namespace + ['/'] + b.workload;
      CutFirst(a.namespace, '/', a.workload);
      CutFirst(b.namespace, '/', b.workload);
    }
  }

  ghost predicate ProperItems(hub: Hub, items: seq<Item>) {
    && (forall i :: 0 <= i < |items| ==> Proper(hub, items[i]))
    && (forall i, j :: 0 <= i < j < |items| ==> items[i] != items[j])
  }

  ghost predicate CleanValues(hub: Hub, values: seq<string>) {
    && (forall i :: 0 <= i < |values| ==> values[i] != "" && hub.trim(values[i]) == values[i])
    && (forall i, j :: 0 <= i < j < |values| ==> values[i] != values[j])
  }

  lemma {:induction false} UniqueIsClean(hub: Hub, values: seq<string>)
    requires hub.TrimLaws()
    ensures CleanValues(hub, hub.Unique(values))
  {
    if values != [] {
      UniqueIsClean(hub, values[..|values| - 1]);
    }
  }

  /** Nothing selected is lost: the clean values are exactly the trimmed,
      non-empty ones. */
  lemma {:induction false} UniqueKeepsAll(hub: Hub, values: seq<string>, v: string)
    ensures v in hub.Unique(values) <==> v != "" && exists i :: 0 <= i < |values| && hub.trim(values[i]) == v
  {
    if values != [] {
      var n := |values| - 1;
      UniqueKeepsAll(hub, values[..n], v);
      assert forall i :: 0 <= i < n ==> values[..n][i] == values[i];
    }
  }

  lemma WorkloadItemsProper(hub: Hub, workloads: seq<string>)
    requires CleanValues(hub, workloads) && AllNamed(workloads)
    ensures ProperItems(hub, WorkloadItems(workloads))
  {
    var items := WorkloadItems(workloads);
    forall i | 0 <= i < |items|
        ensures Proper(hub, items[i]) && workloads[i] == items[i].namespace + ['/'] + items[i].workload {
      assert Named(workloads[i]);
    }
  }

  lemma ProperConcat(hub: Hub, services: seq<string>, more: seq<Item>)
    requires CleanValues(hub, services) && ProperItems(hub, more)
    requires forall j :: 0 <= j < |more| ==> more[j].WorkloadItem?
    ensures ProperItems(hub, ServiceItems(services) + more)
  {
  }

  lemma ItemsProper(hub: Hub, req: Request)
    requires hub.TrimLaws() && AllNamed(hub.Unique(req.workloads))
    ensures ProperItems(hub, hub.Items(req))
  {
    UniqueIsClean(hub, req.services);
    UniqueIsClean(hub, req.workloads);
    WorkloadItemsProper(hub, hub.Unique(req.workloads));
    ProperConcat(hub, hub.Unique(req.services), WorkloadItems(hub.Unique(req.workloads)));
  }

  // -------------------------------------------------------- hints decide all

  /** Resolutions that answer `items`, one by one. */
  ghost predicate Answers(hub: Hub, items: seq<Item>, rs: seq<Resolution>) {
    |rs| == |items| && forall i :: 0 <= i < |items| ==> hub.KeyOf(rs[i]) == hub.ItemKey(items[i])
  }

  lemma FreshAnswer(hub: Hub, cluster: Cluster, wanted: set<string>, item: Item)
    requires hub.trim("") == "" && Proper(hub, item)
    ensures var r := Resolve(cluster, wanted, item);
            hub.KeyOf(r) == hub.ItemKey(item) && hub.ValidResolution(r)
  {
    match item {
      case ServiceItem(service) =>
        var r := Resolve(cluster, wanted, item);
        ServiceKeyText(hub, service, r.namespace, r.workload);
        ServiceKeyText(hub, service, "", "");
        assert |"service:" + service| > 0;
      case WorkloadItem(namespace, workload) =>
        assert |"workload:" + namespace + "/" + workload| > 0;
    }
  }

  ghost predicate Sound(hub: Hub, item: Item, r: Resolution) {
    hub.KeyOf(r) == hub.ItemKey(item) && hub.ValidResolution(r)
  }

  lemma {:induction false} FreshSound(hub: Hub, cluster: Cluster, wanted: set<string>, items: seq<Item>, i: nat)
    requires hub.trim("") == "" && i < |items| && Proper(hub, items[i])
    ensures Sound(hub, items[i], hub.Resolved(cluster, wanted, map[], items)[i])
  {
    if i == |items| - 1 {
      FreshAnswer(hub, cluster, wanted, items[i]);
    } else {
      FreshSound(hub, cluster, wanted, items[..|items| - 1], i);
    }
  }

  /** Page one's resolutions answer the selected items and would pass the
      token's own validity checks. */
  lemma FreshAnswers(hub: Hub, cluster: Cluster, wanted: set<string>, items: seq<Item>)
    requires hub.trim("") == "" && forall i :: 0 <= i < |items| ==> Proper(hub, items[i])
    ensures var rs := hub.Resolved(cluster, wanted, map[], items);
            Answers(hub, items, rs) && hub.ValidResolutions(rs)
  {
    var rs := hub.Resolved(cluster, wanted, map[], items);
    forall i | 0 <= i < |items| ensures Sound(hub, items[i], rs[i]) { FreshSound(hub, cluster, wanted, items, i); }
    forall i | 0 <= i < |items| ensures hub.KeyOf(rs[i]) == hub.ItemKey(items[i]) {
      assert Sound(hub, items[i], rs[i]);
    }
    forall i | 0 <= i < |items| ensures hub.ValidResolution(rs[i]) { assert Sound(hub, items[i], rs[i]); }
  }

  lemma CompactAnswers(hub: Hub, items: seq<Item>, rs: seq<Resolution>)
    requires Answers(hub, items, rs)
    ensures Answers(hub, items, Compact(rs))
  {
    forall i | 0 <= i < |items| ensures hub.KeyOf(Compact(rs)[i]) == hub.ItemKey(items[i]) {
      assert hub.KeyOf(rs[i]) == hub.ItemKey(items[i]);
    }
  }

  predicate Hinted(hints: map<string, Resolution>, k: string, r: Resolution) {
    k in hints && hints[k] == r
  }

  lemma {:induction false} HintFound(hub: Hub, items: seq<Item>, rs: seq<Resolution>, i: nat)
    requires hub.trim("") == "" && ProperItems(hub, items) && Answers(hub, items, rs) && i < |rs|
    ensures Hinted(hub.Hints(rs), hub.ItemKey(items[i]), rs[i])
  {
    var n := |rs| - 1;
    assert hub.KeyOf(rs[i]) == hub.ItemKey(items[i]) && hub.KeyOf(rs[n]) == hub.ItemKey(items[n]);
    if i < n {
      assert items[..n][i] == items[i] && rs[..n][i] == rs[i];
      HintFound(hub, items[..n], rs[..n], i);
      if hub.ItemKey(items[i]) == hub.ItemKey(items[n]) {
        ItemKeyInjective(hub, items[i], items[n]);
      }
    }
  }

  lemma {:induction false} HintedItems(hub: Hub, cluster: Cluster, wanted: set<string>, hints: map<string, Resolution>,
                                       items: seq<Item>, rs: seq<Resolution>)
    requires |rs| == |items| && forall i :: 0 <= i < |items| ==> Hinted(hints, hub.ItemKey(items[i]), rs[i])
    ensures hub.Resolved(cluster, wanted, hints, items) == rs
  {
    if items != [] {
      var n := |items| - 1;
      assert Hinted(hints, hub.ItemKey(items[n]), rs[n]);
      forall i | 0 <= i < n ensures Hinted(hints, hub.ItemKey(items[..n][i]), rs[..n][i]) {
        assert Hinted(hints, hub.ItemKey(items[i]), rs[i]);
      }
      HintedItems(hub, cluster, wanted, hints, items[..n], rs[..n]);
      assert rs == rs[..n] + [rs[n]];
    }
  }

  /** With every item's answer among the hints, the cluster is not consulted. */
  lemma HintsDecide(hub: Hub, cluster: Cluster, wanted: set<string>, items: seq<Item>, rs: seq<Resolution>)
    requires hub.trim("") == "" && ProperItems(hub, items) && Answers(hub, items, rs)
    ensures hub.Resolved(cluster, wanted, hub.Hints(rs), items) == rs
  {
    forall i | 0 <= i < |rs| ensures Hinted(hub.Hints(rs), hub.ItemKey(items[i]), rs[i]) {
      HintFound(hub, items, rs, i);
    }
    HintedItems(hub, cluster, wanted, hub.Hints(rs), items, rs);
  }

  // --------------------------------------------------------- page after page

  lemma NextPageRepeats(hub: Hub, req: Request, first: Cluster, t0: int, cluster: Cluster, now: int)
    requires hub.Lawful() && AllNamed(hub.Unique(req.workloads)) && hub.FirstPage(first, req, t0).Page?
    ensures var page := hub.FirstPage(first, req, t0);
            && hub.trim(page.token) == page.token && page.token != ""
            && hub.NextPage(cluster, req, page.token, now)
               == if Unix(now) <= Unix(t0 + TOKEN_TTL) then page else BadRequest
  {
    var items := hub.Items(req);
    var rs := hub.Resolved(first, req.wanted, map[], items);
    ItemsProper(hub, req);
    FreshAnswers(hub, first, req.wanted, items);
    TokenRoundTrip(hub, req.scope, rs, t0, now);
    TokenIsTrimmed(hub, req.scope, rs, t0);
    CompactAnswers(hub, items, rs);
    var used := hub.Encode(req.scope, rs, t0).value.1;
    HintsDecide(hub, cluster, req.wanted, items, used);
  }

  /** One later page: the same request and page one's token, any cluster. While
      the token lives it gets page one's source list, MatchNone, resolutions
      and token back; once it has expired the page is refused. */
  lemma LaterPageRepeatsPageOne(hub: Hub, req: Request, first: Cluster, t0: int, cluster: Cluster, paging: bool,
      now: int)
    requires hub.Lawful() && hub.Composed(req) && hub.Search(first, req, false, "", t0).Page?
    ensures var page := hub.Search(first, req, false, "", t0);
            hub.Search(cluster, req, paging, page.token, now)
            == if Unix(now) <= Unix(t0 + TOKEN_TTL) then page else BadRequest
  {
    NextPageRepeats(hub, req, first, t0, cluster, now);
  }

  /** When a page is asked for, and what the cluster looks like by then. */
  datatype Visit = Visit(cluster: Cluster, now: int)

  /** The page a scroll ends on: each page sends the token the one before it
      returned, and sees the cluster of its own moment. */
  function Scroll(hub: Hub, req: Request, page: Reply, visits: seq<Visit>): Reply
    requires hub.Composed(req)
    decreases |visits|
  {
    if visits == [] || page.BadRequest? then page
    else Scroll(hub, req, hub.Search(visits[0].cluster, req, true, page.token, visits[0].now), visits[1..])
  }

  /** Pagination is stable: however long the scroll, its last page queries
      exactly what page one queried. */
  lemma {:induction false} PaginationStable(hub: Hub, req: Request, first: Cluster, t0: int, visits: seq<Visit>)
    requires hub.Lawful() && hub.Composed(req) && hub.Search(first, req, false, "", t0).Page?
    requires forall v: Visit :: v in visits ==> Unix(v.now) <= Unix(t0 + TOKEN_TTL)
    ensures var page := hub.Search(first, req, false, "", t0); Scroll(hub, req, page, visits) == page
    decreases |visits|
  {
    if visits != [] {
      LaterPageRepeatsPageOne(hub, req, first, t0, visits[0].cluster, true, visits[0].now);
      PaginationStable(hub, req, first, t0, visits[1..]);
    }
  }

  ghost predicate SameSources(a: seq<Branch>, b: seq<Branch>) {
    |a| == |b| && forall i :: 0 <= i < |a| ==> a[i].category == b[i].category && a[i].services == b[i].services
  }

  lemma {:induction false} CompactKeepsSources(rs: seq<Resolution>)
    ensures SameSources(AllBranches(Compact(rs)), AllBranches(rs))
  {
    if rs != [] {
      var n := |rs| - 1;
      CompactKeepsSources(rs[..n]);
      assert Compact(rs)[..n] == Compact(rs[..n]);
      assert Compact(rs)[n].branches == CompactBranches(rs[n], rs[n].branches);
    }
  }

  /** Page one's query is the resolved one, or the compacted one when the full
      one does not fit a token; either way it reads the same categories and
      service lists, so compaction changes only what a proxy line must match. */
  lemma PageOneSources(hub: Hub, req: Request, cluster: Cluster, now: int)
    requires hub.FirstPage(cluster, req, now).Page?
    ensures var page := hub.FirstPage(cluster, req, now);
            var rs := hub.Resolved(cluster, req.wanted, map[], hub.Items(req));
            && page.resolutions == (if Fits(hub.Marshal(req.scope, rs, now)) then rs else Compact(rs))
            && page.sources == AllBranches(page.resolutions) && SameSources(page.sources, AllBranches(rs))
            && (page.matchNone <==> page.sources == [])
  {
    CompactKeepsSources(hub.Resolved(cluster, req.wanted, map[], hub.Items(req)));
  }

  // ------------------------------------------------------ the handler's loops

  lemma AllBranchesSnoc(rs: seq<Resolution>, r: Resolution)
    ensures AllBranches(rs + [r]) == AllBranches(rs) + r.branches
  {
    assert (rs + [r])[..|rs|] == rs;
  }

  method UniqueQueryValues(hub: Hub, values: seq<string>) returns (out: seq<string>)
    ensures out == hub.Unique(values)
  {
    var seen: set<string> := {};
    out := [];
    for i := 0 to |values|
      invariant out == hub.Unique(values[..i]) && seen == set v | v in out
    {
      assert values[..i + 1][..i] == values[..i];
      var v := hub.trim(values[i]);
      if v != "" && v !in seen {
        seen := seen + {v};
        out := out + [v];
      }
    }
    assert values[..|values|] == values;
  }

  method IndexHints(hub: Hub, cached: seq<Resolution>) returns (hints: map<string, Resolution>)
    ensures hints == hub.Hints(cached)
  {
    hints := map[];
    for i := 0 to |cached|
      invariant hints == hub.Hints(cached[..i])
    {
      assert cached[..i + 1][..i] == cached[..i];
      hints := hints[hub.ResolutionKey(cached[i].service, cached[i].namespace, cached[i].workload) := cached[i]];
    }
    assert cached[..|cached|] == cached;
  }

  /** The store query and the resolutions after the first `i` items. */
  ghost predicate Built(hub: Hub, cluster: Cluster, wanted: set<string>, hints: map<string, Resolution>,
                        items: seq<Item>, sources: seq<Branch>, rs: seq<Resolution>)
  {
    rs == hub.Resolved(cluster, wanted, hints, items) && sources == AllBranches(rs)
  }

  lemma BuiltSnoc(hub: Hub, cluster: Cluster, wanted: set<string>, hints: map<string, Resolution>,
                  items: seq<Item>, sources: seq<Branch>, rs: seq<Resolution>, item: Item)
    requires Built(hub, cluster, wanted, hints, items, sources, rs)
    ensures var r := hub.ResolvedItem(cluster, wanted, hints, item);
            Built(hub, cluster, wanted, hints, items + [item], sources + r.branches, rs + [r])
  {
    assert (items + [item])[..|items|] == items;
    AllBranchesSnoc(rs, hub.ResolvedItem(cluster, wanted, hints, item));
  }

  /** The service loop: the store query and the resolutions grow together. */
  method ComposeServices(hub: Hub, cluster: Cluster, wanted: set<string>, hints: map<string, Resolution>,
      services: seq<string>)
    returns (sources: seq<Branch>, rs: seq<Resolution>)
    ensures Built(hub, cluster, wanted, hints, ServiceItems(services), sources, rs)
  {
    sources, rs := [], [];
    for i := 0 to |services|
      invariant Built(hub, cluster, wanted, hints, ServiceItems(services[..i]), sources, rs)
    {
      var item := ServiceItem(services[i]);
      var r := hub.ResolvedItem(cluster, wanted, hints, item);
      BuiltSnoc(hub, cluster, wanted, hints, ServiceItems(services[..i]), sources, rs, item);
      assert ServiceItems(services[..i + 1]) == ServiceItems(services[..i]) + [item];
      sources, rs := sources + r.branches, rs + [r];
    }
    assert services[..|services|] == services;
  }

  lemma WorkloadItemsSnoc(before: seq<Item>, workloads: seq<string>, j: nat)
    requires j < |workloads|
    ensures before + WorkloadItems(workloads[..j + 1])
            == before + WorkloadItems(workloads[..j]) + [WorkloadItem(Split(workloads[j]).0, Split(workloads[j]).1)]
  {
  }

  lemma NamedSnoc(workloads: seq<string>, j: nat)
    requires j < |workloads|
    ensures AllNamed(workloads[..j + 1]) <==> AllNamed(workloads[..j]) && Named(workloads[j])
    ensures AllNamed(workloads) ==> Named(workloads[j])
  {
    if AllNamed(workloads[..j + 1]) {
      assert Named(workloads[..j + 1][j]);
      forall i | 0 <= i < j ensures Named(workloads[..j][i]) { assert Named(workloads[..j + 1][i]); }
    }
  }

  /** The workload loop goes on from there; a malformed workload stops it. */
  method ComposeWorkloads(hub: Hub, cluster: Cluster, wanted: set<string>, hints: map<string, Resolution>,
      workloads: seq<string>,
                          ghost before: seq<Item>, sources0: seq<Branch>, rs0: seq<Resolution>)
    returns (ok: bool, sources: seq<Branch>, rs: seq<Resolution>)
    requires Built(hub, cluster, wanted, hints, before, sources0, rs0)
    ensures ok <==> AllNamed(workloads)
    ensures ok ==> Built(hub, cluster, wanted, hints, before + WorkloadItems(workloads), sources, rs)
  {
    sources, rs := sources0, rs0;
    assert before + WorkloadItems(workloads[..0]) == before;
    for j := 0 to |workloads|
      invariant AllNamed(workloads[..j])
      invariant Built(hub, cluster, wanted, hints, before + WorkloadItems(workloads[..j]), sources, rs)
    {
      NamedSnoc(workloads, j);
      if !Named(workloads[j]) { return false, [], []; }
      var item := WorkloadItem(Split(workloads[j]).0, Split(workloads[j]).1);
      var r := hub.ResolvedItem(cluster, wanted, hints, item);
      BuiltSnoc(hub, cluster, wanted, hints, before + WorkloadItems(workloads[..j]), sources, rs, item);
      WorkloadItemsSnoc(before, workloads, j);
      sources, rs := sources + r.branches, rs + [r];
    }
    assert workloads[..|workloads|] == workloads;
    ok := true;
  }

  /** The composed path of the search handler. */
  method SearchLogs(hub: Hub, cluster: Cluster, req: Request, paging: bool, rawToken: string, now: int)
      returns (reply: Reply)
    requires hub.Composed(req)
    ensures reply == hub.Search(cluster, req, paging, rawToken, now)
  {
    var services := UniqueQueryValues(hub, req.services);
    var workloads := UniqueQueryValues(hub, req.workloads);
    var token := hub.trim(rawToken);
    if paging && token == "" { return BadRequest; }
    var hints: map<string, Resolution> := map[];
    if token != "" {
      var cached := hub.Decode(token, req.scope, now);
      if cached.None? { return BadRequest; }
      hints := IndexHints(hub, cached.value);
    }
    var sources, rs := ComposeServices(hub, cluster, req.wanted, hints, services);
    var ok;
    ok, sources, rs := ComposeWorkloads(hub, cluster, req.wanted, hints, workloads, ServiceItems(services), sources,
        rs);
    if !ok { return BadRequest; }
    if token == "" {
      var encoded := hub.Encode(req.scope, rs, now);
      if encoded.None? { return BadRequest; }
      token, rs := encoded.value.0, encoded.value.1;
      sources := AllBranches(rs);
    }
    return Page(sources, sources == [], token, rs);
  }
}
