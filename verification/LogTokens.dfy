/** What a page token proves, and what page one reads: told on the bytes of the
    token and on the request as it came, not on the decoder. */
module LogTokens {
  import opened LogPages
  import opened LogPaging

  // -------------------------------------------------------- what decodes

  /** A cached resolution is for something, and each branch reads something. */
  predicate Usable(hub: Hub, r: Resolution) {
    && (hub.trim(r.service) != "" || (r.namespace != "" && r.workload != ""))
    && forall i :: 0 <= i < |r.branches| ==>
         r.branches[i].services != [] && r.branches[i].category in {"application", "ztunnel", "waypoint"}
  }

  /** `token` is `data.signature`: data unpacks to this payload, the signature is
      this hub's over the packed bytes, and both sizes are within bounds. */
  predicate Signed(hub: Hub, token: string, data: string, signature: string, zipped: Bytes, raw: Bytes, p: Payload) {
    && token == data + ['.'] + signature && '.' !in data && |token| <= 3072
    && hub.unb64(data) == Some(zipped) && hub.unb64(signature) == Some(hub.mac(hub.key, zipped))
    && hub.gunzip(zipped) == Some(raw) && |raw| <= 262144 && hub.unjson(raw) == Some(p)
  }

  /** The payload is for this scope and its expiry second has not passed. */
  predicate Good(hub: Hub, p: Payload, scope: string, now: int, rs: seq<Resolution>) {
    && p.scope == scope && now / 1_000_000_000 <= p.expires && rs == FromEntries(p.entries)
    && forall i :: 0 <= i < |rs| ==> Usable(hub, rs[i])
  }

  ghost predicate Proves(hub: Hub, token: string, scope: string, now: int, rs: seq<Resolution>) {
    exists data, signature, zipped, raw, p ::
      Signed(hub, token, data, signature, zipped, raw, p) && Good(hub, p, scope, now, rs)
  }

  lemma UsableIsValid(hub: Hub, rs: seq<Resolution>)
    ensures hub.ValidResolutions(rs) <==> forall i :: 0 <= i < |rs| ==> Usable(hub, rs[i])
  {
    forall i | 0 <= i < |rs| ensures hub.ValidResolution(rs[i]) <==> Usable(hub, rs[i]) {
      var r := rs[i];
      assert |"service:" + hub.trim(r.service)| > 0 && |"workload:" + r.namespace + "/" + r.workload| > 0;
      forall j | 0 <= j < |r.branches|
        ensures ValidBranch(r.branches[j]) <==>
                r.branches[j].services != [] && r.branches[j].category in {"application", "ztunnel", "waypoint"}
      {
      }
    }
  }

  lemma ProvesDecodes(hub: Hub, token: string, scope: string, now: int, data: string, signature: string,
                      zipped: Bytes, raw: Bytes, p: Payload, rs: seq<Resolution>)
    requires Signed(hub, token, data, signature, zipped, raw, p) && Good(hub, p, scope, now, rs)
    ensures hub.Decode(token, scope, now) == Some(rs)
  {
    CutFirst(data, '.', signature);
    UsableIsValid(hub, rs);
  }

  lemma DecodesProves(hub: Hub, token: string, scope: string, now: int)
    requires hub.Decode(token, scope, now).Some?
    ensures Proves(hub, token, scope, now, hub.Decode(token, scope, now).value)
  {
    var (data, signature) := Cut(token, '.').value;
    var zipped := hub.unb64(data).value;
    var raw := hub.gunzip(zipped).value;
    var p := hub.unjson(raw).value;
    UsableIsValid(hub, FromEntries(p.entries));
    assert Signed(hub, token, data, signature, zipped, raw, p);
  }

  /** A token decodes to these resolutions if and only if it carries this hub's
      signature of a payload for this scope that has not expired and holds them. */
  lemma DecodesIffProves(hub: Hub, token: string, scope: string, now: int, rs: seq<Resolution>)
    ensures hub.Decode(token, scope, now) == Some(rs) <==> Proves(hub, token, scope, now, rs)
  {
    if hub.Decode(token, scope, now).Some? { DecodesProves(hub, token, scope, now); }
    if Proves(hub, token, scope, now, rs) {
      var data, signature, zipped, raw, p :|
        Signed(hub, token, data, signature, zipped, raw, p) && Good(hub, p, scope, now, rs);
      ProvesDecodes(hub, token, scope, now, data, signature, zipped, raw, p, rs);
    }
  }

  // ------------------------------------------------------------- refusals

  lemma MarshalIsBound(hub: Hub, scope: string, rs: seq<Resolution>, t0: int, other: string, now: int)
    requires hub.Lawful() && other != scope
    ensures hub.Decode(hub.Marshal(scope, rs, t0).0, other, now) == None
  {
    var p := Payload(scope, Unix(t0 + TOKEN_TTL), ToEntries(rs));
    var zipped := hub.gzip(hub.json(p));
    CutFirst(hub.b64(zipped), '.', hub.b64(hub.mac(hub.key, zipped)));
  }

  /** Page one's token is refused under every other scope: after another
      selection or time range, on any cluster, at any moment. */
  lemma ForeignScopeRefused(hub: Hub, req: Request, first: Cluster, t0: int, other: Request, cluster: Cluster,
                            paging: bool, now: int)
    requires hub.Lawful() && hub.Composed(req) && hub.Search(first, req, false, "", t0).Page?
    requires hub.Composed(other) && other.scope != req.scope
    ensures hub.Search(cluster, other, paging, hub.Search(first, req, false, "", t0).token, now) == BadRequest
  {
    var rs := hub.Resolved(first, req.wanted, map[], hub.Items(req));
    MarshalIsBound(hub, req.scope, rs, t0, other.scope, now);
    MarshalIsBound(hub, req.scope, Compact(rs), t0, other.scope, now);
    TokenIsTrimmed(hub, req.scope, rs, t0);
  }

  /** So is a token whose signature is not this hub's over its own bytes. */
  lemma ForgedTokenRefused(hub: Hub, cluster: Cluster, req: Request, paging: bool, rawToken: string, now: int,
                           data: string, signature: string)
    requires hub.Composed(req) && hub.trim(rawToken) == data + ['.'] + signature && '.' !in data
    requires hub.unb64(data).Some? ==> hub.unb64(signature) != Some(hub.mac(hub.key, hub.unb64(data).value))
    ensures hub.Search(cluster, req, paging, rawToken, now) == BadRequest
  {
    CutFirst(data, '.', signature);
  }

  // ------------------------------------------------------------ what is read

  /** What one item's log sources are: an unresolved service is its own only
      source. */
  function Described(cluster: Cluster, item: Item): Sources {
    match item
    case ServiceItem(service) =>
      var (namespace, workload, why) := cluster.workloadOf(service);
      if workload == "" then Sources([service], [], [], [], "") else cluster.sourcesOf(namespace, workload, [service])
    case WorkloadItem(namespace, workload) => cluster.sourcesOf(namespace, workload, [])
  }

  /** The branch reads one wanted, non-empty kind of source; only proxy lines have
      to match on their text. */
  predicate Reads(d: Sources, wanted: set<string>, b: Branch) {
    || ("app" in wanted && d.app != [] && b == Branch("application", d.app, []))
    || ("ztunnel" in wanted && d.ztunnel != [] && b == Branch("ztunnel", d.ztunnel, d.bodyAll))
    || ("waypoint" in wanted && d.waypoint != [] && b == Branch("waypoint", d.waypoint, d.bodyAll))
  }

  /** The request selects this item: its trimmed name is among the values. */
  predicate Selects(hub: Hub, req: Request, item: Item) {
    match item
    case ServiceItem(service) =>
      service != "" && exists i :: 0 <= i < |req.services| && hub.trim(req.services[i]) == service
    case WorkloadItem(namespace, workload) =>
      namespace != "" && workload != "" && '/' !in namespace
      && exists i :: 0 <= i < |req.workloads| && hub.trim(req.workloads[i]) == namespace + ['/'] + workload
  }

  lemma {:induction false} BranchFrom(rs: seq<Resolution>, b: Branch)
    ensures b in AllBranches(rs) <==> exists i :: 0 <= i < |rs| && b in rs[i].branches
  {
    if rs != [] {
      var n := |rs| - 1;
      BranchFrom(rs[..n], b);
      if b in AllBranches(rs[..n]) {
        var i :| 0 <= i < n && b in rs[..n][i].branches;
        assert b in rs[i].branches;
      }
      assert forall i :: 0 <= i < n ==> rs[..n][i] == rs[i];
    }
  }

  lemma {:induction false} ResolvedAt(hub: Hub, cluster: Cluster, wanted: set<string>, items: seq<Item>, i: nat)
    requires i < |items|
    ensures hub.Resolved(cluster, wanted, map[], items)[i] == Resolve(cluster, wanted, items[i])
  {
    if i < |items| - 1 { ResolvedAt(hub, cluster, wanted, items[..|items| - 1], i); }
  }

  /** A resolution names its item, the workload behind it or why there is none, and
      what the sources were matched by. */
  lemma ResolutionSays(cluster: Cluster, wanted: set<string>, item: Item)
    ensures var r := Resolve(cluster, wanted, item);
            && r.compacted == "" && r.matchedBy == Described(cluster, item).fallback
            && match item
               case ServiceItem(service) =>
                 r.service == service && (r.namespace, r.workload, r.unavailable) == cluster.workloadOf(service)
               case WorkloadItem(namespace, workload) =>
                 r.service == "" && r.namespace == namespace && r.workload == workload && r.unavailable == ""
  {
  }

  lemma ItemBranches(cluster: Cluster, wanted: set<string>, item: Item, b: Branch)
    ensures b in Resolve(cluster, wanted, item).branches <==> Reads(Described(cluster, item), wanted, b)
  {
  }

  lemma ServiceSelected(hub: Hub, req: Request, service: string)
    requires hub.TrimLaws()
    ensures ServiceItem(service) in hub.Items(req) <==> Selects(hub, req, ServiceItem(service))
  {
    var services, items := hub.Unique(req.services), hub.Items(req);
    UniqueKeepsAll(hub, req.services, service);
    if service in services {
      var i :| 0 <= i < |services| && services[i] == service;
      assert items[i] == ServiceItem(service);
    }
  }

  lemma WorkloadListed(workloads: seq<string>, namespace: string, workload: string)
    requires AllNamed(workloads)
    ensures WorkloadItem(namespace, workload) in WorkloadItems(workloads) <==>
              namespace != "" && workload != "" && '/' !in namespace && namespace + ['/'] + workload in workloads
  {
    var text, item := namespace + ['/'] + workload, WorkloadItem(namespace, workload);
    if '/' !in namespace && text in workloads {
      var i :| 0 <= i < |workloads| && workloads[i] == text;
      CutFirst(namespace, '/', workload);
      assert WorkloadItems(workloads)[i] == item;
      assert Named(workloads[i]);
    }
    if item in WorkloadItems(workloads) {
      var i :| 0 <= i < |workloads| && WorkloadItems(workloads)[i] == item;
      assert Named(workloads[i]) && workloads[i] == text;
    }
  }

  lemma ItemsAreSelected(hub: Hub, req: Request, item: Item)
    requires hub.TrimLaws() && AllNamed(hub.Unique(req.workloads))
    ensures item in hub.Items(req) <==> Selects(hub, req, item)
  {
    match item {
      case ServiceItem(service) => ServiceSelected(hub, req, service);
      case WorkloadItem(namespace, workload) =>
        WorkloadListed(hub.Unique(req.workloads), namespace, workload);
        UniqueKeepsAll(hub, req.workloads, namespace + ['/'] + workload);
        assert item !in ServiceItems(hub.Unique(req.services));
    }
  }

  /** Uncompacted, page one's query reads exactly the wanted sources of exactly the
      selected items, as the cluster describes them. */
  lemma PageOneReads(hub: Hub, req: Request, cluster: Cluster, now: int, b: Branch)
    requires hub.TrimLaws() && AllNamed(hub.Unique(req.workloads))
    ensures b in AllBranches(hub.Resolved(cluster, req.wanted, map[], hub.Items(req)))
            <==> exists item :: Selects(hub, req, item) && Reads(Described(cluster, item), req.wanted, b)
  {
    var items := hub.Items(req);
    var rs := hub.Resolved(cluster, req.wanted, map[], items);
    BranchFrom(rs, b);
    forall i | 0 <= i < |items|
      ensures b in rs[i].branches <==> Reads(Described(cluster, items[i]), req.wanted, b)
      ensures Selects(hub, req, items[i])
    {
      ResolvedAt(hub, cluster, req.wanted, items, i);
      ItemBranches(cluster, req.wanted, items[i], b);
      ItemsAreSelected(hub, req, items[i]);
    }
    if item :| Selects(hub, req, item) && Reads(Described(cluster, item), req.wanted, b) {
      ItemsAreSelected(hub, req, item);
      var i :| 0 <= i < |items| && items[i] == item;
      assert b in rs[i].branches;
    }
  }

  lemma {:induction false} AnyProxyIff(bs: seq<Branch>)
    ensures AnyProxy(bs) <==>
            exists k :: 0 <= k < |bs| && bs[k].category in {"ztunnel", "waypoint"} && bs[k].bodyAll != []
  {
    if bs != [] {
      AnyProxyIff(bs[..|bs| - 1]);
      assert forall k :: 0 <= k < |bs| - 1 ==> bs[..|bs| - 1][k] == bs[k];
    }
  }

  /** Compacted, a proxy branch with text to match matches the workload's or the
      namespace's name instead; every other branch is as it was. The
      resolution says so if it has such a branch. */
  lemma CompactReads(rs: seq<Resolution>, i: nat, j: nat)
    requires i < |rs| && j < |rs[i].branches|
    ensures |Compact(rs)| == |rs| && |Compact(rs)[i].branches| == |rs[i].branches|
    ensures var b, host := rs[i].branches[j], rs[i].workload + "." + rs[i].namespace + ".svc";
            Compact(rs)[i].branches[j] ==
            if b.category in {"ztunnel", "waypoint"} && b.bodyAll != []
            then Branch(b.category, b.services,
                        [[host, "workload=\"" + rs[i].workload + "-"], ["namespace=\"" + rs[i].namespace + "\"", host]])
            else b
    ensures Compact(rs)[i].compacted ==
            if exists k :: 0 <= k < |rs[i].branches| && rs[i].branches[k].category in {"ztunnel", "waypoint"}
                           && rs[i].branches[k].bodyAll != []
            then
            "proxy logs use workload and namespace matching because the resolved pod set was too large for pagination"
            else rs[i].compacted
  {
    AnyProxyIff(rs[i].branches);
    assert Compact(rs)[i].branches[j] == CompactBranch(rs[i], rs[i].branches[j]);
  }

  // -------------------------------------------------------------- what is refused

  /** A selected workload that is not namespace/name. */
  ghost predicate Malformed(hub: Hub, req: Request) {
    exists i :: 0 <= i < |req.workloads| && hub.trim(req.workloads[i]) != ""
                && forall n: string, w: string :: n != "" && w != "" && '/' !in n
                    ==> hub.trim(req.workloads[i]) != n + ['/'] + w
  }

  lemma NamedIff(text: string)
    ensures Named(text) <==> exists n: string, w: string :: n != "" && w != "" && '/' !in n && text == n + ['/'] + w
  {
    if n: string, w: string :| n != "" && w != "" && '/' !in n && text == n + ['/'] + w { CutFirst(n, '/', w); }
  }

  lemma MalformedIff(hub: Hub, req: Request)
    ensures Malformed(hub, req) <==> !AllNamed(hub.Unique(req.workloads))
  {
    var names := hub.Unique(req.workloads);
    if i :| 0 <= i < |names| && !Named(names[i]) {
      NamedIff(names[i]);
      UniqueKeepsAll(hub, req.workloads, names[i]);
    }
    if Malformed(hub, req) {
      var i :| 0 <= i < |req.workloads| && hub.trim(req.workloads[i]) != ""
                && forall n: string, w: string :: n != "" && w != "" && '/' !in n
                    ==> hub.trim(req.workloads[i]) != n + ['/'] + w;
      var text := hub.trim(req.workloads[i]);
      NamedIff(text);
      UniqueKeepsAll(hub, req.workloads, text);
      var j :| 0 <= j < |names| && names[j] == text;
    }
  }

  /** A search is refused exactly when a workload is malformed, or it sends a
      cursor without a token, or a token that proves nothing, or page one's token
      would be too large even compacted. */
  lemma RefusedExactly(hub: Hub, cluster: Cluster, req: Request, paging: bool, rawToken: string, now: int)
    requires hub.Composed(req)
    ensures var rs := hub.Resolved(cluster, req.wanted, map[], hub.Items(req));
            var full, short := hub.Marshal(req.scope, rs, now), hub.Marshal(req.scope, Compact(rs), now);
            hub.Search(cluster, req, paging, rawToken, now) == BadRequest <==>
              || Malformed(hub, req)
              || (hub.trim(rawToken) == "" && paging)
              || (hub.trim(rawToken) != "" && forall used :: !Proves(hub, hub.trim(rawToken), req.scope, now, used))
              || (hub.trim(rawToken) == "" && (|full.0| > 3072 || full.1 > 262144)
                  && (|short.0| > 3072 || short.1 > 262144))
  {
    MalformedIff(hub, req);
    var token := hub.trim(rawToken);
    forall used ensures hub.Decode(token, req.scope, now) == Some(used) <==> Proves(hub, token, req.scope, now, used) {
      DecodesIffProves(hub, token, req.scope, now, used);
    }
    if hub.Decode(token, req.scope, now).Some? {
      assert Proves(hub, token, req.scope, now, hub.Decode(token, req.scope, now).value);
    }
  }

  /** A search is composed when it names a workload, or two services, or one
      service and a source filter. */
  lemma ComposedIff(hub: Hub, req: Request)
    ensures hub.Composed(req) <==>
              || (exists i :: 0 <= i < |req.workloads| && hub.trim(req.workloads[i]) != "")
              || (exists i, j :: Differ(hub, req.services, i, j))
              || (req.filtered && exists i :: 0 <= i < |req.services| && hub.trim(req.services[i]) != "")
  {
    UniqueEmptyIff(hub, req.workloads);
    UniqueEmptyIff(hub, req.services);
    UniqueTwoIff(hub, req.services);
  }

  lemma UniqueEmptyIff(hub: Hub, values: seq<string>)
    ensures hub.Unique(values) != [] <==> exists i :: 0 <= i < |values| && hub.trim(values[i]) != ""
  {
    if hub.Unique(values) != [] { UniqueKeepsAll(hub, values, hub.Unique(values)[0]); UniqueNonBlank(hub, values); }
    if i :| 0 <= i < |values| && hub.trim(values[i]) != "" { UniqueKeepsAll(hub, values, hub.trim(values[i])); }
  }

  lemma {:induction false} UniqueNonBlank(hub: Hub, values: seq<string>)
    ensures var u := hub.Unique(values);
            "" !in u && forall i, j :: 0 <= i < j < |u| ==> u[i] != u[j]
  {
    if values != [] { UniqueNonBlank(hub, values[..|values| - 1]); }
  }

  predicate Differ(hub: Hub, values: seq<string>, i: int, j: int) {
    && 0 <= i < |values| && 0 <= j < |values| && hub.trim(values[i]) != "" && hub.trim(values[j]) != ""
    && hub.trim(values[i]) != hub.trim(values[j])
  }

  lemma UniqueTwoIff(hub: Hub, values: seq<string>)
    ensures |hub.Unique(values)| > 1 <==> exists i, j :: Differ(hub, values, i, j)
  {
    var u := hub.Unique(values);
    UniqueNonBlank(hub, values);
    if |u| > 1 {
      UniqueKeepsAll(hub, values, u[0]);
      UniqueKeepsAll(hub, values, u[1]);
      var i :| 0 <= i < |values| && hub.trim(values[i]) == u[0];
      var j :| 0 <= j < |values| && hub.trim(values[j]) == u[1];
      assert Differ(hub, values, i, j);
    }
    if i, j :| Differ(hub, values, i, j) {
      UniqueKeepsAll(hub, values, hub.trim(values[i]));
      UniqueKeepsAll(hub, values, hub.trim(values[j]));
    }
  }
}
