/** Composed log search: page one resolves the selected services and workloads
    to source branches; later pages rebuild the same query from a token. */
module LogPages {

  datatype Option<+T> = None | Some(value: T)

  type Bytes = seq<int>

  const SECOND: int := 1_000_000_000
  const TOKEN_TTL: int := 30 * 60 * SECOND
  const MAX_TOKEN: nat := 3072
  const MAX_DECODED: nat := 256 * 1024

  /** Everything before the first `c`, and everything after it. */
  function Cut(s: string, c: char): (r: Option<(string, string)>)
    ensures r.Some? ==> s == r.value.0 + [c] + r.value.1 && c !in r.value.0
    ensures r.None? <==> c !in s
  {
    if s == "" then None
    else if s[0] == c then Some(("", s[1..]))
    else match Cut(s[1..], c)
      case None => None
      case Some((a, b)) => Some(([s[0]] + a, b))
  }

  lemma {:induction false} CutFirst(a: string, c: char, b: string)
    requires c !in a
    ensures Cut(a + [c] + b, c) == Some((a, b))
  {
    if a == "" {
      assert a + [c] + b == [c] + b;
    } else {
      CutFirst(a[1..], c, b);
      assert (a + [c] + b)[1..] == a[1..] + [c] + b;
      assert [a[0]] + a[1..] == a;
    }
  }

  // -------------------------------------------------------------- data model

  datatype Branch = Branch(category: string, services: seq<string>, bodyAll: seq<seq<string>>)

  datatype Resolution = Resolution(
    service: string, namespace: string, workload: string,
    unavailable: string, matchedBy: string, compacted: string, branches: seq<Branch>)

  /** The token's own record of a resolution. */
  datatype TokenEntry = TokenEntry(
    s: string, n: string, w: string, u: string, m: string, f: string, b: seq<Branch>)

  datatype Payload = Payload(scope: string, expires: int, entries: seq<TokenEntry>)

  /** What one workload's log sources are, as the cluster shows them right now. */
  datatype Sources = Sources(app: seq<string>, ztunnel: seq<string>, waypoint: seq<string>, bodyAll: seq<seq<string>>,
      fallback: string)
  {
    function Branches(wanted: set<string>): (bs: seq<Branch>)
      ensures ValidBranches(bs)
    {
      (if "app" in wanted && app != [] then [Branch("application", app, [])] else []) +
      (if "ztunnel" in wanted && ztunnel != [] then [Branch("ztunnel", ztunnel, bodyAll)] else []) +
      (if "waypoint" in wanted && waypoint != [] then [Branch("waypoint", waypoint, bodyAll)] else [])
    }
  }

  /** The cluster as one page sees it: the workload behind a service (or why
      there is none), and a workload's sources. It may differ on every page. */
  datatype Cluster = Cluster(
    workloadOf: string -> (string, string, string),
    sourcesOf: (string, string, seq<string>) -> Sources)

  /** The parts of a request every page repeats; `filtered` says a source
      filter was sent, `scope` is the digest the token is bound to. */
  datatype Request = Request(services: seq<string>, workloads: seq<string>, wanted: set<string>, filtered: bool,
      scope: string)

  /** One selected thing to resolve. */
  datatype Item = ServiceItem(service: string) | WorkloadItem(namespace: string, workload: string)

  datatype Reply =
    | BadRequest
    | Page(sources: seq<Branch>, matchNone: bool, token: string, resolutions: seq<Resolution>)

  // ------------------------------------------------------------- resolutions

  predicate ValidBranch(b: Branch) {
    b.services != [] && b.category in {"application", "ztunnel", "waypoint"}
  }

  predicate ValidBranches(bs: seq<Branch>) {
    forall i :: 0 <= i < |bs| ==> ValidBranch(bs[i])
  }

  function FallbackBodyAll(namespace: string, name: string): seq<seq<string>> {
    var host := name + "." + namespace + ".svc";
    [[host, "workload=\"" + name + "-"], ["namespace=\"" + namespace + "\"", host]]
  }

  predicate IsProxy(b: Branch) {
    b.bodyAll != [] && (b.category == "ztunnel" || b.category == "waypoint")
  }

  function CompactBranch(r: Resolution, b: Branch): (c: Branch)
    ensures c.services == b.services && c.category == b.category
  {
    if IsProxy(b) then b.(bodyAll := FallbackBodyAll(r.namespace, r.workload)) else b
  }

  function CompactBranches(r: Resolution, bs: seq<Branch>): (cs: seq<Branch>)
    ensures |cs| == |bs| && forall i :: 0 <= i < |bs| ==> cs[i] == CompactBranch(r, bs[i])
  {
    if bs == [] then []
    else CompactBranches(r, bs[..|bs| - 1]) + [CompactBranch(r, bs[|bs| - 1])]
  }

  predicate AnyProxy(bs: seq<Branch>) {
    bs != [] && (IsProxy(bs[|bs| - 1]) || AnyProxy(bs[..|bs| - 1]))
  }

  const COMPACTED: string :=
      "proxy logs use workload and namespace matching because the resolved pod set was too large for pagination"

  function CompactOne(r: Resolution): Resolution {
    r.(branches := CompactBranches(r, r.branches), compacted := if AnyProxy(r.branches) then COMPACTED else r.compacted)
  }

  function Compact(rs: seq<Resolution>): (cs: seq<Resolution>)
    ensures |cs| == |rs| && forall i :: 0 <= i < |rs| ==> cs[i] == CompactOne(rs[i])
  {
    if rs == [] then [] else Compact(rs[..|rs| - 1]) + [CompactOne(rs[|rs| - 1])]
  }

  /** One resolution's branches, proxies switched to the stable fallback. */
  method CompactResolution(r: Resolution) returns (c: Resolution)
    ensures c == CompactOne(r)
  {
    var branches: seq<Branch> := [];
    var note := r.compacted;
    for j := 0 to |r.branches|
      invariant branches == CompactBranches(r, r.branches[..j])
      invariant note == if AnyProxy(r.branches[..j]) then COMPACTED else r.compacted
    {
      var b := r.branches[j];
      assert r.branches[..j + 1][..j] == r.branches[..j];
      if b.bodyAll != [] && (b.category == "ztunnel" || b.category == "waypoint") {
        branches := branches + [b.(bodyAll := FallbackBodyAll(r.namespace, r.workload))];
        note := COMPACTED;
      } else {
        branches := branches + [b];
      }
    }
    assert r.branches[..|r.branches|] == r.branches;
    c := r.(branches := branches, compacted := note);
  }

  method CompactLogResolutions(rs: seq<Resolution>) returns (out: seq<Resolution>)
    ensures out == Compact(rs)
  {
    out := [];
    for i := 0 to |rs|
      invariant out == Compact(rs[..i])
    {
      assert rs[..i + 1][..i] == rs[..i];
      var c := CompactResolution(rs[i]);
      out := out + [c];
    }
    assert rs[..|rs|] == rs;
  }

  function ToEntry(r: Resolution): TokenEntry {
    TokenEntry(r.service, r.namespace, r.workload, r.unavailable, r.matchedBy, r.compacted, r.branches)
  }

  function FromEntry(e: TokenEntry): Resolution {
    Resolution(e.s, e.n, e.w, e.u, e.m, e.f, e.b)
  }

  function ToEntries(rs: seq<Resolution>): (es: seq<TokenEntry>)
    ensures FromEntries(es) == rs
  {
    if rs == [] then []
    else
      var es := ToEntries(rs[..|rs| - 1]) + [ToEntry(rs[|rs| - 1])];
      assert es[..|es| - 1] == ToEntries(rs[..|rs| - 1]);
      es
  }

  function FromEntries(es: seq<TokenEntry>): (rs: seq<Resolution>)
  {
    if es == [] then [] else FromEntries(es[..|es| - 1]) + [FromEntry(es[|es| - 1])]
  }

  function AllBranches(rs: seq<Resolution>): seq<Branch> {
    if rs == [] then [] else AllBranches(rs[..|rs| - 1]) + rs[|rs| - 1].branches
  }

  function Unix(t: int): int { t / SECOND }

  predicate Fits(m: (string, nat)) {
    |m.0| <= MAX_TOKEN && m.1 <= MAX_DECODED
  }

  function Split(selected: string): (string, string) {
    match Cut(selected, '/')
    case None => ("", "")
    case Some(pair) => pair
  }

  /** A workload is selected as namespace/name, neither empty. */
  predicate Named(selected: string) {
    Split(selected).0 != "" && Split(selected).1 != ""
  }

  predicate AllNamed(workloads: seq<string>) {
    forall i :: 0 <= i < |workloads| ==> Named(workloads[i])
  }

  function ServiceItems(services: seq<string>): (items: seq<Item>)
    ensures |items| == |services| && forall i :: 0 <= i < |services| ==> items[i] == ServiceItem(services[i])
  {
    seq(|services|, i requires 0 <= i < |services| => ServiceItem(services[i]))
  }

  function WorkloadItems(workloads: seq<string>): (items: seq<Item>)
    ensures |items| == |workloads|
    ensures forall i :: 0 <= i < |workloads| ==> items[i] == WorkloadItem(Split(workloads[i]).0, Split(workloads[i]).1)
  {
    seq(|workloads|, i requires 0 <= i < |workloads| => WorkloadItem(Split(workloads[i]).0, Split(workloads[i]).1))
  }

  /** Resolving one item by looking at the cluster. */
  function Resolve(cluster: Cluster, wanted: set<string>, item: Item): Resolution {
    match item
    case ServiceItem(service) =>
      var (namespace, workload, why) := cluster.workloadOf(service);
      var desc := if workload == "" then Sources([service], [], [], [], "")
                  else cluster.sourcesOf(namespace, workload, [service]);
      Resolution(service, namespace, workload, why, desc.fallback, "", desc.Branches(wanted))
    case WorkloadItem(namespace, workload) =>
      var desc := cluster.sourcesOf(namespace, workload, []);
      Resolution("", namespace, workload, "", desc.fallback, "", desc.Branches(wanted))
  }

  // ----------------------------------------------------------------- the hub

  /** The hub's signing key, and the library calls it makes: trimming, JSON,
      gzip, base64 and HMAC, known by their laws only. */
  datatype Hub = Hub(
    key: Bytes, trim: string -> string,
    json: Payload -> Bytes, unjson: Bytes -> Option<Payload>,
    gzip: Bytes -> Bytes, gunzip: Bytes -> Option<Bytes>,
    b64: Bytes -> string, unb64: string -> Option<Bytes>,
    mac: (Bytes, Bytes) -> Bytes)
  {
    ghost predicate Lawful() {
      && (forall p :: unjson(json(p)) == Some(p))
      && (forall b :: gunzip(gzip(b)) == Some(b))
      && (forall b :: unb64(b64(b)) == Some(b) && '.' !in b64(b))
      && TrimLaws()
    }

    /** Trimming is idempotent; a token has no white space to trim. */
    ghost predicate TrimLaws() {
      && trim("") == ""
      && (forall s :: trim(trim(s)) == trim(s))
      && (forall a, b :: trim(b64(a) + ['.'] + b64(b)) == b64(a) + ['.'] + b64(b))
    }

    function ResolutionKey(service: string, namespace: string, workload: string): string {
      if trim(service) != "" then "service:" + trim(service)
      else if namespace != "" && workload != "" then "workload:" + namespace + "/" + workload
      else ""
    }

    function KeyOf(r: Resolution): string { ResolutionKey(r.service, r.namespace, r.workload) }

    predicate ValidResolution(r: Resolution) {
      KeyOf(r) != "" && ValidBranches(r.branches)
    }

    predicate ValidResolutions(rs: seq<Resolution>) {
      forall i :: 0 <= i < |rs| ==> ValidResolution(rs[i])
    }

    /** The token, and the size of its payload before compression. */
    function Marshal(scope: string, rs: seq<Resolution>, now: int): (string, nat) {
      var raw := json(Payload(scope, Unix(now + TOKEN_TTL), ToEntries(rs)));
      var zipped := gzip(raw);
      (b64(zipped) + ['.'] + b64(mac(key, zipped)), |raw|)
    }

    /** The token and the resolutions page one must then use. */
    function Encode(scope: string, rs: seq<Resolution>, now: int): Option<(string, seq<Resolution>)> {
      if Fits(Marshal(scope, rs, now)) then Some((Marshal(scope, rs, now).0, rs))
      else if Fits(Marshal(scope, Compact(rs), now)) then Some((Marshal(scope, Compact(rs), now).0, Compact(rs)))
      else None
    }

    function Decode(token: string, scope: string, now: int): Option<seq<Resolution>> {
      if token == "" || |token| > MAX_TOKEN then None
      else match Cut(token, '.')
        case None => None
        case Some((encoded, signature)) =>
          match (unb64(encoded), unb64(signature))
          case (Some(zipped), Some(sig)) =>
            if sig != mac(key, zipped) then None else DecodeZipped(zipped, scope, now)
          case (_, _) => None
    }

    function DecodeZipped(zipped: Bytes, scope: string, now: int): Option<seq<Resolution>> {
      match gunzip(zipped)
      case None => None
      case Some(raw) =>
        if |raw| > MAX_DECODED then None
        else match unjson(raw)
          case None => None
          case Some(p) =>
            if p.scope != scope || p.expires < Unix(now) then None
            else if ValidResolutions(FromEntries(p.entries)) then Some(FromEntries(p.entries)) else None
    }

    /** The distinct, trimmed, non-empty values, in order of first appearance. */
    function Unique(values: seq<string>): seq<string> {
      if values == [] then []
      else
        var front := Unique(values[..|values| - 1]);
        var v := trim(values[|values| - 1]);
        if v != "" && v !in front then front + [v] else front
    }

    predicate Composed(req: Request) {
      var services, workloads := Unique(req.services), Unique(req.workloads);
      (services != [] || workloads != []) && (workloads != [] || |services| > 1 || req.filtered)
    }

    function Items(req: Request): seq<Item> {
      ServiceItems(Unique(req.services)) + WorkloadItems(Unique(req.workloads))
    }

    function ItemKey(item: Item): string {
      match item
      case ServiceItem(service) => ResolutionKey(service, "", "")
      case WorkloadItem(namespace, workload) => ResolutionKey("", namespace, workload)
    }

    function ResolvedItem(cluster: Cluster, wanted: set<string>, hints: map<string, Resolution>, item: Item):
        Resolution {
      if ItemKey(item) in hints then hints[ItemKey(item)] else Resolve(cluster, wanted, item)
    }

    function Resolved(cluster: Cluster, wanted: set<string>, hints: map<string, Resolution>, items: seq<Item>):
        (rs: seq<Resolution>)
      ensures |rs| == |items|
    {
      if items == [] then []
      else
        Resolved(cluster, wanted, hints, items[..|items| - 1])
        + [ResolvedItem(cluster, wanted, hints, items[|items| - 1])]
    }

    /** The decoded resolutions by key; a later entry wins. */
    function Hints(rs: seq<Resolution>): map<string, Resolution> {
      if rs == [] then map[] else Hints(rs[..|rs| - 1])[KeyOf(rs[|rs| - 1]) := rs[|rs| - 1]]
    }

    function PageOf(token: string, rs: seq<Resolution>): Reply {
      Page(AllBranches(rs), AllBranches(rs) == [], token, rs)
    }

    /** A composed search: with no token it encodes one, with a token it uses
        the resolutions inside. `paging` says a cursor was sent. */
    function Search(cluster: Cluster, req: Request, paging: bool, rawToken: string, now: int): Reply
      requires Composed(req)
    {
      if trim(rawToken) == "" then
        if paging || !AllNamed(Unique(req.workloads)) then BadRequest
        else FirstPage(cluster, req, now)
      else NextPage(cluster, req, trim(rawToken), now)
    }

    function FirstPage(cluster: Cluster, req: Request, now: int): Reply {
      match Encode(req.scope, Resolved(cluster, req.wanted, map[], Items(req)), now)
      case None => BadRequest
      case Some((token, used)) => PageOf(token, used)
    }

    function NextPage(cluster: Cluster, req: Request, token: string, now: int): Reply {
      match Decode(token, req.scope, now)
      case None => BadRequest
      case Some(cached) =>
        if !AllNamed(Unique(req.workloads)) then BadRequest
        else PageOf(token, Resolved(cluster, req.wanted, Hints(cached), Items(req)))
    }
  }

  // -------------------------------------------------------- token round trip

  /** Compaction touches no key, no category and no service list. */
  lemma CompactKeepsValid(hub: Hub, rs: seq<Resolution>)
    requires hub.ValidResolutions(rs)
    ensures hub.ValidResolutions(Compact(rs))
  {
    forall i | 0 <= i < |rs| ensures hub.ValidResolution(Compact(rs)[i]) {
      var r, c := rs[i], CompactOne(rs[i]);
      assert hub.ValidResolution(r);
      forall j | 0 <= j < |c.branches| ensures ValidBranch(c.branches[j]) {
        assert ValidBranch(r.branches[j]) && c.branches[j] == CompactBranch(r, r.branches[j]);
      }
    }
  }

  /** What a hub-made token decodes to, at any later moment. */
  lemma MarshalRoundTrip(hub: Hub, scope: string, rs: seq<Resolution>, now: int, later: int)
    requires hub.Lawful() && hub.ValidResolutions(rs) && Fits(hub.Marshal(scope, rs, now))
    ensures hub.Decode(hub.Marshal(scope, rs, now).0, scope, later)
            == if Unix(later) <= Unix(now + TOKEN_TTL) then Some(rs) else None
  {
    var p := Payload(scope, Unix(now + TOKEN_TTL), ToEntries(rs));
    var raw := hub.json(p);
    var zipped := hub.gzip(raw);
    var sig := hub.mac(hub.key, zipped);
    CutFirst(hub.b64(zipped), '.', hub.b64(sig));
    assert FromEntries(p.entries) == rs;
    assert hub.unjson(raw) == Some(p) && hub.gunzip(zipped) == Some(raw);
    assert hub.unb64(hub.b64(zipped)) == Some(zipped) && hub.unb64(hub.b64(sig)) == Some(sig);
  }

  /** Decoding a token inside its lifetime gives back exactly the resolutions
      page one used, compacted or not; after it, nothing. */
  lemma TokenRoundTrip(hub: Hub, scope: string, rs: seq<Resolution>, now: int, later: int)
    requires hub.Lawful() && hub.ValidResolutions(rs) && hub.Encode(scope, rs, now).Some?
    ensures var (token, used) := hub.Encode(scope, rs, now).value;
            && used == (if Fits(hub.Marshal(scope, rs, now)) then rs else Compact(rs))
            && hub.Decode(token, scope, later) == if Unix(later) <= Unix(now + TOKEN_TTL) then Some(used) else None
  {
    CompactKeepsValid(hub, rs);
    MarshalRoundTrip(hub, scope, hub.Encode(scope, rs, now).value.1, now, later);
  }

  /** A token is one clean query value: trimming it changes nothing. */
  lemma TokenIsTrimmed(hub: Hub, scope: string, rs: seq<Resolution>, now: int)
    requires hub.TrimLaws() && hub.Encode(scope, rs, now).Some?
    ensures var token := hub.Encode(scope, rs, now).value.0; hub.trim(token) == token && token != ""
  {
    var used := hub.Encode(scope, rs, now).value.1;
    var zipped := hub.gzip(hub.json(Payload(scope, Unix(now + TOKEN_TTL), ToEntries(used))));
    var a, b := hub.b64(zipped), hub.b64(hub.mac(hub.key, zipped));
    assert hub.Marshal(scope, used, now).0 == a + ['.'] + b;
    assert |a + ['.'] + b| > 0;
  }
}
