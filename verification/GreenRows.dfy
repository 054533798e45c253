/** The energy report: storage rows merged per service, converted to carbon,
    sorted, and folded after the first topN. Numbers are reals. */
module GreenRows {

  /** One storage row; a service may have one per quality tier, and "" is the
      energy no service is known for. */
  datatype EnergyRow = EnergyRow(service: string, wh: real, quality: string)

  /** The conversion: grams of CO2e per watt-hour. */
  datatype Factors = Factors(rate: real) {
    function Carbon(wh: real): real { wh * rate }
  }

  /** Grid intensity in grams per kWh, times the building's overhead factor. */
  function Resolve(intensity: real, pue: real): Factors { Factors(intensity / 1000.0 * pue) }

  /** The formula as the report quotes it. */
  lemma RateIsFormula(intensity: real, pue: real, wh: real)
    ensures Resolve(intensity, pue).Carbon(wh) == wh * intensity / 1000.0 * pue
  {
    var k := intensity / 1000.0;
    assert wh * intensity / 1000.0 == wh * k;
    assert wh * k * pue == wh * (k * pue);
  }

  /** One line of the report. */
  datatype Line = Line(service: string, wh: real, estimated: real, carbon: real, requests: nat)

  datatype Totals = Totals(attributed: real, unattributed: real, measured: real, estimated: real, carbon: real,
      coverage: real)

  const OTHER: string := "(other)"
  const UNATTRIBUTED: string := "(unattributed)"

  // ------------------------------------------------------------- sums of rows

  function When(b: bool, x: real): real { if b then x else 0.0 }

  function RowWh(r: EnergyRow): real { r.wh }

  function RowMeasured(r: EnergyRow): real { When(r.quality == "measured", r.wh) }

  function RowEstimated(r: EnergyRow): real { When(r.quality == "estimated", r.wh) }

  /** What one service's rows measure together. */
  function Per(rows: seq<EnergyRow>, measure: EnergyRow -> real, service: string): real {
    if rows == [] then 0.0
    else
      var r := rows[|rows| - 1];
      Per(rows[..|rows| - 1], measure, service) + When(r.service == service, measure(r))
  }

  /** What the rows of all services measure together. */
  function All(rows: seq<EnergyRow>, measure: EnergyRow -> real): real {
    if rows == [] then 0.0
    else
      var r := rows[|rows| - 1];
      All(rows[..|rows| - 1], measure) + When(r.service != "", measure(r))
  }

  /** The services in order of first appearance. */
  function Names(rows: seq<EnergyRow>): seq<string> {
    if rows == [] then []
    else
      var front, s := Names(rows[..|rows| - 1]), rows[|rows| - 1].service;
      if s == "" || s in front then front else front + [s]
  }

  predicate HasUnattributed(rows: seq<EnergyRow>) {
    exists i :: 0 <= i < |rows| && rows[i].service == ""
  }

  // ------------------------------------------------------------------- report

  function LineOf(rows: seq<EnergyRow>, requests: map<string, nat>, f: Factors, service: string): Line {
    var wh := Per(rows, RowWh, service);
    Line(service, wh, Per(rows, RowEstimated, service), f.Carbon(wh),
        if service in requests then requests[service] else 0)
  }

  function LinesOf(rows: seq<EnergyRow>, requests: map<string, nat>, f: Factors, names: seq<string>): (ls: seq<Line>)
    ensures |ls| == |names| && forall i :: 0 <= i < |names| ==> ls[i] == LineOf(rows, requests, f, names[i])
  {
    if names == [] then []
    else LinesOf(rows, requests, f, names[..|names| - 1]) + [LineOf(rows, requests, f, names[|names| - 1])]
  }

  function Wh(l: Line): real { l.wh }

  function Estimated(l: Line): real { l.estimated }

  function CarbonOf(l: Line): real { l.carbon }

  function Sum(ls: seq<Line>, part: Line -> real): real {
    if ls == [] then 0.0 else Sum(ls[..|ls| - 1], part) + part(ls[|ls| - 1])
  }

  function SumRequests(ls: seq<Line>): nat {
    if ls == [] then 0 else SumRequests(ls[..|ls| - 1]) + ls[|ls| - 1].requests
  }

  function Folded(ls: seq<Line>): Line {
    Line(OTHER, Sum(ls, Wh), Sum(ls, Estimated), Sum(ls, CarbonOf), SumRequests(ls))
  }

  function Fold(sorted: seq<Line>, topN: int): seq<Line> {
    if 0 < topN < |sorted| then sorted[..topN] + [Folded(sorted[topN..])] else sorted
  }

  function TotalCarbon(rows: seq<EnergyRow>, f: Factors): real { f.Carbon(All(rows, RowWh) + Per(rows, RowWh, "")) }

  function TotalsOf(rows: seq<EnergyRow>, f: Factors): Totals {
    var attributed, unattributed := All(rows, RowWh), Per(rows, RowWh, "");
    Totals(attributed, unattributed, All(rows, RowMeasured), All(rows, RowEstimated), TotalCarbon(rows, f),
           if attributed + unattributed > 0.0 then attributed / (attributed + unattributed) else 0.0)
  }

  function Report(rows: seq<EnergyRow>, f: Factors, sorted: seq<Line>, topN: int): seq<Line> {
    var wh := Per(rows, RowWh, "");
    if HasUnattributed(rows) then Fold(sorted, topN) + [Line(UNATTRIBUTED, wh, 0.0, f.Carbon(wh), 0)]
        else Fold(sorted, topN)
  }

  predicate StringLess(a: string, b: string) {
    b != "" && (a == "" || a[0] < b[0] || (a[0] == b[0] && StringLess(a[1..], b[1..])))
  }

  predicate Heavier(a: Line, b: Line) {
    if a.wh != b.wh then a.wh > b.wh else StringLess(a.service, b.service)
  }

  predicate SortedLines(ls: seq<Line>) {
    forall i, j :: 0 <= i < j < |ls| ==> !Heavier(ls[j], ls[i])
  }

  /** `sorted` is the services of the rows, heaviest first. */
  ghost predicate Arranges(rows: seq<EnergyRow>, requests: map<string, nat>, f: Factors, sorted: seq<Line>) {
    multiset(sorted) == multiset(LinesOf(rows, requests, f, Names(rows))) && SortedLines(sorted)
  }

  ghost predicate Sorts(sort: seq<Line> -> seq<Line>) {
    forall ls :: multiset(sort(ls)) == multiset(ls) && SortedLines(sort(ls))
  }

  // ------------------------------------------------------------- loop as coded

  datatype Acc = Acc(wh: real, estimated: real)

  /** The totals over these rows, before carbon and coverage are filled in. */
  function Tally(rows: seq<EnergyRow>): Totals {
    Totals(All(rows, RowWh), Per(rows, RowWh, ""), All(rows, RowMeasured), All(rows, RowEstimated), 0.0, 0.0)
  }

  ghost predicate Accumulates(rows: seq<EnergyRow>, order: seq<string>, byService: map<string, Acc>) {
    && order == Names(rows)
    && (forall s :: s in byService <==> s in order)
    && (forall s :: s in byService ==> byService[s] == Acc(Per(rows, RowWh, s), Per(rows, RowEstimated, s)))
  }

  method TallyRow(ghost before: seq<EnergyRow>, t0: Totals, row: EnergyRow) returns (t: Totals)
    requires t0 == Tally(before)
    ensures t == Tally(before + [row])
  {
    assert (before + [row])[..|before|] == before;
    t := t0;
    if row.service == "" { return t.(unattributed := t.unattributed + row.wh); }
    t := t.(attributed := t.attributed + row.wh);
    match row.quality {
      case "measured" => t := t.(measured := t.measured + row.wh);
      case "estimated" => t := t.(estimated := t.estimated + row.wh);
      case _ =>
    }
  }

  method MergeRow(ghost before: seq<EnergyRow>, order0: seq<string>, byService0: map<string, Acc>, row: EnergyRow)
    returns (order: seq<string>, byService: map<string, Acc>)
    requires Accumulates(before, order0, byService0)
    ensures Accumulates(before + [row], order, byService)
  {
    assert (before + [row])[..|before|] == before;
    order, byService := order0, byService0;
    if row.service == "" {
      NamesAreServices(before, "");
      return;
    }
    if row.service !in byService {
      UnnamedHasNone(before, row.service);
      byService := byService[row.service := Acc(0.0, 0.0)];
      order := order + [row.service];
    }
    var a := byService[row.service];
    byService := byService[row.service :=
      Acc(a.wh + row.wh, a.estimated + if row.quality == "estimated" then row.wh else 0.0)];
  }

  method MergeRows(rows: seq<EnergyRow>)
      returns (order: seq<string>, byService: map<string, Acc>, t: Totals, hasUnattributed: bool)
    ensures Accumulates(rows, order, byService) && hasUnattributed == HasUnattributed(rows) && t == Tally(rows)
  {
    order, byService, hasUnattributed := [], map[], false;
    t := Totals(0.0, 0.0, 0.0, 0.0, 0.0, 0.0);
    for i := 0 to |rows|
      invariant Accumulates(rows[..i], order, byService)
      invariant hasUnattributed == HasUnattributed(rows[..i]) && t == Tally(rows[..i])
    {
      assert rows[..i + 1] == rows[..i] + [rows[i]];
      UnattributedSnoc(rows, i);
      if rows[i].service == "" { hasUnattributed := true; }
      t := TallyRow(rows[..i], t, rows[i]);
      order, byService := MergeRow(rows[..i], order, byService, rows[i]);
    }
    assert rows[..|rows|] == rows;
  }

  lemma UnattributedSnoc(rows: seq<EnergyRow>, i: nat)
    requires i < |rows|
    ensures HasUnattributed(rows[..i + 1]) <==> HasUnattributed(rows[..i]) || rows[i].service == ""
  {
    var before, after := rows[..i], rows[..i + 1];
    if HasUnattributed(before) {
      var j :| 0 <= j < |before| && before[j].service == "";
      assert after[j].service == "";
    }
    assert after[i] == rows[i];
    if HasUnattributed(after) {
      var j :| 0 <= j < |after| && after[j].service == "";
      if j < i { assert before[j].service == ""; }
    }
  }

  lemma {:induction false} NamesAreServices(rows: seq<EnergyRow>, s: string)
    ensures s in Names(rows) <==> s != "" && exists i :: 0 <= i < |rows| && rows[i].service == s
  {
    if rows != [] {
      var n := |rows| - 1;
      NamesAreServices(rows[..n], s);
      assert forall i :: 0 <= i < n ==> rows[..n][i] == rows[i];
    }
  }

  lemma {:induction false} UnnamedHasNone(rows: seq<EnergyRow>, s: string)
    requires s !in Names(rows) && s != ""
    ensures Per(rows, RowWh, s) == 0.0 && Per(rows, RowEstimated, s) == 0.0
  {
    if rows != [] {
      UnnamedHasNone(rows[..|rows| - 1], s);
    }
  }

  method MakeLines(ghost rows: seq<EnergyRow>, requests: map<string, nat>, f: Factors, order: seq<string>,
      byService: map<string, Acc>)
    returns (services: seq<Line>)
    requires forall s ::
               s in order ==> s in byService && byService[s] == Acc(Per(rows, RowWh, s), Per(rows, RowEstimated, s))
    ensures services == LinesOf(rows, requests, f, order)
  {
    services := [];
    for i := 0 to |order|
      invariant services == LinesOf(rows, requests, f, order[..i])
    {
      assert order[..i + 1][..i] == order[..i];
      var name := order[i];
      var a := byService[name];
      services :=
          services + [Line(name, a.wh, a.estimated, f.Carbon(a.wh), if name in requests then requests[name] else 0)];
    }
    assert order[..|order|] == order;
  }

  method FinishTotals(ghost rows: seq<EnergyRow>, t: Totals, f: Factors) returns (totals: Totals)
    requires t == Tally(rows)
    ensures totals == TotalsOf(rows, f)
  {
    var sum := t.attributed + t.unattributed;
    totals := t.(carbon := f.Carbon(sum));
    if sum > 0.0 { totals := totals.(coverage := t.attributed / sum); }
  }

  method FoldLines(services: seq<Line>, topN: int) returns (out: seq<Line>)
    ensures out == Fold(services, topN)
  {
    out := services;
    if topN > 0 && |services| > topN {
      var other := FoldTail(services[topN..]);
      out := services[..topN] + [other];
    }
  }

  method BuildGreenRows(rows: seq<EnergyRow>, requests: map<string, nat>, f: Factors, topN: int,
      sort: seq<Line> -> seq<Line>)
    returns (out: seq<Line>, totals: Totals, ghost sorted: seq<Line>)
    requires Sorts(sort)
    ensures Arranges(rows, requests, f, sorted) && out == Report(rows, f, sorted, topN) && totals == TotalsOf(rows, f)
  {
    var order, byService, t, hasUnattributed := MergeRows(rows);
    var services := MakeLines(rows, requests, f, order, byService);
    services := sort(services);
    sorted := services;
    out := FoldLines(services, topN);
    if hasUnattributed {
      out := out + [Line(UNATTRIBUTED, t.unattributed, 0.0, f.Carbon(t.unattributed), 0)];
    }
    totals := FinishTotals(rows, t, f);
  }

  method FoldTail(tail: seq<Line>) returns (other: Line)
    ensures other == Folded(tail)
  {
    other := Line(OTHER, 0.0, 0.0, 0.0, 0);
    for i := 0 to |tail|
      invariant other == Folded(tail[..i])
    {
      assert tail[..i + 1][..i] == tail[..i];
      other := Line(OTHER, other.wh + tail[i].wh, other.estimated + tail[i].estimated,
                    other.carbon + tail[i].carbon, other.requests + tail[i].requests);
    }
    assert tail[..|tail|] == tail;
  }
}
