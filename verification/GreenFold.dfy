/** The report loses no energy and no carbon, and hides only the lightest. */
module GreenFold {
  import opened GreenRows

  // ------------------------------------------------------------ adding up lines

  lemma {:induction false} SumConcat(a: seq<Line>, b: seq<Line>, part: Line -> real)
    ensures Sum(a + b, part) == Sum(a, part) + Sum(b, part)
  {
    if b == [] {
      assert a + b == a;
    } else {
      SumConcat(a, b[..|b| - 1], part);
      assert (a + b)[..|a + b| - 1] == a + b[..|b| - 1];
    }
  }

  lemma SumSnoc(a: seq<Line>, x: Line, part: Line -> real)
    ensures Sum(a + [x], part) == Sum(a, part) + part(x)
  {
    assert (a + [x])[..|a|] == a;
  }

  function Cut(ls: seq<Line>, i: nat): seq<Line>
    requires i < |ls|
  {
    ls[..i] + ls[i + 1..]
  }

  lemma CutParts(ls: seq<Line>, i: nat)
    requires i < |ls|
    ensures ls == ls[..i] + [ls[i]] + ls[i + 1..]
  {
  }

  lemma CutSum(ls: seq<Line>, i: nat, part: Line -> real)
    requires i < |ls|
    ensures Sum(ls, part) == Sum(Cut(ls, i), part) + part(ls[i])
  {
    var head, tail := ls[..i], ls[i + 1..];
    CutParts(ls, i);
    SumSnoc(head, ls[i], part);
    SumConcat(head + [ls[i]], tail, part);
    SumConcat(head, tail, part);
  }

  lemma CutMultiset(ls: seq<Line>, i: nat)
    requires i < |ls|
    ensures multiset(ls) == multiset(Cut(ls, i)) + multiset{ls[i]}
  {
    var head, tail := ls[..i], ls[i + 1..];
    assert ls == head + [ls[i]] + tail;
  }

  /** Sorting moves no energy. */
  lemma {:induction false} SumPermutes(a: seq<Line>, b: seq<Line>, part: Line -> real)
    requires multiset(a) == multiset(b)
    ensures Sum(a, part) == Sum(b, part)
  {
    if a == [] {
      assert |multiset(b)| == 0;
    } else {
      var n := |a| - 1;
      var last := a[n];
      assert last in multiset(b);
      var i :| 0 <= i < |b| && b[i] == last;
      CutSum(b, i, part);
      CutMultiset(b, i);
      assert a == a[..n] + [last];
      assert multiset(a) == multiset(a[..n]) + multiset{last};
      assert multiset(a[..n]) == multiset(a) - multiset{last};
      assert multiset(Cut(b, i)) == multiset(b) - multiset{last};
      SumPermutes(a[..n], Cut(b, i), part);
    }
  }

  // ------------------------------------------------- merged lines hold all rows

  predicate Distinct(names: seq<string>) {
    forall i, j :: 0 <= i < j < |names| ==> names[i] != names[j]
  }

  lemma {:induction false} NamesDistinct(rows: seq<EnergyRow>)
    ensures Distinct(Names(rows)) && "" !in Names(rows)
  {
    if rows != [] { NamesDistinct(rows[..|rows| - 1]); }
  }

  /** What the rows of these services measure together. */
  function Covered(rows: seq<EnergyRow>, measure: EnergyRow -> real, names: seq<string>): real {
    if rows == [] then 0.0
    else
      var r := rows[|rows| - 1];
      Covered(rows[..|rows| - 1], measure, names) + When(r.service in names, measure(r))
  }

  lemma {:induction false} CoveredNone(rows: seq<EnergyRow>, measure: EnergyRow -> real)
    ensures Covered(rows, measure, []) == 0.0
  {
    if rows != [] { CoveredNone(rows[..|rows| - 1], measure); }
  }

  lemma {:induction false} CoveredSnoc(rows: seq<EnergyRow>, measure: EnergyRow -> real, names: seq<string>, s: string)
    requires s !in names
    ensures Covered(rows, measure, names + [s]) == Covered(rows, measure, names) + Per(rows, measure, s)
  {
    if rows != [] { CoveredSnoc(rows[..|rows| - 1], measure, names, s); }
  }

  lemma {:induction false} CoveredAll(rows: seq<EnergyRow>, measure: EnergyRow -> real, names: seq<string>)
    requires forall i :: 0 <= i < |rows| ==> (rows[i].service in names <==> rows[i].service != "")
    ensures Covered(rows, measure, names) == All(rows, measure)
  {
    if rows != [] { CoveredAll(rows[..|rows| - 1], measure, names); }
  }

  lemma {:induction false} LinesCover(rows: seq<EnergyRow>, requests: map<string, nat>, f: Factors, names: seq<string>)
    requires Distinct(names)
    ensures Sum(LinesOf(rows, requests, f, names), Wh) == Covered(rows, RowWh, names)
    ensures Sum(LinesOf(rows, requests, f, names), Estimated) == Covered(rows, RowEstimated, names)
  {
    if names == [] {
      CoveredNone(rows, RowWh);
      CoveredNone(rows, RowEstimated);
    } else {
      var n := |names| - 1;
      LinesCover(rows, requests, f, names[..n]);
      CoveredSnoc(rows, RowWh, names[..n], names[n]);
      CoveredSnoc(rows, RowEstimated, names[..n], names[n]);
      assert names == names[..n] + [names[n]];
      assert LinesOf(rows, requests, f, names)[..n] == LinesOf(rows, requests, f, names[..n]);
    }
  }

  lemma LinesHoldAll(rows: seq<EnergyRow>, requests: map<string, nat>, f: Factors)
    ensures Sum(LinesOf(rows, requests, f, Names(rows)), Wh) == All(rows, RowWh)
    ensures Sum(LinesOf(rows, requests, f, Names(rows)), Estimated) == All(rows, RowEstimated)
  {
    NamesDistinct(rows);
    LinesCover(rows, requests, f, Names(rows));
    forall i | 0 <= i < |rows| ensures rows[i].service in Names(rows) <==> rows[i].service != "" {
      NamesAreServices(rows, rows[i].service);
    }
    CoveredAll(rows, RowWh, Names(rows));
    CoveredAll(rows, RowEstimated, Names(rows));
  }

  // -------------------------------------------------------------------- carbon

  lemma CarbonAdds(f: Factors, a: real, b: real)
    ensures f.Carbon(a + b) == f.Carbon(a) + f.Carbon(b) && f.Carbon(0.0) == 0.0
  {
  }

  predicate Priced(f: Factors, ls: seq<Line>) {
    forall i :: 0 <= i < |ls| ==> ls[i].carbon == f.Carbon(ls[i].wh)
  }

  lemma {:induction false} CarbonSums(f: Factors, ls: seq<Line>)
    requires Priced(f, ls)
    ensures Sum(ls, CarbonOf) == f.Carbon(Sum(ls, Wh))
  {
    CarbonAdds(f, 0.0, 0.0);
    if ls != [] {
      var n := |ls| - 1;
      CarbonSums(f, ls[..n]);
      CarbonAdds(f, Sum(ls[..n], Wh), ls[n].wh);
    }
  }

  lemma ArrangedArePriced(rows: seq<EnergyRow>, requests: map<string, nat>, f: Factors, sorted: seq<Line>)
    requires Arranges(rows, requests, f, sorted)
    ensures Priced(f, sorted)
  {
    forall i | 0 <= i < |sorted| ensures sorted[i].carbon == f.Carbon(sorted[i].wh) {
      ArrangedLine(rows, requests, f, sorted, i);
    }
  }

  /** Every arranged line is one service's, with all its energy. */
  lemma ArrangedLine(rows: seq<EnergyRow>, requests: map<string, nat>, f: Factors, sorted: seq<Line>, i: nat)
    requires Arranges(rows, requests, f, sorted) && i < |sorted|
    ensures sorted[i].service in Names(rows) && sorted[i] == LineOf(rows, requests, f, sorted[i].service)
  {
    var lines := LinesOf(rows, requests, f, Names(rows));
    assert sorted[i] in multiset(sorted);
    assert sorted[i] in multiset(lines);
    var j :| 0 <= j < |lines| && lines[j] == sorted[i];
    assert lines[j] == LineOf(rows, requests, f, Names(rows)[j]);
  }

  // --------------------------------------------------------------- conservation

  lemma FoldConserves(sorted: seq<Line>, topN: int, part: Line -> real)
    requires forall ls :: part(Folded(ls)) == Sum(ls, part)
    ensures Sum(Fold(sorted, topN), part) == Sum(sorted, part)
  {
    if 0 < topN < |sorted| {
      var kept, tail := sorted[..topN], sorted[topN..];
      assert sorted == kept + tail;
      SumConcat(kept, tail, part);
      assert (kept + [Folded(tail)])[..|kept|] == kept;
    }
  }

  lemma {:induction false} NoUnattributedEnergy(rows: seq<EnergyRow>)
    requires !HasUnattributed(rows)
    ensures Per(rows, RowWh, "") == 0.0
  {
    if rows != [] {
      var n := |rows| - 1;
      assert rows[n].service != "";
      forall i | 0 <= i < n ensures rows[..n][i].service != "" { assert rows[i].service != ""; }
      NoUnattributedEnergy(rows[..n]);
    }
  }

  lemma ReportSum(rows: seq<EnergyRow>, f: Factors, sorted: seq<Line>, topN: int, part: Line -> real)
    ensures var wh := Per(rows, RowWh, "");
            Sum(Report(rows, f, sorted, topN), part) == Sum(Fold(sorted, topN), part)
              + if HasUnattributed(rows) then part(Line(UNATTRIBUTED, wh, 0.0, f.Carbon(wh), 0)) else 0.0
  {
    var folded := Fold(sorted, topN);
    if HasUnattributed(rows) {
      var last := Line(UNATTRIBUTED, Per(rows, RowWh, ""), 0.0, f.Carbon(Per(rows, RowWh, "")), 0);
      assert (folded + [last])[..|folded|] == folded;
    }
  }

  /** Energy and its estimated share are conserved, whatever topN. */
  lemma ReportConservesEnergy(rows: seq<EnergyRow>, requests: map<string, nat>, f: Factors, sorted: seq<Line>,
      topN: int)
    requires Arranges(rows, requests, f, sorted)
    ensures var out, t := Report(rows, f, sorted, topN), TotalsOf(rows, f);
            && Sum(out, Wh) == t.attributed + t.unattributed
            && Sum(out, Estimated) == t.estimated
  {
    var lines := LinesOf(rows, requests, f, Names(rows));
    LinesHoldAll(rows, requests, f);
    SumPermutes(sorted, lines, Wh);
    SumPermutes(sorted, lines, Estimated);
    FoldConserves(sorted, topN, Wh);
    FoldConserves(sorted, topN, Estimated);
    ReportSum(rows, f, sorted, topN, Wh);
    ReportSum(rows, f, sorted, topN, Estimated);
    if !HasUnattributed(rows) { NoUnattributedEnergy(rows); }
  }

  lemma SortedCarbon(rows: seq<EnergyRow>, requests: map<string, nat>, f: Factors, sorted: seq<Line>)
    requires Arranges(rows, requests, f, sorted)
    ensures Sum(sorted, CarbonOf) == f.Carbon(All(rows, RowWh))
  {
    ArrangedArePriced(rows, requests, f, sorted);
    LinesHoldAll(rows, requests, f);
    SumPermutes(sorted, LinesOf(rows, requests, f, Names(rows)), Wh);
    CarbonSums(f, sorted);
  }

  lemma ReportCarbon(rows: seq<EnergyRow>, f: Factors, sorted: seq<Line>, topN: int)
    ensures Sum(Report(rows, f, sorted, topN), CarbonOf)
            == Sum(sorted, CarbonOf) + if HasUnattributed(rows) then f.Carbon(Per(rows, RowWh, "")) else 0.0
  {
    FoldConserves(sorted, topN, CarbonOf);
    ReportSum(rows, f, sorted, topN, CarbonOf);
  }

  lemma UnattributedCarbon(rows: seq<EnergyRow>, f: Factors)
    ensures TotalCarbon(rows, f)
            == f.Carbon(All(rows, RowWh)) + if HasUnattributed(rows) then f.Carbon(Per(rows, RowWh, "")) else 0.0
  {
    CarbonAdds(f, All(rows, RowWh), Per(rows, RowWh, ""));
    if !HasUnattributed(rows) { NoUnattributedEnergy(rows); }
  }

  /** So is carbon: the lines' carbon adds up to the total's, computed apart. */
  lemma ReportConservesCarbon(rows: seq<EnergyRow>, requests: map<string, nat>, f: Factors, sorted: seq<Line>,
      topN: int)
    requires Arranges(rows, requests, f, sorted)
    ensures Sum(Report(rows, f, sorted, topN), CarbonOf) == TotalCarbon(rows, f)
  {
    SortedCarbon(rows, requests, f, sorted);
    ReportCarbon(rows, f, sorted, topN);
    UnattributedCarbon(rows, f);
  }

  function Requests(l: Line): real { l.requests as real }

  lemma {:induction false} SumRequestsIs(ls: seq<Line>)
    ensures SumRequests(ls) as real == Sum(ls, Requests)
  {
    if ls != [] { SumRequestsIs(ls[..|ls| - 1]); }
  }

  /** The requests of these services together. */
  function RequestsOf(requests: map<string, nat>, names: seq<string>): nat {
    if names == [] then 0
    else
      var s := names[|names| - 1];
      RequestsOf(requests, names[..|names| - 1]) + if s in requests then requests[s] else 0
  }

  lemma {:induction false} LinesRequest(rows: seq<EnergyRow>, requests: map<string, nat>, f: Factors,
      names: seq<string>)
    ensures Sum(LinesOf(rows, requests, f, names), Requests) == RequestsOf(requests, names) as real
  {
    if names != [] {
      var n := |names| - 1;
      LinesRequest(rows, requests, f, names[..n]);
      assert LinesOf(rows, requests, f, names)[..n] == LinesOf(rows, requests, f, names[..n]);
    }
  }

  /** And requests: those of every service with energy. */
  lemma ReportConservesRequests(rows: seq<EnergyRow>, requests: map<string, nat>, f: Factors, sorted: seq<Line>,
      topN: int)
    requires Arranges(rows, requests, f, sorted)
    ensures Sum(Report(rows, f, sorted, topN), Requests) == RequestsOf(requests, Names(rows)) as real
  {
    LinesRequest(rows, requests, f, Names(rows));
    forall ls ensures Requests(Folded(ls)) == Sum(ls, Requests) { SumRequestsIs(ls); }
    SumPermutes(sorted, LinesOf(rows, requests, f, Names(rows)), Requests);
    FoldConserves(sorted, topN, Requests);
    ReportSum(rows, f, sorted, topN, Requests);
  }

  // -------------------------------------------------------------- what is kept

  /** How many services' lines stand by themselves. */
  function Kept(sorted: seq<Line>, topN: int): nat {
    if 0 < topN < |sorted| then topN else |sorted|
  }

  lemma LineNames(rows: seq<EnergyRow>, requests: map<string, nat>, f: Factors, names: seq<string>, s: string)
    ensures s in names ==> LineOf(rows, requests, f, s) in LinesOf(rows, requests, f, names)
  {
    if s in names {
      var i :| 0 <= i < |names| && names[i] == s;
      assert LinesOf(rows, requests, f, names)[i] == LineOf(rows, requests, f, s);
    }
  }

  /** Each service appears once among the sorted lines. */
  lemma ServicesOnce(rows: seq<EnergyRow>, requests: map<string, nat>, f: Factors, sorted: seq<Line>, s: string)
    requires Arranges(rows, requests, f, sorted) && s in Names(rows)
    ensures exists i :: 0 <= i < |sorted| && sorted[i].service == s
    ensures forall i, j :: 0 <= i < j < |sorted| ==> sorted[i].service != sorted[j].service
  {
    var lines := LinesOf(rows, requests, f, Names(rows));
    LineNames(rows, requests, f, Names(rows), s);
    var line := LineOf(rows, requests, f, s);
    assert line in multiset(lines);
    assert line in multiset(sorted);
    var i :| 0 <= i < |sorted| && sorted[i] == line;
    NamesDistinct(rows);
    forall i, j | 0 <= i < j < |sorted| ensures sorted[i].service != sorted[j].service {
      ArrangedLine(rows, requests, f, sorted, i);
      ArrangedLine(rows, requests, f, sorted, j);
      if sorted[i] == sorted[j] {
        LinesDiffer(rows, requests, f, Names(rows));
        TwiceCounts(sorted, i, j);
        OnceCounts(lines, sorted[i]);
      }
    }
  }

  predicate AllDiffer(ls: seq<Line>) {
    forall i, j :: 0 <= i < j < |ls| ==> ls[i] != ls[j]
  }

  lemma LinesDiffer(rows: seq<EnergyRow>, requests: map<string, nat>, f: Factors, names: seq<string>)
    requires Distinct(names)
    ensures AllDiffer(LinesOf(rows, requests, f, names))
  {
    var ls := LinesOf(rows, requests, f, names);
    forall i, j | 0 <= i < j < |ls| ensures ls[i] != ls[j] {
      assert ls[i].service == names[i] && ls[j].service == names[j];
    }
  }

  lemma TwiceCounts(ls: seq<Line>, i: nat, j: nat)
    requires i < j < |ls| && ls[i] == ls[j]
    ensures multiset(ls)[ls[i]] >= 2
  {
    CutMultiset(ls, j);
    assert ls[i] == Cut(ls, j)[i];
    assert ls[i] in multiset(Cut(ls, j));
  }

  lemma {:induction false} OnceCounts(ls: seq<Line>, x: Line)
    requires AllDiffer(ls)
    ensures multiset(ls)[x] <= 1
  {
    if ls != [] {
      var n := |ls| - 1;
      assert ls == ls[..n] + [ls[n]];
      OnceCounts(ls[..n], x);
      if x == ls[n] { assert x !in ls[..n]; }
    }
  }

  lemma {:induction false} LessIsStrict(a: string, b: string)
    ensures !(StringLess(a, b) && StringLess(b, a))
    ensures a != b ==> StringLess(a, b) || StringLess(b, a)
  {
    if a != "" && b != "" && a[0] == b[0] {
      LessIsStrict(a[1..], b[1..]);
      if a[1..] == b[1..] { assert a == [a[0]] + a[1..] && b == [b[0]] + b[1..]; }
    }
  }

  lemma KeptStand(rows: seq<EnergyRow>, f: Factors, sorted: seq<Line>, topN: int, i: nat)
    requires i < Kept(sorted, topN)
    ensures i < |Report(rows, f, sorted, topN)| && Report(rows, f, sorted, topN)[i] == sorted[i]
  {
    assert i < |Fold(sorted, topN)| && Fold(sorted, topN)[i] == sorted[i];
  }

  /** The line is its service's whole energy, with its carbon and its requests. */
  predicate Whole(rows: seq<EnergyRow>, requests: map<string, nat>, f: Factors, l: Line) {
    && l.wh == Per(rows, RowWh, l.service) && l.carbon == l.wh * f.rate
    && l.requests == if l.service in requests then requests[l.service] else 0
  }

  lemma LineIsWhole(rows: seq<EnergyRow>, requests: map<string, nat>, f: Factors, s: string)
    ensures LineOf(rows, requests, f, s).service == s && Whole(rows, requests, f, LineOf(rows, requests, f, s))
  {
  }

  /** A line that stands by itself is one service's whole energy, with its carbon
      and its requests. */
  lemma KeptAreWhole(rows: seq<EnergyRow>, requests: map<string, nat>, f: Factors, sorted: seq<Line>, topN: int, i: nat)
    requires Arranges(rows, requests, f, sorted) && i < Kept(sorted, topN)
    ensures var out := Report(rows, f, sorted, topN);
            i < |out| && out[i] == sorted[i] && out[i].service in Names(rows) && Whole(rows, requests, f, out[i])
  {
    KeptStand(rows, f, sorted, topN, i);
    ArrangedLine(rows, requests, f, sorted, i);
    LineIsWhole(rows, requests, f, sorted[i].service);
  }

  /** No service folded into (other) is heavier than such a line's, or equally heavy
      and before it in the alphabet. */
  lemma KeptAreHeaviest(rows: seq<EnergyRow>, requests: map<string, nat>, f: Factors, sorted: seq<Line>, topN: int,
      i: nat, s: string)
    requires Arranges(rows, requests, f, sorted) && i < Kept(sorted, topN) && s in Names(rows)
    ensures var out := Report(rows, f, sorted, topN);
            && Kept(sorted, topN) <= |out|
            && ((exists j :: 0 <= j < Kept(sorted, topN) && out[j].service == s)
                || Per(rows, RowWh, s) < out[i].wh
                || (Per(rows, RowWh, s) == out[i].wh && StringLess(out[i].service, s)))
  {
    var out, n := Report(rows, f, sorted, topN), Kept(sorted, topN);
    KeptAreWhole(rows, requests, f, sorted, topN, i);
    ServicesOnce(rows, requests, f, sorted, s);
    var j :| 0 <= j < |sorted| && sorted[j].service == s;
    ArrangedLine(rows, requests, f, sorted, j);
    if j < n {
      KeptAreWhole(rows, requests, f, sorted, topN, j);
    } else {
      LighterOrLater(sorted, i, j);
    }
  }

  lemma LighterOrLater(sorted: seq<Line>, i: nat, j: nat)
    requires SortedLines(sorted) && i < j < |sorted| && sorted[i].service != sorted[j].service
    ensures sorted[j].wh < sorted[i].wh
            || (sorted[j].wh == sorted[i].wh && StringLess(sorted[i].service, sorted[j].service))
  {
    assert !Heavier(sorted[j], sorted[i]);
    LessIsStrict(sorted[i].service, sorted[j].service);
  }

  /** The shape of the report: with 0 < topN < the number of services, that many
      lines by themselves and one (other); else every service by itself. Energy no
      service is known for comes last, if any row has it. */
  lemma ReportShape(rows: seq<EnergyRow>, requests: map<string, nat>, f: Factors, sorted: seq<Line>, topN: int)
    requires Arranges(rows, requests, f, sorted)
    ensures var out, n := Report(rows, f, sorted, topN), |Names(rows)|;
            var folds, rest := 0 < topN < n, exists i :: 0 <= i < |rows| && rows[i].service == "";
            && |out| == (if folds then topN + 1 else n) + (if rest then 1 else 0)
            && (folds ==> out[topN].service == "(other)")
            && (rest ==> out[|out| - 1].service == "(unattributed)" && out[|out| - 1].wh == Per(rows, RowWh, ""))
  {
    assert |multiset(sorted)| == |multiset(LinesOf(rows, requests, f, Names(rows)))|;
    assert |sorted| == |Names(rows)|;
  }

  // ------------------------------------------------------------------ the totals

  /** The energy of the rows that `keep` picks. */
  function WhOf(rows: seq<EnergyRow>, keep: EnergyRow -> bool): real {
    if rows == [] then 0.0
    else WhOf(rows[..|rows| - 1], keep) + if keep(rows[|rows| - 1]) then rows[|rows| - 1].wh else 0.0
  }

  /** The totals are sums over the rows as stored, by service and quality, and the
      coverage is the attributed share of all energy. */
  lemma {:induction false} TotalsAreSums(rows: seq<EnergyRow>)
    ensures All(rows, RowWh) == WhOf(rows, (r: EnergyRow) => r.service != "")
    ensures Per(rows, RowWh, "") == WhOf(rows, (r: EnergyRow) => r.service == "")
    ensures All(rows, RowMeasured) == WhOf(rows, (r: EnergyRow) => r.service != "" && r.quality == "measured")
    ensures All(rows, RowEstimated) == WhOf(rows, (r: EnergyRow) => r.service != "" && r.quality == "estimated")
  {
    if rows != [] { TotalsAreSums(rows[..|rows| - 1]); }
  }

  lemma ShareTimesAll(part: real, whole: real)
    requires whole > 0.0
    ensures part / whole * whole == part
  {
  }

  /** Their carbon is their energy at the rate. */
  lemma CarbonIsAtRate(rows: seq<EnergyRow>, f: Factors)
    ensures TotalsOf(rows, f).carbon == (TotalsOf(rows, f).attributed + TotalsOf(rows, f).unattributed) * f.rate
  {
  }

  lemma TotalsReport(rows: seq<EnergyRow>, f: Factors)
    ensures var t := TotalsOf(rows, f);
            && t.attributed == WhOf(rows, (r: EnergyRow) => r.service != "")
            && t.unattributed == WhOf(rows, (r: EnergyRow) => r.service == "")
            && t.measured == WhOf(rows, (r: EnergyRow) => r.service != "" && r.quality == "measured")
            && t.estimated == WhOf(rows, (r: EnergyRow) => r.service != "" && r.quality == "estimated")
            && if t.attributed + t.unattributed > 0.0
               then t.coverage * (t.attributed + t.unattributed) == t.attributed else t.coverage == 0.0
  {
    TotalsAreSums(rows);
    var t := TotalsOf(rows, f);
    if t.attributed + t.unattributed > 0.0 { ShareTimesAll(t.attributed, t.attributed + t.unattributed); }
  }
}
