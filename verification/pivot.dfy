/** The weekly usage pivot and its charts (scheduler/weekly_usage.go). */
module Pivot {
  import opened Base
  import Labels

  const EXCLUDED := "riseproject-dev"
  const TOP_ENTITIES := 7

  datatype Week = Week(day: int)

  /** A GetWeeklyEntityUsage row; `Measure` picks one of its two figures. */
  datatype Row = Row(week: Week, entity: string, duration: int, jobs: int)

  datatype Measure = Duration | Jobs

  function Figure(r: Row, m: Measure): int { if m.Duration? then r.duration else r.jobs }

  type Cells = map<Week, map<string, int>>

  type Matrix = (Week, string) -> int

  datatype Pivot = Pivot(weeks: seq<Week>, entities: seq<string>, duration: Cells, jobs: Cells) {
    function Of(m: Measure): Cells { if m.Duration? then duration else jobs }

    function Value(m: Measure): Matrix { Values(Of(m)) }
  }

  /** A missing cell reads as zero. */
  function Cell(c: Cells, wk: Week, e: string): int {
    if wk in c && e in c[wk] then c[wk][e] else 0
  }

  function Values(c: Cells): Matrix { (wk, e) => Cell(c, wk, e) }

  // ---- sums over a matrix ----

  function AcrossEntities(f: Matrix, wk: Week, es: seq<string>): int {
    if es == [] then 0 else AcrossEntities(f, wk, es[..|es| - 1]) + f(wk, es[|es| - 1])
  }

  function AcrossWeeks(f: Matrix, e: string, wks: seq<Week>): int {
    if wks == [] then 0 else AcrossWeeks(f, e, wks[..|wks| - 1]) + f(wks[|wks| - 1], e)
  }

  function ByWeek(f: Matrix, wks: seq<Week>, es: seq<string>): int {
    if wks == [] then 0 else ByWeek(f, wks[..|wks| - 1], es) + AcrossEntities(f, wks[|wks| - 1], es)
  }

  function ByEntity(f: Matrix, wks: seq<Week>, es: seq<string>): int {
    if es == [] then 0 else ByEntity(f, wks, es[..|es| - 1]) + AcrossWeeks(f, es[|es| - 1], wks)
  }

  ghost predicate Distinct<T(!new)>(xs: seq<T>) {
    forall i, j :: 0 <= i < j < |xs| ==> xs[i] != xs[j]
  }

  lemma {:induction false} AcrossConcat(f: Matrix, wk: Week, a: seq<string>, b: seq<string>)
    ensures AcrossEntities(f, wk, a + b) == AcrossEntities(f, wk, a) + AcrossEntities(f, wk, b)
  {
    if b == [] {
      assert a + b == a;
    } else {
      assert (a + b)[..|a + b| - 1] == a + b[..|b| - 1];
      AcrossConcat(f, wk, a, b[..|b| - 1]);
    }
  }

  lemma {:induction false} OneMoreWeek(f: Matrix, wks: seq<Week>, wk: Week, es: seq<string>)
    ensures ByEntity(f, wks + [wk], es) == ByEntity(f, wks, es) + AcrossEntities(f, wk, es)
  {
    if es != [] {
      OneMoreWeek(f, wks, wk, es[..|es| - 1]);
      assert (wks + [wk])[..|wks|] == wks;
    }
  }

  /** Summing by week or by entity gives the same. */
  lemma {:induction false} Transposed(f: Matrix, wks: seq<Week>, es: seq<string>)
    ensures ByWeek(f, wks, es) == ByEntity(f, wks, es)
  {
    if wks == [] {
      NoWeeks(f, es);
    } else {
      var before, last := wks[..|wks| - 1], wks[|wks| - 1];
      assert wks == before + [last];
      Transposed(f, before, es);
      OneMoreWeek(f, before, last, es);
    }
  }

  lemma {:induction false} NoWeeks(f: Matrix, es: seq<string>)
    ensures ByEntity(f, [], es) == 0
  {
    if es != [] {
      NoWeeks(f, es[..|es| - 1]);
    }
  }

  lemma {:induction false} AcrossPlus(f: Matrix, g: Matrix, h: Matrix, wk: Week, es: seq<string>)
    requires forall e :: e in es ==> h(wk, e) == f(wk, e) + g(wk, e)
    ensures AcrossEntities(h, wk, es) == AcrossEntities(f, wk, es) + AcrossEntities(g, wk, es)
  {
    if es != [] {
      AcrossPlus(f, g, h, wk, es[..|es| - 1]);
    }
  }

  lemma {:induction false} TablePlus(f: Matrix, g: Matrix, h: Matrix, wks: seq<Week>, es: seq<string>)
    requires forall wk, e :: h(wk, e) == f(wk, e) + g(wk, e)
    ensures ByWeek(h, wks, es) == ByWeek(f, wks, es) + ByWeek(g, wks, es)
  {
    if wks != [] {
      TablePlus(f, g, h, wks[..|wks| - 1], es);
      AcrossPlus(f, g, h, wks[|wks| - 1], es);
    }
  }

  lemma {:induction false} AcrossOne(f: Matrix, wk: Week, es: seq<string>, x: string)
    requires Distinct(es) && forall e :: e in es && e != x ==> f(wk, e) == 0
    ensures AcrossEntities(f, wk, es) == if x in es then f(wk, x) else 0
  {
    if es != [] {
      var before, last := es[..|es| - 1], es[|es| - 1];
      assert es == before + [last];
      assert last !in before;
      AcrossOne(f, wk, before, x);
    }
  }

  /** A matrix with one entry that is not zero. */
  lemma {:induction false} TableOne(f: Matrix, wks: seq<Week>, es: seq<string>, week: Week, x: string)
    requires Distinct(wks) && Distinct(es) && x in es
    requires forall wk, e :: wk != week || e != x ==> f(wk, e) == 0
    ensures ByWeek(f, wks, es) == if week in wks then f(week, x) else 0
  {
    if wks != [] {
      var before, last := wks[..|wks| - 1], wks[|wks| - 1];
      assert wks == before + [last];
      assert last !in before;
      TableOne(f, before, es, week, x);
      AcrossOne(f, last, es, x);
    }
  }

  // ---- rows and cells ----

  /** What one row contributes to each cell. */
  function Share(r: Row, m: Measure): Matrix {
    (wk, e) => if r.week == wk && r.entity == e then Figure(r, m) else 0
  }

  function RowSum(rows: seq<Row>, m: Measure, wk: Week, e: string): int {
    if rows == [] then 0 else RowSum(rows[..|rows| - 1], m, wk, e) + Share(rows[|rows| - 1], m)(wk, e)
  }

  function AllRows(rows: seq<Row>, m: Measure): int {
    if rows == [] then 0 else AllRows(rows[..|rows| - 1], m) + Figure(rows[|rows| - 1], m)
  }

  function Sums(rows: seq<Row>, m: Measure): Matrix { (wk, e) => RowSum(rows, m, wk, e) }

  function EntityTotal(p: Pivot, m: Measure, e: string): int { AcrossWeeks(p.Value(m), e, p.weeks) }

  function WeekTotal(p: Pivot, m: Measure, wk: Week): int { AcrossEntities(p.Value(m), wk, p.entities) }

  function Grand(p: Pivot, m: Measure): int { ByWeek(p.Value(m), p.weeks, p.entities) }

  /** Weeks ascending; entities by total duration descending, then by name. */
  ghost predicate Ranked(p: Pivot) {
    && (forall i, j :: 0 <= i < j < |p.weeks| ==> p.weeks[i].day < p.weeks[j].day)
    && (forall i, j :: 0 <= i < j < |p.entities| ==> Outranks(p, p.entities[i], p.entities[j]))
  }

  predicate Outranks(p: Pivot, a: string, b: string) {
    var ta, tb := EntityTotal(p, Duration, a), EntityTotal(p, Duration, b);
    ta > tb || (ta == tb && a != b && Labels.Leq(a, b))
  }

  /** The pivot of the rows: each week and entity once, ranked, each cell the sum of its rows. */
  ghost predicate IsPivot(p: Pivot, rows: seq<Row>) {
    && Distinct(p.weeks) && (forall wk :: wk in p.weeks <==> exists r :: r in rows && r.week == wk)
    && Distinct(p.entities) && (forall e :: e in p.entities <==> exists r :: r in rows && r.entity == e)
    && Ranked(p)
    && forall m, wk, e :: Cell(p.Of(m), wk, e) == RowSum(rows, m, wk, e)
  }

  // ---- conservation ----

  lemma {:induction false} CellsAddUp(weeks: seq<Week>, entities: seq<string>, rows: seq<Row>, m: Measure)
    requires Distinct(weeks) && Distinct(entities)
    requires forall r :: r in rows ==> r.week in weeks && r.entity in entities
    ensures ByWeek(Sums(rows, m), weeks, entities) == AllRows(rows, m)
  {
    if rows == [] {
      AllZero(Sums(rows, m), weeks, entities);
    } else {
      var before, last := rows[..|rows| - 1], rows[|rows| - 1];
      assert rows == before + [last];
      CellsAddUp(weeks, entities, before, m);
      TableOne(Share(last, m), weeks, entities, last.week, last.entity);
      TablePlus(Sums(before, m), Share(last, m), Sums(rows, m), weeks, entities);
    }
  }

  lemma {:induction false} AllZero(f: Matrix, wks: seq<Week>, es: seq<string>)
    requires forall wk, e :: f(wk, e) == 0
    ensures ByWeek(f, wks, es) == 0
  {
    TablePlus(f, f, f, wks, es);
  }

  /** Nothing is lost or counted twice: the grand total is the sum over the rows the query
      returned, and equals the week totals' and the entity totals' sums. */
  lemma PivotConserves(p: Pivot, rows: seq<Row>, m: Measure)
    requires IsPivot(p, rows)
    ensures Grand(p, m) == AllRows(rows, m)
    ensures Grand(p, m) == ByEntity(p.Value(m), p.weeks, p.entities)
  {
    forall r | r in rows ensures r.week in p.weeks && r.entity in p.entities {
    }
    CellsAddUp(p.weeks, p.entities, rows, m);
    var zero: Matrix := (wk, e) => 0;
    AllZero(zero, p.weeks, p.entities);
    TablePlus(Sums(rows, m), zero, p.Value(m), p.weeks, p.entities);
    Transposed(p.Value(m), p.weeks, p.entities);
  }

  // ---- every figure in terms of the rows ----

  /** The rows of one week, of one entity, or of both. */
  function Only(rows: seq<Row>, wk: Option<Week>, e: Option<string>): seq<Row> {
    if rows == [] then []
    else
      var last := rows[|rows| - 1];
      Only(rows[..|rows| - 1], wk, e) +
      if (wk == None || wk == Some(last.week)) && (e == None || e == Some(last.entity)) then [last] else []
  }

  lemma {:induction false} OnlyMembers(rows: seq<Row>, wk: Option<Week>, e: Option<string>)
    ensures forall r :: r in Only(rows, wk, e) <==>
              r in rows && (wk == None || wk == Some(r.week)) && (e == None || e == Some(r.entity))
  {
    if rows != [] {
      OnlyMembers(rows[..|rows| - 1], wk, e);
      assert rows == rows[..|rows| - 1] + [rows[|rows| - 1]];
    }
  }

  lemma {:induction false} OnlyKeepsSums(
    rows: seq<Row>, m: Measure, wk: Option<Week>, e: Option<string>, wk': Week, e': string)
    requires (wk == None || wk == Some(wk')) && (e == None || e == Some(e'))
    ensures RowSum(Only(rows, wk, e), m, wk', e') == RowSum(rows, m, wk', e')
  {
    if rows != [] {
      var before, last := rows[..|rows| - 1], rows[|rows| - 1];
      OnlyKeepsSums(before, m, wk, e, wk', e');
      assert (Only(before, wk, e) + [last])[..|Only(before, wk, e)|] == Only(before, wk, e);
      assert Only(before, wk, e) + [] == Only(before, wk, e);
    }
  }

  /** A sum over rows adds up row by row, minutes for one figure and jobs for the other. */
  lemma {:induction false} AllRowsAddUp(a: seq<Row>, b: seq<Row>, m: Measure)
    ensures AllRows(a + b, m) == AllRows(a, m) + AllRows(b, m)
    ensures forall r :: AllRows([r], Duration) == r.duration && AllRows([r], Jobs) == r.jobs
  {
    forall r ensures AllRows([r], Duration) == r.duration && AllRows([r], Jobs) == r.jobs {
      assert [r][..0] == [];
    }
    if b == [] {
      assert a + b == a;
    } else {
      assert (a + b)[..|a + b| - 1] == a + b[..|b| - 1];
      AllRowsAddUp(a, b[..|b| - 1], m);
    }
  }

  lemma {:induction false} SameTable(f: Matrix, g: Matrix, wks: seq<Week>, es: seq<string>)
    requires forall wk, e :: wk in wks && e in es ==> f(wk, e) == g(wk, e)
    ensures ByWeek(f, wks, es) == ByWeek(g, wks, es)
  {
    if wks != [] {
      var zero: Matrix := (wk, e) => 0;
      SameTable(f, g, wks[..|wks| - 1], es);
      AcrossPlus(g, zero, f, wks[|wks| - 1], es);
      AllZero(zero, [wks[|wks| - 1]], es);
      assert [wks[|wks| - 1]][..0] == [];
    }
  }

  lemma OneRowOfCells(f: Matrix, wks: seq<Week>, es: seq<string>, wk: Week, e: string)
    ensures ByWeek(f, [wk], es) == AcrossEntities(f, wk, es)
    ensures ByWeek(f, wks, [e]) == AcrossWeeks(f, e, wks)
    ensures ByWeek(f, [wk], [e]) == f(wk, e)
  {
    assert [wk][..0] == [] && [e][..0] == [];
    Transposed(f, wks, [e]);
    Transposed(f, [wk], [e]);
  }

  lemma TableOfRows(
    p: Pivot, rows: seq<Row>, m: Measure, wk: Option<Week>, e: Option<string>, wks: seq<Week>, es: seq<string>)
    requires IsPivot(p, rows)
    requires wks == if wk == None then p.weeks else [wk.value]
    requires es == if e == None then p.entities else [e.value]
    ensures ByWeek(p.Value(m), wks, es) == AllRows(Only(rows, wk, e), m)
  {
    var mine := Only(rows, wk, e);
    OnlyMembers(rows, wk, e);
    CellsAddUp(wks, es, mine, m);
    forall wk', e' | wk' in wks && e' in es ensures p.Value(m)(wk', e') == Sums(mine, m)(wk', e') {
      OnlyKeepsSums(rows, m, wk, e, wk', e');
    }
    SameTable(p.Value(m), Sums(mine, m), wks, es);
  }

  /** A cell is the sum of the rows of its week and entity, an entity's total that of its rows,
      a week's total that of its rows. */
  lemma FiguresAreRowSums(p: Pivot, rows: seq<Row>, m: Measure, wk: Week, e: string)
    requires IsPivot(p, rows)
    ensures Cell(p.Of(m), wk, e) == AllRows(Only(rows, Some(wk), Some(e)), m)
    ensures EntityTotal(p, m, e) == AllRows(Only(rows, None, Some(e)), m)
    ensures WeekTotal(p, m, wk) == AllRows(Only(rows, Some(wk), None), m)
  {
    OneRowOfCells(p.Value(m), p.weeks, p.entities, wk, e);
    TableOfRows(p, rows, m, Some(wk), Some(e), [wk], [e]);
    TableOfRows(p, rows, m, None, Some(e), p.weeks, [e]);
    TableOfRows(p, rows, m, Some(wk), None, [wk], p.entities);
  }

  /** Entities are listed by the time their rows add up to, longest first, then by name. */
  lemma RankedByRows(p: Pivot, rows: seq<Row>, i: nat, k: nat)
    requires IsPivot(p, rows) && i < k < |p.entities|
    ensures var a, b := p.entities[i], p.entities[k];
      var ta, tb := AllRows(Only(rows, None, Some(a)), Duration), AllRows(Only(rows, None, Some(b)), Duration);
      ta > tb || (ta == tb && (a <= b || exists n :: 0 <= n < |a| && n < |b| && a[..n] == b[..n] && a[n] < b[n]))
  {
    var a, b := p.entities[i], p.entities[k];
    assert Outranks(p, a, b);
    TableOfRows(p, rows, Duration, None, Some(a), p.weeks, [a]);
    TableOfRows(p, rows, Duration, None, Some(b), p.weeks, [b]);
    Transposed(p.Value(Duration), p.weeks, [a]);
    Transposed(p.Value(Duration), p.weeks, [b]);
    assert [a][..0] == [] && [b][..0] == [];
    Labels.LeqIsLexicographic(a, b);
  }

  // ---- the charts ----

  predicate Excluded(e: string) { e == EXCLUDED || EXCLUDED + "/" <= e }

  /** Entities that may have a series, in rank order. */
  function Eligible(es: seq<string>, exclude: bool): seq<string> {
    if es == [] then []
    else Eligible(es[..|es| - 1], exclude) + if exclude && Excluded(es[|es| - 1]) then [] else [es[|es| - 1]]
  }

  datatype Series = Series(name: string, other: bool, values: seq<int>)

  function Named(p: Pivot, e: string): Series {
    Series(e, false, seq(|p.weeks|, i requires 0 <= i < |p.weeks| => Cell(p.duration, p.weeks[i], e)))
  }

  function SeriesAt(series: seq<Series>, i: nat): int
    requires forall s :: s in series ==> i < |s.values|
  {
    if series == [] then 0 else SeriesAt(series[..|series| - 1], i) + series[|series| - 1].values[i]
  }

  function Total(values: seq<int>): int {
    if values == [] then 0 else Total(values[..|values| - 1]) + values[|values| - 1]
  }

  function TopOf(eligible: seq<string>): seq<string> {
    if |eligible| > TOP_ENTITIES then eligible[..TOP_ENTITIES] else eligible
  }

  function RestOf(eligible: seq<string>): seq<string> {
    if |eligible| > TOP_ENTITIES then eligible[TOP_ENTITIES..] else []
  }

  /** A chart: one series for each of the top entities, the others folded into one. */
  ghost predicate IsChart(series: seq<Series>, p: Pivot, eligible: seq<string>) {
    var top, rest := TopOf(eligible), RestOf(eligible);
    && |series| == |top| + (if rest == [] then 0 else 1)
    && (forall i :: 0 <= i < |top| ==> series[i] == Named(p, top[i]))
    && (rest != [] ==>
          && series[|top|].name == "Other" && series[|top|].other && |series[|top|].values| == |p.weeks|
          && forall i :: 0 <= i < |p.weeks| ==>
               series[|top|].values[i] == AcrossEntities(p.Value(Duration), p.weeks[i], rest))
  }

  lemma {:induction false} NamedAddUp(series: seq<Series>, p: Pivot, top: seq<string>, i: nat)
    requires |series| == |top| && forall k :: 0 <= k < |top| ==> series[k] == Named(p, top[k])
    requires i < |p.weeks| && forall s :: s in series ==> |s.values| == |p.weeks|
    ensures SeriesAt(series, i) == AcrossEntities(p.Value(Duration), p.weeks[i], top)
  {
    if top != [] {
      var n := |top| - 1;
      assert forall s :: s in series[..n] ==> s in series;
      NamedAddUp(series[..n], p, top[..n], i);
      assert series[n] == Named(p, top[n]);
    }
  }

  /** In every week the series of a chart, "Other" included, add up to the eligible total. */
  lemma ChartConserves(series: seq<Series>, p: Pivot, eligible: seq<string>, i: nat)
    requires IsChart(series, p, eligible) && i < |p.weeks|
    ensures forall s :: s in series ==> |s.values| == |p.weeks|
    ensures SeriesAt(series, i) == AcrossEntities(p.Value(Duration), p.weeks[i], eligible)
  {
    var top, rest := TopOf(eligible), RestOf(eligible);
    assert eligible == top + rest;
    AcrossConcat(p.Value(Duration), p.weeks[i], top, rest);
    var named := series[..|top|];
    assert forall k :: 0 <= k < |top| ==> named[k] == Named(p, top[k]);
    NamedAddUp(named, p, top, i);
    if rest == [] {
      assert named == series;
    } else {
      SeriesLast(series, i);
      assert series[..|series| - 1] == named;
    }
  }

  lemma SeriesLast(series: seq<Series>, i: nat)
    requires series != [] && forall s :: s in series ==> i < |s.values|
    ensures series[|series| - 1] in series && forall s :: s in series[..|series| - 1] ==> s in series
    ensures SeriesAt(series, i) == SeriesAt(series[..|series| - 1], i) + series[|series| - 1].values[i]
  {
  }

  lemma {:induction false} AllEligible(es: seq<string>)
    ensures Eligible(es, false) == es
  {
    if es != [] {
      AllEligible(es[..|es| - 1]);
    }
  }

  /** The unfiltered chart adds up to the week totals. */
  lemma FullChartIsWeekTotal(series: seq<Series>, p: Pivot, i: nat)
    requires IsChart(series, p, Eligible(p.entities, false)) && i < |p.weeks|
    ensures forall s :: s in series ==> |s.values| == |p.weeks|
    ensures SeriesAt(series, i) == WeekTotal(p, Duration, p.weeks[i])
  {
    AllEligible(p.entities);
    ChartConserves(series, p, Eligible(p.entities, false), i);
  }

  lemma {:induction false} EligibleMembers(es: seq<string>, exclude: bool)
    ensures forall e :: e in Eligible(es, exclude) <==> e in es && !(exclude && Excluded(e))
  {
    if es != [] {
      EligibleMembers(es[..|es| - 1], exclude);
      assert es == es[..|es| - 1] + [es[|es| - 1]];
    }
  }

  lemma {:induction false} EligibleIsSubsequence(es: seq<string>, exclude: bool, p: Pivot)
    requires forall i, j :: 0 <= i < j < |es| ==> Outranks(p, es[i], es[j])
    ensures forall e :: e in Eligible(es, exclude) <==> e in es && !(exclude && Excluded(e))
    ensures forall i, j :: 0 <= i < j < |Eligible(es, exclude)| ==>
              Outranks(p, Eligible(es, exclude)[i], Eligible(es, exclude)[j])
  {
    if es != [] {
      var before, last := es[..|es| - 1], es[|es| - 1];
      assert es == before + [last];
      EligibleIsSubsequence(before, exclude, p);
      var el := Eligible(before, exclude);
      forall i | 0 <= i < |el| ensures Outranks(p, el[i], last) {
        assert el[i] in before;
        var k :| 0 <= k < |before| && before[k] == el[i];
        assert Outranks(p, es[k], es[|es| - 1]);
      }
    }
  }

  lemma {:induction false} NamedTotal(p: Pivot, e: string, wks: seq<Week>, values: seq<int>)
    requires |values| == |wks| && forall i :: 0 <= i < |wks| ==> values[i] == Cell(p.duration, wks[i], e)
    ensures Total(values) == AcrossWeeks(p.Value(Duration), e, wks)
  {
    if wks != [] {
      NamedTotal(p, e, wks[..|wks| - 1], values[..|wks| - 1]);
    }
  }

  /** Every named series totals at least as much as every entity folded into "Other". */
  lemma NamedSeriesOutweighFolded(series: seq<Series>, p: Pivot, rows: seq<Row>, exclude: bool, s: Series, e: string)
    requires IsPivot(p, rows) && IsChart(series, p, Eligible(p.entities, exclude))
    requires s in series && !s.other && e in RestOf(Eligible(p.entities, exclude))
    ensures Total(s.values) >= EntityTotal(p, Duration, e)
    ensures Total(s.values) == EntityTotal(p, Duration, s.name) && s.name in p.entities
  {
    var eligible := Eligible(p.entities, exclude);
    var top, rest := TopOf(eligible), RestOf(eligible);
    EligibleIsSubsequence(p.entities, exclude, p);
    var i :| 0 <= i < |series| && series[i] == s;
    assert i < |top| && s == Named(p, top[i]);
    var k :| 0 <= k < |rest| && rest[k] == e;
    assert eligible[TOP_ENTITIES + k] == e && eligible[i] == s.name;
    NamedTotal(p, s.name, p.weeks, s.values);
    assert Outranks(p, eligible[i], eligible[TOP_ENTITIES + k]);
  }

  /** What a chart shows: the first seven eligible entities in rank order, each with the time its
      rows of each week add up to, and, if there are more, "Other" with the rest of that week. */
  lemma ChartShows(series: seq<Series>, p: Pivot, rows: seq<Row>, exclude: bool, k: nat)
    requires IsPivot(p, rows) && IsChart(series, p, Eligible(p.entities, exclude)) && k < |p.weeks|
    ensures var shown := Eligible(p.entities, exclude);
      && |series| == (if |shown| <= 7 then |shown| else 8)
      && (forall s :: s in series ==> |s.values| == |p.weeks|)
      && (forall i :: 0 <= i < |shown| && i < 7 ==>
            && series[i].name == shown[i] && !series[i].other
            && series[i].values[k] == AllRows(Only(rows, Some(p.weeks[k]), Some(shown[i])), Duration))
      && (|shown| > 7 ==>
            && series[7].name == "Other" && series[7].other
            && series[7].values[k] == AcrossEntities(p.Value(Duration), p.weeks[k], shown[7..]))
  {
    var shown := Eligible(p.entities, exclude);
    ChartConserves(series, p, shown, k);
    forall i | 0 <= i < |shown| && i < 7
      ensures series[i].name == shown[i] && !series[i].other
      ensures series[i].values[k] == AllRows(Only(rows, Some(p.weeks[k]), Some(shown[i])), Duration)
    {
      assert TopOf(shown)[i] == shown[i];
      FiguresAreRowSums(p, rows, Duration, p.weeks[k], shown[i]);
    }
  }

  /** Who is left out of a chart that leaves some out: riseproject-dev and its repositories. */
  lemma ExcludedIff(es: seq<string>, e: string)
    ensures e in Eligible(es, true) <==>
            e in es && e != "riseproject-dev" && !(|e| >= 16 && e[..16] == "riseproject-dev/")
  {
    EligibleMembers(es, true);
    assert |EXCLUDED + "/"| == 16;
    assert EXCLUDED + "/" == "riseproject-dev/";
  }

  // ---- building the pivot ----

  lemma OutranksTotal(p: Pivot, a: string, b: string)
    ensures a == b || Outranks(p, a, b) || Outranks(p, b, a)
  {
    Labels.LeqTotal(a, b);
  }

  lemma OutranksTransitive(p: Pivot, a: string, b: string, c: string)
    requires Outranks(p, a, b) && Outranks(p, b, c)
    ensures Outranks(p, a, c)
  {
    if EntityTotal(p, Duration, a) == EntityTotal(p, Duration, c) {
      Labels.LeqTransitive(a, b, c);
      if a == c {
        Labels.LeqTotal(a, b);
      }
    }
  }

  method TopEntity(s: set<string>, p: Pivot) returns (top: string)
    requires s != {}
    ensures top in s && forall e :: e in s && e != top ==> Outranks(p, top, e)
  {
    top :| top in s;
    var rest := s - {top};
    while rest != {}
      invariant rest <= s && top in s && top !in rest
      invariant forall e :: e in s && e !in rest && e != top ==> Outranks(p, top, e)
      decreases |rest|
    {
      var e :| e in rest;
      var te := EntitySum(p, Duration, e);
      var tt := EntitySum(p, Duration, top);
      if te > tt || (te == tt && e != top && Labels.Leq(e, top)) {
        forall x | x in s && x !in rest && x != top ensures Outranks(p, e, x) {
          OutranksTransitive(p, e, top, x);
        }
        top := e;
      } else {
        OutranksTotal(p, top, e);
      }
      rest := rest - {e};
    }
  }

  /** Any sort of a set is the one ranking there is. */
  method RankEntities(s: set<string>, p: Pivot) returns (es: seq<string>)
    ensures forall e :: e in es <==> e in s
    ensures forall i, j :: 0 <= i < j < |es| ==> es[i] != es[j] && Outranks(p, es[i], es[j])
  {
    es := [];
    var todo := s;
    while todo != {}
      invariant todo <= s
      invariant forall e :: e in es <==> e in s && e !in todo
      invariant forall i, j :: 0 <= i < j < |es| ==> es[i] != es[j] && Outranks(p, es[i], es[j])
      invariant forall i, e :: 0 <= i < |es| && e in todo ==> Outranks(p, es[i], e)
      decreases |todo|
    {
      var top := TopEntity(todo, p);
      assert forall i :: 0 <= i < |es| ==> es[i] in es;
      es := es + [top];
      todo := todo - {top};
    }
  }

  method SortWeeks(s: set<Week>) returns (wks: seq<Week>)
    ensures forall wk :: wk in wks <==> wk in s
    ensures forall i, j :: 0 <= i < j < |wks| ==> wks[i].day < wks[j].day
  {
    wks := [];
    var todo := s;
    while todo != {}
      invariant todo <= s
      invariant forall wk :: wk in wks <==> wk in s && wk !in todo
      invariant forall i, j :: 0 <= i < j < |wks| ==> wks[i].day < wks[j].day
      invariant forall i, wk :: 0 <= i < |wks| && wk in todo ==> wks[i].day < wk.day
      decreases |todo|
    {
      var first := FirstWeek(todo);
      wks := wks + [first];
      todo := todo - {first};
    }
  }

  method FirstWeek(s: set<Week>) returns (first: Week)
    requires s != {}
    ensures first in s && forall wk :: wk in s && wk != first ==> first.day < wk.day
  {
    first :| first in s;
    var rest := s - {first};
    while rest != {}
      invariant rest <= s && first in s && first !in rest
      invariant forall wk :: wk in s && wk !in rest && wk != first ==> first.day < wk.day
      decreases |rest|
    {
      var wk :| wk in rest;
      if wk.day < first.day {
        first := wk;
      }
      rest := rest - {wk};
    }
  }

  /** `c[wk][e] += n`, creating the inner map on first use. */
  function Add(c: Cells, wk: Week, e: string, n: int): Cells {
    var inner := if wk in c then c[wk] else map[];
    c[wk := inner[e := Cell(c, wk, e) + n]]
  }

  lemma AddCounts(c: Cells, rows: seq<Row>, r: Row, m: Measure)
    requires forall wk, e :: Cell(c, wk, e) == RowSum(rows, m, wk, e)
    ensures forall wk, e :: Cell(Add(c, r.week, r.entity, Figure(r, m)), wk, e) == RowSum(rows + [r], m, wk, e)
  {
  }

  method ReadRows(rows: seq<Row>) returns (weekSet: set<Week>, entitySet: set<string>, duration: Cells, jobs: Cells)
    ensures forall wk :: wk in weekSet <==> exists r :: r in rows && r.week == wk
    ensures forall e :: e in entitySet <==> exists r :: r in rows && r.entity == e
    ensures forall wk, e :: Cell(duration, wk, e) == RowSum(rows, Duration, wk, e)
    ensures forall wk, e :: Cell(jobs, wk, e) == RowSum(rows, Jobs, wk, e)
  {
    weekSet, entitySet, duration, jobs := {}, {}, map[], map[];
    for i := 0 to |rows|
      invariant forall wk :: wk in weekSet <==> exists r :: r in rows[..i] && r.week == wk
      invariant forall e :: e in entitySet <==> exists r :: r in rows[..i] && r.entity == e
      invariant forall wk, e :: Cell(duration, wk, e) == RowSum(rows[..i], Duration, wk, e)
      invariant forall wk, e :: Cell(jobs, wk, e) == RowSum(rows[..i], Jobs, wk, e)
    {
      var r := rows[i];
      assert rows[..i + 1] == rows[..i] + [r];
      AddCounts(duration, rows[..i], r, Duration);
      AddCounts(jobs, rows[..i], r, Jobs);
      weekSet := weekSet + {r.week};
      entitySet := entitySet + {r.entity};
      duration := Add(duration, r.week, r.entity, r.duration);
      jobs := Add(jobs, r.week, r.entity, r.jobs);
    }
    assert rows[..|rows|] == rows;
  }

  method BuildPivot(rows: seq<Row>) returns (p: Pivot)
    ensures IsPivot(p, rows)
  {
    var weekSet, entitySet, duration, jobs := ReadRows(rows);
    var weeks := SortWeeks(weekSet);
    var unranked := Pivot(weeks, [], duration, jobs);
    var entities := RankEntities(entitySet, unranked);
    p := unranked.(entities := entities);
    forall i, j | 0 <= i < j < |entities| ensures Outranks(p, entities[i], entities[j]) {
      assert Outranks(unranked, entities[i], entities[j]);
      assert p.Of(Duration) == unranked.Of(Duration);
    }
  }

  // ---- the accumulator loops ----

  method EntitySum(p: Pivot, m: Measure, e: string) returns (sum: int)
    ensures sum == EntityTotal(p, m, e)
  {
    sum := 0;
    for i := 0 to |p.weeks|
      invariant sum == AcrossWeeks(p.Value(m), e, p.weeks[..i])
    {
      assert p.weeks[..i + 1][..i] == p.weeks[..i];
      sum := sum + Cell(p.Of(m), p.weeks[i], e);
    }
    assert p.weeks[..|p.weeks|] == p.weeks;
  }

  method WeekSum(p: Pivot, m: Measure, wk: Week) returns (sum: int)
    ensures sum == WeekTotal(p, m, wk)
  {
    sum := 0;
    for i := 0 to |p.entities|
      invariant sum == AcrossEntities(p.Value(m), wk, p.entities[..i])
    {
      assert p.entities[..i + 1][..i] == p.entities[..i];
      sum := sum + Cell(p.Of(m), wk, p.entities[i]);
    }
    assert p.entities[..|p.entities|] == p.entities;
  }

  method GrandSum(p: Pivot, m: Measure) returns (sum: int)
    ensures sum == Grand(p, m)
  {
    sum := 0;
    for i := 0 to |p.weeks|
      invariant sum == ByWeek(p.Value(m), p.weeks[..i], p.entities)
    {
      assert p.weeks[..i + 1][..i] == p.weeks[..i];
      var week := WeekSum(p, m, p.weeks[i]);
      sum := sum + week;
    }
    assert p.weeks[..|p.weeks|] == p.weeks;
  }

  // ---- building a chart ----

  method Fold(p: Pivot, rest: seq<string>) returns (other: seq<int>)
    ensures |other| == |p.weeks|
    ensures forall i :: 0 <= i < |p.weeks| ==> other[i] == AcrossEntities(p.Value(Duration), p.weeks[i], rest)
  {
    var acc := new int[|p.weeks|](_ => 0);
    for k := 0 to |rest|
      invariant forall i :: 0 <= i < |p.weeks| ==> acc[i] == AcrossEntities(p.Value(Duration), p.weeks[i], rest[..k])
    {
      assert rest[..k + 1][..k] == rest[..k];
      for i := 0 to |p.weeks|
        invariant forall n :: i <= n < |p.weeks| ==> acc[n] == AcrossEntities(p.Value(Duration), p.weeks[n], rest[..k])
        invariant forall n :: 0 <= n < i ==> acc[n] == AcrossEntities(p.Value(Duration), p.weeks[n], rest[..k + 1])
      {
        acc[i] := acc[i] + Cell(p.duration, p.weeks[i], rest[k]);
      }
    }
    assert rest[..|rest|] == rest;
    other := acc[..];
  }

  method BuildSeries(p: Pivot, exclude: bool) returns (series: seq<Series>)
    ensures IsChart(series, p, Eligible(p.entities, exclude))
  {
    var eligible := [];
    for i := 0 to |p.entities|
      invariant eligible == Eligible(p.entities[..i], exclude)
    {
      assert p.entities[..i + 1][..i] == p.entities[..i];
      if !exclude || !Excluded(p.entities[i]) {
        eligible := eligible + [p.entities[i]];
      }
    }
    assert p.entities[..|p.entities|] == p.entities;
    var top := eligible;
    if |top| > TOP_ENTITIES {
      top := top[..TOP_ENTITIES];
    }
    series := [];
    for i := 0 to |top|
      invariant |series| == i && forall k :: 0 <= k < i ==> series[k] == Named(p, top[k])
    {
      series := series + [Named(p, top[i])];
    }
    var rest := eligible[|top|..];
    var other := Fold(p, rest);
    if rest != [] {
      series := series + [Series("Other", true, other)];
    }
  }
}
