/**
 The second compilation of a period query: positional parameters, bound in the order in which their
 markers occur in the text, against the named parameters of the warehouse form.
 */
module ParquetSnapshot {
  import opened Runs
  import opened PeriodQuery
  import opened BigQuerySql

  datatype Value = DateValue(day: int) | TextValue(text: string)

  function Texts(values: seq<string>): (texts: seq<Value>)
    ensures |texts| == |values| && forall i :: 0 <= i < |values| ==> texts[i] == TextValue(values[i])
  {
    seq(|values|, i requires 0 <= i < |values| => TextValue(values[i]))
  }

  // ---------------------------------------------------------------- statement text with positional markers

  datatype Clause = TenantIs | MetricIs | RegionIn(markers: nat) | UnitIn(markers: nat) | DateIn(periods: nat) | DimensionIn(dimension: string, markers: nat)

  // SELECT CASE WHEN .. ? .. ?, ... FROM read_parquet(?) WHERE clause AND clause ...
  datatype Sql = Sql(sides: seq<Side>, where: seq<Clause>)

  function Markers(c: Clause): nat {
    match c
    case TenantIs => 1
    case MetricIs => 1
    case RegionIn(n) => n
    case UnitIn(n) => n
    case DateIn(n) => 2 * n
    case DimensionIn(_, n) => n
  }

  function AllMarkers(where: seq<Clause>): nat {
    if where == [] then 0 else AllMarkers(where[..|where| - 1]) + Markers(where[|where| - 1])
  }

  predicate DayBetween(bounds: seq<Value>, day: int) {
    |bounds| == 2 && bounds[0].DateValue? && bounds[1].DateValue? && bounds[0].day <= day <= bounds[1].day
  }

  predicate DayInAny(bounds: seq<Value>, day: int) {
    |bounds| >= 2 && (DayBetween(bounds[..2], day) || DayInAny(bounds[2..], day))
  }

  // One clause with the values that its own markers received.
  predicate Holds(c: Clause, bound: seq<Value>, f: Fact) {
    match c
    case TenantIs => [TextValue(f.tenant)] == bound
    case MetricIs => [TextValue(f.metric)] == bound
    case RegionIn(_) => TextValue(f.region) in bound
    case UnitIn(_) => TextValue(f.unit) in bound
    case DateIn(_) => DayInAny(bound, f.day)
    case DimensionIn(dimension, _) => Column(f, dimension).Some? && TextValue(Column(f, dimension).value) in bound
  }

  // The WHERE clause as the engine evaluates it: markers take parameters from left to right.
  predicate Where(where: seq<Clause>, bound: seq<Value>, f: Fact)
    requires AllMarkers(where) == |bound|
  {
    if where == [] then true
    else
      var front, last := where[..|where| - 1], where[|where| - 1];
      var cut := AllMarkers(front);
      Where(front, bound[..cut], f) && Holds(last, bound[cut..], f)
  }

  // The CASE expression has no ELSE: a day outside every period has no label.
  function CaseOf(sides: seq<Side>, bound: seq<Value>, day: int): Option<Side>
    requires |bound| == 2 * |sides|
  {
    if sides == [] then None
    else if DayBetween(bound[..2], day) then Some(sides[0])
    else CaseOf(sides[1..], bound[2..], day)
  }

  function Bounds(periods: seq<Period>): (bounds: seq<Value>)
    ensures |bounds| == 2 * |periods|
  {
    if periods == [] then []
    else Bounds(periods[..|periods| - 1]) + [DateValue(periods[|periods| - 1].start), DateValue(periods[|periods| - 1].end)]
  }

  function Periods(r: Request): seq<Period> {
    if r.comparison.Some? then [r.current, r.comparison.value] else [r.current]
  }

  function Sides(r: Request): seq<Side> {
    if r.comparison.Some? then [Current, Compared] else [Current]
  }

  // A clause list and its parameters, which fit and mean `meaning`.
  ghost predicate Means(where: seq<Clause>, bound: seq<Value>, meaning: Fact -> bool) {
    AllMarkers(where) == |bound| && forall f :: Where(where, bound, f) <==> meaning(f)
  }

  lemma WhereMore(where: seq<Clause>, bound: seq<Value>, c: Clause, values: seq<Value>)
    requires AllMarkers(where) == |bound| && Markers(c) == |values|
    ensures AllMarkers(where + [c]) == |bound + values|
    ensures forall f :: Where(where + [c], bound + values, f) <==> Where(where, bound, f) && Holds(c, values, f)
  {
    assert (where + [c])[..|where|] == where;
    assert (bound + values)[..|bound|] == bound;
    assert (bound + values)[|bound|..] == values;
  }

  lemma TextsHold(c: Clause, values: seq<string>)
    requires c.RegionIn? || c.UnitIn? || c.DimensionIn?
    ensures forall v :: TextValue(v) in Texts(values) <==> v in Elements(values)
  {
    forall v ensures TextValue(v) in Texts(values) <==> v in Elements(values) {
      if v in values {
        var i :| 0 <= i < |values| && values[i] == v;
        assert Texts(values)[i] == TextValue(v);
      }
    }
  }

  function SideFor(r: Request, day: int): Option<Side> {
    if Within(r.current, day) then Some(Current)
    else if r.comparison.Some? && Within(r.comparison.value, day) then Some(Compared)
    else None
  }

  lemma BoundsHold(r: Request)
    ensures forall day :: DayInAny(Bounds(Periods(r)), day) <==> SideFor(r, day).Some?
    ensures forall day :: CaseOf(Sides(r), Bounds(Periods(r)), day) == SideFor(r, day)
  {
    var first, sides := BoundsOf(r.current), Sides(r);
    forall day ensures DayInAny(Bounds(Periods(r)), day) <==> SideFor(r, day).Some?
      ensures CaseOf(sides, Bounds(Periods(r)), day) == SideFor(r, day)
    {
      if r.comparison.Some? {
        var second := BoundsOf(r.comparison.value);
        TwoPeriods(r.current, r.comparison.value);
        LastPeriod(r.comparison.value, Compared, day);
        assert (first + second)[..2] == first && (first + second)[2..] == second;
        assert sides[1..] == [Compared];
      } else {
        OnePeriod(r.current);
        LastPeriod(r.current, Current, day);
      }
    }
  }

  function BoundsOf(p: Period): seq<Value> { [DateValue(p.start), DateValue(p.end)] }

  lemma OnePeriod(p: Period)
    ensures Bounds([p]) == BoundsOf(p)
  {
    assert [p][..0] == [];
  }

  lemma TwoPeriods(p: Period, p': Period)
    ensures Bounds([p, p']) == BoundsOf(p) + BoundsOf(p')
  {
    assert [p, p'][..1] == [p];
    OnePeriod(p);
  }

  lemma LastPeriod(p: Period, side: Side, day: int)
    ensures DayInAny(BoundsOf(p), day) <==> Within(p, day)
    ensures CaseOf([side], BoundsOf(p), day) == if Within(p, day) then Some(side) else None
  {
    assert BoundsOf(p)[..2] == BoundsOf(p) && BoundsOf(p)[2..] == [] && [side][1..] == [];
  }

  class ParquetSnapshotConnector {
    const path: string

    constructor (path: string)
      ensures this.path == path
    {
      this.path := path;
    }

    // The path's marker comes before those of WHERE, but its parameter is inserted last.
    method Compile(r: Request) returns (sql: Sql, parameters: seq<Value>)
      ensures var cut := 2 * |sql.sides|;
              && |parameters| == cut + 1 + AllMarkers(sql.where)
              && parameters[cut] == TextValue(path)
              && (forall f :: Where(sql.where, parameters[cut + 1..], f) <==> Scanned(Asked(r), f))
              && (forall f :: Scanned(Asked(r), f) ==> CaseOf(sql.sides, parameters[..cut], f.day) == Some(SideOf(Asked(r), f)))
    {
      hide Where, AllMarkers, Bounds, CaseOf, Texts, Scanned, Asked, SideOf, Base, Chosen;
      BaseWhere(r);
      BoundsHold(r);
      var periods, sides := Periods(r), Sides(r);
      var selected := Bounds(periods);
      var where := [TenantIs, MetricIs, RegionIn(|r.regions|), UnitIn(|r.units|), DateIn(|periods|)];
      parameters := selected;
      parameters := parameters + [TextValue(r.tenant), TextValue(r.metric)] + Texts(r.regions) + Texts(r.units);
      parameters := parameters + Bounds(periods);
      assert parameters == selected + BaseValues(r);
      ghost var bound := BaseValues(r);
      NoChoice(r);
      for i := 0 to |r.filters|
        invariant parameters == selected + bound && AllMarkers(where) == |bound|
        invariant forall f :: Where(where, bound, f) <==> Base(r, f) && Chosen(r.filters[..i], f)
      {
        var item := r.filters[i];
        AddChoice(r, i, where, bound);
        where := where + [DimensionIn(item.dimension, |item.values|)];
        parameters := parameters + Texts(item.values);
        bound := bound + Texts(item.values);
      }
      assert r.filters[..|r.filters|] == r.filters;
      ScannedIs(r);
      var cut := 2 * |periods|;
      parameters := parameters[..cut] + [TextValue(path)] + parameters[cut..];
      assert parameters[..cut] == selected && parameters[cut + 1..] == bound;
      SidesAgree(r);
      sql := Sql(sides, where);
    }
  }

  lemma NoChoice(r: Request)
    ensures r.filters[..0] == [] && forall f :: Chosen(r.filters[..0], f)
  {
  }

  lemma SidesAgree(r: Request)
    ensures forall f :: Scanned(Asked(r), f) ==> SideFor(r, f.day) == Some(SideOf(Asked(r), f))
  {
    hide InScope;
  }

  function BaseClauses(r: Request): seq<Clause> {
    [TenantIs, MetricIs, RegionIn(|r.regions|), UnitIn(|r.units|), DateIn(|Periods(r)|)]
  }

  function BaseValues(r: Request): seq<Value> {
    [TextValue(r.tenant), TextValue(r.metric)] + Texts(r.regions) + Texts(r.units) + Bounds(Periods(r))
  }

  lemma BaseWhere(r: Request)
    ensures AllMarkers(BaseClauses(r)) == |BaseValues(r)|
    ensures forall f :: Where(BaseClauses(r), BaseValues(r), f) <==> Base(r, f)
  {
    hide Where, AllMarkers, Texts, Bounds, DayInAny;
    EmptyWhere();
    var v1 := [TextValue(r.tenant)];
    var v2 := v1 + [TextValue(r.metric)];
    var v3 := v2 + Texts(r.regions);
    var v4 := v3 + Texts(r.units);
    assert [] + v1 == v1 && v4 + Bounds(Periods(r)) == BaseValues(r);
    var c3, c4 := [TenantIs, MetricIs, RegionIn(|r.regions|)], [TenantIs, MetricIs, RegionIn(|r.regions|), UnitIn(|r.units|)];
    assert [] + [TenantIs] == [TenantIs] && [TenantIs] + [MetricIs] == [TenantIs, MetricIs];
    assert [TenantIs, MetricIs] + [RegionIn(|r.regions|)] == c3 && c3 + [UnitIn(|r.units|)] == c4;
    assert c4 + [DateIn(|Periods(r)|)] == BaseClauses(r);
    WhereMore([], [], TenantIs, v1);
    WhereMore([TenantIs], v1, MetricIs, [TextValue(r.metric)]);
    WhereMore([TenantIs, MetricIs], v2, RegionIn(|r.regions|), Texts(r.regions));
    WhereMore(c3, v3, UnitIn(|r.units|), Texts(r.units));
    WhereMore(c4, v4, DateIn(|Periods(r)|), Bounds(Periods(r)));
    TextsHold(RegionIn(0), r.regions);
    TextsHold(UnitIn(0), r.units);
    BoundsHold(r);
  }

  lemma EmptyWhere()
    ensures AllMarkers([]) == 0 && forall f :: Where([], [], f)
  {
  }

  lemma AddChoice(r: Request, i: nat, where: seq<Clause>, bound: seq<Value>)
    requires i < |r.filters| && AllMarkers(where) == |bound|
    requires forall f :: Where(where, bound, f) <==> Base(r, f) && Chosen(r.filters[..i], f)
    ensures var item := r.filters[i];
            var where', bound' := where + [DimensionIn(item.dimension, |item.values|)], bound + Texts(item.values);
            && AllMarkers(where') == |bound'|
            && forall f :: Where(where', bound', f) <==> Base(r, f) && Chosen(r.filters[..i + 1], f)
  {
    hide Where, AllMarkers, Texts, Base;
    var item := r.filters[i];
    WhereMore(where, bound, DimensionIn(item.dimension, |item.values|), Texts(item.values));
    TextsHold(DimensionIn(item.dimension, 0), item.values);
    assert r.filters[..i + 1] == r.filters[..i] + [item];
    forall f ensures Chosen(r.filters[..i + 1], f) <==> Chosen(r.filters[..i], f) && Chosen([item], f) { }
  }

  // ---------------------------------------------------------------- the same groups as the warehouse scan

  // The facts of one group as the engine finds them from the bound statement.
  function BoundMembers(facts: seq<Fact>, sql: Sql, selected: seq<Value>, bound: seq<Value>, dimensions: seq<string>, side: Side, key: Key): seq<Fact>
    requires |selected| == 2 * |sql.sides| && AllMarkers(sql.where) == |bound|
  {
    if facts == [] then []
    else
      var last := facts[|facts| - 1];
      BoundMembers(facts[..|facts| - 1], sql, selected, bound, dimensions, side, key)
      + if Where(sql.where, bound, last) && CaseOf(sql.sides, selected, last.day) == Some(side) && KeyOf(dimensions, last) == key
        then [last] else []
  }

  // A statement bound as `Compile` promises groups the facts exactly as the named form does.
  lemma {:induction false} SameGroups(facts: seq<Fact>, r: Request, sql: Sql, selected: seq<Value>, bound: seq<Value>, side: Side, key: Key)
    requires |selected| == 2 * |sql.sides| && AllMarkers(sql.where) == |bound|
    requires forall f :: Where(sql.where, bound, f) <==> Scanned(Asked(r), f)
    requires forall f :: Scanned(Asked(r), f) ==> CaseOf(sql.sides, selected, f.day) == Some(SideOf(Asked(r), f))
    ensures BoundMembers(facts, sql, selected, bound, r.dimensions, side, key) == Members(facts, Asked(r), Grouped(side), key)
  {
    hide Where, CaseOf, Scanned, SideOf, KeyOf;
    if facts != [] { SameGroups(facts[..|facts| - 1], r, sql, selected, bound, side, key); }
  }
}
