/** The warehouse form of a period query: one parameterized SELECT with named parameters. */
module BigQuerySql {
  import opened Runs
  import opened PeriodQuery

  datatype Choice = Choice(dimension: string, values: seq<string>)

  // What both compilers read from the plan and the caller's access; lists are already sorted.
  datatype Request = Request(
    tenant: string, metric: string, regions: seq<string>, units: seq<string>, filters: seq<Choice>,
    dimensions: seq<string>, aggregation: Aggregation, integer: bool, current: Period, comparison: Option<Period>, rowLimit: nat)

  function Elements(values: seq<string>): set<string> { set v | v in values }

  function Filters(choices: seq<Choice>): (filters: seq<Filter>)
    ensures |filters| == |choices|
    ensures forall i :: 0 <= i < |choices| ==> filters[i] == Filter(choices[i].dimension, Elements(choices[i].values))
  {
    if choices == [] then []
    else Filters(choices[..|choices| - 1]) + [Filter(choices[|choices| - 1].dimension, Elements(choices[|choices| - 1].values))]
  }

  // The question the request asks of the facts.
  function Asked(r: Request): Query {
    Query(DataScope(Some(r.tenant), Some(r.metric), Elements(r.regions), Some(Elements(r.units)), Filters(r.filters)),
          r.dimensions, r.aggregation, r.integer, r.current, r.comparison, r.rowLimit)
  }

  // What the clauses say before the dimension filters are added.
  predicate Base(r: Request, f: Fact) {
    && f.tenant == r.tenant && f.metric == r.metric && f.region in Elements(r.regions) && f.unit in Elements(r.units)
    && (Within(r.current, f.day) || (r.comparison.Some? && Within(r.comparison.value, f.day)))
  }

  predicate Chosen(choices: seq<Choice>, f: Fact) {
    forall i :: 0 <= i < |choices| ==>
      Column(f, choices[i].dimension).Some? && Column(f, choices[i].dimension).value in Elements(choices[i].values)
  }

  lemma ScannedIs(r: Request)
    ensures forall f :: Scanned(Asked(r), f) <==> Base(r, f) && Chosen(r.filters, f)
  {
    forall f ensures Scanned(Asked(r), f) <==> Base(r, f) && Chosen(r.filters, f) {
      var filters := Filters(r.filters);
      if Chosen(r.filters, f) {
        forall filter | filter in filters ensures Column(f, filter.dimension).Some? && Column(f, filter.dimension).value in filter.values {
          var i :| 0 <= i < |filters| && filters[i] == filter;
        }
      }
      if Scanned(Asked(r), f) {
        forall i | 0 <= i < |r.filters|
          ensures Column(f, r.filters[i].dimension).Some? && Column(f, r.filters[i].dimension).value in Elements(r.filters[i].values)
        {
          assert filters[i] in filters;
        }
      }
    }
  }

  // ---------------------------------------------------------------- the statement

  datatype Name =
    | TenantName | MetricName | RegionsName | UnitsName | CurrentStart | CurrentEnd | ComparisonStart | ComparisonEnd
    | FilterName(index: nat) | RowLimitName

  datatype Argument = TextArgument(text: string) | TextsArgument(texts: seq<string>) | DateArgument(day: int) | CountArgument(count: nat)

  datatype Parameter = Parameter(name: Name, value: Argument)

  datatype Condition =
    | TenantNamed(name: Name) | MetricNamed(name: Name) | RegionNamed(name: Name) | UnitNamed(name: Name)
    | DayNamed(bounds: seq<(Name, Name)>) | DimensionNamed(dimension: string, name: Name)

  // CASE WHEN day BETWEEN the first bounds THEN 'current' ELSE 'comparison' END, and the WHERE conditions.
  datatype Statement = Statement(sides: (Name, Name), where: seq<Condition>, parameters: seq<Parameter>, maximumRows: nat)

  // The value a name stands for: the engine rejects names that occur twice, so the first one is the one.
  function Value(parameters: seq<Parameter>, name: Name): Option<Argument> {
    if parameters == [] then None
    else if parameters[0].name == name then Some(parameters[0].value)
    else Value(parameters[1..], name)
  }

  predicate Unique(parameters: seq<Parameter>) {
    forall i, j :: 0 <= i < j < |parameters| ==> parameters[i].name != parameters[j].name
  }

  predicate Between(parameters: seq<Parameter>, bounds: (Name, Name), day: int) {
    var start, end := Value(parameters, bounds.0), Value(parameters, bounds.1);
    start.Some? && end.Some? && start.value.DateArgument? && end.value.DateArgument? && start.value.day <= day <= end.value.day
  }

  predicate Satisfies(parameters: seq<Parameter>, c: Condition, f: Fact) {
    match c
    case TenantNamed(name) => Value(parameters, name) == Some(TextArgument(f.tenant))
    case MetricNamed(name) => Value(parameters, name) == Some(TextArgument(f.metric))
    case RegionNamed(name) => TextIn(Value(parameters, name), Some(f.region))
    case UnitNamed(name) => TextIn(Value(parameters, name), Some(f.unit))
    case DayNamed(bounds) => exists i :: 0 <= i < |bounds| && Between(parameters, bounds[i], f.day)
    case DimensionNamed(dimension, name) => TextIn(Value(parameters, name), Column(f, dimension))
  }

  predicate TextIn(argument: Option<Argument>, text: Option<string>) {
    argument.Some? && argument.value.TextsArgument? && text.Some? && text.value in argument.value.texts
  }

  predicate SatisfiesAll(parameters: seq<Parameter>, where: seq<Condition>, f: Fact) {
    forall i :: 0 <= i < |where| ==> Satisfies(parameters, where[i], f)
  }

  lemma {:induction false} ValueIs(parameters: seq<Parameter>, j: nat)
    requires Unique(parameters) && j < |parameters|
    ensures Value(parameters, parameters[j].name) == Some(parameters[j].value)
  {
    if j > 0 {
      assert parameters[0].name != parameters[j].name;
      ValueIs(parameters[1..], j - 1);
    }
  }

  // Conditions and parameters are collected side by side.
  method CompileBigQuery(r: Request) returns (s: Statement)
    ensures Unique(s.parameters) && s.maximumRows == MaximumRows(Asked(r))
    ensures Value(s.parameters, RowLimitName) == Some(CountArgument(s.maximumRows))
    ensures forall f :: SatisfiesAll(s.parameters, s.where, f) <==> Scanned(Asked(r), f)
    ensures forall f: Fact :: (if Between(s.parameters, s.sides, f.day) then Current else Compared) == SideOf(Asked(r), f)
  {
    hide Scanned, Asked, SideOf, SatisfiesAll, Between;
    var parameters := [
      Parameter(TenantName, TextArgument(r.tenant)), Parameter(MetricName, TextArgument(r.metric)),
      Parameter(RegionsName, TextsArgument(r.regions)), Parameter(UnitsName, TextsArgument(r.units)),
      Parameter(CurrentStart, DateArgument(r.current.start)), Parameter(CurrentEnd, DateArgument(r.current.end))];
    var bounds := [(CurrentStart, CurrentEnd)];
    if r.comparison.Some? {
      parameters := parameters + [
        Parameter(ComparisonStart, DateArgument(r.comparison.value.start)), Parameter(ComparisonEnd, DateArgument(r.comparison.value.end))];
      bounds := bounds + [(ComparisonStart, ComparisonEnd)];
    }
    assert parameters == Fixed(r) && bounds == PeriodBounds(r);
    var where := [TenantNamed(TenantName), MetricNamed(MetricName), RegionNamed(RegionsName), UnitNamed(UnitsName), DayNamed(bounds)];
    for i := 0 to |r.filters|
      invariant parameters == Fixed(r) + FilterParameters(r.filters, i)
      invariant where == FixedWhere(r) + FilterWhere(r.filters, i)
    {
      var item := r.filters[i];
      where := where + [DimensionNamed(item.dimension, FilterName(i))];
      parameters := parameters + [Parameter(FilterName(i), TextsArgument(item.values))];
    }
    var maximumRows := r.rowLimit * (if r.comparison.Some? then 2 else 1) + 1;
    parameters := parameters + [Parameter(RowLimitName, CountArgument(maximumRows))];
    s := Statement((CurrentStart, CurrentEnd), where, parameters, maximumRows);
    CompiledMeans(r, parameters, maximumRows);
    AskedPeriods(r);
  }

  function Fixed(r: Request): seq<Parameter> {
    [Parameter(TenantName, TextArgument(r.tenant)), Parameter(MetricName, TextArgument(r.metric)),
     Parameter(RegionsName, TextsArgument(r.regions)), Parameter(UnitsName, TextsArgument(r.units)),
     Parameter(CurrentStart, DateArgument(r.current.start)), Parameter(CurrentEnd, DateArgument(r.current.end))]
    + if r.comparison.Some? then
        [Parameter(ComparisonStart, DateArgument(r.comparison.value.start)), Parameter(ComparisonEnd, DateArgument(r.comparison.value.end))]
      else []
  }

  function PeriodBounds(r: Request): seq<(Name, Name)> {
    [(CurrentStart, CurrentEnd)] + if r.comparison.Some? then [(ComparisonStart, ComparisonEnd)] else []
  }

  function FixedWhere(r: Request): seq<Condition> {
    [TenantNamed(TenantName), MetricNamed(MetricName), RegionNamed(RegionsName), UnitNamed(UnitsName), DayNamed(PeriodBounds(r))]
  }

  function FilterParameters(choices: seq<Choice>, n: nat): (parameters: seq<Parameter>)
    requires n <= |choices|
    ensures |parameters| == n
    ensures forall i :: 0 <= i < n ==> parameters[i] == Parameter(FilterName(i), TextsArgument(choices[i].values))
  {
    if n == 0 then [] else FilterParameters(choices, n - 1) + [Parameter(FilterName(n - 1), TextsArgument(choices[n - 1].values))]
  }

  function FilterWhere(choices: seq<Choice>, n: nat): (where: seq<Condition>)
    requires n <= |choices|
    ensures |where| == n
    ensures forall i :: 0 <= i < n ==> where[i] == DimensionNamed(choices[i].dimension, FilterName(i))
  {
    if n == 0 then [] else FilterWhere(choices, n - 1) + [DimensionNamed(choices[n - 1].dimension, FilterName(n - 1))]
  }

  function AllParameters(r: Request, maximumRows: nat): seq<Parameter> {
    Fixed(r) + FilterParameters(r.filters, |r.filters|) + [Parameter(RowLimitName, CountArgument(maximumRows))]
  }

  // Every name stands for what the request says; filters have names of their own.
  predicate Named(r: Request, p: seq<Parameter>) {
    && Value(p, TenantName) == Some(TextArgument(r.tenant)) && Value(p, MetricName) == Some(TextArgument(r.metric))
    && Value(p, RegionsName) == Some(TextsArgument(r.regions)) && Value(p, UnitsName) == Some(TextsArgument(r.units))
    && Value(p, CurrentStart) == Some(DateArgument(r.current.start)) && Value(p, CurrentEnd) == Some(DateArgument(r.current.end))
    && (r.comparison.Some? ==>
          && Value(p, ComparisonStart) == Some(DateArgument(r.comparison.value.start))
          && Value(p, ComparisonEnd) == Some(DateArgument(r.comparison.value.end)))
    && (forall i :: 0 <= i < |r.filters| ==> Value(p, FilterName(i)) == Some(TextsArgument(r.filters[i].values)))
  }

  lemma NamesStandFor(r: Request, maximumRows: nat)
    ensures var p := AllParameters(r, maximumRows);
            Unique(p) && Named(r, p) && Value(p, RowLimitName) == Some(CountArgument(maximumRows))
  {
    hide Value, Unique;
    var p, fixed := AllParameters(r, maximumRows), |Fixed(r)|;
    AllUnique(r, maximumRows);
    forall i | 0 <= i < |r.filters| ensures Value(p, FilterName(i)) == Some(TextsArgument(r.filters[i].values)) {
      assert p[fixed + i] == Parameter(FilterName(i), TextsArgument(r.filters[i].values));
      ValueIs(p, fixed + i);
    }
    assert p[|p| - 1] == Parameter(RowLimitName, CountArgument(maximumRows));
    ValueIs(p, |p| - 1);
    FixedNamed(r, p);
  }

  lemma FixedNamed(r: Request, p: seq<Parameter>)
    requires Unique(p) && Fixed(r) <= p
    ensures forall i :: 0 <= i < |Fixed(r)| ==> Value(p, Fixed(r)[i].name) == Some(Fixed(r)[i].value)
    ensures (forall i :: 0 <= i < |r.filters| ==> Value(p, FilterName(i)) == Some(TextsArgument(r.filters[i].values))) ==> Named(r, p)
  {
    hide Value, Unique;
    var fixed := Fixed(r);
    forall i | 0 <= i < |fixed| ensures Value(p, fixed[i].name) == Some(fixed[i].value) {
      assert p[i] == fixed[i];
      ValueIs(p, i);
    }
    assert fixed[0].name == TenantName && fixed[1].name == MetricName && fixed[2].name == RegionsName && fixed[3].name == UnitsName;
    assert fixed[4].name == CurrentStart && fixed[5].name == CurrentEnd;
    if r.comparison.Some? { assert fixed[6].name == ComparisonStart && fixed[7].name == ComparisonEnd; }
  }

  lemma AllUnique(r: Request, maximumRows: nat)
    ensures Unique(AllParameters(r, maximumRows))
  {
    var p, fixed := AllParameters(r, maximumRows), |Fixed(r)|;
    forall i | 0 <= i < |p|
      ensures if i < fixed then p[i] == Fixed(r)[i] && !p[i].name.FilterName? && p[i].name != RowLimitName
              else if i < |p| - 1 then p[i].name == FilterName(i - fixed)
              else p[i].name == RowLimitName
    {
    }
  }

  lemma CompiledMeans(r: Request, parameters: seq<Parameter>, maximumRows: nat)
    requires parameters == AllParameters(r, maximumRows)
    ensures Unique(parameters) && Value(parameters, RowLimitName) == Some(CountArgument(maximumRows))
    ensures forall f :: SatisfiesAll(parameters, FixedWhere(r) + FilterWhere(r.filters, |r.filters|), f) <==> Scanned(Asked(r), f)
    ensures forall f: Fact :: (if Between(parameters, (CurrentStart, CurrentEnd), f.day) then Current else Compared) == SideOf(Asked(r), f)
  {
    hide Scanned, Asked, Unique, AllParameters, Value, Named, Base, Chosen, SatisfiesAll, Satisfies, Between;
    NamesStandFor(r, maximumRows);
    ScannedIs(r);
    forall f ensures SatisfiesAll(parameters, FixedWhere(r) + FilterWhere(r.filters, |r.filters|), f) <==> Base(r, f) && Chosen(r.filters, f) {
      WhereSplits(r, parameters, f);
      FixedMeans(r, parameters, f);
      FiltersMean(r, parameters, f);
    }
    forall f: Fact ensures (if Between(parameters, (CurrentStart, CurrentEnd), f.day) then Current else Compared) == SideOf(Asked(r), f) {
      AskedPeriods(r);
      CurrentMeans(r, parameters, f.day);
    }
  }

  lemma AskedPeriods(r: Request)
    ensures Asked(r).current == r.current && Asked(r).comparison == r.comparison && Asked(r).rowLimit == r.rowLimit
  {
  }

  lemma CurrentMeans(r: Request, p: seq<Parameter>, day: int)
    requires Named(r, p)
    ensures Between(p, (CurrentStart, CurrentEnd), day) <==> Within(r.current, day)
    ensures r.comparison.Some? ==> (Between(p, (ComparisonStart, ComparisonEnd), day) <==> Within(r.comparison.value, day))
  {
    hide Value;
  }

  lemma WhereSplits(r: Request, p: seq<Parameter>, f: Fact)
    ensures SatisfiesAll(p, FixedWhere(r) + FilterWhere(r.filters, |r.filters|), f)
       <==> SatisfiesAll(p, FixedWhere(r), f) && SatisfiesAll(p, FilterWhere(r.filters, |r.filters|), f)
  {
    hide Satisfies;
    var a, b := FixedWhere(r), FilterWhere(r.filters, |r.filters|);
    if SatisfiesAll(p, a + b, f) {
      forall i | 0 <= i < |a| ensures Satisfies(p, a[i], f) { assert (a + b)[i] == a[i]; }
      forall i | 0 <= i < |b| ensures Satisfies(p, b[i], f) { assert (a + b)[|a| + i] == b[i]; }
    }
  }

  lemma FixedMeans(r: Request, p: seq<Parameter>, f: Fact)
    requires Named(r, p)
    ensures SatisfiesAll(p, FixedWhere(r), f) <==> Base(r, f)
  {
    hide Value, Between;
    var where, bounds := FixedWhere(r), PeriodBounds(r);
    CurrentMeans(r, p, f.day);
    assert bounds[0] == (CurrentStart, CurrentEnd);
    if r.comparison.Some? { assert bounds[1] == (ComparisonStart, ComparisonEnd); }
    assert SatisfiesAll(p, where, f) <==>
      Satisfies(p, where[0], f) && Satisfies(p, where[1], f) && Satisfies(p, where[2], f) && Satisfies(p, where[3], f) && Satisfies(p, where[4], f);
  }

  lemma FiltersMean(r: Request, p: seq<Parameter>, f: Fact)
    requires Named(r, p)
    ensures SatisfiesAll(p, FilterWhere(r.filters, |r.filters|), f) <==> Chosen(r.filters, f)
  {
    hide Value;
    var where := FilterWhere(r.filters, |r.filters|);
    forall i | 0 <= i < |where|
      ensures Satisfies(p, where[i], f)
         <==> Column(f, r.filters[i].dimension).Some? && Column(f, r.filters[i].dimension).value in Elements(r.filters[i].values)
    {
      assert where[i] == DimensionNamed(r.filters[i].dimension, FilterName(i));
    }
  }
}
