/**
 One labelled scan over daily facts for two periods, the checks on its result rows, and what
 released rows say about the facts. Days are calendar ordinals; values are exact.
 */
module PeriodQuery {
  import opened Runs

  type Key = seq<Option<string>>

  datatype Fact = Fact(
    day: int, tenant: string, metric: string, region: string, unit: string, columns: map<string, Option<string>>,
    amount: Option<real>, numerator: Option<real>, denominator: Option<real>, snapshot: Option<Time>)

  datatype Period = Period(start: int, end: int)

  datatype Filter = Filter(dimension: string, values: set<string>)

  // `None` means that the source has no such column to restrict.
  datatype DataScope = DataScope(tenant: Option<string>, metric: Option<string>, regions: set<string>, units: Option<set<string>>, filters: seq<Filter>)

  datatype Aggregation = Sum | Ratio

  datatype Query = Query(
    scope: DataScope, dimensions: seq<string>, aggregation: Aggregation, integer: bool,
    current: Period, comparison: Option<Period>, rowLimit: nat)

  datatype Side = Current | Compared

  predicate Within(p: Period, day: int) { p.start <= day <= p.end }

  function Column(f: Fact, name: string): Option<string> {
    if name in f.columns then f.columns[name] else None
  }

  predicate InScope(s: DataScope, f: Fact) {
    && (s.tenant.Some? ==> f.tenant == s.tenant.value)
    && (s.metric.Some? ==> f.metric == s.metric.value)
    && f.region in s.regions
    && (s.units.Some? ==> f.unit in s.units.value)
    && forall filter :: filter in s.filters ==> Column(f, filter.dimension).Some? && Column(f, filter.dimension).value in filter.values
  }

  function KeyOf(dimensions: seq<string>, f: Fact): (key: Key)
    ensures |key| == |dimensions|
    ensures forall i :: 0 <= i < |dimensions| ==> key[i] == Column(f, dimensions[i])
  {
    if dimensions == [] then [] else [Column(f, dimensions[0])] + KeyOf(dimensions[1..], f)
  }

  // ---------------------------------------------------------------- aggregates

  // SUM over the non-null amounts; null when there is none.
  function SumOf(values: seq<Option<real>>): Option<real> {
    if values == [] then None
    else
      var before, last := SumOf(values[..|values| - 1]), values[|values| - 1];
      if last.None? then before else if before.None? then last else Some(before.value + last.value)
  }

  function Amounts(facts: seq<Fact>): seq<Option<real>> { seq(|facts|, i requires 0 <= i < |facts| => facts[i].amount) }
  function Numerators(facts: seq<Fact>): seq<Option<real>> { seq(|facts|, i requires 0 <= i < |facts| => facts[i].numerator) }
  function Denominators(facts: seq<Fact>): seq<Option<real>> { seq(|facts|, i requires 0 <= i < |facts| => facts[i].denominator) }

  function Aggregate(kind: Aggregation, facts: seq<Fact>): Option<real> {
    match kind
    case Sum => SumOf(Amounts(facts))
    case Ratio =>
      var n, d := SumOf(Numerators(facts)), SumOf(Denominators(facts));
      if n.None? || d.None? || d.value == 0.0 then None else Some(n.value / d.value)
  }

  // A row whose measure or update time is null.
  predicate Defective(kind: Aggregation, f: Fact) {
    || f.snapshot.None?
    || match kind case Sum => f.amount.None? case Ratio => f.numerator.None? || f.denominator.None?
  }

  function Days(facts: seq<Fact>): set<int> { set f | f in facts :: f.day }

  function FirstDay(facts: seq<Fact>): int
    requires facts != []
  {
    if |facts| == 1 then facts[0].day
    else var before, last := FirstDay(facts[..|facts| - 1]), facts[|facts| - 1].day; if last < before then last else before
  }

  function LastDay(facts: seq<Fact>): int
    requires facts != []
  {
    if |facts| == 1 then facts[0].day
    else var before, last := LastDay(facts[..|facts| - 1]), facts[|facts| - 1].day; if last > before then last else before
  }

  function Freshest(facts: seq<Fact>): Option<Time> {
    if facts == [] then None
    else
      var before, last := Freshest(facts[..|facts| - 1]), facts[|facts| - 1].snapshot;
      if last.None? then before else if before.None? || last.value > before.value then last else before
  }

  function Defects(kind: Aggregation, facts: seq<Fact>): nat {
    if facts == [] then 0
    else Defects(kind, facts[..|facts| - 1]) + if Defective(kind, facts[|facts| - 1]) then 1 else 0
  }

  // ---------------------------------------------------------------- the labelled scan, and its meaning

  // Which facts are wanted: those one group of the scan holds, or all in-scope facts of a whole period.
  datatype Slot = Grouped(side: Side) | Whole(period: Period)

  // WHERE ... AND (day BETWEEN current OR day BETWEEN comparison).
  predicate Scanned(q: Query, f: Fact) {
    InScope(q.scope, f) && (Within(q.current, f.day) || (q.comparison.Some? && Within(q.comparison.value, f.day)))
  }

  // CASE WHEN day BETWEEN current THEN 'current' ELSE 'comparison' END.
  function SideOf(q: Query, f: Fact): Side {
    if Within(q.current, f.day) then Current else Compared
  }

  predicate Belongs(q: Query, slot: Slot, key: Key, f: Fact) {
    && KeyOf(q.dimensions, f) == key
    && match slot
       case Grouped(side) => Scanned(q, f) && SideOf(q, f) == side
       case Whole(period) => InScope(q.scope, f) && Within(period, f.day)
  }

  function Members(facts: seq<Fact>, q: Query, slot: Slot, key: Key): seq<Fact> {
    if facts == [] then []
    else
      var last := facts[|facts| - 1];
      Members(facts[..|facts| - 1], q, slot, key) + if Belongs(q, slot, key, last) then [last] else []
  }

  datatype GroupRow = GroupRow(
    side: Side, key: Key, value: Option<real>, days: nat, start: int, end: int, snapshot: Option<Time>, invalid: nat)

  function RowFor(facts: seq<Fact>, q: Query, side: Side, key: Key): GroupRow {
    var members := Members(facts, q, Grouped(side), key);
    GroupRow(side, key, Aggregate(q.aggregation, members), |Days(members)|,
             if members == [] then 0 else FirstDay(members), if members == [] then 0 else LastDay(members),
             Freshest(members), Defects(q.aggregation, members))
  }

  // GROUP BY side, dimensions: every group that has a fact, each once, in some order.
  ghost predicate Enumerates(all: seq<GroupRow>, facts: seq<Fact>, q: Query) {
    && (forall i :: 0 <= i < |all| ==>
          && all[i] == RowFor(facts, q, all[i].side, all[i].key)
          && Members(facts, q, Grouped(all[i].side), all[i].key) != [])
    && (forall i, j :: 0 <= i < j < |all| ==> all[i].side != all[j].side || all[i].key != all[j].key)
    && (forall side, key :: Members(facts, q, Grouped(side), key) != [] ==> Listed(all, side, key))
  }

  predicate Listed(rows: seq<GroupRow>, side: Side, key: Key) {
    exists i :: 0 <= i < |rows| && rows[i].side == side && rows[i].key == key
  }

  function MaximumRows(q: Query): nat { q.rowLimit * (if q.comparison.Some? then 2 else 1) + 1 }

  // LIMIT.
  function Limited(all: seq<GroupRow>, q: Query): seq<GroupRow> {
    if |all| <= MaximumRows(q) then all else all[..MaximumRows(q)]
  }

  // ---------------------------------------------------------------- the checks on result rows

  const EXACT := 9007199254740991.0

  predicate Integral(x: real) { x == x.Floor as real }

  predicate ValueOk(q: Query, value: Option<real>) {
    value.Some? && (q.integer ==> Integral(value.value) && -EXACT <= value.value <= EXACT)
  }

  predicate KeyOk(key: Key) {
    forall i :: 0 <= i < |key| ==> key[i].Some? && key[i].value != ""
  }

  function PeriodOf(q: Query, side: Side): Option<Period> {
    if side == Current then Some(q.current) else q.comparison
  }

  // Everything asked of one row, apart from being the only one of its group.
  predicate RowOk(q: Query, row: GroupRow, now: Time) {
    && PeriodOf(q, row.side).Some?
    && (var period := PeriodOf(q, row.side).value;
        row.start == period.start && row.end == period.end && row.days == period.end - period.start + 1 && row.invalid == 0)
    && KeyOk(row.key) && ValueOk(q, row.value)
    && row.snapshot.Some? && row.snapshot.value <= now
  }

  datatype Entry = Entry(key: Key, value: Option<real>)

  function Entries(rows: seq<GroupRow>, side: Side): seq<Entry> {
    if rows == [] then []
    else
      var last := rows[|rows| - 1];
      Entries(rows[..|rows| - 1], side) + if last.side == side then [Entry(last.key, last.value)] else []
  }

  predicate HasKey(entries: seq<Entry>, key: Key) {
    exists i :: 0 <= i < |entries| && entries[i].key == key
  }

  ghost predicate SameKeys(a: seq<Entry>, b: seq<Entry>) {
    forall key :: HasKey(a, key) <==> HasKey(b, key)
  }

  ghost predicate NoRepeats(rows: seq<GroupRow>) {
    forall i, j :: 0 <= i < j < |rows| ==> rows[i].side != rows[j].side || rows[i].key != rows[j].key
  }

  ghost predicate Acceptable(q: Query, rows: seq<GroupRow>, total: nat, now: Time) {
    && total == |rows| < MaximumRows(q)
    && (forall i :: 0 <= i < |rows| ==> RowOk(q, rows[i], now))
    && NoRepeats(rows)
    && 0 < |Entries(rows, Current)| <= q.rowLimit
    && (q.comparison.Some? ==> SameKeys(Entries(rows, Current), Entries(rows, Compared)))
  }

  // ---------------------------------------------------------------- one whole period, and the equivalence

  // Every day of the period has a fact and no fact is defective.
  ghost predicate Complete(q: Query, period: Period, facts: seq<Fact>) {
    && facts != []
    && (forall day :: Within(period, day) ==> day in Days(facts))
    && (forall f :: f in facts ==> Within(period, f.day) && !Defective(q.aggregation, f))
  }

  lemma {:induction false} MembersAre(facts: seq<Fact>, q: Query, slot: Slot, key: Key)
    ensures forall f :: f in Members(facts, q, slot, key) <==> f in facts && Belongs(q, slot, key, f)
  {
    if facts != [] {
      var front, last := facts[..|facts| - 1], facts[|facts| - 1];
      MembersAre(front, q, slot, key);
      assert facts == front + [last];
    }
  }

  lemma {:induction false} SameMembers(facts: seq<Fact>, q: Query, a: Slot, b: Slot, key: Key)
    requires forall f :: f in facts ==> Belongs(q, a, key, f) == Belongs(q, b, key, f)
    ensures Members(facts, q, a, key) == Members(facts, q, b, key)
  {
    if facts != [] {
      hide Belongs;
      var front, last := facts[..|facts| - 1], facts[|facts| - 1];
      assert last in facts;
      SameMembers(front, q, a, b, key);
    }
  }

  // The current label always selects the whole current period.
  lemma CurrentGroupIsWhole(facts: seq<Fact>, q: Query, key: Key)
    ensures Members(facts, q, Grouped(Current), key) == Members(facts, q, Whole(q.current), key)
  {
    SameMembers(facts, q, Grouped(Current), Whole(q.current), key);
  }

  predicate Disjoint(a: Period, b: Period) { a.end < b.start || b.end < a.start }

  // The comparison label does so when the periods have no day in common.
  lemma ComparedGroupIsWhole(facts: seq<Fact>, q: Query, key: Key)
    requires q.comparison.Some? && Disjoint(q.current, q.comparison.value)
    ensures Members(facts, q, Grouped(Compared), key) == Members(facts, q, Whole(q.comparison.value), key)
  {
    SameMembers(facts, q, Grouped(Compared), Whole(q.comparison.value), key);
  }

  // ---------------------------------------------------------------- what the aggregates of a group mean

  lemma {:induction false} DayBounds(facts: seq<Fact>)
    requires facts != []
    ensures FirstDay(facts) in Days(facts) && LastDay(facts) in Days(facts)
    ensures forall day :: day in Days(facts) ==> FirstDay(facts) <= day <= LastDay(facts)
  {
    if |facts| > 1 {
      var front, last := facts[..|facts| - 1], facts[|facts| - 1];
      DayBounds(front);
      assert facts == front + [last];
      assert Days(facts) == Days(front) + {last.day};
    }
  }

  lemma {:induction false} NoDefects(kind: Aggregation, facts: seq<Fact>)
    ensures Defects(kind, facts) == 0 <==> forall f :: f in facts ==> !Defective(kind, f)
  {
    if facts != [] {
      var front, last := facts[..|facts| - 1], facts[|facts| - 1];
      NoDefects(kind, front);
      assert facts == front + [last];
    }
  }

  lemma {:induction false} FreshestIs(facts: seq<Fact>, now: Time)
    requires forall f :: f in facts ==> f.snapshot.Some?
    ensures Freshest(facts).Some? <==> facts != []
    ensures facts != [] ==> (Freshest(facts).value <= now <==> forall f :: f in facts ==> f.snapshot.value <= now)
  {
    if facts != [] {
      var front, last := facts[..|facts| - 1], facts[|facts| - 1];
      assert facts == front + [last];
      FreshestIs(front, now);
    }
  }

  function DaysOf(p: Period): set<int> { set day | p.start <= day <= p.end && Within(p, day) }

  lemma {:induction false} PeriodSize(p: Period)
    requires p.start <= p.end + 1
    ensures |DaysOf(p)| == p.end - p.start + 1
    decreases p.end - p.start + 1
  {
    if p.start <= p.end {
      var shorter := Period(p.start, p.end - 1);
      PeriodSize(shorter);
      assert DaysOf(p) == DaysOf(shorter) + {p.end};
    } else {
      assert DaysOf(p) == {};
    }
  }

  lemma SubsetOfSameSize<T>(a: set<T>, b: set<T>)
    requires a <= b && |a| == |b|
    ensures a == b
  {
    assert b == a + (b - a);
  }

  // First day, last day and number of days together say exactly that no day is missing.
  lemma CoverageIs(facts: seq<Fact>, p: Period)
    requires p.start <= p.end && facts != []
    ensures (FirstDay(facts) == p.start && LastDay(facts) == p.end && |Days(facts)| == p.end - p.start + 1) <==> Days(facts) == DaysOf(p)
  {
    DayBounds(facts);
    PeriodSize(p);
    if FirstDay(facts) == p.start && LastDay(facts) == p.end && |Days(facts)| == p.end - p.start + 1 {
      assert Days(facts) <= DaysOf(p);
      SubsetOfSameSize(Days(facts), DaysOf(p));
    }
    if Days(facts) == DaysOf(p) {
      assert p.start in Days(facts) && p.end in Days(facts);
    }
  }

  // ---------------------------------------------------------------- a group's row against its whole period

  ghost predicate GroupOk(q: Query, period: Period, key: Key, members: seq<Fact>, now: Time) {
    && Complete(q, period, members) && KeyOk(key) && ValueOk(q, Aggregate(q.aggregation, members))
    && forall f :: f in members ==> f.snapshot.Some? && f.snapshot.value <= now
  }

  predicate PeriodsOk(q: Query) {
    q.current.start <= q.current.end && (q.comparison.Some? ==> q.comparison.value.start <= q.comparison.value.end)
  }

  lemma RowOkIs(facts: seq<Fact>, q: Query, side: Side, key: Key, now: Time)
    requires PeriodsOk(q) && Members(facts, q, Grouped(side), key) != [] && PeriodOf(q, side).Some?
    ensures RowOk(q, RowFor(facts, q, side, key), now)
       <==> GroupOk(q, PeriodOf(q, side).value, key, Members(facts, q, Grouped(side), key), now)
  {
    hide KeyOf, KeyOk, ValueOk, Aggregate, InScope, Days, FirstDay, LastDay, Freshest, Defects;
    var members, period := Members(facts, q, Grouped(side), key), PeriodOf(q, side).value;
    MembersAre(facts, q, Grouped(side), key);
    assert forall f :: f in members ==> Within(period, f.day);
    MembersOk(q, members, period, now);
  }

  lemma MembersOk(q: Query, members: seq<Fact>, period: Period, now: Time)
    requires members != [] && period.start <= period.end && forall f :: f in members ==> Within(period, f.day)
    ensures (&& FirstDay(members) == period.start && LastDay(members) == period.end
             && |Days(members)| == period.end - period.start + 1 && Defects(q.aggregation, members) == 0
             && Freshest(members).Some? && Freshest(members).value <= now)
       <==> Complete(q, period, members) && forall f :: f in members ==> f.snapshot.Some? && f.snapshot.value <= now
  {
    hide FirstDay, LastDay, Freshest, Defects;
    NoDefects(q.aggregation, members);
    CoverageIs(members, period);
    assert Days(members) <= DaysOf(period);
    assert Days(members) == DaysOf(period) <==> forall day :: Within(period, day) ==> day in Days(members);
    if forall f :: f in members ==> f.snapshot.Some? {
      FreshestIs(members, now);
    }
  }

  // The keys that have an in-scope fact in a period.
  ghost function KeysIn(facts: seq<Fact>, q: Query, period: Period): set<Key> {
    set f | f in facts && InScope(q.scope, f) && Within(period, f.day) :: KeyOf(q.dimensions, f)
  }

  lemma KeysInAre(facts: seq<Fact>, q: Query, period: Period, key: Key)
    ensures key in KeysIn(facts, q, period) <==> Members(facts, q, Whole(period), key) != []
  {
    MembersAre(facts, q, Whole(period), key);
    var members := Members(facts, q, Whole(period), key);
    if members != [] { assert members[0] in members; }
    if key in KeysIn(facts, q, period) {
      var f :| f in facts && InScope(q.scope, f) && Within(period, f.day) && KeyOf(q.dimensions, f) == key;
      assert f in members;
    }
  }

  // The facts themselves: disjoint periods, the same groups in both, few enough, all of them complete.
  ghost predicate SourceReady(facts: seq<Fact>, q: Query, now: Time) {
    && (q.comparison.Some? ==> Disjoint(q.current, q.comparison.value) && KeysIn(facts, q, q.comparison.value) == KeysIn(facts, q, q.current))
    && 0 < |KeysIn(facts, q, q.current)| <= q.rowLimit
    && (forall key :: key in KeysIn(facts, q, q.current) ==> GroupOk(q, q.current, key, Members(facts, q, Whole(q.current), key), now))
    && (q.comparison.Some? ==>
          forall key :: key in KeysIn(facts, q, q.comparison.value) ==>
            GroupOk(q, q.comparison.value, key, Members(facts, q, Whole(q.comparison.value), key), now))
  }

  // ---------------------------------------------------------------- rows and their entries

  lemma {:induction false} EntriesOf(rows: seq<GroupRow>, side: Side)
    ensures forall key :: HasKey(Entries(rows, side), key) <==> Listed(rows, side, key)
    ensures forall e :: e in Entries(rows, side) <==> exists i :: 0 <= i < |rows| && rows[i].side == side && e == Entry(rows[i].key, rows[i].value)
    ensures |Entries(rows, Current)| + |Entries(rows, Compared)| == |rows|
  {
    if rows != [] {
      var front, last := rows[..|rows| - 1], rows[|rows| - 1];
      EntriesOf(front, side);
      var entries := Entries(rows, side);
      forall e ensures e in entries <==> exists i :: 0 <= i < |rows| && rows[i].side == side && e == Entry(rows[i].key, rows[i].value) {
        if e in Entries(front, side) {
          var i :| 0 <= i < |front| && front[i].side == side && e == Entry(front[i].key, front[i].value);
          assert rows[i].side == side && e == Entry(rows[i].key, rows[i].value);
        }
        if last.side == side && e == Entry(last.key, last.value) { assert entries[|entries| - 1] == e; }
      }
      forall key ensures HasKey(entries, key) <==> Listed(rows, side, key) {
        if HasKey(entries, key) {
          var i :| 0 <= i < |entries| && entries[i].key == key;
          assert entries[i] in entries;
        }
        if Listed(rows, side, key) {
          var i :| 0 <= i < |rows| && rows[i].side == side && rows[i].key == key;
          assert Entry(rows[i].key, rows[i].value) in entries;
        }
      }
    }
  }

  ghost function KeySet(entries: seq<Entry>): set<Key> { set e | e in entries :: e.key }

  ghost predicate DistinctKeys(entries: seq<Entry>) {
    forall i, j :: 0 <= i < j < |entries| ==> entries[i].key != entries[j].key
  }

  lemma {:induction false} KeySetSize(entries: seq<Entry>)
    requires DistinctKeys(entries)
    ensures |KeySet(entries)| == |entries|
  {
    if entries != [] {
      var front, last := entries[..|entries| - 1], entries[|entries| - 1];
      KeySetSize(front);
      assert entries == front + [last];
      assert KeySet(entries) == KeySet(front) + {last.key};
    }
  }

  lemma {:induction false} EntriesDistinct(rows: seq<GroupRow>, side: Side)
    requires NoRepeats(rows)
    ensures DistinctKeys(Entries(rows, side))
  {
    if rows != [] {
      var front, last := rows[..|rows| - 1], rows[|rows| - 1];
      EntriesDistinct(front, side);
      EntriesOf(front, side);
      var entries := Entries(front, side);
      forall i | 0 <= i < |entries| && last.side == side ensures entries[i].key != last.key {
        assert entries[i] in entries;
      }
    }
  }

  // ---------------------------------------------------------------- the equivalence

  lemma GroupsListed(all: seq<GroupRow>, facts: seq<Fact>, q: Query, side: Side)
    requires Enumerates(all, facts, q)
    ensures forall key :: Listed(all, side, key) <==> Members(facts, q, Grouped(side), key) != []
    ensures NoRepeats(all)
  {
    hide Members, RowFor;
  }

  // When the comparison groups cover their period, no day of it was labelled current.
  lemma CoveredPeriodsDisjoint(facts: seq<Fact>, q: Query, key: Key)
    requires q.comparison.Some? && PeriodsOk(q)
    requires Complete(q, q.comparison.value, Members(facts, q, Grouped(Compared), key))
    ensures Disjoint(q.current, q.comparison.value)
  {
    hide InScope, KeyOf, Defective;
    var members := Members(facts, q, Grouped(Compared), key);
    MembersAre(facts, q, Grouped(Compared), key);
    forall day | Within(q.comparison.value, day) ensures !Within(q.current, day) {
      assert day in Days(members);
      var f :| f in members && f.day == day;
    }
    var later := if q.current.start <= q.comparison.value.start then q.comparison.value.start else q.current.start;
    assert Within(q.comparison.value, later) || Disjoint(q.current, q.comparison.value);
  }

  // Rows are released exactly when the facts of both whole periods are ready. In particular, periods
  // that overlap are never released, and no group can have been lost to the limit.
  lemma ReleasedExactlyWhenReady(facts: seq<Fact>, q: Query, all: seq<GroupRow>, now: Time)
    requires Enumerates(all, facts, q) && PeriodsOk(q)
    ensures Acceptable(q, Limited(all, q), |Limited(all, q)|, now) <==> SourceReady(facts, q, now)
    ensures Acceptable(q, Limited(all, q), |Limited(all, q)|, now) ==> Limited(all, q) == all
  {
    hide Enumerates, RowOk, GroupOk, KeysIn, Members;
    if Acceptable(q, Limited(all, q), |Limited(all, q)|, now) { AcceptedIsReady(facts, q, all, now); }
    if SourceReady(facts, q, now) { ReadyIsAccepted(facts, q, all, now); }
  }

  // Both descriptions of a side's keys, and of how many there are.
  lemma SideKeys(facts: seq<Fact>, q: Query, all: seq<GroupRow>, side: Side, period: Period)
    requires Enumerates(all, facts, q)
    requires forall key :: Members(facts, q, Grouped(side), key) == Members(facts, q, Whole(period), key)
    ensures KeySet(Entries(all, side)) == KeysIn(facts, q, period)
    ensures |Entries(all, side)| == |KeysIn(facts, q, period)|
    ensures forall key :: HasKey(Entries(all, side), key) <==> key in KeysIn(facts, q, period)
  {
    hide Enumerates, KeysIn;
    GroupsListed(all, facts, q, side);
    EntriesOf(all, side);
    EntriesDistinct(all, side);
    KeySetSize(Entries(all, side));
    var entries := Entries(all, side);
    forall key ensures key in KeySet(entries) <==> key in KeysIn(facts, q, period) {
      KeysInAre(facts, q, period, key);
      if HasKey(entries, key) {
        var i :| 0 <= i < |entries| && entries[i].key == key;
        assert entries[i] in entries;
      }
    }
  }

  ghost predicate SideRowsOk(q: Query, all: seq<GroupRow>, side: Side, now: Time) {
    forall i :: 0 <= i < |all| && all[i].side == side ==> RowOk(q, all[i], now)
  }

  ghost predicate SideGroupsOk(facts: seq<Fact>, q: Query, side: Side, now: Time)
    requires PeriodOf(q, side).Some?
  {
    forall key :: Members(facts, q, Grouped(side), key) != [] ==>
      GroupOk(q, PeriodOf(q, side).value, key, Members(facts, q, Grouped(side), key), now)
  }

  lemma RowsOkAre(facts: seq<Fact>, q: Query, all: seq<GroupRow>, side: Side, now: Time)
    requires Enumerates(all, facts, q) && PeriodsOk(q) && PeriodOf(q, side).Some?
    ensures SideRowsOk(q, all, side, now) <==> SideGroupsOk(facts, q, side, now)
  {
    hide RowOk, GroupOk, Members, RowFor;
    forall i | 0 <= i < |all| && all[i].side == side
      ensures RowOk(q, all[i], now)
         <==> GroupOk(q, PeriodOf(q, side).value, all[i].key, Members(facts, q, Grouped(side), all[i].key), now)
    {
      RowOkIs(facts, q, side, all[i].key, now);
    }
    GroupsListed(all, facts, q, side);
    hide Enumerates;
    forall i | 0 <= i < |all| && all[i].side == side ensures Members(facts, q, Grouped(side), all[i].key) != [] {
      assert Listed(all, side, all[i].key);
    }
    if SideRowsOk(q, all, side, now) {
      forall key | Members(facts, q, Grouped(side), key) != []
        ensures GroupOk(q, PeriodOf(q, side).value, key, Members(facts, q, Grouped(side), key), now)
      {
        assert Listed(all, side, key);
        var i :| 0 <= i < |all| && all[i].side == side && all[i].key == key;
        assert RowOk(q, all[i], now);
      }
    }
  }

  lemma CurrentIsWhole(facts: seq<Fact>, q: Query)
    ensures forall key :: Members(facts, q, Grouped(Current), key) == Members(facts, q, Whole(q.current), key)
  {
    forall key ensures Members(facts, q, Grouped(Current), key) == Members(facts, q, Whole(q.current), key) {
      CurrentGroupIsWhole(facts, q, key);
    }
  }

  lemma ComparedIsWhole(facts: seq<Fact>, q: Query)
    requires q.comparison.Some? && Disjoint(q.current, q.comparison.value)
    ensures forall key :: Members(facts, q, Grouped(Compared), key) == Members(facts, q, Whole(q.comparison.value), key)
  {
    forall key ensures Members(facts, q, Grouped(Compared), key) == Members(facts, q, Whole(q.comparison.value), key) {
      ComparedGroupIsWhole(facts, q, key);
    }
  }

  // Without a comparison nothing is labelled as one.
  lemma NothingCompared(facts: seq<Fact>, q: Query, all: seq<GroupRow>)
    requires Enumerates(all, facts, q) && q.comparison.None?
    ensures Entries(all, Compared) == []
  {
    hide Enumerates;
    GroupsListed(all, facts, q, Compared);
    EntriesOf(all, Compared);
    var entries := Entries(all, Compared);
    if entries != [] {
      assert HasKey(entries, entries[0].key);
      NoneLabelled(facts, q, entries[0].key);
    }
  }

  lemma {:induction false} NoneLabelled(facts: seq<Fact>, q: Query, key: Key)
    requires q.comparison.None?
    ensures Members(facts, q, Grouped(Compared), key) == []
  {
    hide KeyOf, InScope;
    if facts != [] { NoneLabelled(facts[..|facts| - 1], q, key); }
  }

  lemma AcceptedDisjoint(facts: seq<Fact>, q: Query, all: seq<GroupRow>, now: Time)
    requires Enumerates(all, facts, q) && PeriodsOk(q) && q.comparison.Some?
    requires forall i :: 0 <= i < |all| ==> RowOk(q, all[i], now)
    requires Entries(all, Current) != [] && SameKeys(Entries(all, Current), Entries(all, Compared))
    ensures Disjoint(q.current, q.comparison.value)
  {
    hide Enumerates, RowOk, Members;
    var key := Entries(all, Current)[0].key;
    assert HasKey(Entries(all, Current), key);
    EntriesOf(all, Compared);
    GroupsListed(all, facts, q, Compared);
    RowsOkAre(facts, q, all, Compared, now);
    CoveredPeriodsDisjoint(facts, q, key);
  }

  lemma AcceptedIsReady(facts: seq<Fact>, q: Query, all: seq<GroupRow>, now: Time)
    requires Enumerates(all, facts, q) && PeriodsOk(q)
    requires Acceptable(q, Limited(all, q), |Limited(all, q)|, now)
    ensures SourceReady(facts, q, now) && Limited(all, q) == all
  {
    hide Enumerates, RowOk, GroupOk, KeysIn, Members, Disjoint;
    AcceptedSide(facts, q, all, Current, now);
    if q.comparison.Some? {
      AcceptedDisjoint(facts, q, all, now);
      AcceptedSide(facts, q, all, Compared, now);
      assert KeysIn(facts, q, q.comparison.value) == KeysIn(facts, q, q.current);
    }
  }

  lemma AcceptedSide(facts: seq<Fact>, q: Query, all: seq<GroupRow>, side: Side, now: Time)
    requires Enumerates(all, facts, q) && PeriodsOk(q) && PeriodOf(q, side).Some?
    requires side == Compared ==> Disjoint(q.current, q.comparison.value)
    requires forall i :: 0 <= i < |all| ==> RowOk(q, all[i], now)
    ensures |Entries(all, side)| == |KeysIn(facts, q, PeriodOf(q, side).value)|
    ensures forall key :: HasKey(Entries(all, side), key) <==> key in KeysIn(facts, q, PeriodOf(q, side).value)
    ensures forall key :: key in KeysIn(facts, q, PeriodOf(q, side).value) ==>
              GroupOk(q, PeriodOf(q, side).value, key, Members(facts, q, Whole(PeriodOf(q, side).value), key), now)
  {
    hide Enumerates, RowOk, GroupOk, KeysIn, Members, KeySet;
    if side == Current { CurrentIsWhole(facts, q); } else { ComparedIsWhole(facts, q); }
    var period := PeriodOf(q, side).value;
    SideKeys(facts, q, all, side, period);
    RowsOkAre(facts, q, all, side, now);
    forall key | key in KeysIn(facts, q, period) ensures GroupOk(q, period, key, Members(facts, q, Whole(period), key), now) {
      KeysInAre(facts, q, period, key);
    }
  }

  lemma ReadyIsAccepted(facts: seq<Fact>, q: Query, all: seq<GroupRow>, now: Time)
    requires Enumerates(all, facts, q) && PeriodsOk(q) && SourceReady(facts, q, now)
    ensures Acceptable(q, Limited(all, q), |Limited(all, q)|, now)
  {
    hide Enumerates, RowOk, GroupOk, KeysIn, Members, KeySet;
    CurrentIsWhole(facts, q);
    SideKeys(facts, q, all, Current, q.current);
    GroupsListed(all, facts, q, Current);
    EntriesOf(all, Current);
    ReadySide(facts, q, all, Current, now);
    if q.comparison.Some? {
      ComparedIsWhole(facts, q);
      SideKeys(facts, q, all, Compared, q.comparison.value);
      ReadySide(facts, q, all, Compared, now);
    } else {
      NothingCompared(facts, q, all);
      NoRowsCompared(all);
    }
    assert Limited(all, q) == all;
  }

  lemma NoRowsCompared(all: seq<GroupRow>)
    requires Entries(all, Compared) == []
    ensures forall i :: 0 <= i < |all| ==> all[i].side == Current
  {
    EntriesOf(all, Compared);
    hide Entries;
    forall i | 0 <= i < |all| ensures all[i].side == Current {
      assert !HasKey(Entries(all, Compared), all[i].key);
      assert !Listed(all, Compared, all[i].key);
    }
  }

  lemma ReadySide(facts: seq<Fact>, q: Query, all: seq<GroupRow>, side: Side, now: Time)
    requires Enumerates(all, facts, q) && PeriodsOk(q) && SourceReady(facts, q, now) && PeriodOf(q, side).Some?
    ensures forall i :: 0 <= i < |all| && all[i].side == side ==> RowOk(q, all[i], now)
  {
    hide Enumerates, RowOk, GroupOk, KeysIn, Members;
    CurrentIsWhole(facts, q);
    if side == Compared { ComparedIsWhole(facts, q); }
    RowsOkAre(facts, q, all, side, now);
    forall key ensures key in KeysIn(facts, q, PeriodOf(q, side).value) <==> Members(facts, q, Whole(PeriodOf(q, side).value), key) != [] {
      KeysInAre(facts, q, PeriodOf(q, side).value, key);
    }
  }
}
