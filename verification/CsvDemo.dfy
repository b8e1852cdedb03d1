/** The uploaded-CSV form of a period query: one query per period instead of one labelled scan. */
module CsvDemo {
  import opened Runs
  import opened PeriodQuery
  import opened Merging
  import opened BigQuery

  datatype PeriodRow = PeriodRow(entry: Entry, observed: nat)

  // What the import guarantees: every row has an amount and an update time, and `dates` are the days that occur.
  ghost predicate Imported(facts: seq<Fact>, dates: set<int>) {
    dates == Days(facts) && forall f :: f in facts ==> f.amount.Some? && f.snapshot.Some?
  }

  function RowOf(facts: seq<Fact>, q: Query, period: Period, key: Key): PeriodRow {
    var members := Members(facts, q, Whole(period), key);
    PeriodRow(Entry(key, Aggregate(Sum, members)), |Days(members)|)
  }

  predicate Present(all: seq<PeriodRow>, key: Key) {
    exists i :: 0 <= i < |all| && all[i].entry.key == key
  }

  // Without dimensions there is no GROUP BY: one row comes back even when no fact matches.
  ghost predicate Grouping(all: seq<PeriodRow>, facts: seq<Fact>, q: Query, period: Period) {
    && (forall i :: 0 <= i < |all| ==>
          && all[i] == RowOf(facts, q, period, all[i].entry.key)
          && (q.dimensions == [] ==> all[i].entry.key == [])
          && (q.dimensions != [] ==> Members(facts, q, Whole(period), all[i].entry.key) != []))
    && (forall i, j :: 0 <= i < j < |all| ==> all[i].entry.key != all[j].entry.key)
    && (q.dimensions == [] ==> |all| == 1)
    && (forall key :: Members(facts, q, Whole(period), key) != [] ==> Present(all, key))
  }

  function Fetched(all: seq<PeriodRow>, q: Query): seq<PeriodRow> {
    if |all| <= q.rowLimit + 1 then all else all[..q.rowLimit + 1]
  }

  function EntriesIn(rows: seq<PeriodRow>): (entries: seq<Entry>)
    ensures |entries| == |rows| && forall i :: 0 <= i < |rows| ==> entries[i] == rows[i].entry
  {
    seq(|rows|, i requires 0 <= i < |rows| => rows[i].entry)
  }

  ghost predicate RowsOk(q: Query, period: Period, rows: seq<PeriodRow>) {
    && 0 < |rows| <= q.rowLimit
    && forall i :: 0 <= i < |rows| ==>
         && (rows[i].observed == 0 || rows[i].observed == period.end - period.start + 1)
         && rows[i].entry.value.Some?
  }

  method Any<T(==)>(items: set<T>) returns (item: T)
    requires items != {}
    ensures item in items
  {
    item :| item in items;
  }

  // At least one row for every requested day.
  method CheckCoverage(dates: set<int>, period: Period) returns (covered: bool)
    requires period.start <= period.end
    ensures covered <==> DaysOf(period) <= dates
  {
    var rest, present := dates, 0;
    while rest != {}
      invariant rest <= dates && present == |DaysOf(period) * (dates - rest)|
      decreases |rest|
    {
      var day := Any(rest);
      if Within(period, day) {
        assert DaysOf(period) * (dates - (rest - {day})) == DaysOf(period) * (dates - rest) + {day};
        present := present + 1;
      } else {
        assert DaysOf(period) * (dates - (rest - {day})) == DaysOf(period) * (dates - rest);
      }
      rest := rest - {day};
    }
    covered := present == period.end - period.start + 1;
    PeriodSize(period);
    assert dates - rest == dates;
    assert DaysOf(period) <= dates <==> DaysOf(period) * dates == DaysOf(period);
    if covered {
      SubsetOfSameSize(DaysOf(period) * dates, DaysOf(period));
    }
  }

  method QueryPeriod(q: Query, period: Period, rows: seq<PeriodRow>) returns (fault: Option<Reason>)
    ensures fault.None? <==> RowsOk(q, period, rows)
  {
    if |rows| > q.rowLimit {
      return Some(Truncated);
    }
    for i := 0 to |rows|
      invariant forall j :: 0 <= j < i ==> rows[j].observed == 0 || rows[j].observed == period.end - period.start + 1
    {
      if rows[i].observed != 0 && rows[i].observed != period.end - period.start + 1 {
        return Some(NotReady);
      }
    }
    if |rows| == 0 || exists i :: 0 <= i < |rows| && rows[i].entry.value.None? {
      return Some(NotReady);
    }
    return None;
  }

  // `answer` is what the engine returns for each period.
  method Execute(q: Query, dates: set<int>, current: seq<PeriodRow>, compared: seq<PeriodRow>) returns (result: Option<seq<ResultRow>>)
    requires PeriodsOk(q)
    ensures result.Some? <==> CsvAccepts(q, dates, current, compared)
    ensures result.Some? ==> result.value == Merged(EntriesIn(current), if q.comparison.Some? then EntriesIn(compared) else [])
  {
    hide RowsOk, DaysOf;
    var covered := CheckCoverage(dates, q.current);
    if !covered {
      return None;
    }
    if q.comparison.Some? {
      covered := CheckCoverage(dates, q.comparison.value);
      if !covered {
        return None;
      }
    }
    var fault := QueryPeriod(q, q.current, current);
    if fault.Some? {
      return None;
    }
    if q.comparison.None? {
      var rows := Merge(EntriesIn(current), []);
      return Some(rows);
    }
    fault := QueryPeriod(q, q.comparison.value, compared);
    if fault.Some? {
      return None;
    }
    SameKeysAre(EntriesIn(current), EntriesIn(compared));
    if !SameKeySets(EntriesIn(current), EntriesIn(compared)) {
      return None;
    }
    var rows := Merge(EntriesIn(current), EntriesIn(compared));
    return Some(rows);
  }

  ghost predicate CsvAccepts(q: Query, dates: set<int>, current: seq<PeriodRow>, compared: seq<PeriodRow>) {
    && DaysOf(q.current) <= dates && RowsOk(q, q.current, current)
    && (q.comparison.Some? ==>
          && DaysOf(q.comparison.value) <= dates && RowsOk(q, q.comparison.value, compared)
          && SameKeys(EntriesIn(current), EntriesIn(compared)))
  }

  // ---------------------------------------------------------------- what acceptance means for the facts

  ghost predicate PeriodReady(facts: seq<Fact>, q: Query, period: Period) {
    && 0 < |KeysIn(facts, q, period)| <= q.rowLimit
    && forall key :: key in KeysIn(facts, q, period) ==> DaysOf(period) <= Days(Members(facts, q, Whole(period), key))
  }

  lemma {:induction false} SumOfNone(values: seq<Option<real>>)
    requires forall v :: v in values ==> v.Some?
    ensures SumOf(values).Some? <==> values != []
  {
    if values != [] { SumOfNone(values[..|values| - 1]); }
  }

  lemma RowOfIs(facts: seq<Fact>, q: Query, period: Period, key: Key, dates: set<int>)
    requires Imported(facts, dates) && period.start <= period.end
    ensures var members, row := Members(facts, q, Whole(period), key), RowOf(facts, q, period, key);
            && (row.entry.value.Some? <==> members != [])
            && (row.observed == 0 <==> members == [])
            && (members != [] ==> (row.observed == period.end - period.start + 1 <==> DaysOf(period) <= Days(members)))
  {
    hide KeyOf, InScope;
    MembersAre(facts, q, Whole(period), key);
    var members := Members(facts, q, Whole(period), key);
    forall v | v in Amounts(members) ensures v.Some? {
      var i :| 0 <= i < |members| && members[i].amount == v;
      assert members[i] in members;
    }
    SumOfNone(Amounts(members));
    if members != [] { assert members[0].day in Days(members); }
    PeriodSize(period);
    assert Days(members) <= DaysOf(period);
    if |Days(members)| == |DaysOf(period)| { SubsetOfSameSize(Days(members), DaysOf(period)); }
    if DaysOf(period) <= Days(members) { assert Days(members) == DaysOf(period); }
  }

  ghost function RowKeys(rows: seq<PeriodRow>): set<Key> { set i | 0 <= i < |rows| :: rows[i].entry.key }

  lemma {:induction false} RowKeysSize(rows: seq<PeriodRow>)
    requires forall i, j :: 0 <= i < j < |rows| ==> rows[i].entry.key != rows[j].entry.key
    ensures |RowKeys(rows)| == |rows|
  {
    if rows != [] {
      var front := rows[..|rows| - 1];
      RowKeysSize(front);
      assert RowKeys(rows) == RowKeys(front) + {rows[|rows| - 1].entry.key};
    }
  }

  // One query's rows are accepted exactly when every group of the period covers every day; then they
  // are one row per group, each with the aggregate of its whole period.
  lemma AcceptedIsReady(facts: seq<Fact>, q: Query, period: Period, all: seq<PeriodRow>, dates: set<int>)
    requires Imported(facts, dates) && Grouping(all, facts, q, period) && period.start <= period.end
    ensures RowsOk(q, period, Fetched(all, q)) <==> PeriodReady(facts, q, period)
    ensures RowsOk(q, period, Fetched(all, q)) ==>
              Fetched(all, q) == all && RowKeys(all) == KeysIn(facts, q, period) && |all| == |KeysIn(facts, q, period)|
  {
    hide Members, RowOf, KeysIn, DaysOf;
    RowKeysSize(all);
    forall i | 0 <= i < |all| ensures SoundRow(facts, q, period, all[i]) { RowOfIs(facts, q, period, all[i].entry.key, dates); }
    forall key ensures key in KeysIn(facts, q, period) <==> Members(facts, q, Whole(period), key) != [] { KeysInAre(facts, q, period, key); }
    GroupKeys(facts, q, period, all);
    if RowsOk(q, period, Fetched(all, q)) {
      assert RowKeys(all) == KeysIn(facts, q, period);
      forall key | key in KeysIn(facts, q, period) ensures DaysOf(period) <= Days(Members(facts, q, Whole(period), key)) {
        var i :| 0 <= i < |all| && all[i].entry.key == key;
      }
    }
    if PeriodReady(facts, q, period) {
      assert RowKeys(all) == KeysIn(facts, q, period);
    }
  }

  ghost predicate SoundRow(facts: seq<Fact>, q: Query, period: Period, row: PeriodRow) {
    var members := Members(facts, q, Whole(period), row.entry.key);
    && (row.entry.value.Some? <==> members != [])
    && (row.observed == 0 <==> members == [])
    && (members != [] ==> (row.observed == period.end - period.start + 1 <==> DaysOf(period) <= Days(members)))
  }

  lemma GroupKeys(facts: seq<Fact>, q: Query, period: Period, all: seq<PeriodRow>)
    requires Grouping(all, facts, q, period)
    ensures KeysIn(facts, q, period) <= RowKeys(all)
    ensures (forall i :: 0 <= i < |all| ==> Members(facts, q, Whole(period), all[i].entry.key) != []) ==> RowKeys(all) == KeysIn(facts, q, period)
    ensures KeysIn(facts, q, period) != {} ==> RowKeys(all) == KeysIn(facts, q, period)
  {
    hide Members, RowOf, KeysIn;
    forall key ensures key in KeysIn(facts, q, period) <==> Members(facts, q, Whole(period), key) != [] { KeysInAre(facts, q, period, key); }
    forall key | key in KeysIn(facts, q, period) ensures key in RowKeys(all) {
      assert Present(all, key);
    }
    if KeysIn(facts, q, period) != {} && q.dimensions == [] {
      var key :| key in KeysIn(facts, q, period);
      assert Present(all, key);
    }
  }

  // A released answer: one row per group, its values those of its own two whole periods, even where
  // the periods overlap; and it is released exactly when the facts of both periods are ready.
  lemma CsvAnswersWholePeriods(facts: seq<Fact>, q: Query, current: seq<PeriodRow>, compared: seq<PeriodRow>, dates: set<int>)
    requires Imported(facts, dates) && PeriodsOk(q) && q.aggregation == Sum && Grouping(current, facts, q, q.current)
    requires q.comparison.Some? ==> Grouping(compared, facts, q, q.comparison.value)
    ensures CsvAccepts(q, dates, Fetched(current, q), Fetched(compared, q)) <==> CsvReady(facts, q)
    ensures CsvReady(facts, q) ==>
              var rows := Merged(EntriesIn(Fetched(current, q)), if q.comparison.Some? then EntriesIn(Fetched(compared, q)) else []);
              && |rows| == |KeysIn(facts, q, q.current)|
              && (forall i, j :: 0 <= i < j < |rows| ==> rows[i].key != rows[j].key)
              && (forall i :: 0 <= i < |rows| ==> RowTells(facts, q, rows[i]))
  {
    hide Grouping, RowsOk, PeriodReady, Imported, RowTells, KeysIn;
    AcceptedIsReady(facts, q, q.current, current, dates);
    Covers(facts, q, q.current, dates);
    if q.comparison.Some? {
      AcceptedIsReady(facts, q, q.comparison.value, compared, dates);
      Covers(facts, q, q.comparison.value, dates);
      SameKeysAreSameGroups(current, compared);
    }
    if CsvReady(facts, q) { CsvRows(facts, q, current, compared, dates); }
  }

  ghost predicate CsvReady(facts: seq<Fact>, q: Query) {
    && PeriodReady(facts, q, q.current)
    && (q.comparison.Some? ==> PeriodReady(facts, q, q.comparison.value) && KeysIn(facts, q, q.comparison.value) == KeysIn(facts, q, q.current))
  }

  lemma SameKeysAreSameGroups(a: seq<PeriodRow>, b: seq<PeriodRow>)
    ensures SameKeys(EntriesIn(a), EntriesIn(b)) <==> RowKeys(a) == RowKeys(b)
  {
    forall key, rows: seq<PeriodRow> ensures HasKey(EntriesIn(rows), key) <==> key in RowKeys(rows) {
      if key in RowKeys(rows) {
        var i :| 0 <= i < |rows| && rows[i].entry.key == key;
        assert EntriesIn(rows)[i].key == key;
      }
    }
    if SameKeys(EntriesIn(a), EntriesIn(b)) {
      forall key ensures key in RowKeys(a) <==> key in RowKeys(b) {
        assert HasKey(EntriesIn(a), key) <==> HasKey(EntriesIn(b), key);
      }
    }
  }

  lemma CsvRows(facts: seq<Fact>, q: Query, current: seq<PeriodRow>, compared: seq<PeriodRow>, dates: set<int>)
    requires Imported(facts, dates) && PeriodsOk(q) && q.aggregation == Sum && Grouping(current, facts, q, q.current)
    requires q.comparison.Some? ==> Grouping(compared, facts, q, q.comparison.value)
    requires CsvReady(facts, q)
    ensures var rows := Merged(EntriesIn(Fetched(current, q)), if q.comparison.Some? then EntriesIn(Fetched(compared, q)) else []);
            && |rows| == |KeysIn(facts, q, q.current)|
            && (forall i, j :: 0 <= i < j < |rows| ==> rows[i].key != rows[j].key)
            && (forall i :: 0 <= i < |rows| ==> RowTells(facts, q, rows[i]))
  {
    hide RowTells, KeysIn, RowsOk, PeriodReady, Imported, MergedRow;
    AcceptedIsReady(facts, q, q.current, current, dates);
    if q.comparison.Some? { AcceptedIsReady(facts, q, q.comparison.value, compared, dates); }
    var others := if q.comparison.Some? then EntriesIn(compared) else [];
    AllValues(q, q.current, current);
    MergedRows(EntriesIn(current), others);
    forall i | 0 <= i < |current|
      ensures MergedRow(current[i].entry, others).key == current[i].entry.key && RowTells(facts, q, MergedRow(current[i].entry, others))
    {
      assert current[i].entry.key in RowKeys(current);
      CsvRowTells(facts, q, current[i], compared, dates);
    }
  }

  lemma AllValues(q: Query, period: Period, rows: seq<PeriodRow>)
    requires RowsOk(q, period, rows)
    ensures forall e :: e in EntriesIn(rows) ==> e.value.Some?
  {
  }

  lemma CsvRowTells(facts: seq<Fact>, q: Query, row: PeriodRow, compared: seq<PeriodRow>, dates: set<int>)
    requires Imported(facts, dates) && PeriodsOk(q) && q.aggregation == Sum && CsvReady(facts, q)
    requires row.entry.key in KeysIn(facts, q, q.current) && row == RowOf(facts, q, q.current, row.entry.key) && row.entry.value.Some?
    requires q.comparison.Some? ==> Grouping(compared, facts, q, q.comparison.value) && RowKeys(compared) == KeysIn(facts, q, q.comparison.value)
    ensures var others := if q.comparison.Some? then EntriesIn(compared) else [];
            var merged := MergedRow(row.entry, others);
            merged.key == row.entry.key && RowTells(facts, q, merged)
  {
    hide KeysIn, Members, Aggregate, Imported, Complete, PeriodReady, Grouping;
    var key := row.entry.key;
    WholeGroup(facts, q, q.current, key, dates);
    if q.comparison.Some? {
      WholeGroup(facts, q, q.comparison.value, key, dates);
      ComparedValue(facts, q, q.comparison.value, compared, key);
    }
  }

  lemma ComparedValue(facts: seq<Fact>, q: Query, period: Period, compared: seq<PeriodRow>, key: Key)
    requires Grouping(compared, facts, q, period) && key in RowKeys(compared)
    ensures Lookup(EntriesIn(compared), key) == Aggregate(Sum, Members(facts, q, Whole(period), key))
  {
    hide Members, Aggregate;
    var i :| 0 <= i < |compared| && compared[i].entry.key == key;
    assert EntriesIn(compared)[i] == compared[i].entry;
    LookupIs(EntriesIn(compared), key, compared[i].entry.value);
  }

  lemma WholeGroup(facts: seq<Fact>, q: Query, period: Period, key: Key, dates: set<int>)
    requires Imported(facts, dates) && period.start <= period.end && q.aggregation == Sum
    requires PeriodReady(facts, q, period) && key in KeysIn(facts, q, period)
    ensures var members := Members(facts, q, Whole(period), key);
            Complete(q, period, members) && Aggregate(Sum, members).Some?
  {
    hide KeyOf, InScope, KeysIn, DaysOf;
    KeysInAre(facts, q, period, key);
    MembersAre(facts, q, Whole(period), key);
    RowOfIs(facts, q, period, key, dates);
    InPeriod(period);
  }

  lemma InPeriod(period: Period)
    ensures forall day :: Within(period, day) <==> day in DaysOf(period)
  {
  }

  // The coverage check refuses nothing that the groups themselves would pass.
  lemma Covers(facts: seq<Fact>, q: Query, period: Period, dates: set<int>)
    requires Imported(facts, dates)
    ensures PeriodReady(facts, q, period) ==> DaysOf(period) <= dates
  {
    hide KeysIn, KeyOf, InScope, DaysOf;
    if PeriodReady(facts, q, period) {
      var key :| key in KeysIn(facts, q, period);
      MembersAre(facts, q, Whole(period), key);
    }
  }
}
