/** The result checks of the warehouse connector, and what a released result is worth. */
module BigQuery {
  import opened Runs
  import opened PeriodQuery
  import opened Merging

  datatype Reason = Truncated | UnexpectedPeriod | NotReady | InvalidDimension | NonFiniteOrDuplicate | NotExact

  datatype Result = Released(rows: seq<ResultRow>, snapshot: Time) | Rejected(reason: Reason)

  // Why a row is refused before its key is looked up, if it is.
  function RowFault(q: Query, row: GroupRow): Option<Reason> {
    if PeriodOf(q, row.side).None? then Some(UnexpectedPeriod)
    else
      var period := PeriodOf(q, row.side).value;
      if row.start != period.start || row.end != period.end || row.days != period.end - period.start + 1 || row.invalid != 0 then Some(NotReady)
      else if !KeyOk(row.key) then Some(InvalidDimension)
      else if row.value.None? then Some(NotReady)
      else None
  }

  // And why afterwards.
  function ValueFault(q: Query, row: GroupRow, now: Time): Option<Reason>
    requires row.value.Some?
  {
    if q.integer && !(Integral(row.value.value) && -EXACT <= row.value.value <= EXACT) then Some(NotExact)
    else if row.snapshot.None? || row.snapshot.value > now then Some(NotReady)
    else None
  }

  lemma FaultsAre(q: Query, row: GroupRow, now: Time)
    ensures RowFault(q, row).None? ==> row.value.Some?
    ensures RowFault(q, row).None? && ValueFault(q, row, now).None? <==> RowOk(q, row, now)
  {
  }

  // The rows seen so far are all sound, and `groups` and `snapshots` hold exactly what they contributed.
  ghost predicate Seen(q: Query, rows: seq<GroupRow>, now: Time, current: seq<Entry>, compared: seq<Entry>) {
    && (forall i :: 0 <= i < |rows| ==> RowOk(q, rows[i], now))
    && NoRepeats(rows)
    && current == Entries(rows, Current) && compared == Entries(rows, Compared)
  }

  // The update time of one of the rows, and none of them is newer.
  ghost predicate Newest(rows: seq<GroupRow>, time: Time) {
    && (forall i :: 0 <= i < |rows| ==> rows[i].snapshot.Some? && rows[i].snapshot.value <= time)
    && exists i :: 0 <= i < |rows| && rows[i].snapshot == Some(time)
  }

  lemma NewestNext(rows: seq<GroupRow>, i: nat, newest: Time)
    requires i < |rows| && rows[i].snapshot.Some? && (i == 0 || Newest(rows[..i], newest))
    ensures Newest(rows[..i + 1], if i == 0 || rows[i].snapshot.value > newest then rows[i].snapshot.value else newest)
  {
    var more, time := rows[..i + 1], rows[i].snapshot.value;
    assert more[i] == rows[i] && forall j :: 0 <= j < i ==> more[j] == rows[..i][j];
    if i > 0 && time <= newest {
      var j :| 0 <= j < i && rows[..i][j].snapshot == Some(newest);
      assert more[j].snapshot == Some(newest);
    }
  }

  // The rows arrive in any order; `total` is what the transport says it fetched.
  method ValidateRows(q: Query, rows: seq<GroupRow>, total: nat, now: Time) returns (result: Result)
    ensures result.Released? <==> Acceptable(q, rows, total, now)
    ensures result.Released? ==> result.rows == Merged(Entries(rows, Current), Entries(rows, Compared))
    ensures result.Released? ==> Newest(rows, result.snapshot) && result.snapshot <= now
  {
    hide RowOk, RowFault, ValueFault, Seen, Acceptable, NoRepeats, Entries, Newest;
    AcceptableIs(q, rows, total, now);
    if total != |rows| || |rows| >= MaximumRows(q) {
      return Rejected(Truncated);
    }
    var current: seq<Entry>, compared: seq<Entry> := [], [];
    var newest := now;
    SeenNothing(q, rows, now);
    for i := 0 to |rows|
      invariant Seen(q, rows[..i], now, current, compared)
      invariant newest <= now && (i == 0 || Newest(rows[..i], newest))
    {
      var row := rows[i];
      FaultsAre(q, row, now);
      var fault := RowFault(q, row);
      if fault.Some? {
        return Rejected(fault.value);
      }
      SeenMore(q, rows, i, now, current, compared);
      if HasKey(if row.side == Current then current else compared, row.key) {
        return Rejected(NonFiniteOrDuplicate);
      }
      fault := ValueFault(q, row, now);
      if fault.Some? {
        return Rejected(fault.value);
      }
      if row.side == Current {
        current := current + [Entry(row.key, row.value)];
      } else {
        compared := compared + [Entry(row.key, row.value)];
      }
      RowHasSnapshot(q, row, now);
      NewestNext(rows, i, newest);
      newest := if i == 0 || row.snapshot.value > newest then row.snapshot.value else newest;
    }
    SeenAll(q, rows, now, current, compared);
    assert rows[..|rows|] == rows && (rows == [] ==> current == []);
    SameKeysAre(current, compared);
    if |current| == 0 || (q.comparison.Some? && !SameKeySets(current, compared)) {
      return Rejected(NotReady);
    }
    if |current| > q.rowLimit {
      return Rejected(Truncated);
    }
    var merged := Merge(current, compared);
    return Released(merged, newest);
  }

  lemma AcceptableIs(q: Query, rows: seq<GroupRow>, total: nat, now: Time)
    ensures Acceptable(q, rows, total, now) <==>
      && total == |rows| < MaximumRows(q)
      && (forall i :: 0 <= i < |rows| ==> RowOk(q, rows[i], now)) && NoRepeats(rows)
      && 0 < |Entries(rows, Current)| <= q.rowLimit
      && (q.comparison.Some? ==> SameKeys(Entries(rows, Current), Entries(rows, Compared)))
  {
  }

  lemma SeenNothing(q: Query, rows: seq<GroupRow>, now: Time)
    ensures Seen(q, rows[..0], now, [], [])
  {
  }

  // One more row either repeats a group or is the first of its own.
  lemma SeenMore(q: Query, rows: seq<GroupRow>, i: nat, now: Time, current: seq<Entry>, compared: seq<Entry>)
    requires i < |rows| && Seen(q, rows[..i], now, current, compared)
    ensures var row := rows[i];
            var entries := if row.side == Current then current else compared;
            var more := [Entry(row.key, row.value)];
            && (HasKey(entries, row.key) ==> !NoRepeats(rows))
            && (!HasKey(entries, row.key) && RowOk(q, row, now) ==>
                  if row.side == Current then Seen(q, rows[..i + 1], now, current + more, compared)
                  else Seen(q, rows[..i + 1], now, current, compared + more))
  {
    hide RowOk, Entries, HasKey, NoRepeats;
    Extend(rows, i);
    if HasKey(if rows[i].side == Current then current else compared, rows[i].key) {
      Repeated(rows, i);
    } else {
      StillDistinct(rows, i);
    }
  }

  lemma SeenAll(q: Query, rows: seq<GroupRow>, now: Time, current: seq<Entry>, compared: seq<Entry>)
    requires Seen(q, rows[..|rows|], now, current, compared)
    ensures (forall i :: 0 <= i < |rows| ==> RowOk(q, rows[i], now)) && NoRepeats(rows)
    ensures current == Entries(rows, Current) && compared == Entries(rows, Compared)
  {
    assert rows[..|rows|] == rows;
  }

  lemma RowHasSnapshot(q: Query, row: GroupRow, now: Time)
    requires RowOk(q, row, now)
    ensures row.snapshot.Some? && row.snapshot.value <= now
  {
  }

  predicate SameKeySets(a: seq<Entry>, b: seq<Entry>) {
    && (forall i :: 0 <= i < |a| ==> HasKey(b, a[i].key))
    && (forall i :: 0 <= i < |b| ==> HasKey(a, b[i].key))
  }

  lemma SameKeysAre(a: seq<Entry>, b: seq<Entry>)
    ensures SameKeySets(a, b) <==> SameKeys(a, b)
  {
    if SameKeys(a, b) {
      forall i | 0 <= i < |a| ensures HasKey(b, a[i].key) { assert HasKey(a, a[i].key); }
      forall i | 0 <= i < |b| ensures HasKey(a, b[i].key) { assert HasKey(b, b[i].key); }
    }
  }

  lemma Extend(rows: seq<GroupRow>, i: nat)
    requires i < |rows|
    ensures rows[..i + 1][..i] == rows[..i]
    ensures forall side :: Entries(rows[..i + 1], side)
                        == Entries(rows[..i], side) + if rows[i].side == side then [Entry(rows[i].key, rows[i].value)] else []
  {
    assert rows[..i + 1][..i] == rows[..i];
  }

  lemma Repeated(rows: seq<GroupRow>, i: nat)
    requires i < |rows| && HasKey(Entries(rows[..i], rows[i].side), rows[i].key)
    ensures !NoRepeats(rows)
  {
    EntriesOf(rows[..i], rows[i].side);
    assert Listed(rows[..i], rows[i].side, rows[i].key);
    var j :| 0 <= j < i && rows[..i][j].side == rows[i].side && rows[..i][j].key == rows[i].key;
    assert rows[j].side == rows[i].side;
  }

  lemma StillDistinct(rows: seq<GroupRow>, i: nat)
    requires i < |rows| && NoRepeats(rows[..i]) && !HasKey(Entries(rows[..i], rows[i].side), rows[i].key)
    ensures NoRepeats(rows[..i + 1])
  {
    EntriesOf(rows[..i], rows[i].side);
    forall j | 0 <= j < i ensures rows[j].side != rows[i].side || rows[j].key != rows[i].key {
      assert rows[..i][j] == rows[j];
    }
  }

  // What a released row says: its values are those of its own two whole periods.
  ghost predicate RowTells(facts: seq<Fact>, q: Query, row: ResultRow) {
    && row.key in KeysIn(facts, q, q.current)
    && Some(row.value) == Aggregate(q.aggregation, Members(facts, q, Whole(q.current), row.key))
    && Complete(q, q.current, Members(facts, q, Whole(q.current), row.key))
    && (row.change.Some? <==> q.comparison.Some?)
    && (q.comparison.Some? ==>
          && Complete(q, q.comparison.value, Members(facts, q, Whole(q.comparison.value), row.key))
          && Some(row.change.value.value) == Aggregate(q.aggregation, Members(facts, q, Whole(q.comparison.value), row.key))
          && var before := row.change.value.value;
             && row.change.value.absolute == row.value - before
             && (row.change.value.percent.None? <==> before == 0.0)
             && (before > 0.0 ==> row.change.value.percent == Some((row.value - before) / before))
             && (before < 0.0 ==> row.change.value.percent == Some((row.value - before) / -before)))
  }

  // The released rows, one per group that has an in-scope fact in the current period, each telling
  // both whole periods; all of it from one scan, and only when the source is ready.
  lemma ReleasedRowsAreWholePeriods(facts: seq<Fact>, q: Query, all: seq<GroupRow>, now: Time)
    requires Enumerates(all, facts, q) && PeriodsOk(q)
    requires Acceptable(q, Limited(all, q), |Limited(all, q)|, now)
    ensures SourceReady(facts, q, now)
    ensures var rows := Merged(Entries(Limited(all, q), Current), Entries(Limited(all, q), Compared));
            && (forall i :: 0 <= i < |rows| ==> RowTells(facts, q, rows[i]))
            && (forall i, j :: 0 <= i < j < |rows| ==> rows[i].key != rows[j].key)
            && |rows| == |KeysIn(facts, q, q.current)|
  {
    hide Enumerates, KeysIn, Members, Acceptable, RowTells, Aggregate, SourceReady, KeySet, Merged, MergedRow, Entries, NoRepeats;
    ReleasedExactlyWhenReady(facts, q, all, now);
    var current, compared := Entries(all, Current), Entries(all, Compared);
    CurrentIsWhole(facts, q);
    SideKeys(facts, q, all, Current, q.current);
    GroupsListed(all, facts, q, Current);
    EntriesDistinct(all, Current);
    forall e | e in current ensures e.value.Some? { EntryTells(facts, q, all, e, now); }
    MergedRows(current, compared);
    forall i | 0 <= i < |current|
      ensures RowTells(facts, q, MergedRow(current[i], compared)) && MergedRow(current[i], compared).key == current[i].key
    {
      assert current[i] in current;
      MergedKey(current[i], compared);
      MergedTells(facts, q, all, current[i], now);
    }
  }

  // A fact of one of the two whole periods that were asked for.
  predicate Asked(q: Query, f: Fact) {
    InScope(q.scope, f) && (Within(q.current, f.day) || (q.comparison.Some? && Within(q.comparison.value, f.day)))
  }

  // The reported time is that of a fact the released values were computed from, and none of those facts,
  // in either period, is newer.
  lemma ReportedTimeIsNewest(facts: seq<Fact>, q: Query, all: seq<GroupRow>, now: Time, time: Time)
    requires Enumerates(all, facts, q) && PeriodsOk(q)
    requires Acceptable(q, Limited(all, q), |Limited(all, q)|, now) && Newest(Limited(all, q), time)
    ensures forall f :: f in facts && Asked(q, f) ==> f.snapshot.Some? && f.snapshot.value <= time
    ensures exists f :: f in facts && Asked(q, f) && f.snapshot == Some(time)
  {
    hide Acceptable, Newest, Enumerates;
    NothingLimited(q, all, now);
    forall i | 0 <= i < |all| ensures all[i].snapshot.Some? && all[i].snapshot.value <= time && all[i].invalid == 0 {
      RowTime(facts, q, all, now, time, i);
    }
    forall f | f in facts && Asked(q, f) ensures f.snapshot.Some? && f.snapshot.value <= time {
      var i := GroupOf(facts, q, all, f);
      TimesOfRow(facts, q, all, i, time);
    }
    var i := NewestRow(all, time);
    assert 0 <= i < |all| && all[i].snapshot == Some(time);
    TimesOfRow(facts, q, all, i, time);
  }

  // Nothing was cut off.
  lemma NothingLimited(q: Query, all: seq<GroupRow>, now: Time)
    requires Acceptable(q, Limited(all, q), |Limited(all, q)|, now)
    ensures Limited(all, q) == all
  {
  }

  lemma RowTime(facts: seq<Fact>, q: Query, all: seq<GroupRow>, now: Time, time: Time, i: nat)
    requires i < |all| && Acceptable(q, all, |all|, now) && Newest(all, time)
    ensures all[i].snapshot.Some? && all[i].snapshot.value <= time && all[i].invalid == 0
  {
    assert RowOk(q, all[i], now);
  }

  lemma NewestRow(all: seq<GroupRow>, time: Time) returns (i: nat)
    requires Newest(all, time)
    ensures i < |all| && all[i].snapshot == Some(time)
  {
    i :| 0 <= i < |all| && all[i].snapshot == Some(time);
  }

  lemma GroupOf(facts: seq<Fact>, q: Query, all: seq<GroupRow>, f: Fact) returns (i: nat)
    requires Enumerates(all, facts, q) && f in facts && Asked(q, f)
    ensures i < |all| && f in Members(facts, q, Grouped(all[i].side), all[i].key)
  {
    var side, key := SideOf(q, f), KeyOf(q.dimensions, f);
    MembersAre(facts, q, Grouped(side), key);
    assert f in Members(facts, q, Grouped(side), key);
    assert Listed(all, side, key);
    i :| 0 <= i < |all| && all[i].side == side && all[i].key == key;
  }

  // The update time of a row without defects is that of one of its facts, and none of them is newer.
  lemma TimesOfRow(facts: seq<Fact>, q: Query, all: seq<GroupRow>, i: nat, time: Time)
    requires Enumerates(all, facts, q) && i < |all| && all[i].invalid == 0 && all[i].snapshot.Some? && all[i].snapshot.value <= time
    ensures forall f :: f in Members(facts, q, Grouped(all[i].side), all[i].key) ==> f.snapshot.Some? && f.snapshot.value <= time
    ensures exists f :: f in facts && Asked(q, f) && f.snapshot == all[i].snapshot
  {
    var members := Members(facts, q, Grouped(all[i].side), all[i].key);
    MembersAre(facts, q, Grouped(all[i].side), all[i].key);
    NoDefects(q.aggregation, members);
    forall f | f in members ensures f.snapshot.Some? { assert !Defective(q.aggregation, f); }
    FreshestIs(members, time);
    FreshestIn(members);
    hide Enumerates, Freshest;
    var f :| f in members && f.snapshot == Freshest(members);
    assert f in facts && Belongs(q, Grouped(all[i].side), all[i].key, f);
  }

  lemma {:induction false} FreshestIn(facts: seq<Fact>)
    requires facts != [] && forall f :: f in facts ==> f.snapshot.Some?
    ensures exists f :: f in facts && f.snapshot == Freshest(facts)
  {
    var front, last := facts[..|facts| - 1], facts[|facts| - 1];
    assert facts == front + [last];
    assert last in facts;
    if front != [] {
      FreshestIn(front);
      FreshestIs(front, 0);
      var f :| f in front && f.snapshot == Freshest(front);
      assert f in facts;
      assert Freshest(facts) in {f.snapshot, last.snapshot};
    } else {
      assert Freshest(facts) == last.snapshot;
    }
  }

  lemma EntryTells(facts: seq<Fact>, q: Query, all: seq<GroupRow>, e: Entry, now: Time)
    requires Enumerates(all, facts, q) && SourceReady(facts, q, now) && e in Entries(all, Current)
    ensures e.value.Some? && e.value == Aggregate(q.aggregation, Members(facts, q, Whole(q.current), e.key))
    ensures e.key in KeysIn(facts, q, q.current) && Complete(q, q.current, Members(facts, q, Whole(q.current), e.key))
  {
    hide KeysIn, Members, Aggregate, Complete, KeyOk;
    EntriesOf(all, Current);
    CurrentIsWhole(facts, q);
    SideKeys(facts, q, all, Current, q.current);
    var i :| 0 <= i < |all| && all[i].side == Current && e == Entry(all[i].key, all[i].value);
    assert Listed(all, Current, e.key);
  }

  lemma ComparedTells(facts: seq<Fact>, q: Query, all: seq<GroupRow>, key: Key, now: Time)
    requires Enumerates(all, facts, q) && SourceReady(facts, q, now) && q.comparison.Some? && key in KeysIn(facts, q, q.current)
    ensures Complete(q, q.comparison.value, Members(facts, q, Whole(q.comparison.value), key))
    ensures Lookup(Entries(all, Compared), key).Some?
    ensures Lookup(Entries(all, Compared), key) == Aggregate(q.aggregation, Members(facts, q, Whole(q.comparison.value), key))
  {
    hide KeysIn, Members, Aggregate, Complete, KeyOk;
    EntriesOf(all, Compared);
    ComparedIsWhole(facts, q);
    SideKeys(facts, q, all, Compared, q.comparison.value);
    GroupsListed(all, facts, q, Compared);
    EntriesDistinct(all, Compared);
    assert HasKey(Entries(all, Compared), key);
    var i :| 0 <= i < |all| && all[i].side == Compared && all[i].key == key;
    LookupIs(Entries(all, Compared), key, all[i].value);
  }

  lemma MergedTells(facts: seq<Fact>, q: Query, all: seq<GroupRow>, e: Entry, now: Time)
    requires Enumerates(all, facts, q) && SourceReady(facts, q, now) && e in Entries(all, Current) && e.value.Some?
    ensures RowTells(facts, q, MergedRow(e, Entries(all, Compared)))
  {
    hide Enumerates, KeysIn, Members, Aggregate, Complete, SourceReady;
    EntryTells(facts, q, all, e, now);
    if q.comparison.Some? {
      ComparedTells(facts, q, all, e.key, now);
    } else {
      NothingCompared(facts, q, all);
    }
  }
}
