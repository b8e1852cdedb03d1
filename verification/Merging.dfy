/** Joining the rows of the current period with those of the compared one. */
module Merging {
  import opened Runs
  import opened PeriodQuery

  datatype Change = Change(value: real, absolute: real, percent: Option<real>)

  datatype ResultRow = ResultRow(key: Key, value: real, change: Option<Change>)

  function Abs(x: real): real { if x < 0.0 then -x else x }

  function Percent(absolute: real, before: real): Option<real> {
    if before == 0.0 then None else Some(absolute / Abs(before))
  }

  // The last row with this key wins, as in a dictionary built in order.
  function Lookup(entries: seq<Entry>, key: Key): Option<real> {
    if entries == [] then None
    else
      var last := entries[|entries| - 1];
      if last.key == key then last.value else Lookup(entries[..|entries| - 1], key)
  }

  function MergedRow(entry: Entry, compared: seq<Entry>): ResultRow
    requires entry.value.Some?
  {
    var before := Lookup(compared, entry.key);
    if before.None? then ResultRow(entry.key, entry.value.value, None)
    else
      var absolute := entry.value.value - before.value;
      ResultRow(entry.key, entry.value.value, Some(Change(before.value, absolute, Percent(absolute, before.value))))
  }

  lemma MergedKey(entry: Entry, compared: seq<Entry>)
    requires entry.value.Some?
    ensures MergedRow(entry, compared).key == entry.key && MergedRow(entry, compared).value == entry.value.value
  {
  }

  function Merged(current: seq<Entry>, compared: seq<Entry>): seq<ResultRow> {
    if current == [] then []
    else
      var last := current[|current| - 1];
      Merged(current[..|current| - 1], compared) + if last.value.Some? then [MergedRow(last, compared)] else []
  }

  method Merge(current: seq<Entry>, compared: seq<Entry>) returns (merged: seq<ResultRow>)
    ensures merged == Merged(current, compared)
  {
    var byKey: map<Key, Option<real>> := map[];
    for i := 0 to |compared|
      invariant forall key :: key in byKey ==> byKey[key] == Lookup(compared[..i], key)
      invariant forall key :: key !in byKey ==> Lookup(compared[..i], key) == None
    {
      assert compared[..i + 1][..i] == compared[..i];
      byKey := byKey[compared[i].key := compared[i].value];
    }
    assert compared[..|compared|] == compared;
    merged := [];
    for i := 0 to |current|
      invariant merged == Merged(current[..i], compared)
    {
      assert current[..i + 1][..i] == current[..i];
      var entry := current[i];
      if entry.value.None? {
        continue;
      }
      var item := ResultRow(entry.key, entry.value.value, None);
      if entry.key in byKey && byKey[entry.key].Some? {
        var before := byKey[entry.key].value;
        var absolute := entry.value.value - before;
        item := item.(change := Some(Change(before, absolute, if before == 0.0 then None else Some(absolute / Abs(before)))));
      }
      merged := merged + [item];
    }
    assert current[..|current|] == current;
  }

  lemma {:induction false} LookupIs(entries: seq<Entry>, key: Key, value: Option<real>)
    requires DistinctKeys(entries) && Entry(key, value) in entries
    ensures Lookup(entries, key) == value
  {
    var front, last := entries[..|entries| - 1], entries[|entries| - 1];
    if last.key == key {
      var i :| 0 <= i < |entries| && entries[i] == Entry(key, value);
    } else {
      assert entries == front + [last];
      LookupIs(front, key, value);
    }
  }

  // With a value everywhere and the same keys in both periods, nothing is dropped, reordered or left
  // without a comparison.
  lemma {:induction false} MergedRows(current: seq<Entry>, compared: seq<Entry>)
    requires forall e :: e in current ==> e.value.Some?
    ensures |Merged(current, compared)| == |current|
    ensures forall i :: 0 <= i < |current| ==> Merged(current, compared)[i] == MergedRow(current[i], compared)
  {
    if current != [] { MergedRows(current[..|current| - 1], compared); }
  }
}
