/**
 The independent checker of a result receipt, the answers composed from a verified one, and the
 agreement between this checker and the connectors that build receipts.
 */
module Certification {
  import opened Runs
  import opened PeriodQuery
  import opened Merging
  import opened BigQuery
  import Calendar

  // One value of a result row. `Opaque` stands for anything JSON cannot hold, NaN and infinities included.
  datatype Cell = Null | Text(text: string) | Integer(i: int) | Decimal(x: real) | Opaque

  // `cells` are the row's dimension values; `comparison` is None when the row has no such entry.
  datatype Row = Row(cells: seq<Cell>, value: Cell, comparison: Option<Cell>, absolute: Cell, percent: Cell)

  datatype Lineage = Lineage(query: Uuid, plan: string, decision: Uuid, connector: string, policy: Uuid)

  datatype Receipt = Receipt(
    lineage: Lineage, coverage: Period, resolved: Period, comparisonStart: Option<int>, comparisonEnd: Option<int>,
    rowCount: nat, rows: seq<Row>, resultHash: Digest<seq<Row>>)

  datatype Metric = Metric(validMin: Option<real>, validMax: Option<real>, integer: bool)

  datatype Fault = NotFinite | BelowMinimum | AboveMaximum | NotInteger

  datatype Failure =
    | NotCanonical | HashMismatch | LineageMismatch | RowCountMismatch | CoverageExceeded | NoData
    | InvalidKey(row: nat) | DuplicateKey(row: nat) | ValueFault(row: nat, compared: bool, fault: Fault)
    | ArithmeticMismatch(row: nat) | ComparisonMissing(row: nat) | PercentNotFinite(row: nat)

  // ---------------------------------------------------------------- the checks

  predicate Finite(c: Cell) { c.Integer? || c.Decimal? }

  function Number(c: Cell): real
    requires Finite(c)
  {
    if c.Integer? then c.i as real else c.x
  }

  const TOLERANCE := 0.000000001

  function Larger(a: real, b: real): real { if a < b then b else a }

  // math.isclose with relative and absolute tolerance 1e-9.
  predicate Close(a: real, b: real) {
    Abs(a - b) <= Larger(TOLERANCE * Larger(Abs(a), Abs(b)), TOLERANCE)
  }

  predicate Consistent(row: Row) {
    && row.comparison.Some? && Finite(row.value) && Finite(row.comparison.value)
    && var change := Number(row.value) - Number(row.comparison.value);
    && Finite(row.absolute) && Close(Number(row.absolute), change)
    && if Number(row.comparison.value) == 0.0 then row.percent == Null
       else Finite(row.percent) && Close(Number(row.percent), change / Abs(Number(row.comparison.value)))
  }

  function ValueFaults(m: Metric, c: Cell, row: nat, compared: bool): seq<Failure> {
    if !Finite(c) then [ValueFault(row, compared, NotFinite)]
    else
      var x := Number(c);
      (if m.validMin.Some? && x < m.validMin.value then [ValueFault(row, compared, BelowMinimum)] else [])
      + (if m.validMax.Some? && x > m.validMax.value then [ValueFault(row, compared, AboveMaximum)] else [])
      + (if m.integer && !Integral(x) then [ValueFault(row, compared, NotInteger)] else [])
  }

  predicate KeyValid(row: Row) { forall c :: c in row.cells ==> c.Text? || c.Integer? }

  function RowFailures(m: Metric, receipt: Receipt, i: nat, seen: set<seq<Cell>>): seq<Failure>
    requires i < |receipt.rows|
  {
    var row := receipt.rows[i];
    if !KeyValid(row) then [InvalidKey(i)]
    else
      (if row.cells in seen then [DuplicateKey(i)] else [])
      + ValueFaults(m, row.value, i, false)
      + (if row.comparison.Some? then
           ValueFaults(m, row.comparison.value, i, true) + (if Consistent(row) then [] else [ArithmeticMismatch(i)])
         else if receipt.comparisonStart.Some? then [ComparisonMissing(i)] else [])
      + (if row.percent != Null && !Finite(row.percent) then [PercentNotFinite(i)] else [])
  }

  ghost function SeenKeys(rows: seq<Row>): set<seq<Cell>> {
    set row | row in rows && KeyValid(row) :: row.cells
  }

  // All failures of the first n rows, in order.
  ghost function RowsFailures(m: Metric, receipt: Receipt, n: nat): seq<Failure>
    requires n <= |receipt.rows|
  {
    if n == 0 then []
    else RowsFailures(m, receipt, n - 1) + RowFailures(m, receipt, n - 1, SeenKeys(receipt.rows[..n - 1]))
  }

  predicate Canonical(rows: seq<Row>) {
    forall row :: row in rows ==>
      Opaque !in row.cells && row.value != Opaque && row.comparison != Some(Opaque) && row.absolute != Opaque && row.percent != Opaque
  }

  predicate Covers(receipt: Receipt) {
    && (receipt.comparisonStart.None? <==> receipt.comparisonEnd.None?)
    && receipt.coverage.start <= receipt.resolved.start <= receipt.resolved.end <= receipt.coverage.end
    && (receipt.comparisonStart.Some? && receipt.comparisonEnd.Some? ==>
          receipt.coverage.start <= receipt.comparisonStart.value <= receipt.comparisonEnd.value <= receipt.coverage.end)
  }

  function HeadFailures(ir: Lineage, receipt: Receipt): seq<Failure> {
    (if receipt.resultHash == Digest(receipt.rows) then [] else [HashMismatch])
    + (if receipt.lineage == ir && ir.policy == ir.decision then [] else [LineageMismatch])
    + (if receipt.rowCount == |receipt.rows| then [] else [RowCountMismatch])
    + (if Covers(receipt) then [] else [CoverageExceeded])
    + (if receipt.rows == [] then [NoData] else [])
  }

  lemma NothingSeen(rows: seq<Row>)
    ensures SeenKeys(rows[..0]) == {}
  {
  }

  lemma SeenMore(rows: seq<Row>, i: nat)
    requires i < |rows|
    ensures SeenKeys(rows[..i + 1]) == SeenKeys(rows[..i]) + if KeyValid(rows[i]) then {rows[i].cells} else {}
  {
    hide KeyValid;
    assert rows[..i + 1] == rows[..i] + [rows[i]];
  }

  method Validate(m: Metric, ir: Lineage, receipt: Receipt) returns (verified: bool, failures: seq<Failure>)
    ensures verified <==> failures == []
    ensures failures == if Canonical(receipt.rows) then HeadFailures(ir, receipt) + RowsFailures(m, receipt, |receipt.rows|) else [NotCanonical]
  {
    hide KeyValid, RowFailures, HeadFailures, SeenKeys, Canonical;
    NothingSeen(receipt.rows);
    if !Canonical(receipt.rows) {
      return false, [NotCanonical];
    }
    failures := HeadFailures(ir, receipt);
    var seen: set<seq<Cell>> := {};
    for i := 0 to |receipt.rows|
      invariant failures == HeadFailures(ir, receipt) + RowsFailures(m, receipt, i)
      invariant seen == SeenKeys(receipt.rows[..i])
    {
      failures := failures + RowFailures(m, receipt, i, seen);
      SeenMore(receipt.rows, i);
      if KeyValid(receipt.rows[i]) {
        seen := seen + {receipt.rows[i].cells};
      }
    }
    verified := failures == [];
  }

  // ---------------------------------------------------------------- what a verified receipt guarantees

  ghost predicate Verified(m: Metric, ir: Lineage, receipt: Receipt) {
    Canonical(receipt.rows) && HeadFailures(ir, receipt) + RowsFailures(m, receipt, |receipt.rows|) == []
  }

  lemma {:induction false} NoRowFailures(m: Metric, receipt: Receipt, n: nat)
    requires n <= |receipt.rows|
    ensures RowsFailures(m, receipt, n) == [] <==> forall i :: 0 <= i < n ==> RowFailures(m, receipt, i, SeenKeys(receipt.rows[..i])) == []
  {
    hide RowFailures;
    if n > 0 { NoRowFailures(m, receipt, n - 1); }
  }

  // No key twice, a finite number everywhere, and exactly one row when nothing was asked to be split.
  lemma VerifiedKeys(m: Metric, ir: Lineage, receipt: Receipt)
    requires Verified(m, ir, receipt)
    ensures receipt.rows != [] && forall i :: 0 <= i < |receipt.rows| ==> KeyValid(receipt.rows[i]) && Finite(receipt.rows[i].value)
    ensures forall i, j :: 0 <= i < j < |receipt.rows| ==> receipt.rows[i].cells != receipt.rows[j].cells
    ensures (forall i :: 0 <= i < |receipt.rows| ==> receipt.rows[i].cells == []) ==> |receipt.rows| == 1
  {
    hide KeyValid, Consistent, Covers, RowFailures;
    NoRowFailures(m, receipt, |receipt.rows|);
    forall i | 0 <= i < |receipt.rows| 
      ensures SoundlyChecked(receipt, i) && KeyValid(receipt.rows[i]) && Finite(receipt.rows[i].value)
    {
      CleanRow(m, receipt, i);
    }
    forall i, j | 0 <= i < j < |receipt.rows| ensures receipt.rows[i].cells != receipt.rows[j].cells {
      assert SoundlyChecked(receipt, i) && SoundlyChecked(receipt, j);
      assert receipt.rows[..j][i] == receipt.rows[i];
      assert receipt.rows[i] in receipt.rows[..j];
    }
    if |receipt.rows| > 1 { assert receipt.rows[0].cells != receipt.rows[1].cells; }
  }

  // ---------------------------------------------------------------- exactly what is verified

  predicate Between(d: real, bound: real) { -bound <= d <= bound }

  // Equal up to a billionth of either, or up to a billionth.
  predicate Near(a: real, b: real) {
    var d := a - b;
    Between(d, 0.000000001) || Between(d, 0.000000001 * a) || Between(d, -0.000000001 * a)
    || Between(d, 0.000000001 * b) || Between(d, -0.000000001 * b)
  }

  // The cell holds this number.
  predicate Holds(c: Cell, x: real) {
    match c
    case Integer(i) => i as real == x
    case Decimal(y) => y == x
    case _ => false
  }

  // A number within the metric's bounds, and a whole one where the metric is whole.
  predicate InRange(m: Metric, c: Cell) {
    match c
    case Integer(i) => (m.validMin.Some? ==> m.validMin.value <= i as real) && (m.validMax.Some? ==> i as real <= m.validMax.value)
    case Decimal(x) =>
      && (m.validMin.Some? ==> m.validMin.value <= x) && (m.validMax.Some? ==> x <= m.validMax.value)
      && (m.integer ==> x.Floor as real == x)
    case _ => false
  }

  // The change that goes with a value and the value it is compared with.
  ghost predicate ChangeHolds(value: Cell, before: Cell, absolute: Cell, percent: Cell) {
    exists v, b, a :: Holds(value, v) && Holds(before, b) && Holds(absolute, a) && Near(a, v - b)
      && if b == 0.0 then percent == Null
         else exists p :: Holds(percent, p) && Near(p, (v - b) / if b < 0.0 then -b else b)
  }

  ghost predicate RowCertain(m: Metric, receipt: Receipt, row: Row) {
    && (forall c :: c in row.cells ==> c.Text? || c.Integer?)
    && InRange(m, row.value)
    && match row.comparison
       case Some(before) => InRange(m, before) && ChangeHolds(row.value, before, row.absolute, row.percent)
       case None => receipt.comparisonStart.None? && (row.percent == Null || row.percent.Integer? || row.percent.Decimal?) && row.absolute != Opaque
  }

  ghost predicate HeadCertain(ir: Lineage, receipt: Receipt) {
    && receipt.resultHash == Digest(receipt.rows) && receipt.rowCount == |receipt.rows| > 0
    && receipt.lineage == ir && ir.policy == ir.decision
    && receipt.coverage.start <= receipt.resolved.start <= receipt.resolved.end <= receipt.coverage.end
    && match (receipt.comparisonStart, receipt.comparisonEnd)
       case (None, None) => true
       case (Some(start), Some(end)) => receipt.coverage.start <= start <= end <= receipt.coverage.end
       case _ => false
  }

  // A receipt is verified exactly when its head is the interpreted question's, its hash and count are those
  // of its rows, its coverage spans both periods, no key repeats, and every row's numbers are in range with
  // a change that follows from them.
  lemma VerifiedExactly(m: Metric, ir: Lineage, receipt: Receipt)
    ensures Verified(m, ir, receipt) <==>
      && HeadCertain(ir, receipt)
      && (forall row :: row in receipt.rows ==> RowCertain(m, receipt, row))
      && forall i, j :: 0 <= i < j < |receipt.rows| ==> receipt.rows[i].cells != receipt.rows[j].cells
  {
    hide RowFailures, RowCertain, HeadFailures, HeadCertain, Canonical, Opaqueless;
    HeadIs(ir, receipt);
    NoRowFailures(m, receipt, |receipt.rows|);
    forall i | 0 <= i < |receipt.rows|
      ensures Opaqueless(receipt.rows[i]) && RowFailures(m, receipt, i, SeenKeys(receipt.rows[..i])) == []
         <==> RowCertain(m, receipt, receipt.rows[i]) && receipt.rows[i].cells !in SeenKeys(receipt.rows[..i])
    {
      RowIs(m, receipt, i);
    }
    CanonicalIs(receipt.rows);
    if forall i :: 0 <= i < |receipt.rows| ==> RowCertain(m, receipt, receipt.rows[i]) {
      forall i | 0 <= i < |receipt.rows| ensures KeyValid(receipt.rows[i]) { CertainKey(m, receipt, receipt.rows[i]); }
      KeysDistinct(receipt.rows);
    }
  }

  predicate Opaqueless(row: Row) {
    Opaque !in row.cells && row.value != Opaque && row.comparison != Some(Opaque) && row.absolute != Opaque && row.percent != Opaque
  }

  lemma CanonicalIs(rows: seq<Row>)
    ensures Canonical(rows) <==> forall i :: 0 <= i < |rows| ==> Opaqueless(rows[i])
  {
  }

  lemma CertainKey(m: Metric, receipt: Receipt, row: Row)
    requires RowCertain(m, receipt, row)
    ensures KeyValid(row)
  {
  }

  lemma KeysDistinct(rows: seq<Row>)
    requires forall i :: 0 <= i < |rows| ==> KeyValid(rows[i])
    ensures (forall i :: 0 <= i < |rows| ==> rows[i].cells !in SeenKeys(rows[..i]))
       <==> forall i, j :: 0 <= i < j < |rows| ==> rows[i].cells != rows[j].cells
  {
    hide KeyValid;
    forall i, j | 0 <= i < j < |rows| ensures rows[i].cells in SeenKeys(rows[..j]) {
      assert rows[..j][i] == rows[i];
      assert rows[i] in rows[..j];
    }
    forall j | 0 <= j < |rows| && rows[j].cells in SeenKeys(rows[..j]) ensures exists i :: 0 <= i < j && rows[i].cells == rows[j].cells {
      var row :| row in rows[..j] && KeyValid(row) && row.cells == rows[j].cells;
      var i :| 0 <= i < j && rows[..j][i] == row;
      assert rows[i].cells == rows[j].cells;
    }
  }

  lemma HeadIs(ir: Lineage, receipt: Receipt)
    ensures HeadFailures(ir, receipt) == [] <==> HeadCertain(ir, receipt)
  {
  }

  lemma NearIs(a: real, b: real)
    ensures Close(a, b) <==> Near(a, b)
  {
  }

  lemma RangeIs(m: Metric, c: Cell, row: nat, compared: bool)
    ensures ValueFaults(m, c, row, compared) == [] <==> InRange(m, c)
  {
    if c.Integer? { assert (c.i as real).Floor == c.i; }
  }

  lemma ChangeIs(row: Row)
    requires row.comparison.Some?
    ensures Consistent(row) <==> ChangeHolds(row.value, row.comparison.value, row.absolute, row.percent)
  {
    hide Close, Near;
    forall a, b { NearIs(a, b); }
    if Consistent(row) {
      var v, b, a := Number(row.value), Number(row.comparison.value), Number(row.absolute);
      assert Holds(row.value, v) && Holds(row.comparison.value, b) && Holds(row.absolute, a);
      if b != 0.0 { assert Holds(row.percent, Number(row.percent)); }
    }
  }

  lemma RowIs(m: Metric, receipt: Receipt, i: nat)
    requires i < |receipt.rows|
    ensures Opaqueless(receipt.rows[i]) && RowFailures(m, receipt, i, SeenKeys(receipt.rows[..i])) == []
       <==> RowCertain(m, receipt, receipt.rows[i]) && receipt.rows[i].cells !in SeenKeys(receipt.rows[..i])
  {
    hide SeenKeys, Consistent, ChangeHolds, ValueFaults;
    var row := receipt.rows[i];
    RangeIs(m, row.value, i, false);
    if row.comparison.Some? {
      RangeIs(m, row.comparison.value, i, true);
      ChangeIs(row);
      ChangeCells(row);
    }
  }

  lemma ChangeCells(row: Row)
    requires row.comparison.Some?
    ensures Consistent(row) ==> Finite(row.absolute) && (row.percent == Null || Finite(row.percent))
  {
  }

  ghost predicate SoundlyChecked(receipt: Receipt, i: nat)
    requires i < |receipt.rows|
  {
    KeyValid(receipt.rows[i]) && Finite(receipt.rows[i].value) && receipt.rows[i].cells !in SeenKeys(receipt.rows[..i])
  }

  lemma CleanRow(m: Metric, receipt: Receipt, i: nat)
    requires i < |receipt.rows| && RowFailures(m, receipt, i, SeenKeys(receipt.rows[..i])) == []
    ensures SoundlyChecked(receipt, i)
  {
    hide KeyValid, Consistent, SeenKeys;
  }

  datatype Claim = Claim(cells: seq<Cell>, value: real, comparison: Option<real>, absolute: Option<real>, percent: Option<real>)

  function Maybe(c: Cell): Option<real> { if Finite(c) then Some(Number(c)) else None }

  // The number of the cell, or none where there is no number.
  predicate Told(c: Cell, x: Option<real>) {
    match x
    case Some(value) => Holds(c, value)
    case None => !c.Integer? && !c.Decimal?
  }

  predicate Claims(row: Row, claim: Claim) {
    && claim.cells == row.cells && Holds(row.value, claim.value)
    && Told(if row.comparison.Some? then row.comparison.value else Null, claim.comparison)
    && Told(row.absolute, claim.absolute) && Told(row.percent, claim.percent)
  }

  // One claim per row, in order, with the row's own numbers.
  method Compose(receipt: Receipt) returns (claims: seq<Claim>)
    requires forall i :: 0 <= i < |receipt.rows| ==> Finite(receipt.rows[i].value)
    ensures |claims| == |receipt.rows|
    ensures forall i :: 0 <= i < |claims| ==> Claims(receipt.rows[i], claims[i])
  {
    claims := [];
    for i := 0 to |receipt.rows|
      invariant |claims| == i
      invariant forall k :: 0 <= k < i ==> Claims(receipt.rows[k], claims[k])
    {
      var row := receipt.rows[i];
      var comparison := if row.comparison.Some? then Maybe(row.comparison.value) else None;
      claims := claims + [Claim(row.cells, Number(row.value), comparison, Maybe(row.absolute), Maybe(row.percent))];
    }
  }

  // ---------------------------------------------------------------- receipts the connectors build

  function CellOf(text: Option<string>): Cell { if text.Some? then Text(text.value) else Null }

  function CellsOf(key: Key): (cells: seq<Cell>)
    ensures |cells| == |key| && forall i :: 0 <= i < |key| ==> cells[i] == CellOf(key[i])
  {
    seq(|key|, i requires 0 <= i < |key| => CellOf(key[i]))
  }

  function Shown(row: ResultRow): Row {
    match row.change
    case None => Row(CellsOf(row.key), Decimal(row.value), None, Null, Null)
    case Some(change) =>
      Row(CellsOf(row.key), Decimal(row.value), Some(Decimal(change.value)), Decimal(change.absolute),
          if change.percent.Some? then Decimal(change.percent.value) else Null)
  }

  function ShownRows(rows: seq<ResultRow>): (shown: seq<Row>)
    ensures |shown| == |rows| && forall i :: 0 <= i < |rows| ==> shown[i] == Shown(rows[i])
  {
    seq(|rows|, i requires 0 <= i < |rows| => Shown(rows[i]))
  }

  function Build(ir: Lineage, q: Query, coverage: Period, rows: seq<ResultRow>): Receipt {
    Receipt(ir, coverage, q.current,
            if q.comparison.Some? then Some(q.comparison.value.start) else None,
            if q.comparison.Some? then Some(q.comparison.value.end) else None,
            |rows|, ShownRows(rows), Digest(ShownRows(rows)))
  }

  // Rows as `Merged` releases them: a value, an arithmetic change where periods are compared, no key twice.
  ghost predicate Sound(q: Query, rows: seq<ResultRow>) {
    && rows != []
    && (forall i, j :: 0 <= i < j < |rows| ==> rows[i].key != rows[j].key)
    && (forall i :: 0 <= i < |rows| ==> SoundRow(q, rows[i]))
  }

  ghost predicate SoundRow(q: Query, row: ResultRow) {
    && (forall i :: 0 <= i < |row.key| ==> row.key[i].Some?)
    && (row.change.Some? <==> q.comparison.Some?)
    && (row.change.Some? ==>
          && row.change.value.absolute == row.value - row.change.value.value
          && row.change.value.percent == Percent(row.change.value.absolute, row.change.value.value))
  }

  predicate InBounds(m: Metric, x: real) {
    && (m.validMin.Some? ==> m.validMin.value <= x) && (m.validMax.Some? ==> x <= m.validMax.value)
    && (m.integer ==> Integral(x))
  }

  predicate RowInBounds(m: Metric, row: ResultRow) {
    InBounds(m, row.value) && (row.change.Some? ==> InBounds(m, row.change.value.value))
  }

  predicate BoundFailure(f: Failure) { f.ValueFault? && f.fault != NotFinite }

  lemma ConsistentRow(q: Query, row: ResultRow)
    requires SoundRow(q, row) && row.change.Some?
    ensures Consistent(Shown(row))
  {
    var change := row.change.value;
    assert Close(change.absolute, change.absolute);
    if change.value != 0.0 {
      var p := change.absolute / Abs(change.value);
      assert Close(p, p);
    }
  }

  lemma ShownKeys(a: ResultRow, b: ResultRow)
    requires Shown(a).cells == Shown(b).cells
    ensures a.key == b.key
  {
    assert |a.key| == |b.key|;
    forall i | 0 <= i < |a.key| ensures a.key[i] == b.key[i] {
      assert CellsOf(a.key)[i] == CellsOf(b.key)[i];
    }
  }

  lemma RowAgrees(m: Metric, ir: Lineage, q: Query, coverage: Period, rows: seq<ResultRow>, i: nat)
    requires Sound(q, rows) && i < |rows|
    ensures var receipt := Build(ir, q, coverage, rows);
            var failures := RowFailures(m, receipt, i, SeenKeys(receipt.rows[..i]));
            && (forall f :: f in failures ==> BoundFailure(f))
            && (failures == [] <==> RowInBounds(m, rows[i]))
  {
    hide Consistent, Integral;
    var receipt := Build(ir, q, coverage, rows);
    var row := rows[i];
    assert SoundRow(q, row);
    if row.change.Some? { ConsistentRow(q, row); }
    assert Shown(row).cells !in SeenKeys(receipt.rows[..i]) by {
      forall earlier | earlier in receipt.rows[..i] ensures earlier.cells != Shown(row).cells {
        var j :| 0 <= j < i && receipt.rows[..i][j] == earlier;
        assert earlier == Shown(rows[j]) && rows[j].key != row.key;
        if earlier.cells == Shown(row).cells { ShownKeys(rows[j], row); }
      }
    }
  }

  lemma {:induction false} RowsAgree(m: Metric, ir: Lineage, q: Query, coverage: Period, rows: seq<ResultRow>, n: nat)
    requires Sound(q, rows) && n <= |rows|
    ensures var failures := RowsFailures(m, Build(ir, q, coverage, rows), n);
            && (forall f :: f in failures ==> BoundFailure(f))
            && (failures == [] <==> forall i :: 0 <= i < n ==> RowInBounds(m, rows[i]))
  {
    hide RowFailures, Build, RowInBounds, Sound, BoundFailure;
    BuildRows(ir, q, coverage, rows);
    if n > 0 {
      RowsAgree(m, ir, q, coverage, rows, n - 1);
      RowAgrees(m, ir, q, coverage, rows, n - 1);
    }
  }

  lemma BuildRows(ir: Lineage, q: Query, coverage: Period, rows: seq<ResultRow>)
    ensures Build(ir, q, coverage, rows).rows == ShownRows(rows)
  {
  }

  ghost predicate CoversPeriods(coverage: Period, q: Query) {
    && coverage.start <= q.current.start && q.current.end <= coverage.end
    && (q.comparison.Some? ==> coverage.start <= q.comparison.value.start && q.comparison.value.end <= coverage.end)
  }

  // A receipt built from released rows can fail only on the metric's bounds or on integrality, and it
  // is verified exactly when every value and every compared value meets them.
  lemma ProducersAgree(m: Metric, ir: Lineage, q: Query, coverage: Period, rows: seq<ResultRow>)
    requires Sound(q, rows) && PeriodsOk(q) && CoversPeriods(coverage, q) && ir.policy == ir.decision
    ensures var receipt := Build(ir, q, coverage, rows);
            && Canonical(receipt.rows) && HeadFailures(ir, receipt) == []
            && (forall f :: f in RowsFailures(m, receipt, |rows|) ==> BoundFailure(f))
            && (Verified(m, ir, receipt) <==> forall i :: 0 <= i < |rows| ==> RowInBounds(m, rows[i]))
  {
    hide RowsFailures, RowInBounds, BoundFailure, Sound, Build, HeadFailures, Canonical;
    RowsAgree(m, ir, q, coverage, rows, |rows|);
    BuildRows(ir, q, coverage, rows);
    HeadAgrees(ir, q, coverage, rows);
    RowsCanonical(q, rows);
  }

  lemma HeadAgrees(ir: Lineage, q: Query, coverage: Period, rows: seq<ResultRow>)
    requires Sound(q, rows) && PeriodsOk(q) && CoversPeriods(coverage, q) && ir.policy == ir.decision
    ensures HeadFailures(ir, Build(ir, q, coverage, rows)) == []
  {
  }

  lemma RowsCanonical(q: Query, rows: seq<ResultRow>)
    requires Sound(q, rows)
    ensures Canonical(ShownRows(rows))
  {
    forall row | row in ShownRows(rows)
      ensures Opaque !in row.cells && row.value != Opaque && row.comparison != Some(Opaque) && row.absolute != Opaque && row.percent != Opaque
    {
      var i :| 0 <= i < |rows| && ShownRows(rows)[i] == row;
      assert SoundRow(q, rows[i]);
    }
  }

  // ---------------------------------------------------------------- the three connectors

  // The warehouse reports the span of both periods.
  function WarehouseCoverage(q: Query): Period {
    if q.comparison.None? then q.current
    else Period(if q.comparison.value.start < q.current.start then q.comparison.value.start else q.current.start,
                if q.comparison.value.end > q.current.end then q.comparison.value.end else q.current.end)
  }

  // The snapshot reports from the start of the comparison, if there is one, to the end of the current period.
  function SnapshotCoverage(q: Query): Period {
    Period(if q.comparison.Some? then q.comparison.value.start else q.current.start, q.current.end)
  }

  lemma WarehouseRowsSound(facts: seq<Fact>, q: Query, all: seq<GroupRow>, now: Time)
    requires Enumerates(all, facts, q) && PeriodsOk(q) && Acceptable(q, Limited(all, q), |Limited(all, q)|, now)
    ensures Sound(q, Merged(Entries(Limited(all, q), Current), Entries(Limited(all, q), Compared)))
    ensures CoversPeriods(WarehouseCoverage(q), q)
  {
    hide Enumerates, Acceptable, Members, KeysIn, Aggregate;
    ReleasedRowsAreWholePeriods(facts, q, all, now);
    var rows := Merged(Entries(Limited(all, q), Current), Entries(Limited(all, q), Compared));
    forall i | 0 <= i < |rows| ensures SoundRow(q, rows[i]) {
      assert RowTells(facts, q, rows[i]);
      assert GroupOk(q, q.current, rows[i].key, Members(facts, q, Whole(q.current), rows[i].key), now);
    }
  }

  function PeriodFrom(r: Calendar.Range): Period
    requires Calendar.RangeOk(r)
  {
    Period(Calendar.Ordinal(r.start), Calendar.Ordinal(r.end))
  }

  // The snapshot's span covers both periods because every comparison lies before what it is compared with.
  lemma SnapshotCovers(q: Query, current: Calendar.Range, comparison: Calendar.Comparison)
    requires Calendar.RangeOk(current) && q.current == PeriodFrom(current)
    requires Calendar.ResolveComparison(current, comparison).Some?
    requires var range := Calendar.ResolveComparison(current, comparison).value;
             match range case None => q.comparison.None? case Some(r) => Calendar.RangeOk(r) && q.comparison == Some(PeriodFrom(r))
    ensures PeriodsOk(q) && CoversPeriods(SnapshotCoverage(q), q)
  {
    hide Calendar.Ordinal, Calendar.Minus;
    Calendar.OrderIsOrdinal(current.start, current.end);
    match comparison
    case NoComparison =>
    case PriorPeriod =>
      Calendar.PriorPeriodIsAdjacent(current);
      var prior := Calendar.ResolveComparison(current, comparison).value.value;
      Calendar.OrderIsOrdinal(prior.start, prior.end);
    case YearOverYear =>
      Calendar.YearOverYearIsEarlier(current);
      var prior := Calendar.ResolveComparison(current, comparison).value.value;
      Calendar.OrderIsOrdinal(prior.start, prior.end);
  }

  // A CSV reports the first and last of its own days, which include every day of an answered period.
  lemma CsvCovers(q: Query, dates: set<int>, first: int, last: int)
    requires PeriodsOk(q) && DaysOf(q.current) <= dates && (q.comparison.Some? ==> DaysOf(q.comparison.value) <= dates)
    requires forall day :: day in dates ==> first <= day <= last
    ensures CoversPeriods(Period(first, last), q)
  {
    assert q.current.start in DaysOf(q.current) && q.current.end in DaysOf(q.current);
    if q.comparison.Some? {
      assert q.comparison.value.start in DaysOf(q.comparison.value) && q.comparison.value.end in DaysOf(q.comparison.value);
    }
  }

  // Imported CSV columns are never null, so an answered CSV's rows are sound as well.
  lemma CsvRowsSound(facts: seq<Fact>, q: Query, rows: seq<ResultRow>)
    requires rows != [] && forall i :: 0 <= i < |rows| ==> RowTells(facts, q, rows[i])
    requires forall i, j :: 0 <= i < j < |rows| ==> rows[i].key != rows[j].key
    requires forall f, d :: f in facts && d in q.dimensions ==> Column(f, d).Some?
    ensures Sound(q, rows)
  {
    hide Members, Aggregate, Complete, InScope;
    forall i | 0 <= i < |rows| ensures SoundRow(q, rows[i]) {
      var f :| f in facts && KeyOf(q.dimensions, f) == rows[i].key;
      forall k | 0 <= k < |rows[i].key| ensures rows[i].key[k].Some? {
        assert q.dimensions[k] in q.dimensions;
      }
    }
  }
}
