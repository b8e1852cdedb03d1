/**
 What the words of a released answer mean for the facts themselves: which facts a group of a period holds,
 when it is ready, and what its aggregate is, said without the functions that compute them.
 */
module QueryMeaning {
  import opened Runs
  import opened PeriodQuery

  // The row of the source that the tenant's filters let through, on a day of the period, in this group.
  predicate Counted(q: Query, period: Period, key: Key, f: Fact) {
    && (match q.scope.tenant case Some(tenant) => f.tenant == tenant case None => true)
    && (match q.scope.metric case Some(metric) => f.metric == metric case None => true)
    && f.region in q.scope.regions
    && (match q.scope.units case Some(units) => f.unit in units case None => true)
    && (forall filter :: filter in q.scope.filters ==>
          exists value :: value in filter.values && filter.dimension in f.columns && f.columns[filter.dimension] == Some(value))
    && period.start <= f.day <= period.end
    && |key| == |q.dimensions|
    && forall i :: 0 <= i < |key| ==> key[i] == if q.dimensions[i] in f.columns then f.columns[q.dimensions[i]] else None
  }

  lemma GroupHolds(facts: seq<Fact>, q: Query, period: Period, key: Key)
    ensures forall f :: f in Members(facts, q, Whole(period), key) <==> f in facts && Counted(q, period, key, f)
    ensures key in KeysIn(facts, q, period) <==> exists f :: f in facts && Counted(q, period, key, f)
  {
    MembersAre(facts, q, Whole(period), key);
    KeysInAre(facts, q, period, key);
    forall f ensures Belongs(q, Whole(period), key, f) <==> Counted(q, period, key, f) { BelongsIs(q, period, key, f); }
    hide Counted, Belongs;
    var members := Members(facts, q, Whole(period), key);
    if members != [] { assert members[0] in members; }
  }

  lemma BelongsIs(q: Query, period: Period, key: Key, f: Fact)
    ensures Belongs(q, Whole(period), key, f) <==> Counted(q, period, key, f)
  {
    var own := KeyOf(q.dimensions, f);
    if Counted(q, period, key, f) { assert key == own; }
  }

  // A fact with everything its metric needs, and when it was written.
  predicate Usable(kind: Aggregation, f: Fact, now: Time) {
    && (match f.snapshot case Some(time) => time <= now case None => false)
    && match kind
       case Sum => f.amount.Some?
       case Ratio => f.numerator.Some? && f.denominator.Some?
  }

  predicate FactOn(members: seq<Fact>, day: int) {
    exists f :: f in members && f.day == day
  }

  // A group is ready when it has a usable fact on every day of the period and only usable ones, all its
  // cells are named, and its value is one the metric can have.
  lemma GroupReadyMeans(q: Query, period: Period, key: Key, members: seq<Fact>, now: Time)
    ensures GroupOk(q, period, key, members, now) <==>
      && members != []
      && (forall day :: period.start <= day <= period.end ==> FactOn(members, day))
      && (forall f :: f in members ==> period.start <= f.day <= period.end && Usable(q.aggregation, f, now))
      && (forall i :: 0 <= i < |key| ==> key[i].Some? && |key[i].value| > 0)
      && (match Aggregate(q.aggregation, members)
          case None => false
          case Some(x) => q.integer ==> x.Floor as real == x && -9007199254740991.0 <= x <= 9007199254740991.0)
  {
    hide Aggregate, Defective, Usable;
    forall day ensures day in Days(members) <==> FactOn(members, day) {}
    forall day ensures Within(period, day) <==> period.start <= day <= period.end {}
    forall f: Fact ensures (f.snapshot.Some? && f.snapshot.value <= now && !Defective(q.aggregation, f)) <==> Usable(q.aggregation, f, now) {
      UsableIs(q.aggregation, f, now);
    }
  }

  lemma UsableIs(kind: Aggregation, f: Fact, now: Time)
    ensures (f.snapshot.Some? && f.snapshot.value <= now && !Defective(kind, f)) <==> Usable(kind, f, now)
  {
  }

  // Adding up from the front.
  function Total(values: seq<real>): real {
    if values == [] then 0.0 else values[0] + Total(values[1..])
  }

  lemma {:induction false} TotalSnoc(values: seq<real>, last: real)
    ensures Total(values + [last]) == Total(values) + last
  {
    if values == [] {
      assert (values + [last])[1..] == [];
    } else {
      assert (values + [last])[1..] == values[1..] + [last];
      TotalSnoc(values[1..], last);
    }
  }

  lemma {:induction false} SumIsTotal(some: seq<Option<real>>, values: seq<real>)
    requires |some| == |values| && forall i :: 0 <= i < |some| ==> some[i] == Some(values[i])
    ensures SumOf(some) == if some == [] then None else Some(Total(values))
  {
    if some != [] {
      var n := |some| - 1;
      SumIsTotal(some[..n], values[..n]);
      TotalSnoc(values[..n], values[n]);
      assert values == values[..n] + [values[n]];
      if n == 0 { assert Total([]) == 0.0; }
    }
  }

  function Plain(values: seq<Option<real>>): seq<real>
    requires forall i :: 0 <= i < |values| ==> values[i].Some?
  {
    seq(|values|, i requires 0 <= i < |values| => values[i].value)
  }

  // The value of a group without gaps is the sum of its amounts.
  lemma SumMeans(facts: seq<Fact>)
    requires facts != [] && forall f :: f in facts ==> f.amount.Some?
    ensures var amounts := seq(|facts|, i requires 0 <= i < |facts| => facts[i].amount);
            (forall i :: 0 <= i < |amounts| ==> amounts[i].Some?) && Aggregate(Sum, facts) == Some(Total(Plain(amounts)))
  {
    var amounts := seq(|facts|, i requires 0 <= i < |facts| => facts[i].amount);
    forall i | 0 <= i < |amounts| ensures amounts[i].Some? { assert facts[i] in facts; }
    assert Amounts(facts) == amounts;
    SumIsTotal(amounts, Plain(amounts));
  }

  // Or the number that multiplied by the sum of its denominators gives the sum of its numerators.
  lemma RatioMeans(facts: seq<Fact>)
    requires facts != [] && forall f :: f in facts ==> f.numerator.Some? && f.denominator.Some?
    ensures var above := seq(|facts|, i requires 0 <= i < |facts| => facts[i].numerator);
            var below := seq(|facts|, i requires 0 <= i < |facts| => facts[i].denominator);
            && (forall i :: 0 <= i < |above| ==> above[i].Some?) && (forall i :: 0 <= i < |below| ==> below[i].Some?)
            && match Aggregate(Ratio, facts)
               case None => Total(Plain(below)) == 0.0
               case Some(x) => Total(Plain(below)) != 0.0 && x * Total(Plain(below)) == Total(Plain(above))
  {
    var above := seq(|facts|, i requires 0 <= i < |facts| => facts[i].numerator);
    var below := seq(|facts|, i requires 0 <= i < |facts| => facts[i].denominator);
    forall i | 0 <= i < |facts| ensures above[i].Some? && below[i].Some? { assert facts[i] in facts; }
    assert Numerators(facts) == above && Denominators(facts) == below;
    hide Total;
    SumIsTotal(above, Plain(above));
    SumIsTotal(below, Plain(below));
  }
}
