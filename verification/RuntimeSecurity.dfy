/** Admission of public requests: a fixed-window rate per identity in a bounded, recency-ordered table. */
module RuntimeSecurity {
  import opened Runs

  datatype Rate = Rate(identity: string, count: nat, resetAt: Time)

  const CAPACITY := 1024
  const WINDOW := 60 * MICROSECONDS

  // The first entry is the one least recently used.
  ghost predicate Distinct(rates: seq<Rate>) {
    forall i, j :: 0 <= i < j < |rates| ==> rates[i].identity != rates[j].identity
  }

  function Live(rates: seq<Rate>, now: Time): seq<Rate> {
    if rates == [] then []
    else
      var last := rates[|rates| - 1];
      Live(rates[..|rates| - 1], now) + if last.resetAt > now then [last] else []
  }

  // while len(...) >= 1024: popitem(last=False).
  function Evicted(rates: seq<Rate>): seq<Rate> {
    if |rates| < CAPACITY then rates else rates[|rates| - (CAPACITY - 1)..]
  }

  function Position(rates: seq<Rate>, identity: string): (k: nat)
    ensures k <= |rates| && (k < |rates| ==> rates[k].identity == identity)
    ensures forall i :: 0 <= i < k ==> rates[i].identity != identity
  {
    if rates == [] then 0 else if rates[0].identity == identity then 0 else 1 + Position(rates[1..], identity)
  }

  function Charged(rates: seq<Rate>, identity: string, now: Time): seq<Rate> {
    var k := Position(rates, identity);
    if k == |rates| then rates + [Rate(identity, 1, now + WINDOW)]
    else rates[..k] + rates[k + 1..] + [rates[k].(count := rates[k].count + 1)]
  }

  function Admit(rates: seq<Rate>, identity: string, now: Time): seq<Rate> {
    Charged(Evicted(Live(rates, now)), identity, now)
  }

  // A new entry admits without looking at the limit.
  function Admitted(rates: seq<Rate>, identity: string, now: Time, limit: nat): bool {
    var left := Evicted(Live(rates, now));
    var k := Position(left, identity);
    k == |left| || left[k].count + 1 <= limit
  }

  class RuntimeAdmission {
    const requestsPerMinute: nat
    const maximumInFlight: nat
    var rates: seq<Rate>
    var inFlight: nat

    ghost predicate Valid()
      reads this
    {
      Distinct(rates) && |rates| <= CAPACITY && inFlight <= maximumInFlight
    }

    constructor (requestsPerMinute: nat, maximumInFlight: nat)
      ensures Valid() && rates == [] && inFlight == 0
      ensures this.requestsPerMinute == requestsPerMinute && this.maximumInFlight == maximumInFlight
    {
      this.requestsPerMinute, this.maximumInFlight, rates, inFlight := requestsPerMinute, maximumInFlight, [], 0;
    }

    method AdmitRate(identity: string, now: Time) returns (admitted: bool)
      requires Valid()
      modifies `rates
      ensures Valid()
      ensures rates == Admit(old(rates), identity, now)
      ensures admitted == Admitted(old(rates), identity, now, requestsPerMinute)
    {
      hide Live, Evicted, Distinct;
      LiveDistinct(rates, now);
      EvictedDistinct(Live(rates, now));
      ChargedDistinct(Evicted(Live(rates, now)), identity, now);
      Expire(now);
      Evict();
      var k := Position(rates, identity);
      if k == |rates| {
        rates := rates + [Rate(identity, 1, now + WINDOW)];
        return true;
      }
      var rate := rates[k].(count := rates[k].count + 1);
      rates := rates[..k] + rates[k + 1..] + [rate];
      return rate.count <= requestsPerMinute;
    }

    method Expire(now: Time)
      modifies `rates
      ensures rates == Live(old(rates), now)
    {
      var kept: seq<Rate> := [];
      for i := 0 to |rates|
        invariant rates == old(rates) && kept == Live(rates[..i], now)
      {
        assert rates[..i + 1][..i] == rates[..i];
        if rates[i].resetAt > now {
          kept := kept + [rates[i]];
        }
      }
      assert rates[..|rates|] == rates;
      rates := kept;
    }

    method Evict()
      modifies `rates
      ensures rates == Evicted(old(rates))
    {
      while |rates| >= CAPACITY
        invariant |rates| <= |old(rates)| && rates == old(rates)[|old(rates)| - |rates|..]
        invariant |rates| < CAPACITY - 1 ==> rates == old(rates)
        decreases |rates|
      {
        rates := rates[1..];
      }
    }

    method Enter() returns (entered: bool)
      requires Valid()
      modifies `inFlight
      ensures Valid() && entered == (old(inFlight) < maximumInFlight)
      ensures inFlight == old(inFlight) + if entered then 1 else 0
    {
      if inFlight >= maximumInFlight {
        return false;
      }
      inFlight := inFlight + 1;
      return true;
    }

    method Leave()
      requires Valid() && inFlight > 0
      modifies `inFlight
      ensures Valid() && inFlight == old(inFlight) - 1
    {
      inFlight := inFlight - 1;
    }
  }

  lemma {:induction false} LiveAre(rates: seq<Rate>, now: Time)
    ensures forall r :: r in Live(rates, now) <==> r in rates && r.resetAt > now
    ensures |Live(rates, now)| <= |rates|
  {
    if rates != [] {
      LiveAre(rates[..|rates| - 1], now);
      assert rates == rates[..|rates| - 1] + [rates[|rates| - 1]];
    }
  }

  lemma {:induction false} LiveDistinct(rates: seq<Rate>, now: Time)
    requires Distinct(rates)
    ensures Distinct(Live(rates, now)) && |Live(rates, now)| <= |rates|
  {
    if rates != [] {
      var front, last := rates[..|rates| - 1], rates[|rates| - 1];
      LiveDistinct(front, now);
      LiveAre(front, now);
      var live := Live(front, now);
      forall i | 0 <= i < |live| ensures live[i].identity != last.identity {
        assert live[i] in live;
        var j :| 0 <= j < |front| && front[j] == live[i];
        assert rates[j].identity != rates[|rates| - 1].identity;
      }
    }
  }

  lemma EvictedDistinct(rates: seq<Rate>)
    requires Distinct(rates)
    ensures Distinct(Evicted(rates)) && |Evicted(rates)| < CAPACITY
  {
  }

  lemma ChargedDistinct(rates: seq<Rate>, identity: string, now: Time)
    requires Distinct(rates)
    ensures Distinct(Charged(rates, identity, now))
    ensures |Charged(rates, identity, now)| == |rates| + if Position(rates, identity) == |rates| then 1 else 0
  {
  }

  // ---------------------------------------------------------------- how often an identity is admitted

  datatype Request = Request(identity: string, now: Time)

  // Requests arrive in the order of a clock that never goes back.
  ghost predicate Ordered(log: seq<Request>) {
    forall i, j :: 0 <= i < j < |log| ==> log[i].now <= log[j].now
  }

  function After(log: seq<Request>): seq<Rate> {
    if log == [] then [] else Admit(After(log[..|log| - 1]), log[|log| - 1].identity, log[|log| - 1].now)
  }

  predicate Passed(log: seq<Request>, i: nat, limit: nat)
    requires i < |log|
  {
    Admitted(After(log[..i]), log[i].identity, log[i].now, limit)
  }

  // No request ever finds the table full.
  ghost predicate NeverFull(log: seq<Request>) {
    forall i :: 0 <= i < |log| ==> |Live(After(log[..i]), log[i].now)| < CAPACITY
  }

  // How many requests of an identity were admitted at a time in [from, upto).
  function Count(log: seq<Request>, limit: nat, identity: string, from: Time, upto: Time): nat {
    if log == [] then 0
    else
      var last := |log| - 1;
      Count(log[..last], limit, identity, from, upto)
      + if log[last].identity == identity && from <= log[last].now < upto && Passed(log, last, limit) then 1 else 0
  }

  // When the identity's latest window began: with a request that found no live entry of it.
  function WindowStart(log: seq<Request>, identity: string): Option<Time> {
    if log == [] then None
    else
      var last := log[|log| - 1];
      var before := Evicted(Live(After(log[..|log| - 1]), last.now));
      if last.identity == identity && Position(before, identity) == |before| then Some(last.now)
      else WindowStart(log[..|log| - 1], identity)
  }

  predicate Opens(log: seq<Request>, i: nat)
    requires i < |log|
  {
    var before := Evicted(Live(After(log[..i]), log[i].now));
    Position(before, log[i].identity) == |before|
  }

  // What the table and the admissions so far say about one identity.
  ghost predicate Tracked(log: seq<Request>, limit: nat, identity: string) {
    var rates, start := After(log), WindowStart(log, identity);
    var k := Position(rates, identity);
    && Distinct(rates)
    && (start.None? ==> k == |rates| && forall a, b :: Count(log, limit, identity, a, b) == 0)
    && (start.Some? ==>
          && log != [] && start.value <= log[|log| - 1].now
          && (k < |rates| ==> rates[k].resetAt == start.value + WINDOW)
          && (k == |rates| ==> start.value + WINDOW <= log[|log| - 1].now)
          && (forall b :: Count(log, limit, identity, start.value, b) <= if k < |rates| then Least(rates[k].count, limit) else limit)
          && Quiet(log, limit, identity, start.value + WINDOW)
          && (forall a :: a >= start.value - WINDOW ==> Count(log, limit, identity, a, start.value) <= limit))
  }

  ghost predicate Quiet(log: seq<Request>, limit: nat, identity: string, from: Time) {
    forall b :: Count(log, limit, identity, from, b) == 0
  }

  function Least(a: nat, b: nat): nat { if a < b then a else b }

  lemma {:induction false} CountSplit(log: seq<Request>, limit: nat, identity: string, a: Time, b: Time, c: Time)
    requires a <= b <= c
    ensures Count(log, limit, identity, a, c) == Count(log, limit, identity, a, b) + Count(log, limit, identity, b, c)
  {
    if log != [] {
      assert forall i :: 0 <= i < |log| - 1 ==> log[..|log| - 1][..i] == log[..i];
      CountSplit(log[..|log| - 1], limit, identity, a, b, c);
    }
  }

  lemma {:induction false} CountWithin(log: seq<Request>, limit: nat, identity: string, a: Time, b: Time, a': Time, b': Time)
    requires a <= a' && b' <= b
    ensures Count(log, limit, identity, a', b') <= Count(log, limit, identity, a, b)
  {
    if log != [] { CountWithin(log[..|log| - 1], limit, identity, a, b, a', b'); }
  }

  lemma PositionIs(rates: seq<Rate>, r: Rate)
    requires Distinct(rates) && r in rates
    ensures Position(rates, r.identity) < |rates| && rates[Position(rates, r.identity)] == r
  {
    var j :| 0 <= j < |rates| && rates[j] == r;
  }

  // A table that is never full forgets exactly the expired entries.
  lemma LivePosition(rates: seq<Rate>, identity: string, now: Time)
    requires Distinct(rates)
    ensures Distinct(Live(rates, now))
    ensures var k, j := Position(rates, identity), Position(Live(rates, now), identity);
            if k < |rates| && rates[k].resetAt > now
            then j < |Live(rates, now)| && Live(rates, now)[j] == rates[k]
            else j == |Live(rates, now)|
  {
    hide Live;
    LiveDistinct(rates, now);
    LiveAre(rates, now);
    var live := Live(rates, now);
    var k, j := Position(rates, identity), Position(live, identity);
    if k < |rates| && rates[k].resetAt > now {
      assert rates[k] in live;
      PositionIs(live, rates[k]);
    } else if j < |live| {
      assert live[j] in live;
      PositionIs(rates, live[j]);
    }
  }

  lemma ChargedPosition(rates: seq<Rate>, identity: string, other: string, now: Time)
    requires Distinct(rates)
    ensures var charged := Charged(rates, other, now);
            var k, j := Position(rates, identity), Position(charged, identity);
            && Distinct(charged)
            && (identity != other ==> if k < |rates| then j < |charged| && charged[j] == rates[k] else j == |charged|)
            && (identity == other ==>
                  && j < |charged|
                  && charged[j] == if k < |rates| then rates[k].(count := rates[k].count + 1) else Rate(identity, 1, now + WINDOW))
  {
    ChargedDistinct(rates, other, now);
    var charged := Charged(rates, other, now);
    var k, j := Position(rates, identity), Position(charged, identity);
    if identity == other {
      PositionIs(charged, charged[|charged| - 1]);
    } else if k < |rates| {
      var o := Position(rates, other);
      assert rates[k] in charged by {
        if o < |rates| { assert charged[if k < o then k else k - 1] == rates[k]; } else { assert charged[k] == rates[k]; }
      }
      PositionIs(charged, rates[k]);
    }
  }

  lemma {:induction false} Tracks(log: seq<Request>, limit: nat, identity: string)
    requires Ordered(log) && NeverFull(log) && limit >= 1
    ensures Tracked(log, limit, identity)
  {
    hide Tracked, Ordered, NeverFull;
    if log == [] {
      TracksNothing(limit, identity);
    } else {
      PrefixOk(log, |log| - 1);
      Tracks(log[..|log| - 1], limit, identity);
      TracksOne(log, limit, identity);
    }
  }

  lemma TracksNothing(limit: nat, identity: string)
    ensures Tracked([], limit, identity)
  {
  }

  lemma PrefixOk(log: seq<Request>, n: nat)
    requires Ordered(log) && NeverFull(log) && n <= |log|
    ensures Ordered(log[..n]) && NeverFull(log[..n])
  {
    forall i | 0 <= i < n ensures |Live(After(log[..n][..i]), log[..n][i].now)| < CAPACITY {
      assert log[..n][..i] == log[..i];
    }
  }

  // The table after one more request, seen by one identity.
  lemma NextEntry(log: seq<Request>, limit: nat, identity: string)
    requires log != [] && NeverFull(log) && Distinct(After(log[..|log| - 1]))
    ensures var front, last := log[..|log| - 1], log[|log| - 1];
            var rates, charged := After(front), After(log);
            var k, j := Position(rates, identity), Position(charged, identity);
            var live := k < |rates| && rates[k].resetAt > last.now;
            && Distinct(charged)
            && (identity != last.identity ==> if live then j < |charged| && charged[j] == rates[k] else j == |charged|)
            && (identity == last.identity ==>
                  && j < |charged|
                  && charged[j] == (if live then rates[k].(count := rates[k].count + 1) else Rate(identity, 1, last.now + WINDOW)))
            && (identity == last.identity ==>
                  && (Opens(log, |log| - 1) <==> !live)
                  && (Passed(log, |log| - 1, limit) <==> !live || rates[k].count + 1 <= limit))
  {
    hide Live, Charged;
    var front, last := log[..|log| - 1], log[|log| - 1];
    LivePosition(After(front), identity, last.now);
    assert Evicted(Live(After(front), last.now)) == Live(After(front), last.now);
    ChargedPosition(Live(After(front), last.now), identity, last.identity, last.now);
  }

  lemma TracksOne(log: seq<Request>, limit: nat, identity: string)
    requires log != [] && Ordered(log) && NeverFull(log) && limit >= 1
    requires Tracked(log[..|log| - 1], limit, identity)
    ensures Tracked(log, limit, identity)
  {
    hide After, Ordered, NeverFull, Distinct;
    NextEntry(log, limit, identity);
    if log[|log| - 1].identity != identity {
      TracksOther(log, limit, identity);
    } else if Opens(log, |log| - 1) {
      TracksOpening(log, limit, identity);
    } else {
      TracksCharge(log, limit, identity);
    }
  }

  // A request after the window has run out opens the next one and is always admitted.
  lemma TracksOpening(log: seq<Request>, limit: nat, identity: string)
    requires log != [] && Ordered(log) && NeverFull(log) && limit >= 1
    requires Tracked(log[..|log| - 1], limit, identity) && log[|log| - 1].identity == identity && Opens(log, |log| - 1)
    ensures Tracked(log, limit, identity)
  {
    hide After, Distinct, NeverFull, Passed, Opens, Position, Live, Evicted, Charged, WindowStart;
    var front, now := log[..|log| - 1], log[|log| - 1].now;
    NextEntry(log, limit, identity);
    OpensWindow(log);
    var prior := WindowStart(front, identity);
    forall a, b ensures Count(log, limit, identity, a, b) == Count(front, limit, identity, a, b) + if a <= now < b then 1 else 0 { }
    forall a, b | a >= now ensures Count(front, limit, identity, a, b) == 0 {
      if prior.Some? { CountWithin(front, limit, identity, prior.value + WINDOW, b, a, b); }
    }
    forall a | a >= now - WINDOW ensures Count(log, limit, identity, a, now) <= limit {
      if prior.Some? { CountWithin(front, limit, identity, prior.value, now, a, now); }
    }
  }

  lemma OpensWindow(log: seq<Request>)
    requires log != [] && Opens(log, |log| - 1)
    ensures WindowStart(log, log[|log| - 1].identity) == Some(log[|log| - 1].now)
  {
  }

  lemma StaysInWindow(log: seq<Request>)
    requires log != [] && !Opens(log, |log| - 1)
    ensures forall identity :: WindowStart(log, identity) == WindowStart(log[..|log| - 1], identity)
  {
  }

  // A request inside the window raises its count, and is admitted while that is within the limit.
  lemma TracksCharge(log: seq<Request>, limit: nat, identity: string)
    requires log != [] && Ordered(log) && NeverFull(log) && limit >= 1
    requires Tracked(log[..|log| - 1], limit, identity) && log[|log| - 1].identity == identity && !Opens(log, |log| - 1)
    ensures Tracked(log, limit, identity)
  {
    hide After, Distinct, NeverFull, Passed, Opens, Position, Live, Evicted, Charged, WindowStart;
    var front, now := log[..|log| - 1], log[|log| - 1].now;
    NextEntry(log, limit, identity);
    StaysInWindow(log);
    var passed := Passed(log, |log| - 1, limit);
    forall a, b ensures Count(log, limit, identity, a, b) == Count(front, limit, identity, a, b) + if a <= now < b && passed then 1 else 0 { }
  }

  lemma TracksOther(log: seq<Request>, limit: nat, identity: string)
    requires log != [] && Ordered(log) && NeverFull(log)
    requires Tracked(log[..|log| - 1], limit, identity) && log[|log| - 1].identity != identity
    ensures Tracked(log, limit, identity)
  {
    hide After, Distinct, NeverFull, Passed, Opens, Position, Live, Evicted, Charged, WindowStart;
    NextEntry(log, limit, identity);
    OthersKeepWindow(log, identity);
    forall a, b ensures Count(log, limit, identity, a, b) == Count(log[..|log| - 1], limit, identity, a, b) { }
  }

  // ---------------------------------------------------------------- the two bounds

  // In any sixty seconds, endpoints included, an identity is admitted at most twice its limit.
  lemma {:induction false} TwiceInAnyMinute(log: seq<Request>, limit: nat, identity: string, t: Time)
    requires Ordered(log) && NeverFull(log) && limit >= 1
    ensures Count(log, limit, identity, t, t + WINDOW + 1) <= 2 * limit
  {
    hide After, Distinct, Passed, Opens, Ordered, NeverFull, WindowStart;
    if log != [] {
      PrefixOk(log, |log| - 1);
      TwiceInAnyMinute(log[..|log| - 1], limit, identity, t);
      var now := log[|log| - 1].now;
      if Count(log, limit, identity, t, t + WINDOW + 1) > Count(log[..|log| - 1], limit, identity, t, t + WINDOW + 1) {
        Tracks(log, limit, identity);
        var start := WindowStart(log, identity);
        if start.Some? { AcrossStart(log, limit, identity, t, t + WINDOW + 1, start.value); }
      }
    }
  }

  lemma AcrossStart(log: seq<Request>, limit: nat, identity: string, a: Time, b: Time, start: Time)
    requires a <= b
    ensures Count(log, limit, identity, a, b) <= Count(log, limit, identity, a, start) + Count(log, limit, identity, start, b)
  {
    if a <= start <= b {
      CountSplit(log, limit, identity, a, start, b);
    } else if start < a {
      CountWithin(log, limit, identity, start, b, a, b);
    } else {
      CountWithin(log, limit, identity, a, start, a, b);
    }
  }

  // Windows of one identity do not overlap.
  lemma {:induction false} WindowsApart(log: seq<Request>, limit: nat, i: nat)
    requires Ordered(log) && NeverFull(log) && limit >= 1 && i < |log| && Opens(log, i)
    ensures var start := WindowStart(log, log[i].identity);
            start.Some? && (start.value == log[i].now || start.value >= log[i].now + WINDOW)
  {
    hide After, Distinct, Passed, Opens, Ordered, NeverFull, Count;
    var last := |log| - 1;
    if i == last {
      OpensWindow(log);
    } else {
      PrefixOk(log, last);
      assert log[..last][..i] == log[..i];
      OpensSame(log, i);
      WindowsApart(log[..last], limit, i);
      if log[last].identity != log[i].identity {
        OthersKeepWindow(log, log[i].identity);
      } else if Opens(log, last) {
        OpensWindow(log);
        LastTwo(log);
        Tracks(log[..last], limit, log[i].identity);
        NextEntry(log, limit, log[i].identity);
      } else {
        StaysInWindow(log);
      }
    }
  }

  lemma LastTwo(log: seq<Request>)
    requires Ordered(log) && |log| > 1
    ensures log[|log| - 2].now <= log[|log| - 1].now
  {
  }

  lemma OthersKeepWindow(log: seq<Request>, identity: string)
    requires log != [] && log[|log| - 1].identity != identity
    ensures WindowStart(log, identity) == WindowStart(log[..|log| - 1], identity)
  {
  }

  lemma OpensSame(log: seq<Request>, i: nat)
    requires i < |log| - 1 && log[..|log| - 1][..i] == log[..i]
    ensures Opens(log[..|log| - 1], i) == Opens(log, i)
  {
  }

  // In each window an identity is admitted at most as often as the limit says.
  lemma {:induction false} LimitInEachWindow(log: seq<Request>, limit: nat, i: nat)
    requires Ordered(log) && NeverFull(log) && limit >= 1 && i < |log| && Opens(log, i)
    ensures Count(log, limit, log[i].identity, log[i].now, log[i].now + WINDOW) <= limit
  {
    hide After, Distinct, Passed, Opens, Ordered, NeverFull, WindowStart;
    var last, identity, from := |log| - 1, log[i].identity, log[i].now;
    Tracks(log, limit, identity);
    WindowsApart(log, limit, i);
    if WindowStart(log, identity).value != from {
      if i == last {
        OpensWindow(log);
      } else {
        PrefixOk(log, last);
        assert log[..last][..i] == log[..i];
        OpensSame(log, i);
        LimitInEachWindow(log[..last], limit, i);
      }
    }
  }

  // ---------------------------------------------------------------- exactly which requests pass

  // An identity's requests alone, without a table: when its window began and how many came in it.
  datatype Run = Run(start: Time, requests: nat)

  function Current(log: seq<Request>, identity: string): (run: Option<Run>)
    ensures run.Some? ==> run.value.requests >= 1
  {
    if log == [] then None
    else
      var before, last := Current(log[..|log| - 1], identity), log[|log| - 1];
      if last.identity != identity then before
      else if before.None? || last.now >= before.value.start + 60_000_000 then Some(Run(last.now, 1))
      else Some(Run(before.value.start, before.value.requests + 1))
  }

  // What the table holds for an identity is its current window, until that has run out.
  ghost predicate Mirrors(log: seq<Request>, identity: string) {
    var rates, run := After(log), Current(log, identity);
    var k := Position(rates, identity);
    && Distinct(rates)
    && (k < |rates| ==> run.Some? && rates[k] == Rate(identity, run.value.requests, run.value.start + WINDOW))
    && (k == |rates| ==> run.None? || (log != [] && run.value.start + WINDOW <= log[|log| - 1].now))
  }

  lemma {:induction false} TableMirrors(log: seq<Request>, limit: nat, identity: string)
    requires Ordered(log) && NeverFull(log)
    ensures Mirrors(log, identity)
  {
    hide Ordered, NeverFull, Distinct, Admit;
    if log == [] {
      assert Mirrors(log, identity) by { NothingMirrored(identity); }
    } else {
      var front, last := log[..|log| - 1], log[|log| - 1];
      PrefixOk(log, |log| - 1);
      TableMirrors(front, limit, identity);
      NextEntry(log, limit, identity);
      hide After, Position;
      if |log| > 1 { LastTwo(log); }
    }
  }

  lemma NothingMirrored(identity: string)
    ensures Mirrors([], identity)
  {
  }

  // A request passes exactly when it opens its identity's window or is among the first `limit` of it,
  // whatever other identities do meanwhile.
  lemma PassedExactly(log: seq<Request>, i: nat, limit: nat)
    requires Ordered(log) && NeverFull(log) && i < |log|
    ensures var run := Current(log[..i + 1], log[i].identity);
            run.Some? && (Passed(log, i, limit) <==> run.value.requests == 1 || run.value.requests <= limit)
  {
    hide Ordered, NeverFull, Distinct, Admit;
    var upto, identity := log[..i + 1], log[i].identity;
    PrefixOk(log, i + 1);
    PrefixOk(upto, i);
    assert upto[..i] == log[..i] && upto[|upto| - 1] == log[i] && |upto| == i + 1;
    assert Passed(upto, i, limit) == Passed(log, i, limit);
    TableMirrors(log[..i], limit, identity);
    NextEntry(upto, limit, identity);
    hide After, Position;
    if i > 0 { LastTwo(upto); }
  }

  // ---------------------------------------------------------------- who is evicted

  function Names(rates: seq<Rate>): set<string> {
    set rate | rate in rates :: rate.identity
  }

  // The identities whose entries were used more recently.
  function Behind(rates: seq<Rate>, identity: string): set<string> {
    if Position(rates, identity) < |rates| then Names(rates[Position(rates, identity) + 1..]) else {}
  }

  // The other identities that made a request since the i-th.
  function Since(log: seq<Request>, i: nat): set<string> {
    set k | i < k < |log| :: log[k].identity
  }

  lemma NamesSnoc(rates: seq<Rate>, last: Rate)
    ensures Names(rates + [last]) == Names(rates) + {last.identity}
  {
  }

  lemma {:induction false} NamesCount(rates: seq<Rate>)
    requires Distinct(rates)
    ensures |Names(rates)| == |rates|
  {
    if rates == [] {
      assert Names(rates) == {};
    } else {
      var front, last := rates[..|rates| - 1], rates[|rates| - 1];
      NamesCount(front);
      assert rates == front + [last];
      NamesSnoc(front, last);
      assert last.identity !in Names(front);
    }
  }

  lemma BehindSize(rates: seq<Rate>, identity: string)
    requires Distinct(rates) && Position(rates, identity) < |rates|
    ensures |Behind(rates, identity)| == |rates| - 1 - Position(rates, identity)
  {
    NamesCount(rates[Position(rates, identity) + 1..]);
  }

  // Entries that expire leave the order of the others alone.
  lemma {:induction false} LiveOrder(rates: seq<Rate>, identity: string, now: Time)
    requires Distinct(rates)
    requires var k := Position(rates, identity); k < |rates| && rates[k].resetAt > now
    ensures Position(Live(rates, now), identity) < |Live(rates, now)|
    ensures Behind(Live(rates, now), identity) <= Behind(rates, identity)
  {
    hide Live;
    var n, k := |rates| - 1, Position(rates, identity);
    var front, last := rates[..n], rates[n];
    LivePosition(rates, identity, now);
    LiveSnoc(rates, now);
    if k < n {
      assert Position(front, identity) == k by { PositionAt(front, identity, k); }
      LiveOrder(front, identity, now);
      assert Distinct(front);
      LiveDistinct(rates, now);
      BehindFront(rates, identity);
      if last.resetAt > now {
        assert Live(rates, now)[..|Live(rates, now)| - 1] == Live(front, now);
        PositionAt(Live(rates, now), identity, Position(Live(front, now), identity));
        BehindFront(Live(rates, now), identity);
      }
    } else {
      assert last.identity == identity;
      PositionAt(Live(rates, now), identity, |Live(rates, now)| - 1);
    }
  }

  lemma LiveSnoc(rates: seq<Rate>, now: Time)
    requires rates != []
    ensures var last := rates[|rates| - 1];
            Live(rates, now) == Live(rates[..|rates| - 1], now) + if last.resetAt > now then [last] else []
  {
  }

  lemma {:induction false} PositionAt(rates: seq<Rate>, identity: string, k: nat)
    requires k < |rates| && rates[k].identity == identity && (Distinct(rates) || forall i :: 0 <= i < k ==> rates[i].identity != identity)
    ensures Position(rates, identity) == k
  {
  }

  lemma BehindFront(rates: seq<Rate>, identity: string)
    requires Position(rates, identity) < |rates| - 1
    ensures Position(rates[..|rates| - 1], identity) == Position(rates, identity)
    ensures Behind(rates, identity) == Behind(rates[..|rates| - 1], identity) + {rates[|rates| - 1].identity}
  {
    hide Position, Names;
    var n, k := |rates| - 1, Position(rates, identity);
    var front := rates[..n];
    forall i | 0 <= i < k ensures front[i].identity != identity { assert front[i] == rates[i]; }
    assert front[k] == rates[k];
    PositionAt(front, identity, k);
    assert rates[k + 1..] == front[k + 1..] + [rates[n]];
    NamesSnoc(front[k + 1..], rates[n]);
  }

  // Eviction takes entries from the front only.
  lemma EvictedOrder(rates: seq<Rate>, identity: string)
    requires Distinct(rates) && Position(rates, identity) < |rates| && |Behind(rates, identity)| < CAPACITY - 1
    ensures var left := Evicted(rates);
            && Distinct(left) && Position(left, identity) < |left|
            && left[Position(left, identity)] == rates[Position(rates, identity)] && Behind(left, identity) == Behind(rates, identity)
  {
    BehindSize(rates, identity);
    EvictedDistinct(rates);
    hide Behind, Distinct;
    BehindSuffix(rates, identity, |rates| - |Evicted(rates)|);
  }

  lemma BehindSuffix(rates: seq<Rate>, identity: string, cut: nat)
    requires cut <= Position(rates, identity) < |rates|
    ensures var left := rates[cut..];
            Position(left, identity) == Position(rates, identity) - cut < |left| && Behind(left, identity) == Behind(rates, identity)
  {
    hide Position, Names;
    var left, k := rates[cut..], Position(rates, identity);
    PositionAt(left, identity, k - cut);
    assert left[k - cut + 1..] == rates[k + 1..];
  }

  // A charge moves its own entry to the end and keeps the order of the others.
  lemma ChargedOrder(rates: seq<Rate>, identity: string, other: string, now: Time)
    requires Distinct(rates) && Position(rates, identity) < |rates| && other != identity
    ensures var charged := Charged(rates, other, now);
            && Position(charged, identity) < |charged| && charged[Position(charged, identity)] == rates[Position(rates, identity)]
            && Behind(charged, identity) <= Behind(rates, identity) + {other}
  {
    hide Position, Names, Distinct;
    var charged, k, o := Charged(rates, other, now), Position(rates, identity), Position(rates, other);
    ChargedPosition(rates, identity, other, now);
    var j := if o < k then k - 1 else k;
    assert charged[j] == rates[k];
    PositionAt(charged, identity, j);
    ChargedRest(rates, k, o);
    assert charged[j + 1..] == Rest(rates, k, o) + [charged[|charged| - 1]];
    NamesSnoc(Rest(rates, k, o), charged[|charged| - 1]);
  }

  // What stays behind the k-th entry when the o-th is taken out.
  function Rest(rates: seq<Rate>, k: nat, o: nat): seq<Rate>
    requires k < |rates| && o <= |rates| && o != k
  {
    if k < o < |rates| then rates[k + 1..o] + rates[o + 1..] else rates[k + 1..]
  }

  lemma ChargedRest(rates: seq<Rate>, k: nat, o: nat)
    requires k < |rates| && o <= |rates| && o != k
    ensures Names(Rest(rates, k, o)) <= Names(rates[k + 1..])
  {
    forall rate | rate in Rest(rates, k, o) ensures rate in rates[k + 1..] {
      if k < o < |rates| { assert rates[k + 1..] == rates[k + 1..o] + [rates[o]] + rates[o + 1..]; }
    }
  }

  // Between its i-th request and the end of the log the identity asks no more and its window runs.
  ghost predicate Resting(log: seq<Request>, i: nat) {
    && i < |log| && var held := After(log[..i + 1]);
    && var k := Position(held, log[i].identity);
    && k < |held| && forall j :: i < j < |log| ==> log[j].identity != log[i].identity && log[j].now < held[k].resetAt
  }

  ghost predicate Kept(log: seq<Request>, i: nat) {
    && i < |log| && Distinct(After(log))
    && var identity, held, rates := log[i].identity, After(log[..i + 1]), After(log);
    && Position(held, identity) < |held| && Position(rates, identity) < |rates|
    && rates[Position(rates, identity)] == held[Position(held, identity)] && Behind(rates, identity) <= Since(log, i)
  }

  // Only the least recently used go: as long as fewer than 1023 other identities ask, an identity's count is
  // not forgotten before its window is over, however many entries the table holds.
  lemma {:induction false} RecentIsKept(log: seq<Request>, i: nat)
    requires Resting(log, i) && |Since(log, i)| < 1023
    ensures Kept(log, i)
    decreases |log|
  {
    TableDistinct(log);
    if |log| == i + 1 {
      assert log[..i + 1] == log;
      LastIsLast(log);
    } else {
      RestingBefore(log, i);
      RecentIsKept(log[..|log| - 1], i);
      KeptNext(log, i);
    }
  }

  lemma {:induction false} TableDistinct(log: seq<Request>)
    ensures Distinct(After(log))
  {
    hide Distinct, Charged, Evicted, Live;
    if log == [] {
      assert Distinct([]) by { NothingTwice(); }
    } else {
      var front, last := log[..|log| - 1], log[|log| - 1];
      TableDistinct(front);
      LiveDistinct(After(front), last.now);
      EvictedDistinct(Live(After(front), last.now));
      ChargedDistinct(Evicted(Live(After(front), last.now)), last.identity, last.now);
    }
  }

  lemma NothingTwice()
    ensures Distinct([])
  {
  }

  // The request just made is the most recent one.
  lemma LastIsLast(log: seq<Request>)
    requires log != []
    ensures var rates := After(log); rates != [] && rates[|rates| - 1].identity == log[|log| - 1].identity
    ensures Distinct(After(log)) ==> Position(After(log), log[|log| - 1].identity) == |After(log)| - 1
    ensures Distinct(After(log)) ==> Behind(After(log), log[|log| - 1].identity) == {}
  {
    hide Distinct, Evicted, Live;
    if Distinct(After(log)) { PositionAt(After(log), log[|log| - 1].identity, |After(log)| - 1); }
  }

  lemma RestingBefore(log: seq<Request>, i: nat)
    requires Resting(log, i) && i + 1 < |log| && |Since(log, i)| < CAPACITY - 1
    ensures Resting(log[..|log| - 1], i) && |Since(log[..|log| - 1], i)| < CAPACITY - 1
    ensures Since(log, i) == Since(log[..|log| - 1], i) + {log[|log| - 1].identity}
  {
    var front := log[..|log| - 1];
    assert front[..i + 1] == log[..i + 1];
    assert Since(log, i) == Since(front, i) + {log[|log| - 1].identity};
    assert Since(log, i) == Since(front, i) + (Since(log, i) - Since(front, i));
  }

  lemma KeptNext(log: seq<Request>, i: nat)
    requires Resting(log, i) && i + 1 < |log| && |Since(log, i)| < CAPACITY - 1 && Distinct(After(log)) && Kept(log[..|log| - 1], i)
    ensures Kept(log, i)
  {
    hide Distinct, Live, Evicted, Charged, Behind, Position;
    var front, last, identity := log[..|log| - 1], log[|log| - 1], log[i].identity;
    assert front[..i + 1] == log[..i + 1] && front[i] == log[i];
    RestingBefore(log, i);
    var rates := After(front);
    var live := Live(rates, last.now);
    LivePosition(rates, identity, last.now);
    LiveOrder(rates, identity, last.now);
    Fewer(Behind(live, identity), Since(log, i));
    EvictedOrder(live, identity);
    ChargedOrder(Evicted(live), identity, last.identity, last.now);
  }

  lemma Fewer<T>(a: set<T>, b: set<T>)
    requires a <= b
    ensures |a| <= |b|
  {
    assert b == a + (b - a);
  }
}
