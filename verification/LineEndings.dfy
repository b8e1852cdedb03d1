/**
 The client's line endings: every CRLF pair becomes one line break each time a chunk arrives, so a text
 is normalised piece by piece, and what was normalised before is normalised again.
 */
module LineEndings {
  const CR := '\r'
  const LF := '\n'
  const TROUBLE := "\r\r\n"

  function Normalised(s: string): string {
    if s == "" then ""
    else if |s| >= 2 && s[0] == CR && s[1] == LF then "\n" + Normalised(s[2..])
    else [s[0]] + Normalised(s[1..])
  }

  // No carriage return directly before a CRLF pair; ordinary CRLF and lone returns are fine.
  predicate Stable(s: string) {
    forall i :: 0 <= i < |s| ==> !TroubleAt(s, i)
  }

  predicate TroubleAt(s: string, i: nat) {
    i + 2 < |s| && s[i] == CR && s[i + 1] == CR && s[i + 2] == LF
  }

  predicate HasPair(s: string) {
    exists i :: 0 <= i < |s| && PairAt(s, i)
  }

  predicate PairAt(s: string, i: nat) {
    i + 1 < |s| && s[i] == CR && s[i + 1] == LF
  }

  predicate SplitsPair(a: string, b: string) {
    a != "" && a[|a| - 1] == CR && b != "" && b[0] == LF
  }

  lemma {:induction false} NormalisedJoins(a: string, b: string)
    requires !SplitsPair(a, b)
    ensures Normalised(a + b) == Normalised(a) + Normalised(b)
    decreases |a|
  {
    hide Normalised;
    EmptyNormalised();
    if a == "" {
      assert a + b == b;
    } else if PairFirst(a) {
      assert (a + b)[2..] == a[2..] + b;
      NormalisedJoins(a[2..], b);
      PairStep(a);
      PairStep(a + b);
      assert "\n" + Normalised(a[2..]) + Normalised(b) == "\n" + (Normalised(a[2..]) + Normalised(b));
    } else {
      assert (a + b)[1..] == a[1..] + b;
      NormalisedJoins(a[1..], b);
      OneStep(a);
      OneStep(a + b);
      assert [a[0]] + Normalised(a[1..]) + Normalised(b) == [a[0]] + (Normalised(a[1..]) + Normalised(b));
    }
  }

  lemma EmptyNormalised()
    ensures Normalised("") == ""
  {
  }

  predicate PairFirst(s: string) { |s| >= 2 && s[0] == CR && s[1] == LF }

  lemma PairStep(s: string)
    requires PairFirst(s)
    ensures Normalised(s) == "\n" + Normalised(s[2..])
  {
  }

  lemma OneStep(s: string)
    requires s != "" && !PairFirst(s)
    ensures Normalised(s) == [s[0]] + Normalised(s[1..])
  {
  }

  // What normalising keeps: it never grows, the last character survives, and a doubled return at the end
  // was one before.
  lemma {:induction false} NormalisedEnds(s: string)
    ensures |Normalised(s)| <= |s| && (s != "" <==> Normalised(s) != "")
    ensures s != "" ==> Normalised(s)[|Normalised(s)| - 1] == s[|s| - 1]
    ensures |Normalised(s)| >= 2 && Normalised(s)[|Normalised(s)| - 2] == CR && s[|s| - 1] == CR ==> |s| >= 2 && s[|s| - 2] == CR
    decreases |s|
  {
    if s == "" {
    } else if |s| >= 2 && s[0] == CR && s[1] == LF {
      NormalisedEnds(s[2..]);
    } else {
      NormalisedEnds(s[1..]);
    }
  }

  lemma {:induction false} NoPairIs(s: string)
    requires !HasPair(s)
    ensures Normalised(s) == s
  {
    if s != "" {
      forall i | 0 <= i < |s[1..]| ensures !PairAt(s[1..], i) { assert !PairAt(s, i + 1); }
      NoPairIs(s[1..]);
      assert !PairAt(s, 0);
    }
  }

  // A stable text has no pair left once it is normalised.
  lemma {:induction false} StableSettles(s: string)
    requires Stable(s)
    ensures !HasPair(Normalised(s))
    decreases |s|
  {
    hide Normalised;
    EmptyNormalised();
    if s == "" {
    } else if PairFirst(s) {
      Tail(s, 2);
      StableSettles(s[2..]);
      PairStep(s);
      NoPairAfter(LF, Normalised(s[2..]));
    } else {
      Tail(s, 1);
      StableSettles(s[1..]);
      OneStep(s);
      NormalisedStarts(s[1..]);
      assert !TroubleAt(s, 0);
      NoPairAfter(s[0], Normalised(s[1..]));
    }
  }

  lemma NoPairAfter(c: char, s: string)
    requires !HasPair(s) && !(c == CR && s != "" && s[0] == LF)
    ensures !HasPair([c] + s)
  {
    forall i | 0 <= i < |[c] + s| ensures !PairAt([c] + s, i) {
      if i > 0 { assert !PairAt(s, i - 1); }
    }
  }

  lemma Tail(s: string, k: nat)
    requires Stable(s) && k <= |s|
    ensures Stable(s[k..])
  {
    forall i | 0 <= i < |s[k..]| ensures !TroubleAt(s[k..], i) { assert !TroubleAt(s, k + i); }
  }

  // A normalised text starts with a line break only where the text did, or where it started with a pair.
  lemma NormalisedStarts(s: string)
    ensures Normalised(s) != "" && Normalised(s)[0] == LF ==> s[0] == LF || (|s| >= 2 && s[0] == CR && s[1] == LF)
  {
  }

  // Normalising what was normalised before, with more text behind it, is normalising it all at once.
  lemma StableSteps(a: string, b: string)
    requires Stable(a + b)
    ensures Normalised(Normalised(a) + b) == Normalised(a + b)
  {
    assert a == (a + b)[..|a|];
    Head(a + b, |a|);
    StableSettles(a);
    NoPairIs(Normalised(a));
    NormalisedEnds(a);
    if SplitsPair(a, b) {
      assert b == "\n" + b[1..] && a + b == a + "\n" + b[1..];
      SplitSteps(a, b[1..]);
    } else {
      NormalisedJoins(a, b);
      NormalisedJoins(Normalised(a), b);
    }
  }

  lemma Head(s: string, k: nat)
    requires Stable(s) && k <= |s|
    ensures Stable(s[..k])
  {
    forall i | 0 <= i < k ensures !TroubleAt(s[..k], i) { assert !TroubleAt(s, i); }
  }

  // The cut falls inside a pair: the return is the last character on both sides of the equation.
  lemma SplitSteps(a: string, c: string)
    requires a != "" && a[|a| - 1] == CR && Stable(a + "\n" + c)
    ensures Normalised(Normalised(a) + ("\n" + c)) == Normalised(a + ("\n" + c))
  {
    hide Normalised, Stable;
    var front, tail := a[..|a| - 1], "\r\n" + c;
    var n := Normalised(front);
    assert a == front + "\r" && a + ("\n" + c) == front + tail && a + "\n" + c == front + tail;
    NormalisedJoins(front, "\r");
    LoneReturn();
    assert Normalised(a) + ("\n" + c) == n + tail;
    if front != "" { NoDoubled(front, c); }
    NormalisedJoins(front, tail);
    NormalisedEnds(front);
    NormalisedJoins(n, tail);
    assert front == (front + tail)[..|front|];
    Head(front + tail, |front|);
    StableSettles(front);
    NoPairIs(n);
  }

  lemma NoDoubled(front: string, c: string)
    requires Stable(front + ("\r\n" + c)) && front != ""
    ensures front[|front| - 1] != CR
  {
    assert !TroubleAt(front + ("\r\n" + c), |front| - 1);
  }

  lemma LoneReturn()
    ensures Normalised("\r") == "\r"
  {
    assert "\r"[1..] == "";
  }

  // Exactly the stable texts can be cut anywhere.
  predicate CutsAnywhere(s: string) {
    forall k :: 0 <= k <= |s| ==> CutsAt(s, k)
  }

  predicate CutsAt(s: string, k: nat)
    requires k <= |s|
  {
    Normalised(Normalised(s[..k]) + s[k..]) == Normalised(s)
  }

  lemma CutsAnywhereIffStable(s: string)
    ensures CutsAnywhere(s) <==> Stable(s)
  {
    if Stable(s) {
      forall k | 0 <= k <= |s| ensures CutsAt(s, k) {
        assert s[..k] + s[k..] == s;
        StableSteps(s[..k], s[k..]);
      }
    } else {
      var i :| 0 <= i < |s| && TroubleAt(s, i);
      assert s[i..i + 3] == TROUBLE;
      TroubleShows(s[..i], s[i + 3..]);
      assert s == s[..i] + TROUBLE + s[i + 3..];
      assert s[..i + 3] == s[..i] + TROUBLE && s[i + 3..] == s[i + 3..];
      assert !CutsAt(s, i + 3);
    }
  }

  lemma TroubleShows(a: string, b: string)
    ensures Normalised(Normalised(a + TROUBLE) + b) != Normalised(a + TROUBLE + b)
  {
    var text := a + TROUBLE;
    NormalisedTrouble();
    NormalisedJoins(a, TROUBLE);
    NormalisedJoins(text, b);
    var n := Normalised(text);
    assert n == Normalised(a) + "\r\n";
    NormalisedJoins(n, b);
    Shrinks(Normalised(a));
    assert |Normalised(n)| < |n|;
  }

  lemma NormalisedTrouble()
    ensures Normalised(TROUBLE) == "\r\n"
  {
    assert TROUBLE[1..] == "\r\n";
    PairIs();
  }

  lemma Shrinks(a: string)
    ensures |Normalised(a + "\r\n")| < |a + "\r\n"|
  {
    assert !SplitsPair(a, "\r\n");
    NormalisedJoins(a, "\r\n");
    NormalisedEnds(a);
    PairIs();
  }

  lemma PlainIs(s: string)
    requires CR !in s
    ensures Stable(s) && !HasPair(s) && Normalised(s) == s
  {
    assert forall i :: 0 <= i < |s| ==> s[i] in s;
    NoPairIs(s);
  }

  // The pattern after a plain line, read once; and what is left of it, read again with what follows.
  lemma TroubleReads(line: string, tail: string)
    requires CR !in line && CR !in tail
    ensures Normalised(line + TROUBLE + tail) == line + "\r\n" + tail
  {
    hide Normalised, Stable, HasPair;
    PlainIs(line);
    PlainIs(tail);
    NormalisedTrouble();
    NormalisedJoins(line, TROUBLE);
    NormalisedJoins(line + TROUBLE, tail);
  }

  lemma PairReads(line: string, tail: string)
    requires CR !in line && CR !in tail
    ensures Normalised(line + "\r\n" + tail) == line + "\n" + tail
  {
    hide Normalised, Stable, HasPair;
    PlainIs(line);
    PlainIs(tail);
    PairIs();
    NormalisedJoins(line, "\r\n");
    NormalisedJoins(line + "\r\n", tail);
  }

  lemma PairIs()
    ensures Normalised("\r\n") == "\n"
  {
    assert "\r\n"[2..] == "";
  }
}
